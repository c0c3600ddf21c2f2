/**
 * formatRelativeTime (chat-parser/main.go:33-43): elapsed whole seconds shown as
 * MM:SS, or HH:MM:SS once at least one full hour has passed. The clock reading
 * and the truncation of the float duration to whole seconds happen outside the
 * model: the input is already a whole number of seconds.
 */
module RelativeTime {
  import opened Wrappers
  import opened Text

  datatype Clock = Clock(hours: nat, minutes: nat, seconds: nat)

  function Value(c: Clock): nat {
    c.hours * 3600 + c.minutes * 60 + c.seconds
  }

  /** The hours/minutes/seconds decomposition (lines 35-37). */
  function Fields(totalSeconds: nat): (c: Clock)
    ensures c.minutes < 60 && c.seconds < 60
    ensures Value(c) == totalSeconds
    ensures c.hours > 0 <==> totalSeconds >= 3600
  {
    Clock(totalSeconds / 3600, (totalSeconds % 3600) / 60, totalSeconds % 60)
  }

  /** The printed fields: hours only when there is at least one, each at least two digits. */
  function Columns(c: Clock): seq<string> {
    if c.hours > 0 then [ZeroPad(c.hours, 2), ZeroPad(c.minutes, 2), ZeroPad(c.seconds, 2)]
    else [ZeroPad(c.minutes, 2), ZeroPad(c.seconds, 2)]
  }

  /** %02d:%02d:%02d when hours > 0, otherwise %02d:%02d (lines 39-42). */
  function Render(c: Clock): string {
    if c.hours > 0 then ZeroPad(c.hours, 2) + ":" + ZeroPad(c.minutes, 2) + ":" + ZeroPad(c.seconds, 2)
    else ZeroPad(c.minutes, 2) + ":" + ZeroPad(c.seconds, 2)
  }

  function FormatRelativeTime(totalSeconds: nat): string {
    Render(Fields(totalSeconds))
  }

  /** Reads a rendered time back: two or three colon-separated digit fields. */
  function ParseRelativeTime(s: string): Option<nat> {
    ParseColumns(Split(s, ':'))
  }

  function ParseColumns(f: seq<string>): Option<nat> {
    if |f| == 2 && AllDigits(f[0]) && AllDigits(f[1]) then
      Some(60 * DigitsValue(f[0]) + DigitsValue(f[1]))
    else if |f| == 3 && AllDigits(f[0]) && AllDigits(f[1]) && AllDigits(f[2]) then
      Some(3600 * DigitsValue(f[0]) + 60 * DigitsValue(f[1]) + DigitsValue(f[2]))
    else None
  }

  lemma ParseTwoColumns(m: string, s: string)
    requires AllDigits(m) && AllDigits(s)
    ensures ParseColumns([m, s]) == Some(60 * DigitsValue(m) + DigitsValue(s))
  {
    var f := [m, s];
    assert |f| == 2 && f[0] == m && f[1] == s;
  }

  lemma ParseThreeColumns(h: string, m: string, s: string)
    requires AllDigits(h) && AllDigits(m) && AllDigits(s)
    ensures ParseColumns([h, m, s]) == Some(3600 * DigitsValue(h) + 60 * DigitsValue(m) + DigitsValue(s))
  {
    var f := [h, m, s];
    assert |f| == 3 && f[0] == h && f[1] == m && f[2] == s;
  }

  /** A rendered clock splits on ':' into exactly its columns. */
  lemma {:induction false} RenderSplits(c: Clock)
    ensures Split(Render(c), ':') == Columns(c)
  {
    var h, m, s := ZeroPad(c.hours, 2), ZeroPad(c.minutes, 2), ZeroPad(c.seconds, 2);
    assert Join([m, s], ":") == m + ":" + s by {
      assert [m, s][1..] == [s];
    }
    if c.hours > 0 {
      assert Join([h, m, s], ":") == h + ":" + (m + ":" + s) by {
        assert [h, m, s][1..] == [m, s];
      }
      assert h + ":" + (m + ":" + s) == Render(c);
      SplitJoin([h, m, s], ':');
    } else {
      SplitJoin([m, s], ':');
    }
  }

  /** Reading the columns of a clock gives its value in seconds. */
  lemma {:induction false} ColumnsParse(c: Clock)
    ensures ParseColumns(Columns(c)) == Some(Value(c))
  {
    var h, m, s := ZeroPad(c.hours, 2), ZeroPad(c.minutes, 2), ZeroPad(c.seconds, 2);
    ZeroPadValue(c.hours, 2);
    ZeroPadValue(c.minutes, 2);
    ZeroPadValue(c.seconds, 2);
    if c.hours > 0 {
      ParseThreeColumns(h, m, s);
    } else {
      ParseTwoColumns(m, s);
    }
  }

  /** Reading back a rendered clock gives its value in seconds. */
  lemma {:induction false} RenderParses(c: Clock)
    ensures ParseRelativeTime(Render(c)) == Some(Value(c))
  {
    RenderSplits(c);
    ColumnsParse(c);
  }

  /**
   * The rendering has two fields, minutes and seconds of exactly two digits each,
   * exactly when less than an hour has passed, and three fields otherwise.
   */
  lemma {:induction false} FormatShape(totalSeconds: nat)
    ensures |Split(FormatRelativeTime(totalSeconds), ':')| == if totalSeconds < 3600 then 2 else 3
    ensures totalSeconds < 3600 ==> |FormatRelativeTime(totalSeconds)| == 5
    ensures totalSeconds >= 3600 ==> |FormatRelativeTime(totalSeconds)| >= 8
  {
    RenderSplits(Fields(totalSeconds));
  }

  /** Reading back a rendered time gives the elapsed seconds. */
  lemma {:induction false} FormatParseRoundTrip(totalSeconds: nat)
    ensures ParseRelativeTime(FormatRelativeTime(totalSeconds)) == Some(totalSeconds)
  {
    RenderParses(Fields(totalSeconds));
  }

  /** Different elapsed times are rendered differently. */
  lemma {:induction false} FormatInjective(a: nat, b: nat)
    ensures FormatRelativeTime(a) == FormatRelativeTime(b) ==> a == b
  {
    FormatParseRoundTrip(a);
    FormatParseRoundTrip(b);
  }
}
