/**
 * Line ingestion and the two stream loops: parseLine with its package-level
 * counter staticLineNum (chat-parser/main.go:488-523), printSingleEntry
 * (chat-parser/main.go:626-666), the sending half of createBuildkiteAnnotation
 * and parseAndStreamOutput / parseAndStreamOutputWithFile
 * (chat-parser/main.go:443-486). The process-wide state is a Processor object:
 * the counter, standard output, the capture file and the annotation sink.
 */
module Transcript {
  import opened Wrappers
  import opened Text
  import opened Events
  import opened Classifier
  import opened Annotation
  import opened RelativeTime

  /** The ChatEntry struct (lines 348-355); the timestamp is already formatted. */
  datatype ChatEntry = ChatEntry(
    lineNumber: nat,
    speaker: string,
    content: string,
    timestamp: string,
    isJson: bool,
    rawLine: string)

  /** One line read by the scanner, with the whole seconds elapsed since start-up
      when it is parsed. */
  datatype Arrival = Arrival(text: string, elapsed: nat)

  /** What parseLine builds from one line before the counter numbers it (lines
      489-522): nothing for a blank line; otherwise the trimmed line, read as a JSON
      event when it starts with '{' and decodes, else as SYSTEM text, stamped with
      the elapsed time. Its line number is 0 until Stamp sets it. */
  function Parse(rt: Runtime, rawLine: string, elapsedSeconds: nat): Option<ChatEntry> {
    var line := TrimSpace(rawLine);
    if line == "" then None
    else
      var timestamp := FormatRelativeTime(elapsedSeconds);
      var d := Decoded(rt, line);
      if d.Some? then
        var v := ConsoleView(rt, d.value);
        Some(ChatEntry(0, v.speaker, v.content, timestamp, true, line))
      else Some(ChatEntry(0, "SYSTEM", line, timestamp, false, line))
  }

  /** The counter value written into a parsed entry. */
  function Stamp(parsed: Option<ChatEntry>, lineNumber: nat): Option<ChatEntry> {
    match parsed
    case None => None
    case Some(e) => Some(e.(lineNumber := lineNumber))
  }

  /** parseLine once the counter has been advanced to lineNumber. */
  function EntryFor(rt: Runtime, rawLine: string, lineNumber: nat, elapsedSeconds: nat): Option<ChatEntry> {
    Stamp(Parse(rt, rawLine, elapsedSeconds), lineNumber)
  }

  /** A line yields an entry exactly when it is not blank; the entry carries the
      counter value, the trimmed line and the elapsed time. */
  lemma EntryShape(rt: Runtime, rawLine: string, lineNumber: nat, elapsedSeconds: nat)
    ensures EntryFor(rt, rawLine, lineNumber, elapsedSeconds).Some? <==> !Blank(rawLine)
    ensures var entry := EntryFor(rt, rawLine, lineNumber, elapsedSeconds);
      entry.Some? ==>
        && entry.value.lineNumber == lineNumber
        && entry.value.rawLine == TrimSpace(rawLine)
        && entry.value.timestamp == FormatRelativeTime(elapsedSeconds)
  {
    TrimSpaceBlank(rawLine);
  }

  /** [%03d] [timestamp] SPEAKER: without colour codes and padding (line 649). */
  function Prefix(e: ChatEntry): string {
    "[" + ZeroPad(e.lineNumber, 3) + "] [" + e.timestamp + "] " + e.speaker + ":"
  }

  /** The lines printSingleEntry writes (lines 627-665): nothing for empty content;
      otherwise the prefix and the first content line, each further content line on
      its own, and a blank line after a JSON entry. */
  function PrintedLines(e: ChatEntry): seq<string> {
    if e.content == "" then []
    else
      var lines := Split(e.content, '\n');
      [Prefix(e) + " " + lines[0]] + lines[1..] + (if e.isJson then [""] else [])
  }

  /** Every arrival parsed on its own. */
  function Parses(rt: Runtime, arrivals: seq<Arrival>): (parses: seq<Option<ChatEntry>>)
    ensures ParsesOf(rt, arrivals, parses)
  {
    seq(|arrivals|, k requires 0 <= k < |arrivals| => Parse(rt, arrivals[k].text, arrivals[k].elapsed))
  }

  /** parses holds the parse of each arrival, position by position. */
  predicate ParsesOf(rt: Runtime, arrivals: seq<Arrival>, parses: seq<Option<ChatEntry>>) {
    && |parses| == |arrivals|
    && forall k {:trigger arrivals[k]} :: 0 <= k < |arrivals| ==> parses[k] == Parse(rt, arrivals[k].text, arrivals[k].elapsed)
  }

  /** The counter at work: the parsed lines that are entries, in order, numbered
      on from start. */
  function Numbered(parses: seq<Option<ChatEntry>>, start: nat): seq<ChatEntry> {
    if parses == [] then []
    else
      var n := |parses| - 1;
      var prev := Numbered(parses[..n], start);
      prev + ToSeq(Stamp(parses[n], start + |prev| + 1))
  }

  /** The entries the stream loop produces for the arrivals, with the counter at
      start beforehand. */
  function Entries(rt: Runtime, arrivals: seq<Arrival>, start: nat): seq<ChatEntry> {
    Numbered(Parses(rt, arrivals), start)
  }

  /** What the entries print on standard output, in order. */
  function Printed(entries: seq<ChatEntry>): seq<string> {
    if entries == [] then []
    else Printed(entries[..|entries| - 1]) + PrintedLines(entries[|entries| - 1])
  }

  /** What the entries send to the annotation sink, in order. */
  function Notes(rt: Runtime, entries: seq<ChatEntry>): seq<Note> {
    if entries == [] then []
    else
      var e := entries[|entries| - 1];
      Notes(rt, entries[..|entries| - 1]) + ToSeq(AnnotationFor(rt, e.rawLine, e.lineNumber, e.timestamp))
  }

  /** The raw text of the arrivals, as the capture file receives it. */
  function Texts(arrivals: seq<Arrival>): (texts: seq<string>)
    ensures |texts| == |arrivals|
    ensures forall k :: 0 <= k < |arrivals| ==> texts[k] == arrivals[k].text
  {
    seq(|arrivals|, k requires 0 <= k < |arrivals| => arrivals[k].text)
  }

  lemma TextsStep(arrivals: seq<Arrival>, i: nat)
    requires i < |arrivals|
    ensures Texts(arrivals[..i + 1]) == Texts(arrivals[..i]) + [arrivals[i].text]
  { }

  /** The arrivals that are not blank, in order. */
  function NonBlank(arrivals: seq<Arrival>): seq<Arrival> {
    if arrivals == [] then []
    else
      var n := |arrivals| - 1;
      NonBlank(arrivals[..n]) + (if Blank(arrivals[n].text) then [] else [arrivals[n]])
  }

  class Processor {
    const rt: Runtime
    /** staticLineNum. */
    var lineNum: nat
    /** Lines written to standard output. */
    var stdout: seq<string>
    /** Lines written to the -o capture file. */
    var capture: seq<string>
    /** Annotations delivered to the sink. */
    var annotations: seq<Note>

    constructor (rt: Runtime)
      ensures this.rt == rt
      ensures lineNum == 0 && stdout == [] && capture == [] && annotations == []
    {
      this.rt := rt;
      lineNum := 0;
      stdout, capture, annotations := [], [], [];
    }

    /** parseLine (lines 488-523): a blank line gives no entry and leaves the
        counter alone; any other line advances it and is numbered with it. */
    method ParseLine(rawLine: string, elapsedSeconds: nat) returns (entry: Option<ChatEntry>)
      modifies this`lineNum
      ensures entry == EntryFor(rt, rawLine, old(lineNum) + 1, elapsedSeconds)
      ensures lineNum == if entry.Some? then old(lineNum) + 1 else old(lineNum)
      ensures entry.Some? ==> entry.value.lineNumber == lineNum && entry.value.rawLine == TrimSpace(rawLine)
    {
      var line := TrimSpace(rawLine);
      if line == "" {
        return None;
      }
      lineNum := lineNum + 1;
      var timestamp := FormatRelativeTime(elapsedSeconds);
      if StartsWithBrace(line) {
        var d := rt.decode(line);
        if d.Some? {
          var speaker, content := FormatJsonMessage(rt, d.value);
          return Some(ChatEntry(lineNum, speaker, content, timestamp, true, line));
        }
      }
      return Some(ChatEntry(lineNum, "SYSTEM", line, timestamp, false, line));
    }

    /** printSingleEntry (lines 626-666). */
    method PrintEntry(e: ChatEntry)
      modifies this`stdout
      ensures stdout == old(stdout) + PrintedLines(e)
    {
      if e.content == "" {
        return;
      }
      var lines := Split(e.content, '\n');
      for i := 0 to |lines|
        invariant i == 0 ==> stdout == old(stdout)
        invariant i > 0 ==> stdout == old(stdout) + [Prefix(e) + " " + lines[0]] + lines[1..i]
      {
        if i == 0 {
          stdout := stdout + [Prefix(e) + " " + lines[i]];
        } else {
          stdout := stdout + [lines[i]];
        }
      }
      ghost var shown := [Prefix(e) + " " + lines[0]] + lines[1..];
      assert stdout == old(stdout) + shown by {
        assert lines[1..|lines|] == lines[1..];
      }
      if e.isJson {
        stdout := stdout + [""];
        assert PrintedLines(e) == shown + [""];
      } else {
        assert PrintedLines(e) == shown + [];
      }
    }

    /** createBuildkiteAnnotation (lines 46-149), the markdown built piece by piece
        and the annotate call modelled as appending to the sink. */
    method Annotate(rawLine: string, lineNumber: nat, timestamp: string)
      modifies this`annotations
      ensures annotations == old(annotations) + ToSeq(AnnotationFor(rt, rawLine, lineNumber, timestamp))
    {
      var line := TrimSpace(rawLine);
      if line == "" {
        return;
      }
      var markdown := Header(lineNumber, timestamp);
      var speaker, content, hasError := "SYSTEM", line, false;
      if StartsWithBrace(line) {
        var d := rt.decode(line);
        if d.Some? {
          speaker, content, hasError := ExtractCleanContent(rt, d.value);
          if content == UnknownMessageType {
            return;
          }
        }
      }
      var style := "info";
      if speaker == "ASSISTANT" {
        markdown := markdown + SpeakerHeading(speaker);
        style := "info";
      } else if speaker == "USER" {
        markdown := markdown + SpeakerHeading(speaker);
        style := if hasError then "error" else "success";
      } else if speaker == "SYSTEM" {
        markdown := markdown + SpeakerHeading(speaker);
        style := "warning";
      } else {
        markdown := markdown + SpeakerHeading(speaker);
        style := "info";
      }
      if content != "" {
        markdown := markdown + content;
      } else {
        assert markdown + content == markdown;
      }
      markdown := markdown + DetailsOpen;
      markdown := markdown + RawShown(rt, line);
      markdown := markdown + DetailsClose;
      var context := ContextKey(lineNumber);
      ghost var c := Classified(speaker, content, hasError);
      assert c == ClassifyLine(rt, line);
      assert style == StyleFor(c.speaker, c.hasError);
      assert markdown == Markdown(lineNumber, timestamp, c, RawShown(rt, line));
      assert AnnotationFor(rt, rawLine, lineNumber, timestamp) == Some(Note(style, context, markdown));
      annotations := annotations + [Note(style, context, markdown)];
    }

    /** The body of both scanner loops after the optional tee (lines 445-450,
        474-480); added is the entry the line gives, if any. */
    method Handle(a: Arrival) returns (ghost added: seq<ChatEntry>)
      modifies this`lineNum, this`stdout, this`annotations
      ensures added == ToSeq(EntryFor(rt, a.text, old(lineNum) + 1, a.elapsed))
      ensures lineNum == old(lineNum) + |added|
      ensures stdout == old(stdout) + Printed(added)
      ensures annotations == old(annotations) + Notes(rt, added)
    {
      var entry := ParseLine(a.text, a.elapsed);
      added := ToSeq(entry);
      if entry.Some? {
        Emit(a.text, entry.value);
        assert added == [entry.value];
      }
    }

    /** Printing and annotating the entry parsed from rawLine. */
    method Emit(rawLine: string, e: ChatEntry)
      requires e.rawLine == TrimSpace(rawLine)
      modifies this`stdout, this`annotations
      ensures stdout == old(stdout) + Printed([e])
      ensures annotations == old(annotations) + Notes(rt, [e])
    {
      PrintEntry(e);
      Annotate(rawLine, e.lineNumber, e.timestamp);
      OneEntry(rt, rawLine, e);
    }

    /** The counter, the console and the annotations hold what the entries produce,
        numbered on from start, after out0 and notes0. */
    ghost predicate Streamed(entries: seq<ChatEntry>, start: nat, out0: seq<string>, notes0: seq<Note>)
      reads this`lineNum, this`stdout, this`annotations
    {
      && lineNum == start + |entries|
      && stdout == out0 + Printed(entries)
      && annotations == notes0 + Notes(rt, entries)
    }

    /** One turn of either scanner loop extends what Streamed covers from before to
        after: before and the line's entry, if any. */
    method Step(a: Arrival, ghost parsed: Option<ChatEntry>, ghost before: seq<ChatEntry>, ghost n: nat,
                ghost start: nat, ghost out0: seq<string>, ghost notes0: seq<Note>)
      requires parsed == Parse(rt, a.text, a.elapsed)
      requires n == lineNum && Streamed(before, start, out0, notes0)
      modifies this`lineNum, this`stdout, this`annotations
      ensures Streamed(before + ToSeq(Stamp(parsed, n + 1)), start, out0, notes0)
    {
      ghost var added := Handle(a);
      assert added == ToSeq(Stamp(parsed, n + 1));
      PrintedAppend(before, added);
      NotesAppend(rt, before, added);
      AppendAssoc(out0, Printed(before), Printed(added));
      AppendAssoc(notes0, Notes(rt, before), Notes(rt, added));
    }

    /** One turn of either scanner loop, on the i-th arrival: what Streamed covers
        grows from the entries of the first i parsed lines to those of the first i + 1. */
    method Advance(a: Arrival, ghost parses: seq<Option<ChatEntry>>, ghost i: nat, ghost start: nat,
                   ghost out0: seq<string>, ghost notes0: seq<Note>)
      requires i < |parses| && parses[i] == Parse(rt, a.text, a.elapsed)
      requires Streamed(Numbered(parses[..i], start), start, out0, notes0)
      modifies this`lineNum, this`stdout, this`annotations
      ensures Streamed(Numbered(parses[..i + 1], start), start, out0, notes0)
    {
      ghost var before := Numbered(parses[..i], start);
      ghost var n := lineNum;
      Step(a, parses[i], before, n, start, out0, notes0);
      StreamedNext(parses, i, start, n, before, out0, notes0);
    }

    /** What Step establishes is Streamed over the numbered entries one line on. */
    lemma StreamedNext(parses: seq<Option<ChatEntry>>, i: nat, start: nat, n: nat, before: seq<ChatEntry>,
                       out0: seq<string>, notes0: seq<Note>)
      requires i < |parses| && before == Numbered(parses[..i], start) && n == start + |before|
      requires Streamed(before + ToSeq(Stamp(parses[i], n + 1)), start, out0, notes0)
      ensures Streamed(Numbered(parses[..i + 1], start), start, out0, notes0)
    {
      NumberedNext(parses, i, start, n, before);
      SameStream(before + ToSeq(Stamp(parses[i], n + 1)), Numbered(parses[..i + 1], start), start, out0, notes0);
    }

    /** Streamed depends on the entries only as a sequence value. */
    lemma SameStream(x: seq<ChatEntry>, y: seq<ChatEntry>, start: nat, out0: seq<string>, notes0: seq<Note>)
      requires x == y
      ensures Streamed(x, start, out0, notes0) == Streamed(y, start, out0, notes0)
    { }

    /** parseAndStreamOutput (lines 443-456). */
    method Stream(arrivals: seq<Arrival>)
      modifies this`lineNum, this`stdout, this`annotations
      ensures var entries := Entries(rt, arrivals, old(lineNum));
        && lineNum == old(lineNum) + |entries|
        && stdout == old(stdout) + Printed(entries)
        && annotations == old(annotations) + Notes(rt, entries)
    {
      ghost var start := lineNum;
      assert ParsesOf(rt, arrivals, Parses(rt, arrivals));
      ghost var parses :| ParsesOf(rt, arrivals, parses);
      assert ParsesOf(rt, arrivals, parses);
      for i := 0 to |arrivals|
        invariant Streamed(Numbered(parses[..i], start), start, old(stdout), old(annotations))
      {
        Advance(arrivals[i], parses, i, start, old(stdout), old(annotations));
      }
      assert parses[..|arrivals|] == parses == Parses(rt, arrivals);
    }

    /** parseAndStreamOutputWithFile (lines 459-486): every raw line, blank or not,
        is first written to the capture file. */
    method StreamWithFile(arrivals: seq<Arrival>)
      modifies this`lineNum, this`stdout, this`annotations, this`capture
      ensures capture == old(capture) + Texts(arrivals)
      ensures var entries := Entries(rt, arrivals, old(lineNum));
        && lineNum == old(lineNum) + |entries|
        && stdout == old(stdout) + Printed(entries)
        && annotations == old(annotations) + Notes(rt, entries)
    {
      ghost var start := lineNum;
      assert ParsesOf(rt, arrivals, Parses(rt, arrivals));
      ghost var parses :| ParsesOf(rt, arrivals, parses);
      assert ParsesOf(rt, arrivals, parses);
      for i := 0 to |arrivals|
        invariant capture == old(capture) + Texts(arrivals[..i])
        invariant Streamed(Numbered(parses[..i], start), start, old(stdout), old(annotations))
      {
        TextsStep(arrivals, i);
        AppendAssoc(old(capture), Texts(arrivals[..i]), [arrivals[i].text]);
        capture := capture + [arrivals[i].text];
        Advance(arrivals[i], parses, i, start, old(stdout), old(annotations));
      }
      assert arrivals[..|arrivals|] == arrivals && parses[..|arrivals|] == parses == Parses(rt, arrivals);
    }
  }

  lemma AppendAssoc<T>(x: seq<T>, y: seq<T>, z: seq<T>)
    ensures (x + y) + z == x + (y + z)
  { }

  /** NumberedStep with the entries so far and the counter value after them given. */
  lemma NumberedNext(parses: seq<Option<ChatEntry>>, i: nat, start: nat, n: nat, entries: seq<ChatEntry>)
    requires i < |parses| && entries == Numbered(parses[..i], start) && n == start + |entries|
    ensures entries + ToSeq(Stamp(parses[i], n + 1)) == Numbered(parses[..i + 1], start)
  {
    NumberedStep(parses, i, start);
  }

  /** One more parsed line adds its entry, if any, to the numbered entries before it. */
  lemma NumberedStep(parses: seq<Option<ChatEntry>>, i: nat, start: nat)
    requires i < |parses|
    ensures var before := Numbered(parses[..i], start);
      Numbered(parses[..i + 1], start) == before + ToSeq(Stamp(parses[i], start + |before| + 1))
  {
    var longer := parses[..i + 1];
    assert longer[..|longer| - 1] == parses[..i];
  }

  /** What one entry parsed from rawLine prints and annotates. */
  lemma OneEntry(rt: Runtime, rawLine: string, e: ChatEntry)
    requires e.rawLine == TrimSpace(rawLine)
    ensures Printed([e]) == PrintedLines(e)
    ensures Notes(rt, [e]) == ToSeq(AnnotationFor(rt, rawLine, e.lineNumber, e.timestamp))
  {
    assert [e][..0] == [];
    AnnotationOfTrimmed(rt, rawLine, e.lineNumber, e.timestamp);
  }

  lemma PrintedAppend(a: seq<ChatEntry>, b: seq<ChatEntry>)
    requires |b| <= 1
    ensures Printed(a + b) == Printed(a) + Printed(b)
  {
    if |b| == 1 {
      assert (a + b)[..|a + b| - 1] == a;
      assert b[..0] == [];
    } else {
      assert a + b == a;
    }
  }

  lemma NotesAppend(rt: Runtime, a: seq<ChatEntry>, b: seq<ChatEntry>)
    requires |b| <= 1
    ensures Notes(rt, a + b) == Notes(rt, a) + Notes(rt, b)
  {
    if |b| == 1 {
      assert (a + b)[..|a + b| - 1] == a;
      assert b[..0] == [];
    } else {
      assert a + b == a;
    }
  }

  // ---------------------------------------------------------------------------
  // Properties

  /** A non-blank line read as a JSON event carries the console view of the
      message; every other non-blank line falls back to SYSTEM with the trimmed
      line as its content. */
  lemma EntryKind(rt: Runtime, rawLine: string, lineNumber: nat, elapsedSeconds: nat)
    requires !Blank(rawLine)
    ensures EntryFor(rt, rawLine, lineNumber, elapsedSeconds).Some?
    ensures var e, line := EntryFor(rt, rawLine, lineNumber, elapsedSeconds).value, TrimSpace(rawLine);
      var d := Decoded(rt, line);
      && (e.isJson <==> d.Some?)
      && (d.Some? ==> e.speaker == ConsoleView(rt, d.value).speaker && e.content == ConsoleView(rt, d.value).content)
      && (d.None? ==> e.speaker == "SYSTEM" && e.content == line)
  {
    EntryShape(rt, rawLine, lineNumber, elapsedSeconds);
  }

  /** An entry with empty content prints nothing, yet it is still annotated. */
  lemma EmptyEntryStillAnnotated(rt: Runtime, rawLine: string, lineNumber: nat, elapsedSeconds: nat)
    requires EntryFor(rt, rawLine, lineNumber, elapsedSeconds).Some?
    requires EntryFor(rt, rawLine, lineNumber, elapsedSeconds).value.content == ""
    ensures var e := EntryFor(rt, rawLine, lineNumber, elapsedSeconds).value;
      PrintedLines(e) == [] && AnnotationFor(rt, rawLine, lineNumber, e.timestamp).Some?
  {
    var line := TrimSpace(rawLine);
    EntryShape(rt, rawLine, lineNumber, elapsedSeconds);
    EntryKind(rt, rawLine, lineNumber, elapsedSeconds);
    TrimSpaceBlank(rawLine);
    var d := Decoded(rt, line);
    if d.Some? {
      ViewsAgree(rt, d.value);
    }
  }

  /** The printed lines of an entry with content are its prefix, a space and the
      content's lines, and a blank line after a JSON entry: dropping those gives the
      content back. */
  lemma PrintedLinesRecoverContent(e: ChatEntry)
    requires e.content != ""
    ensures var p, head := PrintedLines(e), Prefix(e) + " ";
      && |p| == multiset(e.content)['\n'] + 1 + (if e.isJson then 1 else 0)
      && head <= p[0]
      && (e.isJson ==> p[|p| - 1] == "")
      && Join([p[0][|head|..]] + p[1..|p| - (if e.isJson then 1 else 0)], "\n") == e.content
  {
    var lines := Split(e.content, '\n');
    var p, head := PrintedLines(e), Prefix(e) + " ";
    var n := |p| - (if e.isJson then 1 else 0);
    SplitCount(e.content, '\n');
    assert p[0] == head + lines[0];
    assert p[0][|head|..] == lines[0];
    assert [p[0][|head|..]] + p[1..n] == lines;
    JoinSplit(e.content, '\n');
  }

  /** Stream entries, as the counter numbers them: one per non-blank line, in
      order, numbered on from the counter without gaps, each with its trimmed line
      and elapsed time. */
  lemma {:induction false} NumberedShape(rt: Runtime, arrivals: seq<Arrival>, parses: seq<Option<ChatEntry>>, start: nat)
    requires ParsesOf(rt, arrivals, parses)
    ensures var entries, kept := Numbered(parses, start), NonBlank(arrivals);
      && |entries| == |kept|
      && forall k :: 0 <= k < |entries| ==>
           && entries[k].lineNumber == start + k + 1
           && entries[k].rawLine == TrimSpace(kept[k].text)
           && entries[k].timestamp == FormatRelativeTime(kept[k].elapsed)
  {
    if arrivals != [] {
      var n := |arrivals| - 1;
      assert ParsesOf(rt, arrivals[..n], parses[..n]);
      NumberedShape(rt, arrivals[..n], parses[..n], start);
      var prev := Numbered(parses[..n], start);
      assert parses[..n + 1] == parses;
      NumberedStep(parses, n, start);
      EntryShape(rt, arrivals[n].text, start + |prev| + 1, arrivals[n].elapsed);
      assert arrivals[..n + 1] == arrivals;
    }
  }

  /** e is the entry parseLine gives for the line a with the counter at m. */
  ghost predicate EntryOfLine(rt: Runtime, e: ChatEntry, a: Arrival, m: nat) {
    Some(e) == EntryFor(rt, a.text, m, a.elapsed)
  }

  /** entries pairs off with the non-blank lines kept, each entry being what
      parseLine gives for its line with the counter at its number. */
  ghost predicate Aligned(rt: Runtime, entries: seq<ChatEntry>, kept: seq<Arrival>, start: nat) {
    && |entries| == |kept|
    && forall k :: 0 <= k < |entries| ==> EntryOfLine(rt, entries[k], kept[k], start + k + 1)
  }

  /** One more aligned pair at the end keeps two sequences aligned. */
  lemma {:induction false} AlignedSnoc(rt: Runtime, es: seq<ChatEntry>, xs: seq<Arrival>, e: ChatEntry, x: Arrival, start: nat)
    requires Aligned(rt, es, xs, start)
    requires EntryOfLine(rt, e, x, start + |es| + 1)
    ensures Aligned(rt, es + [e], xs + [x], start)
  {
    forall k | 0 <= k < |es| + 1
      ensures EntryOfLine(rt, (es + [e])[k], (xs + [x])[k], start + k + 1)
    {
      if k < |es| {
        assert (es + [e])[k] == es[k] && (xs + [x])[k] == xs[k];
      } else {
        assert (es + [e])[k] == e && (xs + [x])[k] == x;
      }
    }
  }

  /** The entry parseLine gives, when there is one, is EntryOfLine for its line. */
  lemma EntryIsOfLine(rt: Runtime, a: Arrival, m: nat, entry: Option<ChatEntry>)
    requires entry == EntryFor(rt, a.text, m, a.elapsed) && entry.Some?
    ensures EntryOfLine(rt, entry.value, a, m)
  {
  }

  /** One more line keeps the entries aligned with the non-blank lines. */
  lemma {:induction false} AlignedStep(rt: Runtime, prev: seq<ChatEntry>, keptBefore: seq<Arrival>, a: Arrival, entry: Option<ChatEntry>, tail: seq<Arrival>, start: nat)
    requires Aligned(rt, prev, keptBefore, start)
    requires entry == EntryFor(rt, a.text, start + |prev| + 1, a.elapsed)
    requires tail == if Blank(a.text) then [] else [a]
    ensures Aligned(rt, prev + ToSeq(entry), keptBefore + tail, start)
  {
    var m := start + |prev| + 1;
    EntryShape(rt, a.text, m, a.elapsed);
    if entry.Some? {
      EntryIsOfLine(rt, a, m, entry);
      AlignedSnoc(rt, prev, keptBefore, entry.value, a, start);
      AlignedSame(rt, prev + [entry.value], keptBefore + [a], prev + ToSeq(entry), keptBefore + tail, start);
    } else {
      AlignedSame(rt, prev, keptBefore, prev + ToSeq(entry), keptBefore + tail, start);
    }
  }

  /** Aligned is about the values of its arguments only. */
  lemma AlignedSame(rt: Runtime, es: seq<ChatEntry>, xs: seq<Arrival>, fs: seq<ChatEntry>, ys: seq<Arrival>, start: nat)
    requires es == fs
    requires xs == ys
    requires Aligned(rt, es, xs, start)
    ensures Aligned(rt, fs, ys, start)
  {
  }

  /** Numbered, unfolded once at the last parsed line, given that line's entry. */
  lemma NumberedLast(parses: seq<Option<ChatEntry>>, n: nat, start: nat, entry: Option<ChatEntry>)
    requires n + 1 == |parses|
    requires Stamp(parses[n], start + |Numbered(parses[..n], start)| + 1) == entry
    ensures Numbered(parses, start) == Numbered(parses[..n], start) + ToSeq(entry)
  {
  }

  /** NonBlank, unfolded once at the last line. */
  lemma NonBlankLast(arrivals: seq<Arrival>, n: nat)
    requires n + 1 == |arrivals|
    ensures NonBlank(arrivals) == NonBlank(arrivals[..n]) + (if Blank(arrivals[n].text) then [] else [arrivals[n]])
  {
  }

  /** The last parsed line keeps the numbered entries aligned with the
      non-blank lines. */
  lemma {:induction false} NumberedLastAligned(rt: Runtime, arrivals: seq<Arrival>, parses: seq<Option<ChatEntry>>, n: nat, start: nat)
    requires n + 1 == |parses| == |arrivals|
    requires parses[n] == Parse(rt, arrivals[n].text, arrivals[n].elapsed)
    requires Aligned(rt, Numbered(parses[..n], start), NonBlank(arrivals[..n]), start)
    ensures Aligned(rt, Numbered(parses, start), NonBlank(arrivals), start)
  {
    var prev, keptBefore := Numbered(parses[..n], start), NonBlank(arrivals[..n]);
    var m := start + |prev| + 1;
    var a := arrivals[n];
    var entry := EntryFor(rt, a.text, m, a.elapsed);
    var tail := if Blank(a.text) then [] else [a];
    AlignedStep(rt, prev, keptBefore, a, entry, tail, start);
    NumberedLast(parses, n, start, entry);
    NonBlankLast(arrivals, n);
    AlignedSame(rt, prev + ToSeq(entry), keptBefore + tail, Numbered(parses, start), NonBlank(arrivals), start);
  }

  /** Each numbered entry is exactly what parseLine gives for its non-blank line
      with the counter at that entry's number. */
  lemma {:induction false} NumberedAreEntries(rt: Runtime, arrivals: seq<Arrival>, parses: seq<Option<ChatEntry>>, start: nat)
    requires ParsesOf(rt, arrivals, parses)
    ensures Aligned(rt, Numbered(parses, start), NonBlank(arrivals), start)
  {
    if arrivals != [] {
      var n := |arrivals| - 1;
      assert ParsesOf(rt, arrivals[..n], parses[..n]);
      NumberedAreEntries(rt, arrivals[..n], parses[..n], start);
      NumberedLastAligned(rt, arrivals, parses, n, start);
    }
  }

  /** The entries of a whole stream, each as parseLine gives it for its line:
      as many entries as non-blank lines, and the k-th entry is parseLine's for
      the k-th non-blank line with the counter at start + k + 1. */
  lemma EntriesAreParsedLines(rt: Runtime, arrivals: seq<Arrival>, start: nat)
    ensures var entries, kept := Entries(rt, arrivals, start), NonBlank(arrivals);
      && |entries| == |kept|
      && forall k :: 0 <= k < |entries| ==>
           Some(entries[k]) == EntryFor(rt, kept[k].text, start + k + 1, kept[k].elapsed)
  {
    NumberedAreEntries(rt, arrivals, Parses(rt, arrivals), start);
  }

  /** NumberedShape for the entries of a whole stream. */
  lemma EntriesNumbered(rt: Runtime, arrivals: seq<Arrival>, start: nat)
    ensures var entries, kept := Entries(rt, arrivals, start), NonBlank(arrivals);
      && |entries| == |kept|
      && forall k :: 0 <= k < |entries| ==>
           && entries[k].lineNumber == start + k + 1
           && entries[k].rawLine == TrimSpace(kept[k].text)
           && entries[k].timestamp == FormatRelativeTime(kept[k].elapsed)
  {
    NumberedShape(rt, arrivals, Parses(rt, arrivals), start);
  }

  /** No two of the notes share a context, and none has the context key of a
      number from bound on. */
  ghost predicate ContextsFresh(notes: seq<Note>, bound: nat) {
    && (forall i, j :: 0 <= i < j < |notes| ==> notes[i].context != notes[j].context)
    && forall i, x :: 0 <= i < |notes| && bound <= x ==> notes[i].context != ContextKey(x)
  }

  /** Appending at most one note for a line below bound, above every earlier one,
      keeps the contexts fresh. */
  lemma ContextsStep(before: seq<Note>, added: seq<Note>, line: nat, bound: nat)
    requires |added| <= 1 && line < bound
    requires ContextsFresh(before, line)
    requires forall i :: 0 <= i < |added| ==> added[i].context == ContextKey(line)
    ensures ContextsFresh(before + added, bound)
  {
    var notes := before + added;
    forall x | line < x
      ensures ContextKey(line) != ContextKey(x)
    {
      ContextKeyInjective(line, x);
    }
    forall i, j | 0 <= i < j < |notes|
      ensures notes[i].context != notes[j].context
    {
      assert notes[i] == before[i];
    }
  }

  /** When the entries are numbered in increasing order and below bound, no two
      notes they send share a context, and none has the context key of a number
      from bound on. */
  lemma {:induction false} NoteContextsDistinct(rt: Runtime, entries: seq<ChatEntry>, bound: nat)
    requires forall i, j :: 0 <= i < j < |entries| ==> entries[i].lineNumber < entries[j].lineNumber
    requires forall k :: 0 <= k < |entries| ==> entries[k].lineNumber < bound
    ensures ContextsFresh(Notes(rt, entries), bound)
  {
    if entries != [] {
      var n := |entries| - 1;
      var e := entries[n];
      NoteContextsDistinct(rt, entries[..n], e.lineNumber);
      var added := ToSeq(AnnotationFor(rt, e.rawLine, e.lineNumber, e.timestamp));
      if added != [] {
        AnnotationContext(rt, e.rawLine, e.lineNumber, e.timestamp);
      }
      ContextsStep(Notes(rt, entries[..n]), added, e.lineNumber, bound);
    }
  }

  /** Every annotation a stream sends has its own context key. */
  lemma StreamNotesDistinct(rt: Runtime, arrivals: seq<Arrival>, start: nat)
    ensures var notes := Notes(rt, Entries(rt, arrivals, start));
      forall i, j :: 0 <= i < j < |notes| ==> notes[i].context != notes[j].context
  {
    EntriesNumbered(rt, arrivals, start);
    NoteContextsDistinct(rt, Entries(rt, arrivals, start), start + |Entries(rt, arrivals, start)| + 1);
  }
}
