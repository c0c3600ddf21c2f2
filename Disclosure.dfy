/**
 * The progressive-disclosure rule of the annotation classifier, written out twice
 * in the source with the same shape: for tool inputs with a limit of 300
 * (chat-parser/main.go:182-216) and for tool results with a limit of 400
 * (chat-parser/main.go:264-299). A string is shown whole unless it splits on
 * "\n" into more than two pieces or is longer than the limit; then it is cut
 * into a preview and a remainder, and the remainder, when non-empty, goes into a
 * collapsible block.
 */
module Disclosure {
  import opened Text

  const ToolInputLimit: nat := 300
  const ToolResultLimit: nat := 400
  const Ellipsis := "..."

  /** What is shown: the text inline, or a preview with the rest folded away. */
  datatype Shown = Inline(text: string) | Collapsed(preview: string, remaining: string)

  /** needsDisclosure (lines 185, 267). */
  predicate NeedsDisclosure(s: string, maxPreviewLength: nat) {
    |Split(s, '\n')| > 2 || |s| > maxPreviewLength
  }

  /** The preview and remainder (lines 192-207, 274-289), including the inner branch
      the outer guard never lets through. */
  function PreviewSplit(s: string, maxPreviewLength: nat): (string, string) {
    var lines := Split(s, '\n');
    if |lines| > 2 then (Join(lines[..2], "\n"), Join(lines[2..], "\n"))
    else if |s| > maxPreviewLength then (s[..maxPreviewLength] + Ellipsis, s[maxPreviewLength..])
    else (s, "")
  }

  /** The whole rule: lines 185-215 for tool inputs and 267-298 for tool results. */
  function Disclose(s: string, maxPreviewLength: nat): Shown {
    if !NeedsDisclosure(s, maxPreviewLength) then Inline(s)
    else
      var (preview, remaining) := PreviewSplit(s, maxPreviewLength);
      if remaining != "" then Collapsed(preview, remaining) else Inline(preview)
  }

  /** Disclosure is needed exactly when the string holds at least two newlines or
      is longer than the limit. */
  lemma NeedsDisclosureMeaning(s: string, maxPreviewLength: nat)
    ensures NeedsDisclosure(s, maxPreviewLength) <==> multiset(s)['\n'] >= 2 || |s| > maxPreviewLength
  {
    SplitCount(s, '\n');
  }

  /** With more than two lines, the preview is exactly the first two lines and
      preview + "\n" + remaining is the original string. */
  lemma {:induction false} MultiLineSplit(s: string, maxPreviewLength: nat)
    requires |Split(s, '\n')| > 2
    ensures var (preview, remaining) := PreviewSplit(s, maxPreviewLength);
      preview + "\n" + remaining == s
      && Split(preview, '\n') == Split(s, '\n')[..2]
      && Split(remaining, '\n') == Split(s, '\n')[2..]
  {
    var lines := Split(s, '\n');
    assert lines == lines[..2] + lines[2..];
    JoinAppend(lines[..2], lines[2..], "\n");
    JoinSplit(s, '\n');
    SplitJoin(lines[..2], '\n');
    SplitJoin(lines[2..], '\n');
  }

  /** A long string of at most two lines is cut after maxPreviewLength characters:
      the preview is that prefix plus "...", the remainder is everything after it and
      is never empty, so the branch that shows the whole string is never taken. */
  lemma SingleLineTruncation(s: string, maxPreviewLength: nat)
    requires NeedsDisclosure(s, maxPreviewLength) && |Split(s, '\n')| <= 2
    ensures var (preview, remaining) := PreviewSplit(s, maxPreviewLength);
      preview == s[..maxPreviewLength] + Ellipsis
      && s[..maxPreviewLength] + remaining == s
      && remaining != ""
      && |preview| == maxPreviewLength + 3
  {
  }

  /**
   * Nothing is lost, except one trailing newline: an inline text is the original,
   * or the original minus a final "\n" when the string is two lines followed by a
   * newline (the remainder is then empty and only the preview is shown); a
   * collapsed one rejoins either at a newline or, for a truncated line, after
   * dropping the "..." marker.
   */
  lemma {:induction false} DiscloseLossless(s: string, maxPreviewLength: nat)
    ensures match Disclose(s, maxPreviewLength)
      case Inline(t) =>
        (t == s && !NeedsDisclosure(s, maxPreviewLength))
        || (t + "\n" == s && |Split(s, '\n')| == 3 && Split(s, '\n')[2] == "")
      case Collapsed(p, r) =>
        (p + "\n" + r == s && |Split(s, '\n')| > 2 && multiset(p)['\n'] == 1)
        || (|Split(s, '\n')| <= 2 && p == s[..maxPreviewLength] + Ellipsis && s[..maxPreviewLength] + r == s)
  {
    var lines := Split(s, '\n');
    if NeedsDisclosure(s, maxPreviewLength) {
      var (preview, remaining) := PreviewSplit(s, maxPreviewLength);
      if |lines| > 2 {
        MultiLineSplit(s, maxPreviewLength);
        SplitCount(preview, '\n');
        if remaining == "" {
          assert Split(remaining, '\n') == [""];
          assert lines[2..] == [""];
          assert lines[2] == "";
          assert preview + "\n" == s;
        }
      } else {
        SingleLineTruncation(s, maxPreviewLength);
      }
    }
  }
}
