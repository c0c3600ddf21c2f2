/**
 * The decisions inside createBuildkiteAnnotation (chat-parser/main.go:46-149):
 * whether a line is annotated at all, the annotation style, the context key that
 * makes the annotation unique per line, and the markdown body. Running
 * `buildkite-agent annotate` is not modelled; delivering a Note to the sink is
 * appending it to a sequence (see Transcript.Processor.Annotate).
 */
module Annotation {
  import opened Wrappers
  import opened Text
  import opened Events
  import opened Classifier

  /** The --style, --context and standard-input arguments of one annotate call. */
  datatype Note = Note(style: string, context: string, body: string)

  /** The style switch (lines 86-103). */
  function StyleFor(speaker: string, hasError: bool): (style: string)
    ensures style == "error" <==> speaker == "USER" && hasError
    ensures style == "success" <==> speaker == "USER" && !hasError
    ensures style == "warning" <==> speaker == "SYSTEM"
    ensures style == "info" <==> speaker != "USER" && speaker != "SYSTEM"
  {
    if speaker == "ASSISTANT" then "info"
    else if speaker == "USER" then (if hasError then "error" else "success")
    else if speaker == "SYSTEM" then "warning"
    else "info"
  }

  /** The speaker heading written by the same switch. */
  function SpeakerHeading(speaker: string): string {
    if speaker == "ASSISTANT" then "\U{1F916} **ASSISTANT**:\n\n"
    else if speaker == "USER" then "\U{1F464} **USER**:\n\n"
    else if speaker == "SYSTEM" then "\U{2699}\U{FE0F} **SYSTEM**:\n\n"
    else "**" + speaker + "**:\n\n"
  }

  /** chat-message-%d (line 135). */
  function ContextKey(lineNumber: nat): string {
    "chat-message-" + Decimal(lineNumber)
  }

  /** **Message %d** - `%s` (line 61). */
  function Header(lineNumber: nat, timestamp: string): string {
    "**Message " + Decimal(lineNumber) + "** - `" + timestamp + "`\n\n"
  }

  const DetailsOpen := "\n\n<details>\n<summary>Show JSON</summary>\n\n```json\n"
  const DetailsClose := "\n```\n\n</details>"

  /** The raw line as shown in the collapsible block (lines 114-130): re-indented
      when it starts with "{" and re-encodes, verbatim otherwise. */
  function RawShown(rt: Runtime, line: string): string {
    if StartsWithBrace(line) then
      var pretty := rt.reindent(line);
      if pretty.Some? then pretty.value else line
    else line
  }

  /** The line decoded into a Message, when it starts with "{" and decodes (lines 64-66). */
  function Decoded(rt: Runtime, line: string): Option<Message> {
    if StartsWithBrace(line) then rt.decode(line) else None
  }

  /** Speaker, content and error flag of a trimmed line (lines 64-83). */
  function ClassifyLine(rt: Runtime, line: string): Classified {
    var d := Decoded(rt, line);
    if d.Some? then CleanView(rt, d.value) else Classified("SYSTEM", line, false)
  }

  /** The markdown body, in the order the builder writes it (lines 61-132). */
  function Markdown(lineNumber: nat, timestamp: string, c: Classified, rawShown: string): string {
    Header(lineNumber, timestamp) + SpeakerHeading(c.speaker) + c.content + DetailsOpen + rawShown + DetailsClose
  }

  /** What createBuildkiteAnnotation sends for a raw line, or None when it returns early. */
  function AnnotationFor(rt: Runtime, rawLine: string, lineNumber: nat, timestamp: string): Option<Note> {
    var line := TrimSpace(rawLine);
    if line == "" then None
    else
      var d := Decoded(rt, line);
      if d.Some? && CleanView(rt, d.value).content == UnknownMessageType then None
      else
        var c := ClassifyLine(rt, line);
        Some(Note(StyleFor(c.speaker, c.hasError), ContextKey(lineNumber),
                  Markdown(lineNumber, timestamp, c, RawShown(rt, line))))
  }

  // ---------------------------------------------------------------------------
  // Properties

  /** A line is skipped exactly when it is blank, or it decodes and its clean
      content is the unknown-type placeholder. */
  lemma AnnotationSkipped(rt: Runtime, rawLine: string, lineNumber: nat, timestamp: string)
    ensures AnnotationFor(rt, rawLine, lineNumber, timestamp).None? <==>
      Blank(rawLine)
      || (Decoded(rt, TrimSpace(rawLine)).Some? && CleanView(rt, Decoded(rt, TrimSpace(rawLine)).value).content == UnknownMessageType)
  {
    TrimSpaceBlank(rawLine);
  }

  /** A decoded message of an unrecognised type is never annotated. */
  lemma UnknownTypeNotAnnotated(rt: Runtime, rawLine: string, lineNumber: nat, timestamp: string)
    requires Decoded(rt, TrimSpace(rawLine)).Some?
    requires Decoded(rt, TrimSpace(rawLine)).value.kind !in {"system", "assistant", "user"}
    ensures AnnotationFor(rt, rawLine, lineNumber, timestamp).None?
  {
    FixedOutcomes(rt, Decoded(rt, TrimSpace(rawLine)).value);
  }

  /** Because the skip is a string comparison, an assistant message whose only text
      is literally the placeholder is not annotated either. */
  lemma PlaceholderTextNotAnnotated(rt: Runtime, rawLine: string, lineNumber: nat, timestamp: string, msg: Message)
    requires Decoded(rt, TrimSpace(rawLine)) == Some(msg)
    requires msg.kind == "assistant" && |msg.items| == 1
    requires msg.items[0].kind == "text" && msg.items[0].text == UnknownMessageType
    ensures AnnotationFor(rt, rawLine, lineNumber, timestamp).None?
  {
    assert msg.items[..0] == [];
    assert Parts(rt, Annotation, msg.kind, msg.items) == [UnknownMessageType];
  }

  /** The style of a sent annotation, by what the line is: info for assistant
      messages, warning for system messages and lines that are not JSON, error for
      user messages with an erroneous tool result and success for other user
      messages. */
  lemma AnnotationStyle(rt: Runtime, rawLine: string, lineNumber: nat, timestamp: string)
    requires AnnotationFor(rt, rawLine, lineNumber, timestamp).Some?
    ensures var style := AnnotationFor(rt, rawLine, lineNumber, timestamp).value.style;
      var d := Decoded(rt, TrimSpace(rawLine));
      && (style == "info" <==> d.Some? && d.value.kind == "assistant")
      && (style == "warning" <==> d.None? || d.value.kind == "system")
      && (style == "error" <==> d.Some? && d.value.kind == "user"
                                && exists j :: 0 <= j < |d.value.items| && IsToolError(d.value.items[j]))
      && (style == "success" <==> d.Some? && d.value.kind == "user"
                                  && !exists j :: 0 <= j < |d.value.items| && IsToolError(d.value.items[j]))
  {
    var d := Decoded(rt, TrimSpace(rawLine));
    if d.Some? {
      ErrorFlagMeaning(rt, d.value);
      FixedOutcomes(rt, d.value);
    }
  }

  /** A sent annotation carries the context key of its line number. */
  lemma AnnotationContext(rt: Runtime, rawLine: string, lineNumber: nat, timestamp: string)
    requires AnnotationFor(rt, rawLine, lineNumber, timestamp).Some?
    ensures AnnotationFor(rt, rawLine, lineNumber, timestamp).value.context == ContextKey(lineNumber)
    ensures AnnotationFor(rt, rawLine, lineNumber, timestamp).value.body[..|Header(lineNumber, timestamp)|]
            == Header(lineNumber, timestamp)
  {
    var line := TrimSpace(rawLine);
    MarkdownStartsWithHeader(lineNumber, timestamp, ClassifyLine(rt, line), RawShown(rt, line));
  }

  lemma MarkdownStartsWithHeader(lineNumber: nat, timestamp: string, c: Classified, rawShown: string)
    ensures Markdown(lineNumber, timestamp, c, rawShown)[..|Header(lineNumber, timestamp)|] == Header(lineNumber, timestamp)
  {
    var h := Header(lineNumber, timestamp);
    var rest := SpeakerHeading(c.speaker) + c.content + DetailsOpen + rawShown + DetailsClose;
    assert Markdown(lineNumber, timestamp, c, rawShown) == h + rest;
  }

  /** Different line numbers give different context keys, so each line has its own
      annotation. */
  lemma {:induction false} ContextKeyInjective(a: nat, b: nat)
    ensures ContextKey(a) == ContextKey(b) ==> a == b
  {
    var prefix := "chat-message-";
    if ContextKey(a) == ContextKey(b) {
      assert Decimal(a) == ContextKey(a)[|prefix|..];
      assert Decimal(b) == ContextKey(b)[|prefix|..];
      DecimalInjective(a, b);
    }
  }

  /** The annotation depends on the line only after trimming. */
  lemma AnnotationOfTrimmed(rt: Runtime, rawLine: string, lineNumber: nat, timestamp: string)
    ensures AnnotationFor(rt, TrimSpace(rawLine), lineNumber, timestamp) == AnnotationFor(rt, rawLine, lineNumber, timestamp)
  {
    TrimSpaceIdempotent(rawLine);
  }
}
