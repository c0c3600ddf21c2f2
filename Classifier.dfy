/**
 * The two message classifiers: extractCleanJSONContentWithErrorCheck, which
 * feeds annotations (chat-parser/main.go:152-316), and formatJSONMessage, which
 * feeds the transcript on standard output (chat-parser/main.go:525-623). Both map
 * a decoded Message to a speaker and a content string; the annotation one also
 * reports whether a tool result was an error. They differ in how content items
 * are rendered: indented JSON, progressive disclosure and "\n\n" between parts for
 * annotations; compact JSON, ANSI colour codes and "\n" between parts for the
 * transcript.
 */
module Classifier {
  import opened Wrappers
  import opened Text
  import opened Events
  import opened Disclosure

  /** The content given to unrecognised message types (lines 313, 619); the
      annotation step compares against it to skip the line. */
  const UnknownMessageType := "Unknown message type"
  const SystemMessage := "System message"

  const ColorReset := "\U{1B}[0m"
  const ColorRed := "\U{1B}[31m"
  const ColorGreen := "\U{1B}[32m"
  const ColorMagenta := "\U{1B}[35m"

  const ToolMarker := "\U{1F527} Using tool: "
  const ResultMarker := "\U{2705} Tool result:"
  const ErrorMarker := "\U{274C} Tool error:"
  const ResultReceived := "\U{2705} Tool result received"

  /** Which of the two classifiers renders a part. */
  datatype Path = Annotation | Console

  datatype Classified = Classified(speaker: string, content: string, hasError: bool)

  datatype Labeled = Labeled(speaker: string, content: string)

  function InitSummary(msg: Message): string {
    "Session initialized (ID: " + msg.sessionId + ", Model: " + msg.model + ")"
  }

  /** The separator between content parts. */
  function Separator(path: Path): string {
    if path == Annotation then "\n\n" else "\n"
  }

  // ---------------------------------------------------------------------------
  // Rendering one content item

  /** The serialized tool input (lines 172-177 indented, 545-550 compact); "" when
      there is none or encoding fails. */
  function ToolInput(rt: Runtime, path: Path, item: ContentItem): string {
    if item.input.None? then ""
    else
      var encoded := if path == Annotation then rt.marshalIndent(item.input.value) else rt.marshal(item.input.value);
      if encoded.Some? then encoded.value else ""
  }

  /** A tool_use item for annotations (lines 179-216). */
  function CleanToolUse(rt: Runtime, item: ContentItem): string {
    var toolInput := ToolInput(rt, Annotation, item);
    var desc := ToolMarker + item.name;
    if toolInput != "" && toolInput != "{}" then
      match Disclose(toolInput, ToolInputLimit)
      case Inline(t) => desc + " with " + t
      case Collapsed(p, r) =>
        desc + " with " + p + "\n\n<details>\n<summary>Show more input...</summary>\n\n```json\n" + r + "\n```\n\n</details>"
    else desc
  }

  /** A tool_use item for the transcript (lines 551-561). */
  function ConsoleToolUse(rt: Runtime, item: ContentItem): string {
    var toolInput := ToolInput(rt, Console, item);
    ColorGreen + ToolMarker + item.name
    + (if toolInput != "" && toolInput != "{}" then " with " + toolInput else "")
    + ColorReset
  }

  /** The text of a tool result, the same in both classifiers (lines 238-255,
      580-597): the "text" field, re-indented when it is JSON, else the indented
      "content" value, else "". */
  function ResultText(rt: Runtime, item: ContentItem): string {
    if item.text != "" then
      var pretty := rt.reindent(item.text);
      if pretty.Some? then pretty.value else item.text
    else if item.content.Some? then
      var encoded := rt.marshalIndent(item.content.value);
      if encoded.Some? then encoded.value else ""
    else ""
  }

  /** A tool_result item for annotations (lines 257-302). */
  function CleanToolResult(rt: Runtime, item: ContentItem): string {
    var resultContent := ResultText(rt, item);
    if resultContent != "" then
      var indicator := if item.isError then ErrorMarker else ResultMarker;
      match Disclose(resultContent, ToolResultLimit)
      case Inline(t) => indicator + "\n" + t
      case Collapsed(p, r) =>
        indicator + "\n" + p + "\n\n<details>\n<summary>Show more...</summary>\n\n```\n" + r + "\n```\n\n</details>"
    else ResultReceived
  }

  /** A tool_result item for the transcript (lines 599-609). */
  function ConsoleToolResult(rt: Runtime, item: ContentItem): string {
    var resultContent := ResultText(rt, item);
    if resultContent != "" then
      (if item.isError then ColorRed + ErrorMarker + ColorReset else ColorMagenta + ResultMarker + ColorReset)
      + "\n" + resultContent
    else ColorMagenta + ResultReceived + ColorReset
  }

  /**
   * The part one item contributes, if any. In an assistant message only non-empty
   * text items and tool_use items contribute (lines 166-219, 539-562); in a user
   * message every tool_result item and every other item with non-empty text does
   * (lines 231-305, 578-612).
   */
  function PartOf(rt: Runtime, path: Path, kind: string, item: ContentItem): Option<string> {
    if kind == "assistant" then
      if item.kind == "text" then (if item.text != "" then Some(item.text) else None)
      else if item.kind == "tool_use" then
        Some(if path == Annotation then CleanToolUse(rt, item) else ConsoleToolUse(rt, item))
      else None
    else
      if item.kind == "tool_result" then
        Some(if path == Annotation then CleanToolResult(rt, item) else ConsoleToolResult(rt, item))
      else if item.text != "" then Some(item.text)
      else None
  }

  /** The contentParts slice after the loop has seen items, in order. */
  function Parts(rt: Runtime, path: Path, kind: string, items: seq<ContentItem>): seq<string> {
    if items == [] then []
    else Parts(rt, path, kind, items[..|items| - 1]) + ToSeq(PartOf(rt, path, kind, items[|items| - 1]))
  }

  /** The hasError flag after the loop has seen items (lines 227, 233-235). */
  function ToolErrorSeen(items: seq<ContentItem>): bool {
    if items == [] then false
    else ToolErrorSeen(items[..|items| - 1]) || (items[|items| - 1].kind == "tool_result" && items[|items| - 1].isError)
  }

  predicate IsToolError(item: ContentItem) {
    item.kind == "tool_result" && item.isError
  }

  // ---------------------------------------------------------------------------
  // The two classifiers

  /** extractCleanJSONContentWithErrorCheck as a function of the message. */
  function CleanView(rt: Runtime, msg: Message): Classified {
    if msg.kind == "system" then
      Classified("SYSTEM", if msg.subtype == "init" then InitSummary(msg) else SystemMessage, false)
    else if msg.kind == "assistant" then
      Classified("ASSISTANT", if |msg.items| > 0 then Join(Parts(rt, Annotation, msg.kind, msg.items), "\n\n") else "", false)
    else if msg.kind == "user" then
      Classified("USER", if |msg.items| > 0 then Join(Parts(rt, Annotation, msg.kind, msg.items), "\n\n") else "",
                 |msg.items| > 0 && ToolErrorSeen(msg.items))
    else Classified(rt.upper(msg.kind), UnknownMessageType, false)
  }

  /** formatJSONMessage as a function of the message. */
  function ConsoleView(rt: Runtime, msg: Message): Labeled {
    if msg.kind == "system" then
      Labeled("SYSTEM", if msg.subtype == "init" then InitSummary(msg) else SystemMessage)
    else if msg.kind == "assistant" || msg.kind == "user" then
      Labeled(if msg.kind == "assistant" then "ASSISTANT" else "USER",
              if |msg.items| > 0 then Join(Parts(rt, Console, msg.kind, msg.items), "\n") else "")
    else Labeled(rt.upper(msg.kind), UnknownMessageType)
  }

  /** One pass over the content items (the loops at lines 165-220 and 230-306,
      538-563 and 577-613): the parts in order and whether a tool error was seen. */
  method CollectParts(rt: Runtime, path: Path, kind: string, items: seq<ContentItem>)
    returns (parts: seq<string>, hasError: bool)
    ensures parts == Parts(rt, path, kind, items)
    ensures hasError <==> kind != "assistant" && exists j :: 0 <= j < |items| && IsToolError(items[j])
  {
    parts, hasError := [], false;
    for i := 0 to |items|
      invariant parts == Parts(rt, path, kind, items[..i])
      invariant hasError <==> kind != "assistant" && exists j :: 0 <= j < i && IsToolError(items[j])
    {
      var item := items[i];
      PartsStep(rt, path, kind, items, i);
      ErrorsStep(items, i);
      if kind == "assistant" {
        if item.kind == "text" {
          if item.text != "" {
            parts := parts + [item.text];
          }
        } else if item.kind == "tool_use" {
          var desc := if path == Annotation then CleanToolUse(rt, item) else ConsoleToolUse(rt, item);
          parts := parts + [desc];
        }
      } else {
        if item.kind == "tool_result" {
          if item.isError {
            hasError := true;
          }
          var desc := if path == Annotation then CleanToolResult(rt, item) else ConsoleToolResult(rt, item);
          parts := parts + [desc];
        } else if item.text != "" {
          parts := parts + [item.text];
        }
      }
    }
    assert items[..|items|] == items;
  }

  lemma PartsStep(rt: Runtime, path: Path, kind: string, items: seq<ContentItem>, i: nat)
    requires i < |items|
    ensures Parts(rt, path, kind, items[..i + 1]) == Parts(rt, path, kind, items[..i]) + ToSeq(PartOf(rt, path, kind, items[i]))
  {
    assert items[..i + 1][..i] == items[..i];
  }

  lemma ErrorsStep(items: seq<ContentItem>, i: nat)
    requires i < |items|
    ensures (exists j :: 0 <= j < i + 1 && IsToolError(items[j]))
        <==> (exists j :: 0 <= j < i && IsToolError(items[j])) || IsToolError(items[i])
  {
  }

  /** extractCleanJSONContentWithErrorCheck (lines 152-316). */
  method ExtractCleanContent(rt: Runtime, msg: Message) returns (speaker: string, content: string, hasError: bool)
    ensures Classified(speaker, content, hasError) == CleanView(rt, msg)
    ensures hasError <==> msg.kind == "user" && exists j :: 0 <= j < |msg.items| && IsToolError(msg.items[j])
  {
    if msg.kind == "system" {
      if msg.subtype == "init" {
        return "SYSTEM", InitSummary(msg), false;
      }
      return "SYSTEM", SystemMessage, false;
    } else if msg.kind == "assistant" || msg.kind == "user" {
      speaker := if msg.kind == "assistant" then "ASSISTANT" else "USER";
      content, hasError := "", false;
      if |msg.items| > 0 {
        var parts;
        parts, hasError := CollectParts(rt, Annotation, msg.kind, msg.items);
        content := Join(parts, "\n\n");
      }
      ToolErrorSeenMeaning(msg.items);
    } else {
      speaker := rt.upper(msg.kind);
      content := UnknownMessageType;
      hasError := false;
    }
  }

  /** formatJSONMessage (lines 525-623). */
  method FormatJsonMessage(rt: Runtime, msg: Message) returns (speaker: string, content: string)
    ensures Labeled(speaker, content) == ConsoleView(rt, msg)
  {
    if msg.kind == "system" {
      if msg.subtype == "init" {
        return "SYSTEM", InitSummary(msg);
      }
      return "SYSTEM", SystemMessage;
    } else if msg.kind == "assistant" || msg.kind == "user" {
      speaker := if msg.kind == "assistant" then "ASSISTANT" else "USER";
      content := "";
      if |msg.items| > 0 {
        var parts, _ := CollectParts(rt, Console, msg.kind, msg.items);
        content := Join(parts, "\n");
      }
    } else {
      speaker := rt.upper(msg.kind);
      content := UnknownMessageType;
    }
  }

  // ---------------------------------------------------------------------------
  // Properties

  /** The loop's flag is set exactly when some item is a tool_result marked as an error. */
  lemma {:induction false} ToolErrorSeenMeaning(items: seq<ContentItem>)
    ensures ToolErrorSeen(items) <==> exists j :: 0 <= j < |items| && IsToolError(items[j])
  {
    if items != [] {
      var init := items[..|items| - 1];
      ToolErrorSeenMeaning(init);
      assert forall j :: 0 <= j < |init| ==> init[j] == items[j];
    }
  }

  /** hasError holds exactly for a user message with an erroneous tool result;
      system, assistant and unrecognised messages never carry it. */
  lemma ErrorFlagMeaning(rt: Runtime, msg: Message)
    ensures CleanView(rt, msg).hasError <==> msg.kind == "user" && exists j :: 0 <= j < |msg.items| && IsToolError(msg.items[j])
  {
    ToolErrorSeenMeaning(msg.items);
  }

  /** Whether an item contributes a part, stated without rendering anything. */
  predicate Contributes(kind: string, item: ContentItem) {
    if kind == "assistant" then (item.kind == "text" && item.text != "") || item.kind == "tool_use"
    else item.kind == "tool_result" || item.text != ""
  }

  /** An item yields a part exactly when it contributes, and the part is never empty. */
  lemma PartOfMeaning(rt: Runtime, path: Path, kind: string, item: ContentItem)
    ensures PartOf(rt, path, kind, item).Some? <==> Contributes(kind, item)
    ensures PartOf(rt, path, kind, item).Some? ==> PartOf(rt, path, kind, item).value != ""
  {
    if kind == "assistant" && item.kind == "tool_use" && path == Annotation {
      assert CleanToolUse(rt, item)[0] == ToolMarker[0];
    } else if kind != "assistant" && item.kind == "tool_result" && path == Annotation {
      var r := CleanToolResult(rt, item);
      assert |r| > 0;
    }
  }

  /** Every part is a non-empty string, and there are no parts exactly when no item
      contributes, whichever classifier renders them. */
  lemma {:induction false} PartsMeaning(rt: Runtime, path: Path, kind: string, items: seq<ContentItem>)
    ensures forall k :: 0 <= k < |Parts(rt, path, kind, items)| ==> Parts(rt, path, kind, items)[k] != ""
    ensures Parts(rt, path, kind, items) == [] <==> forall j :: 0 <= j < |items| ==> !Contributes(kind, items[j])
  {
    if items != [] {
      var init := items[..|items| - 1];
      var last := items[|items| - 1];
      PartsMeaning(rt, path, kind, init);
      PartOfMeaning(rt, path, kind, last);
      assert forall j :: 0 <= j < |init| ==> init[j] == items[j];
    }
  }

  /**
   * The two classifiers agree on the speaker, and the content of both is empty
   * exactly for an assistant or user message none of whose items contributes a
   * part: such a line still gets an entry and an annotation, it is only not
   * printed.
   */
  lemma ViewsAgree(rt: Runtime, msg: Message)
    ensures CleanView(rt, msg).speaker == ConsoleView(rt, msg).speaker
    ensures CleanView(rt, msg).content == "" <==> ConsoleView(rt, msg).content == ""
    ensures CleanView(rt, msg).content == "" <==>
      (msg.kind == "assistant" || msg.kind == "user") && forall j :: 0 <= j < |msg.items| ==> !Contributes(msg.kind, msg.items[j])
  {
    PartsMeaning(rt, Annotation, msg.kind, msg.items);
    PartsMeaning(rt, Console, msg.kind, msg.items);
    JoinEmpty(Parts(rt, Annotation, msg.kind, msg.items), "\n\n");
    JoinEmpty(Parts(rt, Console, msg.kind, msg.items), "\n");
  }

  /** An unrecognised type is labelled with its upper-cased name and the placeholder
      content by both classifiers; a session-init system message reports its
      session id and model. */
  lemma FixedOutcomes(rt: Runtime, msg: Message)
    ensures msg.kind != "system" && msg.kind != "assistant" && msg.kind != "user" ==>
      CleanView(rt, msg) == Classified(rt.upper(msg.kind), UnknownMessageType, false)
      && ConsoleView(rt, msg) == Labeled(rt.upper(msg.kind), UnknownMessageType)
    ensures msg.kind == "system" && msg.subtype == "init" ==>
      CleanView(rt, msg) == Classified("SYSTEM", InitSummary(msg), false)
      && ConsoleView(rt, msg) == Labeled("SYSTEM", InitSummary(msg))
  {
  }

  /** A short tool error that is not JSON is shown after the error marker on its own
      line, and flags the message. */
  lemma ShortToolError(rt: Runtime, msg: Message, text: string)
    requires msg.kind == "user" && |msg.items| == 1
    requires msg.items[0].kind == "tool_result" && msg.items[0].isError && msg.items[0].text == text
    requires text != "" && '\n' !in text && |text| <= ToolResultLimit && rt.reindent(text).None?
    ensures CleanView(rt, msg) == Classified("USER", ErrorMarker + "\n" + text, true)
  {
    var items := msg.items;
    assert items[..0] == [];
    assert multiset(text)['\n'] == 0;
    SplitCount(text, '\n');
    assert Disclose(text, ToolResultLimit) == Inline(text);
    assert Parts(rt, Annotation, msg.kind, items) == [ErrorMarker + "\n" + text];
  }
}
