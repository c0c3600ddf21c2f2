# chat-parser: a verified model of the transcript processor

`chat-parser` reads a stream of line-delimited agent-session events, one JSON
object per line. Each non-blank line becomes a numbered, time-stamped
transcript entry; blank lines are skipped and take no number. An entry is
printed on standard output unless its content is empty. It is sent as a
Buildkite annotation unless its line decodes to a message whose clean content
is `Unknown message type`. With `- -o <file>` the program also copies every raw
line it reads, blank ones included, to a capture file.

This project models the sequential core of `chat-parser/main.go` in Dafny:

- `RelativeTime`: `formatRelativeTime`, elapsed seconds as `MM:SS` or `HH:MM:SS`.
- `Disclosure`: the progressive-disclosure rule for tool inputs (limit 300) and tool results (limit 400).
- `Events`: the decoded `Message` and its content items. It also holds a `Runtime` value that stands for the JSON library and `strings.ToUpper`.
- `Classifier`: the two classifiers.
  - `extractCleanJSONContentWithErrorCheck` feeds annotations.
  - `formatJSONMessage` feeds the console.
  - Each is a method with a loop over the content items, proved against a function of the message.
- `Annotation`: the decisions of `createBuildkiteAnnotation`: when a line is skipped, the style, the context key and the markdown body.
- `Transcript`: the line-ingestion state machine, as a class `Processor`. Its fields are the package-level counter `staticLineNum` and three sinks: standard output, the capture file and the annotation sink. Its methods are:
  - `parseLine`;
  - `printSingleEntry`, with its line splitting;
  - the annotation call;
  - the two scanner loops `parseAndStreamOutput` and `parseAndStreamOutputWithFile`.
  Each loop is proved to produce exactly the entries, console lines and notes that a pure description of the whole stream gives.
- `Cli`: the argument loop of `main`, with the index that skips the file name after `-o`, and its error outcomes.
- `Text` and `Wrappers`: the Go library behaviour the core relies on, written out. This covers `strings.Split`, `strings.Join`, `strings.TrimSpace` with Go's white-space set, `%d` and `%0Nd`, plus `Option` and `Result`.

Behaviour the proofs make explicit:

- A blank line (empty after trimming) produces nothing and does not advance the counter.
- With `-o`, a blank line is still copied to the capture file.
- An entry whose content is empty still takes a line number and is still annotated. It is only left off standard output (`Transcript.EmptyEntryStillAnnotated`).
- The annotation is skipped by comparing strings. So an assistant message whose only text is literally `Unknown message type` is not annotated either (`Annotation.PlaceholderTextNotAnnotated`).
- In the disclosure rule, the inner `else` at `main.go` lines 203-206 (and 285-288 for tool results), which keeps the whole text with an empty remainder, can never be taken: a text of at most two lines needs disclosure only when it is over the limit, so it is always cut (`Disclosure.SingleLineTruncation`).
- A two-line text followed by one newline (`"a\nb\n"`) triggers disclosure. Its remainder is empty, so only the preview `"a\nb"` is shown and the trailing newline is dropped (`Disclosure.DiscloseLossless`).
- A `-o` is a flag only where the loop reads it as one. In `- -o -o` the second `-o` is the capture file's name. A `-o` read as a flag with nothing after it is an error (`Cli.DanglingOutputFlag`).
- A `-` after a file name switches the input to standard input (`Cli.LaterStdinOverrides`).
- A file name after `-` is rejected as an unexpected argument (`Cli.SecondPositional`).
- `-o ""` records an empty capture-file name, which `main` treats as no capture file, so a file input is accepted with it (`Cli.EmptyOutputName`).

## Model

| member | source | states |
|---|---|---|
| RelativeTime.Fields | chat-parser/main.go:33-38 | minutes < 60, seconds < 60, h*3600 + m*60 + s is the input, and hours > 0 exactly when at least 3600 seconds have passed |
| RelativeTime.Render | chat-parser/main.go:39-42 | the clock written as MM:SS, or HH:MM:SS once hours are non-zero, each field zero-padded to two digits; RenderSplits and RenderParses state that it splits into and reads back as its fields |
| RelativeTime.FormatRelativeTime | chat-parser/main.go:33-43 | formatRelativeTime as Render of Fields; FormatShape, FormatParseRoundTrip and FormatInjective state its shape, that it reads back to the input, and that it is injective |
| RelativeTime.FormatShape | chat-parser/main.go:39-42 | the rendering has two colon-separated fields (5 characters) below 3600 seconds and three fields from 3600 on |
| RelativeTime.FormatParseRoundTrip | chat-parser/main.go:33-43 | reading the rendered time back gives the elapsed seconds |
| RelativeTime.FormatInjective | chat-parser/main.go:33-43 | different elapsed times render differently |
| RelativeTime.RenderSplits | chat-parser/main.go:39-42 | a rendered clock splits on ':' into exactly its zero-padded fields |
| Disclosure.NeedsDisclosureMeaning | chat-parser/main.go:184-185 | disclosure is needed exactly when the text holds two or more newlines or is longer than the limit |
| Disclosure.MultiLineSplit | chat-parser/main.go:192-197 | with more than two lines, preview + "\n" + remaining is the original, and the preview is exactly the first two lines |
| Disclosure.SingleLineTruncation | chat-parser/main.go:198-206 | a long text of at most two lines is previewed as its first maxPreviewLength characters plus "...", the rest is the remainder, and the remainder is never empty |
| Disclosure.DiscloseLossless | chat-parser/main.go:182-216 | what is shown inline or as preview and remainder gives the original back, except a trailing newline after exactly two lines |
| Disclosure.NeedsDisclosure | chat-parser/main.go:182-185 | needsDisclosure: more than two newline-separated lines or longer than the limit; NeedsDisclosureMeaning states it in terms of newline count and length |
| Disclosure.PreviewSplit | chat-parser/main.go:192-207 | the preview and remainder, first two lines and the rest, or a cut at the limit; MultiLineSplit and SingleLineTruncation state what each branch yields |
| Disclosure.Disclose | chat-parser/main.go:182-216 | the text shown inline, or a preview with a non-empty remainder in a details block; DiscloseLossless states that nothing but a final newline is lost |
| Classifier.CollectParts | chat-parser/main.go:164-221 | the loop's parts are the contributing items rendered in order, and its error flag is set exactly when a non-assistant message has an erroneous tool_result |
| Classifier.ExtractCleanContent | chat-parser/main.go:152-316 | speaker, content and error flag are the annotation view of the message, and the flag holds exactly for a user message with an erroneous tool_result |
| Classifier.FormatJsonMessage | chat-parser/main.go:525-623 | speaker and content are the console view of the message |
| Classifier.ToolErrorSeenMeaning | chat-parser/main.go:227-235 | the flag the loop accumulates is set exactly when some item is a tool_result with is_error |
| Classifier.ErrorFlagMeaning | chat-parser/main.go:223-235 | hasError holds exactly for a user message with an erroneous tool_result; system, assistant and unknown messages never carry it |
| Classifier.PartOfMeaning | chat-parser/main.go:166-219 | an item yields a part exactly when it contributes, and every part is non-empty |
| Classifier.PartsMeaning | chat-parser/main.go:229-306 | all parts are non-empty, and there are none exactly when no item contributes, in both classifiers |
| Classifier.ViewsAgree | chat-parser/main.go:534-623 | both classifiers give the same speaker, and empty content for the same messages: assistant or user messages none of whose items contributes |
| Classifier.FixedOutcomes | chat-parser/main.go:154-159 | an init system message reports "Session initialized (ID: …, Model: …)", and an unknown type gives the upper-cased type with "Unknown message type", in both classifiers |
| Classifier.ShortToolError | chat-parser/main.go:255-298 | a short, single-line, non-JSON tool error is shown after the error marker on its own line and sets the error flag |
| Classifier.CleanToolUse | chat-parser/main.go:172-218 | the annotation's "Using tool" part, with the input shown through Disclose at limit 300; PartOfMeaning states it is non-empty |
| Classifier.ConsoleToolUse | chat-parser/main.go:545-561 | the console's coloured "Using tool" part, with the input inline unless it is empty or "{}"; PartOfMeaning states it is non-empty |
| Classifier.ResultText | chat-parser/main.go:238-255 | a tool_result's text, shared by both classifiers (lines 580-597): the text field, re-indented when it is JSON, else the indented content value, else empty |
| Classifier.CleanToolResult | chat-parser/main.go:257-302 | the annotation's result part with error or result marker and disclosure at limit 400, or the "received" note; ShortToolError states the short error case |
| Classifier.ConsoleToolResult | chat-parser/main.go:599-609 | the console's coloured result part, or the "received" note; PartOfMeaning states it is non-empty |
| Classifier.PartOf | chat-parser/main.go:165-305 | the part one content item contributes, by item type and view; PartOfMeaning states it exists exactly when the item contributes and is never empty |
| Classifier.CleanView | chat-parser/main.go:152-316 | the speaker, content and error flag extractCleanJSONContentWithErrorCheck returns; ExtractCleanContent is proved equal to it, ErrorFlagMeaning and FixedOutcomes state its cases |
| Classifier.ConsoleView | chat-parser/main.go:525-623 | the speaker and content formatJSONMessage returns; FormatJsonMessage is proved equal to it, ViewsAgree relates it to CleanView |
| Annotation.StyleFor | chat-parser/main.go:86-103 | error exactly for USER with an error, success for USER without, warning exactly for SYSTEM, info for every other speaker |
| Annotation.AnnotationSkipped | chat-parser/main.go:47-73 | no annotation exactly when the line is blank, or it decodes and its clean content is "Unknown message type" |
| Annotation.UnknownTypeNotAnnotated | chat-parser/main.go:311-314 | a decoded message of a type other than system, assistant or user is never annotated |
| Annotation.PlaceholderTextNotAnnotated | chat-parser/main.go:70-73 | an assistant message whose only text is the placeholder string is not annotated either |
| Annotation.AnnotationStyle | chat-parser/main.go:86-103 | a sent annotation's style is info exactly for assistant messages, warning exactly for system messages and non-JSON lines, and error or success for user messages with or without an erroneous tool_result |
| Annotation.AnnotationContext | chat-parser/main.go:61-135 | a sent annotation has context chat-message-N and its body opens with the "**Message N**" header |
| Annotation.ContextKeyInjective | chat-parser/main.go:135 | different line numbers give different context keys |
| Annotation.AnnotationOfTrimmed | chat-parser/main.go:48 | the annotation depends on the line only after trimming |
| Annotation.SpeakerHeading | chat-parser/main.go:86-103 | the heading each speaker case appends: an emoji heading for ASSISTANT, USER and SYSTEM, a plain bold one for any other speaker |
| Annotation.RawShown | chat-parser/main.go:113-130 | the raw line in the details block, re-indented when it starts with "{" and re-indents, verbatim otherwise |
| Annotation.Markdown | chat-parser/main.go:61-132 | the annotation body: header, speaker heading, content and the raw-line details block; MarkdownStartsWithHeader states that it opens with the header |
| Annotation.AnnotationFor | chat-parser/main.go:46-135 | the note createBuildkiteAnnotation sends for a line, or none; AnnotationSkipped, AnnotationStyle and AnnotationContext state when it is absent, its style and its context |
| Text.TrimSpaceIdempotent | chat-parser/main.go:489 | trimming a trimmed line changes nothing |
| Text.JoinSplit | chat-parser/main.go:653 | joining the pieces of a split with the separator gives back the string |
| Text.ZeroPadValue | chat-parser/main.go:649 | reading a zero-padded number back gives the number |
| Transcript.Processor.ParseLine | chat-parser/main.go:488-523 | the entry is the one the line and the advanced counter give, and the counter advances exactly when there is an entry |
| Transcript.Processor.PrintEntry | chat-parser/main.go:626-666 | standard output grows by exactly the entry's printed lines |
| Transcript.Processor.Annotate | chat-parser/main.go:46-149 | the sink grows by exactly the note the line gives, or by nothing when it is skipped |
| Transcript.Processor.Handle | chat-parser/main.go:445-450 | counter, output and sink grow by exactly what the line's entry, if any, produces |
| Transcript.Processor.Advance | chat-parser/main.go:445-450 | one turn of either scanner loop takes the state from covering the entries of the first i lines to covering those of the first i + 1 |
| Transcript.Processor.Stream | chat-parser/main.go:443-456 | after the loop, the counter, standard output and the sink hold exactly the entries, lines and notes of the whole stream, numbered on from the counter |
| Transcript.Processor.StreamWithFile | chat-parser/main.go:459-486 | as Stream, and the capture file receives every raw line, blank ones included, once and in order |
| Transcript.EntryShape | chat-parser/main.go:489-501 | a line yields an entry exactly when it is not blank, and the entry carries the counter value, the trimmed line and the rendered elapsed time |
| Transcript.EntryKind | chat-parser/main.go:503-520 | an entry is JSON exactly when the line starts with "{" and decodes, with the console view's speaker and content; otherwise it is SYSTEM with the trimmed line as content |
| Transcript.Parse | chat-parser/main.go:488-523 | the entry parseLine builds before numbering, or none for a blank line; EntryShape and EntryKind state which lines yield entries and of what kind |
| Transcript.Prefix | chat-parser/main.go:648-650 | the "[NNN] [time] SPEAKER:" prefix without colours or padding; PrintedLinesRecoverContent states the printed lines start with it |
| Transcript.PrintedLines | chat-parser/main.go:626-666 | the lines printSingleEntry writes for an entry; PrintedLinesRecoverContent states their count and that they give the content back |
| Transcript.EmptyEntryStillAnnotated | chat-parser/main.go:446-449 | an entry with empty content prints nothing, yet its line is annotated |
| Transcript.PrintedLinesRecoverContent | chat-parser/main.go:647-665 | the printed lines are the prefix and the content's lines, one per newline plus one, with a blank line after JSON entries; stripping those gives the content back |
| Transcript.NumberedShape | chat-parser/main.go:488-501 | the numbered entries are one per non-blank line in order, with line numbers start+1, start+2, …, each with its trimmed line and time |
| Transcript.EntriesNumbered | chat-parser/main.go:443-456 | the entries of a whole stream are one per non-blank line, numbered consecutively from the counter's value plus one |
| Transcript.NumberedAreEntries | chat-parser/main.go:488-501 | the k-th numbered entry is exactly what parseLine gives for the k-th non-blank line with the counter at start + k + 1 |
| Transcript.EntriesAreParsedLines | chat-parser/main.go:443-456 | the entries of a whole stream are as many as its non-blank lines, each exactly the entry parseLine gives for its line at its number |
| Transcript.NoteContextsDistinct | chat-parser/main.go:134-135 | for increasingly numbered entries, no two notes share a context key |
| Transcript.StreamNotesDistinct | chat-parser/main.go:443-456 | every annotation a stream sends has its own context key |
| Cli.ParseArgs | chat-parser/main.go:365-420 | the loop's outcome is the scan of the arguments; an accepted command line has an input source and a capture file only with "-" |
| Cli.ScanAppend | chat-parser/main.go:371-392 | a scan that reads a prefix without error continues on the rest from the state it reached |
| Cli.DanglingOutputFlag | chat-parser/main.go:373-378 | "-o" read as a flag with nothing after it is the missing-filename error |
| Cli.SecondPositional | chat-parser/main.go:383-390 | an argument that is neither flag, once the input is set, is rejected by name |
| Cli.LaterStdinOverrides | chat-parser/main.go:381-382 | a "-" after whatever was read selects standard input and keeps the capture file |
| Cli.OutputFlagRecorded | chat-parser/main.go:373-380 | "-o name" records the name; the command line is then accepted only with "-" as input, and rejected with no input or a file input |
| Cli.AcceptedFromArgs | chat-parser/main.go:371-397 | an accepted input source and capture file are among the arguments |
| Cli.EmptyOutputName | chat-parser/main.go:373-426 | "-o" with an empty name leaves no capture file, so the command line is accepted with a file input, and rejected only without an input |
| Cli.ScanFrom | chat-parser/main.go:371-392 | the argument loop's state after the remaining arguments, or its first error; ScanAppend, DanglingOutputFlag and SecondPositional state its steps |
| Cli.ParseArgsSpec | chat-parser/main.go:365-420 | main's outcome for the arguments; ParseArgs is proved equal to it and OutputFlagRecorded, EmptyOutputName and LaterStdinOverrides state its cases |

## Left out

- JSON decoding and encoding (`json.Unmarshal`, `json.Marshal`, `json.MarshalIndent`, `json.Valid`): these are fields of `Events.Runtime`. Every property holds for every behaviour of them.
- `strings.ToUpper` is the `upper` field of `Events.Runtime`. The Unicode case tables are not modelled.
- Strings are sequences of characters, not bytes. So the 300 and 400 limits and the cut points count characters, where the Go code counts bytes and can cut inside a multi-byte character.
- Running `buildkite-agent annotate` and logging its failure: delivering a note is appending it to `Processor.annotations`, and a failed call changes nothing the model observes.
- File and stream I/O are not modelled: opening the input file, creating the capture file, the scanner and its errors, `log.Fatalf` and `os.Exit`. The input is a sequence of lines, and the sinks are sequences.
- In `main` an unreadable input file stops the program before the `-o` check. `Cli` reports `OutputRequiresStdin` regardless of whether the file can be opened.
- The clock and float conversion: the elapsed whole seconds of each line are an input (`Arrival.elapsed`).
- ANSI colours and the `%-45s` padding of the prefix in `printSingleEntry`, the colour switch on the speaker, the usage text and the banner `main` prints: these carry no data. The console classifier's own ANSI codes inside the content are kept.
- `staticLineNum` is a Go `int`. The model's counter is unbounded, so 64-bit overflow is not modelled.
- Fields of the Go structs that no core function reads are omitted.
