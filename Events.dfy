/**
 * The decoded session event (the Message struct, chat-parser/main.go:319-345) and
 * the library calls the classifiers make but whose code is not part of this model:
 * encoding/json and strings.ToUpper. They are gathered in a Runtime value whose
 * fields are total functions, so every classification is deterministic in them.
 */
module Events {
  import opened Wrappers

  /** A decoded JSON value, as held by an interface{} field. */
  datatype Json =
    | JNull
    | JBool(b: bool)
    | JNumber(n: int)
    | JString(s: string)
    | JArray(elements: seq<Json>)
    | JObject(members: seq<(string, Json)>)

  /** One element of message.content: its "type", "text", "name", "input",
      "content" and "is_error" fields. A nil interface{} is None. */
  datatype ContentItem = ContentItem(
    kind: string,
    text: string,
    name: string,
    input: Option<Json>,
    content: Option<Json>,
    isError: bool)

  /** The fields of a decoded line that the classifiers read: "type", "subtype",
      "session_id", the top-level "model" and message.content. */
  datatype Message = Message(
    kind: string,
    subtype: string,
    sessionId: string,
    model: string,
    items: seq<ContentItem>)

  datatype Runtime = Runtime(
    /** json.Unmarshal of a line into a Message; None when it returns an error. */
    decode: string -> Option<Message>,
    /** json.Marshal of an interface{} value. */
    marshal: Json -> Option<string>,
    /** json.MarshalIndent(v, "", "  ") of an interface{} value. */
    marshalIndent: Json -> Option<string>,
    /** A text re-indented as JSON: Some only when json.Valid, json.Unmarshal and
        json.MarshalIndent all succeed on it. */
    reindent: string -> Option<string>,
    /** strings.ToUpper. */
    upper: string -> string)
}
