/**
 * What travels over the `/v1/execute` websocket: the JSON values the
 * client sends, the `{type, content}` messages the server sends back, and
 * how the handler reads the `code` field of an incoming message.
 */
module Protocol {
  import opened Wrappers

  /** A decoded JSON value (numbers are kept as integers). */
  datatype Json =
    | JNull
    | JBool(b: bool)
    | JNum(n: int)
    | JStr(s: string)
    | JArr(items: seq<Json>)
    | JObj(fields: map<string, Json>)

  /** The `type` of a message sent to the client. */
  datatype Kind = Stdout | Stderr | FilesystemUpdate

  /** A message `{"type": ..., "content": ...}` sent with `send_json`. */
  datatype OutMsg = OutMsg(kind: Kind, content: string)

  function TypeTag(k: Kind): string
  {
    match k
    case Stdout => "stdout"
    case Stderr => "stderr"
    case FilesystemUpdate => "filesystem_update"
  }

  function KindOfTag(tag: string): Option<Kind>
  {
    if tag == "stdout" then Some(Stdout)
    else if tag == "stderr" then Some(Stderr)
    else if tag == "filesystem_update" then Some(FilesystemUpdate)
    else None
  }

  /** The JSON object the server writes for `m`. */
  function ToJson(m: OutMsg): (j: Json)
    ensures j.JObj? && j.fields.Keys == {"type", "content"}
  {
    JObj(map["type" := JStr(TypeTag(m.kind)), "content" := JStr(m.content)])
  }

  /** How a client reads a server message back. */
  function FromJson(j: Json): Option<OutMsg>
  {
    if j.JObj? && "type" in j.fields && "content" in j.fields
       && j.fields["type"].JStr? && j.fields["content"].JStr?
       && KindOfTag(j.fields["type"].s).Some?
    then Some(OutMsg(KindOfTag(j.fields["type"].s).value, j.fields["content"].s))
    else None
  }

  /** Every server message reads back as itself: the three type tags are distinct. */
  lemma MessageRoundTrip(m: OutMsg)
    ensures FromJson(ToJson(m)) == Some(m)
  {
    match m.kind
    case Stdout =>
    case Stderr =>
    case FilesystemUpdate =>
  }

  /** What `data.get("code")` followed by `code.strip()` makes of an incoming value. */
  datatype CodeField =
    | NoCode                 // the key is absent or `null`: `get` gives `None`
    | CodeText(code: string) // a string: the message is run
    | CodeNotText            // any other JSON value: `code.strip()` raises
    | NotAnObject            // not an object: `data.get` raises

  function CodeOf(data: Json): (c: CodeField)
    ensures c.CodeText? <==> data.JObj? && "code" in data.fields && data.fields["code"].JStr?
    ensures c == NoCode <==> data.JObj? && ("code" !in data.fields || data.fields["code"] == JNull)
    ensures c.CodeText? ==> c.code == data.fields["code"].s
  {
    match data
    case JObj(fields) =>
      if "code" !in fields then NoCode
      else (
        match fields["code"]
        case JNull => NoCode
        case JStr(s) => CodeText(s)
        case _ => CodeNotText)
    case _ => NotAnObject
  }
}
