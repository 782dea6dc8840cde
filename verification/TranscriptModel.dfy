/** Messages, entries and per-message projections of the agent transcript.
    JSON values are carried as their text; what the presentation layer, the
    digest and the serializer do with them is a record of arbitrary functions. */
module TranscriptModel {
  import opened Wrappers
  import B = Base64

  type Json = string
  type Sha = s: string | |s| == 64 witness seq(64, _ => '0')

  const MAX_ID_LENGTH := 512

  datatype Role = System | User | Assistant | Tool | OtherRole

  /** A `content` value: absent or of another type, a string, or a list of parts
      of which only those with a string `text` count. */
  datatype RawText = NoText | PlainText(text: string) | TextParts(parts: seq<Option<string>>)

  datatype RawCall = NotACall | Call(id: Option<string>, body: Json)

  /** A persisted message record: the fields the reader looks at, and the rest. */
  datatype Message = Message(
    role: Role, content: RawText, reasoning: RawText,
    messageId: Option<string>, reasoningId: Option<string>,
    calls: seq<RawCall>, toolCallId: Option<string>, rest: Json)

  datatype LiveCall = LiveCall(id: Option<string>, body: Json)

  /** A message object of a running agent. */
  datatype LiveMessage = LiveMessage(
    role: Role, content: Option<string>, reasoning: Option<string>,
    messageId: Option<string>, reasoningId: Option<string>,
    calls: seq<LiveCall>, toolCallId: Option<string>, rest: Json)

  function DumpText(t: Option<string>): RawText {
    match t
    case None => NoText
    case Some(s) => PlainText(s)
  }

  function DumpCalls(calls: seq<LiveCall>): (r: seq<RawCall>)
    ensures |r| == |calls|
    ensures forall i :: 0 <= i < |calls| ==> r[i] == Call(calls[i].id, calls[i].body)
  {
    seq(|calls|, i requires 0 <= i < |calls| => Call(calls[i].id, calls[i].body))
  }

  /** `model_dump(exclude_none=True, mode="json")` */
  function Dump(m: LiveMessage): Message {
    Message(m.role, DumpText(m.content), DumpText(m.reasoning), m.messageId, m.reasoningId,
            DumpCalls(m.calls), m.toolCallId, m.rest)
  }

  function DumpAll(ms: seq<LiveMessage>): (r: seq<Message>)
    ensures |r| == |ms|
    ensures forall i :: 0 <= i < |ms| ==> r[i] == Dump(ms[i])
  {
    seq(|ms|, i requires 0 <= i < |ms| => Dump(ms[i]))
  }

  datatype Kind = UserText | AssistantText | Reasoning | ToolCall | ToolResult

  /** One transcript entry. The ordinal is both its creation and update stamp;
      the body is everything the digest covers besides the kind. */
  datatype Entry = Entry(entryId: string, kind: Kind, ordinal: nat, body: Json, digest: string)

  datatype Descriptor = Descriptor(
    order: nat, messageIndex: nat, kind: Kind, component: string,
    identity: Option<string>, callPosition: Option<nat>)

  /** The functions the model leaves open: call projection, entry bodies, hashes,
      serialized forms, and the JSON text of a cursor. */
  datatype Rules = Rules(
    sha: string -> Sha,
    projectCall: Json -> Json,
    userBody: (Message, string) -> Json,
    assistantBody: (Message, string) -> Json,
    reasoningBody: string -> Json,
    callBody: (Json, Json, Option<string>, Option<Message>) -> Json,
    resultBody: (Message, string, Option<Json>) -> Json,
    digest: (Kind, Json) -> string,
    entryJson: Entry -> string,
    quote: string -> string,
    cursorText: (string, string) -> seq<B.Byte>,
    parseCursor: seq<B.Byte> -> Option<(string, string)>)
  {
    /** The JSON library reads back the cursor object it wrote. */
    ghost predicate CursorLaw() {
      forall id, digest :: parseCursor(cursorText(id, digest)) == Some((id, digest))
    }
  }

  function JoinLines(parts: seq<Option<string>>): string {
    if |parts| == 0 then ""
    else if parts[0].None? then JoinLines(parts[1..])
    else if forall p :: p in parts[1..] ==> p.None? then parts[0].value
    else parts[0].value + "\n" + JoinLines(parts[1..])
  }

  function TextOf(t: RawText): Option<string> {
    match t
    case NoText => None
    case PlainText(s) => Some(s)
    case TextParts(parts) => Some(JoinLines(parts))
  }

  /** A string identifier counts only when it is present and not empty. */
  function Present(id: Option<string>): Option<string> {
    if id == Some("") then None else id
  }

  function BoundedIdentity(r: Rules, value: string): (id: string)
    ensures |id| <= MAX_ID_LENGTH
  {
    if |value| <= MAX_ID_LENGTH then value
    else value[..MAX_ID_LENGTH - 65] + ":" + r.sha(value)
  }

  function EntryId(r: Rules, identity: Option<string>, index: nat, component: string): string {
    BoundedIdentity(r, Present(identity).GetOr("message:" + Decimal(index)) + ":" + component)
  }

  function MakeEntry(r: Rules, id: string, kind: Kind, ordinal: nat, body: Json): Entry {
    Entry(id, kind, ordinal, body, r.digest(kind, body))
  }

  function ReasoningIdentity(m: Message): Option<string> {
    if Present(m.reasoningId).Some? then Present(m.reasoningId) else Present(m.messageId)
  }

  function UserEntry(r: Rules, m: Message, index: nat, ordinal: nat): Option<Entry> {
    match TextOf(m.content)
    case None => None
    case Some(text) =>
      Some(MakeEntry(r, EntryId(r, Present(m.messageId), index, "text"), UserText, ordinal, r.userBody(m, text)))
  }

  function AssistantTextEntry(r: Rules, m: Message, index: nat, ordinal: nat): Option<Entry> {
    match TextOf(m.content)
    case None => None
    case Some(text) =>
      Some(MakeEntry(r, EntryId(r, Present(m.messageId), index, "text"), AssistantText, ordinal, r.assistantBody(m, text)))
  }

  function ReasoningEntry(r: Rules, m: Message, index: nat, ordinal: nat): Option<Entry> {
    match TextOf(m.reasoning)
    case None => None
    case Some(text) =>
      Some(MakeEntry(r, EntryId(r, ReasoningIdentity(m), index, "reasoning"), Reasoning, ordinal, r.reasoningBody(text)))
  }

  /** A tool call's entry, given its projection and its paired result message. */
  function CallEntry(r: Rules, m: Message, index: nat, ordinal: nat, position: nat, projection: Json, result: Option<Message>): Entry
    requires position < |m.calls| && m.calls[position].Call?
  {
    MakeEntry(r, EntryId(r, Present(m.messageId), index, "call:" + Decimal(position)), ToolCall, ordinal,
              r.callBody(m.calls[position].body, projection, Present(m.calls[position].id), result))
  }

  /** A result's own call id: the stored one, or one made from its position. */
  function ResultCallId(m: Message, index: nat): string {
    Present(m.toolCallId).GetOr("tool:" + Decimal(index))
  }

  function ResultEntry(r: Rules, m: Message, index: nat, ordinal: nat, projection: Option<Json>): Entry {
    MakeEntry(r, EntryId(r, Present(m.messageId), index, "result"), ToolResult, ordinal,
              r.resultBody(m, ResultCallId(m, index), projection))
  }
}
