/** The protocol-neutral conversation and completion types, and the JSON helpers on them. */
module Canonical {
  import opened Wrappers
  import opened Json
  import Text

  const DEFAULT_MODEL := "cwapi-web-gpt"

  type Role = string

  const ROLE_SYSTEM: Role := "system"
  const ROLE_DEVELOPER: Role := "developer"
  const ROLE_USER: Role := "user"
  const ROLE_ASSISTANT: Role := "assistant"
  const ROLE_TOOL: Role := "tool"

  datatype ToolCall = ToolCall(id: string, name: string, arguments: Fields)

  datatype ToolResult = ToolResult(callId: string, name: string, content: string)

  datatype Message = Message(role: Role, content: string, name: string, toolCalls: seq<ToolCall>,
                             toolResult: Option<ToolResult>)

  datatype ToolDefinition = ToolDefinition(name: string, description: string, parameters: Fields)

  datatype ToolChoice = ToolChoice(mode: string, name: string)

  datatype ResponseFormat = ResponseFormat(kind: string, schema: Fields)

  /** A nil slice or map and an empty one are the same value here. */
  datatype Conversation = Conversation(model: string, messages: seq<Message>, tools: seq<ToolDefinition>,
                                       choice: ToolChoice, format: ResponseFormat, metadata: Fields, stream: bool)

  /** A completed answer; the status and error fields of the source only ever say "completed" here. */
  datatype Completion = Completion(content: string, toolCalls: seq<ToolCall>, finishReason: string)

  datatype ToolCallDelta = ToolCallDelta(index: int, id: string, name: string, arguments: string)

  datatype StreamChunk = StreamChunk(role: Role, content: string, deltas: seq<ToolCallDelta>,
                                     finishReason: string, done: bool, error: Option<string>)

  function RawString(v: Value): string {
    if v.String? then v.text else ""
  }

  function StringValue(v: Value): string {
    Text.Trim(RawString(v))
  }

  function BoolValue(v: Value): bool {
    v.Bool? && v.bit
  }

  /** cloneJSONMap: encode and decode again, which gives an equal map. */
  function Clone(fields: Fields): (r: Fields)
    ensures r == fields
  {
    RoundTrip(Object(fields));
    match ParseObject(Print(Object(fields)))
    case Some(cloned) => cloned
    case None => map[]
  }

  function CanonicalObject(v: Value, code: string): Result<Fields> {
    match v
    case Null => Ok(map[])
    case Object(fields) => Ok(Clone(fields))
    case String(text) => (match ParseObject(text) case Some(fields) => Ok(fields) case None => Err(code))
    case _ => Err(code)
  }

  function CanonicalContent(v: Value): string {
    match v
    case Null => ""
    case String(text) => text
    case _ => Print(v)
  }
}
