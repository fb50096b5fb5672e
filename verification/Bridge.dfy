/** The projection between canonical values and the bridge's JSON bodies. */
module Bridge {
  import opened Wrappers
  import opened Json
  import opened Canonical
  import OpenAI
  import Text

  // ---------- Requests ----------

  /** Setting a member, or not. */
  function Put(fields: Fields, key: string, v: Option<Value>): Fields {
    match v
    case None => fields
    case Some(given) => fields[key := given]
  }

  function Given(s: string): Option<Value> {
    if s == "" then None else Some(String(s))
  }

  function EncodeToolMessage(role: Role, result: ToolResult): Fields {
    Put(map["role" := String(role), "tool_call_id" := String(result.callId), "content" := String(result.content)],
        "name", Given(result.name))
  }

  function EncodeMessage(message: Message): Fields {
    if message.role != ROLE_TOOL then
      Put(Put(map["role" := String(message.role), "content" := String(message.content)], "name", Given(message.name)),
          "tool_calls", if message.toolCalls == [] then None else Some(Array(OpenAI.EncodeToolCalls(message.toolCalls))))
    else if message.toolResult.None? then map["role" := String(message.role)]
    else EncodeToolMessage(message.role, message.toolResult.value)
  }

  function EncodeMessages(messages: seq<Message>): seq<Value> {
    seq(|messages|, i requires 0 <= i < |messages| => Object(EncodeMessage(messages[i])))
  }

  function EncodeFunction(tool: ToolDefinition): Fields {
    Put(map["name" := String(tool.name), "parameters" := Object(tool.parameters)], "description", Given(tool.description))
  }

  function EncodeTool(tool: ToolDefinition): Value {
    Object(map["type" := String("function"), "function" := Object(EncodeFunction(tool))])
  }

  function EncodeTools(tools: seq<ToolDefinition>): seq<Value> {
    seq(|tools|, i requires 0 <= i < |tools| => EncodeTool(tools[i]))
  }

  function EncodeChoice(choice: ToolChoice): Option<Value> {
    if choice.mode != "" then Some(String(choice.mode))
    else if choice.name != "" then
      Some(Object(map["type" := String("function"), "function" := Object(map["name" := String(choice.name)])]))
    else None
  }

  function EncodeFormat(format: ResponseFormat): Option<Value> {
    if format.kind == "" then None
    else Some(Object(Put(map["type" := String(format.kind)], "json_schema",
                         if format.kind == "json_schema" then Some(Object(Clone(format.schema))) else None)))
  }

  function EncodeBody(c: Conversation): Fields {
    var named := map["model" := String(c.model), "messages" := Array(EncodeMessages(c.messages))];
    var tooled := Put(named, "tools", if c.tools == [] then None else Some(Array(EncodeTools(c.tools))));
    var chosen := Put(tooled, "tool_choice", EncodeChoice(c.choice));
    var formed := Put(chosen, "response_format", EncodeFormat(c.format));
    var noted := Put(formed, "metadata", if c.metadata == map[] then None else Some(Object(Clone(c.metadata))));
    Put(noted, "stream", if c.stream then Some(Bool(true)) else None)
  }

  function EncodeBridgeRequest(c: Conversation): Result<Fields> {
    match ValidateConversation(c)
    case Some(code) => Err(code)
    case None => Ok(EncodeBody(c))
  }

  // ---------- Validation ----------

  const CONVERSION_FAILED := "AGENT_MCP_REQUEST_CONVERSION_FAILED"

  function ValidateCalls(role: Role, calls: seq<ToolCall>, ids: set<string>): Result<set<string>> {
    if calls == [] then Ok(ids)
    else if role != ROLE_ASSISTANT || Text.Trim(calls[0].id) == "" || Text.Trim(calls[0].name) == "" then
      Err(CONVERSION_FAILED)
    else if calls[0].id in ids then Err("AGENT_TOOL_CALL_ID_DUPLICATE")
    else ValidateCalls(role, calls[1..], ids + {calls[0].id})
  }

  function ValidateMessage(message: Message, ids: set<string>): Result<set<string>> {
    if !OpenAI.IsRole(message.role) then Err(CONVERSION_FAILED)
    else if message.role != ROLE_TOOL && message.toolResult.Some? then Err(CONVERSION_FAILED)
    else if message.role == ROLE_TOOL &&
            (message.toolResult.None? || Text.Trim(message.toolResult.value.callId) == "") then Err(CONVERSION_FAILED)
    else if message.role == ROLE_TOOL && message.toolResult.value.callId !in ids then
      Err("AGENT_TOOL_RESULT_CALL_NOT_FOUND")
    else ValidateCalls(message.role, message.toolCalls, ids)
  }

  function ValidateMessages(messages: seq<Message>, ids: set<string>): Result<set<string>> {
    if messages == [] then Ok(ids) else
      var after :- ValidateMessage(messages[0], ids);
      ValidateMessages(messages[1..], after)
  }

  function ValidateTools(tools: seq<ToolDefinition>, names: set<string>): Option<string> {
    if tools == [] then None
    else if Text.Trim(tools[0].name) == "" then Some(CONVERSION_FAILED)
    else if tools[0].name in names then Some("AGENT_TOOL_NAME_DUPLICATE")
    else ValidateTools(tools[1..], names + {tools[0].name})
  }

  /** The error code, if any. */
  function ValidateConversation(c: Conversation): Option<string> {
    if c.messages == [] then Some(CONVERSION_FAILED)
    else match ValidateMessages(c.messages, {})
      case Err(code) => Some(code)
      case Ok(_) => ValidateTools(c.tools, {})
  }

  // ---------- Completions ----------

  function ValidateCompletionTools(calls: seq<ToolCall>, tools: seq<ToolDefinition>): Option<string> {
    if calls == [] then None
    else if tools == [] then Some("AGENT_TOOL_CALL_UNMAPPABLE")
    else if exists call | call in calls :: !OpenAI.HasTool(tools, call.name) then Some("AGENT_TOOL_CALL_UNDECLARED")
    else None
  }

  function EnforceResponseFormat(format: ResponseFormat, content: string): Option<string> {
    if (format.kind == "json_object" || format.kind == "json_schema") && Parse(Text.Trim(content)).None? then
      Some("AGENT_RESPONSE_JSON_INVALID")
    else None
  }

  /** What the answered request demands of an answer; nothing when no request is given. */
  function RequestRefuses(request: Option<Conversation>, calls: seq<ToolCall>, content: string): Option<string> {
    match request
    case None => None
    case Some(conversation) =>
      match ValidateCompletionTools(calls, conversation.tools)
      case Some(code) => Some(code)
      case None => EnforceResponseFormat(conversation.format, content)
  }

  function CompletionMessage(value: Fields): Fields {
    if Get(value, "message").Object? then Get(value, "message").fields else value
  }

  predicate IsFinishReason(reason: string) {
    reason == "stop" || reason == "tool_calls" || reason == "length" || reason == "content_filter"
  }

  function FinishReason(value: Fields, calls: seq<ToolCall>): string {
    var given := StringValue(Get(value, "finish_reason"));
    if given != "" then given else if calls != [] then "tool_calls" else "stop"
  }

  function DecodeBridgeCompletion(value: Fields, request: Option<Conversation>): Result<Completion> {
    var message := CompletionMessage(value);
    var content := CanonicalContent(Get(message, "content"));
    var calls :- if "tool_calls" in message then OpenAI.DecodeToolCalls(message["tool_calls"]) else Ok([]);
    if Text.Trim(content) == "" && calls == [] then Err("AGENT_RESPONSE_MESSAGE_REQUIRED")
    else
      match RequestRefuses(request, calls, content)
      case Some(code) => Err(code)
      case None =>
        var reason := FinishReason(value, calls);
        if !IsFinishReason(reason) then Err("AGENT_FINISH_REASON_INVALID")
        else if calls != [] && reason != "tool_calls" then Err("AGENT_TOOL_CALL_FINISH_REASON_INVALID")
        else Ok(Completion(content, calls, reason))
  }

  /** Naming the request can only turn an acceptance into a refusal, never change the answer. */
  lemma DecodeAgrees(value: Fields, request: Conversation)
    ensures DecodeBridgeCompletion(value, Some(request)).Ok? ==>
              DecodeBridgeCompletion(value, None) == DecodeBridgeCompletion(value, Some(request))
    ensures DecodeBridgeCompletion(value, None).Ok? ==>
              var c := DecodeBridgeCompletion(value, None).value;
              DecodeBridgeCompletion(value, Some(request)) ==
                (match RequestRefuses(Some(request), c.toolCalls, c.content) case Some(code) => Err(code) case None => Ok(c))
  {}
}
