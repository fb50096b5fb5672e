/** The OpenAI-shaped request decoder. */
module OpenAI {
  import opened Wrappers
  import opened Json
  import opened Canonical
  import Text

  // ---------- Message content ----------

  function DecodePart(raw: Value): Result<string> {
    if !raw.Object? then Err("AGENT_MESSAGE_CONTENT_UNSUPPORTED")
    else if StringValue(Get(raw.fields, "type")) != "text" then Err("AGENT_MEDIA_INPUT_UNSUPPORTED")
    else if !Get(raw.fields, "text").String? then Err("AGENT_MESSAGE_CONTENT_UNSUPPORTED")
    else Ok(Get(raw.fields, "text").text)
  }

  function DecodeParts(parts: seq<Value>): Result<string> {
    if parts == [] then Ok("") else
      var first :- DecodePart(parts[0]);
      var more :- DecodeParts(parts[1..]);
      Ok(first + more)
  }

  function DecodeContent(raw: Value): Result<string> {
    match raw
    case Null => Ok("")
    case String(text) => Ok(text)
    case Array(parts) => DecodeParts(parts)
    case _ => Err("AGENT_MESSAGE_CONTENT_UNSUPPORTED")
  }

  // ---------- Tool calls ----------

  function DecodeToolCall(raw: Value, seen: set<string>): Result<ToolCall> {
    if !raw.Object? || StringValue(Get(raw.fields, "type")) != "function" then Err("AGENT_TOOL_CALL_INVALID") else
      var id := StringValue(Get(raw.fields, "id"));
      var function_ := Get(raw.fields, "function");
      if !function_.Object? || id == "" || StringValue(Get(function_.fields, "name")) == "" then
        Err("AGENT_TOOL_CALL_INVALID")
      else if id in seen then Err("AGENT_TOOL_CALL_ID_DUPLICATE")
      else
        var arguments :- CanonicalObject(Get(function_.fields, "arguments"), "AGENT_TOOL_ARGUMENTS_INVALID");
        Ok(ToolCall(id, StringValue(Get(function_.fields, "name")), arguments))
  }

  function DecodeCallList(values: seq<Value>, seen: set<string>): Result<seq<ToolCall>> {
    if values == [] then Ok([]) else
      var call :- DecodeToolCall(values[0], seen);
      var more :- DecodeCallList(values[1..], seen + {call.id});
      Ok([call] + more)
  }

  function DecodeToolCalls(raw: Value): Result<seq<ToolCall>> {
    if !raw.Array? || raw.items == [] then Err("AGENT_TOOL_CALLS_INVALID")
    else DecodeCallList(raw.items, {})
  }

  // ---------- Messages ----------

  predicate IsRole(role: Role) {
    role == ROLE_SYSTEM || role == ROLE_DEVELOPER || role == ROLE_USER || role == ROLE_ASSISTANT || role == ROLE_TOOL
  }

  function DecodeToolResult(value: Fields, name: string, known: set<string>): Result<ToolResult> {
    var callId := StringValue(Get(value, "tool_call_id"));
    if callId == "" then Err("AGENT_TOOL_RESULT_CALL_ID_REQUIRED")
    else if callId !in known then Err("AGENT_TOOL_RESULT_CALL_NOT_FOUND")
    else
      var content :- if Get(value, "content").Array? then DecodeContent(Get(value, "content"))
                     else Ok(CanonicalContent(Get(value, "content")));
      Ok(ToolResult(callId, name, content))
  }

  function DecodeMessage(raw: Value, known: set<string>): Result<Message> {
    if !raw.Object? then Err("AGENT_MESSAGES_INVALID") else
      var value := raw.fields;
      var role := StringValue(Get(value, "role"));
      var name := StringValue(Get(value, "name"));
      if !IsRole(role) then Err("AGENT_MESSAGE_ROLE_INVALID") else
        var content :- if role == ROLE_TOOL then Ok("") else DecodeContent(Get(value, "content"));
        var calls :- if Get(value, "tool_calls").Null? then Ok([])
                     else if role != ROLE_ASSISTANT then Err("AGENT_TOOL_CALL_ROLE_INVALID")
                     else DecodeToolCalls(Get(value, "tool_calls"));
        if role == ROLE_ASSISTANT && content == "" && calls == [] then Err("AGENT_MESSAGE_CONTENT_REQUIRED")
        else if role != ROLE_TOOL then Ok(Message(role, content, name, calls, None))
        else
          var result :- DecodeToolResult(value, name, known);
          Ok(Message(role, "", name, calls, Some(result)))
  }

  function CallIds(calls: seq<ToolCall>): set<string> {
    set call | call in calls :: call.id
  }

  function AddCalls(known: set<string>, calls: seq<ToolCall>): Result<set<string>>
    decreases |calls|
  {
    if calls == [] then Ok(known)
    else if calls[0].id in known then Err("AGENT_TOOL_CALL_ID_DUPLICATE")
    else AddCalls(known + {calls[0].id}, calls[1..])
  }

  function DecodeMessages(raws: seq<Value>, known: set<string>): Result<seq<Message>> {
    if raws == [] then Ok([]) else
      var message :- DecodeMessage(raws[0], known);
      var after :- AddCalls(known, message.toolCalls);
      var more :- DecodeMessages(raws[1..], after);
      Ok([message] + more)
  }

  // ---------- Tools, tool choice, response format ----------

  function DecodeTool(raw: Value, seen: set<string>): Result<ToolDefinition> {
    if !raw.Object? || StringValue(Get(raw.fields, "type")) != "function" then Err("AGENT_TOOL_INVALID") else
      var function_ := Get(raw.fields, "function");
      if !function_.Object? || StringValue(Get(function_.fields, "name")) == "" then
        Err("AGENT_TOOL_FUNCTION_INVALID")
      else
        var name := StringValue(Get(function_.fields, "name"));
        var parameters := Get(function_.fields, "parameters");
        if name in seen then Err("AGENT_TOOL_NAME_DUPLICATE")
        else if !parameters.Null? && !parameters.Object? then Err("AGENT_TOOL_PARAMETERS_INVALID")
        else Ok(ToolDefinition(name, RawString(Get(function_.fields, "description")),
                               if parameters.Object? then Clone(parameters.fields)
                               else map["type" := String("object")]))
  }

  function DecodeToolList(values: seq<Value>, seen: set<string>): Result<seq<ToolDefinition>> {
    if values == [] then Ok([]) else
      var tool :- DecodeTool(values[0], seen);
      var more :- DecodeToolList(values[1..], seen + {tool.name});
      Ok([tool] + more)
  }

  function DecodeTools(raw: Value): Result<seq<ToolDefinition>> {
    match raw
    case Null => Ok([])
    case Array(values) => DecodeToolList(values, {})
    case _ => Err("AGENT_TOOLS_INVALID")
  }

  function DecodeToolChoice(raw: Value): Result<ToolChoice> {
    match raw
    case Null => Ok(ToolChoice("", ""))
    case String(text) =>
      var mode := Text.Trim(text);
      if mode == "none" || mode == "auto" || mode == "required" then Ok(ToolChoice(mode, ""))
      else Err("AGENT_TOOL_CHOICE_INVALID")
    case Object(fields) =>
      var function_ := Get(fields, "function");
      if StringValue(Get(fields, "type")) != "function" || !function_.Object? ||
         StringValue(Get(function_.fields, "name")) == "" then Err("AGENT_TOOL_CHOICE_INVALID")
      else Ok(ToolChoice("", StringValue(Get(function_.fields, "name"))))
    case _ => Err("AGENT_TOOL_CHOICE_INVALID")
  }

  function DecodeResponseFormat(raw: Value): Result<ResponseFormat> {
    match raw
    case Null => Ok(ResponseFormat("", map[]))
    case Object(fields) =>
      var kind := StringValue(Get(fields, "type"));
      var schema := Get(fields, "json_schema");
      if kind == "text" || kind == "json_object" then Ok(ResponseFormat(kind, map[]))
      else if kind == "json_schema" && schema.Object? && schema.fields != map[] then
        Ok(ResponseFormat(kind, Clone(schema.fields)))
      else Err("AGENT_RESPONSE_FORMAT_INVALID")
    case _ => Err("AGENT_RESPONSE_FORMAT_INVALID")
  }

  // ---------- Metadata ----------

  predicate IsMetadataEntry(key: string, v: Value) {
    && Text.Trim(key) != "" && Text.Utf8Len(Text.Trim(key)) <= 64
    && !v.Array? && !v.Object? && (v.String? ==> Text.Utf8Len(v.text) <= 512)
  }

  /** Two keys that read the same once trimmed, with values that print differently. */
  predicate Conflicts(metadata: Fields, a: string, b: string) {
    a in metadata && b in metadata && Text.Trim(a) == Text.Trim(b) && Print(metadata[a]) != Print(metadata[b])
  }

  predicate MetadataAgrees(metadata: Fields) {
    forall a, b | a in metadata && b in metadata :: !Conflicts(metadata, a, b)
  }

  function TrimKeys(metadata: Fields): Fields
    requires MetadataAgrees(metadata)
  {
    assert forall a, b | a in metadata && b in metadata && Text.Trim(a) == Text.Trim(b) :: metadata[a] == metadata[b] by {
      forall a, b | a in metadata && b in metadata && Text.Trim(a) == Text.Trim(b) ensures metadata[a] == metadata[b] {
        assert !Conflicts(metadata, a, b);
        PrintInjective(metadata[a], metadata[b]);
      }
    }
    map key | key in metadata :: Text.Trim(key) := metadata[key]
  }

  function DecodeMetadata(raw: Value): Result<Fields> {
    match raw
    case Null => Ok(map[])
    case Object(metadata) =>
      if |metadata| > 32 || exists key | key in metadata :: !IsMetadataEntry(key, metadata[key]) then
        Err("AGENT_METADATA_INVALID")
      else if !MetadataAgrees(metadata) then Err("AGENT_METADATA_CONFLICT")
      else Ok(TrimKeys(metadata))
    case _ => Err("AGENT_METADATA_INVALID")
  }

  // ---------- The request ----------

  predicate HasTool(tools: seq<ToolDefinition>, name: string) {
    exists tool | tool in tools :: tool.name == name
  }

  /** The shape of the root object: the error code, if any. */
  function RootRefused(root: Fields): Option<string> {
    if "attachments" in root then Some("AGENT_FILE_ATTACHMENTS_UNSUPPORTED")
    else if !Get(root, "model").Null? && !Get(root, "model").String? then Some("AGENT_MODEL_INVALID")
    else if !Get(root, "stream").Null? && !Get(root, "stream").Bool? then Some("AGENT_STREAM_INVALID")
    else if Get(root, "messages").Null? then Some("AGENT_MESSAGES_REQUIRED")
    else if !Get(root, "messages").Array? || Get(root, "messages").items == [] then Some("AGENT_MESSAGES_INVALID")
    else None
  }

  function ModelNamed(named: string): string {
    if named == "" then DEFAULT_MODEL else named
  }

  function DecodeFields(model: string, stream: bool, messageList: seq<Value>, toolList: Value, chosen: Value,
                        formed: Value, noted: Value): Result<Conversation> {
    var messages :- DecodeMessages(messageList, {});
    var tools :- DecodeTools(toolList);
    var choice :- DecodeToolChoice(chosen);
    if choice.name != "" && !HasTool(tools, choice.name) then Err("AGENT_TOOL_CHOICE_UNDECLARED") else
      var format :- DecodeResponseFormat(formed);
      var metadata :- DecodeMetadata(noted);
      Ok(Conversation(model, messages, tools, choice, format, metadata, stream))
  }

  function DecodeRoot(root: Fields): Result<Conversation> {
    match RootRefused(root)
    case Some(code) => Err(code)
    case None =>
      DecodeFields(ModelNamed(StringValue(Get(root, "model"))), BoolValue(Get(root, "stream")),
                   Get(root, "messages").items, Get(root, "tools"), Get(root, "tool_choice"),
                   Get(root, "response_format"), Get(root, "metadata"))
  }

  function DecodeRequest(payload: string): Result<Conversation> {
    match ParseObject(payload)
    case None => Err("AGENT_REQUEST_JSON_INVALID")
    case Some(root) => DecodeRoot(root)
  }

  // ---------- Encoding shared with the bridge ----------

  function EncodeToolCall(call: ToolCall): Value {
    Object(map["id" := String(call.id), "type" := String("function"),
               "function" := Object(map["name" := String(call.name),
                                        "arguments" := String(Print(Object(call.arguments)))])])
  }

  function EncodeToolCalls(calls: seq<ToolCall>): seq<Value> {
    seq(|calls|, i requires 0 <= i < |calls| => EncodeToolCall(calls[i]))
  }
}
