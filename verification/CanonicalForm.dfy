/**
 * The conversations that the request decoder produces: exactly those in canonical form. The bridge encoder
 * accepts each of them, and the decoder reads what it wrote as the same conversation.
 */
module CanonicalForm {
  import opened Wrappers
  import opened Json
  import opened Canonical
  import opened OpenAI
  import Bridge
  import Text

  // ---------- The form ----------

  ghost predicate Named(s: string) {
    s != "" && Text.Trimmed(s)
  }

  /** Calls with distinct ids that are not among those known. */
  ghost predicate CanonicalCalls(calls: seq<ToolCall>, known: set<string>) {
    && (forall call | call in calls :: Named(call.id) && Named(call.name) && call.id !in known)
    && (forall i, j | 0 <= i < j < |calls| :: calls[i].id != calls[j].id)
  }

  ghost predicate CanonicalMessage(m: Message, known: set<string>) {
    && IsRole(m.role) && Text.Trimmed(m.name)
    && CanonicalCalls(m.toolCalls, known)
    && (m.role != ROLE_ASSISTANT ==> m.toolCalls == [])
    && (m.role == ROLE_ASSISTANT ==> m.content != "" || m.toolCalls != [])
    && (m.role != ROLE_TOOL ==> m.toolResult.None?)
    && (m.role == ROLE_TOOL ==>
          m.content == "" && m.toolResult.Some? && Named(m.toolResult.value.callId)
          && m.toolResult.value.callId in known && m.toolResult.value.name == m.name)
  }

  /** Each call id is new, and each tool result answers a call made earlier. */
  ghost predicate CanonicalMessages(messages: seq<Message>, known: set<string>) {
    messages == [] ||
    (CanonicalMessage(messages[0], known) && CanonicalMessages(messages[1..], known + CallIds(messages[0].toolCalls)))
  }

  ghost predicate CanonicalTools(tools: seq<ToolDefinition>) {
    && (forall tool | tool in tools :: Named(tool.name))
    && (forall i, j | 0 <= i < j < |tools| :: tools[i].name != tools[j].name)
  }

  ghost predicate CanonicalChoice(choice: ToolChoice, tools: seq<ToolDefinition>) {
    || choice == ToolChoice("", "")
    || (choice.mode in {"none", "auto", "required"} && choice.name == "")
    || (choice.mode == "" && Named(choice.name) && HasTool(tools, choice.name))
  }

  ghost predicate CanonicalFormat(format: ResponseFormat) {
    || (format.kind in {"", "text", "json_object"} && format.schema == map[])
    || (format.kind == "json_schema" && format.schema != map[])
  }

  ghost predicate CanonicalMetadata(metadata: Fields) {
    && |metadata| <= 32
    && forall key | key in metadata :: Text.Trimmed(key) && IsMetadataEntry(key, metadata[key])
  }

  ghost predicate InForm(c: Conversation) {
    && Named(c.model)
    && c.messages != [] && CanonicalMessages(c.messages, {})
    && CanonicalTools(c.tools) && CanonicalChoice(c.choice, c.tools)
    && CanonicalFormat(c.format) && CanonicalMetadata(c.metadata)
  }

  // ---------- What is decoded is canonical ----------

  lemma {:induction false} CallListCanonical(values: seq<Value>, seen: set<string>)
    requires DecodeCallList(values, seen).Ok?
    ensures CanonicalCalls(DecodeCallList(values, seen).value, seen) && |DecodeCallList(values, seen).value| == |values|
  {
    if values != [] {
      var call := DecodeToolCall(values[0], seen).value;
      CallListCanonical(values[1..], seen + {call.id});
      var more := DecodeCallList(values[1..], seen + {call.id}).value;
      ConsCalls(call, more, seen);
    }
  }

  lemma ConsCalls(call: ToolCall, more: seq<ToolCall>, seen: set<string>)
    requires Named(call.id) && Named(call.name) && call.id !in seen && CanonicalCalls(more, seen + {call.id})
    ensures CanonicalCalls([call] + more, seen)
  {
    var all := [call] + more;
    forall i, j | 0 <= i < j < |all| ensures all[i].id != all[j].id {
      assert all[j] == more[j - 1] && more[j - 1] in more;
      if i > 0 { assert all[i] == more[i - 1]; }
    }
  }

  lemma ToolCallsCanonical(raw: Value)
    requires DecodeToolCalls(raw).Ok?
    ensures CanonicalCalls(DecodeToolCalls(raw).value, {}) && DecodeToolCalls(raw).value != []
  {
    CallListCanonical(raw.items, {});
  }

  lemma CanonicalCallsTail(calls: seq<ToolCall>, seen: set<string>)
    requires CanonicalCalls(calls, seen) && calls != []
    ensures Named(calls[0].id) && Named(calls[0].name) && calls[0].id !in seen
    ensures CanonicalCalls(calls[1..], seen + {calls[0].id}) && [calls[0]] + calls[1..] == calls
  {
    var rest := calls[1..];
    assert calls[0] in calls;
    forall call | call in rest ensures Named(call.id) && Named(call.name) && call.id !in seen + {calls[0].id} {
      var k :| 0 <= k < |rest| && rest[k] == call;
      assert calls[k + 1] == call && calls[k + 1] in calls;
    }
  }

  lemma {:induction false} AddedCalls(known: set<string>, calls: seq<ToolCall>)
    requires CanonicalCalls(calls, {})
    ensures AddCalls(known, calls).Ok? <==> CanonicalCalls(calls, known)
    ensures AddCalls(known, calls).Ok? ==> AddCalls(known, calls).value == known + CallIds(calls)
    decreases |calls|
  {
    if calls != [] {
      var rest := calls[1..];
      CanonicalCallsTail(calls, {});
      AddedCalls(known + {calls[0].id}, rest);
      if CanonicalCalls(calls, known) {
        CanonicalCallsTail(calls, known);
      } else if calls[0].id !in known && CanonicalCalls(rest, known + {calls[0].id}) {
        ConsCalls(calls[0], rest, known);
      }
    }
  }

  lemma MessageCanonical(raw: Value, known: set<string>)
    requires DecodeMessage(raw, known).Ok? && AddCalls(known, DecodeMessage(raw, known).value.toolCalls).Ok?
    ensures CanonicalMessage(DecodeMessage(raw, known).value, known)
    ensures AddCalls(known, DecodeMessage(raw, known).value.toolCalls).value
            == known + CallIds(DecodeMessage(raw, known).value.toolCalls)
  {
    var m := DecodeMessage(raw, known).value;
    if !Get(raw.fields, "tool_calls").Null? { ToolCallsCanonical(Get(raw.fields, "tool_calls")); }
    AddedCalls(known, m.toolCalls);
  }

  lemma {:induction false} MessagesCanonical(raws: seq<Value>, known: set<string>)
    requires DecodeMessages(raws, known).Ok?
    ensures CanonicalMessages(DecodeMessages(raws, known).value, known) && |DecodeMessages(raws, known).value| == |raws|
  {
    if raws != [] {
      var m := DecodeMessage(raws[0], known).value;
      var after := AddCalls(known, m.toolCalls).value;
      MessageCanonical(raws[0], known);
      MessagesCanonical(raws[1..], after);
      var more := DecodeMessages(raws[1..], after).value;
      assert ([m] + more)[1..] == more;
    }
  }

  lemma ConsTools(tool: ToolDefinition, more: seq<ToolDefinition>, seen: set<string>)
    requires Named(tool.name) && CanonicalTools(more) && forall other | other in more :: other.name !in seen + {tool.name}
    ensures CanonicalTools([tool] + more)
  {
    var all := [tool] + more;
    forall i, j | 0 <= i < j < |all| ensures all[i].name != all[j].name {
      assert all[j] == more[j - 1] && more[j - 1] in more;
      if i > 0 { assert all[i] == more[i - 1]; }
    }
  }

  lemma {:induction false} ToolListCanonical(values: seq<Value>, seen: set<string>)
    requires DecodeToolList(values, seen).Ok?
    ensures CanonicalTools(DecodeToolList(values, seen).value)
    ensures forall tool | tool in DecodeToolList(values, seen).value :: tool.name !in seen
  {
    if values != [] {
      var tool := DecodeTool(values[0], seen).value;
      ToolListCanonical(values[1..], seen + {tool.name});
      ConsTools(tool, DecodeToolList(values[1..], seen + {tool.name}).value, seen);
    }
  }

  lemma {:induction false} ImageSize(keys: set<string>, image: set<string>, f: string -> string)
    requires image == set key | key in keys :: f(key)
    ensures |image| <= |keys|
    decreases |keys|
  {
    if keys != {} {
      var key :| key in keys;
      var rest := keys - {key};
      var less := set k | k in rest :: f(k);
      ImageSize(rest, less, f);
      assert image == less + {f(key)};
    }
  }

  lemma MetadataCanonical(metadata: Fields)
    requires |metadata| <= 32 && MetadataAgrees(metadata) && forall key | key in metadata :: IsMetadataEntry(key, metadata[key])
    ensures CanonicalMetadata(TrimKeys(metadata))
  {
    var trimmed := TrimKeys(metadata);
    ImageSize(metadata.Keys, trimmed.Keys, (key: string) => Text.Trim(key));
    assert |trimmed| == |trimmed.Keys| && |metadata| == |metadata.Keys|;
    forall key | key in trimmed ensures Text.Trimmed(key) && IsMetadataEntry(key, trimmed[key]) {
      var original :| original in metadata && Text.Trim(original) == key && metadata[original] == trimmed[key];
      assert Text.Trim(key) == key;
    }
  }

  lemma MetadataDecodes(raw: Value)
    requires DecodeMetadata(raw).Ok?
    ensures CanonicalMetadata(DecodeMetadata(raw).value)
  {
    if raw.Object? { MetadataCanonical(raw.fields); }
  }

  lemma ToolsCanonical(raw: Value)
    requires DecodeTools(raw).Ok?
    ensures CanonicalTools(DecodeTools(raw).value)
  {
    if raw.Array? { ToolListCanonical(raw.items, {}); }
  }

  /** An accepted request, field by field. */
  lemma FieldsAccepted(model: string, stream: bool, messages: seq<Value>, tools: Value, choice: Value, format: Value,
                       metadata: Value)
    requires DecodeFields(model, stream, messages, tools, choice, format, metadata).Ok?
    ensures var c := DecodeFields(model, stream, messages, tools, choice, format, metadata).value;
            && c.model == model && DecodeMessages(messages, {}) == Ok(c.messages) && DecodeTools(tools) == Ok(c.tools)
            && DecodeToolChoice(choice) == Ok(c.choice) && (c.choice.name != "" ==> HasTool(c.tools, c.choice.name))
            && DecodeResponseFormat(format) == Ok(c.format) && DecodeMetadata(metadata) == Ok(c.metadata)
  {}

  lemma FieldsAreCanonical(model: string, stream: bool, messages: seq<Value>, tools: Value, choice: Value, format: Value,
                           metadata: Value)
    requires DecodeFields(model, stream, messages, tools, choice, format, metadata).Ok? && Named(model) && messages != []
    ensures InForm(DecodeFields(model, stream, messages, tools, choice, format, metadata).value)
  {
    FieldsAccepted(model, stream, messages, tools, choice, format, metadata);
    MessagesCanonical(messages, {});
    ToolsCanonical(tools);
    MetadataDecodes(metadata);
  }

  lemma RootIsCanonical(root: Fields)
    requires DecodeRoot(root).Ok?
    ensures InForm(DecodeRoot(root).value)
  {
    FieldsAreCanonical(ModelNamed(StringValue(Get(root, "model"))), BoolValue(Get(root, "stream")),
                       Get(root, "messages").items, Get(root, "tools"), Get(root, "tool_choice"),
                       Get(root, "response_format"), Get(root, "metadata"));
  }

  /** Every request that is accepted is read as a conversation in canonical form. */
  lemma DecodedIsCanonical(payload: string)
    requires DecodeRequest(payload).Ok?
    ensures InForm(DecodeRequest(payload).value)
  {
    RootIsCanonical(ParseObject(payload).value);
  }

  // ---------- The bridge encoder accepts canonical conversations ----------

  lemma CallIdsCons(calls: seq<ToolCall>, known: set<string>)
    requires calls != []
    ensures (known + {calls[0].id}) + CallIds(calls[1..]) == known + CallIds(calls)
  {
    assert calls == [calls[0]] + calls[1..];
  }

  lemma {:induction false} CallsValid(role: Role, calls: seq<ToolCall>, known: set<string>)
    requires CanonicalCalls(calls, known) && (calls != [] ==> role == ROLE_ASSISTANT)
    ensures Bridge.ValidateCalls(role, calls, known) == Ok(known + CallIds(calls))
    decreases |calls|
  {
    if calls == [] {
      assert known + CallIds(calls) == known;
    } else {
      CanonicalCallsTail(calls, known);
      CallsValid(role, calls[1..], known + {calls[0].id});
      CallIdsCons(calls, known);
    }
  }

  lemma {:induction false} MessagesValid(messages: seq<Message>, known: set<string>)
    requires CanonicalMessages(messages, known)
    ensures Bridge.ValidateMessages(messages, known).Ok?
  {
    if messages != [] {
      CallsValid(messages[0].role, messages[0].toolCalls, known);
      MessagesValid(messages[1..], known + CallIds(messages[0].toolCalls));
    }
  }

  lemma {:induction false} ToolsValid(tools: seq<ToolDefinition>, names: set<string>)
    requires CanonicalTools(tools) && forall tool | tool in tools :: tool.name !in names
    ensures Bridge.ValidateTools(tools, names) == None
  {
    if tools != [] {
      var rest := tools[1..];
      assert tools == [tools[0]] + rest;
      forall tool | tool in rest ensures tool.name !in names + {tools[0].name} {
        var k :| 0 <= k < |rest| && rest[k] == tool;
        assert tools[k + 1] == tool;
      }
      ToolsValid(rest, names + {tools[0].name});
    }
  }

  /** No conversation in canonical form is refused. */
  lemma CanonicalEncodes(c: Conversation)
    requires InForm(c)
    ensures Bridge.EncodeBridgeRequest(c) == Ok(Bridge.EncodeBody(c))
  {
    MessagesValid(c.messages, {});
    ToolsValid(c.tools, {});
  }

  // ---------- What was encoded is decoded ----------

  lemma TrimmedValue(s: string)
    requires Text.Trimmed(s)
    ensures StringValue(String(s)) == s
  {}

  lemma ArgumentsRead(call: ToolCall)
    ensures CanonicalObject(String(Print(Object(call.arguments))), "AGENT_TOOL_ARGUMENTS_INVALID") == Ok(call.arguments)
  {
    RoundTrip(Object(call.arguments));
  }

  lemma CallRead(call: ToolCall, seen: set<string>)
    requires Named(call.id) && Named(call.name) && call.id !in seen
    ensures DecodeToolCall(EncodeToolCall(call), seen) == Ok(call)
  {
    TrimmedValue(call.id);
    TrimmedValue(call.name);
    TrimmedValue("function");
    ArgumentsRead(call);
    EncodedCall(call);
    CallFrom(EncodeToolCall(call).fields, call, seen);
  }

  lemma EncodedCall(call: ToolCall)
    ensures EncodeToolCall(call).Object?
    ensures var fields := EncodeToolCall(call).fields;
            && Get(fields, "type") == String("function") && Get(fields, "id") == String(call.id)
            && Get(fields, "function") == Object(map["name" := String(call.name),
                                                     "arguments" := String(Print(Object(call.arguments)))])
  {}

  lemma CallFrom(fields: Fields, call: ToolCall, seen: set<string>)
    requires StringValue(Get(fields, "type")) == "function" && StringValue(Get(fields, "id")) == call.id != ""
    requires Get(fields, "function").Object? && call.id !in seen
    requires var function_ := Get(fields, "function").fields;
             StringValue(Get(function_, "name")) == call.name != ""
             && CanonicalObject(Get(function_, "arguments"), "AGENT_TOOL_ARGUMENTS_INVALID") == Ok(call.arguments)
    ensures DecodeToolCall(Object(fields), seen) == Ok(call)
  {}

  lemma EncodedCallsTail(calls: seq<ToolCall>)
    requires calls != []
    ensures EncodeToolCalls(calls) != [] && EncodeToolCalls(calls)[0] == EncodeToolCall(calls[0])
    ensures EncodeToolCalls(calls)[1..] == EncodeToolCalls(calls[1..])
  {}

  lemma {:induction false} CallListRead(calls: seq<ToolCall>, seen: set<string>)
    requires CanonicalCalls(calls, seen)
    ensures DecodeCallList(EncodeToolCalls(calls), seen) == Ok(calls)
    decreases |calls|
  {
    if calls != [] {
      CanonicalCallsTail(calls, seen);
      EncodedCallsTail(calls);
      CallRead(calls[0], seen);
      CallListRead(calls[1..], seen + {calls[0].id});
    }
  }

  lemma CallsRead(calls: seq<ToolCall>, known: set<string>)
    requires CanonicalCalls(calls, known) && calls != []
    ensures DecodeToolCalls(Array(EncodeToolCalls(calls))) == Ok(calls)
    ensures AddCalls(known, calls) == Ok(known + CallIds(calls))
  {
    assert CanonicalCalls(calls, {});
    CallListRead(calls, {});
    AddedCalls(known, calls);
  }

  lemma PutReads(fields: Fields, key: string, v: Option<Value>, other: string)
    ensures other != key ==> Get(Bridge.Put(fields, key, v), other) == Get(fields, other)
    ensures Get(Bridge.Put(fields, key, v), key) == if v.Some? then v.value else Get(fields, key)
    ensures key !in fields && other != key ==> (other in Bridge.Put(fields, key, v) <==> other in fields)
  {}

  lemma ToolMessageFields(role: Role, result: ToolResult)
    requires Text.Trimmed(result.name)
    ensures var fields := Bridge.EncodeToolMessage(role, result);
            && Get(fields, "role") == String(role) && Get(fields, "tool_call_id") == String(result.callId)
            && Get(fields, "content") == String(result.content) && Get(fields, "tool_calls") == Null
            && StringValue(Get(fields, "name")) == result.name
  {
    var fields := map["role" := String(role), "tool_call_id" := String(result.callId), "content" := String(result.content)];
    PutReads(fields, "name", Bridge.Given(result.name), "role");
    PutReads(fields, "name", Bridge.Given(result.name), "tool_call_id");
    PutReads(fields, "name", Bridge.Given(result.name), "content");
    PutReads(fields, "name", Bridge.Given(result.name), "tool_calls");
  }

  lemma PlainMessageFields(m: Message)
    requires Text.Trimmed(m.name) && m.role != ROLE_TOOL
    ensures var fields := Bridge.EncodeMessage(m);
            && Get(fields, "role") == String(m.role) && Get(fields, "content") == String(m.content)
            && StringValue(Get(fields, "name")) == m.name
            && Get(fields, "tool_calls") == if m.toolCalls == [] then Null else Array(EncodeToolCalls(m.toolCalls))
  {
    var fields := map["role" := String(m.role), "content" := String(m.content)];
    var named := Bridge.Put(fields, "name", Bridge.Given(m.name));
    PutReads(fields, "name", Bridge.Given(m.name), "role");
    PutReads(fields, "name", Bridge.Given(m.name), "content");
    PutReads(fields, "name", Bridge.Given(m.name), "tool_calls");
    var calls := if m.toolCalls == [] then None else Some(Array(EncodeToolCalls(m.toolCalls)));
    PutReads(named, "tool_calls", calls, "role");
    PutReads(named, "tool_calls", calls, "content");
    PutReads(named, "tool_calls", calls, "name");
  }

  lemma ToolMessageRead(m: Message, known: set<string>)
    requires CanonicalMessage(m, known) && m.role == ROLE_TOOL
    ensures DecodeMessage(Object(Bridge.EncodeMessage(m)), known) == Ok(m)
  {
    TrimmedValue(m.role);
    TrimmedValue(m.toolResult.value.callId);
    ToolMessageFields(m.role, m.toolResult.value);
  }

  lemma PlainMessageFrom(fields: Fields, m: Message, known: set<string>)
    requires CanonicalMessage(m, known) && m.role != ROLE_TOOL
    requires StringValue(Get(fields, "role")) == m.role && Get(fields, "content") == String(m.content)
    requires StringValue(Get(fields, "name")) == m.name
    requires m.toolCalls == [] ==> Get(fields, "tool_calls") == Null
    requires m.toolCalls != [] ==> !Get(fields, "tool_calls").Null? && DecodeToolCalls(Get(fields, "tool_calls")) == Ok(m.toolCalls)
    ensures DecodeMessage(Object(fields), known) == Ok(m)
  {}

  lemma PlainMessageRead(m: Message, known: set<string>)
    requires CanonicalMessage(m, known) && m.role != ROLE_TOOL
    ensures DecodeMessage(Object(Bridge.EncodeMessage(m)), known) == Ok(m)
  {
    TrimmedValue(m.role);
    PlainMessageFields(m);
    if m.toolCalls != [] { CallsRead(m.toolCalls, known); }
    PlainMessageFrom(Bridge.EncodeMessage(m), m, known);
  }

  lemma MessageRead(m: Message, known: set<string>)
    requires CanonicalMessage(m, known)
    ensures DecodeMessage(Object(Bridge.EncodeMessage(m)), known) == Ok(m)
    ensures AddCalls(known, m.toolCalls) == Ok(known + CallIds(m.toolCalls))
  {
    if m.role == ROLE_TOOL { ToolMessageRead(m, known); } else { PlainMessageRead(m, known); }
    assert CanonicalCalls(m.toolCalls, {});
    AddedCalls(known, m.toolCalls);
  }

  lemma EncodedTail(messages: seq<Message>)
    requires messages != []
    ensures var raws := Bridge.EncodeMessages(messages);
            && raws != [] && raws[0] == Object(Bridge.EncodeMessage(messages[0]))
            && raws[1..] == Bridge.EncodeMessages(messages[1..])
  {}

  lemma {:induction false} MessagesRead(messages: seq<Message>, known: set<string>)
    requires CanonicalMessages(messages, known)
    ensures DecodeMessages(Bridge.EncodeMessages(messages), known) == Ok(messages)
    decreases |messages|
  {
    if messages != [] {
      MessageRead(messages[0], known);
      MessagesRead(messages[1..], known + CallIds(messages[0].toolCalls));
      MessagesReadOn(messages, known);
    }
  }

  lemma MessagesReadOn(messages: seq<Message>, known: set<string>)
    requires messages != []
    requires DecodeMessage(Object(Bridge.EncodeMessage(messages[0])), known) == Ok(messages[0])
    requires AddCalls(known, messages[0].toolCalls) == Ok(known + CallIds(messages[0].toolCalls))
    requires DecodeMessages(Bridge.EncodeMessages(messages[1..]), known + CallIds(messages[0].toolCalls)) == Ok(messages[1..])
    ensures DecodeMessages(Bridge.EncodeMessages(messages), known) == Ok(messages)
  {
    EncodedTail(messages);
    ConsMessages(Bridge.EncodeMessages(messages), messages[0], messages[1..], known, known + CallIds(messages[0].toolCalls));
    assert [messages[0]] + messages[1..] == messages;
  }

  lemma ConsMessages(raws: seq<Value>, m: Message, more: seq<Message>, known: set<string>, after: set<string>)
    requires raws != [] && DecodeMessage(raws[0], known) == Ok(m) && AddCalls(known, m.toolCalls) == Ok(after)
    requires DecodeMessages(raws[1..], after) == Ok(more)
    ensures DecodeMessages(raws, known) == Ok([m] + more)
  {}

  lemma FunctionFields(tool: ToolDefinition)
    ensures var fields := Bridge.EncodeFunction(tool);
            && Get(fields, "name") == String(tool.name) && Get(fields, "parameters") == Object(tool.parameters)
            && RawString(Get(fields, "description")) == tool.description
  {
    var fields := map["name" := String(tool.name), "parameters" := Object(Clone(tool.parameters))];
    PutReads(fields, "description", Bridge.Given(tool.description), "name");
    PutReads(fields, "description", Bridge.Given(tool.description), "parameters");
  }

  lemma ToolRead(tool: ToolDefinition, seen: set<string>)
    requires Named(tool.name) && tool.name !in seen
    ensures DecodeTool(Bridge.EncodeTool(tool), seen) == Ok(tool)
  {
    TrimmedValue("function");
    TrimmedValue(tool.name);
    FunctionFields(tool);
  }

  lemma CanonicalToolsTail(tools: seq<ToolDefinition>, seen: set<string>)
    requires CanonicalTools(tools) && tools != [] && forall tool | tool in tools :: tool.name !in seen
    ensures Named(tools[0].name) && tools[0].name !in seen && CanonicalTools(tools[1..])
    ensures forall tool | tool in tools[1..] :: tool.name !in seen + {tools[0].name}
    ensures [tools[0]] + tools[1..] == tools
  {
    var rest := tools[1..];
    assert tools[0] in tools;
    forall tool | tool in rest ensures Named(tool.name) && tool.name !in seen + {tools[0].name} {
      var k :| 0 <= k < |rest| && rest[k] == tool;
      assert tools[k + 1] == tool && tools[k + 1] in tools;
    }
  }

  lemma EncodedToolsTail(tools: seq<ToolDefinition>)
    requires tools != []
    ensures Bridge.EncodeTools(tools) != [] && Bridge.EncodeTools(tools)[0] == Bridge.EncodeTool(tools[0])
    ensures Bridge.EncodeTools(tools)[1..] == Bridge.EncodeTools(tools[1..])
  {}

  lemma {:induction false} ToolListRead(tools: seq<ToolDefinition>, seen: set<string>)
    requires CanonicalTools(tools) && forall tool | tool in tools :: tool.name !in seen
    ensures DecodeToolList(Bridge.EncodeTools(tools), seen) == Ok(tools)
    decreases |tools|
  {
    if tools != [] {
      CanonicalToolsTail(tools, seen);
      EncodedToolsTail(tools);
      ToolRead(tools[0], seen);
      ToolListRead(tools[1..], seen + {tools[0].name});
    }
  }

  function Unless(v: Option<Value>): Value {
    if v.Some? then v.value else Null
  }

  lemma ChoiceRead(choice: ToolChoice, tools: seq<ToolDefinition>)
    requires CanonicalChoice(choice, tools)
    ensures DecodeToolChoice(Unless(Bridge.EncodeChoice(choice))) == Ok(choice)
  {
    if choice.mode != "" {
      TrimmedValue(choice.mode);
    } else if choice.name != "" {
      TrimmedValue("function");
      TrimmedValue(choice.name);
    }
  }

  lemma FormatFrom(fields: Fields, format: ResponseFormat)
    requires CanonicalFormat(format) && format.kind != "" && StringValue(Get(fields, "type")) == format.kind
    requires Get(fields, "json_schema") == if format.kind == "json_schema" then Object(format.schema) else Null
    ensures DecodeResponseFormat(Object(fields)) == Ok(format)
  {}

  lemma FormatRead(format: ResponseFormat)
    requires CanonicalFormat(format)
    ensures DecodeResponseFormat(Unless(Bridge.EncodeFormat(format))) == Ok(format)
  {
    if format.kind != "" {
      TrimmedValue(format.kind);
      var schema := if format.kind == "json_schema" then Some(Object(Clone(format.schema))) else None;
      PutReads(map["type" := String(format.kind)], "json_schema", schema, "type");
      FormatFrom(Bridge.Put(map["type" := String(format.kind)], "json_schema", schema), format);
    }
  }

  lemma TrimmedKeysStay(metadata: Fields)
    requires forall key | key in metadata :: Text.Trimmed(key)
    ensures MetadataAgrees(metadata) && TrimKeys(metadata) == metadata
  {
    assert forall key | key in metadata :: Text.Trim(key) == key;
    assert MetadataAgrees(metadata);
    assert TrimKeys(metadata).Keys == metadata.Keys;
  }

  lemma MetadataRead(metadata: Fields)
    requires CanonicalMetadata(metadata)
    ensures DecodeMetadata(Object(metadata)) == Ok(metadata)
  {
    TrimmedKeysStay(metadata);
  }

  lemma SevenFields(model: Value, messages: Value, tools: Option<Value>, choice: Option<Value>, format: Option<Value>,
                    metadata: Option<Value>, stream: Option<Value>)
    ensures var named := map["model" := model, "messages" := messages];
            var formed := Bridge.Put(Bridge.Put(Bridge.Put(named, "tools", tools), "tool_choice", choice), "response_format", format);
            var body := Bridge.Put(Bridge.Put(formed, "metadata", metadata), "stream", stream);
            && "attachments" !in body && Get(body, "model") == model && Get(body, "messages") == messages
            && Get(body, "tools") == Unless(tools) && Get(body, "tool_choice") == Unless(choice)
            && Get(body, "response_format") == Unless(format) && Get(body, "metadata") == Unless(metadata)
            && Get(body, "stream") == Unless(stream)
  {}

  lemma BodyFields(c: Conversation)
    ensures var body := Bridge.EncodeBody(c);
            && "attachments" !in body && Get(body, "model") == String(c.model)
            && Get(body, "messages") == Array(Bridge.EncodeMessages(c.messages))
            && Get(body, "tools") == (if c.tools == [] then Null else Array(Bridge.EncodeTools(c.tools)))
            && Get(body, "tool_choice") == Unless(Bridge.EncodeChoice(c.choice))
            && Get(body, "response_format") == Unless(Bridge.EncodeFormat(c.format))
            && Get(body, "metadata") == (if c.metadata == map[] then Null else Object(c.metadata))
            && Get(body, "stream") == (if c.stream then Bool(true) else Null)
  {
    SevenFields(String(c.model), Array(Bridge.EncodeMessages(c.messages)),
                if c.tools == [] then None else Some(Array(Bridge.EncodeTools(c.tools))), Bridge.EncodeChoice(c.choice),
                Bridge.EncodeFormat(c.format), if c.metadata == map[] then None else Some(Object(Clone(c.metadata))),
                if c.stream then Some(Bool(true)) else None);
  }

  lemma RootFrom(root: Fields, c: Conversation)
    requires InForm(c) && "attachments" !in root && Get(root, "model") == String(c.model)
    requires Get(root, "messages").Array? && Get(root, "messages").items != []
    requires DecodeMessages(Get(root, "messages").items, {}) == Ok(c.messages)
    requires DecodeTools(Get(root, "tools")) == Ok(c.tools)
    requires DecodeToolChoice(Get(root, "tool_choice")) == Ok(c.choice)
    requires DecodeResponseFormat(Get(root, "response_format")) == Ok(c.format)
    requires DecodeMetadata(Get(root, "metadata")) == Ok(c.metadata)
    requires Get(root, "stream") == if c.stream then Bool(true) else Null
    ensures DecodeRoot(root) == Ok(c)
  {
    TrimmedValue(c.model);
  }

  lemma ToolsRead(tools: seq<ToolDefinition>)
    requires CanonicalTools(tools)
    ensures DecodeTools(if tools == [] then Null else Array(Bridge.EncodeTools(tools))) == Ok(tools)
  {
    ToolListRead(tools, {});
  }

  /** Decoding the bridge form of a canonical conversation gives it back. */
  lemma BodyDecodes(c: Conversation)
    requires InForm(c)
    ensures DecodeRoot(Bridge.EncodeBody(c)) == Ok(c)
  {
    BodyFields(c);
    MessagesRead(c.messages, {});
    ToolsRead(c.tools);
    ChoiceRead(c.choice, c.tools);
    FormatRead(c.format);
    MetadataRead(c.metadata);
    RootFrom(Bridge.EncodeBody(c), c);
  }

  /**
   * The request round trip: for every conversation that the decoder produces, and for no other, the bridge
   * encoder succeeds and decoding the text of its body gives the same conversation again.
   */
  lemma RequestRoundTrip(c: Conversation)
    ensures InForm(c) <==>
              && Bridge.EncodeBridgeRequest(c).Ok?
              && DecodeRequest(Print(Object(Bridge.EncodeBridgeRequest(c).value))) == Ok(c)
    ensures InForm(c) <==> exists payload :: DecodeRequest(payload) == Ok(c)
  {
    if InForm(c) {
      var body := Bridge.EncodeBody(c);
      CanonicalEncodes(c);
      BodyDecodes(c);
      RoundTrip(Object(body));
      assert DecodeRequest(Print(Object(body))) == Ok(c);
    }
    forall payload | DecodeRequest(payload) == Ok(c) ensures InForm(c) { DecodedIsCanonical(payload); }
  }
}
