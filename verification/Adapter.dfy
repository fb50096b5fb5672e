/**
 * The adapter's loops, statement by statement. Each method is proved to compute the function of the same name
 * that specifies it, so what is proved of those functions holds of it.
 */
module Adapter {
  import opened Wrappers
  import opened Json
  import opened Canonical
  import Bridge
  import JsonIntegers
  import OpenAI
  import Optimizer
  import Stream
  import Text

  /** What is collected so far, followed by what the rest gives. */
  function Then<T>(done: seq<T>, rest: Result<seq<T>>): Result<seq<T>> {
    match rest
    case Ok(more) => Ok(done + more)
    case Err(code) => Err(code)
  }

  lemma ThenNothing<T>(done: seq<T>)
    ensures Then(done, Ok([])) == Ok(done)
  {
    assert done + [] == done;
  }

  lemma NothingThen<T>(rest: Result<seq<T>>)
    ensures Then([], rest) == rest
  {
    if rest.Ok? { assert [] + rest.value == rest.value; }
  }

  lemma ThenMore<T>(done: seq<T>, x: T, rest: Result<seq<T>>)
    ensures Then(done, Then([x], rest)) == Then(done + [x], rest)
  {
    if rest.Ok? { assert done + ([x] + rest.value) == (done + [x]) + rest.value; }
  }

  // ---------- Requests ----------

  method DecodeMessageContent(raw: Value) returns (r: Result<string>)
    ensures r == OpenAI.DecodeContent(raw)
  {
    if raw.Null? { return Ok(""); }
    if raw.String? { return Ok(raw.text); }
    if !raw.Array? { return Err("AGENT_MESSAGE_CONTENT_UNSUPPORTED"); }
    r := DecodeParts(raw.items);
  }

  method DecodeParts(parts: seq<Value>) returns (r: Result<string>)
    ensures r == OpenAI.DecodeParts(parts)
  {
    var text := "";
    NothingThen(OpenAI.DecodeParts(parts));
    assert parts[0..] == parts;
    for i := 0 to |parts|
      invariant OpenAI.DecodeParts(parts) == Then(text, OpenAI.DecodeParts(parts[i..]))
    {
      var part := parts[i];
      if !part.Object? { return Err("AGENT_MESSAGE_CONTENT_UNSUPPORTED"); }
      if StringValue(Get(part.fields, "type")) != "text" { return Err("AGENT_MEDIA_INPUT_UNSUPPORTED"); }
      if !Get(part.fields, "text").String? { return Err("AGENT_MESSAGE_CONTENT_UNSUPPORTED"); }
      ThenPart(text, Get(part.fields, "text").text, OpenAI.DecodeParts(parts[i + 1..]));
      text := text + Get(part.fields, "text").text;
    }
    assert parts[|parts|..] == [];
    ThenNothing(text);
    return Ok(text);
  }

  lemma ThenPart(text: string, part: string, rest: Result<string>)
    ensures Then(text, Then(part, rest)) == Then(text + part, rest)
  {
    if rest.Ok? { assert text + (part + rest.value) == (text + part) + rest.value; }
  }

  method DecodeTools(raw: Value) returns (r: Result<seq<ToolDefinition>>)
    ensures r == OpenAI.DecodeTools(raw)
  {
    if raw.Null? { return Ok([]); }
    if !raw.Array? { return Err("AGENT_TOOLS_INVALID"); }
    var values := raw.items;
    var seen: set<string>, tools := {}, [];
    NothingThen(OpenAI.DecodeToolList(values, {}));
    assert values[0..] == values;
    for i := 0 to |values|
      invariant OpenAI.DecodeToolList(values, {}) == Then(tools, OpenAI.DecodeToolList(values[i..], seen))
    {
      var tool := OpenAI.DecodeTool(values[i], seen);
      if tool.Err? { return Err(tool.code); }
      seen := seen + {tool.value.name};
      ThenMore(tools, tool.value, OpenAI.DecodeToolList(values[i + 1..], seen));
      tools := tools + [tool.value];
    }
    assert values[|values|..] == [];
    ThenNothing(tools);
    return Ok(tools);
  }

  method DecodeToolCalls(raw: Value) returns (r: Result<seq<ToolCall>>)
    ensures r == OpenAI.DecodeToolCalls(raw)
  {
    if !raw.Array? || |raw.items| == 0 { return Err("AGENT_TOOL_CALLS_INVALID"); }
    var values := raw.items;
    var seen: set<string>, calls := {}, [];
    NothingThen(OpenAI.DecodeCallList(values, {}));
    assert values[0..] == values;
    for i := 0 to |values|
      invariant OpenAI.DecodeCallList(values, {}) == Then(calls, OpenAI.DecodeCallList(values[i..], seen))
    {
      var call := OpenAI.DecodeToolCall(values[i], seen);
      if call.Err? { return Err(call.code); }
      seen := seen + {call.value.id};
      ThenMore(calls, call.value, OpenAI.DecodeCallList(values[i + 1..], seen));
      calls := calls + [call.value];
    }
    assert values[|values|..] == [];
    ThenNothing(calls);
    return Ok(calls);
  }

  method DecodeMessage(raw: Value, known: set<string>) returns (r: Result<Message>)
    ensures r == OpenAI.DecodeMessage(raw, known)
  {
    if !raw.Object? { return Err("AGENT_MESSAGES_INVALID"); }
    var value := raw.fields;
    var role, name := StringValue(Get(value, "role")), StringValue(Get(value, "name"));
    if !OpenAI.IsRole(role) { return Err("AGENT_MESSAGE_ROLE_INVALID"); }
    var content, calls := "", [];
    if role != ROLE_TOOL {
      var text := DecodeMessageContent(Get(value, "content"));
      if text.Err? { return Err(text.code); }
      content := text.value;
    }
    if !Get(value, "tool_calls").Null? {
      if role != ROLE_ASSISTANT { return Err("AGENT_TOOL_CALL_ROLE_INVALID"); }
      var decoded := DecodeToolCalls(Get(value, "tool_calls"));
      if decoded.Err? { return Err(decoded.code); }
      calls := decoded.value;
    }
    if role == ROLE_ASSISTANT && content == "" && |calls| == 0 { return Err("AGENT_MESSAGE_CONTENT_REQUIRED"); }
    if role == ROLE_TOOL {
      var result := DecodeToolResult(value, name, known);
      if result.Err? { return Err(result.code); }
      return Ok(Message(role, "", name, calls, Some(result.value)));
    }
    return Ok(Message(role, content, name, calls, None));
  }

  method DecodeToolResult(value: Fields, name: string, known: set<string>) returns (r: Result<ToolResult>)
    ensures r == OpenAI.DecodeToolResult(value, name, known)
  {
    var callId := StringValue(Get(value, "tool_call_id"));
    if callId == "" { return Err("AGENT_TOOL_RESULT_CALL_ID_REQUIRED"); }
    if callId !in known { return Err("AGENT_TOOL_RESULT_CALL_NOT_FOUND"); }
    if Get(value, "content").Array? {
      var text := DecodeMessageContent(Get(value, "content"));
      if text.Err? { return Err(text.code); }
      return Ok(ToolResult(callId, name, text.value));
    }
    return Ok(ToolResult(callId, name, CanonicalContent(Get(value, "content"))));
  }

  method AddCalls(known: set<string>, calls: seq<ToolCall>) returns (r: Result<set<string>>)
    ensures r == OpenAI.AddCalls(known, calls)
  {
    var ids := known;
    assert calls[0..] == calls;
    for i := 0 to |calls|
      invariant OpenAI.AddCalls(known, calls) == OpenAI.AddCalls(ids, calls[i..])
    {
      assert calls[i..][0] == calls[i] && calls[i..][1..] == calls[i + 1..];
      if calls[i].id in ids { return Err("AGENT_TOOL_CALL_ID_DUPLICATE"); }
      ids := ids + {calls[i].id};
    }
    assert calls[|calls|..] == [];
    return Ok(ids);
  }

  method DecodeMessages(raws: seq<Value>) returns (r: Result<seq<Message>>)
    ensures r == OpenAI.DecodeMessages(raws, {})
  {
    var known: set<string>, messages := {}, [];
    NothingThen(OpenAI.DecodeMessages(raws, {}));
    assert raws[0..] == raws;
    for i := 0 to |raws|
      invariant OpenAI.DecodeMessages(raws, {}) == Then(messages, OpenAI.DecodeMessages(raws[i..], known))
    {
      var message := DecodeMessage(raws[i], known);
      if message.Err? { return Err(message.code); }
      var added := AddCalls(known, message.value.toolCalls);
      if added.Err? { return Err(added.code); }
      known := added.value;
      ThenMore(messages, message.value, OpenAI.DecodeMessages(raws[i + 1..], known));
      messages := messages + [message.value];
    }
    assert raws[|raws|..] == [];
    ThenNothing(messages);
    return Ok(messages);
  }

  /** Which of the two errors is reported first depends on the order in which the map is visited. */
  method DecodeMetadata(raw: Value) returns (r: Result<Fields>)
    ensures r.Ok? <==> OpenAI.DecodeMetadata(raw).Ok?
    ensures r.Ok? ==> r == OpenAI.DecodeMetadata(raw)
    ensures r.Err? ==> r.code == "AGENT_METADATA_INVALID" || r.code == "AGENT_METADATA_CONFLICT"
    ensures r == Err("AGENT_METADATA_CONFLICT") ==> raw.Object? && !OpenAI.MetadataAgrees(raw.fields)
  {
    if raw.Null? { return Ok(map[]); }
    if !raw.Object? || |raw.fields| > 32 { return Err("AGENT_METADATA_INVALID"); }
    r := VisitMetadata(raw.fields);
  }

  ghost predicate AllEntries(metadata: Fields, keys: set<string>) {
    forall key | key in keys && key in metadata :: OpenAI.IsMetadataEntry(key, metadata[key])
  }

  lemma EntryMore(metadata: Fields, keys: set<string>, key: string)
    requires AllEntries(metadata, keys) && key in metadata && OpenAI.IsMetadataEntry(key, metadata[key])
    ensures AllEntries(metadata, keys + {key})
  {}

  /** The loop of DecodeMetadata. */
  method VisitMetadata(metadata: Fields) returns (r: Result<Fields>)
    ensures r.Ok? ==> AllEntries(metadata, metadata.Keys) && OpenAI.MetadataAgrees(metadata) && r.value == OpenAI.TrimKeys(metadata)
    ensures r.Err? ==> (r.code == "AGENT_METADATA_INVALID" && !AllEntries(metadata, metadata.Keys))
                       || (r.code == "AGENT_METADATA_CONFLICT" && !OpenAI.MetadataAgrees(metadata))
  {
    var rest, result: Fields := metadata.Keys, map[];
    ghost var seen: set<string> := {};
    NothingVisited(metadata);
    while rest != {}
      invariant Visited(metadata, seen, rest, result) && AllEntries(metadata, seen)
      decreases |rest|
    {
      var key :| key in rest;
      VisitedKey(metadata, seen, rest, result, key);
      var value, trimmed := metadata[key], Text.Trim(key);
      if trimmed == "" || Text.Utf8Len(trimmed) > 64 || (value.String? && Text.Utf8Len(value.text) > 512)
         || value.Array? || value.Object? {
        assert !OpenAI.IsMetadataEntry(key, metadata[key]);
        return Err("AGENT_METADATA_INVALID");
      }
      if trimmed in result && Print(result[trimmed]) != Print(value) {
        Disagrees(metadata, seen, rest, result, key);
        return Err("AGENT_METADATA_CONFLICT");
      }
      VisitMore(metadata, seen, rest, result, key);
      EntryMore(metadata, seen, key);
      rest, seen := rest - {key}, seen + {key};
      result := result[trimmed := value];
    }
    VisitedAll(metadata, seen, result);
    return Ok(result);
  }

  /** The members visited so far, in any order, under their trimmed keys. */
  ghost predicate Gathered(metadata: Fields, seen: set<string>, result: Fields)
    requires seen <= metadata.Keys
  {
    && (forall key | key in seen :: Text.Trim(key) in result && result[Text.Trim(key)] == metadata[key])
    && (forall name | name in result :: exists key :: key in seen && Text.Trim(key) == name)
  }

  /** How far a visit of the metadata has come: what was seen, what is left and what was gathered. */
  ghost const Visited: (Fields, set<string>, set<string>, Fields) -> bool :=
    (metadata: Fields, seen: set<string>, rest: set<string>, result: Fields) =>
      seen + rest == metadata.Keys && seen !! rest && Gathered(metadata, seen, result)

  lemma VisitedKey(metadata: Fields, seen: set<string>, rest: set<string>, result: Fields, key: string)
    requires Visited(metadata, seen, rest, result) && key in rest
    ensures key in metadata && key !in seen && seen <= metadata.Keys
  {}

  lemma GatherMore(metadata: Fields, seen: set<string>, result: Fields, key: string)
    requires seen <= metadata.Keys && Gathered(metadata, seen, result) && key in metadata
    requires Text.Trim(key) in result ==> Print(result[Text.Trim(key)]) == Print(metadata[key])
    ensures Gathered(metadata, seen + {key}, result[Text.Trim(key) := metadata[key]])
  {
    if Text.Trim(key) in result { PrintInjective(result[Text.Trim(key)], metadata[key]); }
  }

  lemma NothingVisited(metadata: Fields)
    ensures Visited(metadata, {}, metadata.Keys, map[])
  {
    var none: set<string> := {};
    assert none + metadata.Keys == metadata.Keys && Gathered(metadata, none, map[]);
  }

  lemma VisitMore(metadata: Fields, seen: set<string>, rest: set<string>, result: Fields, key: string)
    requires Visited(metadata, seen, rest, result) && key in rest && key in metadata
    requires Text.Trim(key) in result ==> Print(result[Text.Trim(key)]) == Print(metadata[key])
    ensures Visited(metadata, seen + {key}, rest - {key}, result[Text.Trim(key) := metadata[key]])
  {
    GatherMore(metadata, seen, result, key);
  }

  lemma Disagrees(metadata: Fields, seen: set<string>, rest: set<string>, result: Fields, key: string)
    requires Visited(metadata, seen, rest, result) && key in metadata
    requires Text.Trim(key) in result && Print(result[Text.Trim(key)]) != Print(metadata[key])
    ensures !OpenAI.MetadataAgrees(metadata)
  {
    var other :| other in seen && Text.Trim(other) == Text.Trim(key);
    assert OpenAI.Conflicts(metadata, other, key);
  }

  lemma VisitedAll(metadata: Fields, seen: set<string>, result: Fields)
    requires Visited(metadata, seen, {}, result)
    ensures seen == metadata.Keys && OpenAI.MetadataAgrees(metadata) && OpenAI.TrimKeys(metadata) == result
  {
    assert seen == metadata.Keys;
  }

  /** The metadata error that is reported can be either, where both apply. */
  method DecodeRequest(payload: string) returns (r: Result<Conversation>)
    ensures r.Ok? <==> OpenAI.DecodeRequest(payload).Ok?
    ensures r.Ok? ==> r == OpenAI.DecodeRequest(payload)
    ensures r.Err? && r != OpenAI.DecodeRequest(payload) ==>
              r.code in {"AGENT_METADATA_INVALID", "AGENT_METADATA_CONFLICT"}
              && OpenAI.DecodeRequest(payload).code in {"AGENT_METADATA_INVALID", "AGENT_METADATA_CONFLICT"}
  {
    var parsed := ParseObject(payload);
    if parsed.None? { return Err("AGENT_REQUEST_JSON_INVALID"); }
    var root := parsed.value;
    if "attachments" in root { return Err("AGENT_FILE_ATTACHMENTS_UNSUPPORTED"); }
    if !Get(root, "model").Null? && !Get(root, "model").String? { return Err("AGENT_MODEL_INVALID"); }
    if !Get(root, "stream").Null? && !Get(root, "stream").Bool? { return Err("AGENT_STREAM_INVALID"); }
    if Get(root, "messages").Null? { return Err("AGENT_MESSAGES_REQUIRED"); }
    if !Get(root, "messages").Array? || |Get(root, "messages").items| == 0 { return Err("AGENT_MESSAGES_INVALID"); }
    var model := StringValue(Get(root, "model"));
    if model == "" { model := DEFAULT_MODEL; }
    var messages := DecodeMessages(Get(root, "messages").items);
    if messages.Err? { return Err(messages.code); }
    var tools := DecodeTools(Get(root, "tools"));
    if tools.Err? { return Err(tools.code); }
    var choice := OpenAI.DecodeToolChoice(Get(root, "tool_choice"));
    if choice.Err? { return Err(choice.code); }
    if choice.value.name != "" && !OpenAI.HasTool(tools.value, choice.value.name) {
      return Err("AGENT_TOOL_CHOICE_UNDECLARED");
    }
    var format := OpenAI.DecodeResponseFormat(Get(root, "response_format"));
    if format.Err? { return Err(format.code); }
    var metadata := DecodeMetadata(Get(root, "metadata"));
    if metadata.Err? { return Err(metadata.code); }
    return Ok(Conversation(model, messages.value, tools.value, choice.value, format.value, metadata.value,
                           BoolValue(Get(root, "stream"))));
  }

  // ---------- The bridge ----------

  method EncodeToolCalls(calls: seq<ToolCall>) returns (encoded: seq<Value>)
    ensures encoded == OpenAI.EncodeToolCalls(calls)
  {
    encoded := [];
    for i := 0 to |calls|
      invariant |encoded| == i && forall k | 0 <= k < i :: encoded[k] == OpenAI.EncodeToolCall(calls[k])
    {
      encoded := encoded + [OpenAI.EncodeToolCall(calls[i])];
    }
  }

  method ValidateCalls(role: Role, calls: seq<ToolCall>, known: set<string>) returns (r: Result<set<string>>)
    ensures r == Bridge.ValidateCalls(role, calls, known)
  {
    var ids := known;
    assert calls[0..] == calls;
    for i := 0 to |calls|
      invariant Bridge.ValidateCalls(role, calls, known) == Bridge.ValidateCalls(role, calls[i..], ids)
    {
      assert calls[i..][0] == calls[i] && calls[i..][1..] == calls[i + 1..];
      if role != ROLE_ASSISTANT || Text.Trim(calls[i].id) == "" || Text.Trim(calls[i].name) == "" {
        return Err(Bridge.CONVERSION_FAILED);
      }
      if calls[i].id in ids { return Err("AGENT_TOOL_CALL_ID_DUPLICATE"); }
      ids := ids + {calls[i].id};
    }
    assert calls[|calls|..] == [];
    return Ok(ids);
  }

  method ValidateCanonicalConversation(c: Conversation) returns (error: Option<string>)
    ensures error == Bridge.ValidateConversation(c)
  {
    if |c.messages| == 0 { return Some(Bridge.CONVERSION_FAILED); }
    var ids: set<string> := {};
    assert c.messages[0..] == c.messages;
    for i := 0 to |c.messages|
      invariant Bridge.ValidateMessages(c.messages, {}) == Bridge.ValidateMessages(c.messages[i..], ids)
    {
      assert c.messages[i..][0] == c.messages[i] && c.messages[i..][1..] == c.messages[i + 1..];
      var message := c.messages[i];
      if !OpenAI.IsRole(message.role) { return Some(Bridge.CONVERSION_FAILED); }
      if message.role != ROLE_TOOL && message.toolResult.Some? { return Some(Bridge.CONVERSION_FAILED); }
      if message.role == ROLE_TOOL {
        if message.toolResult.None? || Text.Trim(message.toolResult.value.callId) == "" { return Some(Bridge.CONVERSION_FAILED); }
        if message.toolResult.value.callId !in ids { return Some("AGENT_TOOL_RESULT_CALL_NOT_FOUND"); }
      }
      var after := ValidateCalls(message.role, message.toolCalls, ids);
      if after.Err? { return Some(after.code); }
      ids := after.value;
    }
    assert c.messages[|c.messages|..] == [];
    var names: set<string> := {};
    assert c.tools[0..] == c.tools;
    for i := 0 to |c.tools|
      invariant Bridge.ValidateTools(c.tools, {}) == Bridge.ValidateTools(c.tools[i..], names)
    {
      assert c.tools[i..][0] == c.tools[i] && c.tools[i..][1..] == c.tools[i + 1..];
      if Text.Trim(c.tools[i].name) == "" { return Some(Bridge.CONVERSION_FAILED); }
      if c.tools[i].name in names { return Some("AGENT_TOOL_NAME_DUPLICATE"); }
      names := names + {c.tools[i].name};
    }
    assert c.tools[|c.tools|..] == [];
    return None;
  }

  method EncodeMessage(message: Message) returns (encoded: Fields)
    ensures encoded == Bridge.EncodeMessage(message)
  {
    if message.role == ROLE_TOOL {
      if message.toolResult.None? { return map["role" := String(message.role)]; }
      var result := message.toolResult.value;
      encoded := map["role" := String(message.role), "tool_call_id" := String(result.callId), "content" := String(result.content)];
      if result.name != "" { encoded := encoded["name" := String(result.name)]; }
    } else {
      encoded := map["role" := String(message.role), "content" := String(message.content)];
      if message.name != "" { encoded := encoded["name" := String(message.name)]; }
      if |message.toolCalls| > 0 {
        var calls := EncodeToolCalls(message.toolCalls);
        encoded := encoded["tool_calls" := Array(calls)];
      }
    }
  }

  method EncodeTools(tools: seq<ToolDefinition>) returns (encoded: seq<Value>)
    ensures encoded == Bridge.EncodeTools(tools)
  {
    encoded := [];
    for i := 0 to |tools|
      invariant encoded == Bridge.EncodeTools(tools[..i])
    {
      var tool := EncodeTool(tools[i]);
      ToolEncoded(tools, i);
      encoded := encoded + [tool];
    }
    assert tools[..|tools|] == tools;
  }

  lemma ToolEncoded(tools: seq<ToolDefinition>, i: nat)
    requires i < |tools|
    ensures Bridge.EncodeTools(tools[..i + 1]) == Bridge.EncodeTools(tools[..i]) + [Bridge.EncodeTool(tools[i])]
  {}

  method EncodeTool(tool: ToolDefinition) returns (encoded: Value)
    ensures encoded == Bridge.EncodeTool(tool)
  {
    var function_ := map["name" := String(tool.name), "parameters" := Object(Clone(tool.parameters))];
    if tool.description != "" { function_ := function_["description" := String(tool.description)]; }
    return Object(map["type" := String("function"), "function" := Object(function_)]);
  }

  method EncodeMessages(messages: seq<Message>) returns (encoded: seq<Value>)
    ensures encoded == Bridge.EncodeMessages(messages)
  {
    encoded := [];
    for i := 0 to |messages|
      invariant |encoded| == i && forall k | 0 <= k < i :: encoded[k] == Object(Bridge.EncodeMessage(messages[k]))
    {
      var message := EncodeMessage(messages[i]);
      encoded := encoded + [Object(message)];
    }
  }

  method EncodeBridgeRequest(c: Conversation) returns (r: Result<Fields>)
    ensures r == Bridge.EncodeBridgeRequest(c)
  {
    var error := ValidateCanonicalConversation(c);
    if error.Some? { return Err(error.value); }
    var messages := EncodeMessages(c.messages);
    var result := map["model" := String(c.model), "messages" := Array(messages)];
    if |c.tools| > 0 {
      var tools := EncodeTools(c.tools);
      result := result["tools" := Array(tools)];
    }
    var choice, format := Bridge.EncodeChoice(c.choice), Bridge.EncodeFormat(c.format);
    if choice.Some? { result := result["tool_choice" := choice.value]; }
    if format.Some? { result := result["response_format" := format.value]; }
    if c.metadata != map[] { result := result["metadata" := Object(Clone(c.metadata))]; }
    if c.stream { result := result["stream" := Bool(true)]; }
    return Ok(result);
  }

  method ValidateCompletionTools(calls: seq<ToolCall>, tools: seq<ToolDefinition>) returns (error: Option<string>)
    ensures error == Bridge.ValidateCompletionTools(calls, tools)
  {
    if |calls| == 0 { return None; }
    if |tools| == 0 { return Some("AGENT_TOOL_CALL_UNMAPPABLE"); }
    var known: set<string> := {};
    for i := 0 to |tools|
      invariant forall name :: name in known <==> OpenAI.HasTool(tools[..i], name)
    {
      assert tools[..i + 1] == tools[..i] + [tools[i]];
      forall name ensures OpenAI.HasTool(tools[..i + 1], name) <==> OpenAI.HasTool(tools[..i], name) || tools[i].name == name {
        assert forall tool :: tool in tools[..i + 1] <==> tool in tools[..i] || tool == tools[i];
      }
      known := known + {tools[i].name};
    }
    assert tools[..|tools|] == tools;
    for i := 0 to |calls|
      invariant forall k | 0 <= k < i :: OpenAI.HasTool(tools, calls[k].name)
    {
      if calls[i].name !in known { return Some("AGENT_TOOL_CALL_UNDECLARED"); }
    }
    return None;
  }

  // ---------- Streams ----------

  method BufferedCompletionChunks(c: Completion) returns (chunks: seq<StreamChunk>)
    ensures chunks == Stream.BufferedChunks(c)
  {
    var deltas := [];
    for i := 0 to |c.toolCalls|
      invariant deltas == Stream.CallDeltas(c.toolCalls)[..i]
    {
      var call := c.toolCalls[i];
      deltas := deltas + [ToolCallDelta(i, call.id, call.name, Print(Object(call.arguments)))];
    }
    assert deltas == Stream.CallDeltas(c.toolCalls);
    var first := StreamChunk(ROLE_ASSISTANT, c.content, deltas, "", false, None);
    return [first, StreamChunk("", "", [], c.finishReason, false, None), Stream.DONE_CHUNK];
  }

  method EncodeDeltas(ds: seq<ToolCallDelta>) returns (encoded: seq<Value>)
    ensures encoded == Stream.EncodeDeltas(ds)
  {
    encoded := [];
    for i := 0 to |ds|
      invariant encoded == Stream.EncodeDeltas(ds)[..i]
    {
      encoded := encoded + [Stream.EncodeDelta(ds[i])];
    }
  }

  lemma {:induction false} DeltaErrors(raws: seq<Value>, i: nat)
    requires i <= |raws| && Stream.DecodeDeltas(raws[..i]).Err?
    ensures Stream.DecodeDeltas(raws) == Stream.DecodeDeltas(raws[..i])
    decreases |raws| - i
  {
    if i == |raws| {
      assert raws[..i] == raws;
    } else {
      assert raws[..i + 1][..i] == raws[..i];
      DeltaErrors(raws, i + 1);
    }
  }

  method DecodeDeltas(raws: seq<Value>) returns (r: Result<seq<ToolCallDelta>>)
    ensures r == Stream.DecodeDeltas(raws)
  {
    var deltas := [];
    for i := 0 to |raws|
      invariant Stream.DecodeDeltas(raws[..i]) == Ok(deltas)
    {
      var delta := Stream.DecodeDelta(raws[i]);
      assert raws[..i + 1][..i] == raws[..i];
      if delta.Err? {
        DeltaErrors(raws, i + 1);
        return Err(delta.code);
      }
      deltas := deltas + [delta.value];
    }
    assert raws[..|raws|] == raws;
    return Ok(deltas);
  }

  method DecodeStreamChunk(payload: string) returns (r: Result<StreamChunk>)
    ensures r == Stream.DecodeChunk(payload)
  {
    if Text.Trim(payload) == Stream.DONE_TEXT { return Ok(Stream.DONE_CHUNK); }
    var parsed := ParseObject(payload);
    if parsed.None? { return Err("AGENT_STREAM_CHUNK_INVALID"); }
    var choices := Get(parsed.value, "choices");
    if !choices.Array? || |choices.items| == 0 || !choices.items[0].Object? { return Err("AGENT_STREAM_CHUNK_INVALID"); }
    var choice := choices.items[0].fields;
    var delta := Stream.FieldsOf(Get(choice, "delta"));
    var deltas := [];
    if "tool_calls" in delta {
      if !delta["tool_calls"].Array? { return Err("AGENT_STREAM_TOOL_CALL_INVALID"); }
      var decoded := DecodeDeltas(delta["tool_calls"].items);
      if decoded.Err? { return Err(decoded.code); }
      deltas := decoded.value;
    }
    return Ok(StreamChunk(StringValue(Get(delta, "role")), RawString(Get(delta, "content")), deltas,
                          StringValue(Get(choice, "finish_reason")), false, None));
  }

  lemma {:induction false} AbsorbErrors(a: Stream.Assembly, ds: seq<ToolCallDelta>, i: nat)
    requires i <= |ds| && Stream.AbsorbDeltas(a, ds[..i]).Err?
    ensures Stream.AbsorbDeltas(a, ds) == Stream.AbsorbDeltas(a, ds[..i])
    decreases |ds| - i
  {
    if i == |ds| {
      assert ds[..i] == ds;
    } else {
      assert ds[..i + 1][..i] == ds[..i];
      AbsorbErrors(a, ds, i + 1);
    }
  }

  lemma {:induction false} AssembleErrors(chunks: seq<StreamChunk>, i: nat)
    requires i <= |chunks| && Stream.AbsorbAll(chunks[..i]).Err?
    ensures Stream.AbsorbAll(chunks) == Stream.AbsorbAll(chunks[..i])
    decreases |chunks| - i
  {
    if i == |chunks| {
      assert chunks[..i] == chunks;
    } else {
      assert chunks[..i + 1][..i] == chunks[..i];
      AssembleErrors(chunks, i + 1);
    }
  }

  method AbsorbDeltas(known: map<int, Stream.Pending>, ds: seq<ToolCallDelta>, ghost content: string, ghost finish: string)
    returns (r: Result<map<int, Stream.Pending>>)
    ensures Stream.AbsorbDeltas(Stream.Assembly(content, known, finish), ds)
            == if r.Ok? then Ok(Stream.Assembly(content, r.value, finish)) else Err(r.code)
  {
    var tools := known;
    ghost var a := Stream.Assembly(content, known, finish);
    for i := 0 to |ds|
      invariant Stream.AbsorbDeltas(a, ds[..i]) == Ok(Stream.Assembly(content, tools, finish))
    {
      var d := ds[i];
      assert ds[..i + 1][..i] == ds[..i];
      if d.index < 0 {
        AbsorbErrors(a, ds, i + 1);
        return Err("AGENT_STREAM_TOOL_CALL_INVALID");
      }
      var pending := if d.index in tools then tools[d.index] else Stream.Pending("", "", "");
      if d.id != "" {
        if pending.id != "" && pending.id != d.id {
          AbsorbErrors(a, ds, i + 1);
          return Err("AGENT_STREAM_TOOL_CALL_CONFLICT");
        }
        pending := pending.(id := d.id);
      }
      if d.name != "" {
        if pending.name != "" && pending.name != d.name {
          AbsorbErrors(a, ds, i + 1);
          return Err("AGENT_STREAM_TOOL_CALL_CONFLICT");
        }
        pending := pending.(name := d.name);
      }
      tools := tools[d.index := pending.(arguments := pending.arguments + d.arguments)];
    }
    assert ds[..|ds|] == ds;
    return Ok(tools);
  }

  method RenderCalls(tools: map<int, Stream.Pending>, indexes: seq<int>) returns (r: Result<seq<Value>>)
    requires forall k | 0 <= k < |indexes| :: indexes[k] in tools
    ensures r.Err? <==> exists k :: 0 <= k < |indexes| && !Stream.Complete(tools[indexes[k]])
    ensures r.Err? ==> r.code == "AGENT_STREAM_TOOL_CALL_INCOMPLETE"
    ensures r.Ok? ==> r.value == Stream.RenderCalls(tools, indexes)
  {
    var calls := [];
    for k := 0 to |indexes|
      invariant |calls| == k && forall j | 0 <= j < k :: calls[j] == Stream.RenderCall(tools[indexes[j]])
      invariant forall j | 0 <= j < k :: Stream.Complete(tools[indexes[j]])
    {
      var pending := tools[indexes[k]];
      if Text.Trim(pending.id) == "" || Text.Trim(pending.name) == "" { return Err("AGENT_STREAM_TOOL_CALL_INCOMPLETE"); }
      calls := calls + [Stream.RenderCall(pending)];
    }
    return Ok(calls);
  }

  /** The first loop. */
  method AbsorbChunks(chunks: seq<StreamChunk>) returns (r: Result<Stream.Assembly>)
    ensures r == Stream.AbsorbAll(chunks)
  {
    var content, finish, tools: map<int, Stream.Pending> := "", "", map[];
    for i := 0 to |chunks|
      invariant Stream.AbsorbAll(chunks[..i]) == Ok(Stream.Assembly(content, tools, finish))
    {
      var chunk := chunks[i];
      ghost var a := Stream.Assembly(content, tools, finish);
      assert chunks[..i + 1][..i] == chunks[..i];
      assert Stream.AbsorbAll(chunks[..i + 1]) == Stream.AbsorbChunk(a, chunk);
      if Stream.AbsorbChunk(a, chunk).Err? { AssembleErrors(chunks, i + 1); }
      if chunk.error.Some? { return Err(chunk.error.value); }
      content := content + chunk.content;
      if chunk.finishReason != "" {
        if finish != "" && finish != chunk.finishReason { return Err("AGENT_STREAM_FINISH_REASON_CONFLICT"); }
        finish := chunk.finishReason;
      }
      var absorbed := AbsorbDeltas(tools, chunk.deltas, content, finish);
      if absorbed.Err? { return Err(absorbed.code); }
      tools := absorbed.value;
    }
    assert chunks[..|chunks|] == chunks;
    return Ok(Stream.Assembly(content, tools, finish));
  }

  /** The second loop, over the indexes in order. */
  method RenderAssembly(a: Stream.Assembly) returns (r: Result<Fields>)
    ensures r.Err? <==> exists i :: i in a.tools && !Stream.Complete(a.tools[i])
    ensures r == if r.Err? then Err("AGENT_STREAM_TOOL_CALL_INCOMPLETE") else Ok(Stream.Rendered(a))
  {
    var response := map["content" := String(a.content)];
    if a.tools != map[] {
      var calls := RenderCalls(a.tools, Stream.SortedIndexes(a.tools.Keys));
      if calls.Err? { return Err(calls.code); }
      response := response["tool_calls" := Array(calls.value)];
    }
    if a.finish != "" { response := response["finish_reason" := String(a.finish)]; }
    return Ok(response);
  }

  method AssembleStreamCompletion(chunks: seq<StreamChunk>) returns (r: Result<Completion>)
    ensures r == Stream.Assemble(chunks)
  {
    var absorbed := AbsorbChunks(chunks);
    if absorbed.Err? { return Err(absorbed.code); }
    var response := RenderAssembly(absorbed.value);
    if response.Err? { return Err(response.code); }
    return Bridge.DecodeBridgeCompletion(response.value, None);
  }

  method EncodeStreamChunk(chunk: StreamChunk, metadata: Stream.Metadata) returns (r: Result<Option<Fields>>)
    ensures r == Stream.EncodeChunk(chunk, metadata)
  {
    if chunk.done { return Ok(None); }
    if chunk.error.Some? { return Err(chunk.error.value); }
    var delta: Fields := map[];
    if chunk.role != "" { delta := delta["role" := String(chunk.role)]; }
    if chunk.content != "" { delta := delta["content" := String(chunk.content)]; }
    if |chunk.deltas| > 0 {
      var calls := EncodeDeltas(chunk.deltas);
      delta := delta["tool_calls" := Array(calls)];
    }
    assert delta == Stream.DeltaFields(chunk);
    var finishReason := Null;
    if chunk.finishReason != "" { finishReason := String(chunk.finishReason); }
    var choice := map["index" := Number(JsonIntegers.IntToken(0)), "delta" := Object(delta), "finish_reason" := finishReason];
    return Ok(Some(map["id" := String("chatcmpl-" + Text.TrimPrefix(metadata.id, "request_")),
                       "object" := String("chat.completion.chunk"), "created" := Number(JsonIntegers.IntToken(metadata.created)),
                       "model" := String(metadata.model), "choices" := Array([Object(choice)])]));
  }

  // ---------- The optimizer ----------

  method CloneMessage(input: Message) returns (output: Message)
    ensures output == input
  {
    output := input;
    if |input.toolCalls| > 0 {
      var calls := [];
      for i := 0 to |input.toolCalls|
        invariant calls == input.toolCalls[..i]
      {
        var call := input.toolCalls[i];
        calls := calls + [call.(arguments := Clone(call.arguments))];
      }
      output := output.(toolCalls := calls);
    }
  }

  method CloneTools(input: seq<ToolDefinition>) returns (output: seq<ToolDefinition>)
    ensures output == input
  {
    output := [];
    for i := 0 to |input|
      invariant output == input[..i]
    {
      output := output + [input[i].(parameters := Clone(input[i].parameters))];
    }
  }

  /** Which of the two errors is reported first depends on the order in which the map is visited. */
  method OptimizeMetadata(metadata: Fields) returns (r: Result<Fields>, normalized: nat)
    ensures r.Ok? <==> Optimizer.OptimizeMetadata(metadata).Ok?
    ensures r.Ok? ==> r == Optimizer.OptimizeMetadata(metadata) && normalized == |Optimizer.Untrimmed(metadata.Keys)|
    ensures r.Err? ==> r.code == "AGENT_METADATA_INVALID" || r.code == "AGENT_METADATA_CONFLICT"
  {
    var rest, result: Fields := metadata.Keys, map[];
    normalized := 0;
    ghost var seen: set<string> := {};
    NothingVisited(metadata);
    while rest != {}
      invariant Visited(metadata, seen, rest, result) && NoneBlank(seen) && normalized == |Optimizer.Untrimmed(seen)|
      decreases |rest|
    {
      var key :| key in rest;
      VisitedKey(metadata, seen, rest, result, key);
      var value, trimmed := metadata[key], Text.Trim(key);
      if trimmed == "" { return Err("AGENT_METADATA_INVALID"), normalized; }
      UntrimmedMore(seen, key);
      if trimmed != key { normalized := normalized + 1; }
      if trimmed in result && Print(result[trimmed]) != Print(value) {
        Disagrees(metadata, seen, rest, result, key);
        return Err("AGENT_METADATA_CONFLICT"), normalized;
      }
      VisitMore(metadata, seen, rest, result, key);
      rest, seen := rest - {key}, seen + {key};
      result := result[trimmed := value];
    }
    VisitedAll(metadata, seen, result);
    OptimizedAs(metadata, result);
    return Ok(result), normalized;
  }

  ghost predicate NoneBlank(keys: set<string>) {
    forall key | key in keys :: Text.Trim(key) != ""
  }

  lemma OptimizedAs(metadata: Fields, result: Fields)
    requires OpenAI.MetadataAgrees(metadata) && OpenAI.TrimKeys(metadata) == result
    requires NoneBlank(metadata.Keys)
    ensures Optimizer.OptimizeMetadata(metadata) == Ok(result)
  {}

  lemma UntrimmedMore(seen: set<string>, key: string)
    requires key !in seen
    ensures Optimizer.Untrimmed(seen + {key}) ==
              if Text.Trim(key) != key then Optimizer.Untrimmed(seen) + {key} else Optimizer.Untrimmed(seen)
    ensures key !in Optimizer.Untrimmed(seen)
  {}

  method NormalizeMessage(input: Message) returns (message: Message, rewritten: bool)
    ensures message == Optimizer.Normalized(input) && rewritten == (message != input)
  {
    message := CloneMessage(input);
    rewritten := false;
    if message.toolResult.Some? && Parse(Text.Trim(message.toolResult.value.content)).Some? {
      var value := Parse(message.toolResult.value.content);
      if value.Some? {
        var normalized := Print(value.value);
        if normalized != message.toolResult.value.content {
          message, rewritten := message.(toolResult := Some(message.toolResult.value.(content := normalized))), true;
        }
      }
    }
  }

  lemma OneMoreMessage(messages: seq<Message>, i: nat, m: Message, changed: bool)
    requires i < |messages| && m == Optimizer.Normalized(messages[i]) && changed == (m != messages[i])
    ensures var kept := Optimizer.Condense(messages[..i]);
            Optimizer.Condense(messages[..i + 1]) == if Optimizer.Repeats(kept, m) then kept else kept + [m]
    ensures Optimizer.Rewritten(messages[..i + 1]) == Optimizer.Rewritten(messages[..i]) + if changed then 1 else 0
  {
    assert messages[..i + 1][..i] == messages[..i];
  }

  method OptimizeMessages(messages: seq<Message>) returns (kept: seq<Message>, removed: nat, rewritten: nat)
    ensures kept == Optimizer.Condense(messages) && rewritten == Optimizer.Rewritten(messages)
    ensures removed + |kept| == |messages|
  {
    kept, removed, rewritten := [], 0, 0;
    for i := 0 to |messages|
      invariant kept == Optimizer.Condense(messages[..i]) && rewritten == Optimizer.Rewritten(messages[..i])
      invariant removed + |kept| == i
    {
      var message, changed := NormalizeMessage(messages[i]);
      OneMoreMessage(messages, i, message, changed);
      if changed { rewritten := rewritten + 1; }
      if |kept| > 0 && Optimizer.Deduplicable(message) && kept[|kept| - 1] == message {
        removed := removed + 1;
        continue;
      }
      kept := kept + [message];
    }
    assert messages[..|messages|] == messages;
  }

  method Optimize(input: Conversation) returns (r: Result<(Conversation, Optimizer.Report)>)
    ensures r.Ok? <==> Optimizer.Optimize(input).Ok?
    ensures r.Ok? ==> r == Optimizer.Optimize(input)
    ensures r.Ok? ==> r.value.1.duplicatesRemoved + |r.value.0.messages| == |input.messages|
    ensures r.Err? ==> r.code == "AGENT_METADATA_INVALID" || r.code == "AGENT_METADATA_CONFLICT"
  {
    var model := Text.Trim(input.model);
    if model == "" { model := DEFAULT_MODEL; }
    var tools := CloneTools(input.tools);
    var metadata, keys := OptimizeMetadata(input.metadata);
    if metadata.Err? { return Err(metadata.code); }
    var messages, removed, rewritten := OptimizeMessages(input.messages);
    var output := Conversation(model, messages, tools, input.choice, input.format, metadata.value, input.stream);
    return Ok((output, Optimizer.Report(removed, keys, rewritten)));
  }
}
