/** What the decoders make of contents, arguments and defaults, for inputs that no encoder of this program writes. */
module Contents {
  import opened Wrappers
  import opened Json
  import opened Canonical
  import opened OpenAI
  import Bridge
  import Text

  // ---------- Message contents given in parts ----------

  /** A part that is text, the only kind there is. */
  predicate IsTextPart(v: Value) {
    v.Object? && Get(v.fields, "type").String? && Text.Trim(Get(v.fields, "type").text) == "text" && Get(v.fields, "text").String?
  }

  lemma OnePart(v: Value)
    ensures DecodePart(v).Ok? <==> IsTextPart(v)
    ensures IsTextPart(v) ==> DecodePart(v).value == Get(v.fields, "text").text
  {
    if v.Object? && !Get(v.fields, "type").String? { assert StringValue(Get(v.fields, "type")) == ""; }
  }

  /** An array of parts is accepted exactly when every one of them is text. */
  lemma {:induction false} PartsIff(parts: seq<Value>)
    ensures DecodeContent(Array(parts)).Ok? <==> forall part | part in parts :: IsTextPart(part)
    decreases |parts|
  {
    if parts != [] {
      OnePart(parts[0]);
      PartsIff(parts[1..]);
      assert parts == [parts[0]] + parts[1..];
    }
  }

  lemma ConsParts(parts: seq<Value>, first: string, more: string)
    requires parts != [] && DecodePart(parts[0]) == Ok(first) && DecodeParts(parts[1..]) == Ok(more)
    ensures DecodeParts(parts) == Ok(first + more)
    ensures more == "" ==> first + more == first
  {}

  /** One part gives its text. */
  lemma SinglePart(part: Value)
    requires IsTextPart(part)
    ensures DecodeContent(Array([part])) == Ok(Get(part.fields, "text").text)
  {
    OnePart(part);
    ConsParts([part], Get(part.fields, "text").text, "");
  }

  lemma PartsTail(parts: seq<Value>, x: string)
    requires parts != [] && DecodeParts(parts) == Ok(x)
    ensures DecodePart(parts[0]).Ok? && DecodeParts(parts[1..]).Ok?
    ensures x == DecodePart(parts[0]).value + DecodeParts(parts[1..]).value
  {}

  lemma SeqJoin<T>(a: seq<T>, b: seq<T>)
    requires a != []
    ensures (a + b)[0] == a[0] && (a + b)[1..] == a[1..] + b
  {}

  lemma Regroup(a: string, b: string, c: string)
    ensures a + (b + c) == a + b + c
  {}

  lemma {:induction false} JoinParts(a: seq<Value>, b: seq<Value>, x: string, y: string)
    requires DecodeParts(a) == Ok(x) && DecodeParts(b) == Ok(y)
    ensures DecodeParts(a + b) == Ok(x + y)
    decreases |a|
  {
    if a == [] {
      assert a + b == b && x == "" && x + y == y;
    } else {
      PartsTail(a, x);
      var first, more := DecodePart(a[0]).value, DecodeParts(a[1..]).value;
      JoinParts(a[1..], b, more, y);
      SeqJoin(a, b);
      ConsParts(a + b, first, more + y);
      Regroup(first, more, y);
    }
  }

  /** The texts of the parts are joined in the order of the parts. */
  lemma PartsJoin(a: seq<Value>, b: seq<Value>, x: string, y: string)
    requires DecodeContent(Array(a)) == Ok(x) && DecodeContent(Array(b)) == Ok(y)
    ensures DecodeContent(Array(a + b)) == Ok(x + y)
  {
    JoinParts(a, b, x, y);
  }

  // ---------- Contents of messages ----------

  /** A plain message's content is its text, its parts joined, or nothing. */
  lemma PlainContent(value: Fields, known: set<string>)
    requires DecodeMessage(Object(value), known).Ok? && DecodeMessage(Object(value), known).value.role != ROLE_TOOL
    ensures var m, given := DecodeMessage(Object(value), known).value, Get(value, "content");
            && m.role == StringValue(Get(value, "role")) && m.name == StringValue(Get(value, "name"))
            && (given.Null? ==> m.content == "") && (given.String? ==> m.content == given.text)
            && (given.Array? ==> DecodeContent(given) == Ok(m.content))
  {}

  lemma ResultReads(value: Fields, name: string, known: set<string>)
    requires DecodeToolResult(value, name, known).Ok?
    ensures var result, given := DecodeToolResult(value, name, known).value, Get(value, "content");
            && result.callId == StringValue(Get(value, "tool_call_id")) && result.name == name
            && (given.Array? ==> DecodeContent(given) == Ok(result.content))
            && (!given.Array? ==> result.content == CanonicalContent(given))
  {}

  lemma JsonText(v: Value)
    ensures v.Null? ==> CanonicalContent(v) == ""
    ensures v.String? ==> CanonicalContent(v) == v.text
    ensures !v.Null? && !v.String? ==> Parse(CanonicalContent(v)) == Some(v)
  {
    RoundTrip(v);
  }

  lemma ResultOf(value: Fields, known: set<string>)
    requires DecodeMessage(Object(value), known).Ok? && DecodeMessage(Object(value), known).value.role == ROLE_TOOL
    ensures var m, name := DecodeMessage(Object(value), known).value, StringValue(Get(value, "name"));
            && m.content == "" && m.name == name && m.toolResult.Some?
            && DecodeToolResult(value, name, known) == Ok(m.toolResult.value)
  {}

  /** A tool message's result is its text, its parts joined, nothing, or whatever else is given as JSON text. */
  lemma ResultContent(value: Fields, known: set<string>)
    requires DecodeMessage(Object(value), known).Ok? && DecodeMessage(Object(value), known).value.role == ROLE_TOOL
    ensures var m, given := DecodeMessage(Object(value), known).value, Get(value, "content");
            && m.content == "" && m.toolResult.Some? && m.toolResult.value.callId == StringValue(Get(value, "tool_call_id"))
            && m.name == StringValue(Get(value, "name")) == m.toolResult.value.name
            && (given.Null? ==> m.toolResult.value.content == "")
            && (given.String? ==> m.toolResult.value.content == given.text)
            && (given.Array? ==> DecodeContent(given) == Ok(m.toolResult.value.content))
            && (!given.Null? && !given.String? && !given.Array? ==> Parse(m.toolResult.value.content) == Some(given))
  {
    ResultOf(value, known);
    ResultReads(value, StringValue(Get(value, "name")), known);
    JsonText(Get(value, "content"));
  }

  // ---------- Arguments of calls ----------

  /** Arguments given as an object are the same as given as its text; none given are no arguments. */
  lemma ArgumentsEitherWay(fields: Fields)
    ensures CanonicalObject(Object(fields), "AGENT_TOOL_ARGUMENTS_INVALID") == Ok(fields)
    ensures CanonicalObject(String(Print(Object(fields))), "AGENT_TOOL_ARGUMENTS_INVALID") == Ok(fields)
    ensures CanonicalObject(Null, "AGENT_TOOL_ARGUMENTS_INVALID") == Ok(map[])
  {
    RoundTrip(Object(fields));
  }

  /** A call is read field by field, whichever way its arguments are given. */
  lemma CallReads(raw: Value, seen: set<string>, arguments: Fields)
    requires raw.Object? && Get(raw.fields, "function").Object?
    requires Get(Get(raw.fields, "function").fields, "arguments") in {Object(arguments), String(Print(Object(arguments)))}
    ensures var id, name := StringValue(Get(raw.fields, "id")), StringValue(Get(Get(raw.fields, "function").fields, "name"));
            StringValue(Get(raw.fields, "type")) == "function" && id != "" && name != "" && id !in seen
            <==> DecodeToolCall(raw, seen) == Ok(ToolCall(id, name, arguments))
  {
    ArgumentsEitherWay(arguments);
  }

  // ---------- Defaults ----------

  /** A tool without parameters takes an object. */
  lemma DefaultParameters(raw: Value, seen: set<string>)
    requires DecodeTool(raw, seen).Ok? && Get(Get(raw.fields, "function").fields, "parameters").Null?
    ensures DecodeTool(raw, seen).value.parameters == map["type" := String("object")]
  {}

  /** Without a model the request is for the default one, and without stream the answer is sent in one piece. */
  lemma DefaultsOfRequest(root: Fields)
    requires DecodeRoot(root).Ok?
    ensures DecodeRoot(root).value.model
            == if StringValue(Get(root, "model")) == "" then DEFAULT_MODEL else StringValue(Get(root, "model"))
    ensures DecodeRoot(root).value.stream <==> Get(root, "stream") == Bool(true)
  {}

  // ---------- Metadata ----------

  /** Every member is kept under its trimmed key, and nothing else is there. */
  lemma MetadataTrimmed(metadata: Fields, key: string)
    requires DecodeMetadata(Object(metadata)).Ok?
    ensures key in metadata ==>
              Text.Trim(key) in DecodeMetadata(Object(metadata)).value
              && DecodeMetadata(Object(metadata)).value[Text.Trim(key)] == metadata[key]
    ensures key in DecodeMetadata(Object(metadata)).value ==> exists given :: given in metadata && Text.Trim(given) == key
  {
    if key in metadata {
      forall other | other in metadata && Text.Trim(other) == Text.Trim(key) ensures metadata[other] == metadata[key] {
        assert !Conflicts(metadata, other, key);
        PrintInjective(metadata[other], metadata[key]);
      }
    }
  }

  // ---------- Bridge completions ----------

  /** A completion with its message nested is read as if its members stood beside the finish reason. */
  lemma NestedReads(message: Fields, reason: Option<Value>, request: Option<Conversation>)
    requires !Get(message, "message").Object? && "finish_reason" !in message
    ensures Bridge.DecodeBridgeCompletion(Bridge.Put(map["message" := Object(message)], "finish_reason", reason), request)
            == Bridge.DecodeBridgeCompletion(Bridge.Put(message, "finish_reason", reason), request)
  {
    var nested := Bridge.Put(map["message" := Object(message)], "finish_reason", reason);
    var flat := Bridge.Put(message, "finish_reason", reason);
    assert Bridge.CompletionMessage(nested) == message && Bridge.CompletionMessage(flat) == flat;
    SameReading(nested, flat, request);
  }

  /** Nothing else of a completion is read than these three members. */
  lemma SameReading(v: Fields, w: Fields, request: Option<Conversation>)
    requires var m, n := Bridge.CompletionMessage(v), Bridge.CompletionMessage(w);
             && Get(m, "content") == Get(n, "content") && ("tool_calls" in m <==> "tool_calls" in n)
             && ("tool_calls" in m ==> m["tool_calls"] == n["tool_calls"])
    requires Get(v, "finish_reason") == Get(w, "finish_reason")
    ensures Bridge.DecodeBridgeCompletion(v, request) == Bridge.DecodeBridgeCompletion(w, request)
  {}

  /** The content of a completion is its text, or its JSON text, or nothing. */
  lemma CompletionContent(value: Fields)
    requires !Get(value, "message").Object? && Bridge.DecodeBridgeCompletion(value, None).Ok?
    ensures var content, given := Bridge.DecodeBridgeCompletion(value, None).value.content, Get(value, "content");
            && (given.Null? ==> content == "") && (given.String? ==> content == given.text)
            && (!given.Null? && !given.String? ==> Parse(content) == Some(given))
  {
    RoundTrip(Get(value, "content"));
  }

  /** The finish reason is the one given; when none is, it says whether there are calls. */
  lemma CompletionReason(value: Fields)
    requires Bridge.DecodeBridgeCompletion(value, None).Ok?
    ensures var c, given := Bridge.DecodeBridgeCompletion(value, None).value, StringValue(Get(value, "finish_reason"));
            && c.finishReason in {"stop", "tool_calls", "length", "content_filter"}
            && (c.toolCalls != [] ==> c.finishReason == "tool_calls")
            && (given != "" ==> c.finishReason == given)
            && (given == "" ==> c.finishReason == if c.toolCalls == [] then "stop" else "tool_calls")
  {}

  /** The calls of a completion: none, where it has no such member. */
  function CallsOf(value: Fields): Result<seq<ToolCall>> {
    if "tool_calls" in value then DecodeToolCalls(value["tool_calls"]) else Ok([])
  }

  /** What is wrong with a completion whose calls are read, by the first of these that applies. */
  ghost function Flaw(content: string, calls: seq<ToolCall>, given: string): Option<string> {
    if Text.Trim(content) == "" && calls == [] then Some("AGENT_RESPONSE_MESSAGE_REQUIRED")
    else if given !in {"", "stop", "tool_calls", "length", "content_filter"} then Some("AGENT_FINISH_REASON_INVALID")
    else if calls != [] && given !in {"", "tool_calls"} then Some("AGENT_TOOL_CALL_FINISH_REASON_INVALID")
    else None
  }

  lemma ReasonIff(value: Fields, calls: seq<ToolCall>)
    ensures var reason, given := Bridge.FinishReason(value, calls), StringValue(Get(value, "finish_reason"));
            && (Bridge.IsFinishReason(reason) <==> given in {"", "stop", "tool_calls", "length", "content_filter"})
            && (calls != [] ==> (reason == "tool_calls" <==> given in {"", "tool_calls"}))
  {}

  lemma DecodesFlat(value: Fields, calls: seq<ToolCall>, content: string)
    requires !Get(value, "message").Object? && CallsOf(value) == Ok(calls) && CanonicalContent(Get(value, "content")) == content
    ensures Bridge.DecodeBridgeCompletion(value, None) ==
              var reason := Bridge.FinishReason(value, calls);
              if Text.Trim(content) == "" && calls == [] then Err("AGENT_RESPONSE_MESSAGE_REQUIRED")
              else if !Bridge.IsFinishReason(reason) then Err("AGENT_FINISH_REASON_INVALID")
              else if calls != [] && reason != "tool_calls" then Err("AGENT_TOOL_CALL_FINISH_REASON_INVALID")
              else Ok(Completion(content, calls, reason))
  {}

  /** Exactly which completions are accepted: those with readable calls and none of these flaws. */
  lemma CompletionIff(value: Fields)
    requires !Get(value, "message").Object?
    ensures var r, given := Bridge.DecodeBridgeCompletion(value, None), StringValue(Get(value, "finish_reason"));
            match CallsOf(value)
            case Err(code) => r == Err(code)
            case Ok(calls) =>
              match Flaw(CanonicalContent(Get(value, "content")), calls, given)
              case Some(code) => r == Err(code)
              case None => r.Ok? && r.value.toolCalls == calls && r.value.content == CanonicalContent(Get(value, "content"))
  {
    match CallsOf(value)
    case Err(_) =>
    case Ok(calls) => DecodesFlat(value, calls, CanonicalContent(Get(value, "content"))); ReasonIff(value, calls);
  }

  /** Text alone is a completion exactly when it is not blank. */
  lemma TextCompletes(text: string)
    ensures Bridge.DecodeBridgeCompletion(map["content" := String(text)], None)
            == if Text.Trim(text) == "" then Err("AGENT_RESPONSE_MESSAGE_REQUIRED") else Ok(Completion(text, [], "stop"))
  {
    var value: Fields := map["content" := String(text)];
    assert Bridge.CompletionMessage(value) == value && StringValue(Get(value, "finish_reason")) == "";
  }
}
