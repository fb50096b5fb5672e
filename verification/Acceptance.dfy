/** Exactly which requests the decoder accepts, told by the JSON given alone. */
module Acceptance {
  import opened Wrappers
  import opened Json
  import opened Canonical
  import opened OpenAI
  import opened Contents
  import Text

  // ---------- Calls ----------

  /** The object itself, its text, or nothing. */
  ghost predicate ArgumentsOk(v: Value) {
    || v.Null? || v.Object?
    || (v.String? && Parse(v.text).Some? && Parse(v.text).value.Object?)
  }

  /** A call names its kind, its id and its function. */
  ghost predicate CallOk(raw: Value) {
    && raw.Object? && StringValue(Get(raw.fields, "type")) == "function" && StringValue(Get(raw.fields, "id")) != ""
    && Get(raw.fields, "function").Object? && StringValue(Get(Get(raw.fields, "function").fields, "name")) != ""
    && ArgumentsOk(Get(Get(raw.fields, "function").fields, "arguments"))
  }

  function IdOf(raw: Value): string {
    if raw.Object? then StringValue(Get(raw.fields, "id")) else ""
  }

  function IdsOf(raws: seq<Value>): set<string> {
    set raw | raw in raws :: IdOf(raw)
  }

  ghost predicate DistinctCalls(raws: seq<Value>) {
    forall i, j | 0 <= i < j < |raws| :: IdOf(raws[i]) != IdOf(raws[j])
  }

  /** At least one call, each well formed and with an id of its own. */
  ghost predicate CallsOk(raw: Value) {
    raw.Array? && raw.items != [] && (forall call | call in raw.items :: CallOk(call)) && DistinctCalls(raw.items)
  }

  lemma ArgumentsIff(v: Value)
    ensures CanonicalObject(v, "AGENT_TOOL_ARGUMENTS_INVALID").Ok? <==> ArgumentsOk(v)
  {}

  lemma CallIff(raw: Value, seen: set<string>)
    ensures DecodeToolCall(raw, seen).Ok? <==> CallOk(raw) && IdOf(raw) !in seen
    ensures DecodeToolCall(raw, seen).Ok? ==> DecodeToolCall(raw, seen).value.id == IdOf(raw)
  {
    if raw.Object? && Get(raw.fields, "function").Object? {
      ArgumentsIff(Get(Get(raw.fields, "function").fields, "arguments"));
    }
  }

  /** None of the calls repeats an id that was seen. */
  ghost predicate Unseen(raws: seq<Value>, seen: set<string>) {
    forall raw | raw in raws :: IdOf(raw) !in seen
  }

  lemma ConsDistinct(raws: seq<Value>, seen: set<string>)
    requires raws != []
    ensures DistinctCalls(raws) && Unseen(raws, seen)
            <==> IdOf(raws[0]) !in seen && DistinctCalls(raws[1..]) && Unseen(raws[1..], seen + {IdOf(raws[0])})
  {
    var rest := raws[1..];
    assert raws == [raws[0]] + rest;
    assert forall raw :: raw in raws <==> raw == raws[0] || raw in rest;
    if DistinctCalls(rest) && Unseen(rest, seen + {IdOf(raws[0])}) && IdOf(raws[0]) !in seen {
      forall i, j | 0 <= i < j < |raws| ensures IdOf(raws[i]) != IdOf(raws[j]) {
        assert raws[j] == rest[j - 1] && rest[j - 1] in rest;
        if i > 0 { assert raws[i] == rest[i - 1]; }
      }
    }
    if DistinctCalls(raws) {
      forall raw | raw in rest ensures IdOf(raw) != IdOf(raws[0]) {
        var j :| 0 <= j < |rest| && rest[j] == raw;
        assert raws[j + 1] == raw;
      }
      forall i, j | 0 <= i < j < |rest| ensures IdOf(rest[i]) != IdOf(rest[j]) {
        assert raws[i + 1] == rest[i] && raws[j + 1] == rest[j];
      }
    }
  }

  lemma DecodeCallCons(raws: seq<Value>, seen: set<string>)
    requires raws != []
    ensures DecodeCallList(raws, seen).Ok?
            <==> DecodeToolCall(raws[0], seen).Ok? && DecodeCallList(raws[1..], seen + {DecodeToolCall(raws[0], seen).value.id}).Ok?
    ensures DecodeCallList(raws, seen).Ok? ==>
              DecodeCallList(raws, seen).value == [DecodeToolCall(raws[0], seen).value]
                + DecodeCallList(raws[1..], seen + {DecodeToolCall(raws[0], seen).value.id}).value
  {}

  lemma ConsIds(raws: seq<Value>, calls: seq<ToolCall>, call: ToolCall)
    requires raws != [] && call.id == IdOf(raws[0]) && CallIds(calls) == IdsOf(raws[1..])
    ensures CallIds([call] + calls) == IdsOf(raws)
  {
    assert raws == [raws[0]] + raws[1..];
    forall id ensures id in CallIds([call] + calls) <==> id in IdsOf(raws) {
      assert id in CallIds([call] + calls) <==> id == call.id || id in CallIds(calls);
      assert id in IdsOf(raws) <==> id == IdOf(raws[0]) || id in IdsOf(raws[1..]);
    }
  }

  lemma {:induction false} CallListIff(raws: seq<Value>, seen: set<string>)
    ensures DecodeCallList(raws, seen).Ok? <==> (forall raw | raw in raws :: CallOk(raw)) && DistinctCalls(raws) && Unseen(raws, seen)
    ensures DecodeCallList(raws, seen).Ok? ==> CallIds(DecodeCallList(raws, seen).value) == IdsOf(raws)
    decreases |raws|
  {
    if raws != [] {
      var after := seen + {IdOf(raws[0])};
      CallIff(raws[0], seen);
      CallListIff(raws[1..], after);
      ConsDistinct(raws, seen);
      DecodeCallCons(raws, seen);
      assert forall raw :: raw in raws <==> raw == raws[0] || raw in raws[1..];
      if DecodeCallList(raws, seen).Ok? {
        ConsIds(raws, DecodeCallList(raws[1..], after).value, DecodeToolCall(raws[0], seen).value);
      }
    }
  }

  lemma CallsIff(raw: Value)
    ensures DecodeToolCalls(raw).Ok? <==> CallsOk(raw)
    ensures DecodeToolCalls(raw).Ok? ==> CallIds(DecodeToolCalls(raw).value) == IdsOf(raw.items) && DecodeToolCalls(raw).value != []
  {
    if raw.Array? && raw.items != [] {
      CallListIff(raw.items, {});
      DecodeCallCons(raw.items, {});
    }
  }

  // ---------- Messages ----------

  /** Nothing, a text, or text parts. */
  ghost predicate ContentOk(v: Value) {
    v.Null? || v.String? || (v.Array? && forall part | part in v.items :: IsTextPart(part))
  }

  lemma ContentIff(v: Value)
    ensures DecodeContent(v).Ok? <==> ContentOk(v)
  {
    if v.Array? { PartsIff(v.items); }
  }

  /** Something to say: a call, or content that is not empty. */
  ghost predicate SaysSomething(value: Fields) {
    !Get(value, "tool_calls").Null? || (DecodeContent(Get(value, "content")).Ok? && DecodeContent(Get(value, "content")).value != "")
  }

  /** A message that is well formed, given the ids of the calls made before it. */
  ghost predicate MessageOk(raw: Value, known: set<string>) {
    && raw.Object?
    && var value := raw.fields; var role := StringValue(Get(value, "role"));
    && role in {"system", "developer", "user", "assistant", "tool"}
    && (!Get(value, "tool_calls").Null? ==> role == "assistant" && CallsOk(Get(value, "tool_calls")))
    && (role != "tool" ==> ContentOk(Get(value, "content")))
    && (role == "assistant" ==> SaysSomething(value))
    && (role == "tool" ==>
          && StringValue(Get(value, "tool_call_id")) in known && StringValue(Get(value, "tool_call_id")) != ""
          && (Get(value, "content").Array? ==> ContentOk(Get(value, "content"))))
  }

  function RawIds(raw: Value): set<string> {
    if raw.Object? && Get(raw.fields, "tool_calls").Array? then IdsOf(Get(raw.fields, "tool_calls").items) else {}
  }

  lemma ResultIff(value: Fields, name: string, known: set<string>)
    ensures DecodeToolResult(value, name, known).Ok?
            <==> && StringValue(Get(value, "tool_call_id")) in known && StringValue(Get(value, "tool_call_id")) != ""
                 && (Get(value, "content").Array? ==> ContentOk(Get(value, "content")))
  {
    ContentIff(Get(value, "content"));
  }

  lemma PlainIff(value: Fields, role: string, known: set<string>)
    requires role == StringValue(Get(value, "role")) && IsRole(role) && role != ROLE_TOOL
    ensures DecodeMessage(Object(value), known).Ok? <==> MessageOk(Object(value), known)
    ensures DecodeMessage(Object(value), known).Ok? ==> CallIds(DecodeMessage(Object(value), known).value.toolCalls) == RawIds(Object(value))
  {
    ContentIff(Get(value, "content"));
    CallsIff(Get(value, "tool_calls"));
  }

  lemma ToolIff(value: Fields, known: set<string>)
    requires StringValue(Get(value, "role")) == ROLE_TOOL
    ensures DecodeMessage(Object(value), known).Ok? <==> MessageOk(Object(value), known)
    ensures DecodeMessage(Object(value), known).Ok? ==> CallIds(DecodeMessage(Object(value), known).value.toolCalls) == RawIds(Object(value))
  {
    ResultIff(value, StringValue(Get(value, "name")), known);
  }

  lemma MessageIff(raw: Value, known: set<string>)
    ensures DecodeMessage(raw, known).Ok? <==> MessageOk(raw, known)
    ensures DecodeMessage(raw, known).Ok? ==> CallIds(DecodeMessage(raw, known).value.toolCalls) == RawIds(raw)
  {
    if raw.Object? && IsRole(StringValue(Get(raw.fields, "role"))) {
      if StringValue(Get(raw.fields, "role")) == ROLE_TOOL {
        ToolIff(raw.fields, known);
      } else {
        PlainIff(raw.fields, StringValue(Get(raw.fields, "role")), known);
      }
    }
  }

  /** Every message is well formed and makes only new calls. */
  ghost predicate MessagesOk(raws: seq<Value>, known: set<string>)
    decreases |raws|
  {
    raws == [] || (MessageOk(raws[0], known) && RawIds(raws[0]) !! known && MessagesOk(raws[1..], known + RawIds(raws[0])))
  }

  lemma {:induction false} AddIff(known: set<string>, calls: seq<ToolCall>)
    requires forall i, j | 0 <= i < j < |calls| :: calls[i].id != calls[j].id
    ensures AddCalls(known, calls).Ok? <==> CallIds(calls) !! known
    ensures AddCalls(known, calls).Ok? ==> AddCalls(known, calls).value == known + CallIds(calls)
    decreases |calls|
  {
    if calls != [] {
      var rest := calls[1..];
      forall i, j | 0 <= i < j < |rest| ensures rest[i].id != rest[j].id {
        assert calls[i + 1] == rest[i] && calls[j + 1] == rest[j];
      }
      AddIff(known + {calls[0].id}, rest);
      SplitIds(calls);
    }
  }

  lemma SplitIds(calls: seq<ToolCall>)
    requires calls != [] && forall i, j | 0 <= i < j < |calls| :: calls[i].id != calls[j].id
    ensures CallIds(calls) == {calls[0].id} + CallIds(calls[1..]) && calls[0].id !in CallIds(calls[1..])
  {
    assert calls == [calls[0]] + calls[1..];
    forall call | call in calls[1..] ensures call.id != calls[0].id {
      var j :| 0 <= j < |calls[1..]| && calls[1..][j] == call;
      assert calls[j + 1] == call;
    }
  }

  lemma {:induction false} ListedDistinct(raws: seq<Value>, seen: set<string>)
    requires DecodeCallList(raws, seen).Ok?
    ensures var calls := DecodeCallList(raws, seen).value;
            (forall call | call in calls :: call.id !in seen) && forall i, j | 0 <= i < j < |calls| :: calls[i].id != calls[j].id
    decreases |raws|
  {
    if raws != [] {
      DecodeCallCons(raws, seen);
      CallIff(raws[0], seen);
      ListedDistinct(raws[1..], seen + {DecodeToolCall(raws[0], seen).value.id});
    }
  }

  lemma MessageCalls(raw: Value, known: set<string>)
    requires DecodeMessage(raw, known).Ok?
    ensures var calls := DecodeMessage(raw, known).value.toolCalls; forall i, j | 0 <= i < j < |calls| :: calls[i].id != calls[j].id
  {
    var calls := Get(raw.fields, "tool_calls");
    if DecodeToolCalls(calls).Ok? { ListedDistinct(calls.items, {}); }
  }

  lemma DecodeMessagesCons(raws: seq<Value>, known: set<string>)
    requires raws != []
    ensures DecodeMessages(raws, known).Ok?
            <==> && DecodeMessage(raws[0], known).Ok?
                 && AddCalls(known, DecodeMessage(raws[0], known).value.toolCalls).Ok?
                 && DecodeMessages(raws[1..], AddCalls(known, DecodeMessage(raws[0], known).value.toolCalls).value).Ok?
  {}

  lemma {:induction false} MessagesIff(raws: seq<Value>, known: set<string>)
    ensures DecodeMessages(raws, known).Ok? <==> MessagesOk(raws, known)
    decreases |raws|
  {
    if raws != [] {
      DecodeMessagesCons(raws, known);
      MessageIff(raws[0], known);
      if DecodeMessage(raws[0], known).Ok? {
        MessageCalls(raws[0], known);
        AddIff(known, DecodeMessage(raws[0], known).value.toolCalls);
        MessagesIff(raws[1..], known + RawIds(raws[0]));
      }
    }
  }

  // ---------- Tools ----------

  ghost predicate ToolOk(raw: Value) {
    && raw.Object? && StringValue(Get(raw.fields, "type")) == "function" && Get(raw.fields, "function").Object?
    && StringValue(Get(Get(raw.fields, "function").fields, "name")) != ""
    && (Get(Get(raw.fields, "function").fields, "parameters").Null? || Get(Get(raw.fields, "function").fields, "parameters").Object?)
  }

  function ToolName(raw: Value): string {
    if raw.Object? && Get(raw.fields, "function").Object? then StringValue(Get(Get(raw.fields, "function").fields, "name")) else ""
  }

  ghost predicate ToolsListed(raws: seq<Value>, seen: set<string>)
    decreases |raws|
  {
    raws == [] || (ToolOk(raws[0]) && ToolName(raws[0]) !in seen && ToolsListed(raws[1..], seen + {ToolName(raws[0])}))
  }

  lemma OneToolIff(raw: Value, seen: set<string>)
    ensures DecodeTool(raw, seen).Ok? <==> ToolOk(raw) && ToolName(raw) !in seen
    ensures DecodeTool(raw, seen).Ok? ==> DecodeTool(raw, seen).value.name == ToolName(raw)
  {}

  lemma DecodeToolCons(raws: seq<Value>, seen: set<string>)
    requires raws != []
    ensures DecodeToolList(raws, seen).Ok?
            <==> DecodeTool(raws[0], seen).Ok? && DecodeToolList(raws[1..], seen + {DecodeTool(raws[0], seen).value.name}).Ok?
    ensures DecodeToolList(raws, seen).Ok? ==>
              DecodeToolList(raws, seen).value == [DecodeTool(raws[0], seen).value]
                + DecodeToolList(raws[1..], seen + {DecodeTool(raws[0], seen).value.name}).value
  {}

  lemma {:induction false} ToolListIff(raws: seq<Value>, seen: set<string>)
    ensures DecodeToolList(raws, seen).Ok? <==> ToolsListed(raws, seen)
    ensures DecodeToolList(raws, seen).Ok? ==>
              forall name :: HasTool(DecodeToolList(raws, seen).value, name) <==> exists raw :: raw in raws && ToolName(raw) == name
    decreases |raws|
  {
    if raws != [] {
      OneToolIff(raws[0], seen);
      DecodeToolCons(raws, seen);
      ToolListIff(raws[1..], seen + {ToolName(raws[0])});
      if DecodeToolList(raws, seen).Ok? {
        ConsHasTool(raws, DecodeTool(raws[0], seen).value, DecodeToolList(raws[1..], seen + {ToolName(raws[0])}).value);
      }
    }
  }

  lemma ConsHasTool(raws: seq<Value>, tool: ToolDefinition, more: seq<ToolDefinition>)
    requires raws != [] && tool.name == ToolName(raws[0])
    requires forall name :: HasTool(more, name) <==> exists raw :: raw in raws[1..] && ToolName(raw) == name
    ensures forall name :: HasTool([tool] + more, name) <==> exists raw :: raw in raws && ToolName(raw) == name
  {
    assert forall raw :: raw in raws <==> raw == raws[0] || raw in raws[1..];
    forall name ensures HasTool([tool] + more, name) <==> tool.name == name || HasTool(more, name) {
      assert forall t :: t in [tool] + more <==> t == tool || t in more;
    }
  }

  /** No tools, or tools with distinct names. */
  ghost predicate ToolsOk(raw: Value) {
    raw.Null? || (raw.Array? && ToolsListed(raw.items, {}))
  }

  ghost predicate Declares(raw: Value, name: string) {
    raw.Array? && exists tool :: tool in raw.items && ToolName(tool) == name
  }

  lemma ToolsIff(raw: Value)
    ensures DecodeTools(raw).Ok? <==> ToolsOk(raw)
    ensures DecodeTools(raw).Ok? ==> forall name :: HasTool(DecodeTools(raw).value, name) <==> Declares(raw, name)
  {
    if raw.Array? { ToolListIff(raw.items, {}); }
  }

  // ---------- Choice, format and metadata ----------

  /** The function that a choice asks for, or nothing. */
  function ChosenName(raw: Value): string {
    if raw.Object? && Get(raw.fields, "function").Object? then StringValue(Get(Get(raw.fields, "function").fields, "name")) else ""
  }

  /** None, a mode, or a function that the request declares. */
  ghost predicate ChoiceOk(raw: Value, tools: Value) {
    || raw.Null?
    || (raw.String? && Text.Trim(raw.text) in {"none", "auto", "required"})
    || (raw.Object? && StringValue(Get(raw.fields, "type")) == "function" && ChosenName(raw) != "" && Declares(tools, ChosenName(raw)))
  }

  ghost predicate FormatOk(raw: Value) {
    || raw.Null?
    || (raw.Object?
        && var kind := StringValue(Get(raw.fields, "type"));
        || kind in {"text", "json_object"}
        || (kind == "json_schema" && Get(raw.fields, "json_schema").Object? && Get(raw.fields, "json_schema").fields != map[]))
  }

  ghost predicate EntryOk(key: string, v: Value) {
    && Text.Trim(key) != "" && Text.Utf8Len(Text.Trim(key)) <= 64
    && (v.Null? || v.Bool? || v.Number? || (v.String? && Text.Utf8Len(v.text) <= 512))
  }

  /** At most 32 entries, small and flat, and no two values under keys that differ by white space only. */
  ghost predicate MetadataOk(raw: Value) {
    || raw.Null?
    || (raw.Object? && |raw.fields| <= 32
        && (forall key | key in raw.fields :: EntryOk(key, raw.fields[key]))
        && forall a, b | a in raw.fields && b in raw.fields && Text.Trim(a) == Text.Trim(b) :: raw.fields[a] == raw.fields[b])
  }

  lemma ChoiceDecodes(raw: Value)
    ensures DecodeToolChoice(raw).Ok?
            <==> || raw.Null? || (raw.String? && Text.Trim(raw.text) in {"none", "auto", "required"})
                 || (raw.Object? && StringValue(Get(raw.fields, "type")) == "function" && ChosenName(raw) != "")
    ensures DecodeToolChoice(raw).Ok? ==> DecodeToolChoice(raw).value.name == ChosenName(raw)
    ensures raw.String? && DecodeToolChoice(raw).Ok? ==> DecodeToolChoice(raw).value.mode == Text.Trim(raw.text)
  {}

  lemma FormatIff(raw: Value)
    ensures DecodeResponseFormat(raw).Ok? <==> FormatOk(raw)
  {}

  lemma EntriesIff(metadata: Fields)
    ensures (exists key | key in metadata :: !IsMetadataEntry(key, metadata[key]))
            <==> !(forall key | key in metadata :: EntryOk(key, metadata[key]))
  {
    forall key | key in metadata ensures IsMetadataEntry(key, metadata[key]) <==> EntryOk(key, metadata[key]) {}
  }

  lemma AgreesIff(metadata: Fields)
    ensures MetadataAgrees(metadata)
            <==> forall a, b | a in metadata && b in metadata && Text.Trim(a) == Text.Trim(b) :: metadata[a] == metadata[b]
  {
    if MetadataAgrees(metadata) {
      forall a, b | a in metadata && b in metadata && Text.Trim(a) == Text.Trim(b) ensures metadata[a] == metadata[b] {
        assert !Conflicts(metadata, a, b);
        PrintInjective(metadata[a], metadata[b]);
      }
    }
  }

  lemma MetadataIff(raw: Value)
    ensures DecodeMetadata(raw).Ok? <==> MetadataOk(raw)
  {
    if raw.Object? {
      EntriesIff(raw.fields);
      AgreesIff(raw.fields);
    }
  }

  // ---------- The request ----------

  ghost predicate RootOk(root: Fields) {
    && "attachments" !in root
    && (Get(root, "model").Null? || Get(root, "model").String?)
    && (Get(root, "stream").Null? || Get(root, "stream").Bool?)
    && Get(root, "messages").Array? && Get(root, "messages").items != []
  }

  lemma RootIff(root: Fields)
    ensures RootRefused(root).None? <==> RootOk(root)
  {}

  lemma FieldsDecode(model: string, stream: bool, messages: seq<Value>, tools: Value, choice: Value, format: Value, metadata: Value)
    ensures DecodeFields(model, stream, messages, tools, choice, format, metadata).Ok?
            <==> && DecodeMessages(messages, {}).Ok? && DecodeTools(tools).Ok? && DecodeToolChoice(choice).Ok?
                 && (DecodeToolChoice(choice).value.name != "" ==> HasTool(DecodeTools(tools).value, DecodeToolChoice(choice).value.name))
                 && DecodeResponseFormat(format).Ok? && DecodeMetadata(metadata).Ok?
  {}

  lemma ChoiceIff(choice: Value, tools: Value)
    requires DecodeTools(tools).Ok?
    ensures && DecodeToolChoice(choice).Ok?
            && (DecodeToolChoice(choice).value.name != "" ==> HasTool(DecodeTools(tools).value, DecodeToolChoice(choice).value.name))
            <==> ChoiceOk(choice, tools)
  {
    ChoiceDecodes(choice);
    ToolsIff(tools);
  }

  /** A root object all of whose parts are well formed. */
  ghost predicate RequestOk(root: Fields) {
    && RootOk(root) && MessagesOk(Get(root, "messages").items, {}) && ToolsOk(Get(root, "tools"))
    && ChoiceOk(Get(root, "tool_choice"), Get(root, "tools")) && FormatOk(Get(root, "response_format"))
    && MetadataOk(Get(root, "metadata"))
  }

  lemma DecodesRoot(root: Fields)
    requires RootOk(root)
    ensures DecodeRoot(root).Ok? <==> RequestOk(root)
  {
    var messages, tools, choice := Get(root, "messages").items, Get(root, "tools"), Get(root, "tool_choice");
    RootIff(root);
    FieldsDecode(ModelNamed(StringValue(Get(root, "model"))), BoolValue(Get(root, "stream")), messages, tools, choice,
                 Get(root, "response_format"), Get(root, "metadata"));
    MessagesIff(messages, {});
    ToolsIff(tools);
    if DecodeTools(tools).Ok? { ChoiceIff(choice, tools); }
    FormatIff(Get(root, "response_format"));
    MetadataIff(Get(root, "metadata"));
  }

  /** Exactly which requests are accepted: the JSON objects all of whose parts are well formed, and no others. */
  lemma RequestIff(payload: string)
    ensures DecodeRequest(payload).Ok? <==> Parse(payload).Some? && Parse(payload).value.Object? && RequestOk(Parse(payload).value.fields)
  {
    if Parse(payload).Some? && Parse(payload).value.Object? {
      var root := Parse(payload).value.fields;
      RootIff(root);
      if RootOk(root) { DecodesRoot(root); }
    }
  }
}
