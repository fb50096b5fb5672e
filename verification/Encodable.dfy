/** Exactly which conversations the bridge encoder accepts. */
module Encodable {
  import opened Wrappers
  import opened Json
  import opened Canonical
  import opened Bridge
  import OpenAI
  import Text

  ghost predicate Blank(s: string) { Text.Trim(s) == "" }

  /** The calls are named, are an assistant's, and have ids of their own. */
  ghost predicate CallsFit(role: Role, calls: seq<ToolCall>, ids: set<string>) {
    && (calls != [] ==> role == "assistant")
    && (forall call | call in calls :: !Blank(call.id) && !Blank(call.name) && call.id !in ids)
    && forall i, j | 0 <= i < j < |calls| :: calls[i].id != calls[j].id
  }

  /** A message that can be sent after those whose calls have the given ids: a tool's has the result of one of them. */
  ghost predicate MessageFits(m: Message, ids: set<string>) {
    && m.role in {"system", "developer", "user", "assistant", "tool"}
    && (m.role == "tool" <==> m.toolResult.Some?)
    && (m.toolResult.Some? ==> !Blank(m.toolResult.value.callId) && m.toolResult.value.callId in ids)
    && CallsFit(m.role, m.toolCalls, ids)
  }

  ghost predicate MessagesFit(messages: seq<Message>, ids: set<string>)
    decreases |messages|
  {
    messages == [] || (MessageFits(messages[0], ids) && MessagesFit(messages[1..], ids + OpenAI.CallIds(messages[0].toolCalls)))
  }

  ghost predicate ToolsFit(tools: seq<ToolDefinition>) {
    && (forall tool | tool in tools :: !Blank(tool.name))
    && forall i, j | 0 <= i < j < |tools| :: tools[i].name != tools[j].name
  }

  lemma CallsFitCons(role: Role, calls: seq<ToolCall>, ids: set<string>)
    requires calls != []
    ensures CallsFit(role, calls, ids)
            <==> && role == "assistant" && !Blank(calls[0].id) && !Blank(calls[0].name) && calls[0].id !in ids
                 && CallsFit(role, calls[1..], ids + {calls[0].id})
  {
    var rest := calls[1..];
    assert calls == [calls[0]] + rest;
    assert forall call :: call in calls <==> call == calls[0] || call in rest;
    if CallsFit(role, calls, ids) {
      forall call | call in rest ensures call.id != calls[0].id {
        var j :| 0 <= j < |rest| && rest[j] == call;
        assert calls[j + 1] == call;
      }
      forall i, j | 0 <= i < j < |rest| ensures rest[i].id != rest[j].id {
        assert calls[i + 1] == rest[i] && calls[j + 1] == rest[j];
      }
    }
    if calls[0].id !in ids && CallsFit(role, rest, ids + {calls[0].id}) {
      forall i, j | 0 <= i < j < |calls| ensures calls[i].id != calls[j].id {
        assert calls[j] == rest[j - 1] && rest[j - 1] in rest;
        if i > 0 { assert calls[i] == rest[i - 1]; }
      }
    }
  }

  lemma IdsCons(calls: seq<ToolCall>)
    requires calls != []
    ensures OpenAI.CallIds(calls) == {calls[0].id} + OpenAI.CallIds(calls[1..])
  {
    assert calls == [calls[0]] + calls[1..];
  }

  lemma {:induction false} CallsIff(role: Role, calls: seq<ToolCall>, ids: set<string>)
    ensures ValidateCalls(role, calls, ids).Ok? <==> CallsFit(role, calls, ids)
    ensures ValidateCalls(role, calls, ids).Ok? ==> ValidateCalls(role, calls, ids).value == ids + OpenAI.CallIds(calls)
    decreases |calls|
  {
    if calls != [] {
      CallsFitCons(role, calls, ids);
      CallsIff(role, calls[1..], ids + {calls[0].id});
      IdsCons(calls);
    }
  }

  lemma MessageIff(m: Message, ids: set<string>)
    ensures ValidateMessage(m, ids).Ok? <==> MessageFits(m, ids)
    ensures ValidateMessage(m, ids).Ok? ==> ValidateMessage(m, ids).value == ids + OpenAI.CallIds(m.toolCalls)
  {
    CallsIff(m.role, m.toolCalls, ids);
  }

  lemma {:induction false} MessagesIff(messages: seq<Message>, ids: set<string>)
    ensures ValidateMessages(messages, ids).Ok? <==> MessagesFit(messages, ids)
    decreases |messages|
  {
    if messages != [] {
      MessageIff(messages[0], ids);
      MessagesIff(messages[1..], ids + OpenAI.CallIds(messages[0].toolCalls));
    }
  }

  lemma ToolsFitCons(tools: seq<ToolDefinition>, names: set<string>)
    requires tools != []
    ensures ToolsFit(tools) && (forall tool | tool in tools :: tool.name !in names)
            <==> && !Blank(tools[0].name) && tools[0].name !in names && ToolsFit(tools[1..])
                 && forall tool | tool in tools[1..] :: tool.name !in names + {tools[0].name}
  {
    var rest := tools[1..];
    assert tools == [tools[0]] + rest;
    assert forall tool :: tool in tools <==> tool == tools[0] || tool in rest;
    if ToolsFit(tools) {
      forall tool | tool in rest ensures tool.name != tools[0].name {
        var j :| 0 <= j < |rest| && rest[j] == tool;
        assert tools[j + 1] == tool;
      }
      forall i, j | 0 <= i < j < |rest| ensures rest[i].name != rest[j].name {
        assert tools[i + 1] == rest[i] && tools[j + 1] == rest[j];
      }
    }
    if ToolsFit(rest) && forall tool | tool in rest :: tool.name !in names + {tools[0].name} {
      forall i, j | 0 <= i < j < |tools| ensures tools[i].name != tools[j].name {
        assert tools[j] == rest[j - 1] && rest[j - 1] in rest;
        if i > 0 { assert tools[i] == rest[i - 1]; }
      }
    }
  }

  lemma {:induction false} ToolsIff(tools: seq<ToolDefinition>, names: set<string>)
    ensures ValidateTools(tools, names).None? <==> ToolsFit(tools) && forall tool | tool in tools :: tool.name !in names
    decreases |tools|
  {
    if tools != [] {
      ToolsFitCons(tools, names);
      ToolsIff(tools[1..], names + {tools[0].name});
    }
  }

  /** Exactly which conversations can be sent to the bridge, whoever made them. */
  lemma EncodesIff(c: Conversation)
    ensures EncodeBridgeRequest(c).Ok? <==> c.messages != [] && MessagesFit(c.messages, {}) && ToolsFit(c.tools)
  {
    MessagesIff(c.messages, {});
    ToolsIff(c.tools, {});
  }
}
