/** Streamed chunks from outside: what is read from them, and what it means when an assembly is refused. */
module StreamRefusals {
  import opened Wrappers
  import opened Json
  import opened JsonIntegers
  import opened Canonical
  import opened Stream
  import Text

  // ---------- Reading a chunk ----------

  /** The first choice and what it adds; a delta that is no object adds nothing. */
  function FirstChoice(body: Fields): Fields {
    var choices := Get(body, "choices");
    if choices.Array? && choices.items != [] && choices.items[0].Object? then choices.items[0].fields else map[]
  }

  function DeltaOf(body: Fields): Fields {
    var delta := Get(FirstChoice(body), "delta");
    if delta.Object? then delta.fields else map[]
  }

  ghost predicate HasChoice(body: Fields) {
    var choices := Get(body, "choices");
    choices.Array? && choices.items != [] && choices.items[0].Object?
  }

  /** Calls, where there are any, are a list of objects. */
  ghost predicate CallsListed(delta: Fields) {
    "tool_calls" in delta ==> delta["tool_calls"].Array? && forall call | call in delta["tool_calls"].items :: call.Object?
  }

  ghost predicate ReadsDelta(raw: Value, d: ToolCallDelta) {
    && raw.Object?
    && d.index == IntValue(Get(raw.fields, "index")) && d.id == StringValue(Get(raw.fields, "id"))
    && var named := Get(raw.fields, "function");
    && d.name == (if named.Object? then StringValue(Get(named.fields, "name")) else "")
    && d.arguments == (if named.Object? then RawString(Get(named.fields, "arguments")) else "")
  }

  ghost predicate ReadsDeltas(raws: seq<Value>, ds: seq<ToolCallDelta>) {
    |ds| == |raws| && forall i | 0 <= i < |raws| :: ReadsDelta(raws[i], ds[i])
  }

  lemma {:induction false} DeltasRead(raws: seq<Value>)
    ensures DecodeDeltas(raws).Ok? <==> forall raw | raw in raws :: raw.Object?
    ensures DecodeDeltas(raws).Ok? ==> ReadsDeltas(raws, DecodeDeltas(raws).value)
    ensures DecodeDeltas(raws).Err? ==> DecodeDeltas(raws).code == "AGENT_STREAM_TOOL_CALL_INVALID"
    decreases |raws|
  {
    if raws != [] {
      var n := |raws| - 1;
      DeltasRead(raws[..n]);
      assert raws == raws[..n] + [raws[n]];
      DeltaReads(raws[n]);
    }
  }

  lemma DeltaReads(raw: Value)
    ensures DecodeDelta(raw).Ok? <==> raw.Object?
    ensures raw.Object? ==> ReadsDelta(raw, DecodeDelta(raw).value)
    ensures !raw.Object? ==> DecodeDelta(raw) == Err("AGENT_STREAM_TOOL_CALL_INVALID")
  {}

  /** What is read: role and finish reason trimmed, content and arguments as they are, the calls in their order. */
  ghost predicate ReadsChunk(body: Fields, chunk: StreamChunk) {
    var delta := DeltaOf(body);
    && chunk.role == StringValue(Get(delta, "role")) && chunk.content == RawString(Get(delta, "content"))
    && chunk.finishReason == StringValue(Get(FirstChoice(body), "finish_reason")) && !chunk.done && chunk.error == None
    && (if "tool_calls" in delta && delta["tool_calls"].Array? then ReadsDeltas(delta["tool_calls"].items, chunk.deltas)
        else chunk.deltas == [])
  }

  lemma BodyReads(body: Fields)
    ensures DecodeChunkBody(body).Ok? <==> HasChoice(body) && CallsListed(DeltaOf(body))
    ensures DecodeChunkBody(body).Ok? ==> ReadsChunk(body, DecodeChunkBody(body).value)
    ensures DecodeChunkBody(body).Err? ==>
              DecodeChunkBody(body).code == if HasChoice(body) then "AGENT_STREAM_TOOL_CALL_INVALID" else "AGENT_STREAM_CHUNK_INVALID"
  {
    var delta := DeltaOf(body);
    if "tool_calls" in delta && delta["tool_calls"].Array? { DeltasRead(delta["tool_calls"].items); }
  }

  /** Exactly which texts are chunks, and what is read from them, whoever wrote them. */
  lemma ChunkIff(payload: string)
    ensures Text.Trim(payload) == "[DONE]" ==> DecodeChunk(payload) == Ok(DONE_CHUNK)
    ensures Text.Trim(payload) != "[DONE]" && (Parse(payload).None? || !Parse(payload).value.Object?) ==>
              DecodeChunk(payload) == Err("AGENT_STREAM_CHUNK_INVALID")
    ensures Text.Trim(payload) != "[DONE]" && Parse(payload).Some? && Parse(payload).value.Object? ==>
              var body := Parse(payload).value.fields;
              if HasChoice(body) && CallsListed(DeltaOf(body)) then DecodeChunk(payload).Ok? && ReadsChunk(body, DecodeChunk(payload).value)
              else DecodeChunk(payload) == Err(if HasChoice(body) then "AGENT_STREAM_TOOL_CALL_INVALID" else "AGENT_STREAM_CHUNK_INVALID")
  {
    if Parse(payload).Some? && Parse(payload).value.Object? { BodyReads(Parse(payload).value.fields); }
  }

  // ---------- What a refusal means ----------

  /** The code tells the truth about the calls. */
  ghost predicate CallsRefused(ds: seq<ToolCallDelta>, code: string) {
    || (code == "AGENT_STREAM_TOOL_CALL_INVALID" && exists d :: d in ds && d.index < 0)
    || (code == "AGENT_STREAM_TOOL_CALL_CONFLICT" && exists d :: d in ds && !(AtMostOne(IdsAt(ds, d.index)) && AtMostOne(NamesAt(ds, d.index))))
  }

  /** The code is that of a chunk's own error, or tells what was said in two ways. */
  ghost predicate Refused(chunks: seq<StreamChunk>, code: string) {
    || (exists chunk :: chunk in chunks && chunk.error == Some(code))
    || (code == "AGENT_STREAM_FINISH_REASON_CONFLICT" && !AtMostOne(Reasons(chunks)))
    || CallsRefused(Deltas(chunks), code)
  }

  lemma CallsStillRefused(ds: seq<ToolCallDelta>, more: seq<ToolCallDelta>, code: string)
    requires CallsRefused(ds, code)
    ensures CallsRefused(ds + more, code)
  {
    if code == "AGENT_STREAM_TOOL_CALL_INVALID" {
      var d :| d in ds && d.index < 0;
      assert d in ds + more;
    } else {
      var d :| d in ds && !(AtMostOne(IdsAt(ds, d.index)) && AtMostOne(NamesAt(ds, d.index)));
      assert d in ds + more && IdsAt(ds, d.index) <= IdsAt(ds + more, d.index) && NamesAt(ds, d.index) <= NamesAt(ds + more, d.index);
    }
  }

  lemma DeltaRefused(a: Assembly, ds: seq<ToolCallDelta>, d: ToolCallDelta)
    requires SaysCalls(a.tools, ds) && NoClash(ds) && AbsorbDelta(a, d).Err?
    ensures CallsRefused(ds + [d], AbsorbDelta(a, d).code)
  {
    var p := PendingAt(a, d.index);
    PendingSays(a, ds, d.index);
    SaidMore(ds, d, d.index);
    OneMore(IdsAt(ds, d.index), p.id, d.id);
    OneMore(NamesAt(ds, d.index), p.name, d.name);
    assert d in ds + [d];
  }

  lemma {:induction false} DeltasRefused(a: Assembly, said: seq<ToolCallDelta>, ds: seq<ToolCallDelta>)
    requires SaysCalls(a.tools, said) && NoClash(said) && AbsorbDeltas(a, ds).Err?
    ensures CallsRefused(said + ds, AbsorbDeltas(a, ds).code)
    decreases |ds|
  {
    if ds != [] {
      var n := |ds| - 1;
      assert said + ds == (said + ds[..n]) + [ds[n]];
      if AbsorbDeltas(a, ds[..n]).Ok? {
        DeltasSay(a, said, ds[..n]);
        DeltaRefused(AbsorbDeltas(a, ds[..n]).value, said + ds[..n], ds[n]);
      } else {
        DeltasRefused(a, said, ds[..n]);
        CallsStillRefused(said + ds[..n], [ds[n]], AbsorbDeltas(a, ds[..n]).code);
      }
    }
  }

  lemma StillRefused(front: seq<StreamChunk>, last: StreamChunk, code: string)
    requires Refused(front, code)
    ensures Refused(front + [last], code)
  {
    var chunks := front + [last];
    SaysLast(chunks);
    assert chunks[..|chunks| - 1] == front;
    if chunk :| chunk in front && chunk.error == Some(code) {
      assert chunk in chunks;
    } else if CallsRefused(Deltas(front), code) {
      CallsStillRefused(Deltas(front), last.deltas, code);
    } else {
      assert Reasons(front) <= Reasons(chunks);
    }
  }

  lemma ChunkRefused(a: Assembly, front: seq<StreamChunk>, last: StreamChunk)
    requires Says(a, front) && ConflictFree(front) && AbsorbChunk(a, last).Err?
    ensures Refused(front + [last], AbsorbChunk(a, last).code)
  {
    var chunks := front + [last];
    SaysLast(chunks);
    assert chunks[..|chunks| - 1] == front && last in chunks;
    OneMore(Reasons(front), a.finish, last.finishReason);
    if last.error.None? && !Clashes(a.finish, last.finishReason) {
      DeltasRefused(a.(content := a.content + last.content, finish := Settle(a.finish, last.finishReason)), Deltas(front), last.deltas);
    }
  }

  /** A refused list of chunks is refused for what it says: the code names an error or a conflict that is there. */
  lemma {:induction false} RefusalIsTrue(chunks: seq<StreamChunk>)
    requires AbsorbAll(chunks).Err?
    ensures Assemble(chunks) == Err(AbsorbAll(chunks).code) && Refused(chunks, AbsorbAll(chunks).code)
    decreases |chunks|
  {
    if chunks != [] {
      var front, last := chunks[..|chunks| - 1], chunks[|chunks| - 1];
      assert chunks == front + [last];
      if AbsorbAll(front).Ok? {
        AbsorbsIff(front);
        ChunkRefused(AbsorbAll(front).value, front, last);
      } else {
        RefusalIsTrue(front);
        StillRefused(front, last, AbsorbAll(front).code);
      }
    }
  }

  /** Chunks without conflict are refused as incomplete where a call has no id or no name. */
  lemma IncompleteRefused(chunks: seq<StreamChunk>, d: ToolCallDelta)
    requires ConflictFree(chunks) && d in Deltas(chunks)
    requires (forall id | id in IdsAt(Deltas(chunks), d.index) :: Text.Trim(id) == "")
             || (forall name | name in NamesAt(Deltas(chunks), d.index) :: Text.Trim(name) == "")
    ensures Assemble(chunks) == Err("AGENT_STREAM_TOOL_CALL_INCOMPLETE")
  {
    AbsorbsIff(chunks);
    var a := AbsorbAll(chunks).value;
    assert d.index in Indexes(Deltas(chunks));
    assert SaysCall(a.tools[d.index], Deltas(chunks), d.index);
    var p := a.tools[d.index];
    if p.id != "" { assert p.id in IdsAt(Deltas(chunks), d.index); }
    if p.name != "" { assert p.name in NamesAt(Deltas(chunks), d.index); }
    assert Text.Trim("") == "";
    assert !Complete(p);
  }
}
