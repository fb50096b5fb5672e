/** A completion sent as a stream and read back, and the order of the calls in it. */
module StreamCompletion {
  import opened Wrappers
  import opened Json
  import opened JsonIntegers
  import opened Canonical
  import opened CanonicalForm
  import opened Stream
  import Bridge
  import OpenAI
  import Text

  // ---------- The completions that are accepted ----------

  ghost predicate AcceptedForm(c: Completion) {
    && CanonicalCalls(c.toolCalls, {})
    && (Text.Trim(c.content) != "" || c.toolCalls != [])
    && Bridge.IsFinishReason(c.finishReason)
    && (c.toolCalls != [] ==> c.finishReason == "tool_calls")
  }

  lemma AcceptedIsInForm(value: Fields, request: Option<Conversation>)
    requires Bridge.DecodeBridgeCompletion(value, request).Ok?
    ensures AcceptedForm(Bridge.DecodeBridgeCompletion(value, request).value)
  {
    var message := Bridge.CompletionMessage(value);
    if "tool_calls" in message && OpenAI.DecodeToolCalls(message["tool_calls"]).Ok? { ToolCallsCanonical(message["tool_calls"]); }
  }

  // ---------- The assembly of a whole completion ----------

  function CallText(call: ToolCall): Pending {
    Pending(call.id, call.name, Print(Object(call.arguments)))
  }

  function Tools(calls: seq<ToolCall>): map<int, Pending> {
    map i: int | 0 <= i < |calls| :: CallText(calls[i])
  }

  function Whole(c: Completion): Assembly {
    Assembly(c.content, Tools(c.toolCalls), c.finishReason)
  }

  lemma {:induction false} CallDeltasAbsorb(a: Assembly, calls: seq<ToolCall>)
    requires a.tools == map[] && forall call | call in calls :: call.id != "" && call.name != ""
    ensures AbsorbDeltas(a, CallDeltas(calls)) == Ok(a.(tools := Tools(calls)))
    decreases |calls|
  {
    if calls == [] {
      assert Tools(calls) == map[];
    } else {
      var n := |calls| - 1;
      assert calls == calls[..n] + [calls[n]];
      CallDeltasAbsorb(a, calls[..n]);
      DeltasTail(calls, n);
      LastCall(a, calls);
    }
  }

  lemma DeltasTail(calls: seq<ToolCall>, n: nat)
    requires |calls| == n + 1
    ensures |CallDeltas(calls)| == n + 1 && CallDeltas(calls)[..n] == CallDeltas(calls[..n])
  {}

  lemma LastCall(a: Assembly, calls: seq<ToolCall>)
    requires calls != [] && calls[|calls| - 1].id != "" && calls[|calls| - 1].name != ""
    ensures AbsorbDelta(a.(tools := Tools(calls[..|calls| - 1])), CallDeltas(calls)[|calls| - 1]) == Ok(a.(tools := Tools(calls)))
  {
    var n := |calls| - 1;
    var last := Print(Object(calls[n].arguments));
    assert "" + last == last;
    assert n !in Tools(calls[..n]);
    assert Tools(calls) == Tools(calls[..n])[n := CallText(calls[n])];
  }

  lemma FirstAbsorbs(c: Completion)
    requires AcceptedForm(c)
    ensures AbsorbChunk(NOTHING, BufferedChunks(c)[0]) == Ok(Assembly(c.content, Tools(c.toolCalls), ""))
  {
    CallDeltasAbsorb(NOTHING.(content := c.content), c.toolCalls);
    assert "" + c.content == c.content;
  }

  lemma PlainAbsorbs(a: Assembly, chunk: StreamChunk)
    requires chunk.content == "" && chunk.deltas == [] && chunk.error.None? && !Clashes(a.finish, chunk.finishReason)
    ensures AbsorbChunk(a, chunk) == Ok(a.(finish := Stream.Settle(a.finish, chunk.finishReason)))
  {
    assert a.content + "" == a.content;
  }

  lemma AbsorbThree(chunks: seq<StreamChunk>, a: Assembly, b: Assembly, c: Assembly)
    requires |chunks| == 3 && AbsorbChunk(NOTHING, chunks[0]) == Ok(a)
    requires AbsorbChunk(a, chunks[1]) == Ok(b) && AbsorbChunk(b, chunks[2]) == Ok(c)
    ensures AbsorbAll(chunks) == Ok(c)
  {
    var two, one := chunks[..2], chunks[..1];
    assert two[..1] == one && one[..0] == [];
    assert AbsorbAll(one) == Ok(a);
    assert AbsorbAll(two) == Ok(b);
  }

  lemma BufferedAbsorb(c: Completion)
    requires AcceptedForm(c)
    ensures AbsorbAll(BufferedChunks(c)) == Ok(Whole(c))
  {
    var chunks := BufferedChunks(c);
    var first := Assembly(c.content, Tools(c.toolCalls), "");
    FirstAbsorbs(c);
    PlainAbsorbs(first, chunks[1]);
    PlainAbsorbs(Whole(c), chunks[2]);
    AbsorbThree(chunks, first, Whole(c), Whole(c));
  }

  ghost predicate Rising(xs: seq<int>) {
    forall i, j | 0 <= i < j < |xs| :: xs[i] < xs[j]
  }

  lemma RisingTail(xs: seq<int>)
    requires xs != [] && Rising(xs)
    ensures Rising(xs[1..]) && (forall x | x in xs :: xs[0] <= x) && forall x :: x in xs[1..] <==> x in xs && x != xs[0]
  {
    assert xs == [xs[0]] + xs[1..];
    forall x | x in xs ensures xs[0] <= x { var i :| 0 <= i < |xs| && xs[i] == x; }
    forall x | x in xs[1..] ensures x != xs[0] { var i :| 0 <= i < |xs[1..]| && xs[1..][i] == x; }
  }

  /** A set has one ascending enumeration. */
  lemma {:induction false} RisingUnique(xs: seq<int>, ys: seq<int>)
    requires Rising(xs) && Rising(ys) && forall x :: x in xs <==> x in ys
    ensures xs == ys
    decreases |xs|
  {
    assert xs != [] ==> xs[0] in xs;
    assert ys != [] ==> ys[0] in ys;
    if xs != [] {
      RisingTail(xs);
      RisingTail(ys);
      RisingUnique(xs[1..], ys[1..]);
      assert xs == [xs[0]] + xs[1..] && ys == [ys[0]] + ys[1..];
    }
  }

  function CountTo(n: nat): seq<int> {
    seq(n, i => i)
  }

  lemma WholeOrder(calls: seq<ToolCall>)
    ensures SortedIndexes(Tools(calls).Keys) == CountTo(|calls|)
  {
    var order, up := SortedIndexes(Tools(calls).Keys), CountTo(|calls|);
    forall x ensures x in order <==> x in up {
      if 0 <= x < |calls| { assert up[x] == x; }
    }
    RisingUnique(order, up);
  }

  lemma WholeRenders(c: Completion)
    ensures RenderCalls(Tools(c.toolCalls), SortedIndexes(Tools(c.toolCalls).Keys)) == OpenAI.EncodeToolCalls(c.toolCalls)
  {
    WholeOrder(c.toolCalls);
  }

  lemma RenderedFields(a: Assembly)
    ensures var fields := Rendered(a);
            && Get(fields, "message") == Null && Get(fields, "content") == String(a.content)
            && ("tool_calls" in fields <==> a.tools != map[])
            && (a.tools != map[] ==> fields["tool_calls"] == Array(RenderCalls(a.tools, SortedIndexes(a.tools.Keys))))
            && Get(fields, "finish_reason") == if a.finish == "" then Null else String(a.finish)
  {
    var calls := if a.tools == map[] then None else Some(Array(RenderCalls(a.tools, SortedIndexes(a.tools.Keys))));
    ThreeFields(a.content, calls, Bridge.Given(a.finish));
  }

  lemma ThreeFields(content: string, calls: Option<Value>, finish: Option<Value>)
    ensures var fields := Bridge.Put(Bridge.Put(map["content" := String(content)], "tool_calls", calls), "finish_reason", finish);
            && Get(fields, "message") == Null && Get(fields, "content") == String(content)
            && ("tool_calls" in fields <==> calls.Some?) && (calls.Some? ==> fields["tool_calls"] == calls.value)
            && Get(fields, "finish_reason") == Unless(finish)
  {}

  lemma CompletionFrom(fields: Fields, c: Completion)
    requires AcceptedForm(c) && Get(fields, "message") == Null && Get(fields, "content") == String(c.content)
    requires c.toolCalls == [] ==> "tool_calls" !in fields
    requires c.toolCalls != [] ==> "tool_calls" in fields && OpenAI.DecodeToolCalls(fields["tool_calls"]) == Ok(c.toolCalls)
    requires Get(fields, "finish_reason") == String(c.finishReason)
    ensures Bridge.DecodeBridgeCompletion(fields, None) == Ok(c)
  {
    TrimmedValue(c.finishReason);
    assert Bridge.CompletionMessage(fields) == fields;
    assert CanonicalContent(Get(fields, "content")) == c.content;
    if c.toolCalls == [] {
      assert Bridge.FinishReason(fields, []) == c.finishReason;
    } else {
      assert Bridge.FinishReason(fields, c.toolCalls) == c.finishReason;
    }
  }

  lemma WholeDecodes(c: Completion)
    requires AcceptedForm(c)
    ensures Render(Whole(c)) == Ok(c)
  {
    var a := Whole(c);
    RenderedFields(a);
    if c.toolCalls != [] {
      WholeRenders(c);
      CallsRead(c.toolCalls, {});
      assert 0 in a.tools;
    }
    CompletionFrom(Rendered(a), c);
    forall i | i in a.tools ensures Complete(a.tools[i]) { assert c.toolCalls[i] in c.toolCalls; }
  }

  // ---------- Chunks as text ----------

  ghost predicate Sendable(chunk: StreamChunk) {
    && !chunk.done && chunk.error.None?
    && Text.Trimmed(chunk.role) && Text.Trimmed(chunk.finishReason)
    && forall d | d in chunk.deltas :: -MAX_INT64 - 1 <= d.index <= MAX_INT64 && Text.Trimmed(d.id) && Text.Trimmed(d.name)
  }

  lemma DeltaRead(d: ToolCallDelta)
    requires -MAX_INT64 - 1 <= d.index <= MAX_INT64 && Text.Trimmed(d.id) && Text.Trimmed(d.name)
    ensures DecodeDelta(EncodeDelta(d)) == Ok(d)
  {
    IntRoundTrip(d.index);
    TrimmedValue(d.id);
    TrimmedValue(d.name);
  }

  lemma {:induction false} DeltasRead(ds: seq<ToolCallDelta>)
    requires forall d | d in ds :: -MAX_INT64 - 1 <= d.index <= MAX_INT64 && Text.Trimmed(d.id) && Text.Trimmed(d.name)
    ensures DecodeDeltas(EncodeDeltas(ds)) == Ok(ds)
    decreases |ds|
  {
    if ds != [] {
      var n := |ds| - 1;
      assert ds == ds[..n] + [ds[n]];
      DeltasRead(ds[..n]);
      DeltaRead(ds[n]);
      EncodedLast(ds, n);
    }
  }

  lemma EncodedLast(ds: seq<ToolCallDelta>, n: nat)
    requires |ds| == n + 1
    ensures |EncodeDeltas(ds)| == n + 1 && EncodeDeltas(ds)[..n] == EncodeDeltas(ds[..n]) && EncodeDeltas(ds)[n] == EncodeDelta(ds[n])
  {}

  lemma DeltaFieldsRead(chunk: StreamChunk)
    requires Text.Trimmed(chunk.role)
    ensures var fields := DeltaFields(chunk);
            && StringValue(Get(fields, "role")) == chunk.role && RawString(Get(fields, "content")) == chunk.content
            && ("tool_calls" in fields <==> chunk.deltas != [])
            && (chunk.deltas != [] ==> fields["tool_calls"] == Array(EncodeDeltas(chunk.deltas)))
  {}

  lemma ChoiceRead(chunk: StreamChunk)
    requires Sendable(chunk)
    ensures DecodeChoice(ChoiceFields(chunk)) == Ok(chunk)
  {
    DeltaFieldsRead(chunk);
    DeltasRead(chunk.deltas);
    TrimmedValue(chunk.finishReason);
  }

  lemma BodyRead(chunk: StreamChunk, metadata: Metadata)
    requires Sendable(chunk)
    ensures EncodeChunk(chunk, metadata).Ok? && EncodeChunk(chunk, metadata).value.Some?
    ensures DecodeChunkBody(EncodeChunk(chunk, metadata).value.value) == Ok(chunk)
  {
    ChoiceRead(chunk);
    var body := EncodeChunk(chunk, metadata).value.value;
    assert Get(body, "choices") == Array([Object(ChoiceFields(chunk))]);
  }

  /** A chunk written out and read again is the same chunk, and so is the final marker. */
  lemma ChunkRoundTrip(chunk: StreamChunk, metadata: Metadata)
    requires Sendable(chunk) || chunk == DONE_CHUNK
    ensures ChunkText(chunk, metadata).Ok?
    ensures DecodeChunk(ChunkText(chunk, metadata).value) == Ok(chunk)
  {
    if chunk == DONE_CHUNK {
      assert Text.Trimmed(DONE_TEXT);
    } else {
      BodyRead(chunk, metadata);
      var body := EncodeChunk(chunk, metadata).value.value;
      RoundTrip(Object(body));
      PrintTrimmed(Object(body));
      NotDone(body);
    }
  }

  lemma NotDone(body: Fields)
    ensures Print(Object(body)) != DONE_TEXT
  {
    assert Print(Object(body))[0] == '{';
  }

  // ---------- The round trip ----------

  /** The chunks as they are read, one by one, from the texts that were sent. */
  function Received(decode: string -> Result<StreamChunk>, texts: seq<string>): Result<seq<StreamChunk>>
    decreases |texts|
  {
    if texts == [] then Ok([]) else
      var front :- Received(decode, texts[..|texts| - 1]);
      var last :- decode(texts[|texts| - 1]);
      Ok(front + [last])
  }

  lemma {:induction false} AllReceived(decode: string -> Result<StreamChunk>, chunks: seq<StreamChunk>, texts: seq<string>)
    requires |texts| == |chunks| && forall k | 0 <= k < |chunks| :: decode(texts[k]) == Ok(chunks[k])
    ensures Received(decode, texts) == Ok(chunks)
    decreases |chunks|
  {
    if chunks != [] {
      var n := |chunks| - 1;
      AllReceived(decode, chunks[..n], texts[..n]);
      assert chunks == chunks[..n] + [chunks[n]];
    }
  }

  lemma Sent(chunks: seq<StreamChunk>, metadata: Metadata) returns (texts: seq<string>)
    requires forall k | 0 <= k < |chunks| :: Sendable(chunks[k]) || chunks[k] == DONE_CHUNK
    ensures |texts| == |chunks| && forall k | 0 <= k < |chunks| :: ChunkText(chunks[k], metadata) == Ok(texts[k])
  {
    forall k | 0 <= k < |chunks| ensures ChunkText(chunks[k], metadata).Ok? { ChunkRoundTrip(chunks[k], metadata); }
    texts := seq(|chunks|, k requires 0 <= k < |chunks| => ChunkText(chunks[k], metadata).value);
  }

  lemma SentReceived(chunks: seq<StreamChunk>, texts: seq<string>, metadata: Metadata)
    requires |texts| == |chunks| && forall k | 0 <= k < |chunks| :: Sendable(chunks[k]) || chunks[k] == DONE_CHUNK
    requires forall k | 0 <= k < |chunks| :: ChunkText(chunks[k], metadata) == Ok(texts[k])
    ensures Received(DecodeChunk, texts) == Ok(chunks)
  {
    forall k | 0 <= k < |chunks| ensures DecodeChunk(texts[k]) == Ok(chunks[k]) { ChunkRoundTrip(chunks[k], metadata); }
    AllReceived(DecodeChunk, chunks, texts);
  }

  lemma BufferedSendable(c: Completion)
    requires AcceptedForm(c) && |c.toolCalls| <= MAX_INT64
    ensures forall k | 0 <= k < |BufferedChunks(c)| :: Sendable(BufferedChunks(c)[k]) || BufferedChunks(c)[k] == DONE_CHUNK
  {
    forall d | d in CallDeltas(c.toolCalls)
      ensures -MAX_INT64 - 1 <= d.index <= MAX_INT64 && Text.Trimmed(d.id) && Text.Trimmed(d.name)
    {
      assert c.toolCalls[d.index] in c.toolCalls;
    }
  }

  /**
   * The completion stream round trip: every completion that is accepted from the bridge can be sent in chunks,
   * and read back from their texts it is put together again as it was, its content character for character.
   */
  lemma CompletionRoundTrip(value: Fields, request: Option<Conversation>, metadata: Metadata) returns (texts: seq<string>)
    requires Bridge.DecodeBridgeCompletion(value, request).Ok?
    requires |Bridge.DecodeBridgeCompletion(value, request).value.toolCalls| <= MAX_INT64
    ensures var chunks := BufferedChunks(Bridge.DecodeBridgeCompletion(value, request).value);
            |texts| == |chunks| && forall k | 0 <= k < |texts| :: ChunkText(chunks[k], metadata) == Ok(texts[k])
    ensures Received(DecodeChunk, texts).Ok? && Assemble(Received(DecodeChunk, texts).value) == Bridge.DecodeBridgeCompletion(value, request)
  {
    var c := Bridge.DecodeBridgeCompletion(value, request).value;
    AcceptedIsInForm(value, request);
    BufferedSendable(c);
    texts := Sent(BufferedChunks(c), metadata);
    SentReceived(BufferedChunks(c), texts, metadata);
    BufferedAbsorb(c);
    WholeDecodes(c);
  }

  // ---------- The order of the calls ----------

  const ARGUMENTS_INVALID := "AGENT_TOOL_ARGUMENTS_INVALID"

  /** The call is what the value says, field by field. */
  ghost predicate ReadsAs(v: Value, call: ToolCall) {
    && v.Object? && call.id == StringValue(Get(v.fields, "id")) && Get(v.fields, "function").Object?
    && var function_ := Get(v.fields, "function").fields;
       call.name == StringValue(Get(function_, "name"))
       && CanonicalObject(Get(function_, "arguments"), ARGUMENTS_INVALID) == Ok(call.arguments)
  }

  lemma CallListCons(values: seq<Value>, seen: set<string>)
    requires values != [] && OpenAI.DecodeCallList(values, seen).Ok?
    ensures var calls := OpenAI.DecodeCallList(values, seen).value;
            && calls != [] && ReadsAs(values[0], calls[0])
            && OpenAI.DecodeCallList(values[1..], seen + {calls[0].id}) == Ok(calls[1..])
  {
    var call := OpenAI.DecodeToolCall(values[0], seen).value;
    var more := OpenAI.DecodeCallList(values[1..], seen + {call.id}).value;
    assert ([call] + more)[1..] == more;
  }

  lemma {:induction false} CallListPositions(values: seq<Value>, seen: set<string>)
    requires OpenAI.DecodeCallList(values, seen).Ok?
    ensures |OpenAI.DecodeCallList(values, seen).value| == |values|
    ensures forall k | 0 <= k < |values| :: ReadsAs(values[k], OpenAI.DecodeCallList(values, seen).value[k])
    decreases |values|
  {
    if values != [] {
      var calls := OpenAI.DecodeCallList(values, seen).value;
      CallListCons(values, seen);
      CallListPositions(values[1..], seen + {calls[0].id});
      forall k | 0 <= k < |values| ensures ReadsAs(values[k], calls[k]) {
        if k > 0 { assert values[k] == values[1..][k - 1] && calls[k] == calls[1..][k - 1]; }
      }
    }
  }

  lemma CompletionCalls(fields: Fields, values: seq<Value>)
    requires Get(fields, "message") == Null && "tool_calls" in fields && fields["tool_calls"] == Array(values)
    requires Bridge.DecodeBridgeCompletion(fields, None).Ok?
    ensures OpenAI.DecodeCallList(values, {}) == Ok(Bridge.DecodeBridgeCompletion(fields, None).value.toolCalls)
  {}

  lemma NoCalls(fields: Fields)
    requires Get(fields, "message") == Null && "tool_calls" !in fields && Bridge.DecodeBridgeCompletion(fields, None).Ok?
    ensures Bridge.DecodeBridgeCompletion(fields, None).value.toolCalls == []
  {}

  /** The call is what was gathered for it. */
  ghost predicate Gathered(p: Pending, call: ToolCall) {
    && call.id == Text.Trim(p.id) && call.name == Text.Trim(p.name)
    && CanonicalObject(String(p.arguments), ARGUMENTS_INVALID) == Ok(call.arguments)
  }

  lemma RenderedReads(tools: map<int, Pending>, order: seq<int>, k: nat, call: ToolCall)
    requires (forall j | 0 <= j < |order| :: order[j] in tools) && k < |order|
    requires ReadsAs(RenderCalls(tools, order)[k], call)
    ensures Gathered(tools[order[k]], call)
  {}

  /**
   * The calls come out in ascending order of their indexes, whatever order they were streamed in, each with the id,
   * the name and the arguments gathered under its index.
   */
  lemma CallsInOrder(chunks: seq<StreamChunk>)
    requires Assemble(chunks).Ok?
    ensures AbsorbAll(chunks).Ok? && Says(AbsorbAll(chunks).value, chunks)
    ensures var tools := AbsorbAll(chunks).value.tools; var order := SortedIndexes(tools.Keys);
            var calls := Assemble(chunks).value.toolCalls;
            && |calls| == |order| && Rising(order)
            && forall k | 0 <= k < |order| :: order[k] in tools && Gathered(tools[order[k]], calls[k])
  {
    AbsorbsIff(chunks);
    var a := AbsorbAll(chunks).value;
    var order := SortedIndexes(a.tools.Keys);
    RenderedFields(a);
    if a.tools == map[] {
      NoCalls(Rendered(a));
      assert order == [];
    } else {
      var values := RenderCalls(a.tools, order);
      CompletionCalls(Rendered(a), values);
      CallListPositions(values, {});
      var calls := Assemble(chunks).value.toolCalls;
      forall k | 0 <= k < |order| ensures order[k] in a.tools && Gathered(a.tools[order[k]], calls[k]) {
        assert ReadsAs(values[k], calls[k]);
        RenderedReads(a.tools, order, k, calls[k]);
      }
    }
  }
}
