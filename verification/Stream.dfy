/** Streamed completions: encoding chunks, decoding them, and putting a completion together from its pieces. */
module Stream {
  import opened Wrappers
  import opened Json
  import opened JsonIntegers
  import opened Canonical
  import Bridge
  import OpenAI
  import Text

  // ---------- Chunks as JSON ----------

  datatype Metadata = Metadata(id: string, model: string, created: int)

  function EncodeDelta(d: ToolCallDelta): Value {
    Object(map["index" := Number(IntToken(d.index)), "id" := String(d.id), "type" := String("function"),
               "function" := Object(map["name" := String(d.name), "arguments" := String(d.arguments)])])
  }

  function EncodeDeltas(ds: seq<ToolCallDelta>): seq<Value> {
    seq(|ds|, i requires 0 <= i < |ds| => EncodeDelta(ds[i]))
  }

  function DeltaFields(chunk: StreamChunk): Fields {
    Bridge.Put(Bridge.Put(Bridge.Put(map[], "role", Bridge.Given(chunk.role)), "content", Bridge.Given(chunk.content)),
               "tool_calls", if chunk.deltas == [] then None else Some(Array(EncodeDeltas(chunk.deltas))))
  }

  function ChoiceFields(chunk: StreamChunk): Fields {
    map["index" := Number(IntToken(0)), "delta" := Object(DeltaFields(chunk)),
        "finish_reason" := if chunk.finishReason == "" then Null else String(chunk.finishReason)]
  }

  /** The body of a chunk; the final marker has none. */
  function EncodeChunk(chunk: StreamChunk, metadata: Metadata): Result<Option<Fields>> {
    if chunk.done then Ok(None)
    else if chunk.error.Some? then Err(chunk.error.value)
    else Ok(Some(map["id" := String("chatcmpl-" + Text.TrimPrefix(metadata.id, "request_")),
                     "object" := String("chat.completion.chunk"), "created" := Number(IntToken(metadata.created)),
                     "model" := String(metadata.model), "choices" := Array([Object(ChoiceFields(chunk))])]))
  }

  const DONE_TEXT := "[DONE]"

  /** The data of one server-sent event. */
  function ChunkText(chunk: StreamChunk, metadata: Metadata): Result<string> {
    if chunk.done then Ok(DONE_TEXT) else
      var body :- EncodeChunk(chunk, metadata);
      match body case None => Ok(DONE_TEXT) case Some(fields) => Ok(Print(Object(fields)))
  }

  function FieldsOf(v: Value): Fields {
    if v.Object? then v.fields else map[]
  }

  function DecodeDelta(raw: Value): Result<ToolCallDelta> {
    if !raw.Object? then Err("AGENT_STREAM_TOOL_CALL_INVALID") else
      var function_ := FieldsOf(Get(raw.fields, "function"));
      Ok(ToolCallDelta(IntValue(Get(raw.fields, "index")), StringValue(Get(raw.fields, "id")),
                       StringValue(Get(function_, "name")), RawString(Get(function_, "arguments"))))
  }

  function DecodeDeltas(raws: seq<Value>): Result<seq<ToolCallDelta>>
    decreases |raws|
  {
    if raws == [] then Ok([]) else
      var front :- DecodeDeltas(raws[..|raws| - 1]);
      var last :- DecodeDelta(raws[|raws| - 1]);
      Ok(front + [last])
  }

  function DecodeChoice(choice: Fields): Result<StreamChunk> {
    var delta := FieldsOf(Get(choice, "delta"));
    var deltas :- if "tool_calls" !in delta then Ok([])
                  else if !delta["tool_calls"].Array? then Err("AGENT_STREAM_TOOL_CALL_INVALID")
                  else DecodeDeltas(delta["tool_calls"].items);
    Ok(StreamChunk(StringValue(Get(delta, "role")), RawString(Get(delta, "content")), deltas,
                   StringValue(Get(choice, "finish_reason")), false, None))
  }

  function DecodeChunkBody(body: Fields): Result<StreamChunk> {
    var choices := Get(body, "choices");
    if !choices.Array? || choices.items == [] || !choices.items[0].Object? then Err("AGENT_STREAM_CHUNK_INVALID")
    else DecodeChoice(choices.items[0].fields)
  }

  const DONE_CHUNK := StreamChunk("", "", [], "", true, None)

  function DecodeChunk(payload: string): Result<StreamChunk> {
    if Text.Trim(payload) == DONE_TEXT then Ok(DONE_CHUNK)
    else match ParseObject(payload)
      case None => Err("AGENT_STREAM_CHUNK_INVALID")
      case Some(body) => DecodeChunkBody(body)
  }

  /** The completed answer as the three chunks it is sent in. */
  function BufferedChunks(c: Completion): seq<StreamChunk> {
    [StreamChunk(ROLE_ASSISTANT, c.content, CallDeltas(c.toolCalls), "", false, None),
     StreamChunk("", "", [], c.finishReason, false, None), DONE_CHUNK]
  }

  function CallDeltas(calls: seq<ToolCall>): seq<ToolCallDelta> {
    seq(|calls|, i requires 0 <= i < |calls| =>
      ToolCallDelta(i, calls[i].id, calls[i].name, Print(Object(calls[i].arguments))))
  }

  // ---------- Assembly ----------

  datatype Pending = Pending(id: string, name: string, arguments: string)

  datatype Assembly = Assembly(content: string, tools: map<int, Pending>, finish: string)

  const NOTHING := Assembly("", map[], "")

  /** A value given twice must be the same. */
  predicate Clashes(known: string, given: string) {
    given != "" && known != "" && known != given
  }

  function Settle(known: string, given: string): string {
    if given != "" then given else known
  }

  function PendingAt(a: Assembly, index: int): Pending {
    if index in a.tools then a.tools[index] else Pending("", "", "")
  }

  function AbsorbDelta(a: Assembly, d: ToolCallDelta): Result<Assembly> {
    var p := PendingAt(a, d.index);
    if d.index < 0 then Err("AGENT_STREAM_TOOL_CALL_INVALID")
    else if Clashes(p.id, d.id) || Clashes(p.name, d.name) then Err("AGENT_STREAM_TOOL_CALL_CONFLICT")
    else Ok(a.(tools := a.tools[d.index := Pending(Settle(p.id, d.id), Settle(p.name, d.name), p.arguments + d.arguments)]))
  }

  function AbsorbDeltas(a: Assembly, ds: seq<ToolCallDelta>): Result<Assembly>
    decreases |ds|
  {
    if ds == [] then Ok(a) else
      var before :- AbsorbDeltas(a, ds[..|ds| - 1]);
      AbsorbDelta(before, ds[|ds| - 1])
  }

  function AbsorbChunk(a: Assembly, chunk: StreamChunk): Result<Assembly> {
    if chunk.error.Some? then Err(chunk.error.value)
    else if Clashes(a.finish, chunk.finishReason) then Err("AGENT_STREAM_FINISH_REASON_CONFLICT")
    else AbsorbDeltas(a.(content := a.content + chunk.content, finish := Settle(a.finish, chunk.finishReason)), chunk.deltas)
  }

  function AbsorbAll(chunks: seq<StreamChunk>): Result<Assembly>
    decreases |chunks|
  {
    if chunks == [] then Ok(NOTHING) else
      var before :- AbsorbAll(chunks[..|chunks| - 1]);
      AbsorbChunk(before, chunks[|chunks| - 1])
  }

  predicate IsLeast(x: int, xs: set<int>) {
    x in xs && forall y | y in xs :: x <= y
  }

  lemma Pick<T>(s: set<T>) returns (x: T)
    requires s != {}
    ensures x in s
  {
    x :| x in s;
  }

  lemma {:induction false} LeastExists(xs: set<int>) returns (least: int)
    requires xs != {}
    ensures IsLeast(least, xs)
    decreases |xs|
  {
    var x := Pick(xs);
    least := x;
    if xs - {x} != {} {
      var y := LeastExists(xs - {x});
      least := if y < x then y else x;
      forall z | z in xs ensures least <= z {
        if z != x { assert z in xs - {x}; }
      }
    } else {
      assert xs == {x};
    }
  }

  lemma OneLeast(xs: set<int>)
    requires xs != {}
    ensures exists x :: x in xs && IsLeast(x, xs)
  {
    var _ := LeastExists(xs);
  }

  /** sort.Ints on distinct integers. */
  function SortedIndexes(xs: set<int>): (r: seq<int>)
    ensures forall x :: x in r <==> x in xs
    ensures |r| == |xs| && forall i, j | 0 <= i < j < |r| :: r[i] < r[j]
    decreases |xs|
  {
    if xs == {} then [] else
      OneLeast(xs);
      var x :| x in xs && IsLeast(x, xs);
      [x] + SortedIndexes(xs - {x})
  }

  predicate Complete(p: Pending) {
    Text.Trim(p.id) != "" && Text.Trim(p.name) != ""
  }

  function RenderCall(p: Pending): Value {
    Object(map["id" := String(p.id), "type" := String("function"),
               "function" := Object(map["name" := String(p.name), "arguments" := String(p.arguments)])])
  }

  function RenderCalls(tools: map<int, Pending>, order: seq<int>): seq<Value>
    requires forall k | 0 <= k < |order| :: order[k] in tools
  {
    seq(|order|, k requires 0 <= k < |order| => RenderCall(tools[order[k]]))
  }

  /** The assembled pieces as a bridge completion. */
  function Rendered(a: Assembly): Fields {
    Bridge.Put(Bridge.Put(map["content" := String(a.content)],
                          "tool_calls", if a.tools == map[] then None
                                        else Some(Array(RenderCalls(a.tools, SortedIndexes(a.tools.Keys))))),
               "finish_reason", Bridge.Given(a.finish))
  }

  function Render(a: Assembly): Result<Completion> {
    if exists i | i in a.tools :: !Complete(a.tools[i]) then Err("AGENT_STREAM_TOOL_CALL_INCOMPLETE")
    else Bridge.DecodeBridgeCompletion(Rendered(a), None)
  }

  function Assemble(chunks: seq<StreamChunk>): Result<Completion> {
    var a :- AbsorbAll(chunks);
    Render(a)
  }

  // ---------- What a list of chunks says ----------

  function Content(chunks: seq<StreamChunk>): string
    decreases |chunks|
  {
    if chunks == [] then "" else Content(chunks[..|chunks| - 1]) + chunks[|chunks| - 1].content
  }

  function Deltas(chunks: seq<StreamChunk>): seq<ToolCallDelta>
    decreases |chunks|
  {
    if chunks == [] then [] else Deltas(chunks[..|chunks| - 1]) + chunks[|chunks| - 1].deltas
  }

  function Reasons(chunks: seq<StreamChunk>): set<string> {
    set chunk | chunk in chunks && chunk.finishReason != "" :: chunk.finishReason
  }

  function Indexes(ds: seq<ToolCallDelta>): set<int> {
    set d | d in ds :: d.index
  }

  function IdsAt(ds: seq<ToolCallDelta>, index: int): set<string> {
    set d | d in ds && d.index == index && d.id != "" :: d.id
  }

  function NamesAt(ds: seq<ToolCallDelta>, index: int): set<string> {
    set d | d in ds && d.index == index && d.name != "" :: d.name
  }

  function ArgumentsAt(ds: seq<ToolCallDelta>, index: int): string
    decreases |ds|
  {
    if ds == [] then "" else
      ArgumentsAt(ds[..|ds| - 1], index) + if ds[|ds| - 1].index == index then ds[|ds| - 1].arguments else ""
  }

  ghost predicate AtMostOne(s: set<string>) {
    forall x, y | x in s && y in s :: x == y
  }

  ghost predicate NoClash(ds: seq<ToolCallDelta>) {
    && (forall d | d in ds :: d.index >= 0)
    && forall d | d in ds :: AtMostOne(IdsAt(ds, d.index)) && AtMostOne(NamesAt(ds, d.index))
  }

  /** No chunk reports an error, and nothing is said in two ways. */
  ghost predicate ConflictFree(chunks: seq<StreamChunk>) {
    && (forall chunk | chunk in chunks :: chunk.error.None?)
    && AtMostOne(Reasons(chunks)) && NoClash(Deltas(chunks))
  }

  ghost predicate IsOne(s: set<string>, x: string) {
    if x == "" then s == {} else s == {x}
  }

  ghost predicate SaysCall(p: Pending, ds: seq<ToolCallDelta>, index: int) {
    && IsOne(IdsAt(ds, index), p.id) && IsOne(NamesAt(ds, index), p.name)
    && p.arguments == ArgumentsAt(ds, index)
  }

  ghost predicate SaysCalls(tools: map<int, Pending>, ds: seq<ToolCallDelta>) {
    && tools.Keys == Indexes(ds)
    && forall i | i in tools :: i >= 0 && SaysCall(tools[i], ds, i)
  }

  /** The assembly says just what the chunks say. */
  ghost predicate Says(a: Assembly, chunks: seq<StreamChunk>) {
    a.content == Content(chunks) && IsOne(Reasons(chunks), a.finish) && SaysCalls(a.tools, Deltas(chunks))
  }

  // ---------- Absorbing chunks reads what they say ----------

  lemma OneMore(s: set<string>, x: string, given: string)
    requires IsOne(s, x)
    ensures var t := if given == "" then s else s + {given};
            (AtMostOne(t) <==> !Clashes(x, given)) && (!Clashes(x, given) ==> IsOne(t, Settle(x, given)))
  {
    if Clashes(x, given) { assert x in s + {given} && given in s + {given}; }
  }

  lemma SaidMore(ds: seq<ToolCallDelta>, d: ToolCallDelta, index: int)
    ensures IdsAt(ds + [d], index) == if index == d.index && d.id != "" then IdsAt(ds, index) + {d.id} else IdsAt(ds, index)
    ensures NamesAt(ds + [d], index) == if index == d.index && d.name != "" then NamesAt(ds, index) + {d.name} else NamesAt(ds, index)
    ensures ArgumentsAt(ds + [d], index) == ArgumentsAt(ds, index) + if index == d.index then d.arguments else ""
    ensures Indexes(ds + [d]) == Indexes(ds) + {d.index}
  {
    assert (ds + [d])[..|ds|] == ds;
    assert forall e :: e in ds + [d] <==> e in ds || e == d;
  }

  lemma Unsaid(ds: seq<ToolCallDelta>, index: int)
    requires index !in Indexes(ds)
    ensures IdsAt(ds, index) == {} && NamesAt(ds, index) == {} && ArgumentsAt(ds, index) == ""
  {
    forall d | d in ds ensures d.index != index { assert d.index in Indexes(ds); }
    UnsaidArguments(ds, index);
  }

  lemma {:induction false} UnsaidArguments(ds: seq<ToolCallDelta>, index: int)
    requires forall d | d in ds :: d.index != index
    ensures ArgumentsAt(ds, index) == ""
    decreases |ds|
  {
    if ds != [] { UnsaidArguments(ds[..|ds| - 1], index); }
  }

  lemma PendingSays(a: Assembly, ds: seq<ToolCallDelta>, index: int)
    requires SaysCalls(a.tools, ds)
    ensures SaysCall(PendingAt(a, index), ds, index)
  {
    if index !in a.tools { Unsaid(ds, index); }
  }

  /** One more delta is refused exactly when it clashes with what was said before. */
  lemma DeltaSays(a: Assembly, ds: seq<ToolCallDelta>, d: ToolCallDelta)
    requires SaysCalls(a.tools, ds) && NoClash(ds)
    ensures AbsorbDelta(a, d).Ok? <==> NoClash(ds + [d])
    ensures AbsorbDelta(a, d).Ok? ==> SaysCalls(AbsorbDelta(a, d).value.tools, ds + [d])
  {
    var p := PendingAt(a, d.index);
    PendingSays(a, ds, d.index);
    SaidMore(ds, d, d.index);
    OneMore(IdsAt(ds, d.index), p.id, d.id);
    OneMore(NamesAt(ds, d.index), p.name, d.name);
    if AbsorbDelta(a, d).Ok? {
      DeltaSaysCalls(a, ds, d);
      forall e | e in ds + [d] ensures AtMostOne(IdsAt(ds + [d], e.index)) && AtMostOne(NamesAt(ds + [d], e.index)) {
        SaidMore(ds, d, e.index);
      }
    } else {
      assert d in ds + [d];
    }
  }

  lemma DeltaSaysCalls(a: Assembly, ds: seq<ToolCallDelta>, d: ToolCallDelta)
    requires SaysCalls(a.tools, ds) && AbsorbDelta(a, d).Ok?
    ensures SaysCalls(AbsorbDelta(a, d).value.tools, ds + [d])
  {
    var after := AbsorbDelta(a, d).value.tools;
    var p := PendingAt(a, d.index);
    PendingSays(a, ds, d.index);
    SaidMore(ds, d, d.index);
    OneMore(IdsAt(ds, d.index), p.id, d.id);
    OneMore(NamesAt(ds, d.index), p.name, d.name);
    forall i | i in after ensures i >= 0 && SaysCall(after[i], ds + [d], i) { SaidMore(ds, d, i); }
  }

  lemma {:induction false} NoClashPrefix(ds: seq<ToolCallDelta>, more: seq<ToolCallDelta>)
    requires NoClash(ds + more)
    ensures NoClash(ds)
  {
    forall d | d in ds ensures d.index >= 0 && AtMostOne(IdsAt(ds, d.index)) && AtMostOne(NamesAt(ds, d.index)) {
      assert d in ds + more;
      assert IdsAt(ds, d.index) <= IdsAt(ds + more, d.index) && NamesAt(ds, d.index) <= NamesAt(ds + more, d.index);
    }
  }

  lemma {:induction false} DeltasSay(a: Assembly, said: seq<ToolCallDelta>, ds: seq<ToolCallDelta>)
    requires SaysCalls(a.tools, said) && NoClash(said)
    ensures AbsorbDeltas(a, ds).Ok? <==> NoClash(said + ds)
    ensures AbsorbDeltas(a, ds).Ok? ==>
              && SaysCalls(AbsorbDeltas(a, ds).value.tools, said + ds)
              && AbsorbDeltas(a, ds).value.content == a.content && AbsorbDeltas(a, ds).value.finish == a.finish
    decreases |ds|
  {
    if ds == [] {
      assert said + ds == said;
    } else {
      var n := |ds| - 1;
      DeltasSay(a, said, ds[..n]);
      assert said + ds == (said + ds[..n]) + [ds[n]];
      if AbsorbDeltas(a, ds[..n]).Ok? {
        DeltaSays(AbsorbDeltas(a, ds[..n]).value, said + ds[..n], ds[n]);
      } else if NoClash(said + ds) {
        NoClashPrefix(said + ds[..n], [ds[n]]);
      }
    }
  }

  lemma SaysLast(chunks: seq<StreamChunk>)
    requires chunks != []
    ensures var front, last := chunks[..|chunks| - 1], chunks[|chunks| - 1];
            && Content(chunks) == Content(front) + last.content && Deltas(chunks) == Deltas(front) + last.deltas
            && Reasons(chunks) == (if last.finishReason == "" then Reasons(front) else Reasons(front) + {last.finishReason})
            && (ConflictFree(chunks) <==>
                  (forall chunk | chunk in front :: chunk.error.None?) && last.error.None?
                  && AtMostOne(Reasons(chunks)) && NoClash(Deltas(chunks)))
  {
    var front, last := chunks[..|chunks| - 1], chunks[|chunks| - 1];
    assert chunks == front + [last];
    assert forall chunk :: chunk in chunks <==> chunk in front || chunk == last;
  }

  lemma ChunkSays(a: Assembly, front: seq<StreamChunk>, last: StreamChunk)
    requires Says(a, front) && ConflictFree(front)
    ensures AbsorbChunk(a, last).Ok? <==> ConflictFree(front + [last])
    ensures AbsorbChunk(a, last).Ok? ==> Says(AbsorbChunk(a, last).value, front + [last])
  {
    var chunks := front + [last];
    SaysLast(chunks);
    assert chunks[..|chunks| - 1] == front;
    OneMore(Reasons(front), a.finish, last.finishReason);
    DeltasSay(a.(content := a.content + last.content, finish := Settle(a.finish, last.finishReason)), Deltas(front), last.deltas);
  }

  lemma ConflictFreePrefix(front: seq<StreamChunk>, last: StreamChunk)
    requires ConflictFree(front + [last])
    ensures ConflictFree(front)
  {
    var chunks := front + [last];
    SaysLast(chunks);
    assert chunks[..|chunks| - 1] == front;
    NoClashPrefix(Deltas(front), last.deltas);
    assert Reasons(front) <= Reasons(chunks);
  }

  /** Chunks are refused exactly when they conflict; otherwise the assembly says just what they say. */
  lemma {:induction false} AbsorbsIff(chunks: seq<StreamChunk>)
    ensures AbsorbAll(chunks).Ok? <==> ConflictFree(chunks)
    ensures AbsorbAll(chunks).Ok? ==> Says(AbsorbAll(chunks).value, chunks)
    decreases |chunks|
  {
    if chunks != [] {
      var front, last := chunks[..|chunks| - 1], chunks[|chunks| - 1];
      assert chunks == front + [last];
      AbsorbsIff(front);
      if AbsorbAll(front).Ok? {
        ChunkSays(AbsorbAll(front).value, front, last);
      } else if ConflictFree(chunks) {
        ConflictFreePrefix(front, last);
      }
    }
  }

  // ---------- Chunking does not matter ----------

  /** Two lists of chunks that say the same, however it is cut up and interleaved. */
  ghost predicate SaysSame(a: seq<StreamChunk>, b: seq<StreamChunk>) {
    && Content(a) == Content(b) && Reasons(a) == Reasons(b)
    && CallsSame(Deltas(a), Deltas(b))
    && ((exists chunk :: chunk in a && chunk.error.Some?) <==> (exists chunk :: chunk in b && chunk.error.Some?))
  }

  ghost predicate CallsSame(ds: seq<ToolCallDelta>, es: seq<ToolCallDelta>) {
    && Indexes(ds) == Indexes(es)
    && forall i | i in Indexes(ds) ::
         IdsAt(ds, i) == IdsAt(es, i) && NamesAt(ds, i) == NamesAt(es, i) && ArgumentsAt(ds, i) == ArgumentsAt(es, i)
  }

  lemma SaysUnique(a: Assembly, b: Assembly, chunks: seq<StreamChunk>, other: seq<StreamChunk>)
    requires Says(a, chunks) && Says(b, other) && SaysSame(chunks, other)
    ensures a == b
  {
    forall i | i in a.tools ensures a.tools[i] == b.tools[i] {
      assert SaysCall(a.tools[i], Deltas(chunks), i) && SaysCall(b.tools[i], Deltas(other), i);
    }
    assert a.tools == b.tools;
  }

  lemma NoClashSame(ds: seq<ToolCallDelta>, es: seq<ToolCallDelta>)
    requires CallsSame(ds, es) && NoClash(ds)
    ensures NoClash(es)
  {
    forall e | e in es ensures e.index >= 0 && AtMostOne(IdsAt(es, e.index)) && AtMostOne(NamesAt(es, e.index)) {
      assert e.index in Indexes(es);
      var d :| d in ds && d.index == e.index;
    }
  }

  /** What says the same conflicts alike. */
  lemma SameConflicts(a: seq<StreamChunk>, b: seq<StreamChunk>)
    requires SaysSame(a, b)
    ensures ConflictFree(a) <==> ConflictFree(b)
  {
    if NoClash(Deltas(a)) { NoClashSame(Deltas(a), Deltas(b)); }
    if NoClash(Deltas(b)) { NoClashSame(Deltas(b), Deltas(a)); }
  }

  /**
   * Re-chunking does not matter: whatever the chunks, any other list that says the same conflicts exactly when
   * they do, and otherwise assembles to the same completion.
   */
  lemma RechunkingInvariant(a: seq<StreamChunk>, b: seq<StreamChunk>)
    requires SaysSame(a, b)
    ensures ConflictFree(a) <==> ConflictFree(b)
    ensures ConflictFree(a) ==> Assemble(a) == Assemble(b)
  {
    SameConflicts(a, b);
    AbsorbsIff(a);
    AbsorbsIff(b);
    if ConflictFree(a) { SaysUnique(AbsorbAll(a).value, AbsorbAll(b).value, a, b); }
  }

  lemma OneMoreChunk(a: seq<StreamChunk>, chunk: StreamChunk)
    ensures Content(a + [chunk]) == Content(a) + chunk.content && Deltas(a + [chunk]) == Deltas(a) + chunk.deltas
  {
    assert (a + [chunk])[..|a|] == a;
  }

  lemma {:induction false} ContentJoins(a: seq<StreamChunk>, b: seq<StreamChunk>)
    ensures Content(a + b) == Content(a) + Content(b) && Deltas(a + b) == Deltas(a) + Deltas(b)
    decreases |b|
  {
    if b == [] {
      assert a + b == a;
    } else {
      var most, last := b[..|b| - 1], b[|b| - 1];
      ContentJoins(a, most);
      OneMoreChunk(a + most, last);
      OneMoreChunk(most, last);
      assert a + b == a + most + [last] && b == most + [last];
    }
  }

  lemma ReasonsJoin(a: seq<StreamChunk>, b: seq<StreamChunk>)
    ensures Reasons(a + b) == Reasons(a) + Reasons(b)
  {
    assert forall c :: c in a + b <==> c in a || c in b;
  }

  lemma {:induction false} ArgumentsJoin(ds: seq<ToolCallDelta>, es: seq<ToolCallDelta>, index: int)
    ensures ArgumentsAt(ds + es, index) == ArgumentsAt(ds, index) + ArgumentsAt(es, index)
    decreases |es|
  {
    if es == [] {
      assert ds + es == ds;
    } else {
      var n := |es| - 1;
      ArgumentsJoin(ds, es[..n], index);
      assert (ds + es)[..|ds + es| - 1] == ds + es[..n];
    }
  }

  lemma SetsJoin(ds: seq<ToolCallDelta>, es: seq<ToolCallDelta>, index: int)
    ensures IdsAt(ds + es, index) == IdsAt(ds, index) + IdsAt(es, index)
    ensures NamesAt(ds + es, index) == NamesAt(ds, index) + NamesAt(es, index)
    ensures Indexes(ds + es) == Indexes(ds) + Indexes(es)
  {
    assert forall d :: d in ds + es <==> d in ds || d in es;
  }

  /** Saying the same at every index, used or not. */
  lemma SameEverywhere(ds: seq<ToolCallDelta>, es: seq<ToolCallDelta>, index: int)
    requires CallsSame(ds, es)
    ensures IdsAt(ds, index) == IdsAt(es, index) && NamesAt(ds, index) == NamesAt(es, index)
    ensures ArgumentsAt(ds, index) == ArgumentsAt(es, index)
  {
    if index !in Indexes(ds) { Unsaid(ds, index); Unsaid(es, index); }
  }

  lemma CallsSameWithin(pre: seq<ToolCallDelta>, ds: seq<ToolCallDelta>, es: seq<ToolCallDelta>, post: seq<ToolCallDelta>)
    requires CallsSame(ds, es)
    ensures CallsSame(pre + ds + post, pre + es + post)
  {
    SetsJoin(pre, ds, 0); SetsJoin(pre + ds, post, 0);
    SetsJoin(pre, es, 0); SetsJoin(pre + es, post, 0);
    forall i | i in Indexes(pre + ds + post)
      ensures IdsAt(pre + ds + post, i) == IdsAt(pre + es + post, i) && NamesAt(pre + ds + post, i) == NamesAt(pre + es + post, i)
      ensures ArgumentsAt(pre + ds + post, i) == ArgumentsAt(pre + es + post, i)
    {
      SameEverywhere(ds, es, i);
      SetsJoin(pre, ds, i); SetsJoin(pre + ds, post, i);
      SetsJoin(pre, es, i); SetsJoin(pre + es, post, i);
      ArgumentsJoin(pre, ds, i); ArgumentsJoin(pre + ds, post, i);
      ArgumentsJoin(pre, es, i); ArgumentsJoin(pre + es, post, i);
    }
  }

  /** The deltas of one call, in order. */
  function At(ds: seq<ToolCallDelta>, index: int): seq<ToolCallDelta>
    decreases |ds|
  {
    if ds == [] then [] else
      At(ds[..|ds| - 1], index) + if ds[|ds| - 1].index == index then [ds[|ds| - 1]] else []
  }

  lemma {:induction false} AtHolds(ds: seq<ToolCallDelta>, index: int)
    ensures forall d :: d in At(ds, index) <==> d in ds && d.index == index
    decreases |ds|
  {
    if ds != [] {
      var n := |ds| - 1;
      AtHolds(ds[..n], index);
      assert ds == ds[..n] + [ds[n]];
    }
  }

  lemma {:induction false} AtSays(ds: seq<ToolCallDelta>, index: int)
    ensures ArgumentsAt(At(ds, index), index) == ArgumentsAt(ds, index)
    decreases |ds|
  {
    if ds != [] {
      var n := |ds| - 1;
      AtSays(ds[..n], index);
      if ds[n].index == index {
        SaidMore(At(ds[..n], index), ds[n], index);
      } else {
        assert At(ds, index) == At(ds[..n], index);
      }
    }
  }

  /** Interleaving the calls in any order says the same: only the order within each call matters. */
  lemma Interleaving(ds: seq<ToolCallDelta>, es: seq<ToolCallDelta>)
    requires forall i :: At(ds, i) == At(es, i)
    ensures CallsSame(ds, es)
  {
    forall d ensures d in ds <==> d in es {
      AtHolds(ds, d.index);
      AtHolds(es, d.index);
    }
    forall i ensures ArgumentsAt(ds, i) == ArgumentsAt(es, i) {
      AtSays(ds, i);
      AtSays(es, i);
    }
  }

  /** Splitting an argument fragment anywhere says the same. */
  lemma SplittingArguments(d: ToolCallDelta, x: string, y: string)
    requires d.arguments == x + y
    ensures CallsSame([d], [d.(arguments := x), ToolCallDelta(d.index, "", "", y)])
  {
    var e, f := d.(arguments := x), ToolCallDelta(d.index, "", "", y);
    assert [e, f] == [e] + [f] && [d] == [] + [d] && [e] == [] + [e];
    SaidMore([], d, d.index);
    SaidMore([], e, d.index);
    SaidMore([e], f, d.index);
  }

  lemma ReplacedSays(pre: seq<StreamChunk>, mid: seq<StreamChunk>, other: seq<StreamChunk>, post: seq<StreamChunk>)
    requires SaysSame(mid, other)
    ensures SaysSame(pre + mid + post, pre + other + post)
  {
    ContentJoins(pre, mid); ContentJoins(pre + mid, post);
    ContentJoins(pre, other); ContentJoins(pre + other, post);
    ReasonsJoin(pre, mid); ReasonsJoin(pre + mid, post);
    ReasonsJoin(pre, other); ReasonsJoin(pre + other, post);
    CallsSameWithin(Deltas(pre), Deltas(mid), Deltas(other), Deltas(post));
  }

  ghost predicate HasError(chunks: seq<StreamChunk>) {
    exists chunk :: chunk in chunks && chunk.error.Some?
  }

  /** Cutting a chunk in two, its content and its deltas anywhere, says the same; so does joining the two again. */
  lemma SplittingChunk(pre: seq<StreamChunk>, chunk: StreamChunk, x: string, y: string, ds: seq<ToolCallDelta>,
                       es: seq<ToolCallDelta>, post: seq<StreamChunk>)
    requires chunk.content == x + y && chunk.deltas == ds + es && chunk.error.None?
    ensures var first, second := chunk.(content := x, deltas := ds, finishReason := ""), chunk.(content := y, deltas := es);
            SaysSame(pre + [chunk] + post, pre + [first, second] + post)
  {
    var first, second := chunk.(content := x, deltas := ds, finishReason := ""), chunk.(content := y, deltas := es);
    assert [first, second] == [first] + [second];
    ContentJoins([first], [second]);
    ReasonsJoin([first], [second]);
    Singles(chunk); Singles(first); Singles(second);
    ReplacedSays(pre, [chunk], [first, second], post);
  }

  lemma Singles(chunk: StreamChunk)
    ensures Content([chunk]) == chunk.content && Deltas([chunk]) == chunk.deltas
    ensures Reasons([chunk]) == if chunk.finishReason == "" then {} else {chunk.finishReason}
  {
    assert [chunk][..0] == [];
  }

  /** Rearranging the deltas of a chunk so that they say the same leaves the whole saying the same. */
  lemma RearrangingDeltas(pre: seq<StreamChunk>, chunk: StreamChunk, ds: seq<ToolCallDelta>, post: seq<StreamChunk>)
    requires CallsSame(chunk.deltas, ds) && chunk.error.None?
    ensures SaysSame(pre + [chunk] + post, pre + [chunk.(deltas := ds)] + post)
  {
    Singles(chunk);
    Singles(chunk.(deltas := ds));
    ReplacedSays(pre, [chunk], [chunk.(deltas := ds)], post);
  }
}
