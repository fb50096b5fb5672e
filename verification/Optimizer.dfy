/** The context optimizer: what it drops and rewrites, and what it keeps. */
module Optimizer {
  import opened Wrappers
  import opened Json
  import opened Canonical
  import opened CanonicalForm
  import OpenAI
  import Bridge
  import Text

  datatype Report = Report(duplicatesRemoved: nat, keysNormalized: nat, resultsNormalized: nat)

  predicate Rewrites(content: string) {
    Parse(Text.Trim(content)).Some? && Parse(content).Some?
  }

  /** A tool result that is JSON is written the one canonical way. */
  function NormalText(content: string): string {
    if Rewrites(content) then Print(Parse(content).value) else content
  }

  function Normalized(m: Message): Message {
    match m.toolResult
    case None => m
    case Some(result) => m.(toolResult := Some(result.(content := NormalText(result.content))))
  }

  predicate Deduplicable(m: Message) {
    m.role == ROLE_SYSTEM || m.role == ROLE_DEVELOPER || m.role == ROLE_TOOL
  }

  predicate Repeats(kept: seq<Message>, m: Message) {
    kept != [] && Deduplicable(m) && kept[|kept| - 1] == m
  }

  /** The messages that stay: of equal neighbours only the first, where that is safe. */
  function Condense(messages: seq<Message>): seq<Message>
    decreases |messages|
  {
    if messages == [] then [] else
      var kept := Condense(messages[..|messages| - 1]);
      var m := Normalized(messages[|messages| - 1]);
      if Repeats(kept, m) then kept else kept + [m]
  }

  function OptimizeMetadata(metadata: Fields): Result<Fields> {
    if exists key | key in metadata :: Text.Trim(key) == "" then Err("AGENT_METADATA_INVALID")
    else if !OpenAI.MetadataAgrees(metadata) then Err("AGENT_METADATA_CONFLICT")
    else Ok(OpenAI.TrimKeys(metadata))
  }

  function OptimizedModel(model: string): string {
    if Text.Trim(model) == "" then DEFAULT_MODEL else Text.Trim(model)
  }

  function Rewritten(messages: seq<Message>): nat
    decreases |messages|
  {
    if messages == [] then 0 else
      Rewritten(messages[..|messages| - 1]) +
      if Normalized(messages[|messages| - 1]) != messages[|messages| - 1] then 1 else 0
  }

  function Untrimmed(keys: set<string>): set<string> {
    set key | key in keys && Text.Trim(key) != key
  }

  function Optimize(c: Conversation): Result<(Conversation, Report)> {
    var metadata :- OptimizeMetadata(c.metadata);
    var kept := Condense(c.messages);
    CondenseCount(c.messages);
    Ok((c.(model := OptimizedModel(c.model), messages := kept, metadata := metadata),
        Report(|c.messages| - |kept|, |Untrimmed(c.metadata.Keys)|, Rewritten(c.messages))))
  }

  lemma {:induction false} CondenseCount(messages: seq<Message>)
    ensures |Condense(messages)| <= |messages|
    decreases |messages|
  {
    if messages != [] { CondenseCount(messages[..|messages| - 1]); }
  }

  // ---------- What is kept ----------

  /** Where each kept message came from. */
  function Origins(messages: seq<Message>): seq<nat>
    decreases |messages|
  {
    if messages == [] then [] else
      var n := |messages| - 1;
      if Repeats(Condense(messages[..n]), Normalized(messages[n])) then Origins(messages[..n]) else Origins(messages[..n]) + [n]
  }

  ghost predicate Ascending(ids: seq<nat>, bound: nat) {
    && (forall k | 0 <= k < |ids| :: ids[k] < bound)
    && (forall j, k | 0 <= j < k < |ids| :: ids[j] < ids[k])
  }

  ghost predicate From(messages: seq<Message>, kept: seq<Message>, ids: seq<nat>) {
    && |ids| == |kept| && Ascending(ids, |messages|)
    && forall k | 0 <= k < |kept| :: kept[k] == Normalized(messages[ids[k]])
  }

  ghost predicate OnlySafeDropped(messages: seq<Message>, ids: seq<nat>) {
    forall i | 0 <= i < |messages| && i !in ids :: Deduplicable(messages[i])
  }

  /**
   * The output is the normalized input with some messages left out, in the same order; only system, developer
   * and tool messages are ever left out, so every user and assistant message stays.
   */
  lemma {:induction false} KeepsInOrder(messages: seq<Message>)
    ensures From(messages, Condense(messages), Origins(messages)) && OnlySafeDropped(messages, Origins(messages))
    decreases |messages|
  {
    if messages != [] {
      var n := |messages| - 1;
      assert messages[..n] + [messages[n]] == messages;
      KeepsInOrder(messages[..n]);
    }
  }

  // ---------- Idempotence ----------

  lemma NormalTextStays(content: string)
    ensures NormalText(NormalText(content)) == NormalText(content)
  {
    if Rewrites(content) {
      var v := Parse(content).value;
      RoundTrip(v);
      PrintTrimmed(v);
    }
  }

  lemma NormalizedStays(m: Message)
    ensures Normalized(Normalized(m)) == Normalized(m)
  {
    if m.toolResult.Some? { NormalTextStays(m.toolResult.value.content); }
  }

  /** Nothing left to drop or rewrite. */
  ghost predicate Settled(messages: seq<Message>) {
    && (forall i | 0 <= i < |messages| :: Normalized(messages[i]) == messages[i])
    && (forall i | 0 < i < |messages| :: !(Deduplicable(messages[i]) && messages[i - 1] == messages[i]))
  }

  lemma {:induction false} CondenseSettles(messages: seq<Message>)
    ensures Settled(Condense(messages))
    decreases |messages|
  {
    if messages != [] {
      CondenseSettles(messages[..|messages| - 1]);
      NormalizedStays(messages[|messages| - 1]);
    }
  }

  lemma {:induction false} SettledStays(messages: seq<Message>)
    requires Settled(messages)
    ensures Condense(messages) == messages && Rewritten(messages) == 0
    decreases |messages|
  {
    if messages != [] {
      var n := |messages| - 1;
      SettledStays(messages[..n]);
      if n > 0 { assert messages[..n][n - 1] == messages[n - 1]; }
      assert messages[..n] + [messages[n]] == messages;
    }
  }

  lemma TrimmedMetadataStays(metadata: Fields)
    requires OptimizeMetadata(metadata).Ok?
    ensures OptimizeMetadata(OptimizeMetadata(metadata).value) == OptimizeMetadata(metadata)
    ensures Untrimmed(OptimizeMetadata(metadata).value.Keys) == {}
  {
    var trimmed := OptimizeMetadata(metadata).value;
    forall key | key in trimmed ensures Text.Trimmed(key) && Text.Trim(key) == key && key != "" {
      var original :| original in metadata && Text.Trim(original) == key;
    }
    TrimmedKeysStay(trimmed);
  }

  /** Optimizing twice is optimizing once: the second time nothing is removed or rewritten. */
  lemma OptimizeIdempotent(c: Conversation)
    requires Optimize(c).Ok?
    ensures Optimize(Optimize(c).value.0) == Ok((Optimize(c).value.0, Report(0, 0, 0)))
  {
    var once := Optimize(c).value.0;
    CondenseSettles(c.messages);
    SettledStays(once.messages);
    TrimmedMetadataStays(c.metadata);
  }

  // ---------- The pipeline ----------

  function AllCalls(messages: seq<Message>): set<string>
    decreases |messages|
  {
    if messages == [] then {} else AllCalls(messages[..|messages| - 1]) + OpenAI.CallIds(messages[|messages| - 1].toolCalls)
  }

  lemma {:induction false} AllCallsFront(messages: seq<Message>)
    requires messages != []
    ensures AllCalls(messages) == OpenAI.CallIds(messages[0].toolCalls) + AllCalls(messages[1..])
    decreases |messages|
  {
    var n := |messages| - 1;
    if n == 0 {
      assert messages[..0] == [] && messages[1..] == [];
    } else {
      AllCallsFront(messages[..n]);
      assert messages[..n][1..] == messages[1..][..n - 1];
      assert messages[1..][n - 1] == messages[n];
    }
  }

  /** Canonical form, read from the back. */
  lemma {:induction false} CanonicalLast(messages: seq<Message>, m: Message, known: set<string>)
    ensures CanonicalMessages(messages + [m], known) <==>
              CanonicalMessages(messages, known) && CanonicalMessage(m, known + AllCalls(messages))
    decreases |messages|
  {
    if messages == [] {
      assert [] + [m] == [m] && [m][1..] == [];
      assert known + AllCalls(messages) == known;
    } else {
      var after := known + OpenAI.CallIds(messages[0].toolCalls);
      assert (messages + [m])[0] == messages[0] && (messages + [m])[1..] == messages[1..] + [m];
      CanonicalLast(messages[1..], m, after);
      AllCallsFront(messages);
      assert after + AllCalls(messages[1..]) == known + AllCalls(messages);
    }
  }

  /** Call ids stay unique and every tool result keeps the call it answers. */
  lemma {:induction false} CondenseCanonical(messages: seq<Message>)
    requires CanonicalMessages(messages, {})
    ensures CanonicalMessages(Condense(messages), {}) && AllCalls(Condense(messages)) == AllCalls(messages)
    decreases |messages|
  {
    if messages != [] {
      var n := |messages| - 1;
      var front, m := messages[..n], messages[n];
      assert front + [m] == messages;
      CanonicalLast(front, m, {});
      CondenseCanonical(front);
      assert {} + AllCalls(front) == AllCalls(front);
      CanonicalLast(Condense(front), Normalized(m), {});
    }
  }

  lemma CanonicalMetadataStays(metadata: Fields)
    requires CanonicalMetadata(metadata)
    ensures OptimizeMetadata(metadata) == Ok(metadata)
  {
    TrimmedKeysStay(metadata);
    assert forall key | key in metadata :: Text.Trim(key) == key;
  }

  /** Optimizing never fails on a canonical conversation and gives a canonical one with the same calls. */
  lemma OptimizeCanonical(c: Conversation)
    requires InForm(c)
    ensures Optimize(c).Ok? && InForm(Optimize(c).value.0)
    ensures AllCalls(Optimize(c).value.0.messages) == AllCalls(c.messages)
  {
    CanonicalMetadataStays(c.metadata);
    CondenseCanonical(c.messages);
  }

  /**
   * The pipeline is total: once a request is decoded, optimizing it cannot fail, encoding the result for the
   * bridge cannot fail, and what the bridge is given decodes to that result.
   */
  lemma PipelineTotal(payload: string)
    requires OpenAI.DecodeRequest(payload).Ok?
    ensures var optimized := Optimize(OpenAI.DecodeRequest(payload).value);
            && optimized.Ok? && InForm(optimized.value.0)
            && Bridge.EncodeBridgeRequest(optimized.value.0).Ok?
            && OpenAI.DecodeRequest(Print(Object(Bridge.EncodeBridgeRequest(optimized.value.0).value))) == Ok(optimized.value.0)
  {
    var c := OpenAI.DecodeRequest(payload).value;
    DecodedIsCanonical(payload);
    OptimizeCanonical(c);
    RequestRoundTrip(Optimize(c).value.0);
  }
}
