/** Answers sent again, and answers sent in another order. */
module BrokerReplay {
  import opened Wrappers
  import opened Json
  import opened Canonical
  import opened BrokerState
  import opened BrokerInvariant
  import opened BrokerBatch
  import opened BrokerSteps
  import opened BrokerRuns
  import Bridge
  import Text

  // ---------- A response touches the request it names and no other ----------

  /** All that a response to id can read or change. */
  datatype View = View(request: Option<Request>, receipt: Option<Receipt>, accepted: Option<Completion>)

  function ViewOf(s: State, id: string): View {
    View(if id in s.requests then Some(s.requests[id]) else None,
         if id in s.receipts then Some(s.receipts[id]) else None,
         if id in s.ledger.accepted then Some(s.ledger.accepted[id]) else None)
  }

  ghost predicate Elsewhere(s: State, t: State, id: string) {
    && t.cfg == s.cfg
    && (forall other | other != id :: (other in t.requests <==> other in s.requests))
    && (forall other | other != id && other in s.requests :: t.requests[other] == s.requests[other])
    && (forall other | other != id :: (other in t.receipts <==> other in s.receipts))
    && (forall other | other != id && other in s.receipts :: t.receipts[other] == s.receipts[other])
    && (forall other | other != id :: (other in t.ledger.accepted <==> other in s.ledger.accepted))
    && (forall other | other != id && other in s.ledger.accepted :: t.ledger.accepted[other] == s.ledger.accepted[other])
  }

  ghost const SameElsewhere: (State, State, string) -> bool := (s: State, t: State, id: string) => Elsewhere(s, t, id)

  function PhaseOf(answer: Completion): Phase {
    if answer.finishReason == "tool_calls" then WaitingTool else Completed
  }

  lemma CompleteView(s: State, id: string, bridge: string, fingerprint: Completion, answer: Completion, now: int)
    requires id in s.requests && Active(s.requests[id].phase)
    ensures ViewOf(Complete(s, id, bridge, fingerprint, answer, now), id)
            == View(Some(Finished(s.requests[id], PhaseOf(answer), "", answer)),
                    Some(Receipt(bridge, fingerprint, now + s.cfg.receiptTtl)), Some(answer))
  {
  }

  lemma AcceptLiveOthers(s: State, bridge: string, j: Judgement, answer: Completion, now: int)
    requires Live(s, j.id, bridge)
    ensures SameElsewhere(s, AcceptLive(s, bridge, j, answer, now).state, j.id)
  {}

  lemma AcceptReadableOthers(s: State, bridge: string, j: Judgement, answer: Completion, now: int)
    ensures SameElsewhere(s, AcceptReadable(s, bridge, j, answer, now).state, j.id)
  {
    if j.id !in s.receipts && Live(s, j.id, bridge) && now < s.requests[j.id].deadline {
      AcceptLiveOthers(s, bridge, j, answer, now);
    }
  }

  lemma AcceptOthers(s: State, bridge: string, j: Judgement, now: int)
    ensures SameElsewhere(s, Accept(s, bridge, j, now).state, j.id)
  {
    if j.reading.Readable? { AcceptReadableOthers(s, bridge, j, j.reading.answer, now); }
  }

  ghost const SameOutcome: (Accepted, Accepted, string) -> bool :=
    (a: Accepted, b: Accepted, id: string) =>
      a.item == b.item && a.followup == b.followup && ViewOf(a.state, id) == ViewOf(b.state, id)

  lemma AcceptLiveLocal(s: State, t: State, bridge: string, j: Judgement, answer: Completion, now: int)
    requires s.cfg == t.cfg && ViewOf(s, j.id) == ViewOf(t, j.id) && Live(s, j.id, bridge) && Live(t, j.id, bridge)
    ensures SameOutcome(AcceptLive(s, bridge, j, answer, now), AcceptLive(t, bridge, j, answer, now), j.id)
  {
    assert s.requests[j.id] == t.requests[j.id];
    match j.fit(s.requests[j.id].conversation)
    case Err(code) =>
    case Ok(fitted) => CompleteView(s, j.id, bridge, answer, fitted, now); CompleteView(t, j.id, bridge, answer, fitted, now);
  }

  lemma AcceptReadableLocal(s: State, t: State, bridge: string, j: Judgement, answer: Completion, now: int)
    requires s.cfg == t.cfg && ViewOf(s, j.id) == ViewOf(t, j.id)
    ensures SameOutcome(AcceptReadable(s, bridge, j, answer, now), AcceptReadable(t, bridge, j, answer, now), j.id)
  {
    assert (j.id in s.receipts <==> j.id in t.receipts) && (j.id in s.requests <==> j.id in t.requests);
    if j.id in s.receipts {
    } else if Live(s, j.id, bridge) && now < s.requests[j.id].deadline {
      AcceptLiveLocal(s, t, bridge, j, answer, now);
    } else if j.id in s.requests && Due(s.requests[j.id], now) {
    }
  }

  /** What a response does depends on nothing but the view of the id it names. */
  lemma AcceptLocal(s: State, t: State, bridge: string, j: Judgement, now: int)
    requires s.cfg == t.cfg && ViewOf(s, j.id) == ViewOf(t, j.id)
    ensures SameOutcome(Accept(s, bridge, j, now), Accept(t, bridge, j, now), j.id)
  {
    match j.reading
    case Blank =>
    case Garbled(code) =>
      assert Live(s, j.id, bridge) == Live(t, j.id, bridge);
    case Readable(answer) => AcceptReadableLocal(s, t, bridge, j, answer, now);
  }

  // ---------- Order independence ----------

  ghost predicate DistinctResponses(rs: seq<Response>) {
    forall i, j | 0 <= i < j < |rs| :: ResponseId(rs[i]) != ResponseId(rs[j])
  }

  /** Among responses with distinct ids, each has the outcome it would have alone. */
  lemma {:induction false} EachAlone(s: State, bridge: string, rs: seq<Response>, now: int, k: nat)
    requires DistinctResponses(rs) && k < |rs|
    ensures |AcceptAll(s, bridge, rs, now).items| == |rs|
    ensures var all, one := AcceptAll(s, bridge, rs, now), AcceptOne(s, bridge, rs[k], now);
            all.items[k] == one.item && ViewOf(all.state, ResponseId(rs[k])) == ViewOf(one.state, ResponseId(rs[k]))
            && (one.followup ==> all.followup)
    decreases |rs|
  {
    var n := |rs| - 1;
    var before := AcceptAll(s, bridge, rs[..n], now);
    ItemsCount(s, bridge, rs[..n], now);
    if k == n {
      Unnamed(s, bridge, rs[..n], now, ResponseId(rs[n]));
      AcceptLocal(before.state, s, bridge, Judge(rs[n]), now);
    } else {
      EachAlone(s, bridge, rs[..n], now, k);
      assert rs[..n][k] == rs[k];
      AcceptOthers(before.state, bridge, Judge(rs[n]), now);
    }
  }

  lemma {:induction false} ItemsCount(s: State, bridge: string, rs: seq<Response>, now: int)
    ensures |AcceptAll(s, bridge, rs, now).items| == |rs|
    ensures AcceptAll(s, bridge, rs, now).state.cfg == s.cfg
    decreases |rs|
  {
    if rs != [] {
      ItemsCount(s, bridge, rs[..|rs| - 1], now);
      var before := AcceptAll(s, bridge, rs[..|rs| - 1], now).state;
      AcceptOthers(before, bridge, Judge(rs[|rs| - 1]), now);
    }
  }

  /** A request that no response names is left as it was. */
  lemma {:induction false} Unnamed(s: State, bridge: string, rs: seq<Response>, now: int, id: string)
    requires forall r | r in rs :: ResponseId(r) != id
    ensures ViewOf(AcceptAll(s, bridge, rs, now).state, id) == ViewOf(s, id)
    ensures AcceptAll(s, bridge, rs, now).state.cfg == s.cfg
    decreases |rs|
  {
    if rs != [] {
      Unnamed(s, bridge, rs[..|rs| - 1], now, id);
      var before := AcceptAll(s, bridge, rs[..|rs| - 1], now).state;
      AcceptOthers(before, bridge, Judge(rs[|rs| - 1]), now);
    }
  }

  lemma {:induction false} FollowupFromOne(s: State, bridge: string, rs: seq<Response>, now: int)
    requires DistinctResponses(rs) && AcceptAll(s, bridge, rs, now).followup
    ensures exists k: nat :: k < |rs| && AcceptOne(s, bridge, rs[k], now).followup
    decreases |rs|
  {
    var n := |rs| - 1;
    var before := AcceptAll(s, bridge, rs[..n], now);
    if before.followup {
      FollowupFromOne(s, bridge, rs[..n], now);
      var k: nat :| k < n && AcceptOne(s, bridge, rs[..n][k], now).followup;
      assert rs[..n][k] == rs[k];
    } else {
      Unnamed(s, bridge, rs[..n], now, ResponseId(rs[n]));
      AcceptLocal(before.state, s, bridge, Judge(rs[n]), now);
    }
  }

  lemma SameViewsSameMaps(s: State, t: State)
    requires forall id :: ViewOf(s, id) == ViewOf(t, id)
    ensures s.requests == t.requests && s.receipts == t.receipts && s.ledger.accepted == t.ledger.accepted
  {
    forall id ensures (id in s.requests <==> id in t.requests) && (id in s.receipts <==> id in t.receipts)
                      && (id in s.ledger.accepted <==> id in t.ledger.accepted) {
      assert ViewOf(s, id) == ViewOf(t, id);
    }
    forall id | id in s.requests ensures s.requests[id] == t.requests[id] { assert ViewOf(s, id) == ViewOf(t, id); }
    forall id | id in s.receipts ensures s.receipts[id] == t.receipts[id] { assert ViewOf(s, id) == ViewOf(t, id); }
    forall id | id in s.ledger.accepted ensures s.ledger.accepted[id] == t.ledger.accepted[id] {
      assert ViewOf(s, id) == ViewOf(t, id);
    }
  }

  lemma OrderViews(s: State, bridge: string, rs: seq<Response>, qs: seq<Response>, now: int, id: string)
    requires DistinctResponses(rs) && DistinctResponses(qs) && forall r :: r in rs <==> r in qs
    ensures ViewOf(AcceptAll(s, bridge, rs, now).state, id) == ViewOf(AcceptAll(s, bridge, qs, now).state, id)
  {
    if r :| r in rs && ResponseId(r) == id {
      var i: nat :| i < |rs| && rs[i] == r;
      assert r in qs;
      var j: nat :| j < |qs| && qs[j] == r;
      EachAlone(s, bridge, rs, now, i);
      EachAlone(s, bridge, qs, now, j);
    } else {
      Unnamed(s, bridge, rs, now, id);
      Unnamed(s, bridge, qs, now, id);
    }
  }

  /**
   * For responses with distinct ids, the order they come in makes no difference to any request, receipt,
   * accepted answer or count, nor to what each response is told.
   */
  lemma OrderIndependent(s: State, bridge: string, rs: seq<Response>, qs: seq<Response>, now: int)
    requires Core(s) && DistinctResponses(rs) && DistinctResponses(qs) && forall r :: r in rs <==> r in qs
    ensures var a, b := AcceptAll(s, bridge, rs, now), AcceptAll(s, bridge, qs, now);
            && a.state.requests == b.state.requests && a.state.receipts == b.state.receipts
            && a.state.completed == b.state.completed && a.followup == b.followup
            && |a.items| == |rs| && |b.items| == |qs|
            && forall i, j | 0 <= i < |rs| && 0 <= j < |qs| && rs[i] == qs[j] :: a.items[i] == b.items[j]
  {
    var a, b := AcceptAll(s, bridge, rs, now), AcceptAll(s, bridge, qs, now);
    forall id ensures ViewOf(a.state, id) == ViewOf(b.state, id) { OrderViews(s, bridge, rs, qs, now, id); }
    SameViewsSameMaps(a.state, b.state);
    CompletedCounts(s, bridge, rs, now);
    CompletedCounts(s, bridge, qs, now);
    ItemsCount(s, bridge, rs, now);
    ItemsCount(s, bridge, qs, now);
    forall i, j | 0 <= i < |rs| && 0 <= j < |qs| && rs[i] == qs[j] ensures a.items[i] == b.items[j] {
      EachAlone(s, bridge, rs, now, i);
      EachAlone(s, bridge, qs, now, j);
    }
    if a.followup { SameFollowup(s, bridge, rs, qs, now); }
    if b.followup { SameFollowup(s, bridge, qs, rs, now); }
  }

  lemma SameFollowup(s: State, bridge: string, rs: seq<Response>, qs: seq<Response>, now: int)
    requires DistinctResponses(rs) && DistinctResponses(qs) && forall r :: r in rs <==> r in qs
    requires AcceptAll(s, bridge, rs, now).followup
    ensures AcceptAll(s, bridge, qs, now).followup
  {
    FollowupFromOne(s, bridge, rs, now);
    var k: nat :| k < |rs| && AcceptOne(s, bridge, rs[k], now).followup;
    assert rs[k] in qs;
    var j: nat :| j < |qs| && qs[j] == rs[k];
    EachAlone(s, bridge, qs, now, j);
  }

  lemma CompletedCounts(s: State, bridge: string, rs: seq<Response>, now: int)
    requires Core(s)
    ensures var t := AcceptAll(s, bridge, rs, now).state; t.completed == |t.ledger.accepted|
  {
    AcceptAllWorks(s, bridge, rs, now);
  }

  // ---------- Replay ----------

  /** Repeating a recorded answer changes nothing at all; contradicting it changes nothing either. */
  lemma ReplayChangesNothing(s: State, bridge: string, r: Response, now: int)
    requires Read(r).Readable? && ResponseId(r) in s.receipts
    ensures AcceptOne(s, bridge, r, now).state == s
    ensures AcceptOne(s, bridge, r, now).item.verdict ==
              if s.receipts[ResponseId(r)].bridge == bridge && s.receipts[ResponseId(r)].answer == Read(r).answer
              then Duplicate else Rejected("AGENT_RESPONSE_CONFLICT")
  {}

  lemma AcceptanceGuards(s: State, bridge: string, j: Judgement, now: int)
    requires Accept(s, bridge, j, now).item.verdict == CompletedNow
    ensures j.reading.Readable? && j.id !in s.receipts && Live(s, j.id, bridge) && now < s.requests[j.id].deadline
    ensures j.fit(s.requests[j.id].conversation).Ok?
    ensures Accept(s, bridge, j, now).state
            == Complete(s, j.id, bridge, j.reading.answer, j.fit(s.requests[j.id].conversation).value, now)
  {}

  /** An acceptance is recorded under the generation it came from, with the very answer that is handed on. */
  lemma AcceptanceRecorded(s: State, bridge: string, r: Response, now: int)
    requires AcceptOne(s, bridge, r, now).item.verdict == CompletedNow
    ensures Read(r).Readable? && Live(s, ResponseId(r), bridge) && now < s.requests[ResponseId(r)].deadline
    ensures var t, id := AcceptOne(s, bridge, r, now).state, ResponseId(r);
            && id in t.receipts && t.receipts[id] == Receipt(bridge, Read(r).answer, now + s.cfg.receiptTtl)
            && id in t.requests && t.requests[id].result == Read(r).answer && Answered(t.requests[id].phase)
  {
    AcceptanceGuards(s, bridge, Judge(r), now);
  }

  ghost const KeepsReceipts: (State, State) -> bool := (s: State, t: State) => Extends(s.receipts, t.receipts)

  lemma AcceptReceipts(s: State, bridge: string, j: Judgement, now: int)
    ensures KeepsReceipts(s, Accept(s, bridge, j, now).state)
  {
    AcceptOthers(s, bridge, j, now);
    var t := Accept(s, bridge, j, now).state;
    assert Elsewhere(s, t, j.id);
  }

  lemma {:induction false} AcceptAllReceipts(s: State, bridge: string, rs: seq<Response>, now: int)
    ensures KeepsReceipts(s, AcceptAll(s, bridge, rs, now).state)
    decreases |rs|
  {
    if rs != [] {
      var before := AcceptAll(s, bridge, rs[..|rs| - 1], now).state;
      AcceptAllReceipts(s, bridge, rs[..|rs| - 1], now);
      AcceptReceipts(before, bridge, Judge(rs[|rs| - 1]), now);
    }
  }

  // ---------- Receipts over whole runs ----------

  /** A receipt is only dropped once its time has come, and never changed. */
  ghost const KeepsUntil: (State, State, int) -> bool :=
    (s: State, t: State, now: int) =>
      forall id | id in s.receipts && now < s.receipts[id].expires :: id in t.receipts && t.receipts[id] == s.receipts[id]

  lemma {:induction false} RedeliverReceipts(b: Batch, ids: seq<string>, capacity: int, now: int)
    requires forall id | id in ids :: id in b.state.requests
    ensures Redeliver(b, ids, capacity, now).state.receipts == b.state.receipts
    decreases |ids|
  {
    if ids != [] && Fits(b, ids[0], capacity) { RedeliverReceipts(Append(b, ids[0], now), ids[1..], capacity, now); }
  }

  lemma {:induction false} DrainReceipts(b: Batch, bridge: string, capacity: int, inflight: int, now: int)
    ensures Drain(b, bridge, capacity, inflight, now).state.receipts == b.state.receipts
    decreases |b.state.queue|
  {
    if |b.entries| < capacity && inflight < b.state.cfg.maxInflight && b.state.queue != [] {
      var id := b.state.queue[0];
      var popped := PopQueue(b.state);
      if Discardable(b.state, id, bridge) {
        DrainReceipts(b.(state := popped), bridge, capacity, inflight, now);
      } else if b.state.requests[id].deadline <= now {
        DrainReceipts(b.(state := Finish(popped, id, TimedOut, TIMEOUT, NO_ANSWER)), bridge, capacity, inflight, now);
      } else if b.bytes + b.state.requests[id].payloadBytes <= b.state.cfg.maxBatchBytes {
        DrainReceipts(Append(b.(state := Claim(popped, id, bridge)), id, now), bridge, capacity, inflight + 1, now);
      }
    }
  }

  lemma NextBatchReceipts(s: State, bridge: string, capacity: int, now: int)
    ensures NextBatch(s, bridge, capacity, now).state.receipts == s.receipts
  {
    var e := ExpireRequests(s, now);
    ExpireRequestsSets(s, now);
    var ids := Text.Sorted(InflightOn(e, bridge), CreationOrder(e.requests));
    RedeliverReceipts(Batch(e, [], 0), ids, capacity, now);
    DrainReceipts(Redeliver(Batch(e, [], 0), ids, capacity, now), bridge, capacity, |ids|, now);
  }

  lemma {:induction false} ProgressReceipts(s: State, bridge: string, ps: seq<Progress>, now: int)
    ensures AcceptProgress(s, bridge, ps, now).receipts == s.receipts
    decreases |ps|
  {
    if ps != [] { ProgressReceipts(s, bridge, ps[..|ps| - 1], now); }
  }

  lemma RefreshReceipts(s: State, now: int)
    ensures KeepsUntil(s, Refresh(s, now), now)
  {
    ExpireReceipts(CleanupReceipts(s, now), now);
  }

  lemma SubmitReceipts(s: State, bridge: string, sub: Submission, now: int)
    ensures KeepsReceipts(s, Submit(s, bridge, sub, now).state)
  {
    match sub
    case Sent(_, _) =>
    case Unsent(responses, progress) =>
      AcceptAllReceipts(s, bridge, responses, now);
      ProgressReceipts(AcceptAll(s, bridge, responses, now).state, bridge, progress, now);
  }

  lemma ConcludeReceipts(b: Batch, items: seq<Item>, followup: bool, now: int)
    ensures Conclude(b, items, followup, now).0.receipts == b.state.receipts
  {}

  lemma TurnReceipts(s: State, bridge: string, capacity: int, sub: Submission, now: int)
    ensures KeepsUntil(s, Turn(s, bridge, capacity, sub, now).0, now)
  {
    var e := Refresh(s, now);
    RefreshReceipts(s, now);
    if RequireBridge(e, bridge).None? {
      var touched := TouchBridge(e, now);
      var taken := Submit(touched, bridge, sub, now);
      SubmitReceipts(touched, bridge, sub, now);
      NextBatchReceipts(taken.state, bridge, capacity, now);
      ConcludeReceipts(NextBatch(taken.state, bridge, capacity, now), taken.items, taken.followup, now);
      assert e.receipts == touched.receipts;
      assert Extends(touched.receipts, Turn(s, bridge, capacity, sub, now).0.receipts);
    }
  }

  lemma ShutdownReceipts(s: State)
    ensures Shutdown(s).receipts == s.receipts
  {}

  lemma ExpireReceipts(s: State, now: int)
    ensures Expire(s, now).receipts == s.receipts
  {
    ExpireRequestsSets(s, now);
  }

  lemma OpenReceipts(s: State, now: int, generation: string)
    ensures Open(s, now, generation).0.receipts == s.receipts
  {
    ExpireReceipts(s, now);
  }

  lemma CloseReceipts(s: State, now: int)
    ensures Close(s, now).0.receipts == s.receipts
  {
    ExpireReceipts(s, now);
  }

  lemma TickReceipts(s: State, now: int)
    ensures Tick(s, now).receipts == s.receipts
  {
    ExpireReceipts(s, now);
  }

  lemma AskReceipts(s: State, now: int, id: string, c: Conversation)
    ensures Enqueue(s, now, id, c).0.receipts == s.receipts
  {
    ExpireReceipts(s, now);
    EnqueueUnfolds(s, now, id, c);
  }

  lemma TimerReceipts(s: State, now: int, bridge: string, items: seq<Item>)
    ensures WaitOver(s, bridge, items, now).0.receipts == s.receipts
  {
    ExpireReceipts(s, now);
  }

  lemma EffectReceipts(sys: System, e: Event)
    requires Enabled(sys, e)
    ensures KeepsUntil(sys.broker, Effect(sys, e).broker, Time(sys, e))
  {
    var s := sys.broker;
    match e
    case OpenBridge(now, generation) => OpenReceipts(s, now, generation);
    case CloseTheBridge(now) => CloseReceipts(s, now);
    case Beat(now) => TickReceipts(s, now);
    case Pass(now, key) =>
      TurnReceipts(s, sys.exchanges[key].bridge, sys.exchanges[key].capacity, PendingOf(sys.exchanges[key]), now);
    case Timer(now, key) => TimerReceipts(s, now, sys.exchanges[key].bridge, sys.exchanges[key].items);
    case Ask(now, id, c) => AskReceipts(s, now, id, c);
    case Enter(now, _, _, _, _) => RefreshReceipts(s, now);
    case Look(now) => RefreshReceipts(s, now);
    case Stop => ShutdownReceipts(s);
    case _ =>
  }

  lemma {:induction false} RunReceipts(sys: System, es: seq<Event>, id: string)
    requires Legal(sys, es) && id in sys.broker.receipts && Run(sys, es).clock < sys.broker.receipts[id].expires
    ensures id in Run(sys, es).broker.receipts && Run(sys, es).broker.receipts[id] == sys.broker.receipts[id]
    decreases |es|
  {
    if es != [] {
      var next := Step(sys, es[0]);
      ClockRises(next, es[1..]);
      EffectReceipts(sys, es[0]);
      RunReceipts(next, es[1..], id);
    }
  }

  lemma {:induction false} ClockRises(sys: System, es: seq<Event>)
    requires Legal(sys, es)
    ensures sys.clock <= Run(sys, es).clock
    decreases |es|
  {
    if es != [] { ClockRises(Step(sys, es[0]), es[1..]); }
  }

  /** Each item is what its response is told after those before it. */
  lemma {:induction false} ItemAt(s: State, bridge: string, rs: seq<Response>, now: int, k: nat)
    requires k < |rs|
    ensures |AcceptAll(s, bridge, rs, now).items| == |rs|
    ensures AcceptAll(s, bridge, rs, now).items[k]
            == AcceptOne(AcceptAll(s, bridge, rs[..k], now).state, bridge, rs[k], now).item
    decreases |rs|
  {
    var n := |rs| - 1;
    ItemsCount(s, bridge, rs, now);
    ItemsCount(s, bridge, rs[..n], now);
    if k < n {
      ItemAt(s, bridge, rs[..n], now, k);
      assert rs[..n][..k] == rs[..k] && rs[..n][k] == rs[k];
    } else {
      assert rs[..k] == rs[..n];
    }
  }

  lemma TakenOneByOne(s: State, bridge: string, rs: seq<Response>, now: int, k: nat)
    requires k < |rs|
    ensures AcceptAll(s, bridge, rs[..k + 1], now).state
            == AcceptOne(AcceptAll(s, bridge, rs[..k], now).state, bridge, rs[k], now).state
  {
    assert rs[..k + 1][..k] == rs[..k];
  }

  function ItemsOf(reply: TurnReply): seq<Item> {
    match reply
    case Failed(_) => []
    case Reply(output) => output.items
    case Park(items, _) => items
  }

  lemma ConcludeItems(b: Batch, items: seq<Item>, followup: bool, now: int)
    ensures ItemsOf(Conclude(b, items, followup, now).1) == items
  {}

  lemma TurnItems(s: State, bridge: string, capacity: int, rs: seq<Response>, ps: seq<Progress>, now: int)
    requires RequireBridge(Refresh(s, now), bridge).None?
    ensures ItemsOf(Turn(s, bridge, capacity, Unsent(rs, ps), now).1)
            == AcceptAll(TouchBridge(Refresh(s, now), now), bridge, rs, now).items
  {
    var taken := Submit(TouchBridge(Refresh(s, now), now), bridge, Unsent(rs, ps), now);
    ConcludeItems(NextBatch(taken.state, bridge, capacity, now), taken.items, taken.followup, now);
  }

  function Told(receipt: Receipt, bridge: string, r: Response): Verdict
    requires Read(r).Readable?
  {
    if receipt.bridge == bridge && receipt.answer == Read(r).answer then Duplicate else Rejected("AGENT_RESPONSE_CONFLICT")
  }

  lemma ReplayAmong(s: State, bridge: string, rs: seq<Response>, now: int, k: nat)
    requires k < |rs| && Read(rs[k]).Readable? && ResponseId(rs[k]) in s.receipts
    ensures |AcceptAll(s, bridge, rs, now).items| == |rs|
    ensures AcceptAll(s, bridge, rs, now).items[k].verdict == Told(s.receipts[ResponseId(rs[k])], bridge, rs[k])
    ensures AcceptAll(s, bridge, rs[..k + 1], now).state == AcceptAll(s, bridge, rs[..k], now).state
  {
    AcceptAllReceipts(s, bridge, rs[..k], now);
    ReplayChangesNothing(AcceptAll(s, bridge, rs[..k], now).state, bridge, rs[k], now);
    ItemAt(s, bridge, rs, now, k);
    TakenOneByOne(s, bridge, rs, now, k);
  }

  /** What a pass finds of a receipt whose time has not come. */
  lemma ReceiptStays(sys: System, es: seq<Event>, id: string, now: int)
    requires Legal(sys, es) && id in sys.broker.receipts && Run(sys, es).clock <= now < sys.broker.receipts[id].expires
    ensures var e := TouchBridge(Refresh(Run(sys, es).broker, now), now);
            id in e.receipts && e.receipts[id] == sys.broker.receipts[id]
  {
    RunReceipts(sys, es, id);
    RefreshReceipts(Run(sys, es).broker, now);
  }

  /**
   * Over any run after an acceptance, in any pass before the receipt expires, a response to the same request changes
   * nothing, whatever comes with it: told a duplicate if it gives the same answer to the same generation, and a
   * conflict otherwise. The receipt stays as it is.
   */
  lemma ReplayOverRuns(sys: System, es: seq<Event>, bridge: string, capacity: int, rs: seq<Response>, ps: seq<Progress>,
                       now: int, k: nat)
    requires Legal(sys, es) && k < |rs| && Read(rs[k]).Readable? && ResponseId(rs[k]) in sys.broker.receipts
    requires Run(sys, es).clock <= now < sys.broker.receipts[ResponseId(rs[k])].expires
    requires RequireBridge(Refresh(Run(sys, es).broker, now), bridge).None?
    ensures var e, id := TouchBridge(Refresh(Run(sys, es).broker, now), now), ResponseId(rs[k]);
            var items := ItemsOf(Turn(Run(sys, es).broker, bridge, capacity, Unsent(rs, ps), now).1);
            && |items| == |rs| && items[k].verdict == Told(sys.broker.receipts[id], bridge, rs[k])
            && AcceptAll(e, bridge, rs[..k + 1], now).state == AcceptAll(e, bridge, rs[..k], now).state
    ensures var id, t := ResponseId(rs[k]), Turn(Run(sys, es).broker, bridge, capacity, Unsent(rs, ps), now).0;
            id in t.receipts && t.receipts[id] == sys.broker.receipts[id]
  {
    var s, id := Run(sys, es).broker, ResponseId(rs[k]);
    ReceiptStays(sys, es, id, now);
    ReplayAmong(TouchBridge(Refresh(s, now), now), bridge, rs, now, k);
    TurnItems(s, bridge, capacity, rs, ps, now);
    RunReceipts(sys, es, id);
    TurnReceipts(s, bridge, capacity, Unsent(rs, ps), now);
  }
}
