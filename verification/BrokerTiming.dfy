/** When requests time out. */
module BrokerTiming {
  import opened Wrappers
  import opened Json
  import opened Canonical
  import opened BrokerState
  import opened BrokerInvariant
  import opened BrokerBatch
  import opened BrokerSteps
  import opened BrokerRuns
  import Text

  // ---------- Deadlines only ever move to now plus the timeout ----------

  ghost predicate Moved(s: State, t: State, now: int) {
    && t.cfg == s.cfg
    && forall id | id in t.requests && Active(t.requests[id].phase) ::
         || t.requests[id].deadline == now + s.cfg.requestTimeout
         || (id in s.requests && Active(s.requests[id].phase) && t.requests[id].deadline == s.requests[id].deadline)
  }

  /** Only a request that was due is ended for being late. */
  ghost predicate Lapses(s: State, t: State, now: int) {
    s.cfg.requestTimeout >= 1 ==>
      forall id | id in t.ledger.ended && t.ledger.ended[id] == TimedOut :: Excused(s, id, now)
  }

  /** Timed out already, or due now. */
  ghost predicate Excused(s: State, id: string, now: int) {
    (id in s.ledger.ended && s.ledger.ended[id] == TimedOut) || (id in s.requests && Due(s.requests[id], now))
  }

  ghost const Punctual: (State, State, int) -> bool :=
    (s: State, t: State, now: int) => Moved(s, t, now) && Lapses(s, t, now)

  lemma PunctualTransitive(s: State, t: State, u: State, now: int)
    requires Punctual(s, t, now) && Punctual(t, u, now)
    ensures Punctual(s, u, now)
  {
    assert Moved(s, u, now);
    if s.cfg.requestTimeout >= 1 {
      forall id | id in u.ledger.ended && u.ledger.ended[id] == TimedOut ensures Excused(s, id, now) {
        assert Excused(t, id, now);
      }
    }
  }

  lemma PunctualSame(s: State, t: State, now: int)
    requires t.cfg == s.cfg && t.requests == s.requests && t.ledger.ended == s.ledger.ended
    ensures Punctual(s, t, now)
  {}

  lemma ExpireRequestsPunctual(s: State, now: int)
    ensures Punctual(s, ExpireRequests(s, now), now)
  {
    var e := ExpireRequests(s, now);
    ExpireRequestsSets(s, now);
    FinishIdsLedger(s, DueIds(s, s.requests.Keys, now), TimedOut, TIMEOUT);
    assert Moved(s, e, now);
    assert Lapses(s, e, now);
  }

  lemma ExpirePunctual(s: State, now: int)
    ensures Punctual(s, Expire(s, now), now)
  {
    var e := ExpireRequests(s, now);
    ExpireRequestsPunctual(s, now);
    PunctualTransitive(s, e, ExpireBridge(e, now), now);
  }

  lemma RefreshPunctual(s: State, now: int)
    ensures Punctual(s, Refresh(s, now), now)
  {
    PunctualSame(s, CleanupReceipts(s, now), now);
    ExpirePunctual(CleanupReceipts(s, now), now);
    PunctualTransitive(s, CleanupReceipts(s, now), Refresh(s, now), now);
  }

  lemma HeartbeatPunctual(s: State, now: int)
    ensures Punctual(s, Heartbeat(s, now), now)
  {
    assert Moved(s, Heartbeat(s, now), now);
    assert Lapses(s, Heartbeat(s, now), now);
  }

  // ---------- Responses and batches ----------

  lemma AcceptLivePunctual(s: State, bridge: string, j: Judgement, answer: Completion, now: int)
    requires Live(s, j.id, bridge)
    ensures Punctual(s, AcceptLive(s, bridge, j, answer, now).state, now)
  {}

  lemma AcceptPunctual(s: State, bridge: string, j: Judgement, now: int)
    ensures Punctual(s, Accept(s, bridge, j, now).state, now)
  {
    PunctualSame(s, s, now);
    match j.reading
    case Blank =>
    case Garbled(code) =>
    case Readable(answer) =>
      if j.id in s.receipts {
      } else if Live(s, j.id, bridge) && now < s.requests[j.id].deadline {
        AcceptLivePunctual(s, bridge, j, answer, now);
      } else if j.id in s.requests && Due(s.requests[j.id], now) {
      }
  }

  lemma {:induction false} AcceptAllPunctual(s: State, bridge: string, rs: seq<Response>, now: int)
    ensures Punctual(s, AcceptAll(s, bridge, rs, now).state, now)
    decreases |rs|
  {
    if rs == [] {
      PunctualSame(s, s, now);
    } else {
      var before := AcceptAll(s, bridge, rs[..|rs| - 1], now).state;
      AcceptAllPunctual(s, bridge, rs[..|rs| - 1], now);
      AcceptPunctual(before, bridge, Judge(rs[|rs| - 1]), now);
      PunctualTransitive(s, before, AcceptAll(s, bridge, rs, now).state, now);
    }
  }

  lemma ProgressOnePunctual(s: State, bridge: string, p: Progress, now: int)
    ensures Punctual(s, AcceptProgressOne(s, bridge, p, now), now)
  {
    assert Lapses(s, AcceptProgressOne(s, bridge, p, now), now);
  }

  lemma {:induction false} ProgressPunctual(s: State, bridge: string, ps: seq<Progress>, now: int)
    ensures Punctual(s, AcceptProgress(s, bridge, ps, now), now)
    decreases |ps|
  {
    if ps == [] {
      PunctualSame(s, s, now);
    } else {
      var before := AcceptProgress(s, bridge, ps[..|ps| - 1], now);
      ProgressPunctual(s, bridge, ps[..|ps| - 1], now);
      ProgressOnePunctual(before, bridge, ps[|ps| - 1], now);
      PunctualTransitive(s, before, AcceptProgress(s, bridge, ps, now), now);
    }
  }

  lemma SubmitPunctual(s: State, bridge: string, sub: Submission, now: int)
    ensures Punctual(s, Submit(s, bridge, sub, now).state, now)
  {
    PunctualSame(s, s, now);
    match sub
    case Sent(_, _) =>
    case Unsent(responses, progress) =>
      var taken := AcceptAll(s, bridge, responses, now).state;
      AcceptAllPunctual(s, bridge, responses, now);
      ProgressPunctual(taken, bridge, progress, now);
      PunctualTransitive(s, taken, AcceptProgress(taken, bridge, progress, now), now);
  }

  lemma {:induction false} RedeliverPunctual(b: Batch, ids: seq<string>, capacity: int, now: int)
    requires forall id | id in ids :: id in b.state.requests
    ensures Punctual(b.state, Redeliver(b, ids, capacity, now).state, now)
    decreases |ids|
  {
    PunctualSame(b.state, b.state, now);
    if ids != [] && Fits(b, ids[0], capacity) {
      var c := Append(b, ids[0], now);
      RedeliverPunctual(c, ids[1..], capacity, now);
      PunctualTransitive(b.state, c.state, Redeliver(b, ids, capacity, now).state, now);
    }
  }

  lemma TakePunctual(s: State, bridge: string, now: int)
    requires s.queue != [] && s.queue[0] in s.requests && s.requests[s.queue[0]].phase == Queued
    ensures Punctual(s, Take(s, bridge, now), now)
  {
    TakeShape(s, bridge, now);
    assert Moved(s, Take(s, bridge, now), now);
    assert Lapses(s, Take(s, bridge, now), now);
  }

  lemma {:induction false} DrainPunctual(b: Batch, bridge: string, capacity: int, inflight: int, now: int)
    requires bridge == b.state.bridge && NoneDue(b.state, now) && b.state.cfg.requestTimeout >= 1
    ensures Punctual(b.state, Drain(b, bridge, capacity, inflight, now).state, now)
    decreases |b.state.queue|
  {
    PunctualSame(b.state, b.state, now);
    if |b.entries| < capacity && inflight < b.state.cfg.maxInflight && b.state.queue != [] {
      DrainUnfolds(b, bridge, capacity, inflight, now);
      if Discardable(b.state, b.state.queue[0], bridge) {
        var c := b.(state := PopQueue(b.state));
        DrainPunctual(c, bridge, capacity, inflight, now);
        PunctualSame(b.state, c.state, now);
        PunctualTransitive(b.state, c.state, Drain(c, bridge, capacity, inflight, now).state, now);
      } else if b.bytes + b.state.requests[b.state.queue[0]].payloadBytes <= b.state.cfg.maxBatchBytes {
        var c := TakeOne(b, now);
        TakePunctual(b.state, bridge, now);
        TakeUndue(b.state, bridge, now);
        TakeSets(b.state, now);
        DrainPunctual(c, bridge, capacity, inflight + 1, now);
        PunctualTransitive(b.state, c.state, Drain(c, bridge, capacity, inflight + 1, now).state, now);
      }
    }
  }

  lemma RedeliveryPunctual(s: State, bridge: string, capacity: int, now: int)
    requires Core(s) && bridge == s.bridge
    ensures Punctual(s, Redelivery(s, bridge, capacity, now).state, now)
  {
    var e := ExpireRequests(s, now);
    ExpireRequestsPunctual(s, now);
    RedeliverPunctual(Batch(e, [], 0), Outstanding(e), capacity, now);
    PunctualTransitive(s, e, Redelivery(s, bridge, capacity, now).state, now);
  }

  lemma NextBatchPunctual(s: State, bridge: string, capacity: int, now: int)
    requires Core(s) && bridge == s.bridge && 1 <= capacity
    ensures Punctual(s, NextBatch(s, bridge, capacity, now).state, now)
  {
    var c := Redelivery(s, bridge, capacity, now);
    RedeliveryPunctual(s, bridge, capacity, now);
    RedeliveryWorks(s, bridge, capacity, now);
    PayloadTimeout(c.state);
    DrainPunctual(c, bridge, capacity, |Outstanding(ExpireRequests(s, now))|, now);
    PunctualTransitive(s, c.state, NextBatch(s, bridge, capacity, now).state, now);
  }

  lemma TakenPunctual(e: State, bridge: string, sub: Submission, now: int)
    ensures Punctual(e, Submit(TouchBridge(e, now), bridge, sub, now).state, now)
  {
    var touched := TouchBridge(e, now);
    PunctualSame(e, touched, now);
    SubmitPunctual(touched, bridge, sub, now);
    PunctualTransitive(e, touched, Submit(touched, bridge, sub, now).state, now);
  }

  /** From the first touch of the bridge to the batch. */
  lemma ServedPunctual(e: State, bridge: string, capacity: int, sub: Submission, now: int)
    requires Core(e) && bridge == e.bridge && 1 <= capacity
    ensures Punctual(e, Served(e, bridge, capacity, sub, now).state, now)
  {
    var taken := Submit(TouchBridge(e, now), bridge, sub, now).state;
    TakenPunctual(e, bridge, sub, now);
    TakenWorks(e, bridge, sub, now);
    NextBatchPunctual(taken, bridge, capacity, now);
    PunctualTransitive(e, taken, Served(e, bridge, capacity, sub, now).state, now);
  }

  lemma ConcludePunctual(b: Batch, items: seq<Item>, followup: bool, now: int)
    ensures Punctual(b.state, Conclude(b, items, followup, now).0, now)
  {
    PunctualSame(b.state, Conclude(b, items, followup, now).0, now);
  }

  lemma TurnPunctual(s: State, bridge: string, capacity: int, sub: Submission, now: int)
    requires Inv(s) && 1 <= capacity
    ensures Punctual(s, Turn(s, bridge, capacity, sub, now).0, now)
  {
    var e := Refresh(s, now);
    RefreshPunctual(s, now);
    RefreshSafe(s, now);
    TurnUnfolds(s, bridge, capacity, sub, now);
    if RequireBridge(e, bridge).None? {
      var b := Served(e, bridge, capacity, sub, now);
      var taken := Submit(TouchBridge(e, now), bridge, sub, now);
      ServedPunctual(e, bridge, capacity, sub, now);
      PunctualTransitive(s, e, b.state, now);
      ConcludePunctual(b, taken.items, taken.followup, now);
      PunctualTransitive(s, b.state, Turn(s, bridge, capacity, sub, now).0, now);
    }
  }

  // ---------- Whole events ----------

  lemma AdmitPunctual(e: State, now: int, id: string, c: Conversation, payload: Result<(Fields, nat)>)
    ensures Punctual(e, AdmitWith(e, now, id, c, payload).0, now)
  {
    PunctualSame(e, e, now);
    assert Moved(e, AdmitWith(e, now, id, c, payload).0, now);
    assert Lapses(e, AdmitWith(e, now, id, c, payload).0, now);
  }

  lemma AskPunctual(s: State, now: int, id: string, c: Conversation)
    ensures Punctual(s, Enqueue(s, now, id, c).0, now)
  {
    var e := Expire(s, now);
    PunctualSame(s, s, now);
    ExpirePunctual(s, now);
    AdmitPunctual(e, now, id, c, Payload(c));
    PunctualTransitive(s, e, Admit(e, now, id, c).0, now);
  }

  ghost const AllRenewed: (State, int) -> bool :=
    (t: State, now: int) =>
      forall id | id in t.requests && Active(t.requests[id].phase) :: t.requests[id].deadline == now + t.cfg.requestTimeout

  lemma HeartbeatRenews(s: State, now: int)
    requires s.bridge != "" && forall id | id in s.requests && Active(s.requests[id].phase) :: s.requests[id].bridge == s.bridge
    ensures AllRenewed(Heartbeat(s, now), now)
  {}

  lemma RebindRenews(e: State, now: int, generation: string)
    requires generation != ""
    ensures AllRenewed(Announce(Rebind(e, now, generation)), now)
  {
    HeartbeatRenews(TouchBridge(Bind(e, generation), now), now);
  }

  lemma OpenRenews(s: State, now: int, generation: string)
    requires Inv(s) && generation != "" && !s.closed
    ensures AllRenewed(Open(s, now, generation).0, now)
  {
    var e := Expire(s, now);
    ExpireSafe(s, now);
    if e.bridge != "" {
      TouchBridgeKeeps(e, now);
      ActiveBound(TouchBridge(e, now));
      HeartbeatRenews(TouchBridge(e, now), now);
    } else {
      RebindRenews(e, now, generation);
      assert Open(s, now, generation).0 == Announce(Rebind(e, now, generation));
    }
  }

  lemma RebindPunctual(e: State, now: int, generation: string)
    requires generation != ""
    ensures Punctual(e, Announce(Rebind(e, now, generation)), now)
  {
    RebindShape(e, now, generation);
    RebindRenews(e, now, generation);
    assert Moved(e, Announce(Rebind(e, now, generation)), now);
  }

  lemma OpenPunctual(s: State, now: int, generation: string)
    requires Inv(s) && generation != ""
    ensures Punctual(s, Open(s, now, generation).0, now)
  {
    var e := Expire(s, now);
    PunctualSame(s, s, now);
    ExpireSafe(s, now);
    ExpirePunctual(s, now);
    if e.bridge != "" {
      PunctualSame(e, TouchBridge(e, now), now);
      HeartbeatPunctual(TouchBridge(e, now), now);
      PunctualTransitive(e, TouchBridge(e, now), Heartbeat(TouchBridge(e, now), now), now);
      PunctualTransitive(s, e, Heartbeat(TouchBridge(e, now), now), now);
    } else {
      RebindPunctual(e, now, generation);
      PunctualTransitive(s, e, Announce(Rebind(e, now, generation)), now);
    }
  }

  lemma ClosePunctual(s: State, now: int)
    ensures Punctual(s, Close(s, now).0, now)
  {
    var e := Expire(s, now);
    ExpirePunctual(s, now);
    PunctualTransitive(s, e, CloseBridge(e, "AGENT_BRIDGE_CLOSED"), now);
  }

  lemma TickPunctual(s: State, now: int)
    ensures Punctual(s, Tick(s, now), now)
  {
    PunctualSame(s, s, now);
    HeartbeatPunctual(s, now);
    ExpirePunctual(s, now);
  }

  lemma ShutdownPunctual(s: State, now: int)
    requires Inv(s)
    ensures Punctual(s, Shutdown(s), now)
  {
    PunctualSame(s, s, now);
    if !s.closed {
      ShutdownLedger(s);
      assert Moved(s, Shutdown(s), now);
      assert Lapses(s, Shutdown(s), now);
    }
  }

  lemma ShutdownLedger(s: State)
    requires !s.closed
    ensures Shutdown(s).ledger == Ending(s.ledger, ActiveIds(s), FailedFinal)
  {
    var c := s.(closed := true);
    assert ActiveIds(c) == ActiveIds(s);
    FinishIdsLedger(c, ActiveIds(c), FailedFinal, "AGENT_BROKER_CLOSED");
  }

  lemma TimerPunctual(s: State, bridge: string, items: seq<Item>, now: int)
    ensures Punctual(s, WaitOver(s, bridge, items, now).0, now)
  {
    ExpirePunctual(s, now);
    PunctualSame(Expire(s, now), WaitOver(s, bridge, items, now).0, now);
    PunctualTransitive(s, Expire(s, now), WaitOver(s, bridge, items, now).0, now);
  }

  lemma CollectPunctual(s: State, id: string, now: int)
    ensures Punctual(s, BrokerState.Collect(s, id).0, now)
  {
    PunctualSame(s, s, now);
    PunctualSame(Forget(s, id), BrokerState.Collect(s, id).0, now);
    PunctualTransitive(s, Forget(s, id), BrokerState.Collect(s, id).0, now);
  }

  /** Giving up ends one request however the clock stands; the rest keep their deadlines. */
  lemma QuitMoves(s: State, id: string, now: int)
    ensures Moved(s, Abandon(s, id, TimedOut, TIMEOUT), now)
  {}

  lemma BridgeEventPunctual(s: State, e: Event, now: int)
    requires Inv(s) && (e.OpenBridge? ==> e.generation != "")
    ensures e.OpenBridge? ==> Punctual(s, Open(s, now, e.generation).0, now)
    ensures e.CloseTheBridge? ==> Punctual(s, Close(s, now).0, now)
    ensures e.Beat? ==> Punctual(s, Tick(s, now), now)
    ensures e.Stop? ==> Punctual(s, Shutdown(s), now)
    ensures e.Enter? || e.Look? ==> Punctual(s, Refresh(s, now), now)
    ensures e.Receive? ==> Punctual(s, BrokerState.Collect(s, e.id).0, now)
    ensures e.Disconnect? ==> Punctual(s, Abandon(s, e.id, Disconnected, "AGENT_CLIENT_DISCONNECTED"), now)
  {
    match e
    case OpenBridge(_, generation) => OpenPunctual(s, now, generation);
    case CloseTheBridge(_) => ClosePunctual(s, now);
    case Enter(_, _, _, _, _) => RefreshPunctual(s, now);
    case Look(_) => RefreshPunctual(s, now);
    case Beat(_) => TickPunctual(s, now);
    case Stop => ShutdownPunctual(s, now);
    case Receive(id) => CollectPunctual(s, id, now);
    case Disconnect(id) =>
    case _ =>
  }

  lemma EffectPunctual(sys: System, e: Event)
    requires SystemOk(sys) && Enabled(sys, e) && !e.Quit?
    ensures Punctual(sys.broker, Effect(sys, e).broker, Time(sys, e))
  {
    if e.Pass? {
      PassPunctual(sys, e.key, e.now);
    } else if e.Timer? {
      TimerPunctual(sys.broker, sys.exchanges[e.key].bridge, sys.exchanges[e.key].items, e.now);
    } else if e.Ask? {
      AskPunctual(sys.broker, e.now, e.id, e.conversation);
    } else {
      PunctualSame(sys.broker, sys.broker, Time(sys, e));
      BridgeEventPunctual(sys.broker, e, Time(sys, e));
    }
  }

  lemma PassPunctual(sys: System, key: nat, now: int)
    requires SystemOk(sys) && key in sys.exchanges
    ensures Punctual(sys.broker, AfterPass(sys, key, now).broker, now)
  {
    var x := sys.exchanges[key];
    assert Awake(sys.broker, x);
    TurnPunctual(sys.broker, x.bridge, x.capacity, PendingOf(x), now);
  }

  lemma EffectMoves(sys: System, e: Event)
    requires SystemOk(sys) && Enabled(sys, e)
    ensures Moved(sys.broker, Effect(sys, e).broker, Time(sys, e))
  {
    if e.Quit? { QuitMoves(sys.broker, e.id, sys.clock); } else { EffectPunctual(sys, e); }
  }

  // ---------- While no bridge is open ----------

  /** No deadline moves. */
  ghost predicate Untouched(s: State, t: State) {
    forall id | id in t.requests && Active(t.requests[id].phase) ::
      id in s.requests && Active(s.requests[id].phase) && t.requests[id].deadline == s.requests[id].deadline
  }

  ghost const Unmoved: (State, State) -> bool := (s: State, t: State) => Untouched(s, t)

  lemma ExpireUnmoved(s: State, now: int)
    ensures Unmoved(s, Expire(s, now))
  {
    ExpireRequestsSets(s, now);
    assert Untouched(s, ExpireRequests(s, now));
  }

  lemma ExpireDetached(s: State, now: int)
    requires s.bridge == ""
    ensures Expire(s, now) == ExpireRequests(s, now) && Expire(s, now).bridge == "" && Refresh(s, now).bridge == ""
  {
    ExpireRequestsSets(s, now);
    ExpireRequestsSets(CleanupReceipts(s, now), now);
  }

  lemma RefreshUnmoved(s: State, now: int)
    ensures Unmoved(s, Refresh(s, now))
  {
    ExpireUnmoved(CleanupReceipts(s, now), now);
  }

  lemma TurnDetached(s: State, bridge: string, capacity: int, sub: Submission, now: int)
    requires s.bridge == ""
    ensures Turn(s, bridge, capacity, sub, now).0 == Refresh(s, now)
  {
    ExpireDetached(s, now);
    TurnUnfolds(s, bridge, capacity, sub, now);
  }

  lemma TickDetached(s: State, now: int)
    requires s.bridge == ""
    ensures Unmoved(s, Tick(s, now)) && Tick(s, now).bridge == ""
  {
    ExpireDetached(s, now);
    ExpireUnmoved(s, now);
  }

  lemma CloseDetached(s: State, now: int)
    requires s.bridge == ""
    ensures Unmoved(s, Close(s, now).0) && Close(s, now).0.bridge == ""
  {
    ExpireDetached(s, now);
    ExpireUnmoved(s, now);
  }

  lemma ShutdownUnmoved(s: State)
    requires Inv(s)
    ensures Unmoved(s, Shutdown(s)) && Shutdown(s).bridge == ""
  {
  }

  lemma CollectUnmoved(s: State, id: string)
    ensures Unmoved(s, BrokerState.Collect(s, id).0) && BrokerState.Collect(s, id).0.bridge == s.bridge
  {}

  lemma WaiterStaysDetached(s: State, e: Event, now: int)
    requires Inv(s) && s.bridge == ""
    ensures e.Stop? ==> Unmoved(s, Shutdown(s)) && Shutdown(s).bridge == ""
    ensures e.Receive? ==> Unmoved(s, BrokerState.Collect(s, e.id).0) && BrokerState.Collect(s, e.id).0.bridge == ""
    ensures e.Quit? ==> Unmoved(s, Abandon(s, e.id, TimedOut, TIMEOUT)) && Abandon(s, e.id, TimedOut, TIMEOUT).bridge == ""
    ensures e.Disconnect? ==> Unmoved(s, Abandon(s, e.id, Disconnected, "AGENT_CLIENT_DISCONNECTED"))
                              && Abandon(s, e.id, Disconnected, "AGENT_CLIENT_DISCONNECTED").bridge == ""
    ensures e.Beat? ==> Unmoved(s, Tick(s, now)) && Tick(s, now).bridge == ""
    ensures e.CloseTheBridge? ==> Unmoved(s, Close(s, now).0) && Close(s, now).0.bridge == ""
  {
    match e
    case Stop => ShutdownUnmoved(s);
    case Receive(id) => CollectUnmoved(s, id);
    case Quit(id) =>
    case Disconnect(id) =>
    case Beat(_) => TickDetached(s, now);
    case CloseTheBridge(_) => CloseDetached(s, now);
    case _ =>
  }

  lemma ExchangeStaysDetached(sys: System, e: Event)
    requires sys.broker.bridge == "" && Enabled(sys, e) && (e.Pass? || e.Timer?)
    ensures Unmoved(sys.broker, Effect(sys, e).broker) && Effect(sys, e).broker.bridge == ""
  {
    var x := sys.exchanges[e.key];
    ExpireDetached(sys.broker, e.now);
    if e.Pass? {
      RefreshUnmoved(sys.broker, e.now);
      TurnDetached(sys.broker, x.bridge, x.capacity, PendingOf(x), e.now);
    } else {
      ExpireUnmoved(sys.broker, e.now);
    }
  }

  /** While no bridge is open nothing extends a deadline, and only Open changes that. */
  lemma StaysDetached(sys: System, e: Event)
    requires SystemOk(sys) && Enabled(sys, e) && sys.broker.bridge == "" && !(e.OpenBridge? && !sys.broker.closed)
    ensures Unmoved(sys.broker, Effect(sys, e).broker) && Effect(sys, e).broker.bridge == ""
  {
    var s := sys.broker;
    var now := Time(sys, e);
    if e.Pass? || e.Timer? {
      ExchangeStaysDetached(sys, e);
    } else if e.Ask? || e.Enter? || e.Look? {
      LookStaysDetached(sys, e);
    } else {
      WaiterStaysDetached(s, e, now);
    }
  }

  lemma LookStaysDetached(sys: System, e: Event)
    requires sys.broker.bridge == "" && Enabled(sys, e) && (e.Ask? || e.Enter? || e.Look?)
    ensures Unmoved(sys.broker, Effect(sys, e).broker) && Effect(sys, e).broker.bridge == ""
  {
    var s := sys.broker;
    ExpireDetached(s, e.now);
    if e.Ask? {
      ExpireUnmoved(s, e.now);
      assert Unmoved(s, s);
    } else {
      RefreshUnmoved(s, e.now);
    }
  }

  // ---------- Deadlines over whole runs ----------

  /**
   * No deadline is more than the timeout away; without a bridge none is later than the timeout after the
   * detachment; with one, each leaves at least the timeout from the last tick.
   */
  ghost predicate OnTime(sys: System, r: Request) {
    var timeout := sys.broker.cfg.requestTimeout;
    && r.deadline <= sys.clock + timeout
    && (sys.broker.bridge == "" ==> r.deadline <= sys.detached + timeout)
    && (sys.broker.bridge != "" ==> sys.tick + timeout <= r.deadline)
  }

  ghost const Timely: System -> bool :=
    (sys: System) =>
      && sys.tick <= sys.clock && sys.detached <= sys.clock
      && forall id | id in sys.broker.requests && Active(sys.broker.requests[id].phase) :: OnTime(sys, sys.broker.requests[id])

  lemma BeatRenews(s: State, now: int)
    requires Inv(s) && Tick(s, now).bridge != ""
    ensures AllRenewed(Tick(s, now), now)
  {
    if !s.closed && s.bridge != "" && ActiveIds(s) != {} {
      ActiveBound(s);
      HeartbeatRenews(s, now);
    } else {
      TickNothing(s, now);
    }
  }

  lemma TickNothing(s: State, now: int)
    requires Inv(s) && Tick(s, now).bridge != "" && (s.closed || s.bridge == "" || ActiveIds(s) == {})
    ensures ActiveIds(Tick(s, now)) == {}
    ensures AllRenewed(Tick(s, now), now)
  {
    if s.bridge == "" { TickDetached(s, now); }
    ExpireSafe(s, now);
    assert ActiveIds(Tick(s, now)) == {};
    assert forall id | id in Tick(s, now).requests && Active(Tick(s, now).requests[id].phase) :: id in ActiveIds(Tick(s, now));
  }

  /** The requests an event renews are all renewed when a bridge opens or a tick finds one open. */
  lemma EventRenews(sys: System, e: Event)
    requires SystemOk(sys) && Enabled(sys, e) && Effect(sys, e).broker.bridge != ""
    requires sys.broker.bridge == "" || e.Beat?
    ensures AllRenewed(Effect(sys, e).broker, Time(sys, e))
  {
    if e.Beat? {
      BeatRenews(sys.broker, e.now);
    } else if e.OpenBridge? && !sys.broker.closed {
      OpenRenews(sys.broker, e.now, e.generation);
    } else {
      StaysDetached(sys, e);
    }
  }

  lemma KeepsTimely(sys: System, next: System, beat: bool)
    requires Timely(sys) && Moved(sys.broker, next.broker, next.clock) && sys.clock <= next.clock
    requires next.tick == if beat then next.clock else sys.tick
    requires next.detached == if sys.broker.bridge != "" && next.broker.bridge == "" then next.clock else sys.detached
    requires next.broker.bridge != "" && (sys.broker.bridge == "" || beat) ==> AllRenewed(next.broker, next.clock)
    requires next.broker.bridge == "" && sys.broker.bridge == "" ==> Unmoved(sys.broker, next.broker)
    ensures Timely(next)
  {
    forall id | id in next.broker.requests && Active(next.broker.requests[id].phase) ensures OnTime(next, next.broker.requests[id]) {
      if id in sys.broker.requests && Active(sys.broker.requests[id].phase) {
        assert OnTime(sys, sys.broker.requests[id]);
      }
    }
  }

  lemma StepTimely(sys: System, e: Event)
    requires SystemOk(sys) && Timely(sys) && Enabled(sys, e)
    ensures Timely(Step(sys, e))
  {
    EffectMoves(sys, e);
    StepTimes(sys, e);
    if Effect(sys, e).broker.bridge != "" {
      if sys.broker.bridge == "" || e.Beat? { EventRenews(sys, e); }
    } else if sys.broker.bridge == "" {
      if e.OpenBridge? && !sys.broker.closed { OpenOpens(sys.broker, e.now, e.generation); } else { StaysDetached(sys, e); }
    }
    KeepsTimely(sys, Step(sys, e), e.Beat?);
  }

  lemma OpenOpens(s: State, now: int, generation: string)
    requires !s.closed && generation != ""
    ensures Open(s, now, generation).0.bridge != ""
  {}

  lemma StepTimes(sys: System, e: Event)
    requires Enabled(sys, e)
    ensures var next := Step(sys, e);
            && next.clock == Time(sys, e) && sys.clock <= next.clock && next.tick == (if e.Beat? then e.now else sys.tick)
            && next.detached == (if sys.broker.bridge != "" && next.broker.bridge == "" then next.clock else sys.detached)
            && next.broker == Effect(sys, e).broker
  {}

  lemma {:induction false} RunTimely(sys: System, es: seq<Event>)
    requires SystemOk(sys) && Timely(sys) && Legal(sys, es)
    ensures Timely(Run(sys, es))
    decreases |es|
  {
    if es != [] {
      StepOk(sys, es[0]);
      StepTimely(sys, es[0]);
      RunTimely(Step(sys, es[0]), es[1..]);
    }
  }

  /** In every run, each active request's deadline is within these bounds. */
  lemma DeadlineBounds(cfg: Config, es: seq<Event>)
    requires Legal(Start(cfg), es)
    ensures Timely(Run(Start(cfg), es))
  {
    StartOk(cfg);
    RunTimely(Start(cfg), es);
  }

  // ---------- No request times out under an attended bridge ----------

  /** The bridge is open, the last tick is less than the timeout ago, and a waiter compares promptly what it read. */
  ghost predicate Attended(sys: System, e: Event)
    requires Enabled(sys, e)
  {
    && sys.broker.bridge != ""
    && Time(sys, e) < sys.tick + sys.broker.cfg.requestTimeout
    && (e.Check? ==> e.now < sys.waiters[e.id].asOf + sys.broker.cfg.requestTimeout)
  }

  ghost predicate AttendedRun(sys: System, es: seq<Event>)
    decreases |es|
  {
    es == [] || (Enabled(sys, es[0]) && Attended(sys, es[0]) && AttendedRun(Step(sys, es[0]), es[1..]))
  }

  lemma {:induction false} AttendedLegal(sys: System, es: seq<Event>)
    requires AttendedRun(sys, es)
    ensures Legal(sys, es)
    decreases |es|
  {
    if es != [] { AttendedLegal(Step(sys, es[0]), es[1..]); }
  }

  /** A waiter that is giving up, or has read an early deadline, has a request that ended already. */
  ghost predicate PatientOne(id: string, w: Waiter, timeout: int, ended: map<string, Phase>) {
    match w
    case Waiting => true
    case Comparing(deadline, asOf) => asOf + timeout <= deadline || id in ended
    case GivingUp => id in ended
  }

  ghost const Patient: System -> bool :=
    (sys: System) =>
      forall id | id in sys.waiters :: PatientOne(id, sys.waiters[id], sys.broker.cfg.requestTimeout, sys.broker.ledger.ended)

  lemma PatientStill(id: string, w: Waiter, timeout: int, ended: map<string, Phase>, later: map<string, Phase>)
    requires PatientOne(id, w, timeout, ended) && Extends(ended, later)
    ensures PatientOne(id, w, timeout, later)
  {}

  /** What a waiter reads is early only if its request has ended. */
  lemma PeekReads(sys: System, id: string)
    requires Inv(sys.broker) && Timely(sys) && sys.broker.bridge != "" && id in sys.broker.requests
    ensures PatientOne(id, Comparing(sys.broker.requests[id].deadline, sys.tick), sys.broker.cfg.requestTimeout,
                       sys.broker.ledger.ended)
  {
    InvRequest(sys.broker, id);
    if Active(sys.broker.requests[id].phase) { assert OnTime(sys, sys.broker.requests[id]); }
  }

  lemma OwnWaiterPatient(sys: System, e: Event, id: string)
    requires SystemOk(sys) && Timely(sys) && Patient(sys) && Enabled(sys, e) && Attended(sys, e)
    requires id in Effect(sys, e).waiters
    ensures PatientOne(id, Effect(sys, e).waiters[id], sys.broker.cfg.requestTimeout, sys.broker.ledger.ended)
  {
    if e.Peek? && id == e.id {
      PeekReads(sys, id);
    } else {
      WaiterMoves(sys, e, id);
      if id in sys.waiters { PatientNow(sys, id); }
    }
  }

  lemma PatientNow(sys: System, id: string)
    requires Patient(sys) && id in sys.waiters
    ensures PatientOne(id, sys.waiters[id], sys.broker.cfg.requestTimeout, sys.broker.ledger.ended)
  {}

  lemma WaiterMoves(sys: System, e: Event, id: string)
    requires Enabled(sys, e) && id in Effect(sys, e).waiters && !(e.Peek? && id == e.id)
    ensures var w := Effect(sys, e).waiters[id];
            || w.Waiting?
            || (id in sys.waiters && w == sys.waiters[id])
            || (e.Check? && e.id == id && w.GivingUp? && id in sys.waiters && sys.waiters[id].Comparing?
                && sys.waiters[id].deadline <= e.now)
  {}

  lemma StepPatient(sys: System, e: Event)
    requires SystemOk(sys) && Timely(sys) && Patient(sys) && Enabled(sys, e) && Attended(sys, e)
    ensures Patient(Step(sys, e))
  {
    var next := Step(sys, e);
    StepOk(sys, e);
    forall id | id in next.waiters
      ensures PatientOne(id, next.waiters[id], next.broker.cfg.requestTimeout, next.broker.ledger.ended)
    {
      OwnWaiterPatient(sys, e, id);
      PatientStill(id, next.waiters[id], sys.broker.cfg.requestTimeout, sys.broker.ledger.ended, next.broker.ledger.ended);
    }
  }

  ghost const NoneLapsed: (Ledger, Ledger) -> bool :=
    (a: Ledger, b: Ledger) =>
      forall id | id in b.ended && b.ended[id] == TimedOut :: id in a.ended && a.ended[id] == TimedOut

  lemma QuitEndsNothing(sys: System, id: string)
    requires Inv(sys.broker) && Patient(sys) && id in sys.waiters && sys.waiters[id].GivingUp?
    ensures Abandon(sys.broker, id, TimedOut, TIMEOUT).ledger == sys.broker.ledger
  {
    assert PatientOne(id, sys.waiters[id], sys.broker.cfg.requestTimeout, sys.broker.ledger.ended);
    if id in sys.broker.requests { InvRequest(sys.broker, id); }
  }

  lemma StepLapses(sys: System, e: Event)
    requires SystemOk(sys) && Timely(sys) && Patient(sys) && Enabled(sys, e) && Attended(sys, e)
    ensures NoneLapsed(sys.broker.ledger, Effect(sys, e).broker.ledger)
  {
    if e.Quit? {
      QuitEndsNothing(sys, e.id);
    } else {
      OthersLapse(sys, e);
    }
  }

  lemma {:induction false} AttendedLapses(sys: System, es: seq<Event>)
    requires SystemOk(sys) && Timely(sys) && Patient(sys) && AttendedRun(sys, es) && Legal(sys, es)
    ensures NoneLapsed(sys.broker.ledger, Run(sys, es).broker.ledger)
    decreases |es|
  {
    if es != [] {
      var next := Step(sys, es[0]);
      StepOk(sys, es[0]);
      StepTimely(sys, es[0]);
      StepPatient(sys, es[0]);
      StepLapses(sys, es[0]);
      StepTimes(sys, es[0]);
      AttendedLapses(next, es[1..]);
    }
  }

  /**
   * Timed liveness: from any reachable moment, as long as the bridge stays open, ticks come less than the
   * request timeout apart and nobody is already giving up, no request times out.
   */
  lemma AttendedNeverTimesOut(cfg: Config, past: seq<Event>, es: seq<Event>)
    requires Legal(Start(cfg), past)
    requires var sys := Run(Start(cfg), past); Patient(sys) && AttendedRun(sys, es) && Legal(sys, es)
    ensures var sys := Run(Start(cfg), past);
            forall id | id in Run(sys, es).broker.ledger.ended && Run(sys, es).broker.ledger.ended[id] == TimedOut ::
              id in sys.broker.ledger.ended && sys.broker.ledger.ended[id] == TimedOut
  {
    StartOk(cfg);
    RunOk(Start(cfg), past);
    DeadlineBounds(cfg, past);
    AttendedLapses(Run(Start(cfg), past), es);
  }

  // ---------- The one way to time out under an open bridge that ticks ----------

  /** The bridge is open and the last tick is less than the timeout ago; of waiters nothing is asked. */
  ghost predicate Ticked(sys: System, e: Event)
    requires Enabled(sys, e)
  {
    sys.broker.bridge != "" && Time(sys, e) < sys.tick + sys.broker.cfg.requestTimeout
  }

  ghost predicate TickedRun(sys: System, es: seq<Event>)
    requires Legal(sys, es)
    decreases |es|
  {
    es == [] || (Ticked(sys, es[0]) && TickedRun(Step(sys, es[0]), es[1..]))
  }

  ghost predicate HasTimedOut(ledger: Ledger, id: string) {
    id in ledger.ended && ledger.ended[id] == TimedOut
  }

  /** A waiter that found the deadline it had read passed, and gives up on a request that is still active. */
  ghost predicate GivesUpLive(s: State, e: Event, id: string) {
    e == Quit(id) && id in s.requests && Active(s.requests[id].phase)
  }

  ghost predicate EverGivesUpLive(sys: System, es: seq<Event>, id: string)
    requires Legal(sys, es)
    decreases |es|
  {
    es != [] && (GivesUpLive(sys.broker, es[0], id) || EverGivesUpLive(Step(sys, es[0]), es[1..], id))
  }

  lemma AbandonedTimesOut(s: State, quitter: string, id: string)
    ensures HasTimedOut(Abandon(s, quitter, TimedOut, TIMEOUT).ledger, id)
            <==> HasTimedOut(s.ledger, id) || GivesUpLive(s, Quit(quitter), id)
  {}

  /** Under an open bridge that ticks, a step times a request out exactly when its waiter gives up on it alive. */
  lemma StepTimesOutIff(sys: System, e: Event, id: string)
    requires SystemOk(sys) && Timely(sys) && Enabled(sys, e) && Ticked(sys, e)
    ensures HasTimedOut(Effect(sys, e).broker.ledger, id)
            <==> HasTimedOut(sys.broker.ledger, id) || GivesUpLive(sys.broker, e, id)
  {
    if e.Quit? {
      AbandonedTimesOut(sys.broker, e.id, id);
    } else {
      OthersLapse(sys, e);
      OthersKeep(sys, e);
    }
  }

  lemma OthersLapse(sys: System, e: Event)
    requires SystemOk(sys) && Timely(sys) && Enabled(sys, e) && Ticked(sys, e) && !e.Quit?
    ensures NoneLapsed(sys.broker.ledger, Effect(sys, e).broker.ledger)
  {
    EffectPunctual(sys, e);
  }

  lemma OthersKeep(sys: System, e: Event)
    requires SystemOk(sys) && Enabled(sys, e)
    ensures LedgerGrows(sys.broker.ledger, Effect(sys, e).broker.ledger)
  {
    EffectSafe(sys, e);
  }

  lemma {:induction false} RunTimesOutIff(sys: System, es: seq<Event>, id: string)
    requires SystemOk(sys) && Timely(sys) && Legal(sys, es) && TickedRun(sys, es)
    ensures HasTimedOut(Run(sys, es).broker.ledger, id)
            <==> HasTimedOut(sys.broker.ledger, id) || EverGivesUpLive(sys, es, id)
    decreases |es|
  {
    if es != [] {
      StepOk(sys, es[0]);
      StepTimely(sys, es[0]);
      StepTimesOutIff(sys, es[0], id);
      RunTimesOutIff(Step(sys, es[0]), es[1..], id);
    }
  }

  /**
   * From any reachable moment, as long as the bridge stays open and ticks come less than the request timeout
   * apart, a request times out exactly when its own waiter gives up on it while it is still active. Nothing is
   * assumed of waiters here: AttendedNeverTimesOut says what keeps them from it.
   */
  lemma TimesOutOnlyByItsWaiter(cfg: Config, past: seq<Event>, es: seq<Event>, id: string)
    requires Legal(Start(cfg), past)
    requires var sys := Run(Start(cfg), past); Legal(sys, es) && TickedRun(sys, es)
    ensures var sys := Run(Start(cfg), past);
            HasTimedOut(Run(sys, es).broker.ledger, id)
            <==> HasTimedOut(sys.broker.ledger, id) || EverGivesUpLive(sys, es, id)
  {
    StartOk(cfg);
    RunOk(Start(cfg), past);
    DeadlineBounds(cfg, past);
    RunTimesOutIff(Run(Start(cfg), past), es, id);
  }

  /** What a waiter reads is the deadline at that moment, and it gives up exactly when it finds that passed. */
  lemma GivesUpIff(sys: System, now: int, id: string)
    requires Enabled(sys, Check(now, id))
    ensures id in Step(sys, Check(now, id)).waiters
    ensures Step(sys, Check(now, id)).waiters[id].GivingUp? <==> sys.waiters[id].deadline <= now
  {}

  // ---------- A detached request's remaining life ----------

  ghost predicate NoOpening(es: seq<Event>) {
    forall e | e in es :: !e.OpenBridge?
  }

  /** Until a bridge opens again, a detached request keeps the deadline it had. */
  lemma {:induction false} DetachedKeepsDeadline(sys: System, es: seq<Event>)
    requires SystemOk(sys) && Legal(sys, es) && NoOpening(es) && sys.broker.bridge == ""
    ensures Run(sys, es).broker.bridge == "" && Run(sys, es).detached == sys.detached
    ensures Unmoved(sys.broker, Run(sys, es).broker)
    decreases |es|
  {
    if es != [] {
      var next := Step(sys, es[0]);
      assert es[0] in es;
      StepOk(sys, es[0]);
      StaysDetached(sys, es[0]);
      StepTimes(sys, es[0]);
      DetachedKeepsDeadline(next, es[1..]);
      UnmovedTransitive(sys.broker, next.broker, Run(sys, es).broker);
    }
  }

  lemma UnmovedTransitive(s: State, t: State, u: State)
    requires Unmoved(s, t) && Unmoved(t, u)
    ensures Unmoved(s, u)
  {}

  lemma AllDueExpire(s: State, now: int)
    requires forall id | id in s.requests && Active(s.requests[id].phase) :: s.requests[id].deadline <= now
    ensures ActiveIds(ExpireRequests(s, now)) == {}
  {
    ExpireRequestsSets(s, now);
    ExpireUnmoved(s, now);
    var t := ExpireRequests(s, now);
    forall id | id in t.requests ensures !Active(t.requests[id].phase) {
      if Active(s.requests[id].phase) { assert Due(s.requests[id], now); }
    }
  }

  /**
   * A detached request survives at most the timeout after the detachment: a bridge that opens later than
   * that, or anything else that looks, finds none left.
   */
  lemma DetachedEnds(cfg: Config, es: seq<Event>, now: int)
    requires Legal(Start(cfg), es)
    requires Run(Start(cfg), es).broker.bridge == "" && Run(Start(cfg), es).detached + Settle(cfg).requestTimeout <= now
    ensures ActiveIds(Expire(Run(Start(cfg), es).broker, now)) == {}
  {
    var sys := Run(Start(cfg), es);
    StartOk(cfg);
    RunOk(Start(cfg), es);
    DeadlineBounds(cfg, es);
    forall id | id in sys.broker.requests && Active(sys.broker.requests[id].phase)
      ensures sys.broker.requests[id].deadline <= now
    {
      assert OnTime(sys, sys.broker.requests[id]);
    }
    AllDueExpire(sys.broker, now);
    ExpireDetached(sys.broker, now);
  }
}
