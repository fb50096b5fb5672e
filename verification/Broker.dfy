/**
 * The broker as it runs: one object whose methods update its fields in place. Every method performs the
 * critical section that BrokerState defines as a function, and so all that is proved of those holds of it.
 */
module AgentBroker {
  import opened Wrappers
  import opened Json
  import opened Canonical
  import opened BrokerState
  import opened BrokerInvariant
  import opened BrokerBatch
  import opened BrokerSteps
  import BrokerRuns
  import Bridge
  import Text

  // ---------- What the class keeps of its requests ----------

  /** No active request is forgotten or ended. */
  ghost const StillActive: (map<string, Request>, map<string, Request>) -> bool :=
    (was: map<string, Request>, now: map<string, Request>) =>
      forall id | id in was && Active(was[id].phase) :: id in now && Active(now[id].phase)

  ghost const DoneAgrees: map<string, Request> -> bool :=
    (requests: map<string, Request>) => forall id | id in requests :: requests[id].done == Terminal(requests[id].phase)

  lemma SaneFrom(s: State)
    requires Core(s)
    ensures DoneAgrees(s.requests)
  {
    forall id | id in s.requests ensures s.requests[id].done == Terminal(s.requests[id].phase) {
      InvRequest(s, id);
    }
  }

  // ---------- Loops that visit a map in any order ----------

  lemma OneMoreIn(was: map<string, Request>, before: map<string, Request>, after: map<string, Request>, ids: set<string>,
                  id: string, phase: Phase, code: string)
    requires id in was && before.Keys == was.Keys == after.Keys
    requires forall i | i in was :: before[i] == if i in ids then Finished(was[i], phase, code, NO_ANSWER) else was[i]
    requires forall i | i in was :: after[i] == if i in ids + {id} then Finished(was[i], phase, code, NO_ANSWER) else was[i]
    ensures before[id := Finished(was[id], phase, code, NO_ANSWER)] == after
  {}

  lemma FinishMoreRequests(s: State, ids: set<string>, id: string, phase: Phase, code: string)
    requires ids <= ActiveIds(s) && id in ActiveIds(s) && id !in ids
    ensures FinishIds(s, ids, phase, code).requests[id := Finished(s.requests[id], phase, code, NO_ANSWER)]
            == FinishIds(s, ids + {id}, phase, code).requests
  {
    FinishIdsShape(s, ids, phase, code);
    FinishIdsShape(s, ids + {id}, phase, code);
    OneMoreIn(s.requests, FinishIds(s, ids, phase, code).requests, FinishIds(s, ids + {id}, phase, code).requests,
              ids, id, phase, code);
  }

  lemma EndingMore(ledger: Ledger, ids: set<string>, id: string, phase: Phase)
    requires id !in ids
    ensures Ending(Ending(ledger, ids, phase), {id}, phase) == Ending(ledger, ids + {id}, phase)
  {
    assert multiset(ids) + multiset({id}) == multiset(ids + {id});
    var twice, once := Ending(Ending(ledger, ids, phase), {id}, phase).ended, Ending(ledger, ids + {id}, phase).ended;
    assert twice.Keys == once.Keys;
  }

  lemma FinishMoreLedger(s: State, ids: set<string>, id: string, phase: Phase, code: string)
    requires ids <= ActiveIds(s) && id in ActiveIds(s) && id !in ids
    ensures Ending(FinishIds(s, ids, phase, code).ledger, {id}, phase) == FinishIds(s, ids + {id}, phase, code).ledger
  {
    FinishIdsLedger(s, ids, phase, code);
    FinishIdsLedger(s, ids + {id}, phase, code);
    EndingMore(s.ledger, ids, id, phase);
  }

  lemma FinishUnfolds(t: State, id: string, phase: Phase, code: string)
    requires id in t.requests && Active(t.requests[id].phase)
    ensures Finish(t, id, phase, code, NO_ANSWER)
            == Signal(Transition(t, Lifecycle(phase), code)).(requests := t.requests[id := Finished(t.requests[id], phase, code, NO_ANSWER)],
                                                             ledger := Ending(t.ledger, {id}, phase))
  {
    assert t.ledger.ended[id := phase] == Ending(t.ledger, {id}, phase).ended;
  }

  /** Finishing one more of the active requests. */
  lemma FinishMore(s: State, ids: set<string>, id: string, phase: Phase, code: string)
    requires ids <= ActiveIds(s) && id in ActiveIds(s) && id !in ids && Terminal(phase)
    ensures id in FinishIds(s, ids, phase, code).requests
    ensures Finish(FinishIds(s, ids, phase, code), id, phase, code, NO_ANSWER) == FinishIds(s, ids + {id}, phase, code)
  {
    FinishMoreRequests(s, ids, id, phase, code);
    FinishMoreLedger(s, ids, id, phase, code);
    FinishUnfolds(FinishIds(s, ids, phase, code), id, phase, code);
  }

  /** The requests after those in seen have been updated by f. */
  function Visited(m: map<string, Request>, seen: set<string>, f: Request -> Request): map<string, Request> {
    map id | id in m :: if id in seen then f(m[id]) else m[id]
  }

  lemma VisitMore(m: map<string, Request>, rest: set<string>, id: string, f: Request -> Request)
    requires id in rest && rest <= m.Keys
    ensures var now := Visited(m, m.Keys - rest, f);
            && id in now && now[id] == m[id]
            && now[id := f(m[id])] == Visited(m, m.Keys - (rest - {id}), f)
            && (f(m[id]) == m[id] ==> now == Visited(m, m.Keys - (rest - {id}), f))
  {}

  lemma DueMore(s: State, seen: set<string>, id: string, now: int)
    requires id in s.requests && id !in seen
    ensures DueIds(s, seen + {id}, now) == if Due(s.requests[id], now) then DueIds(s, seen, now) + {id} else DueIds(s, seen, now)
    ensures id !in DueIds(s, seen, now) && DueIds(s, seen, now) <= ActiveIds(s)
  {}

  /** One more request looked at, which is due or not. */
  lemma ExpireMore(s: State, gone: set<string>, rest: set<string>, id: string, now: int)
    requires rest <= s.requests.Keys && id in rest && gone == DueIds(s, s.requests.Keys - rest, now)
    ensures var t := FinishIds(s, gone, TimedOut, TIMEOUT);
            && id in t.requests && t.requests[id] == s.requests[id]
            && (Due(s.requests[id], now) ==> Finish(t, id, TimedOut, TIMEOUT, NO_ANSWER) == FinishIds(s, gone + {id}, TimedOut, TIMEOUT))
    ensures DueIds(s, s.requests.Keys - (rest - {id}), now) == if Due(s.requests[id], now) then gone + {id} else gone
  {
    DueMore(s, s.requests.Keys - rest, id, now);
    FinishIdsShape(s, gone, TimedOut, TIMEOUT);
    assert s.requests.Keys - (rest - {id}) == (s.requests.Keys - rest) + {id};
    if Due(s.requests[id], now) { FinishMore(s, gone, id, TimedOut, TIMEOUT); }
  }

  function Detaching(active: string, code: string): Request -> Request {
    (r: Request) => if r.bridge == active && Active(r.phase) then Detached(r, code) else r
  }

  function Renewing(bridge: string, deadline: int): Request -> Request {
    (r: Request) =>
      if !Active(r.phase) then r
      else if r.bridge == "" || r.bridge == bridge then r.(bridge := bridge, deadline := deadline)
      else r
  }

  function Rebinding(generation: string): Request -> Request {
    (r: Request) => Rebound(r, generation)
  }

  lemma CloseBridgeShape(s: State, code: string)
    ensures CloseBridge(s, code)
            == Signal(Transition(s.(bridge := "", lease := None)
                                   .(requests := Visited(s.requests, s.requests.Keys, Detaching(s.bridge, code))), Offline, code))
    ensures DoneAgrees(s.requests) ==> DoneAgrees(CloseBridge(s, code).requests)
  {
    assert CloseBridge(s, code).requests == Visited(s.requests, s.requests.Keys, Detaching(s.bridge, code));
  }

  lemma BindShape(s: State, generation: string)
    ensures Bind(s, generation)
            == s.(bridge := generation, ledger := s.ledger.(bridges := s.ledger.bridges + {generation}),
                  requests := Visited(s.requests, s.requests.Keys, Rebinding(generation)))
  {
    assert Bind(s, generation).requests == Visited(s.requests, s.requests.Keys, Rebinding(generation));
  }

  lemma BindAgrees(s: State, generation: string)
    requires DoneAgrees(s.requests)
    ensures DoneAgrees(Bind(s, generation).requests)
  {}

  lemma ShutdownUnfolds(s: State)
    requires !s.closed
    ensures var c := s.(closed := true);
            BrokerState.Shutdown(s) ==
              CloseBridge(FinishIds(c, ActiveIds(c), FailedFinal, "AGENT_BROKER_CLOSED"), "AGENT_BROKER_CLOSED")
  {
    assert ActiveIds(s.(closed := true)) == ActiveIds(s);
  }

  lemma OpenUnfolds(s: State, now: int, generation: string)
    requires !s.closed
    ensures var e := Expire(s, now);
            BrokerState.Open(s, now, generation) ==
              if e.bridge != "" then
                var kept := Heartbeat(TouchBridge(e, now), now);
                (kept, BrokerState.Opened(true, s.cfg.maxInflight, kept.revision))
              else
                var ready := Announce(Rebind(e, now, generation));
                (ready, BrokerState.Opened(ActiveIds(e) != {}, s.cfg.maxInflight, ready.revision))
  {}

  lemma ExpireConfig(s: State, now: int)
    ensures Expire(s, now).cfg == s.cfg && Expire(s, now).closed == s.closed
  {
    ExpireRequestsSets(s, now);
  }

  /** One turn of the loop that empties the queue. */
  lemma DrainTurns(b: Batch, held: string, capacity: int, inflight: int, now: int)
    requires |b.entries| < capacity && inflight < b.state.cfg.maxInflight && b.state.queue != []
    ensures var id := b.state.queue[0];
            var popped := PopQueue(b.state);
            Drain(b, held, capacity, inflight, now) ==
              if Discardable(b.state, id, held) then Drain(Batch(popped, b.entries, b.bytes), held, capacity, inflight, now)
              else if b.state.requests[id].deadline <= now then
                Drain(Batch(Finish(popped, id, TimedOut, TIMEOUT, NO_ANSWER), b.entries, b.bytes), held, capacity, inflight, now)
              else if b.bytes + b.state.requests[id].payloadBytes > b.state.cfg.maxBatchBytes then b
              else Drain(Append(Batch(Claim(popped, id, held), b.entries, b.bytes), id, now), held, capacity, inflight + 1, now)
  {}

  /** What is left to do once the receipt is written and the request is finished. */
  lemma CompleteFrom(s: State, g: State, f: State, phase: Phase, id: string, held: string, fingerprint: Completion,
                     answer: Completion, now: int)
    requires id in s.requests && g == s.(receipts := s.receipts[id := Receipt(held, fingerprint, now + s.cfg.receiptTtl)])
    requires phase == (if answer.finishReason == "tool_calls" then WaitingTool else Completed)
    requires f == Finish(g, id, phase, "", answer)
    ensures Complete(s, id, held, fingerprint, answer, now)
            == f.(completed := f.completed + 1, ledger := f.ledger.(accepted := f.ledger.accepted[id := answer]))
  {}

  // Each of the following says what a spec function gives from what the steps of its method gave.

  lemma DeliverAgain(s: State, t: State, id: string, r: Request, now: int)
    requires id in s.requests && r.phase == Running
    requires r == s.requests[id].(delivery := s.requests[id].delivery + 1, deadline := now + s.cfg.requestTimeout)
    requires t == s.(requests := s.requests[id := r])
    ensures t == Deliver(s, id, now)
  {}

  lemma DeliverFirst(s: State, t: State, id: string, r: Request, q: Request, now: int)
    requires id in s.requests && r.phase != Running && q == r.(previous := Some(r.phase), phase := Running)
    requires r == s.requests[id].(delivery := s.requests[id].delivery + 1, deadline := now + s.cfg.requestTimeout)
    requires t == Transition(s.(requests := s.requests[id := q]), Lifecycle(Running), "")
    ensures t == Deliver(s, id, now)
  {}

  lemma ExtendFrom(s: State, t: State, id: string, r: Request, q: Request, now: int)
    requires id in s.requests && r == s.requests[id].(deadline := now + s.cfg.requestTimeout)
    requires q == if r.phase == Claimed then r.(previous := Some(r.phase), phase := Running) else r
    requires r.phase != Claimed ==> t == s.(requests := s.requests[id := q])
    requires r.phase == Claimed ==> t == Transition(s.(requests := s.requests[id := q]), Lifecycle(Running), "")
    ensures t == Extend(s, id, now)
  {}

  lemma MarkFrom(s: State, t: State, id: string, q: Request, code: string, now: int)
    requires id in s.requests && Active(s.requests[id].phase)
    requires q == s.requests[id].(previous := Some(s.requests[id].phase), phase := FailedRetryable, code := code,
                                  deadline := now + s.cfg.requestTimeout, resumeReason := "retry_after_error")
    requires t == Signal(Transition(s.(requests := s.requests[id := q]), Lifecycle(FailedRetryable), code))
    ensures t == MarkRetryable(s, id, code, now)
  {}

  lemma AppendFrom(b: Batch, t: State, id: string, e: Entry, longer: seq<Entry>, total: nat, now: int)
    requires id in b.state.requests && t == Deliver(b.state, id, now) && e == EntryFor(id, b.state.requests[id])
    requires longer == b.entries + [e] && total == b.bytes + b.state.requests[id].payloadBytes
    ensures Append(b, id, now) == Batch(t, longer, total)
  {}

  lemma HeartbeatFrom(s: State, g: State, t: State, now: int)
    requires s.bridge != "" && g == TouchBridge(s.(lastHeartbeat := Some(now)), now)
    requires t == g.(requests := Visited(s.requests, s.requests.Keys, Renewing(s.bridge, now + s.cfg.requestTimeout)))
    ensures t == Heartbeat(s, now) && (DoneAgrees(s.requests) ==> DoneAgrees(t.requests))
  {
  }

  lemma ActiveMore(s: State, rest: set<string>, id: string)
    requires id in rest
    ensures ActiveIds(s) - (rest - {id}) == if id in ActiveIds(s) then (ActiveIds(s) - rest) + {id} else ActiveIds(s) - rest
    ensures id !in ActiveIds(s) - rest && ActiveIds(s) - rest <= ActiveIds(s)
  {}

  class Broker {
    const cfg: Config
    var bridge: string
    var lease: Option<int>
    var queue: seq<string>
    var requests: map<string, Request>
    var receipts: map<string, Receipt>
    var notify: nat
    var closed: bool
    var completed: nat
    var revision: nat
    var lastReported: nat
    var idleCount: nat
    var lastState: Status
    var lastError: string
    var lastHeartbeat: Option<int>
    var lastProgress: string
    ghost var ledger: Ledger

    ghost function Abs(): State
      reads this
    {
      State(cfg, bridge, lease, queue, requests, receipts, notify, closed, completed, revision, lastReported, idleCount,
            lastState, lastError, lastHeartbeat, lastProgress, ledger)
    }

    ghost predicate Valid()
      reads this
    {
      Inv(Abs())
    }

    /** A done channel is closed exactly when its request is over, so none is closed twice. */
    ghost predicate Sane()
      reads this
    {
      DoneAgrees(requests)
    }

    constructor (given: Config)
      ensures Valid() && Abs() == Initial(given)
    {
      var maxPending, maxInflight, maxBatchBytes := given.maxPending, given.maxInflight, given.maxBatchBytes;
      var requestTimeout, waitTimeout, bridgeLease := given.requestTimeout, given.waitTimeout, given.bridgeLease;
      var receiptTtl, heartbeat := given.receiptTtl, given.heartbeat;
      if maxPending <= 0 { maxPending := DEFAULT_MAX_PENDING; }
      if maxInflight <= 0 || maxInflight > maxPending {
        maxInflight := DEFAULT_MAX_INFLIGHT;
        if maxInflight > maxPending { maxInflight := maxPending; }
      }
      if maxBatchBytes <= 0 { maxBatchBytes := DEFAULT_MAX_BATCH_BYTES; }
      if requestTimeout <= 0 { requestTimeout := DEFAULT_REQUEST_TIMEOUT; }
      if waitTimeout <= 0 { waitTimeout := DEFAULT_WAIT_TIMEOUT; }
      if bridgeLease <= waitTimeout { bridgeLease := DEFAULT_BRIDGE_LEASE; }
      if receiptTtl <= 0 { receiptTtl := DEFAULT_RECEIPT_TTL; }
      if heartbeat <= 0 { heartbeat := DEFAULT_HEARTBEAT; }
      cfg := Config(maxPending, maxInflight, maxBatchBytes, requestTimeout, waitTimeout, bridgeLease, receiptTtl, heartbeat);
      bridge, lease, queue, requests, receipts := "", None, [], map[], map[];
      notify, closed, completed, revision, lastReported, idleCount := 0, false, 0, 0, 0, 0;
      lastState, lastError, lastHeartbeat, lastProgress := Unset, "", None, "";
      ledger := EMPTY_LEDGER;
      new;
      assert cfg == Settle(given);
      BrokerRuns.StartOk(given);
    }

    // ---------- Small steps ----------

    method SignalLocked()
      modifies `notify
      ensures Abs() == Signal(old(Abs()))
    {
      notify := notify + 1;
    }

    method TransitionLocked(status: Status, code: string)
      modifies `revision, `lastState, `lastError
      ensures Abs() == Transition(old(Abs()), status, code)
    {
      revision := revision + 1;
      lastState := status;
      lastError := code;
    }

    method TouchBridgeLocked(now: int)
      modifies `lease
      ensures Abs() == TouchBridge(old(Abs()), now)
    {
      if bridge != "" { lease := Some(now + cfg.bridgeLease); }
    }

    method PutLocked(id: string, r: Request)
      requires Sane() && r.done == Terminal(r.phase)
      modifies `requests
      ensures Sane() && Abs() == old(Abs()).(requests := old(requests)[id := r])
      ensures Active(r.phase) ==> StillActive(old(requests), requests)
    {
      requests := requests[id := r];
    }

    ghost method NoteEndLocked(id: string, phase: Phase)
      modifies `ledger
      ensures Abs() == old(Abs()).(ledger := old(ledger).(closes := old(ledger).closes + multiset{id},
                                                          ended := old(ledger).ended[id := phase]))
    {
      ledger := ledger.(closes := ledger.closes + multiset{id}, ended := ledger.ended[id := phase]);
    }

    method FinishLocked(id: string, phase: Phase, code: string, answer: Completion)
      requires Sane() && id in requests && Terminal(phase)
      modifies `requests, `ledger, `revision, `lastState, `lastError, `notify
      ensures Sane() && Abs() == Finish(old(Abs()), id, phase, code, answer)
    {
      var r := requests[id];
      if Terminal(r.phase) { return; }
      assert !r.done;
      ghost var s := Abs();
      var q := r.(previous := Some(r.phase), phase := phase, code := code, result := answer, done := true);
      PutLocked(id, q);
      NoteEndLocked(id, phase);
      TransitionLocked(Lifecycle(phase), code);
      SignalLocked();
    }

    method MarkRetryableLocked(id: string, code: string, now: int)
      requires Sane() && id in requests
      modifies this
      ensures Sane() && Abs() == MarkRetryable(old(Abs()), id, code, now)
    {
      var r := requests[id];
      if !Active(r.phase) { return; }
      ghost var s := Abs();
      var q := r.(previous := Some(r.phase), phase := FailedRetryable, code := code,
                  deadline := now + cfg.requestTimeout, resumeReason := "retry_after_error");
      PutLocked(id, q);
      TransitionLocked(Lifecycle(FailedRetryable), code);
      SignalLocked();
      MarkFrom(s, Abs(), id, q, code, now);
    }

    method RequireBridgeLocked(held: string) returns (error: Option<string>)
      ensures error == RequireBridge(Abs(), held)
    {
      if closed { return Some("AGENT_BROKER_CLOSED"); }
      if bridge == "" { return Some("AGENT_BRIDGE_NOT_ACTIVE"); }
      if held == "" || held != bridge { return Some("AGENT_BRIDGE_STALE_OPERATION"); }
      return None;
    }

    // ---------- Counting ----------

    method ActiveCountLocked() returns (count: nat)
      ensures count == |ActiveIds(Abs())|
    {
      var rest := requests.Keys;
      count := 0;
      ghost var seen: set<string> := {};
      while rest != {}
        invariant rest <= requests.Keys && seen == set id | id in requests.Keys - rest && Active(requests[id].phase)
        invariant count == |seen|
        decreases |rest|
      {
        var id :| id in rest;
        rest := rest - {id};
        if Active(requests[id].phase) {
          count := count + 1;
          seen := seen + {id};
        }
      }
      assert seen == ActiveIds(Abs());
    }

    method ClaimedCountLocked(held: string) returns (count: nat)
      ensures count == |InflightOn(Abs(), held)|
    {
      var rest := requests.Keys;
      count := 0;
      ghost var seen: set<string> := {};
      while rest != {}
        invariant rest <= requests.Keys
        invariant seen == set id | id in requests.Keys - rest && requests[id].bridge == held && Inflight(requests[id].phase)
        invariant count == |seen|
        decreases |rest|
      {
        var id :| id in rest;
        rest := rest - {id};
        if requests[id].bridge == held && Inflight(requests[id].phase) {
          count := count + 1;
          seen := seen + {id};
        }
      }
      assert seen == InflightOn(Abs(), held);
    }

    method CountLocked() returns (pending: nat, inflight: nat)
      ensures pending == |QueuedIds(Abs())| && inflight == |InflightIds(Abs())|
    {
      var rest := requests.Keys;
      pending, inflight := 0, 0;
      ghost var queued: set<string>, flying: set<string> := {}, {};
      while rest != {}
        invariant rest <= requests.Keys
        invariant queued == set id | id in requests.Keys - rest && requests[id].phase == Queued
        invariant flying == set id | id in requests.Keys - rest && Inflight(requests[id].phase)
        invariant pending == |queued| && inflight == |flying|
        decreases |rest|
      {
        var id :| id in rest;
        rest := rest - {id};
        if requests[id].phase == Queued {
          pending := pending + 1;
          queued := queued + {id};
        } else if Inflight(requests[id].phase) {
          inflight := inflight + 1;
          flying := flying + {id};
        }
      }
      assert queued == QueuedIds(Abs()) && flying == InflightIds(Abs());
    }

    // ---------- Expiry ----------

    method ExpireRequestsLocked(now: int)
      requires Sane()
      modifies this
      ensures Sane() && Abs() == ExpireRequests(old(Abs()), now)
    {
      ghost var s := Abs();
      ghost var gone: set<string> := {};
      var rest := requests.Keys;
      while rest != {}
        invariant rest <= s.requests.Keys && gone == DueIds(s, s.requests.Keys - rest, now)
        invariant Sane() && Abs() == FinishIds(s, gone, TimedOut, TIMEOUT)
        decreases |rest|
      {
        var id :| id in rest;
        ExpireMore(s, gone, rest, id, now);
        rest := rest - {id};
        if Active(requests[id].phase) && !(now < requests[id].deadline) {
          FinishLocked(id, TimedOut, TIMEOUT, NO_ANSWER);
          gone := gone + {id};
        }
      }
      assert s.requests.Keys - rest == s.requests.Keys;
    }

    method CleanupReceiptsLocked(now: int)
      modifies this
      ensures Abs() == CleanupReceipts(old(Abs()), now) && requests == old(requests)
    {
      ghost var s := Abs();
      var rest := receipts.Keys;
      while rest != {}
        invariant rest <= receipts.Keys <= s.receipts.Keys
        invariant forall id | id in s.receipts :: id in receipts <==> id in rest || now < s.receipts[id].expires
        invariant forall id | id in receipts :: receipts[id] == s.receipts[id]
        invariant Abs() == s.(receipts := receipts)
        decreases |rest|
      {
        var id :| id in rest;
        rest := rest - {id};
        if !(now < receipts[id].expires) { receipts := receipts - {id}; }
      }
      assert receipts == CleanupReceipts(s, now).receipts;
    }

    /** The loop of closeBridgeLocked. */
    method DetachLocked(active: string, code: string)
      modifies `requests
      ensures Abs() == old(Abs()).(requests := Visited(old(requests), old(requests.Keys), Detaching(active, code)))
    {
      ghost var was, f := requests, Detaching(active, code);
      var rest := requests.Keys;
      while rest != {}
        invariant rest <= was.Keys && requests == Visited(was, was.Keys - rest, f)
        decreases |rest|
      {
        var id :| id in rest;
        VisitMore(was, rest, id, f);
        rest := rest - {id};
        var r := requests[id];
        if r.bridge == active && Active(r.phase) {
          requests := requests[id := r.(previous := Some(r.phase), resumeReason := code, bridge := "")];
        }
      }
      assert was.Keys - rest == was.Keys;
    }

    method ClearBridgeLocked()
      modifies `bridge, `lease
      ensures Abs() == old(Abs()).(bridge := "", lease := None)
    {
      bridge := "";
      lease := None;
    }

    method CloseBridgeLocked(code: string)
      requires Sane()
      modifies this
      ensures Sane() && Abs() == CloseBridge(old(Abs()), code)
    {
      CloseBridgeShape(Abs(), code);
      var active := bridge;
      ClearBridgeLocked();
      DetachLocked(active, code);
      TransitionLocked(Offline, code);
      SignalLocked();
    }

    method ExpireBridgeLocked(now: int)
      requires Sane()
      modifies this
      ensures Sane() && Abs() == ExpireBridge(old(Abs()), now)
    {
      if bridge == "" || lease.None? || now < lease.value { return; }
      var claimed := ClaimedCountLocked(bridge);
      if claimed > 0 { return; }
      assert InflightOn(Abs(), bridge) == {};
      CloseBridgeLocked(STALE);
    }

    /** The loop of heartbeatLocked. */
    method RenewLocked(now: int)
      modifies `requests
      ensures Abs() == old(Abs()).(requests := Visited(old(requests), old(requests.Keys), Renewing(bridge, now + cfg.requestTimeout)))
    {
      ghost var was, f := requests, Renewing(bridge, now + cfg.requestTimeout);
      var rest := requests.Keys;
      while rest != {}
        invariant rest <= was.Keys && requests == Visited(was, was.Keys - rest, f)
        decreases |rest|
      {
        var id :| id in rest;
        VisitMore(was, rest, id, f);
        rest := rest - {id};
        var r := requests[id];
        if !Active(r.phase) { continue; }
        if r.bridge == "" { r := r.(bridge := bridge); }
        if r.bridge == bridge { r := r.(deadline := now + cfg.requestTimeout); }
        requests := requests[id := r];
      }
      assert was.Keys - rest == was.Keys;
    }

    method BeatLocked(now: int)
      modifies `lastHeartbeat
      ensures Abs() == old(Abs()).(lastHeartbeat := Some(now))
    {
      lastHeartbeat := Some(now);
    }

    method HeartbeatLocked(now: int)
      requires Sane()
      modifies this
      ensures Sane() && Abs() == Heartbeat(old(Abs()), now)
    {
      if bridge == "" { return; }
      ghost var s := Abs();
      BeatLocked(now);
      TouchBridgeLocked(now);
      ghost var g := Abs();
      RenewLocked(now);
      HeartbeatFrom(s, g, Abs(), now);
    }

    // ---------- Bridges ----------

    /** The loop of Open. */
    method RebindEachLocked(generation: string)
      modifies `requests
      ensures requests == Visited(old(requests), old(requests.Keys), Rebinding(generation))
    {
      ghost var was, f := requests, Rebinding(generation);
      var rest := requests.Keys;
      while rest != {}
        invariant rest <= was.Keys && requests == Visited(was, was.Keys - rest, f)
        decreases |rest|
      {
        var id :| id in rest;
        VisitMore(was, rest, id, f);
        rest := rest - {id};
        var r := requests[id];
        if !Active(r.phase) { continue; }
        if r.delivery > 0 {
          r := r.(previous := Some(r.phase));
          if r.resumeReason == "" { r := r.(resumeReason := "bridge_resumed"); }
        }
        requests := requests[id := r.(bridge := generation)];
      }
      assert was.Keys - rest == was.Keys;
    }

    method RebindLocked(generation: string)
      requires Sane()
      modifies this
      ensures Sane() && Abs() == Bind(old(Abs()), generation)
    {
      BindShape(Abs(), generation);
      BindAgrees(Abs(), generation);
      bridge := generation;
      ledger := ledger.(bridges := ledger.bridges + {generation});
      RebindEachLocked(generation);
    }

    method ExpireLocked(now: int)
      requires Sane()
      modifies this
      ensures Sane() && Abs() == Expire(old(Abs()), now)
    {
      ExpireRequestsLocked(now);
      ExpireBridgeLocked(now);
    }

    method AnnounceLocked(now: int, generation: string)
      requires Sane()
      modifies this
      ensures Sane() && Abs() == Announce(Rebind(old(Abs()), now, generation))
    {
      RebindLocked(generation);
      TouchBridgeLocked(now);
      HeartbeatLocked(now);
      lastReported := 0;
      idleCount := 0;
      TransitionLocked(Ready, "");
      SignalLocked();
    }

    /** The name of a new bridge is drawn at random and taken to be new. */
    method Open(now: int, generation: string) returns (reply: OpenReply)
      requires Valid() && generation != "" && generation !in ledger.bridges
      modifies this
      ensures Valid() && (Abs(), reply) == BrokerState.Open(old(Abs()), now, generation)
    {
      OpenSafe(Abs(), now, generation);
      if closed { return OpenFailed("AGENT_BROKER_CLOSED"); }
      OpenUnfolds(Abs(), now, generation);
      ExpireConfig(Abs(), now);
      SaneFrom(Abs());
      ExpireLocked(now);
      if bridge != "" {
        TouchBridgeLocked(now);
        HeartbeatLocked(now);
        return BrokerState.Opened(true, cfg.maxInflight, revision);
      }
      var active := ActiveCountLocked();
      assert active > 0 <==> ActiveIds(Abs()) != {};
      AnnounceLocked(now, generation);
      return BrokerState.Opened(active > 0, cfg.maxInflight, revision);
    }

    method Close(now: int) returns (reply: CloseReply)
      requires Valid()
      modifies this
      ensures Valid() && (Abs(), reply) == BrokerState.Close(old(Abs()), now)
    {
      CloseSafe(Abs(), now);
      SaneFrom(Abs());
      ExpireLocked(now);
      if closed { return CloseFailed("AGENT_BROKER_CLOSED"); }
      if bridge == "" { return NoActiveBridge; }
      CloseBridgeLocked("AGENT_BRIDGE_CLOSED");
      return BridgeClosed;
    }

    method FinishAllLocked(phase: Phase, code: string)
      requires Sane() && Terminal(phase)
      modifies this
      ensures Sane() && Abs() == FinishIds(old(Abs()), ActiveIds(old(Abs())), phase, code)
    {
      ghost var s := Abs();
      ghost var gone: set<string> := {};
      var rest := requests.Keys;
      while rest != {}
        invariant rest <= s.requests.Keys && gone == ActiveIds(s) - rest
        invariant Sane() && Abs() == FinishIds(s, gone, phase, code)
        decreases |rest|
      {
        var id :| id in rest;
        FinishIdsShape(s, gone, phase, code);
        ActiveMore(s, rest, id);
        assert requests[id] == s.requests[id];
        rest := rest - {id};
        if Active(requests[id].phase) {
          FinishLocked(id, phase, code, NO_ANSWER);
          FinishMore(s, gone, id, phase, code);
          gone := gone + {id};
        }
      }
      assert gone == ActiveIds(s);
    }

    method Shutdown()
      requires Valid()
      modifies this
      ensures Valid() && Abs() == BrokerState.Shutdown(old(Abs()))
    {
      ShutdownSafe(Abs());
      if closed { return; }
      SaneFrom(Abs());
      ShutdownUnfolds(Abs());
      closed := true;
      FinishAllLocked(FailedFinal, "AGENT_BROKER_CLOSED");
      CloseBridgeLocked("AGENT_BROKER_CLOSED");
    }

    /** One tick of the heartbeat loop; the loop ends when there is no more to do. */
    method HeartbeatTick(now: int) returns (more: bool)
      requires Valid()
      modifies this
      ensures Valid() && Abs() == Tick(old(Abs()), now) && more == !old(closed)
    {
      TickSafe(Abs(), now);
      if closed { return false; }
      SaneFrom(Abs());
      var active := ActiveCountLocked();
      if bridge != "" && active > 0 {
        HeartbeatLocked(now);
      } else {
        ExpireLocked(now);
      }
      return true;
    }

    // ---------- Admission ----------

    /** The name of a new request is drawn at random and taken to be new. */
    method Enqueue(now: int, id: string, conversation: Conversation) returns (reply: Result<int>)
      requires Valid() && id !in ledger.serial
      modifies this
      ensures Valid() && (Abs(), reply) == BrokerState.Enqueue(old(Abs()), now, id, conversation)
    {
      EnqueueSafe(Abs(), now, id, conversation);
      if closed { return Err("AGENT_BROKER_CLOSED"); }
      SaneFrom(Abs());
      ExpireConfig(Abs(), now);
      ExpireLocked(now);
      if bridge == "" { return Err("AGENT_BRIDGE_UNAVAILABLE"); }
      var active := ActiveCountLocked();
      if active >= cfg.maxPending { return Err("AGENT_BUSY"); }
      var payload := Payload(conversation);
      reply := AdmitLocked(now, id, conversation, payload);
    }

    method AdmitLocked(now: int, id: string, conversation: Conversation, payload: Result<(Fields, nat)>)
      returns (reply: Result<int>)
      modifies this
      ensures (Abs(), reply) == AdmitWith(old(Abs()), now, id, conversation, payload)
    {
      if payload.Err? { return Err(payload.code); }
      var (body, bytes) := payload.value;
      if bytes > cfg.maxBatchBytes { return Err("AGENT_REQUEST_TOO_LARGE"); }
      var r := Request(bridge, conversation, body, bytes, now, now + cfg.requestTimeout, Queued, None, "", 0, NO_ANSWER, "", false);
      requests := requests[id := r];
      queue := queue + [id];
      ledger := ledger.(serial := ledger.serial[id := |ledger.serial|]);
      TransitionLocked(Lifecycle(Queued), "");
      SignalLocked();
      return Ok(r.deadline);
    }

    method Snapshot(now: int) returns (snapshot: BrokerState.Snapshot)
      requires Valid()
      modifies this
      ensures Valid() && (Abs(), snapshot) == TakeSnapshot(old(Abs()), now)
    {
      RefreshSafe(Abs(), now);
      SaneFrom(Abs());
      RefreshLocked(now);
      var pending, claimed := CountLocked();
      var state := BridgeOffline;
      if bridge != "" {
        state := BridgeReady;
        if claimed > 0 { state := BridgeBusy; }
      }
      return BrokerState.Snapshot(state, pending, claimed, completed, revision, idleCount);
    }

    method RefreshLocked(now: int)
      requires Sane()
      modifies this
      ensures Sane() && Abs() == Refresh(old(Abs()), now)
    {
      CleanupReceiptsLocked(now);
      ExpireLocked(now);
    }

    // ---------- Responses and progress ----------

    /** The answer held against the request it is for. */
    method FitLocked(r: Response, conversation: Conversation) returns (fitted: Result<Completion>)
      requires r.body.Some?
      ensures fitted == Fit(r, conversation)
    {
      fitted := Bridge.DecodeBridgeCompletion(r.body.value, Some(conversation));
      if fitted.Err? { return; }
      var expected := "completion";
      if fitted.value.finishReason == "tool_calls" { expected := "tool_call"; }
      var supplied := Text.Trim(r.event);
      if supplied != "" && supplied != expected { return Err("AGENT_RESPONSE_EVENT_MISMATCH"); }
    }

    method AcceptFitLocked(held: string, r: Response, id: string, answer: Completion, now: int) returns (item: Item, followup: bool)
      requires Sane() && id == ResponseId(r) && id in requests && Active(requests[id].phase) && r.body.Some?
      modifies this
      ensures Sane() && Accepted(Abs(), item, followup) == AcceptLive(old(Abs()), held, Judge(r), answer, now)
    {
      ghost var s := Abs();
      var fitted := FitLocked(r, requests[id].conversation);
      if fitted.Err? {
        MarkRetryableLocked(id, fitted.code, now);
        return Item(id, Rejected(fitted.code)), false;
      }
      CompleteLocked(id, held, answer, fitted.value, now);
      return Item(id, CompletedNow), fitted.value.finishReason == "tool_calls";
    }

    method WriteReceiptLocked(id: string, held: string, fingerprint: Completion, now: int)
      modifies `receipts
      ensures Abs() == old(Abs()).(receipts := old(receipts)[id := Receipt(held, fingerprint, now + cfg.receiptTtl)])
    {
      receipts := receipts[id := Receipt(held, fingerprint, now + cfg.receiptTtl)];
    }

    method CountCompletedLocked(id: string, completion: Completion)
      modifies `completed, `ledger
      ensures Abs() == old(Abs()).(completed := old(completed) + 1,
                                   ledger := old(ledger).(accepted := old(ledger).accepted[id := completion]))
    {
      completed := completed + 1;
      ledger := ledger.(accepted := ledger.accepted[id := completion]);
    }

    method CompleteLocked(id: string, held: string, fingerprint: Completion, completion: Completion, now: int)
      requires Sane() && id in requests && Active(requests[id].phase)
      modifies this
      ensures Sane() && Abs() == Complete(old(Abs()), id, held, fingerprint, completion, now)
    {
      ghost var s := Abs();
      WriteReceiptLocked(id, held, fingerprint, now);
      ghost var g := Abs();
      var phase := Completed;
      if completion.finishReason == "tool_calls" { phase := WaitingTool; }
      FinishLocked(id, phase, "", completion);
      CompleteFrom(s, g, Abs(), phase, id, held, fingerprint, completion, now);
      CountCompletedLocked(id, completion);
    }

    method AcceptReadableLocked(held: string, r: Response, id: string, answer: Completion, now: int)
      returns (item: Item, followup: bool)
      requires Sane() && id == ResponseId(r) && r.body.Some?
      modifies this
      ensures Sane() && Accepted(Abs(), item, followup) == AcceptReadable(old(Abs()), held, Judge(r), answer, now)
    {
      if id in receipts {
        if receipts[id].bridge == held && receipts[id].answer == answer {
          return Item(id, Duplicate), answer.finishReason == "tool_calls";
        }
        return Item(id, Rejected("AGENT_RESPONSE_CONFLICT")), false;
      }
      if id !in requests || requests[id].bridge != held || !Active(requests[id].phase) || !(now < requests[id].deadline) {
        if id in requests && Active(requests[id].phase) && !(now < requests[id].deadline) {
          FinishLocked(id, TimedOut, TIMEOUT, NO_ANSWER);
        }
        return Item(id, Rejected("REQUEST_NO_LONGER_ACTIVE")), false;
      }
      item, followup := AcceptFitLocked(held, r, id, answer, now);
    }

    method AcceptResponseLocked(held: string, r: Response, now: int) returns (item: Item, followup: bool)
      requires Sane()
      modifies this
      ensures Sane() && Accepted(Abs(), item, followup) == AcceptOne(old(Abs()), held, r, now)
    {
      var id := Text.Trim(r.requestId);
      if id == "" || r.body.None? { return Item(id, Rejected("AGENT_RESPONSE_INVALID")), false; }
      var canonical := Bridge.DecodeBridgeCompletion(r.body.value, None);
      if canonical.Err? {
        if id in requests && requests[id].bridge == held && Active(requests[id].phase) {
          MarkRetryableLocked(id, canonical.code, now);
        }
        return Item(id, Rejected(canonical.code)), false;
      }
      item, followup := AcceptReadableLocked(held, r, id, canonical.value, now);
    }

    method AcceptResponsesLocked(held: string, responses: seq<Response>, now: int) returns (items: seq<Item>, followup: bool)
      requires Sane()
      modifies this
      ensures Sane() && AcceptedAll(Abs(), items, followup) == AcceptAll(old(Abs()), held, responses, now)
    {
      ghost var s := Abs();
      items, followup := [], false;
      for i := 0 to |responses|
        invariant Sane() && AcceptedAll(Abs(), items, followup) == AcceptAll(s, held, responses[..i], now)
      {
        var item, more := AcceptResponseLocked(held, responses[i], now);
        items := items + [item];
        followup := followup || more;
        assert responses[..i + 1][..i] == responses[..i];
      }
      assert responses[..|responses|] == responses;
    }

    method ExtendLocked(id: string, now: int)
      requires Sane() && id in requests && Active(requests[id].phase)
      modifies `requests, `revision, `lastState, `lastError
      ensures Sane() && Abs() == Extend(old(Abs()), id, now)
    {
      ghost var s := Abs();
      var r := requests[id].(deadline := now + cfg.requestTimeout);
      var q := r;
      if r.phase == Claimed {
        q := r.(previous := Some(r.phase), phase := Running);
        PutLocked(id, q);
        TransitionLocked(Lifecycle(Running), "");
      } else {
        PutLocked(id, q);
      }
      ExtendFrom(s, Abs(), id, r, q, now);
    }

    method AcceptOneProgressLocked(held: string, p: Progress, now: int)
      requires Sane()
      modifies this
      ensures Sane() && Abs() == AcceptProgressOne(old(Abs()), held, p, now)
    {
      var id := Text.Trim(p.requestId);
      var message := Text.Trim(p.message);
      if id == "" || message == "" || id !in requests || requests[id].bridge != held || !Active(requests[id].phase) { return; }
      ExtendLocked(id, now);
      lastProgress := message;
    }

    method AcceptProgressLocked(held: string, progress: seq<Progress>, now: int)
      requires Sane()
      modifies this
      ensures Sane() && Abs() == AcceptProgress(old(Abs()), held, progress, now)
    {
      ghost var s := Abs();
      for i := 0 to |progress|
        invariant Sane() && Abs() == AcceptProgress(s, held, progress[..i], now)
      {
        AcceptOneProgressLocked(held, progress[i], now);
        assert progress[..i + 1][..i] == progress[..i];
      }
      assert progress[..|progress|] == progress;
    }

    // ---------- Batches ----------

    method DeliverLocked(id: string, now: int)
      requires Sane() && id in requests && Active(requests[id].phase)
      modifies `requests, `revision, `lastState, `lastError
      ensures Sane() && Abs() == Deliver(old(Abs()), id, now) && StillActive(old(requests), requests)
    {
      ghost var s := Abs();
      var r := requests[id].(delivery := requests[id].delivery + 1, deadline := now + cfg.requestTimeout);
      if r.phase == Running {
        PutLocked(id, r);
        DeliverAgain(s, Abs(), id, r, now);
      } else {
        var q := r.(previous := Some(r.phase), phase := Running);
        PutLocked(id, q);
        TransitionLocked(Lifecycle(Running), "");
        DeliverFirst(s, Abs(), id, r, q, now);
      }
    }

    method EntryOf(id: string, r: Request) returns (entry: Entry)
      ensures entry == EntryFor(id, r)
    {
      var previous, reason := r.previous, r.resumeReason;
      if r.delivery > 0 {
        previous := Some(r.phase);
        if reason == "" { reason := "redelivery"; }
      }
      return Entry(id, r.delivery + 1, previous, reason, r.payloadBytes);
    }

    method AppendRequestLocked(id: string, capacity: int, batch: seq<Entry>, bytes: nat, now: int)
      returns (ok: bool, longer: seq<Entry>, total: nat)
      requires Sane() && id in requests && Active(requests[id].phase)
      modifies `requests, `revision, `lastState, `lastError
      ensures Sane() && StillActive(old(requests), requests)
      ensures ok == Fits(Batch(old(Abs()), batch, bytes), id, capacity)
      ensures Batch(Abs(), longer, total) ==
                if ok then Append(Batch(old(Abs()), batch, bytes), id, now) else Batch(old(Abs()), batch, bytes)
    {
      var r := requests[id];
      if |batch| >= capacity || bytes + r.payloadBytes > cfg.maxBatchBytes { return false, batch, bytes; }
      var entry := EntryOf(id, r);
      ghost var s := Abs();
      DeliverLocked(id, now);
      ok, longer, total := true, batch + [entry], bytes + r.payloadBytes;
      AppendFrom(Batch(s, batch, bytes), Abs(), id, entry, longer, total, now);
    }

    /** The ids in flight on a bridge, oldest first. */
    method OutstandingLocked(held: string) returns (ids: seq<string>)
      ensures ids == Text.Sorted(InflightOn(Abs(), held), CreationOrder(requests))
    {
      var rest := requests.Keys;
      var found: set<string> := {};
      while rest != {}
        invariant rest <= requests.Keys
        invariant found == set id | id in requests.Keys - rest && requests[id].bridge == held && Inflight(requests[id].phase)
        decreases |rest|
      {
        var id :| id in rest;
        rest := rest - {id};
        if requests[id].bridge == held && Inflight(requests[id].phase) { found := found + {id}; }
      }
      assert found == InflightOn(Abs(), held);
      ids := Text.Sorted(found, CreationOrder(requests));
    }

    method RedeliverLocked(ids: seq<string>, capacity: int, now: int) returns (batch: seq<Entry>, bytes: nat)
      requires Sane() && forall id | id in ids :: id in requests && Active(requests[id].phase)
      modifies this
      ensures Sane() && Batch(Abs(), batch, bytes) == Redeliver(Batch(old(Abs()), [], 0), ids, capacity, now)
    {
      batch, bytes := [], 0;
      ghost var target := Redeliver(Batch(Abs(), [], 0), ids, capacity, now);
      var i := 0;
      assert ids[0..] == ids;
      while i < |ids|
        invariant 0 <= i <= |ids| && Sane() && forall id | id in ids :: id in requests && Active(requests[id].phase)
        invariant Redeliver(Batch(Abs(), batch, bytes), ids[i..], capacity, now) == target
      {
        ghost var b := Batch(Abs(), batch, bytes);
        assert ids[i..][0] == ids[i] && ids[i..][1..] == ids[i + 1..];
        var ok;
        ok, batch, bytes := AppendRequestLocked(ids[i], capacity, batch, bytes, now);
        if !ok { break; }
        i := i + 1;
      }
      assert i == |ids| ==> ids[i..] == [];
      assert Batch(Abs(), batch, bytes) == target;
    }

    method ClaimLocked(id: string, held: string)
      requires Sane() && id in requests && Active(requests[id].phase)
      modifies `requests, `ledger, `revision, `lastState, `lastError
      ensures Sane() && id in requests && Active(requests[id].phase)
      ensures Abs() == Claim(old(Abs()), id, held)
    {
      var r := requests[id];
      requests := requests[id := r.(bridge := held, previous := Some(r.phase), phase := Claimed)];
      ledger := ledger.(claims := ledger.claims + [id]);
      TransitionLocked(Lifecycle(Claimed), "");
    }

    /** One turn of the loop that empties the queue; stop says that the loop breaks. */
    method DrainOneLocked(held: string, capacity: int, inflight: int, batch: seq<Entry>, bytes: nat, now: int)
      returns (stop: bool, count: int, longer: seq<Entry>, total: nat)
      requires Sane() && |batch| < capacity && inflight < cfg.maxInflight && queue != []
      modifies this
      ensures Sane() && |queue| <= |old(queue)| && (!stop ==> |queue| < |old(queue)|)
      ensures Drain(Batch(Abs(), longer, total), held, capacity, count, now)
              == Drain(Batch(old(Abs()), batch, bytes), held, capacity, inflight, now)
      ensures stop ==> Batch(Abs(), longer, total) == Drain(Batch(Abs(), longer, total), held, capacity, count, now)
    {
      DrainTurns(Batch(Abs(), batch, bytes), held, capacity, inflight, now);
      stop, count, longer, total := false, inflight, batch, bytes;
      var id := queue[0];
      if id !in requests || requests[id].phase != Queued || (requests[id].bridge != "" && requests[id].bridge != held) {
        queue := queue[1..];
      } else if !(now < requests[id].deadline) {
        queue := queue[1..];
        FinishLocked(id, TimedOut, TIMEOUT, NO_ANSWER);
      } else if bytes + requests[id].payloadBytes > cfg.maxBatchBytes {
        stop := true;
      } else {
        queue := queue[1..];
        ClaimLocked(id, held);
        count := count + 1;
        var ok;
        ok, longer, total := AppendRequestLocked(id, capacity, batch, bytes, now);
        stop := !ok;
      }
    }

    method DrainLocked(held: string, capacity: int, inflight: nat, batch0: seq<Entry>, bytes0: nat, now: int)
      returns (batch: seq<Entry>)
      requires Sane()
      modifies this
      ensures Sane()
      ensures var d := Drain(Batch(old(Abs()), batch0, bytes0), held, capacity, inflight, now); Abs() == d.state && batch == d.entries
    {
      ghost var target := Drain(Batch(Abs(), batch0, bytes0), held, capacity, inflight, now);
      batch := batch0;
      var bytes: nat, count: int := bytes0, inflight;
      while |batch| < capacity && count < cfg.maxInflight && queue != []
        invariant Sane() && Drain(Batch(Abs(), batch, bytes), held, capacity, count, now) == target
        decreases |queue|
      {
        var stop;
        stop, count, batch, bytes := DrainOneLocked(held, capacity, count, batch, bytes, now);
        if stop { break; }
      }
    }

    method NextBatchLocked(held: string, capacity: int, now: int) returns (batch: seq<Entry>)
      requires Sane()
      modifies this
      ensures Sane()
      ensures var b := NextBatch(old(Abs()), held, capacity, now); Abs() == b.state && batch == b.entries
    {
      ExpireRequestsLocked(now);
      var inflight := OutstandingLocked(held);
      var bytes;
      batch, bytes := RedeliverLocked(inflight, capacity, now);
      batch := DrainLocked(held, capacity, |inflight|, batch, bytes, now);
    }

    // ---------- Exchanges ----------

    method ExchangeOutputLocked(kind: Kind, items: seq<Item>, entries: seq<Entry>) returns (output: Output)
      modifies this
      ensures (Abs(), output) == Report(old(Abs()), kind, items, entries)
    {
      var pending, inflight := CountLocked();
      var changed := revision != lastReported;
      if kind == NoRequest && !changed {
        idleCount := idleCount + 1;
      } else {
        idleCount := 0;
      }
      lastReported := revision;
      return Output(kind, Activity(revision, changed, pending, inflight, pending + inflight, idleCount), items, entries);
    }

    /** The first critical section of Exchange. */
    method BeginExchange(now: int) returns (reply: Result<string>)
      requires Valid()
      modifies this
      ensures Valid() && (Abs(), reply) == Begin(old(Abs()), now)
    {
      RefreshSafe(Abs(), now);
      SaneFrom(Abs());
      RefreshLocked(now);
      if closed { return Err("AGENT_BROKER_CLOSED"); }
      if bridge == "" { return Err("AGENT_BRIDGE_NOT_ACTIVE"); }
      return Ok(bridge);
    }

    method SubmitLocked(held: string, sub: Submission, now: int) returns (items: seq<Item>, followup: bool)
      requires Sane()
      modifies this
      ensures Sane() && AcceptedAll(Abs(), items, followup) == Submit(old(Abs()), held, sub, now)
    {
      match sub
      case Sent(earlier, expected) =>
        items, followup := earlier, expected;
      case Unsent(responses, progress) =>
        items, followup := AcceptResponsesLocked(held, responses, now);
        AcceptProgressLocked(held, progress, now);
    }

    method ConcludeLocked(batch: seq<Entry>, ghost bytes: nat, items: seq<Item>, followup: bool, now: int) returns (reply: TurnReply)
      modifies this
      ensures (Abs(), reply) == Conclude(Batch(old(Abs()), batch, bytes), items, followup, now)
    {
      if batch != [] {
        TouchBridgeLocked(now);
        var output := ExchangeOutputLocked(Requests, items, batch);
        return Reply(output);
      }
      if items != [] && !followup {
        var output := ExchangeOutputLocked(Responses, items, []);
        return Reply(output);
      }
      return Park(items, followup);
    }

    /** One pass of Exchange's loop, up to its select. */
    method ExchangePass(held: string, capacity: int, sub: Submission, now: int) returns (reply: TurnReply)
      requires Valid() && 1 <= capacity
      modifies this
      ensures Valid() && (Abs(), reply) == Turn(old(Abs()), held, capacity, sub, now)
    {
      TurnSafe(Abs(), held, capacity, sub, now);
      TurnUnfolds(Abs(), held, capacity, sub, now);
      SaneFrom(Abs());
      RefreshLocked(now);
      var error := RequireBridgeLocked(held);
      if error.Some? { return Failed(error.value); }
      TouchBridgeLocked(now);
      var items, followup := SubmitLocked(held, sub, now);
      ghost var bytes := NextBatch(Abs(), held, capacity, now).bytes;
      var batch := NextBatchLocked(held, capacity, now);
      reply := ConcludeLocked(batch, bytes, items, followup, now);
    }

    /** What Exchange does when its timer fires in the select. */
    method ExchangeTimeout(held: string, items: seq<Item>, now: int) returns (reply: TurnReply)
      requires Valid()
      modifies this
      ensures Valid() && (Abs(), reply) == WaitOver(old(Abs()), held, items, now)
    {
      WaitOverSafe(Abs(), held, items, now);
      SaneFrom(Abs());
      ExpireLocked(now);
      var error := RequireBridgeLocked(held);
      if error.Some? { return Failed(error.value); }
      TouchBridgeLocked(now);
      var output := ExchangeOutputLocked(NoRequest, items, []);
      return Reply(output);
    }

    // ---------- The waiter's side ----------

    method CompactQueueLocked(id: string)
      modifies `queue
      ensures queue == Without(old(queue), id)
    {
      var filtered := [];
      for i := 0 to |queue|
        invariant filtered + Without(queue[i..], id) == Without(queue, id)
      {
        assert queue[i..][0] == queue[i] && queue[i..][1..] == queue[i + 1..];
        if queue[i] != id { filtered := filtered + [queue[i]]; }
      }
      assert queue[|queue|..] == [];
      queue := filtered;
    }

    method ForgetLocked(id: string)
      modifies this
      ensures Abs() == Forget(old(Abs()), id)
    {
      requests := requests - {id};
      CompactQueueLocked(id);
    }

    method CurrentDeadline(id: string) returns (reply: Result<int>)
      ensures reply == BrokerState.CurrentDeadline(Abs(), id)
    {
      if id !in requests { return Err(GONE); }
      return Ok(requests[id].deadline);
    }

    /** result: called once the request's done channel is closed. */
    method Collect(id: string) returns (reply: Result<Completion>)
      requires Valid() && (id in requests ==> requests[id].done)
      modifies this
      ensures Valid() && (Abs(), reply) == BrokerState.Collect(old(Abs()), id)
    {
      CollectSafe(Abs(), id);
      if id !in requests { return Err(GONE); }
      var r := requests[id];
      ForgetLocked(id);
      if r.phase != Completed && r.phase != WaitingTool {
        if r.code == "" { return Err("AGENT_REQUEST_FAILED"); }
        return Err(r.code);
      }
      ledger := ledger.(returned := ledger.returned[id := r.result]);
      return Ok(r.result);
    }

    method ShowLocked(status: Status)
      modifies `lastState
      ensures Abs() == old(Abs()).(lastState := status)
    {
      lastState := status;
    }

    method TerminateAndForget(id: string, phase: Phase, code: string)
      requires Valid() && Terminal(phase) && !Answered(phase)
      modifies this
      ensures Valid() && Abs() == Abandon(old(Abs()), id, phase, code)
    {
      AbandonSafe(Abs(), id, phase, code);
      SaneFrom(Abs());
      if id !in requests { return; }
      if Active(requests[id].phase) {
        FinishLocked(id, phase, code, NO_ANSWER);
        ShowLocked(Lifecycle(phase));
      }
      ForgetLocked(id);
    }
  }
}
