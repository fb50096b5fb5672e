/** Every critical section keeps the invariant. */
module BrokerSteps {
  import opened Wrappers
  import opened Json
  import opened Canonical
  import opened BrokerState
  import opened BrokerInvariant
  import opened BrokerBatch
  import Text

  /** A critical section keeps the invariant and lets the ledger only grow. */
  ghost const Safe: (State, State) -> bool := (s: State, t: State) => Inv(t) && Follows(s, t)

  lemma SafeClosed(s: State, t: State)
    requires Inv(s) && Core(t) && Follows(s, t) && t.closed == s.closed && ActiveIds(t) <= ActiveIds(s)
    requires t.bridge == s.bridge || t.bridge == ""
    ensures Safe(s, t)
  {}

  lemma SafeTransitive(s: State, t: State, u: State)
    requires Safe(s, t) && Safe(t, u)
    ensures Safe(s, u)
  {
    FollowsTransitive(s, t, u);
  }

  // ---------- Expiry ----------

  /** Expiry either keeps the bridge or closes it, ends only what is due, and leaves nothing due. */
  lemma ExpireSafe(s: State, now: int)
    requires Inv(s)
    ensures Safe(s, Expire(s, now)) && NoneDue(Expire(s, now), now) && Expire(s, now).closed == s.closed
    ensures ActiveIds(Expire(s, now)) <= ActiveIds(s) && Expire(s, now).cfg == s.cfg
    ensures Expire(s, now).bridge == s.bridge || Expire(s, now).bridge == ""
  {
    var e := ExpireRequests(s, now);
    ExpireRequestsWorks(s, now);
    ExpireBridgeKeeps(e, now);
    FollowsTransitive(s, e, Expire(s, now));
    SafeClosed(s, Expire(s, now));
  }

  lemma RefreshSafe(s: State, now: int)
    requires Inv(s)
    ensures Safe(s, Refresh(s, now)) && NoneDue(Refresh(s, now), now) && Refresh(s, now).closed == s.closed
    ensures ActiveIds(Refresh(s, now)) <= ActiveIds(s) && Refresh(s, now).cfg == s.cfg
    ensures Refresh(s, now).bridge == s.bridge || Refresh(s, now).bridge == ""
  {
    var c := CleanupReceipts(s, now);
    CleanupReceiptsKeeps(s, now);
    SafeClosed(s, c);
    ExpireSafe(c, now);
    SafeTransitive(s, c, Refresh(s, now));
  }

  // ---------- Bridges ----------

  /** The new generation, before its first heartbeat. */
  function Bind(e: State, generation: string): State {
    e.(bridge := generation, ledger := e.ledger.(bridges := e.ledger.bridges + {generation}),
       requests := map id | id in e.requests :: Rebound(e.requests[id], generation))
  }

  function Rebind(e: State, now: int, generation: string): State {
    Heartbeat(TouchBridge(Bind(e, generation), now), now)
  }

  /** The signal that Open sends. */
  function Announce(b: State): State {
    Signal(Transition(b.(lastReported := 0, idleCount := 0), Ready, ""))
  }

  lemma RebindShape(e: State, now: int, generation: string)
    requires generation != ""
    ensures var t := Announce(Rebind(e, now, generation));
            && t.requests.Keys == e.requests.Keys && t.bridge == generation && t.lease.Some?
            && (forall id | id in e.requests :: SameLife(e.requests[id], t.requests[id]))
            && (forall id | id in e.requests && Active(e.requests[id].phase) :: t.requests[id].bridge == generation)
            && t.ledger == e.ledger.(bridges := e.ledger.bridges + {generation})
            && t.queue == e.queue && t.closed == e.closed && t.cfg == e.cfg && t.completed == e.completed
            && t.notify == e.notify + 1 && t.revision == e.revision + 1
  {
    var bound := Bind(e, generation);
    forall id | id in e.requests
      ensures SameLife(e.requests[id], bound.requests[id]) && (Active(e.requests[id].phase) ==> bound.requests[id].bridge == generation)
    {
    }
    var touched := TouchBridge(bound, now);
    forall id | id in e.requests
      ensures SameLife(bound.requests[id], Renewed(touched, bound.requests[id], now)) &&
              (Active(e.requests[id].phase) ==> Renewed(touched, bound.requests[id], now).bridge == generation)
    {
      RenewedSame(touched, bound.requests[id], now);
    }
  }

  lemma OpenSafe(s: State, now: int, generation: string)
    requires Inv(s) && generation != ""
    ensures Safe(s, Open(s, now, generation).0)
  {
    FollowsSelf(s);
    if !s.closed {
      var e := Expire(s, now);
      ExpireSafe(s, now);
      if e.bridge != "" {
        TouchBridgeKeeps(e, now);
        HeartbeatKeeps(TouchBridge(e, now), now);
        FollowsTransitive(e, TouchBridge(e, now), Heartbeat(TouchBridge(e, now), now));
      } else {
        RebindShape(e, now, generation);
        RebindKeeps(e, Announce(Rebind(e, now, generation)));
      }
      SafeTransitive(s, e, Open(s, now, generation).0);
    }
  }

  lemma CloseSafe(s: State, now: int)
    requires Inv(s)
    ensures Safe(s, Close(s, now).0)
  {
    var e := Expire(s, now);
    ExpireSafe(s, now);
    CloseBridgeKeeps(e, "AGENT_BRIDGE_CLOSED");
    if !e.closed && e.bridge != "" {
      SafeClosed(e, CloseBridge(e, "AGENT_BRIDGE_CLOSED"));
      SafeTransitive(s, e, Close(s, now).0);
    }
  }

  lemma FollowsClosing(s: State, t: State)
    requires Follows(s.(closed := true), t) && s.notify < t.notify
    ensures Follows(s, t)
  {
    var c := s.(closed := true);
    assert LedgerGrows(c.ledger, t.ledger) && c.ledger == s.ledger;
    assert Quiet(s, t);
  }

  lemma ShutdownSafe(s: State)
    requires Inv(s)
    ensures Safe(s, Shutdown(s))
  {
    FollowsSelf(s);
    if !s.closed {
      var c := s.(closed := true);
      assert ActiveIds(c) == ActiveIds(s);
      var f := FinishIds(c, ActiveIds(c), FailedFinal, "AGENT_BROKER_CLOSED");
      FinishIdsKeeps(c, ActiveIds(c), FailedFinal, "AGENT_BROKER_CLOSED");
      FinishIdsSets(c, ActiveIds(c), FailedFinal, "AGENT_BROKER_CLOSED");
      CloseBridgeKeeps(f, "AGENT_BROKER_CLOSED");
      var t := Shutdown(s);
      assert t == CloseBridge(f, "AGENT_BROKER_CLOSED");
      FollowsTransitive(c, f, t);
      FollowsClosing(s, t);
      assert ActiveIds(t) == {} && t.bridge == "";
    }
  }

  lemma TickSafe(s: State, now: int)
    requires Inv(s)
    ensures Safe(s, Tick(s, now))
  {
    FollowsSelf(s);
    if !s.closed {
      HeartbeatKeeps(s, now);
      ExpireSafe(s, now);
    }
  }

  lemma AdmitSafe(e: State, now: int, id: string, c: Conversation, payload: Result<(Fields, nat)>)
    requires Inv(e) && !e.closed && e.bridge != "" && |ActiveIds(e)| < e.cfg.maxPending && id !in e.ledger.serial
    ensures Safe(e, AdmitWith(e, now, id, c, payload).0)
  {
    FollowsSelf(e);
    if payload.Ok? && payload.value.1 <= e.cfg.maxBatchBytes {
      AdmittedKeeps(e, id, c, payload.value.0, payload.value.1, now);
    }
  }

  lemma EnqueueUnfolds(s: State, now: int, id: string, c: Conversation)
    ensures var e := Expire(s, now);
            Enqueue(s, now, id, c).0 ==
              if s.closed then s
              else if e.bridge == "" || |ActiveIds(e)| >= e.cfg.maxPending then e
              else AdmitWith(e, now, id, c, Payload(c)).0
  {}

  lemma EnqueueSafe(s: State, now: int, id: string, c: Conversation)
    requires Inv(s) && id !in s.ledger.serial
    ensures Safe(s, Enqueue(s, now, id, c).0)
  {
    FollowsSelf(s);
    if !s.closed {
      var e := Expire(s, now);
      ExpireSafe(s, now);
      if e.bridge != "" && |ActiveIds(e)| < e.cfg.maxPending {
        AdmitSafe(e, now, id, c, Payload(c));
        SafeTransitive(s, e, Admit(e, now, id, c).0);
      }
    }
  }

  // ---------- Responses and progress ----------

  lemma MarkWorks(s: State, id: string, code: string, now: int)
    requires Core(s) && id in s.requests
    ensures Works(s, MarkRetryable(s, id, code, now))
  {
    MarkRetryableKeeps(s, id, code, now);
  }

  lemma FinishWorks(s: State, id: string, phase: Phase, code: string)
    requires Core(s) && id in s.requests && Terminal(phase) && !Answered(phase)
    ensures Works(s, Finish(s, id, phase, code, NO_ANSWER))
  {
    FinishKeeps(s, id, phase, code);
    FinishKept(s, id, phase, code, NO_ANSWER);
    if Active(s.requests[id].phase) { FinishOne(s, id, phase, code, NO_ANSWER); }
  }

  lemma CompleteWorks(s: State, id: string, bridge: string, fingerprint: Completion, answer: Completion, now: int)
    requires Core(s) && id in s.requests && Active(s.requests[id].phase)
    ensures Works(s, Complete(s, id, bridge, fingerprint, answer, now))
  {
    CompleteSets(s, id, bridge, fingerprint, answer, now);
    CompleteKeeps(s, id, bridge, fingerprint, answer, now);
  }

  lemma AcceptLiveWorks(s: State, bridge: string, j: Judgement, answer: Completion, now: int)
    requires Core(s) && Live(s, j.id, bridge)
    ensures Works(s, AcceptLive(s, bridge, j, answer, now).state)
  {
    match j.fit(s.requests[j.id].conversation)
    case Err(code) => MarkWorks(s, j.id, code, now);
    case Ok(fitted) => CompleteWorks(s, j.id, bridge, answer, fitted, now);
  }

  lemma AcceptReadableWorks(s: State, bridge: string, j: Judgement, answer: Completion, now: int)
    requires Core(s)
    ensures Works(s, AcceptReadable(s, bridge, j, answer, now).state)
  {
    if j.id in s.receipts {
      WorksSelf(s);
    } else if Live(s, j.id, bridge) && now < s.requests[j.id].deadline {
      AcceptLiveWorks(s, bridge, j, answer, now);
    } else if j.id in s.requests && Due(s.requests[j.id], now) {
      FinishWorks(s, j.id, TimedOut, TIMEOUT);
    } else {
      WorksSelf(s);
    }
  }

  lemma AcceptWorks(s: State, bridge: string, j: Judgement, now: int)
    requires Core(s)
    ensures Works(s, Accept(s, bridge, j, now).state)
  {
    WorksSelf(s);
    match j.reading
    case Blank =>
    case Garbled(code) => if Live(s, j.id, bridge) { MarkWorks(s, j.id, code, now); }
    case Readable(answer) => AcceptReadableWorks(s, bridge, j, answer, now);
  }

  lemma {:induction false} AcceptAllWorks(s: State, bridge: string, rs: seq<Response>, now: int)
    requires Core(s)
    ensures Works(s, AcceptAll(s, bridge, rs, now).state)
    ensures |AcceptAll(s, bridge, rs, now).items| == |rs|
    decreases |rs|
  {
    if rs == [] {
      WorksSelf(s);
    } else {
      var before := AcceptAll(s, bridge, rs[..|rs| - 1], now).state;
      AcceptAllWorks(s, bridge, rs[..|rs| - 1], now);
      AcceptWorks(before, bridge, Judge(rs[|rs| - 1]), now);
      WorksTransitive(s, before, AcceptAll(s, bridge, rs, now).state);
    }
  }

  lemma ProgressRequests(s: State, bridge: string, p: Progress, now: int)
    requires RequestsFine(s) && Live(s, Text.Trim(p.requestId), bridge)
    ensures RequestsFine(AcceptProgressOne(s, bridge, p, now))
  {
    var id := Text.Trim(p.requestId);
    var t := AcceptProgressOne(s, bridge, p, now);
    assert RequestOk(id, s.requests[id], s.bridge, s.cfg.maxBatchBytes, s.queue, s.ledger);
    assert RequestOk(id, t.requests[id], t.bridge, t.cfg.maxBatchBytes, t.queue, t.ledger);
    OthersOk(s.requests, t.requests, {id}, s.bridge, s.cfg.maxBatchBytes, s.queue, t.queue, s.ledger, t.ledger);
  }

  lemma ProgressSets(s: State, bridge: string, p: Progress, now: int)
    ensures ActiveIds(AcceptProgressOne(s, bridge, p, now)) == ActiveIds(s)
    ensures AcceptProgressOne(s, bridge, p, now).ledger == s.ledger
  {}

  lemma ProgressKept(s: State, bridge: string, p: Progress, now: int)
    ensures Kept(s, AcceptProgressOne(s, bridge, p, now))
  {}

  lemma ProgressOneWorks(s: State, bridge: string, p: Progress, now: int)
    requires Core(s)
    ensures Works(s, AcceptProgressOne(s, bridge, p, now))
  {
    WorksSelf(s);
    if Live(s, Text.Trim(p.requestId), bridge) {
      var t := AcceptProgressOne(s, bridge, p, now);
      ProgressRequests(s, bridge, p, now);
      ProgressSets(s, bridge, p, now);
      ProgressKept(s, bridge, p, now);
      BalancedSame(ActiveIds(s), s.ledger, t.ledger, s.completed);
      Assemble(s, t);
    }
  }

  lemma {:induction false} AcceptProgressWorks(s: State, bridge: string, ps: seq<Progress>, now: int)
    requires Core(s)
    ensures Works(s, AcceptProgress(s, bridge, ps, now))
    decreases |ps|
  {
    if ps == [] {
      WorksSelf(s);
    } else {
      var before := AcceptProgress(s, bridge, ps[..|ps| - 1], now);
      AcceptProgressWorks(s, bridge, ps[..|ps| - 1], now);
      ProgressOneWorks(before, bridge, ps[|ps| - 1], now);
      WorksTransitive(s, before, AcceptProgress(s, bridge, ps, now));
    }
  }

  // ---------- Exchanges ----------

  lemma ReportWorks(s: State, kind: Kind, items: seq<Item>, entries: seq<Entry>)
    requires Core(s)
    ensures Works(s, Report(s, kind, items, entries).0)
    ensures ActiveIds(Report(s, kind, items, entries).0) == ActiveIds(s)
  {
    var t := Report(s, kind, items, entries).0;
    assert ActiveIds(t) == ActiveIds(s);
    ActiveBound(s);
    RebindKeeps(s, t);
  }

  lemma TouchWorks(s: State, now: int)
    requires Core(s)
    ensures Works(s, TouchBridge(s, now))
  {
    TouchBridgeKeeps(s, now);
  }

  lemma SubmitWorks(s: State, bridge: string, sub: Submission, now: int)
    requires Core(s)
    ensures Works(s, Submit(s, bridge, sub, now).state)
  {
    WorksSelf(s);
    match sub
    case Sent(_, _) =>
    case Unsent(responses, progress) =>
      var taken := AcceptAll(s, bridge, responses, now).state;
      AcceptAllWorks(s, bridge, responses, now);
      AcceptProgressWorks(taken, bridge, progress, now);
      WorksTransitive(s, taken, AcceptProgress(taken, bridge, progress, now));
  }

  /** What a pass sees: its submission taken, its batch built. */
  function Served(e: State, bridge: string, capacity: int, sub: Submission, now: int): Batch {
    NextBatch(Submit(TouchBridge(e, now), bridge, sub, now).state, bridge, capacity, now)
  }

  lemma TakenWorks(e: State, bridge: string, sub: Submission, now: int)
    requires Core(e)
    ensures Works(e, Submit(TouchBridge(e, now), bridge, sub, now).state)
  {
    var touched := TouchBridge(e, now);
    TouchWorks(e, now);
    SubmitWorks(touched, bridge, sub, now);
    WorksTransitive(e, touched, Submit(touched, bridge, sub, now).state);
  }

  lemma ServedWorks(e: State, bridge: string, capacity: int, sub: Submission, now: int)
    requires Core(e) && bridge == e.bridge && 1 <= capacity
    ensures Works(e, Served(e, bridge, capacity, sub, now).state) && GoodBatch(Served(e, bridge, capacity, sub, now), capacity)
    ensures Served(e, bridge, capacity, sub, now).entries == [] <==> ActiveIds(Served(e, bridge, capacity, sub, now).state) == {}
  {
    var taken := Submit(TouchBridge(e, now), bridge, sub, now).state;
    TakenWorks(e, bridge, sub, now);
    NextBatchWorks(taken, bridge, capacity, now);
    WorksTransitive(e, taken, Served(e, bridge, capacity, sub, now).state);
  }

  lemma ConcludeWorks(b: Batch, items: seq<Item>, followup: bool, now: int)
    requires Core(b.state)
    ensures Works(b.state, Conclude(b, items, followup, now).0)
    ensures b.entries == [] ==> ActiveIds(Conclude(b, items, followup, now).0) == ActiveIds(b.state)
  {
    var touched := TouchBridge(b.state, now);
    WorksSelf(b.state);
    TouchWorks(b.state, now);
    ReportWorks(touched, Requests, items, b.entries);
    WorksTransitive(b.state, touched, Report(touched, Requests, items, b.entries).0);
    ReportWorks(b.state, Responses, items, []);
  }

  lemma TurnUnfolds(s: State, bridge: string, capacity: int, sub: Submission, now: int)
    ensures var e := Refresh(s, now);
            Turn(s, bridge, capacity, sub, now) ==
              if RequireBridge(e, bridge).Some? then (e, Failed(RequireBridge(e, bridge).value))
              else
                var taken := Submit(TouchBridge(e, now), bridge, sub, now);
                Conclude(Served(e, bridge, capacity, sub, now), taken.items, taken.followup, now)
  {}

  lemma TurnSafe(s: State, bridge: string, capacity: int, sub: Submission, now: int)
    requires Inv(s) && 1 <= capacity
    ensures Safe(s, Turn(s, bridge, capacity, sub, now).0)
  {
    var e := Refresh(s, now);
    RefreshSafe(s, now);
    TurnUnfolds(s, bridge, capacity, sub, now);
    if RequireBridge(e, bridge).None? {
      var b := Served(e, bridge, capacity, sub, now);
      var taken := Submit(TouchBridge(e, now), bridge, sub, now);
      ServedWorks(e, bridge, capacity, sub, now);
      ConcludeWorks(b, taken.items, taken.followup, now);
      var t := Turn(s, bridge, capacity, sub, now).0;
      WorksTransitive(e, b.state, t);
      SafeTransitive(s, e, t);
    }
  }

  /** An exchange parks only with its bridge open, the broker open and no request active. */
  lemma ParksIdle(s: State, bridge: string, capacity: int, sub: Submission, now: int)
    requires Inv(s) && 1 <= capacity && Turn(s, bridge, capacity, sub, now).1.Park?
    ensures var t := Turn(s, bridge, capacity, sub, now).0; t.bridge == bridge && !t.closed && ActiveIds(t) == {}
  {
    var e := Refresh(s, now);
    RefreshSafe(s, now);
    TurnUnfolds(s, bridge, capacity, sub, now);
    ServedWorks(e, bridge, capacity, sub, now);
    ConcludeParks(Served(e, bridge, capacity, sub, now), Submit(TouchBridge(e, now), bridge, sub, now).items,
                  Submit(TouchBridge(e, now), bridge, sub, now).followup, now);
  }

  lemma ConcludeParks(b: Batch, items: seq<Item>, followup: bool, now: int)
    ensures Conclude(b, items, followup, now).1.Park? ==> b.entries == [] && Conclude(b, items, followup, now).0 == b.state
  {}

  ghost predicate IdleReply(output: Output) {
    || (output.kind == Requests && output.entries != [])
    || (output.kind == Responses && output.items != [] && output.activity.active == 0)
  }

  lemma ConcludeReplies(b: Batch, items: seq<Item>, followup: bool, now: int)
    requires b.entries == [] ==> ActiveIds(b.state) == {}
    ensures var reply := Conclude(b, items, followup, now).1; reply.Reply? ==> reply.output.entries == b.entries
    ensures var reply := Conclude(b, items, followup, now).1; reply.Reply? ==> IdleReply(reply.output)
  {
    if b.entries == [] { NoneCounted(b.state); }
  }

  /**
   * A pass replies with a batch within capacity and size that names distinct requests, or with results
   * alone once no request is active.
   */
  lemma RepliesWell(s: State, bridge: string, capacity: int, sub: Submission, now: int)
    requires Inv(s) && 1 <= capacity && Turn(s, bridge, capacity, sub, now).1.Reply?
    ensures var output := Turn(s, bridge, capacity, sub, now).1.output;
            IdleReply(output) && |output.entries| <= capacity && DistinctIds(output.entries)
            && Total(output.entries) <= s.cfg.maxBatchBytes
  {
    var e := Refresh(s, now);
    var b := Served(e, bridge, capacity, sub, now);
    var taken := Submit(TouchBridge(e, now), bridge, sub, now);
    RefreshSafe(s, now);
    ServedWorks(e, bridge, capacity, sub, now);
    ConcludeReplies(b, taken.items, taken.followup, now);
    assert Turn(s, bridge, capacity, sub, now) == Conclude(b, taken.items, taken.followup, now);
  }

  lemma NoneCounted(s: State)
    requires ActiveIds(s) == {}
    ensures QueuedIds(s) == {} && InflightIds(s) == {}
  {
    assert QueuedIds(s) <= ActiveIds(s) && InflightIds(s) <= ActiveIds(s);
  }

  lemma WaitOverSafe(s: State, bridge: string, items: seq<Item>, now: int)
    requires Inv(s)
    ensures Safe(s, WaitOver(s, bridge, items, now).0)
  {
    var e := Expire(s, now);
    ExpireSafe(s, now);
    if RequireBridge(e, bridge).None? {
      var touched := TouchBridge(e, now);
      TouchWorks(e, now);
      ReportWorks(touched, NoRequest, items, []);
      WorksTransitive(e, touched, Report(touched, NoRequest, items, []).0);
      SafeTransitive(s, e, WaitOver(s, bridge, items, now).0);
    }
  }

  // ---------- Waiters ----------

  lemma ForgetSafe(s: State, id: string)
    requires Inv(s) && (id in s.requests ==> Terminal(s.requests[id].phase))
    ensures Safe(s, Forget(s, id)) && id !in Forget(s, id).requests
  {
    ForgetKeeps(s, id);
    SafeClosed(s, Forget(s, id));
  }

  lemma ReturningBalances(active: set<string>, ledger: Ledger, completed: nat, id: string, answer: Completion)
    requires Balanced(active, ledger, completed) && id !in ledger.returned
    requires id in ledger.accepted && ledger.accepted[id] == answer
    ensures var grown := ledger.(returned := ledger.returned[id := answer]);
            Balanced(active, grown, completed) && LedgerGrows(ledger, grown)
  {
    assert Extends(ledger.returned[id := answer], ledger.accepted);
  }

  lemma ReturnedRequests(s: State, id: string, answer: Completion)
    requires RequestsFine(s) && id !in s.requests
    ensures RequestsFine(s.(ledger := s.ledger.(returned := s.ledger.returned[id := answer])))
  {
    var t := s.(ledger := s.ledger.(returned := s.ledger.returned[id := answer]));
    OthersOk(s.requests, t.requests, {id}, s.bridge, s.cfg.maxBatchBytes, s.queue, t.queue, s.ledger, t.ledger);
  }

  lemma InvRequest(s: State, id: string)
    requires Core(s) && id in s.requests
    ensures RequestOk(id, s.requests[id], s.bridge, s.cfg.maxBatchBytes, s.queue, s.ledger)
  {}

  lemma CollectAnswered(s: State, id: string)
    requires Inv(s) && id in s.requests && Answered(s.requests[id].phase)
    ensures Safe(s, Collect(s, id).0)
  {
    InvRequest(s, id);
    var f, answer := Forget(s, id), s.requests[id].result;
    ForgetSafe(s, id);
    ReturningBalances(ActiveIds(f), f.ledger, f.completed, id, answer);
    ReturnedRequests(f, id, answer);
    var t := Collect(s, id).0;
    assert ActiveIds(t) == ActiveIds(f);
    Assemble(f, t);
    SafeClosed(f, t);
    SafeTransitive(s, f, t);
  }

  /** Collecting hands out the accepted answer, once, and the request is gone afterwards. */
  lemma CollectSafe(s: State, id: string)
    requires Inv(s) && (id in s.requests ==> s.requests[id].done)
    ensures Safe(s, Collect(s, id).0) && id !in Collect(s, id).0.requests
    ensures Collect(s, id).1.Ok? ==> id in s.ledger.accepted && s.ledger.accepted[id] == Collect(s, id).1.value
                                     && id !in s.ledger.returned && id in Collect(s, id).0.ledger.returned
  {
    FollowsSelf(s);
    if id in s.requests {
      InvRequest(s, id);
      ForgetSafe(s, id);
      if Answered(s.requests[id].phase) { CollectAnswered(s, id); }
    }
  }

  lemma AbandonSafe(s: State, id: string, phase: Phase, code: string)
    requires Inv(s) && Terminal(phase) && !Answered(phase)
    ensures Safe(s, Abandon(s, id, phase, code)) && id !in Abandon(s, id, phase, code).requests
  {
    FollowsSelf(s);
    if id in s.requests {
      if Active(s.requests[id].phase) {
        var f := Finish(s, id, phase, code, NO_ANSWER).(lastState := Lifecycle(phase));
        FinishWorks(s, id, phase, code);
        FinishOne(s, id, phase, code, NO_ANSWER);
        assert Finish(s, id, phase, code, NO_ANSWER) == f;
        SafeClosed(s, f);
        ForgetSafe(f, id);
        SafeTransitive(s, f, Forget(f, id));
      } else {
        ForgetSafe(s, id);
      }
    }
  }
}
