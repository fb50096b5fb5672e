/** When the number of requests in flight stays within its limit. */
module BrokerLimits {
  import opened Wrappers
  import opened Json
  import opened Canonical
  import opened BrokerState
  import opened BrokerInvariant
  import opened BrokerBatch
  import opened BrokerSteps
  import opened BrokerRuns
  import opened BrokerReplay
  import opened BrokerLaws
  import Text

  // ---------- One response ----------

  /** A response that is refused after its request was found, and so leaves the request to be retried. */
  predicate Marks(s: State, bridge: string, j: Judgement, now: int) {
    && Live(s, j.id, bridge)
    && (j.reading.Garbled?
        || (j.reading.Readable? && j.id !in s.receipts && now < s.requests[j.id].deadline
            && j.fit(s.requests[j.id].conversation).Err?))
  }

  predicate MarksQueued(s: State, bridge: string, j: Judgement, now: int) {
    Marks(s, bridge, j, now) && s.requests[j.id].phase == Queued
  }

  lemma MarksState(s: State, bridge: string, j: Judgement, now: int)
    requires Marks(s, bridge, j, now)
    ensures exists code :: Accept(s, bridge, j, now).state == MarkRetryable(s, j.id, code, now)
  {
    if j.reading.Readable? {
      var code := j.fit(s.requests[j.id].conversation).code;
      assert Accept(s, bridge, j, now).state == MarkRetryable(s, j.id, code, now);
    } else {
      assert Accept(s, bridge, j, now).state == MarkRetryable(s, j.id, j.reading.code, now);
    }
  }

  /** A response that does not mark leaves every request as it is or ends it. */
  ghost const OnlyEnds: (State, State) -> bool :=
    (s: State, t: State) =>
      && t.cfg == s.cfg && t.requests.Keys == s.requests.Keys
      && forall id | id in t.requests && Active(t.requests[id].phase) :: t.requests[id] == s.requests[id]

  lemma FinishOnlyEnds(s: State, id: string, phase: Phase, code: string)
    requires id in s.requests && Terminal(phase)
    ensures OnlyEnds(s, Finish(s, id, phase, code, NO_ANSWER))
  {}

  lemma CompleteOnlyEnds(s: State, id: string, bridge: string, fingerprint: Completion, answer: Completion, now: int)
    requires id in s.requests && Active(s.requests[id].phase)
    ensures OnlyEnds(s, Complete(s, id, bridge, fingerprint, answer, now))
  {
  }

  lemma ReadableEndsOnly(s: State, bridge: string, j: Judgement, answer: Completion, now: int)
    requires j.reading == Readable(answer) && !Marks(s, bridge, j, now)
    ensures OnlyEnds(s, AcceptReadable(s, bridge, j, answer, now).state)
  {
    if j.id in s.receipts {
    } else if Live(s, j.id, bridge) && now < s.requests[j.id].deadline {
      CompleteOnlyEnds(s, j.id, bridge, answer, j.fit(s.requests[j.id].conversation).value, now);
    } else if j.id in s.requests && Due(s.requests[j.id], now) {
      FinishOnlyEnds(s, j.id, TimedOut, TIMEOUT);
    }
  }

  lemma EndsOnly(s: State, bridge: string, j: Judgement, now: int)
    requires !Marks(s, bridge, j, now)
    ensures OnlyEnds(s, Accept(s, bridge, j, now).state)
  {
    if j.reading.Readable? { ReadableEndsOnly(s, bridge, j, j.reading.answer, now); }
  }

  lemma MarkSets(s: State, id: string, code: string, now: int)
    requires id in s.requests && Active(s.requests[id].phase)
    ensures InflightIds(MarkRetryable(s, id, code, now)) == InflightIds(s) + {id}
  {}

  lemma EndsSets(s: State, t: State)
    requires OnlyEnds(s, t)
    ensures InflightIds(t) <= InflightIds(s)
  {}

  /**
   * Exactly when a response puts a request in flight that was not: when it is refused after finding a request
   * that is still queued. It then adds that one, whatever the limit.
   */
  lemma GrowsIff(s: State, bridge: string, r: Response, now: int)
    ensures var t := AcceptOne(s, bridge, r, now).state;
            && (!(InflightIds(t) <= InflightIds(s)) <==> MarksQueued(s, bridge, Judge(r), now))
            && (MarksQueued(s, bridge, Judge(r), now) ==> |InflightIds(t)| == |InflightIds(s)| + 1)
  {
    var j := Judge(r);
    if Marks(s, bridge, j, now) {
      MarksState(s, bridge, j, now);
      var code :| Accept(s, bridge, j, now).state == MarkRetryable(s, j.id, code, now);
      MarkSets(s, j.id, code, now);
      assert (j.id in InflightIds(s)) == (s.requests[j.id].phase != Queued);
    } else {
      EndsOnly(s, bridge, j, now);
      EndsSets(s, Accept(s, bridge, j, now).state);
    }
  }

  // ---------- Queued and never delivered ----------

  /** Among the active requests, the queued ones are those never delivered. */
  ghost const Told: State -> bool :=
    (s: State) =>
      forall id | id in s.requests && Active(s.requests[id].phase) :: s.requests[id].phase == Queued <==> s.requests[id].delivery == 0

  ghost const Level: State -> bool := (s: State) => Told(s) && |InflightIds(s)| <= s.cfg.maxInflight

  /** Nothing is put in flight: what is active is as it was, or newly queued. */
  ghost predicate Fade(s: State, t: State) {
    && t.cfg == s.cfg
    && forall id | id in t.requests && Active(t.requests[id].phase) ::
         || (t.requests[id].phase == Queued && t.requests[id].delivery == 0)
         || (id in s.requests && t.requests[id].phase == s.requests[id].phase && t.requests[id].delivery == s.requests[id].delivery)
  }

  ghost const Fades: (State, State) -> bool := (s: State, t: State) => Fade(s, t)

  lemma FadesTransitive(s: State, t: State, u: State)
    requires Fades(s, t) && Fades(t, u)
    ensures Fades(s, u)
  {}

  lemma FadesLevel(s: State, t: State)
    requires Fades(s, t)
    ensures InflightIds(t) <= InflightIds(s) && |InflightIds(t)| <= |InflightIds(s)|
    ensures Told(s) ==> Told(t)
    ensures Level(s) ==> Level(t)
  {
    assert InflightIds(t) <= InflightIds(s);
    Smaller(InflightIds(t), InflightIds(s));
  }

  lemma FinishIdsFades(s: State, ids: set<string>, phase: Phase, code: string)
    requires ids <= ActiveIds(s) && Terminal(phase)
    ensures Fades(s, FinishIds(s, ids, phase, code))
  {
    FinishIdsShape(s, ids, phase, code);
    assert Fade(s, FinishIds(s, ids, phase, code));
  }

  lemma ExpireFades(s: State, now: int)
    ensures Fades(s, Expire(s, now))
  {
    var e := ExpireRequests(s, now);
    FinishIdsFades(s, DueIds(s, s.requests.Keys, now), TimedOut, TIMEOUT);
    assert Fade(e, ExpireBridge(e, now));
    FadesTransitive(s, e, Expire(s, now));
  }

  lemma RefreshFades(s: State, now: int)
    ensures Fades(s, Refresh(s, now))
  {
    assert Fade(s, CleanupReceipts(s, now));
    ExpireFades(CleanupReceipts(s, now), now);
    FadesTransitive(s, CleanupReceipts(s, now), Refresh(s, now));
  }

  lemma HeartbeatFades(s: State, now: int)
    ensures Fades(s, Heartbeat(s, now)) && Fades(s, TouchBridge(s, now))
  {
    assert Fade(s, Heartbeat(s, now));
    assert Fade(s, TouchBridge(s, now));
  }

  lemma BindFades(e: State, now: int, generation: string)
    ensures Fades(e, Announce(Rebind(e, now, generation)))
  {
    var bound := Bind(e, generation);
    assert Fade(e, bound);
    HeartbeatFades(bound, now);
    HeartbeatFades(TouchBridge(bound, now), now);
    FadesTransitive(e, bound, TouchBridge(bound, now));
    FadesTransitive(e, TouchBridge(bound, now), Rebind(e, now, generation));
    assert Fade(Rebind(e, now, generation), Announce(Rebind(e, now, generation)));
    FadesTransitive(e, Rebind(e, now, generation), Announce(Rebind(e, now, generation)));
  }

  lemma OpenFades(s: State, now: int, generation: string)
    ensures Fades(s, Open(s, now, generation).0)
  {
    var e := Expire(s, now);
    ExpireFades(s, now);
    if !s.closed && e.bridge != "" {
      HeartbeatFades(e, now);
      HeartbeatFades(TouchBridge(e, now), now);
      FadesTransitive(e, TouchBridge(e, now), Heartbeat(TouchBridge(e, now), now));
      FadesTransitive(s, e, Heartbeat(TouchBridge(e, now), now));
    } else if !s.closed {
      BindFades(e, now, generation);
      FadesTransitive(s, e, Announce(Rebind(e, now, generation)));
    } else {
      assert Fade(s, s);
    }
  }

  lemma CloseFades(s: State, now: int)
    ensures Fades(s, Close(s, now).0)
  {
    var e := Expire(s, now);
    ExpireFades(s, now);
    FadesTransitive(s, e, CloseBridge(e, "AGENT_BRIDGE_CLOSED"));
  }

  lemma TickFades(s: State, now: int)
    ensures Fades(s, Tick(s, now))
  {
    assert Fade(s, s);
    ExpireFades(s, now);
    HeartbeatFades(s, now);
  }

  lemma ShutdownFades(s: State)
    ensures Fades(s, Shutdown(s))
  {
    assert Fade(s, s);
    if !s.closed {
      var c := s.(closed := true);
      var f := FinishIds(c, ActiveIds(c), FailedFinal, "AGENT_BROKER_CLOSED");
      assert ActiveIds(c) == ActiveIds(s);
      FinishIdsFades(c, ActiveIds(c), FailedFinal, "AGENT_BROKER_CLOSED");
      FadesTransitive(c, f, Shutdown(s));
    }
  }

  lemma AdmitFades(e: State, now: int, id: string, c: Conversation, payload: Result<(Fields, nat)>)
    ensures Fades(e, AdmitWith(e, now, id, c, payload).0)
  {
    assert Fade(e, AdmitWith(e, now, id, c, payload).0);
  }

  lemma AskFades(s: State, now: int, id: string, c: Conversation)
    ensures Fades(s, Enqueue(s, now, id, c).0)
  {
    var e := Expire(s, now);
    assert Fade(s, s);
    ExpireFades(s, now);
    AdmitFades(e, now, id, c, Payload(c));
    FadesTransitive(s, e, AdmitWith(e, now, id, c, Payload(c)).0);
  }

  lemma TimerFades(s: State, bridge: string, items: seq<Item>, now: int)
    ensures Fades(s, WaitOver(s, bridge, items, now).0)
  {
    var e := Expire(s, now);
    ExpireFades(s, now);
    assert Fade(e, WaitOver(s, bridge, items, now).0);
    FadesTransitive(s, e, WaitOver(s, bridge, items, now).0);
  }

  lemma BridgeEventFades(s: State, e: Event, now: int)
    ensures e.OpenBridge? ==> Fades(s, Open(s, now, e.generation).0)
    ensures e.CloseTheBridge? ==> Fades(s, Close(s, now).0)
    ensures e.Beat? ==> Fades(s, Tick(s, now))
    ensures e.Stop? ==> Fades(s, Shutdown(s))
    ensures e.Enter? || e.Look? ==> Fades(s, Refresh(s, now))
    ensures e.Receive? ==> Fades(s, BrokerState.Collect(s, e.id).0)
    ensures e.Quit? ==> Fades(s, Abandon(s, e.id, TimedOut, TIMEOUT))
    ensures e.Disconnect? ==> Fades(s, Abandon(s, e.id, Disconnected, "AGENT_CLIENT_DISCONNECTED"))
  {
    match e
    case OpenBridge(_, generation) => OpenFades(s, now, generation);
    case CloseTheBridge(_) => CloseFades(s, now);
    case Enter(_, _, _, _, _) => RefreshFades(s, now);
    case Look(_) => RefreshFades(s, now);
    case Beat(_) => TickFades(s, now);
    case Stop => ShutdownFades(s);
    case Receive(id) =>
    case Quit(id) =>
    case Disconnect(id) =>
    case _ =>
  }

  /** Only a pass of an exchange can put a request in flight. */
  lemma EffectFades(sys: System, e: Event)
    requires Enabled(sys, e) && !e.Pass?
    ensures Fades(sys.broker, Effect(sys, e).broker)
  {
    if e.Timer? {
      TimerFades(sys.broker, sys.exchanges[e.key].bridge, sys.exchanges[e.key].items, e.now);
    } else if e.Ask? {
      AskFades(sys.broker, e.now, e.id, e.conversation);
    } else {
      assert Fade(sys.broker, sys.broker);
      BridgeEventFades(sys.broker, e, Time(sys, e));
    }
  }

  // ---------- A pass ----------

  /** No response marks a request that is still queued when the response's turn comes. */
  ghost predicate NoEarlyMark(s: State, bridge: string, rs: seq<Response>, now: int) {
    forall k | 0 <= k < |rs| :: !MarksQueued(AcceptAll(s, bridge, rs[..k], now).state, bridge, Judge(rs[k]), now)
  }

  lemma MarkLevel(s: State, id: string, code: string, now: int)
    requires Level(s) && id in s.requests && Inflight(s.requests[id].phase)
    ensures Level(MarkRetryable(s, id, code, now))
  {
    MarkSets(s, id, code, now);
    assert InflightIds(s) + {id} == InflightIds(s);
  }

  lemma AcceptLevel(s: State, bridge: string, j: Judgement, now: int)
    requires Level(s) && !MarksQueued(s, bridge, j, now)
    ensures Level(Accept(s, bridge, j, now).state)
  {
    var t := Accept(s, bridge, j, now).state;
    if Marks(s, bridge, j, now) {
      MarksState(s, bridge, j, now);
      var code :| t == MarkRetryable(s, j.id, code, now);
      MarkLevel(s, j.id, code, now);
    } else {
      EndsOnly(s, bridge, j, now);
      assert Fade(s, t);
      FadesLevel(s, t);
    }
  }

  lemma {:induction false} AcceptAllLevel(s: State, bridge: string, rs: seq<Response>, now: int)
    requires Level(s) && NoEarlyMark(s, bridge, rs, now)
    ensures Level(AcceptAll(s, bridge, rs, now).state)
    decreases |rs|
  {
    if rs != [] {
      var n := |rs| - 1;
      var before := AcceptAll(s, bridge, rs[..n], now).state;
      assert NoEarlyMark(s, bridge, rs[..n], now) by {
        forall k | 0 <= k < n ensures !MarksQueued(AcceptAll(s, bridge, rs[..n][..k], now).state, bridge, Judge(rs[..n][k]), now) {
          assert rs[..n][..k] == rs[..k];
        }
      }
      AcceptAllLevel(s, bridge, rs[..n], now);
      AcceptLevel(before, bridge, Judge(rs[n]), now);
    }
  }

  lemma ExtendSets(s: State, id: string, now: int)
    requires id in s.requests
    ensures InflightIds(Extend(s, id, now)) == InflightIds(s)
    ensures Told(s) ==> Told(Extend(s, id, now))
  {}

  lemma ProgressOneSets(s: State, bridge: string, p: Progress, now: int)
    ensures InflightIds(AcceptProgressOne(s, bridge, p, now)) == InflightIds(s)
    ensures Told(s) ==> Told(AcceptProgressOne(s, bridge, p, now))
  {
    if Live(s, Text.Trim(p.requestId), bridge) { ExtendSets(s, Text.Trim(p.requestId), now); }
  }

  lemma {:induction false} ProgressLevel(s: State, bridge: string, ps: seq<Progress>, now: int)
    requires Level(s)
    ensures Level(AcceptProgress(s, bridge, ps, now))
    decreases |ps|
  {
    if ps != [] {
      var before := AcceptProgress(s, bridge, ps[..|ps| - 1], now);
      ProgressLevel(s, bridge, ps[..|ps| - 1], now);
      ProgressOneSets(before, bridge, ps[|ps| - 1], now);
    }
  }

  lemma DeliverTold(s: State, id: string, now: int)
    requires Told(s) && id in s.requests
    ensures Told(Deliver(s, id, now))
  {}

  lemma {:induction false} RedeliverTold(b: Batch, ids: seq<string>, capacity: int, now: int)
    requires Told(b.state) && forall id | id in ids :: id in b.state.requests
    ensures Told(Redeliver(b, ids, capacity, now).state)
    decreases |ids|
  {
    if ids != [] && Fits(b, ids[0], capacity) {
      DeliverTold(b.state, ids[0], now);
      RedeliverTold(Append(b, ids[0], now), ids[1..], capacity, now);
    }
  }

  lemma TakeOneTold(b: Batch, now: int)
    requires Told(b.state) && NoneDue(b.state, now) && b.state.queue != [] && b.state.cfg.requestTimeout >= 1
    requires !Discardable(b.state, b.state.queue[0], b.state.bridge)
    ensures var t := TakeOne(b, now).state;
            && Told(t) && NoneDue(t, now) && |t.queue| < |b.state.queue| && t.bridge == b.state.bridge && t.cfg == b.state.cfg
  {
    TakeUndue(b.state, b.state.bridge, now);
    TakeSets(b.state, now);
  }

  lemma {:induction false} DrainTold(b: Batch, bridge: string, capacity: int, inflight: int, now: int)
    requires Told(b.state) && bridge == b.state.bridge && NoneDue(b.state, now) && b.state.cfg.requestTimeout >= 1
    ensures Told(Drain(b, bridge, capacity, inflight, now).state)
    decreases |b.state.queue|, 1
  {
    if |b.entries| < capacity && inflight < b.state.cfg.maxInflight && b.state.queue != [] {
      if Discardable(b.state, b.state.queue[0], bridge) {
        DrainTold(b.(state := PopQueue(b.state)), bridge, capacity, inflight, now);
      } else {
        DrainToldTakes(b, bridge, capacity, inflight, now);
      }
    }
  }

  lemma {:induction false} DrainToldTakes(b: Batch, bridge: string, capacity: int, inflight: int, now: int)
    requires Told(b.state) && bridge == b.state.bridge && NoneDue(b.state, now) && b.state.cfg.requestTimeout >= 1
    requires |b.entries| < capacity && inflight < b.state.cfg.maxInflight && b.state.queue != []
    requires !Discardable(b.state, b.state.queue[0], bridge)
    ensures Told(Drain(b, bridge, capacity, inflight, now).state)
    decreases |b.state.queue|, 0
  {
    DrainUnfolds(b, bridge, capacity, inflight, now);
    TakeOneTold(b, now);
    DrainTold(TakeOne(b, now), bridge, capacity, inflight + 1, now);
  }

  lemma RedeliveryTold(s: State, bridge: string, capacity: int, now: int)
    requires Told(s) && bridge == s.bridge
    ensures Told(Redelivery(s, bridge, capacity, now).state)
  {
    var e := ExpireRequests(s, now);
    FinishIdsFades(s, DueIds(s, s.requests.Keys, now), TimedOut, TIMEOUT);
    FadesLevel(s, e);
    RedeliverTold(Batch(e, [], 0), Outstanding(e), capacity, now);
  }

  lemma BatchTold(s: State, bridge: string, capacity: int, now: int)
    requires Core(s) && Told(s) && bridge == s.bridge && 0 <= capacity
    ensures Told(NextBatch(s, bridge, capacity, now).state)
  {
    var c := Redelivery(s, bridge, capacity, now);
    RedeliveryTold(s, bridge, capacity, now);
    RedeliveryWorks(s, bridge, capacity, now);
    PayloadTimeout(c.state);
    DrainTold(c, bridge, capacity, |Outstanding(ExpireRequests(s, now))|, now);
  }

  lemma BatchLevel(s: State, bridge: string, capacity: int, now: int)
    requires Core(s) && Level(s) && bridge == s.bridge && 1 <= capacity
    ensures Level(NextBatch(s, bridge, capacity, now).state)
  {
    BatchTold(s, bridge, capacity, now);
    FinishIdsFades(s, DueIds(s, s.requests.Keys, now), TimedOut, TIMEOUT);
    FadesLevel(s, ExpireRequests(s, now));
    NextBatchWorks(s, bridge, capacity, now);
  }

  ghost predicate HonestSubmission(e: State, bridge: string, sub: Submission, now: int) {
    sub.Unsent? ==> NoEarlyMark(TouchBridge(e, now), bridge, sub.responses, now)
  }

  lemma SubmitLevel(s: State, bridge: string, sub: Submission, now: int)
    requires Level(s) && (sub.Unsent? ==> NoEarlyMark(s, bridge, sub.responses, now))
    ensures Level(Submit(s, bridge, sub, now).state)
  {
    match sub
    case Sent(_, _) =>
    case Unsent(responses, progress) =>
      AcceptAllLevel(s, bridge, responses, now);
      ProgressLevel(AcceptAll(s, bridge, responses, now).state, bridge, progress, now);
  }

  lemma ServedLevel(e: State, bridge: string, capacity: int, sub: Submission, now: int)
    requires Core(e) && Level(e) && bridge == e.bridge && 1 <= capacity && HonestSubmission(e, bridge, sub, now)
    ensures Level(Served(e, bridge, capacity, sub, now).state)
  {
    HeartbeatFades(e, now);
    FadesLevel(e, TouchBridge(e, now));
    SubmitLevel(TouchBridge(e, now), bridge, sub, now);
    TakenWorks(e, bridge, sub, now);
    BatchLevel(Submit(TouchBridge(e, now), bridge, sub, now).state, bridge, capacity, now);
  }

  lemma ConcludeLevel(b: Batch, items: seq<Item>, followup: bool, now: int)
    requires Level(b.state)
    ensures Level(Conclude(b, items, followup, now).0)
  {
    assert Fade(b.state, Conclude(b, items, followup, now).0);
    FadesLevel(b.state, Conclude(b, items, followup, now).0);
  }

  lemma TurnLevel(s: State, bridge: string, capacity: int, sub: Submission, now: int)
    requires Inv(s) && Level(s) && 1 <= capacity && HonestSubmission(Refresh(s, now), bridge, sub, now)
    ensures Level(Turn(s, bridge, capacity, sub, now).0)
  {
    var e := Refresh(s, now);
    RefreshFades(s, now);
    FadesLevel(s, e);
    RefreshSafe(s, now);
    TurnUnfolds(s, bridge, capacity, sub, now);
    if RequireBridge(e, bridge).None? {
      var taken := Submit(TouchBridge(e, now), bridge, sub, now);
      ServedLevel(e, bridge, capacity, sub, now);
      ConcludeLevel(Served(e, bridge, capacity, sub, now), taken.items, taken.followup, now);
    }
  }

  // ---------- Whole runs ----------

  /** What a pass brings marks no request that is still queued. */
  ghost predicate Honest(sys: System, e: Event)
    requires Enabled(sys, e)
  {
    e.Pass? ==> HonestSubmission(Refresh(sys.broker, e.now), sys.exchanges[e.key].bridge, PendingOf(sys.exchanges[e.key]), e.now)
  }

  ghost predicate HonestRun(sys: System, es: seq<Event>)
    requires Legal(sys, es)
    decreases |es|
  {
    es == [] || (Honest(sys, es[0]) && HonestRun(Step(sys, es[0]), es[1..]))
  }

  lemma PassLevel(sys: System, key: nat, now: int)
    requires SystemOk(sys) && Level(sys.broker) && key in sys.exchanges
    requires HonestSubmission(Refresh(sys.broker, now), sys.exchanges[key].bridge, PendingOf(sys.exchanges[key]), now)
    ensures Level(AfterPass(sys, key, now).broker)
  {
    var x := sys.exchanges[key];
    assert Awake(sys.broker, x);
    TurnLevel(sys.broker, x.bridge, x.capacity, PendingOf(x), now);
  }

  lemma StepLevel(sys: System, e: Event)
    requires SystemOk(sys) && Level(sys.broker) && Enabled(sys, e) && Honest(sys, e)
    ensures Level(Step(sys, e).broker)
  {
    if e.Pass? {
      PassLevel(sys, e.key, e.now);
    } else {
      EffectFades(sys, e);
      FadesLevel(sys.broker, Effect(sys, e).broker);
    }
  }

  lemma {:induction false} RunLevel(sys: System, es: seq<Event>)
    requires SystemOk(sys) && Level(sys.broker) && Legal(sys, es) && HonestRun(sys, es)
    ensures Level(Run(sys, es).broker)
    decreases |es|
  {
    if es != [] {
      StepLevel(sys, es[0]);
      StepOk(sys, es[0]);
      RunLevel(Step(sys, es[0]), es[1..]);
    }
  }

  /**
   * As long as no response marks a request still queued, the requests in flight stay within their limit, and
   * the queued requests are exactly the active ones never delivered, through any bridge switches.
   */
  lemma InflightBound(cfg: Config, es: seq<Event>)
    requires Legal(Start(cfg), es) && HonestRun(Start(cfg), es)
    ensures var s := Run(Start(cfg), es).broker;
            && |InflightIds(s)| <= Settle(cfg).maxInflight
            && forall id | id in ActiveIds(s) :: s.requests[id].phase == Queued <==> s.requests[id].delivery == 0
  {
    StartOk(cfg);
    StartLevel(cfg);
    Reachable(cfg, es);
    RunLevel(Start(cfg), es);
  }

  lemma StartLevel(cfg: Config)
    ensures Level(Initial(cfg))
  {
    assert InflightIds(Initial(cfg)) == {};
  }

  // ---------- A bridge that answers only what it was given ----------

  /** Every live request that is named has been delivered. */
  ghost predicate NamesDelivered(s: State, bridge: string, rs: seq<Response>) {
    forall r | r in rs && Live(s, ResponseId(r), bridge) :: s.requests[ResponseId(r)].delivery > 0
  }

  /** Responses neither deliver nor admit. */
  ghost const SameDeliveries: (State, State, string) -> bool :=
    (s: State, t: State, bridge: string) =>
      forall id | Live(t, id, bridge) :: Live(s, id, bridge) && t.requests[id].delivery == s.requests[id].delivery

  lemma AcceptDeliveries(s: State, bridge: string, j: Judgement, now: int)
    ensures SameDeliveries(s, Accept(s, bridge, j, now).state, bridge)
  {
    if Marks(s, bridge, j, now) {
      MarksState(s, bridge, j, now);
      var code :| Accept(s, bridge, j, now).state == MarkRetryable(s, j.id, code, now);
      MarkDeliveries(s, j.id, bridge, code, now);
    } else {
      EndsOnly(s, bridge, j, now);
    }
  }

  lemma MarkDeliveries(s: State, marked: string, bridge: string, code: string, now: int)
    requires Live(s, marked, bridge)
    ensures SameDeliveries(s, MarkRetryable(s, marked, code, now), bridge)
  {
    var t := MarkRetryable(s, marked, code, now);
    forall id | Live(t, id, bridge) ensures Live(s, id, bridge) && t.requests[id].delivery == s.requests[id].delivery {
      if id != marked { assert t.requests[id] == s.requests[id]; }
    }
  }

  lemma {:induction false} AcceptAllDeliveries(s: State, bridge: string, rs: seq<Response>, now: int)
    ensures SameDeliveries(s, AcceptAll(s, bridge, rs, now).state, bridge)
    decreases |rs|
  {
    if rs != [] {
      var before := AcceptAll(s, bridge, rs[..|rs| - 1], now).state;
      AcceptAllDeliveries(s, bridge, rs[..|rs| - 1], now);
      AcceptDeliveries(before, bridge, Judge(rs[|rs| - 1]), now);
    }
  }

  lemma DeliveredNotQueued(s: State, bridge: string, rs: seq<Response>, now: int, k: nat)
    requires Level(s) && NamesDelivered(s, bridge, rs) && k < |rs|
    requires Level(AcceptAll(s, bridge, rs[..k], now).state)
    ensures !MarksQueued(AcceptAll(s, bridge, rs[..k], now).state, bridge, Judge(rs[k]), now)
  {
    AcceptAllDeliveries(s, bridge, rs[..k], now);
    assert rs[k] in rs;
  }

  lemma OneMore(s: State, bridge: string, rs: seq<Response>, now: int)
    requires rs != [] && NoEarlyMark(s, bridge, rs[..|rs| - 1], now)
    requires !MarksQueued(AcceptAll(s, bridge, rs[..|rs| - 1], now).state, bridge, Judge(rs[|rs| - 1]), now)
    ensures NoEarlyMark(s, bridge, rs, now)
  {
    var short := rs[..|rs| - 1];
    forall k | 0 <= k < |rs| ensures !MarksQueued(AcceptAll(s, bridge, rs[..k], now).state, bridge, Judge(rs[k]), now) {
      if k < |short| {
        assert !MarksQueued(AcceptAll(s, bridge, short[..k], now).state, bridge, Judge(short[k]), now);
        assert short[..k] == rs[..k] && short[k] == rs[k];
      } else {
        assert rs[..k] == short;
      }
    }
  }

  /** Responses that name only delivered requests mark none that is queued. */
  lemma {:induction false} DeliveredOnly(s: State, bridge: string, rs: seq<Response>, now: int)
    requires Level(s) && NamesDelivered(s, bridge, rs)
    ensures NoEarlyMark(s, bridge, rs, now)
    decreases |rs|
  {
    if rs != [] {
      var n := |rs| - 1;
      assert forall r | r in rs[..n] :: r in rs;
      DeliveredOnly(s, bridge, rs[..n], now);
      AcceptAllLevel(s, bridge, rs[..n], now);
      DeliveredNotQueued(s, bridge, rs, now, n);
      OneMore(s, bridge, rs, now);
    }
  }

  ghost predicate Obedient(sys: System, e: Event)
    requires Enabled(sys, e)
  {
    e.Pass? && PendingOf(sys.exchanges[e.key]).Unsent? ==>
      NamesDelivered(Refresh(sys.broker, e.now), sys.exchanges[e.key].bridge, PendingOf(sys.exchanges[e.key]).responses)
  }

  ghost predicate ObedientRun(sys: System, es: seq<Event>)
    requires Legal(sys, es)
    decreases |es|
  {
    es == [] || (Obedient(sys, es[0]) && ObedientRun(Step(sys, es[0]), es[1..]))
  }

  lemma ObedientHonest(sys: System, e: Event)
    requires Level(sys.broker) && Enabled(sys, e) && Obedient(sys, e)
    ensures Honest(sys, e)
  {
    if e.Pass? && PendingOf(sys.exchanges[e.key]).Unsent? {
      var x := sys.exchanges[e.key];
      var r := Refresh(sys.broker, e.now);
      RefreshFades(sys.broker, e.now);
      FadesLevel(sys.broker, r);
      HeartbeatFades(r, e.now);
      FadesLevel(r, TouchBridge(r, e.now));
      DeliveredOnly(TouchBridge(r, e.now), x.bridge, PendingOf(x).responses, e.now);
    }
  }

  lemma {:induction false} ObedientLevel(sys: System, es: seq<Event>)
    requires SystemOk(sys) && Level(sys.broker) && Legal(sys, es) && ObedientRun(sys, es)
    ensures HonestRun(sys, es)
    decreases |es|
  {
    if es != [] {
      ObedientHonest(sys, es[0]);
      StepLevel(sys, es[0]);
      StepOk(sys, es[0]);
      ObedientLevel(Step(sys, es[0]), es[1..]);
    }
  }

  /** With a bridge that names only requests it was given, the requests in flight stay within their limit. */
  lemma ObedientBridgeBound(cfg: Config, es: seq<Event>)
    requires Legal(Start(cfg), es) && ObedientRun(Start(cfg), es)
    ensures var s := Run(Start(cfg), es).broker;
            && |InflightIds(s)| <= Settle(cfg).maxInflight
            && forall id | id in ActiveIds(s) :: s.requests[id].phase == Queued <==> s.requests[id].delivery == 0
  {
    StartOk(cfg);
    StartLevel(cfg);
    ObedientLevel(Start(cfg), es);
    InflightBound(cfg, es);
  }
}
