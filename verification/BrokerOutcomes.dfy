/** What a waiter is told, in any run: an answer, or why there is none. */
module BrokerOutcomes {
  import opened Wrappers
  import opened Canonical
  import opened BrokerState
  import opened BrokerInvariant
  import opened BrokerRuns
  import Text

  /** A request that failed says why: it timed out, or the broker was closed. */
  ghost predicate Explained(r: Request) {
    match r.phase
    case TimedOut => r.code == "AGENT_REQUEST_TIMEOUT"
    case FailedFinal => r.code == "AGENT_BROKER_CLOSED"
    case Canceled => false
    case Disconnected => false
    case _ => true
  }

  ghost predicate AllExplained(s: State) {
    forall id | id in s.requests :: Explained(s.requests[id])
  }

  // ---------- Primitive steps ----------

  lemma FinishExplained(s: State, id: string, phase: Phase, code: string, answer: Completion)
    requires AllExplained(s) && id in s.requests
    requires Answered(phase) || (phase == TimedOut && code == TIMEOUT)
    ensures AllExplained(Finish(s, id, phase, code, answer))
  {}

  lemma ExpireRequestsExplained(s: State, now: int)
    requires AllExplained(s)
    ensures AllExplained(ExpireRequests(s, now))
  {}

  lemma CloseBridgeExplained(s: State, code: string)
    requires AllExplained(s)
    ensures AllExplained(CloseBridge(s, code))
  {}

  lemma HeartbeatExplained(s: State, now: int)
    requires AllExplained(s)
    ensures AllExplained(Heartbeat(s, now))
  {}

  lemma ExpireExplained(s: State, now: int)
    requires AllExplained(s)
    ensures AllExplained(Expire(s, now))
  {
    ExpireRequestsExplained(s, now);
    CloseBridgeExplained(ExpireRequests(s, now), STALE);
  }

  lemma RefreshExplained(s: State, now: int)
    requires AllExplained(s)
    ensures AllExplained(Refresh(s, now))
  {
    ExpireExplained(CleanupReceipts(s, now), now);
  }

  // ---------- Bridges and admission ----------

  lemma BoundExplained(e: State, t: State, bridge: string)
    requires AllExplained(e)
    requires t.requests == map id | id in e.requests :: Rebound(e.requests[id], bridge)
    ensures AllExplained(t)
  {}

  lemma OpenExplained(s: State, now: int, generation: string)
    requires AllExplained(s)
    ensures AllExplained(Open(s, now, generation).0)
  {
    var e := Expire(s, now);
    ExpireExplained(s, now);
    if !s.closed && e.bridge == "" {
      var bound := e.(bridge := generation, ledger := e.ledger.(bridges := e.ledger.bridges + {generation}),
                      requests := map id | id in e.requests :: Rebound(e.requests[id], generation));
      BoundExplained(e, bound, generation);
      HeartbeatExplained(TouchBridge(bound, now), now);
    } else if !s.closed {
      HeartbeatExplained(TouchBridge(e, now), now);
    }
  }

  lemma CloseExplained(s: State, now: int)
    requires AllExplained(s)
    ensures AllExplained(Close(s, now).0)
  {
    ExpireExplained(s, now);
    CloseBridgeExplained(Expire(s, now), "AGENT_BRIDGE_CLOSED");
  }

  lemma ShutdownExplained(s: State)
    requires AllExplained(s)
    ensures AllExplained(Shutdown(s))
  {
    if !s.closed {
      var ended := FinishIds(s.(closed := true), ActiveIds(s), FailedFinal, "AGENT_BROKER_CLOSED");
      assert AllExplained(ended);
      CloseBridgeExplained(ended, "AGENT_BROKER_CLOSED");
    }
  }

  lemma TickExplained(s: State, now: int)
    requires AllExplained(s)
    ensures AllExplained(Tick(s, now))
  {
    HeartbeatExplained(s, now);
    ExpireExplained(s, now);
  }

  lemma EnqueueExplained(s: State, now: int, id: string, c: Conversation)
    requires AllExplained(s)
    ensures AllExplained(Enqueue(s, now, id, c).0)
  {
    ExpireExplained(s, now);
    AdmitExplained(Expire(s, now), now, id, c, Payload(c));
  }

  lemma AdmitExplained(e: State, now: int, id: string, c: Conversation, payload: Result<(Json.Fields, nat)>)
    requires AllExplained(e)
    ensures AllExplained(AdmitWith(e, now, id, c, payload).0)
  {}

  // ---------- Responses ----------

  lemma AcceptLiveExplained(s: State, bridge: string, j: Judgement, answer: Completion, now: int)
    requires AllExplained(s) && j.id in s.requests
    ensures AllExplained(AcceptLive(s, bridge, j, answer, now).state)
  {}

  lemma AcceptExplained(s: State, bridge: string, j: Judgement, now: int)
    requires AllExplained(s)
    ensures AllExplained(Accept(s, bridge, j, now).state)
  {
    if j.reading.Readable? && j.id in s.requests {
      AcceptLiveExplained(s, bridge, j, j.reading.answer, now);
      FinishExplained(s, j.id, TimedOut, TIMEOUT, NO_ANSWER);
    }
  }

  lemma {:induction false} AcceptAllExplained(s: State, bridge: string, rs: seq<Response>, now: int)
    requires AllExplained(s)
    ensures AllExplained(AcceptAll(s, bridge, rs, now).state)
    decreases |rs|
  {
    if rs != [] {
      var n := |rs| - 1;
      AcceptAllExplained(s, bridge, rs[..n], now);
      AcceptExplained(AcceptAll(s, bridge, rs[..n], now).state, bridge, Judge(rs[n]), now);
    }
  }

  lemma {:induction false} ProgressExplained(s: State, bridge: string, ps: seq<Progress>, now: int)
    requires AllExplained(s)
    ensures AllExplained(AcceptProgress(s, bridge, ps, now))
    decreases |ps|
  {
    if ps != [] { ProgressExplained(s, bridge, ps[..|ps| - 1], now); }
  }

  // ---------- Batches ----------

  lemma {:induction false} RedeliverExplained(b: Batch, ids: seq<string>, capacity: int, now: int)
    requires AllExplained(b.state) && forall id | id in ids :: id in b.state.requests
    ensures AllExplained(Redeliver(b, ids, capacity, now).state)
    decreases |ids|
  {
    if ids != [] && Fits(b, ids[0], capacity) { RedeliverExplained(Append(b, ids[0], now), ids[1..], capacity, now); }
  }

  lemma TakeExplained(b: Batch, id: string, bridge: string, now: int)
    requires AllExplained(b.state) && id in b.state.requests
    ensures AllExplained(Append(b.(state := Claim(b.state, id, bridge)), id, now).state)
  {}

  lemma {:induction false} DrainExplained(b: Batch, bridge: string, capacity: int, inflight: int, now: int)
    requires AllExplained(b.state)
    ensures AllExplained(Drain(b, bridge, capacity, inflight, now).state)
    decreases |b.state.queue|
  {
    if |b.entries| < capacity && inflight < b.state.cfg.maxInflight && b.state.queue != [] {
      var id := b.state.queue[0];
      var popped := PopQueue(b.state);
      if Discardable(b.state, id, bridge) {
        DrainExplained(b.(state := popped), bridge, capacity, inflight, now);
      } else if b.state.requests[id].deadline <= now {
        FinishExplained(popped, id, TimedOut, TIMEOUT, NO_ANSWER);
        DrainExplained(b.(state := Finish(popped, id, TimedOut, TIMEOUT, NO_ANSWER)), bridge, capacity, inflight, now);
      } else if b.bytes + b.state.requests[id].payloadBytes <= b.state.cfg.maxBatchBytes {
        TakeExplained(b.(state := popped), id, bridge, now);
        DrainExplained(Append(b.(state := Claim(popped, id, bridge)), id, now), bridge, capacity, inflight + 1, now);
      }
    }
  }

  lemma NextBatchExplained(s: State, bridge: string, capacity: int, now: int)
    requires AllExplained(s)
    ensures AllExplained(NextBatch(s, bridge, capacity, now).state)
  {
    var e := ExpireRequests(s, now);
    ExpireRequestsExplained(s, now);
    var inflight := Text.Sorted(InflightOn(e, bridge), CreationOrder(e.requests));
    RedeliverExplained(Batch(e, [], 0), inflight, capacity, now);
    DrainExplained(Redeliver(Batch(e, [], 0), inflight, capacity, now), bridge, capacity, |inflight|, now);
  }

  // ---------- Exchanges ----------

  lemma SubmitExplained(s: State, bridge: string, sub: Submission, now: int)
    requires AllExplained(s)
    ensures AllExplained(Submit(s, bridge, sub, now).state)
  {
    if sub.Unsent? {
      AcceptAllExplained(s, bridge, sub.responses, now);
      ProgressExplained(AcceptAll(s, bridge, sub.responses, now).state, bridge, sub.progress, now);
    }
  }

  lemma ConcludeExplained(b: Batch, items: seq<Item>, followup: bool, now: int)
    requires AllExplained(b.state)
    ensures AllExplained(Conclude(b, items, followup, now).0)
  {}

  lemma TurnExplained(s: State, bridge: string, capacity: int, sub: Submission, now: int)
    requires AllExplained(s)
    ensures AllExplained(Turn(s, bridge, capacity, sub, now).0)
  {
    var e := Refresh(s, now);
    RefreshExplained(s, now);
    if RequireBridge(e, bridge).None? {
      var taken := Submit(TouchBridge(e, now), bridge, sub, now);
      SubmitExplained(TouchBridge(e, now), bridge, sub, now);
      NextBatchExplained(taken.state, bridge, capacity, now);
      ConcludeExplained(NextBatch(taken.state, bridge, capacity, now), taken.items, taken.followup, now);
    }
  }

  lemma WaitOverExplained(s: State, bridge: string, items: seq<Item>, now: int)
    requires AllExplained(s)
    ensures AllExplained(WaitOver(s, bridge, items, now).0)
  {
    ExpireExplained(s, now);
  }

  // ---------- Runs ----------

  lemma WaiterExplained(s: State, id: string, phase: Phase, code: string)
    requires AllExplained(s)
    ensures AllExplained(Abandon(s, id, phase, code)) && AllExplained(Collect(s, id).0)
  {}

  lemma EffectExplained(sys: System, e: Event)
    requires Enabled(sys, e) && AllExplained(sys.broker)
    ensures AllExplained(Effect(sys, e).broker)
  {
    match e
    case OpenBridge(now, generation) => OpenExplained(sys.broker, now, generation);
    case CloseTheBridge(now) => CloseExplained(sys.broker, now);
    case Enter(now, _, _, _, _) => RefreshExplained(sys.broker, now);
    case Pass(now, key) => var x := sys.exchanges[key]; TurnExplained(sys.broker, x.bridge, x.capacity, PendingOf(x), now);
    case Timer(now, key) => WaitOverExplained(sys.broker, sys.exchanges[key].bridge, sys.exchanges[key].items, now);
    case Ask(now, id, conversation) => EnqueueExplained(sys.broker, now, id, conversation);
    case Look(now) => RefreshExplained(sys.broker, now);
    case Beat(now) => TickExplained(sys.broker, now);
    case Stop => ShutdownExplained(sys.broker);
    case Receive(id) => WaiterExplained(sys.broker, id, TimedOut, TIMEOUT);
    case Quit(id) => WaiterExplained(sys.broker, id, TimedOut, TIMEOUT);
    case Disconnect(id) => WaiterExplained(sys.broker, id, Disconnected, "AGENT_CLIENT_DISCONNECTED");
    case _ =>
  }

  lemma {:induction false} RunExplained(sys: System, es: seq<Event>)
    requires Legal(sys, es) && AllExplained(sys.broker)
    ensures AllExplained(Run(sys, es).broker)
    decreases |es|
  {
    if es != [] {
      EffectExplained(sys, es[0]);
      RunExplained(Step(sys, es[0]), es[1..]);
    }
  }

  lemma CollectTells(s: State, id: string)
    requires id in s.requests ==> Explained(s.requests[id]) && Terminal(s.requests[id].phase)
    ensures var (t, told) := Collect(s, id);
            && id !in t.requests
            && told == if id !in s.requests then Err("REQUEST_NO_LONGER_ACTIVE")
                       else match s.requests[id].phase
                            case TimedOut => Err("AGENT_REQUEST_TIMEOUT")
                            case FailedFinal => Err("AGENT_BROKER_CLOSED")
                            case _ => Ok(s.requests[id].result)
  {}

  /**
   * What a waiter is told once its request is done, in any run: the answer if there is one, that it timed out, that
   * the broker was closed, or that the request is gone. It is never told merely that the request failed.
   */
  lemma WaiterIsTold(cfg: Config, es: seq<Event>, id: string)
    requires Legal(Start(cfg), es) && Enabled(Run(Start(cfg), es), Receive(id))
    ensures var s := Run(Start(cfg), es).broker;
            Collect(s, id).1 == if id !in s.requests then Err("REQUEST_NO_LONGER_ACTIVE")
                                else match s.requests[id].phase
                                     case TimedOut => Err("AGENT_REQUEST_TIMEOUT")
                                     case FailedFinal => Err("AGENT_BROKER_CLOSED")
                                     case _ => Ok(s.requests[id].result)
    ensures var s := Run(Start(cfg), es).broker;
            id in s.requests ==> (Collect(s, id).1.Ok? <==> s.requests[id].phase in {Completed, WaitingTool})
  {
    RunExplained(Start(cfg), es);
    StartOk(cfg);
    RunOk(Start(cfg), es);
    var s := Run(Start(cfg), es).broker;
    if id in s.requests { DoneEnded(s, id); }
    CollectTells(s, id);
  }

  lemma DoneEnded(s: State, id: string)
    requires Core(s) && id in s.requests && s.requests[id].done
    ensures Terminal(s.requests[id].phase)
  {
    assert RequestOk(id, s.requests[id], s.bridge, s.cfg.maxBatchBytes, s.queue, s.ledger);
  }
}
