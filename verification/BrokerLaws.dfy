/** What the broker guarantees over every run from its start. */
module BrokerLaws {
  import opened Wrappers
  import opened Json
  import opened Canonical
  import opened BrokerState
  import opened BrokerInvariant
  import opened BrokerBatch
  import opened BrokerSteps
  import opened BrokerRuns
  import Text

  lemma Reachable(cfg: Config, es: seq<Event>)
    requires Legal(Start(cfg), es)
    ensures SystemOk(Run(Start(cfg), es)) && Run(Start(cfg), es).broker.cfg == Settle(cfg)
  {
    StartOk(cfg);
    RunOk(Start(cfg), es);
  }

  // ---------- No lost wake-up ----------

  /**
   * An exchange that still waits on the current channel has nothing to be woken for: its bridge is the open
   * one, the broker is open, and no request is active.
   */
  lemma NoLostWakeup(cfg: Config, es: seq<Event>, key: nat)
    requires Legal(Start(cfg), es)
    requires var sys := Run(Start(cfg), es);
             key in sys.exchanges && sys.exchanges[key].Parked? && sys.exchanges[key].ticket == sys.broker.notify
    ensures var sys := Run(Start(cfg), es);
            sys.broker.bridge == sys.exchanges[key].bridge && !sys.broker.closed && ActiveIds(sys.broker) == {}
  {
    Reachable(cfg, es);
    var sys := Run(Start(cfg), es);
    assert Awake(sys.broker, sys.exchanges[key]);
  }

  /** While any request is active, or after its bridge is gone, every waiting exchange can go on. */
  lemma WorkWakesEveryone(cfg: Config, es: seq<Event>, key: nat)
    requires Legal(Start(cfg), es)
    requires var sys := Run(Start(cfg), es);
             key in sys.exchanges
             && (ActiveIds(sys.broker) != {} || sys.broker.closed || sys.broker.bridge != sys.exchanges[key].bridge)
    ensures Enabled(Run(Start(cfg), es), Pass(Run(Start(cfg), es).clock, key))
  {
    Reachable(cfg, es);
    var sys := Run(Start(cfg), es);
    assert Awake(sys.broker, sys.exchanges[key]);
  }

  // ---------- The queue ----------

  ghost predicate Once<T>(xs: seq<T>, x: T) {
    exists i | 0 <= i < |xs| :: xs[i] == x && forall j | 0 <= j < |xs| && j != i :: xs[j] != x
  }

  lemma OrderedOnce(ids: seq<string>, serial: map<string, nat>, i: nat)
    requires InAdmissionOrder(ids, serial) && i < |ids|
    ensures forall j | 0 <= j < |ids| && j != i :: ids[j] != ids[i]
  {
    forall j | 0 <= j < |ids| && j != i ensures ids[j] != ids[i] {
      if j < i { assert serial[ids[j]] < serial[ids[i]]; } else { assert serial[ids[i]] < serial[ids[j]]; }
    }
  }

  lemma OrderedParts(claims: seq<string>, queue: seq<string>, serial: map<string, nat>)
    requires InAdmissionOrder(claims + queue, serial)
    ensures InAdmissionOrder(claims, serial) && InAdmissionOrder(queue, serial)
    ensures forall x, y | x in claims && y in queue :: x in serial && y in serial && serial[x] < serial[y]
  {
    var all := claims + queue;
    forall i | 0 <= i < |claims| ensures claims[i] == all[i] {}
    forall i | 0 <= i < |queue| ensures queue[i] == all[|claims| + i] {}
    forall x, y | x in claims && y in queue ensures x in serial && y in serial && serial[x] < serial[y] {
      var i :| 0 <= i < |claims| && claims[i] == x;
      var j :| 0 <= j < |queue| && queue[j] == y;
      assert all[i] == x && all[|claims| + j] == y;
    }
  }

  lemma QueuedOnce(s: State, id: string)
    requires Core(s) && id in QueuedIds(s)
    ensures Once(s.queue, id)
  {
    InvRequest(s, id);
    OrderedParts(s.ledger.claims, s.queue, s.ledger.serial);
    var i :| 0 <= i < |s.queue| && s.queue[i] == id;
    OrderedOnce(s.queue, s.ledger.serial, i);
  }

  /**
   * No request is lost and none overtakes another: every queued request is in the queue exactly once, the
   * queue is in order of admission, and whatever was ever taken from it was admitted before all that is left.
   * This holds whatever bridges were lost and opened on the way.
   */
  lemma FirstInFirstOut(cfg: Config, es: seq<Event>)
    requires Legal(Start(cfg), es)
    ensures var s := Run(Start(cfg), es).broker;
            && (forall id | id in QueuedIds(s) :: Once(s.queue, id))
            && InAdmissionOrder(s.queue, s.ledger.serial) && InAdmissionOrder(s.ledger.claims, s.ledger.serial)
            && forall x, y | x in s.ledger.claims && y in s.queue ::
                 x in s.ledger.serial && y in s.ledger.serial && s.ledger.serial[x] < s.ledger.serial[y]
  {
    Reachable(cfg, es);
    var s := Run(Start(cfg), es).broker;
    OrderedParts(s.ledger.claims, s.queue, s.ledger.serial);
    forall id | id in QueuedIds(s) ensures Once(s.queue, id) { QueuedOnce(s, id); }
  }

  // ---------- The generation fence ----------

  /** Every active request belongs to the open bridge, and to none when none is open. */
  lemma Fence(cfg: Config, es: seq<Event>)
    requires Legal(Start(cfg), es)
    ensures var s := Run(Start(cfg), es).broker;
            forall id | id in ActiveIds(s) :: s.requests[id].bridge == s.bridge
  {
    Reachable(cfg, es);
    ActiveBound(Run(Start(cfg), es).broker);
  }

  /**
   * A pass under another generation than the open one fails, and what it brought makes no difference: it
   * leaves the broker as a look at it at that time would.
   */
  lemma StalePassFails(s: State, bridge: string, capacity: int, sub: Submission, now: int)
    requires Refresh(s, now).bridge != bridge
    ensures Turn(s, bridge, capacity, sub, now).0 == TakeSnapshot(s, now).0
    ensures Turn(s, bridge, capacity, sub, now).1.Failed?
  {
    TurnUnfolds(s, bridge, capacity, sub, now);
  }

  lemma RefreshBridge(s: State, now: int)
    ensures Expire(s, now).bridge == s.bridge || Expire(s, now).bridge == ""
    ensures Refresh(s, now).bridge == s.bridge || Refresh(s, now).bridge == ""
  {
    ExpireRequestsSets(s, now);
    ExpireRequestsSets(CleanupReceipts(s, now), now);
  }

  lemma TurnBridge(s: State, bridge: string, capacity: int, sub: Submission, now: int)
    requires Inv(s) && 1 <= capacity
    ensures var t := Turn(s, bridge, capacity, sub, now).0; t.bridge == s.bridge || t.bridge == ""
  {
    var e := Refresh(s, now);
    RefreshBridge(s, now);
    RefreshSafe(s, now);
    TurnUnfolds(s, bridge, capacity, sub, now);
    if RequireBridge(e, bridge).None? { TurnKeepsBridge(e, bridge, capacity, sub, now); }
  }

  lemma TurnKeepsBridge(e: State, bridge: string, capacity: int, sub: Submission, now: int)
    requires Core(e) && bridge == e.bridge && 1 <= capacity
    ensures var taken := Submit(TouchBridge(e, now), bridge, sub, now);
            Conclude(Served(e, bridge, capacity, sub, now), taken.items, taken.followup, now).0.bridge == e.bridge
  {
    var b := Served(e, bridge, capacity, sub, now);
    var taken := Submit(TouchBridge(e, now), bridge, sub, now);
    ServedWorks(e, bridge, capacity, sub, now);
    ConcludeWorks(b, taken.items, taken.followup, now);
  }

  lemma PassBridge(sys: System, key: nat, now: int)
    requires SystemOk(sys) && key in sys.exchanges
    ensures var t := AfterPass(sys, key, now).broker; t.bridge == sys.broker.bridge || t.bridge == ""
  {
    var x := sys.exchanges[key];
    assert Awake(sys.broker, x);
    TurnBridge(sys.broker, x.bridge, x.capacity, PendingOf(x), now);
  }

  lemma AskBridge(s: State, now: int, id: string, c: Conversation)
    ensures var t := Enqueue(s, now, id, c).0; t.bridge == s.bridge || t.bridge == ""
  {
    RefreshBridge(s, now);
  }

  lemma OpenBridgeNames(s: State, now: int, generation: string)
    ensures var t := Open(s, now, generation).0; t.bridge == s.bridge || t.bridge == generation
  {
    RefreshBridge(s, now);
  }

  lemma CloseBridgeNames(s: State, now: int)
    ensures var t := Close(s, now).0; t.bridge == s.bridge || t.bridge == ""
    ensures var t := Tick(s, now); t.bridge == s.bridge || t.bridge == ""
    ensures var t := Shutdown(s); t.bridge == s.bridge || t.bridge == ""
  {
    RefreshBridge(s, now);
  }

  lemma WaiterBridge(s: State, id: string, phase: Phase, code: string)
    ensures Abandon(s, id, phase, code).bridge == s.bridge && BrokerState.Collect(s, id).0.bridge == s.bridge
  {}

  lemma PlainStepBridge(sys: System, e: Event)
    requires Enabled(sys, e) && !e.Pass? && !e.Timer? && !e.Ask? && !e.OpenBridge?
    ensures var t := Effect(sys, e).broker; t.bridge == sys.broker.bridge || t.bridge == ""
  {
    var s := sys.broker;
    if e.Quit? {
      WaiterBridge(s, e.id, TimedOut, TIMEOUT);
    } else if e.Disconnect? {
      WaiterBridge(s, e.id, Disconnected, "AGENT_CLIENT_DISCONNECTED");
    } else if e.Receive? {
      WaiterBridge(s, e.id, Disconnected, "");
    } else {
      RefreshBridge(s, Time(sys, e));
      CloseBridgeNames(s, Time(sys, e));
    }
  }

  /** A step keeps the open bridge, closes it, or opens one under a name never used before. */
  lemma StepBridge(sys: System, e: Event)
    requires SystemOk(sys) && Enabled(sys, e)
    ensures var t := Effect(sys, e).broker;
            t.bridge == sys.broker.bridge || t.bridge == "" || t.bridge !in sys.broker.ledger.bridges
  {
    if e.Pass? {
      PassBridge(sys, e.key, e.now);
    } else if e.Timer? {
    } else if e.Ask? {
      AskBridge(sys.broker, e.now, e.id, e.conversation);
    } else if e.OpenBridge? {
      OpenBridgeNames(sys.broker, e.now, e.generation);
    } else {
      PlainStepBridge(sys, e);
    }
  }

  /** A generation once gone never comes back. */
  lemma {:induction false} GoneForGood(sys: System, es: seq<Event>, bridge: string)
    requires SystemOk(sys) && Legal(sys, es)
    requires bridge in sys.broker.ledger.bridges && bridge != "" && bridge != sys.broker.bridge
    ensures Run(sys, es).broker.bridge != bridge
    decreases |es|
  {
    if es != [] {
      StepBridge(sys, es[0]);
      StepOk(sys, es[0]);
      GoneForGood(Step(sys, es[0]), es[1..], bridge);
    }
  }

  /**
   * Once its bridge is gone, nothing an exchange begun under it brings can touch a request of another
   * generation: every later pass of it fails and does no more than a look at the broker would.
   */
  lemma StaleForever(cfg: Config, past: seq<Event>, es: seq<Event>, bridge: string, capacity: int, sub: Submission, now: int)
    requires Legal(Start(cfg), past) && Legal(Run(Start(cfg), past), es) && bridge != ""
    requires bridge in Run(Start(cfg), past).broker.ledger.bridges && bridge != Run(Start(cfg), past).broker.bridge
    ensures var s := Run(Run(Start(cfg), past), es).broker;
            Turn(s, bridge, capacity, sub, now).0 == TakeSnapshot(s, now).0 && Turn(s, bridge, capacity, sub, now).1.Failed?
  {
    Reachable(cfg, past);
    var sys := Run(Start(cfg), past);
    GoneForGood(sys, es, bridge);
    RefreshBridge(Run(sys, es).broker, now);
    StalePassFails(Run(sys, es).broker, bridge, capacity, sub, now);
  }

  // ---------- Conservation ----------

  function EndedAs(ended: map<string, Phase>, phase: Phase): set<string> {
    set id | id in ended && ended[id] == phase
  }

  const ENDINGS := [Completed, WaitingTool, FailedFinal, Canceled, TimedOut, Disconnected]

  function CountAs(ended: map<string, Phase>, phases: seq<Phase>): nat
    decreases |phases|
  {
    if phases == [] then 0 else |EndedAs(ended, phases[0])| + CountAs(ended, phases[1..])
  }

  lemma {:induction false} CountsAll(ended: map<string, Phase>, phases: seq<Phase>)
    requires forall i, j | 0 <= i < j < |phases| :: phases[i] != phases[j]
    ensures CountAs(ended, phases) == |set id | id in ended && ended[id] in phases|
    decreases |phases|
  {
    var all := set id | id in ended && ended[id] in phases;
    if phases == [] {
      assert all == {};
    } else {
      var rest := set id | id in ended && ended[id] in phases[1..];
      CountsAll(ended, phases[1..]);
      assert phases == [phases[0]] + phases[1..];
      assert all == EndedAs(ended, phases[0]) + rest;
      assert EndedAs(ended, phases[0]) !! rest;
    }
  }

  /** Every admitted request is active or has ended in one of the six ways. */
  lemma AdmittedAddUp(cfg: Config, es: seq<Event>)
    requires Legal(Start(cfg), es)
    ensures var s := Run(Start(cfg), es).broker; |s.ledger.serial| == |ActiveIds(s)| + CountAs(s.ledger.ended, ENDINGS)
  {
    Reachable(cfg, es);
    BooksBalance(Run(Start(cfg), es).broker);
  }

  /** completed counts the requests that ended with an answer. */
  lemma CompletedCounts(cfg: Config, es: seq<Event>)
    requires Legal(Start(cfg), es)
    ensures var s := Run(Start(cfg), es).broker;
            s.completed == |EndedAs(s.ledger.ended, Completed)| + |EndedAs(s.ledger.ended, WaitingTool)|
  {
    Reachable(cfg, es);
    BooksBalance(Run(Start(cfg), es).broker);
  }

  /** done is closed once for each request that ended, and for no other. */
  lemma DoneClosesOnce(cfg: Config, es: seq<Event>, id: string)
    requires Legal(Start(cfg), es)
    ensures var s := Run(Start(cfg), es).broker; s.ledger.closes[id] == if id in s.ledger.ended then 1 else 0
  {
    Reachable(cfg, es);
    BooksBalance(Run(Start(cfg), es).broker);
  }

  lemma PendingBound(cfg: Config, es: seq<Event>)
    requires Legal(Start(cfg), es)
    ensures |ActiveIds(Run(Start(cfg), es).broker)| <= Settle(cfg).maxPending
  {
    Reachable(cfg, es);
    BooksBalance(Run(Start(cfg), es).broker);
  }

  /**
   * The books of a whole run: every admitted request is active or has ended in exactly one way; done was
   * closed once for each that ended and for no other; completed counts those that ended answered.
   */
  lemma Conservation(cfg: Config, es: seq<Event>)
    requires Legal(Start(cfg), es)
    ensures var s := Run(Start(cfg), es).broker;
            && |s.ledger.serial| == |ActiveIds(s)| + CountAs(s.ledger.ended, ENDINGS)
            && s.completed == |EndedAs(s.ledger.ended, Completed)| + |EndedAs(s.ledger.ended, WaitingTool)|
            && (forall id :: s.ledger.closes[id] == if id in s.ledger.ended then 1 else 0)
            && |ActiveIds(s)| <= Settle(cfg).maxPending
  {
    AdmittedAddUp(cfg, es);
    CompletedCounts(cfg, es);
    forall id { DoneClosesOnce(cfg, es, id); }
    PendingBound(cfg, es);
  }

  lemma Books(s: State)
    requires Core(s)
    ensures Partition(ActiveIds(s), s.ledger.serial, s.ledger.ended) && AllTerminal(s.ledger.ended)
    ensures AnswersEnded(s.ledger.accepted.Keys, s.ledger.ended) && s.completed == |s.ledger.accepted|
    ensures ClosedOnce(s.ledger.closes, s.ledger.ended) && |ActiveIds(s)| <= s.cfg.maxPending
  {}

  lemma EndedCount(ended: map<string, Phase>)
    requires AllTerminal(ended)
    ensures CountAs(ended, ENDINGS) == |ended.Keys|
  {
    CountsAll(ended, ENDINGS);
    assert (set id | id in ended && ended[id] in ENDINGS) == ended.Keys;
  }

  lemma AnsweredCount(accepted: map<string, Completion>, ended: map<string, Phase>)
    requires AnswersEnded(accepted.Keys, ended)
    ensures |accepted| == |EndedAs(ended, Completed)| + |EndedAs(ended, WaitingTool)|
  {
    assert accepted.Keys == EndedAs(ended, Completed) + EndedAs(ended, WaitingTool);
  }

  lemma BooksBalance(s: State)
    requires Core(s)
    ensures |s.ledger.serial| == |ActiveIds(s)| + CountAs(s.ledger.ended, ENDINGS)
    ensures s.completed == |EndedAs(s.ledger.ended, Completed)| + |EndedAs(s.ledger.ended, WaitingTool)|
    ensures ClosedOnce(s.ledger.closes, s.ledger.ended) && |ActiveIds(s)| <= s.cfg.maxPending
  {
    Books(s);
    EndedCount(s.ledger.ended);
    AnsweredCount(s.ledger.accepted, s.ledger.ended);
  }

  // ---------- At most one outcome ----------

  lemma {:induction false} RunAppends(sys: System, es: seq<Event>, more: seq<Event>)
    requires Legal(sys, es + more)
    ensures Legal(sys, es) && Legal(Run(sys, es), more) && Run(sys, es + more) == Run(Run(sys, es), more)
    decreases |es|
  {
    if es == [] {
      assert es + more == more;
    } else {
      assert (es + more)[0] == es[0] && (es + more)[1..] == es[1..] + more;
      RunAppends(Step(sys, es[0]), es[1..], more);
    }
  }

  /**
   * An outcome is for good: however a run goes on, a request that has ended stays as it ended, and so does the
   * answer that was accepted for it; its record, while kept, shows both.
   */
  lemma OutcomesAreFinal(cfg: Config, es: seq<Event>, more: seq<Event>, id: string)
    requires Legal(Start(cfg), es + more) && Legal(Start(cfg), es)
    requires id in Run(Start(cfg), es).broker.ledger.ended
    ensures var s, t := Run(Start(cfg), es).broker, Run(Start(cfg), es + more).broker;
            && id in t.ledger.ended && t.ledger.ended[id] == s.ledger.ended[id]
            && (id in s.ledger.accepted <==> id in t.ledger.accepted)
            && (id in s.ledger.accepted ==> t.ledger.accepted[id] == s.ledger.accepted[id])
            && (id in t.requests ==> t.requests[id].phase == s.ledger.ended[id] && t.requests[id].done
                                     && (id in s.ledger.accepted ==> t.requests[id].result == s.ledger.accepted[id]))
  {
    RunAppends(Start(cfg), es, more);
    Reachable(cfg, es);
    Reachable(cfg, es + more);
    RunOk(Run(Start(cfg), es), more);
    FinalOutcome(Run(Start(cfg), es).broker, Run(Start(cfg), es + more).broker, id);
  }

  lemma FinalOutcome(s: State, t: State, id: string)
    requires Core(s) && Core(t) && Follows(s, t) && id in s.ledger.ended
    ensures id in t.ledger.ended && t.ledger.ended[id] == s.ledger.ended[id]
    ensures id in s.ledger.accepted <==> id in t.ledger.accepted
    ensures id in s.ledger.accepted ==> t.ledger.accepted[id] == s.ledger.accepted[id]
    ensures id in t.requests ==> t.requests[id].phase == s.ledger.ended[id] && t.requests[id].done
                                 && (id in s.ledger.accepted ==> t.requests[id].result == s.ledger.accepted[id])
  {
    Books(s);
    Books(t);
    assert LedgerGrows(s.ledger, t.ledger);
    if id in t.requests { InvRequest(t, id); }
  }

  /**
   * A waiter that receives is given the one answer that was accepted for its request, and no answer is ever
   * handed out twice: it had not been before, and the record is gone afterwards.
   */
  lemma ReceivesTheAcceptedAnswer(cfg: Config, es: seq<Event>, id: string)
    requires Legal(Start(cfg), es) && Enabled(Run(Start(cfg), es), Receive(id))
    ensures var s := Run(Start(cfg), es).broker; var reply := BrokerState.Collect(s, id).1;
            && (reply.Ok? <==> id in s.requests && id in s.ledger.accepted)
            && (reply.Ok? ==> reply.value == s.ledger.accepted[id] && id !in s.ledger.returned)
            && id !in BrokerState.Collect(s, id).0.requests
  {
    Reachable(cfg, es);
    var s := Run(Start(cfg), es).broker;
    CollectSafe(s, id);
    Books(s);
    if id in s.requests { InvRequest(s, id); }
  }

  // ---------- What becomes of an accepted answer ----------

  lemma ExpireKept(s: State, now: int)
    ensures Kept(s, Expire(s, now))
  {
    ExpireRequestsKept(s, now);
    assert Kept(ExpireRequests(s, now), Expire(s, now));
  }

  lemma RefreshKept(s: State, now: int)
    ensures Kept(s, Refresh(s, now))
  {
    ExpireKept(CleanupReceipts(s, now), now);
  }

  lemma OpenKept(s: State, now: int, generation: string)
    ensures Kept(s, Open(s, now, generation).0)
  {
    ExpireKept(s, now);
  }

  lemma CloseKept(s: State, now: int)
    ensures Kept(s, Close(s, now).0) && Kept(s, Tick(s, now))
  {
    ExpireKept(s, now);
  }

  /** Admission adds the one request, or nothing. */
  ghost const KeptBut: (State, State, string) -> bool :=
    (s: State, t: State, id: string) =>
      && s.requests.Keys <= t.requests.Keys <= s.requests.Keys + {id} && t.ledger.returned == s.ledger.returned

  lemma AskKept(s: State, now: int, id: string, c: Conversation)
    ensures KeptBut(s, Enqueue(s, now, id, c).0, id)
  {
    ExpireKept(s, now);
    EnqueueUnfolds(s, now, id, c);
  }

  lemma TimerKept(s: State, bridge: string, items: seq<Item>, now: int)
    ensures Kept(s, WaitOver(s, bridge, items, now).0)
  {
    ExpireKept(s, now);
  }

  lemma TurnKept(s: State, bridge: string, capacity: int, sub: Submission, now: int)
    requires Inv(s) && 1 <= capacity
    ensures Kept(s, Turn(s, bridge, capacity, sub, now).0)
  {
    var e := Refresh(s, now);
    RefreshKept(s, now);
    RefreshSafe(s, now);
    TurnUnfolds(s, bridge, capacity, sub, now);
    if RequireBridge(e, bridge).None? {
      var b := Served(e, bridge, capacity, sub, now);
      var taken := Submit(TouchBridge(e, now), bridge, sub, now);
      ServedWorks(e, bridge, capacity, sub, now);
      ConcludeWorks(b, taken.items, taken.followup, now);
    }
  }

  lemma PassKept(sys: System, key: nat, now: int)
    requires SystemOk(sys) && key in sys.exchanges
    ensures Kept(sys.broker, AfterPass(sys, key, now).broker)
  {
    var x := sys.exchanges[key];
    assert Awake(sys.broker, x);
    TurnKept(sys.broker, x.bridge, x.capacity, PendingOf(x), now);
  }

  lemma PlainKept(s: State, e: Event, now: int)
    ensures e.OpenBridge? ==> Kept(s, Open(s, now, e.generation).0)
    ensures e.CloseTheBridge? ==> Kept(s, Close(s, now).0)
    ensures e.Beat? ==> Kept(s, Tick(s, now))
    ensures e.Stop? ==> Kept(s, Shutdown(s))
    ensures e.Enter? || e.Look? ==> Kept(s, Refresh(s, now))
  {
    match e
    case OpenBridge(_, generation) => OpenKept(s, now, generation);
    case CloseTheBridge(_) => CloseKept(s, now);
    case Enter(_, _, _, _, _) => RefreshKept(s, now);
    case Look(_) => RefreshKept(s, now);
    case Beat(_) => CloseKept(s, now);
    case Stop =>
    case _ =>
  }

  predicate Leaves(e: Event) { e.Receive? || e.Quit? || e.Disconnect? }

  /** Requests are forgotten and answers handed out only as their own waiter leaves. */
  lemma EffectKept(sys: System, e: Event)
    requires SystemOk(sys) && Enabled(sys, e) && !Leaves(e) && !e.Ask?
    ensures Kept(sys.broker, Effect(sys, e).broker)
  {
    if e.Pass? {
      PassKept(sys, e.key, e.now);
    } else if e.Timer? {
      TimerKept(sys.broker, sys.exchanges[e.key].bridge, sys.exchanges[e.key].items, e.now);
    } else {
      PlainKept(sys.broker, e, Time(sys, e));
    }
  }

  lemma CollectTakes(s: State, id: string, other: string)
    requires other in s.requests
    ensures var t := BrokerState.Collect(s, id).0;
            && (other in t.requests <==> other != id)
            && (other in t.ledger.returned <==> other in s.ledger.returned || (other == id && Answered(s.requests[id].phase)))
  {}

  lemma AbandonTakes(s: State, id: string, phase: Phase, code: string, other: string)
    requires other in s.requests
    ensures var t := Abandon(s, id, phase, code);
            && (other in t.requests <==> other != id)
            && t.ledger.returned == s.ledger.returned
  {}

  /**
   * What becomes of an accepted answer at each step: it is handed out exactly when its waiter receives; it is
   * lost exactly when its waiter leaves otherwise, giving up or disconnecting; or else it is kept.
   */
  lemma AnswerFate(cfg: Config, es: seq<Event>, e: Event, id: string)
    requires Legal(Start(cfg), es) && Enabled(Run(Start(cfg), es), e)
    requires id in Run(Start(cfg), es).broker.requests && id in Run(Start(cfg), es).broker.ledger.accepted
    ensures var next := Step(Run(Start(cfg), es), e).broker;
            && (id in next.ledger.returned <==> e == Receive(id))
            && (id in next.requests <==> e != Receive(id) && e != Quit(id) && e != Disconnect(id))
  {
    Reachable(cfg, es);
    var sys := Run(Start(cfg), es);
    InvRequest(sys.broker, id);
    Books(sys.broker);
    StepFate(sys, e, id);
  }

  lemma LeavingFate(sys: System, e: Event, id: string)
    requires Enabled(sys, e) && Leaves(e) && id in sys.broker.requests && Answered(sys.broker.requests[id].phase)
    requires id !in sys.broker.ledger.returned
    ensures id in Effect(sys, e).broker.ledger.returned <==> e == Receive(id)
    ensures id in Effect(sys, e).broker.requests <==> e != Receive(id) && e != Quit(id) && e != Disconnect(id)
  {
    match e
    case Receive(leaving) => CollectTakes(sys.broker, leaving, id);
    case Quit(leaving) => AbandonTakes(sys.broker, leaving, TimedOut, TIMEOUT, id);
    case Disconnect(leaving) => AbandonTakes(sys.broker, leaving, Disconnected, "AGENT_CLIENT_DISCONNECTED", id);
  }

  lemma StepFate(sys: System, e: Event, id: string)
    requires SystemOk(sys) && Enabled(sys, e) && id in sys.broker.requests && Answered(sys.broker.requests[id].phase)
    requires id !in sys.broker.ledger.returned
    ensures id in Effect(sys, e).broker.ledger.returned <==> e == Receive(id)
    ensures id in Effect(sys, e).broker.requests <==> e != Receive(id) && e != Quit(id) && e != Disconnect(id)
  {
    if Leaves(e) {
      LeavingFate(sys, e, id);
    } else if e.Ask? {
      AskKept(sys.broker, e.now, e.id, e.conversation);
    } else {
      EffectKept(sys, e);
    }
  }

  lemma StepKnows(sys: System, e: Event, id: string)
    requires SystemOk(sys) && Enabled(sys, e) && id in sys.broker.ledger.serial
    ensures SystemOk(Step(sys, e)) && id in Step(sys, e).broker.ledger.serial
  {
    StepOk(sys, e);
    FollowerKnows(sys.broker, Step(sys, e).broker, id);
  }

  lemma FollowerKnows(s: State, t: State, id: string)
    requires Follows(s, t) && id in s.ledger.serial
    ensures id in t.ledger.serial
  {
    assert LedgerGrows(s.ledger, t.ledger);
    assert Extends(s.ledger.serial, t.ledger.serial);
  }

  /** An answer lost is never handed out later: its request never comes back. */
  lemma {:induction false} LostForGood(sys: System, es: seq<Event>, id: string)
    requires SystemOk(sys) && Legal(sys, es)
    requires id in sys.broker.ledger.serial && id !in sys.broker.requests && id !in sys.broker.ledger.returned
    ensures id !in Run(sys, es).broker.ledger.returned && id !in Run(sys, es).broker.requests
    decreases |es|
  {
    if es != [] {
      StepKnows(sys, es[0], id);
      StaysLost(sys, es[0], id);
      LostForGood(Step(sys, es[0]), es[1..], id);
    }
  }

  lemma LeavingTakes(s: State, id: string, phase: Phase, code: string, other: string)
    requires other !in s.requests && other !in s.ledger.returned
    ensures other !in Abandon(s, id, phase, code).requests && other !in Abandon(s, id, phase, code).ledger.returned
  {}

  lemma LeavingStaysLost(sys: System, e: Event, id: string)
    requires Enabled(sys, e) && Leaves(e) && id !in sys.broker.requests && id !in sys.broker.ledger.returned
    ensures id !in Effect(sys, e).broker.ledger.returned && id !in Effect(sys, e).broker.requests
  {
    match e
    case Receive(leaving) =>
    case Quit(leaving) => LeavingTakes(sys.broker, leaving, TimedOut, TIMEOUT, id);
    case Disconnect(leaving) => LeavingTakes(sys.broker, leaving, Disconnected, "AGENT_CLIENT_DISCONNECTED", id);
  }

  lemma StaysLost(sys: System, e: Event, id: string)
    requires SystemOk(sys) && Enabled(sys, e)
    requires id in sys.broker.ledger.serial && id !in sys.broker.requests && id !in sys.broker.ledger.returned
    ensures id !in Effect(sys, e).broker.ledger.returned && id !in Effect(sys, e).broker.requests
  {
    if Leaves(e) {
      LeavingStaysLost(sys, e, id);
    } else if e.Ask? {
      AskKept(sys.broker, e.now, e.id, e.conversation);
    } else {
      EffectKept(sys, e);
    }
  }
}
