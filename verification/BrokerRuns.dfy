/**
 * Whole runs of the broker: exchanges and waiters interleave their critical sections in any order, with
 * a clock that never goes back.
 */
module BrokerRuns {
  import opened Wrappers
  import opened Canonical
  import opened BrokerState
  import opened BrokerInvariant
  import opened BrokerBatch
  import opened BrokerSteps
  import Text

  // ---------- The system ----------

  /** An exchange about to make a pass of its loop, or selecting on the notify channel numbered ticket. */
  datatype Exchange = Looping(bridge: string, capacity: int, sub: Submission)
                    | Parked(bridge: string, capacity: int, items: seq<Item>, followup: bool, ticket: nat)

  /**
   * A waiter in its select; one whose timer fired and that has read its request's deadline (when the last
   * tick was at asOf) but not yet the clock; or one that found the deadline passed and is about to give up.
   */
  datatype Waiter = Waiting | Comparing(deadline: int, asOf: int) | GivingUp

  /** clock is the latest time read, tick the time of the last heartbeat tick. */
  datatype System = System(broker: State, exchanges: map<nat, Exchange>, waiters: map<string, Waiter>,
                           clock: int, tick: int, detached: int)

  datatype Event =
    | OpenBridge(now: int, generation: string)
    | CloseTheBridge(now: int)
    | Enter(now: int, key: nat, asked: int, responses: seq<Response>, progress: seq<Progress>)
    | Pass(now: int, key: nat)
    | Timer(now: int, key: nat)
    | Cancel(key: nat)
    | Ask(now: int, id: string, conversation: Conversation)
    | Look(now: int)
    | Beat(now: int)
    | Stop
    | Receive(id: string)
    | Peek(id: string)
    | Check(now: int, id: string)
    | Quit(id: string)
    | Disconnect(id: string)

  function Start(cfg: Config): System {
    System(Initial(cfg), map[], map[], 0, 0, 0)
  }

  function Time(sys: System, e: Event): int {
    match e
    case Cancel(_) => sys.clock
    case Stop => sys.clock
    case Receive(_) => sys.clock
    case Peek(_) => sys.clock
    case Quit(_) => sys.clock
    case Disconnect(_) => sys.clock
    case _ => e.now
  }

  /** Random names are new, and an exchange or waiter only does what its stage allows. */
  predicate Enabled(sys: System, e: Event) {
    && sys.clock <= Time(sys, e)
    && match e
       case OpenBridge(_, generation) => generation != "" && generation !in sys.broker.ledger.bridges
       case Enter(_, key, _, _, _) => key !in sys.exchanges
       case Pass(_, key) =>
         key in sys.exchanges && (sys.exchanges[key].Parked? ==> sys.exchanges[key].ticket < sys.broker.notify)
       case Timer(_, key) => key in sys.exchanges && sys.exchanges[key].Parked?
       case Cancel(key) => key in sys.exchanges && sys.exchanges[key].Parked?
       case Ask(_, id, _) => id != "" && id !in sys.broker.ledger.serial
       case Receive(id) =>
         id in sys.waiters && sys.waiters[id] == Waiting && (id in sys.broker.requests ==> sys.broker.requests[id].done)
       case Peek(id) => id in sys.waiters && sys.waiters[id] == Waiting
       case Check(_, id) => id in sys.waiters && sys.waiters[id].Comparing?
       case Quit(id) => id in sys.waiters && sys.waiters[id] == GivingUp
       case Disconnect(id) => id in sys.waiters && sys.waiters[id] == Waiting
       case _ => true
  }

  function PendingOf(x: Exchange): Submission {
    match x
    case Looping(_, _, sub) => sub
    case Parked(_, _, items, followup, _) => Sent(items, followup)
  }

  function AfterPass(sys: System, key: nat, now: int): System
    requires key in sys.exchanges
  {
    var x := sys.exchanges[key];
    var (after, reply) := Turn(sys.broker, x.bridge, x.capacity, PendingOf(x), now);
    match reply
    case Park(items, followup) =>
      sys.(broker := after, exchanges := sys.exchanges[key := Parked(x.bridge, x.capacity, items, followup, after.notify)])
    case _ => sys.(broker := after, exchanges := sys.exchanges - {key})
  }

  function AfterEnter(sys: System, e: Event): System
    requires e.Enter?
  {
    var (after, reply) := Begin(sys.broker, e.now);
    match reply
    case Err(_) => sys.(broker := after)
    case Ok(bridge) =>
      sys.(broker := after,
           exchanges := sys.exchanges[e.key := Looping(bridge, Capacity(sys.broker.cfg, e.asked), Unsent(e.responses, e.progress))])
  }

  function AfterAsk(sys: System, e: Event): System
    requires e.Ask?
  {
    var (after, reply) := Enqueue(sys.broker, e.now, e.id, e.conversation);
    sys.(broker := after, waiters := if reply.Ok? then sys.waiters[e.id := Waiting] else sys.waiters)
  }

  function AfterPeek(sys: System, id: string): System {
    match CurrentDeadline(sys.broker, id)
    case Err(_) => sys.(waiters := sys.waiters - {id})
    case Ok(deadline) => sys.(waiters := sys.waiters[id := Comparing(deadline, sys.tick)])
  }

  function AfterCheck(sys: System, id: string, now: int): System
    requires id in sys.waiters && sys.waiters[id].Comparing?
  {
    sys.(waiters := sys.waiters[id := if now < sys.waiters[id].deadline then Waiting else GivingUp])
  }

  function Effect(sys: System, e: Event): System
    requires Enabled(sys, e)
  {
    match e
    case OpenBridge(now, generation) => sys.(broker := Open(sys.broker, now, generation).0)
    case CloseTheBridge(now) => sys.(broker := Close(sys.broker, now).0)
    case Enter(_, _, _, _, _) => AfterEnter(sys, e)
    case Pass(now, key) => AfterPass(sys, key, now)
    case Timer(now, key) =>
      sys.(broker := WaitOver(sys.broker, sys.exchanges[key].bridge, sys.exchanges[key].items, now).0,
           exchanges := sys.exchanges - {key})
    case Cancel(key) => sys.(exchanges := sys.exchanges - {key})
    case Ask(_, _, _) => AfterAsk(sys, e)
    case Look(now) => sys.(broker := TakeSnapshot(sys.broker, now).0)
    case Beat(now) => sys.(broker := Tick(sys.broker, now), tick := now)
    case Stop => sys.(broker := Shutdown(sys.broker))
    case Receive(id) => sys.(broker := BrokerState.Collect(sys.broker, id).0, waiters := sys.waiters - {id})
    case Peek(id) => AfterPeek(sys, id)
    case Check(now, id) => AfterCheck(sys, id, now)
    case Quit(id) => sys.(broker := Abandon(sys.broker, id, TimedOut, TIMEOUT), waiters := sys.waiters - {id})
    case Disconnect(id) =>
      sys.(broker := Abandon(sys.broker, id, Disconnected, "AGENT_CLIENT_DISCONNECTED"), waiters := sys.waiters - {id})
  }

  /** The effect of an event, with the clock and the moment of the last detachment noted. */
  function Step(sys: System, e: Event): System
    requires Enabled(sys, e)
  {
    var after := Effect(sys, e);
    after.(clock := Time(sys, e),
           detached := if sys.broker.bridge != "" && after.broker.bridge == "" then Time(sys, e) else sys.detached)
  }

  predicate Legal(sys: System, es: seq<Event>)
    decreases |es|
  {
    es == [] || (Enabled(sys, es[0]) && Legal(Step(sys, es[0]), es[1..]))
  }

  function Run(sys: System, es: seq<Event>): System
    requires Legal(sys, es)
    decreases |es|
  {
    if es == [] then sys else Run(Step(sys, es[0]), es[1..])
  }

  // ---------- The invariant of runs ----------

  /** Nobody sleeps through news: whoever waits on the current channel has nothing to be woken for. */
  ghost predicate Awake(s: State, x: Exchange) {
    && 1 <= x.capacity
    && (x.Parked? ==> x.ticket <= s.notify)
    && (x.Parked? && x.ticket == s.notify ==> s.bridge == x.bridge && !s.closed && ActiveIds(s) == {})
  }

  ghost const SystemOk: System -> bool :=
    (sys: System) => Inv(sys.broker) && forall key | key in sys.exchanges :: Awake(sys.broker, sys.exchanges[key])

  lemma StillAwake(s: State, t: State, x: Exchange)
    requires Follows(s, t) && Awake(s, x)
    ensures Awake(t, x)
  {
    assert Quiet(s, t);
  }

  lemma BridgeEventSafe(s: State, e: Event)
    requires Inv(s) && (e.OpenBridge? ==> e.generation != "")
    ensures e.OpenBridge? ==> Safe(s, Open(s, e.now, e.generation).0)
    ensures e.CloseTheBridge? ==> Safe(s, Close(s, e.now).0)
    ensures e.Beat? ==> Safe(s, Tick(s, e.now))
    ensures e.Stop? ==> Safe(s, Shutdown(s))
    ensures e.Enter? || e.Look? ==> Safe(s, Refresh(s, e.now))
  {
    match e
    case OpenBridge(now, generation) => OpenSafe(s, now, generation);
    case CloseTheBridge(now) => CloseSafe(s, now);
    case Beat(now) => TickSafe(s, now);
    case Stop => ShutdownSafe(s);
    case Enter(now, _, _, _, _) => RefreshSafe(s, now);
    case Look(now) => RefreshSafe(s, now);
    case _ =>
  }

  lemma WaiterEventSafe(s: State, e: Event)
    requires Inv(s) && (e.Receive? && e.id in s.requests ==> s.requests[e.id].done)
    ensures e.Receive? ==> Safe(s, BrokerState.Collect(s, e.id).0)
    ensures e.Quit? ==> Safe(s, Abandon(s, e.id, TimedOut, TIMEOUT))
    ensures e.Disconnect? ==> Safe(s, Abandon(s, e.id, Disconnected, "AGENT_CLIENT_DISCONNECTED"))
  {
    match e
    case Receive(id) => CollectSafe(s, id);
    case Quit(id) => AbandonSafe(s, id, TimedOut, TIMEOUT);
    case Disconnect(id) => AbandonSafe(s, id, Disconnected, "AGENT_CLIENT_DISCONNECTED");
    case _ =>
  }

  /** The broker's part of each event. */
  lemma EffectSafe(sys: System, e: Event)
    requires SystemOk(sys) && Enabled(sys, e)
    ensures Safe(sys.broker, Effect(sys, e).broker)
  {
    if e.Pass? {
      PassSafe(sys, e.key, e.now);
    } else if e.Timer? {
      WaitOverSafe(sys.broker, sys.exchanges[e.key].bridge, sys.exchanges[e.key].items, e.now);
    } else if e.Ask? {
      EnqueueSafe(sys.broker, e.now, e.id, e.conversation);
    } else if e.Receive? || e.Quit? || e.Disconnect? {
      WaiterEventSafe(sys.broker, e);
    } else {
      FollowsSelf(sys.broker);
      BridgeEventSafe(sys.broker, e);
    }
  }

  lemma PassSafe(sys: System, key: nat, now: int)
    requires SystemOk(sys) && key in sys.exchanges
    ensures Safe(sys.broker, AfterPass(sys, key, now).broker)
  {
    var x := sys.exchanges[key];
    assert Awake(sys.broker, x);
    TurnSafe(sys.broker, x.bridge, x.capacity, PendingOf(x), now);
  }

  /** An exchange that parks has nothing to be woken for. */
  lemma PassAwake(sys: System, key: nat, now: int, other: nat)
    requires SystemOk(sys) && key in sys.exchanges && other in AfterPass(sys, key, now).exchanges
    ensures Awake(AfterPass(sys, key, now).broker, AfterPass(sys, key, now).exchanges[other])
  {
    var x := sys.exchanges[key];
    assert Awake(sys.broker, x);
    PassSafe(sys, key, now);
    if other == key {
      ParksIdle(sys.broker, x.bridge, x.capacity, PendingOf(x), now);
    } else {
      StillAwake(sys.broker, AfterPass(sys, key, now).broker, sys.exchanges[other]);
    }
  }

  lemma EnterAwake(sys: System, e: Event, other: nat)
    requires SystemOk(sys) && e.Enter? && other in AfterEnter(sys, e).exchanges
    ensures Awake(AfterEnter(sys, e).broker, AfterEnter(sys, e).exchanges[other])
  {
    RefreshSafe(sys.broker, e.now);
    if other in sys.exchanges { StillAwake(sys.broker, AfterEnter(sys, e).broker, sys.exchanges[other]); }
    assert Core(sys.broker);
  }

  /** Nobody sleeps through an event. */
  lemma EveryoneAwake(sys: System, e: Event, key: nat)
    requires SystemOk(sys) && Enabled(sys, e) && key in Effect(sys, e).exchanges
    ensures Awake(Effect(sys, e).broker, Effect(sys, e).exchanges[key])
  {
    EffectSafe(sys, e);
    if e.Enter? {
      EnterAwake(sys, e, key);
    } else if e.Pass? {
      PassAwake(sys, e.key, e.now, key);
    } else {
      StillAwake(sys.broker, Effect(sys, e).broker, sys.exchanges[key]);
    }
  }

  lemma StepOk(sys: System, e: Event)
    requires SystemOk(sys) && Enabled(sys, e)
    ensures SystemOk(Step(sys, e)) && Follows(sys.broker, Step(sys, e).broker)
  {
    var after := Effect(sys, e);
    EffectSafe(sys, e);
    forall key | key in after.exchanges ensures Awake(after.broker, after.exchanges[key]) {
      EveryoneAwake(sys, e, key);
    }
  }

  lemma StartOk(cfg: Config)
    ensures SystemOk(Start(cfg))
  {
    var s := Initial(cfg);
    assert ActiveIds(s) == {};
    assert RequestsFine(s);
    assert Balanced({}, s.ledger, 0);
  }

  /** Safety of whole runs: whatever the interleaving, the invariant holds and the ledger only grows. */
  lemma {:induction false} RunOk(sys: System, es: seq<Event>)
    requires SystemOk(sys) && Legal(sys, es)
    ensures SystemOk(Run(sys, es)) && Follows(sys.broker, Run(sys, es).broker)
    decreases |es|
  {
    if es == [] {
      FollowsSelf(sys.broker);
    } else {
      StepOk(sys, es[0]);
      RunOk(Step(sys, es[0]), es[1..]);
      FollowsTransitive(sys.broker, Step(sys, es[0]).broker, Run(sys, es).broker);
    }
  }
}
