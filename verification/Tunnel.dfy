/** The tunnel client's supervisor: its critical sections as functions, and whole runs among children and timers. */
module Tunnel {
  import opened Wrappers

  datatype Key = NoKey | BadKey | GoodKey

  datatype Settings = Settings(enabled: bool, key: Key, maxRestarts: int, restartDelay: int, stableRuntime: int)

  datatype Child = Child(id: nat, startedAt: int)

  datatype Status = Disabled | Stopped | Starting | Blocked | Failed | Running | Restarting

  datatype State = State(cfg: Settings, process: Option<Child>, closed: bool, status: Status, lastError: string,
                         token: nat, count: nat)

  /** A goroutine that sleeps for the delay and then asks to restart on behalf of its token. */
  datatype Timer = Timer(token: nat, delay: int)

  /** What becomes of a launch, should one be attempted. */
  datatype Attempt = ProfileFails | StartFails | Starts

  function Idle(cfg: Settings): Status {
    if cfg.enabled then Stopped else Disabled
  }

  function Initial(cfg: Settings): State {
    State(cfg, None, false, Idle(cfg), "", 0, 0)
  }

  function Pow2(n: nat): nat {
    if n == 0 then 1 else 2 * Pow2(n - 1)
  }

  function Show(s: State, status: Status, lastError: string): State {
    s.(status := status, lastError := lastError)
  }

  function Launch(s: State, a: Attempt, id: nat, now: int): State {
    match a
    case ProfileFails => Show(s, Failed, "OPENAI_TUNNEL_PROFILE_WRITE_FAILED")
    case StartFails => Show(s, Failed, "OPENAI_TUNNEL_START_FAILED")
    case Starts => Show(s.(process := Some(Child(id, now))), Running, "")
  }

  /** The n-th restart in a row waits twice as long as the one before. */
  function ScheduleRestart(s: State, lastError: string): (State, Option<Timer>) {
    if s.closed then (s, None)
    else if s.count >= s.cfg.maxRestarts then (Show(s, Failed, lastError), None)
    else
      var counted := s.(count := s.count + 1, token := s.token + 1);
      (Show(counted, Restarting, lastError), Some(Timer(counted.token, s.cfg.restartDelay * Pow2(s.count))))
  }

  /** Whether Start gets as far as launching. */
  predicate Launches(s: State, executable: bool) {
    !s.closed && s.cfg.enabled && s.cfg.key.GoodKey? && executable && s.process.None?
  }

  function LaunchOrSchedule(s: State, a: Attempt, id: nat, now: int, lastError: string): (State, Option<Timer>) {
    if a.Starts? then (Launch(s, a, id, now), None) else ScheduleRestart(Launch(s, a, id, now), lastError)
  }

  function Start(s: State, executable: bool, a: Attempt, id: nat, now: int): (State, Option<Timer>) {
    if s.closed then (s, None)
    else if !s.cfg.enabled then (Show(s, Disabled, ""), None)
    else match s.cfg.key
      case NoKey => (Show(s, Blocked, "OPENAI_TUNNEL_API_KEY_MISSING"), None)
      case BadKey => (Show(s, Blocked, "OPENAI_TUNNEL_API_KEY_INVALID"), None)
      case GoodKey =>
        if !executable then (Show(s, Failed, "OPENAI_TUNNEL_RUNTIME_MISSING"), None)
        else if s.process.Some? then (Show(s, Running, ""), None)
        else LaunchOrSchedule(Show(s.(token := s.token + 1, count := 0), Starting, ""), a, id, now, "OPENAI_TUNNEL_START_FAILED")
  }

  predicate Owns(s: State, id: nat) {
    s.process.Some? && s.process.value.id == id
  }

  /** A run was long enough to start counting afresh. */
  predicate Stable(s: State, id: nat, now: int) {
    Owns(s, id) && !s.closed && now - s.process.value.startedAt >= s.cfg.stableRuntime
  }

  function Exited(s: State, id: nat, now: int): (State, Option<Timer>) {
    if !Owns(s, id) then (s, None)
    else if s.closed then (Show(s.(process := None), Idle(s.cfg), ""), None)
    else ScheduleRestart(s.(process := None, count := if Stable(s, id, now) then 0 else s.count), "OPENAI_TUNNEL_EXITED")
  }

  predicate Heeds(s: State, token: nat) {
    !s.closed && s.process.None? && token == s.token
  }

  function Fires(s: State, token: nat, a: Attempt, id: nat, now: int): (State, Option<Timer>) {
    if !Heeds(s, token) then (s, None)
    else LaunchOrSchedule(Show(s, Starting, "OPENAI_TUNNEL_EXITED"), a, id, now, "OPENAI_TUNNEL_RESTART_FAILED")
  }

  function Close(s: State): State {
    if s.closed then s else Show(s.(closed := true, token := s.token + 1, process := None), Idle(s.cfg), "")
  }

  // ---------- The supervisor among its children and timers ----------

  /**
   * alive are the children that run, waiting those whose exit is not yet reported, timers the tokens of restarts
   * not yet fired, and next the name of the next child. attempts and delays count the launches attempted and
   * the delays scheduled since the count was last reset.
   */
  datatype System = System(tunnel: State, alive: set<nat>, waiting: set<nat>, timers: set<nat>, next: nat,
                           attempts: nat, delays: int)

  datatype Event =
    | StartCalled(executable: bool, attempt: Attempt, now: int)
    | Dies(id: nat)
    | Reports(id: nat, now: int)
    | TimerFires(token: nat, attempt: Attempt, now: int)
    | CloseCalled

  function Begin(cfg: Settings): System {
    System(Initial(cfg), {}, {}, {}, 0, 0, 0)
  }

  /** A child reports its exit after it has died; a timer fires once. */
  predicate Enabled(sys: System, e: Event) {
    match e
    case Dies(id) => id in sys.alive
    case Reports(id, _) => id in sys.waiting && id !in sys.alive
    case TimerFires(token, _, _) => token in sys.timers
    case _ => true
  }

  function Scheduled(sys: System, tunnel: State, timer: Option<Timer>): System {
    match timer
    case None => sys.(tunnel := tunnel)
    case Some(t) => sys.(tunnel := tunnel, timers := sys.timers + {t.token}, delays := sys.delays + t.delay)
  }

  /** After a launch was attempted, the child if there is one is alive. */
  function Attempted(sys: System, a: Attempt): System {
    var counted := sys.(attempts := sys.attempts + 1);
    if a.Starts? then
      counted.(alive := sys.alive + {sys.next}, waiting := sys.waiting + {sys.next}, next := sys.next + 1)
    else counted
  }

  function Step(sys: System, e: Event): System
    requires Enabled(sys, e)
  {
    match e
    case StartCalled(executable, a, now) =>
      var (tunnel, timer) := Start(sys.tunnel, executable, a, sys.next, now);
      if Launches(sys.tunnel, executable) then Scheduled(Attempted(sys.(attempts := 0, delays := 0), a), tunnel, timer)
      else Scheduled(sys, tunnel, timer)
    case Dies(id) => sys.(alive := sys.alive - {id})
    case Reports(id, now) =>
      var (tunnel, timer) := Exited(sys.tunnel, id, now);
      var reset := if Stable(sys.tunnel, id, now) then sys.(attempts := 0, delays := 0) else sys;
      Scheduled(reset.(waiting := sys.waiting - {id}), tunnel, timer)
    case TimerFires(token, a, now) =>
      var (tunnel, timer) := Fires(sys.tunnel, token, a, sys.next, now);
      var left := sys.(timers := sys.timers - {token});
      Scheduled(if Heeds(sys.tunnel, token) then Attempted(left, a) else left, tunnel, timer)
    case CloseCalled => sys.(tunnel := Close(sys.tunnel))
  }

  predicate Legal(sys: System, es: seq<Event>)
    decreases |es|
  {
    es == [] || (Enabled(sys, es[0]) && Legal(Step(sys, es[0]), es[1..]))
  }

  function Run(sys: System, es: seq<Event>): System
    requires Legal(sys, es)
    decreases |es|
  {
    if es == [] then sys else Run(Step(sys, es[0]), es[1..])
  }

  function Limit(cfg: Settings): nat {
    if cfg.maxRestarts < 0 then 0 else cfg.maxRestarts
  }

  /** Every child not yet reported is the supervisor's, or was when it closed. */
  ghost predicate OneChild(sys: System) {
    && sys.alive <= sys.waiting && (forall id | id in sys.waiting :: id < sys.next) && |sys.waiting| <= 1
    && (!sys.tunnel.closed ==> sys.waiting == if sys.tunnel.process.Some? then {sys.tunnel.process.value.id} else {})
    && (sys.tunnel.closed ==> sys.tunnel.process.None?)
  }

  /** The current token is only pending while there is nothing to restart over. */
  ghost predicate TimersOk(sys: System) {
    && (forall token | token in sys.timers :: token <= sys.tunnel.token)
    && (sys.tunnel.token in sys.timers ==> sys.tunnel.process.None? && !sys.tunnel.closed)
  }

  ghost predicate CountsOk(sys: System) {
    && sys.tunnel.count <= Limit(sys.tunnel.cfg)
    && sys.attempts + (if sys.tunnel.token in sys.timers then 1 else 0) <= sys.tunnel.count + 1
    && sys.delays == sys.tunnel.cfg.restartDelay * (Pow2(sys.tunnel.count) - 1)
  }

  ghost predicate Truthful(sys: System) {
    && (sys.tunnel.status == Running ==> sys.tunnel.process.Some?)
    && (sys.tunnel.status == Restarting ==> sys.tunnel.token in sys.timers)
    && (sys.tunnel.closed ==> sys.tunnel.status == Idle(sys.tunnel.cfg))
  }

  ghost predicate SystemOk(sys: System) {
    OneChild(sys) && TimersOk(sys) && CountsOk(sys) && Truthful(sys)
  }

  lemma LaunchOk(sys: System, s: State, a: Attempt, now: int, lastError: string)
    requires s.process.None? && !s.closed && s.cfg == sys.tunnel.cfg && s.token !in sys.timers
    requires sys.alive == {} && sys.waiting == {} && (forall token | token in sys.timers :: token <= s.token)
    requires s.count <= Limit(s.cfg) && sys.attempts + 1 <= s.count + 1
    requires sys.delays == s.cfg.restartDelay * (Pow2(s.count) - 1)
    ensures var (t, timer) := LaunchOrSchedule(s, a, sys.next, now, lastError); SystemOk(Scheduled(Attempted(sys, a), t, timer))
  {
  }

  lemma StartOk(sys: System, e: Event)
    requires SystemOk(sys) && e.StartCalled?
    ensures SystemOk(Step(sys, e))
  {
    if Launches(sys.tunnel, e.executable) {
      var s := Show(sys.tunnel.(token := sys.tunnel.token + 1, count := 0), Starting, "");
      LaunchOk(sys.(attempts := 0, delays := 0), s, e.attempt, e.now, "OPENAI_TUNNEL_START_FAILED");
    } else {
      StartIdle(sys, e);
    }
  }

  lemma StartIdle(sys: System, e: Event)
    requires SystemOk(sys) && e.StartCalled? && !Launches(sys.tunnel, e.executable)
    ensures SystemOk(Step(sys, e))
  {}

  lemma FireOk(sys: System, e: Event)
    requires SystemOk(sys) && e.TimerFires? && Enabled(sys, e)
    ensures SystemOk(Step(sys, e))
  {
    if Heeds(sys.tunnel, e.token) {
      var left := sys.(timers := sys.timers - {e.token});
      LaunchOk(left, Show(sys.tunnel, Starting, "OPENAI_TUNNEL_EXITED"), e.attempt, e.now, "OPENAI_TUNNEL_RESTART_FAILED");
    }
  }

  lemma StepKeeps(sys: System, e: Event)
    requires Enabled(sys, e)
    ensures Step(sys, e).tunnel.cfg == sys.tunnel.cfg
    ensures sys.tunnel.closed ==> Step(sys, e).tunnel.closed && Step(sys, e).next == sys.next && Step(sys, e).alive <= sys.alive
  {}

  lemma StepOk(sys: System, e: Event)
    requires SystemOk(sys) && Enabled(sys, e)
    ensures SystemOk(Step(sys, e)) && Step(sys, e).tunnel.cfg == sys.tunnel.cfg
    ensures sys.tunnel.closed ==> Step(sys, e).tunnel.closed && Step(sys, e).next == sys.next && Step(sys, e).alive <= sys.alive
  {
    StepKeeps(sys, e);
    match e
    case StartCalled(_, _, _) => StartOk(sys, e);
    case Reports(_, _) =>
    case TimerFires(_, _, _) => FireOk(sys, e);
    case _ =>
  }

  lemma {:induction false} RunOk(sys: System, es: seq<Event>)
    requires SystemOk(sys) && Legal(sys, es)
    ensures SystemOk(Run(sys, es)) && Run(sys, es).tunnel.cfg == sys.tunnel.cfg
    decreases |es|
  {
    if es != [] {
      StepOk(sys, es[0]);
      RunOk(Step(sys, es[0]), es[1..]);
    }
  }

  /**
   * Whatever dies, fires and is called in any order: at most one child is alive; since the last reset at most
   * maxRestarts + 1 launches were attempted, and the delays scheduled add up to restartDelay (2^count - 1).
   * A status of running means a child is owned, and one of restarting that its timer is still to fire.
   */
  lemma Supervision(cfg: Settings, es: seq<Event>)
    requires Legal(Begin(cfg), es)
    ensures var sys := Run(Begin(cfg), es);
            && |sys.alive| <= 1
            && sys.attempts <= Limit(cfg) + 1
            && sys.delays == cfg.restartDelay * (Pow2(sys.tunnel.count) - 1) && sys.tunnel.count <= Limit(cfg)
            && (sys.tunnel.status == Running ==> sys.tunnel.process.Some?)
            && (sys.tunnel.status == Restarting ==> sys.tunnel.token in sys.timers)
  {
    RunOk(Begin(cfg), es);
    var sys := Run(Begin(cfg), es);
    Fewer(sys.alive, sys.waiting);
  }

  lemma {:induction false} Fewer(a: set<nat>, b: set<nat>)
    requires a <= b
    ensures |a| <= |b|
    decreases |a|
  {
    if a != {} {
      var x :| x in a;
      Fewer(a - {x}, b - {x});
    }
  }

  /** After Close nothing is launched: no child is ever added, and those left only die. */
  lemma {:induction false} NothingAfterClose(sys: System, es: seq<Event>)
    requires SystemOk(sys) && Legal(sys, es) && sys.tunnel.closed
    ensures Run(sys, es).tunnel.closed && Run(sys, es).next == sys.next && Run(sys, es).alive <= sys.alive
    decreases |es|
  {
    if es != [] {
      StepOk(sys, es[0]);
      NothingAfterClose(Step(sys, es[0]), es[1..]);
    }
  }

  /** A child that exits under an open supervisor is restarted later, or the limit is used up and that is shown. */
  lemma ExitIsFollowedUp(cfg: Settings, es: seq<Event>, id: nat, now: int)
    requires Legal(Begin(cfg), es) && Enabled(Run(Begin(cfg), es), Reports(id, now)) && !Run(Begin(cfg), es).tunnel.closed
    ensures var next := Step(Run(Begin(cfg), es), Reports(id, now));
            || (next.tunnel.status == Restarting && next.tunnel.token in next.timers)
            || (next.tunnel.status == Failed && next.tunnel.count == Limit(cfg))
  {
    RunOk(Begin(cfg), es);
    StepOk(Run(Begin(cfg), es), Reports(id, now));
  }
}
