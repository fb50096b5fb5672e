/** How often a failing tunnel is launched, told by the events of a run alone: who was started when, and who exited when. */
module TunnelLimits {
  import opened Wrappers
  import opened Tunnel

  /** The event is an attempt to launch: a first one by Start, or a restart by the timer that is current. */
  ghost predicate Tries(sys: System, e: Event) {
    && !sys.tunnel.closed && sys.tunnel.process.None?
    && match e
       case StartCalled(executable, _, _) => executable && sys.tunnel.cfg.enabled && sys.tunnel.cfg.key.GoodKey?
       case TimerFires(token, _, _) => token == sys.tunnel.token
       case _ => false
  }

  /** The delay of the restart that the event schedules, if it does. */
  ghost function Delay(sys: System, e: Event): Option<int> {
    var timer := match e
      case StartCalled(executable, a, now) => Start(sys.tunnel, executable, a, sys.next, now).1
      case Reports(id, now) => Exited(sys.tunnel, id, now).1
      case TimerFires(token, a, now) => Fires(sys.tunnel, token, a, sys.next, now).1
      case _ => None;
    match timer case Some(t) => Some(t.delay) case None => None
  }

  /** When each child was started, the launches tried and the delays scheduled since the notes were last begun afresh. */
  datatype Log = Log(starts: map<nat, int>, launches: nat, delays: int)

  const NO_NOTES := Log(map[], 0, 0)

  /** A child is reported to have exited, at least stableRuntime after it was started. */
  ghost predicate Lasted(sys: System, e: Event, log: Log) {
    && e.Reports? && !sys.tunnel.closed
    && e.id in log.starts && e.now - log.starts[e.id] >= sys.tunnel.cfg.stableRuntime
  }

  /** Start begins the notes afresh, and a child that lasted does so too if lasting is set, with its own launch noted. */
  ghost function Note(sys: System, e: Event, log: Log, lasting: bool): Log {
    var before := if e.StartCalled? && Tries(sys, e) then Log(log.starts, 0, 0)
                  else if lasting && Lasted(sys, e, log) then Log(log.starts, 1, 0) else log;
    Log(if Tries(sys, e) && e.attempt.Starts? then log.starts[sys.next := e.now] else log.starts,
        before.launches + (if Tries(sys, e) then 1 else 0),
        before.delays + match Delay(sys, e) case Some(d) => d case None => 0)
  }

  ghost function Notes(sys: System, es: seq<Event>, log: Log, lasting: bool): Log
    requires Legal(sys, es)
    decreases |es|
  {
    if es == [] then log else Notes(Step(sys, es[0]), es[1..], Note(sys, es[0], log, lasting), lasting)
  }

  ghost predicate NoneLasts(sys: System, es: seq<Event>, log: Log)
    requires Legal(sys, es)
    decreases |es|
  {
    es == [] || (!Lasted(sys, es[0], log) && NoneLasts(Step(sys, es[0]), es[1..], Note(sys, es[0], log, false)))
  }

  // ---------- The notes and the restart count ----------

  ghost predicate KnowsStart(sys: System, log: Log) {
    sys.tunnel.process.Some? ==>
      sys.tunnel.process.value.id in log.starts && log.starts[sys.tunnel.process.value.id] == sys.tunnel.process.value.startedAt
  }

  ghost predicate Tallied(sys: System, log: Log) {
    && log.launches + (if sys.tunnel.token in sys.timers then 1 else 0) <= sys.tunnel.count + 1
    && log.delays == sys.tunnel.cfg.restartDelay * (Pow2(sys.tunnel.count) - 1)
  }

  lemma NoteLaunch(sys: System, e: Event, log: Log)
    requires SystemOk(sys) && Enabled(sys, e) && e.StartCalled? && Tries(sys, e)
    ensures KnowsStart(Step(sys, e), Note(sys, e, log, true)) && Tallied(Step(sys, e), Note(sys, e, log, true))
  {}

  lemma NoteNoLaunch(sys: System, e: Event, log: Log)
    requires e.StartCalled? && !Tries(sys, e) && Tallied(sys, log) && KnowsStart(sys, log)
    ensures KnowsStart(Step(sys, e), Note(sys, e, log, true)) && Tallied(Step(sys, e), Note(sys, e, log, true))
  {}

  lemma NoteStale(sys: System, e: Event, log: Log)
    requires e.TimerFires? && Enabled(sys, e) && !Tries(sys, e) && KnowsStart(sys, log) && Tallied(sys, log)
    ensures KnowsStart(Step(sys, e), Note(sys, e, log, true)) && Tallied(Step(sys, e), Note(sys, e, log, true))
  {}

  lemma NoteFire(sys: System, e: Event, log: Log)
    requires SystemOk(sys) && Enabled(sys, e) && e.TimerFires? && Tries(sys, e) && Tallied(sys, log)
    ensures KnowsStart(Step(sys, e), Note(sys, e, log, true)) && Tallied(Step(sys, e), Note(sys, e, log, true))
  {}

  lemma NoteExit(sys: System, e: Event, log: Log)
    requires SystemOk(sys) && Enabled(sys, e) && e.Reports? && KnowsStart(sys, log) && Tallied(sys, log)
    ensures KnowsStart(Step(sys, e), Note(sys, e, log, true)) && Tallied(Step(sys, e), Note(sys, e, log, true))
  {}

  lemma NoteStep(sys: System, e: Event, log: Log)
    requires SystemOk(sys) && Enabled(sys, e) && KnowsStart(sys, log) && Tallied(sys, log)
    ensures KnowsStart(Step(sys, e), Note(sys, e, log, true)) && Tallied(Step(sys, e), Note(sys, e, log, true))
  {
    match e
    case StartCalled(_, _, _) => if Tries(sys, e) { NoteLaunch(sys, e, log); } else { NoteNoLaunch(sys, e, log); }
    case TimerFires(_, _, _) => if Tries(sys, e) { NoteFire(sys, e, log); } else { NoteStale(sys, e, log); }
    case Reports(_, _) => NoteExit(sys, e, log);
    case _ =>
  }

  lemma {:induction false} NotesKept(sys: System, es: seq<Event>, log: Log)
    requires SystemOk(sys) && Legal(sys, es) && KnowsStart(sys, log) && Tallied(sys, log)
    ensures KnowsStart(Run(sys, es), Notes(sys, es, log, true)) && Tallied(Run(sys, es), Notes(sys, es, log, true))
    decreases |es|
  {
    if es != [] {
      NoteStep(sys, es[0], log);
      StepOk(sys, es[0]);
      NotesKept(Step(sys, es[0]), es[1..], Note(sys, es[0], log, true));
    }
  }

  lemma {:induction false} SameNotes(sys: System, es: seq<Event>, log: Log)
    requires Legal(sys, es) && NoneLasts(sys, es, log)
    ensures Notes(sys, es, log, false) == Notes(sys, es, log, true)
    decreases |es|
  {
    if es != [] { SameNotes(Step(sys, es[0]), es[1..], Note(sys, es[0], log, false)); }
  }

  // ---------- Whole runs ----------

  /**
   * In every run: since Start last launched or a child last lasted, whichever came later, at most maxRestarts + 1
   * launches were tried, and the delays before them double from restartDelay on.
   */
  lemma LaunchesBounded(cfg: Settings, es: seq<Event>)
    requires Legal(Begin(cfg), es)
    ensures var log := Notes(Begin(cfg), es, NO_NOTES, true);
            && log.launches <= Limit(cfg) + 1
            && exists n :: 0 <= n <= Limit(cfg) && log.launches <= n + 1 && log.delays == cfg.restartDelay * (Pow2(n) - 1)
  {
    RunOk(Begin(cfg), es);
    NotesKept(Begin(cfg), es, NO_NOTES);
    var n := Run(Begin(cfg), es).tunnel.count;
    assert 0 <= n <= Limit(cfg);
  }

  /** A crash loop ends: while no child lasts, one Start leads to at most maxRestarts + 1 launches in all. */
  lemma CrashLoopEnds(cfg: Settings, es: seq<Event>)
    requires Legal(Begin(cfg), es) && NoneLasts(Begin(cfg), es, NO_NOTES)
    ensures var log := Notes(Begin(cfg), es, NO_NOTES, false);
            && log.launches <= Limit(cfg) + 1
            && exists n :: 0 <= n <= Limit(cfg) && log.launches <= n + 1 && log.delays == cfg.restartDelay * (Pow2(n) - 1)
  {
    SameNotes(Begin(cfg), es, NO_NOTES);
    LaunchesBounded(cfg, es);
  }

  /**
   * What an exit under an open supervisor leads to, by how long the child lasted: the count starts afresh after one
   * that lasted, so that its restart waits just restartDelay, and goes on after any other, until it is used up.
   */
  lemma ExitCounts(cfg: Settings, es: seq<Event>, e: Event)
    requires Legal(Begin(cfg), es) && e.Reports? && Enabled(Run(Begin(cfg), es), e) && !Run(Begin(cfg), es).tunnel.closed
    ensures var sys := Run(Begin(cfg), es);
            var starts := Notes(Begin(cfg), es, NO_NOTES, true).starts;
            var next := Step(sys, e).tunnel;
            && e.id in starts
            && var before := if e.now - starts[e.id] >= cfg.stableRuntime then 0 else sys.tunnel.count;
            if before < cfg.maxRestarts then
              && next.status == Restarting && next.lastError == "OPENAI_TUNNEL_EXITED" && next.count == before + 1
              && next.token in Step(sys, e).timers && Delay(sys, e) == Some(cfg.restartDelay * Pow2(before))
            else next.status == Failed && next.lastError == "OPENAI_TUNNEL_EXITED" && next.count == before && Delay(sys, e) == None
  {
    RunOk(Begin(cfg), es);
    NotesKept(Begin(cfg), es, NO_NOTES);
  }

  /** A child that lasted, where restarts are allowed at all, is restarted after restartDelay and is the first counted. */
  lemma LastedStartsAfresh(cfg: Settings, es: seq<Event>, e: Event)
    requires Legal(Begin(cfg), es) && Enabled(Run(Begin(cfg), es), e) && cfg.maxRestarts >= 1
    requires Lasted(Run(Begin(cfg), es), e, Notes(Begin(cfg), es, NO_NOTES, true))
    ensures Delay(Run(Begin(cfg), es), e) == Some(cfg.restartDelay)
    ensures Step(Run(Begin(cfg), es), e).tunnel.count == 1 && Step(Run(Begin(cfg), es), e).tunnel.status == Restarting
  {
    ExitCounts(cfg, es, e);
    RunOk(Begin(cfg), es);
    assert Pow2(0) == 1 && cfg.restartDelay * 1 == cfg.restartDelay;
  }

  // ---------- What a start shows ----------

  /** After Start on an open supervisor, what is shown says why nothing runs, or that a child does. */
  lemma StartShows(s: State, executable: bool, a: Attempt, id: nat, now: int)
    requires !s.closed
    ensures var t := Start(s, executable, a, id, now).0;
            && (t.status == Disabled <==> !s.cfg.enabled)
            && (t.status == Blocked <==> s.cfg.enabled && !s.cfg.key.GoodKey?)
            && (t.status == Blocked ==>
                  t.lastError == if s.cfg.key.NoKey? then "OPENAI_TUNNEL_API_KEY_MISSING" else "OPENAI_TUNNEL_API_KEY_INVALID")
            && (t.status == Running <==>
                  s.cfg.enabled && s.cfg.key.GoodKey? && executable && (s.process.Some? || a.Starts?))
            && (t.status == Running ==> t.process.Some? && t.lastError == "")
            && (t.lastError == "OPENAI_TUNNEL_RUNTIME_MISSING" <==> s.cfg.enabled && s.cfg.key.GoodKey? && !executable)
            && (t.status == Restarting <==>
                  && s.cfg.enabled && s.cfg.key.GoodKey? && executable && s.process.None? && !a.Starts? && s.cfg.maxRestarts > 0)
            && (s.process.Some? ==> t.process == s.process && t.token == s.token && t.count == s.count)
  {}
}
