/** A request can time out under an open bridge that ticks: its waiter reads a deadline, stalls, and gives up. */
module BrokerStalls {
  import opened Wrappers
  import opened Json
  import opened Canonical
  import opened BrokerState
  import opened BrokerRuns
  import opened BrokerSurprises
  import opened BrokerTiming

  /** A run from a given system, with its bridge open and ticking all along. */
  ghost predicate Ticking(start: System, es: seq<Event>, sys: System) {
    Legal(start, es) && TickedRun(start, es) && Run(start, es) == sys
  }

  lemma {:induction false} OneMoreTicked(start: System, es: seq<Event>, sys: System, e: Event)
    requires Ticking(start, es, sys) && Enabled(sys, e) && Ticked(sys, e)
    ensures Ticking(start, es + [e], Step(sys, e))
    decreases |es|
  {
    if es == [] {
      assert es + [e] == [e] && [e][1..] == [];
    } else {
      assert (es + [e])[0] == es[0] && (es + [e])[1..] == es[1..] + [e];
      OneMoreTicked(Step(start, es[0]), es[1..], sys, e);
    }
  }

  /** The bridge b is open and x is active under it, with its waiter at the given stage. */
  ghost predicate Awaited(sys: System, now: int, deadline: int, w: Waiter) {
    && sys.broker.bridge == "b" && !sys.broker.closed && sys.broker.cfg == Settle(Small())
    && Live(sys.broker, "x", "b") && sys.broker.requests["x"].deadline == deadline
    && sys.waiters == map["x" := w] && sys.clock == now && sys.tick <= now
  }

  lemma Beats(start: System, es: seq<Event>, sys: System, now: int, deadline: int, w: Waiter, later: int)
    returns (longer: seq<Event>, next: System)
    requires Ticking(start, es, sys) && Awaited(sys, now, deadline, w)
    requires now <= later < sys.tick + DEFAULT_REQUEST_TIMEOUT
    ensures Ticking(start, longer, next) && next.tick == later
    ensures Awaited(next, later, later + DEFAULT_REQUEST_TIMEOUT, w)
  {
    next := Step(sys, Beat(later));
    BeatServes(sys, now, deadline, w, later);
    OneMoreTicked(start, es, sys, Beat(later));
    longer := es + [Beat(later)];
  }

  lemma BeatServes(sys: System, now: int, deadline: int, w: Waiter, later: int)
    requires Awaited(sys, now, deadline, w) && now <= later
    ensures Enabled(sys, Beat(later)) && Step(sys, Beat(later)).tick == later
    ensures Awaited(Step(sys, Beat(later)), later, later + DEFAULT_REQUEST_TIMEOUT, w)
  {
    assert "x" in ActiveIds(sys.broker);
    assert Tick(sys.broker, later) == Heartbeat(sys.broker, later);
  }

  /** The timer set for the first deadline has fired: the waiter reads the renewed one, and finds it passed later. */
  lemma Stalls(start: System, es: seq<Event>, sys: System, now: int, deadline: int) returns (longer: seq<Event>, next: System)
    requires Ticking(start, es, sys) && Awaited(sys, now, deadline, Waiting) && now < sys.tick + DEFAULT_REQUEST_TIMEOUT
    ensures Ticking(start, longer, next) && next.tick == sys.tick
    ensures Awaited(next, now, deadline, Comparing(deadline, sys.tick))
  {
    next := Step(sys, Peek("x"));
    OneMoreTicked(start, es, sys, Peek("x"));
    longer := es + [Peek("x")];
  }

  lemma FindsPassed(start: System, es: seq<Event>, sys: System, now: int, deadline: int, read: int, asOf: int)
    returns (longer: seq<Event>, next: System)
    requires Ticking(start, es, sys) && Awaited(sys, now, deadline, Comparing(read, asOf))
    requires now <= read < sys.tick + DEFAULT_REQUEST_TIMEOUT
    ensures Ticking(start, longer, next) && next.tick == sys.tick && Awaited(next, read, deadline, GivingUp)
  {
    next := Step(sys, Check(read, "x"));
    OneMoreTicked(start, es, sys, Check(read, "x"));
    longer := es + [Check(read, "x")];
  }

  lemma GivesUpAlive(start: System, es: seq<Event>, sys: System, now: int, deadline: int) returns (longer: seq<Event>)
    requires Ticking(start, es, sys) && Awaited(sys, now, deadline, GivingUp) && now < sys.tick + DEFAULT_REQUEST_TIMEOUT
    ensures Legal(start, longer) && TickedRun(start, longer) && HasTimedOut(Run(start, longer).broker.ledger, "x")
    ensures Run(start, longer).broker.bridge == "b"
  {
    assert GivesUpLive(sys.broker, Quit("x"), "x");
    AbandonedTimesOut(sys.broker, "x", "x");
    OneMoreTicked(start, es, sys, Quit("x"));
    longer := es + [Quit("x")];
  }

  lemma AsksServed(sys: System) returns (es: seq<Event>, next: System)
    requires BrokerSurprises.Opened(sys.broker) && sys.exchanges == map[] && sys.waiters == map[] && sys.clock == 0 && sys.tick == 0
    ensures Ticking(sys, es, next) && next.tick == 0 && Awaited(next, 0, DEFAULT_REQUEST_TIMEOUT, Waiting)
  {
    assert ActiveIds(sys.broker) == {};
    next := Asks(sys, "x", 0);
    assert Ticking(sys, [], sys);
    OneMoreTicked(sys, [], sys, Ask(0, "x", HELLO));
    es := [] + [Ask(0, "x", HELLO)];
  }

  /**
   * A run with the bridge open throughout and no two ticks as much as the timeout apart, in which an active request
   * times out. Its waiter's timer fires at the first deadline; it reads the renewed one, stalls until just that
   * passes, and gives up, though by then another tick has renewed the request again.
   */
  lemma TimesOutWhileAttended() returns (es: seq<Event>)
    ensures Legal(Start(Small()), [OPENING]) && Legal(Run(Start(Small()), [OPENING]), es)
    ensures var sys := Run(Start(Small()), [OPENING]);
            TickedRun(sys, es) && HasTimedOut(Run(sys, es).broker.ledger, "x") && Run(sys, es).broker.bridge == "b"
  {
    var start := FirstStep();
    var sys;
    es, sys := AsksServed(start);
    es, sys := Beats(start, es, sys, 0, 180_000, Waiting, 100_000);
    es, sys := Beats(start, es, sys, 100_000, 280_000, Waiting, 180_000);
    es, sys := Stalls(start, es, sys, 180_000, 360_000);
    es, sys := Beats(start, es, sys, 180_000, 360_000, Comparing(360_000, 180_000), 300_000);
    es, sys := FindsPassed(start, es, sys, 300_000, 480_000, 360_000, 180_000);
    es := GivesUpAlive(start, es, sys, 360_000, 480_000);
  }
}
