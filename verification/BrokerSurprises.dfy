/** What the broker does not guarantee: for each, a run that shows it, and exactly when it does hold. */
module BrokerSurprises {
  import opened Wrappers
  import opened Json
  import opened Canonical
  import opened BrokerState
  import opened BrokerInvariant
  import opened BrokerBatch
  import opened BrokerSteps
  import opened BrokerRuns
  import opened BrokerLaws
  import opened BrokerLimits
  import Bridge
  import OpenAI
  import Text

  // ---------- The settings ----------

  /** New makes the lease outlast the wait exactly when it was asked to or its default for the lease does. */
  lemma LeaseOutlastsWaitIff(cfg: Config)
    ensures var s := Settle(cfg);
            s.bridgeLease > s.waitTimeout <==> cfg.bridgeLease > s.waitTimeout || s.waitTimeout < DEFAULT_BRIDGE_LEASE
  {}

  /** It need not: with a wait of three minutes and no lease given, the lease is two. */
  lemma LeaseShorterThanWait()
    ensures exists cfg: Config :: Settle(cfg).bridgeLease < Settle(cfg).waitTimeout
  {
    var cfg := Config(0, 0, 0, 0, 180_000, 0, 0, 0);
    assert Settle(cfg).bridgeLease < Settle(cfg).waitTimeout;
  }

  // ---------- One more event ----------

  lemma {:induction false} OneMoreEvent(sys: System, es: seq<Event>, e: Event)
    requires Legal(sys, es) && Enabled(Run(sys, es), e)
    ensures Legal(sys, es + [e]) && Run(sys, es + [e]) == Step(Run(sys, es), e)
    decreases |es|
  {
    if es == [] {
      assert es + [e] == [e] && [e][1..] == [];
    } else {
      assert (es + [e])[0] == es[0] && (es + [e])[1..] == es[1..] + [e];
      OneMoreEvent(Step(sys, es[0]), es[1..], e);
    }
  }

  // ---------- The runs ----------

  const HELLO := Conversation("m", [Message(ROLE_USER, "hi", "", [], None)], [], ToolChoice("", ""), ResponseFormat("", map[]),
                              map[], false)

  lemma HelloEncodes()
    ensures Payload(HELLO).Ok?
  {
    var messages := HELLO.messages;
    assert messages[0].role == "user" && OpenAI.IsRole(messages[0].role);
    assert Bridge.ValidateMessage(messages[0], {}) == Ok({});
    assert messages[1..] == [];
    assert Bridge.ValidateMessages(messages[1..], {}) == Ok({});
    assert Bridge.ValidateMessages(messages, {}) == Ok({});
    assert Bridge.ValidateConversation(HELLO) == None;
  }

  function Small(): Config {
    Config(2, 1, match Payload(HELLO) case Ok((_, bytes)) => bytes case Err(_) => 0, 0, 0, 0, 0, 0)
  }

  const OPENING := OpenBridge(0, "b")

  /** Under the bridge b with nothing due and no receipt kept. */
  ghost predicate Underway(s: State, now: int) {
    && s.cfg == Settle(Small()) && !s.closed && s.bridge == "b" && s.lease.Some? && now < s.lease.value
    && s.receipts == map[]
    && forall id | id in s.requests :: s.requests[id].bridge == "b" && now < s.requests[id].deadline
  }

  lemma NothingDue(s: State, now: int)
    requires Underway(s, now)
    ensures Expire(s, now) == s && Refresh(s, now) == s
  {
    assert DueIds(s, s.requests.Keys, now) == {};
    assert CleanupReceipts(s, now) == s;
  }

  ghost predicate Opened(s: State) {
    && Underway(s, DEFAULT_WAIT_TIMEOUT) && s.requests == map[] && s.queue == [] && s.notify == 1
    && s.ledger == EMPTY_LEDGER.(bridges := {"b"})
  }

  lemma Opens()
    ensures Opened(Open(Initial(Small()), 0, "b").0)
  {
    var s := Initial(Small());
    assert DueIds(s, s.requests.Keys, 0) == {};
    assert Expire(s, 0) == s;
  }

  lemma Admits(s: State, id: string, now: int)
    requires Underway(s, now) && |ActiveIds(s)| < 2 && 0 <= now
    ensures Payload(HELLO).Ok?
    ensures Enqueue(s, now, id, HELLO).0 == Admitted(s, id, HELLO, Payload(HELLO).value.0, Payload(HELLO).value.1, now)
    ensures Enqueue(s, now, id, HELLO).1.Ok? && Underway(Enqueue(s, now, id, HELLO).0, now)
  {
    HelloEncodes();
    NothingDue(s, now);
    EnqueueUnfolds(s, now, id, HELLO);
  }

  // ---------- A wait that ends with nothing to report while a request waits ----------

  lemma ActiveSplits(s: State)
    ensures |QueuedIds(s)| + |InflightIds(s)| == |ActiveIds(s)|
  {
    assert QueuedIds(s) !! InflightIds(s) && QueuedIds(s) + InflightIds(s) == ActiveIds(s);
  }

  lemma ReportsAll(s: State, bridge: string, items: seq<Item>, now: int)
    requires WaitOver(s, bridge, items, now).1.Reply?
    ensures WaitOver(s, bridge, items, now).1.output.kind == NoRequest
    ensures WaitOver(s, bridge, items, now).1.output.activity.active == |ActiveIds(Expire(s, now))|
  {
    var t := TouchBridge(Expire(s, now), now);
    ActiveSplits(t);
    assert ActiveIds(t) == ActiveIds(Expire(s, now));
  }

  /**
   * An exchange whose wait is over reports that nothing is active exactly when every active request has timed
   * out by then; that is so, in particular, whenever it still waits on the current channel.
   */
  lemma NoRequestIff(cfg: Config, es: seq<Event>, key: nat, now: int)
    requires Legal(Start(cfg), es) && Enabled(Run(Start(cfg), es), Timer(now, key))
    requires var sys := Run(Start(cfg), es);
             WaitOver(sys.broker, sys.exchanges[key].bridge, sys.exchanges[key].items, now).1.Reply?
    ensures var sys := Run(Start(cfg), es); var x := sys.exchanges[key];
            var active := WaitOver(sys.broker, x.bridge, x.items, now).1.output.activity.active;
            && (active == 0 <==> forall id | id in ActiveIds(sys.broker) :: sys.broker.requests[id].deadline <= now)
            && (x.ticket == sys.broker.notify ==> active == 0)
  {
    var sys := Run(Start(cfg), es);
    var x := sys.exchanges[key];
    ReportsAll(sys.broker, x.bridge, x.items, now);
    ExpiresAllIff(sys.broker, now);
    if x.ticket == sys.broker.notify { NoLostWakeup(cfg, es, key); }
  }

  lemma ExpiresAllIff(s: State, now: int)
    ensures |ActiveIds(Expire(s, now))| == 0 <==> forall id | id in ActiveIds(s) :: s.requests[id].deadline <= now
  {
    var e := ExpireRequests(s, now);
    ExpireRequestsSets(s, now);
    assert ActiveIds(Expire(s, now)) == ActiveIds(e);
    forall id | id in ActiveIds(s) && now < s.requests[id].deadline ensures id in ActiveIds(e) {
      assert !Due(s.requests[id], now);
    }
    forall id | id in ActiveIds(e) ensures id in ActiveIds(s) && now < s.requests[id].deadline {
      assert !Due(s.requests[id], now);
    }
    assert |ActiveIds(e)| == 0 <==> ActiveIds(e) == {};
  }

  lemma FirstStep() returns (sys: System)
    ensures Legal(Start(Small()), [OPENING]) && sys == Run(Start(Small()), [OPENING])
    ensures Opened(sys.broker) && sys.exchanges == map[] && sys.waiters == map[] && sys.clock == 0
  {
    var start := Start(Small());
    OneMoreEvent(start, [], OPENING);
    assert [] + [OPENING] == [OPENING];
    sys := Step(start, OPENING);
    Opens();
  }

  lemma Enters(sys: System, responses: seq<Response>) returns (after: System)
    requires Underway(sys.broker, 0) && sys.exchanges == map[] && sys.clock == 0
    ensures Enabled(sys, Enter(0, 0, 0, responses, [])) && after == Step(sys, Enter(0, 0, 0, responses, []))
    ensures after.broker == sys.broker && after.waiters == sys.waiters && after.clock == 0
    ensures after.exchanges == map[0 := Looping("b", 1, Unsent(responses, []))]
  {
    NothingDue(sys.broker, 0);
    after := Step(sys, Enter(0, 0, 0, responses, []));
  }

  lemma ParksEmpty(s: State)
    requires Opened(s)
    ensures Turn(s, "b", 1, Unsent([], []), 0).1 == Park([], false) && Opened(Turn(s, "b", 1, Unsent([], []), 0).0)
  {
    NothingDue(s, 0);
    TurnUnfolds(s, "b", 1, Unsent([], []), 0);
  }

  lemma Passes(sys: System) returns (after: System)
    requires Opened(sys.broker) && sys.exchanges == map[0 := Looping("b", 1, Unsent([], []))] && sys.clock == 0
    ensures Enabled(sys, Pass(0, 0)) && after == Step(sys, Pass(0, 0))
    ensures Opened(after.broker) && 0 in after.exchanges && after.exchanges[0].Parked? && after.clock == 0
    ensures after.exchanges[0].bridge == "b"
  {
    ParksEmpty(sys.broker);
    after := Step(sys, Pass(0, 0));
  }

  lemma Asks(sys: System, id: string, now: nat) returns (after: System)
    requires Underway(sys.broker, now) && |ActiveIds(sys.broker)| < 2 && sys.clock <= now
    requires id != "" && id !in sys.broker.ledger.serial && id !in sys.broker.requests
    ensures Enabled(sys, Ask(now, id, HELLO)) && after == Step(sys, Ask(now, id, HELLO))
    ensures Underway(after.broker, now) && after.exchanges == sys.exchanges && after.clock == now
    ensures after.waiters == sys.waiters[id := Waiting]
    ensures Payload(HELLO).Ok?
    ensures after.broker == Admitted(sys.broker, id, HELLO, Payload(HELLO).value.0, Payload(HELLO).value.1, now)
  {
    Admits(sys.broker, id, now);
    after := Step(sys, Ask(now, id, HELLO));
  }

  ghost predicate Reached(es: seq<Event>, sys: System) {
    Legal(Start(Small()), es) && Run(Start(Small()), es) == sys
  }

  lemma GoOn(es: seq<Event>, sys: System, e: Event) returns (longer: seq<Event>)
    requires Reached(es, sys) && Enabled(sys, e)
    ensures Reached(longer, Step(sys, e)) && longer == es + [e]
  {
    OneMoreEvent(Start(Small()), es, e);
    longer := es + [e];
  }

  lemma Waits() returns (es: seq<Event>, sys: System)
    ensures Reached(es, sys) && Opened(sys.broker) && sys.clock == 0
    ensures 0 in sys.exchanges && sys.exchanges[0].Parked? && sys.exchanges[0].bridge == "b"
  {
    var first := FirstStep();
    var next := Enters(first, []);
    es := GoOn([OPENING], first, Enter(0, 0, 0, [], []));
    sys := Passes(next);
    es := GoOn(es, next, Pass(0, 0));
  }

  lemma WaitsThenAsked() returns (es: seq<Event>, sys: System)
    ensures Reached(es, sys) && sys.clock == DEFAULT_WAIT_TIMEOUT && Underway(sys.broker, DEFAULT_WAIT_TIMEOUT)
    ensures |ActiveIds(sys.broker)| == 1 && 0 in sys.exchanges && sys.exchanges[0].Parked? && sys.exchanges[0].bridge == "b"
  {
    var parked;
    es, parked := Waits();
    assert ActiveIds(parked.broker) == {};
    sys := Asks(parked, "x", DEFAULT_WAIT_TIMEOUT);
    es := GoOn(es, parked, Ask(DEFAULT_WAIT_TIMEOUT, "x", HELLO));
    OneActive(parked.broker, "x");
  }

  /** The select race: an exchange's wait is over just as a request arrives, and it reports no request. */
  lemma NoRequestWithWork() returns (es: seq<Event>, output: Output)
    ensures Legal(Start(Small()), es)
    ensures Enabled(Run(Start(Small()), es), Timer(DEFAULT_WAIT_TIMEOUT, 0))
    ensures var sys := Run(Start(Small()), es);
            WaitOver(sys.broker, sys.exchanges[0].bridge, sys.exchanges[0].items, DEFAULT_WAIT_TIMEOUT).1 == Reply(output)
    ensures output.kind == NoRequest && output.activity.active == 1
  {
    var sys;
    es, sys := WaitsThenAsked();
    NothingDue(sys.broker, DEFAULT_WAIT_TIMEOUT);
    var reply := WaitOver(sys.broker, sys.exchanges[0].bridge, sys.exchanges[0].items, DEFAULT_WAIT_TIMEOUT).1;
    assert reply.Reply?;
    ReportsAll(sys.broker, sys.exchanges[0].bridge, sys.exchanges[0].items, DEFAULT_WAIT_TIMEOUT);
    output := reply.output;
  }

  lemma OneActive(s: State, id: string)
    requires Opened(s) && Payload(HELLO).Ok?
    ensures |ActiveIds(Admitted(s, id, HELLO, Payload(HELLO).value.0, Payload(HELLO).value.1, DEFAULT_WAIT_TIMEOUT))| == 1
  {
    AdmittedSets(s, id, HELLO, Payload(HELLO).value.0, Payload(HELLO).value.1, DEFAULT_WAIT_TIMEOUT);
    assert ActiveIds(s) == {};
  }

  // ---------- More in flight than the limit ----------

  const SPOILED := map[]

  function Bad(id: string): Response { Response(id, Some(SPOILED), "") }

  /** An active request that a garbled response names ends up in flight. */
  lemma BadPutsInFlight(s: State, id: string, now: int)
    requires Text.Trimmed(id) && id != "" && Live(s, id, "b")
    ensures var t := AcceptOne(s, "b", Bad(id), now).state;
            && InflightIds(t) == InflightIds(s) + {id}
            && t.requests.Keys == s.requests.Keys && t.bridge == s.bridge && t.closed == s.closed && t.cfg == s.cfg
            && (forall other | other != id && other in s.requests :: t.requests[other] == s.requests[other])
            && t.requests[id].deadline == now + s.cfg.requestTimeout && Live(t, id, "b")
  {
    assert Accept(s, "b", Judge(Bad(id)), now).state == MarkRetryable(s, id, Judge(Bad(id)).reading.code, now);
    MarkSets(s, id, Judge(Bad(id)).reading.code, now);
  }

  ghost const BothLive: State -> bool := (s: State) => Underway(s, 0) && Live(s, "x", "b") && Live(s, "y", "b")

  lemma BothStillLive(s: State)
    requires BothLive(s)
    ensures BothLive(TouchBridge(s, 0)) && s.bridge == "b"
  {}

  ghost predicate BothBad(rs: seq<Response>) {
    rs == [Bad("x"), Bad("y")]
  }

  /** No deadline is at the start of time. */
  ghost const AllLater: State -> bool := (s: State) => forall id | id in s.requests :: 0 < s.requests[id].deadline

  lemma OneInFlight(s: State, id: string, other: string)
    requires Text.Trimmed(id) && id != "" && Live(s, id, "b") && AllLater(s) && 0 < s.cfg.requestTimeout && Live(s, other, "b")
    ensures var t := AcceptOne(s, "b", Bad(id), 0).state;
            InflightIds(t) == InflightIds(s) + {id} && AllLater(t) && Live(t, other, "b") && t.cfg == s.cfg
  {
    BadPutsInFlight(s, id, 0);
    var t := AcceptOne(s, "b", Bad(id), 0).state;
    forall i | i in t.requests ensures 0 < t.requests[i].deadline {
      if i != id { assert t.requests[i] == s.requests[i]; }
    }
  }

  lemma TwoInFlight(s: State, rs: seq<Response>)
    requires BothLive(s) && BothBad(rs)
    ensures var t := AcceptAll(s, "b", rs, 0).state; {"x", "y"} <= InflightIds(t) && AllLater(t)
  {
    assert rs[..1] == [Bad("x")] && rs[..1][..0] == [];
    OneInFlight(s, "x", "y");
    var t := AcceptOne(s, "b", Bad("x"), 0).state;
    assert AcceptAll(s, "b", rs[..1], 0).state == t;
    OneInFlight(t, "y", "y");
  }

  /** A batch only adds to what is in flight, save for what was due. */
  lemma BatchKeepsInflight(s: State, bridge: string, capacity: int, now: int)
    requires Core(s) && bridge == s.bridge && 1 <= capacity
    ensures |InflightIds(ExpireRequests(s, now))| <= |InflightIds(NextBatch(s, bridge, capacity, now).state)|
  {
    var c := Redelivery(s, bridge, capacity, now);
    RedeliveryWorks(s, bridge, capacity, now);
    DrainWorks(c, bridge, capacity, |InflightIds(ExpireRequests(s, now))|, now);
  }

  lemma NoneExpire(s: State)
    requires AllLater(s)
    ensures ExpireRequests(s, 0) == s
  {
    assert DueIds(s, s.requests.Keys, 0) == {};
  }

  /** What is taken from the two garbled answers. */
  lemma TakenOverflows(s: State, rs: seq<Response>, taken: State)
    requires Core(s) && BothLive(s) && BothBad(rs) && taken == Submit(TouchBridge(s, 0), "b", Unsent(rs, []), 0).state
    ensures Core(taken) && taken.bridge == "b" && 2 <= |InflightIds(taken)| && AllLater(taken)
  {
    BothStillLive(s);
    TwoInFlight(TouchBridge(s, 0), rs);
    TakenWorks(s, "b", Unsent(rs, []), 0);
    Smaller({"x", "y"}, InflightIds(taken));
  }

  lemma ServedOverflows(s: State, rs: seq<Response>)
    requires Core(s) && BothLive(s) && BothBad(rs)
    ensures 2 <= |InflightIds(Served(s, "b", 1, Unsent(rs, []), 0).state)|
  {
    var taken := Submit(TouchBridge(s, 0), "b", Unsent(rs, []), 0).state;
    TakenOverflows(s, rs, taken);
    NoneExpire(taken);
    BatchKeepsInflight(taken, "b", 1, 0);
  }

  lemma ConcludeInflight(b: Batch, items: seq<Item>, followup: bool, now: int)
    ensures InflightIds(Conclude(b, items, followup, now).0) == InflightIds(b.state)
  {}

  lemma TurnOverflows(s: State, rs: seq<Response>, turned: State)
    requires Inv(s) && BothLive(s) && BothBad(rs) && turned == Turn(s, "b", 1, Unsent(rs, []), 0).0
    ensures 2 <= |InflightIds(turned)|
  {
    var sub := Unsent(rs, []);
    var taken := Submit(TouchBridge(s, 0), "b", sub, 0);
    NothingDue(s, 0);
    TurnUnfolds(s, "b", 1, sub, 0);
    ServedOverflows(s, rs);
    ConcludeInflight(Served(s, "b", 1, sub, 0), taken.items, taken.followup, 0);
  }

  lemma TwoAsked() returns (es: seq<Event>, sys: System)
    ensures Reached(es, sys) && sys.clock == 0 && Underway(sys.broker, 0) && sys.exchanges == map[]
    ensures Live(sys.broker, "x", "b") && Live(sys.broker, "y", "b")
  {
    var first;
    es, first := OneAsked();
    sys := Asks(first, "y", 0);
    es := GoOn(es, first, Ask(0, "y", HELLO));
  }

  lemma TwoAnswered(rs: seq<Response>) returns (es: seq<Event>, sys: System)
    ensures Reached(es, sys) && sys.clock == 0 && Inv(sys.broker) && Underway(sys.broker, 0)
    ensures Live(sys.broker, "x", "b") && Live(sys.broker, "y", "b")
    ensures sys.exchanges == map[0 := Looping("b", 1, Unsent(rs, []))]
  {
    var asked;
    es, asked := TwoAsked();
    sys := Enters(asked, rs);
    es := GoOn(es, asked, Enter(0, 0, 0, rs, []));
    Reachable(Small(), es);
  }

  /** Two garbled answers to requests never delivered put both in flight, with a limit of one. */
  lemma MoreInFlightThanTheLimit() returns (es: seq<Event>)
    ensures Legal(Start(Small()), es)
    ensures Settle(Small()).maxInflight == 1 && |InflightIds(Run(Start(Small()), es).broker)| >= 2
  {
    var rs := [Bad("x"), Bad("y")];
    var sys;
    es, sys := TwoAnswered(rs);
    PassOverflows(sys, rs);
    es := GoOn(es, sys, Pass(0, 0));
  }

  lemma PassOverflows(sys: System, rs: seq<Response>)
    requires Inv(sys.broker) && BothLive(sys.broker) && BothBad(rs)
    requires sys.exchanges == map[0 := Looping("b", 1, Unsent(rs, []))] && sys.clock == 0
    ensures Enabled(sys, Pass(0, 0)) && 2 <= |InflightIds(Step(sys, Pass(0, 0)).broker)|
  {
    var turned := Turn(sys.broker, "b", 1, Unsent(rs, []), 0).0;
    TurnOverflows(sys.broker, rs, turned);
    PassTurns(sys, rs, turned);
  }

  lemma PassTurns(sys: System, rs: seq<Response>, turned: State)
    requires sys.exchanges == map[0 := Looping("b", 1, Unsent(rs, []))] && sys.clock <= 0
    requires turned == Turn(sys.broker, "b", 1, Unsent(rs, []), 0).0
    ensures Enabled(sys, Pass(0, 0)) && Step(sys, Pass(0, 0)).broker == turned && Step(sys, Pass(0, 0)).waiters == sys.waiters
  {}

  // ---------- An accepted answer that nobody gets ----------

  function Good(): Response { Response("x", Some(map["content" := String("ok")]), "") }

  const OKAY := Completion("ok", [], "stop")

  lemma GoodIsReadable()
    ensures ResponseId(Good()) == "x" && Read(Good()) == Readable(OKAY) && Fit(Good(), HELLO) == Ok(OKAY)
  {
    assert Text.Trimmed("ok") && Text.Trimmed("x") && Text.Trimmed("");
  }

  lemma GoodCompletes(s: State)
    requires Underway(s, 0) && Live(s, "x", "b") && s.requests["x"].conversation == HELLO
    ensures "x" in AcceptAll(s, "b", [Good()], 0).state.ledger.accepted
  {
    var rs := [Good()];
    assert rs[..0] == [];
    GoodIsReadable();
    var j := Judge(Good());
    assert Accept(s, "b", j, 0) == AcceptLive(s, "b", j, OKAY, 0);
    CompleteSets(s, "x", "b", OKAY, OKAY, 0);
  }

  lemma ServedAccepts(s: State)
    requires Core(s) && Underway(s, 0) && Live(s, "x", "b") && s.requests["x"].conversation == HELLO
    ensures "x" in Served(s, "b", 1, Unsent([Good()], []), 0).state.ledger.accepted
  {
    var touched := TouchBridge(s, 0);
    var taken := Submit(touched, "b", Unsent([Good()], []), 0).state;
    assert taken == AcceptAll(touched, "b", [Good()], 0).state;
    GoodCompletes(touched);
    TakenWorks(s, "b", Unsent([Good()], []), 0);
    NextBatchWorks(taken, "b", 1, 0);
    assert LedgerGrows(taken.ledger, Served(s, "b", 1, Unsent([Good()], []), 0).state.ledger);
  }

  lemma ConcludeLedger(b: Batch, items: seq<Item>, followup: bool, now: int)
    ensures Conclude(b, items, followup, now).0.ledger == b.state.ledger
  {}

  lemma TurnAccepts(s: State)
    requires Inv(s) && Underway(s, 0) && Live(s, "x", "b") && s.requests["x"].conversation == HELLO
    ensures var t := Turn(s, "b", 1, Unsent([Good()], []), 0).0; "x" in t.ledger.accepted && "x" in t.requests
  {
    var sub := Unsent([Good()], []);
    var taken := Submit(TouchBridge(s, 0), "b", sub, 0);
    NothingDue(s, 0);
    TurnUnfolds(s, "b", 1, sub, 0);
    ServedAccepts(s);
    ConcludeLedger(Served(s, "b", 1, sub, 0), taken.items, taken.followup, 0);
    TurnKept(s, "b", 1, sub, 0);
  }

  lemma FirstAsked(s: State)
    requires Opened(s) && Payload(HELLO).Ok?
    ensures var t := Admitted(s, "x", HELLO, Payload(HELLO).value.0, Payload(HELLO).value.1, 0);
            && Live(t, "x", "b") && t.requests["x"].conversation == HELLO
            && |ActiveIds(t)| == 1 && "y" !in t.ledger.serial && "y" !in t.requests
  {
    assert ActiveIds(s) == {};
    AdmittedSets(s, "x", HELLO, Payload(HELLO).value.0, Payload(HELLO).value.1, 0);
  }

  lemma OneAsked() returns (es: seq<Event>, sys: System)
    ensures Reached(es, sys) && sys.clock == 0 && Underway(sys.broker, 0) && sys.exchanges == map[]
    ensures Live(sys.broker, "x", "b") && sys.broker.requests["x"].conversation == HELLO
    ensures "x" in sys.waiters && sys.waiters["x"] == Waiting
    ensures |ActiveIds(sys.broker)| == 1 && "y" !in sys.broker.ledger.serial && "y" !in sys.broker.requests
  {
    var first := FirstStep();
    assert ActiveIds(first.broker) == {};
    sys := Asks(first, "x", 0);
    FirstAsked(first.broker);
    es := GoOn([OPENING], first, Ask(0, "x", HELLO));
  }

  lemma AnswerEntered() returns (es: seq<Event>, sys: System)
    ensures Reached(es, sys) && sys.clock == 0 && Inv(sys.broker) && Underway(sys.broker, 0)
    ensures Live(sys.broker, "x", "b") && sys.broker.requests["x"].conversation == HELLO
    ensures sys.exchanges == map[0 := Looping("b", 1, Unsent([Good()], []))]
    ensures "x" in sys.waiters && sys.waiters["x"] == Waiting
  {
    var asked;
    es, asked := OneAsked();
    sys := Enters(asked, [Good()]);
    es := GoOn(es, asked, Enter(0, 0, 0, [Good()], []));
    Reachable(Small(), es);
  }

  lemma OneAnswered() returns (es: seq<Event>, sys: System)
    ensures Reached(es, sys) && "x" in sys.broker.ledger.accepted && "x" in sys.broker.requests
    ensures "x" in sys.waiters && sys.waiters["x"] == Waiting
  {
    var entered;
    es, entered := AnswerEntered();
    sys := PassAccepts(entered);
    es := GoOn(es, entered, Pass(0, 0));
  }

  lemma PassAccepts(sys: System) returns (after: System)
    requires Inv(sys.broker) && Underway(sys.broker, 0) && Live(sys.broker, "x", "b") && sys.clock == 0
    requires sys.broker.requests["x"].conversation == HELLO
    requires sys.exchanges == map[0 := Looping("b", 1, Unsent([Good()], []))]
    ensures Enabled(sys, Pass(0, 0)) && after == Step(sys, Pass(0, 0))
    ensures "x" in after.broker.ledger.accepted && "x" in after.broker.requests && after.waiters == sys.waiters
  {
    TurnAccepts(sys.broker);
    PassTurns(sys, [Good()], Turn(sys.broker, "b", 1, Unsent([Good()], []), 0).0);
    after := Step(sys, Pass(0, 0));
  }

  /** A waiter whose timer fires reads the deadline, finds it passed, and gives up. */
  lemma GivesUp(es: seq<Event>, sys: System, id: string) returns (longer: seq<Event>, after: System)
    requires Reached(es, sys) && id in sys.waiters && sys.waiters[id] == Waiting && id in sys.broker.requests
    ensures Reached(longer, after) && after.broker == sys.broker && id in after.waiters && after.waiters[id] == GivingUp
  {
    var deadline := sys.broker.requests[id].deadline;
    var peeked := Step(sys, Peek(id));
    longer := GoOn(es, sys, Peek(id));
    var late := if sys.clock < deadline then deadline else sys.clock;
    after := Step(peeked, Check(late, id));
    longer := GoOn(longer, peeked, Check(late, id));
  }

  /** An answer is accepted in time, yet its waiter gives up on it, and nobody is ever given it. */
  lemma AcceptedButLost() returns (es: seq<Event>)
    ensures Legal(Start(Small()), es)
    ensures "x" in Run(Start(Small()), es).broker.ledger.accepted
    ensures forall more | Legal(Run(Start(Small()), es), more) ::
              "x" !in Run(Run(Start(Small()), es), more).broker.ledger.returned
  {
    var answered, waiting;
    es, answered := OneAnswered();
    es, waiting := GivesUp(es, answered, "x");
    AnswerFate(Small(), es, Quit("x"), "x");
    var more := GoOn(es, waiting, Quit("x"));
    Reachable(Small(), es);
    StepOk(waiting, Quit("x"));
    Reachable(Small(), more);
    es := more;
    NeverReturned(Step(waiting, Quit("x")), "x");
  }

  lemma NeverReturned(sys: System, id: string)
    requires SystemOk(sys) && id in sys.broker.ledger.accepted && id !in sys.broker.requests && id !in sys.broker.ledger.returned
    ensures forall more | Legal(sys, more) :: id !in Run(sys, more).broker.ledger.returned
  {
    Books(sys.broker);
    forall more | Legal(sys, more) ensures id !in Run(sys, more).broker.ledger.returned {
      LostForGood(sys, more, id);
    }
  }
}
