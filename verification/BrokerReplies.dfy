/** What an exchange is told: when it is given requests, when its results alone, and when it is kept waiting. */
module BrokerReplies {
  import opened Wrappers
  import opened Json
  import opened Canonical
  import opened BrokerState
  import opened BrokerInvariant
  import opened BrokerBatch
  import opened BrokerSteps
  import opened BrokerRuns
  import opened BrokerReplay
  import Bridge

  // ---------- Which responses expect a follow-up request ----------

  /** The response was taken, now or before, and calls for tools: its client will ask again with what they gave. */
  ghost predicate CallsForTools(item: Item, r: Response) {
    && (item.verdict == CompletedNow || item.verdict == Duplicate)
    && Read(r).Readable? && Read(r).answer.finishReason == "tool_calls"
  }

  ghost predicate Expects(items: seq<Item>, rs: seq<Response>) {
    exists k :: 0 <= k < |rs| && k < |items| && CallsForTools(items[k], rs[k])
  }

  lemma AcceptedCalls(s: State, bridge: string, r: Response, now: int)
    requires AcceptOne(s, bridge, r, now).item.verdict == CompletedNow
    ensures Read(r).Readable?
    ensures AcceptOne(s, bridge, r, now).followup <==> Read(r).answer.finishReason == "tool_calls"
  {
    AcceptanceGuards(s, bridge, Judge(r), now);
    Bridge.DecodeAgrees(r.body.value, s.requests[ResponseId(r)].conversation);
  }

  lemma RepeatedCalls(s: State, bridge: string, j: Judgement, now: int)
    requires Accept(s, bridge, j, now).item.verdict == Duplicate
    ensures j.reading.Readable?
    ensures Accept(s, bridge, j, now).followup <==> j.reading.answer.finishReason == "tool_calls"
  {}

  lemma RejectedCallsNot(s: State, bridge: string, j: Judgement, now: int)
    requires Accept(s, bridge, j, now).item.verdict.Rejected?
    ensures !Accept(s, bridge, j, now).followup
  {}

  lemma TakenCalls(s: State, bridge: string, r: Response, now: int)
    ensures AcceptOne(s, bridge, r, now).followup <==> CallsForTools(AcceptOne(s, bridge, r, now).item, r)
  {
    match AcceptOne(s, bridge, r, now).item.verdict
    case CompletedNow => AcceptedCalls(s, bridge, r, now);
    case Duplicate => RepeatedCalls(s, bridge, Judge(r), now);
    case Rejected(_) => RejectedCallsNot(s, bridge, Judge(r), now);
  }

  lemma {:induction false} FollowupIff(s: State, bridge: string, rs: seq<Response>, now: int)
    ensures |AcceptAll(s, bridge, rs, now).items| == |rs|
    ensures AcceptAll(s, bridge, rs, now).followup <==> Expects(AcceptAll(s, bridge, rs, now).items, rs)
    decreases |rs|
  {
    if rs != [] {
      var n := |rs| - 1;
      var before := AcceptAll(s, bridge, rs[..n], now);
      FollowupIff(s, bridge, rs[..n], now);
      TakenCalls(before.state, bridge, rs[n], now);
      OneMoreExpects(before.items, rs, AcceptOne(before.state, bridge, rs[n], now).item);
    }
  }

  lemma FrontExpects(items: seq<Item>, rs: seq<Response>, item: Item)
    requires rs != [] && |items| == |rs| - 1 && Expects(items, rs[..|rs| - 1])
    ensures Expects(items + [item], rs)
  {
    var front := rs[..|rs| - 1];
    var k :| 0 <= k < |front| && k < |items| && CallsForTools(items[k], front[k]);
    assert CallsForTools((items + [item])[k], rs[k]);
  }

  lemma SomeExpects(items: seq<Item>, rs: seq<Response>, item: Item)
    requires rs != [] && |items| == |rs| - 1 && Expects(items + [item], rs)
    ensures Expects(items, rs[..|rs| - 1]) || CallsForTools(item, rs[|rs| - 1])
  {
    var all, front := items + [item], rs[..|rs| - 1];
    var k :| 0 <= k < |rs| && k < |all| && CallsForTools(all[k], rs[k]);
    if k < |items| { assert CallsForTools(items[k], front[k]); }
  }

  lemma OneMoreExpects(items: seq<Item>, rs: seq<Response>, item: Item)
    requires rs != [] && |items| == |rs| - 1
    ensures Expects(items + [item], rs) <==> Expects(items, rs[..|rs| - 1]) || CallsForTools(item, rs[|rs| - 1])
  {
    var n := |rs| - 1;
    if Expects(items + [item], rs) { SomeExpects(items, rs, item); }
    if Expects(items, rs[..n]) { FrontExpects(items, rs, item); }
    if CallsForTools(item, rs[n]) { assert CallsForTools((items + [item])[n], rs[n]); }
  }

  // ---------- What a pass replies ----------

  /** The counts reported are those of the state left behind. */
  ghost predicate Counted(a: Activity, s: State) {
    && a.pending == |QueuedIds(s)| && a.inflight == |InflightIds(s)| && a.active == a.pending + a.inflight
    && a.revision == s.revision
  }

  ghost predicate RepliesRequests(reply: TurnReply, s: State) {
    reply.Reply? && reply.output.kind == Requests && reply.output.entries != [] && Counted(reply.output.activity, s)
  }

  ghost predicate RepliesResults(reply: TurnReply, s: State) {
    reply.Reply? && reply.output.kind == Responses && reply.output.entries == [] && Counted(reply.output.activity, s)
  }

  lemma ReportCounts(s: State, kind: Kind, items: seq<Item>, entries: seq<Entry>)
    ensures var (t, output) := Report(s, kind, items, entries);
            && output.kind == kind && output.items == items && output.entries == entries
            && t.requests == s.requests && Counted(output.activity, t)
  {
    var t := Report(s, kind, items, entries).0;
    assert QueuedIds(t) == QueuedIds(s) && InflightIds(t) == InflightIds(s);
  }

  lemma WithRequests(b: Batch, items: seq<Item>, followup: bool, now: int)
    requires b.entries != []
    ensures var (t, reply) := Conclude(b, items, followup, now);
            RepliesRequests(reply, t) && ItemsOf(reply) == items && t.requests == b.state.requests
  {
    ReportCounts(TouchBridge(b.state, now), Requests, items, b.entries);
  }

  lemma WithoutRequests(b: Batch, items: seq<Item>, followup: bool, now: int)
    requires b.entries == []
    ensures var (t, reply) := Conclude(b, items, followup, now);
            && ItemsOf(reply) == items && t.requests == b.state.requests
            && (items == [] || followup ==> reply == Park(items, followup))
            && (items != [] && !followup ==> RepliesResults(reply, t))
  {
    ReportCounts(b.state, Responses, items, []);
  }

  /** A pass ends in one of three ways, according to what is left active and what its results are. */
  ghost predicate Answers(t: State, reply: TurnReply, items: seq<Item>, expects: bool) {
    && ItemsOf(reply) == items
    && (ActiveIds(t) != {} <==> RepliesRequests(reply, t))
    && (ActiveIds(t) == {} && (items == [] || expects) <==> reply.Park?)
    && (ActiveIds(t) == {} && items != [] && !expects <==> RepliesResults(reply, t))
    && (reply.Park? ==> reply.followup == expects)
  }

  lemma PassAnswers(s: State, bridge: string, capacity: int, sub: Submission, now: int)
    requires Inv(s) && 1 <= capacity && RequireBridge(Refresh(s, now), bridge).None?
    ensures var taken := Submit(TouchBridge(Refresh(s, now), now), bridge, sub, now);
            Answers(Turn(s, bridge, capacity, sub, now).0, Turn(s, bridge, capacity, sub, now).1, taken.items, taken.followup)
  {
    var e := Refresh(s, now);
    var b, taken := Served(e, bridge, capacity, sub, now), Submit(TouchBridge(e, now), bridge, sub, now);
    RefreshSafe(s, now);
    ServedWorks(e, bridge, capacity, sub, now);
    TurnUnfolds(s, bridge, capacity, sub, now);
    if b.entries != [] {
      WithRequests(b, taken.items, taken.followup, now);
    } else {
      WithoutRequests(b, taken.items, taken.followup, now);
    }
    SameActive(b.state, Turn(s, bridge, capacity, sub, now).0);
  }

  lemma SameActive(s: State, t: State)
    requires t.requests == s.requests
    ensures ActiveIds(t) == ActiveIds(s)
  {}

  /**
   * The reply to a pass that brings responses. While a request is active it is given requests. With none active, it
   * is kept waiting exactly if it brought nothing or some response was taken as a call for tools; otherwise it is
   * given its results at once. There is one result for each response.
   */
  lemma PassReplies(s: State, bridge: string, capacity: int, rs: seq<Response>, ps: seq<Progress>, now: int)
    requires Inv(s) && 1 <= capacity && RequireBridge(Refresh(s, now), bridge).None?
    ensures var (t, reply) := Turn(s, bridge, capacity, Unsent(rs, ps), now);
            && |ItemsOf(reply)| == |rs|
            && (ActiveIds(t) != {} <==> RepliesRequests(reply, t))
            && (ActiveIds(t) == {} && (rs == [] || Expects(ItemsOf(reply), rs)) <==> reply.Park?)
            && (ActiveIds(t) == {} && rs != [] && !Expects(ItemsOf(reply), rs) <==> RepliesResults(reply, t))
  {
    PassAnswers(s, bridge, capacity, Unsent(rs, ps), now);
    FollowupIff(TouchBridge(Refresh(s, now), now), bridge, rs, now);
  }

  // ---------- The later passes of an exchange that waits ----------

  /** No exchange begins under this name. */
  ghost predicate NoneEnters(es: seq<Event>, key: nat) {
    forall e | e in es :: !(e.Enter? && e.key == key)
  }

  /** Where an exchange that brought these responses can be before it is answered. */
  ghost predicate OnItsWay(x: Exchange, rs: seq<Response>) {
    match x
    case Looping(_, _, sub) => sub.Unsent? && sub.responses == rs
    case Parked(_, _, items, followup, _) =>
      |items| == |rs| && (followup <==> Expects(items, rs)) && (rs == [] || Expects(items, rs))
  }

  lemma StaysOnItsWay(sys: System, e: Event, key: nat, rs: seq<Response>)
    requires SystemOk(sys) && Enabled(sys, e) && !(e.Enter? && e.key == key)
    requires key in sys.exchanges && OnItsWay(sys.exchanges[key], rs) && key in Effect(sys, e).exchanges
    ensures OnItsWay(Effect(sys, e).exchanges[key], rs)
    ensures Effect(sys, e).exchanges[key].bridge == sys.exchanges[key].bridge
  {
    if e.Pass? && e.key == key {
      PassOnItsWay(sys, key, e.now, rs);
    } else {
      OthersUnmoved(sys, e, key);
    }
  }

  lemma OthersUnmoved(sys: System, e: Event, key: nat)
    requires Enabled(sys, e) && !(e.Enter? && e.key == key) && !(e.Pass? && e.key == key)
    requires key in sys.exchanges && key in Effect(sys, e).exchanges
    ensures Effect(sys, e).exchanges[key] == sys.exchanges[key]
  {}

  lemma PassOnItsWay(sys: System, key: nat, now: int, rs: seq<Response>)
    requires SystemOk(sys) && key in sys.exchanges && OnItsWay(sys.exchanges[key], rs)
    requires key in AfterPass(sys, key, now).exchanges
    ensures OnItsWay(AfterPass(sys, key, now).exchanges[key], rs)
    ensures AfterPass(sys, key, now).exchanges[key].bridge == sys.exchanges[key].bridge
  {
    var x := sys.exchanges[key];
    assert Awake(sys.broker, x);
    PassAnswers(sys.broker, x.bridge, x.capacity, PendingOf(x), now);
    if x.Looping? { FollowupIff(TouchBridge(Refresh(sys.broker, now), now), x.bridge, rs, now); }
  }

  lemma StepOnItsWay(sys: System, e: Event, key: nat, rs: seq<Response>)
    requires SystemOk(sys) && Enabled(sys, e) && !(e.Enter? && e.key == key)
    requires key in sys.exchanges ==> OnItsWay(sys.exchanges[key], rs)
    ensures key in Step(sys, e).exchanges ==> OnItsWay(Step(sys, e).exchanges[key], rs)
  {
    if key in Effect(sys, e).exchanges {
      NotAnew(sys, e, key);
      StaysOnItsWay(sys, e, key, rs);
    }
  }

  lemma {:induction false} RunOnItsWay(sys: System, es: seq<Event>, key: nat, rs: seq<Response>)
    requires SystemOk(sys) && Legal(sys, es) && NoneEnters(es, key)
    requires key in sys.exchanges ==> OnItsWay(sys.exchanges[key], rs)
    ensures key in Run(sys, es).exchanges ==> OnItsWay(Run(sys, es).exchanges[key], rs)
    decreases |es|
  {
    if es != [] {
      assert es[0] in es;
      StepOk(sys, es[0]);
      StepOnItsWay(sys, es[0], key, rs);
      assert forall e | e in es[1..] :: e in es;
      RunOnItsWay(Step(sys, es[0]), es[1..], key, rs);
    }
  }

  lemma NotAnew(sys: System, e: Event, key: nat)
    requires Enabled(sys, e) && !(e.Enter? && e.key == key) && key in Effect(sys, e).exchanges
    ensures key in sys.exchanges
  {}

  /**
   * The later passes of a waiting exchange, in any run. It waits only if it brought nothing or a call for tools; and
   * from then on it is never answered with its results alone: each pass under its bridge gives it requests exactly
   * if one is active, and otherwise keeps it waiting with the same results.
   */
  lemma WaitsForRequests(sys: System, es: seq<Event>, key: nat, rs: seq<Response>, ps: seq<Progress>, now: int)
    requires SystemOk(sys) && Legal(sys, es) && NoneEnters(es, key)
    requires key in sys.exchanges && sys.exchanges[key].Looping? && sys.exchanges[key].sub == Unsent(rs, ps)
    requires key in Run(sys, es).exchanges && Run(sys, es).exchanges[key].Parked?
    requires RequireBridge(Refresh(Run(sys, es).broker, now), Run(sys, es).exchanges[key].bridge).None?
    ensures var x := Run(sys, es).exchanges[key];
            var (t, reply) := Turn(Run(sys, es).broker, x.bridge, x.capacity, Sent(x.items, x.followup), now);
            && |x.items| == |rs| && (rs == [] || Expects(x.items, rs)) && ItemsOf(reply) == x.items
            && (ActiveIds(t) != {} <==> RepliesRequests(reply, t))
            && (ActiveIds(t) == {} <==> reply.Park?)
  {
    RunOnItsWay(sys, es, key, rs);
    RunOk(sys, es);
    var x := Run(sys, es).exchanges[key];
    assert Awake(Run(sys, es).broker, x);
    PassAnswers(Run(sys, es).broker, x.bridge, x.capacity, Sent(x.items, x.followup), now);
  }
}
