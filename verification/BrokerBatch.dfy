/** Building a batch: what is delivered, in what order and within what bounds, and when nothing is. */
module BrokerBatch {
  import opened Wrappers
  import opened Json
  import opened Canonical
  import opened BrokerState
  import opened BrokerInvariant
  import Text

  // ---------- Steps taken under an open bridge ----------

  /** No request is admitted or forgotten and no answer handed out. */
  ghost const Kept: (State, State) -> bool :=
    (s: State, t: State) => t.requests.Keys == s.requests.Keys && t.ledger.returned == s.ledger.returned

  /** A step that keeps the books, the bridge, the requests and the broker's being open, and admits nothing. */
  ghost const Works: (State, State) -> bool :=
    (s: State, t: State) =>
      Core(t) && Follows(s, t) && t.bridge == s.bridge && t.closed == s.closed && ActiveIds(t) <= ActiveIds(s) && Kept(s, t)

  lemma FinishKept(s: State, id: string, phase: Phase, code: string, answer: Completion)
    requires id in s.requests
    ensures Kept(s, Finish(s, id, phase, code, answer))
  {}

  lemma DeliverKept(s: State, id: string, now: int)
    requires id in s.requests
    ensures Kept(s, Deliver(s, id, now))
  {}

  lemma WorksSelf(s: State)
    requires Core(s)
    ensures Works(s, s)
  {
    FollowsSelf(s);
  }

  lemma WorksTransitive(s: State, t: State, u: State)
    requires Works(s, t) && Works(t, u)
    ensures Works(s, u)
  {
    FollowsTransitive(s, t, u);
  }

  ghost const NoneDue: (State, int) -> bool :=
    (s: State, now: int) => forall id | id in s.requests && Active(s.requests[id].phase) :: now < s.requests[id].deadline

  // ---------- Batches ----------

  function Total(entries: seq<Entry>): nat
    decreases |entries|
  {
    if entries == [] then 0 else Total(entries[..|entries| - 1]) + entries[|entries| - 1].bytes
  }

  ghost predicate DistinctIds(entries: seq<Entry>) {
    forall i, j | 0 <= i < j < |entries| :: entries[i].id != entries[j].id
  }

  /** Within capacity and size, naming each request once, and every one of them running. */
  ghost predicate Good(b: Batch, capacity: int) {
    && |b.entries| <= capacity
    && b.bytes == Total(b.entries) && b.bytes <= b.state.cfg.maxBatchBytes
    && DistinctIds(b.entries)
    && (forall e | e in b.entries :: e.id in b.state.requests && b.state.requests[e.id].phase == Running)
  }

  ghost const GoodBatch: (Batch, int) -> bool := (b: Batch, capacity: int) => Good(b, capacity)

  ghost predicate Fresh(b: Batch, id: string) {
    forall e | e in b.entries :: e.id != id
  }

  /** Adding one more running request to a batch. */
  lemma GrowBatch(b: Batch, c: Batch, e: Entry, capacity: int)
    requires GoodBatch(b, capacity) && |b.entries| < capacity && Fresh(b, e.id)
    requires c.entries == b.entries + [e] && c.bytes == b.bytes + e.bytes && c.bytes <= c.state.cfg.maxBatchBytes
    requires e.id in c.state.requests && c.state.requests[e.id].phase == Running
    requires forall other | other in b.entries :: other.id in c.state.requests && c.state.requests[other.id].phase == Running
    ensures GoodBatch(c, capacity)
  {
  }

  lemma StillRunning(s: State, id: string, now: int, entries: seq<Entry>)
    requires id in s.requests && forall e | e in entries :: e.id in s.requests && s.requests[e.id].phase == Running
    ensures var t := Deliver(s, id, now);
            id in t.requests && t.requests[id].phase == Running
    ensures forall e | e in entries :: e.id in Deliver(s, id, now).requests && Deliver(s, id, now).requests[e.id].phase == Running
  {}

  /** Redelivery only marks requests that are in flight already. */
  ghost const Redelivered: (Batch, Batch) -> bool :=
    (b: Batch, c: Batch) =>
      && c.state.queue == b.state.queue && ActiveIds(c.state) == ActiveIds(b.state)
      && InflightIds(c.state) == InflightIds(b.state) && b.entries <= c.entries

  lemma AppendWorks(b: Batch, id: string, capacity: int, now: int)
    requires Core(b.state) && GoodBatch(b, capacity) && id in InflightIds(b.state) && Fresh(b, id) && |b.entries| < capacity
    requires b.bytes + b.state.requests[id].payloadBytes <= b.state.cfg.maxBatchBytes
    ensures Works(b.state, Append(b, id, now).state) && GoodBatch(Append(b, id, now), capacity)
    ensures Redelivered(b, Append(b, id, now))
  {
    DeliverKeeps(b.state, id, now);
    DeliverKept(b.state, id, now);
    StillRunning(b.state, id, now, b.entries);
    GrowBatch(b, Append(b, id, now), EntryFor(id, b.state.requests[id]), capacity);
  }

  ghost predicate Ready(b: Batch, ids: seq<string>) {
    && Text.Distinct(ids)
    && (forall id | id in ids :: id in b.state.requests && Inflight(b.state.requests[id].phase))
    && (forall id | id in ids :: Fresh(b, id))
  }

  lemma ReadyTail(b: Batch, ids: seq<string>, now: int)
    requires ids != [] && Ready(b, ids)
    ensures Ready(Append(b, ids[0], now), ids[1..])
  {
    var c := Append(b, ids[0], now);
    forall id | id in ids[1..] ensures Fresh(c, id) {
      assert Fresh(b, id);
      assert c.entries == b.entries + [EntryFor(ids[0], b.state.requests[ids[0]])];
    }
  }

  lemma {:induction false} RedeliverWorks(b: Batch, ids: seq<string>, capacity: int, now: int)
    requires Core(b.state) && GoodBatch(b, capacity) && Ready(b, ids)
    ensures Works(b.state, Redeliver(b, ids, capacity, now).state) && GoodBatch(Redeliver(b, ids, capacity, now), capacity)
    ensures Redelivered(b, Redeliver(b, ids, capacity, now))
    ensures ids != [] && Fits(b, ids[0], capacity) ==> |b.entries| < |Redeliver(b, ids, capacity, now).entries|
    decreases |ids|
  {
    if ids == [] || !Fits(b, ids[0], capacity) {
      WorksSelf(b.state);
    } else {
      var c := Append(b, ids[0], now);
      assert ids[0] in InflightIds(b.state);
      AppendWorks(b, ids[0], capacity, now);
      ReadyTail(b, ids, now);
      RedeliverWorks(c, ids[1..], capacity, now);
      var d := Redeliver(c, ids[1..], capacity, now);
      assert Redeliver(b, ids, capacity, now) == d;
      WorksTransitive(b.state, c.state, d.state);
    }
  }

  // ---------- Draining the queue ----------

  lemma TakeUndue(s: State, bridge: string, now: int)
    requires NoneDue(s, now) && s.queue != [] && s.queue[0] in s.requests && s.requests[s.queue[0]].phase == Queued
    requires s.cfg.requestTimeout >= 1
    ensures NoneDue(Take(s, bridge, now), now)
  {
    TakeShape(s, bridge, now);
  }

  function TakeOne(b: Batch, now: int): Batch
    requires b.state.queue != [] && b.state.queue[0] in b.state.requests
  {
    Append(b.(state := Claim(PopQueue(b.state), b.state.queue[0], b.state.bridge)), b.state.queue[0], now)
  }

  lemma TakeEntries(b: Batch, capacity: int, now: int)
    requires b.state.queue != [] && b.state.queue[0] in b.state.requests && b.state.requests[b.state.queue[0]].phase == Queued
    requires GoodBatch(b, capacity) && |b.entries| < capacity
    requires b.bytes + b.state.requests[b.state.queue[0]].payloadBytes <= b.state.cfg.maxBatchBytes
    ensures GoodBatch(TakeOne(b, now), capacity) && b.entries <= TakeOne(b, now).entries
    ensures |TakeOne(b, now).entries| == |b.entries| + 1 && TakeOne(b, now).state == Take(b.state, b.state.bridge, now)
  {
    var c := TakeOne(b, now);
    TakeShape(b.state, b.state.bridge, now);
    GrowBatch(b, c, c.entries[|b.entries|], capacity);
  }

  lemma TakeKept(s: State, now: int)
    requires s.queue != [] && s.queue[0] in s.requests && s.requests[s.queue[0]].phase == Queued
    ensures Kept(s, Take(s, s.bridge, now)) && Take(s, s.bridge, now).bridge == s.bridge && Take(s, s.bridge, now).closed == s.closed
  {
    TakeShape(s, s.bridge, now);
  }

  lemma TakeWorks(s: State, now: int)
    requires Core(s) && NoneDue(s, now) && s.queue != [] && !Discardable(s, s.queue[0], s.bridge)
    ensures Works(s, Take(s, s.bridge, now)) && NoneDue(Take(s, s.bridge, now), now)
  {
    TakeShape(s, s.bridge, now);
    TakeKept(s, now);
    TakeKeeps(s, now);
    PayloadFits(s, s.queue[0]);
    TakeUndue(s, s.bridge, now);
  }

  /** What draining gives: nothing is lost or timed out, and it only stops early for want of room. */
  ghost const Drained: (Batch, Batch, int, int) -> bool :=
    (b: Batch, c: Batch, capacity: int, inflight: int) =>
      && ActiveIds(c.state) == ActiveIds(b.state) && b.entries <= c.entries
      && |InflightIds(c.state)| - |InflightIds(b.state)| == |c.entries| - |b.entries|
      && (inflight <= b.state.cfg.maxInflight ==> inflight + |c.entries| - |b.entries| <= b.state.cfg.maxInflight)
      && (c.entries == [] && inflight < b.state.cfg.maxInflight && 1 <= capacity ==> c.state.queue == [])

  lemma TakeSets(s: State, now: int)
    requires s.queue != [] && s.queue[0] in s.requests && s.requests[s.queue[0]].phase == Queued
    ensures var t := Take(s, s.bridge, now);
            && ActiveIds(t) == ActiveIds(s) && InflightIds(t) == InflightIds(s) + {s.queue[0]} && s.queue[0] !in InflightIds(s)
            && |t.queue| < |s.queue| && t.cfg == s.cfg && t.bridge == s.bridge
  {
    TakeShape(s, s.bridge, now);
  }

  lemma DrainUnfolds(b: Batch, bridge: string, capacity: int, inflight: int, now: int)
    requires |b.entries| < capacity && inflight < b.state.cfg.maxInflight && b.state.queue != []
    requires bridge == b.state.bridge && NoneDue(b.state, now)
    ensures Discardable(b.state, b.state.queue[0], bridge) ==>
              Drain(b, bridge, capacity, inflight, now) == Drain(b.(state := PopQueue(b.state)), bridge, capacity, inflight, now)
    ensures !Discardable(b.state, b.state.queue[0], bridge) ==>
              Drain(b, bridge, capacity, inflight, now) ==
                if b.bytes + b.state.requests[b.state.queue[0]].payloadBytes > b.state.cfg.maxBatchBytes then b
                else Drain(TakeOne(b, now), bridge, capacity, inflight + 1, now)
  {}

  lemma DrainedDiscard(b: Batch, c: Batch, d: Batch, capacity: int, inflight: int)
    requires c.entries == b.entries && ActiveIds(c.state) == ActiveIds(b.state) && InflightIds(c.state) == InflightIds(b.state)
    requires c.state.cfg == b.state.cfg && Drained(c, d, capacity, inflight)
    ensures Drained(b, d, capacity, inflight)
  {}

  lemma DrainedTake(b: Batch, c: Batch, d: Batch, id: string, capacity: int, inflight: int)
    requires |c.entries| == |b.entries| + 1 && b.entries <= c.entries && ActiveIds(c.state) == ActiveIds(b.state)
    requires InflightIds(c.state) == InflightIds(b.state) + {id} && id !in InflightIds(b.state)
    requires c.state.cfg == b.state.cfg && inflight < b.state.cfg.maxInflight && Drained(c, d, capacity, inflight + 1)
    ensures Drained(b, d, capacity, inflight)
  {}

  lemma {:induction false} DrainWorks(b: Batch, bridge: string, capacity: int, inflight: int, now: int)
    requires Core(b.state) && GoodBatch(b, capacity) && bridge == b.state.bridge && NoneDue(b.state, now)
    ensures Works(b.state, Drain(b, bridge, capacity, inflight, now).state)
    ensures GoodBatch(Drain(b, bridge, capacity, inflight, now), capacity)
    ensures Drained(b, Drain(b, bridge, capacity, inflight, now), capacity, inflight)
    decreases |b.state.queue|, 1
  {
    if |b.entries| >= capacity || inflight >= b.state.cfg.maxInflight || b.state.queue == [] {
      WorksSelf(b.state);
    } else if Discardable(b.state, b.state.queue[0], bridge) {
      DrainDiscards(b, bridge, capacity, inflight, now);
    } else if b.bytes + b.state.requests[b.state.queue[0]].payloadBytes > b.state.cfg.maxBatchBytes {
      DrainUnfolds(b, bridge, capacity, inflight, now);
      PayloadFits(b.state, b.state.queue[0]);
      WorksSelf(b.state);
      assert b.entries != [];
    } else {
      DrainTakes(b, bridge, capacity, inflight, now);
    }
  }

  lemma {:induction false} DrainDiscards(b: Batch, bridge: string, capacity: int, inflight: int, now: int)
    requires Core(b.state) && GoodBatch(b, capacity) && bridge == b.state.bridge && NoneDue(b.state, now)
    requires |b.entries| < capacity && inflight < b.state.cfg.maxInflight && b.state.queue != []
    requires Discardable(b.state, b.state.queue[0], bridge)
    ensures Works(b.state, Drain(b, bridge, capacity, inflight, now).state)
    ensures GoodBatch(Drain(b, bridge, capacity, inflight, now), capacity)
    ensures Drained(b, Drain(b, bridge, capacity, inflight, now), capacity, inflight)
    decreases |b.state.queue|, 0
  {
    var c := b.(state := PopQueue(b.state));
    PopKeeps(b.state);
    PopSets(b.state);
    DrainWorks(c, bridge, capacity, inflight, now);
    var d := Drain(c, bridge, capacity, inflight, now);
    DrainUnfolds(b, bridge, capacity, inflight, now);
    WorksTransitive(b.state, c.state, d.state);
    DrainedDiscard(b, c, d, capacity, inflight);
  }

  lemma {:induction false} DrainTakes(b: Batch, bridge: string, capacity: int, inflight: int, now: int)
    requires Core(b.state) && GoodBatch(b, capacity) && bridge == b.state.bridge && NoneDue(b.state, now)
    requires |b.entries| < capacity && inflight < b.state.cfg.maxInflight && b.state.queue != []
    requires !Discardable(b.state, b.state.queue[0], bridge)
    requires b.bytes + b.state.requests[b.state.queue[0]].payloadBytes <= b.state.cfg.maxBatchBytes
    ensures Works(b.state, Drain(b, bridge, capacity, inflight, now).state)
    ensures GoodBatch(Drain(b, bridge, capacity, inflight, now), capacity)
    ensures Drained(b, Drain(b, bridge, capacity, inflight, now), capacity, inflight)
    decreases |b.state.queue|, 0
  {
    var c := TakeOne(b, now);
    DrainUnfolds(b, bridge, capacity, inflight, now);
    TakeEntries(b, capacity, now);
    TakeWorks(b.state, now);
    TakeSets(b.state, now);
    DrainWorks(c, bridge, capacity, inflight + 1, now);
    var d := Drain(c, bridge, capacity, inflight + 1, now);
    WorksTransitive(b.state, c.state, d.state);
    DrainedTake(b, c, d, b.state.queue[0], capacity, inflight);
  }

  lemma PayloadFits(s: State, id: string)
    requires Core(s) && id in s.requests
    ensures s.requests[id].payloadBytes <= s.cfg.maxBatchBytes && s.cfg.requestTimeout >= 1
  {
    assert RequestOk(id, s.requests[id], s.bridge, s.cfg.maxBatchBytes, s.queue, s.ledger);
  }

  // ---------- The whole batch ----------

  function Redelivery(s: State, bridge: string, capacity: int, now: int): Batch {
    var e := ExpireRequests(s, now);
    Redeliver(Batch(e, [], 0), Text.Sorted(InflightOn(e, bridge), CreationOrder(e.requests)), capacity, now)
  }

  lemma InflightOnBridge(s: State)
    requires Core(s)
    ensures InflightOn(s, s.bridge) == InflightIds(s)
  {
    ActiveBound(s);
  }

  lemma ExpireRequestsKept(s: State, now: int)
    ensures Kept(s, ExpireRequests(s, now))
  {
  }

  lemma ExpireRequestsWorks(s: State, now: int)
    requires Core(s)
    ensures Works(s, ExpireRequests(s, now)) && NoneDue(ExpireRequests(s, now), now)
  {
    ExpireRequestsKeeps(s, now);
    ExpireRequestsKept(s, now);
    ExpireRequestsSets(s, now);
  }

  /** Renewing deadlines never makes a request due. */
  lemma {:induction false} RedeliverUndue(b: Batch, ids: seq<string>, capacity: int, now: int)
    requires forall id | id in ids :: id in b.state.requests
    requires NoneDue(b.state, now) && b.state.cfg.requestTimeout >= 1
    ensures NoneDue(Redeliver(b, ids, capacity, now).state, now)
    decreases |ids|
  {
    if ids != [] && Fits(b, ids[0], capacity) {
      RedeliverUndue(Append(b, ids[0], now), ids[1..], capacity, now);
    }
  }

  function Outstanding(e: State): seq<string> {
    Text.Sorted(InflightOn(e, e.bridge), CreationOrder(e.requests))
  }

  lemma OutstandingIds(e: State)
    requires Core(e)
    ensures Text.Distinct(Outstanding(e)) && |Outstanding(e)| == |InflightIds(e)|
    ensures forall id | id in Outstanding(e) :: id in e.requests && Inflight(e.requests[id].phase)
  {
    InflightOnBridge(e);
  }

  lemma StartBatch(e: State, capacity: int)
    requires Core(e) && 0 <= capacity
    ensures GoodBatch(Batch(e, [], 0), capacity) && Ready(Batch(e, [], 0), Outstanding(e))
  {
    OutstandingIds(e);
  }

  lemma StartFits(e: State, capacity: int)
    requires Core(e) && 1 <= capacity && InflightIds(e) != {}
    ensures Outstanding(e) != [] && Outstanding(e)[0] in e.requests && Fits(Batch(e, [], 0), Outstanding(e)[0], capacity)
  {
    OutstandingIds(e);
    assert Outstanding(e)[0] in Outstanding(e);
    PayloadFits(e, Outstanding(e)[0]);
  }

  lemma RedeliveryWorks(s: State, bridge: string, capacity: int, now: int)
    requires Core(s) && bridge == s.bridge && 0 <= capacity
    ensures Works(s, Redelivery(s, bridge, capacity, now).state) && NoneDue(Redelivery(s, bridge, capacity, now).state, now)
    ensures GoodBatch(Redelivery(s, bridge, capacity, now), capacity)
    ensures InflightIds(Redelivery(s, bridge, capacity, now).state) == InflightIds(ExpireRequests(s, now))
    ensures |Outstanding(ExpireRequests(s, now))| == |InflightIds(ExpireRequests(s, now))|
    ensures 1 <= capacity && InflightIds(ExpireRequests(s, now)) != {} ==> Redelivery(s, bridge, capacity, now).entries != []
  {
    var e := ExpireRequests(s, now);
    var b, ids := Batch(e, [], 0), Outstanding(e);
    ExpireRequestsWorks(s, now);
    OutstandingIds(e);
    StartBatch(e, capacity);
    if 1 <= capacity && InflightIds(e) != {} { StartFits(e, capacity); }
    PayloadTimeout(s);
    RedeliverWorks(b, ids, capacity, now);
    RedeliverUndue(b, ids, capacity, now);
    assert Redelivery(s, bridge, capacity, now) == Redeliver(b, ids, capacity, now);
    WorksTransitive(s, e, Redelivery(s, bridge, capacity, now).state);
  }

  lemma PayloadTimeout(s: State)
    requires Core(s)
    ensures s.cfg.requestTimeout >= 1 && s.cfg.maxBatchBytes >= 1
  {}

  /**
   * Batch progress: a batch is empty exactly when no active request is left. It is within capacity and
   * size, names distinct requests, and leaves every one of them running. In-flight requests stay within
   * their limit if they were.
   */
  lemma NextBatchWorks(s: State, bridge: string, capacity: int, now: int)
    requires Core(s) && bridge == s.bridge && 1 <= capacity
    ensures Works(s, NextBatch(s, bridge, capacity, now).state) && GoodBatch(NextBatch(s, bridge, capacity, now), capacity)
    ensures NextBatch(s, bridge, capacity, now).entries == [] <==> ActiveIds(NextBatch(s, bridge, capacity, now).state) == {}
    ensures |InflightIds(ExpireRequests(s, now))| <= s.cfg.maxInflight ==>
              |InflightIds(NextBatch(s, bridge, capacity, now).state)| <= s.cfg.maxInflight
  {
    var e := ExpireRequests(s, now);
    var c := Redelivery(s, bridge, capacity, now);
    var inflight := |InflightIds(e)|;
    RedeliveryWorks(s, bridge, capacity, now);
    DrainWorks(c, bridge, capacity, inflight, now);
    var d := Drain(c, bridge, capacity, inflight, now);
    assert NextBatch(s, bridge, capacity, now) == d;
    WorksTransitive(s, c.state, d.state);
    if d.entries == [] {
      assert c.entries == [] && InflightIds(e) == {};
      NothingLeft(d.state);
    } else {
      SomeLeft(d, capacity);
    }
  }

  lemma NothingLeft(s: State)
    requires Core(s) && s.queue == [] && InflightIds(s) == {}
    ensures ActiveIds(s) == {}
  {
  }

  lemma SomeLeft(b: Batch, capacity: int)
    requires GoodBatch(b, capacity) && b.entries != []
    ensures ActiveIds(b.state) != {}
  {
    assert b.entries[0] in b.entries;
    assert b.entries[0].id in ActiveIds(b.state);
  }
}
