/** What exactly a batch holds: as much as there is room for, oldest first, and each request marked as it was handed out. */
module BrokerHandouts {
  import opened Wrappers
  import opened Json
  import opened Canonical
  import opened BrokerState
  import opened BrokerInvariant
  import opened BrokerBatch
  import Text

  // ---------- Handing out ----------

  /** The entry counts this delivery, and says how the request stood before and why it is handed out again. */
  ghost predicate Handed(before: Request, e: Entry, after: Request, deadline: int) {
    && e.delivery == before.delivery + 1 && after.delivery == e.delivery && e.bytes == before.payloadBytes
    && after.phase == Running && after.deadline == deadline
    && after.conversation == before.conversation && after.payloadBytes == before.payloadBytes
    && (before.delivery == 0 ==>
          && e.previous == (if before.phase == Queued then Some(Queued) else before.previous)
          && e.resumeReason == before.resumeReason)
    && (before.delivery > 0 ==>
          && e.previous == Some(if before.phase == Queued then Claimed else before.phase)
          && e.resumeReason == if before.resumeReason == "" then "redelivery" else before.resumeReason)
  }

  /** From b to c exactly the given requests were handed out, in this order, and no other request was touched. */
  ghost predicate HandsFacts(b: Batch, c: Batch, ids: seq<string>, deadline: int) {
    && |c.entries| == |b.entries| + |ids| && b.entries <= c.entries
    && c.state.requests.Keys == b.state.requests.Keys
    && (forall k | 0 <= k < |ids| ::
          && ids[k] in b.state.requests && c.entries[|b.entries| + k].id == ids[k]
          && Handed(b.state.requests[ids[k]], c.entries[|b.entries| + k], c.state.requests[ids[k]], deadline))
    && (forall id | id in b.state.requests && id !in ids :: c.state.requests[id] == b.state.requests[id])
  }

  ghost const Hands: (Batch, Batch, seq<string>, int) -> bool :=
    (b: Batch, c: Batch, ids: seq<string>, deadline: int) => HandsFacts(b, c, ids, deadline)

  lemma HandsNone(b: Batch, deadline: int)
    ensures Hands(b, b, [], deadline)
  {}

  lemma AppendHands(b: Batch, id: string, now: int, deadline: int)
    requires deadline == now + b.state.cfg.requestTimeout && id in b.state.requests && b.state.requests[id].phase != Queued
    ensures Hands(b, Append(b, id, now), [id], deadline)
    ensures Append(b, id, now).state.queue == b.state.queue && Append(b, id, now).state.cfg == b.state.cfg
  {
    assert HandsFacts(b, Append(b, id, now), [id], deadline);
  }

  lemma TakeHands(b: Batch, now: int, deadline: int)
    requires deadline == now + b.state.cfg.requestTimeout
    requires b.state.queue != [] && b.state.queue[0] in b.state.requests && b.state.requests[b.state.queue[0]].phase == Queued
    ensures Hands(b, TakeOne(b, now), [b.state.queue[0]], deadline)
    ensures TakeOne(b, now).state == Take(b.state, b.state.bridge, now)
  {
    TakeShape(b.state, b.state.bridge, now);
    assert HandsFacts(b, TakeOne(b, now), [b.state.queue[0]], deadline);
  }

  /** First some requests were handed out, then others. */
  lemma HandsJoin(b: Batch, c: Batch, d: Batch, ids: seq<string>, more: seq<string>, deadline: int)
    requires Hands(b, c, ids, deadline) && Hands(c, d, more, deadline) && forall id | id in ids :: id !in more
    ensures Hands(b, d, ids + more, deadline)
  {
    FactsJoin(b, c, d, ids, more, deadline);
  }

  lemma FactsJoin(b: Batch, c: Batch, d: Batch, ids: seq<string>, more: seq<string>, deadline: int)
    requires HandsFacts(b, c, ids, deadline) && HandsFacts(c, d, more, deadline) && forall id | id in ids :: id !in more
    ensures HandsFacts(b, d, ids + more, deadline)
  {
    var all := ids + more;
    forall k | 0 <= k < |all|
      ensures && all[k] in b.state.requests && d.entries[|b.entries| + k].id == all[k]
              && Handed(b.state.requests[all[k]], d.entries[|b.entries| + k], d.state.requests[all[k]], deadline)
    {
      if k < |ids| {
        assert all[k] == ids[k] && ids[k] in ids;
        assert d.entries[|b.entries| + k] == c.entries[|b.entries| + k];
        assert d.state.requests[ids[k]] == c.state.requests[ids[k]];
      } else {
        var j := k - |ids|;
        assert all[k] == more[j] && more[j] in more;
        assert more[j] !in ids;
        assert c.state.requests[more[j]] == b.state.requests[more[j]];
        assert d.entries[|b.entries| + k] == d.entries[|c.entries| + j];
      }
    }
    forall id | id in b.state.requests && id !in all ensures d.state.requests[id] == b.state.requests[id] {
      assert id !in ids && id !in more;
    }
  }

  ghost predicate NoRoom(b: Batch, requests: map<string, Request>, id: string, limit: int) {
    id in requests && b.bytes + requests[id].payloadBytes > limit
  }

  /** Why the id at n is not handed out: there is none, a limit in numbers is reached, or it does not fit. */
  ghost predicate StopsAt(b: Batch, requests: map<string, Request>, ids: seq<string>, n: nat, limit: int, reached: bool) {
    n <= |ids| && (n == |ids| || reached || NoRoom(b, requests, ids[n], limit))
  }

  lemma CutCons(id: string, after: seq<string>, n: nat)
    requires n <= |after|
    ensures ([id] + after)[..n + 1] == [id] + after[..n] && ([id] + after)[n + 1..] == after[n..]
    ensures n < |after| ==> ([id] + after)[n + 1] == after[n] && after[n] in after
  {}

  /** Handing out one request changes no other's need for room. */
  lemma RoomSame(b: Batch, c: Batch, d: Batch, id: string, other: string, deadline: int, limit: int)
    requires HandsFacts(b, c, [id], deadline) && id != other
    ensures NoRoom(d, c.state.requests, other, limit) == NoRoom(d, b.state.requests, other, limit)
  {
    if other in b.state.requests { assert other !in [id]; }
  }

  lemma StopsCons(b: Batch, c: Batch, d: Batch, id: string, after: seq<string>, n: nat, deadline: int, limit: int, reached: bool)
    requires Hands(b, c, [id], deadline) && id !in after
    requires StopsAt(d, c.state.requests, after, n, limit, reached)
    ensures StopsAt(d, b.state.requests, [id] + after, n + 1, limit, reached)
  {
    CutCons(id, after, n);
    if n < |after| { RoomSame(b, c, d, id, after[n], deadline, limit); }
  }

  lemma HandsCons(b: Batch, c: Batch, d: Batch, id: string, after: seq<string>, n: nat, deadline: int)
    requires n <= |after| && id !in after && Hands(b, c, [id], deadline) && Hands(c, d, after[..n], deadline)
    ensures Hands(b, d, ([id] + after)[..n + 1], deadline)
  {
    CutCons(id, after, n);
    HandsJoin(b, c, d, [id], after[..n], deadline);
  }

  // ---------- Redelivery ----------

  /** How many of the outstanding requests are delivered again. */
  ghost function Again(b: Batch, ids: seq<string>, capacity: int, now: int): (m: nat)
    requires forall id | id in ids :: id in b.state.requests
    ensures m <= |ids|
    decreases |ids|
  {
    if ids == [] || !Fits(b, ids[0], capacity) then 0 else 1 + Again(Append(b, ids[0], now), ids[1..], capacity, now)
  }

  ghost const RedeliveredTo: (Batch, Batch, seq<string>, nat, int, int) -> bool :=
    (b: Batch, c: Batch, ids: seq<string>, m: nat, capacity: int, deadline: int) =>
      && m <= |ids| && Hands(b, c, ids[..m], deadline)
      && c.state.queue == b.state.queue && c.state.cfg == b.state.cfg
      && StopsAt(c, b.state.requests, ids, m, b.state.cfg.maxBatchBytes, |c.entries| == capacity)

  lemma RedeliverCons(b: Batch, c: Batch, d: Batch, id: string, after: seq<string>, m: nat, capacity: int, deadline: int)
    requires id !in after && c.state.queue == b.state.queue && c.state.cfg == b.state.cfg
    requires Hands(b, c, [id], deadline) && RedeliveredTo(c, d, after, m, capacity, deadline)
    ensures RedeliveredTo(b, d, [id] + after, m + 1, capacity, deadline)
  {
    HandsCons(b, c, d, id, after, m, deadline);
    StopsCons(b, c, d, id, after, m, deadline, b.state.cfg.maxBatchBytes, |d.entries| == capacity);
  }

  ghost predicate AllInflight(s: State, ids: seq<string>) {
    forall id | id in ids :: id in s.requests && Inflight(s.requests[id].phase)
  }

  lemma StillInflight(b: Batch, ids: seq<string>, now: int)
    requires ids != [] && AllInflight(b.state, ids)
    ensures AllInflight(Append(b, ids[0], now).state, ids[1..])
  {
    forall id | id in ids[1..]
      ensures id in Append(b, ids[0], now).state.requests && Inflight(Append(b, ids[0], now).state.requests[id].phase)
    {
      assert id in ids;
    }
  }

  lemma NoneRedelivered(b: Batch, ids: seq<string>, m: nat, capacity: int, deadline: int)
    requires m == 0 && (ids == [] || (ids[0] in b.state.requests && !Fits(b, ids[0], capacity)))
    requires |b.entries| <= capacity
    ensures RedeliveredTo(b, b, ids, m, capacity, deadline)
  {
    HandsNone(b, deadline);
    assert ids[..m] == [];
    assert m <= |ids| && Hands(b, b, ids[..m], deadline);
    assert StopsAt(b, b.state.requests, ids, m, b.state.cfg.maxBatchBytes, |b.entries| == capacity);
  }

  lemma {:induction false} RedeliverHands(b: Batch, ids: seq<string>, capacity: int, now: int, deadline: int)
    requires Text.Distinct(ids) && AllInflight(b.state, ids) && |b.entries| <= capacity
    requires deadline == now + b.state.cfg.requestTimeout
    ensures RedeliveredTo(b, Redeliver(b, ids, capacity, now), ids, Again(b, ids, capacity, now), capacity, deadline)
    ensures |Redeliver(b, ids, capacity, now).entries| <= capacity
    decreases |ids|
  {
    if ids == [] || !Fits(b, ids[0], capacity) {
      NoneRedelivered(b, ids, Again(b, ids, capacity, now), capacity, deadline);
    } else {
      var c := Append(b, ids[0], now);
      AppendHands(b, ids[0], now, deadline);
      StillInflight(b, ids, now);
      RedeliverHands(c, ids[1..], capacity, now, deadline);
      RedeliverUnfolds(b, ids, capacity, now);
      RedeliverMore(b, c, Redeliver(c, ids[1..], capacity, now), Redeliver(b, ids, capacity, now), ids,
                    Again(c, ids[1..], capacity, now), Again(b, ids, capacity, now), capacity, deadline);
    }
  }

  lemma RedeliverUnfolds(b: Batch, ids: seq<string>, capacity: int, now: int)
    requires AllInflight(b.state, ids) && ids != [] && Fits(b, ids[0], capacity)
    ensures Redeliver(b, ids, capacity, now) == Redeliver(Append(b, ids[0], now), ids[1..], capacity, now)
    ensures Again(b, ids, capacity, now) == 1 + Again(Append(b, ids[0], now), ids[1..], capacity, now)
  {}

  lemma RedeliverMore(b: Batch, c: Batch, d: Batch, whole: Batch, ids: seq<string>, m: nat, all: nat, capacity: int, deadline: int)
    requires ids != [] && Text.Distinct(ids) && c.state.queue == b.state.queue && c.state.cfg == b.state.cfg
    requires Hands(b, c, [ids[0]], deadline) && RedeliveredTo(c, d, ids[1..], m, capacity, deadline) && whole == d && all == m + 1
    ensures RedeliveredTo(b, whole, ids, all, capacity, deadline)
  {
    assert ids == [ids[0]] + ids[1..];
    RedeliverCons(b, c, d, ids[0], ids[1..], m, capacity, deadline);
  }

  // ---------- The queue ----------

  /** The requests that wait, in the order of the queue; it may still name others that were marked meanwhile. */
  ghost function Waiting(queue: seq<string>, requests: map<string, Request>): (r: seq<string>)
    ensures forall id | id in r :: id in queue && id in requests && requests[id].phase == Queued
    decreases |queue|
  {
    if queue == [] then []
    else if queue[0] in requests && requests[queue[0]].phase == Queued then [queue[0]] + Waiting(queue[1..], requests)
    else Waiting(queue[1..], requests)
  }

  lemma {:induction false} WaitingSame(queue: seq<string>, requests: map<string, Request>, others: map<string, Request>)
    requires requests.Keys == others.Keys
    requires forall id | id in queue && id in requests :: (requests[id].phase == Queued <==> others[id].phase == Queued)
    ensures Waiting(queue, requests) == Waiting(queue, others)
    decreases |queue|
  {
    if queue != [] { WaitingSame(queue[1..], requests, others); }
  }

  /** How many requests are taken from the queue. */
  ghost function Taken(b: Batch, capacity: int, inflight: int, now: int): nat
    decreases |b.state.queue|
  {
    if |b.entries| >= capacity || inflight >= b.state.cfg.maxInflight || b.state.queue == [] then 0 else
      var id := b.state.queue[0];
      if id !in b.state.requests || b.state.requests[id].phase != Queued then
        Taken(b.(state := PopQueue(b.state)), capacity, inflight, now)
      else if b.bytes + b.state.requests[id].payloadBytes > b.state.cfg.maxBatchBytes then 0
      else 1 + Taken(TakeOne(b, now), capacity, inflight + 1, now)
  }

  /** Of the waiting requests the first n were handed out, and the others are left for want of room. */
  ghost predicate Drains(b: Batch, c: Batch, waiting: seq<string>, left: seq<string>, n: nat, capacity: int, inflight: int, deadline: int) {
    && n <= |waiting| && Hands(b, c, waiting[..n], deadline) && left == waiting[n..]
    && StopsAt(c, b.state.requests, waiting, n, b.state.cfg.maxBatchBytes,
               |c.entries| >= capacity || inflight + n >= b.state.cfg.maxInflight)
  }

  ghost const DrainedTo: (Batch, Batch, nat, int, int, int) -> bool :=
    (b: Batch, c: Batch, n: nat, capacity: int, inflight: int, deadline: int) =>
      Drains(b, c, Waiting(b.state.queue, b.state.requests), Waiting(c.state.queue, c.state.requests), n, capacity, inflight, deadline)

  lemma ListedOnce(claims: seq<string>, queue: seq<string>, serial: map<string, nat>)
    requires queue != [] && InAdmissionOrder(claims + queue, serial)
    ensures queue[0] !in queue[1..]
  {
    var all := claims + queue;
    forall j | 1 <= j < |queue| ensures queue[j] != queue[0] {
      assert all[|claims|] == queue[0] && all[|claims| + j] == queue[j];
    }
  }

  lemma HeadOnce(s: State)
    requires Core(s) && s.queue != []
    ensures s.queue[0] !in s.queue[1..]
  {
    ListedOnce(s.ledger.claims, s.queue, s.ledger.serial);
  }

  lemma HandsSame(b: Batch, c: Batch, d: Batch, ids: seq<string>, deadline: int)
    requires Hands(c, d, ids, deadline) && c.entries == b.entries && c.state.requests == b.state.requests
    ensures Hands(b, d, ids, deadline)
  {
    FactsSame(b, c, d, ids, deadline);
  }

  lemma FactsSame(b: Batch, c: Batch, d: Batch, ids: seq<string>, deadline: int)
    requires HandsFacts(c, d, ids, deadline) && c.entries == b.entries && c.state.requests == b.state.requests
    ensures HandsFacts(b, d, ids, deadline)
  {}

  lemma DrainsSame(b: Batch, c: Batch, d: Batch, waiting: seq<string>, left: seq<string>, n: nat, capacity: int, inflight: int, deadline: int)
    requires Drains(c, d, waiting, left, n, capacity, inflight, deadline)
    requires c.entries == b.entries && c.state.requests == b.state.requests && c.state.cfg == b.state.cfg
    ensures Drains(b, d, waiting, left, n, capacity, inflight, deadline)
  {
    HandsSame(b, c, d, waiting[..n], deadline);
  }

  lemma DrainPop(b: Batch, d: Batch, n: nat, capacity: int, inflight: int, deadline: int)
    requires b.state.queue != []
    requires b.state.queue[0] in b.state.requests ==> b.state.requests[b.state.queue[0]].phase != Queued
    requires DrainedTo(b.(state := PopQueue(b.state)), d, n, capacity, inflight, deadline)
    ensures DrainedTo(b, d, n, capacity, inflight, deadline)
  {
    var c := b.(state := PopQueue(b.state));
    var waiting, left := Waiting(b.state.queue, b.state.requests), Waiting(d.state.queue, d.state.requests);
    assert waiting == Waiting(c.state.queue, c.state.requests);
    DrainsSame(b, c, d, waiting, left, n, capacity, inflight, deadline);
  }

  lemma DrainStops(b: Batch, capacity: int, inflight: int, deadline: int)
    requires || |b.entries| >= capacity || inflight >= b.state.cfg.maxInflight || b.state.queue == []
             || (NoRoom(b, b.state.requests, b.state.queue[0], b.state.cfg.maxBatchBytes)
                 && b.state.requests[b.state.queue[0]].phase == Queued)
    ensures DrainedTo(b, b, 0, capacity, inflight, deadline)
  {
    HandsNone(b, deadline);
    var waiting := Waiting(b.state.queue, b.state.requests);
    assert waiting[..0] == [] && waiting[0..] == waiting;
  }

  lemma DrainsCons(b: Batch, c: Batch, d: Batch, id: string, after: seq<string>, left: seq<string>, n: nat, capacity: int,
                   inflight: int, deadline: int)
    requires Hands(b, c, [id], deadline) && c.state.cfg == b.state.cfg && id !in after
    requires Drains(c, d, after, left, n, capacity, inflight + 1, deadline)
    ensures Drains(b, d, [id] + after, left, n + 1, capacity, inflight, deadline)
  {
    CutCons(id, after, n);
    HandsCons(b, c, d, id, after, n, deadline);
    StopsCons(b, c, d, id, after, n, deadline, b.state.cfg.maxBatchBytes,
              |d.entries| >= capacity || inflight + 1 + n >= b.state.cfg.maxInflight);
  }

  lemma DrainCons(b: Batch, d: Batch, n: nat, capacity: int, inflight: int, now: int, deadline: int)
    requires b.state.queue != [] && b.state.queue[0] in b.state.requests && b.state.requests[b.state.queue[0]].phase == Queued
    requires b.state.queue[0] !in b.state.queue[1..] && deadline == now + b.state.cfg.requestTimeout
    requires DrainedTo(TakeOne(b, now), d, n, capacity, inflight + 1, deadline)
    ensures DrainedTo(b, d, n + 1, capacity, inflight, deadline)
  {
    TakeHands(b, now, deadline);
    TakeWaiting(b.state, now);
    DrainConsFrom(b, TakeOne(b, now), d, b.state.queue[0], Waiting(b.state.queue[1..], b.state.requests), n, capacity, inflight, deadline);
  }

  lemma DrainConsFrom(b: Batch, c: Batch, d: Batch, id: string, after: seq<string>, n: nat, capacity: int, inflight: int, deadline: int)
    requires Hands(b, c, [id], deadline) && c.state.cfg == b.state.cfg && id !in after
    requires Waiting(b.state.queue, b.state.requests) == [id] + after && Waiting(c.state.queue, c.state.requests) == after
    requires DrainedTo(c, d, n, capacity, inflight + 1, deadline)
    ensures DrainedTo(b, d, n + 1, capacity, inflight, deadline)
  {
    DrainsCons(b, c, d, id, after, Waiting(d.state.queue, d.state.requests), n, capacity, inflight, deadline);
  }

  lemma TakeWaiting(s: State, now: int)
    requires s.queue != [] && s.queue[0] in s.requests && s.requests[s.queue[0]].phase == Queued && s.queue[0] !in s.queue[1..]
    ensures var t := Take(s, s.bridge, now);
            && Waiting(t.queue, t.requests) == Waiting(s.queue[1..], s.requests) && t.queue == s.queue[1..] && t.cfg == s.cfg
            && s.queue[0] !in Waiting(s.queue[1..], s.requests)
            && Waiting(s.queue, s.requests) == [s.queue[0]] + Waiting(s.queue[1..], s.requests)
  {
    TakeShape(s, s.bridge, now);
    WaitingSame(s.queue[1..], Take(s, s.bridge, now).requests, s.requests);
  }

  lemma {:induction false} DrainHands(b: Batch, capacity: int, inflight: int, now: int, deadline: int)
    requires Core(b.state) && NoneDue(b.state, now) && deadline == now + b.state.cfg.requestTimeout
    ensures DrainedTo(b, Drain(b, b.state.bridge, capacity, inflight, now), Taken(b, capacity, inflight, now), capacity, inflight, deadline)
    decreases |b.state.queue|, 1
  {
    if |b.entries| >= capacity || inflight >= b.state.cfg.maxInflight || b.state.queue == [] {
      DrainStops(b, capacity, inflight, deadline);
    } else {
      var id := b.state.queue[0];
      if id !in b.state.requests || b.state.requests[id].phase != Queued {
        DrainHandsPop(b, capacity, inflight, now, deadline);
      } else if b.bytes + b.state.requests[id].payloadBytes > b.state.cfg.maxBatchBytes {
        DrainHandsStop(b, capacity, inflight, now, deadline);
      } else {
        DrainHandsTake(b, capacity, inflight, now, deadline);
      }
    }
  }

  lemma DrainHandsStop(b: Batch, capacity: int, inflight: int, now: int, deadline: int)
    requires Core(b.state) && NoneDue(b.state, now) && b.state.queue != []
    requires |b.entries| < capacity && inflight < b.state.cfg.maxInflight
    requires b.state.queue[0] in b.state.requests && b.state.requests[b.state.queue[0]].phase == Queued
    requires b.bytes + b.state.requests[b.state.queue[0]].payloadBytes > b.state.cfg.maxBatchBytes
    ensures DrainedTo(b, Drain(b, b.state.bridge, capacity, inflight, now), Taken(b, capacity, inflight, now), capacity, inflight, deadline)
  {
    if Discardable(b.state, b.state.queue[0], b.state.bridge) { DiscardsNoQueued(b.state, b.state.queue[0]); }
    DrainUnfolds(b, b.state.bridge, capacity, inflight, now);
    DrainStops(b, capacity, inflight, deadline);
  }

  lemma {:induction false} DrainHandsPop(b: Batch, capacity: int, inflight: int, now: int, deadline: int)
    requires Core(b.state) && NoneDue(b.state, now) && b.state.queue != [] && deadline == now + b.state.cfg.requestTimeout
    requires |b.entries| < capacity && inflight < b.state.cfg.maxInflight
    requires b.state.queue[0] !in b.state.requests || b.state.requests[b.state.queue[0]].phase != Queued
    ensures DrainedTo(b, Drain(b, b.state.bridge, capacity, inflight, now), Taken(b, capacity, inflight, now), capacity, inflight, deadline)
    decreases |b.state.queue|, 0
  {
    var c := b.(state := PopQueue(b.state));
    PopKeeps(b.state);
    DrainUnfolds(b, b.state.bridge, capacity, inflight, now);
    DrainHands(c, capacity, inflight, now, deadline);
    DrainPop(b, Drain(b, b.state.bridge, capacity, inflight, now), Taken(b, capacity, inflight, now), capacity, inflight, deadline);
  }

  lemma {:induction false} DrainHandsTake(b: Batch, capacity: int, inflight: int, now: int, deadline: int)
    requires Core(b.state) && NoneDue(b.state, now) && b.state.queue != [] && deadline == now + b.state.cfg.requestTimeout
    requires |b.entries| < capacity && inflight < b.state.cfg.maxInflight
    requires b.state.queue[0] in b.state.requests && b.state.requests[b.state.queue[0]].phase == Queued
    requires b.bytes + b.state.requests[b.state.queue[0]].payloadBytes <= b.state.cfg.maxBatchBytes
    ensures DrainedTo(b, Drain(b, b.state.bridge, capacity, inflight, now), Taken(b, capacity, inflight, now), capacity, inflight, deadline)
    decreases |b.state.queue|, 0
  {
    var c := TakeOne(b, now);
    TakeUnfolds(b, capacity, inflight, now);
    TakenUnfolds(b, capacity, inflight, now);
    AfterTake(b, now);
    DrainHands(c, capacity, inflight + 1, now, deadline);
    HeadOnce(b.state);
    DrainTakes(b, Drain(c, c.state.bridge, capacity, inflight + 1, now), Drain(b, b.state.bridge, capacity, inflight, now),
               Taken(c, capacity, inflight + 1, now), Taken(b, capacity, inflight, now), capacity, inflight, now, deadline);
  }

  lemma DrainTakes(b: Batch, d: Batch, whole: Batch, n: nat, all: nat, capacity: int, inflight: int, now: int, deadline: int)
    requires b.state.queue != [] && b.state.queue[0] in b.state.requests && b.state.requests[b.state.queue[0]].phase == Queued
    requires b.state.queue[0] !in b.state.queue[1..] && deadline == now + b.state.cfg.requestTimeout
    requires DrainedTo(TakeOne(b, now), d, n, capacity, inflight + 1, deadline) && whole == d && all == n + 1
    ensures DrainedTo(b, whole, all, capacity, inflight, deadline)
  {
    DrainCons(b, d, n, capacity, inflight, now, deadline);
  }

  lemma TakenUnfolds(b: Batch, capacity: int, inflight: int, now: int)
    requires b.state.queue != [] && |b.entries| < capacity && inflight < b.state.cfg.maxInflight
    requires b.state.queue[0] in b.state.requests && b.state.requests[b.state.queue[0]].phase == Queued
    requires b.bytes + b.state.requests[b.state.queue[0]].payloadBytes <= b.state.cfg.maxBatchBytes
    ensures Taken(b, capacity, inflight, now) == 1 + Taken(TakeOne(b, now), capacity, inflight + 1, now)
  {}

  lemma TakeUnfolds(b: Batch, capacity: int, inflight: int, now: int)
    requires Core(b.state) && NoneDue(b.state, now) && b.state.queue != [] && |b.entries| < capacity
    requires inflight < b.state.cfg.maxInflight
    requires b.state.queue[0] in b.state.requests && b.state.requests[b.state.queue[0]].phase == Queued
    requires b.bytes + b.state.requests[b.state.queue[0]].payloadBytes <= b.state.cfg.maxBatchBytes
    ensures Drain(b, b.state.bridge, capacity, inflight, now) == Drain(TakeOne(b, now), b.state.bridge, capacity, inflight + 1, now)
  {
    if Discardable(b.state, b.state.queue[0], b.state.bridge) { DiscardsNoQueued(b.state, b.state.queue[0]); }
    DrainUnfolds(b, b.state.bridge, capacity, inflight, now);
  }

  lemma AfterTake(b: Batch, now: int)
    requires Core(b.state) && NoneDue(b.state, now) && b.state.queue != []
    requires b.state.queue[0] in b.state.requests && b.state.requests[b.state.queue[0]].phase == Queued
    ensures var c := TakeOne(b, now).state;
            && Core(c) && NoneDue(c, now) && c.bridge == b.state.bridge && c.cfg == b.state.cfg
            && |c.queue| < |b.state.queue|
  {
    assert TakeOne(b, now).state == Take(b.state, b.state.bridge, now);
    if Discardable(b.state, b.state.queue[0], b.state.bridge) { DiscardsNoQueued(b.state, b.state.queue[0]); }
    TakeWorks(b.state, now);
    TakeSets(b.state, now);
  }

  // ---------- The whole batch ----------

  /** By time of admission, and by id where that is the same. */
  ghost predicate OldestFirst(ids: seq<string>, requests: map<string, Request>) {
    && (forall id | id in ids :: id in requests)
    && forall i, j | 0 <= i < j < |ids| ::
         || requests[ids[i]].created < requests[ids[j]].created
         || (requests[ids[i]].created == requests[ids[j]].created && Text.Below(ids[i], ids[j]))
  }

  /** All the requests in flight, each once, oldest first. */
  ghost const AllOldestFirst: (State, seq<string>) -> bool :=
    (e: State, ids: seq<string>) =>
      Text.Distinct(ids) && OldestFirst(ids, e.requests) && forall id :: id in ids <==> id in InflightIds(e)

  lemma OutstandingOrder(e: State)
    requires Core(e)
    ensures OldestFirst(Outstanding(e), e.requests)
  {
    OutstandingIds(e);
    var ids := Outstanding(e);
    forall i, j | 0 <= i < j < |ids|
      ensures || e.requests[ids[i]].created < e.requests[ids[j]].created
              || (e.requests[ids[i]].created == e.requests[ids[j]].created && Text.Below(ids[i], ids[j]))
    {
      assert ids[i] in ids && ids[j] in ids;
      assert Text.Before(CreationOrder(e.requests), ids[i], ids[j]);
    }
  }

  lemma OutstandingAll(e: State)
    requires Core(e)
    ensures forall id :: id in Outstanding(e) <==> id in InflightIds(e)
  {
    InflightOnBridge(e);
  }

  lemma OutstandingSorted(e: State)
    requires Core(e)
    ensures Text.Distinct(Outstanding(e)) && AllInflight(e, Outstanding(e)) && AllOldestFirst(e, Outstanding(e))
  {
    OutstandingIds(e);
    OutstandingOrder(e);
    OutstandingAll(e);
  }

  /** Redelivering leaves the waiting requests as they are. */
  lemma WaitingStays(b: Batch, c: Batch, ids: seq<string>, deadline: int)
    requires Hands(b, c, ids, deadline) && AllInflight(b.state, ids) && c.state.queue == b.state.queue
    ensures Waiting(c.state.queue, c.state.requests) == Waiting(b.state.queue, b.state.requests)
    ensures forall id | id in Waiting(b.state.queue, b.state.requests) :: id !in ids
  {
    forall id | id in b.state.requests ensures b.state.requests[id].phase == Queued <==> c.state.requests[id].phase == Queued {
      if id in ids {
        var k :| 0 <= k < |ids| && ids[k] == id;
        assert Handed(b.state.requests[ids[k]], c.entries[|b.entries| + k], c.state.requests[ids[k]], deadline);
      }
    }
    WaitingSame(b.state.queue, c.state.requests, b.state.requests);
  }

  /** Why no more of the outstanding requests were delivered again, and why no more were taken from the queue. */
  ghost predicate Full(e: State, entries: seq<Entry>, again: seq<string>, waiting: seq<string>, m: nat, n: nat, capacity: int) {
    && m <= |again| && n <= |waiting| && m <= |entries|
    && (m == |again| || m == capacity
        || (again[m] in e.requests && Total(entries[..m]) + e.requests[again[m]].payloadBytes > e.cfg.maxBatchBytes))
    && (n == |waiting| || |entries| == capacity || |again| + n >= e.cfg.maxInflight
        || (waiting[n] in e.requests && Total(entries) + e.requests[waiting[n]].payloadBytes > e.cfg.maxBatchBytes))
  }

  ghost const Batched: (State, Batch, seq<string>, nat, nat, int, int) -> bool :=
    (e: State, b: Batch, again: seq<string>, m: nat, n: nat, capacity: int, now: int) =>
      var waiting := Waiting(e.queue, e.requests);
      && Full(e, b.entries, again, waiting, m, n, capacity)
      && Hands(Batch(e, [], 0), b, again[..m] + waiting[..n], now + e.cfg.requestTimeout)
      && Waiting(b.state.queue, b.state.requests) == waiting[n..]

  lemma PrefixOf<T>(a: seq<T>, b: seq<T>)
    requires a <= b
    ensures b[..|a|] == a
  {}

  lemma FullFrom(e: State, c: Batch, d: Batch, again: seq<string>, waiting: seq<string>, m: nat, n: nat, capacity: int)
    requires m <= |again| && n <= |waiting| && |c.entries| == m && |d.entries| == m + n
    requires d.entries[..m] == c.entries
    requires StopsAt(c, e.requests, again, m, e.cfg.maxBatchBytes, |c.entries| == capacity)
    requires StopsAt(d, e.requests, waiting, n, e.cfg.maxBatchBytes, |d.entries| >= capacity || |again| + n >= e.cfg.maxInflight)
    requires |d.entries| <= capacity && c.bytes == Total(c.entries) && d.bytes == Total(d.entries)
    ensures Full(e, d.entries, again, waiting, m, n, capacity)
  {}

  /** Redelivering changes no waiting request's need for room. */
  lemma WaitingRoom(b: Batch, c: Batch, d: Batch, ids: seq<string>, waiting: seq<string>, n: nat, deadline: int, limit: int, reached: bool)
    requires Hands(b, c, ids, deadline) && forall id | id in waiting :: id in b.state.requests && id !in ids
    requires StopsAt(d, c.state.requests, waiting, n, limit, reached)
    ensures StopsAt(d, b.state.requests, waiting, n, limit, reached)
  {
    if n < |waiting| {
      assert waiting[n] in waiting;
      assert c.state.requests[waiting[n]] == b.state.requests[waiting[n]];
    }
  }

  lemma BothHanded(b: Batch, c: Batch, d: Batch, ids: seq<string>, waiting: seq<string>, n: nat, deadline: int)
    requires n <= |waiting| && Hands(b, c, ids, deadline) && Hands(c, d, waiting[..n], deadline)
    requires forall id | id in waiting :: id !in ids
    ensures Hands(b, d, ids + waiting[..n], deadline)
    ensures |c.entries| == |b.entries| + |ids| && |d.entries| == |c.entries| + n && c.entries <= d.entries
  {
    forall id | id in ids ensures id !in waiting[..n] {}
    HandsJoin(b, c, d, ids, waiting[..n], deadline);
  }

  lemma FrontInflight(s: State, ids: seq<string>, m: nat)
    requires AllInflight(s, ids) && m <= |ids|
    ensures AllInflight(s, ids[..m]) && |ids[..m]| == m
  {
    forall id | id in ids[..m] ensures id in ids {}
  }

  lemma BatchedHands(b: Batch, c: Batch, d: Batch, ids: seq<string>, waiting: seq<string>, n: nat, deadline: int)
    requires Hands(b, c, ids, deadline) && AllInflight(b.state, ids) && c.state.queue == b.state.queue
    requires waiting == Waiting(c.state.queue, c.state.requests) && n <= |waiting| && Hands(c, d, waiting[..n], deadline)
    ensures Hands(b, d, ids + waiting[..n], deadline) && waiting == Waiting(b.state.queue, b.state.requests)
    ensures |c.entries| == |b.entries| + |ids| && |d.entries| == |c.entries| + n && c.entries <= d.entries
  {
    WaitingStays(b, c, ids, deadline);
    BothHanded(b, c, d, ids, waiting, n, deadline);
  }

  lemma BatchedRoom(b: Batch, c: Batch, d: Batch, ids: seq<string>, waiting: seq<string>, n: nat, deadline: int, reached: bool)
    requires Hands(b, c, ids, deadline) && AllInflight(b.state, ids) && c.state.queue == b.state.queue
    requires waiting == Waiting(c.state.queue, c.state.requests)
    requires StopsAt(d, c.state.requests, waiting, n, b.state.cfg.maxBatchBytes, reached)
    ensures StopsAt(d, b.state.requests, waiting, n, b.state.cfg.maxBatchBytes, reached)
  {
    WaitingStays(b, c, ids, deadline);
    WaitingRoom(b, c, d, ids, waiting, n, deadline, b.state.cfg.maxBatchBytes, reached);
  }

  lemma BatchedFrom(b: Batch, c: Batch, d: Batch, again: seq<string>, m: nat, waiting: seq<string>, n: nat, capacity: int, deadline: int)
    requires b.entries == [] && m <= |again| && AllInflight(b.state, again) && c.state.queue == b.state.queue
    requires Hands(b, c, again[..m], deadline)
    requires StopsAt(c, b.state.requests, again, m, b.state.cfg.maxBatchBytes, |c.entries| == capacity)
    requires waiting == Waiting(c.state.queue, c.state.requests) && n <= |waiting|
    requires Hands(c, d, waiting[..n], deadline)
    requires StopsAt(d, c.state.requests, waiting, n, b.state.cfg.maxBatchBytes,
                     |d.entries| >= capacity || |again| + n >= b.state.cfg.maxInflight)
    requires |d.entries| <= capacity && c.bytes == Total(c.entries) && d.bytes == Total(d.entries)
    ensures Full(b.state, d.entries, again, waiting, m, n, capacity)
    ensures Hands(b, d, again[..m] + waiting[..n], deadline) && waiting == Waiting(b.state.queue, b.state.requests)
  {
    FrontInflight(b.state, again, m);
    BatchedHands(b, c, d, again[..m], waiting, n, deadline);
    BatchedRoom(b, c, d, again[..m], waiting, n, deadline, |d.entries| >= capacity || |again| + n >= b.state.cfg.maxInflight);
    PrefixOf(c.entries, d.entries);
    FullFrom(b.state, c, d, again, waiting, m, n, capacity);
  }

  lemma BatchSizes(s: State, bridge: string, capacity: int, now: int)
    requires Core(s) && bridge == s.bridge && 1 <= capacity
    ensures var c, d := Redelivery(s, bridge, capacity, now), NextBatch(s, bridge, capacity, now);
            && c.bytes == Total(c.entries) && d.bytes == Total(d.entries) && |d.entries| <= capacity
            && Core(c.state) && NoneDue(c.state, now) && c.state.bridge == bridge && c.state.cfg == ExpireRequests(s, now).cfg
            && Core(ExpireRequests(s, now)) && ExpireRequests(s, now).bridge == bridge
  {
    ExpireRequestsWorks(s, now);
    RedeliveryWorks(s, bridge, capacity, now);
    NextBatchWorks(s, bridge, capacity, now);
  }

  lemma BatchUnfolds(s: State, bridge: string, capacity: int, now: int)
    requires Core(ExpireRequests(s, now)) && ExpireRequests(s, now).bridge == bridge
    ensures var e, c := ExpireRequests(s, now), Redelivery(s, bridge, capacity, now);
            && c == Redeliver(Batch(e, [], 0), Outstanding(e), capacity, now)
            && NextBatch(s, bridge, capacity, now) == Drain(c, bridge, capacity, |Outstanding(e)|, now)
  {}

  /**
   * What a batch holds, exactly: first the requests in flight, oldest first, then those that wait, in the order of
   * the queue; of each as many as capacity, the limit in flight and the size of a batch allow, and not one fewer.
   * Each is running, with a new deadline and one more delivery; nothing else is changed by handing them out.
   */
  lemma BatchHolds(s: State, bridge: string, capacity: int, now: int)
    requires Core(s) && bridge == s.bridge && 1 <= capacity
    ensures var e := ExpireRequests(s, now);
            exists again, m, n ::
              && AllOldestFirst(e, again) && Batched(e, NextBatch(s, bridge, capacity, now), again, m, n, capacity, now)
  {
    var e, c := ExpireRequests(s, now), Redelivery(s, bridge, capacity, now);
    var again, d := Outstanding(e), NextBatch(s, bridge, capacity, now);
    BatchSizes(s, bridge, capacity, now);
    BatchUnfolds(s, bridge, capacity, now);
    BatchParts(e, c, d, bridge, again, capacity, now);
    OutstandingSorted(e);
    assert Batched(e, d, again, Again(Batch(e, [], 0), again, capacity, now), Taken(c, capacity, |again|, now), capacity, now);
  }

  lemma BatchParts(e: State, c: Batch, d: Batch, bridge: string, again: seq<string>, capacity: int, now: int)
    requires Core(e) && again == Outstanding(e) && 1 <= capacity
    requires c == Redeliver(Batch(e, [], 0), again, capacity, now) && Core(c.state) && NoneDue(c.state, now) && c.state.bridge == bridge && c.state.cfg == e.cfg
    requires d == Drain(c, bridge, capacity, |again|, now)
    requires c.bytes == Total(c.entries) && d.bytes == Total(d.entries) && |d.entries| <= capacity
    ensures Batched(e, d, again, Again(Batch(e, [], 0), again, capacity, now), Taken(c, capacity, |again|, now), capacity, now)
  {
    var b, deadline := Batch(e, [], 0), now + e.cfg.requestTimeout;
    OutstandingSorted(e);
    RedeliverHands(b, again, capacity, now, deadline);
    DrainHands(c, capacity, |again|, now, deadline);
    BatchedAll(e, b, c, d, again, Again(b, again, capacity, now), Taken(c, capacity, |again|, now), capacity, now, deadline);
  }

  lemma BatchedAll(e: State, b: Batch, c: Batch, d: Batch, again: seq<string>, m: nat, n: nat, capacity: int, now: int,
                   deadline: int)
    requires deadline == now + e.cfg.requestTimeout && b == Batch(e, [], 0) && AllInflight(e, again)
    requires RedeliveredTo(b, c, again, m, capacity, deadline) && DrainedTo(c, d, n, capacity, |again|, deadline)
    requires |d.entries| <= capacity && c.bytes == Total(c.entries) && d.bytes == Total(d.entries)
    ensures Batched(e, d, again, m, n, capacity, now)
  {
    var waiting := Waiting(c.state.queue, c.state.requests);
    BatchedParts(b, c, d, again, m, waiting, n, capacity, deadline);
    BatchedIs(e, b, d, again, waiting, m, n, capacity, now, deadline);
  }

  lemma RedeliveredParts(b: Batch, c: Batch, ids: seq<string>, m: nat, capacity: int, deadline: int)
    requires RedeliveredTo(b, c, ids, m, capacity, deadline)
    ensures m <= |ids| && Hands(b, c, ids[..m], deadline) && c.state.queue == b.state.queue && c.state.cfg == b.state.cfg
    ensures StopsAt(c, b.state.requests, ids, m, b.state.cfg.maxBatchBytes, |c.entries| == capacity)
  {}

  lemma DrainedParts(b: Batch, c: Batch, cfg: Config, waiting: seq<string>, n: nat, capacity: int, inflight: int, deadline: int)
    requires cfg == b.state.cfg && DrainedTo(b, c, n, capacity, inflight, deadline) && waiting == Waiting(b.state.queue, b.state.requests)
    ensures n <= |waiting| && Hands(b, c, waiting[..n], deadline) && Waiting(c.state.queue, c.state.requests) == waiting[n..]
    ensures StopsAt(c, b.state.requests, waiting, n, cfg.maxBatchBytes, |c.entries| >= capacity || inflight + n >= cfg.maxInflight)
  {}

  lemma BatchedParts(b: Batch, c: Batch, d: Batch, again: seq<string>, m: nat, waiting: seq<string>, n: nat, capacity: int, deadline: int)
    requires b.entries == [] && AllInflight(b.state, again) && RedeliveredTo(b, c, again, m, capacity, deadline)
    requires waiting == Waiting(c.state.queue, c.state.requests) && DrainedTo(c, d, n, capacity, |again|, deadline)
    requires |d.entries| <= capacity && c.bytes == Total(c.entries) && d.bytes == Total(d.entries)
    ensures m <= |again| && n <= |waiting| && Full(b.state, d.entries, again, waiting, m, n, capacity)
    ensures Hands(b, d, again[..m] + waiting[..n], deadline) && waiting == Waiting(b.state.queue, b.state.requests)
    ensures Waiting(d.state.queue, d.state.requests) == waiting[n..]
  {
    RedeliveredParts(b, c, again, m, capacity, deadline);
    DrainedParts(c, d, b.state.cfg, waiting, n, capacity, |again|, deadline);
    BatchedFrom(b, c, d, again, m, waiting, n, capacity, deadline);
  }

  lemma BatchedIs(e: State, b: Batch, d: Batch, again: seq<string>, waiting: seq<string>, m: nat, n: nat, capacity: int, now: int,
                  deadline: int)
    requires b == Batch(e, [], 0) && deadline == now + e.cfg.requestTimeout
    requires waiting == Waiting(e.queue, e.requests) && Full(e, d.entries, again, waiting, m, n, capacity)
    requires Hands(b, d, again[..m] + waiting[..n], deadline) && Waiting(d.state.queue, d.state.requests) == waiting[n..]
    ensures Batched(e, d, again, m, n, capacity, now)
  {}
}
