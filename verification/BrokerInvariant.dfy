/** What every critical section of the broker keeps, and what it may only let grow. */
module BrokerInvariant {
  import opened Wrappers
  import opened Json
  import opened Canonical
  import opened BrokerState
  import Text

  // ---------- The invariant ----------

  /** The generation fence, the closing of done channels and the ledger, for one request. */
  ghost predicate RequestOk(id: string, r: Request, bridge: string, limit: int, queue: seq<string>, ledger: Ledger) {
    && r.done == Terminal(r.phase)
    && r.phase != Claimed
    && (Active(r.phase) ==> r.bridge == bridge && id !in ledger.ended)
    && (Terminal(r.phase) ==> id in ledger.ended && ledger.ended[id] == r.phase)
    && (Answered(r.phase) ==> id in ledger.accepted && ledger.accepted[id] == r.result)
    && (r.phase == Queued ==> id in queue)
    && r.payloadBytes <= limit
    && id in ledger.serial && id !in ledger.returned
  }

  ghost predicate RequestsOk(requests: map<string, Request>, bridge: string, limit: int, queue: seq<string>, ledger: Ledger) {
    forall id | id in requests :: RequestOk(id, requests[id], bridge, limit, queue, ledger)
  }

  /** Listed without repetition and in order of admission. */
  ghost predicate InAdmissionOrder(ids: seq<string>, serial: map<string, nat>) {
    && (forall i | 0 <= i < |ids| :: ids[i] in serial)
    && (forall i, j | 0 <= i < j < |ids| :: serial[ids[i]] < serial[ids[j]])
  }

  /** Every admitted request is either active or ended. */
  ghost predicate Partition(active: set<string>, serial: map<string, nat>, ended: map<string, Phase>) {
    serial.Keys == active + ended.Keys && active !! ended.Keys
  }

  /** The done channel of a request is closed once when it ends, and never before or again. */
  ghost predicate ClosedOnce(closes: multiset<string>, ended: map<string, Phase>) {
    forall id :: closes[id] == if id in ended then 1 else 0
  }

  /** The answered requests are those that ended completed or waiting for a tool. */
  ghost predicate AnswersEnded(accepted: set<string>, ended: map<string, Phase>) {
    forall id :: id in accepted <==> id in ended && Answered(ended[id])
  }

  ghost predicate Numbered(serial: map<string, nat>) {
    forall id | id in serial :: serial[id] < |serial|
  }

  ghost predicate AllTerminal(ended: map<string, Phase>) {
    forall id | id in ended :: Terminal(ended[id])
  }

  /** The books: admissions, endings, answers and results handed out agree with each other. */
  ghost predicate Balance(active: set<string>, ledger: Ledger, completed: nat) {
    && Partition(active, ledger.serial, ledger.ended)
    && ClosedOnce(ledger.closes, ledger.ended)
    && AllTerminal(ledger.ended)
    && AnswersEnded(ledger.accepted.Keys, ledger.ended)
    && completed == |ledger.accepted|
    && Extends(ledger.returned, ledger.accepted)
    && Numbered(ledger.serial)
  }

  ghost const Balanced: (set<string>, Ledger, nat) -> bool :=
    (active: set<string>, ledger: Ledger, completed: nat) => Balance(active, ledger, completed)

  ghost const RequestsFine: State -> bool :=
    (s: State) => RequestsOk(s.requests, s.bridge, s.cfg.maxBatchBytes, s.queue, s.ledger)

  ghost predicate CoreFacts(s: State) {
    && Sound(s.cfg)
    && RequestsFine(s)
    && InAdmissionOrder(s.ledger.claims + s.queue, s.ledger.serial)
    && |ActiveIds(s)| <= s.cfg.maxPending
    && Balanced(ActiveIds(s), s.ledger, s.completed)
    && (s.bridge != "" ==> s.lease.Some? && s.bridge in s.ledger.bridges)
  }

  ghost const Core: State -> bool := (s: State) => CoreFacts(s)

  ghost const Inv: State -> bool :=
    (s: State) => Core(s) && (s.closed ==> s.bridge == "" && ActiveIds(s) == {})

  // ---------- Growth ----------

  ghost predicate Extends<K, V>(small: map<K, V>, large: map<K, V>) {
    forall k | k in small :: k in large && large[k] == small[k]
  }

  ghost const LedgerGrows: (Ledger, Ledger) -> bool :=
    (a: Ledger, b: Ledger) =>
      && Extends(a.serial, b.serial) && Extends(a.ended, b.ended)
      && Extends(a.accepted, b.accepted) && Extends(a.returned, b.returned)
      && a.claims <= b.claims && a.bridges <= b.bridges && a.closes <= b.closes

  /** Waiters are told of whatever they wait for: without a signal nothing becomes active or moves. */
  ghost predicate Quiet(s: State, t: State) {
    t.notify == s.notify ==> t.bridge == s.bridge && t.closed == s.closed && ActiveIds(t) <= ActiveIds(s)
  }

  ghost const Follows: (State, State) -> bool :=
    (s: State, t: State) =>
      && t.cfg == s.cfg && s.notify <= t.notify && s.revision <= t.revision && s.completed <= t.completed
      && (s.closed ==> t.closed)
      && Quiet(s, t)
      && LedgerGrows(s.ledger, t.ledger)

  lemma LedgerTransitive(a: Ledger, b: Ledger, c: Ledger)
    requires LedgerGrows(a, b) && LedgerGrows(b, c)
    ensures LedgerGrows(a, c)
  {
  }

  lemma FollowsSelf(s: State)
    ensures Follows(s, s)
  {
    assert LedgerGrows(s.ledger, s.ledger);
    assert Quiet(s, s);
  }

  lemma FollowsTransitive(s: State, t: State, u: State)
    requires Follows(s, t) && Follows(t, u)
    ensures Follows(s, u)
  {
    LedgerTransitive(s.ledger, t.ledger, u.ledger);
    assert Quiet(s, u);
  }

  lemma {:induction false} Smaller<T>(a: set<T>, b: set<T>)
    requires a <= b
    ensures |a| <= |b|
  {
    if a != {} {
      var x :| x in a;
      Smaller(a - {x}, b - {x});
    }
  }

  /** For the requests outside changed, the ledger says what it said. */
  ghost predicate LedgerAgrees(a: Ledger, b: Ledger, changed: set<string>) {
    && Extends(a.serial, b.serial) && Extends(a.accepted, b.accepted)
    && (forall id | id !in changed :: (id in a.ended <==> id in b.ended) && (id in b.returned ==> id in a.returned))
    && Extends(a.ended, b.ended)
  }

  lemma OthersOk(requests: map<string, Request>, after: map<string, Request>, changed: set<string>, bridge: string,
                 limit: int, queue: seq<string>, left: seq<string>, ledger: Ledger, grown: Ledger)
    requires RequestsOk(requests, bridge, limit, queue, ledger) && LedgerAgrees(ledger, grown, changed)
    requires forall id | id in after && id !in changed :: id in requests && after[id] == requests[id]
    requires forall id | id in queue && id !in changed :: id in left
    requires forall id | id in changed && id in after :: RequestOk(id, after[id], bridge, limit, left, grown)
    ensures RequestsOk(after, bridge, limit, left, grown)
  {
    forall id | id in after ensures RequestOk(id, after[id], bridge, limit, left, grown) {
      if id !in changed { assert RequestOk(id, requests[id], bridge, limit, queue, ledger); }
    }
  }

  /** What Balanced and growth look at. */
  lemma BalancedSame(active: set<string>, a: Ledger, b: Ledger, completed: nat)
    requires Balanced(active, a, completed)
    requires b.serial == a.serial && b.closes == a.closes && b.ended == a.ended && b.accepted == a.accepted
    requires b.returned == a.returned && a.claims <= b.claims && a.bridges <= b.bridges
    ensures Balanced(active, b, completed) && LedgerGrows(a, b)
  {}

  /** A step's parts, put together. */
  lemma Assemble(s: State, t: State)
    requires Core(s)
    requires t.cfg == s.cfg && t.closed == s.closed && s.notify <= t.notify && s.revision <= t.revision && s.completed <= t.completed
    requires t.bridge == s.bridge && t.lease == s.lease
    requires ActiveIds(t) <= ActiveIds(s)
    requires RequestsFine(t)
    requires Balanced(ActiveIds(t), t.ledger, t.completed)
    requires LedgerGrows(s.ledger, t.ledger)
    requires InAdmissionOrder(t.ledger.claims + t.queue, t.ledger.serial)
    ensures Core(t) && Follows(s, t)
  {
    Smaller(ActiveIds(t), ActiveIds(s));
  }

  // ---------- Ending requests ----------

  function Ending(ledger: Ledger, ids: set<string>, phase: Phase): Ledger {
    ledger.(closes := ledger.closes + multiset(ids), ended := ledger.ended + map id | id in ids :: phase)
  }

  lemma EndingKeys(ledger: Ledger, ids: set<string>, phase: Phase)
    requires ids !! ledger.ended.Keys
    ensures Ending(ledger, ids, phase).ended.Keys == ledger.ended.Keys + ids
    ensures Extends(ledger.ended, Ending(ledger, ids, phase).ended)
  {}

  lemma EndingGrows(ledger: Ledger, ids: set<string>, phase: Phase)
    requires ids !! ledger.ended.Keys
    ensures LedgerGrows(ledger, Ending(ledger, ids, phase)) && LedgerAgrees(ledger, Ending(ledger, ids, phase), ids)
  {
    EndingKeys(ledger, ids, phase);
  }

  lemma EndingParts(active: set<string>, serial: map<string, nat>, ended: map<string, Phase>, ids: set<string>,
                    after: map<string, Phase>)
    requires Partition(active, serial, ended) && ids <= active && after.Keys == ended.Keys + ids
    ensures Partition(active - ids, serial, after)
  {}

  lemma EndingAnswers(ledger: Ledger, ids: set<string>, phase: Phase)
    requires AnswersEnded(ledger.accepted.Keys, ledger.ended) && ids !! ledger.ended.Keys && !Answered(phase)
    ensures AnswersEnded(ledger.accepted.Keys, Ending(ledger, ids, phase).ended)
  {}

  lemma EndingBooks(active: set<string>, ledger: Ledger, completed: nat, ids: set<string>, phase: Phase)
    requires Balanced(active, ledger, completed) && ids <= active && Terminal(phase)
    ensures var ended := Ending(ledger, ids, phase).ended;
            && Partition(active - ids, ledger.serial, ended)
            && ClosedOnce(Ending(ledger, ids, phase).closes, ended) && AllTerminal(ended)
  {
    var ended := Ending(ledger, ids, phase).ended;
    EndingKeys(ledger, ids, phase);
    EndingParts(active, ledger.serial, ledger.ended, ids, ended);
  }

  lemma EndingBalances(active: set<string>, ledger: Ledger, completed: nat, ids: set<string>, phase: Phase)
    requires Balanced(active, ledger, completed) && ids <= active && Terminal(phase) && !Answered(phase)
    ensures Balanced(active - ids, Ending(ledger, ids, phase), completed)
  {
    EndingBooks(active, ledger, completed, ids, phase);
    EndingAnswers(ledger, ids, phase);
  }

  function Answering(ledger: Ledger, id: string, phase: Phase, answer: Completion): Ledger {
    Ending(ledger, {id}, phase).(accepted := ledger.accepted[id := answer])
  }

  lemma AnsweringGrows(ledger: Ledger, id: string, phase: Phase, answer: Completion)
    requires AnswersEnded(ledger.accepted.Keys, ledger.ended) && id !in ledger.ended
    ensures Extends(ledger.accepted, Answering(ledger, id, phase, answer).accepted)
    ensures LedgerGrows(ledger, Answering(ledger, id, phase, answer))
    ensures LedgerAgrees(ledger, Answering(ledger, id, phase, answer), {id})
  {
    EndingGrows(ledger, {id}, phase);
  }

  lemma AnsweringAnswers(active: set<string>, ledger: Ledger, completed: nat, id: string, phase: Phase, answer: Completion)
    requires Balanced(active, ledger, completed) && id !in ledger.ended && Answered(phase)
    ensures var l := Answering(ledger, id, phase, answer);
            AnswersEnded(l.accepted.Keys, l.ended) && |l.accepted| == completed + 1 && Extends(l.returned, l.accepted)
  {
  }

  lemma AnsweringBooks(active: set<string>, ledger: Ledger, completed: nat, id: string, phase: Phase, answer: Completion)
    requires Balanced(active, ledger, completed) && id in active && Answered(phase)
    ensures var l := Answering(ledger, id, phase, answer);
            && Partition(active - {id}, l.serial, l.ended) && ClosedOnce(l.closes, l.ended) && AllTerminal(l.ended)
            && Numbered(l.serial)
    ensures id !in ledger.ended
  {
    EndingBooks(active, ledger, completed, {id}, phase);
  }

  lemma AnsweringBalances(active: set<string>, ledger: Ledger, completed: nat, id: string, phase: Phase, answer: Completion)
    requires Balanced(active, ledger, completed) && id in active && Answered(phase)
    ensures Balanced(active - {id}, Answering(ledger, id, phase, answer), completed + 1)
  {
    AnsweringBooks(active, ledger, completed, id, phase, answer);
    AnsweringAnswers(active, ledger, completed, id, phase, answer);
  }

  lemma FinishIdsShape(s: State, ids: set<string>, phase: Phase, code: string)
    requires ids <= ActiveIds(s)
    ensures var t := FinishIds(s, ids, phase, code);
            && t.requests.Keys == s.requests.Keys
            && (forall id | id in s.requests ::
                  t.requests[id] == if id in ids then Finished(s.requests[id], phase, code, NO_ANSWER) else s.requests[id])
  {}

  lemma FinishIdsSets(s: State, ids: set<string>, phase: Phase, code: string)
    requires ids <= ActiveIds(s) && Terminal(phase)
    ensures ActiveIds(FinishIds(s, ids, phase, code)) == ActiveIds(s) - ids
  {
    FinishIdsShape(s, ids, phase, code);
  }

  lemma FinishIdsLedger(s: State, ids: set<string>, phase: Phase, code: string)
    requires ids <= ActiveIds(s)
    ensures FinishIds(s, ids, phase, code).ledger == Ending(s.ledger, ids, phase)
  {
    if ids == {} { assert Ending(s.ledger, ids, phase) == s.ledger; }
  }

  lemma FinishIdsRequests(s: State, ids: set<string>, phase: Phase, code: string)
    requires RequestsFine(s) && ids <= ActiveIds(s) && ids !! s.ledger.ended.Keys && Terminal(phase) && !Answered(phase)
    ensures RequestsFine(FinishIds(s, ids, phase, code))
  {
    var t := FinishIds(s, ids, phase, code);
    FinishIdsShape(s, ids, phase, code);
    FinishIdsLedger(s, ids, phase, code);
    forall id | id in ids ensures RequestOk(id, t.requests[id], s.bridge, s.cfg.maxBatchBytes, t.queue, t.ledger) {
    }
    EndingGrows(s.ledger, ids, phase);
    OthersOk(s.requests, t.requests, ids, s.bridge, s.cfg.maxBatchBytes, s.queue, t.queue, s.ledger, t.ledger);
  }

  lemma FinishIdsKeeps(s: State, ids: set<string>, phase: Phase, code: string)
    requires Core(s) && ids <= ActiveIds(s) && Terminal(phase) && !Answered(phase)
    ensures Core(FinishIds(s, ids, phase, code)) && Follows(s, FinishIds(s, ids, phase, code))
  {
    FinishIdsSets(s, ids, phase, code);
    FinishIdsLedger(s, ids, phase, code);
    FinishIdsRequests(s, ids, phase, code);
    EndingGrows(s.ledger, ids, phase);
    EndingBalances(ActiveIds(s), s.ledger, s.completed, ids, phase);
    Assemble(s, FinishIds(s, ids, phase, code));
  }

  lemma FinishOne(s: State, id: string, phase: Phase, code: string, answer: Completion)
    requires id in s.requests && Active(s.requests[id].phase) && Terminal(phase)
    ensures var t := Finish(s, id, phase, code, answer);
            && ActiveIds(t) == ActiveIds(s) - {id} && t.ledger == Ending(s.ledger, {id}, phase)
            && t.requests == s.requests[id := Finished(s.requests[id], phase, code, answer)]
            && (answer == NO_ANSWER ==> t == FinishIds(s, {id}, phase, code))
  {
    var t := Finish(s, id, phase, code, answer);
    assert Ending(s.ledger, {id}, phase) == t.ledger;
    if answer == NO_ANSWER {
      assert t.requests == FinishIds(s, {id}, phase, code).requests;
    }
  }

  lemma FinishKeeps(s: State, id: string, phase: Phase, code: string)
    requires Core(s) && id in s.requests && Terminal(phase) && !Answered(phase)
    ensures Core(Finish(s, id, phase, code, NO_ANSWER)) && Follows(s, Finish(s, id, phase, code, NO_ANSWER))
  {
    if Active(s.requests[id].phase) {
      FinishOne(s, id, phase, code, NO_ANSWER);
      FinishIdsKeeps(s, {id}, phase, code);
    } else {
      FollowsSelf(s);
    }
  }

  lemma ExpireRequestsKeeps(s: State, now: int)
    requires Core(s)
    ensures Core(ExpireRequests(s, now)) && Follows(s, ExpireRequests(s, now))
  {
    FinishIdsKeeps(s, DueIds(s, s.requests.Keys, now), TimedOut, TIMEOUT);
  }

  /** After expiry no active request is due, and nothing else has moved. */
  lemma ExpireRequestsSets(s: State, now: int)
    ensures var t := ExpireRequests(s, now);
            && t.bridge == s.bridge && t.closed == s.closed && t.queue == s.queue && t.receipts == s.receipts
            && t.requests.Keys == s.requests.Keys && t.cfg == s.cfg && ActiveIds(t) <= ActiveIds(s)
            && (forall id | id in t.requests && Active(t.requests[id].phase) :: now < t.requests[id].deadline)
            && (forall id | id in s.requests && !Due(s.requests[id], now) :: t.requests[id] == s.requests[id])
            && (forall id | id in s.requests && Due(s.requests[id], now) ::
                  t.requests[id] == Finished(s.requests[id], TimedOut, TIMEOUT, NO_ANSWER))
  {
    FinishIdsShape(s, DueIds(s, s.requests.Keys, now), TimedOut, TIMEOUT);
    FinishIdsSets(s, DueIds(s, s.requests.Keys, now), TimedOut, TIMEOUT);
  }

  lemma CompleteSets(s: State, id: string, bridge: string, fingerprint: Completion, answer: Completion, now: int)
    requires id in s.requests && Active(s.requests[id].phase)
    ensures var t := Complete(s, id, bridge, fingerprint, answer, now);
            var phase := if answer.finishReason == "tool_calls" then WaitingTool else Completed;
            && t.ledger == Answering(s.ledger, id, phase, answer)
            && t.requests == s.requests[id := Finished(s.requests[id], phase, "", answer)]
            && ActiveIds(t) == ActiveIds(s) - {id}
            && t.receipts == s.receipts[id := Receipt(bridge, fingerprint, now + s.cfg.receiptTtl)]
            && t.bridge == s.bridge && t.cfg == s.cfg && t.queue == s.queue && t.completed == s.completed + 1
  {
    var stamped := s.(receipts := s.receipts[id := Receipt(bridge, fingerprint, now + s.cfg.receiptTtl)]);
    FinishOne(stamped, id, if answer.finishReason == "tool_calls" then WaitingTool else Completed, "", answer);
    assert ActiveIds(stamped) == ActiveIds(s);
    var t := Complete(s, id, bridge, fingerprint, answer, now);
    assert ActiveIds(t) == ActiveIds(s) - {id};
  }

  lemma AnsweredFine(s: State, id: string, phase: Phase, answer: Completion)
    requires RequestsFine(s) && id in s.requests && Active(s.requests[id].phase) && Answered(phase)
    ensures RequestOk(id, Finished(s.requests[id], phase, "", answer), s.bridge, s.cfg.maxBatchBytes, s.queue,
                      Answering(s.ledger, id, phase, answer))
  {
    assert RequestOk(id, s.requests[id], s.bridge, s.cfg.maxBatchBytes, s.queue, s.ledger);
  }

  lemma CompleteRequests(s: State, id: string, bridge: string, fingerprint: Completion, answer: Completion, now: int)
    requires RequestsFine(s) && id in s.requests && Active(s.requests[id].phase) && id !in s.ledger.ended
    requires AnswersEnded(s.ledger.accepted.Keys, s.ledger.ended)
    ensures RequestsFine(Complete(s, id, bridge, fingerprint, answer, now))
  {
    var t := Complete(s, id, bridge, fingerprint, answer, now);
    var phase := if answer.finishReason == "tool_calls" then WaitingTool else Completed;
    CompleteSets(s, id, bridge, fingerprint, answer, now);
    AnsweredFine(s, id, phase, answer);
    AnsweringGrows(s.ledger, id, phase, answer);
    OthersOk(s.requests, t.requests, {id}, s.bridge, s.cfg.maxBatchBytes, s.queue, t.queue, s.ledger, t.ledger);
  }

  lemma CompleteKeeps(s: State, id: string, bridge: string, fingerprint: Completion, answer: Completion, now: int)
    requires Core(s) && id in s.requests && Active(s.requests[id].phase)
    ensures Core(Complete(s, id, bridge, fingerprint, answer, now))
    ensures Follows(s, Complete(s, id, bridge, fingerprint, answer, now))
  {
    var phase := if answer.finishReason == "tool_calls" then WaitingTool else Completed;
    CompleteSets(s, id, bridge, fingerprint, answer, now);
    CompleteRequests(s, id, bridge, fingerprint, answer, now);
    AnsweringGrows(s.ledger, id, phase, answer);
    AnsweringBalances(ActiveIds(s), s.ledger, s.completed, id, phase, answer);
    Assemble(s, Complete(s, id, bridge, fingerprint, answer, now));
  }

  // ---------- Steps that move requests between bridges or renew them ----------

  predicate SameLife(r: Request, q: Request) {
    q.phase == r.phase && q.done == r.done && q.payloadBytes == r.payloadBytes && q.result == r.result
  }

  ghost predicate Rebinds(s: State, t: State) {
    && t.requests.Keys == s.requests.Keys
    && (forall id | id in s.requests :: SameLife(s.requests[id], t.requests[id]))
    && (forall id | id in t.requests && Active(t.requests[id].phase) :: t.requests[id].bridge == t.bridge)
    && t.queue == s.queue && t.cfg == s.cfg && t.closed == s.closed && t.completed == s.completed
    && s.notify <= t.notify && s.revision <= t.revision && (t.notify == s.notify ==> t.bridge == s.bridge)
    && t.ledger == s.ledger.(bridges := t.ledger.bridges) && s.ledger.bridges <= t.ledger.bridges
    && (t.bridge != "" ==> t.lease.Some? && t.bridge in t.ledger.bridges)
  }

  lemma RebindSets(s: State, t: State)
    requires Rebinds(s, t)
    ensures ActiveIds(t) == ActiveIds(s)
  {}

  lemma RebindKeeps(s: State, t: State)
    requires Core(s) && Rebinds(s, t)
    ensures Core(t) && Follows(s, t) && ActiveIds(t) == ActiveIds(s)
  {
    RebindSets(s, t);
    forall id | id in t.requests ensures RequestOk(id, t.requests[id], t.bridge, t.cfg.maxBatchBytes, t.queue, t.ledger) {
      assert RequestOk(id, s.requests[id], s.bridge, s.cfg.maxBatchBytes, s.queue, s.ledger);
    }
    assert RequestsFine(t);
    assert Balanced(ActiveIds(t), t.ledger, t.completed);
    assert LedgerGrows(s.ledger, t.ledger);
  }

  lemma CloseBridgeKeeps(s: State, code: string)
    requires Core(s)
    ensures Core(CloseBridge(s, code)) && Follows(s, CloseBridge(s, code)) && ActiveIds(CloseBridge(s, code)) == ActiveIds(s)
  {
    ActiveBound(s);
    RebindKeeps(s, CloseBridge(s, code));
  }

  /** The fence on its own. */
  lemma ActiveBound(s: State)
    requires Core(s)
    ensures forall id | id in s.requests && Active(s.requests[id].phase) :: s.requests[id].bridge == s.bridge
    ensures s.bridge != "" ==> s.lease.Some? && s.bridge in s.ledger.bridges
  {
    forall id | id in s.requests && Active(s.requests[id].phase) ensures s.requests[id].bridge == s.bridge {
      assert RequestOk(id, s.requests[id], s.bridge, s.cfg.maxBatchBytes, s.queue, s.ledger);
    }
  }

  lemma ExpireBridgeKeeps(s: State, now: int)
    requires Core(s)
    ensures Core(ExpireBridge(s, now)) && Follows(s, ExpireBridge(s, now)) && ActiveIds(ExpireBridge(s, now)) == ActiveIds(s)
  {
    CloseBridgeKeeps(s, STALE);
    FollowsSelf(s);
  }

  lemma TouchBridgeKeeps(s: State, now: int)
    requires Core(s)
    ensures Core(TouchBridge(s, now)) && Follows(s, TouchBridge(s, now)) && ActiveIds(TouchBridge(s, now)) == ActiveIds(s)
  {
    ActiveBound(s);
    RebindKeeps(s, TouchBridge(s, now));
  }

  lemma CleanupReceiptsKeeps(s: State, now: int)
    requires Core(s)
    ensures Core(CleanupReceipts(s, now)) && Follows(s, CleanupReceipts(s, now))
    ensures ActiveIds(CleanupReceipts(s, now)) == ActiveIds(s)
  {
    ActiveBound(s);
    RebindKeeps(s, CleanupReceipts(s, now));
  }

  lemma RenewedSame(s: State, r: Request, now: int)
    requires Active(r.phase) ==> r.bridge == s.bridge
    ensures SameLife(r, Renewed(s, r, now)) && Renewed(s, r, now).bridge == r.bridge
    ensures Renewed(s, r, now) == if Active(r.phase) then r.(deadline := now + s.cfg.requestTimeout) else r
  {}

  lemma HeartbeatKeeps(s: State, now: int)
    requires Core(s)
    ensures Core(Heartbeat(s, now)) && Follows(s, Heartbeat(s, now)) && ActiveIds(Heartbeat(s, now)) == ActiveIds(s)
  {
    ActiveBound(s);
    if s.bridge == "" {
      FollowsSelf(s);
    } else {
      forall id | id in s.requests
        ensures SameLife(s.requests[id], Renewed(s, s.requests[id], now)) && Renewed(s, s.requests[id], now).bridge == s.requests[id].bridge
      {
        RenewedSame(s, s.requests[id], now);
      }
      RebindKeeps(s, Heartbeat(s, now));
    }
  }

  // ---------- Steps on one active request ----------

  ghost predicate Updates(s: State, t: State, id: string) {
    && id in s.requests && t.requests.Keys == s.requests.Keys
    && (forall other | other in s.requests && other != id :: t.requests[other] == s.requests[other])
    && Active(s.requests[id].phase) && Inflight(t.requests[id].phase) && t.requests[id].phase != Claimed
    && t.requests[id].bridge == s.requests[id].bridge
    && t.requests[id].done == s.requests[id].done && t.requests[id].payloadBytes == s.requests[id].payloadBytes
    && t.queue == s.queue && t.cfg == s.cfg && t.closed == s.closed && t.completed == s.completed && t.ledger == s.ledger
    && t.bridge == s.bridge && t.lease == s.lease && s.notify <= t.notify && s.revision <= t.revision
  }

  lemma UpdateSets(s: State, t: State, id: string)
    requires Updates(s, t, id)
    ensures ActiveIds(t) == ActiveIds(s)
    ensures InflightIds(t) == InflightIds(s) + {id}
  {}

  lemma UpdateRequests(s: State, t: State, id: string)
    requires RequestsFine(s) && Updates(s, t, id)
    ensures RequestsFine(t)
  {
    assert RequestOk(id, s.requests[id], s.bridge, s.cfg.maxBatchBytes, s.queue, s.ledger);
    OthersOk(s.requests, t.requests, {id}, s.bridge, s.cfg.maxBatchBytes, s.queue, t.queue, s.ledger, t.ledger);
  }

  lemma UpdateKeeps(s: State, t: State, id: string)
    requires Core(s) && Updates(s, t, id)
    ensures Core(t) && Follows(s, t) && ActiveIds(t) == ActiveIds(s)
  {
    UpdateSets(s, t, id);
    UpdateRequests(s, t, id);
    BalancedSame(ActiveIds(s), s.ledger, t.ledger, s.completed);
    Assemble(s, t);
  }

  lemma MarkRetryableKeeps(s: State, id: string, code: string, now: int)
    requires Core(s) && id in s.requests
    ensures Core(MarkRetryable(s, id, code, now)) && Follows(s, MarkRetryable(s, id, code, now))
    ensures ActiveIds(MarkRetryable(s, id, code, now)) == ActiveIds(s)
  {
    if Active(s.requests[id].phase) {
      UpdateKeeps(s, MarkRetryable(s, id, code, now), id);
    } else {
      FollowsSelf(s);
    }
  }

  lemma DeliverUpdates(s: State, id: string, now: int)
    requires id in s.requests && Inflight(s.requests[id].phase)
    ensures Updates(s, Deliver(s, id, now), id) && Deliver(s, id, now).requests[id].phase == Running
    ensures InflightIds(Deliver(s, id, now)) == InflightIds(s)
  {
    UpdateSets(s, Deliver(s, id, now), id);
    assert id in InflightIds(s);
  }

  lemma DeliverKeeps(s: State, id: string, now: int)
    requires Core(s) && id in s.requests && Inflight(s.requests[id].phase)
    ensures var t := Deliver(s, id, now);
            && Core(t) && Follows(s, t) && ActiveIds(t) == ActiveIds(s) && InflightIds(t) == InflightIds(s)
            && t.requests[id].phase == Running
  {
    DeliverUpdates(s, id, now);
    UpdateKeeps(s, Deliver(s, id, now), id);
  }

  // ---------- The queue ----------

  lemma PopOrder(claims: seq<string>, queue: seq<string>, serial: map<string, nat>)
    requires queue != [] && InAdmissionOrder(claims + queue, serial)
    ensures InAdmissionOrder(claims + queue[1..], serial)
    ensures (claims + [queue[0]]) + queue[1..] == claims + queue
    ensures queue[0] !in queue[1..]
  {
    var long, short, n := claims + queue, claims + queue[1..], |claims|;
    forall i | 0 <= i < |short| ensures short[i] == long[if i < n then i else i + 1] {}
    forall i | 0 <= i < |queue[1..]| ensures queue[1..][i] != queue[0] {
      assert long[n] == queue[0] && long[n + 1 + i] == queue[1..][i];
    }
  }

  lemma PopSets(s: State)
    requires s.queue != []
    ensures ActiveIds(PopQueue(s)) == ActiveIds(s) && InflightIds(PopQueue(s)) == InflightIds(s)
  {}

  /** The discard branch never drops a queued request. */
  lemma DiscardsNoQueued(s: State, id: string)
    requires Core(s) && id in s.requests && Discardable(s, id, s.bridge)
    ensures s.requests[id].phase != Queued
  {
    assert RequestOk(id, s.requests[id], s.bridge, s.cfg.maxBatchBytes, s.queue, s.ledger);
  }

  lemma PopKeeps(s: State)
    requires Core(s) && s.queue != [] && Discardable(s, s.queue[0], s.bridge)
    ensures Core(PopQueue(s)) && Follows(s, PopQueue(s)) && ActiveIds(PopQueue(s)) == ActiveIds(s)
  {
    var t := PopQueue(s);
    PopSets(s);
    PopOrder(s.ledger.claims, s.queue, s.ledger.serial);
    forall id | id in t.requests ensures RequestOk(id, t.requests[id], t.bridge, t.cfg.maxBatchBytes, t.queue, t.ledger) {
      assert RequestOk(id, s.requests[id], s.bridge, s.cfg.maxBatchBytes, s.queue, s.ledger);
      if id == s.queue[0] { DiscardsNoQueued(s, id); }
    }
    assert RequestsFine(t);
    assert LedgerGrows(s.ledger, t.ledger);
    Assemble(s, t);
  }

  /** Claiming the head of the queue and delivering it, as one step. */
  function Take(s: State, bridge: string, now: int): State
    requires s.queue != [] && s.queue[0] in s.requests
  {
    Deliver(Claim(PopQueue(s), s.queue[0], bridge), s.queue[0], now)
  }

  lemma TakeShape(s: State, bridge: string, now: int)
    requires s.queue != [] && s.queue[0] in s.requests && s.requests[s.queue[0]].phase == Queued
    ensures var t := Take(s, bridge, now); var id := s.queue[0]; var r := s.requests[id];
            && t.requests == s.requests[id := r.(bridge := bridge, previous := Some(Claimed), phase := Running,
                                                 delivery := r.delivery + 1, deadline := now + s.cfg.requestTimeout)]
            && ActiveIds(t) == ActiveIds(s) && InflightIds(t) == InflightIds(s) + {id} && id !in InflightIds(s)
            && t.queue == s.queue[1..] && t.ledger == s.ledger.(claims := s.ledger.claims + [id])
  {
    var t := Take(s, bridge, now);
    assert ActiveIds(t) == ActiveIds(s);
    assert InflightIds(t) == InflightIds(s) + {s.queue[0]};
  }

  lemma TakeRequests(s: State, now: int)
    requires RequestsFine(s) && s.queue != [] && !Discardable(s, s.queue[0], s.bridge)
    ensures RequestsFine(Take(s, s.bridge, now))
  {
    var t, id := Take(s, s.bridge, now), s.queue[0];
    TakeShape(s, s.bridge, now);
    assert RequestOk(id, s.requests[id], s.bridge, s.cfg.maxBatchBytes, s.queue, s.ledger);
    assert RequestOk(id, t.requests[id], t.bridge, t.cfg.maxBatchBytes, t.queue, t.ledger);
    assert LedgerAgrees(s.ledger, t.ledger, {id});
    OthersOk(s.requests, t.requests, {id}, s.bridge, s.cfg.maxBatchBytes, s.queue, t.queue, s.ledger, t.ledger);
  }

  lemma TakeKeeps(s: State, now: int)
    requires Core(s) && s.queue != [] && !Discardable(s, s.queue[0], s.bridge)
    ensures Core(Take(s, s.bridge, now)) && Follows(s, Take(s, s.bridge, now))
  {
    var t := Take(s, s.bridge, now);
    TakeShape(s, s.bridge, now);
    PopOrder(s.ledger.claims, s.queue, s.ledger.serial);
    TakeRequests(s, now);
    BalancedSame(ActiveIds(s), s.ledger, t.ledger, s.completed);
    Assemble(s, t);
  }

  // ---------- Admission and forgetting ----------

  lemma AdmittedSets(s: State, id: string, c: Conversation, body: Fields, bytes: nat, now: int)
    requires id !in s.requests
    ensures ActiveIds(Admitted(s, id, c, body, bytes, now)) == ActiveIds(s) + {id} && id !in ActiveIds(s)
  {
    var t := Admitted(s, id, c, body, bytes, now);
    assert t.requests.Keys == s.requests.Keys + {id};
    assert forall other | other in s.requests :: t.requests[other] == s.requests[other];
  }

  function Numbering(serial: map<string, nat>, id: string): map<string, nat> {
    serial[id := |serial|]
  }

  lemma AdmittedOrder(ids: seq<string>, serial: map<string, nat>, id: string)
    requires InAdmissionOrder(ids, serial) && Numbered(serial) && id !in serial
    ensures InAdmissionOrder(ids + [id], Numbering(serial, id))
    ensures Numbered(Numbering(serial, id)) && Extends(serial, Numbering(serial, id))
  {
    var grown := Numbering(serial, id);
    assert grown.Keys == serial.Keys + {id};
    assert |grown| == |serial| + 1;
  }

  lemma AdmittedParts(active: set<string>, serial: map<string, nat>, ended: map<string, Phase>, id: string)
    requires Partition(active, serial, ended) && id !in serial
    ensures Partition(active + {id}, Numbering(serial, id), ended)
  {
    SetParts(active, ended.Keys, id);
    assert Numbering(serial, id).Keys == serial.Keys + {id};
  }

  lemma SetParts(a: set<string>, b: set<string>, x: string)
    requires x !in a + b && a !! b
    ensures (a + {x}) + b == (a + b) + {x} && (a + {x}) !! b
  {}

  lemma AdmittedGrows(ledger: Ledger, id: string)
    requires Extends(ledger.serial, Numbering(ledger.serial, id))
    ensures LedgerGrows(ledger, ledger.(serial := Numbering(ledger.serial, id)))
  {}

  lemma AdmittedBooks(active: set<string>, ledger: Ledger, completed: nat, id: string)
    requires Balanced(active, ledger, completed) && id !in ledger.serial
    ensures Partition(active + {id}, Numbering(ledger.serial, id), ledger.ended) && Numbered(Numbering(ledger.serial, id))
  {
    AdmittedOrder([], ledger.serial, id);
    AdmittedParts(active, ledger.serial, ledger.ended, id);
  }

  lemma AdmittedBalances(active: set<string>, ledger: Ledger, completed: nat, id: string)
    requires Balanced(active, ledger, completed) && id !in ledger.serial
    ensures Balanced(active + {id}, ledger.(serial := Numbering(ledger.serial, id)), completed)
  {
    AdmittedBooks(active, ledger, completed, id);
  }

  lemma AdmittedRequests(s: State, id: string, c: Conversation, body: Fields, bytes: nat, now: int)
    requires RequestsFine(s) && Extends(s.ledger.serial, Numbering(s.ledger.serial, id)) && bytes <= s.cfg.maxBatchBytes
    requires id !in s.requests && id !in s.ledger.ended && id !in s.ledger.returned
    ensures RequestsFine(Admitted(s, id, c, body, bytes, now))
  {
    var t := Admitted(s, id, c, body, bytes, now);
    assert LedgerAgrees(s.ledger, t.ledger, {id});
    assert RequestOk(id, t.requests[id], t.bridge, t.cfg.maxBatchBytes, t.queue, t.ledger);
    OthersOk(s.requests, t.requests, {id}, s.bridge, s.cfg.maxBatchBytes, s.queue, t.queue, s.ledger, t.ledger);
  }

  lemma AdmittedFollows(s: State, id: string, c: Conversation, body: Fields, bytes: nat, now: int)
    requires Extends(s.ledger.serial, Numbering(s.ledger.serial, id))
    ensures Follows(s, Admitted(s, id, c, body, bytes, now))
  {
    AdmittedGrows(s.ledger, id);
  }

  lemma AdmittedKeeps(s: State, id: string, c: Conversation, body: Fields, bytes: nat, now: int)
    requires Core(s) && s.bridge != "" && |ActiveIds(s)| < s.cfg.maxPending && bytes <= s.cfg.maxBatchBytes
    requires id !in s.ledger.serial
    ensures Core(Admitted(s, id, c, body, bytes, now)) && Follows(s, Admitted(s, id, c, body, bytes, now))
  {
    var t := Admitted(s, id, c, body, bytes, now);
    Unknown(s, id);
    AdmittedSets(s, id, c, body, bytes, now);
    AdmittedOrder(s.ledger.claims + s.queue, s.ledger.serial, id);
    assert t.ledger.claims + t.queue == (s.ledger.claims + s.queue) + [id];
    AdmittedBalances(ActiveIds(s), s.ledger, s.completed, id);
    AdmittedRequests(s, id, c, body, bytes, now);
    AdmittedFollows(s, id, c, body, bytes, now);
  }

  /** A name never admitted is unknown everywhere. */
  lemma Unknown(s: State, id: string)
    requires Core(s) && id !in s.ledger.serial
    ensures id !in s.requests && id !in s.ledger.ended && id !in s.ledger.accepted && id !in s.ledger.returned
  {
    assert Balanced(ActiveIds(s), s.ledger, s.completed);
  }

  lemma {:induction false} WithoutKeepsOrder(claims: seq<string>, queue: seq<string>, id: string, serial: map<string, nat>)
    requires InAdmissionOrder(claims + queue, serial)
    ensures InAdmissionOrder(claims + Without(queue, id), serial)
    decreases |queue|
  {
    if queue != [] {
      PopOrder(claims, queue, serial);
      if queue[0] == id {
        WithoutKeepsOrder(claims, queue[1..], id, serial);
      } else {
        WithoutKeepsOrder(claims + [queue[0]], queue[1..], id, serial);
        assert (claims + [queue[0]]) + Without(queue[1..], id) == claims + Without(queue, id);
      }
    }
  }

  lemma {:induction false} WithoutMembers(queue: seq<string>, id: string)
    ensures forall x :: x in Without(queue, id) <==> x in queue && x != id
  {
    if queue != [] {
      assert queue == [queue[0]] + queue[1..];
      WithoutMembers(queue[1..], id);
    }
  }

  lemma ForgetSets(s: State, id: string)
    requires id in s.requests ==> Terminal(s.requests[id].phase)
    ensures ActiveIds(Forget(s, id)) == ActiveIds(s)
  {}

  lemma ForgetKeeps(s: State, id: string)
    requires Core(s) && (id in s.requests ==> Terminal(s.requests[id].phase))
    ensures Core(Forget(s, id)) && Follows(s, Forget(s, id)) && ActiveIds(Forget(s, id)) == ActiveIds(s)
  {
    var t := Forget(s, id);
    ForgetSets(s, id);
    WithoutKeepsOrder(s.ledger.claims, s.queue, id, s.ledger.serial);
    WithoutMembers(s.queue, id);
    forall other | other in t.requests
      ensures RequestOk(other, t.requests[other], t.bridge, t.cfg.maxBatchBytes, t.queue, t.ledger)
    {
      assert RequestOk(other, s.requests[other], s.bridge, s.cfg.maxBatchBytes, s.queue, s.ledger);
    }
    assert RequestsFine(t);
    assert Balanced(ActiveIds(t), t.ledger, t.completed);
    assert LedgerGrows(s.ledger, t.ledger);
    Assemble(s, t);
  }
}
