/**
 * The agent broker's state and every critical section of its protocol as a function from
 * state to state. The class in Broker.dfy performs these sections in place.
 */
module BrokerState {
  import opened Wrappers
  import opened Json
  import opened Canonical
  import Bridge
  import Text

  // ---------- Configuration ----------

  /** Durations are in milliseconds. */
  datatype Config = Config(maxPending: int, maxInflight: int, maxBatchBytes: int, requestTimeout: int,
                           waitTimeout: int, bridgeLease: int, receiptTtl: int, heartbeat: int)

  const DEFAULT_MAX_PENDING := 16
  const DEFAULT_MAX_INFLIGHT := 4
  const DEFAULT_MAX_BATCH_BYTES := 1024 * 1024
  const DEFAULT_REQUEST_TIMEOUT := 180_000
  const DEFAULT_WAIT_TIMEOUT := 45_000
  const DEFAULT_BRIDGE_LEASE := 120_000
  const DEFAULT_RECEIPT_TTL := 300_000
  const DEFAULT_HEARTBEAT := 15_000

  function Positive(given: int, fallback: int): int {
    if given <= 0 then fallback else given
  }

  /** The settings New runs with, given what the caller asked for. */
  function Settle(cfg: Config): Config {
    var pending := Positive(cfg.maxPending, DEFAULT_MAX_PENDING);
    var inflight :=
      if cfg.maxInflight <= 0 || cfg.maxInflight > pending then
        if DEFAULT_MAX_INFLIGHT > pending then pending else DEFAULT_MAX_INFLIGHT
      else cfg.maxInflight;
    var wait := Positive(cfg.waitTimeout, DEFAULT_WAIT_TIMEOUT);
    Config(pending, inflight, Positive(cfg.maxBatchBytes, DEFAULT_MAX_BATCH_BYTES),
           Positive(cfg.requestTimeout, DEFAULT_REQUEST_TIMEOUT), wait,
           if cfg.bridgeLease <= wait then DEFAULT_BRIDGE_LEASE else cfg.bridgeLease,
           Positive(cfg.receiptTtl, DEFAULT_RECEIPT_TTL), Positive(cfg.heartbeat, DEFAULT_HEARTBEAT))
  }

  ghost predicate Sound(cfg: Config) {
    && 1 <= cfg.maxInflight <= cfg.maxPending && 1 <= cfg.maxBatchBytes
    && 1 <= cfg.requestTimeout && 1 <= cfg.waitTimeout && 1 <= cfg.bridgeLease && 1 <= cfg.receiptTtl
    && 1 <= cfg.heartbeat
  }

  // ---------- State ----------

  const NO_ANSWER := Completion("", [], "")

  datatype Phase = Queued | Claimed | Running | FailedRetryable
                 | WaitingTool | Completed | FailedFinal | Canceled | TimedOut | Disconnected

  predicate Active(p: Phase) { p.Queued? || p.Claimed? || p.Running? || p.FailedRetryable? }

  predicate Inflight(p: Phase) { p.Claimed? || p.Running? || p.FailedRetryable? }

  predicate Terminal(p: Phase) { !Active(p) }

  predicate Answered(p: Phase) { p.Completed? || p.WaitingTool? }

  datatype Request = Request(bridge: string, conversation: Conversation, payload: Fields, payloadBytes: nat,
                             created: int, deadline: int, phase: Phase, previous: Option<Phase>,
                             resumeReason: string, delivery: nat, result: Completion, code: string,
                             done: bool)

  /** The fingerprint of an accepted answer is the answer itself. */
  datatype Receipt = Receipt(bridge: string, answer: Completion, expires: int)

  datatype Status = Unset | Ready | Offline | Lifecycle(phase: Phase)

  /**
   * What has happened so far; no step reads it. serial numbers the admitted requests, claims lists
   * the ids taken from the queue, closes counts closings of each done channel, ended holds each
   * finished request's final phase, and accepted and returned hold the answers.
   */
  datatype Ledger = Ledger(serial: map<string, nat>, claims: seq<string>, closes: multiset<string>,
                           ended: map<string, Phase>, accepted: map<string, Completion>,
                           returned: map<string, Completion>, bridges: set<string>)

  const EMPTY_LEDGER := Ledger(map[], [], multiset{}, map[], map[], map[], {})

  /** bridge is the open generation, or empty; notify numbers the channel that waiting exchanges select on. */
  datatype State = State(cfg: Config, bridge: string, lease: Option<int>, queue: seq<string>,
                         requests: map<string, Request>, receipts: map<string, Receipt>, notify: nat,
                         closed: bool, completed: nat, revision: nat, lastReported: nat, idleCount: nat,
                         lastState: Status, lastError: string, lastHeartbeat: Option<int>,
                         lastProgress: string, ledger: Ledger)

  function Initial(cfg: Config): State {
    State(Settle(cfg), "", None, [], map[], map[], 0, false, 0, 0, 0, 0, Unset, "", None, "", EMPTY_LEDGER)
  }

  function ActiveIds(s: State): set<string> {
    set id | id in s.requests && Active(s.requests[id].phase)
  }

  function InflightIds(s: State): set<string> {
    set id | id in s.requests && Inflight(s.requests[id].phase)
  }

  function QueuedIds(s: State): set<string> {
    set id | id in s.requests && s.requests[id].phase == Queued
  }

  function InflightOn(s: State, bridge: string): set<string> {
    set id | id in s.requests && s.requests[id].bridge == bridge && Inflight(s.requests[id].phase)
  }

  // ---------- Primitive steps ----------

  function Transition(s: State, status: Status, code: string): State {
    s.(revision := s.revision + 1, lastState := status, lastError := code)
  }

  function Signal(s: State): State {
    s.(notify := s.notify + 1)
  }

  function Finished(r: Request, phase: Phase, code: string, answer: Completion): Request {
    r.(previous := Some(r.phase), phase := phase, code := code, result := answer, done := true)
  }

  /** A terminal request stays as it is. */
  function Finish(s: State, id: string, phase: Phase, code: string, answer: Completion): State
    requires id in s.requests
  {
    if Terminal(s.requests[id].phase) then s else
      var ledger := s.ledger.(closes := s.ledger.closes + multiset{id}, ended := s.ledger.ended[id := phase]);
      var updated := s.(requests := s.requests[id := Finished(s.requests[id], phase, code, answer)], ledger := ledger);
      Signal(Transition(updated, Lifecycle(phase), code))
  }

  predicate Due(r: Request, now: int) {
    Active(r.phase) && r.deadline <= now
  }

  function DueIds(s: State, ids: set<string>, now: int): set<string> {
    set id | id in ids && id in s.requests && Due(s.requests[id], now)
  }

  const TIMEOUT := "AGENT_REQUEST_TIMEOUT"

  /** Finishing, in any order, those active requests among the given ids that are no later than their time. */
  function FinishIds(s: State, ids: set<string>, phase: Phase, code: string): State
    requires ids <= ActiveIds(s)
  {
    if ids == {} then s else
      s.(requests := map id | id in s.requests ::
                       if id in ids then Finished(s.requests[id], phase, code, NO_ANSWER) else s.requests[id],
         revision := s.revision + |ids|, notify := s.notify + |ids|,
         lastState := Lifecycle(phase), lastError := code,
         ledger := s.ledger.(closes := s.ledger.closes + multiset(ids),
                             ended := s.ledger.ended + map id | id in ids :: phase))
  }

  function ExpireRequests(s: State, now: int): State {
    FinishIds(s, DueIds(s, s.requests.Keys, now), TimedOut, TIMEOUT)
  }

  function CleanupReceipts(s: State, now: int): State {
    s.(receipts := map id | id in s.receipts && now < s.receipts[id].expires :: s.receipts[id])
  }

  function Detached(r: Request, code: string): Request {
    r.(previous := Some(r.phase), resumeReason := code, bridge := "")
  }

  function CloseBridge(s: State, code: string): State {
    var detached := s.(bridge := "", lease := None,
                       requests := map id | id in s.requests ::
                         if s.requests[id].bridge == s.bridge && Active(s.requests[id].phase)
                         then Detached(s.requests[id], code) else s.requests[id]);
    Signal(Transition(detached, Offline, code))
  }

  const STALE := "AGENT_BRIDGE_STALE"

  function ExpireBridge(s: State, now: int): State {
    if s.bridge == "" || s.lease.None? || now < s.lease.value then s
    else if InflightOn(s, s.bridge) != {} then s
    else CloseBridge(s, STALE)
  }

  function Expire(s: State, now: int): State {
    ExpireBridge(ExpireRequests(s, now), now)
  }

  function TouchBridge(s: State, now: int): State {
    if s.bridge == "" then s else s.(lease := Some(now + s.cfg.bridgeLease))
  }

  function Renewed(s: State, r: Request, now: int): Request {
    if !Active(r.phase) then r else
      var bound := if r.bridge == "" then r.(bridge := s.bridge) else r;
      if bound.bridge != s.bridge then bound else bound.(deadline := now + s.cfg.requestTimeout)
  }

  function Heartbeat(s: State, now: int): State {
    if s.bridge == "" then s else
      TouchBridge(s.(lastHeartbeat := Some(now)), now)
        .(requests := map id | id in s.requests :: Renewed(s, s.requests[id], now))
  }

  function Marked(r: Request, code: string, deadline: int): Request {
    r.(previous := Some(r.phase), phase := FailedRetryable, code := code, deadline := deadline,
       resumeReason := "retry_after_error")
  }

  function MarkRetryable(s: State, id: string, code: string, now: int): State
    requires id in s.requests
  {
    var r := s.requests[id];
    if !Active(r.phase) then s else
      Signal(Transition(s.(requests := s.requests[id := Marked(r, code, now + s.cfg.requestTimeout)]),
                        Lifecycle(FailedRetryable), code))
  }

  // ---------- Opening and closing a bridge ----------

  datatype OpenReply = OpenFailed(code: string) | Opened(resumed: bool, maxInflight: int, revision: nat)

  function Rebound(r: Request, bridge: string): Request {
    if !Active(r.phase) then r
    else if r.delivery == 0 then r.(bridge := bridge)
    else r.(previous := Some(r.phase), bridge := bridge,
            resumeReason := if r.resumeReason == "" then "bridge_resumed" else r.resumeReason)
  }

  /** generation is the random name drawn when there is no open bridge. */
  function Open(s: State, now: int, generation: string): (State, OpenReply) {
    if s.closed then (s, OpenFailed("AGENT_BROKER_CLOSED")) else
      var e := Expire(s, now);
      if e.bridge != "" then
        var kept := Heartbeat(TouchBridge(e, now), now);
        (kept, Opened(true, s.cfg.maxInflight, kept.revision))
      else
        var bound := e.(bridge := generation, ledger := e.ledger.(bridges := e.ledger.bridges + {generation}),
                        requests := map id | id in e.requests :: Rebound(e.requests[id], generation));
        var beating := Heartbeat(TouchBridge(bound, now), now);
        var ready := Signal(Transition(beating.(lastReported := 0, idleCount := 0), Ready, ""));
        (ready, Opened(ActiveIds(e) != {}, s.cfg.maxInflight, ready.revision))
  }

  datatype CloseReply = CloseFailed(code: string) | NoActiveBridge | BridgeClosed

  function Close(s: State, now: int): (State, CloseReply) {
    var e := Expire(s, now);
    if e.closed then (e, CloseFailed("AGENT_BROKER_CLOSED"))
    else if e.bridge == "" then (e, NoActiveBridge)
    else (CloseBridge(e, "AGENT_BRIDGE_CLOSED"), BridgeClosed)
  }

  function Shutdown(s: State): State {
    if s.closed then s else
      CloseBridge(FinishIds(s.(closed := true), ActiveIds(s), FailedFinal, "AGENT_BROKER_CLOSED"),
                  "AGENT_BROKER_CLOSED")
  }

  /** One tick of the heartbeat loop, which ends once the broker is closed. */
  function Tick(s: State, now: int): State {
    if s.closed then s
    else if s.bridge != "" && ActiveIds(s) != {} then Heartbeat(s, now)
    else Expire(s, now)
  }

  // ---------- Admitting a request ----------

  /** The body handed to the bridge, with its size as JSON text. */
  function Payload(c: Conversation): Result<(Fields, nat)> {
    var body :- Bridge.EncodeBridgeRequest(c);
    Ok((body, Text.Utf8Len(Print(Object(body)))))
  }

  function Admitted(s: State, id: string, c: Conversation, body: Fields, bytes: nat, now: int): State {
    var r := Request(s.bridge, c, body, bytes, now, now + s.cfg.requestTimeout, Queued, None, "", 0, NO_ANSWER, "", false);
    var ledger := s.ledger.(serial := s.ledger.serial[id := |s.ledger.serial|]);
    var added := s.(requests := s.requests[id := r], queue := s.queue + [id], ledger := ledger);
    Signal(Transition(added, Lifecycle(Queued), ""))
  }

  function AdmitWith(e: State, now: int, id: string, c: Conversation, payload: Result<(Fields, nat)>): (State, Result<int>) {
    if payload.Err? then (e, Err(payload.code))
    else if payload.value.1 > e.cfg.maxBatchBytes then (e, Err("AGENT_REQUEST_TOO_LARGE"))
    else (Admitted(e, id, c, payload.value.0, payload.value.1, now), Ok(now + e.cfg.requestTimeout))
  }

  /** id is the random request name drawn on admission; the reply is the handle's deadline. */
  function Admit(e: State, now: int, id: string, c: Conversation): (State, Result<int>) {
    AdmitWith(e, now, id, c, Payload(c))
  }

  function Enqueue(s: State, now: int, id: string, c: Conversation): (State, Result<int>) {
    if s.closed then (s, Err("AGENT_BROKER_CLOSED")) else
      var e := Expire(s, now);
      if e.bridge == "" then (e, Err("AGENT_BRIDGE_UNAVAILABLE"))
      else if |ActiveIds(e)| >= e.cfg.maxPending then (e, Err("AGENT_BUSY"))
      else Admit(e, now, id, c)
  }

  // ---------- Accepting responses ----------

  datatype Response = Response(requestId: string, body: Option<Fields>, event: string)

  datatype Verdict = CompletedNow | Duplicate | Rejected(code: string)

  datatype Item = Item(id: string, verdict: Verdict)

  /** What a response says on its own, before any request is looked up. */
  datatype Reading = Blank | Garbled(code: string) | Readable(answer: Completion)

  function ResponseId(r: Response): string { Text.Trim(r.requestId) }

  function Read(r: Response): Reading {
    if ResponseId(r) == "" || r.body.None? then Blank
    else match Bridge.DecodeBridgeCompletion(r.body.value, None)
      case Err(code) => Garbled(code)
      case Ok(answer) => Readable(answer)
  }

  /** Whether a response answers this conversation, and with what. */
  function Fit(r: Response, c: Conversation): Result<Completion> {
    if r.body.None? then Err("AGENT_RESPONSE_INVALID") else
      var answer :- Bridge.DecodeBridgeCompletion(r.body.value, Some(c));
      var expected := if answer.finishReason == "tool_calls" then "tool_call" else "completion";
      var supplied := Text.Trim(r.event);
      if supplied != "" && supplied != expected then Err("AGENT_RESPONSE_EVENT_MISMATCH") else Ok(answer)
  }

  /** All that the broker takes from a response: the id it names, its reading, and how it fits a conversation. */
  datatype Judgement = Judgement(id: string, reading: Reading, fit: Conversation -> Result<Completion>)

  function Judge(r: Response): Judgement {
    Judgement(ResponseId(r), Read(r), (c: Conversation) => Fit(r, c))
  }

  predicate Live(s: State, id: string, bridge: string) {
    id in s.requests && s.requests[id].bridge == bridge && Active(s.requests[id].phase)
  }

  datatype Accepted = Accepted(state: State, item: Item, followup: bool)

  function Reject(s: State, id: string, code: string): Accepted {
    Accepted(s, Item(id, Rejected(code)), false)
  }

  function Complete(s: State, id: string, bridge: string, fingerprint: Completion, answer: Completion, now: int): State
    requires id in s.requests
  {
    var stamped := s.(receipts := s.receipts[id := Receipt(bridge, fingerprint, now + s.cfg.receiptTtl)]);
    var done := Finish(stamped, id, if answer.finishReason == "tool_calls" then WaitingTool else Completed, "", answer);
    done.(completed := done.completed + 1, ledger := done.ledger.(accepted := done.ledger.accepted[id := answer]))
  }

  /** A first answer to a live request: it fits and completes the request, or leaves it to be retried. */
  function AcceptLive(s: State, bridge: string, j: Judgement, answer: Completion, now: int): Accepted
    requires j.id in s.requests
  {
    match j.fit(s.requests[j.id].conversation)
    case Err(code) => Reject(MarkRetryable(s, j.id, code, now), j.id, code)
    case Ok(fitted) =>
      Accepted(Complete(s, j.id, bridge, answer, fitted, now), Item(j.id, CompletedNow), fitted.finishReason == "tool_calls")
  }

  function AcceptReadable(s: State, bridge: string, j: Judgement, answer: Completion, now: int): Accepted {
    if j.id in s.receipts then
      if s.receipts[j.id].bridge == bridge && s.receipts[j.id].answer == answer then
        Accepted(s, Item(j.id, Duplicate), answer.finishReason == "tool_calls")
      else Reject(s, j.id, "AGENT_RESPONSE_CONFLICT")
    else if !Live(s, j.id, bridge) || s.requests[j.id].deadline <= now then
      Reject(if j.id in s.requests && Due(s.requests[j.id], now) then Finish(s, j.id, TimedOut, TIMEOUT, NO_ANSWER) else s,
             j.id, "REQUEST_NO_LONGER_ACTIVE")
    else AcceptLive(s, bridge, j, answer, now)
  }

  function Accept(s: State, bridge: string, j: Judgement, now: int): Accepted {
    match j.reading
    case Blank => Reject(s, j.id, "AGENT_RESPONSE_INVALID")
    case Garbled(code) => Reject(if Live(s, j.id, bridge) then MarkRetryable(s, j.id, code, now) else s, j.id, code)
    case Readable(answer) => AcceptReadable(s, bridge, j, answer, now)
  }

  function AcceptOne(s: State, bridge: string, r: Response, now: int): Accepted {
    Accept(s, bridge, Judge(r), now)
  }

  datatype AcceptedAll = AcceptedAll(state: State, items: seq<Item>, followup: bool)

  /** Responses are taken in order. */
  function AcceptAll(s: State, bridge: string, rs: seq<Response>, now: int): AcceptedAll
    decreases |rs|
  {
    if rs == [] then AcceptedAll(s, [], false) else
      var before := AcceptAll(s, bridge, rs[..|rs| - 1], now);
      var last := AcceptOne(before.state, bridge, rs[|rs| - 1], now);
      AcceptedAll(last.state, before.items + [last.item], before.followup || last.followup)
  }

  datatype Progress = Progress(requestId: string, message: string)

  /** News of a request renews its deadline and sets it running. */
  function Extend(s: State, id: string, now: int): State
    requires id in s.requests
  {
    var r := s.requests[id].(deadline := now + s.cfg.requestTimeout);
    if r.phase == Claimed then
      Transition(s.(requests := s.requests[id := r.(previous := Some(r.phase), phase := Running)]), Lifecycle(Running), "")
    else s.(requests := s.requests[id := r])
  }

  function AcceptProgressOne(s: State, bridge: string, p: Progress, now: int): State {
    var id := Text.Trim(p.requestId);
    var message := Text.Trim(p.message);
    if id == "" || message == "" || !Live(s, id, bridge) then s
    else Extend(s, id, now).(lastProgress := message)
  }

  function AcceptProgress(s: State, bridge: string, ps: seq<Progress>, now: int): State
    decreases |ps|
  {
    if ps == [] then s
    else AcceptProgressOne(AcceptProgress(s, bridge, ps[..|ps| - 1], now), bridge, ps[|ps| - 1], now)
  }

  // ---------- Building a batch ----------

  datatype Entry = Entry(id: string, delivery: nat, previous: Option<Phase>, resumeReason: string, bytes: nat)

  /** A batch under construction. */
  datatype Batch = Batch(state: State, entries: seq<Entry>, bytes: nat)

  function EntryFor(id: string, r: Request): Entry {
    Entry(id, r.delivery + 1,
          if r.delivery > 0 then Some(r.phase) else r.previous,
          if r.delivery > 0 && r.resumeReason == "" then "redelivery" else r.resumeReason,
          r.payloadBytes)
  }

  function Deliver(s: State, id: string, now: int): State
    requires id in s.requests
  {
    var r := s.requests[id].(delivery := s.requests[id].delivery + 1, deadline := now + s.cfg.requestTimeout);
    if r.phase == Running then s.(requests := s.requests[id := r])
    else Transition(s.(requests := s.requests[id := r.(previous := Some(r.phase), phase := Running)]),
                    Lifecycle(Running), "")
  }

  predicate Fits(b: Batch, id: string, capacity: int)
    requires id in b.state.requests
  {
    |b.entries| < capacity && b.bytes + b.state.requests[id].payloadBytes <= b.state.cfg.maxBatchBytes
  }

  function Append(b: Batch, id: string, now: int): Batch
    requires id in b.state.requests
  {
    var r := b.state.requests[id];
    Batch(Deliver(b.state, id, now), b.entries + [EntryFor(id, r)], b.bytes + r.payloadBytes)
  }

  /** Deliver again, in order, what is in flight; stop at the first that does not fit. */
  function Redeliver(b: Batch, ids: seq<string>, capacity: int, now: int): Batch
    requires forall id | id in ids :: id in b.state.requests
    decreases |ids|
  {
    if ids == [] || !Fits(b, ids[0], capacity) then b
    else Redeliver(Append(b, ids[0], now), ids[1..], capacity, now)
  }

  function PopQueue(s: State): State
    requires s.queue != []
  {
    s.(queue := s.queue[1..])
  }

  function Claim(s: State, id: string, bridge: string): State
    requires id in s.requests
  {
    var r := s.requests[id];
    Transition(s.(requests := s.requests[id := r.(bridge := bridge, previous := Some(r.phase), phase := Claimed)],
                  ledger := s.ledger.(claims := s.ledger.claims + [id])),
               Lifecycle(Claimed), "")
  }

  predicate Discardable(s: State, id: string, bridge: string) {
    id !in s.requests || s.requests[id].phase != Queued || (s.requests[id].bridge != "" && s.requests[id].bridge != bridge)
  }

  /** Take requests from the head of the queue while there is room for more. */
  function Drain(b: Batch, bridge: string, capacity: int, inflight: int, now: int): Batch
    decreases |b.state.queue|
  {
    if |b.entries| >= capacity || inflight >= b.state.cfg.maxInflight || b.state.queue == [] then b else
      var id := b.state.queue[0];
      var popped := PopQueue(b.state);
      if Discardable(b.state, id, bridge) then Drain(b.(state := popped), bridge, capacity, inflight, now)
      else if b.state.requests[id].deadline <= now then
        Drain(b.(state := Finish(popped, id, TimedOut, TIMEOUT, NO_ANSWER)), bridge, capacity, inflight, now)
      else if b.bytes + b.state.requests[id].payloadBytes > b.state.cfg.maxBatchBytes then b
      else Drain(Append(b.(state := Claim(popped, id, bridge)), id, now), bridge, capacity, inflight + 1, now)
  }

  function CreationOrder(requests: map<string, Request>): string -> int {
    (id: string) => if id in requests then requests[id].created else 0
  }

  function NextBatch(s: State, bridge: string, capacity: int, now: int): Batch {
    var e := ExpireRequests(s, now);
    var inflight := Text.Sorted(InflightOn(e, bridge), CreationOrder(e.requests));
    Drain(Redeliver(Batch(e, [], 0), inflight, capacity, now), bridge, capacity, |inflight|, now)
  }

  // ---------- Exchanges ----------

  datatype Kind = Requests | Responses | NoRequest

  datatype Activity = Activity(revision: nat, changed: bool, pending: nat, inflight: nat, active: nat, idleCount: nat)

  datatype Output = Output(kind: Kind, activity: Activity, items: seq<Item>, entries: seq<Entry>)

  function Report(s: State, kind: Kind, items: seq<Item>, entries: seq<Entry>): (State, Output) {
    var pending := |QueuedIds(s)|;
    var inflight := |InflightIds(s)|;
    var changed := s.revision != s.lastReported;
    var idle := if kind == NoRequest && !changed then s.idleCount + 1 else 0;
    (s.(idleCount := idle, lastReported := s.revision),
     Output(kind, Activity(s.revision, changed, pending, inflight, pending + inflight, idle), items, entries))
  }

  function RequireBridge(s: State, bridge: string): Option<string> {
    if s.closed then Some("AGENT_BROKER_CLOSED")
    else if s.bridge == "" then Some("AGENT_BRIDGE_NOT_ACTIVE")
    else if bridge == "" || bridge != s.bridge then Some("AGENT_BRIDGE_STALE_OPERATION")
    else None
  }

  function Capacity(cfg: Config, asked: int): int {
    if asked <= 0 || asked > cfg.maxInflight then cfg.maxInflight else asked
  }

  function Refresh(s: State, now: int): State {
    Expire(CleanupReceipts(s, now), now)
  }

  /** The first critical section of an exchange: the generation it will stay with. */
  function Begin(s: State, now: int): (State, Result<string>) {
    var e := Refresh(s, now);
    if e.closed then (e, Err("AGENT_BROKER_CLOSED"))
    else if e.bridge == "" then (e, Err("AGENT_BRIDGE_NOT_ACTIVE"))
    else (e, Ok(e.bridge))
  }

  /** What the exchange has still to submit, or what became of it. */
  datatype Submission = Unsent(responses: seq<Response>, progress: seq<Progress>) | Sent(items: seq<Item>, followup: bool)

  /** Park ends with the exchange selecting on the current notify generation. */
  datatype TurnReply = Failed(code: string) | Reply(output: Output) | Park(items: seq<Item>, followup: bool)

  function Submit(s: State, bridge: string, sub: Submission, now: int): AcceptedAll {
    match sub
    case Sent(items, followup) => AcceptedAll(s, items, followup)
    case Unsent(responses, progress) =>
      var taken := AcceptAll(s, bridge, responses, now);
      taken.(state := AcceptProgress(taken.state, bridge, progress, now))
  }

  /** Reply with the batch, or with the results alone, or park. */
  function Conclude(b: Batch, items: seq<Item>, followup: bool, now: int): (State, TurnReply) {
    if b.entries != [] then
      var (after, output) := Report(TouchBridge(b.state, now), Requests, items, b.entries);
      (after, Reply(output))
    else if items != [] && !followup then
      var (after, output) := Report(b.state, Responses, items, []);
      (after, Reply(output))
    else (b.state, Park(items, followup))
  }

  /** One pass through an exchange's loop, up to the select. */
  function Turn(s: State, bridge: string, capacity: int, sub: Submission, now: int): (State, TurnReply) {
    var e := Refresh(s, now);
    match RequireBridge(e, bridge)
    case Some(code) => (e, Failed(code))
    case None =>
      var taken := Submit(TouchBridge(e, now), bridge, sub, now);
      Conclude(NextBatch(taken.state, bridge, capacity, now), taken.items, taken.followup, now)
  }

  /** The exchange's timer fired in its select. */
  function WaitOver(s: State, bridge: string, items: seq<Item>, now: int): (State, TurnReply) {
    var e := Expire(s, now);
    match RequireBridge(e, bridge)
    case Some(code) => (e, Failed(code))
    case None =>
      var (after, output) := Report(TouchBridge(e, now), NoRequest, items, []);
      (after, Reply(output))
  }

  datatype BridgeStatus = BridgeOffline | BridgeReady | BridgeBusy

  datatype Snapshot = Snapshot(bridge: BridgeStatus, pending: nat, claimed: nat, completed: nat, revision: nat, idleCount: nat)

  function TakeSnapshot(s: State, now: int): (State, Snapshot) {
    var e := Refresh(s, now);
    var claimed := |InflightIds(e)|;
    (e, Snapshot(if e.bridge == "" then BridgeOffline else if claimed > 0 then BridgeBusy else BridgeReady,
                 |QueuedIds(e)|, claimed, e.completed, e.revision, e.idleCount))
  }

  // ---------- The waiter's side ----------

  function Without(queue: seq<string>, id: string): seq<string> {
    if queue == [] then []
    else if queue[0] == id then Without(queue[1..], id)
    else [queue[0]] + Without(queue[1..], id)
  }

  function Forget(s: State, id: string): State {
    s.(requests := s.requests - {id}, queue := Without(s.queue, id))
  }

  const GONE := "REQUEST_NO_LONGER_ACTIVE"

  function CurrentDeadline(s: State, id: string): Result<int> {
    if id in s.requests then Ok(s.requests[id].deadline) else Err(GONE)
  }

  /** Collect the outcome once the request's done channel is closed. */
  function Collect(s: State, id: string): (State, Result<Completion>) {
    if id !in s.requests then (s, Err(GONE)) else
      var r := s.requests[id];
      var after := Forget(s, id);
      if Answered(r.phase) then
        (after.(ledger := s.ledger.(returned := s.ledger.returned[id := r.result])), Ok(r.result))
      else (after, Err(if r.code == "" then "AGENT_REQUEST_FAILED" else r.code))
  }

  function Abandon(s: State, id: string, phase: Phase, code: string): State {
    if id !in s.requests then s
    else if Active(s.requests[id].phase) then
      Forget(Finish(s, id, phase, code, NO_ANSWER).(lastState := Lifecycle(phase)), id)
    else Forget(s, id)
  }
}
