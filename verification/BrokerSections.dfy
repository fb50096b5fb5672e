/** What the sections around an exchange do, told by the state before and after: bridges, admission, progress, reports. */
module BrokerSections {
  import opened Wrappers
  import opened Json
  import opened Canonical
  import opened BrokerState
  import Bridge
  import Text

  // ---------- Settings ----------

  /** Settings that make sense are kept; and settling twice is settling once. */
  lemma SettledStay(cfg: Config)
    ensures Sound(cfg) && cfg.waitTimeout < cfg.bridgeLease ==> Settle(cfg) == cfg
    ensures Settle(Settle(cfg)) == Settle(cfg) && Sound(Settle(cfg))
  {}

  /** With nothing set the broker runs with these. */
  lemma Defaults()
    ensures Settle(Config(0, 0, 0, 0, 0, 0, 0, 0)) == Config(16, 4, 0x10_0000, 180_000, 45_000, 120_000, 300_000, 15_000)
  {}

  /** An exchange asks for at least one request and for no more than may be in flight. */
  lemma CapacityBound(cfg: Config, asked: int)
    requires Sound(cfg)
    ensures 1 <= Capacity(cfg, asked) <= cfg.maxInflight
    ensures 1 <= asked <= cfg.maxInflight ==> Capacity(cfg, asked) == asked
    ensures !(1 <= asked <= cfg.maxInflight) ==> Capacity(cfg, asked) == cfg.maxInflight
  {}

  lemma SomeActive(s: State)
    ensures ActiveIds(s) != {} <==> exists id :: id in s.requests && Active(s.requests[id].phase)
  {
    forall id | id in s.requests && Active(s.requests[id].phase) ensures id in ActiveIds(s) {}
    assert forall id | id in ActiveIds(s) :: id in s.requests && Active(s.requests[id].phase);
  }

  lemma SomeInflight(s: State)
    ensures InflightIds(s) != {} <==> exists id :: id in s.requests && Inflight(s.requests[id].phase)
  {
    forall id | id in s.requests && Inflight(s.requests[id].phase) ensures id in InflightIds(s) {}
    assert forall id | id in InflightIds(s) :: id in s.requests && Inflight(s.requests[id].phase);
  }

  // ---------- What lapses ----------

  /** Whether the request is, at this time, on its way under the bridge. */
  ghost predicate OnItsWay(r: Request, bridge: string, now: int) {
    r.bridge == bridge && Inflight(r.phase) && now < r.deadline
  }

  lemma InflightAfter(s: State, bridge: string, now: int)
    ensures InflightOn(ExpireRequests(s, now), bridge) == set id | id in s.requests && OnItsWay(s.requests[id], bridge, now)
  {}

  /** A bridge lapses exactly when its lease is over and nothing is on its way under it. */
  lemma LapsesIff(s: State, now: int)
    requires s.bridge != ""
    ensures Expire(s, now).bridge == ""
            <==> s.lease.Some? && s.lease.value <= now
                 && forall id | id in s.requests :: !OnItsWay(s.requests[id], s.bridge, now)
    ensures Expire(s, now).bridge != "" ==> Expire(s, now).bridge == s.bridge && Expire(s, now).lease == s.lease
  {
    InflightAfter(s, s.bridge, now);
    var left := InflightOn(ExpireRequests(s, now), s.bridge);
    assert (exists id :: id in left) <==> left != {};
    assert forall id :: id in left <==> id in s.requests && OnItsWay(s.requests[id], s.bridge, now);
  }

  /** What a lapsed bridge leaves behind: its active requests wait for the next one, and know why. */
  lemma LapsedLeaves(s: State, now: int, id: string)
    requires s.bridge != "" && Expire(s, now).bridge == "" && id in s.requests
    requires Active(s.requests[id].phase) && s.requests[id].bridge == s.bridge && now < s.requests[id].deadline
    ensures var r := Expire(s, now).requests[id];
            && r.bridge == "" && r.resumeReason == "AGENT_BRIDGE_STALE"
            && r.phase == s.requests[id].phase && r.deadline == s.requests[id].deadline && r.delivery == s.requests[id].delivery
    ensures Expire(s, now).lease == None && Expire(s, now).lastState == Offline
  {}

  /** A receipt is kept exactly until it expires. */
  lemma ReceiptsKeptIff(s: State, now: int, id: string)
    ensures id in Refresh(s, now).receipts <==> id in s.receipts && now < s.receipts[id].expires
    ensures id in Refresh(s, now).receipts ==> Refresh(s, now).receipts[id] == s.receipts[id]
  {}

  /** A request is timed out exactly when it is active and its deadline is reached; any other stays what it was. */
  lemma TimesOutIff(s: State, now: int, id: string)
    requires id in s.requests
    ensures var r := ExpireRequests(s, now).requests[id];
            if Active(s.requests[id].phase) && s.requests[id].deadline <= now
            then r.phase == TimedOut && r.code == "AGENT_REQUEST_TIMEOUT" && r.done && r.previous == Some(s.requests[id].phase)
            else r == s.requests[id]
  {}

  // ---------- Opening and closing ----------

  /** An active request as a new bridge finds it: bound to it, in time again, and with a reason if it was delivered before. */
  ghost predicate Rebinds(before: Request, after: Request, bridge: string, deadline: int) {
    if !Active(before.phase) then after == before else
      && after.bridge == bridge && after.deadline == deadline && after.phase == before.phase && after.delivery == before.delivery
      && after.conversation == before.conversation && after.payload == before.payload
      && (before.delivery > 0 && before.resumeReason == "" ==> after.resumeReason == "bridge_resumed")
      && (before.delivery == 0 || before.resumeReason != "" ==> after.resumeReason == before.resumeReason)
  }

  /** The state in which Open binds what is left to the new bridge. */
  function Binding(e: State, generation: string): State {
    e.(bridge := generation, ledger := e.ledger.(bridges := e.ledger.bridges + {generation}),
       requests := map id | id in e.requests :: Rebound(e.requests[id], generation))
  }

  lemma BindsAll(e: State, generation: string, now: int)
    requires generation != ""
    ensures var t := Heartbeat(TouchBridge(Binding(e, generation), now), now);
            && t.requests.Keys == e.requests.Keys && t.bridge == generation && t.lease == Some(now + e.cfg.bridgeLease)
            && (forall id | id in e.requests ::
                  Rebinds(e.requests[id], t.requests[id], generation, now + e.cfg.requestTimeout))
            && t.queue == e.queue && t.lastHeartbeat == Some(now)
  {}

  lemma OpenedAnew(s: State, now: int, generation: string)
    requires !s.closed && Expire(s, now).bridge == ""
    ensures var e := Expire(s, now); var (t, reply) := Open(s, now, generation);
            var beating := Heartbeat(TouchBridge(Binding(e, generation), now), now);
            && t.requests == beating.requests && t.bridge == beating.bridge && t.lease == beating.lease && t.queue == beating.queue
            && t.idleCount == 0 && t.lastReported == 0 && t.lastState == Ready
            && t.notify == e.notify + 1 && t.revision == e.revision + 1
            && reply == Opened(ActiveIds(e) != {}, s.cfg.maxInflight, t.revision)
  {}

  /** Opening without an open bridge: a new one, with a full lease, that takes over every active request. */
  lemma OpensAnew(s: State, now: int, generation: string)
    requires !s.closed && generation != "" && Expire(s, now).bridge == ""
    ensures var e := Expire(s, now); var (t, reply) := Open(s, now, generation);
            && t.bridge == generation && t.lease == Some(now + e.cfg.bridgeLease) && t.requests.Keys == e.requests.Keys
            && (forall id | id in e.requests ::
                  Rebinds(e.requests[id], t.requests[id], generation, now + e.cfg.requestTimeout))
            && t.queue == e.queue && reply.Opened? && reply.maxInflight == s.cfg.maxInflight && reply.revision == t.revision
            && t.idleCount == 0 && t.lastReported == 0 && t.lastState == Ready
            && t.notify == e.notify + 1 && t.revision == e.revision + 1
            && (reply.resumed <==> exists id :: id in e.requests && Active(e.requests[id].phase))
  {
    var e := Expire(s, now);
    BindsAll(e, generation, now);
    SomeActive(e);
    OpenedAnew(s, now, generation);
  }

  /** Nothing opens on a closed broker, and an exchange begins only under an open bridge, which it is told. */
  lemma OpenOnly(s: State, now: int, generation: string)
    ensures s.closed ==> Open(s, now, generation) == (s, OpenFailed("AGENT_BROKER_CLOSED"))
    ensures var e := Refresh(s, now);
            Begin(s, now) == (e, if e.closed then Err("AGENT_BROKER_CLOSED")
                                 else if e.bridge == "" then Err("AGENT_BRIDGE_NOT_ACTIVE") else Ok(e.bridge))
  {}

  /** Opening with a bridge open renews that one and binds nothing to the new name. */
  lemma OpensAgain(s: State, now: int, generation: string)
    requires !s.closed && Expire(s, now).bridge != ""
    ensures var e := Expire(s, now); var (t, reply) := Open(s, now, generation);
            && t.bridge == e.bridge && t.lease == Some(now + e.cfg.bridgeLease) && t.ledger == e.ledger
            && reply == Opened(true, s.cfg.maxInflight, e.revision)
  {}

  /** Closing leaves every active request of the bridge waiting, where and as it was, for the next one. */
  lemma ClosesIff(s: State, now: int)
    ensures var e := Expire(s, now); var (t, reply) := Close(s, now);
            && (reply == BridgeClosed <==> !e.closed && e.bridge != "")
            && (reply == NoActiveBridge <==> !e.closed && e.bridge == "")
            && (e.closed ==> reply == CloseFailed("AGENT_BROKER_CLOSED"))
            && (reply != BridgeClosed ==> t == e)
            && (reply == BridgeClosed ==>
                  && t.bridge == "" && t.lease == None && t.queue == e.queue && t.requests.Keys == e.requests.Keys
                  && t.revision == e.revision + 1 && t.notify == e.notify + 1 && t.lastState == Offline
                  && forall id | id in e.requests ::
                       var before, after := e.requests[id], t.requests[id];
                       if Active(before.phase) && before.bridge == e.bridge then
                         && after.bridge == "" && after.phase == before.phase && after.deadline == before.deadline
                         && after.resumeReason == "AGENT_BRIDGE_CLOSED" && after.delivery == before.delivery
                       else after == before)
  {}

  /** A beat renews the lease and the deadlines of the bridge's active requests, and touches no other. */
  lemma BeatRenews(s: State, now: int, id: string)
    requires s.bridge != "" && id in s.requests
    ensures var t := Heartbeat(s, now);
            && t.lease == Some(now + s.cfg.bridgeLease) && t.lastHeartbeat == Some(now) && id in t.requests
            && (Active(s.requests[id].phase) && s.requests[id].bridge in {"", s.bridge} ==>
                  && t.requests[id].deadline == now + s.cfg.requestTimeout && t.requests[id].bridge == s.bridge
                  && t.requests[id].phase == s.requests[id].phase)
            && (!Active(s.requests[id].phase) || s.requests[id].bridge !in {"", s.bridge} ==> t.requests[id] == s.requests[id])
  {}

  /** A tick renews exactly while a bridge is open and some request is active, and otherwise lets lapse what is due. */
  lemma TicksIff(s: State, now: int)
    requires !s.closed
    ensures s.bridge != "" && (exists id :: id in s.requests && Active(s.requests[id].phase)) ==> Tick(s, now) == Heartbeat(s, now)
    ensures s.bridge == "" || !(exists id :: id in s.requests && Active(s.requests[id].phase)) ==> Tick(s, now) == Expire(s, now)
  {
    SomeActive(s);
  }

  // ---------- Admission ----------

  /** The request that an admitted conversation becomes, with the body for the bridge and its size. */
  ghost predicate IsNew(r: Request, c: Conversation, body: Fields, bytes: nat, bridge: string, now: int, deadline: int) {
    && r.conversation == c && r.payload == body && r.payloadBytes == bytes && r.bridge == bridge
    && r.phase == Queued && r.delivery == 0 && !r.done && r.resumeReason == "" && r.code == ""
    && r.created == now && r.deadline == deadline
  }

  /** From e to t one request was admitted, at the end of the queue. */
  ghost predicate Admits(e: State, t: State, id: string, c: Conversation, body: Fields, bytes: nat, now: int) {
    && t.queue == e.queue + [id] && t.requests.Keys == e.requests.Keys + {id}
    && t.revision == e.revision + 1 && t.notify == e.notify + 1 && t.lastState == Lifecycle(Queued)
    && IsNew(t.requests[id], c, body, bytes, e.bridge, now, now + e.cfg.requestTimeout)
    && forall other | other in e.requests && other != id :: t.requests[other] == e.requests[other]
  }

  lemma AdmittedAdmits(e: State, id: string, c: Conversation, body: Fields, bytes: nat, now: int)
    ensures Admits(e, Admitted(e, id, c, body, bytes, now), id, c, body, bytes, now)
  {}

  lemma PayloadIs(c: Conversation)
    ensures Payload(c) == match Bridge.EncodeBridgeRequest(c)
                          case Err(code) => Err(code)
                          case Ok(body) => Ok((body, Text.Utf8Len(Print(Object(body)))))
  {}

  lemma AdmitsWith(e: State, now: int, id: string, c: Conversation, payload: Result<(Fields, nat)>)
    ensures var (t, reply) := AdmitWith(e, now, id, c, payload);
            match payload
            case Err(code) => reply == Err(code) && t == e
            case Ok((body, bytes)) =>
              if bytes > e.cfg.maxBatchBytes then reply == Err("AGENT_REQUEST_TOO_LARGE") && t == e
              else reply == Ok(now + e.cfg.requestTimeout) && Admits(e, t, id, c, body, bytes, now)
  {
    if payload.Ok? { AdmittedAdmits(e, id, c, payload.value.0, payload.value.1, now); }
  }

  lemma EnqueueUnfolds(s: State, now: int, id: string, c: Conversation, payload: Result<(Fields, nat)>)
    requires !s.closed && Expire(s, now).bridge != "" && |ActiveIds(Expire(s, now))| < s.cfg.maxPending
    requires payload == Payload(c)
    ensures Enqueue(s, now, id, c) == AdmitWith(Expire(s, now), now, id, c, payload)
  {}

  lemma EnqueueRefuses(s: State, now: int, id: string, c: Conversation)
    ensures s.closed ==> Enqueue(s, now, id, c) == (s, Err("AGENT_BROKER_CLOSED"))
    ensures !s.closed && Expire(s, now).bridge == "" ==> Enqueue(s, now, id, c) == (Expire(s, now), Err("AGENT_BRIDGE_UNAVAILABLE"))
    ensures !s.closed && Expire(s, now).bridge != "" && |ActiveIds(Expire(s, now))| >= s.cfg.maxPending ==>
              Enqueue(s, now, id, c) == (Expire(s, now), Err("AGENT_BUSY"))
  {}

  /** Whether and why a conversation is refused, given its body for the bridge: the first of these that applies. */
  ghost function Refusal(s: State, now: int, body: Result<Fields>): Option<string> {
    var e := Expire(s, now);
    if s.closed then Some("AGENT_BROKER_CLOSED")
    else if e.bridge == "" then Some("AGENT_BRIDGE_UNAVAILABLE")
    else if |ActiveIds(e)| >= s.cfg.maxPending then Some("AGENT_BUSY")
    else match body
      case Err(code) => Some(code)
      case Ok(fields) => if Text.Utf8Len(Print(Object(fields))) > s.cfg.maxBatchBytes then Some("AGENT_REQUEST_TOO_LARGE") else None
  }

  ghost predicate Answers(s: State, t: State, reply: Result<int>, now: int, id: string, c: Conversation, body: Result<Fields>) {
    match Refusal(s, now, body)
    case Some(code) => reply == Err(code) && t == if s.closed then s else Expire(s, now)
    case None =>
      && reply == Ok(now + s.cfg.requestTimeout)
      && body.Ok? && Admits(Expire(s, now), t, id, c, body.value, Text.Utf8Len(Print(Object(body.value))), now)
  }

  lemma AnswersErr(s: State, now: int, id: string, c: Conversation, code: string)
    requires !s.closed && Expire(s, now).bridge != "" && |ActiveIds(Expire(s, now))| < s.cfg.maxPending
    ensures var (t, reply) := AdmitWith(Expire(s, now), now, id, c, Err(code)); Answers(s, t, reply, now, id, c, Err(code))
  {}

  lemma AnswersOk(s: State, now: int, id: string, c: Conversation, body: Fields, bytes: nat)
    requires !s.closed && Expire(s, now).bridge != "" && |ActiveIds(Expire(s, now))| < s.cfg.maxPending
    requires bytes == Text.Utf8Len(Print(Object(body)))
    ensures var (t, reply) := AdmitWith(Expire(s, now), now, id, c, Ok((body, bytes))); Answers(s, t, reply, now, id, c, Ok(body))
  {
    AdmitsWith(Expire(s, now), now, id, c, Ok((body, bytes)));
  }

  lemma AnswersFrom(s: State, now: int, id: string, c: Conversation, body: Result<Fields>, payload: Result<(Fields, nat)>)
    requires !s.closed && Expire(s, now).bridge != "" && |ActiveIds(Expire(s, now))| < s.cfg.maxPending
    requires payload == match body case Err(code) => Err(code) case Ok(fields) => Ok((fields, Text.Utf8Len(Print(Object(fields)))))
    ensures var (t, reply) := AdmitWith(Expire(s, now), now, id, c, payload); Answers(s, t, reply, now, id, c, body)
  {
    match payload
    case Err(code) => AnswersErr(s, now, id, c, code);
    case Ok((fields, bytes)) => AnswersOk(s, now, id, c, fields, bytes);
  }

  lemma AnswersRefused(s: State, now: int, id: string, c: Conversation, body: Result<Fields>)
    requires s.closed || Expire(s, now).bridge == "" || |ActiveIds(Expire(s, now))| >= s.cfg.maxPending
    ensures var (t, reply) := Enqueue(s, now, id, c); Answers(s, t, reply, now, id, c, body)
  {
    EnqueueRefuses(s, now, id, c);
  }

  /** A conversation is admitted exactly when nothing refuses it; it then waits at the end of the queue. */
  lemma AdmitsIff(s: State, now: int, id: string, c: Conversation)
    ensures var (t, reply) := Enqueue(s, now, id, c); Answers(s, t, reply, now, id, c, Bridge.EncodeBridgeRequest(c))
  {
    if s.closed || Expire(s, now).bridge == "" || |ActiveIds(Expire(s, now))| >= s.cfg.maxPending {
      AnswersRefused(s, now, id, c, Bridge.EncodeBridgeRequest(c));
    } else {
      PayloadIs(c);
      EnqueueUnfolds(s, now, id, c, Payload(c));
      AnswersFrom(s, now, id, c, Bridge.EncodeBridgeRequest(c), Payload(c));
    }
  }

  // ---------- Progress ----------

  /** A note counts exactly when it says something of a live request: that request is in time again. */
  lemma NoteCounts(s: State, bridge: string, p: Progress, now: int)
    ensures var id, message := Text.Trim(p.requestId), Text.Trim(p.message);
            var t := AcceptProgressOne(s, bridge, p, now);
            if id != "" && message != "" && id in s.requests && s.requests[id].bridge == bridge && Active(s.requests[id].phase) then
              && t.lastProgress == message && t.requests.Keys == s.requests.Keys
              && t.revision == (if s.requests[id].phase == Claimed then s.revision + 1 else s.revision)
              && t.requests[id].deadline == now + s.cfg.requestTimeout && t.requests[id].delivery == s.requests[id].delivery
              && t.requests[id].phase == (if s.requests[id].phase == Claimed then Running else s.requests[id].phase)
              && forall other | other in s.requests && other != id :: t.requests[other] == s.requests[other]
            else t == s
  {}

  /** The note says something of the request. */
  ghost predicate SpeaksOf(p: Progress, id: string) {
    Text.Trim(p.requestId) == id && Text.Trim(p.message) != ""
  }

  /** Some note in the list does. */
  ghost predicate Noted(ps: seq<Progress>, id: string) {
    exists k :: 0 <= k < |ps| && SpeaksOf(ps[k], id)
  }

  lemma NotedMore(ps: seq<Progress>, id: string)
    requires ps != []
    ensures Noted(ps, id) <==> Noted(ps[..|ps| - 1], id) || SpeaksOf(ps[|ps| - 1], id)
  {
    var front := ps[..|ps| - 1];
    assert forall k | 0 <= k < |front| :: front[k] == ps[k];
  }

  /** What a list of notes does: exactly the live requests that some note speaks of are in time again. */
  lemma {:induction false} NotesCount(s: State, bridge: string, ps: seq<Progress>, now: int, id: string)
    requires id != "" && id in s.requests
    ensures var t := AcceptProgress(s, bridge, ps, now);
            && t.requests.Keys == s.requests.Keys && t.cfg == s.cfg && t.lease == s.lease
            && (if Live(s, id, bridge) && Noted(ps, id) then
                  && t.requests[id].deadline == now + s.cfg.requestTimeout && t.requests[id].bridge == bridge
                  && Active(t.requests[id].phase) && t.requests[id].delivery == s.requests[id].delivery
                else t.requests[id] == s.requests[id])
    decreases |ps|
  {
    if ps != [] {
      var n := |ps| - 1;
      NotesCount(s, bridge, ps[..n], now, id);
      NotedMore(ps, id);
      NoteCounts(AcceptProgress(s, bridge, ps[..n], now), bridge, ps[n], now);
    }
  }

  /** An exchange's notes are taken after its responses, and count for what those leave live. */
  lemma SubmitTakesBoth(s: State, bridge: string, rs: seq<Response>, ps: seq<Progress>, now: int, id: string)
    requires id != "" && id in AcceptAll(s, bridge, rs, now).state.requests
    ensures var mid, t := AcceptAll(s, bridge, rs, now).state, Submit(s, bridge, Unsent(rs, ps), now).state;
            && id in t.requests
            && (Live(mid, id, bridge) && Noted(ps, id) ==> t.requests[id].deadline == now + mid.cfg.requestTimeout)
            && (!Live(mid, id, bridge) || !Noted(ps, id) ==> t.requests[id] == mid.requests[id])
  {
    NotesCount(AcceptAll(s, bridge, rs, now).state, bridge, ps, now, id);
  }

  // ---------- The lease ----------

  lemma AcceptLease(s: State, bridge: string, j: Judgement, now: int)
    ensures Accept(s, bridge, j, now).state.lease == s.lease && Accept(s, bridge, j, now).state.cfg == s.cfg
  {}

  lemma {:induction false} AcceptAllLease(s: State, bridge: string, rs: seq<Response>, now: int)
    ensures AcceptAll(s, bridge, rs, now).state.lease == s.lease && AcceptAll(s, bridge, rs, now).state.cfg == s.cfg
    decreases |rs|
  {
    if rs != [] {
      var n := |rs| - 1;
      AcceptAllLease(s, bridge, rs[..n], now);
      AcceptLease(AcceptAll(s, bridge, rs[..n], now).state, bridge, Judge(rs[n]), now);
    }
  }

  lemma {:induction false} ProgressLease(s: State, bridge: string, ps: seq<Progress>, now: int)
    ensures AcceptProgress(s, bridge, ps, now).lease == s.lease && AcceptProgress(s, bridge, ps, now).cfg == s.cfg
    decreases |ps|
  {
    if ps != [] { ProgressLease(s, bridge, ps[..|ps| - 1], now); }
  }

  lemma {:induction false} RedeliverLease(b: Batch, ids: seq<string>, capacity: int, now: int)
    requires forall id | id in ids :: id in b.state.requests
    ensures Redeliver(b, ids, capacity, now).state.lease == b.state.lease && Redeliver(b, ids, capacity, now).state.cfg == b.state.cfg
    decreases |ids|
  {
    if ids != [] && Fits(b, ids[0], capacity) { RedeliverLease(Append(b, ids[0], now), ids[1..], capacity, now); }
  }

  lemma {:induction false} DrainLease(b: Batch, bridge: string, capacity: int, inflight: int, now: int)
    ensures Drain(b, bridge, capacity, inflight, now).state.lease == b.state.lease && Drain(b, bridge, capacity, inflight, now).state.cfg == b.state.cfg
    decreases |b.state.queue|
  {
    if |b.entries| < capacity && inflight < b.state.cfg.maxInflight && b.state.queue != [] {
      var id := b.state.queue[0];
      var popped := PopQueue(b.state);
      if Discardable(b.state, id, bridge) {
        DrainLease(b.(state := popped), bridge, capacity, inflight, now);
      } else if b.state.requests[id].deadline <= now {
        DrainLease(b.(state := Finish(popped, id, TimedOut, TIMEOUT, NO_ANSWER)), bridge, capacity, inflight, now);
      } else if b.bytes + b.state.requests[id].payloadBytes <= b.state.cfg.maxBatchBytes {
        DrainLease(Append(b.(state := Claim(popped, id, bridge)), id, now), bridge, capacity, inflight + 1, now);
      }
    }
  }

  lemma NextBatchLease(s: State, bridge: string, capacity: int, now: int)
    ensures NextBatch(s, bridge, capacity, now).state.lease == s.lease && NextBatch(s, bridge, capacity, now).state.cfg == s.cfg
  {
    var e := ExpireRequests(s, now);
    var inflight := Text.Sorted(InflightOn(e, bridge), CreationOrder(e.requests));
    RedeliverLease(Batch(e, [], 0), inflight, capacity, now);
    DrainLease(Redeliver(Batch(e, [], 0), inflight, capacity, now), bridge, capacity, |inflight|, now);
  }

  lemma SubmitLease(s: State, bridge: string, sub: Submission, now: int)
    ensures Submit(s, bridge, sub, now).state.lease == s.lease && Submit(s, bridge, sub, now).state.cfg == s.cfg
  {
    if sub.Unsent? {
      AcceptAllLease(s, bridge, sub.responses, now);
      ProgressLease(AcceptAll(s, bridge, sub.responses, now).state, bridge, sub.progress, now);
    }
  }

  lemma ConcludeLease(b: Batch, items: seq<Item>, followup: bool, now: int)
    requires b.state.lease == Some(now + b.state.cfg.bridgeLease)
    ensures Conclude(b, items, followup, now).0.lease == b.state.lease
  {}

  lemma TurnParts(s: State, bridge: string, capacity: int, sub: Submission, now: int)
    requires RequireBridge(Refresh(s, now), bridge).None?
    ensures var taken := Submit(TouchBridge(Refresh(s, now), now), bridge, sub, now);
            Turn(s, bridge, capacity, sub, now) ==
              Conclude(NextBatch(taken.state, bridge, capacity, now), taken.items, taken.followup, now)
  {}

  /** Every pass under the open bridge renews its lease, whatever it brings and is given. */
  lemma PassRenewsLease(s: State, bridge: string, capacity: int, sub: Submission, now: int)
    requires RequireBridge(Refresh(s, now), bridge).None?
    ensures Turn(s, bridge, capacity, sub, now).0.lease == Some(now + s.cfg.bridgeLease)
  {
    var e := TouchBridge(Refresh(s, now), now);
    RefreshTouched(s, bridge, now);
    TurnParts(s, bridge, capacity, sub, now);
    SubmitLease(e, bridge, sub, now);
    ServedLease(Submit(e, bridge, sub, now), bridge, capacity, now);
  }

  lemma RefreshTouched(s: State, bridge: string, now: int)
    requires RequireBridge(Refresh(s, now), bridge).None?
    ensures TouchBridge(Refresh(s, now), now).lease == Some(now + s.cfg.bridgeLease) && TouchBridge(Refresh(s, now), now).cfg == s.cfg
  {}

  lemma ServedLease(taken: AcceptedAll, bridge: string, capacity: int, now: int)
    requires taken.state.lease == Some(now + taken.state.cfg.bridgeLease)
    ensures Conclude(NextBatch(taken.state, bridge, capacity, now), taken.items, taken.followup, now).0.lease == taken.state.lease
  {
    NextBatchLease(taken.state, bridge, capacity, now);
    ConcludeLease(NextBatch(taken.state, bridge, capacity, now), taken.items, taken.followup, now);
  }

  // ---------- Reports ----------

  /** The idle count goes up exactly when an exchange ends without requests and nothing has changed since the last report. */
  lemma IdleIff(s: State, kind: Kind, items: seq<Item>, entries: seq<Entry>)
    ensures var (t, output) := Report(s, kind, items, entries);
            && (output.activity.changed <==> s.revision != s.lastReported) && t.lastReported == s.revision
            && output.activity.idleCount == t.idleCount
            && (kind == NoRequest && s.revision == s.lastReported ==> t.idleCount == s.idleCount + 1)
            && (kind != NoRequest || s.revision != s.lastReported ==> t.idleCount == 0)
  {}

  /** An exchange that ends by its timer brings the results it waited with, under its own bridge only. */
  lemma WaitEnds(s: State, bridge: string, items: seq<Item>, now: int)
    ensures var e := Expire(s, now); var (t, reply) := WaitOver(s, bridge, items, now);
            if !e.closed && e.bridge != "" && bridge == e.bridge then
              && reply.Reply? && reply.output.kind == NoRequest && reply.output.items == items && reply.output.entries == []
              && t.requests == e.requests && t.lease == Some(now + e.cfg.bridgeLease)
            else
              && t == e
              && reply == Failed(if e.closed then "AGENT_BROKER_CLOSED" else if e.bridge == "" then "AGENT_BRIDGE_NOT_ACTIVE"
                                 else "AGENT_BRIDGE_STALE_OPERATION")
  {}

  /** The bridge is shown busy exactly while it is open and a request is in flight. */
  lemma BusyIff(s: State, now: int)
    ensures var (e, shot) := TakeSnapshot(s, now);
            && (shot.bridge == BridgeOffline <==> e.bridge == "")
            && (shot.bridge == BridgeBusy <==> e.bridge != "" && exists id :: id in e.requests && Inflight(e.requests[id].phase))
            && shot.pending == |set id | id in e.requests && e.requests[id].phase == Queued|
            && shot.claimed == |set id | id in e.requests && Inflight(e.requests[id].phase)|
            && shot.completed == s.completed
  {
    var e := Refresh(s, now);
    SomeInflight(e);
    assert QueuedIds(e) == set id | id in e.requests && e.requests[id].phase == Queued;
    assert InflightIds(e) == set id | id in e.requests && Inflight(e.requests[id].phase);
    assert |InflightIds(e)| > 0 <==> InflightIds(e) != {};
  }

  // ---------- Forgetting ----------

  /** What stays of a queue without one id: every other entry, in its order. */
  lemma {:induction false} WithoutOne(queue: seq<string>, id: string)
    ensures id !in Without(queue, id) && forall other | other != id :: multiset(Without(queue, id))[other] == multiset(queue)[other]
    ensures id !in queue ==> Without(queue, id) == queue
  {
    if queue != [] {
      WithoutOne(queue[1..], id);
      assert queue == [queue[0]] + queue[1..];
    }
  }

  lemma {:induction false} WithoutKeepsOrder(a: seq<string>, b: seq<string>, id: string)
    ensures Without(a + b, id) == Without(a, id) + Without(b, id)
  {
    if a == [] {
      assert a + b == b;
    } else {
      assert (a + b)[0] == a[0] && (a + b)[1..] == a[1..] + b;
      WithoutKeepsOrder(a[1..], b, id);
    }
  }

  /** Giving up on a request ends it, if it is still active, as the waiter says, and takes it out; no other is touched. */
  lemma GivenUp(s: State, id: string, phase: Phase, code: string)
    requires id in s.requests
    ensures var t := Abandon(s, id, phase, code);
            && t.requests == s.requests - {id} && t.queue == Without(s.queue, id)
            && (Active(s.requests[id].phase) ==>
                  && id in t.ledger.ended && t.ledger.ended[id] == phase && t.lastState == Lifecycle(phase)
                  && t.lastError == code && t.notify == s.notify + 1)
            && (!Active(s.requests[id].phase) ==> t.ledger == s.ledger && t.notify == s.notify)
  {}
}
