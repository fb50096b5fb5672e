/** Exactly which answers the broker accepts, and why it refuses the others. */
module BrokerAnswers {
  import opened Wrappers
  import opened Json
  import opened Canonical
  import opened BrokerState
  import opened BrokerInvariant
  import opened BrokerReplay
  import Bridge
  import OpenAI
  import Text

  /** Every call is of a tool that the conversation declares. */
  ghost predicate CallsDeclared(a: Completion, c: Conversation) {
    forall call | call in a.toolCalls :: exists tool :: tool in c.tools && tool.name == call.name
  }

  /** Where JSON was asked for, the content is JSON. */
  ghost predicate InAskedFormat(a: Completion, c: Conversation) {
    c.format.kind == "json_object" || c.format.kind == "json_schema" ==> Parse(Text.Trim(a.content)).Some?
  }

  /** The event, if one is named, says whether the answer calls for tools. */
  ghost predicate EventFits(event: string, a: Completion) {
    || Text.Trim(event) == ""
    || (Text.Trim(event) == "tool_call" && a.finishReason == "tool_calls")
    || (Text.Trim(event) == "completion" && a.finishReason != "tool_calls")
  }

  /** What a live request demands of an answer, and the code of the first demand that is not met. */
  ghost function Objection(a: Completion, c: Conversation, event: string): Option<string> {
    if !CallsDeclared(a, c) then
      Some(if c.tools == [] then "AGENT_TOOL_CALL_UNMAPPABLE" else "AGENT_TOOL_CALL_UNDECLARED")
    else if !InAskedFormat(a, c) then Some("AGENT_RESPONSE_JSON_INVALID")
    else if !EventFits(event, a) then Some("AGENT_RESPONSE_EVENT_MISMATCH")
    else None
  }

  lemma ToolsChecked(a: Completion, c: Conversation)
    ensures Bridge.ValidateCompletionTools(a.toolCalls, c.tools).None? <==> CallsDeclared(a, c)
    ensures !CallsDeclared(a, c) ==>
              (Bridge.ValidateCompletionTools(a.toolCalls, c.tools)
               == Some(if c.tools == [] then "AGENT_TOOL_CALL_UNMAPPABLE" else "AGENT_TOOL_CALL_UNDECLARED"))
  {
    forall call | call in a.toolCalls
      ensures OpenAI.HasTool(c.tools, call.name) <==> exists tool :: tool in c.tools && tool.name == call.name
    {}
    if a.toolCalls != [] { assert a.toolCalls[0] in a.toolCalls; }
  }

  lemma FormatChecked(a: Completion, c: Conversation)
    ensures Bridge.EnforceResponseFormat(c.format, a.content)
            == if InAskedFormat(a, c) then None else Some("AGENT_RESPONSE_JSON_INVALID")
  {}

  lemma RequestChecked(a: Completion, c: Conversation)
    ensures Bridge.RequestRefuses(Some(c), a.toolCalls, a.content)
            == if CallsDeclared(a, c) && InAskedFormat(a, c) then None else Objection(a, c, "")
  {
    ToolsChecked(a, c);
    FormatChecked(a, c);
  }

  lemma EventChecked(r: Response, a: Completion, c: Conversation)
    requires r.body.Some? && Bridge.DecodeBridgeCompletion(r.body.value, Some(c)) == Ok(a)
    ensures Fit(r, c) == if EventFits(r.event, a) then Ok(a) else Err("AGENT_RESPONSE_EVENT_MISMATCH")
  {}

  lemma Unfit(r: Response, c: Conversation)
    requires r.body.Some? && Bridge.DecodeBridgeCompletion(r.body.value, Some(c)).Err?
    ensures Fit(r, c) == Err(Bridge.DecodeBridgeCompletion(r.body.value, Some(c)).code)
  {}

  lemma FitIff(r: Response, c: Conversation)
    requires Read(r).Readable?
    ensures var a := Read(r).answer;
            Fit(r, c) == (match Objection(a, c, r.event) case Some(code) => Err(code) case None => Ok(a))
  {
    var a := Read(r).answer;
    Bridge.DecodeAgrees(r.body.value, c);
    RequestChecked(a, c);
    if CallsDeclared(a, c) && InAskedFormat(a, c) { EventChecked(r, a, c); } else { Unfit(r, c); }
  }

  /** A readable response, with no receipt yet, to a request that is live under this bridge and in time. */
  ghost predicate Timely(s: State, bridge: string, r: Response, now: int) {
    && Read(r).Readable? && ResponseId(r) !in s.receipts
    && Live(s, ResponseId(r), bridge) && now < s.requests[ResponseId(r)].deadline
  }

  lemma TimelyAccepts(s: State, bridge: string, j: Judgement, now: int)
    requires j.reading.Readable? && j.id !in s.receipts && Live(s, j.id, bridge) && now < s.requests[j.id].deadline
    ensures Accept(s, bridge, j, now) == AcceptLive(s, bridge, j, j.reading.answer, now)
  {}

  lemma LiveVerdict(s: State, bridge: string, j: Judgement, answer: Completion, now: int)
    requires j.id in s.requests
    ensures AcceptLive(s, bridge, j, answer, now).item
            == Item(j.id, match j.fit(s.requests[j.id].conversation) case Ok(_) => CompletedNow case Err(code) => Rejected(code))
  {}

  lemma TimelyVerdict(s: State, bridge: string, r: Response, now: int)
    requires Timely(s, bridge, r, now)
    ensures AcceptOne(s, bridge, r, now).item
            == Item(ResponseId(r), match Objection(Read(r).answer, s.requests[ResponseId(r)].conversation, r.event)
                                   case None => CompletedNow
                                   case Some(code) => Rejected(code))
  {
    var c := s.requests[ResponseId(r)].conversation;
    TimelyAccepts(s, bridge, Judge(r), now);
    LiveVerdict(s, bridge, Judge(r), Read(r).answer, now);
    FitIff(r, c);
  }

  /**
   * Exactly when a response completes its request: when it can be read, no answer was taken yet, the request is live
   * and in time, its calls are of declared tools, its content is in the format asked for, and its event fits.
   */
  lemma AcceptedIff(s: State, bridge: string, r: Response, now: int)
    ensures AcceptOne(s, bridge, r, now).item.verdict == CompletedNow
            <==> Timely(s, bridge, r, now)
                 && CallsDeclared(Read(r).answer, s.requests[ResponseId(r)].conversation)
                 && InAskedFormat(Read(r).answer, s.requests[ResponseId(r)].conversation)
                 && EventFits(r.event, Read(r).answer)
  {
    if Timely(s, bridge, r, now) {
      TimelyVerdict(s, bridge, r, now);
    } else if AcceptOne(s, bridge, r, now).item.verdict == CompletedNow {
      AcceptanceGuards(s, bridge, Judge(r), now);
    }
  }

  /** A refusal that a request's own demands cause leaves it active, to be answered again with a new deadline. */
  lemma RefusedIsRetried(s: State, bridge: string, r: Response, now: int)
    requires Timely(s, bridge, r, now)
    requires Objection(Read(r).answer, s.requests[ResponseId(r)].conversation, r.event).Some?
    ensures var t, id := AcceptOne(s, bridge, r, now).state, ResponseId(r);
            && id in t.requests && t.requests[id].phase == FailedRetryable && t.requests[id].bridge == bridge
            && t.requests[id].deadline == now + s.cfg.requestTimeout && t.receipts == s.receipts
            && t.requests[id].code == Objection(Read(r).answer, s.requests[id].conversation, r.event).value
            && t.completed == s.completed && t.ledger == s.ledger && t.notify == s.notify + 1 && t.revision == s.revision + 1
            && t.requests[id].resumeReason == "retry_after_error" && t.requests[id].previous == Some(s.requests[id].phase)
  {
    var c := s.requests[ResponseId(r)].conversation;
    TimelyAccepts(s, bridge, Judge(r), now);
    FitIff(r, c);
    RefusedMarks(s, bridge, Judge(r), Read(r).answer, now);
  }

  lemma RefusedMarks(s: State, bridge: string, j: Judgement, answer: Completion, now: int)
    requires Live(s, j.id, bridge) && j.fit(s.requests[j.id].conversation).Err?
    ensures var t := AcceptLive(s, bridge, j, answer, now).state;
            && j.id in t.requests && t.requests[j.id].phase == FailedRetryable && t.requests[j.id].bridge == bridge
            && t.requests[j.id].deadline == now + s.cfg.requestTimeout && t.receipts == s.receipts
            && t.requests[j.id].code == j.fit(s.requests[j.id].conversation).code
            && t.completed == s.completed && t.ledger == s.ledger && t.notify == s.notify + 1 && t.revision == s.revision + 1
            && t.requests[j.id].resumeReason == "retry_after_error" && t.requests[j.id].previous == Some(s.requests[j.id].phase)
  {}

  /** What every other response is told: the first of these that applies. */
  lemma OtherVerdicts(s: State, bridge: string, r: Response, now: int)
    ensures ResponseId(r) == "" || r.body.None? ==>
              AcceptOne(s, bridge, r, now) == Reject(s, ResponseId(r), "AGENT_RESPONSE_INVALID")
    ensures ResponseId(r) != "" && r.body.Some? && Bridge.DecodeBridgeCompletion(r.body.value, None).Err? ==>
              AcceptOne(s, bridge, r, now).item
              == Item(ResponseId(r), Rejected(Bridge.DecodeBridgeCompletion(r.body.value, None).code))
    ensures Read(r).Readable? && ResponseId(r) !in s.receipts && !Timely(s, bridge, r, now) ==>
              AcceptOne(s, bridge, r, now).item == Item(ResponseId(r), Rejected("REQUEST_NO_LONGER_ACTIVE"))
  {}

  // ---------- What the others leave ----------

  lemma CompletedEnds(s: State, bridge: string, j: Judgement, answer: Completion, now: int)
    requires Live(s, j.id, bridge) && j.fit(s.requests[j.id].conversation) == Ok(answer)
    ensures var t := AcceptLive(s, bridge, j, answer, now).state;
            && j.id in t.requests && t.requests[j.id].result == answer && t.requests[j.id].done && t.requests[j.id].code == ""
            && t.requests[j.id].phase == (if answer.finishReason == "tool_calls" then WaitingTool else BrokerState.Completed)
            && t.receipts == s.receipts[j.id := Receipt(bridge, answer, now + s.cfg.receiptTtl)]
            && t.completed == s.completed + 1 && t.notify == s.notify + 1 && t.revision == s.revision + 1
            && t.queue == s.queue && t.bridge == s.bridge
            && (forall other | other in s.requests && other != j.id :: other in t.requests && t.requests[other] == s.requests[other])
  {}

  /**
   * What an accepted answer leaves: its request ended with it, waiting for a tool exactly if it calls for one, and a
   * receipt that lasts its time; every waiter is woken, and nothing else is touched.
   */
  lemma AcceptedLeaves(s: State, bridge: string, r: Response, now: int)
    requires AcceptOne(s, bridge, r, now).item.verdict == CompletedNow
    ensures var t, id := AcceptOne(s, bridge, r, now).state, ResponseId(r);
            && Read(r).Readable?
            && var answer := Read(r).answer;
            && id in t.requests && t.requests[id].result == answer && t.requests[id].done && t.requests[id].code == ""
            && t.requests[id].phase == (if answer.finishReason == "tool_calls" then WaitingTool else BrokerState.Completed)
            && t.receipts == s.receipts[id := Receipt(bridge, answer, now + s.cfg.receiptTtl)]
            && t.completed == s.completed + 1 && t.notify == s.notify + 1 && t.revision == s.revision + 1
            && t.queue == s.queue && t.bridge == s.bridge
            && (forall other | other in s.requests && other != id :: other in t.requests && t.requests[other] == s.requests[other])
  {
    AcceptedIff(s, bridge, r, now);
    TimelyAccepts(s, bridge, Judge(r), now);
    FitIff(r, s.requests[ResponseId(r)].conversation);
    CompletedEnds(s, bridge, Judge(r), Read(r).answer, now);
  }

  lemma ReceiptJudges(s: State, bridge: string, j: Judgement, now: int)
    requires j.reading.Readable? && j.id in s.receipts
    ensures Accept(s, bridge, j, now).state == s
    ensures Accept(s, bridge, j, now).item
            == Item(j.id, if s.receipts[j.id].bridge == bridge && s.receipts[j.id].answer == j.reading.answer then Duplicate
                          else Rejected("AGENT_RESPONSE_CONFLICT"))
  {}

  lemma LateLeaves(s: State, bridge: string, j: Judgement, now: int)
    requires j.reading.Readable? && j.id !in s.receipts && !(Live(s, j.id, bridge) && now < s.requests[j.id].deadline)
    ensures var t := Accept(s, bridge, j, now).state;
            if j.id in s.requests && Active(s.requests[j.id].phase) && s.requests[j.id].deadline <= now then
              && j.id in t.requests && t.requests[j.id].phase == TimedOut && t.requests[j.id].code == "AGENT_REQUEST_TIMEOUT"
              && t.requests[j.id].done && t.notify == s.notify + 1
            else t == s
  {}

  lemma GarbledLeaves(s: State, bridge: string, j: Judgement, now: int)
    requires j.reading.Garbled?
    ensures var t := Accept(s, bridge, j, now).state;
            if Live(s, j.id, bridge) then
              && j.id in t.requests && t.requests[j.id].phase == FailedRetryable && t.requests[j.id].code == j.reading.code
              && t.requests[j.id].deadline == now + s.cfg.requestTimeout && t.requests[j.id].resumeReason == "retry_after_error"
            else t == s
  {}

  /**
   * What every response that is not accepted leaves. One with a receipt leaves nothing changed; so does any other, but
   * for two: a late one ends its request as timed out, and an unreadable one has a live request retried.
   */
  lemma OthersLeave(s: State, bridge: string, r: Response, now: int)
    ensures Read(r).Readable? && ResponseId(r) in s.receipts ==>
              && AcceptOne(s, bridge, r, now).state == s
              && (AcceptOne(s, bridge, r, now).item.verdict == Duplicate
                  <==> s.receipts[ResponseId(r)].bridge == bridge && s.receipts[ResponseId(r)].answer == Read(r).answer)
    ensures Read(r).Readable? && ResponseId(r) !in s.receipts && !Timely(s, bridge, r, now) ==>
              var t, id := AcceptOne(s, bridge, r, now).state, ResponseId(r);
              if id in s.requests && Active(s.requests[id].phase) && s.requests[id].deadline <= now then
                id in t.requests && t.requests[id].phase == TimedOut && t.requests[id].code == "AGENT_REQUEST_TIMEOUT"
              else t == s
    ensures Read(r).Garbled? ==>
              var t, id := AcceptOne(s, bridge, r, now).state, ResponseId(r);
              if Live(s, id, bridge) then
                id in t.requests && t.requests[id].phase == FailedRetryable && t.requests[id].code == Read(r).code
              else t == s
    ensures Read(r).Blank? ==> AcceptOne(s, bridge, r, now).state == s
  {
    var j := Judge(r);
    match j.reading
    case Garbled(_) => GarbledLeaves(s, bridge, j, now);
    case Readable(_) =>
      if j.id in s.receipts { ReceiptJudges(s, bridge, j, now); }
      else if !Timely(s, bridge, r, now) { LateLeaves(s, bridge, j, now); }
    case _ =>
  }
}
