# Verification of the agent bridge

A Dafny model of the protocol core of this repository, with proofs. `dafny verify dfyconfig.toml` checks all of it.

Five parts of the program are modelled.

**The agent broker** stands between local waiters and a remote bridge. `BrokerState` gives each critical section as a
function on states; the class `AgentBroker.Broker` performs the same sections in place, method by method, and every
method is proved to reach the state its function gives. `BrokerRuns` sets the broker among any number of exchanges and
waiters, each of which may be between two of its critical sections, and a clock that never goes back. The laws
(`BrokerLaws`, `BrokerReplay`, `BrokerTiming`, `BrokerLimits`, `BrokerOutcomes`) are about all runs of that system. What
a pass replies, which answers are accepted, what a batch holds and what the other sections do is said a second time
without their functions, by the state before and after, in `BrokerReplies`, `BrokerAnswers`, `BrokerHandouts` and
`BrokerSections`. The state carries a
history, the ledger: admissions in order, claims, endings, closings of `done`, accepted and returned answers, and the
generations ever opened. No critical section reads it; it is there to state what runs keep.
`BrokerSurprises` and `BrokerStalls` hold what one may expect and is false, each with a run that shows it and the exact condition under
which the expectation holds.

**The protocol codec** decodes requests, optimizes them, encodes them for the bridge, decodes completions, and sends
and assembles them in chunks. JSON is a datatype with a concrete printer and parser, proved inverse. `OpenAI`, `Bridge`,
`Optimizer` and `Stream` say what is computed; `Adapter` holds the loops that compute it. `Acceptance`, `Contents`,
`Encodable`, `Condensed`, `StreamRefusals`, `ChunkBodies`, `PrintedJson` and `Spelling` say what that amounts to in terms
of the JSON and the texts given.

**Workspace preparation** runs Git commands, any of which may fail, over an arbitrary acyclic commit graph.

**The tunnel supervisor** restarts a child process under tokens and doubling delays; `Tunnel` has the runs,
`TunnelManager` the class, and `TunnelLimits` counts launches by the times children start and exit.

**Coding sessions** own repositories and run one operation at a time; `Coding` has the runs, `CodingService` the classes,
and `CodingLife` follows a repository from claim to release.

## Findings

Where the code does less than its documentation, or than one may expect. The model follows the code; for each there is
a proved input that shows it, and a proved condition that says exactly when it happens.

| what | source | an input that shows it | exactly when |
|---|---|---|---|
| The lease of a bridge can be shorter than an exchange's wait | internal/v2/agentbroker/broker.go:142-144 | a wait of three minutes and no lease given: `LeaseShorterThanWait` | neither the lease given nor the default exceeds the wait: `LeaseOutlastsWaitIff` |
| `no_request` is reported while a request is active, though the documentation says that none arrived during the wait | internal/v2/agentbroker/broker.go:266-282 | a request arrives just as the wait ends, and `select` takes the timer: `NoRequestWithWork` | some active request is not yet due as the wait ends, which takes a channel already replaced: `NoRequestIff` |
| In-flight requests exceed `MaxInflight` | internal/v2/agentbroker/broker.go:420-427 | with a limit of one, two unreadable answers to requests still queued: `MoreInFlightThanTheLimit` | each response that is refused after finding a queued request adds one: `GrowsIff` |
| An accepted answer reaches nobody | internal/v2/agentbroker/handle.go:51-60 | the waiter reads the deadline before the answer is accepted and gives up after: `AcceptedButLost` | the waiter gives up or disconnects while the answer is kept: `AnswerFate` |
| A request times out under an open bridge whose ticks renew it | internal/v2/agentbroker/handle.go:51-60 | the waiter reads a deadline, stalls until it passes, and gives up though it was renewed: `TimesOutWhileAttended` | its own waiter gives up while it is active: `TimesOutOnlyByItsWaiter`, `GivesUpIff` |
| A repository has two sessions, though the documentation allows one | internal/v2/coding/service.go:197-208 | a session closed before its `Open` returned lets that `Open` take away a later one's marker: `TwoSessionsForOneRepository` | an `Open` returns while another of the same repository prepares: `ReturnExclusiveIff` |
| `Prepare` loses a commit that only a detached HEAD holds | internal/v2/workspace/manager.go:193-215 | notes that name `main` without `refs/heads/`, and `main` rewound between its two fetches: `DetachedHeadCanBeLost` | the notes switch the branch to itself and the remote can be rewound: `DetachedHeadKeptIff`. Notes that `Prepare` wrote never do: `PrefixedNeverSwitchesToItself` |

## Model

| member | source | states |
|---|---|---|
| BrokerLaws.NoLostWakeup | internal/v2/agentbroker/broker.go:251-283 | In every run, an exchange still waiting on the current notify channel has its bridge open, the broker open and no active request: there is nothing it missed |
| BrokerLaws.WorkWakesEveryone | internal/v2/agentbroker/broker.go:263-283 | Conversely, while a request is active, or once its bridge is gone or the broker closed, every waiting exchange can go on |
| BrokerBatch.NextBatchWorks | internal/v2/agentbroker/broker.go:504-585 | With payloads bounded at admission, a batch is empty exactly when no active request is left; it has distinct ids, at most `capacity` of them and at most `MaxBatchBytes` in all, leaves nothing claimed, and keeps the in-flight count within its limit if it was |
| BrokerInvariant.DiscardsNoQueued | internal/v2/agentbroker/broker.go:563-568 | The discard branch of the drain never drops a queued request |
| BrokerSteps.RepliesWell | internal/v2/agentbroker/broker.go:251-262 | A pass that replies returns a bounded batch of distinct requests, or `responses` with none active; so `responses` always reports zero active requests |
| BrokerSteps.ParksIdle | internal/v2/agentbroker/broker.go:233-266 | A pass parks only with its bridge open, the broker open and no request active |
| BrokerRuns.StepOk | internal/v2/agentbroker/broker.go:157-585 | Every critical section, whoever calls it and in whatever order, keeps the invariant and only adds to the history |
| BrokerRuns.RunOk | internal/v2/agentbroker/broker.go:157-585 | So does every run of exchanges, waiters, bridges, heartbeats and clock |
| BrokerSteps.TurnSafe | internal/v2/agentbroker/broker.go:233-265 | One pass of an exchange keeps the invariant and never undoes an outcome |
| BrokerSteps.CollectSafe | internal/v2/agentbroker/handle.go:76-93 | Collecting hands out the accepted answer, at most once, and the request is gone afterwards |
| BrokerLaws.FirstInFirstOut | internal/v2/agentbroker/broker.go:559-583 | Every queued request is in the queue exactly once, the queue is in order of admission, and whatever was taken from it was admitted before all that is left, through any loss and reopening of bridges |
| BrokerLaws.Fence | internal/v2/agentbroker/broker.go:157-195 | Every active request is bound to the open bridge, and to none when none is open |
| BrokerLaws.StalePassFails | internal/v2/agentbroker/broker.go:586-597 | A pass under another generation fails, and what it brought makes no difference: it leaves the broker as a mere look at it would |
| BrokerLaws.GoneForGood | internal/v2/agentbroker/broker.go:705-719 | A generation once gone never comes back in any run |
| BrokerLaws.StaleForever | internal/v2/agentbroker/broker.go:223-242 | Once its bridge is gone, no later pass of an exchange begun under it changes a request of another generation |
| BrokerLaws.AdmittedAddUp | internal/v2/agentbroker/broker.go:442-499 | In every run the admitted requests are the active ones plus the ended ones by kind |
| BrokerLaws.CompletedCounts | internal/v2/agentbroker/broker.go:476-499 | `completed` counts the requests that ended completed or waiting for a tool |
| BrokerLaws.DoneClosesOnce | internal/v2/agentbroker/broker.go:755-765 | `done` closes once for each ended request and for no other |
| BrokerLaws.PendingBound | internal/v2/agentbroker/broker.go:319-321 | Active requests never exceed `MaxPending` |
| BrokerLaws.Conservation | internal/v2/agentbroker/broker.go:755-765 | The books of a whole run: the four statements above hold together |
| BrokerLaws.OutcomesAreFinal | internal/v2/agentbroker/broker.go:442-499 | However a run goes on, a request that has ended stays as it ended, with the answer accepted for it |
| BrokerLaws.ReceivesTheAcceptedAnswer | internal/v2/agentbroker/handle.go:76-93 | A waiter that receives gets exactly the answer that was accepted, which was never handed out before |
| BrokerLaws.AnswerFate | internal/v2/agentbroker/handle.go:76-109 | At each step an accepted answer is handed out exactly when its waiter receives, lost exactly when its waiter gives up or disconnects, and kept otherwise |
| BrokerLaws.LostForGood | internal/v2/agentbroker/handle.go:95-109 | A lost answer is never handed out later in any run |
| BrokerReplay.ReplayChangesNothing | internal/v2/agentbroker/broker.go:429-441 | Repeating a recorded response changes no request, receipt or counter; a different answer is a conflict with no change |
| BrokerReplay.AcceptanceRecorded | internal/v2/agentbroker/broker.go:476-499 | An acceptance finds a live request in time and records a receipt under its own generation with the very answer that is kept: reading a response with or without its request gives the same completion |
| BrokerReplay.ReplayOverRuns | internal/v2/agentbroker/broker.go:429-441 | In every pass of every run after an acceptance and until the receipt expires, a response to that request changes nothing, whatever comes with it; it is told a duplicate if it gives the same answer to the same generation, and a conflict otherwise |
| BrokerReplay.AcceptLocal | internal/v2/agentbroker/broker.go:403-502 | What a response does depends only on the request, receipt and answer of the id it names |
| BrokerReplay.EachAlone | internal/v2/agentbroker/broker.go:403-502 | Among responses with distinct ids each has the outcome it would have alone |
| BrokerReplay.OrderIndependent | internal/v2/agentbroker/broker.go:403-502 | For distinct ids the order of the responses changes no request, receipt, count, follow-up flag or per-response result |
| BrokerReplies.PassReplies | internal/v2/agentbroker/broker.go:251-266 | Which reply a pass gives: requests exactly while one is active; else it waits exactly if it brought nothing or some response was taken, now or before, as a call for tools; else its results at once. One result for each response, and counts that are those of the state left |
| BrokerReplies.WaitsForRequests | internal/v2/agentbroker/broker.go:233-285 | In every run an exchange waits only if it brought nothing or a call for tools, and each later pass of it gives requests exactly if one is active, never its results alone |
| BrokerReplies.FollowupIff | internal/v2/agentbroker/broker.go:442-496 | A follow-up is expected exactly if some response taken, or taken before, calls for tools |
| BrokerAnswers.AcceptedIff | internal/v2/agentbroker/broker.go:410-485 | Exactly when a response completes its request: readable, no receipt yet, the request live under this bridge and in time, every call of a declared tool, JSON content where JSON was asked for, and an event, if named, that fits |
| BrokerAnswers.TimelyVerdict | internal/v2/agentbroker/broker.go:463-485 | Otherwise such a response is refused with the code of the first of these demands that fails |
| BrokerAnswers.RefusedIsRetried | internal/v2/agentbroker/broker.go:464-485 | A request whose answer was refused stays active, marked for retry under that code, with a new deadline and no receipt |
| BrokerAnswers.AcceptedLeaves | internal/v2/agentbroker/broker.go:486-499 | An accepted answer ends its request with it, waiting for a tool exactly if it calls for one, leaves a receipt under its bridge for `ReceiptTTL`, wakes the waiters and touches nothing else |
| BrokerAnswers.OtherVerdicts | internal/v2/agentbroker/broker.go:413-462 | What a response is told that is blank, unreadable, or too late |
| BrokerAnswers.OthersLeave | internal/v2/agentbroker/broker.go:413-462 | Nothing changes, except that a late response times out its request and an unreadable one has a live request retried; a receipt makes it a duplicate exactly if bridge and answer are the same |
| BrokerHandouts.BatchHolds | internal/v2/agentbroker/broker.go:504-585 | What a batch holds, exactly: the requests in flight, oldest first, then those that wait, in order of the queue, of each as many as capacity, in-flight limit and bytes allow and not one fewer; each entry gives the delivery count, the phase before and the reason for handing it out again; no other request is touched |
| BrokerOutcomes.WaiterIsTold | internal/v2/agentbroker/handle.go:76-93 | In every run a waiter whose request is done is told the answer, `AGENT_REQUEST_TIMEOUT`, `AGENT_BROKER_CLOSED`, or that the request is gone, by how it ended, and never just that it failed |
| BrokerSections.LapsesIff | internal/v2/agentbroker/broker.go:679-695 | Once requests are expired, a bridge lapses exactly when its lease is over and no request on its way under it is in time |
| BrokerSections.LapsedLeaves | internal/v2/agentbroker/broker.go:679-719 | The active requests of a lapsed bridge are left as they were, unbound, with the reason noted |
| BrokerSections.OpensAnew | internal/v2/agentbroker/broker.go:157-195 | A new bridge has a full lease and takes over every active request, with a new deadline and, if delivered before, a reason; `resumed` is said exactly if there is one |
| BrokerSections.ClosesIff | internal/v2/agentbroker/broker.go:286-303 | When closing closes a bridge, and that its active requests stay as they are for the next one |
| BrokerSections.AdmitsIff | internal/v2/agentbroker/broker.go:304-344 | A conversation is admitted exactly when the broker is open, a bridge is, there is room, it can be encoded and fits a batch, refused with the code of the first that fails, and then waits at the end of the queue as a request of its own |
| BrokerSections.NotesCount | internal/v2/agentbroker/broker.go:654-677 | A list of notes renews exactly the live requests that some note says something of |
| BrokerSections.TicksIff | internal/v2/agentbroker/broker.go:604-630 | A tick renews exactly while a bridge is open and some request is active |
| BrokerSections.BeatRenews | internal/v2/agentbroker/broker.go:632-652 | Renewing touches exactly the active requests of the bridge |
| BrokerSections.PassRenewsLease | internal/v2/agentbroker/broker.go:233-265 | Every pass under the open bridge renews its lease, whatever it brings or is given |
| BrokerSections.WaitEnds | internal/v2/agentbroker/broker.go:266-282 | An exchange whose wait is over brings the results it waited with, under its own bridge only |
| BrokerSections.IdleIff | internal/v2/agentbroker/broker.go:773-821 | The idle count goes up exactly when an exchange ends without requests and nothing changed since the last report |
| BrokerSections.GivenUp | internal/v2/agentbroker/handle.go:95-109 | Giving up takes out that request alone and ends it, if active, as the waiter says |
| BrokerTiming.AttendedNeverTimesOut | internal/v2/agentbroker/broker.go:604-652 | From any reachable moment at which no waiter is giving up on a live request: while the bridge stays open, ticks come less than `RequestTimeout` apart, and each waiter looks at the clock less than `RequestTimeout` after the last tick before it read its deadline, no request times out |
| BrokerTiming.TimesOutOnlyByItsWaiter | internal/v2/agentbroker/handle.go:51-60 | In every run with the bridge open and ticks less than `RequestTimeout` apart, and nothing asked of waiters, a request times out exactly when its own waiter gives up on it while it is active |
| BrokerTiming.StepTimesOutIff | internal/v2/agentbroker/handle.go:51-60 | The same for each step |
| BrokerTiming.GivesUpIff | internal/v2/agentbroker/handle.go:51-58 | A waiter gives up exactly when the clock has reached the deadline it read, which may have been renewed since |
| BrokerStalls.TimesOutWhileAttended | internal/v2/agentbroker/handle.go:51-60 | A concrete run with the bridge open and ticks less than the timeout apart in which a live request times out: its waiter reads a deadline, stalls, and gives up after that was renewed |
| BrokerTiming.DeadlineBounds | internal/v2/agentbroker/broker.go:632-652 | In every run each active deadline is within `RequestTimeout` of the last renewal, or of the detachment once detached |
| BrokerTiming.DetachedKeepsDeadline | internal/v2/agentbroker/broker.go:679-695 | Until a bridge opens again, a detached request keeps the deadline it had |
| BrokerTiming.DetachedEnds | internal/v2/agentbroker/broker.go:679-695 | A detached request survives at most `RequestTimeout` after the detachment: a bridge that opens later finds none left |
| BrokerLimits.GrowsIff | internal/v2/agentbroker/broker.go:741-753 | Exactly when a response puts one more request in flight, whatever the limit: when it is refused after finding a request still queued |
| BrokerLimits.InflightBound | internal/v2/agentbroker/broker.go:558-583 | As long as no response marks a queued request, in-flight requests never exceed `MaxInflight`, and queued means active and never delivered, through any bridge switches |
| BrokerLimits.DeliveredOnly | internal/v2/agentbroker/broker.go:403-427 | Responses that name only delivered requests mark none that is queued |
| BrokerLimits.ObedientBridgeBound | internal/v2/agentbroker/broker.go:558-583 | So with a bridge that names only what it was given, in-flight requests never exceed `MaxInflight` |
| BrokerSurprises.MoreInFlightThanTheLimit | internal/v2/agentbroker/broker.go:420-427 | A concrete run: two unreadable answers to requests never delivered put both in flight with a limit of one |
| BrokerSurprises.NoRequestWithWork | internal/v2/agentbroker/broker.go:266-282 | A concrete run: a request arrives as the wait ends, and `no_request` is reported with it active |
| BrokerSurprises.NoRequestIff | internal/v2/agentbroker/broker.go:266-282 | A wait that is over reports no active request exactly when every active request has timed out by then, in particular whenever its channel is still current |
| BrokerSurprises.AcceptedButLost | internal/v2/agentbroker/handle.go:51-60 | A concrete run: an answer is accepted, its waiter gives up on it, and no continuation hands it out |
| BrokerSurprises.NeverReturned | internal/v2/agentbroker/handle.go:95-109 | An accepted answer whose request is gone without being handed out is handed out in no continuation |
| BrokerSurprises.LeaseOutlastsWaitIff | internal/v2/agentbroker/broker.go:139-144 | The lease that `New` settles on exceeds the wait exactly when the one given does or the default does |
| BrokerSurprises.LeaseShorterThanWait | internal/v2/agentbroker/broker.go:139-144 | There are settings for which it does not |
| AgentBroker.Broker.constructor | internal/v2/agentbroker/broker.go:123-156 | A new broker has the settled configuration and nothing in it |
| AgentBroker.Broker.Open | internal/v2/agentbroker/broker.go:157-195 | Expires, then renews the open bridge, or binds every active request to the new generation, resets the report and signals: the state `BrokerState.Open` gives |
| AgentBroker.Broker.Close | internal/v2/agentbroker/broker.go:286-303 | Expires, then detaches every request of the bridge: the state and reply `BrokerState.Close` gives |
| AgentBroker.Broker.Enqueue | internal/v2/agentbroker/broker.go:304-344 | Admits with the new id last in the queue, or refuses for the closed broker, no bridge, too many active, an invalid conversation or too large a payload, exactly when `BrokerSections.AdmitsIff` says |
| AgentBroker.Broker.Snapshot | internal/v2/agentbroker/broker.go:345-382 | Reports the pending and in-flight counts after expiry |
| AgentBroker.Broker.Shutdown | internal/v2/agentbroker/broker.go:384-401 | Ends every active request, each once, and closes the bridge |
| AgentBroker.Broker.HeartbeatTick | internal/v2/agentbroker/broker.go:604-630 | One tick: stop when closed, else expire and, with a bridge, renew |
| AgentBroker.Broker.BeginExchange | internal/v2/agentbroker/broker.go:210-224 | The first section of an exchange: which generation it works for |
| AgentBroker.Broker.ExchangePass | internal/v2/agentbroker/broker.go:233-265 | One turn of the exchange loop, performed in place: the state and reply of `BrokerState.Turn`, of which `BrokerReplies.PassReplies` says which of the three replies it is |
| AgentBroker.Broker.ExchangeTimeout | internal/v2/agentbroker/broker.go:269-281 | The section after the wait is over |
| AgentBroker.Broker.AcceptResponsesLocked | internal/v2/agentbroker/broker.go:403-502 | The loop over the responses, performed in place: items, follow-up flag and state of `BrokerState.AcceptAll`, of which `BrokerAnswers.AcceptedIff`, `AcceptedLeaves` and `OthersLeave` say what each response is told and leaves |
| AgentBroker.Broker.AcceptProgressLocked | internal/v2/agentbroker/broker.go:654-677 | The loop over progress notes |
| AgentBroker.Broker.NextBatchLocked | internal/v2/agentbroker/broker.go:504-585 | Redelivers what is in flight, oldest first, then drains the queue: the batch and state of `BrokerState.NextBatch`, of which `BrokerHandouts.BatchHolds` says what it holds |
| AgentBroker.Broker.RedeliverLocked | internal/v2/agentbroker/broker.go:541-557 | The redelivery loop |
| AgentBroker.Broker.DrainLocked | internal/v2/agentbroker/broker.go:558-583 | The loop that pops the queue, discards and claims |
| AgentBroker.Broker.AppendRequestLocked | internal/v2/agentbroker/broker.go:506-540 | Delivers a request if it fits the capacity and the bytes left |
| AgentBroker.Broker.ExpireRequestsLocked | internal/v2/agentbroker/broker.go:689-695 | Times out exactly the active requests that are due, visiting the map in any order |
| AgentBroker.Broker.CleanupReceiptsLocked | internal/v2/agentbroker/broker.go:697-703 | Forgets exactly the receipts that are over |
| AgentBroker.Broker.ExpireBridgeLocked | internal/v2/agentbroker/broker.go:679-687 | Closes a bridge whose lease is over and that holds nothing in flight |
| AgentBroker.Broker.CloseBridgeLocked | internal/v2/agentbroker/broker.go:705-719 | Detaches every active request of the bridge and signals |
| AgentBroker.Broker.HeartbeatLocked | internal/v2/agentbroker/broker.go:632-652 | Renews the lease and the deadline of every active request of the bridge |
| AgentBroker.Broker.MarkRetryableLocked | internal/v2/agentbroker/broker.go:741-753 | Marks a request to be retried, from whatever active phase, and renews its deadline |
| AgentBroker.Broker.FinishLocked | internal/v2/agentbroker/broker.go:755-765 | Ends a request, closing its channel |
| AgentBroker.Broker.RequireBridgeLocked | internal/v2/agentbroker/broker.go:586-596 | Which error a generation meets |
| AgentBroker.Broker.ExchangeOutputLocked | internal/v2/agentbroker/broker.go:773-821 | Counts for the reply and advances the idle count |
| AgentBroker.Broker.CompactQueueLocked | internal/v2/agentbroker/broker.go:903-914 | Removes an id from the queue in place, keeping the order of the rest |
| AgentBroker.Broker.CurrentDeadline | internal/v2/agentbroker/handle.go:65-74 | The deadline while the request is kept |
| AgentBroker.Broker.Collect | internal/v2/agentbroker/handle.go:76-93 | Takes the request out and returns its answer or its error, which `BrokerOutcomes.WaiterIsTold` names |
| AgentBroker.Broker.TerminateAndForget | internal/v2/agentbroker/handle.go:95-109 | Ends an active request and takes the request out |
| Json.RoundTrip | internal/v2/agentprotocol/json.go:26-47 | Every JSON value, printed and parsed, is itself; so cloning a map is the identity |
| Json.PrintInjective | internal/v2/agentprotocol/openai.go:310-315 | Values that print alike are alike, so comparing printed metadata compares values |
| JsonIntegers.IntRoundTrip | internal/v2/agentprotocol/openai.go:433-442 | An index within 64 bits survives being written and read |
| PrintedJson.PrintSafe | internal/v2/agentprotocol/json.go:41-47 | No text written holds a control character or one that `encoding/json` escapes for HTML |
| PrintedJson.KeysAscend | internal/v2/agentprotocol/json.go:41-47 | The members of an object are written once each, by ascending key |
| Acceptance.RequestIff | internal/v2/agentprotocol/openai.go:18-321 | Exactly which requests are accepted, told by the JSON alone: messages by role with contents, calls and results of earlier calls, distinct tools, a declared choice, a format, and metadata within its limits |
| Contents.PartsIff | internal/v2/agentprotocol/openai.go:148-175 | An array content is accepted exactly when each item is a text part |
| Contents.PartsJoin | internal/v2/agentprotocol/openai.go:148-175 | The texts of the parts are joined in their order |
| Contents.SinglePart | internal/v2/agentprotocol/openai.go:148-175 | One part gives its text |
| Contents.PlainContent | internal/v2/agentprotocol/openai.go:91-146 | The content of a plain message: its text, its parts joined, or nothing |
| Contents.ResultContent | internal/v2/agentprotocol/openai.go:125-146 | The content of a tool result: its text, its parts joined, nothing, or any other value as JSON text |
| Contents.CallReads | internal/v2/agentprotocol/openai.go:215-244 | A call is read field by field, its arguments given as an object or as the text of one |
| Contents.CompletionIff | internal/v2/agentprotocol/bridge.go:124-178 | Exactly which completions are accepted, and the error of each flaw |
| Contents.NestedReads | internal/v2/agentprotocol/bridge.go:124-178 | A completion nested under `message` reads as the flat one |
| Encodable.EncodesIff | internal/v2/agentprotocol/bridge.go:71-122 | Exactly which conversations the bridge encoder accepts, whoever made them |
| CanonicalForm.DecodedIsCanonical | internal/v2/agentprotocol/openai.go:18-146 | Every accepted request is in canonical form: trimmed names, roles and results in place, call ids new, every tool result after its call, distinct tools, a declared choice |
| CanonicalForm.CanonicalEncodes | internal/v2/agentprotocol/bridge.go:11-122 | The bridge encoder refuses no conversation in canonical form |
| CanonicalForm.RequestRoundTrip | internal/v2/agentprotocol/bridge.go:11-69 | The conversations the decoder produces are exactly those that the bridge encoder accepts and whose encoded text decodes to the same conversation |
| Condensed.KeepsWhatStays | internal/v2/agentprotocol/optimizer.go:45-64 | A message is left out exactly when it is of role system, developer or tool and says the same as the one just before it, JSON results compared by value; the others stay, in order and unchanged, but that a JSON tool result is given the one text of its value |
| Condensed.OptimizesOnly | internal/v2/agentprotocol/optimizer.go:18-64 | Tools, choice, format and stream flag stay; the model is trimmed or the default; metadata keeps its values under trimmed keys; the report counts exactly the messages left out, the results rewritten and the keys trimmed |
| Condensed.MetadataIff | internal/v2/agentprotocol/optimizer.go:27-43 | Metadata is refused exactly for a key that is blank, or for two keys that differ by white space only with different values, each with its own error |
| Optimizer.KeepsInOrder | internal/v2/agentprotocol/optimizer.go:45-64 | The output is an order-preserving subsequence of the normalised input that keeps every user and assistant message; what normalising is, `Condensed.KeepsWhatStays` says |
| Optimizer.OptimizeIdempotent | internal/v2/agentprotocol/optimizer.go:18-64 | Optimizing again removes and rewrites nothing |
| Optimizer.OptimizeCanonical | internal/v2/agentprotocol/optimizer.go:18-64 | On a canonical conversation it cannot fail, and the result is canonical with the same tool calls |
| Optimizer.PipelineTotal | internal/v2/agentprotocol/bridge.go:71-122 | Once a request is decoded, optimizing it and encoding the result cannot fail, and the result decodes back |
| Stream.AbsorbsIff | internal/v2/agentprotocol/stream.go:19-61 | Chunks are refused exactly when one reports an error, names two finish reasons or gives a call two ids or names or a negative index; otherwise the assembly says just what they say |
| Stream.SameConflicts | internal/v2/agentprotocol/stream.go:19-61 | Two chunk lists that say the same are refused alike |
| Stream.RechunkingInvariant | internal/v2/agentprotocol/stream.go:13-90 | Two chunk lists that say the same are both refused, or assemble to the same completion |
| Stream.SplittingChunk | internal/v2/agentprotocol/stream.go:19-61 | Cutting a chunk anywhere in its content or deltas, or joining the two again, says the same |
| Stream.SplittingArguments | internal/v2/agentprotocol/stream.go:45-61 | So does splitting an argument fragment anywhere |
| Stream.Interleaving | internal/v2/agentprotocol/stream.go:28-61 | So does interleaving the calls in any order that keeps each call in order |
| Stream.RearrangingDeltas | internal/v2/agentprotocol/stream.go:28-61 | Rearranging the deltas of one chunk that way leaves the whole list saying the same |
| StreamRefusals.ChunkIff | internal/v2/agentprotocol/openai.go:338-373 | Exactly which texts are chunks, and what is read from each, whoever wrote it |
| StreamRefusals.RefusalIsTrue | internal/v2/agentprotocol/stream.go:24-61 | The code of a refused list names an error or a conflict that is there |
| StreamRefusals.IncompleteRefused | internal/v2/agentprotocol/stream.go:62-80 | Without conflict, a call that lacks id or name makes the list incomplete |
| ChunkBodies.ChunkTells | internal/v2/agentprotocol/openai.go:375-408 | A written chunk names its completion, model and time and holds one choice, and parsing its text gives just that body |
| StreamCompletion.AcceptedIsInForm | internal/v2/agentprotocol/bridge.go:124-178 | What is accepted from the bridge has trimmed distinct calls, something to say and a fitting finish reason |
| StreamCompletion.ChunkRoundTrip | internal/v2/agentprotocol/openai.go:338-408 | A chunk written out and read again is the same chunk, and so is the final marker |
| StreamCompletion.CompletionRoundTrip | internal/v2/agentprotocol/canonical.go:151-163 | Every completion accepted from the bridge, chunked, written, read and assembled, is the same completion, its content character for character |
| StreamCompletion.CallsInOrder | internal/v2/agentprotocol/stream.go:62-90 | Calls come out in ascending order of index, whatever order they were streamed in, each with the id, name and arguments gathered under its index |
| Bridge.DecodeAgrees | internal/v2/agentprotocol/bridge.go:124-178 | Naming the answered request can only turn an acceptance into a refusal, by exactly the test on tools and format, never change the answer |
| Adapter.DecodeRequest | internal/v2/agentprotocol/openai.go:18-89 | Accepts exactly what `OpenAI.DecodeRequest` accepts, with the same conversation and the same error, up to which of two metadata errors is met first; which requests those are is `Acceptance.RequestIff` |
| Adapter.DecodeMessage | internal/v2/agentprotocol/openai.go:91-146 | One message, with every refusal in the order of the source |
| Adapter.DecodeMessageContent | internal/v2/agentprotocol/openai.go:148-175 | The loop over the parts computes `OpenAI.DecodeContent`: text, or the text parts joined in order (`Contents.PartsIff`, `SinglePart`, `PartsJoin`) |
| Adapter.DecodeTools | internal/v2/agentprotocol/openai.go:177-213 | Tool definitions with distinct names |
| Adapter.DecodeToolCalls | internal/v2/agentprotocol/openai.go:215-244 | Tool calls with distinct ids |
| Adapter.DecodeMetadata | internal/v2/agentprotocol/openai.go:292-321 | Accepts exactly metadata within the limits whose trimmed keys do not conflict, whatever the order the map is visited in |
| Adapter.EncodeBridgeRequest | internal/v2/agentprotocol/bridge.go:11-69 | The bridge body of a valid conversation |
| Adapter.ValidateCanonicalConversation | internal/v2/agentprotocol/bridge.go:71-122 | The error of the first violation, if any |
| Adapter.EncodeToolCalls | internal/v2/agentprotocol/openai.go:410-419 | One encoded call for each call, in order |
| Adapter.ValidateCompletionTools | internal/v2/agentprotocol/bridge.go:180-197 | Whether every call names a declared tool |
| Adapter.BufferedCompletionChunks | internal/v2/agentprotocol/canonical.go:151-163 | The chunks of a completion, its calls indexed in order |
| Adapter.EncodeStreamChunk | internal/v2/agentprotocol/openai.go:375-408 | The body of a chunk, or its error |
| Adapter.DecodeStreamChunk | internal/v2/agentprotocol/openai.go:338-373 | The chunk in a text, or its error |
| Adapter.AssembleStreamCompletion | internal/v2/agentprotocol/stream.go:13-90 | The two loops together compute `Stream.Assemble` |
| Adapter.CloneMessage | internal/v2/agentprotocol/optimizer.go:76-90 | A message equal to the one given |
| Adapter.CloneTools | internal/v2/agentprotocol/optimizer.go:92-102 | Tools equal to those given |
| Adapter.OptimizeMessages | internal/v2/agentprotocol/optimizer.go:45-64 | The loop keeps `Optimizer.Condense`, which holds exactly the messages that `Condensed.KeepsWhatStays` describes; it counts the rewritten results, and messages removed and kept add up to those given |
| Adapter.Optimize | internal/v2/agentprotocol/optimizer.go:18-64 | The optimized conversation and its report, of which `Condensed.OptimizesOnly` says what is touched and counted, up to which metadata error is met first |
| Spelling.TrimIff | internal/v2/agentprotocol/openai.go:421-427 | `strings.TrimSpace` takes away white space at both ends, all of it and nothing else |
| Commits.AncestorAntisymmetric | internal/v2/workspace/manager.go:375-387 | Over any acyclic graph two commits that are ancestors of each other are one |
| Commits.DivergenceAgrees | internal/v2/workspace/inspect.go:114-136 | `localDivergence` and `ensureNoLocalCommits` ask in opposite orders and classify every pair of commits alike |
| Workspace.Repository.Prepare | internal/v2/workspace/manager.go:91-251 | At every exit, whatever Git command fails, before or after taking effect, local branches have only moved to descendants and the old HEAD commit is reachable from HEAD, a local branch or a tracking ref, unless the notes switch the branch to itself; success leaves a clean HEAD on the target at the fetched tip, the expected commit if given, and says so; resume and a dirty tree change nothing, and a resume that succeeds reports the noted target and commit and what is checked out |
| Workspace.Repository.CheckoutTrackingBranch | internal/v2/workspace/manager.go:253-285 | However it ends, branches only advance and HEAD stays or is on the branch; success has the branch at the tip |
| Workspace.Repository.FetchAndResolve | internal/v2/workspace/manager.go:338-352 | Only the tracking ref of the branch moves; success returns it |
| Workspace.Repository.EnsureNoLocalCommits | internal/v2/workspace/manager.go:354-373 | Passes only ancestors of the remote, and names local commits and divergence truthfully |
| Workspace.Repository.IsAncestor | internal/v2/workspace/manager.go:375-387 | Answers the ancestry question, or fails |
| Workspace.PreparedKeepsHead | internal/v2/workspace/manager.go:155-251 | A successful preparation keeps the old HEAD commit unless the notes switch the branch to itself |
| Workspace.DetachedHeadKeptIff | internal/v2/workspace/manager.go:186-215 | A commit held by a detached HEAD alone survives whatever the remote answers exactly when the notes do not switch the branch to itself or the remote cannot be rewound |
| Workspace.DetachedHeadCanBeLost | internal/v2/workspace/manager.go:186-215 | A concrete clone, notes and remote, with full commit names, for which it is lost |
| Workspace.PrefixedNeverSwitchesToItself | internal/v2/workspace/manager.go:287-300 | Notes as `Prepare` writes them never switch a branch to itself |
| Tunnel.Supervision | internal/v2/tunnel/client.go:161-268 | In every interleaving of exits, timers and calls: at most one child is alive; since the count was last reset at most `maxRestarts + 1` launches were attempted and the delays scheduled sum to `restartDelay * (2^count - 1)` (when that is, in terms of start and exit times, `TunnelLimits` says); running means a child is owned, restarting that its timer is pending |
| Tunnel.NothingAfterClose | internal/v2/tunnel/client.go:270-306 | After `Close` no child is ever added |
| Tunnel.ExitIsFollowedUp | internal/v2/tunnel/client.go:218-253 | A child that exits under an open supervisor is followed by a pending restart, or the limit is used up and shown |
| Tunnel.StepOk | internal/v2/tunnel/client.go:161-306 | Every critical section keeps the supervision invariant |
| TunnelManager.Manager.Start | internal/v2/tunnel/client.go:161-198 | The state, timer and error of a start, including the reset of the count |
| TunnelManager.Manager.LaunchLocked | internal/v2/tunnel/client.go:200-216 | Owns the child exactly when it was started |
| TunnelManager.Manager.Wait | internal/v2/tunnel/client.go:218-234 | What an exit leads to, performed in place; how long runs count is `TunnelLimits.ExitCounts` |
| TunnelManager.Manager.ScheduleRestartLocked | internal/v2/tunnel/client.go:236-253 | A restart with the next token, or the limit shown |
| TunnelManager.Manager.Backoff | internal/v2/tunnel/client.go:243-247 | The doubling loop computes `restartDelay * 2^(n-1)` |
| TunnelManager.Manager.RestartAfter | internal/v2/tunnel/client.go:255-268 | A timer is heeded only with its token current, no child and an open supervisor |
| TunnelManager.Manager.Close | internal/v2/tunnel/client.go:270-306 | Gives up the child and voids every pending token |
| TunnelLimits.LaunchesBounded | internal/v2/tunnel/client.go:191-253 | In every run, since `Start` last launched or a child last ran for `stableRuntime`, by the times it was started and exited, at most `maxRestarts + 1` launches were tried, the delays doubling from `restartDelay` |
| TunnelLimits.CrashLoopEnds | internal/v2/tunnel/client.go:226-253 | While no child runs that long, one `Start` leads to at most `maxRestarts + 1` launches in all |
| TunnelLimits.ExitCounts | internal/v2/tunnel/client.go:218-253 | What an exit leads to by how long the child ran: the count starts afresh after `stableRuntime` and goes on before, and with it the delay, until it is used up |
| TunnelLimits.LastedStartsAfresh | internal/v2/tunnel/client.go:226-253 | After a long run the restart waits just `restartDelay` and is the first counted |
| TunnelLimits.StartShows | internal/v2/tunnel/client.go:161-198 | What is shown after a start says exactly why nothing runs, or that a child does |
| CodingLife.OpenServes | internal/v2/coding/service.go:176-195 | In every run `Open` claims a repository exactly when nobody holds it, is handed the session exactly when it resumes and there is one, and is else refused, with the reason |
| CodingLife.CallFinds | internal/v2/coding/service.go:568-600 | In every run a call finds the session of its repository, or is told truthfully that it is opening or that there is none |
| CodingLife.OpenInstalls | internal/v2/coding/service.go:226-249 | A prepared session is what calls find from then on, idle and open |
| CodingLife.FailedOpenFrees | internal/v2/coding/service.go:197-208 | A failed `Open` leaves the repository free for the next |
| CodingLife.CloseMarks | internal/v2/coding/service.go:415-455 | In every run `Close` marks the session of the repository, once, and changes nothing else; a marker that nobody opens under is never there |
| CodingLife.CloseFrees | internal/v2/coding/service.go:496-505 | A close that ends frees the repository: the next `Open` is let in |
| Spelling.SameTargetIff | internal/v2/coding/service.go:283-292 | Two targets are the same exactly when they name the same branch, with or without the prefix |
| Spelling.SameCommitIff | internal/v2/coding/service.go:268-270 | An expected commit is met when it is blank or the same up to case |
| Coding.OneOperationEach | internal/v2/coding/service.go:325-361 | In every run a session has at most one operation, `busy`, `cancel` and `done` agree, and no `done` is closed twice or while its operation runs |
| Coding.NothingBeginsWhenClosing | internal/v2/coding/service.go:325-335 | On a closing session no operation begins |
| Coding.ClosingForGood | internal/v2/coding/service.go:415-505 | Closing is for good in every run |
| Coding.SessionNeverMissing | internal/v2/coding/service.go:568-600 | In every run an active id that is no marker is a session of that repository, so the missing-session error is unreachable |
| Coding.ReturnExclusiveIff | internal/v2/coding/service.go:197-208 | The deferred clean-up of `Open` keeps one session per repository exactly when no other open of it is preparing |
| Coding.OneSessionPerRepository | internal/v2/coding/service.go:161-249 | As long as that holds at each return, a repository has one session |
| Coding.TwoSessionsForOneRepository | internal/v2/coding/service.go:197-240 | A concrete run in which a repository gets two |
| CodingService.Record.BeginOperation | internal/v2/coding/service.go:325-346 | Refuses a closing or busy session, else takes it |
| CodingService.Operation.Finish | internal/v2/coding/service.go:346-361 | Releases the session once, however often it is called |
| CodingService.Service.ClaimRepository | internal/v2/coding/service.go:176-195 | Claims a free repository, resumes an owned one or refuses |
| CodingService.Service.ResumeActiveLocked | internal/v2/coding/service.go:255-281 | Resumes exactly a session not closing with the same target and commit |
| CodingService.Service.InstallSession | internal/v2/coding/service.go:226-241 | Makes the session active unless the service closed meanwhile |
| CodingService.Service.CleanUpOpening | internal/v2/coding/service.go:197-208 | Takes away its own opening record, and any marker |
| CodingService.Service.LookupRepository | internal/v2/coding/service.go:568-600 | The record a call is for, or why there is none |
| CodingService.Service.CloseRepository | internal/v2/coding/service.go:415-455 | Marks exactly the session found and says what to wait for |
| CodingService.Service.FinalizeClose | internal/v2/coding/service.go:496-505 | Forgets the session only if it is still that one |
| CodingService.Service.CloseAll | internal/v2/coding/service.go:507-538 | Marks every session, forgets them all and says what to wait for |

## Left out

- AgentBroker.Broker.ExchangePass: the loop of `Exchange` around it, and the loop of `Wait` around `CurrentDeadline`, block on channels; they are sequences of events in `BrokerRuns` instead of loops in the class.
- AgentBroker.Broker.Enqueue: identifiers are parameters that are assumed new, and a conversation is stored as a value; that other code could change it later through a shared reference is not modelled.
- BrokerTiming.AttendedNeverTimesOut: it asks of waiters that none is giving up on a live request and that each compares promptly what it read; without that it is false (`BrokerStalls.TimesOutWhileAttended`), and `BrokerTiming.TimesOutOnlyByItsWaiter` says exactly when a request times out if nothing is asked of them.
- AgentBroker.Broker.Collect: the result is the completion alone; the id, model, stream flag and time of admission that the source adds are those the request was admitted with.
- AgentBroker.Broker.Snapshot: status strings, formatted times and the last progress note are not modelled.
- Adapter.DecodeMetadata: which of two errors is reported depends on the order in which the map is visited, so the contract leaves it open.
- Adapter.Optimize: the same holds for its metadata errors.
- Workspace.Repository.Prepare: no other program changes the clone meanwhile; a failing command may have taken effect wholly, partly or not at all, as it would when killed between its updates of refs; the paths and container directories around the clone are not modelled.
- CodingService.Service.CloseAll: waiting for operations, stopping processes and the context's deadline are not modelled.
- TunnelManager.Manager.Close: killing the child and waiting for it come after this section and are events of `Tunnel`.
- `Inspect`, `Index` and deleting a workspace: they report or remove and take no part in preparing; only the comparison `localDivergence` is modelled.
- Clocks are a number that never goes back, read once in each section; the time a section takes is not modelled.
- Events, error details, log lines and the timestamps kept for display only.
- HTTP, server-sent events, authentication and tool registration: plumbing around the modelled steps.
- `EncodeCompletion`, the answer in one piece: it only fills in a fixed object.
- Numbers in JSON are kept as their text; rounding to 64-bit floats, the parser's depth limit and invalid UTF-8 are not modelled.
- Counters, revisions and durations are unbounded integers; there is no wrap-around after 2^63 steps.
- Nil and empty slices and maps are one value.
- Fingerprints of completions are replaced by equality of the completions, that is, the hash is taken to be injective.
- `sort.Slice` and `sort.Ints` are library functions here: a sorted list of a set.
- A loop that visits a map is a method of its own where its caller does more (`DetachLocked`, `RenewLocked`, `RebindEachLocked`, `VisitMetadata`).
- Of coding sessions: what a command prints, `Status`, and the settings of access and network.
- Process launch, the desktop user interface, configuration files and the policy lists: platform code without a protocol.
