# Seidrum, modelled and proved in Dafny

Seidrum is an event-driven agent platform. This project models its stateful cores and proves what they promise
over whole runs, for every input and every interleaving the model admits. `dafny verify dfyconfig.toml` checks
everything.

| module | what it models |
|---|---|
| `SubjectIndex` | the event bus's subject trie with `*` and `>`, against flat token-by-token matching |
| `RequestReply`, `ReplyGuarantees` | request/reply over publish/subscribe, as a step system over all interleavings, and what it guarantees |
| `WsClient`, `WsAccounting` | the reconnecting client: the registry's two inverse maps, the connection protocol, and the server ids it holds |
| `RateLimiter`, `LimiterRestarts`, `LimiterBounds` | the API gateway's token bucket, what its cleanups and restarts do, and how much it admits |
| `TurnRuntime`, `TurnHistory` | the agent turn loop, the event log, trace replay, the in-memory and the durable store |
| `OverlappingTurns` | turns in flight at the same time, one store operation at a time |
| `JobRuns` | force-run jobs and the sequence intervals they own |
| `ToolAuthorization`, `ConcurrentAudits` | first-match rules, the secure executor and the audited one, alone and overlapping |
| `OutboundDelivery` | the delivery record and its retry policy |
| `LlmToolLoop`, `Translators` | the Anthropic tool loop, and the Anthropic and Gemini message formats |
| `EnvTemplate` | `${VAR}` / `${VAR:-default}` interpolation |
| `RestartPolicy` | the supervisor's restart counter and backoff |
| `Sequences` | filtering, flattening, stable sorting and histories |

How the model is set up:

- Providers, tools, the LLM API, the tool dispatcher and storage faults are adversaries: an arbitrary value is
  chosen at every call. Each remembers in ghost state what it was asked and what it did, and the contracts are about
  that memory: `RunTurn` cannot claim a reply the provider did not give, or a fault that did not strike
  (`AgentProvider`, `Toolbox`, `Faults`, `Storage`, `InnerTool`, `Api`, `Dispatcher`, `Host`). A store operation is
  atomic but may fail.
- The clock, generated ids and the environment are parameters. Ids (run ids, stable ids, server ids, reply
  subjects) are fresh, which is a guard of the step that creates them.
- An object that is updated in place is a class. Its methods are proved against functions on values or against a
  contract predicate (`TurnContract`, `JobStep`, `AuditStep`), and the theorems about runs are about those. The
  concurrent protocols are labelled step systems.
- JSON values and encodings are plain strings; `serde` and base64 are the identity.

Assumptions the code does not enforce, stated where they are used:

- The results of `TurnHistory` and `JobRuns` are about turns that do not overlap. `OverlappingTurns` drops the
  assumption: `NumberedIffOrderly` says exactly which overlaps break the numbering, `IntervalIff` which break a job's
  interval, and `ReplayKeepsOrder` holds under all of them. `ConcurrentAudits` does the same for audited calls.
- A job executor is given a runtime with a store of its own and a second store. The results of `JobRuns` are about
  the case in which both are the same store; otherwise its two counts are of a log its turn does not write.
- `LimiterRestarts` and the refusal times take checks to update a bucket in clock order (`Clocked`). The code reads
  the clock before it takes the lock, so two concurrent checks can update out of order even with a clock that never
  runs backwards. `LimiterBounds.RateBound` needs no such assumption: it charges what the readings move back.

Where the code and its own words disagree, the model follows the code:

- `bus.rs` says that only a replier publishes on `_reply.*` subjects. `publish` refuses them, but `request` takes any
  subject, so a request addressed to somebody's reply subject is returned to them as the reply
  (`ReplyGuarantees.CrossingRun`, `AnyPayloadCanCross`). Requests never cross exactly when requests are held to the
  same test (`ReplyGuarantees.GateIff`).
- A one-shot reply subscription can be removed by anybody who lists it, and only then does a request report a closed
  channel (`ReplyGuarantees.ClosedIff`). A request whose future is dropped leaves its subscription behind for ever
  (`ReplyGuarantees.GoneIff`).
- The gateway saves its buckets every 300 seconds and not on shutdown, so a restart rolls every bucket back to the
  last save and loses the per-user overrides. `LimiterRestarts.RestartInvisibleIff` says exactly when that cannot be
  observed; across k restarts a subject is admitted up to (k+1)*rpm + T*rpm/60 times, and never more
  (`LimiterBounds.RateBound`, `RateBoundIsAttained`).
- `Retry-After` is honest exactly when the rate is not zero (`LimiterBounds.RetryPromiseIff`).
- The daemon's message speaks of 5 crashes in 300 seconds. The counter window is fixed, not sliding: 9 restarts can
  fall into 300 seconds, with all sleeps observed, and never more (`RestartPolicy.SlidingBound`,
  `SlidingBoundIsAttained`). `RestartPolicy.MessageHoldsIff` gives the exact condition for at most 5.
- The backoff comment in `daemon.rs` lists 1, 2, 4, 8, 16 seconds; the delay is computed after the counter is
  incremented, so it is 2, 4, 8, 16, 16.
- A process that is refused a restart is not looked at again, not even when its counter window has ended; nor is one
  whose backoff sleep is cut short by a bus command or whose spawn fails (`RestartPolicy.ManagedProcess.OnExit`).
- A WebSocket subscribe reply that is inserted after its connection dropped stays bound to a dead server id while
  the client reports itself connected (`WsAccounting.LateInsertIsDeaf`); `WsClient.NeverStaleIff` gives the exact
  condition.
- The server can be left with a subscription that nobody holds: one removed between a reconnect and the answer to its
  resubscription, a subscribe frame still queued when the connection drops (`WsAccounting.StaleFrameIsForgotten`), or
  a caller that goes away in the middle of a subscribe or an unsubscribe. `WsAccounting.NothingForgottenIff` says
  exactly when it is not.
- Gemini tool names come back unchanged exactly when they hold no underscore (`Translators.GeminiRoundTripIff`), and
  a tool result is named after its call id, not its function (`Translators.ResponseNamesCallIff`).
- `Cancelled` deliveries are not final: a failed attempt reschedules them while attempts remain
  (`OutboundDelivery.CancelledIsRevivedIff`).

## Model

| member | source | states |
|---|---|---|
| SubjectIndex.Split | crates/core/seidrum-eventbus/src/dispatch/subject_index.rs:93-93 | the tokens hold no dot and joined with dots give the subject back |
| SubjectIndex.CollectAfterInsert | crates/core/seidrum-eventbus/src/dispatch/subject_index.rs:122-151 | inserting a pattern adds its entry to exactly the lookups the pattern matches token by token, and to no other |
| SubjectIndex.CollectAfterRemove | crates/core/seidrum-eventbus/src/dispatch/subject_index.rs:158-173 | removal with pruning filters every lookup by id and reorders nothing |
| SubjectIndex.Index.constructor | crates/core/seidrum-eventbus/src/dispatch/subject_index.rs:82-86 | the empty trie represents the empty subscription list |
| SubjectIndex.Index.Subscribe | crates/core/seidrum-eventbus/src/dispatch/subject_index.rs:91-120 | accepts exactly patterns of at most 256 nonempty tokens with `>` only last; the trie still represents the flat list of live entries |
| SubjectIndex.Index.Unsubscribe | crates/core/seidrum-eventbus/src/dispatch/subject_index.rs:154-156 | the trie still represents the flat list; every entry with the id is gone from it and every other one is there as often as before |
| SubjectIndex.Index.Lookup | crates/core/seidrum-eventbus/src/dispatch/subject_index.rs:177-212 | after any history of calls a lookup holds each live entry whose pattern matches as often as it was subscribed, and no other, in ascending priority |
| SubjectIndex.UnsubscribedIsGone | crates/core/seidrum-eventbus/src/dispatch/subject_index.rs:153-173 | after an unsubscribe no live entry has the id until it is subscribed again |
| SubjectIndex.WildcardsMean | crates/core/seidrum-eventbus/src/dispatch/subject_index.rs:122-151 | a literal stands for itself, * for any one token and a final > for one token or more |
| SubjectIndex.LiteralPatternIsExact | crates/core/seidrum-eventbus/src/request_reply.rs:139-149 | a pattern without wildcards, such as a reply subject, matches a subject if and only if they are equal |
| RequestReply.InvariantHolds | crates/core/seidrum-eventbus/src/request_reply.rs:122-257 | in every interleaving of requests, replies, interceptors, removals by others and dropped calls: subscriptions are unshared, repliers speak for their own request, a publication reaches subscriptions on its own subject alone, and an open channel holds the first event delivered |
| ReplyGuarantees.FirstDeliveryWins | crates/core/seidrum-eventbus/src/request_reply.rs:51-184 | a request that returns a payload returns the first one delivered to its channel, published on its own reply subject: the payload a replier made from its own event was given, or the one another request addressed there was called with, or the last an interceptor put in its place |
| ReplyGuarantees.RepliesNeverCrossIff | crates/core/seidrum-eventbus/src/request_reply.rs:122-185 | what is returned comes from a replier made from the request's own event, and is what that replier was given, if and only if no request addressed to its reply subject, and nothing an interceptor rewrote, was delivered while its channel was empty |
| ReplyGuarantees.ReplyIsReturned | crates/core/seidrum-eventbus/src/request_reply.rs:51-184 | from every state with a waiting request a handler that replies is heard, and the request returns what the replier was given |
| ReplyGuarantees.OutcomeIsExplained | crates/core/seidrum-eventbus/src/request_reply.rs:157-184 | a call's outcome is that of its one ending step: a failed publish, an event received, the timer or a closed channel |
| ReplyGuarantees.WaitingEndsOneWay | crates/core/seidrum-eventbus/src/request_reply.rs:163-184 | a waiting call can always end, in exactly one way: with the first event delivered, as closed when none was and no sender is left, by its timer otherwise |
| ReplyGuarantees.ThiefIsReserved | crates/core/seidrum-eventbus/src/bus.rs:225-256 | what is delivered in place of a reply was rewritten, or is a request addressed to a reserved subject |
| ReplyGuarantees.GateIff | crates/core/seidrum-eventbus/src/bus.rs:225-256 | a test on the subjects of requests keeps all requests apart, in every run without rewriting interceptors, if and only if it refuses every subject that starts with _reply. |
| ReplyGuarantees.AnyPayloadCanCross | crates/core/seidrum-eventbus/src/request_reply.rs:122-184 | from every state with a waiting request, one request by somebody who knows its reply subject makes it return any chosen payload |
| ReplyGuarantees.CrossingRun | crates/core/seidrum-eventbus/src/request_reply.rs:122-184 | a run in which a request returns another request's payload, with no replier at all |
| ReplyGuarantees.ClosedIff | crates/core/seidrum-eventbus/src/request_reply.rs:163-184 | a call that runs to its end reports a closed channel if and only if at some point nothing had reached it and no sender was left, which takes a removal by somebody else |
| ReplyGuarantees.GoneIff | crates/core/seidrum-eventbus/src/request_reply.rs:157-169 | a one-shot subscription is gone if and only if its call has cleaned up, on the reply, timeout, closed and publish-error paths, or somebody else removed it |
| ReplyGuarantees.OverMeansClosed | crates/core/seidrum-eventbus/src/request_reply.rs:166-169 | a call that is over, finished or dropped, has closed its channel |
| ReplyGuarantees.RepliersPublishOnce | crates/core/seidrum-eventbus/src/request_reply.rs:51-58 | no replier publishes twice in a whole run |
| ReplyGuarantees.PublishedOnce | crates/core/seidrum-eventbus/src/dispatch/engine.rs:355-745 | a publication that was sent, or dropped on the way, reaches nobody after that |
| WsClient.SubscriberRegistry.constructor | crates/core/seidrum-common/src/ws_client.rs:176-180 | the empty registry, whose maps are inverse |
| WsClient.SubscriberRegistry.Insert | crates/core/seidrum-common/src/ws_client.rs:183-193 | the new registry is the old one with an unbound subscription |
| WsClient.SubscriberRegistry.BindServerId | crates/core/seidrum-common/src/ws_client.rs:195-205 | both maps are rebound, and it reports whether the subscription existed |
| WsClient.SubscriberRegistry.Remove | crates/core/seidrum-common/src/ws_client.rs:207-213 | the subscription and its server id are gone; the removed state is returned |
| WsClient.SubscriberRegistry.ClearServerIds | crates/core/seidrum-common/src/ws_client.rs:229-234 | every subscription is kept, unbound |
| WsClient.SubscriberRegistry.StableByServerId | crates/core/seidrum-common/src/ws_client.rs:215-220 | the fast look-up agrees with a scan: a hit records the server id, a miss means no subscription does |
| WsClient.BindKeepsInverseIff | crates/core/seidrum-common/src/ws_client.rs:195-205 | a bind keeps the maps inverse if and only if no other subscription holds the server id |
| WsClient.InsertKeepsInverseIff | crates/core/seidrum-common/src/ws_client.rs:183-193 | an insert keeps them inverse if and only if it does not overwrite a bound subscription |
| WsClient.RemoveKeepsInverse | crates/core/seidrum-common/src/ws_client.rs:207-234 | remove and clear always keep the maps inverse |
| WsClient.RouteIsScan | crates/core/seidrum-common/src/ws_client.rs:215-220 | with inverse maps a server id routes to a subscription if and only if that subscription records it |
| WsClient.ResubscribeCidRoundTrip | crates/core/seidrum-common/src/ws_client.rs:611-615 | the correlation id parsed on reply names its subscription if and only if the stable id has no colon |
| WsClient.InvariantHolds | crates/core/seidrum-common/src/ws_client.rs:338-625 | in every run the maps are inverse, each id is in one place, server ids belong to their pattern, and every subscription active at connect is bound, in flight or refused |
| WsClient.PatternsFollowLedger | crates/core/seidrum-common/src/ws_client.rs:545-572 | the (stable id, pattern) pairs equal a ledger read off the run, in which a subscribe's own pattern is entered by its insert and removed by an unsubscribe, across any drops and reconnects |
| WsClient.FramesEndOnce | crates/core/seidrum-common/src/ws_client.rs:583-625 | a subscribe frame that was thrown away while reconnecting, granted or denied is never sent or answered again |
| WsClient.DeniedIsOver | crates/core/seidrum-common/src/ws_client.rs:338-363 | a subscribe the server refuses is over: nothing is inserted for it later |
| WsClient.NeverStaleIff | crates/core/seidrum-common/src/ws_client.rs:419-430 | no id of a dropped connection is bound anywhere in a run if and only if every subscribe reply is inserted while its connection is up |
| WsClient.EventsReachTheirSubscription | crates/core/seidrum-common/src/ws_client.rs:710-731 | under that condition an event reaches only the subscription its id was issued for, on the live connection, under its own pattern |
| WsClient.ReconnectResumes | crates/core/seidrum-common/src/ws_client.rs:599-625 | a subscription active at connect and not removed, whose own resubscription was answered and not refused, is bound to an id this connection issued for its own pattern, whatever became of the others |
| WsAccounting.LateInsertIsDeaf | crates/core/seidrum-common/src/ws_client.rs:419-430 | a concrete run in which a late insert leaves a connected client with a subscription on a dead id and no resubscription under way |
| WsAccounting.StaleFrameIsForgotten | crates/core/seidrum-common/src/ws_client.rs:545-625 | a run in which a subscribe frame outlives its connection and its caller, and the server's subscription is nobody's |
| WsAccounting.NothingForgottenIff | crates/core/seidrum-common/src/ws_client.rs:411-447 | every id issued on the live connection is bound, waiting for its caller or given back, throughout a run, if and only if no resubscription is answered after its subscription was removed, no subscribe after a drop or after its caller went away, no caller goes away with an answer of this connection in hand, and no subscription of this connection is removed without its unsubscribe being queued |
| WsAccounting.OwnerIff | crates/core/seidrum-common/src/ws_client.rs:338-363 | a subscribe frame under way has lost its pending entry if and only if the connection dropped since it was asked for, and its caller if and only if the call was abandoned |
| WsAccounting.RefusedIff | crates/core/seidrum-common/src/ws_client.rs:599-625 | a resubscription counts as refused if and only if the server refused it since the connect |
| WsAccounting.BoundLiveIff | crates/core/seidrum-common/src/ws_client.rs:195-234 | a subscription holds an id of the live connection if and only if that connection answered for it |
| RateLimiter.SharedLimiter.constructor | crates/plugins/seidrum-api-gateway/src/rate_limiter.rs:58-64 | no buckets, no overrides, the configured rates, on the given storage |
| RateLimiter.SharedLimiter.SetUserRpm | crates/plugins/seidrum-api-gateway/src/rate_limiter.rs:67-72 | only the user's override changes: that user is held to it, admin or not, and every other subject to what it was |
| RateLimiter.SharedLimiter.EffectiveRate | crates/plugins/seidrum-api-gateway/src/rate_limiter.rs:75-85 | the override when there is one, otherwise the rate of the role |
| RateLimiter.SharedLimiter.CheckRateLimit | crates/plugins/seidrum-api-gateway/src/rate_limiter.rs:89-123 | the answer and the new buckets are those of the reference step |
| RateLimiter.SharedLimiter.CleanupStaleEntries | crates/plugins/seidrum-api-gateway/src/rate_limiter.rs:126-140 | exactly the buckets younger than the time to live remain, as they were |
| RateLimiter.SharedLimiter.SaveState | crates/plugins/seidrum-api-gateway/src/rate_limiter.rs:143-188 | storage holds the buckets as they are, or the request was lost and it holds what it held |
| RateLimiter.SharedLimiter.RestoreState | crates/plugins/seidrum-api-gateway/src/rate_limiter.rs:191-222 | after a successful load every saved bucket refilled less than 600 seconds ago is there as saved, and every other subject keeps what it had; a lost load changes nothing |
| RateLimiter.Boot | crates/plugins/seidrum-api-gateway/src/main.rs:129-132 | a new process has exactly the saved buckets refilled less than 600 seconds ago, if the load succeeded, and no overrides |
| LimiterRestarts.CleanupAndRestartInvisible | crates/plugins/seidrum-api-gateway/src/rate_limiter.rs:126-222 | every run, with rates changing at will, whose restarts find an up to date save answers as the run that drops no bucket; such a restart loses the overrides and nothing else |
| LimiterRestarts.CleanupInvisibleIff | crates/plugins/seidrum-api-gateway/src/rate_limiter.rs:126-131 | a cleanup is unobservable for all futures if and only if its time to live is at least 60 seconds |
| LimiterRestarts.RestartInvisibleIff | crates/plugins/seidrum-api-gateway/src/rate_limiter.rs:143-222 | no future tells a restart apart from none if and only if what is restored agrees with the present buckets on the last 60 seconds, and every override repeats the configured rate |
| LimiterRestarts.SaveThenRestart | crates/plugins/seidrum-api-gateway/src/rate_limiter.rs:143-222 | a restart after a save that reached storage, with no check in between, answers every future as if only the overrides had been lost |
| LimiterRestarts.BucketsArePast | crates/plugins/seidrum-api-gateway/src/rate_limiter.rs:89-105 | in every run with a monotone clock all buckets and saves were refilled in the past, as the condition on restarts assumes |
| LimiterBounds.RateBound | crates/plugins/seidrum-api-gateway/src/rate_limiter.rs:89-222 | in any stretch of any run lasting T seconds with k restarts a subject held to rpm is admitted at most (k+1)*rpm + T*rpm/60 times, through cleanups, lost saves and other subjects; clock readings that move back by B in all add B*rpm/60 |
| LimiterBounds.RateBoundIsAttained | crates/plugins/seidrum-api-gateway/src/main.rs:129-168 | for every rate, number of restarts and length a run with the timer at work that is admitted exactly that often |
| LimiterBounds.RemainingIsExact | crates/plugins/seidrum-api-gateway/src/rate_limiter.rs:112-116 | n checks in one second admit exactly min(n, whole tokens left), and the reported remainder is one less than those tokens |
| LimiterBounds.RefusalIsExact | crates/plugins/seidrum-api-gateway/src/rate_limiter.rs:107-122 | after a refusal every earlier probe is refused, however many, and the first check at or after the named second is admitted, through cleanups and restarts from an up to date save |
| LimiterBounds.RetryPromiseIff | crates/plugins/seidrum-api-gateway/src/rate_limiter.rs:117-121 | the named waiting time leads to admission if and only if the rate is above zero; for a zero rate it is the largest u32 |
| TurnRuntime.TurnStore.constructor | crates/core/seidrum-agent-runtime/src/lib.rs:984-992 | an empty store |
| TurnRuntime.TurnStore.Append | crates/core/seidrum-agent-runtime/src/lib.rs:996-1008 | appends to the record's own session; exactly when a storage fault struck it fails and changes nothing |
| TurnRuntime.TurnStore.Records | crates/core/seidrum-agent-runtime/src/lib.rs:1010-1020 | the session's records, or a store error exactly when a storage fault struck |
| TurnRuntime.AgentRuntime.constructor | crates/core/seidrum-agent-runtime/src/lib.rs:1538-1545 | a runtime on the given provider, store, tools and configuration |
| TurnRuntime.AgentRuntime.ExecuteTool | crates/core/seidrum-agent-runtime/src/lib.rs:1656-1683 | a registered tool is run once, an unregistered one never; a succeeding tool's result is passed on as it is; an unregistered or failing one yields an error under the call's own id and name, with the tool's message or the error's text |
| TurnRuntime.AgentRuntime.StoreQuestion | crates/core/seidrum-agent-runtime/src/lib.rs:1552-1564 | the user message is appended under the session's next sequence number, or a storage fault left the log as it was |
| TurnRuntime.AgentRuntime.RunCall | crates/core/seidrum-agent-runtime/src/lib.rs:1608-1635 | a call is logged, executed and its result logged, or a storage fault cut it before or after the tool ran |
| TurnRuntime.AgentRuntime.RunCalls | crates/core/seidrum-agent-runtime/src/lib.rs:1607-1636 | each call of a response is logged and followed by its result, in order and consecutively numbered, or cut by a storage fault right after a call; the tools ran on exactly the logged calls |
| TurnRuntime.AgentRuntime.StoreAnswer | crates/core/seidrum-agent-runtime/src/lib.rs:1581-1604 | the final text is appended and announced with the results so far, or a storage fault left the log as it was |
| TurnRuntime.AgentRuntime.RunTurn | crates/core/seidrum-agent-runtime/src/lib.rs:1552-1642 | only this session grows, by UserMessage (ToolCall ToolResult)* and a final AssistantMessage iff the turn is Ok, which then is the text of the provider's last reply; the calls are those the provider asked for and the tools ran on exactly these; each request carries exactly the results so far; at most max_tool_iterations requests; a failure is a provider error passed on, the iteration limit after that many tool rounds, or a storage fault that did strike |
| TurnRuntime.DisplayTells | crates/core/seidrum-agent-runtime/src/lib.rs:10-22 | the text of each runtime error |
| TurnHistory.TurnAppends | crates/core/seidrum-agent-runtime/src/lib.rs:1552-1642 | a turn appends its block to its own session and leaves every other log alone |
| TurnHistory.TurnIsSpelledOut | crates/core/seidrum-agent-runtime/src/lib.rs:1607-1636 | in the log of every turn, field by field: each call asked for and the result after it, which for a registered tool that succeeded is what the tool returned |
| TurnHistory.TurnOpensAndCloses | crates/core/seidrum-agent-runtime/src/lib.rs:1552-1604 | a turn opens with its user message and, if it succeeded, closes with the answer it returned and announced |
| TurnHistory.RequestIsSpelledOut | crates/core/seidrum-agent-runtime/src/lib.rs:1571-1580 | each provider request carries the session, the agent, the user message and exactly the results so far |
| TurnHistory.SequencesAreContiguous | crates/core/seidrum-agent-runtime/src/lib.rs:1685-1687 | after any run, with turns cut short anywhere, every session is numbered 1, 2, 3, ... |
| TurnHistory.BlockMatchesOutput | crates/core/seidrum-agent-runtime/src/lib.rs:1581-1604 | the block's outbound events are those the turn returned, and its tool result records are the output's tool_results |
| TurnHistory.ReplayReproducesHistory | crates/core/seidrum-agent-runtime/src/lib.rs:1468-1524 | replaying a session yields its records and the events its successful turns returned, in order, and the per-agent replay those of that agent's turns |
| TurnHistory.RedbTurnStore.constructor | crates/core/seidrum-agent-runtime/src/lib.rs:1039-1081 | an empty table |
| TurnHistory.RedbTurnStore.Append | crates/core/seidrum-agent-runtime/src/lib.rs:1086-1121 | the table holds the appends in order under keys 1, 2, 3, ...; exactly when a storage fault struck the append failed and nothing changed |
| TurnHistory.RedbTurnStore.LastKey | crates/core/seidrum-agent-runtime/src/lib.rs:1103-1110 | the largest key is the number of appends |
| TurnHistory.RedbTurnStore.Records | crates/core/seidrum-agent-runtime/src/lib.rs:1123-1151 | the session's appends, stably sorted by sequence number, or a store error exactly when a storage fault struck |
| TurnHistory.MemoryKeepsOrder | crates/core/seidrum-agent-runtime/src/lib.rs:996-1020 | the in-memory vector of a session is the subsequence of its appends |
| TurnHistory.StoresAgreeIff | crates/core/seidrum-agent-runtime/src/lib.rs:1086-1151 | the durable store returns the in-memory vector if and only if its sequence numbers never fall |
| TurnHistory.StoresAgreeOnRuns | crates/core/seidrum-agent-runtime/src/lib.rs:996-1151 | on every run of turns, with the sessions' appends interleaved at will, both stores return the same records |
| OverlappingTurns.NumberedIffOrderly | crates/core/seidrum-agent-runtime/src/lib.rs:1552-1642 | however turns overlap, a session is numbered 1, 2, 3, ... if and only if no turn writes to it after another turn has written to it since the first began; other sessions never matter |
| OverlappingTurns.LagIff | crates/core/seidrum-agent-runtime/src/lib.rs:1685-1687 | the numbers of a turn fall behind its session's log if and only if another turn has written to that session since |
| OverlappingTurns.StoresAgreeWhenOrderly | crates/core/seidrum-agent-runtime/src/lib.rs:996-1151 | in an orderly run of overlapping turns both stores return the same records |
| OverlappingTurns.IntervalIff | crates/core/seidrum-agent-runtime/src/lib.rs:1720-1746 | the records between a job's two counts are its own turn's block if and only if no other turn wrote to the session between them |
| OverlappingTurns.ReplayKeepsOrder | crates/core/seidrum-agent-runtime/src/lib.rs:1468-1524 | under any overlap the in-memory replay of a session yields the answers of its turns in the order in which they were completed, each once |
| OverlappingTurns.AloneWritesBlock | crates/core/seidrum-agent-runtime/src/lib.rs:1552-1642 | a turn nothing interrupts extends its session by its whole block |
| OverlappingTurns.OverlapBreaksNumbering | crates/core/seidrum-agent-runtime/src/lib.rs:1685-1687 | a run of two overlapping turns on one session after which the numbering is broken and the stores disagree |
| JobRuns.ForceRunJobExecutor.constructor | crates/core/seidrum-agent-runtime/src/lib.rs:1700-1702 | no runs yet |
| JobRuns.ForceRunJobExecutor.PutJobRun | crates/core/seidrum-agent-runtime/src/lib.rs:1390-1412 | stores the run under its id; exactly when a storage fault struck it fails and changes nothing |
| JobRuns.ForceRunJobExecutor.FindDefinition | crates/core/seidrum-agent-runtime/src/lib.rs:1705-1709 | found exactly when the job is defined and no storage fault struck, and then the definition stored under the job id |
| JobRuns.ForceRunJobExecutor.ForceRunJob | crates/core/seidrum-agent-runtime/src/lib.rs:1704-1765 | without a storage fault a run completes if and only if the job is defined and enabled; a refusal leaves no trace; otherwise the contract of a started run; the provider calls are those of its turn |
| JobRuns.ForceRunJobExecutor.RunDefined | crates/core/seidrum-agent-runtime/src/lib.rs:1715-1765 | the stored statuses are a prefix of Queued, Running, Succeeded-or-Failed, proper only if a storage fault struck; the turn runs iff Running was stored; the final record reports the turn's outcome |
| JobRuns.ForceRunJobExecutor.Announce | crates/core/seidrum-agent-runtime/src/lib.rs:1733-1736 | stores the run as Queued and then as Running, cut short exactly by a storage fault |
| JobRuns.ForceRunJobExecutor.Conclude | crates/core/seidrum-agent-runtime/src/lib.rs:1746-1764 | stores the outcome with the session's record count; exactly when a storage fault struck the run is left as it was |
| JobRuns.RunIsSpelledOut | crates/core/seidrum-agent-runtime/src/lib.rs:1715-1765 | a configured session is used as it is and otherwise the run gets one of its own; the turn gets the definition's agent and prompt; the final record holds the turn's text or its error |
| JobRuns.HistoryIsContiguous | crates/core/seidrum-agent-runtime/src/lib.rs:1704-1765 | histories that mix chats and jobs keep every session numbered 1, 2, 3, ... |
| JobRuns.IntervalHoldsOwnTurn | crates/core/seidrum-agent-runtime/src/lib.rs:1720-1765 | in any later state the interval [started, completed] holds exactly the run's own turn, and a succeeded run's ends in its final_text |
| JobRuns.IntervalsAreOrdered | crates/core/seidrum-agent-runtime/src/lib.rs:1720-1746 | completed runs that share a session own disjoint intervals, in the order they ran |
| JobRuns.RunRecordsAreKept | crates/core/seidrum-agent-runtime/src/lib.rs:1733-1763 | no later step changes the stored record of an earlier run |
| ToolAuthorization.RuleApplies | crates/core/seidrum-agent-runtime/src/lib.rs:621-651 | the early-exit chain accepts exactly the tool and context that meet every constraint the rule names; a missing field meets none |
| ToolAuthorization.FirstMatchDecides | crates/core/seidrum-agent-runtime/src/lib.rs:680-691 | the first matching rule decides, and the default only when none matches |
| ToolAuthorization.SecureExecute | crates/core/seidrum-agent-runtime/src/lib.rs:749-773 | the inner tool runs, once, exactly under Allow and its outcome is the answer; otherwise the answer is an error under the call's own id and name that gives the reason |
| ToolAuthorization.AuditedExecutor.constructor | crates/core/seidrum-agent-runtime/src/lib.rs:785-793 | an executor on the given rules, context and tool with an empty audit log |
| ToolAuthorization.AuditedExecutor.Execute | crates/core/seidrum-agent-runtime/src/lib.rs:813-846 | a storage fault, and only that, stops the call before the tool; otherwise an entry with the next number, the call, the decision and its reason is logged and then enforced, and an allowed call is answered with what the tool returned |
| ToolAuthorization.AuditIsExact | crates/core/seidrum-agent-runtime/src/lib.rs:813-846 | over any run with failing storage: audits are numbered 1..n, the inner tool ran once per Allow entry in log order and never otherwise, and calls without a fault are answered as by the unaudited wrapper |
| ConcurrentAudits.NumberedIffOrderly | crates/core/seidrum-agent-runtime/src/lib.rs:813-832 | however audited calls overlap, the log is numbered 1, 2, 3, ... if and only if no call's list and append have another's append between them |
| ConcurrentAudits.RunsAreAudited | crates/core/seidrum-agent-runtime/src/lib.rs:813-846 | in every interleaving each run of the inner tool has an Allow entry of its own call in the log, shared with no other run |
| ConcurrentAudits.EntriesAreSpelledOut | crates/core/seidrum-agent-runtime/src/lib.rs:813-832 | every entry is that of its call, with the decision of the first matching rule and its reason |
| ConcurrentAudits.LagIff | crates/core/seidrum-agent-runtime/src/lib.rs:825-825 | a call that has listed the log falls behind it if and only if another has appended since |
| OutboundDelivery.Delivery.constructor | crates/core/seidrum-agent-runtime/src/lib.rs:309-334 | a queued record with no attempts |
| OutboundDelivery.Delivery.MarkSent | crates/core/seidrum-agent-runtime/src/lib.rs:336-342 | the record after a successful attempt |
| OutboundDelivery.Delivery.MarkCancelled | crates/core/seidrum-agent-runtime/src/lib.rs:344-348 | the record after a cancellation, which is not an attempt |
| OutboundDelivery.Delivery.RecordFailure | crates/core/seidrum-agent-runtime/src/lib.rs:400-421 | the record after a failed attempt under the policy |
| OutboundDelivery.RetryMachine | crates/core/seidrum-agent-runtime/src/lib.rs:309-421 | over any run: attempts count sends and failures; a failure schedules a retry exactly while attempts remain under both limits, at the schedule entry min(attempts-1, last); no other status has a retry time |
| OutboundDelivery.CancelledIsRevivedIff | crates/core/seidrum-agent-runtime/src/lib.rs:344-421 | a cancelled delivery that fails again is rescheduled if and only if attempts remain |
| OutboundDelivery.FailedStaysFailedIff | crates/core/seidrum-agent-runtime/src/lib.rs:336-421 | an update leaves a failed delivery failed if and only if it is another failure |
| Translators.UnifiedToAnthropicMessages | crates/plugins/seidrum-llm-anthropic/src/translator.rs:17-61 | the translated conversation, message by message, without the empty ones |
| Translators.MessageContent | crates/plugins/seidrum-llm-anthropic/src/translator.rs:21-50 | the text if there is any, then one tool use per call, then one tool result per result, each at its place |
| Translators.ToolUsesOf | crates/plugins/seidrum-llm-anthropic/src/translator.rs:31-39 | one tool use per call, in order |
| Translators.ToolResultsOf | crates/plugins/seidrum-llm-anthropic/src/translator.rs:42-50 | one tool result per result, in order, with the error flag only when set |
| Translators.AnthropicLosesNothing | crates/plugins/seidrum-llm-anthropic/src/translator.rs:17-106 | tool calls, tool results and nonempty texts read back from the translated transcript equal those of the conversation, in order |
| Translators.AnthropicKeepsRoles | crates/plugins/seidrum-llm-anthropic/src/translator.rs:17-61 | the messages that say something keep their roles, in order, and the others are gone |
| Translators.TextIsThatOfTexts | crates/plugins/seidrum-llm-anthropic/src/translator.rs:93-106 | the text of a reply is that of its text blocks, one to a line |
| Translators.Replace | crates/plugins/seidrum-llm-google/src/translator.rs:15-23 | every occurrence of the character is replaced and nothing else |
| Translators.NameRoundTripIff | crates/plugins/seidrum-llm-google/src/translator.rs:15-23 | a tool name survives sanitizing and its reverse if and only if it has no underscore |
| Translators.UnifiedToGeminiContents | crates/plugins/seidrum-llm-google/src/translator.rs:32-82 | the translated conversation, with assistant renamed to model, without the empty messages |
| Translators.MessageParts | crates/plugins/seidrum-llm-google/src/translator.rs:41-71 | the text if there is any, then one function call per call, then one function response per result, each at its place |
| Translators.FunctionCallsOf | crates/plugins/seidrum-llm-google/src/translator.rs:50-58 | one function call per call, in order, under its sanitized name |
| Translators.FunctionResponsesOf | crates/plugins/seidrum-llm-google/src/translator.rs:60-71 | one function response per result, in order, under the sanitized call id |
| Translators.GeminiLosesNothing | crates/plugins/seidrum-llm-google/src/translator.rs:32-168 | nonempty texts come back as they were, calls with their arguments and results with their contents, all in order; only names can change |
| Translators.GeminiKeepsRoles | crates/plugins/seidrum-llm-google/src/translator.rs:32-82 | the messages that say something keep their roles, in order, with assistant renamed to model |
| Translators.GeminiRoundTripIff | crates/plugins/seidrum-llm-google/src/translator.rs:15-168 | names and arguments of all calls round-trip if and only if no tool name has an underscore |
| Translators.ResponseNamesCallIff | crates/plugins/seidrum-llm-google/src/translator.rs:62-70 | a response part carries the function name of the call it answers if and only if the call id spells the tool name up to hyphens and underscores; a generated id needs a tool named call... |
| LlmToolLoop.RunTools | crates/plugins/seidrum-llm-anthropic/src/main.rs:311-387 | each tool use is dispatched once, in order; its tool result has its id and the reply word for word, flagged exactly when the reply is an error; every failure is flagged and says what went wrong; a request that cannot be encoded ends the round there |
| LlmToolLoop.PairedIdsAgree | crates/plugins/seidrum-llm-anthropic/src/main.rs:378-386 | the ids answered are the ids used, each once and in the same order |
| LlmToolLoop.RoundsAreAdjacent | crates/plugins/seidrum-llm-anthropic/src/main.rs:300-396 | each round's reply is followed at once by the user message with the answers to it |
| LlmToolLoop.HandleProviderRequest | crates/plugins/seidrum-llm-anthropic/src/main.rs:215-416 | the transcript is the translated request plus one assistant/user pair per tool round; every API call was sent exactly the transcript so far; the tool uses of the rounds, and nothing else but the start of a round cut short, were dispatched; at most max_tool_rounds+1 calls; rounds, token sums and final text are those of the API's replies; it fails exactly when the API did or a request could not be encoded |
| EnvTemplate.Find | crates/core/seidrum-daemon/src/config.rs:65-76 | a hit lies inside the string |
| EnvTemplate.FindIs | crates/core/seidrum-daemon/src/config.rs:65-76 | the search returns an index if and only if the needle occurs there and nowhere before |
| EnvTemplate.ResolveEnv | crates/core/seidrum-daemon/src/config.rs:60-90 | the rewriting loop terminates on every input and equals the single pass that never rescans substituted text |
| EnvTemplate.PlaceholderReadsEnv | crates/core/seidrum-daemon/src/config.rs:76-88 | a placeholder stands for its variable where the environment sets it and otherwise for its fallback or nothing, and what comes after is interpolated on its own |
| EnvTemplate.NoPlaceholderNoChange | crates/core/seidrum-daemon/src/config.rs:64-75 | text without a placeholder, and text from a ${ that is never closed, is left as it is |
| EnvTemplate.SubstituteEvaluates | crates/core/seidrum-daemon/src/config.rs:58-90 | interpolating a printed template gives the template's meaning, in every environment, even when values contain placeholders |
| RestartPolicy.ManagedProcess.constructor | crates/core/seidrum-daemon/src/daemon.rs:93-94 | a zero counter, no window, and the process up |
| RestartPolicy.ManagedProcess.ShouldRestart | crates/core/seidrum-daemon/src/daemon.rs:165-184 | approves exactly when the counter is below 5 or its window of 300 seconds has passed |
| RestartPolicy.ManagedProcess.OnExit | crates/core/seidrum-daemon/src/daemon.rs:368-417 | the new counter and window; exactly when approved, a delay between 2 and 16 seconds is slept, and the process is up again exactly when the sleep ended in a spawn; one stopped by hand is left down without asking the policy; one that is down stays down |
| RestartPolicy.BackoffTable | crates/core/seidrum-daemon/src/daemon.rs:187-190 | 1, 2, 4, 8 and then 16 seconds |
| RestartPolicy.BoundInsideWindow | crates/core/seidrum-daemon/src/daemon.rs:165-184 | inside one counter window at most MAX_RESTARTS minus the counter more restarts are approved |
| RestartPolicy.SlidingBound | crates/core/seidrum-daemon/src/daemon.rs:165-184 | any 300 seconds of any crash schedule hold at most 2*MAX_RESTARTS-1 restarts |
| RestartPolicy.SlidingBoundIsAttained | crates/core/seidrum-daemon/src/daemon.rs:368-412 | a schedule that observes every sleep and attains this bound |
| RestartPolicy.FeasibleAscends | crates/core/seidrum-daemon/src/daemon.rs:368-412 | schedules the monitor loop can see are ascending, so the bounds cover them |
| RestartPolicy.AttainableIff | crates/core/seidrum-daemon/src/daemon.rs:165-190 | n restarts can fall before an instant at most 300 seconds ahead if and only if they fit, sleeps included, into what is left of the current counter window and into the next |
| RestartPolicy.MessageHoldsIff | crates/core/seidrum-daemon/src/daemon.rs:391-412 | every stretch of 300 seconds from a given state holds at most MAX_RESTARTS restarts if and only if one more does not fit; so always when no older window with budget left ends inside it |
| RestartPolicy.BudgetIff | crates/core/seidrum-daemon/src/daemon.rs:165-184 | without regard to the sleeps, at most MAX_RESTARTS in 300 seconds if and only if no older window with budget left ends inside the stretch |
| RestartPolicy.DelaysGrowInWindow | crates/core/seidrum-daemon/src/daemon.rs:187-190 | inside a window the counter counts the restarts and the delays lie between 2 and 16 seconds and never shrink |
| Sequences.SortIsStableSort | crates/core/seidrum-agent-runtime/src/lib.rs:1149-1150 | the sort is ascending, a permutation, and keeps the order of equal keys |
| Sequences.SortFixesExactlySorted | crates/core/seidrum-agent-runtime/src/lib.rs:1149-1150 | sorting changes nothing if and only if the input is already ascending |

## Left out

- Dispatch pipeline: persistence, filters, ordinary subscribers and retry of deliveries; of interceptors `RequestReply` models that they may rewrite or drop any event.
- SubjectIndex.Index.Lookup: the order among equal priorities, which is that of the trie walk, is not stated; the source promises the order by priority only.
- Subscription entries carry id, pattern and priority only.
- WebSocket client: reconnect backoff, the attempt limit and publish/request replies; the order of the command queue.
- Direct calls of the dispatch engine, which an embedding program may publish with past the test of the public bus.
- Floating point in the rate limiter: tokens are exact, counted in sixtieths.
- A save is one step at the moment of its snapshot; a write that reaches storage only after a restart is not modelled.
- Fixed-width counters: sequence numbers, attempt counts and token totals are unbounded, so overflow is not modelled.
- Record ids, audit ids and message ids, which are generated and never read by the modelled code.
- `AgentRuntime` runs on the in-memory store; `TurnHistory.StoresAgreeOnRuns` carries its results to the durable one.
- `OverlappingTurns` models what overlapping turns write, not their provider calls and tool executions; per-agent replay and run statuses are about turns that do not overlap.
- An operator's start command replaces a managed process by a new one with a zero counter; `RestartPolicy` follows one of them.
- Job store tables other than job runs, and redb transactions, which are taken as atomic.
- Parsing of `.env` files, configuration types, and process control (spawning, signals, PID files): input/output around easy functions.
- Gateway HTTP handlers, JWT and API keys, dashboards, channel and extractor plugins: forwarding or foreign code with no hard state.
