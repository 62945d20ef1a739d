# Verification of the MCP Gate proxy

A Dafny model of MCP Gate, the policy-enforcing proxy between agents and MCP servers, with proofs
about every run of it. The parts share one Redis, one database and one broker:

- **Rate limiter** (`Limiter.dfy`, `Doubles.dfy`): the sliding window per user and server, over whole
  histories of calls, with clock skew, limits that differ from call to call, key expiry, and scores
  rounded to doubles.
- **Audit publisher** (`Publisher.dfy`): the bounded channel, the closed check under the mutex and the
  enqueue outside it, the worker and its drain, under every interleaving.
- **Policy cache** (`PolicyEngine.dfy`, `PolicyTable.dfy`): read-through caching with two lifetimes,
  cache writes that land late, get lost or land in the wrong order, invalidation, and the table.
- **Audit delivery** (`Events.dfy`, `Broker.dfy`, `Writer.dfy`, `Alerting.dfy`): topic routing, a broker that
  redelivers, the insert that ignores conflicts, acknowledgement and dead-lettering.
- **Tokens, keys, Redis** (`Tokens.dfy`, `Keys.dfy`, `Uuid.dfy`, `Redis.dfy`): a shared key space in
  which each component's view of its keys depends on its own commands only.
- **Redaction and messages** (`Redact.dfy`, `Mcp.dfy`): what redaction hides, as a property of two runs.
- **One request** (`Lifecycle.dfy`): the stages of the handler and the handler that drives them.
- **The whole gateway** (`Gateway.dfy`, `GatewaySafety.dfy`, `GatewayAccounts.dfy`, `GatewayAudit.dfy`,
  `GatewayFreshness.dfy`, `GatewayRedaction.dfy`, `HandlerRun.dfy`): any number of requests in flight,
  interleaved step by step with cache writes, invalidations and token operations. Tokens, policy
  staleness, freshness, rate limits, redaction and audit events are carried over to these runs.

`dafny verify dfyconfig.toml` checks the whole project.

Time is counted in nanoseconds. `delay` is the longest time from the database read of an evaluation to
the end of its cache write; the two-second context of `internal/policy/engine.go:140` is the code's own
part of it. A call of the limiter has two readings, the caller's stamp and the Redis clock, and the bounds
on admissions and forwards hold under these premises on the calls of one key: the Redis clock does not run
backwards; a call processed later has a stamp at most the skew earlier; between two calls the Redis clock
advances at most the drift more than the stamps do; the calls counted have distinct stamps. Skew and drift
are arbitrary, and the length of the interval follows from them (`RateLimit.Narrow`).

## What the code does where its comments say otherwise

- `internal/policy/engine.go:148` says that invalidation must follow every change of a policy. Nothing
  in the repository but a test calls it, so staleness is bounded by the lifetimes alone. Even when it is
  called, an old decision can return through a pending write (`InvalidationIsFresh` says exactly when).
- The insert of `internal/audit/writer.go:221` is idempotent, but its conflict returns no row, which the
  query reports as an error: a duplicate, or a message redelivered after its row was stored, is requeued
  for ever (`CanBeAckedExactly`, `DuplicateIsStuck`, `CrashLeavesStuck`). So is an event whose id is not a UUID.
- Publish can succeed for an event that is never dispatched, when its enqueue follows the drain
  (`LateEnqueueIsLost`), and a second Close returns without waiting for the
  first (`SecondCloseReturnsEarly`).
- The rate-limit key holds the user id as the token spells it, so every accepted spelling of one UUID has
  a window of its own (`SpellingsGetSeparateWindows`).
- The per-minute limit holds less the clock skew between callers; with skew, or with equal stamps, more
  calls are admitted (`SkewLossIsReal`, `EqualStampsShareASlot`).
- `internal/mcp/redact.go:64` speaks of keys anywhere in the document; only top-level keys are redacted.
  The audited parameters hold the tool arguments one level down, so a sensitive argument is stored in
  clear (`EventInClearIff`, `EventHoldsArguments`). What the agent can tell apart is `ReplyTellsExactly`:
  results that do not decode as tool results, and error objects, reach it as they are, and the text of a
  failed forward reaches the audit event (`ErrorsUnredacted`).
- The alert consumer acknowledges after alerting, so a crash in between repeats the alert
  (`CrashesRepeatAlert`); at least once is what it guarantees (`AlertedAtLeastOnce`).
- `internal/audit/event.go:2` says that the proxy publishes every decision. The branch for a failing limiter
  (`cmd/proxy/main.go:241-245`) publishes none (`UnauditedCall`). It is the only one: once the policy is
  consulted, a request has no event exactly when the limiter failed it (`SilentExactly` for one request,
  `UnreportedExactly` over all runs).

## Model

| member | source | states |
|---|---|---|
| RateLimit.Limiter.Allow | internal/ratelimit/limiter.go:84-114 | a limit that is not positive is refused without touching Redis; otherwise the call is recorded unless Redis refuses it, an error or lost reply denies, and the call is allowed exactly when the stamps then in the window are at most the limit |
| RateLimit.Outcome.Remaining | internal/ratelimit/limiter.go:70-76 | never negative, zero from the limit on, and together with the count of an allowed call it makes the limit |
| RateLimit.StoreHoldsRecent | internal/ratelimit/limiter.go:27-46 | in any history of the shared Redis in which only the limiter addresses a key, the script never meets a wrong type and the set it counts is exactly what the calls on that key leave |
| RateLimit.Retained | internal/ratelimit/limiter.go:33-43 | a recorded stamp stays in the set, across denials and refreshed expiries, until a call whose window it has left, while no more than the key's expiry passes on the Redis clock |
| RateLimit.AdmissionsBounded | internal/ratelimit/limiter.go:27-46 | for every skew and every drift: admitted calls with distinct stamps in an interval no longer than the window less the skew and the rounding of scores, and than the 65-second expiry less the drift, are at most as many as the limit of the one processed last, whatever the other limits and however many calls were denied |
| RateLimit.WindowLessSkewIsNarrow | internal/ratelimit/limiter.go:90-93 | when the drift is at most five seconds more than the skew, the interval is the window less the skew and the rounding, for every skew |
| RateLimit.EqualStampsShareASlot | internal/ratelimit/limiter.go:36-37 | two calls with one stamp occupy one slot, so a limit of one admits both: the uniqueness the comment assumes is needed |
| RateLimit.ExpiryInvisible | internal/ratelimit/limiter.go:42-43 | while the drift of the Redis clock against the stamps is at most five seconds and a nanosecond, the set with expiry equals the set that never expires after every history |
| RateLimit.DriftBreaksExpiry | internal/ratelimit/limiter.go:93 | for every larger drift a history in which expiry loses a stamp still in the window and a call over its limit is admitted |
| RateLimit.ExpiryUnseenExactly | internal/ratelimit/limiter.go:42-43 | the limiter behaves on all histories with a given drift as if keys never expired if and only if the drift is at most five seconds and a nanosecond |
| RateLimit.CountAtMostLogged | internal/ratelimit/limiter.go:33-40 | the count never exceeds the number of calls logged within the window, with no assumption on clocks |
| RateLimit.WithinLimitIsAdmitted | internal/ratelimit/limiter.go:108 | a call with at most its limit of logged calls in the window, itself included, is admitted |
| RateLimit.SilentMinuteIsAdmitted | internal/ratelimit/limiter.go:78-83 | a client silent for a whole window is admitted next |
| RateLimit.AdmittedMeansWithinLimit | internal/ratelimit/limiter.go:84-114 | with increasing stamps an admission implies that the full log, denied calls included, holds at most the limit in the window less the tolerance |
| RateLimit.AdmittedExactly | internal/ratelimit/limiter.go:84-114 | with increasing stamps and drift within the expiry's grace, a call is admitted if and only if at most its limit of logged calls, denied calls and itself included, have a score above its cutoff's |
| RateLimit.ScoredBetween | internal/ratelimit/limiter.go:33-37 | those calls include every one in the window less 1024 ns, and only calls in the window |
| RateLimit.AheadEmptiesWindow | internal/ratelimit/limiter.go:33-34 | after a call stamped a window ahead of all before it, the calls that follow are counted from it alone |
| RateLimit.StraddlingClocks | internal/ratelimit/limiter.go:90-92 | a burst, one call of a caller ahead, and calls right after it have skew and drift at most the lead of that caller, and distinct stamps for the caller in time with Redis |
| RateLimit.StraddlingAdmitted | internal/ratelimit/limiter.go:33-40 | once the burst's score has left the window of the call ahead, every call of that history is admitted, and all but one of twice the limit lie in an interval as long as the gap less the skew and two nanoseconds for each call of the limit but one |
| RateLimit.SkewLossIsReal | internal/ratelimit/limiter.go:90-92 | a gap of one window serves at every instant, for every limit and every skew below the window: the skew lost in the bound is lost indeed |
| RateLimit.RoundingLossIsReal | internal/ratelimit/limiter.go:34-37 | late in the 64-bit range a gap shorter by the whole tolerance serves, so the rounding of scores is lost besides the skew |
| RateLimit.NarrowIsExact | internal/ratelimit/limiter.go:34-37 | without skew and drift the bound is exact: in an interval longer by one nanosecond a limit of one admits two calls |
| Doubles.ScoreMonotone | internal/ratelimit/limiter.go:34 | rounding scores to doubles never reorders timestamps, so whatever is at or below the cutoff is pruned |
| Doubles.ScoreNear | internal/ratelimit/limiter.go:36-37 | the score of a nanosecond time in the signed 64-bit range is within 512 ns of it |
| Doubles.ScoreOrder | internal/ratelimit/limiter.go:33-37 | stamps more than 1024 ns apart are never confused by the rounding |
| Doubles.ToleranceIsExact | internal/ratelimit/limiter.go:33-37 | stamps exactly 1024 ns apart can have the same score, so no smaller tolerance would do |
| Publishing.RunKeepsInv | internal/audit/publisher.go:83-118 | under every interleaving of publishers, worker and closer, accepted = dispatched + in hand + buffer in order, the buffer respects its capacity, and what is accepted after the close was past the check before it |
| Publishing.DispatchedIsPrefix | internal/audit/publisher.go:101-118 | in every run the dispatched events are a prefix of the accepted ones and the buffer never exceeds its capacity |
| Publishing.CloseLosesNothing | internal/audit/publisher.go:151-162 | once Close has returned, every event enqueued before the close has been dispatched |
| Publishing.LeftBehindExactly | internal/audit/publisher.go:84-99 | what remains after the worker exits is exactly what was enqueued after its last length test; each such event was past the closed check at the close, and there are at most as many as such publishers |
| Publishing.ExitedStays | internal/audit/publisher.go:106-113 | a worker that has exited dispatches nothing more in any continuation |
| Publishing.LateEnqueueIsLost | internal/audit/publisher.go:89-93 | a run in which Publish succeeds after the drain and no continuation ever dispatches the event |
| Publishing.SecondCloseReturnsEarly | internal/audit/publisher.go:152-157 | a run in which a second Close has returned and an event enqueued before it is not dispatched |
| Publishing.WorkerNeverBlocks | internal/audit/publisher.go:107-113 | after the close the worker can always take its next step; the receive of the drain finds an event |
| Publishing.StepSpendsMeasure | internal/audit/publisher.go:106-113 | after the close every step of the worker or of an enqueuing publisher lowers a measure of buffer length and publishers past the check |
| Publishing.DrainTerminates | internal/audit/publisher.go:106-113 | after the close the worker and the publishers together take boundedly many steps in every run |
| Publishing.WorkerReachesExit | internal/audit/publisher.go:102-118 | from every reachable state after the close the worker alone reaches its exit |
| Publishing.RabbitMQPublisher.constructor | internal/audit/publisher.go:35-38 | starts empty and open, with 2048 places when the size given is not positive |
| Publishing.RabbitMQPublisher.CheckOpen | internal/audit/publisher.go:84-89 | the check under the mutex is one step of the machine, and passes exactly when the publisher is open |
| Publishing.RabbitMQPublisher.TryEnqueue | internal/audit/publisher.go:91-98 | the enqueue outside the mutex is one step, succeeds exactly when there is room, and keeps the invariant even after a close |
| Publishing.RabbitMQPublisher.Publish | internal/audit/publisher.go:83-99 | uninterrupted, it succeeds exactly when open with room, and then the event is last in the buffer |
| Publishing.RabbitMQPublisher.TakeOne | internal/audit/publisher.go:114-115 | the worker takes the oldest event |
| Publishing.RabbitMQPublisher.FinishSend | internal/audit/publisher.go:115-116 | the event in hand becomes the last dispatched |
| Publishing.RabbitMQPublisher.Drain | internal/audit/publisher.go:109-113 | with no publisher beside it, the drain dispatches the buffer in order and leaves it empty |
| Publishing.RabbitMQPublisher.RunToExit | internal/audit/publisher.go:102-118 | after the close the worker dispatches everything accepted and exits |
| Publishing.RabbitMQPublisher.CloseQuietly | internal/audit/publisher.go:152-162 | an undisturbed first close returns with everything accepted dispatched; a later one changes nothing |
| PolicyEngine.Engine.Evaluate | internal/policy/engine.go:54-128 | a readable cache entry answers; otherwise the database does, launching one cache write with the lifetime for its answer; no row is a denial, and every error is a denial |
| PolicyEngine.Engine.CacheDecisionTtl | internal/policy/engine.go:132-145 | one pending write reaches Redis with its lifetime, or fails and is forgotten |
| PolicyEngine.Engine.InvalidatePolicy | internal/policy/engine.go:149-154 | deletes the key of the triple, or leaves Redis as it was when it cannot be reached |
| PolicyEngine.AllowedNeedsARow | internal/policy/engine.go:50-53 | an allowed decision comes from a row that allows or from a live cache entry that is returned as stored |
| PolicyEngine.EvaluateIsSteps | internal/policy/engine.go:54-128 | on printed UUIDs each way Evaluate can answer is a step of the concurrent machine with the same decision and the same pending write |
| PolicyEngine.StepKeepsInv | internal/policy/engine.go:104-121 | every step of any interleaving keeps each cache entry equal to what some past read gave, with an expiry at most lifetime plus delay after that read |
| PolicyEngine.StalenessBounded | internal/policy/engine.go:46-128 | in every run every decision returned without error is the one the table gave at an instant at most 60 seconds plus the write delay before, 10 seconds plus the delay for the denial of a missing policy |
| PolicyEngine.PresentRowAnswers | internal/policy/engine.go:46-121 | in every run, while the triple has had a row at every instant of the last 10 seconds and the delay, an answer is that of a row that was there at some instant of the last 60 seconds and the delay, never the denial of a missing policy |
| PolicyEngine.LandedWriteServes | internal/policy/engine.go:104-145 | a write that landed answers a lookup of its triple, while nothing overwrites or deletes it, if and only if at most 60 seconds have passed since, 10 for a missing policy |
| PolicyEngine.SettledRowIsReturned | internal/policy/engine.go:48-53 | at every step of every interleaving an evaluation that answers returns the row's decision, if the row was unchanged for 60 seconds and the delay |
| PolicyEngine.OldDecisionServable | internal/policy/engine.go:121-145 | a decision the table no longer gives can still be served in some continuation if and only if the cache holds it live or a pending write of it can still land |
| PolicyEngine.InvalidationIsFresh | internal/policy/engine.go:147-154 | after an invalidation an old decision can come back if and only if a write of it was pending that can still land |
| PolicyEngine.AnswersAfterInvalidation | internal/policy/engine.go:147-154 | with no write pending from before the change, every later answer in every run is the changed row or a later one |
| PolicyTable.Policies.UpsertPolicy | internal/db/policies.sql.go:161-202 | afterwards the triple has the rule given, under its old id if it had one; only a collision of the generated id fails, changing nothing |
| PolicyTable.Policies.DeletePolicy | internal/db/policies.sql.go:24-32 | the row with the id is gone, the others stay |
| PolicyTable.Policies.DeletePoliciesByRole | internal/db/policies.sql.go:14-22 | the rows of the role are gone, the others stay |
| PolicyTable.Policies.GetPolicyByRoleServerTool | internal/db/policies.sql.go:55-83 | a row of the triple with its rule, and none if and only if no row has the triple |
| PolicyTable.ApplyRefinesStep | migrations/000004_create_policies.up.sql:17 | each operation on the table with unique triples acts on lookups as one operation on a map from triples |
| PolicyTable.LookupIsLastUpsert | internal/db/policies.sql.go:161-169 | over any sequence of upserts and deletes a lookup returns a rule if and only if the last upsert of the triple wrote it and no delete removed its row since |
| PolicyTable.IdStable | internal/db/policies.sql.go:164-168 | the id of a triple's row survives any further upserts and unrelated deletes |
| PolicyTable.RowsByUpsert | internal/db/policies.sql.go:161-169 | every new row is the upserted one with its creation time, a row keeps its triple and creation time, and it changes only by an upsert of its triple |
| Tokens.TokenManager.constructor | internal/auth/tokens.go:43-48 | a lifetime of zero means eight hours |
| Tokens.TokenManager.Issue | internal/auth/tokens.go:53-63 | stores the user under the token's hash for its lifetime; nothing is stored when no token could be generated |
| Tokens.TokenManager.Validate | internal/auth/tokens.go:68-81 | a token of another length is invalid without a lookup, an absent key is not found, an unreachable Redis is a lookup failure, and otherwise the stored user is returned |
| Tokens.TokenManager.Revoke | internal/auth/tokens.go:84-87 | deletes the key, or leaves Redis as it was when it cannot be reached |
| Tokens.ValidatedIffGranted | internal/auth/tokens.go:50-87 | in any history of the shared Redis, and barring hash collisions, validation returns a user if and only if the token was issued to that user, not issued or revoked since, and is within its lifetime |
| Tokens.RefusedIffUngranted | internal/auth/tokens.go:68-81 | in such a history validation answers not found if and only if a token of the right length is granted to nobody, and invalid if and only if its length is wrong; nothing else is possible beside the user |
| Tokens.RevokeAndIssue | internal/auth/tokens.go:83-87 | a revoked token is never granted again, and an issued one is granted exactly until its lifetime ends |
| Tokens.KeysCollideWithHashes | internal/cache/keys.go:35-37 | two tokens share a key if and only if they share a hash |
| Keys.FamiliesDisjoint | internal/cache/keys.go:23-37 | no key is of two families |
| Keys.PolicyKeyInjective | internal/cache/keys.go:23-25 | the policy key separates any two triples with printed UUIDs, tool names with colons included |
| Keys.RateLimitKeyInjective | internal/cache/keys.go:29-31 | the rate-limit key separates any two user texts and printed servers |
| Keys.SpellingsGetSeparateWindows | cmd/proxy/main.go:240 | two accepted spellings of one user id have two windows |
| Uuids.ScanPrint | cmd/proxy/main.go:210-215 | scanning a printed UUID gives the UUID back |
| Uuids.PrintInjective | cmd/proxy/main.go:210-215 | two UUIDs never print alike |
| Uuids.ScansIff | cmd/proxy/main.go:164-169 | a text scans as a user id if and only if it is 32 hexadecimal digits, or 36 characters with digits everywhere but in the four separator places |
| Uuids.ScanCaseless | cmd/proxy/main.go:164-169 | the case of the digits does not change the id |
| Redis.Projection | internal/cache/keys.go:1-3 | what Redis holds at a key is what the commands on that key alone would leave, whatever other commands are interleaved |
| Redis.Server.SlidingWindow | internal/ratelimit/limiter.go:27-46 | the script removes the stamps whose score is at most the cutoff's, adds the call's, returns how many are then held, and renews the expiry |
| Events.Validate | internal/audit/event.go:94-114 | an event passes if and only if its four texts are present and its outcome is listed |
| Events.RoutingKeyUniform | internal/audit/event.go:42-55 | every outcome, listed or not, is routed under the prefix followed by the outcome |
| Topics.PersistBindingExact | internal/audit/writer.go:113-114 | an outcome reaches the persist queue if and only if it is a single word |
| Topics.ValidEventRouted | internal/audit/writer.go:113-114 | every event that passes validation reaches the persist queue |
| Topics.AlertingBindingsExact | internal/audit/alerting.go:77-84 | the alerting queue receives an outcome if and only if it is denied or rate-limited |
| Topics.EveryDeadLetterRouted | internal/audit/writer.go:71-72 | a dead-lettered message reaches the dead-letter queue whatever its key and its number of words |
| Alerting.AlertConsumer.ConsumeLoop | internal/audit/alerting.go:119-137 | alerts on the events that decode, in order, and acknowledges every delivery taken |
| Alerting.AlertsAreBlocked | internal/audit/alerting.go:77-137 | with each message delivered once, exactly the denied and rate-limited events raise alerts, in the order of publication |
| Alerting.AlertedAtLeastOnce | internal/audit/alerting.go:119-137 | over every run with crashes and redelivery, only denied and rate-limited events raise alerts, each waits in the queue until it is acknowledged and by then has raised one, and none raises more than one beyond the number of crashes |
| Alerting.CrashesRepeatAlert | internal/audit/alerting.go:131-134 | since the acknowledgement follows the alert, crashes in between repeat the alert of any such event any number of times |
| Alerting.PersistReceivesAll | internal/audit/writer.go:113-114 | the persist queue receives all valid events in order |
| AuditWriter.AuditEvents.InsertAuditEventWithID | internal/db/audit_events.sql.go:104-157 | inserts under a new id; on a conflict it changes nothing and returns an error |
| AuditWriter.Writer.Persist | internal/audit/writer.go:204-234 | succeeds exactly when the ids scan, the time is set and this call inserted the row |
| AuditWriter.RowOfExactly | internal/audit/writer.go:204-234 | an event has a row if and only if its three ids scan and its time is set, and the row then says what the event says, field by field |
| AuditWriter.Writer.HandleDelivery | internal/audit/writer.go:179-202 | acknowledged if and only if this delivery inserted the row, dead-lettered if and only if the body does not decode or validate, requeued otherwise |
| AuditWriter.Writer.ConsumeLoop | internal/audit/writer.go:161-177 | handles the deliveries one by one until the context ends |
| AuditWriter.StepConserves | internal/audit/writer.go:179-202 | every published message is in exactly one of ready, unacknowledged, acknowledged and dead-lettered, after every step |
| AuditWriter.StepKeepsRows | internal/db/audit_events.sql.go:116 | no step changes or removes a row |
| AuditWriter.RunKeepsInv | internal/audit/writer.go:161-234 | over every run with crashes and redelivery, acknowledged messages have a row equal to their event, dead-lettered ones are malformed, every row comes from a well-formed message, and rows stay as they are |
| AuditWriter.RowsAreOfEvents | internal/audit/writer.go:204-234 | in every state a run reaches, each row has exactly the ids and fields of a published event with a listed outcome |
| AuditWriter.AckedIdsDistinct | internal/audit/writer.go:221-233 | two acknowledged messages never share an event id |
| AuditWriter.CanBeAckedExactly | internal/audit/writer.go:194-201 | a well-formed message can still become acknowledged if and only if its acknowledgement is on its way, or its ids scan and no row has its id |
| AuditWriter.StuckStaysWaiting | internal/audit/writer.go:194-199 | a message whose row exists without its acknowledgement is redelivered in every continuation, neither acknowledged nor dead-lettered |
| AuditWriter.DuplicateIsStuck | internal/audit/writer.go:221-233 | of two messages with one event id, once one is acknowledged the other is stuck |
| AuditWriter.CrashLeavesStuck | internal/audit/writer.go:194-201 | a run that gets there: a crash between the insert and the acknowledgement leaves any storable message stuck |
| AuditWriter.LostReplyLeavesStuck | internal/audit/writer.go:194-201 | an insert whose reply is lost leaves its message stuck as well |
| Brokers.StepsConserve | internal/audit/writer.go:179-202 | no delivery, verdict, settlement or crash loses or doubles a message of the queue |
| Redaction.MaskedResult | internal/mcp/redact.go:28-43 | the number of items, their types and the error flag are preserved |
| Redaction.RedactJson | internal/mcp/redact.go:66-77 | the loop over the field set gives the masked document in every order of iteration |
| Redaction.RedactFields | internal/mcp/redact.go:19-44 | each text item that decodes to an object is masked, every other item is untouched |
| Redaction.RedactJsonBytes | internal/mcp/redact.go:49-62 | masks the top-level keys of a document, and returns anything else as it is |
| Redaction.BytesRedacted | internal/mcp/redact.go:49-62 | by what the data parses to: an object keeps its keys with the placeholder under those listed, null stays null, anything else, undecodable data included, is returned as it is |
| Redaction.MaskedEqualIffAgree | internal/mcp/redact.go:71-75 | two documents mask to the same one if and only if they have the same keys and agree outside the fields: all that is hidden is the values |
| Redaction.RedactionNoninterference | internal/mcp/redact.go:10-18 | results that differ only in the values of redacted fields become the same result, text by text |
| Redaction.RedactedTwice | internal/mcp/redact.go:19-44 | redacting by one list and then another is redacting by both, in either order |
| Redaction.RedactedIdempotent | internal/mcp/redact.go:19-44 | redacting twice is redacting once |
| Mcp.ToolResultRoundTrip | internal/mcp/types.go:57-67 | encoding a tool result and decoding it gives the result |
| Mcp.ResultDecodesIff | internal/mcp/types.go:57-67 | a document decodes to a tool result if and only if its keys describe it: an array of items whose type and text are absent, null or strings, and a flag that is absent, null or a boolean, whatever other keys there are |
| Mcp.FilteredDescribes | cmd/proxy/main.go:300-310 | a downstream result that describes a tool result is filtered to one that describes the same, in which every text item that parses to an object keeps its keys, has the placeholder under those listed and its own values under the others |
| Mcp.RequestDecodesIff | internal/mcp/types.go:11-16 | a body decodes to a request if and only if its version and method are absent, null or strings, with that method and the parameters as they are, whatever other keys there are |
| Mcp.CallParsesIff | cmd/proxy/main.go:330-362 | a request parses to a call if and only if the method is tools/call and the keys of its parameters name a server and a tool, with the arguments an object, null or absent |
| Mcp.AskedIff | cmd/proxy/main.go:138-142 | the same for a whole body, by its keys |
| Mcp.Bearer | cmd/proxy/main.go:365-372 | the token is what follows the prefix and is not empty; there is none if and only if the header is not the prefix followed by a non-empty token |
| Mcp.CallRoundTrip | cmd/proxy/main.go:330-362 | a tool call is read back from the parameters that ask for it if and only if the method is right and server and tool are named |
| Mcp.CleanParamsKeepCall | cmd/proxy/main.go:352-361 | the downstream server reads back the same tool name and arguments |
| Mcp.FilteredEqualIff | cmd/proxy/main.go:300-310 | two downstream results are filtered to the same text if and only if they are the same, or both decode to tool results that agree item by item outside the redact list |
| Redaction.MaskedItemsEqualIff | internal/mcp/redact.go:29-42 | two content items redact to the same item if and only if they are the same, or both texts are objects agreeing outside the fields, or both are null |
| Lifecycle.ReplyTellsExactly | cmd/proxy/main.go:300-326 | what the agent learns: two downstream responses get the same reply if and only if they have the same error object and the same or indistinct results |
| Lifecycle.ReplyRedacted | cmd/proxy/main.go:300-326 | for a forwarded call whose downstream result describes a tool result, the text in the reply and in the event summary parses to the same tool result with every listed key of every object text replaced, and the error object passes through |
| Lifecycle.ErrorsUnredacted | cmd/proxy/main.go:281-298 | error objects and results that do not decode reach the agent as they are, and the text of a failed forward is in the audit event in clear |
| Lifecycle.ReplyNoninterference | cmd/proxy/main.go:300-326 | two downstream results that redaction makes indistinct give the agent the same reply and the audit log the same event, summary included |
| Lifecycle.EndingNoninterference | cmd/proxy/main.go:133-327 | the same for whole requests: two runs that differ only in such results end alike, reply, event and forward |
| Mcp.AuditParamsUnchangedIff | cmd/proxy/main.go:317 | redaction leaves the audited parameters unchanged if and only if the list names neither the tool name nor present arguments, or the name already is the placeholder |
| Lifecycle.AuditParamsDecode | cmd/proxy/main.go:231 | the audited parameters decode to the forwarded ones with the named top-level keys masked |
| Lifecycle.EventRedacted | cmd/proxy/main.go:225-317 | the event of a request, whatever its outcome, is about that request's job, its parameters decode to the forwarded ones with the keys masked that the decision lists, and it has no summary when the call was denied or rate-limited |
| Lifecycle.EventInClearIff | cmd/proxy/main.go:225-317 | the event of a request carries the parameters in clear if and only if the list names neither the tool name nor present arguments, or the name already is the placeholder |
| Lifecycle.EventHoldsArguments | cmd/proxy/main.go:225-317 | unless the list names the arguments as a whole, every argument is in the event of the request with its value, whatever fields it names |
| Lifecycle.ForwardedIffConfirmed | cmd/proxy/main.go:138-298 | a request is forwarded, with a given job and decision, if and only if it decodes, its token is valid, user and server are active, the policy allows it and the limiter admits it |
| Lifecycle.TargetedIff | cmd/proxy/main.go:138-208 | the policy is consulted for a job if and only if the request, the caller and the server are in order |
| Lifecycle.CallerReplies | cmd/proxy/main.go:138-184 | exactly which requests are answered with the parse error and the unauthorized code, by the keys of the body, what Redis holds under the key of the token, and the user table |
| Lifecycle.UngrantedIsUnauthorized | cmd/proxy/main.go:151-161 | in any history of the shared Redis a request with a token that nobody holds (never issued, revoked, issued to another, or past its lifetime) or of the wrong length ends as unauthorized, without event or forward |
| Lifecycle.TargetReplies | cmd/proxy/main.go:189-208 | an active caller whose body asks for no call gets the invalid-params code, and nobody but an active caller gets it or the forbidden code before the policy is consulted |
| Lifecycle.ServerReplies | cmd/proxy/main.go:194-208 | the reply to an active caller who asks for a call: internal error, invalid params or forbidden exactly when the lookup fails, the server is unknown, or it is inactive |
| Lifecycle.InternalErrors | cmd/proxy/main.go:151-198 | exactly which requests end with the internal error before the policy is consulted |
| Lifecycle.ConcludedReplies | cmd/proxy/main.go:217-326 | exactly when a targeted request is answered as forbidden, rate-limited, upstream error or with the downstream reply, whose error object passes through |
| Lifecycle.RefusalHeaders | cmd/proxy/main.go:247-263 | a refusal for the quota carries the limit of the decision and a remaining count of zero |
| Lifecycle.EventByEnding | cmd/proxy/main.go:217-320 | allowed and error events are published exactly for forwarded requests, denied ones exactly for policy denials, rate-limited ones exactly for replies with the quota headers; the summary of an allowed event is what the agent received |
| Lifecycle.SilentExactly | cmd/proxy/main.go:217-245 | a request ends without an audit event if and only if its policy was not consulted, or the policy allowed it and the limiter failed |
| Lifecycle.LimiterErrorIsSilent | cmd/proxy/main.go:241-245 | every allowed request with a positive limit whose limiter call cannot reach Redis ends with the rate-limited code and no event |
| Lifecycle.UnauditedCall | cmd/proxy/main.go:241-245 | a concrete request of that kind for every caller and call, against the promise that every decision is published |
| Lifecycle.Proxy.Resolve | cmd/proxy/main.go:138-208 | the steps up to the target give the stage that the specification gives, and change nothing |
| Lifecycle.Proxy.Admit | cmd/proxy/main.go:239-246 | the limiter's answer, with the one command it sends |
| Lifecycle.Proxy.Relay | cmd/proxy/main.go:266-326 | one forward, one event, and the reply after redaction |
| Lifecycle.Proxy.Handle | cmd/proxy/main.go:133-327 | reply, event, forward, Redis command and cache write of a whole request are those of the specification; Redis is changed by the limiter alone, and only after the policy allowed the call |
| Gateway.DeployedSeparated | internal/cache/keys.go:1-37 | the keys the proxy builds keep the three families apart, and the policy keys and window keys injective |
| GatewaySafety.CacheFollows | internal/policy/engine.go:54-154 | every step of the whole gateway is one step of the policy engine's machine |
| GatewaySafety.StepKeepsShared | internal/cache/keys.go:21-37 | no interleaving lets token, cache and limiter operations disturb one another in the shared Redis |
| GatewaySafety.QuotaIsAdmission | internal/ratelimit/limiter.go:84-114 | in the shared Redis the limiter's answer is the admission rule on the key's whole history of calls |
| GatewaySafety.QuotaIsOwn | cmd/proxy/main.go:239-246 | the key whose history decides a request is the limiter's key of that user and server, and of no other |
| GatewaySafety.StepKeepsInv | cmd/proxy/main.go:133-327 | every step of every interleaving keeps each request backed by what it was told, and requests and recorded calls in one-to-one correspondence |
| GatewaySafety.ForwardsAreJustified | cmd/proxy/main.go:133-298 | in every interleaved run each forward was preceded, in this order, by a valid token, an active user, an active server, a decision of a row that allowed the call at most 60 seconds and the write delay before, and a limiter admission under that row's limit |
| GatewaySafety.ForwardsBounded | cmd/proxy/main.go:239-271 | in every interleaved run, for every skew and drift: the calls forwarded for one user to one server with distinct stamps in an interval no longer than the window less the skew and rounding, and than the expiry less the drift, are at most as many as the limit the last of them was decided under |
| GatewayAccounts.EventsCountAnswers | cmd/proxy/main.go:217-320 | at every moment of every run denied events count the policy denials, rate-limited events the quota refusals, and allowed and error events together the forwards answered, which are all forwards once all requests are answered |
| GatewayAccounts.UnreportedExactly | cmd/proxy/main.go:217-320 | in every interleaved run an answered request has no audit event if and only if its policy was not consulted or the limiter failed it |
| GatewayAccounts.UnavailableByLink | cmd/proxy/main.go:240-245 | in the shared Redis the limiter fails a request if and only if its limit is positive and the command or its reply is lost |
| GatewayAccounts.LostReplyCharges | internal/ratelimit/limiter.go:95-106 | a request whose reply from the limiter is lost is recorded in the window all the same, and ends with an error alone: no forward and no event |
| GatewayAccounts.AdmissionsAreForwards | cmd/proxy/main.go:239-271 | every call the limiter recorded belongs to exactly one request, not denied by policy, and was admitted if and only if that request was forwarded, once all requests are answered and unless its answer was lost |
| GatewayAudit.SubmittedIsStorable | internal/audit/event.go:70-114 | in every run every event of a request, completed with an id and a time, passes validation, has a row with exactly its fields, is routed to the persist queue, and to alerting if and only if the call was blocked |
| GatewayAudit.SubmittedIsRedacted | cmd/proxy/main.go:217-320 | in every interleaved run the parameters of every event submitted decode to the forwarded ones with the keys masked that the decision of its request lists, and events of blocked calls have no summary |
| GatewayFreshness.ForwardsAfterInvalidation | internal/policy/engine.go:147-154 | after a row changed and its key was deleted with no older write pending, every call forwarded in any interleaved run by a request not decided at the deletion has the decision of the changed row or a later one |
| GatewayRedaction.RunNoninterference | cmd/proxy/main.go:300-326 | two interleaved runs of any number of requests that differ only in downstream results which redaction makes indistinct end in the same world: the same replies, events, forwards, Redis commands and cache writes |
| HandlerRun.RestOfBegin | cmd/proxy/main.go:133-327 | the stages one after another lead to the handler's ending |
| HandlerRun.OwedOfBegin | cmd/proxy/main.go:133-327 | and leave behind the cache write the evaluation launches and, if the policy allowed the call, the limiter's one command |
| HandlerRun.ConfirmedIsForwarded | cmd/proxy/main.go:133-298 | the converse of the safety result: a new request that, from some point of a run on, meets every condition at the successive instants it gets to it, is forwarded with that job and decision in a continuation of the run |
| HandlerRun.HandlerIsRun | cmd/proxy/main.go:133-327 | any run can go on with the request's own steps alone, each at its own clock reading, in order, to the ending the handler gives it with those readings, with the same cache writes launched and the same Redis commands executed: the undisturbed handler is a run of the interleaved machine |

## Left out

- HTTP, forwarding and secret lookup (`internal/mcp/forwarder.go`, `internal/auth/resolver.go`, `internal/middleware`): a forward is an arbitrary success or error.
- The admin handlers and `internal/api`: validate-then-query wrappers; only the effect of upserts and deletes on the table is modelled.
- The clients of Redis, Postgres and RabbitMQ: small machines stand for them, with refused commands and lost replies. Redis drops a key once its clock has passed the expiry time; the order of the ready queue and the prefetch limit are not modelled.
- The UUID parser of the driver is not part of the repository; its two accepted lengths and its tolerance of any separator follow the driver's documented behaviour.
- JSON at the byte level: documents are values, a codec converts them, and its print-and-parse round trip is a premise where it is needed. Case-insensitive field matching, duplicate keys, trailing data and number formatting are not modelled, nor cache entries that do not parse.
- SHA-256, token generation, event ids, clocks and latencies: inputs of the steps. Freedom from hash collisions is a premise, for the tokens of a run only.
- The 32-bit width of limits and latencies: nothing is computed with them but comparisons and one difference, which the code takes in 64 bits.
- Foreign keys and other database constraints of the audit table: a statement the database refuses is one outcome of the insert.
- What `send` does with an event after the worker handed it over: marshalling, the five-second timeout and a broker that refuses are not modelled, so dispatched means handed to the broker client.
- A full audit buffer and the events dropped by it are modelled at the publisher; the gateway's accounts count events submitted to it.
- Error texts, request ids, log lines, quota header formatting, and the row ids that queries return beside the columns used.
- `MemoryPublisher`, `NopPublisher`, `cmd/mockdownstream`, configuration, the `main` functions, audit-log pagination and all of `web/`.
- GatewaySafety.ForwardsBounded: stated per user text and server, with the skew and drift of the calls on that key and distinct stamps of the calls counted as premises, because the code guarantees none of them.
- HandlerRun.HandlerIsRun: stated for a request whose steps nothing interleaves with; what holds under interleaving are the results about all runs.
- GatewaySafety.ForwardsAreJustified: the bound on the age of the policy row is relative to the instant the decision was given, because nothing in the code limits the time between that instant and the forward.
