# PayKit's delivery engine, in Dafny

PayKit receives payment notifications from MTN MoMo, stores each payment once, forwards it to the
merchant's webhook with retries, and keeps deliveries that failed for good in a dead-letter queue. No
database transaction spans the statements of one request, and every request, notifier and dead-letter
retry runs in a goroutine of its own. This project models those goroutines as a transition system whose
steps are the single statements, proves what holds in every interleaving of any number of them, and models
the rate-limiter registry as a cache that must agree with one that never evicts.

| module | what it holds |
|---|---|
| `Prelude` | int64 truncation, counting and summing over sequences |
| `Storage` | the tables with their UNIQUE, enum and foreign-key checks; the shared `Store` object |
| `Auth` | timestamp, signature and replay checks, and the payload parser |
| `Engine` | the transition system: handlers, notifiers, retries, counters, one clock |
| `Ingestion` | exactly-once, durable acknowledgements, provenance of every row |
| `Quota`, `Overshoot` | call-count conservation, how far a month's calls can pass the limit, and that they can |
| `Linearization` | concurrent ingestion against the same requests served one at a time |
| `Delivery`, `DeadLetters`, `EnqueuedRows`, `LostDeliveries`, `FailedRetries` | notifier runs and the dead-letter queue |
| `Accounting` | the Prometheus counters |
| `RateLimit`, `Grants`, `LimiterRegistry` | token buckets with idle eviction, when they grant, and the objects that implement them |
| `Webhook`, `Notify`, `Listing` | the handlers as they are written, imperatively, on one `Store` |

The transition system decides nothing the program does not decide. An action names the process that moves
and carries the clock, the merchant's response and whether the statement fails, so the theorems range over
every schedule, every fault and every response. `Webhook` and `Notify` tie the program's own control flow
to it: `HandleMoMoWebhook` and `RetryDLQ` are proved to do what the machine's handler and retry do when
nothing runs beside them, and `NotifyMerchant` to produce the completed trace that `EveryNotifierTrace`
gives for every notifier.

A handler does one check step (timestamp, signature, replay and parser, with the one database read between
them), so the gaps that remain open to other requests are those the program has: between the tier check and
the checks, between the checks and `Insert`, between `Insert` and the increment, and before the notifier
starts. The clock of the state numbers the steps; the time of day that a request is checked against is part
of the action.

## Where the code and its documentation disagree

The model follows the code.

- A webhook's notifier is handed a transaction whose row id is still 0 (internal/payments/parser.go:32-41,
  internal/storage/store.go:36-53). `EnqueueDLQ` then breaks the foreign key of
  internal/storage/migrate.sql:100 and its error is dropped, so the promised quarantine of a delivery out of
  attempts happens only for deliveries that a dead-letter retry started: `QueuedExactlyWhen`,
  `WebhookDeliveryIsLost`, `EmptyQueueStaysEmpty`.
- `DeliveryLog.MerchantID` is never set (internal/payments/notifier.go:51-55), so no delivery log is ever
  stored: `DeliveryLogsNeverStored`. Trace properties are stated over the records handed to the store.
- `GetByID` does not select `merchant_id` (internal/storage/store.go:55-70), so `GET /transactions/:id` never
  finds a merchant's own transaction: `GetTransactionFindsExactlyWhen`.
- A failed retry does add a dead-letter row, despite the comment at internal/webhook/dlq_admin.go:113:
  `FailedRetryLeavesRequeued`.
- The retry counter labelled "success" counts launches, before the outcome is known
  (internal/webhook/dlq_admin.go:126).
- `MarkDLQRequeued` sets REQUEUED, not PENDING as its comment says, whatever the row's status is
  (internal/storage/store.go:336-350), and does not keep two retries of one row apart: `OverlapReopens`.
- `CheckTimestamp` admits a payload 2^63 ns or more ahead of the clock, because negating the saturated
  difference wraps, and a skew above 9223372036 s wraps too: `TimestampCheckIsExact`, `SkewMustFitADuration`.
- The page offset wraps at 2^63 and a page far past the end can then repeat rows: `PageOffsetExactlyWhen`,
  `PageServedExactlyWhen`, `FarPageRepeats`.
- The waits are 2 s and 4 s, not 1, 2 and 4 (internal/payments/notifier.go:43-48).

## Model

| member | source | states |
|---|---|---|
| `Ingestion.ExactlyOnce` | internal/webhook/handler.go:77-135 | In every interleaving a provider transaction id has at most one row and at most one webhook-started notifier, however many handlers pass the replay check first; each such notifier's payment is stored, and whoever stored a row and answered has started its notifier. |
| `Ingestion.DurableAcknowledgement` | internal/webhook/handler.go:85-135 | Whenever a handler has answered 200, on the accept path or as a replay, the id it was asked about has exactly one row then and in every later state, unchanged. |
| `Ingestion.AcknowledgedOnlyWhenAuthentic` | internal/webhook/handler.go:71-93 | In every interleaving, a request answered 200, as accepted or as a replay, carried a matching non-empty signature and a timestamp within the configured skew when it was checked. |
| `Ingestion.AdmissionProvenance` | internal/webhook/handler.go:72-118 | Every row stored in a run came from exactly one request, signed, complete and for a merchant active when loaded; its amount is one the column takes, and its columns are, one by one, the fields of that request's payload, the payer hashed and the body kept; within the int64 range of the clock arithmetic it was received within the configured skew, 300 s unless set, of its check. |
| `Ingestion.HandlerKeeps` | internal/webhook/handler.go:49-136 | One statement of a handler keeps the tables sound and append-only, stores nothing but an admissible payment, and never one whose id is taken. |
| `Ingestion.RunKeeps` | internal/storage/store.go:26-53 | Unique ids, one storing handler per id and one notifier per storing handler are kept by every run, whose rows only ever grow. |
| `Linearization.FirstWinsLinearization` | internal/webhook/handler.go:77-135 | Any interleaving leaves the transactions table that serving the requests that reached Insert one at a time, in Insert order, leaves; once no call is uncounted, also the same call count for every merchant. |
| `Linearization.AloneIsFirstWins` | internal/webhook/handler.go:114-123 | A request served alone, after its checks, stores its row unless the id is taken, and then counts the call once. |
| `Linearization.PrecheckOnlyChangesAnswers` | internal/auth/verifier.go:101-116 | Under the same schedule a verifier that ignores `Exists` gives the same tables, notifiers, retries and counters in every state; handlers differ only in how replays were answered. |
| `Quota.CallCountConservation` | internal/storage/store.go:183-191 | In every reachable state a merchant's calls + handlers between Insert and increment + failed increments = initial calls + rows stored since. |
| `Quota.OvershootBound` | internal/auth/quota.go:22-36 | A run takes the count no further than the largest limit so far + the most requests in flight at once - 1 (or where it began, if that is more); with at most one in flight, started within the limit, never past the limit. |
| `Overshoot.OvershootAttained` | internal/webhook/handler.go:114-123 | From any tables on which an active merchant is one call below its limit, for any program environment and any K >= 1 well-formed, signed bodies about distinct new payments, some run with K in flight reaches limit + K - 1. |
| `Overshoot.SomeSetupIsReady` | internal/auth/quota.go:28-36 | There are such tables and bodies for every limit >= 1 (a merchant limited to 0 is never admitted) and every K. |
| `Quota.StepOvershoot` | internal/auth/quota.go:28-36 | A step either admits a request below the limit without raising the count, or does not raise count plus requests in flight. |
| `Quota.UpdatesTakeEffect` | internal/storage/store.go:169-202 | The next request for a merchant is held to the limit an operator has just set, finds the merchant exactly if it was set active, and takes the new webhook along. |
| `DeadLetters.DLQOwnershipAndLifecycle` | internal/webhook/dlq_admin.go:81-134 | In all interleavings every dead-letter row belongs to the merchant of a SUCCESSFUL payment, RESOLVED and resolved_at go together, no row is deleted or re-owned, and PENDING is never entered. |
| `DeadLetters.EveryNotifierTrace` | internal/payments/notifier.go:18-110 | Every notifier that has returned has the promised trace of records and responses, whatever ran beside it. |
| `DeadLetters.DeliveryLogsNeverStored` | internal/payments/notifier.go:51-55 | delivery_logs never gains a row, because the merchant id it references is never filled in. |
| `DeadLetters.DLQConservation` | internal/payments/notifier.go:91-105 | Rows added for a transaction = its retry-started notifiers that used up every attempt and met no database error. |
| `DeadLetters.EmptyQueueStaysEmpty` | internal/payments/notifier.go:90-104 | A queue that starts empty stays empty in every run: webhook deliveries are never queued. |
| `DeadLetters.RetryTakesUpExactlyWhen` | internal/webhook/dlq_admin.go:81-89 | In every reachable state a retry takes up a dead letter exactly when the row has the id called for, belongs to the caller and is not RESOLVED, and the read succeeds. |
| `DeadLetters.ResolvedIsSound` | internal/webhook/dlq_admin.go:117-134 | Whenever a step writes a RESOLVED row, new or over another RESOLVED one, it is the ResolveDLQ of a retry of that very row, by its owner, and that retry's own notifier got a 2xx for the row's transaction after the retry read the row. |
| `DeadLetters.EveryResolveIsSound` | internal/webhook/dlq_admin.go:127-129 | The same, in raw status codes, for every retry that goes on to ResolveDLQ, whatever its row's status; if the statement succeeds the row is then RESOLVED at that time, and if it fails nothing changes. |
| `DeadLetters.LeavesResolvedExactlyWhen` | internal/storage/store.go:336-350 | A RESOLVED row leaves that status exactly when a retry that had already read it requeues it and the statement succeeds. |
| `DeadLetters.ResolvedIsAbsorbing` | internal/webhook/dlq_admin.go:86-128 | While retries of a row never overlap, once RESOLVED it stays RESOLVED. |
| `DeadLetters.ResolvedForGoodExactlyWhen` | internal/webhook/dlq_admin.go:81-128 | In any reachable state, however retries overlapped before: a RESOLVED row stays RESOLVED in every continuation if and only if no retry has read it and not yet requeued it. |
| `DeadLetters.OverlapReopens` | internal/webhook/dlq_admin.go:86-96 | Two overlapping retries can put a RESOLVED row back to REQUEUED: a concrete run. |
| `LostDeliveries.QueuedExactlyWhen` | internal/payments/notifier.go:90-105 | In every reachable state a notifier out of attempts adds its row (owner, payment, attempt count 3, last code, FAILED) exactly when a retry started it and the database does not fail; it is counted as an enqueue either way. |
| `LostDeliveries.WebhookDeliveryIsLost` | internal/webhook/handler.go:125-126 | For any environment, tables, merchant with a webhook and successful new payment, and any three failing responses: a run without database errors stores the payment, gives its delivery up and leaves the dead-letter queue as it was. |
| `LostDeliveries.SomeSetupIsPayable` | internal/payments/notifier.go:18-24 | There is such an environment, merchant and payment, with the replay check on and an empty dead-letter queue. |
| `FailedRetries.FailedRetryLeavesRequeued` | internal/webhook/dlq_admin.go:92-132 | A failed retry during which no other retry was active on its row, whatever other retries of the row did before, leaves the row REQUEUED; it started exactly one notifier, which, where there was a webhook to call and EnqueueDLQ met no error, appended exactly one row: FAILED when appended, for the same payment and owner, under an id of its own, and still in the table. |
| `EnqueuedRows.RunTraced` | internal/payments/notifier.go:90-105 | In every run, a notifier has appended a dead-letter row exactly when a retry started it, it used up every attempt and no fault struck; its own fault-free EnqueueDLQ step appended that row, and nothing else, as its dead letter; the row is still the only one of its id, and no two notifiers share one. |
| `EnqueuedRows.RunLaunchesOnce` | internal/webhook/dlq_admin.go:116-127 | A retry starts at most one notifier, and waits for that one. |
| `FailedRetries.OwnRowOnly` | internal/webhook/dlq_admin.go:91-132 | A retry's statements change no dead-letter row but the one it was called for, and none when it is rejected or gives up. |
| `Accounting.CounterConservation` | internal/payments/notifier.go:57-68 | Per merchant and in every state: SUCCESS + FAILED + RETRYING = responses received; SUCCESS = notifiers that got a 2xx; FAILED = enqueues + enqueues still to come; retries{success} = resolved + retries{failure} + in flight. |
| `Accounting.RetryCounters` | internal/webhook/dlq_admin.go:126-132 | A retry's own step keeps retries{success} - resolved - retries{failure} - in flight. |
| `Delivery.EnqueueKeeps` | internal/storage/store.go:306-321 | EnqueueDLQ succeeds exactly when a retry started the notifier and the statement does not fail, and then keeps the queue sound and its old rows as they were. |
| `Delivery.LogRefused` | internal/storage/migrate.sql:59-69 | The record of an attempt is refused by the foreign key on merchants. |
| `Delivery.RunKeepsDelivery` | internal/webhook/dlq_admin.go:72-137 | Every run keeps the notifier traces, the rows that retries hold, the soundness of the queue and the identity of its rows. |
| `Auth.TimestampCheckIsExact` | internal/auth/verifier.go:70-77 | With a skew that fits a Duration, the int64 check agrees with the distance between clock and payload being at most the skew, exactly when ts - now < 2^63 ns; beyond that it admits everything. |
| `Auth.SkewMustFitADuration` | internal/auth/verifier.go:62-77 | Below the saturation point the check is right for every payload if and only if the skew is at most 9223372036 s. |
| `Auth.CheckTimestamp` | internal/auth/verifier.go:51-80 | Accepts exactly a non-empty RFC 3339 timestamp within the skew, in int64 arithmetic: the configured one if it is not negative, 300 s otherwise. |
| `Auth.Verify` | internal/auth/verifier.go:40-49 | Signature before replay: a missing and a wrong signature are reported whatever the id, and each of the six outcomes is given exactly when its condition on signature, id, fault and stored rows holds. |
| `Auth.CheckReplay` | internal/auth/verifier.go:101-116 | It passes exactly when the id is not empty, the read succeeds and no stored transaction has that id, answers Replay exactly when one has, and tells an empty id and a failed read apart. |
| `Auth.SubIsNearest` | internal/auth/verifier.go:71 | The difference of two instants is the Duration nearest to the true one: exact where it fits an int64, saturated elsewhere. |
| `Auth.FromWebhookExactlyWhen` | internal/payments/parser.go:12-42 | A payload is accepted exactly when both ids and the amount are there and the timestamp parses; the transaction then has, column by column, the payload's values, the hashed payer and the raw body, and no row id or merchant. |
| `Webhook.TierEnforcement` | internal/auth/quota.go:13-51 | Aborts with 400 exactly for an unreadable path, 404 for a merchant not found or inactive, 429 at or over the limit, and otherwise lets the merchant snapshot through; this is the machine's first step. |
| `Webhook.CheckRequestExactly` | internal/webhook/handler.go:57-100 | Which of 400, 401, 500, 200 and 422 the checks answer, each exactly when its condition on body, timestamp, signature, id, fault, stored rows and required fields holds; otherwise they pass on the payment that carries the payload. |
| `Webhook.HandleMoMoWebhook` | internal/webhook/handler.go:49-136 | Tables, answer and spawned notifier equal those of the machine's handler run without interruption, for every fault; in literal terms, either nothing changes and the answer is that of the checks or 500, or the one row that carries the payload is appended, the call is counted, and that payment, with row id 0, goes to a notifier. |
| `Notify.NotifyMerchant` | internal/payments/notifier.go:18-111 | For every attempt limit, response sequence and fault: records and result form a completed trace; counters and tables change by exactly that trace, with one enqueue exactly when an eligible delivery used up its attempts. |
| `Notify.TraceShape` | internal/payments/notifier.go:43-127 | A completed trace is RETRYING^k SUCCESS with k < N, or RETRYING^(N-1) FAILED; attempts 0, 1, 2, ... with the status code each got, 0 for none; true exactly if the last code is from 200 to 299, which no earlier one is; the dead letter counts N attempts; no record exactly without a webhook or a successful payment. |
| `Notify.CountersAfterExact` | internal/payments/notifier.go:59-68 | A run of NotifyMerchant raises each deliveries label of its merchant by the records of that status, the enqueues by the enqueue there was, and no other counter. |
| `Notify.PostWebhook` | internal/payments/notifier.go:113-127 | A response is a success exactly for a status code from 200 to 299; the code is 0 where there was no response. |
| `Notify.Redeliver` | internal/webhook/dlq_admin.go:116-134 | The goroutine of a retry: RESOLVED exactly when one of three attempts got a status code from 200 to 299; otherwise one new FAILED row with the payment and owner of the old one, three attempts and the last code, and the old row's status left alone; which counters move. |
| `Notify.RetryDLQ` | internal/webhook/dlq_admin.go:72-137 | Every answer of the endpoint, what it launches and the tables it leaves, for every fault, row status and response sequence; no counter moves unless a redelivery is launched. |
| `Notify.MachinePrepares` | internal/webhook/dlq_admin.go:81-110 | The machine's retry, run without interruption up to its goroutine, gives the answers, launches and tables that `RetryDLQ` is proved to give. |
| `Notify.GiveUp` | internal/payments/notifier.go:90-105 | After the last attempt the dead letter is enqueued, its error dropped, and the enqueue counted. |
| `RateLimit.EvictionInvisibleExactlyWhen` | internal/ratelimit/limiter.go:42-72 | Every timed trace, sweeps wherever they fall, gets the decisions of a registry that never deletes, if and only if rate * idleTimeout >= burst. |
| `RateLimit.EvictionShows` | internal/ratelimit/limiter.go:60-72 | Otherwise a concrete trace gets a different decision. |
| `RateLimit.RunMirrors` | internal/ratelimit/limiter.go:42-72 | From any registry that mirrors one that never deletes, the decisions agree and the mirroring lasts. |
| `RateLimit.KeyIsolation` | internal/ratelimit/limiter.go:95-108 | The decisions for one key in any interleaved trace are those of its requests and the sweeps alone. |
| `RateLimit.RateBoundExactlyWhen` | internal/ratelimit/limiter.go:29-72 | A registry that never deletes grants every key at most burst + rate * T requests in every stretch of length T, after any history; with eviction that holds if and only if rate * idleTimeout >= burst. |
| `Grants.GrantedExactlyWhen` | internal/ratelimit/limiter.go:42-58 | In every timed trace a request is granted if and only if the burst is not zero and, since every event before it, one more grant to its key keeps within burst + rate * T; with eviction, when rate * idleTimeout >= burst. |
| `Grants.GrantedAtIsTheDecision` | internal/ratelimit/limiter.go:107-113 | That is the decision the registry adds to those on the events before. |
| `Grants.WaitingIsRewarded` | internal/ratelimit/limiter.go:107-108 | A request at least 1/rate after the last of its key, or its first, is granted, in any timed trace, wherever sweeps fall. |
| `Grants.VolleyAfterPauseExactlyWhen` | internal/ratelimit/limiter.go:48 | After a volley has emptied a full bucket and a pause d, a volley of n is granted in full exactly when n <= burst and n <= rate * d. |
| `RateLimit.ServeLevel` | internal/ratelimit/limiter.go:107-108 | What a request is granted, plus what the key has left, never outgrows what it had plus the refill. |
| `LimiterRegistry.Registry.GetLimiter` | internal/ratelimit/limiter.go:42-58 | Gives the key's bucket, new and full if there was none, marks the key as seen, and changes no other key. |
| `LimiterRegistry.Registry.Admit` | internal/ratelimit/limiter.go:95-116 | The whole registry and the decision after a request are those of `RateLimit.Serve`, of which `Grants` says exactly when it grants. |
| `LimiterRegistry.Registry.Cleanup` | internal/ratelimit/limiter.go:60-72 | A tick deletes exactly the keys idle for longer than the timeout, keeps those idle for just that long, and changes no other. |
| `LimiterRegistry.FetchThenTake` | internal/ratelimit/limiter.go:107-108 | Fetching a bucket and then taking from it is one `Serve`. |
| `Storage.Store.Insert` | internal/storage/store.go:36-53 | Appends the row under a fresh id, or fails and changes nothing: exactly on a taken provider id, a status other than PENDING, SUCCESSFUL and FAILED, an unknown merchant, a currency over 3 characters, or a fault. |
| `Storage.Store.GetMerchantByID` | internal/storage/store.go:169-181 | Finds active merchants only. |
| `Storage.Store.IncrementMerchantCallCount` | internal/storage/store.go:183-191 | Adds one to that merchant's count and changes nothing else. |
| `Storage.Store.UpdateMerchantQuota` | internal/storage/store.go:242-252 | Sets that merchant's limit and changes nothing else. |
| `Storage.Store.SetMerchantActive` | internal/storage/store.go:231-240 | Sets that merchant's flag and changes nothing else. |
| `Storage.Store.UpdateMerchantWebhookURL` | internal/storage/store.go:193-202 | Sets that merchant's webhook and changes nothing else. |
| `Storage.Store.InsertDeliveryLog` | internal/storage/store.go:254-269 | Appends the record, or fails on either foreign key. |
| `Storage.Store.EnqueueDLQ` | internal/storage/store.go:306-321 | Appends the row under a fresh id, or fails on either foreign key. |
| `Storage.Store.MarkDLQRequeued` | internal/storage/store.go:336-350 | Sets REQUEUED and clears resolved_at, whatever the status was. |
| `Storage.Store.ResolveDLQ` | internal/storage/store.go:323-334 | Sets RESOLVED and resolved_at together. |
| `Storage.GetDLQExactlyWhen` | internal/storage/store.go:438-461 | Reading a dead-letter row by id for a merchant gives a row if and only if it is the stored row with that id and that owner. |
| `Storage.GetTransactionInternalExactlyWhen` | internal/storage/store.go:463-485 | Reading a transaction by row id gives a row if and only if it is the stored one with that id, whoever owns it. |
| `Listing.PagingPartition` | internal/webhook/handler.go:194-205 | For every positive limit, pages 1 to the last concatenate to exactly the filtered list, and none is refused. |
| `Listing.MerchantPaging` | internal/webhook/handler.go:194-205 | The pages of one merchant's list together show each of its transactions as often as it is stored, and no one else's. |
| `Listing.NewestIsExact` | internal/storage/store.go:134-167 | The filtered list holds each matching row exactly as often as it is stored and nothing else, and its k-th item has exactly k newer matching rows. |
| `Listing.PageOffsetExactlyWhen` | internal/webhook/handler.go:203 | The offset sent to the database is the page's own exactly when that fits an int64. |
| `Listing.PageServedExactlyWhen` | internal/webhook/handler.go:203-209 | The page served is the page asked for exactly when the page's own offset fits an int64 or wraps to one at or past the end of the list; otherwise the page is refused or repeats rows. |
| `Listing.FarPageRepeats` | internal/webhook/dlq_admin.go:44 | A page far past the end that serves the first page again. |
| `Listing.ListTransactions` | internal/webhook/handler.go:194-221 | Item k shows, field by field and paid exactly if SUCCESSFUL, the caller's own stored row, of the status asked for, that has exactly offset + k newer ones like it; as many as the limit and the rows left allow; 500 exactly for a page or limit the database refuses or a status that does not exist. |
| `Listing.ListDLQ` | internal/webhook/dlq_admin.go:29-58 | Item k is the caller's own dead letter with exactly offset + k newer ones; a page or limit that is not positive is replaced by its default. |
| `Listing.QueryTransactions` | internal/storage/store.go:134-167 | Row k of the answer is the merchant's stored row, of the status asked for, with exactly offset + k newer ones like it, with the columns the query selects; refused exactly for a negative limit or offset or a status that does not exist. |
| `Listing.QueryDLQ` | internal/storage/store.go:398-436 | Row k of the answer is the owner's row with exactly offset + k newer ones of that owner; the answer is as long as the limit and the rows left allow, and refused exactly for a negative limit or offset. |
| `Listing.GetTransactionFindsExactlyWhen` | internal/webhook/handler.go:149-161 | A transaction is found exactly when it is stored and the caller's id is 0, so never by a merchant; what is shown is that row, paid exactly if SUCCESSFUL. |

## Left out

- Gin routing, JSON, HTTP transport and time-outs, logging and Prometheus exposition: a request arrives decoded or not, a post has a status code or none, counters are plain integers. A path id that does not parse is answered 400 before `RetryDLQ` begins.
- SHA-256, HMAC, hexadecimal, JSON decoding and RFC 3339 parsing: functions of an environment about which nothing is assumed.
- PostgreSQL beyond atomic statements with UNIQUE, enum, VARCHAR(3) and foreign-key checks: INT overflow, malformed JSONB and lost connections are one `fault` flag on each statement. Which amounts NUMERIC(20, 2) takes is a predicate of the environment, and its rounding of them is not modelled. Sequence gaps are not modelled: a row id is used up only by a row that is stored.
- The columns available_at, created_at, last_error, plan_type, name and api_key, which decide nothing here; resolved_at is an option, and NULLs the driver cannot scan are not modelled.
- Creating or deleting merchants during a run, and the monthly counter reset: not modelled.
- The branch of the handler that loads the merchant itself (internal/webhook/handler.go:102-110): the only route runs TierEnforcement first (api/routes.go:83-87), which always sets one.
- Back-off sleeps, and panics with their recovery: a step of the machine may wait for any time, and no goroutine dies half-way.
- The 80 % quota warning header, the success-rate string, delivery-log listing, `GetByExternalID`, `GetDueDLQ`, `GetMetrics`, API keys, the IP whitelist and everything in `web/`: they only read or format stored rows, or decide who may call.
- golang.org/x/time/rate is not part of this model: `Limiter` follows its documented token bucket over reals, without infinite rates, reservations or rounding, and Allow takes effect at the instant of GetLimiter. Which key a request maps to is a parameter. The registry is modelled as the code defines it, though no route installs its middleware.
- Notify.NotifyMerchant: takes the attempt limit as a parameter, which the source fixes at 3; the machine uses 3.
- Notify.RetryDLQ: states what the goroutine leaves when nothing runs beside it; what holds beside others is in `DeadLetters` and `FailedRetries`.
- Listing.PagingPartition: assumes fewer than 2^63 rows, and rows kept in a total order of created_at; the queries are taken to return the database's slice.
- Quota.OvershootBound: counts requests in flight in the states between statements, which is where the program can be interrupted.
- Linearization.FirstWinsLinearization: starts each serial request at its checks, with the merchant snapshot it was admitted with, so quota decisions are those of the concurrent run.
