# llmbus, modelled and proved in Dafny

llmbus is a message bus for language-model calls: producers submit jobs, a worker takes them from a topic one at
a time, throttles and retries the provider calls, and writes each outcome once to a store that producers poll and
that a cost ledger is read from. This project models its rate limiter, its retry loop, its store and ledger, and the
bus as a protocol of interleaved steps, and proves what they guarantee over every run.

`dafny verify dfyconfig.toml` checks everything.

## How the model is laid out

| File | What it models |
|---|---|
| `Prelude.dfy`, `Sorting.dfy` | optional values, raised errors, real arithmetic, strictly sorted sequences |
| `TokenBucket.dfy`, `RateLimiter.dfy` | the limiter's classes with their mutable fields, and the values they hold |
| `BucketRuns.dfy`, `JointRuns.dfy`, `AcquireRuns.dfy`, `FreshRuns.dfy` | one bucket, two buckets charged together, callers of `acquire` that take turns, and bursts on a new limiter, over whole runs |
| `Retry.dfy`, `Processing.dfy`, `RetryRuns.dfy`, `RetryReports.dfy` | backoff and budget; the retry loop as a method and as a recursion; its runs; what they report and where their time goes |
| `Schema.dfy`, `Cost.dfy` | the message contract, routing, dated prices |
| `Tables.dfy`, `Store.dfy`, `Ledger.dfy`, `Dashboard.dfy` | rows and writes, the store class, the ledger query, the dashboard's totals |
| `Client.dfy`, `Worker.dfy`, `Connect.dfy` | `submit` and `poll_result`; one job and the consume loop; the broker handshake |
| `SerialQueue.dfy`, `WorkerRuns.dfy` | how long a serial worker takes for its queue, and how many calls it makes meanwhile |
| `Bus.dfy` | the bus as a state machine over its atomic steps, crashes and redeliveries included |
| `BusInvariants.dfy`, `BusOutcomes.dfy`, `BusRuns.dfy` | what every step keeps, and what follows for every run |
| `BusLinks.dfy` | the methods above as runs of the bus; nothing sent is stuck |
| `BusHistory.dfy` | when rows were completed, and which policy edit a submit is resolved by |
| `BusPostings.dfy`, `BusBilling.dfy`, `BusCallbacks.dfy` | what the submits of one id say; faithful billing and when processing raises; callbacks against polls |

Code that updates state is a class or a method with a loop, tied by its `ensures` to a function on values; the
lemmas are about those functions. Amounts, seconds and dollars are `real`. A day is an integer: the date's proleptic
Gregorian ordinal. The outside world is a parameter: clock readings, jitter draws, how each call ends and how long it
takes, and how far each sleep overshoots.

A step of the bus is one stage of one `submit`, a policy edit, a message that reached the topic some other way, a
delivery, a provider call, a finalize, a callback, a commit, or the worker's restart. Any step may follow any other
that is enabled, so producers interleave at every `await`, a producer may die anywhere between two stages, and the
worker may crash anywhere and take the uncommitted message up again. A send may fail after it has landed.

## Where the code does not do what its documentation says

* "Neither limit is ever exceeded" (`src/llmbus/ratelimit.py:103-105`) is false of the instants at which concurrent
  callers start. `ThreeStartAtOnce` gives three callers that start together on a limit of one a minute: the first
  one's tokens hold all of them back while the request bucket refills. `WindowHoldsExactly` says when the claim holds
  from a caller's start on, for all later arrivals: exactly when the balance before the charge, refilled for as long
  as the caller is held back, fits the limit. `SlidingWindow`, `SerialJointThrottle` and `JointConservedFromStart` are what
  holds always.
* The ledger groups a day's spend "exactly as it was billed" (`src/llmbus/store.py:170-171`). For one id it is enough
  that all its submits carry the same day: `FaithfulBilling`. `BillingDrifts` is a run in which a failed first send and a
  second submit a day later, across a price change, bill 3 dollars on a row that the ledger groups under a 2-dollar day.
  `BillsRowExactly`: a worker that is about to call the provider for a message ends up billing the pending row as
  recorded, whatever is reported, exactly when the message's day has a rate and that rate is in force on the row's
  day too.
* A job's occupancy "cannot be bounded statically" (`src/llmbus/retry.py:97-105`). For concurrent callers that is so:
  `ConcurrentWaitsAreUnbounded`. The one worker there is consumes serially, and then every wait is bounded by the job's own request and tokens:
  `SerialWaits`, `QueueWithinCeiling`. Its calls also keep both limits at the instants they start: `CallsThrottled`.
* A callback carries the metadata of its message, a poll that of the row. `CallbackDrifts` is a run in which they
  differ. `CallbackIsPolled`: every callback answers a message of the topic; metadata aside it says what a poll says, and
  the metadata agrees exactly when that message repeats the metadata of the submit that inserted the row. A caller that
  submits an id with one metadata only gets one story: `OneMetaOneStory`.
* Processing can raise although "one bad job never stalls the loop" (`src/llmbus/processing.py:286-294`): the limiter and
  the pricing run outside the handler. `BreaksExactly` lists what makes it raise: a missing limiter, a negative token
  count, or a success for a job dated before the price floor. `RoutedJobsThatRaise` has one job for each of the last
  two. Over all providers the retry loop is sure to return only if it makes no call; if no count is negative, it also
  returns when there is a limiter and a rate: `ReturnsExactly`. `ProcessingNeverRaises` is about the whole bus.

## Model

| member | source | states |
|---|---|---|
| TokenBuckets.TokenBucket.constructor | src/llmbus/ratelimit.py:67-73 | a bucket starts full, at the instant it is made |
| TokenBuckets.TokenBucket.Make | src/llmbus/ratelimit.py:67-73 | a rate or a capacity that is not positive is refused, anything else makes a full bucket |
| TokenBuckets.TokenBucket.Reserve | src/llmbus/ratelimit.py:75-91 | the new balance, clock and wait are those of the bucket value that the run lemmas are about; a negative amount is refused and changes nothing |
| BucketRuns.ExactBalance | src/llmbus/ratelimit.py:84-91 | after any run the balance is the least, over all windows that end now, of capacity plus refill minus what the window reserved: no window leaves less and one leaves exactly that |
| BucketRuns.LeastDelay | src/llmbus/ratelimit.py:75-91 | a delay makes every window that ends now fit the rate if and only if it is at least the returned wait |
| BucketRuns.GrantsInOrder | src/llmbus/ratelimit.py:56-64 | grant instants never decrease: first come, first served, whatever the amounts |
| BucketRuns.SlidingWindow | src/llmbus/ratelimit.py:75-91 | between any two grants, with arbitrary concurrent arrivals, at most max(capacity, first amount) plus the refill between the two instants is granted |
| BucketRuns.ConservedFromStart | src/llmbus/ratelimit.py:67-91 | however much longer than told callers sleep, what has started by t is at most capacity plus the refill since the start, for amounts of any size |
| BucketRuns.TurnsFindNoDebt | src/llmbus/ratelimit.py:152-156 | a caller that asks after the one before it was let go finds a balance that is not negative |
| BucketRuns.TurnsWaitForThemselves | src/llmbus/ratelimit.py:152-156 | such a caller waits at most for its own amount to refill |
| BucketRuns.TurnsWindow | src/llmbus/ratelimit.py:152-156 | over the instants such callers really start, any window holds at most capacity plus the first amount plus the refill |
| BucketRuns.AnyClock | src/llmbus/ratelimit.py:80-86 | a bucket driven by any clock, backwards jumps and refused calls included, has the state and the waits of an orderly run on the clock's running maximum |
| JointRuns.SerialJointThrottle | src/llmbus/ratelimit.py:102-113 | callers that take turns keep both limits at once over their actual starts, and none waits longer than its own request and tokens take to refill |
| JointRuns.JointConservedFromStart | src/llmbus/ratelimit.py:111-113 | neither dimension starts more than burst plus refill since the beginning, although each caller sleeps out the longer of two waits |
| JointRuns.WindowHoldsExactly | src/llmbus/ratelimit.py:103-113 | the claim "never exceeded" holds from a caller's start on, for all later arrivals, if and only if its balance before the charge, refilled while it is held back, fits the limit |
| JointRuns.UnitWindowHoldsExactly | src/llmbus/ratelimit.py:147-150 | the same condition is exact when every later caller spends one request, as the registry makes it |
| JointRuns.ConcurrentWaitsAreUnbounded | src/llmbus/retry.py:97-105 | for any bound, enough single requests at one instant make the last of them wait longer |
| JointRuns.BindingDimensionHolds | src/llmbus/ratelimit.py:103-113 | in particular it holds in the dimension whose own wait is the longer one |
| JointRuns.ThreeStartAtOnce | src/llmbus/ratelimit.py:103-113 | a concrete run that breaks the claim: three requests start at one instant on a limit of one a minute |
| AcquireRuns.AcquiresThrottled | src/llmbus/ratelimit.py:141-156 | acquires that follow one another on a fresh limiter, counted when they return: any stretch of them fits one request more than a minute's requests plus the refill, and its first one's tokens more than a minute's tokens plus the refill |
| FreshRuns.BurstWaitsExactly | src/llmbus/ratelimit.py:98-113 | of jobs that reserve on a new limiter at its start, each waits exactly 60 times its excess over a limit divided by that limit, for the requests or the tokens up to and with itself, whichever is longer |
| FreshRuns.BurstPassesExactly | src/llmbus/ratelimit.py:98-113 | such a burst passes without any wait if and only if it has at most a minute's requests and a minute's tokens |
| RateLimits.ProviderLimiter.constructor | src/llmbus/ratelimit.py:98-100 | two full buckets that each refill within a minute; what that lets through is `BurstWaitsExactly` |
| RateLimits.ProviderLimiter.Reserve | src/llmbus/ratelimit.py:102-113 | both buckets are charged and the longer wait returned, or a negative amount is refused and neither bucket changes |
| RateLimits.RateLimiter.constructor | src/llmbus/ratelimit.py:126-139 | one fresh limiter for each configured provider, no two sharing a bucket |
| RateLimits.RateLimiter.Reserve | src/llmbus/ratelimit.py:141-150 | an unknown provider is refused without any charge; otherwise exactly one request and the tokens are charged to that provider and to no other |
| RateLimits.RateLimiter.Acquire | src/llmbus/ratelimit.py:152-156 | reserves once and then sleeps out the wait, if there is one; a refusal does not sleep |
| RateLimits.RefusalsLeaveNoTrace | src/llmbus/ratelimit.py:106-113 | a run with refused reservations leaves both buckets as the run with them erased, each bucket as if driven alone on its own dimension |
| Retries.DoublingIsPrefix | src/llmbus/retry.py:150-153 | the retries whose doubled delay is below the cap are exactly the first ones |
| Retries.RetryBudgetClosed | src/llmbus/retry.py:117-121 | the budget is attempts times timeout plus a geometric part while delays double plus the cap for every later retry |
| Retries.RetryBudgetMonotone | src/llmbus/retry.py:117-121 | the budget is monotone in every field of the policy |
| Retries.BackoffMonotone | src/llmbus/retry.py:141-153 | at one jitter draw later retries never wait less, and no draw waits the whole capped delay |
| Retries.DrawForDelay | src/llmbus/retry.py:150-153 | every delay from zero up to the doubled and capped one is that of exactly one draw |
| Retries.BackoffIsLinear | src/llmbus/retry.py:150-153 | midway between two draws lies the delay midway between theirs; a negative retry index is refused |
| Costs.PriceInForce | src/llmbus/cost.py:86-94 | there is a rate exactly when the model has a point not after the day, and it is that of a latest such point |
| Costs.RoutedIsPriced | src/llmbus/providers/base.py:27-43 | the routing and the price table name the same models, and a model has a rate on a day if and only if it is routed and the day is on or after the price floor |
| Costs.SameBillSameRate | src/llmbus/cost.py:97-108 | two rates bill every usage alike if and only if they are the same rate |
| Costs.BillsAddUp | src/llmbus/cost.py:105-108 | a million tokens of one kind cost the rate of that kind, and the bill of two usages together is the sum of their bills |
| Costs.CostAddsUp | src/llmbus/cost.py:97-108 | the same for the cost of a model on a day at the rate in force |
| Processing.DelayIsBackoff | src/llmbus/processing.py:235-235 | the delay the loop sleeps is the backoff of its attempt number, within the capped delay |
| Processing.ResumedIsNext | src/llmbus/processing.py:233-237 | an attempt that goes on is followed by the loop's own run from the state that attempt leaves, its events in front |
| Processing.Attempt | src/llmbus/processing.py:215-239 | one iteration on the real limiter and clock does what the recursive description says, ending or going on in exactly its cases |
| Processing.CallWithRetry | src/llmbus/processing.py:201-239 | the loop refines the recursion: same outcome, clock, limiter state and sequence of events |
| RetryRuns.LoopShape | src/llmbus/processing.py:209-239 | the loop runs consecutive attempts, all but the last failing in a retryable way; it stops at the first success, terminal failure, expiry or the last attempt and reports that; it backs off once between two attempts and reserves once per call and at most once more |
| RetryRuns.CallsBounded | src/llmbus/processing.py:209-239 | no more calls than the policy allows |
| RetryRuns.RetriedExactly | src/llmbus/retry.py:124-138 | in a run of the loop a call is followed by a backoff if and only if attempts are left and it timed out, lost its connection, or was answered 408, 409, 429 or with a server error; and by another call only after that backoff |
| RetryRuns.RaisesExactly | src/llmbus/processing.py:223-239 | one run of the loop raises if and only if it finds no limiter, or a call it makes succeeds with a negative count or with no rate in force on the job's day |
| RetryRuns.ReturnsExactly | src/llmbus/processing.py:223-239 | for all providers the loop returns if and only if the job expires before it is called; for those that report no negative count, if and only if it does or there is a limiter and a rate in force |
| RetryRuns.RoutedJobsThatRaise | src/llmbus/cost.py:86-108 | two concrete jobs for a routed model on which the loop raises: one dated before the price floor, one answered with a negative count |
| RetryRuns.EstimateIsNonNegative | src/llmbus/processing.py:121-134 | the estimate is the asked or default output plus a token for every four whole characters; for a job that the contract admits it is never negative, so the limiter never refuses it for its amount |
| RetryRuns.CharactersAddUp | src/llmbus/processing.py:130-130 | the characters of two runs of messages together are those of the one and those of the other |
| RetryRuns.EstimateCountsAllMessages | src/llmbus/processing.py:121-134 | all messages count, wherever they stand: cutting one in two changes nothing, and one of 4n characters more adds n tokens |
| RetryRuns.DeadlineSafety | src/llmbus/processing.py:102-118 | not too late: every reservation and every call starts strictly before the job's deadline, and no call is in flight a timeout after it |
| RetryReports.ExpiryExactly | src/llmbus/processing.py:215-227 | not too early either: an attempt does nothing if and only if the deadline has been reached, and calls if and only if it is still ahead when the limiter lets the job go |
| RetryRuns.ExpiredCostsNothing | src/llmbus/processing.py:215-227 | a job whose deadline has been reached at its first check changes no bucket, makes no call and still gets a terminal error result that names its provider |
| RetryReports.LastCallIsReported | src/llmbus/processing.py:137-169 | the result is about this job and provider and says what the last call said, a success with its completion, counts and cost, a failure with its text; without a last call it is an error that costs nothing |
| RetryReports.ResultNamesProvider | src/llmbus/processing.py:295-317 | whatever becomes of a job, its result names the provider its model is routed to, or none without a route |
| RetryReports.ClockIsAccountedFor | src/llmbus/processing.py:209-239 | every event of the loop happens when those before it are over and the loop ends when all are: no sleep, call or backoff is left out or counted twice |
| RetryRuns.Occupancy | src/llmbus/processing.py:201-239 | from any attempt on, the time taken is at most the limiter's waits, the remaining timeouts and capped delays, and what the sleeps overshoot |
| RetryRuns.OccupancyOfJob | src/llmbus/retry.py:89-121 | a job's time in the loop is at most its waits plus the published retry budget plus the overshoot of its sleeps |
| SerialQueue.FreshIsSettled | src/llmbus/ratelimit.py:126-139 | new limiters owe nothing |
| SerialQueue.AcquireSettled | src/llmbus/ratelimit.py:152-156 | an acquire on limiters that owe nothing waits at most max(60/rpm, 60·tokens/tpm), and they owe nothing again when it returns |
| SerialQueue.SerialWaits | src/llmbus/processing.py:225-235 | in a serial worker one job's waits are at most one such ceiling for each attempt that is left, whatever ran before |
| SerialQueue.JobWithinCeiling | src/llmbus/processing.py:286-317 | one message holds a serial worker at most for its budget, its wait ceilings and the overshoot and writes of its environment |
| SerialQueue.QueueWithinCeiling | src/llmbus/worker.py:280-289 | a serial worker is done with the k-th message within the sum of the ceilings of the messages up to it |
| WorkerRuns.CallsThrottled | src/llmbus/worker.py:280-289 | over a whole run of the consume loop from a fresh limiter, the calls to a provider from any one to any later one number at most one more than its request limit allows between their starts, and reserve at most the first one's tokens more than its token limit allows |
| Connections.ConnectBroker | src/llmbus/worker.py:112-158 | every attempt but the last failed, it gives up only at the last allowed attempt, and it sleeps the backoffs 0, 1, 2, … in between, at most their capped sum |
| Tables.InsertGrows | src/llmbus/store.py:263-285 | an insert forgets and rewrites no row |
| Tables.FinalizeGrows | src/llmbus/store.py:287-319 | a finalize rewrites no terminal row and no field that the insert fixed |
| Tables.FirstResultWins | src/llmbus/store.py:287-319 | however often a pending job is finalized, and with whatever results, the first one stands and only the first attempt is told it won |
| Stores.Store.InsertPending | src/llmbus/store.py:263-285 | the first write of a job id wins, a duplicate changes nothing and says so, a row needs a model |
| Stores.Store.Finalize | src/llmbus/store.py:287-319 | exactly a pending row takes the result, and the caller learns whether it did |
| Stores.Store.Get | src/llmbus/store.py:321-327 | the row, if the id is known |
| Stores.Store.PendingCount | src/llmbus/store.py:329-334 | the number of pending rows |
| Stores.Store.SetModelPolicy | src/llmbus/store.py:426-446 | one pair of project and kind is overwritten, no other |
| Stores.Store.ModelPolicy | src/llmbus/store.py:448-461 | the model of that pair, if one is set |
| Stores.Store.GroupTotals | src/llmbus/store.py:346-353 | per project and day, the sum of all its rows' costs |
| Stores.Store.CostByProjectDay | src/llmbus/store.py:336-356 | each group that cost something appears once, with the exact sum of its rows, by day and then project |
| Ledger.LedgerUnique | src/llmbus/store.py:346-353 | that description has only one answer |
| Ledger.LedgerInOrder | src/llmbus/store.py:346-353 | days never decrease, and within a day projects come in name order, each once |
| Sorting.StringOrder | src/llmbus/store.py:352-352 | name order is by code points: a proper prefix comes first, otherwise the first difference decides |
| Ledger.LedgerConserves | src/llmbus/store.py:346-353 | the ledger accounts for all money in the store: the groups that are dropped hold only rows that cost nothing |
| Dashboard.SumBy | src/llmbus/dashboard.py:111-117 | one entry for each value of the attribute, with the exact sum of its rows |
| Dashboard.SortTotals | src/llmbus/dashboard.py:129-133 | the entries strictly by spend and then name, or strictly by day |
| Dashboard.Summarize | src/llmbus/dashboard.py:120-139 | the rows, the totals by project and by day in their orders, each an exact sum, and a grand total that is the sum of all rows |
| Dashboard.SummaryConserves | src/llmbus/dashboard.py:120-139 | the totals by project, the totals by day and the grand total all add up to the same, and no key occurs twice |
| Dashboard.SummaryInWords | src/llmbus/dashboard.py:120-139 | the totals by project are those of the rows' projects, each what its rows cost; the totals by day likewise |
| Dashboard.SummaryInOrder | src/llmbus/dashboard.py:129-133 | totals by project never increase, equal ones come in name order, and days strictly increase |
| Dashboard.CanonicalSummary | src/llmbus/dashboard.py:120-139 | the totals by project, by day and in all depend only on the multiset of rows |
| Clients.OutgoingExactly | src/llmbus/client.py:241-284 | a submit is refused exactly when no model is chosen or the chosen one is not routed, each with its own error; what is sent is the same job on its row's model, or on the chosen one if there is no row |
| Clients.BusClient.ResolveModelName | src/llmbus/client.py:273-284 | an explicit model wins, otherwise the policy of project and kind decides, otherwise it is refused |
| Clients.BusClient.ModelAlreadyOnRecord | src/llmbus/client.py:255-271 | the job on the model its row names, otherwise unchanged |
| Clients.BusClient.Submit | src/llmbus/client.py:207-253 | a job that cannot be resolved or routed writes nothing; otherwise its row exists, the one that was there if there was one, and the message that is sent is the job on that row's model |
| Clients.PollResult | src/llmbus/client.py:102-125 | returns only a terminal row's result; times out only if its last read, taken before the deadline check, saw none; stops at the first read that ends it, which with a positive interval and an advancing clock is among the first ⌈timeout/interval⌉ + 1 |
| Clients.PollEnds | src/llmbus/client.py:118-125 | with a positive interval and an advancing clock some read ends every poll |
| Workers.Worker.FinalizeAndNotify | src/llmbus/processing.py:320-325 | the job's row, if there is one, is terminal afterwards, and one callback is attempted, with this result, exactly if this delivery finished the row and the job wants one |
| Workers.Worker.Route | src/llmbus/processing.py:295-316 | a job without model, route or adapter becomes an error result without reserving; any other goes through the retry loop |
| Workers.Worker.ProcessJob | src/llmbus/processing.py:286-317 | the result is stored before it is returned; if the loop raises, store and callbacks are untouched |
| Workers.Worker.ConsumeOne | src/llmbus/worker.py:194-215 | a message that does not decode is skipped and changes nothing |
| Workers.Worker.Consume | src/llmbus/worker.py:272-289 | messages are processed in order, each offset is committed after its message was processed and not if that raised |
| BusInvariants.AgreementKept | src/llmbus/client.py:241-253 | every step keeps: rows name routed models, and every message sent or about to be sent by a submit names its row's |
| BusInvariants.OriginsKept | src/llmbus/client.py:244-246 | every step keeps: each row has the submit that inserted it, which is past its insert and whose job the row repeats |
| BusInvariants.WorkerSoundKept | src/llmbus/processing.py:286-325 | every step keeps: the worker is at the message of the committed offset, its result is for that job and billed by its tokens, and it commits only what is finished |
| BusInvariants.NothingSkippedKept | src/llmbus/worker.py:272-289 | every step keeps: what a submit sent and is committed has a terminal row |
| BusOutcomes.StepRefines | src/llmbus/store.py:287-319 | every step is one step, or none, of the atomic map in which a job waits or has its one outcome |
| BusOutcomes.WinsSoundKept | src/llmbus/store.py:287-319 | every step keeps: each row was won at most once, by the result it shows |
| BusOutcomes.CallbacksSoundKept | src/llmbus/processing.py:320-325 | every step keeps: at most one callback for a job, for a result that won |
| BusOutcomes.BalancedKept | src/llmbus/store.py:287-319 | every step keeps: the money in the store is that of the winning results, none negative |
| BusRuns.RowTopicAgreement | src/llmbus/client.py:241-253 | in every reachable state each message that a submit sent names a concrete routed model, its row's |
| BusRuns.SubmittedIsRouted | src/llmbus/processing.py:295-313 | so a worker that takes one up never reaches the no-model and no-provider results |
| BusRuns.RowIsFirstSubmit | src/llmbus/store.py:263-295 | the first write wins: in every later state a row is that of the one submit that inserted it, in project, model, metadata and timestamp |
| BusRuns.ReReadFindsRow | src/llmbus/client.py:262-264 | the re-read of a duplicate always finds the row |
| BusRuns.RefusedWritesNothing | src/llmbus/client.py:241-244 | of a submit that fails its resolution or its route check, or has come no further than its insert, no step has changed the store or the topic, and no row is its own |
| BusRuns.OutcomeIsFinal | src/llmbus/store.py:287-319 | a terminal row never changes again, through crashes, redeliveries and duplicates |
| BusRuns.RunRefinesFates | src/llmbus/store.py:287-319 | every run of the bus is a run of the atomic first-write-wins map |
| BusRuns.CallbackOnce | src/llmbus/processing.py:320-325 | at most one callback is attempted for a job id, of a result that has won, and it says what the row says |
| BusRuns.NoLostJob | src/llmbus/client.py:244-246 | whatever a submit sent and is committed is terminal; each pending row is that of a submit that has not sent or whose message is not committed |
| BusRuns.PoisonIsSkipped | src/llmbus/worker.py:204-214 | in every reachable state with an undecodable message at the head, the worker can only take it up and commit it, one of the two is enabled, and no step of it touches a row, a call or a callback |
| BusHistory.CompletedByFinalize | src/llmbus/store.py:287-319 | in every reachable state pending rows are blank, and a terminal row carries the time of the one finalize of the run that finished it |
| BusHistory.PolicyIsLastEdit | src/llmbus/store.py:426-446 | in every run a policy is what it was last edited to, and nothing else changes it |
| BusHistory.ResolvedByLastEdit | src/llmbus/client.py:273-284 | a submit is resolved by its own model, without one by the last edit before it resolves, and refused without either |
| BusRuns.LedgerIsConserved | src/llmbus/dashboard.py:120-139 | on every reachable store the grand total and the totals by project and by day equal the sum of the one winning cost of each job |
| BusBilling.FaithfulBilling | src/llmbus/processing.py:189-198 | if the submits of one id carry one day and nobody else posts it, its row, once ok, costs what its own model and tokens cost on its own day, with a completion of that model's provider, and as an error costs nothing, whatever happens to other ids |
| BusBilling.BreaksExactly | src/llmbus/processing.py:223-239 | a step of the bus makes processing raise if and only if the limiter of a wired provider is missing, or a call succeeds with a negative count or for a job dated before the price floor |
| BusBilling.ProcessingNeverRaises | src/llmbus/processing.py:201-239 | if submits are dated from the price floor on, counts are not negative and every wired provider has a limiter, processing raises on no message that a submit sent, whatever else reaches the topic |
| BusBilling.BillsRowExactly | src/llmbus/processing.py:189-198 | with a worker about to call the provider for a submit's message whose row is pending, answering and finalizing leaves the row billed as recorded for all counts if and only if the message's day has a rate and it is in force on the row's day |
| BusBilling.BillingDrifts | src/llmbus/client.py:255-271 | a run that bills a row at another day's rate: the send of a first submit fails, the second comes a day later |
| BusLinks.SubmitIsItsSteps | src/llmbus/client.py:207-253 | an uninterrupted submit does to store and topic what its steps on the bus do |
| BusLinks.LoopIsItsSteps | src/llmbus/processing.py:201-239 | the retry loop makes the calls and ends where its steps on the bus do |
| BusLinks.ConsumedIsItsSteps | src/llmbus/worker.py:194-215 | consuming one message without interruption does to store and callbacks what steps of the bus do, and commits exactly if it returned |
| BusLinks.SentCanAlwaysFinish | src/llmbus/worker.py:280-289 | if every wired provider has a limiter, then from every reachable state, crashed workers included, the bus can finish everything that was sent; then only jobs whose submit has not sent them are pending |
| BusLinks.ProgressIsItsSteps | src/llmbus/worker.py:280-289 | the consume loop as a whole is a run of the bus: from the committed offset on, any number of messages, committing exactly those that were processed before one raised |
| BusLinks.CommittedIsFinished | src/llmbus/worker.py:280-289 | in every reachable state in which the whole topic is committed, everything that was sent is finished |
| BusCallbacks.PollIsStable | src/llmbus/client.py:79-125 | what one poll returned every later poll returns |
| BusCallbacks.CallbackIsPolled | src/llmbus/processing.py:320-325 | every callback answers a message of the topic, in id, metadata and address; it carries what a poll returns, metadata aside, and with the metadata if and only if that message repeats the metadata of the submit that inserted the row |
| BusCallbacks.OneMetaOneStory | src/llmbus/processing.py:320-325 | if all submits of an id carry one metadata and nobody else posts it, its callback carries what a poll returns |
| BusCallbacks.CallbackDrifts | src/llmbus/client.py:255-271 | a run in which the callback carries other metadata than every poll: the send of a first submit fails, the second carries other metadata |

## Left out

- The broker's SDK: connecting, authentication, consumer groups. The topic is an append-only log, delivery is from the committed offset, and a commit follows processing.
- SQLite and its locking: each method that commits is one atomic step. Creating tables, rebuilding a stale one and publishing the worker's policy would only add easy members.
- Provider adapters and wire shapes: a call is an arbitrary outcome with a duration.
- More than one worker: the topic has one partition and one consumer.
- HTTP server, command line, HTML, the policy page, authentication, request signing, environment parsing, logging, `ensure_topology`.
- JSON codecs and UUID parsing: records are already decoded, and a body that does not decode is a message of its own kind. Temperature, response format and message roles play no part and are absent or carried along.
- Floating point, the narrowing from Decimal to float and sums of floats in SQLite: amounts are exact reals. So are timestamps, without the range in which a date can be represented.
- The wall clock and the monotonic clock are one timeline, so a wall clock that is set back during a job is not covered by the deadline results.
- The texts of error messages: each error result has a fixed short text in place of the formatted one.
- Storage errors: a write of the store does not fail.
- A restarted worker builds new, full limiters: all bounds on waits and calls are for one life of its process.
- The fresh client that each broker attempt builds.
- PollResult: asks that some read ends the poll, that is, only for calls that return; a poll whose clock stands still and whose row stays pending does not.
- OccupancyOfJob: sleeps may overshoot in the model, so the bound carries the sum of the overshoots, which the documented budget leaves out.
- GroupTotals: the query leaves the order in which rows are read open; the method reads them in any order.
