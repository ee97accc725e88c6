# Admission control of a small ingestion service, modelled in Dafny

The service accepts data items tagged with a user ID and a unique ID. Before
storing an item, it checks the input, looks up the user's quota, charges a
per-minute limiter and then a per-month limiter, and finally inserts the
unique ID into a dedup store. Any repeat is refused. This project models that
core and proves its accounting properties:

- `limit.dfy` (module `Limit`): the fixed-window `RateLimiter` class. Its
  `Allow` method is proved against the pure `Step` function. `Run` folds
  `Step` over a sequence of call times.
- `store.dfy` (module `Store`): the `MemoryStore` class, a grow-only set of
  accepted IDs. Its `Accept` method is proved against `Insert`, and
  first-seen-wins is proved over any sequence of calls.
- `logic.dfy` (module `Logic`): `Input`, `Quota` (a value holding references
  to two limiters), `NewQuota`, `checkMinute`, `checkMonthly` and `checkRate`.
  The pure reference is `CheckBoth`.
- `utils.dfy` (module `Utils`): the static registry that
  `bootstrapUserQuotas` builds.
- `server.dfy` (module `Api`): `validateInput` and the decision sequence of
  `PostData`, which returns a `Reply` that `StatusCode` maps to 201, 400, 403
  or 500.
- `wrappers.dfy`: `Option`, and `Outcome` for Go's `error` results (`Pass` is
  `nil`).

Time is an explicit integer argument `now`, in nanoseconds (the unit of Go's
`time.Duration`). The one-minute and thirty-day constants are written in that
unit.

**Where the code disagrees with its own comments, tests or callers, the model follows the code:**

- `Allow` resets on the literal one-minute threshold (limit.go:39). It never
  reads the stored `leaseCycle`. The doc comment at limit.go:11-13 builds a
  limiter with `NewRateLimiter(10, 1*time.Minute)` "to limit 10 requests per
  minute", so the lease cycle was meant to be the window length. The test at
  limit_test.go:33-51 expects a limiter with a one-second lease cycle to admit
  again after a one-second pause. As written, both tiers of a quota reset
  every minute, the monthly tier included
  (`Logic.MonthlyTierRefillsAfterOneMinute`). `Limit.LeaseCycleScenario`
  proves that the five calls after the test's pause are all denied.
- logic.go:29 calls `Storage.Put`, but the `Store` interface declares, and
  `MemoryStore` implements, only `Accept` (store.go:14, 29). The model has one
  insert-or-reject operation, `MemoryStore.Accept`.
- The doc comment at logic.go:26-27 says `Accept` should return an error if
  the user's quota is exceeded. The code at logic.go:29 only hands the unique
  ID to the store, and so does `Logic.Input.Accept`. The quota check happens
  earlier, in `PostData` (server.go:62), through `Logic.Input.CheckRate`.

A request body that cannot be decoded is answered with 500 (server.go:43-47).
The model keeps this path as `request == None`.

## Model

| member | source | states |
|---|---|---|
| Limit.Step | limit.go:34-51 | The window start never decreases. A minute or more after the last reset, the counter restarts at `now`, and the call admits iff the capacity is at least 1, leaving count 1. Inside the window, a call admits iff the count is below capacity; an admit adds exactly one and a denial changes nothing. The bound `0 <= count <= capacity` is preserved, and from it a denial never changes the count. |
| Limit.Run | limit.go:34-51 | Successive `Allow` calls yield one decision per call. They keep the counter bound and never move the window start backwards. |
| Limit.RunWithinWindow | limit.go:39-50 | While every call comes less than a minute after the window start, call i admits exactly when the starting count plus i is below capacity, and the window start stays put. |
| Limit.FreshLimiterAdmitsFirst | limit.go:25-50 | Within one window, a fresh limiter of capacity c admits exactly the first c calls and denies every later one. |
| Limit.RateLimiter.constructor | limit.go:25-31 | `NewRateLimiter` keeps the given capacity and lease cycle, with count 0 and last reset at `now`. |
| Limit.RateLimiter.Allow | limit.go:34-51 | The decision and the new counter and last reset are exactly `Step` of the old ones. The counter bound is preserved and the last reset never decreases. |
| Limit.LeaseCycleScenario | limit.go:39 | Capacity 5 and lease cycle one second: of ten calls the first five admit and the rest deny. The five calls one second later are denied too, so the threshold is the minute and not the lease cycle. |
| Store.Insert | store.go:29-38 | An insert succeeds iff the ID is new. A duplicate reports `DuplicatedData` and keeps the keys. Afterwards the keys are the old keys plus the ID. |
| Store.AcceptAll | store.go:29-38 | After any sequence of inserts, the keys are exactly the old keys plus the IDs offered, so nothing is ever removed. |
| Store.FirstSeenWins | store.go:32-37 | The i-th insert succeeds iff its ID was neither stored before nor offered earlier in the sequence. |
| Store.RepeatIsRejected | store.go:32-36 | Once an ID has been offered, every later insert of it fails, whatever came in between. |
| Store.MemoryStore.constructor | store.go:25-27 | A fresh store is empty. |
| Store.MemoryStore.Accept | store.go:29-38 | Succeeds iff the ID was not stored. A failure is `DuplicatedData`. The new keys are the old keys plus the ID and nothing else changes. |
| Logic.CheckBoth | logic.go:32-42 | The minute limiter is always consulted. If it denies, the result is `MinuteLimitExceeded` and the monthly window is unchanged. If it admits and the monthly limiter denies, the result is `MonthlyLimitExceeded` with minute budget spent. There is success iff both admit, and inside both windows a success uses exactly one unit of each tier. |
| Logic.MonthlyTierRefillsAfterOneMinute | limit.go:39-42 | Because the reset threshold is one minute, both tiers admit again a minute after their last reset, with counters at 1. |
| Logic.Quota.CheckMonthly | logic.go:62-67 | The error is `MonthlyLimitExceeded` iff the monthly limiter's `Allow` denies, and that limiter steps by `Step`. The minute limiter is untouched when the two limiters are distinct. |
| Logic.Quota.CheckMinute | logic.go:69-74 | The error is `MinuteLimitExceeded` iff the minute limiter's `Allow` denies, and that limiter steps by `Step`. The monthly limiter is untouched when the two limiters are distinct. |
| Logic.NewQuota | logic.go:53-60 | Builds two fresh, distinct limiters: monthly with the given capacity and a thirty-day cycle, minute with the given capacity and a one-minute cycle. Both start at count 0 and time `now`, and the `UserID` is the given one. |
| Logic.Input.CheckRate | logic.go:32-42 | The reply and the two limiters' new states are exactly `CheckBoth` of their old states. The limiters are reached through the quota's references, so the updates persist in the caller's table. |
| Logic.Input.Accept | logic.go:28-30 | Inserts exactly the input's unique ID into the store, with `Insert`'s result. |
| Logic.NewInput | logic.go:22-24 | Both fields are stored as given. |
| Utils.BootstrapUserQuotas | utils.go:3-9 | The table's keys are exactly {1, 2}. User 1 has monthly capacity 1000 and minute capacity 1, and user 2 has 2000 and 20. Each quota's user ID equals its key. All four limiters are fresh, distinct and start at count 0. |
| Api.StatusCode | server.go:40-76 | Status 201 iff created, 500 iff the body could not be decoded, 400 iff validation failed, and 403 iff the user has no quota, the rate was exceeded or the ID is a duplicate. |
| Api.Server.constructor | server.go:19-21 | `newServer` holds the bootstrap table. |
| Api.Server.ValidateInput | server.go:83-89 | Rejects iff the unique ID or the user ID is zero. |
| Api.Server.PostData | server.go:40-76 | Failures before the rate check (undecodable 500, invalid 400, unknown user 403) change no limiter and no stored ID. The rate check updates exactly the requesting user's two limiters, as `CheckBoth` says. A rate failure is 403 with the store untouched. After the rate check the ID is stored, and a duplicate is refused although its budget was spent. The reply is 201 iff every step succeeded, in order. |
| Api.PostDataScenario | server.go:40-89 | On a fresh server and store, the handler test's five requests get 201, 400, 400, 400 and 403 (user 3 has no quota). |
| Api.BudgetScenario | server.go:56-73 | User 1's second request in a minute is refused by the minute tier, which leaves the monthly count at 1. User 2's resubmitted ID is refused by the store after the minute count has reached 2. |

## Left out

- HTTP: `Server.Run`, routing, `http.Server`, `log.Fatal` and the stop channel are network I/O and process lifecycle.
- Decoding: `Server.decode` and the JSON tags call the JSON library. The model takes the decoded `(UniqueID, UserID)` directly, or `None` for a body that fails to decode.
- Responses: the body strings and the `Content-Type` header are not modelled. Only the `Reply` and its status code are kept.
- main.go is a stale duplicate of logic.go that does not compile (`checkRate` has an empty body and `Accept` is a stub). main.go is not part of this model.
- `main` in limit.go (limit.go:53-66) calls `NewRateLimiter` with the wrong arity and only prints and sleeps.
- Locking: the `sync.Mutex` fields are not modelled and there is no concurrency. Each method call is treated as atomic, which is what the locks give.
- The clock: `time.Now`, `time.Since` and `time.Sleep` become the argument `now`. `Allow` reads the clock twice (limit.go:39, 41), and `NewQuota` reads it once per limiter. The model uses one instant per call. It also ignores Go duration saturation, which needs a span of about 292 years.
- The global `Storage` (store.go:9) becomes an explicitly passed `MemoryStore`. The `Store` interface has one implementation and is not modelled as a separate type.
- Integer widths: Go's `int` is 64 bits. IDs are only compared, and the counter stays at or below `maxRequests`, so no overflow can occur; the model uses unbounded integers.
- Logic.Input.CheckRate: requires the quota's two limiters to be distinct objects, which every quota built by `NewQuota` satisfies. A hand-built quota with one shared limiter is not modelled.
- The test files are not modelled as tests. Their expectations appear as the scenario methods above.
