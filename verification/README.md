# redsync — a Dafny model of the Redlock coordinator

This project models the core of `redsync`, a Rust distributed lock manager.
It implements the Redlock algorithm over a cluster of independent Redis
nodes. The model covers four parts:

- **Coordinator** (`redsync.dfy`, module `Redsync`).
  - `call` makes up to `retry_count` attempts. Each attempt reads the clock
    and builds a `Lock` expiring at `start + ttl - drift`. It then asks every
    instance in turn to acquire or extend the lock, counting votes and pushing
    each error onto a `MultiError`.
  - An attempt wins when the votes reach the quorum and a second clock
    reading is still before the expiry.
  - A losing attempt releases the lock on every instance. Unless it was the
    last attempt, it then clears the errors and pauses.
  - `lock` and `extend` are calls of the two kinds. `unlock` releases on
    every instance and fails when fewer than a quorum release.
  - The instances are the test double of the repository: each has a fixed
    outcome per operation. A ghost `Wire` records, per position in the
    cluster, every request the instance there receives.
  - Time is a sequence of clock readings. Pauses are counted.
  - `Call` is a method with a `for` loop. It is proved against a
    specification: `CallOutcome`, `Attempts`, `Pauses` and `Trace` are
    functions of the plan, the tally of one pass and the readings. The
    properties the code promises are lemmas about those functions.
- **One Redis node** (`instance.dfy`, module `Instance`).
  - The three Lua scripts are atomic steps on an in-memory key/value store
    with expiry: set-if-absent, delete-if-owner and re-expire-if-owner.
  - `RedisInstance` is a class holding that store and a link that may be
    down.
  - The replies are classified into success or a typed error.
- **Builder** (`builder.dfy`, module `Builder`): the defaults, the three
  setters, `build` with its first-failure exit, and the `u32` quorum
  `n / 2 + 1`.
- **Errors** (`errors.dfy`, module `Errors`): one error datatype holding
  every variant the core uses, and the `MultiError` class with `new`,
  `reset`, `push`, `includes` and its `Display` text.

`locks.dfy` (module `Locks`) holds the `Lock` record and the shape of a
generated token.

## Model

| member | source | states |
|---|---|---|
| Errors.ErrorMessages | src/errors.rs:8-21 | the message of each variant: the client error's own text, the fixed texts of the reply and lease errors, and for each aggregate its prefix followed by the display of the errors it holds |
| Errors.MultiError.constructor | src/errors.rs:28-30 | a new collection is empty |
| Errors.MultiError.Reset | src/errors.rs:32-34 | the collection is empty afterwards, whatever it held |
| Errors.MultiError.Push | src/errors.rs:49-53 | pushing through the mutable view appends at the end and keeps the earlier errors in order |
| Errors.MultiError.Includes | src/errors.rs:36-38 | true exactly when some element equals the argument |
| Errors.MultiError.Fmt | src/errors.rs:55-63 | the loop of writes yields the header `"{len} errors occurred:"` and then one `"\n\t * {error}"` line per element, in order |
| Errors.DecimalText | src/errors.rs:57 | the count is rendered as decimal digits with no leading zero |
| Errors.DecimalRoundTrip | src/errors.rs:57 | the rendered count reads back as the count |
| Errors.ItemsAppend | src/errors.rs:58-60 | the lines of two lists are the lines of each, one after the other |
| Errors.ItemsAt | src/errors.rs:58-60 | element `i` owns exactly one line, between the lines of the elements before and after it |
| Errors.EmptyDisplay | src/errors.rs:55-63 | an empty collection displays as the header `0 errors occurred:` alone |
| Instance.AcquireReply | src/instance.rs:57-62 | OK means acquired, nil means `ResourceLocked`, any other reply is `UnexpectedResponse` with that reply, and a failed invocation is `RedisError`, each in both directions |
| Instance.LeaseReply | src/instance.rs:77-82 | for extend and release: 1 succeeds, 0 is `InvalidLease`, any other reply is `UnexpectedResponse`, and a failed invocation is `RedisError`, each in both directions |
| Instance.RedisInstance.constructor | src/instance.rs:33-37 | a node starts with an empty store and the given link |
| Instance.RedisInstance.LockScript | src/instance.rs:12-13 | the script's effect on the store and its reply are those of `SET key value NX PX ttl` |
| Instance.RedisInstance.UnlockScript | src/instance.rs:15-20 | the script deletes the key and replies 1 exactly when its live value is the token, else replies 0 |
| Instance.RedisInstance.ExtendScript | src/instance.rs:22-27 | the script re-expires the key and replies 1 exactly when its live value is the token, else replies 0 |
| Instance.RedisInstance.Acquire | src/instance.rs:45-63 | a down link fails with `RedisError` and leaves the store alone; otherwise the store is the lock script's and the result is the classified reply |
| Instance.RedisInstance.Extend | src/instance.rs:65-83 | as `Acquire`, with the extend script and the lease classification |
| Instance.RedisInstance.Release | src/instance.rs:85-102 | as `Acquire`, with the unlock script and the lease classification |
| Instance.AcquireIfAbsent | src/instance.rs:145-153 | acquire stores the token with its expiry exactly when the key is free; a held key is left unchanged with `ResourceLocked`; other keys never change |
| Instance.ReleaseIfOwner | src/instance.rs:203-212 | release succeeds and deletes the key exactly when the token is its live value; otherwise the store is untouched with `InvalidLease` |
| Instance.ExtendIfOwner | src/instance.rs:167-177 | extend succeeds and resets the expiry to `ttl` from now exactly when the token is the live value; otherwise the store is untouched with `InvalidLease` |
| Instance.ExpiredLease | src/instance.rs:179-189 | once the ttl has elapsed, release and extend with the token both give `InvalidLease` |
| Instance.AcquireThenRelease | src/instance.rs:192-200 | acquire then release with the same token within the ttl both succeed, and the key is absent afterwards |
| Instance.RepliesAreExpected | src/instance.rs:57-62 | scripts run faithfully never produce a reply that the classification treats as unexpected |
| Instance.HoldersDisjoint | src/instance.rs:12-13 | the nodes holding two different tokens for one key are disjoint |
| Builder.New | src/builder.rs:14-21 | the defaults are 3 retries, a 200 ms delay and a jitter of 50 |
| Builder.RedlockBuilder.RetryCount | src/builder.rs:23-26 | the setter changes the retry count and nothing else |
| Builder.RedlockBuilder.RetryDelay | src/builder.rs:28-31 | the setter changes the delay and nothing else |
| Builder.RedlockBuilder.RetryJitter | src/builder.rs:33-36 | the setter changes the jitter and nothing else |
| Builder.Build | src/builder.rs:38-54 | succeeds exactly when every address opens, with one client per address in order, the `u32` quorum, the retry policy copied and a drift factor of 1/100; otherwise fails with the error of the first address that does not open |
| Builder.QuorumIsMajority | src/builder.rs:44 | for any count a `u32` holds, the quorum is a strict majority and the least one, and it is reachable in a non-empty cluster |
| Redsync.FakeInstance.Outcome | src/redsync.rs:157-178 | code 1 succeeds; otherwise acquire fails with `ResourceLocked`, and extend and release with `InvalidLease` |
| Redsync.FakeInstance.Acquire | src/redsync.rs:158-163 | returns the fixed acquire outcome, and the request is appended to the instance's log |
| Redsync.FakeInstance.Extend | src/redsync.rs:165-170 | returns the fixed extend outcome, and the request is appended to the instance's log |
| Redsync.FakeInstance.Release | src/redsync.rs:172-177 | returns the fixed release outcome, and the request is appended to the instance's log |
| Redsync.Clock.Now | src/redsync.rs:62 | each reading of the clock consumes the next reading |
| Redsync.Clock.Sleep | src/redsync.rs:90 | a pause is counted and the readings are untouched |
| Redsync.Round | src/redsync.rs:71-81 | in one pass, votes plus errors equals the cluster size; acquire errors are all `ResourceLocked`, the others all `InvalidLease` |
| Redsync.RoundOfThree | src/redsync.rs:71-81 | a pass over three instances counts their outcomes in cluster order |
| Redsync.Ask | src/redsync.rs:72-75 | one request of the chosen operation goes to the one instance, and its outcome is returned |
| Redsync.Poll | src/redsync.rs:71-81 | every instance is asked exactly once, in order: the votes are the pass's successes, its errors are pushed in order, and every log gains exactly this request |
| Redsync.DriftMs | src/redsync.rs:56 | the drift allowance is at least 2 ms |
| Redsync.DriftMonotonic | src/redsync.rs:56 | a larger drift factor never gives a smaller allowance |
| Redsync.JitterMs | src/redsync.rs:127-132 | the jitter, truncated toward zero, stays within the bound and keeps the sign of the sample |
| Redsync.RetryDelayAsWritten | src/redsync.rs:126-133 | the pause as written is within `jitter` of the delay whenever it is defined, and it is undefined exactly when the delay plus the jitter would be negative |
| Redsync.RetryDelayPanics | src/redsync.rs:130-132 | a 10 ms delay with a jitter bound of 50 and the random factor -0.5 (sample -25) makes the subtraction underflow |
| Redsync.RetryDelayMs | src/redsync.rs:126-133 | the saturating pause is within `jitter` of the delay, agrees with the pause as written wherever that one is defined, and is 0 where it is not |
| Redsync.RetryDelayDefined | src/redsync.rs:290-304 | with a jitter no larger than the delay, as in the defaults, the pause as written is always defined |
| Redsync.FirstWin | src/redsync.rs:60-85 | the first winning attempt: every attempt before it loses |
| Redsync.WinAt | src/redsync.rs:83-85 | the first winning attempt `k` decides everything: the call returns its lock after `k + 1` attempts and `k` pauses, and each instance has seen `k` failed rounds and then the winning request |
| Redsync.NoWin | src/redsync.rs:94-97 | when no attempt wins, all of them are made, with one pause fewer, and the call fails with the error of its kind |
| Redsync.Attempt | src/redsync.rs:61-85 | the lock expires `ttl - drift` after the first reading; the attempt wins exactly when the votes reach the quorum and the expiry is after a second reading, taken only then; errors are appended |
| Redsync.Try | src/redsync.rs:61-92 | attempt `k` builds the specification's lock and wins exactly when it should; a win leaves the state of the whole call; a loss releases everywhere, and it resets and pauses only before another attempt, leaving the state after `k + 1` losses |
| Redsync.Call | src/redsync.rs:49-98 | the result, the readings consumed, the pauses taken and every instance's requests are those of the specification of the call |
| Redsync.Lock | src/redsync.rs:40-43 | a call of the acquire kind with the generated token; a lock it returns carries a twenty-character alphanumeric token |
| Redsync.Extend | src/redsync.rs:45-47 | a call of the extend kind with the lock's own resource and token; the lock returned keeps them and has the new ttl |
| Redsync.Unlock | src/redsync.rs:100-116 | releases on every instance; fails with `UnlockFailed` and every release error exactly when fewer than a quorum release |
| Redsync.New | src/redsync.rs:36-38 | the builder's defaults over the given cluster, with the majority quorum and the 1/100 drift factor |
| Redsync.CallLock | src/redsync.rs:64-69 | a returned lock has the caller's resource, token and ttl, and the expiry of some attempt: `ttl - drift` after its start, strictly before `start + ttl`, and after the reading taken once the votes were in |
| Redsync.CallSucceedsIff | src/redsync.rs:83-85 | a call succeeds exactly when a quorum votes and some attempt's expiry is after its second reading |
| Redsync.ShortTtlNeverLocks | src/redsync.rs:83 | when the ttl does not exceed the drift, a call fails whatever the votes, on a clock that never goes back |
| Redsync.CallFailure | src/redsync.rs:94-97 | a failed lock reports `LockRetriesExceeded` and a failed extend `ExtendRetriesExceeded`, holding only the last attempt's errors, after every attempt was made |
| Redsync.ZeroRetries | src/redsync.rs:60 | with no retries no instance is contacted, there is no pause, and the error holds nothing |
| Redsync.FailedRoundsShape | src/redsync.rs:87 | each failed attempt sends the operation and then a release of the same lock, with the caller's resource and token |
| Redsync.CallShape | src/redsync.rs:60-91 | at most `retry_count` attempts; pauses only between attempts; each instance sees the operation once per attempt, a release after every failed one, and the winning request last |
| Redsync.TwoOfThreeLock | src/redsync.rs:180-195 | two of three acquiring, with quorum 2, locks on the first attempt with the caller's resource and ttl |
| Redsync.OneOfThreeLock | src/redsync.rs:197-210 | one of three acquiring fails with `LockRetriesExceeded` holding two `ResourceLocked` |
| Redsync.OneOfThreeExtend | src/redsync.rs:232-248 | one of three extending fails with `ExtendRetriesExceeded` holding two `InvalidLease` |
| Redsync.UnlockScenarios | src/redsync.rs:250-278 | two of three releasing unlocks; one of three fails with `UnlockFailed` holding two `InvalidLease` |
| Redsync.QuorumsExclusive | src/builder.rs:44 | over real nodes, no two different tokens of one key are each held by a quorum at the same instant |

## Left out

- The Redis transport is not modelled: opening clients, connections with a timeout, and the per-instance timeout of 1% of the ttl. For a ttl below 100 ms that timeout is 0 ms, which a connection with a timeout refuses, so in the source every node operation with such a ttl fails with `RedisError`; the model's `Up` node answers instead. A node's link is either up or down with a message. `Build` takes the opening of an address as a function parameter.
- Token generation with a random number generator is not modelled. `Lock` takes the token as an input satisfying `IsLockId`: twenty ASCII letters or digits, the shape the generator produces.
- Redsync.Call: counts the pauses but not their lengths, and does not model the thread sleeping. The length of one pause, with its jitter sample as a parameter, is `RetryDelayMs` (see Findings).
- The drift factor is an exact fraction (1/100), not an `f64`, so float rounding of `ttl * 0.01` is not modelled.
- Redsync.JitterMs: takes the jitter sample, the random factor times the bound, as an exact real anywhere in `[-bound, bound]`. It does not model the factor itself, drawn from `[-1, 1)`, or `f64` rounding. The closed interval admits the one extra sample `bound`.
- `Instant` is not modelled. Time is integer milliseconds, read from a sequence of readings.
- Integer widths are unbounded except the `u32` cast of the quorum, which is modelled.
- The `Debug` rendering of a server reply inside `UnexpectedResponse`'s message is a function parameter, since it belongs to the Redis client library.
- Instance.RepliesAreExpected: the error a script raises reaches the client wrapped with the script's location, so the client's `RedisError` message is not `InvalidExpireTime` verbatim; the model simplifies the message to the server's own text.
- Errors.MultiError.Fmt: a formatter error from a write is not propagated; the text is built as a string, which cannot fail.
- Errors.MultiError.Includes: compares `RedisError` values by their message, whereas the client library's equality on its error type compares error kinds; that library is not part of this model.
- The message of `ExtendRetriesExceeded` is not in src/errors.rs. Its text is chosen by analogy with `LockRetriesExceeded`.
- The source is mid-rename. `RedlockError` and `RedsyncError` are modelled as one `RedsyncError` datatype. It uses `UnexpectedResponse`, as src/instance.rs does, where src/errors.rs has `InvalidResponse`. src/builder.rs builds a `Redlock`, while src/redsync.rs calls a `RedsyncBuilder` over instances; `Redsync.New` uses `Build` over the instances themselves.
- The coordinator is proved over the fixed-outcome test instances, not over store-backed nodes. The store-backed node and the quorum lemma `QuorumsExclusive` stand beside it.
- The `Instance` trait's dynamic dispatch is a `match` on the operation. The `Wire` that records requests is a ghost observer; the source has none.
- Instances are queried one after another, as in the source; there is no concurrency.
- Redsync.Unlock: follows the code, which fails when fewer than a quorum release. It is not the best-effort release the Redlock description suggests.
- The setters of the builder consume and return it by value, so they are functions on a datatype.
- src/redlock.rs, src/lib.rs and examples/example.rs are not part of this model: they are a stub, re-exports and a demo.

## Findings

| source | as written | input that shows it | evidently intended | confidence | as-written member | corrected member |
|---|---|---|---|---|---|---|
| src/redsync.rs:126-133 | a negative jitter is subtracted from `retry_delay` as a `Duration`, and that subtraction panics on underflow | `retry_delay` 10 ms, `retry_jitter` 50, random factor -0.5: 10 ms minus 25 ms | a pause within `retry_jitter` of `retry_delay`, never negative (for example a saturating subtraction) | medium; not executed | Redsync.RetryDelayPanics | Redsync.RetryDelayMs |
