# Per-user serialization registries of the point service

This project models, in Dafny, the two in-memory registries that the point
service uses to serialize balance changes per user:

- `Transaction` (src/database/transaction/transaction.ts) keeps, for each
  user id, a record with a FIFO queue of operation descriptors (`data`) and
  an `isRunning` flag. `start` queues a new operation. `commit` finishes the
  operation at the head. `pending` waits, by polling, for the running
  operation to be committed and then performs a promotion step.
- `LockMutex` (src/database/lock/lock.ts) lazily creates one `async-mutex`
  handle per user id. `lock` acquires that handle, and `unlock` releases it
  or fails with "mutex is not locked".

Both are modelled as Dafny classes that update their state in place:

- `TransactionQueue.Transaction` has a `map<int, Record>` field.
- `Locks.LockMutex` has a `map<int, Mutex>` field. `Locks.Mutex` is a class
  with a mutable `locked` flag, so handle identity is modelled: the same
  object is returned on every lookup.

Each method is proved against a function on the abstract state:

- `Started`, `Committed`, `Resumed` and `Promoted` for the transaction registry.
- `Registered`, `Acquired` and `Released` for the lock registry, whose
  abstract state is `LockedView`.

Those functions carry the properties as their own contracts.

`TransactionTrace` and the second half of `Locks` describe arbitrary
sequences of calls, and so any interleaving of concurrent callers. Lemmas
over these sequences prove three properties:

- each queue is a FIFO;
- calls for one user never touch another user's state;
- records and handles are never removed.

They also prove exclusion for the lock: a held handle stays held until that
user's `unlock`.

Descriptor ids (from `Math.random`) and creation times (from `new Date()`)
are parameters of `Start`. The polling wait inside `pending` is split into
two parts:

- `Pending`: its early-return test;
- `PendingResume`: the code that runs after the wait has seen `isRunning`
  become false (transaction.ts:79-83).

Where the code does less than its own comments announce, the model follows
the code:

- The comments at transaction.ts:91 and :96 say that `commit` calls
  `pending` to start the next queued transaction. That call (line 97)
  never does anything: line 93 has just cleared `isRunning`, so the guard
  at line 58 returns at once. `Commit` states this as `ensures
  !pendingWaits`. A promotion therefore comes only from a `pending` call
  that found the record running. That is either the call `start` makes in
  its third branch (line 51), or a direct call of the public `pending`
  (transaction.spec.ts:104). `start` does not `await` its call and returns
  at once, and `Start` reports in `pendingWaits` whether that call began to
  wait. `PendingResume` models the step after the wait in either case.
- The comment at transaction.ts:79 says "start the next transaction". The
  code calls `start` with the head's kind while `isRunning` is false. That
  is `start`'s second branch, so it appends a new descriptor and leaves
  the head where it was. See Findings.

## Model

| member | source | states |
|---|---|---|
| TransactionQueue.Started | src/database/transaction/transaction.ts:29-54 | every `start` adds the user to the registry, leaves the record running, appends exactly the new descriptor after the earlier ones, creates `{[d], running}` for an unseen user, leaves every other user's record alone and keeps the running-has-a-head invariant |
| TransactionQueue.Committed | src/database/transaction/transaction.ts:86-93 | `commit` fails with "Transaction is not started" exactly when the user has no record or is not running; on success it removes only the head, keeps the rest in order, clears `isRunning` and leaves other users and the key set unchanged |
| TransactionQueue.Resumed | src/database/transaction/transaction.ts:79-83 | the step after the wait changes nothing on an empty queue; otherwise it appends a fresh descriptor of the head's kind at the tail (the head stays) and marks the record running; other users are untouched |
| TransactionQueue.Promoted | src/database/transaction/transaction.ts:79-83 | corrected promotion: the queue is unchanged and the record is running exactly when the queue is non-empty |
| TransactionQueue.Transaction.constructor | src/database/transaction/transaction.ts:18-20 | the registry starts empty |
| TransactionQueue.Transaction.Start | src/database/transaction/transaction.ts:22-55 | new state equals `Started` of the old; an unseen user gets `{[d], true}`; an existing user gets `d` appended and ends running; `pending` is entered and waits exactly when the record was already running |
| TransactionQueue.Transaction.Pending | src/database/transaction/transaction.ts:57-60 | `pending` goes on to wait exactly when the user has a record that is running; otherwise it returns and changes nothing (in particular creates no record) |
| TransactionQueue.Transaction.PendingResume | src/database/transaction/transaction.ts:79-83 | after the wait, with `isRunning` false: a non-empty queue gets a fresh descriptor of the head's kind appended and becomes running; an empty one is left as it is |
| TransactionQueue.Transaction.PendingPromote | src/database/transaction/transaction.ts:79-83 | corrected resume step: marks the head running without adding a descriptor |
| TransactionQueue.Transaction.Commit | src/database/transaction/transaction.ts:86-101 | succeeds exactly when the user has a running record, and then removes exactly the head, keeps the rest in order and clears `isRunning`; when the user is absent or not running it fails with "Transaction is not started" and changes nothing; the `pending` it calls never waits |
| TransactionTrace.StepIsFifo | src/database/transaction/transaction.ts:46-92 | for one call, the old queue followed by what it appends equals what it removes from the head followed by the new queue |
| TransactionTrace.RunIsFifo | src/database/transaction/transaction.ts:46-92 | over any sequence of calls, commits remove descriptors in exactly the order they were appended |
| TransactionTrace.IntendedPushesArrivals | src/database/transaction/transaction.ts:79-83 | with the corrected promotion, the only descriptors ever appended are the ones callers passed to `start`, in arrival order |
| TransactionTrace.IntendedCommitsInArrivalOrder | src/database/transaction/transaction.ts:79-83 | with the corrected promotion, starting empty, commits remove a prefix of the started descriptors in arrival order and the rest is still queued |
| TransactionTrace.PromotionAppendsPhantom | src/database/transaction/transaction.ts:79-83 | as written, start a / start b / commit / resume / commit / start d / commit removes a, b and a descriptor c that no caller started, not a prefix of the arrivals, and leaves d queued |
| TransactionTrace.PromotionIntendedOnPhantomTrace | src/database/transaction/transaction.ts:79-83 | with the corrected promotion the same calls remove a, b, d and leave the queue empty |
| TransactionTrace.OtherUsersUnchanged | src/database/transaction/transaction.ts:35-93 | calls for other users never create, change or remove a user's record |
| TransactionTrace.RunKeepsWellFormed | src/database/transaction/transaction.ts:35-93 | every sequence of calls keeps the invariant that a running record has an operation at its head |
| TransactionTrace.RunKeepsUsers | src/database/transaction/transaction.ts:35-40 | records are created and never deleted |
| Locks.Registered | src/database/lock/lock.ts:10-15 | `getMutex` adds an unseen user with a free handle and leaves every existing entry unchanged |
| Locks.Acquired | src/database/lock/lock.ts:17-20 | an uncontended `lock` leaves the user's handle held and every other user's state unchanged |
| Locks.Released | src/database/lock/lock.ts:22-30 | `unlock` fails with "mutex is not locked" exactly when the handle is absent or free, succeeds exactly when it is held; either way the user ends registered with a free handle and other users are unchanged |
| Locks.LockThenUnlock | src/database/lock/lock.ts:17-30 | `lock` then `unlock` on a free user succeeds and leaves the registry as a bare `getMutex` would |
| Locks.HeldUntilUnlock | src/database/lock/lock.ts:17-30 | a held handle stays held through any calls without an `unlock` for that user, so a second `lock` cannot get it |
| Locks.LockRunKeepsUsers | src/database/lock/lock.ts:10-15 | the registry only grows |
| Locks.LockRunOtherUsers | src/database/lock/lock.ts:10-30 | calls for other users never change a user's entry |
| Locks.Mutex.constructor | src/database/lock/lock.ts:12 | a new handle is free |
| Locks.LockMutex.constructor | src/database/lock/lock.ts:6-8 | the registry starts empty |
| Locks.LockMutex.GetMutex | src/database/lock/lock.ts:10-15 | an unseen user gets a fresh, free handle that is inserted and returned; a known user gets the identical object back and the map is unchanged; each user has a distinct handle |
| Locks.LockMutex.Lock | src/database/lock/lock.ts:17-20 | on a free handle, the user's handle ends held; an unseen user gets a fresh handle, as `new Mutex()` creates one; existing handles stay in place and no other user's flag changes |
| Locks.LockMutex.Unlock | src/database/lock/lock.ts:22-30 | fails with "mutex is not locked" exactly when the handle was absent or free; an absent handle is created first, and it is fresh; the handle ends free and no other user's flag changes |

## Findings

| source | as written | input that shows it | evidently intended | confidence | as-written member | corrected member |
|---|---|---|---|---|---|---|
| src/database/transaction/transaction.ts:79-83 | after the wait, `start` is called with the head's kind while `isRunning` is false, which appends a new descriptor and leaves the head in place | user 1: start a, start b (waits), commit, waiter resumes, commit, start d, commit: the commits remove a, b and a descriptor c no caller started, and d is left queued | the queued head becomes the running operation ("start the next transaction"), so commits follow arrival order | medium, not executed | TransactionTrace.PromotionAppendsPhantom | TransactionTrace.IntendedCommitsInArrivalOrder |

The as-written step is `TransactionQueue.Resumed`, which the class performs in
`PendingResume`. The corrected step is `TransactionQueue.Promoted`, which the
class performs in `PendingPromote`.

## Left out

- The polling loop in `pending` (transaction.ts:62-77): the 100 ms interval, the 1000 ms timeout and `setInterval`. It is replaced by the `PendingResume` step, which may run once `isRunning` is false. The timeout error thrown inside the timer callback (line 69) never rejects the awaited promise, so it has no state effect to model.
- The `.catch(err => { throw err; })` rethrows on detached promises (transaction.ts:51-53, 97-99). These are asynchronous error propagation only.
- Descriptor ids and timestamps. They come from `Math.random` and `new Date()`, so they are opaque parameters.
- Locks.LockMutex.Lock: covers only the uncontended case (it requires a free handle). The internals of the `async-mutex` library are not modelled: suspension, its waiter queue and fairness. In the call-sequence model (`LockStep`), a `lock` on a held handle changes nothing. The suspended caller is not modelled: where `async-mutex` hands a released handle straight to its waiter, the model needs that waiter's acquire to appear as a later `LockCall` of its own.
- Locks.Acquired: same restriction as `Lock`, because a contended acquire blocks instead of returning.
- User ids are modelled as unbounded integers. JavaScript coerces numeric object keys to strings; only distinct integer ids are considered.
- The call-sequence models (`TransactionTrace`, `LockRun`) allow a resume or a contended `lock` at any point where its condition holds. They do not track which callers are actually suspended, so they over-approximate real schedules.
- src/point (controller, service, module) and src/database/database.module.ts are not part of this model. They are the HTTP layer, the storage wrapper and dependency wiring.
