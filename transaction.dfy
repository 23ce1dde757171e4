/** The per-user transaction registry of src/database/transaction/transaction.ts.

    For every user id the registry keeps a record: the queue of operation
    descriptors (`data`, oldest first) and a flag saying whether the head
    operation is in flight (`isRunning`). The state changes of `start`,
    `commit` and the step that follows the wait in `pending` are first given as
    functions on the registry value; the class `Transaction` then performs them
    in place on its `transaction` field and is proved against those functions. */
module TransactionQueue {
  import opened Wrappers

  /** The two kinds of balance operation that are queued. */
  datatype TransactionType = Charge | Use

  /** One queued operation. The `id` comes from a random generator and
      `createdAt` from the clock: both are opaque inputs here. */
  datatype Descriptor = Descriptor(id: string, transactionType: TransactionType, createdAt: int)

  /** The state kept for one user. */
  datatype Record = Record(data: seq<Descriptor>, isRunning: bool)

  /** The whole registry, keyed by user id. */
  type Registry = map<int, Record>

  /** Message of the error thrown by `commit` without a running transaction. */
  const NotStarted := "Transaction is not started"

  /** The queue of a user, empty when the user has no record. */
  function Data(m: Registry, userId: int): seq<Descriptor>
  {
    if userId in m then m[userId].data else []
  }

  /** True when the user has a record whose head operation is in flight. */
  predicate Running(m: Registry, userId: int)
  {
    userId in m && m[userId].isRunning
  }

  /** Registry invariant: a record that is running has an operation at its head. */
  ghost predicate WellFormed(m: Registry)
  {
    forall u :: u in m && m[u].isRunning ==> m[u].data != []
  }

  /** `Array.prototype.shift` on the queue: drops the head, if there is one. */
  function Shift(s: seq<Descriptor>): seq<Descriptor>
  {
    if s == [] then [] else s[1..]
  }

  /** The registry after `start(userId, d)`. The source has three branches (no
      record, record not running, record running); the last two leave the same
      record behind, the third one also calls `pending`. */
  function Started(m: Registry, userId: int, d: Descriptor): (r: Registry)
    ensures r.Keys == m.Keys + {userId}
    ensures Running(r, userId)
    ensures Data(r, userId) == Data(m, userId) + [d]
    ensures userId !in m ==> r[userId] == Record([d], true)
    ensures forall u :: u in m && u != userId ==> r[u] == m[u]
    ensures WellFormed(m) ==> WellFormed(r)
  {
    if userId !in m then
      m[userId := Record([d], true)]
    else if !m[userId].isRunning then
      m[userId := Record(m[userId].data + [d], true)]
    else
      m[userId := m[userId].(data := m[userId].data + [d])]
  }

  /** The registry after `commit(userId)`, or the error it throws. */
  function Committed(m: Registry, userId: int): (r: Result<Registry>)
    ensures r.Err? <==> !Running(m, userId)
    ensures r.Err? ==> r.error == NotStarted
    ensures r.Ok? ==> r.value.Keys == m.Keys && userId in r.value && !r.value[userId].isRunning
    ensures r.Ok? && Data(m, userId) != [] ==> Data(m, userId) == [Data(m, userId)[0]] + Data(r.value, userId)
    ensures r.Ok? && Data(m, userId) == [] ==> Data(r.value, userId) == []
    ensures r.Ok? ==> forall u :: u in m && u != userId ==> r.value[u] == m[u]
    ensures r.Ok? && WellFormed(m) ==> WellFormed(r.value)
  {
    if userId !in m || !m[userId].isRunning then
      Err(NotStarted)
    else
      Ok(m[userId := Record(Shift(m[userId].data), false)])
  }

  /** The registry after the code that follows the wait in `pending`, as the
      source writes it. The wait only ends once `isRunning` is false; then, if
      the queue is not empty, `start` is called again with the kind of the head
      and a fresh id and time. Since `isRunning` is false this is the second
      branch of `start`: a NEW descriptor is appended at the tail and the
      record is marked running, while the head stays where it was. */
  function Resumed(m: Registry, userId: int, id: string, createdAt: int): (r: Registry)
    requires userId in m && !m[userId].isRunning
    ensures Data(m, userId) == [] ==> r == m
    ensures Data(m, userId) != [] ==>
      && r.Keys == m.Keys
      && Running(r, userId)
      && Data(r, userId) == Data(m, userId) + [Descriptor(id, Data(m, userId)[0].transactionType, createdAt)]
    ensures forall u :: u in m && u != userId ==> r[u] == m[u]
    ensures WellFormed(m) ==> WellFormed(r)
  {
    if |m[userId].data| > 0 then
      Started(m, userId, Descriptor(id, m[userId].data[0].transactionType, createdAt))
    else
      m
  }

  /** The promotion the comment at that step announces ("start the next
      transaction"): the queued head itself becomes the running operation, and
      the queue is left as it is. */
  function Promoted(m: Registry, userId: int): (r: Registry)
    requires userId in m && !m[userId].isRunning
    ensures r.Keys == m.Keys
    ensures Data(r, userId) == Data(m, userId)
    ensures Running(r, userId) <==> Data(m, userId) != []
    ensures forall u :: u in m && u != userId ==> r[u] == m[u]
    ensures WellFormed(m) ==> WellFormed(r)
  {
    if |m[userId].data| > 0 then m[userId := m[userId].(isRunning := true)] else m
  }

  /** The registry object. */
  class Transaction {
    var transaction: Registry

    ghost predicate Valid()
      reads this
    {
      WellFormed(transaction)
    }

    constructor ()
      ensures Valid()
      ensures transaction == map[]
    {
      transaction := map[];
    }

    /** `start`: queue a new operation for `userId`. The result says whether
        the third branch ran, i.e. whether the detached `pending` call found an
        operation in flight and began to wait. `start` itself does not wait
        for it: the caller carries on at once. */
    method Start(userId: int, transactionType: TransactionType, id: string, createdAt: int)
      returns (pendingWaits: bool)
      requires Valid()
      modifies this
      ensures Valid()
      ensures transaction == Started(old(transaction), userId, Descriptor(id, transactionType, createdAt))
      ensures old(userId !in transaction) ==> transaction[userId] == Record([Descriptor(id, transactionType, createdAt)], true)
      ensures old(userId in transaction) ==>
        transaction[userId].data == old(transaction[userId].data) + [Descriptor(id, transactionType, createdAt)]
      ensures transaction[userId].isRunning
      ensures pendingWaits <==> old(Running(transaction, userId))
    {
      var d := Descriptor(id, transactionType, createdAt);
      if userId !in transaction {
        transaction := transaction[userId := Record([d], true)];
        pendingWaits := false;
      } else if !transaction[userId].isRunning {
        transaction := transaction[userId := transaction[userId].(data := transaction[userId].data + [d])];
        transaction := transaction[userId := transaction[userId].(isRunning := true)];
        pendingWaits := false;
      } else {
        transaction := transaction[userId := transaction[userId].(data := transaction[userId].data + [d])];
        pendingWaits := Pending(userId);
      }
    }

    /** The guard at the top of `pending`: it returns at once when the user has
        no record or nothing is running; otherwise it goes on to wait. */
    method Pending(userId: int) returns (waits: bool)
      ensures waits <==> userId in transaction && transaction[userId].isRunning
    {
      if userId !in transaction || !transaction[userId].isRunning {
        return false;
      }
      waits := true;
    }

    /** The step of `pending` after its wait has seen `isRunning` become false. */
    method PendingResume(userId: int, id: string, createdAt: int)
      requires Valid()
      requires userId in transaction && !transaction[userId].isRunning
      modifies this
      ensures Valid()
      ensures transaction == Resumed(old(transaction), userId, id, createdAt)
      ensures old(transaction[userId].data) != [] ==>
        && transaction[userId].isRunning
        && transaction[userId].data
           == old(transaction[userId].data) + [Descriptor(id, old(transaction[userId].data[0].transactionType), createdAt)]
      ensures old(transaction[userId].data) == [] ==> transaction == old(transaction)
    {
      if |transaction[userId].data| > 0 {
        var next := transaction[userId].data[0];
        var _ := Start(userId, next.transactionType, id, createdAt);
      }
    }

    /** The resume step as its comment announces it: the queued head becomes
        the running operation and no descriptor is added. */
    method PendingPromote(userId: int)
      requires Valid()
      requires userId in transaction && !transaction[userId].isRunning
      modifies this
      ensures Valid()
      ensures transaction == Promoted(old(transaction), userId)
      ensures transaction[userId].data == old(transaction[userId].data)
      ensures transaction[userId].isRunning <==> old(transaction[userId].data) != []
    {
      if |transaction[userId].data| > 0 {
        transaction := transaction[userId := transaction[userId].(isRunning := true)];
      }
    }

    /** `commit`: finish the operation at the head of the user's queue. The
        second result says whether the `pending` call made when operations are
        still queued began to wait; it never does, because `isRunning` has just
        been cleared. */
    method Commit(userId: int) returns (outcome: Outcome, pendingWaits: bool)
      requires Valid()
      modifies this
      ensures Valid()
      ensures outcome == if old(Running(transaction, userId)) then Pass else Fail(NotStarted)
      ensures outcome.Fail? ==> transaction == old(transaction)
      ensures outcome.Pass? ==> Committed(old(transaction), userId) == Ok(transaction)
      ensures outcome.Pass? ==>
        && old(transaction[userId].data) == [old(transaction[userId].data[0])] + transaction[userId].data
        && !transaction[userId].isRunning
      ensures !pendingWaits
    {
      if userId !in transaction || !transaction[userId].isRunning {
        return Fail(NotStarted), false;
      }
      ghost var before := transaction;
      assert Shift(before[userId].data) == before[userId].data[1..];
      transaction := transaction[userId := transaction[userId].(data := transaction[userId].data[1..])];
      transaction := transaction[userId := transaction[userId].(isRunning := false)];
      assert transaction == before[userId := Record(Shift(before[userId].data), false)];
      pendingWaits := false;
      if |transaction[userId].data| > 0 {
        pendingWaits := Pending(userId);
      }
      outcome := Pass;
    }
  }
}
