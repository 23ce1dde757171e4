/** The per-user lock registry of src/database/lock/lock.ts.

    `LockMutex` owns a map from user id to a `Mutex` handle, filled lazily on
    first use and never emptied. Only whether a handle is held is modelled;
    `LockedView` is the abstract state (user id to held flag), and `Acquired`,
    `Released` and `Registered` give the effect of each operation on it. */
module Locks {
  import opened Wrappers

  /** Message of the error thrown by `unlock` on a handle that is not held. */
  const NotLocked := "mutex is not locked"

  /** The abstract state: for each user seen so far, whether its handle is held. */
  type LockView = map<int, bool>

  /** True when the user has a handle and it is held. */
  predicate Held(view: LockView, userId: int)
  {
    userId in view && view[userId]
  }

  /** The view after `getMutex`: an unseen user gets a free handle. */
  function Registered(view: LockView, userId: int): (r: LockView)
    ensures userId in r
    ensures userId !in view ==> !r[userId]
    ensures r.Keys == view.Keys + {userId}
    ensures forall u :: u in view ==> r[u] == view[u]
  {
    if userId in view then view else view[userId := false]
  }

  /** The view after an uncontended `lock`: the user's handle is held. */
  function Acquired(view: LockView, userId: int): (r: LockView)
    requires !Held(view, userId)
    ensures Held(r, userId)
    ensures r.Keys == view.Keys + {userId}
    ensures forall u :: u in view && u != userId ==> r[u] == view[u]
  {
    Registered(view, userId)[userId := true]
  }

  /** The view after `unlock` and the error it reports. The handle is looked
      up (and created for an unseen user) before the test, so the user always
      ends with a free handle, whether or not the call fails. */
  function Released(view: LockView, userId: int): (r: (LockView, Outcome))
    ensures r.1 == Fail(NotLocked) <==> !Held(view, userId)
    ensures r.1.Pass? <==> Held(view, userId)
    ensures userId in r.0 && !r.0[userId]
    ensures r.0.Keys == view.Keys + {userId}
    ensures forall u :: u in view && u != userId ==> r.0[u] == view[u]
  {
    var registered := Registered(view, userId);
    if !registered[userId] then (registered, Fail(NotLocked))
    else (registered[userId := false], Pass)
  }

  /** `lock` and then `unlock` on the same user succeed and leave its handle
      free; no other user's state changes. */
  lemma LockThenUnlock(view: LockView, userId: int)
    requires !Held(view, userId)
    ensures Released(Acquired(view, userId), userId).1 == Pass
    ensures Released(Acquired(view, userId), userId).0 == Registered(view, userId)
  {
  }

  /** One call on the registry, as a caller issues it. */
  datatype LockEvent = GetMutexCall(userId: int) | LockCall(userId: int) | UnlockCall(userId: int)

  /** The view after one call. A `lock` on a held handle changes nothing: the
      suspended caller is not modelled, and the acquire it makes once the
      handle is free appears as a later `LockCall` of its own. */
  function LockStep(view: LockView, e: LockEvent): LockView
  {
    match e
    case GetMutexCall(u) => Registered(view, u)
    case LockCall(u) => if Held(view, u) then view else Acquired(view, u)
    case UnlockCall(u) => Released(view, u).0
  }

  /** The view after a sequence of calls. */
  function LockRun(view: LockView, evs: seq<LockEvent>): LockView
    decreases |evs|
  {
    if evs == [] then view else LockRun(LockStep(view, evs[0]), evs[1..])
  }

  /** True when some call in the sequence names `userId`. */
  predicate Names(evs: seq<LockEvent>, userId: int)
  {
    exists i :: 0 <= i < |evs| && evs[i].userId == userId
  }

  /** True when the sequence holds an `unlock` for `userId`. */
  predicate ReleasesFor(evs: seq<LockEvent>, userId: int)
  {
    exists i :: 0 <= i < |evs| && evs[i] == UnlockCall(userId)
  }

  /** Exclusion: once a user's handle is held it stays held through any
      sequence of calls without an `unlock` for that user; a second `lock`
      on it gets nowhere in the meantime. */
  lemma {:induction false} HeldUntilUnlock(view: LockView, evs: seq<LockEvent>, userId: int)
    requires Held(view, userId)
    requires !ReleasesFor(evs, userId)
    ensures Held(LockRun(view, evs), userId)
    decreases |evs|
  {
    if evs != [] {
      assert evs[0] != UnlockCall(userId);
      assert !ReleasesFor(evs[1..], userId) by {
        forall i | 0 <= i < |evs[1..]| ensures evs[1..][i] != UnlockCall(userId) {
          assert evs[1..][i] == evs[i + 1];
        }
      }
      HeldUntilUnlock(LockStep(view, evs[0]), evs[1..], userId);
    }
  }

  /** Users are never removed from the registry. */
  lemma {:induction false} LockRunKeepsUsers(view: LockView, evs: seq<LockEvent>)
    ensures view.Keys <= LockRun(view, evs).Keys
    decreases |evs|
  {
    if evs != [] {
      LockRunKeepsUsers(LockStep(view, evs[0]), evs[1..]);
    }
  }

  /** Calls for other users never change a user's entry, whatever their order. */
  lemma {:induction false} LockRunOtherUsers(view: LockView, evs: seq<LockEvent>, userId: int)
    requires !Names(evs, userId)
    ensures userId in LockRun(view, evs) <==> userId in view
    ensures userId in view ==> LockRun(view, evs)[userId] == view[userId]
    decreases |evs|
  {
    if evs != [] {
      assert evs[0].userId != userId;
      assert !Names(evs[1..], userId) by {
        forall i | 0 <= i < |evs[1..]| ensures evs[1..][i].userId != userId {
          assert evs[1..][i] == evs[i + 1];
        }
      }
      LockRunOtherUsers(LockStep(view, evs[0]), evs[1..], userId);
    }
  }

  /** A handle of the `async-mutex` library; only whether it is held is kept. */
  class Mutex {
    var locked: bool

    constructor ()
      ensures !locked
    {
      locked := false;
    }
  }

  /** The registry object. */
  class LockMutex {
    var usersMutex: map<int, Mutex>

    /** Each user has a handle of its own. */
    ghost predicate Valid()
      reads this
    {
      forall u, v :: u in usersMutex && v in usersMutex && u != v ==> usersMutex[u] != usersMutex[v]
    }

    /** Whether each registered user's handle is held. */
    ghost function LockedView(): LockView
      reads this, usersMutex.Values
    {
      map u | u in usersMutex :: usersMutex[u].locked
    }

    constructor ()
      ensures Valid()
      ensures usersMutex == map[]
    {
      usersMutex := map[];
    }

    /** `getMutex`: the user's handle, created (free) on first use. A user
        that already has one gets the very same object back. */
    method GetMutex(userId: int) returns (mutex: Mutex)
      requires Valid()
      modifies this
      ensures Valid()
      ensures userId in usersMutex && mutex == usersMutex[userId]
      ensures old(userId in usersMutex) ==> mutex == old(usersMutex[userId]) && usersMutex == old(usersMutex)
      ensures old(userId !in usersMutex) ==> fresh(mutex) && !mutex.locked && usersMutex == old(usersMutex)[userId := mutex]
      ensures LockedView() == Registered(old(LockedView()), userId)
    {
      if userId !in usersMutex {
        var created := new Mutex();
        usersMutex := usersMutex[userId := created];
      }
      mutex := usersMutex[userId];
    }

    /** `lock` when the user's handle is free: afterwards it is held. */
    method Lock(userId: int)
      requires Valid()
      requires userId !in usersMutex || !usersMutex[userId].locked
      modifies this, usersMutex.Values
      ensures Valid()
      ensures userId in usersMutex && usersMutex[userId].locked
      ensures usersMutex.Keys == old(usersMutex.Keys) + {userId}
      ensures forall u :: u in old(usersMutex) ==> usersMutex[u] == old(usersMutex[u])
      ensures old(userId !in usersMutex) ==> fresh(usersMutex[userId])
      ensures LockedView() == Acquired(old(LockedView()), userId)
    {
      var mutex := GetMutex(userId);
      ghost var registered := LockedView();
      mutex.locked := true;
      forall u | u in usersMutex && u != userId ensures usersMutex[u].locked == registered[u] {
        assert usersMutex[u] != mutex;
      }
      assert LockedView() == registered[userId := true];
    }

    /** `unlock`: fails when the user's handle is not held (a never-seen user
        gets a handle first); otherwise frees it. */
    method Unlock(userId: int) returns (outcome: Outcome)
      requires Valid()
      modifies this, usersMutex.Values
      ensures Valid()
      ensures outcome == Fail(NotLocked) <==> old(userId !in usersMutex || !usersMutex[userId].locked)
      ensures userId in usersMutex && !usersMutex[userId].locked
      ensures usersMutex.Keys == old(usersMutex.Keys) + {userId}
      ensures forall u :: u in old(usersMutex) ==> usersMutex[u] == old(usersMutex[u])
      ensures old(userId !in usersMutex) ==> fresh(usersMutex[userId])
      ensures (LockedView(), outcome) == Released(old(LockedView()), userId)
    {
      var mutex := GetMutex(userId);
      ghost var registered := LockedView();
      if !mutex.locked {
        return Fail(NotLocked);
      }
      mutex.locked := false;
      forall u | u in usersMutex && u != userId ensures usersMutex[u].locked == registered[u] {
        assert usersMutex[u] != mutex;
      }
      assert LockedView() == registered[userId := false];
      outcome := Pass;
    }
  }
}
