/** Sequences of calls into the transaction registry, and the ordering
    guarantee they keep.

    An event is one `start`, one `commit`, or one waiter of `pending` resuming
    after its wait. A resume is only possible when the user's record exists
    and is not running (that is what ends the wait); an event whose condition
    does not hold changes nothing (a `commit` then throws, a waiter goes on
    waiting). Any interleaving of concurrent callers is one such sequence, so
    the lemmas below hold for all of them.

    The resume step is given twice: as the source writes it (`Resumed`) and as
    the comment at that step says it should behave (`Promoted`). */
module TransactionTrace {
  import opened TransactionQueue

  datatype Event =
    | StartEvent(userId: int, transactionType: TransactionType, id: string, createdAt: int)
    | CommitEvent(userId: int)
    | ResumeEvent(userId: int, id: string, createdAt: int)

  /** Which resume step a waiter performs once its wait is over. */
  datatype Promotion = AsWritten | Intended

  /** The registry after one event. */
  function Step(p: Promotion, m: Registry, e: Event): Registry
  {
    match e
    case StartEvent(u, k, id, at) => Started(m, u, Descriptor(id, k, at))
    case CommitEvent(u) => if Committed(m, u).Ok? then Committed(m, u).value else m
    case ResumeEvent(u, id, at) =>
      if u in m && !m[u].isRunning then
        (if p == AsWritten then Resumed(m, u, id, at) else Promoted(m, u))
      else m
  }

  /** The registry after a sequence of events. */
  function Run(p: Promotion, m: Registry, evs: seq<Event>): Registry
    decreases |evs|
  {
    if evs == [] then m else Run(p, Step(p, m, evs[0]), evs[1..])
  }

  /** The descriptors one event appends to `userId`'s queue. */
  function StepPushed(p: Promotion, m: Registry, e: Event, userId: int): seq<Descriptor>
  {
    match e
    case StartEvent(u, k, id, at) => if u == userId then [Descriptor(id, k, at)] else []
    case CommitEvent(_) => []
    case ResumeEvent(u, id, at) =>
      if u == userId && p == AsWritten && u in m && !m[u].isRunning && m[u].data != [] then
        [Descriptor(id, m[u].data[0].transactionType, at)]
      else []
  }

  /** The descriptors one event removes from the head of `userId`'s queue. */
  function StepPopped(m: Registry, e: Event, userId: int): seq<Descriptor>
  {
    if e.CommitEvent? && e.userId == userId && Running(m, userId) && Data(m, userId) != [] then
      [Data(m, userId)[0]]
    else []
  }

  /** Everything appended to `userId`'s queue over a sequence of events, in order. */
  function Pushed(p: Promotion, m: Registry, evs: seq<Event>, userId: int): seq<Descriptor>
    decreases |evs|
  {
    if evs == [] then []
    else StepPushed(p, m, evs[0], userId) + Pushed(p, Step(p, m, evs[0]), evs[1..], userId)
  }

  /** Everything removed by commits from `userId`'s queue, in order. */
  function Popped(p: Promotion, m: Registry, evs: seq<Event>, userId: int): seq<Descriptor>
    decreases |evs|
  {
    if evs == [] then []
    else StepPopped(m, evs[0], userId) + Popped(p, Step(p, m, evs[0]), evs[1..], userId)
  }

  /** The descriptors that callers of `start` handed in for `userId`, in arrival order. */
  function Arrivals(evs: seq<Event>, userId: int): seq<Descriptor>
    decreases |evs|
  {
    if evs == [] then []
    else
      (if evs[0].StartEvent? && evs[0].userId == userId
       then [Descriptor(evs[0].id, evs[0].transactionType, evs[0].createdAt)] else [])
      + Arrivals(evs[1..], userId)
  }

  /** The events of a sequence that concern `userId`. */
  predicate Touches(evs: seq<Event>, userId: int)
  {
    exists i :: 0 <= i < |evs| && evs[i].userId == userId
  }

  /** One event keeps the queue a FIFO: what was there plus what is appended
      equals what is removed from the head plus what is left. */
  lemma StepIsFifo(p: Promotion, m: Registry, e: Event, userId: int)
    ensures Data(m, userId) + StepPushed(p, m, e, userId) == StepPopped(m, e, userId) + Data(Step(p, m, e), userId)
  {
  }

  /** Over any sequence of events, the queue of each user is a FIFO: commits
      remove descriptors in exactly the order in which they were appended. */
  lemma {:induction false} RunIsFifo(p: Promotion, m: Registry, evs: seq<Event>, userId: int)
    ensures Data(m, userId) + Pushed(p, m, evs, userId) == Popped(p, m, evs, userId) + Data(Run(p, m, evs), userId)
    decreases |evs|
  {
    if evs != [] {
      var m1 := Step(p, m, evs[0]);
      var pushed0, popped0 := StepPushed(p, m, evs[0], userId), StepPopped(m, evs[0], userId);
      var pushed1, popped1 := Pushed(p, m1, evs[1..], userId), Popped(p, m1, evs[1..], userId);
      var before, middle, after := Data(m, userId), Data(m1, userId), Data(Run(p, m1, evs[1..]), userId);
      assert Pushed(p, m, evs, userId) == pushed0 + pushed1;
      assert Popped(p, m, evs, userId) == popped0 + popped1;
      assert Run(p, m, evs) == Run(p, m1, evs[1..]);
      StepIsFifo(p, m, evs[0], userId);
      assert before + pushed0 == popped0 + middle;
      RunIsFifo(p, m1, evs[1..], userId);
      assert middle + pushed1 == popped1 + after;
      Chain(before, pushed0, popped0, middle, pushed1, popped1, after);
    }
  }

  /** Two FIFO stretches in a row make one. */
  lemma Chain(before: seq<Descriptor>, pushed0: seq<Descriptor>, popped0: seq<Descriptor>, middle: seq<Descriptor>,
              pushed1: seq<Descriptor>, popped1: seq<Descriptor>, after: seq<Descriptor>)
    requires before + pushed0 == popped0 + middle
    requires middle + pushed1 == popped1 + after
    ensures before + (pushed0 + pushed1) == (popped0 + popped1) + after
  {
    calc {
      before + (pushed0 + pushed1);
      (before + pushed0) + pushed1;
      (popped0 + middle) + pushed1;
      popped0 + (middle + pushed1);
      popped0 + (popped1 + after);
      (popped0 + popped1) + after;
    }
  }

  /** With the intended promotion, the only descriptors ever appended are
      those that callers of `start` handed in. */
  lemma {:induction false} IntendedPushesArrivals(m: Registry, evs: seq<Event>, userId: int)
    ensures Pushed(Intended, m, evs, userId) == Arrivals(evs, userId)
    decreases |evs|
  {
    if evs != [] {
      IntendedPushesArrivals(Step(Intended, m, evs[0]), evs[1..], userId);
    }
  }

  /** The ordering guarantee with the intended promotion: starting from an
      empty registry, the descriptors that commits remove for a user are
      exactly the first ones that callers started for that user, in arrival
      order, and the rest are still queued. */
  lemma IntendedCommitsInArrivalOrder(evs: seq<Event>, userId: int)
    ensures var popped := Popped(Intended, map[], evs, userId);
      && popped <= Arrivals(evs, userId)
      && Data(Run(Intended, map[], evs), userId) == Arrivals(evs, userId)[|popped|..]
  {
    RunIsFifo(Intended, map[], evs, userId);
    IntendedPushesArrivals(map[], evs, userId);
    var popped := Popped(Intended, map[], evs, userId);
    var rest := Data(Run(Intended, map[], evs), userId);
    assert Arrivals(evs, userId) == popped + rest;
    assert Arrivals(evs, userId)[..|popped|] == popped;
    assert Arrivals(evs, userId)[|popped|..] == rest;
  }

  /** Running a non-empty sequence is one step followed by the rest. */
  lemma Unroll(p: Promotion, m: Registry, evs: seq<Event>, userId: int)
    requires evs != []
    ensures Run(p, m, evs) == Run(p, Step(p, m, evs[0]), evs[1..])
    ensures Popped(p, m, evs, userId) == StepPopped(m, evs[0], userId) + Popped(p, Step(p, m, evs[0]), evs[1..], userId)
  {
  }

  /** Operation "a" runs; "b" is queued and its caller's `pending` waits; "a"
      is committed; the waiter resumes; "b" is committed; "d" is started and
      committed. */
  function PhantomTrace(userId: int): seq<Event>
  {
    [StartEvent(userId, Charge, "a", 0), StartEvent(userId, Use, "b", 1), CommitEvent(userId),
     ResumeEvent(userId, "c", 2), CommitEvent(userId), StartEvent(userId, Charge, "d", 3), CommitEvent(userId)]
  }

  /** The callers of `start` on `PhantomTrace` hand in "a", "b" and "d". */
  lemma PhantomArrivals(userId: int)
    ensures Arrivals(PhantomTrace(userId), userId) == [Descriptor("a", Charge, 0), Descriptor("b", Use, 1), Descriptor("d", Charge, 3)]
  {
    var e := PhantomTrace(userId);
    assert e[6..][1..] == [];
    assert Arrivals(e[6..], userId) == [];
    assert Arrivals(e[5..], userId) == [Descriptor("d", Charge, 3)] + Arrivals(e[6..], userId);
    assert Arrivals(e[2..], userId) == Arrivals(e[3..], userId);
    assert Arrivals(e[3..], userId) == Arrivals(e[4..], userId);
    assert Arrivals(e[4..], userId) == Arrivals(e[5..], userId);
    assert Arrivals(e[1..], userId) == [Descriptor("b", Use, 1)] + Arrivals(e[2..], userId);
    assert Arrivals(e, userId) == [Descriptor("a", Charge, 0)] + Arrivals(e[1..], userId);
  }

  /** The first three events of `PhantomTrace`, under either promotion: "a"
      runs, "b" is queued, "a" is committed. */
  lemma PhantomOpening(p: Promotion, userId: int)
    ensures var m3 := map[userId := Record([Descriptor("b", Use, 1)], false)];
      && Run(p, map[], PhantomTrace(userId)) == Run(p, m3, PhantomTrace(userId)[3..])
      && Popped(p, map[], PhantomTrace(userId), userId)
         == [Descriptor("a", Charge, 0)] + Popped(p, m3, PhantomTrace(userId)[3..], userId)
  {
    var a, b := Descriptor("a", Charge, 0), Descriptor("b", Use, 1);
    var e := PhantomTrace(userId);
    var m0: Registry := map[];
    Unroll(p, m0, e, userId);
    var m1 := Step(p, m0, e[0]);
    assert m1 == map[userId := Record([a], true)];
    Unroll(p, m1, e[1..], userId);
    var m2 := Step(p, m1, e[1]);
    assert [a] + [b] == [a, b];
    assert m2 == map[userId := Record([a, b], true)];
    Unroll(p, m2, e[2..], userId);
    var m3 := Step(p, m2, e[2]);
    assert m3 == map[userId := Record([b], false)];
    assert e[2..][1..] == e[3..];
  }

  /** The last two events of `PhantomTrace`: "d" is started while nothing
      runs, and one commit follows; it removes whatever is at the head. */
  lemma PhantomClosing(p: Promotion, userId: int, queue: seq<Descriptor>)
    ensures var d := Descriptor("d", Charge, 3);
      && Run(p, map[userId := Record(queue, false)], PhantomTrace(userId)[5..])
         == map[userId := Record((queue + [d])[1..], false)]
      && Popped(p, map[userId := Record(queue, false)], PhantomTrace(userId)[5..], userId) == [(queue + [d])[0]]
  {
    var d := Descriptor("d", Charge, 3);
    var e := PhantomTrace(userId)[5..];
    var m5 := map[userId := Record(queue, false)];
    Unroll(p, m5, e, userId);
    var m6 := Step(p, m5, e[0]);
    assert m6 == map[userId := Record(queue + [d], true)];
    Unroll(p, m6, e[1..], userId);
    assert e[1..][1..] == [];
  }

  /** The as-written resume step breaks the ordering guarantee. On
      `PhantomTrace`, the waiter's call to `start` with the kind of "b"
      appends a new descriptor "c" that no caller started. After "b" is
      committed, "c" is left queued with nothing running, so "d" runs at once
      and the commit made for "d" removes "c"; "d" is left queued. */
  lemma PromotionAppendsPhantom(userId: int)
    ensures Popped(AsWritten, map[], PhantomTrace(userId), userId)
            == [Descriptor("a", Charge, 0), Descriptor("b", Use, 1), Descriptor("c", Use, 2)]
    ensures Data(Run(AsWritten, map[], PhantomTrace(userId)), userId) == [Descriptor("d", Charge, 3)]
    ensures !(Popped(AsWritten, map[], PhantomTrace(userId), userId) <= Arrivals(PhantomTrace(userId), userId))
  {
    var a, b, c, d := Descriptor("a", Charge, 0), Descriptor("b", Use, 1), Descriptor("c", Use, 2), Descriptor("d", Charge, 3);
    var e := PhantomTrace(userId);
    PhantomOpening(AsWritten, userId);
    var m3 := map[userId := Record([b], false)];
    Unroll(AsWritten, m3, e[3..], userId);
    var m4 := Step(AsWritten, m3, e[3]);
    assert [b] + [c] == [b, c];
    assert m4 == map[userId := Record([b, c], true)];
    Unroll(AsWritten, m4, e[4..], userId);
    var m5 := Step(AsWritten, m4, e[4]);
    assert m5 == map[userId := Record([c], false)];
    assert e[3..][1..] == e[4..] && e[4..][1..] == e[5..];
    PhantomClosing(AsWritten, userId, [c]);
    assert [c] + [d] == [c, d];
    PhantomArrivals(userId);
    assert Popped(AsWritten, map[], e, userId)[2] != Arrivals(e, userId)[2];
  }

  /** With the intended promotion the same trace commits "a", "b" and "d",
      in that order, and leaves the queue empty. */
  lemma PromotionIntendedOnPhantomTrace(userId: int)
    ensures Popped(Intended, map[], PhantomTrace(userId), userId) == Arrivals(PhantomTrace(userId), userId)
    ensures Data(Run(Intended, map[], PhantomTrace(userId)), userId) == []
  {
    var b, d := Descriptor("b", Use, 1), Descriptor("d", Charge, 3);
    var e := PhantomTrace(userId);
    PhantomOpening(Intended, userId);
    var m3 := map[userId := Record([b], false)];
    Unroll(Intended, m3, e[3..], userId);
    var m4 := Step(Intended, m3, e[3]);
    assert m4 == map[userId := Record([b], true)];
    Unroll(Intended, m4, e[4..], userId);
    var m5 := Step(Intended, m4, e[4]);
    assert m5 == map[userId := Record([], false)];
    assert e[3..][1..] == e[4..] && e[4..][1..] == e[5..];
    PhantomClosing(Intended, userId, []);
    assert [] + [d] == [d];
    PhantomArrivals(userId);
  }

  /** Events for other users never touch a user's record. */
  lemma {:induction false} OtherUsersUnchanged(p: Promotion, m: Registry, evs: seq<Event>, userId: int)
    requires !Touches(evs, userId)
    ensures userId in Run(p, m, evs) <==> userId in m
    ensures userId in m ==> Run(p, m, evs)[userId] == m[userId]
    decreases |evs|
  {
    if evs != [] {
      assert evs[0].userId != userId;
      assert !Touches(evs[1..], userId) by {
        forall i | 0 <= i < |evs[1..]| ensures evs[1..][i].userId != userId {
          assert evs[1..][i] == evs[i + 1];
        }
      }
      OtherUsersUnchanged(p, Step(p, m, evs[0]), evs[1..], userId);
    }
  }

  /** Every sequence of events keeps the registry invariant: a running
      record has its running operation at the head of its queue. */
  lemma {:induction false} RunKeepsWellFormed(p: Promotion, m: Registry, evs: seq<Event>)
    requires WellFormed(m)
    ensures WellFormed(Run(p, m, evs))
    decreases |evs|
  {
    if evs != [] {
      RunKeepsWellFormed(p, Step(p, m, evs[0]), evs[1..]);
    }
  }

  /** Records are never removed. */
  lemma {:induction false} RunKeepsUsers(p: Promotion, m: Registry, evs: seq<Event>)
    ensures m.Keys <= Run(p, m, evs).Keys
    decreases |evs|
  {
    if evs != [] {
      RunKeepsUsers(p, Step(p, m, evs[0]), evs[1..]);
    }
  }
}
