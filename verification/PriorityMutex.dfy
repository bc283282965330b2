/** The priority mutex of `cpid/prioritymutex.h`, as threads moving through the
    critical sections of `lock`, `try_lock` and `unlock`. Every event is one
    critical section; an event that is not possible leaves the state alone, so a
    run is any sequence of events whatever. */
module PriorityMutex {
  import opened Options

  type Thread = nat

  /** Where a thread is. */
  datatype Place =
    | Outside
    | Queued(prio: nat)    // counted, and wants the data mutex
    | Checking(prio: nat)  // holds the data mutex, about to call canGo
    | Asleep(prio: nat)    // waits on the condition variable
    | Passed(prio: nat)    // holds the data mutex, canGo was true, still counted
    | Owner                // lock() or try_lock() has returned
    | Unlocked             // unlock() has freed the data mutex, notify_all() is next
  {
    /** Counted in `queueCount_`. */
    predicate Counted() { Queued? || Checking? || Asleep? || Passed? }

    predicate Holds() { Checking? || Passed? || Owner? }
  }

  datatype State = State(queueCount: seq<int>, dataMutex: Option<Thread>, places: map<Thread, Place>) {

    function MaxPrio(): int { |queueCount| - 1 }

    function At(t: Thread): Place { if t in places then places[t] else Outside }

    function Move(t: Thread, p: Place): State { this.(places := places[t := p]) }

    predicate CanGo(prio: nat) {
      forall i :: prio < i < |queueCount| ==> queueCount[i] == 0
    }

    ghost function Registered(prio: nat): set<Thread> {
      set t | t in places && places[t].Counted() && places[t].prio == prio
    }
  }

  datatype Event =
    | Lock(t: Thread, prio: int)
    | Acquire(t: Thread)
    | Check(t: Thread)
    | Deregister(t: Thread)
    | TryLock(t: Thread, prio: int)
    | Release(t: Thread)
    | NotifyAll(t: Thread)
    | SpuriousWake(t: Thread)

  function Init(maxPrio: nat): State {
    State(seq(maxPrio + 1, i => 0), None, map[])
  }

  function Bump(counts: seq<int>, i: nat, d: int): seq<int>
    requires i < |counts|
  {
    counts[i := counts[i] + d]
  }

  function WakeAll(places: map<Thread, Place>): map<Thread, Place> {
    map t | t in places :: if places[t].Asleep? then Queued(places[t].prio) else places[t]
  }

  function Apply(s: State, e: Event): State {
    var p := s.At(e.t);
    match e
    case Lock(t, prio) =>
      if p.Outside? && 0 <= prio <= s.MaxPrio()
      then s.Move(t, Queued(prio)).(queueCount := Bump(s.queueCount, prio, 1)) else s
    case Acquire(t) =>
      if p.Queued? && s.dataMutex.None? then s.Move(t, Checking(p.prio)).(dataMutex := Some(t)) else s
    case Check(t) =>
      if !p.Checking? then s
      else if s.CanGo(p.prio) then s.Move(t, Passed(p.prio))
      else s.Move(t, Asleep(p.prio)).(dataMutex := None)
    case Deregister(t) =>
      if p.Passed? && p.prio < |s.queueCount|
      then s.Move(t, Owner).(queueCount := Bump(s.queueCount, p.prio, -1)) else s
    case TryLock(t, prio) =>
      if p.Outside? && 0 <= prio <= s.MaxPrio() && s.dataMutex.None? then s.Move(t, Owner).(dataMutex := Some(t)) else s
    case Release(t) =>
      if p.Owner? then s.Move(t, Unlocked).(dataMutex := None) else s
    case NotifyAll(t) =>
      if p.Unlocked? then s.(places := WakeAll(s.places)[t := Outside]) else s
    case SpuriousWake(t) =>
      if p.Asleep? then s.Move(t, Queued(p.prio)) else s
  }

  function Run(s: State, es: seq<Event>): State
    decreases |es|
  {
    if es == [] then s else Apply(Run(s, es[..|es| - 1]), es[|es| - 1])
  }

  /** The counters count the registered threads. */
  ghost predicate CountsExact(s: State) {
    && (forall t :: t in s.places && s.places[t].Counted() ==> s.places[t].prio < |s.queueCount|)
    && (forall p :: 0 <= p < |s.queueCount| ==> s.queueCount[p] == |s.Registered(p)|)
  }

  /** The data mutex is held exactly by the thread whose place says so. */
  ghost predicate MutexExact(s: State) {
    forall t: Thread :: s.dataMutex == Some(t) <==> s.At(t).Holds()
  }

  ghost predicate Outranked(s: State, t: Thread)
    requires s.At(t).Counted()
  {
    exists h :: s.At(h).Counted() && s.At(h).prio > s.At(t).prio
  }

  /** Somebody has yet to go through unlock() and its notify_all(). */
  ghost predicate NotifyPending(s: State) {
    exists o :: s.At(o).Owner? || s.At(o).Unlocked?
  }

  /** A thread sleeps only behind a higher priority, or until a notify. */
  ghost predicate SleepJustified(s: State) {
    forall t :: s.At(t).Asleep? ==> Outranked(s, t) || NotifyPending(s)
  }

  ghost predicate Inv(s: State) {
    CountsExact(s) && MutexExact(s) && SleepJustified(s)
  }

  /** Moving one thread changes the registered sets only at its own priorities. */
  lemma RegisteredMove(s: State, t: Thread, q: Place, p: nat)
    ensures var was := s.At(t).Counted() && s.At(t).prio == p;
            var now := q.Counted() && q.prio == p;
            |s.Move(t, q).Registered(p)| == |s.Registered(p)| + (if now then 1 else 0) - (if was then 1 else 0)
  {
    var was, now := s.Registered(p), s.Move(t, q).Registered(p);
    RegisteredMeans(s, t, p);
    RegisteredMeans(s.Move(t, q), t, p);
    RegisteredOthers(s, t, q, p);
    Apart(was, t);
    Apart(now, t);
  }

  lemma RegisteredMeans(s: State, t: Thread, p: nat)
    ensures t in s.Registered(p) <==> s.At(t).Counted() && s.At(t).prio == p
  {
  }

  lemma RegisteredOthers(s: State, t: Thread, q: Place, p: nat)
    ensures s.Move(t, q).Registered(p) - {t} == s.Registered(p) - {t}
  {
    var s' := s.Move(t, q);
    forall u | u != t ensures u in s'.Registered(p) <==> u in s.Registered(p) {
      RegisteredMeans(s, u, p);
      RegisteredMeans(s', u, p);
      assert s'.At(u) == s.At(u);
    }
  }

  lemma Apart(ts: set<Thread>, t: Thread)
    ensures |ts| == |ts - {t}| + if t in ts then 1 else 0
  {
    if t in ts {
      assert ts == ts - {t} + {t};
    }
  }

  lemma CanGoIsTop(s: State, t: Thread)
    requires CountsExact(s) && s.At(t).Counted()
    ensures s.CanGo(s.At(t).prio) <==> !Outranked(s, t)
  {
    CanGoMeans(s, s.At(t).prio);
  }

  lemma KeepsCounts(s: State, e: Event)
    requires Inv(s)
    ensures CountsExact(Apply(s, e))
  {
    var s' := Apply(s, e);
    forall p | 0 <= p < |s'.queueCount| ensures s'.queueCount[p] == |s'.Registered(p)| {
      assert s.queueCount[p] == |s.Registered(p)|;
      if s'.places == s.places[e.t := s'.At(e.t)] {
        RegisteredMove(s, e.t, s'.At(e.t), p);
        assert s'.Registered(p) == s.Move(e.t, s'.At(e.t)).Registered(p);
      } else {
        assert s'.Registered(p) == s.Registered(p);
      }
    }
  }

  lemma KeepsSleep(s: State, e: Event)
    requires Inv(s)
    ensures SleepJustified(Apply(s, e))
  {
    var s' := Apply(s, e);
    hide CountsExact, MutexExact, Apply, Outranked, NotifyPending;
    forall t | s'.At(t).Asleep? ensures Outranked(s', t) || NotifyPending(s') {
      if s.At(t).Asleep? {
        StaysJustified(s, e, t);
      } else {
        FallsAsleep(s, e, t);
      }
    }
  }

  lemma StaysJustified(s: State, e: Event, t: Thread)
    requires s.At(t).Asleep? && (Outranked(s, t) || NotifyPending(s)) && Apply(s, e).At(t).Asleep?
    ensures Outranked(Apply(s, e), t) || NotifyPending(Apply(s, e))
  {
    var s' := Apply(s, e);
    if NotifyPending(s) {
      var o :| s.At(o).Owner? || s.At(o).Unlocked?;
      assert s'.At(o).Owner? || s'.At(o).Unlocked?;
    } else {
      var h :| s.At(h).Counted() && s.At(h).prio > s.At(t).prio;
      assert s'.At(h).Owner? || (s'.At(h).Counted() && s'.At(h).prio == s.At(h).prio);
    }
  }

  lemma FallsAsleep(s: State, e: Event, t: Thread)
    requires Inv(s) && !s.At(t).Asleep? && Apply(s, e).At(t).Asleep?
    ensures Outranked(Apply(s, e), t)
  {
    hide MutexExact, SleepJustified;
    CanGoIsTop(s, t);
    hide CountsExact;
    var h :| s.At(h).Counted() && s.At(h).prio > s.At(t).prio;
    assert Apply(s, e).At(h) == s.At(h);
  }

  lemma {:induction false} Reachable(maxPrio: nat, es: seq<Event>)
    ensures Inv(Run(Init(maxPrio), es))
    decreases |es|
  {
    var s0 := Init(maxPrio);
    if es == [] {
      forall p | 0 <= p < |s0.queueCount| ensures s0.queueCount[p] == |s0.Registered(p)| {
        assert s0.Registered(p) == {};
      }
    } else {
      Reachable(maxPrio, es[..|es| - 1]);
      var s := Run(s0, es[..|es| - 1]);
      KeepsCounts(s, es[|es| - 1]);
      KeepsSleep(s, es[|es| - 1]);
    }
  }

  /** At most one thread is past lock() or try_lock() at any time. */
  lemma MutualExclusion(maxPrio: nat, es: seq<Event>, a: Thread, b: Thread)
    ensures var s := Run(Init(maxPrio), es);
            s.At(a).Owner? && s.At(b).Owner? ==> a == b
  {
    Reachable(maxPrio, es);
  }

  /** `queueCount_[p]` is the number of threads registered at priority `p`. */
  lemma CountsAreExact(maxPrio: nat, es: seq<Event>, p: nat)
    requires p <= maxPrio
    ensures var s := Run(Init(maxPrio), es);
            |s.queueCount| == maxPrio + 1 && s.queueCount[p] == |s.Registered(p)|
  {
    Reachable(maxPrio, es);
    SizeFixed(maxPrio, es);
  }

  lemma {:induction false} SizeFixed(maxPrio: nat, es: seq<Event>)
    ensures |Run(Init(maxPrio), es).queueCount| == maxPrio + 1
    decreases |es|
  {
    if es != [] {
      SizeFixed(maxPrio, es[..|es| - 1]);
    }
  }

  /** A thread passes the wait exactly when no thread of higher priority is
      registered at that instant; otherwise it goes to sleep. */
  lemma HighestGoesFirst(maxPrio: nat, es: seq<Event>, t: Thread)
    requires Run(Init(maxPrio), es).At(t).Checking?
    ensures var s := Run(Init(maxPrio), es);
            var s' := Apply(s, Check(t));
            && (s'.At(t).Passed? <==> !Outranked(s, t))
            && (s'.At(t).Asleep? <==> Outranked(s, t))
  {
    Reachable(maxPrio, es);
    CanGoIsTop(Run(Init(maxPrio), es), t);
  }

  /** A thread that can still move on its own and will wake the others. */
  predicate Awake(p: Place) {
    p.Queued? || p.Checking? || p.Passed? || p.Owner? || p.Unlocked?
  }

  /** A registered thread of maximal priority. */
  ghost predicate IsTop(s: State, t: Thread) {
    s.At(t).Counted() && forall h :: s.At(h).Counted() ==> s.At(h).prio <= s.At(t).prio
  }

  lemma {:induction false} TopExists(s: State, t: Thread) returns (top: Thread)
    requires CountsExact(s) && s.At(t).Counted()
    ensures IsTop(s, top) && s.At(top).prio >= s.At(t).prio
    decreases |s.queueCount| - s.At(t).prio
  {
    top := t;
    if Outranked(s, t) {
      var h :| s.At(h).Counted() && s.At(h).prio > s.At(t).prio;
      top := TopExists(s, h);
    }
  }

  /** No lost wakeup: while a thread sleeps, some thread is awake. */
  lemma NoLostWakeup(maxPrio: nat, es: seq<Event>, t: Thread)
    requires Run(Init(maxPrio), es).At(t).Asleep?
    ensures exists h :: Awake(Run(Init(maxPrio), es).At(h))
  {
    var s := Run(Init(maxPrio), es);
    Reachable(maxPrio, es);
    if NotifyPending(s) {
      var o :| s.At(o).Owner? || s.At(o).Unlocked?;
      assert Awake(s.At(o));
    } else {
      var top := TopExists(s, t);
      assert !s.At(top).Asleep?;
      assert Awake(s.At(top));
    }
  }

  lemma {:induction false} RunPrepend(s: State, e: Event, es: seq<Event>)
    ensures Run(s, [e] + es) == Run(Apply(s, e), es)
    decreases |es|
  {
    var all := [e] + es;
    if es == [] {
      assert all[..0] == [] && all[0] == e;
    } else {
      hide Apply;
      RunPrepend(s, e, es[..|es| - 1]);
      assert all[..|all| - 1] == [e] + es[..|es| - 1];
    }
  }

  /** With the data mutex free, an awake thread of maximal priority gets the
      lock in three steps. */
  lemma TopTakes(s: State, top: Thread)
    requires Inv(s) && IsTop(s, top) && s.dataMutex.None? && s.At(top).Queued?
    ensures Run(s, [Acquire(top), Check(top), Deregister(top)]).At(top).Owner?
  {
    var s1 := Apply(s, Acquire(top));
    KeepsCounts(s, Acquire(top));
    forall h ensures s1.At(h).Counted() <==> s.At(h).Counted() {}
    CanGoIsTop(s1, top);
    var s2 := Apply(s1, Check(top));
    RunPrepend(s, Acquire(top), [Check(top), Deregister(top)]);
    RunPrepend(s1, Check(top), [Deregister(top)]);
    RunPrepend(s2, Deregister(top), []);
    assert [Acquire(top)] + [Check(top), Deregister(top)] == [Acquire(top), Check(top), Deregister(top)];
    assert [Check(top)] + [Deregister(top)] == [Check(top), Deregister(top)];
    assert [Deregister(top)] + [] == [Deregister(top)];
  }

  ghost predicate NoSpurious(es: seq<Event>) {
    forall i :: 0 <= i < |es| ==> !es[i].SpuriousWake?
  }

  /** With the data mutex free, only a sleeping or waiting thread is registered. */
  lemma FreeMeansNobodyHolds(s: State, h: Thread)
    requires MutexExact(s) && s.dataMutex.None? && s.At(h).Counted()
    ensures s.At(h).Queued? || s.At(h).Asleep?
  {
    assert s.dataMutex == Some(h) <==> s.At(h).Holds();
  }

  /** ... and if nobody is about to notify, the top one waits. */
  lemma TopIsQueued(s: State, top: Thread)
    requires Inv(s) && IsTop(s, top) && s.dataMutex.None? && forall u :: !s.At(u).Unlocked?
    ensures s.At(top).Queued?
  {
    FreeMeansNobodyHolds(s, top);
    forall o: Thread ensures !s.At(o).Owner? {
      assert s.dataMutex == Some(o) <==> s.At(o).Holds();
    }
    assert !NotifyPending(s) && !Outranked(s, top);
  }

  lemma NotifyWakes(s: State, u: Thread, t: Thread)
    requires Inv(s) && s.At(u).Unlocked? && s.dataMutex.None? && s.At(t).Counted()
    ensures var s1 := Apply(s, NotifyAll(u));
            Inv(s1) && s1.dataMutex.None? && s1.At(t).Counted() && forall h :: !s1.At(h).Asleep?
  {
    KeepsInv(s, NotifyAll(u));
  }

  lemma LockCanBeTakenWhenFree(s: State, t: Thread) returns (es: seq<Event>, o: Thread)
    requires Inv(s) && s.At(t).Counted() && s.dataMutex.None?
    ensures NoSpurious(es) && Run(s, es).At(o).Owner?
  {
    hide Run, SleepJustified;
    if u :| s.At(u).Unlocked? {
      var s1 := Apply(s, NotifyAll(u));
      NotifyWakes(s, u, t);
      hide Apply;
      o := TopExists(s1, t);
      FreeMeansNobodyHolds(s1, o);
      TopTakes(s1, o);
      es := [Acquire(o), Check(o), Deregister(o)];
      RunPrepend(s, NotifyAll(u), es);
      es := [NotifyAll(u)] + es;
    } else {
      hide Apply;
      o := TopExists(s, t);
      TopIsQueued(s, o);
      TopTakes(s, o);
      es := [Acquire(o), Check(o), Deregister(o)];
    }
  }

  /** No deadlock: from every reachable state with a registered thread, some
      thread can get the lock without the help of a spurious wakeup. */
  lemma LockCanBeTaken(maxPrio: nat, before: seq<Event>, t: Thread) returns (es: seq<Event>, o: Thread)
    requires Run(Init(maxPrio), before).At(t).Counted()
    ensures NoSpurious(es) && Run(Run(Init(maxPrio), before), es).At(o).Owner?
  {
    var s := Run(Init(maxPrio), before);
    Reachable(maxPrio, before);
    if s.dataMutex.None? {
      es, o := LockCanBeTakenWhenFree(s, t);
      return;
    }
    o := s.dataMutex.value;
    match s.At(o)
    case Owner =>
      es := [];
    case Passed(_) =>
      es := [Deregister(o)];
      RunPrepend(s, Deregister(o), []);
      assert es + [] == es;
    case Checking(_) =>
      var s1 := Apply(s, Check(o));
      KeepsCounts(s, Check(o));
      KeepsSleep(s, Check(o));
      if s1.At(o).Passed? {
        es := [Deregister(o)];
        RunPrepend(s1, Deregister(o), []);
        assert es + [] == es;
      } else {
        var c := o;
        es, o := LockCanBeTakenWhenFree(s1, t);
        RunPrepend(s, Check(c), es);
        es := [Check(c)] + es;
        return;
      }
      RunPrepend(s, Check(o), es);
      es := [Check(o)] + es;
  }

  /** An owner stays one until its own unlock(), whatever the others do. */
  lemma {:induction false} OwnerUntilRelease(s: State, es: seq<Event>, t: Thread)
    requires s.At(t).Owner? && Release(t) !in es
    ensures Run(s, es).At(t).Owner?
    decreases |es|
  {
    if es != [] {
      OwnerUntilRelease(s, es[..|es| - 1], t);
      assert es[|es| - 1] != Release(t);
    }
  }

  lemma {:induction false} RunOn(s: State, a: seq<Event>, b: seq<Event>)
    ensures Run(s, a + b) == Run(Run(s, a), b)
    decreases |b|
  {
    if b == [] {
      assert a + b == a;
    } else {
      RunOn(s, a, b[..|b| - 1]);
      assert (a + b)[..|a + b| - 1] == a + b[..|b| - 1];
    }
  }

  /** try_lock() gets the lock exactly with a valid priority and while no thread holds
      the data mutex, and does nothing otherwise. */
  lemma TryLockExactly(maxPrio: nat, es: seq<Event>, t: Thread, prio: int)
    requires Run(Init(maxPrio), es).At(t).Outside?
    ensures var s := Run(Init(maxPrio), es);
            var s' := Apply(s, TryLock(t, prio));
            var free := forall h :: !s.At(h).Holds();
            && (s'.At(t).Owner? <==> 0 <= prio <= maxPrio && free)
            && (!s'.At(t).Owner? ==> s' == s)
  {
    Reachable(maxPrio, es);
    SizeFixed(maxPrio, es);
    var s := Run(Init(maxPrio), es);
    hide Run, CountsExact, SleepJustified;
    if s.dataMutex.None? {
      forall h: Thread ensures !s.At(h).Holds() {
        assert s.dataMutex == Some(h) <==> s.At(h).Holds();
      }
    } else {
      assert s.At(s.dataMutex.value).Holds();
    }
  }

  /** Two threads that got the lock by try_lock(), the first of which has not unlocked it
      since, are one. */
  lemma TryLocksExclude(maxPrio: nat, es: seq<Event>, a: Thread, p: int, more: seq<Event>, b: Thread, q: int)
    requires Run(Init(maxPrio), es + [TryLock(a, p)]).At(a).Owner? && Release(a) !in more
    requires Run(Init(maxPrio), es + [TryLock(a, p)] + more + [TryLock(b, q)]).At(b).Owner?
    ensures a == b
  {
    hide Run;
    var first, last := es + [TryLock(a, p)], more + [TryLock(b, q)];
    RunOn(Init(maxPrio), first, last);
    OwnerUntilRelease(Run(Init(maxPrio), first), last, a);
    assert first + last == es + [TryLock(a, p)] + more + [TryLock(b, q)];
    MutualExclusion(maxPrio, first + last, a, b);
  }

  // ---------------------------------------------------------------------
  // Every call returns
  // ---------------------------------------------------------------------

  /** The threads in lock(). */
  ghost function Contenders(s: State): set<Thread> {
    set t | t in s.places && s.places[t].Counted()
  }

  /** Events of threads that are in a call; nobody calls anew. */
  ghost predicate Finishing(es: seq<Event>) {
    forall i :: 0 <= i < |es| ==> !es[i].SpuriousWake? && !es[i].Lock? && !es[i].TryLock?
  }

  lemma Push(s: State, es: seq<Event>, e: Event) returns (r: seq<Event>)
    requires Inv(Run(s, es)) && Finishing(es) && Finishing([e])
    ensures r == es + [e] && Run(s, r) == Apply(Run(s, es), e) && Inv(Run(s, r)) && Finishing(r)
  {
    r := es + [e];
    assert r[..|es|] == es && [e][0] == e;
    KeepsInv(Run(s, es), e);
  }

  /** The data mutex is free and nobody is about to notify. */
  ghost predicate Settled(s: State) {
    s.dataMutex.None? && forall u :: !s.At(u).Unlocked?
  }

  /** Every thread that is done with the lock can leave unlock(). */
  ghost function Leaving(s: State): set<Thread> {
    set t | t in s.places && s.places[t].Unlocked?
  }

  lemma {:induction false} AllNotify(s: State, es: seq<Event>) returns (r: seq<Event>)
    requires Inv(Run(s, es)) && Finishing(es) && Run(s, es).dataMutex.None?
    ensures Inv(Run(s, r)) && Finishing(r) && Settled(Run(s, r))
    ensures forall h :: Run(s, r).At(h).Counted() <==> Run(s, es).At(h).Counted()
    decreases Leaving(Run(s, es))
  {
    hide Run;
    r := es;
    var s1 := Run(s, es);
    if u :| s1.At(u).Unlocked? {
      r := Push(s, r, NotifyAll(u));
      var s2 := Run(s, r);
      assert u in Leaving(s1) && u !in Leaving(s2);
      assert Leaving(s2) <= Leaving(s1);
      hide Inv;
      r := AllNotify(s, r);
    }
  }

  /** With everything settled a registered thread of the highest priority gets in. */
  lemma TopGetsIn(s: State, es: seq<Event>, top: Thread) returns (r: seq<Event>)
    requires Inv(Run(s, es)) && Finishing(es) && Settled(Run(s, es)) && IsTop(Run(s, es), top)
    ensures Inv(Run(s, r)) && Finishing(r) && Run(s, r).At(top).Owner?
    ensures forall h :: h != top ==> Run(s, r).At(h) == Run(s, es).At(h)
  {
    TopIsQueued(Run(s, es), top);
    hide Run, CountsExact, SleepJustified;
    r := Push(s, es, Acquire(top));
    var s1 := Run(s, r);
    assert IsTop(s1, top);
    CanGoIsTop(s1, top);
    r := Push(s, r, Check(top));
    r := Push(s, r, Deregister(top));
  }

  /** How far the holder of the data mutex is from giving it up or being counted out. */
  function Rank(s: State): nat {
    if s.dataMutex.None? then 0 else if s.At(s.dataMutex.value).Checking? then 2 else 1
  }

  /** One step of the thread that holds the data mutex: it owns the lock and frees it, or
      gets through lock(), or goes back to sleep. */
  lemma HolderMoves(s: State, es: seq<Event>, o: Thread) returns (r: seq<Event>)
    requires Inv(Run(s, es)) && Finishing(es) && Run(s, es).dataMutex == Some(o)
    ensures Inv(Run(s, r)) && Finishing(r)
    ensures forall h :: h != o ==> Run(s, r).At(h) == Run(s, es).At(h)
    ensures var s1, s2 := Run(s, es), Run(s, r);
            && (s1.At(o).Passed? ==> s2.At(o).Owner?)
            && (!s1.At(o).Passed? ==> Rank(s2) < Rank(s1) && (s2.At(o).Counted() <==> s1.At(o).Counted()))
  {
    hide Run;
    var s1 := Run(s, es);
    assert s1.At(o).Holds();
    match s1.At(o)
    case Owner => r := Push(s, es, Release(o));
    case Passed(_) =>
      PrioInRange(s1, o);
      hide Inv;
      r := Push(s, es, Deregister(o));
    case Checking(_) =>
      hide CountsExact, SleepJustified, MutexExact;
      r := Push(s, es, Check(o));
  }

  lemma PrioInRange(s: State, t: Thread)
    requires CountsExact(s) && s.At(t).Counted()
    ensures s.At(t).prio < |s.queueCount|
  {
  }

  lemma FewerContend(s: State, s': State, o: Thread)
    requires s.At(o).Counted() && !s'.At(o).Counted()
    requires forall h :: h != o ==> (s'.At(h).Counted() <==> s.At(h).Counted())
    ensures Contenders(s') < Contenders(s)
  {
    assert o in Contenders(s) && o !in Contenders(s');
    forall h | h in Contenders(s') ensures h in Contenders(s) {
      assert s'.At(h).Counted() && s.At(h).Counted();
    }
  }

  lemma SameContend(s: State, s': State)
    requires forall h :: s'.At(h).Counted() <==> s.At(h).Counted()
    ensures Contenders(s') == Contenders(s)
  {
    forall h: Thread ensures h in Contenders(s') <==> h in Contenders(s) {
      assert s'.At(h).Counted() <==> s.At(h).Counted();
    }
  }

  /** A registered thread gets in: those before it get in, leave and notify. */
  lemma {:induction false} GetsIn(s: State, es: seq<Event>, t: Thread) returns (r: seq<Event>)
    requires Inv(Run(s, es)) && Finishing(es) && Run(s, es).At(t).Counted()
    ensures Finishing(r) && Run(s, r).At(t).Owner?
    decreases Contenders(Run(s, es)), Rank(Run(s, es))
  {
    hide Run, Contenders;
    var s1 := Run(s, es);
    if s1.dataMutex.Some? {
      var o := s1.dataMutex.value;
      assert s1.At(o).Holds();
      hide Inv;
      r := HolderMoves(s, es, o);
      if s1.At(o).Passed? {
        FewerContend(s1, Run(s, r), o);
      } else {
        SameContend(s1, Run(s, r));
      }
    } else {
      r := AllNotify(s, es);
      SameContend(s1, Run(s, r));
      var s2 := Run(s, r);
      var top := t;
      if !IsTop(s2, t) {
        top := TopExists(s2, t);
      }
      hide Inv;
      r := TopGetsIn(s, r, top);
      FewerContend(s2, Run(s, r), top);
    }
    if !Run(s, r).At(t).Owner? {
      r := GetsIn(s, r, t);
    }
  }

  /** No call of lock() waits in vain: from every reachable state, threads that are in a
      call can go on so that the caller owns the lock, without a spurious wakeup. */
  lemma LockReturns(maxPrio: nat, es: seq<Event>, t: Thread, prio: nat) returns (more: seq<Event>)
    requires Run(Init(maxPrio), es).At(t).Outside? && prio <= maxPrio
    ensures Finishing(more) && Run(Init(maxPrio), es + [Lock(t, prio)] + more).At(t).Owner?
  {
    var s := Run(Init(maxPrio), es);
    SizeFixed(maxPrio, es);
    Reachable(maxPrio, es + [Lock(t, prio)]);
    assert (es + [Lock(t, prio)])[..|es|] == es;
    var s1 := Run(Init(maxPrio), es + [Lock(t, prio)]);
    assert s1.At(t) == Queued(prio);
    assert Run(s1, []) == s1;
    hide Run, Inv;
    more := GetsIn(s1, [], t);
    RunOn(Init(maxPrio), es + [Lock(t, prio)], more);
  }

  /** A registered thread gets the lock from whoever owns it. */
  lemma LockPassesOn(maxPrio: nat, es: seq<Event>, o: Thread, t: Thread) returns (more: seq<Event>)
    requires Run(Init(maxPrio), es).At(o).Owner? && Run(Init(maxPrio), es).At(t).Counted()
    ensures Finishing(more)
    ensures var s' := Run(Init(maxPrio), es + more); s'.At(t).Owner? && !s'.At(o).Holds()
  {
    Reachable(maxPrio, es);
    var s := Run(Init(maxPrio), es);
    assert Run(s, []) == s;
    hide Run, Inv;
    more := GetsIn(s, [], t);
    RunOn(Init(maxPrio), es, more);
    Reachable(maxPrio, es + more);
    OneHolder(Run(Init(maxPrio), es + more), t, o);
  }

  lemma OneHolder(s: State, t: Thread, o: Thread)
    requires Inv(s) && s.At(t).Holds() && t != o
    ensures !s.At(o).Holds()
  {
  }

  /** unlock() returns: then nobody holds the data mutex, nobody sleeps, and every other
      thread is registered as it was. */
  lemma UnlockReturns(maxPrio: nat, es: seq<Event>, t: Thread)
    requires Run(Init(maxPrio), es).At(t).Owner?
    ensures var s, s' := Run(Init(maxPrio), es), Run(Init(maxPrio), es + [Release(t), NotifyAll(t)]);
            && s'.At(t).Outside? && s'.queueCount == s.queueCount
            && forall h :: !s'.At(h).Holds() && !s'.At(h).Asleep?
                           && (h != t ==> (s'.At(h).Counted() <==> s.At(h).Counted()))
  {
    Reachable(maxPrio, es);
    var s := Run(Init(maxPrio), es);
    var all := es + [Release(t), NotifyAll(t)];
    assert all[..|all| - 1] == es + [Release(t)] && (es + [Release(t)])[..|es|] == es;
    Reachable(maxPrio, all);
    hide CountsExact, SleepJustified;
    assert Run(Init(maxPrio), all) == Apply(Apply(s, Release(t)), NotifyAll(t));
    forall h: Thread ensures !Run(Init(maxPrio), all).At(h).Holds() {
      assert Run(Init(maxPrio), all).dataMutex.None?;
    }
  }

  /** The object itself. Its methods are the critical sections of the source;
      `places` records how far each thread has got in its call. */
  class Mutex {
    const maxPrio: nat
    var queueCount: array<int>
    var dataMutex: Option<Thread>
    var places: map<Thread, Place>

    ghost function View(): State
      reads this, queueCount
    {
      State(queueCount[..], dataMutex, places)
    }

    ghost predicate Valid()
      reads this, queueCount
    {
      queueCount.Length == maxPrio + 1 && Inv(View())
    }

    constructor (maxPrio: nat)
      ensures Valid() && View() == Init(maxPrio) && fresh(queueCount)
    {
      this.maxPrio := maxPrio;
      queueCount := new int[maxPrio + 1](i => 0);
      dataMutex := None;
      places := map[];
      new;
      assert View() == Init(maxPrio);
      Reachable(maxPrio, []);
    }

    /** No thread of a higher priority is registered. */
    method CanGo(prio: nat) returns (r: bool)
      requires Valid()
      ensures r <==> View().CanGo(prio)
      ensures r <==> forall h :: View().At(h).Counted() ==> View().At(h).prio <= prio
    {
      ghost var s := View();
      r := true;
      var i := prio + 1;
      while i <= maxPrio
        invariant prio < i
        invariant forall j :: prio < j < i && j <= maxPrio ==> queueCount[j] == 0
      {
        if queueCount[i] != 0 {
          assert s.queueCount[i] != 0;
          r := false;
          break;
        }
        i := i + 1;
      }
      assert r <==> s.CanGo(prio);
      CanGoMeans(s, prio);
    }

    /** First section of lock(); false stands for the thrown error. */
    method Register(t: Thread, prio: int) returns (ok: bool)
      requires Valid() && View().At(t).Outside?
      modifies this, queueCount
      ensures Valid() && View() == Apply(old(View()), Lock(t, prio)) && queueCount == old(queueCount)
      ensures ok <==> 0 <= prio <= maxPrio
      ensures if ok then places == old(places)[t := Queued(prio)] && dataMutex == old(dataMutex)
              else View() == old(View())
    {
      KeepsInv(View(), Lock(t, prio));
      if prio < 0 || prio > maxPrio {
        return false;
      }
      queueCount[prio] := queueCount[prio] + 1;
      places := places[t := Queued(prio)];
      return true;
    }

    /** Takes the data mutex, on entry to the wait or after a wakeup. */
    method TakeData(t: Thread) returns (ok: bool)
      requires Valid() && View().At(t).Queued?
      modifies this
      ensures Valid() && View() == Apply(old(View()), Acquire(t)) && queueCount == old(queueCount)
      ensures ok <==> old(dataMutex).None?
      ensures if ok then dataMutex == Some(t) && places == old(places)[t := Checking(old(View().At(t).prio))]
              else View() == old(View())
    {
      KeepsInv(View(), Acquire(t));
      if dataMutex.Some? {
        return false;
      }
      dataMutex := Some(t);
      places := places[t := Checking(places[t].prio)];
      return true;
    }

    /** Evaluates the predicate of the wait: go on, or free the mutex and sleep. */
    method CheckOrSleep(t: Thread) returns (passed: bool)
      requires Valid() && View().At(t).Checking?
      modifies this
      ensures Valid() && View() == Apply(old(View()), Check(t)) && queueCount == old(queueCount)
      ensures passed <==> !old(Outranked(View(), t))
      ensures var prio := old(View().At(t).prio);
              if passed then dataMutex == Some(t) && places == old(places)[t := Passed(prio)]
              else dataMutex.None? && places == old(places)[t := Asleep(prio)]
    {
      assert dataMutex == Some(t) by { assert View().At(t).Holds(); }
      KeepsInv(View(), Check(t));
      var prio := places[t].prio;
      passed := CanGo(prio);
      if passed {
        places := places[t := Passed(prio)];
      } else {
        places := places[t := Asleep(prio)];
        dataMutex := None;
      }
    }

    /** Last section of lock(). */
    method Leave(t: Thread)
      requires Valid() && View().At(t).Passed?
      modifies this, queueCount
      ensures Valid() && View() == Apply(old(View()), Deregister(t)) && queueCount == old(queueCount)
      ensures dataMutex == Some(t) && places == old(places)[t := Owner]
    {
      assert dataMutex == Some(t) by { assert View().At(t).Holds(); }
      KeepsInv(View(), Deregister(t));
      var prio := places[t].prio;
      queueCount[prio] := queueCount[prio] - 1;
      places := places[t := Owner];
    }

    /** First half of unlock(). */
    method FreeData(t: Thread)
      requires Valid() && View().At(t).Owner?
      modifies this
      ensures Valid() && View() == Apply(old(View()), Release(t)) && queueCount == old(queueCount)
      ensures dataMutex.None? && places == old(places)[t := Unlocked]
    {
      KeepsInv(View(), Release(t));
      dataMutex := None;
      places := places[t := Unlocked];
    }

    /** Second half of unlock(): nobody is asleep afterwards. */
    method Notify(t: Thread)
      requires Valid() && View().At(t).Unlocked?
      modifies this
      ensures Valid() && View() == Apply(old(View()), NotifyAll(t)) && queueCount == old(queueCount)
      ensures dataMutex == old(dataMutex) && View().At(t).Outside?
      ensures forall h :: h != t ==>
                View().At(h) == if old(View().At(h).Asleep?) then Queued(old(View().At(h).prio)) else old(View().At(h))
    {
      KeepsInv(View(), NotifyAll(t));
      places := WakeAll(places)[t := Outside];
    }

    /** Ignores the priority: only the data mutex matters. */
    method TryTake(t: Thread, prio: int) returns (ok: bool)
      requires Valid() && View().At(t).Outside?
      modifies this
      ensures Valid() && View() == Apply(old(View()), TryLock(t, prio)) && queueCount == old(queueCount)
      ensures ok <==> 0 <= prio <= maxPrio && old(dataMutex).None?
      ensures if ok then dataMutex == Some(t) && places == old(places)[t := Owner] else View() == old(View())
    {
      KeepsInv(View(), TryLock(t, prio));
      if prio < 0 || prio > maxPrio || dataMutex.Some? {
        return false;
      }
      dataMutex := Some(t);
      places := places[t := Owner];
      return true;
    }
  }

  lemma KeepsInv(s: State, e: Event)
    requires Inv(s)
    ensures Inv(Apply(s, e))
  {
    KeepsCounts(s, e);
    KeepsSleep(s, e);
  }

  lemma CanGoMeans(s: State, prio: nat)
    requires CountsExact(s)
    ensures s.CanGo(prio) <==> forall h :: s.At(h).Counted() ==> s.At(h).prio <= prio
  {
    forall h | s.At(h).Counted() && s.At(h).prio > prio ensures !s.CanGo(prio) {
      var p := s.At(h).prio;
      assert h in s.Registered(p);
      assert s.queueCount[p] != 0;
    }
    forall i | prio < i < |s.queueCount| && s.queueCount[i] != 0
      ensures exists h :: s.At(h).Counted() && s.At(h).prio > prio
    {
      assert s.Registered(i) != {};
      var h :| h in s.Registered(i);
      assert s.At(h).Counted();
    }
  }
}
