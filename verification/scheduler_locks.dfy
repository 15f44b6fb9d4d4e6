/**
 The lock records: every step keeps mutexes, rwlocks and barriers coherent, and strands no
 mutex waiter.
 */
module SchedulerLocks {
  import opened Scheduler
  import opened SchedulerCore
  import opened SchedulerSteps

  predicate Ready(th: Thread) { th.state.Runnable? || th.state.Running? }

  /** t was woken to take mutex a and has not done so yet. */
  predicate Woken(s: State, a: Addr, t: Tid) {
    t in s.threads && s.threads[t].mutexWait == a && Ready(s.threads[t])
  }

  /** is_locked, lock_count and owner agree; a free mutex with waiters has somebody on the way. */
  ghost predicate MutexOk(s: State, a: Addr) {
    a in s.mutexes ==>
      var x := s.mutexes[a];
      && a != 0
      && (x.locked <==> x.count > 0)
      && (x.locked <==> x.owner != 0)
      && (x.queue != [] && !x.locked ==> exists t: Tid :: Woken(s, a, t))
  }

  predicate RwOk(s: State, l: Addr) {
    l in s.rwlocks ==> s.rwlocks[l].readers == 0 || s.rwlocks[l].writer == 0
  }

  predicate BarrierOk(s: State, b: Addr) {
    b in s.barriers ==>
      s.barriers[b].waiting == |s.barriers[b].queue| && s.barriers[b].waiting < s.barriers[b].count
  }

  ghost predicate Locks(s: State) {
    && NoLateJoiner(s)
    && (forall a: Addr {:trigger MutexOk(s, a)} :: MutexOk(s, a))
    && (forall l: Addr {:trigger RwOk(s, l)} :: RwOk(s, l))
    && (forall b: Addr {:trigger BarrierOk(s, b)} :: BarrierOk(s, b))
  }

  // ------------------------------------------------------------------ frames

  /** A ready thread stays ready for the same mutex; nobody dies, and the dead gain no joiner. */
  predicate Drift(s: State, s': State, t: Tid) {
    && (t in s.threads && Ready(s.threads[t]) ==>
          t in s'.threads && Ready(s'.threads[t]) && s'.threads[t].mutexWait == s.threads[t].mutexWait)
    && (t in s'.threads && s'.threads[t].state.Terminated? ==>
          && t in s.threads && s.threads[t].state.Terminated?
          && (s.threads[t].joiners == [] ==> s'.threads[t].joiners == []))
  }

  ghost predicate Others(s: State, s': State) {
    && (forall t: Tid {:trigger Drift(s, s', t)} :: t != s.current ==> Drift(s, s', t))
    && (s.current in s'.threads && s'.threads[s.current].state.Terminated? ==> s'.threads[s.current].joiners == [])
  }

  predicate SameBut<T(==)>(m: map<Addr, T>, m': map<Addr, T>, k: Addr) {
    forall a :: a in m' && a != k ==> a in m && m'[a] == m[a]
  }

  /** Only the mutex m, the rwlock l and the barrier b changed, and those are fine. */
  lemma LocksFrame(s: State, s': State, m: Addr, l: Addr, b: Addr)
    requires Locks(s) && Others(s, s')
    requires SameBut(s.mutexes, s'.mutexes, m) && SameBut(s.rwlocks, s'.rwlocks, l) && SameBut(s.barriers, s'.barriers, b)
    requires MutexOk(s', m) && RwOk(s', l) && BarrierOk(s', b)
    requires Drift(s, s', s.current)
             || (s.current in s.threads && (s.threads[s.current].mutexWait == 0 || s.threads[s.current].mutexWait == m))
    ensures Locks(s')
  {
    forall a: Addr ensures MutexOk(s', a) {
      if a != m && a in s'.mutexes {
        assert MutexOk(s, a);
        if s.mutexes[a].queue != [] && !s.mutexes[a].locked {
          var t: Tid :| Woken(s, a, t);
          assert Drift(s, s', t);
          assert Woken(s', a, t);
        }
      }
    }
    forall l0: Addr ensures RwOk(s', l0) { assert RwOk(s, l0); }
    forall b0: Addr ensures BarrierOk(s', b0) { assert BarrierOk(s, b0); }
    forall t: Tid | t in s'.threads && s'.threads[t].state.Terminated? ensures s'.threads[t].joiners == [] {
      if t != s.current { assert Drift(s, s', t); assert s.threads[t].joiners == []; }
    }
  }

  predicate SameLocks(s: State, s': State) {
    s'.mutexes == s.mutexes && s'.rwlocks == s.rwlocks && s'.barriers == s.barriers
  }

  lemma {:induction false} WakeSleepersDrift(s: State, due: seq<Tid>, t: Tid)
    ensures Drift(s, WakeSleepers(s, due), t) && SameLocks(s, WakeSleepers(s, due))
    ensures WakeSleepers(s, due).current == s.current && WakeSleepers(s, due).threads.Keys == s.threads.Keys
    decreases |due|
  {
    if due != [] { WakeSleepersDrift(WakeSleeper(s, due[0]), due[1..], t); }
  }

  lemma DriftTwice(s: State, s1: State, s2: State, t: Tid)
    requires Drift(s, s1, t) && Drift(s1, s2, t)
    ensures Drift(s, s2, t)
  {
  }

  lemma SaveDrift(s: State, t: Tid)
    requires s.current in s.threads
    ensures Drift(s, Save(s), t) && SameLocks(s, Save(s))
    ensures Save(s).threads.Keys == s.threads.Keys && Save(s).current == s.current
  {
  }

  lemma DispatchDrift(s: State, t: Tid)
    requires s.current in s.threads
    ensures Drift(s, Dispatch(s), t) && SameLocks(s, Dispatch(s))
    ensures Dispatch(s).threads.Keys == s.threads.Keys
  {
  }

  lemma SwitchDrift(s: State, due: seq<Tid>, t: Tid)
    requires s.current in s.threads
    ensures Drift(s, Switch(s, due), t) && SameLocks(s, Switch(s, due))
    ensures Switch(s, due).threads.Keys == s.threads.Keys
  {
    var s1 := Save(s);
    SaveDrift(s, t);
    WakeSleepersDrift(s1, due, t);
    var s2 := WakeSleepers(s1, due);
    DispatchDrift(s2, t);
    DriftTwice(s, s1, s2, t);
    DriftTwice(s, s2, Dispatch(s2), t);
  }

  /** A switch alone changes no lock. */
  lemma SwitchLocks(s: State, due: seq<Tid>)
    requires Locks(s) && s.current in s.threads
    ensures Locks(Switch(s, due))
  {
    var s' := Switch(s, due);
    forall t: Tid ensures Drift(s, s', t) { SwitchDrift(s, due, t); }
    SwitchDrift(s, due, s.current);
    assert s.current in s'.threads && s'.threads[s.current].state.Terminated? ==> s.threads[s.current].joiners == [];
    assert MutexOk(s, 0) && RwOk(s, 0) && BarrierOk(s, 0);
    LocksFrame(s, s', 0, 0, 0);
  }

  /** Blocking the current thread in q, then switching: only q changed in the lock records. */
  lemma ParkOthers(s: State, q: QueueId, th: Thread, on: nat, due: seq<Tid>)
    requires HasQueue(s, q) && CurrentRuns(s)
    requires q.JoinQ? ==> !s.threads[q.t].state.Terminated?
    ensures Others(s, Switch(Enqueue(s, q, th, on), due))
    ensures SameLocks(Enqueue(s, q, th, on), Switch(Enqueue(s, q, th, on), due))
  {
    var s1 := Enqueue(s, q, th, on);
    var s' := Switch(s1, due);
    forall t: Tid ensures t != s.current ==> Drift(s, s', t) {
      SwitchDrift(s1, due, t);
      assert t != s.current ==> Drift(s, s1, t);
    }
    SwitchDrift(s1, due, s.current);
    assert Drift(s1, s', s.current);
  }

  lemma {:induction false} UnblockEachLocks(s: State, ts: seq<Tid>, t: Tid)
    ensures SameLocks(s, UnblockEach(s, ts)) && Drift(s, UnblockEach(s, ts), t)
    ensures UnblockEach(s, ts).threads.Keys == s.threads.Keys && UnblockEach(s, ts).current == s.current
    decreases |ts|
  {
    if ts != [] { UnblockEachLocks(Unblock(s, ts[0]), ts[1..], t); }
  }

  lemma SetQueueDrift(s: State, q: QueueId, v: seq<Tid>, t: Tid)
    requires HasQueue(s, q) && (Queue(s, q) == [] ==> v == [])
    ensures Drift(s, SetQueue(s, q, v), t)
  {
  }

  /** Waking a queue: threads only drift, and no lock record but the queue's changes. */
  lemma UnblockOthers(s: State, q: QueueId, v: seq<Tid>, ts: seq<Tid>)
    requires HasQueue(s, q) && (Queue(s, q) == [] ==> v == []) && NoLateJoiner(s)
    ensures var s' := UnblockEach(SetQueue(s, q, v), ts);
            Others(s, s') && Drift(s, s', s.current) && SameLocks(SetQueue(s, q, v), s')
  {
    var s1 := SetQueue(s, q, v);
    var s' := UnblockEach(s1, ts);
    forall t: Tid ensures Drift(s, s', t) {
      SetQueueDrift(s, q, v, t);
      UnblockEachLocks(s1, ts, t);
      DriftTwice(s, s1, s', t);
    }
    UnblockEachLocks(s1, ts, s.current);
    assert Drift(s, s', s.current);
  }

  lemma WakeFirstOthers(s: State, q: QueueId)
    requires HasQueue(s, q) && Queue(s, q) != [] && NoLateJoiner(s)
    ensures Others(s, WakeFirst(s, q)) && Drift(s, WakeFirst(s, q), s.current)
    ensures SameLocks(SetQueue(s, q, Queue(s, q)[1..]), WakeFirst(s, q))
  {
    var s1, t := SetQueue(s, q, Queue(s, q)[1..]), Queue(s, q)[0];
    UnblockOthers(s, q, Queue(s, q)[1..], [t]);
    assert UnblockEach(s1, [t]) == UnblockEach(Unblock(s1, t), []);
  }

  // ------------------------------------------------------------------ operations on mutexes

  /** In guest code, an operation that touched only mutex m. */
  lemma MutexStep(s: State, s': State, m: Addr)
    requires Core(s) && InGuest(s) && Locks(s) && Others(s, s')
    requires SameBut(s.mutexes, s'.mutexes, m) && s'.rwlocks == s.rwlocks && s'.barriers == s.barriers
    requires MutexOk(s', m)
    ensures Locks(s')
  {
    GuestContext(s);
    assert RwOk(s, 0) && BarrierOk(s, 0);
    LocksFrame(s, s', m, 0, 0);
  }

  lemma SetMutexLocks(s: State, m: Addr, x: Mutex)
    requires Core(s) && InGuest(s) && Locks(s) && m != 0
    requires (x.locked <==> x.count > 0) && (x.locked <==> x.owner != 0) && (x.queue == [] || x.locked)
    ensures Locks(SetMutex(s, m, x))
  {
    var s' := SetMutex(s, m, x);
    forall t: Tid ensures Drift(s, s', t) {}
    MutexStep(s, s', m);
  }

  lemma UnlockLocks(s: State, m: Addr)
    requires Core(s) && InGuest(s) && Locks(s)
    ensures Locks(DoUnlock(s, m).0)
  {
    var s' := DoUnlock(s, m).0;
    assert MutexOk(s, m);
    if s' == s {
    } else if s.mutexes[m].count > 1 || s.mutexes[m].queue == [] {
      SetMutexLocks(s, m, s'.mutexes[m]);
    } else {
      var x := s.mutexes[m].(locked := false, owner := 0, count := 0);
      var s1, q := SetMutex(s, m, x), MutexQ(m);
      CoreSetMutex(s, m, x);
      WakeFirstOthers(s1, q);
      CoreWakeFirst(s1, q);
      var t := x.queue[0];
      assert ThreadOk(s1, t);
      assert s'.threads[t] == Unblocked(s1.threads[t]).(joiners := s'.threads[t].joiners);
      assert Woken(s', m, t);
      forall u: Tid ensures u != s.current ==> Drift(s, s', u) { assert Drift(s, s1, u) && (u != s.current ==> Drift(s1, s', u)); }
      MutexStep(s, s', m);
    }
  }

  lemma TryLockLocks(s: State, m: Addr)
    requires Core(s) && InGuest(s) && Locks(s) && m != 0
    ensures Locks(DoTryLock(s, m).0)
  {
    GuestContext(s);
    assert MutexOk(s, m);
    var s' := DoTryLock(s, m).0;
    if m !in s.mutexes || s'.mutexes[m] != s.mutexes[m] {
      assert s'.mutexes == s.mutexes[m := s'.mutexes[m]];
      SetMutexLocks(s, m, s'.mutexes[m]);
    } else {
      assert s'.mutexes == s.mutexes;
    }
  }

  /** pthread_mutex_lock by the current thread with context th, whose waits were just cleared. */
  lemma LockLocks(s: State, m: Addr, kind: int, th: Thread, due: seq<Tid>)
    requires Core(s) && CurrentRuns(s) && Locks(s) && m != 0 && !Waits(th)
    requires s.threads[s.current].mutexWait == 0
    requires th == s.threads[s.current].(mutexWait := th.mutexWait, condMutex := th.condMutex)
    ensures Locks(DoMutexLock(SetThread(s, s.current, th), m, kind, due).0)
  {
    var s0 := SetThread(s, s.current, th);
    var s' := DoMutexLock(s0, m, kind, due).0;
    assert MutexOk(s, m) && RwOk(s, 0) && BarrierOk(s, 0) && ThreadOk(s, s.current);
    forall t: Tid ensures Drift(s, s0, t) {}
    if Contended(s, m) {
      BlockLocks(s, m, th, due);
    } else {
      FreeLock(s0, m, kind, due);
      TakeLocks(s, s0, s', m);
    }
  }

  lemma TakeLocks(s: State, s0: State, s': State, m: Addr)
    requires Locks(s) && CurrentRuns(s) && s.threads[s.current].mutexWait == 0 && s'.threads == s0.threads
    requires forall t: Tid {:trigger Drift(s, s0, t)} :: Drift(s, s0, t)
    requires SameBut(s.mutexes, s'.mutexes, m) && s'.rwlocks == s.rwlocks && s'.barriers == s.barriers && MutexOk(s', m)
    ensures Locks(s')
  {
    forall t: Tid ensures Drift(s, s', t) { assert Drift(s, s0, t); }
    assert Drift(s, s', s.current);
    assert RwOk(s, 0) && BarrierOk(s, 0);
    LocksFrame(s, s', m, 0, 0);
  }

  lemma BlockLocks(s: State, m: Addr, th: Thread, due: seq<Tid>)
    requires Core(s) && CurrentRuns(s) && Locks(s) && m in s.mutexes && s.mutexes[m].locked
    requires s.threads[s.current].mutexWait == 0 || s.threads[s.current].mutexWait == m
    requires th == s.threads[s.current].(mutexWait := th.mutexWait, condMutex := th.condMutex)
    ensures Locks(BlockOnMutex(SetThread(s, s.current, th), m, due))
  {
    var s0, b := SetThread(s, s.current, th), th.(mutexWait := m, pc := MUTEX_RESUME);
    CurrentInNoQueue(s, MutexQ(m));
    assert EnqueueOnce(s0, MutexQ(m), b, m) == Enqueue(s0, MutexQ(m), b, m);
    ParkOthers(s0, MutexQ(m), b, m, due);
    var s' := Switch(Enqueue(s0, MutexQ(m), b, m), due);
    forall t: Tid ensures t != s.current ==> Drift(s, s', t) {
      if t != s.current { assert Drift(s, s0, t) && Drift(s0, s', t); }
    }
    assert MutexOk(s, m) && RwOk(s, 0) && BarrierOk(s, 0);
    LocksFrame(s, s', m, 0, 0);
  }

  lemma MutexResumeLocks(s: State, at: Addr, due: seq<Tid>)
    requires Core(s) && CurrentRuns(s) && Locks(s) && s.pc == MUTEX_RESUME
    ensures Locks(MutexResume(s, at, due).0)
  {
    assert ThreadOk(s, s.current);
    var m, th := s.threads[s.current].mutexWait, s.threads[s.current].(mutexWait := 0);
    assert MutexOk(s, m) && RwOk(s, 0) && BarrierOk(s, 0);
    if m in s.mutexes && s.mutexes[m].locked {
      BlockLocks(s, m, th, due);
    } else {
      var s' := MutexResume(s, at, due).0;
      forall t: Tid ensures t != s.current ==> Drift(s, s', t) {}
      LocksFrame(s, s', m, 0, 0);
    }
  }

  lemma CondResumeLocks(s: State, at: Addr, due: seq<Tid>)
    requires Core(s) && CurrentRuns(s) && Locks(s) && s.pc == COND_RESUME
    ensures Locks(CondResume(s, at, due).0)
  {
    assert ThreadOk(s, s.current);
    var m, th := s.threads[s.current].condMutex, s.threads[s.current].(condMutex := 0);
    LockLocks(s, m, 0, th, due);
    var s1 := DoMutexLock(SetThread(s, s.current, th), m, 0, due).0;
    LocksAt(s1, at);
  }

  lemma LocksAt(s: State, at: Addr)
    requires Locks(s)
    ensures Locks(s.(pc := at))
  {
    var s' := s.(pc := at);
    forall t: Tid ensures Drift(s, s', t) {}
    assert MutexOk(s, 0) && RwOk(s, 0) && BarrierOk(s, 0);
    LocksFrame(s, s', 0, 0, 0);
  }

  lemma MutexDestroyLocks(s: State, m: Addr)
    requires Locks(s)
    ensures Locks(s.(mutexes := s.mutexes - {m}))
  {
    var s' := s.(mutexes := s.mutexes - {m});
    forall t: Tid ensures Drift(s, s', t) {}
    assert RwOk(s, 0) && BarrierOk(s, 0);
    LocksFrame(s, s', m, 0, 0);
  }

  // ------------------------------------------------------------------ the other operations

  /** In guest code, an operation that touched no mutex. */
  lemma GuestStep(s: State, s': State, l: Addr, b: Addr)
    requires Core(s) && InGuest(s) && Locks(s) && Others(s, s')
    requires s'.mutexes == s.mutexes && SameBut(s.rwlocks, s'.rwlocks, l) && SameBut(s.barriers, s'.barriers, b)
    requires RwOk(s', l) && BarrierOk(s', b)
    ensures Locks(s')
  {
    GuestContext(s);
    assert MutexOk(s, 0);
    LocksFrame(s, s', 0, l, b);
  }

  lemma QuietLocks(s: State, s': State)
    requires Core(s) && InGuest(s) && Locks(s) && SameLocks(s, s') && Others(s, s')
    ensures Locks(s')
  {
    assert RwOk(s, 0) && BarrierOk(s, 0);
    GuestStep(s, s', 0, 0);
  }

  lemma CreateLocks(s: State, entry: Addr)
    requires Core(s) && InGuest(s) && Locks(s)
    ensures Locks(DoCreate(s, entry).0)
  {
    assert ThreadOk(s, s.nextTid);
    forall t: Tid ensures Drift(s, DoCreate(s, entry).0, t) {}
    assert s.current in s.threads && !s.threads[s.current].state.Terminated?;
    QuietLocks(s, DoCreate(s, entry).0);
  }

  lemma EraseLocks(s: State, t: Tid)
    requires Locks(s) && t in s.threads && s.threads[t].state.Terminated?
    ensures Locks(s.(threads := s.threads - {t}))
  {
    var s' := s.(threads := s.threads - {t});
    forall u: Tid ensures Drift(s, s', u) {}
    assert MutexOk(s, 0) && RwOk(s, 0) && BarrierOk(s, 0);
    LocksFrame(s, s', 0, 0, 0);
  }

  lemma JoinLocks(s: State, t: Tid, due: seq<Tid>)
    requires Core(s) && InGuest(s) && Locks(s)
    ensures Locks(DoJoin(s, t, due).0)
  {
    var s' := DoJoin(s, t, due).0;
    if t in s.threads && !s.threads[t].detached {
      if s.threads[t].state.Terminated? {
        EraseLocks(s, t);
      } else {
        var th := s.threads[s.current].(joinTarget := t, pc := JOIN_RESUME);
        ParkOthers(s, JoinQ(t), th, t, due);
        QuietLocks(s, s');
      }
    }
  }

  lemma ResumeLocks(s: State, at: Addr)
    requires Core(s) && CurrentRuns(s) && Locks(s)
    ensures Locks(JoinResume(s, at).0) && Locks(BarrierResume(s, at).0)
  {
    var th := s.threads[s.current];
    ContextLocks(s, th.(joinTarget := 0), at);
    ContextLocks(s, th.(barrierWait := 0), at);
    var s1 := SetThread(s, s.current, th.(joinTarget := 0)).(pc := at);
    if th.joinTarget in s1.threads && s1.threads[th.joinTarget].state.Terminated? { EraseLocks(s1, th.joinTarget); }
  }

  lemma ContextLocks(s: State, th: Thread, at: Addr)
    requires CurrentRuns(s) && Locks(s) && th.mutexWait == s.threads[s.current].mutexWait && th.state.Running?
    ensures Locks(SetThread(s, s.current, th).(pc := at))
  {
    var s' := SetThread(s, s.current, th).(pc := at);
    forall t: Tid ensures Drift(s, s', t) {}
    assert MutexOk(s, 0) && RwOk(s, 0) && BarrierOk(s, 0);
    LocksFrame(s, s', 0, 0, 0);
  }

  lemma DetachLocks(s: State, t: Tid)
    requires Core(s) && InGuest(s) && Locks(s)
    ensures Locks(DoDetach(s, t).0)
  {
    var s' := DoDetach(s, t).0;
    if t in s.threads && s.threads[t].state.Terminated? {
      EraseLocks(s, t);
    } else {
      forall u: Tid ensures Drift(s, s', u) {}
      QuietLocks(s, s');
    }
  }

  lemma ExitLocks(s: State, v: nat, due: seq<Tid>)
    requires Core(s) && InGuest(s) && Locks(s)
    ensures Locks(DoExit(s, v, due).0)
  {
    var c, th := s.current, s.threads[s.current];
    var s1 := SetThread(s, c, th.(state := Terminated, retval := v, joiners := []));
    forall t: Tid ensures t != c ==> Drift(s, s1, t) {}
    QuietLocks(s, s1);
    var s2 := UnblockEach(s1, th.joiners);
    UnblockEachLocks(s1, th.joiners, c);
    forall t: Tid ensures Drift(s1, s2, t) { UnblockEachLocks(s1, th.joiners, t); }
    assert MutexOk(s1, 0) && RwOk(s1, 0) && BarrierOk(s1, 0);
    LocksFrame(s1, s2, 0, 0, 0);
    SwitchLocks(s2, due);
  }

  lemma SleepLocks(s: State, due: seq<Tid>)
    requires Core(s) && InGuest(s) && Locks(s)
    ensures Locks(DoSleep(s, due).0)
  {
    var s1 := SetThread(s, s.current, s.threads[s.current].(state := Sleeping));
    forall t: Tid ensures t != s.current ==> Drift(s, s1, t) {}
    QuietLocks(s, s1);
    SwitchLocks(s1, due);
  }

  lemma CondWaitLocks(s: State, c: Addr, m: Addr, due: seq<Tid>)
    requires Core(s) && InGuest(s) && Locks(s) && m != 0
    ensures Locks(DoCondWait(s, c, m, due).0)
  {
    var s0 := FindCond(s, c);
    forall t: Tid ensures Drift(s, s0, t) {}
    QuietLocks(s, s0);
    FindCondSteps(s, c);
    UnlockLocks(s0, m);
    UnlockSteps(s0, m);
    UnlockFrame(s0, m);
    var s1 := DoUnlock(s0, m).0;
    ParkOthers(s1, CondQ(c), s1.threads[s1.current].(condMutex := m, pc := COND_RESUME), c, due);
    QuietLocks(s1, DoCondWait(s, c, m, due).0);
  }

  lemma SignalLocks(s: State, c: Addr)
    requires Core(s) && InGuest(s) && Locks(s)
    ensures Locks(DoSignal(s, c).0) && Locks(DoBroadcast(s, c).0)
  {
    if c in s.conds {
      UnblockOthers(s, CondQ(c), [], s.conds[c]);
      QuietLocks(s, DoBroadcast(s, c).0);
      if s.conds[c] != [] {
        WakeFirstOthers(s, CondQ(c));
        QuietLocks(s, DoSignal(s, c).0);
      }
    }
  }

  lemma CondInitLocks(s: State, conds: map<Addr, seq<Tid>>)
    requires Core(s) && InGuest(s) && Locks(s)
    ensures Locks(s.(conds := conds))
  {
    forall t: Tid ensures Drift(s, s.(conds := conds), t) {}
    QuietLocks(s, s.(conds := conds));
  }

  // ------------------------------------------------------------------ rwlocks and barriers

  lemma SetRwLocks(s: State, l: Addr, x: RwLock)
    requires Core(s) && InGuest(s) && Locks(s) && (x.readers == 0 || x.writer == 0)
    ensures Locks(SetRw(s, l, x))
  {
    forall t: Tid ensures Drift(s, SetRw(s, l, x), t) {}
    assert BarrierOk(s, 0);
    GuestStep(s, SetRw(s, l, x), l, 0);
  }

  lemma FindRwLocks(s: State, l: Addr)
    requires Core(s) && InGuest(s) && Locks(s)
    ensures Locks(FindRw(s, l)) && Core(FindRw(s, l)) && RwOk(FindRw(s, l), l)
  {
    FindRwSteps(s, l);
    if l !in s.rwlocks { SetRwLocks(s, l, RwLock(0, 0, 0, [], [])); }
    assert RwOk(FindRw(s, l), l);
  }

  lemma RwParkLocks(s: State, l: Addr, q: QueueId, th: Thread, due: seq<Tid>)
    requires Core(s) && InGuest(s) && Locks(s) && l in s.rwlocks && (q == ReadQ(l) || q == WriteQ(l))
    ensures Locks(Switch(EnqueueOnce(s, q, th, l), due))
  {
    CurrentInNoQueue(s, q);
    ParkOthers(s, q, th, l, due);
    assert RwOk(s, l) && BarrierOk(s, 0);
    GuestStep(s, Switch(Enqueue(s, q, th, l), due), l, 0);
  }

  lemma RwLockLocks(s: State, l: Addr, due: seq<Tid>)
    requires Core(s) && InGuest(s) && Locks(s)
    ensures Locks(DoReadLock(s, l, due).0) && Locks(DoTryReadLock(s, l).0)
  {
    var s1 := FindRw(s, l);
    FindRwLocks(s, l);
    var x := s1.rwlocks[l];
    if x.writer == 0 {
      SetRwLocks(s1, l, x.(readers := x.readers + 1));
    } else {
      RwParkLocks(s1, l, ReadQ(l), s1.threads[s1.current].(readWait := l, pc := RD_RESUME), due);
    }
  }

  lemma WriteLockLocks(s: State, l: Addr, due: seq<Tid>)
    requires Core(s) && InGuest(s) && Locks(s)
    ensures Locks(DoWriteLock(s, l, due).0) && Locks(DoTryWriteLock(s, l).0)
  {
    var s1 := FindRw(s, l);
    FindRwLocks(s, l);
    GuestContext(s);
    var x := s1.rwlocks[l];
    if x.readers == 0 { SetRwLocks(s1, l, x.(writer := s.current)); }
    if x.writer == s.current {
      SetRwLocks(s1, l, x.(depth := x.depth + 1));
    } else if x.readers == 0 && x.writer == 0 {
      SetRwLocks(s1, l, x.(writer := s.current, depth := 1));
    } else {
      RwParkLocks(s1, l, WriteQ(l), s1.threads[s1.current].(writeWait := l, pc := WR_RESUME), due);
    }
  }

  lemma RwWakeLocks(s: State, l: Addr, x: RwLock, q: QueueId)
    requires Core(s) && InGuest(s) && Locks(s) && (q == ReadQ(l) || q == WriteQ(l))
    requires x.readers == 0 || x.writer == 0
    requires x.readQueue == Queue(s, ReadQ(l)) && x.writeQueue == Queue(s, WriteQ(l))
    ensures Queue(s, q) != [] ==> Locks(WakeFirst(SetRw(s, l, x), q))
    ensures Locks(WakeAll(SetRw(s, l, x), q))
  {
    var s1 := SetRw(s, l, x);
    SetRwLocks(s, l, x);
    StepsSetRw(s, l, x, 0);
    assert BarrierOk(s, 0);
    UnblockOthers(s1, q, [], Queue(s1, q));
    GuestStep(s1, WakeAll(s1, q), l, 0);
    if Queue(s, q) != [] {
      WakeFirstOthers(s1, q);
      GuestStep(s1, WakeFirst(s1, q), l, 0);
    }
  }

  lemma RwUnlockLocks(s: State, l: Addr)
    requires Core(s) && InGuest(s) && Locks(s)
    ensures Locks(DoRwUnlock(s, l).0)
  {
    if l in s.rwlocks {
      var x := s.rwlocks[l];
      assert RwOk(s, l);
      if x.writer == s.current {
        if x.depth > 1 {
          SetRwLocks(s, l, x.(depth := x.depth - 1));
        } else {
          RwWakeLocks(s, l, x.(writer := 0, depth := 0), if x.writeQueue != [] then WriteQ(l) else ReadQ(l));
        }
      } else if x.readers > 0 {
        RwWakeLocks(s, l, x.(readers := x.readers - 1), WriteQ(l));
        SetRwLocks(s, l, x.(readers := x.readers - 1));
      }
    }
  }

  lemma RwDestroyLocks(s: State, l: Addr)
    requires Core(s) && InGuest(s) && Locks(s)
    ensures Locks(s.(rwlocks := s.rwlocks - {l}))
  {
    var s' := s.(rwlocks := s.rwlocks - {l});
    forall t: Tid ensures Drift(s, s', t) {}
    assert BarrierOk(s, 0);
    GuestStep(s, s', l, 0);
  }

  /** An operation that changed only barrier b. */
  lemma BarrierStep(s: State, s': State, b: Addr)
    requires Core(s) && InGuest(s) && Locks(s) && Others(s, s') && BarrierOk(s', b)
    requires s'.mutexes == s.mutexes && s'.rwlocks == s.rwlocks && SameBut(s.barriers, s'.barriers, b)
    ensures Locks(s')
  {
    assert RwOk(s, 0);
    GuestStep(s, s', 0, b);
  }

  lemma BarrierInitLocks(s: State, b: Addr, n: nat)
    requires Core(s) && InGuest(s) && Locks(s)
    ensures Locks(DoBarrierInit(s, b, n).0) && Locks(DoBarrierDestroy(s, b).0)
  {
    assert BarrierOk(s, b);
    var s1, s2 := DoBarrierInit(s, b, n).0, DoBarrierDestroy(s, b).0;
    forall t: Tid ensures Drift(s, s1, t) && Drift(s, s2, t) {}
    BarrierStep(s, s1, b);
    BarrierStep(s, s2, b);
  }

  lemma BarrierReleaseLocks(s: State, b: Addr, x: Barrier)
    requires Core(s) && InGuest(s) && Locks(s) && 0 < x.count && x.waiting == 0
    ensures Locks(WakeAll(SetBarrier(s, b, x), BarrierQ(b)))
  {
    var s1 := SetBarrier(s, b, x);
    var s' := WakeAll(s1, BarrierQ(b));
    UnblockOthers(s1, BarrierQ(b), [], x.queue);
    forall t: Tid ensures t != s.current ==> Drift(s, s', t) {
      if t != s.current { assert Drift(s, s1, t) && Drift(s1, s', t); }
    }
    BarrierStep(s, s', b);
  }

  lemma BarrierParkLocks(s: State, b: Addr, x: Barrier, th: Thread, due: seq<Tid>)
    requires Core(s) && InGuest(s) && Locks(s) && x.waiting == |x.queue| + 1 < x.count
    ensures Locks(Switch(Enqueue(SetBarrier(s, b, x), BarrierQ(b), th, b), due))
  {
    var s1 := SetBarrier(s, b, x);
    var s' := Switch(Enqueue(s1, BarrierQ(b), th, b), due);
    ParkOthers(s1, BarrierQ(b), th, b, due);
    forall t: Tid ensures t != s.current ==> Drift(s, s', t) {
      if t != s.current { assert Drift(s, s1, t) && Drift(s1, s', t); }
    }
    BarrierStep(s, s', b);
  }

  lemma BarrierWaitLocks(s: State, b: Addr, due: seq<Tid>)
    requires Core(s) && InGuest(s) && Locks(s)
    ensures Locks(DoBarrierWait(s, b, due).0)
  {
    assert BarrierOk(s, b);
    var x := FindBarrier(s, b).barriers[b];
    var y := if x.waiting + 1 >= x.count then x.(waiting := 0, generation := x.generation + 1)
             else x.(waiting := x.waiting + 1);
    assert SetBarrier(FindBarrier(s, b), b, y) == SetBarrier(s, b, y) by {
      assert FindBarrier(s, b).barriers[b := y] == s.barriers[b := y];
    }
    if x.waiting + 1 >= x.count {
      BarrierReleaseLocks(s, b, y);
    } else {
      BarrierParkLocks(s, b, y, s.threads[s.current].(barrierWait := b, pc := BARRIER_RESUME), due);
    }
  }
}
