/**
 Every step of the scheduler keeps its correspondence invariant, and moves the runnable queue
 only by appending at the back and, when it switches, taking the head.
 */
module SchedulerSteps {
  import opened Scheduler
  import opened SchedulerCore

  /** Nothing to resume: the running thread is in guest code. */
  predicate InGuest(s: State) { CurrentRuns(s) && !IsResume(s.pc) }

  /** From s the queue grew to x; a switching operation then selected x's head. */
  predicate Queued(s: State, x: seq<Tid>, s': State, code: int) {
    && s.runq <= x
    && if code == SWITCHED then Moves(x, s')
       else s'.runq == x && s'.current == s.current && CurrentRuns(s')
  }

  ghost predicate Steps(s: State, o: Outcome) {
    Core(o.0) && exists x: seq<Tid> :: Queued(s, x, o.0, o.1)
  }

  lemma StepsQuiet(s: State, s': State, code: int)
    requires Core(s') && s'.runq == s.runq && s'.current == s.current && CurrentRuns(s') && code != SWITCHED
    ensures Steps(s, (s', code))
  {
    assert Queued(s, s.runq, s', code);
  }

  lemma StepsSwitch(s: State, s1: State, due: seq<Tid>)
    requires Core(s1) && s.runq <= s1.runq
    ensures Steps(s, (Switch(s1, due), SWITCHED))
  {
    CoreSwitch(s1, due);
    var x: seq<Tid> :| s1.runq <= x && Moves(x, Switch(s1, due));
    assert Queued(s, x, Switch(s1, due), SWITCHED);
  }

  lemma StepsPark(s: State, q: QueueId, th: Thread, on: nat, due: seq<Tid>)
    requires Core(s) && MayEnqueue(s, q, th, on)
    ensures Steps(s, (Switch(Enqueue(s, q, th, on), due), SWITCHED))
    ensures Steps(s, (Switch(EnqueueOnce(s, q, th, on), due), SWITCHED))
  {
    CoreEnqueue(s, q, th, on);
    StepsSwitch(s, Enqueue(s, q, th, on), due);
  }

  lemma StepsWakeFirst(s: State, q: QueueId)
    requires Core(s) && CurrentRuns(s) && HasQueue(s, q) && Queue(s, q) != []
    ensures Steps(s, (WakeFirst(s, q), 0))
  {
    CoreWakeFirst(s, q);
    assert Queued(s, s.runq + [Queue(s, q)[0]], WakeFirst(s, q), 0);
  }

  lemma StepsWakeAll(s: State, q: QueueId, code: int)
    requires Core(s) && CurrentRuns(s) && HasQueue(s, q) && code != SWITCHED
    ensures Steps(s, (WakeAll(s, q), code))
  {
    CoreWakeAll(s, q);
    assert Queued(s, s.runq + Queue(s, q), WakeAll(s, q), code);
  }

  lemma StepsAfter(s: State, s1: State, o: Outcome)
    requires s1.runq == s.runq && s1.current == s.current && Steps(s1, o)
    ensures Steps(s, o)
  {
    var x: seq<Tid> :| Queued(s1, x, o.0, o.1);
    assert Queued(s, x, o.0, o.1);
  }

  /** The context of a thread running guest code has no wait pending. */
  lemma GuestContext(s: State)
    requires Core(s) && InGuest(s)
    ensures !Waits(s.threads[s.current]) && s.threads[s.current].home.Nowhere?
    ensures 0 < s.current < s.nextTid
  {
    assert ThreadOk(s, s.current);
  }

  lemma CoreAt(s: State, at: Addr)
    requires Core(s) && InGuest(s) && !IsResume(at)
    ensures Core(s.(pc := at)) && InGuest(s.(pc := at))
  {
    GuestContext(s);
    var th := s.threads[s.current];
    assert s.threads[s.current := th] == s.threads;
    CoreSetCurrent(s, th, at);
  }

  // ------------------------------------------------------------------ threads

  lemma CreateSteps(s: State, entry: Addr)
    requires Core(s) && InGuest(s) && !IsResume(entry)
    ensures Core(DoCreate(s, entry).0) && CurrentRuns(DoCreate(s, entry).0)
  {
    CoreCreate(s, entry);
    assert ThreadOk(s, s.current);
  }

  /** Nobody waits to join a terminated thread. */
  ghost predicate NoLateJoiner(s: State) {
    forall t: Tid {:trigger s.threads[t]} :: t in s.threads && s.threads[t].state.Terminated? ==> s.threads[t].joiners == []
  }

  lemma JoinSteps(s: State, t: Tid, due: seq<Tid>)
    requires Core(s) && InGuest(s) && NoLateJoiner(s)
    ensures Steps(s, DoJoin(s, t, due))
  {
    GuestContext(s);
    if t !in s.threads || s.threads[t].detached {
      StepsQuiet(s, s, DoJoin(s, t, due).1);
    } else if s.threads[t].state.Terminated? {
      CoreErase(s, t);
      StepsQuiet(s, s.(threads := s.threads - {t}), 0);
    } else {
      assert ThreadOk(s, t);
      StepsPark(s, JoinQ(t), s.threads[s.current].(joinTarget := t, pc := JOIN_RESUME), t, due);
    }
  }

  lemma JoinResumeSteps(s: State, at: Addr)
    requires Core(s) && CurrentRuns(s) && s.pc == JOIN_RESUME && !IsResume(at) && NoLateJoiner(s)
    ensures Steps(s, JoinResume(s, at))
  {
    assert ThreadOk(s, s.current);
    var th := s.threads[s.current];
    CoreSetCurrent(s, th.(joinTarget := 0), at);
    var s1 := SetThread(s, s.current, th.(joinTarget := 0)).(pc := at);
    if th.joinTarget in s1.threads && s1.threads[th.joinTarget].state.Terminated? { CoreErase(s1, th.joinTarget); }
    StepsQuiet(s, JoinResume(s, at).0, 0);
  }

  lemma DetachSteps(s: State, t: Tid)
    requires Core(s) && InGuest(s) && NoLateJoiner(s)
    ensures Steps(s, DoDetach(s, t))
  {
    if t in s.threads {
      if s.threads[t].state.Terminated? { CoreErase(s, t); } else { CoreDetach(s, t); }
    }
    StepsQuiet(s, DoDetach(s, t).0, DoDetach(s, t).1);
  }

  lemma ExitSteps(s: State, v: nat, due: seq<Tid>)
    requires Core(s) && InGuest(s)
    ensures Steps(s, DoExit(s, v, due))
  {
    GuestContext(s);
    var c, th := s.current, s.threads[s.current];
    var dead := th.(state := Terminated, retval := v);
    var s1 := SetThread(s, c, dead);
    CoreSetCurrent(s, dead, s.pc);
    CoreWakeAll(s1, JoinQ(c));
    assert SetQueue(s1, JoinQ(c), []).threads == s.threads[c := dead.(joiners := [])];
    StepsSwitch(s, WakeAll(s1, JoinQ(c)), due);
  }

  lemma SleepSteps(s: State, due: seq<Tid>)
    requires Core(s) && InGuest(s)
    ensures Steps(s, DoSleep(s, due))
  {
    GuestContext(s);
    var th := s.threads[s.current].(state := Sleeping);
    CoreSetCurrent(s, th, s.pc);
    StepsSwitch(s, SetThread(s, s.current, th), due);
  }

  // ------------------------------------------------------------------ mutexes

  /** A mutex record changes but not its queue. */
  lemma CoreSetMutex(s: State, m: Addr, x: Mutex)
    requires Core(s) && x.queue == Queue(s, MutexQ(m))
    ensures Core(SetMutex(s, m, x))
  {
    var s' := SetMutex(s, m, x);
    forall q: QueueId ensures Queue(s', q) == Queue(s, q) {}
    CoreSameQueues(s, s');
  }

  lemma StepsSetMutex(s: State, m: Addr, x: Mutex, code: int)
    requires Core(s) && CurrentRuns(s) && x.queue == Queue(s, MutexQ(m)) && code != SWITCHED
    ensures Steps(s, (SetMutex(s, m, x), code))
  {
    CoreSetMutex(s, m, x);
    StepsQuiet(s, SetMutex(s, m, x), code);
  }

  lemma BlockOnMutexSteps(s: State, m: Addr, th: Thread, due: seq<Tid>)
    requires Core(s) && CurrentRuns(s) && m in s.mutexes && m != 0
    requires th == s.threads[s.current].(mutexWait := th.mutexWait, condMutex := th.condMutex)
    requires th.condMutex == 0 && th.joinTarget == 0 && th.barrierWait == 0
    ensures Steps(s, (BlockOnMutex(SetThread(s, s.current, th), m, due), SWITCHED))
  {
    assert ThreadOk(s, s.current);
    var b, s0 := th.(mutexWait := m, pc := MUTEX_RESUME), SetThread(s, s.current, th);
    CurrentInNoQueue(s, MutexQ(m));
    assert EnqueueOnce(s0, MutexQ(m), b, m) == Enqueue(s, MutexQ(m), b, m) by {
      assert EnqueueOnce(s0, MutexQ(m), b, m).threads == Enqueue(s, MutexQ(m), b, m).threads;
    }
    StepsPark(s, MutexQ(m), b, m, due);
  }

  /** Must pthread_mutex_lock wait? */
  predicate Contended(s: State, m: Addr) {
    m in s.mutexes && s.mutexes[m].locked && !(s.mutexes[m].count > 0 && s.mutexes[m].owner == s.current)
  }

  /** pthread_mutex_lock by a thread whose waits were just cleared, giving th. */
  lemma ContendedLockSteps(s: State, m: Addr, kind: int, th: Thread, due: seq<Tid>)
    requires Core(s) && CurrentRuns(s) && m != 0 && Contended(s, m) && !Waits(th)
    requires th == s.threads[s.current].(mutexWait := th.mutexWait, condMutex := th.condMutex)
    ensures DoMutexLock(SetThread(s, s.current, th), m, kind, due).1 == SWITCHED
    ensures Steps(s, DoMutexLock(SetThread(s, s.current, th), m, kind, due))
  {
    BlockOnMutexSteps(s, m, th, due);
  }

  lemma FreeLock(s: State, m: Addr, kind: int, due: seq<Tid>)
    requires s.current in s.threads && !Contended(s, m)
    ensures var o := DoMutexLock(s, m, kind, due);
            && o.1 == 0 && m in o.0.mutexes && o.0 == SetMutex(s, m, o.0.mutexes[m])
            && o.0.mutexes[m].queue == Queue(s, MutexQ(m))
  {
    var o := DoMutexLock(s, m, kind, due);
    assert o.0.mutexes == s.mutexes[m := o.0.mutexes[m]];
  }

  lemma MutexLockSteps(s: State, m: Addr, kind: int, due: seq<Tid>)
    requires Core(s) && InGuest(s) && m != 0
    ensures Steps(s, DoMutexLock(s, m, kind, due))
  {
    GuestContext(s);
    var th := s.threads[s.current];
    assert SetThread(s, s.current, th) == s by { assert s.threads[s.current := th] == s.threads; }
    if Contended(s, m) {
      ContendedLockSteps(s, m, kind, th, due);
    } else {
      FreeLock(s, m, kind, due);
      StepsSetMutex(s, m, DoMutexLock(s, m, kind, due).0.mutexes[m], 0);
    }
  }

  lemma CondResumeSteps(s: State, at: Addr, due: seq<Tid>)
    requires Core(s) && CurrentRuns(s) && s.pc == COND_RESUME && !IsResume(at)
    ensures Steps(s, CondResume(s, at, due))
  {
    assert ThreadOk(s, s.current);
    var m, th := s.threads[s.current].condMutex, s.threads[s.current].(condMutex := 0);
    if Contended(s, m) {
      ContendedLockSteps(s, m, 0, th, due);
    } else {
      var s1 := SetThread(s, s.current, th);
      FreeLock(s1, m, 0, due);
      CoreSetCurrent(s, th, at);
      var x := DoMutexLock(s1, m, 0, due).0.mutexes[m];
      StepsSetMutex(s1.(pc := at), m, x, 0);
      StepsAfter(s, s1.(pc := at), (SetMutex(s1.(pc := at), m, x), 0));
    }
  }

  lemma MutexResumeSteps(s: State, at: Addr, due: seq<Tid>)
    requires Core(s) && CurrentRuns(s) && s.pc == MUTEX_RESUME && !IsResume(at)
    ensures Steps(s, MutexResume(s, at, due))
  {
    assert ThreadOk(s, s.current);
    var m, th := s.threads[s.current].mutexWait, s.threads[s.current].(mutexWait := 0);
    if m in s.mutexes && s.mutexes[m].locked {
      BlockOnMutexSteps(s, m, th, due);
    } else {
      var s1 := SetThread(s, s.current, th).(pc := at);
      CoreSetCurrent(s, th, at);
      if m in s.mutexes {
        StepsSetMutex(s1, m, s.mutexes[m].(locked := true, owner := s.current, count := 1), 0);
        StepsAfter(s, s1, (Acquired(s1, m), 0));
      } else {
        StepsQuiet(s, s1, 0);
      }
    }
  }

  lemma TryLockSteps(s: State, m: Addr)
    requires Core(s) && InGuest(s)
    ensures Steps(s, DoTryLock(s, m))
  {
    var o := DoTryLock(s, m);
    assert o.0.mutexes == s.mutexes[m := o.0.mutexes[m]];
    StepsSetMutex(s, m, o.0.mutexes[m], o.1);
  }

  lemma UnlockSteps(s: State, m: Addr)
    requires Core(s) && InGuest(s)
    ensures Steps(s, DoUnlock(s, m))
  {
    if m !in s.mutexes || !s.mutexes[m].locked || s.mutexes[m].count == 0 {
      StepsQuiet(s, s, DoUnlock(s, m).1);
    } else if s.mutexes[m].count > 1 {
      StepsSetMutex(s, m, s.mutexes[m].(count := s.mutexes[m].count - 1), 0);
    } else {
      var x := s.mutexes[m].(locked := false, owner := 0, count := 0);
      StepsSetMutex(s, m, x, 0);
      if x.queue != [] {
        var s1 := SetMutex(s, m, x);
        StepsWakeFirst(s1, MutexQ(m));
        StepsAfter(s, s1, (WakeFirst(s1, MutexQ(m)), 0));
      }
    }
  }

  lemma MutexDestroySteps(s: State, m: Addr)
    requires Core(s) && InGuest(s) && Queue(s, MutexQ(m)) == []
    ensures Steps(s, (s.(mutexes := s.mutexes - {m}), 0))
  {
    var s' := s.(mutexes := s.mutexes - {m});
    forall q: QueueId ensures Queue(s', q) == Queue(s, q) {}
    CoreSameQueues(s, s');
    StepsQuiet(s, s', 0);
  }

  // ------------------------------------------------------------------ condition variables

  lemma StepsSetConds(s: State, conds: map<Addr, seq<Tid>>)
    requires Core(s) && CurrentRuns(s)
    requires forall q: QueueId :: Queue(s.(conds := conds), q) == Queue(s, q)
    ensures Steps(s, (s.(conds := conds), 0))
  {
    CoreSameQueues(s, s.(conds := conds));
    StepsQuiet(s, s.(conds := conds), 0);
  }

  lemma FindCondSteps(s: State, c: Addr)
    requires Core(s) && CurrentRuns(s)
    ensures Steps(s, (FindCond(s, c), 0))
  {
    if c !in s.conds {
      var s' := FindCond(s, c);
      forall q: QueueId ensures Queue(s', q) == Queue(s, q) {}
      StepsSetConds(s, s'.conds);
    } else {
      StepsQuiet(s, s, 0);
    }
  }

  lemma CondWaitSteps(s: State, c: Addr, m: Addr, due: seq<Tid>)
    requires Core(s) && InGuest(s) && m != 0
    ensures Steps(s, DoCondWait(s, c, m, due))
  {
    var s0 := FindCond(s, c);
    FindCondSteps(s, c);
    UnlockSteps(s0, m);
    var s1 := DoUnlock(s0, m).0;
    UnlockFrame(s0, m);
    GuestContext(s1);
    StepsPark(s1, CondQ(c), s1.threads[s1.current].(condMutex := m, pc := COND_RESUME), c, due);
    var o := DoCondWait(s, c, m, due);
    var x: seq<Tid> :| Queued(s1, x, o.0, o.1);
    assert Queued(s, x, o.0, o.1);
  }

  /** Unlocking leaves the condition variables and the unlocker's position alone. */
  lemma UnlockFrame(s: State, m: Addr)
    requires Core(s) && CurrentRuns(s)
    ensures var s1 := DoUnlock(s, m).0;
            && s1.current == s.current && s1.pc == s.pc && s1.conds == s.conds && CurrentRuns(s1)
            && s.runq <= s1.runq && s1.nextTid == s.nextTid
  {
    if m in s.mutexes && Queue(s, MutexQ(m)) != [] {
      assert QueueOk(s, MutexQ(m)) && ThreadOk(s, Queue(s, MutexQ(m))[0]);
    }
  }

  lemma SignalSteps(s: State, c: Addr)
    requires Core(s) && InGuest(s)
    ensures Steps(s, DoSignal(s, c)) && Steps(s, DoBroadcast(s, c))
  {
    if c in s.conds {
      StepsWakeAll(s, CondQ(c), 0);
      if s.conds[c] != [] { StepsWakeFirst(s, CondQ(c)); } else { StepsQuiet(s, s, 0); }
    } else {
      StepsQuiet(s, s, 0);
    }
  }

  lemma CondInitSteps(s: State, c: Addr)
    requires Core(s) && InGuest(s) && Queue(s, CondQ(c)) == []
    ensures Steps(s, (s.(conds := s.conds[c := []]), 0))
    ensures Steps(s, (s.(conds := s.conds - {c}), 0))
  {
    StepsSetConds(s, s.conds[c := []]);
    StepsSetConds(s, s.conds - {c});
  }

  // ------------------------------------------------------------------ read-write locks

  lemma StepsSetRw(s: State, l: Addr, x: RwLock, code: int)
    requires Core(s) && CurrentRuns(s) && code != SWITCHED
    requires x.readQueue == Queue(s, ReadQ(l)) && x.writeQueue == Queue(s, WriteQ(l))
    ensures Steps(s, (SetRw(s, l, x), code))
  {
    var s' := SetRw(s, l, x);
    forall q: QueueId ensures Queue(s', q) == Queue(s, q) {}
    CoreSameQueues(s, s');
    StepsQuiet(s, s', code);
  }

  lemma FindRwSteps(s: State, l: Addr)
    requires Core(s) && CurrentRuns(s)
    ensures Steps(s, (FindRw(s, l), 0))
    ensures var x := FindRw(s, l).rwlocks[l];
            x.readQueue == Queue(s, ReadQ(l)) && x.writeQueue == Queue(s, WriteQ(l))
  {
    if l in s.rwlocks { StepsQuiet(s, s, 0); } else { StepsSetRw(s, l, RwLock(0, 0, 0, [], []), 0); }
  }

  lemma ReadLockSteps(s: State, l: Addr, due: seq<Tid>)
    requires Core(s) && InGuest(s)
    ensures Steps(s, DoReadLock(s, l, due)) && Steps(s, DoTryReadLock(s, l))
  {
    var s1 := FindRw(s, l);
    FindRwSteps(s, l);
    var x := s1.rwlocks[l];
    if x.writer == 0 {
      StepsSetRw(s1, l, x.(readers := x.readers + 1), 0);
      StepsAfter(s, s1, DoReadLock(s, l, due));
    } else {
      GuestContext(s1);
      StepsPark(s1, ReadQ(l), s1.threads[s1.current].(readWait := l, pc := RD_RESUME), l, due);
      StepsAfter(s, s1, DoReadLock(s, l, due));
      StepsQuiet(s, s1, EBUSY);
    }
  }

  lemma WriteLockSteps(s: State, l: Addr, due: seq<Tid>)
    requires Core(s) && InGuest(s)
    ensures Steps(s, DoWriteLock(s, l, due))
  {
    var s1 := FindRw(s, l);
    FindRwSteps(s, l);
    var x := s1.rwlocks[l];
    GuestContext(s1);
    StepsSetRw(s1, l, x.(depth := x.depth + 1), 0);
    StepsSetRw(s1, l, x.(writer := s.current, depth := 1), 0);
    StepsPark(s1, WriteQ(l), s1.threads[s1.current].(writeWait := l, pc := WR_RESUME), l, due);
    StepsAfter(s, s1, DoWriteLock(s, l, due));
  }

  lemma TryWriteLockSteps(s: State, l: Addr)
    requires Core(s) && InGuest(s)
    ensures Steps(s, DoTryWriteLock(s, l))
  {
    var s1 := FindRw(s, l);
    FindRwSteps(s, l);
    StepsSetRw(s1, l, s1.rwlocks[l].(writer := s.current), 0);
    StepsQuiet(s, s1, EBUSY);
    if DoTryWriteLock(s, l).1 == 0 { StepsAfter(s, s1, DoTryWriteLock(s, l)); }
  }

  /** Change the record, then wake one writer. */
  lemma StepsRwWake(s: State, l: Addr, x: RwLock, q: QueueId)
    requires Core(s) && CurrentRuns(s) && (q == WriteQ(l) || q == ReadQ(l))
    requires x.readQueue == Queue(s, ReadQ(l)) && x.writeQueue == Queue(s, WriteQ(l))
    ensures Queue(s, q) != [] ==> Steps(s, (WakeFirst(SetRw(s, l, x), q), 0))
    ensures Steps(s, (WakeAll(SetRw(s, l, x), q), 0))
  {
    var s1 := SetRw(s, l, x);
    StepsSetRw(s, l, x, 0);
    StepsWakeAll(s1, q, 0);
    StepsAfter(s, s1, (WakeAll(s1, q), 0));
    if Queue(s, q) != [] {
      StepsWakeFirst(s1, q);
      StepsAfter(s, s1, (WakeFirst(s1, q), 0));
    }
  }

  lemma RwUnlockSteps(s: State, l: Addr)
    requires Core(s) && InGuest(s)
    ensures Steps(s, DoRwUnlock(s, l))
  {
    if l !in s.rwlocks {
      StepsQuiet(s, s, EINVAL);
    } else {
      var x := s.rwlocks[l];
      if x.writer == s.current {
        if x.depth > 1 {
          StepsSetRw(s, l, x.(depth := x.depth - 1), 0);
        } else {
          StepsRwWake(s, l, x.(writer := 0, depth := 0), if x.writeQueue != [] then WriteQ(l) else ReadQ(l));
        }
      } else if x.readers > 0 {
        StepsRwWake(s, l, x.(readers := x.readers - 1), WriteQ(l));
        StepsSetRw(s, l, x.(readers := x.readers - 1), 0);
      } else {
        StepsQuiet(s, s, 0);
      }
    }
  }

  lemma RwInitSteps(s: State, l: Addr)
    requires Core(s) && InGuest(s) && Queue(s, ReadQ(l)) == [] && Queue(s, WriteQ(l)) == []
    ensures Steps(s, (SetRw(s, l, RwLock(0, 0, 0, [], [])), 0))
    ensures Steps(s, (s.(rwlocks := s.rwlocks - {l}), 0))
  {
    StepsSetRw(s, l, RwLock(0, 0, 0, [], []), 0);
    var s' := s.(rwlocks := s.rwlocks - {l});
    forall q: QueueId ensures Queue(s', q) == Queue(s, q) {}
    CoreSameQueues(s, s');
    StepsQuiet(s, s', 0);
  }

  // ------------------------------------------------------------------ barriers

  lemma StepsSetBarrier(s: State, b: Addr, x: Barrier, code: int)
    requires Core(s) && CurrentRuns(s) && code != SWITCHED && x.queue == Queue(s, BarrierQ(b))
    ensures Steps(s, (SetBarrier(s, b, x), code))
  {
    var s' := SetBarrier(s, b, x);
    forall q: QueueId ensures Queue(s', q) == Queue(s, q) {}
    CoreSameQueues(s, s');
    StepsQuiet(s, s', code);
  }

  lemma BarrierWaitSteps(s: State, b: Addr, due: seq<Tid>)
    requires Core(s) && InGuest(s) && b != 0
    ensures Steps(s, DoBarrierWait(s, b, due))
  {
    GuestContext(s);
    var x := if b in s.barriers then s.barriers[b] else Barrier(1, 0, 0, []);
    var y := if x.waiting + 1 >= x.count then x.(waiting := 0, generation := x.generation + 1)
             else x.(waiting := x.waiting + 1);
    var s1 := SetBarrier(s, b, y);
    assert s1.barriers == FindBarrier(s, b).barriers[b := y];
    StepsSetBarrier(s, b, y, 0);
    if x.waiting + 1 >= x.count {
      StepsWakeAll(s1, BarrierQ(b), SERIAL_THREAD);
      StepsAfter(s, s1, (WakeAll(s1, BarrierQ(b)), SERIAL_THREAD));
    } else {
      var th := s1.threads[s1.current].(barrierWait := b, pc := BARRIER_RESUME);
      StepsPark(s1, BarrierQ(b), th, b, due);
      StepsAfter(s, s1, (Switch(Enqueue(s1, BarrierQ(b), th, b), due), SWITCHED));
    }
  }

  lemma BarrierResumeSteps(s: State, at: Addr)
    requires Core(s) && CurrentRuns(s) && s.pc == BARRIER_RESUME && !IsResume(at)
    ensures Steps(s, BarrierResume(s, at))
  {
    assert ThreadOk(s, s.current);
    CoreSetCurrent(s, s.threads[s.current].(barrierWait := 0), at);
    StepsQuiet(s, BarrierResume(s, at).0, 0);
  }

  lemma BarrierInitSteps(s: State, b: Addr, n: nat)
    requires Core(s) && InGuest(s)
    ensures Queue(s, BarrierQ(b)) == [] ==> Steps(s, DoBarrierInit(s, b, n))
    ensures (b in s.barriers ==> s.barriers[b].waiting == |s.barriers[b].queue|) ==> Steps(s, DoBarrierDestroy(s, b))
  {
    if n == 0 { StepsQuiet(s, s, EINVAL); }
    else if Queue(s, BarrierQ(b)) == [] { StepsSetBarrier(s, b, Barrier(n, 0, 0, []), 0); }
    if b in s.barriers && s.barriers[b].waiting == |s.barriers[b].queue| {
      if s.barriers[b].waiting > 0 {
        StepsQuiet(s, s, EBUSY);
      } else {
        var s' := s.(barriers := s.barriers - {b});
        forall q: QueueId ensures Queue(s', q) == Queue(s, q) {}
        CoreSameQueues(s, s');
        StepsQuiet(s, s', 0);
      }
    } else {
      StepsQuiet(s, s, EINVAL);
    }
  }
}
