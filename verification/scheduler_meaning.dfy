/**
 What the pthread calls mean to their callers: who holds what, who waits where and where it goes
 on, and who was woken in which order.
 */
module SchedulerMeaning {
  import opened Scheduler
  import opened SchedulerCore
  import opened SchedulerSteps
  import opened SchedulerLocks
  import opened SchedulerRuns
  import opened SchedulerBalance

  // ------------------------------------------------------------------ switching

  /** u was at most rescheduled: it is not woken, put to sleep or finished, and goes on where it did. */
  predicate Kept(s: State, s': State, u: Tid) {
    u in s.threads ==>
      && u in s'.threads
      && var th, th' := s.threads[u], s'.threads[u];
         && th' == th.(state := th'.state, pc := th'.pc, joiners := th'.joiners)
         && (th'.state.Blocked? <==> th.state.Blocked?) && (th'.state.Terminated? <==> th.state.Terminated?)
         && (!th.state.Terminated? ==> PcOf(s', u) == PcOf(s, u))
  }

  ghost predicate SameButQueues(s: State, s': State) {
    && s'.threads.Keys == s.threads.Keys && s'.nextTid == s.nextTid
    && forall u: Tid {:trigger Kept(s, s', u)} :: Kept(s, s', u)
  }

  lemma SaveKeeps(s: State, u: Tid)
    requires Core(s)
    ensures Kept(s, Save(s), u)
  {
    assert ThreadOk(s, s.current);
  }

  lemma {:induction false} SleepersKeep(s: State, due: seq<Tid>, u: Tid)
    ensures Kept(s, WakeSleepers(s, due), u)
    decreases |due|
  {
    if due != [] { SleepersKeep(WakeSleeper(s, due[0]), due[1..], u); }
  }

  lemma DispatchKeeps(s: State, u: Tid)
    requires s.current in s.threads && !s.threads[s.current].state.Running?
    requires s.threads[s.current].pc == PcOf(s, s.current)
    ensures Kept(s, Dispatch(s), u)
  {
    var n := Skip(s.threads, s.runq);
    if n < |s.runq| { assert s.threads[s.runq[n]].state.Runnable?; }
  }

  /** A switch only reschedules: every thread is kept, and so is every queue. */
  lemma SwitchKeepsThreads(s: State, due: seq<Tid>)
    requires Core(s)
    ensures SameButQueues(s, Switch(s, due))
  {
    CoreSave(s);
    SavedWakeSleepers(Save(s), due);
    forall u: Tid ensures Kept(s, Switch(s, due), u) {
      SaveKeeps(s, u);
      SleepersKeep(Save(s), due, u);
      DispatchKeeps(WakeSleepers(Save(s), due), u);
    }
    SwitchRecords(s, due, 0);
  }

  /** Thread u keeps its joiners, and nothing else that holds a queue changed. */
  predicate SameRecords(s: State, s': State, u: Tid) {
    && SameLocks(s, s') && s'.conds == s.conds && s'.nextTid == s.nextTid && s'.threads.Keys == s.threads.Keys
    && (u in s.threads ==> s'.threads[u].joiners == s.threads[u].joiners)
  }

  lemma SaveRecords(s: State, u: Tid)
    requires s.current in s.threads
    ensures SameRecords(s, Save(s), u)
  {
  }

  lemma {:induction false} SleepersRecords(s: State, due: seq<Tid>, u: Tid)
    ensures SameRecords(s, WakeSleepers(s, due), u) && WakeSleepers(s, due).current == s.current
    decreases |due|
  {
    if due != [] { SleepersRecords(WakeSleeper(s, due[0]), due[1..], u); }
  }

  lemma DispatchRecords(s: State, u: Tid)
    requires s.current in s.threads
    ensures SameRecords(s, Dispatch(s), u)
  {
  }

  lemma SwitchRecords(s: State, due: seq<Tid>, u: Tid)
    requires s.current in s.threads
    ensures SameRecords(s, Switch(s, due), u)
  {
    SaveRecords(s, u);
    SleepersRecords(Save(s), due, u);
    DispatchRecords(WakeSleepers(Save(s), due), u);
  }

  lemma SwitchKeepsQueues(s: State, due: seq<Tid>, q: QueueId)
    requires s.current in s.threads
    ensures Queue(Switch(s, due), q) == Queue(s, q)
  {
    SwitchRecords(s, due, if q.JoinQ? then q.t else 0);
  }

  // ------------------------------------------------------------------ waiting

  /** The caller waits: blocked, last in q, its context naming q's object, to go on at `at`; nobody
      else is woken or queued, and the next in line runs. */
  ghost predicate Parks(s: State, q: QueueId, at: Addr, s': State) {
    var t := s.current;
    && t in s'.threads && s'.threads[t].state.Blocked? && Matches(s'.threads[t], q) && PcOf(s', t) == at
    && s'.threads.Keys == s.threads.Keys && s'.nextTid == s.nextTid
    && (forall u: Tid {:trigger Kept(s, s', u)} :: u != t ==> Kept(s, s', u))
    && (forall p: QueueId {:trigger Queue(s', p)} :: Queue(s', p) == if p == q then Queue(s, q) + [t] else Queue(s, p))
    && (s.runq != [] ==> CurrentRuns(s') && s'.current == s.runq[0])
  }

  lemma ParkMeaning(s: State, q: QueueId, th: Thread, on: nat, due: seq<Tid>)
    requires Core(s) && MayEnqueue(s, q, th, on)
    requires th == s.threads[s.current].(mutexWait := th.mutexWait, condMutex := th.condMutex, joinTarget := th.joinTarget,
                    barrierWait := th.barrierWait, readWait := th.readWait, writeWait := th.writeWait, pc := th.pc)
    ensures EnqueueOnce(s, q, th, on) == Enqueue(s, q, th, on)
    ensures Parks(s, q, if KeepsResumePc(th.(state := Blocked)) then th.pc else s.pc, Switch(Enqueue(s, q, th, on), due))
    ensures SameLocks(Enqueue(s, q, th, on), Switch(Enqueue(s, q, th, on), due))
  {
    CoreEnqueue(s, q, th, on);
    var s1 := Enqueue(s, q, th, on);
    var s' := Switch(s1, due);
    CoreSwitch(s1, due);
    SwitchKeepsThreads(s1, due);
    SwitchDrift(s1, due, 0);
    assert Kept(s1, s', s.current);
    forall u: Tid | u != s.current ensures Kept(s, s', u) { assert Kept(s1, s', u); }
    forall p: QueueId ensures Queue(s', p) == if p == q then Queue(s, q) + [s.current] else Queue(s, p) {
      SwitchKeepsQueues(s1, due, p);
      EnqueueQueues(s, q, th, on, p);
    }
  }

  // ------------------------------------------------------------------ waking

  /** Nothing but the lock records changed, and no queue. */
  ghost predicate Quiet(s: State, s': State) {
    && s'.threads == s.threads && s'.runq == s.runq && s'.current == s.current && s'.pc == s.pc && s'.nextTid == s.nextTid
    && forall p: QueueId {:trigger Queue(s', p)} :: Queue(s', p) == Queue(s, p)
  }

  lemma QuietMutex(s: State, m: Addr, x: Mutex)
    requires x.queue == Queue(s, MutexQ(m))
    ensures Quiet(s, SetMutex(s, m, x))
  {
  }

  lemma QuietCond(s: State, c: Addr)
    ensures Quiet(s, FindCond(s, c))
  {
  }

  lemma QuietRw(s: State, l: Addr, x: RwLock)
    requires x.readQueue == Queue(s, ReadQ(l)) && x.writeQueue == Queue(s, WriteQ(l))
    ensures Quiet(s, SetRw(s, l, x))
  {
  }

  lemma QuietBarrier(s: State, b: Addr, x: Barrier)
    requires x.queue == Queue(s, BarrierQ(b))
    ensures Quiet(s, SetBarrier(s, b, x))
  {
  }

  /** Everybody in q was woken, in order; nobody else. */
  ghost predicate Drained(s: State, q: QueueId, s': State) {
    && s'.current == s.current && s'.pc == s.pc && s'.nextTid == s.nextTid
    && s'.runq == s.runq + Queue(s, q)
    && s'.threads.Keys == s.threads.Keys
    && (forall t: Tid {:trigger s'.threads[t]} :: t in s.threads ==>
          s'.threads[t] == (if t in Queue(s, q) then Unblocked(s.threads[t]) else s.threads[t])
                             .(joiners := s'.threads[t].joiners))
    && (forall p: QueueId {:trigger Queue(s', p)} :: Queue(s', p) == if p == q then [] else Queue(s, p))
  }

  lemma DrainedOn(s: State, q: QueueId, s1: State, s': State)
    requires Popped(s, q, s1) && Drained(s1, q, s')
    ensures Drained(s, q, s')
  {
    var ts := Queue(s, q);
    assert Queue(s1, q) == ts[1..];
    assert s1.runq + ts[1..] == s.runq + ts;
    forall t: Tid | t in s.threads
      ensures s'.threads[t] == (if t in ts then Unblocked(s.threads[t]) else s.threads[t]).(joiners := s'.threads[t].joiners)
    {
      assert t in ts <==> t == ts[0] || t in ts[1..];
      assert s1.threads[t] == (if t == ts[0] then Unblocked(s.threads[t]) else s.threads[t]).(joiners := s1.threads[t].joiners);
    }
    forall p: QueueId ensures Queue(s', p) == if p == q then [] else Queue(s, p) {
      assert Queue(s1, p) == if p == q then ts[1..] else Queue(s, p);
    }
  }

  lemma {:induction false} WakeAllDrains(s: State, q: QueueId)
    requires Core(s) && HasQueue(s, q) && !s.threads[s.current].state.Blocked?
    ensures Drained(s, q, WakeAll(s, q))
    decreases |Queue(s, q)|
  {
    WakeAllUnfold(s, q);
    if Queue(s, q) != [] {
      CoreWakeFirst(s, q);
      var s1 := WakeFirst(s, q);
      assert s1.threads[s.current] == s.threads[s.current].(joiners := s1.threads[s.current].joiners);
      assert Queue(s1, q) == Queue(s, q)[1..];
      WakeAllDrains(s1, q);
      DrainedOn(s, q, s1, WakeAll(s, q));
    } else {
      assert s.runq + Queue(s, q) == s.runq;
    }
  }

  // ------------------------------------------------------------------ mutexes

  /** lock: 0 exactly if the mutex is free or the caller's own, and then it is held once more; else the
      caller waits for it. */
  ghost predicate LockMeans(s: State, m: Addr, s': State, code: int) {
    && (code == 0 || code == SWITCHED)
    && (code == 0 <==> Count(s, m) == 0 || Owner(s, m) == s.current)
    && (code == 0 ==> Owner(s', m) == s.current && Count(s', m) == Count(s, m) + 1 && Quiet(s, s'))
    && (code == SWITCHED ==> SameHold(s, s', m) && Parks(s, MutexQ(m), MUTEX_RESUME, s'))
  }

  lemma BlockMeaning(s: State, m: Addr, th: Thread, due: seq<Tid>)
    requires Core(s) && CurrentRuns(s) && m != 0 && m in s.mutexes
    requires th == s.threads[s.current].(mutexWait := m, pc := MUTEX_RESUME)
    requires th.condMutex == 0 && th.joinTarget == 0 && th.barrierWait == 0
    ensures var s' := Switch(EnqueueOnce(s, MutexQ(m), th, m), due);
            SameHold(s, s', m) && Parks(s, MutexQ(m), MUTEX_RESUME, s')
  {
    assert ThreadOk(s, s.current);
    ParkMeaning(s, MutexQ(m), th, m, due);
  }

  lemma LockMeaning(s: State, m: Addr, kind: int, due: seq<Tid>)
    requires Inv(s) && CurrentRuns(s) && m != 0 && !Waits(s.threads[s.current])
    ensures var (s', code) := DoMutexLock(s, m, kind, due);
            LockMeans(s, m, s', code)
  {
    assert MutexOk(s, m) && ThreadOk(s, s.current);
    if m in s.mutexes && s.mutexes[m].locked && s.mutexes[m].owner != s.current {
      BlockMeaning(s, m, s.threads[s.current].(mutexWait := m, pc := MUTEX_RESUME), due);
    } else {
      TakeMeaning(s, m, kind, due);
    }
  }

  lemma TakeMeaning(s: State, m: Addr, kind: int, due: seq<Tid>)
    requires s.current in s.threads && Counted(s, m) && (Count(s, m) == 0 || Owner(s, m) == s.current)
    ensures var (s', code) := DoMutexLock(s, m, kind, due);
            code == 0 && Owner(s', m) == s.current && Count(s', m) == Count(s, m) + 1 && Quiet(s, s')
  {
    var x := FindMutex(s, m, kind).mutexes[m];
    var s' := DoMutexLock(s, m, kind, due).0;
    assert s'.mutexes == s.mutexes[m := s'.mutexes[m]];
    QuietMutex(s, m, s'.mutexes[m]);
  }

  /** trylock: never waits; recursion only for type 1. */
  ghost predicate TryLockMeans(s: State, m: Addr, s': State, code: int) {
    && (code == 0 || code == EBUSY)
    && (code == 0 <==> Count(s, m) == 0 || (Owner(s, m) == s.current && s.mutexes[m].kind == 1))
    && (if code == 0 then Owner(s', m) == s.current && Count(s', m) == Count(s, m) + 1 else SameHold(s, s', m))
    && Quiet(s, s')
  }

  lemma TryLockMeaning(s: State, m: Addr)
    requires Inv(s) && CurrentRuns(s)
    ensures var (s', code) := DoTryLock(s, m);
            TryLockMeans(s, m, s', code)
  {
    assert MutexOk(s, m) && ThreadOk(s, s.current);
    var s' := DoTryLock(s, m).0;
    assert s'.mutexes == s.mutexes[m := s'.mutexes[m]];
    QuietMutex(s, m, s'.mutexes[m]);
  }

  /** unlock: the last of the caller's holds wakes the first waiter, who goes last in line. */
  ghost predicate UnlockMeans(s: State, m: Addr, s': State, code: int) {
    && code == (if m !in s.mutexes then EINVAL else if Count(s, m) == 0 then EPERM else 0)
    && Count(s', m) == (if code == 0 then Count(s, m) - 1 else Count(s, m))
    && (if code == 0 && Count(s, m) == 1 && Queue(s, MutexQ(m)) != [] then Popped(s, MutexQ(m), s') else Quiet(s, s'))
  }

  predicate Counted(s: State, m: Addr) { m in s.mutexes ==> (s.mutexes[m].locked <==> s.mutexes[m].count > 0) }

  lemma UnlockMeaning(s: State, m: Addr)
    requires Core(s) && CurrentRuns(s) && Counted(s, m)
    ensures var (s', code) := DoUnlock(s, m);
            UnlockMeans(s, m, s', code)
  {
    if m in s.mutexes && Count(s, m) == 1 && Queue(s, MutexQ(m)) != [] { UnlockWakes(s, m); }
  }

  lemma UnlockWakes(s: State, m: Addr)
    requires Core(s) && CurrentRuns(s) && m in s.mutexes && Queue(s, MutexQ(m)) != []
    ensures var s1 := SetMutex(s, m, s.mutexes[m].(locked := false, owner := 0, count := 0));
            Popped(s, MutexQ(m), WakeFirst(s1, MutexQ(m))) && Count(WakeFirst(s1, MutexQ(m)), m) == 0
  {
    var s1 := SetMutex(s, m, s.mutexes[m].(locked := false, owner := 0, count := 0));
    CoreSetMutex(s, m, s1.mutexes[m]);
    CoreWakeFirst(s1, MutexQ(m));
    WakeFirstHold(s1, MutexQ(m), m);
    PoppedFrom(s, s1, MutexQ(m), WakeFirst(s1, MutexQ(m)));
  }

  lemma PoppedFrom(s: State, s1: State, q: QueueId, s': State)
    requires Quiet(s, s1) && Popped(s1, q, s')
    ensures Popped(s, q, s')
  {
    forall p: QueueId ensures Queue(s1, p) == Queue(s, p) {}
  }

  /** The trampoline: takes the mutex if it is free, returns if it is gone, waits again otherwise. */
  ghost predicate ResumeLockMeans(s: State, m: Addr, at: Addr, s': State, code: int) {
    && (code == 0 || code == SWITCHED)
    && (code == 0 <==> Count(s, m) == 0)
    && (code == 0 ==>
          && (m in s.mutexes ==> Owner(s', m) == s.current && Count(s', m) == 1)
          && s'.pc == at && s'.runq == s.runq && s'.current == s.current && CurrentRuns(s') && !Waits(s'.threads[s.current]))
    && (code == SWITCHED ==> SameHold(s, s', m) && Parks(s, MutexQ(m), MUTEX_RESUME, s'))
  }

  lemma ResumeLockMeaning(s: State, at: Addr, due: seq<Tid>)
    requires Inv(s) && CurrentRuns(s) && s.pc == MUTEX_RESUME && !IsResume(at)
    ensures var (s', code) := MutexResume(s, at, due);
            ResumeLockMeans(s, s.threads[s.current].mutexWait, at, s', code)
  {
    var th := s.threads[s.current];
    var m := th.mutexWait;
    assert MutexOk(s, m) && ThreadOk(s, s.current);
    if m in s.mutexes && s.mutexes[m].locked {
      var s1 := SetThread(s, s.current, th.(mutexWait := 0));
      var th1 := s1.threads[s.current].(mutexWait := m, pc := MUTEX_RESUME);
      assert th1 == th.(pc := MUTEX_RESUME);
      SameAsBefore(s, s1, MutexQ(m), th1, m);
      BlockMeaning(s, m, th1, due);
    }
  }

  /** Clearing the caller's wait before it is set again changes nothing. */
  lemma SameAsBefore(s: State, s1: State, q: QueueId, th: Thread, on: nat)
    requires HasQueue(s, q) && !q.JoinQ? && s.current in s.threads && s.current in s1.threads
    requires s1 == SetThread(s, s.current, s1.threads[s.current])
    ensures HasQueue(s1, q) && EnqueueOnce(s1, q, th, on) == EnqueueOnce(s, q, th, on)
  {
    var b := th.(state := Blocked, blockedOn := on, home := In(q));
    assert s1.threads[s.current := b] == s.threads[s.current := b];
  }

  // ------------------------------------------------------------------ condition variables

  /** cond_wait: one hold of the mutex is given up, as by unlock, and the caller waits on c. */
  ghost predicate CondWaitMeans(s: State, c: Addr, m: Addr, s': State) {
    && (exists s1: State, code :: UnlockMeans(s, m, s1, code) && Parks(s1, CondQ(c), COND_RESUME, s'))
    && s.current in s'.threads && s'.threads[s.current].condMutex == m
    && Count(s', m) == if Count(s, m) > 0 then Count(s, m) - 1 else 0
  }

  lemma CondWaitMeaning(s0: State, c: Addr, m: Addr, due: seq<Tid>)
    requires Inv(s0) && InGuest(s0) && m != 0
    ensures CondWaitMeans(s0, c, m, DoCondWait(s0, c, m, due).0)
  {
    var s := FindCond(s0, c);
    FindCondSteps(s0, c);
    CondUnlocks(s0, c, m);
    UnlockFrame(s, m);
    UnlockSteps(s, m);
    var (s1, code) := DoUnlock(s, m);
    CondParks(s1, c, m, due);
    CondWaitComposes(s0, c, m, s1, code, DoCondWait(s0, c, m, due).0);
  }

  lemma CondUnlocks(s0: State, c: Addr, m: Addr)
    requires Inv(s0) && InGuest(s0)
    ensures var (s1, code) := DoUnlock(FindCond(s0, c), m);
            UnlockMeans(s0, m, s1, code)
  {
    assert MutexOk(s0, m);
    var s := FindCond(s0, c);
    FindCondSteps(s0, c);
    UnlockMeaning(s, m);
    QuietCond(s0, c);
    UnlockMeansFrom(s0, s, m, DoUnlock(s, m).0, DoUnlock(s, m).1);
  }

  lemma CondWaitComposes(s: State, c: Addr, m: Addr, s1: State, code: int, s': State)
    requires UnlockMeans(s, m, s1, code) && Parks(s1, CondQ(c), COND_RESUME, s') && s1.current == s.current
    requires s.current in s'.threads && s'.threads[s.current].condMutex == m && s'.mutexes == s1.mutexes
    ensures CondWaitMeans(s, c, m, s')
  {
  }

  /** An unknown condition variable has no waiters: creating it changes no queue. */
  lemma UnlockMeansFrom(s0: State, s: State, m: Addr, s1: State, code: int)
    requires Quiet(s0, s) && s.mutexes == s0.mutexes && UnlockMeans(s, m, s1, code)
    ensures UnlockMeans(s0, m, s1, code)
  {
    forall p: QueueId ensures Queue(s, p) == Queue(s0, p) {}
    if Popped(s, MutexQ(m), s1) { PoppedFrom(s0, s, MutexQ(m), s1); }
  }

  lemma CondParks(s: State, c: Addr, m: Addr, due: seq<Tid>)
    requires Core(s) && InGuest(s) && m != 0 && c in s.conds
    ensures var s' := Switch(Enqueue(s, CondQ(c), s.threads[s.current].(condMutex := m, pc := COND_RESUME), c), due);
            Parks(s, CondQ(c), COND_RESUME, s') && s'.threads[s.current].condMutex == m && s'.mutexes == s.mutexes
  {
    GuestContext(s);
    var th := s.threads[s.current].(condMutex := m, pc := COND_RESUME);
    ParkMeaning(s, CondQ(c), th, c, due);
    ParkedContext(s, CondQ(c), th, c, due);
  }

  /** The context the caller prepared is the one it waits with. */
  lemma ParkedContext(s: State, q: QueueId, th: Thread, on: nat, due: seq<Tid>)
    requires Core(s) && MayEnqueue(s, q, th, on)
    ensures s.current in Switch(Enqueue(s, q, th, on), due).threads
    ensures Switch(Enqueue(s, q, th, on), due).threads[s.current].condMutex == th.condMutex
  {
    CoreEnqueue(s, q, th, on);
    SwitchKeepsThreads(Enqueue(s, q, th, on), due);
    assert Kept(Enqueue(s, q, th, on), Switch(Enqueue(s, q, th, on), due), s.current);
  }

  /** The trampoline: the wait is over and the mutex is locked as by lock. */
  ghost predicate ResumeCondMeans(s: State, m: Addr, at: Addr, s': State, code: int) {
    && (code == 0 || code == SWITCHED)
    && (code == 0 <==> Count(s, m) == 0 || Owner(s, m) == s.current)
    && (code == 0 ==>
          && Owner(s', m) == s.current && Count(s', m) == Count(s, m) + 1
          && s'.pc == at && s'.runq == s.runq && s'.current == s.current && CurrentRuns(s') && !Waits(s'.threads[s.current]))
    && (code == SWITCHED ==> SameHold(s, s', m) && Parks(s, MutexQ(m), MUTEX_RESUME, s'))
  }

  lemma ResumeCondMeaning(s: State, at: Addr, due: seq<Tid>)
    requires Inv(s) && CurrentRuns(s) && s.pc == COND_RESUME && !IsResume(at)
    ensures var (s', code) := CondResume(s, at, due);
            ResumeCondMeans(s, s.threads[s.current].condMutex, at, s', code)
  {
    var th := s.threads[s.current];
    var m := th.condMutex;
    assert MutexOk(s, m) && ThreadOk(s, s.current);
    var s1 := SetThread(s, s.current, th.(condMutex := 0));
    if m in s.mutexes && s.mutexes[m].locked && s.mutexes[m].owner != s.current {
      ResumeCondParks(s, s1, m, due);
    } else {
      TakeMeaning(s1, m, 0, due);
    }
  }

  lemma ResumeCondParks(s: State, s1: State, m: Addr, due: seq<Tid>)
    requires Core(s) && CurrentRuns(s) && s.pc == COND_RESUME && m == s.threads[s.current].condMutex && m in s.mutexes
    requires s1 == SetThread(s, s.current, s.threads[s.current].(condMutex := 0))
    ensures SameHold(s, BlockOnMutex(s1, m, due), m) && Parks(s, MutexQ(m), MUTEX_RESUME, BlockOnMutex(s1, m, due))
  {
    assert ThreadOk(s, s.current);
    var th := s1.threads[s.current].(mutexWait := m, pc := MUTEX_RESUME);
    SameAsBefore(s, s1, MutexQ(m), th, m);
    ParkMeaning(s, MutexQ(m), th, m, due);
  }

  /** signal: the first waiter, if any, goes last in line. */
  ghost predicate SignalMeans(s: State, c: Addr, s': State) {
    && SameLocks(s, s')
    && if Queue(s, CondQ(c)) == [] then s' == s else Popped(s, CondQ(c), s')
  }

  lemma SignalMeaning(s: State, c: Addr)
    requires Core(s) && CurrentRuns(s)
    ensures SignalMeans(s, c, DoSignal(s, c).0)
    ensures Drained(s, CondQ(c), DoBroadcast(s, c).0) && SameLocks(s, DoBroadcast(s, c).0)
  {
    if c in s.conds {
      if s.conds[c] != [] { CoreWakeFirst(s, CondQ(c)); }
      WakeAllDrains(s, CondQ(c));
      UnblockEachLocks(SetQueue(s, CondQ(c), []), s.conds[c], 0);
    } else {
      assert s.runq + [] == s.runq;
    }
  }

  // ------------------------------------------------------------------ read-write locks

  function Readers(s: State, l: Addr): nat { if l in s.rwlocks then s.rwlocks[l].readers else 0 }

  function Writer(s: State, l: Addr): Tid { if l in s.rwlocks then s.rwlocks[l].writer else 0 }

  function Depth(s: State, l: Addr): nat { if l in s.rwlocks then s.rwlocks[l].depth else 0 }

  /** Who holds l, and how often. */
  predicate Holds(s: State, l: Addr, readers: nat, writer: Tid, depth: nat) {
    Readers(s, l) == readers && Writer(s, l) == writer && Depth(s, l) == depth
  }

  predicate SameRw(s: State, s': State, l: Addr) { Holds(s', l, Readers(s, l), Writer(s, l), Depth(s, l)) }

  /** rdlock: 0 exactly if nobody writes, and then one more reader is counted; else the caller waits,
      to go on at its call site. */
  ghost predicate ReadLockMeans(s: State, l: Addr, s': State, code: int) {
    && (code == 0 || code == SWITCHED)
    && (code == 0 <==> Writer(s, l) == 0)
    && (code == 0 ==> Holds(s', l, Readers(s, l) + 1, 0, Depth(s, l)) && Quiet(s, s'))
    && (code == SWITCHED ==> SameRw(s, s', l) && Parks(s, ReadQ(l), s.pc, s'))
  }

  lemma ReadLockMeaning(s: State, l: Addr, due: seq<Tid>)
    requires Core(s) && InGuest(s)
    ensures var (s', code) := DoReadLock(s, l, due);
            ReadLockMeans(s, l, s', code)
  {
    if Writer(s, l) == 0 {
      var s' := DoReadLock(s, l, due).0;
      assert s'.rwlocks == s.rwlocks[l := s'.rwlocks[l]];
      QuietRw(s, l, s'.rwlocks[l]);
    } else {
      GuestContext(s);
      ParkMeaning(s, ReadQ(l), s.threads[s.current].(readWait := l, pc := RD_RESUME), l, due);
    }
  }

  /** wrlock: 0 exactly if the lock is the caller's own, or nobody's. */
  ghost predicate WriteLockMeans(s: State, l: Addr, s': State, code: int) {
    && (code == 0 || code == SWITCHED)
    && (code == 0 <==> Writer(s, l) == s.current || (Readers(s, l) == 0 && Writer(s, l) == 0))
    && (code == 0 ==>
          && Quiet(s, s')
          && Holds(s', l, Readers(s, l), s.current, if Writer(s, l) == s.current then Depth(s, l) + 1 else 1))
    && (code == SWITCHED ==> SameRw(s, s', l) && Parks(s, WriteQ(l), s.pc, s'))
  }

  lemma WriteLockMeaning(s: State, l: Addr, due: seq<Tid>)
    requires Core(s) && InGuest(s)
    ensures var (s', code) := DoWriteLock(s, l, due);
            WriteLockMeans(s, l, s', code)
  {
    GuestContext(s);
    if Writer(s, l) == s.current || (Readers(s, l) == 0 && Writer(s, l) == 0) {
      WriteTakes(s, l, due);
    } else {
      ParkMeaning(s, WriteQ(l), s.threads[s.current].(writeWait := l, pc := WR_RESUME), l, due);
    }
  }

  lemma WriteTakes(s: State, l: Addr, due: seq<Tid>)
    requires s.current in s.threads && s.current != 0
    requires Writer(s, l) == s.current || (Readers(s, l) == 0 && Writer(s, l) == 0)
    ensures var (s', code) := DoWriteLock(s, l, due);
            && code == 0 && Quiet(s, s')
            && Holds(s', l, Readers(s, l), s.current, if Writer(s, l) == s.current then Depth(s, l) + 1 else 1)
  {
    var s' := DoWriteLock(s, l, due).0;
    assert s'.rwlocks == s.rwlocks[l := s'.rwlocks[l]];
    QuietRw(s, l, s'.rwlocks[l]);
  }

  /** The same without waiting; a writer's depth is left alone. */
  ghost predicate TryReadLockMeans(s: State, l: Addr, s': State, code: int) {
    && code == (if Writer(s, l) == 0 then 0 else EBUSY) && Quiet(s, s')
    && (if code == 0 then Holds(s', l, Readers(s, l) + 1, 0, Depth(s, l)) else SameRw(s, s', l))
  }

  ghost predicate TryWriteLockMeans(s: State, l: Addr, s': State, code: int) {
    && code == (if Readers(s, l) == 0 && Writer(s, l) == 0 then 0 else EBUSY) && Quiet(s, s')
    && (if code == 0 then Holds(s', l, 0, s.current, Depth(s, l)) else SameRw(s, s', l))
  }

  lemma TryReadLockMeaning(s: State, l: Addr)
    ensures var (s', code) := DoTryReadLock(s, l);
            TryReadLockMeans(s, l, s', code)
  {
    var s' := DoTryReadLock(s, l).0;
    assert s'.rwlocks == s.rwlocks[l := s'.rwlocks[l]];
    QuietRw(s, l, s'.rwlocks[l]);
  }

  lemma TryWriteLockMeaning(s: State, l: Addr)
    ensures var (s', code) := DoTryWriteLock(s, l);
            TryWriteLockMeans(s, l, s', code)
  {
    var s' := DoTryWriteLock(s, l).0;
    assert s'.rwlocks == s.rwlocks[l := s'.rwlocks[l]];
    QuietRw(s, l, s'.rwlocks[l]);
  }

  /** unlock of an rwlock: the writer's last hold wakes the first writer, or else every reader; the last
      reader wakes the first writer. */
  ghost predicate RwUnlockMeans(s: State, l: Addr, s': State, code: int) {
    && code == (if l in s.rwlocks then 0 else EINVAL)
    && if code == 0 && Writer(s, l) == s.current then
         if Depth(s, l) > 1 then Holds(s', l, Readers(s, l), s.current, Depth(s, l) - 1) && Quiet(s, s')
         else
           && Holds(s', l, Readers(s, l), 0, 0)
           && (if Queue(s, WriteQ(l)) != [] then Popped(s, WriteQ(l), s') else Drained(s, ReadQ(l), s'))
       else if Readers(s, l) > 0 then
         && Holds(s', l, Readers(s, l) - 1, Writer(s, l), Depth(s, l))
         && (if Readers(s, l) == 1 && Queue(s, WriteQ(l)) != [] then Popped(s, WriteQ(l), s') else Quiet(s, s'))
       else s' == s
  }

  lemma RwUnlockMeaning(s: State, l: Addr)
    requires Core(s) && CurrentRuns(s)
    ensures var (s', code) := DoRwUnlock(s, l);
            RwUnlockMeans(s, l, s', code)
  {
    if l in s.rwlocks {
      var x := s.rwlocks[l];
      if x.writer == s.current { WriterUnlocks(s, l); }
      else if x.readers > 0 {
        QuietRw(s, l, x.(readers := x.readers - 1));
        RwWakesWriter(s, l, x.(readers := x.readers - 1));
      }
    }
  }

  lemma WriterUnlocks(s: State, l: Addr)
    requires Core(s) && CurrentRuns(s) && l in s.rwlocks && Writer(s, l) == s.current
    ensures var (s', code) := DoRwUnlock(s, l);
            RwUnlockMeans(s, l, s', code)
  {
    var x := s.rwlocks[l];
    if x.depth > 1 {
      QuietRw(s, l, x.(depth := x.depth - 1));
    } else {
      RwWakesWriter(s, l, x.(writer := 0, depth := 0));
      RwWakesReaders(s, l, x.(writer := 0, depth := 0));
    }
  }

  lemma RwWakesWriter(s: State, l: Addr, x: RwLock)
    requires Core(s) && CurrentRuns(s) && l in s.rwlocks
    requires x.readQueue == s.rwlocks[l].readQueue && x.writeQueue == s.rwlocks[l].writeQueue
    ensures x.writeQueue != [] ==>
              var s' := WakeFirst(SetRw(s, l, x), WriteQ(l));
              Popped(s, WriteQ(l), s') && Holds(s', l, x.readers, x.writer, x.depth)
  {
    var s1 := SetRw(s, l, x);
    StepsSetRw(s, l, x, 0);
    QuietRw(s, l, x);
    if x.writeQueue != [] {
      CoreWakeFirst(s1, WriteQ(l));
      PoppedFrom(s, s1, WriteQ(l), WakeFirst(s1, WriteQ(l)));
    }
  }

  lemma RwWakesReaders(s: State, l: Addr, x: RwLock)
    requires Core(s) && CurrentRuns(s) && l in s.rwlocks
    requires x.readQueue == s.rwlocks[l].readQueue && x.writeQueue == s.rwlocks[l].writeQueue
    ensures var s' := WakeAll(SetRw(s, l, x), ReadQ(l));
            Drained(s, ReadQ(l), s') && Holds(s', l, x.readers, x.writer, x.depth)
  {
    var s1 := SetRw(s, l, x);
    StepsSetRw(s, l, x, 0);
    QuietRw(s, l, x);
    WakeAllDrains(s1, ReadQ(l));
    UnblockEachLocks(SetQueue(s1, ReadQ(l), []), x.readQueue, 0);
    DrainedFrom(s, s1, ReadQ(l), WakeAll(s1, ReadQ(l)));
  }

  lemma DrainedFrom(s: State, s1: State, q: QueueId, s': State)
    requires Quiet(s, s1) && Drained(s1, q, s')
    ensures Drained(s, q, s')
  {
    forall p: QueueId ensures Queue(s1, p) == Queue(s, p) {}
  }

  // ------------------------------------------------------------------ barriers

  /** barrier_wait: the last arrival is the serial thread and wakes all the others, in order of arrival;
      any other arrival waits. */
  ghost predicate BarrierWaitMeans(s: State, b: Addr, s': State, code: int) {
    && code == (if |Queue(s, BarrierQ(b))| + 1 == BarrierOf(s, b).count then SERIAL_THREAD else SWITCHED)
    && BarrierOf(s', b).count == BarrierOf(s, b).count
    && (code == SERIAL_THREAD ==>
          && Drained(s, BarrierQ(b), s')
          && BarrierOf(s', b).waiting == 0 && BarrierOf(s', b).generation == BarrierOf(s, b).generation + 1)
    && (code == SWITCHED ==>
          && Parks(s, BarrierQ(b), BARRIER_RESUME, s')
          && BarrierOf(s', b).waiting == BarrierOf(s, b).waiting + 1 && BarrierOf(s', b).generation == BarrierOf(s, b).generation)
  }

  lemma BarrierWaitMeaning(s: State, b: Addr, due: seq<Tid>)
    requires Inv(s) && InGuest(s) && b != 0
    ensures var (s', code) := DoBarrierWait(s, b, due);
            BarrierWaitMeans(s, b, s', code)
  {
    assert BarrierOk(s, b);
    if BarrierOf(s, b).waiting + 1 >= BarrierOf(s, b).count { LastArrives(s, b, due); } else { ArrivalWaits(s, b, due); }
  }

  lemma LastArrives(s: State, b: Addr, due: seq<Tid>)
    requires Core(s) && InGuest(s) && BarrierOk(s, b) && BarrierOf(s, b).waiting + 1 >= BarrierOf(s, b).count
    ensures var (s', code) := DoBarrierWait(s, b, due);
            BarrierWaitMeans(s, b, s', code)
  {
    var x := BarrierOf(s, b);
    var y := x.(waiting := 0, generation := x.generation + 1);
    SetFound(s, b, y);
    BarrierWakes(s, b, y);
  }

  lemma ArrivalWaits(s: State, b: Addr, due: seq<Tid>)
    requires Core(s) && InGuest(s) && BarrierOk(s, b) && b != 0 && BarrierOf(s, b).waiting + 1 < BarrierOf(s, b).count
    ensures var (s', code) := DoBarrierWait(s, b, due);
            BarrierWaitMeans(s, b, s', code)
  {
    var x := BarrierOf(s, b);
    var y := x.(waiting := x.waiting + 1);
    SetFound(s, b, y);
    BarrierWaits(s, b, y, due);
  }

  /** Whether or not the barrier had to be created first. */
  lemma SetFound(s: State, b: Addr, y: Barrier)
    ensures SetBarrier(FindBarrier(s, b), b, y) == SetBarrier(s, b, y)
  {
    assert SetBarrier(FindBarrier(s, b), b, y).barriers == s.barriers[b := y];
  }

  lemma BarrierWakes(s: State, b: Addr, x: Barrier)
    requires Core(s) && CurrentRuns(s) && x.queue == Queue(s, BarrierQ(b))
    ensures var s' := WakeAll(SetBarrier(s, b, x), BarrierQ(b));
            Drained(s, BarrierQ(b), s') && b in s'.barriers && s'.barriers[b] == x.(queue := [])
  {
    var s1 := SetBarrier(s, b, x);
    StepsSetBarrier(s, b, x, 0);
    QuietBarrier(s, b, x);
    WakeAllDrains(s1, BarrierQ(b));
    UnblockEachLocks(SetQueue(s1, BarrierQ(b), []), x.queue, 0);
    DrainedFrom(s, s1, BarrierQ(b), WakeAll(s1, BarrierQ(b)));
  }

  lemma BarrierWaits(s: State, b: Addr, x: Barrier, due: seq<Tid>)
    requires Core(s) && InGuest(s) && b != 0 && x.queue == Queue(s, BarrierQ(b))
    ensures var s1 := SetBarrier(s, b, x);
            var s' := Switch(Enqueue(s1, BarrierQ(b), s.threads[s.current].(barrierWait := b, pc := BARRIER_RESUME), b), due);
            && Parks(s, BarrierQ(b), BARRIER_RESUME, s')
            && b in s'.barriers && s'.barriers[b] == x.(queue := s'.barriers[b].queue)
  {
    var s1 := SetBarrier(s, b, x);
    StepsSetBarrier(s, b, x, 0);
    QuietBarrier(s, b, x);
    GuestContext(s);
    var th := s.threads[s.current].(barrierWait := b, pc := BARRIER_RESUME);
    ParkMeaning(s1, BarrierQ(b), th, b, due);
    ParksFrom(s, s1, BarrierQ(b), BARRIER_RESUME, Switch(Enqueue(s1, BarrierQ(b), th, b), due));
  }

  lemma ParksFrom(s: State, s1: State, q: QueueId, at: Addr, s': State)
    requires Quiet(s, s1) && Parks(s1, q, at, s')
    ensures Parks(s, q, at, s')
  {
    forall p: QueueId ensures Queue(s1, p) == Queue(s, p) {}
    forall u: Tid | u != s.current ensures Kept(s, s', u) { assert Kept(s1, s', u); }
  }

  // ------------------------------------------------------------------ threads

  /** join: ESRCH, EINVAL, the value of a terminated thread, which is reaped, or waiting for its exit. */
  ghost predicate JoinMeans(s: State, t: Tid, s': State, code: int) {
    && code == (if t !in s.threads then ESRCH else if s.threads[t].detached then EINVAL
                else if s.threads[t].state.Terminated? then 0 else SWITCHED)
    && (code == ESRCH || code == EINVAL ==> s' == s)
    && (code == 0 ==> s' == s.(threads := s.threads - {t}))
    && (code == SWITCHED ==> Parks(s, JoinQ(t), JOIN_RESUME, s'))
  }

  lemma JoinMeaning(s: State, t: Tid, due: seq<Tid>)
    requires Core(s) && InGuest(s)
    ensures var (s', code) := DoJoin(s, t, due);
            JoinMeans(s, t, s', code)
  {
    if t in s.threads && !s.threads[t].detached && !s.threads[t].state.Terminated? {
      GuestContext(s);
      assert ThreadOk(s, t);
      ParkMeaning(s, JoinQ(t), s.threads[s.current].(joinTarget := t, pc := JOIN_RESUME), t, due);
    }
  }

  /** exit: the caller is finished with its value, and everybody who waited for it can run, and will
      collect it.  If nobody can run, the CPU stops at address zero. */
  ghost predicate ExitMeans(s: State, v: nat, s': State) {
    var t := s.current;
    && t in s.threads && t in s'.threads
    && s'.threads[t] == s.threads[t].(state := Terminated, retval := v, joiners := [], pc := s'.threads[t].pc)
    && s'.threads.Keys == s.threads.Keys && s'.nextTid == s.nextTid
    && (forall q: QueueId {:trigger Queue(s', q)} :: Queue(s', q) == if q == JoinQ(t) then [] else Queue(s, q))
    && (forall u: Tid {:trigger s'.threads[u]} :: u in Queue(s, JoinQ(t)) ==>
          u in s'.threads && Ready(s'.threads[u]) && s'.threads[u].joinTarget == t)
    && (forall u: Tid {:trigger Kept(s, s', u)} :: u != t && u !in Queue(s, JoinQ(t)) ==> Kept(s, s', u))
    && (exists x: seq<Tid> :: s.runq + Queue(s, JoinQ(t)) <= x && Moves(x, s'))
    && (!CurrentRuns(s') ==> s'.runq == [] && s'.current == t && s'.pc == 0)
  }

  lemma ExitMeaning(s: State, v: nat, due: seq<Tid>)
    requires Core(s) && InGuest(s)
    ensures ExitMeans(s, v, DoExit(s, v, due).0)
  {
    var t := s.current;
    var th := s.threads[t].(state := Terminated, retval := v);
    GuestContext(s);
    CoreSetCurrent(s, th, s.pc);
    var s1 := SetThread(s, t, th);
    assert s1 == SetThread(s, t, th).(pc := s.pc);
    CoreWakeAll(s1, JoinQ(t));
    WakeAllDrains(s1, JoinQ(t));
    assert SetQueue(s1, JoinQ(t), []).threads == s.threads[t := th.(joiners := [])];
    ExitSwitches(s, s1, WakeAll(s1, JoinQ(t)), v, due);
  }

  lemma ExitSwitches(s: State, s1: State, s2: State, v: nat, due: seq<Tid>)
    requires Core(s) && CurrentRuns(s) && s1 == SetThread(s, s.current, s.threads[s.current].(state := Terminated, retval := v))
    requires Core(s2) && Drained(s1, JoinQ(s.current), s2) && s.current !in Queue(s1, JoinQ(s.current))
    ensures ExitMeans(s, v, Switch(s2, due))
  {
    var t, s' := s.current, Switch(s2, due);
    assert QueueOk(s, JoinQ(t));
    SwitchKeepsThreads(s2, due);
    CoreSwitch(s2, due);
    assert Kept(s2, s', t) && s2.threads[t] == s1.threads[t].(joiners := s2.threads[t].joiners);
    forall q: QueueId ensures Queue(s1, q) == Queue(s, q) { SameJoiners(s, s1, q); }
    forall q: QueueId ensures Queue(s', q) == if q == JoinQ(t) then [] else Queue(s, q) {
      SwitchKeepsQueues(s2, due, q);
    }
    forall u: Tid | u in Queue(s, JoinQ(t)) ensures u in s'.threads && Ready(s'.threads[u]) && s'.threads[u].joinTarget == t {
      SwitchDrift(s2, due, u);
      assert ThreadOk(s, u) && Kept(s2, s', u);
    }
    LastStops(s2, due);
    forall u: Tid | u != t && u !in Queue(s, JoinQ(t)) ensures Kept(s, s', u) {
      DrainedKeeps(s, s1, JoinQ(t), s2, u);
      assert Kept(s2, s', u);
      KeptTwice(s, s2, s', u);
    }
  }

  lemma LastStops(s: State, due: seq<Tid>)
    requires Core(s) && s.threads[s.current].state.Terminated?
    ensures var s' := Switch(s, due);
            !CurrentRuns(s') ==> s'.runq == [] && s'.current == s.current && s'.pc == 0
  {
    CoreSave(s);
    SavedWakeSleepers(Save(s), due);
    DeadStays(Save(s), due, s.current);
    CoreDispatch(WakeSleepers(Save(s), due));
  }

  lemma {:induction false} DeadStays(s: State, due: seq<Tid>, t: Tid)
    requires t in s.threads && s.threads[t].state.Terminated?
    ensures var s' := WakeSleepers(s, due);
            t in s'.threads && s'.threads[t].state.Terminated? && s'.current == s.current
    decreases |due|
  {
    if due != [] { DeadStays(WakeSleeper(s, due[0]), due[1..], t); }
  }

  lemma SameJoiners(s: State, s1: State, q: QueueId)
    requires CurrentRuns(s) && s.current in s1.threads && s1 == SetThread(s, s.current, s1.threads[s.current])
    requires s1.threads[s.current].joiners == s.threads[s.current].joiners
    ensures Queue(s1, q) == Queue(s, q)
  {
  }

  lemma DrainedKeeps(s: State, s1: State, q: QueueId, s2: State, u: Tid)
    requires s.current in s1.threads && s1 == SetThread(s, s.current, s1.threads[s.current]) && Drained(s1, q, s2)
    requires u != s.current && u !in Queue(s1, q)
    ensures Kept(s, s2, u)
  {
    if u in s.threads { assert s2.threads[u] == s1.threads[u].(joiners := s2.threads[u].joiners); }
  }

  lemma KeptTwice(s: State, s1: State, s2: State, u: Tid)
    requires Kept(s, s1, u) && Kept(s1, s2, u)
    ensures Kept(s, s2, u)
  {
  }

  /** detach: a live thread can no longer be joined, a terminated one is gone; nobody else, and no queue,
      changes. */
  ghost predicate DetachMeans(s: State, t: Tid, s': State, code: int) {
    && code == (if t in s.threads then 0 else ESRCH)
    && (t in s'.threads <==> t in s.threads && !s.threads[t].state.Terminated?)
    && (t in s'.threads ==> s'.threads[t].detached && s'.threads[t] == s.threads[t].(detached := true))
    && (forall u :: u != t ==> (u in s'.threads <==> u in s.threads) && (u in s.threads ==> s'.threads[u] == s.threads[u]))
    && (forall p: QueueId {:trigger Queue(s', p)} :: Queue(s', p) == Queue(s, p))
    && s'.runq == s.runq && s'.current == s.current && CurrentRuns(s') && s'.pc == s.pc && SameLocks(s, s')
  }

  lemma DetachMeaning(s: State, t: Tid)
    requires Inv(s) && CurrentRuns(s)
    ensures var (s', code) := DoDetach(s, t);
            DetachMeans(s, t, s', code)
  {
    var s' := DoDetach(s, t).0;
    forall p: QueueId ensures Queue(s', p) == Queue(s, p) { DetachQueue(s, t, p); }
  }

  lemma DetachQueue(s: State, t: Tid, p: QueueId)
    requires NoLateJoiner(s)
    ensures Queue(DoDetach(s, t).0, p) == Queue(s, p)
  {
    if p.JoinQ? && p.t in s.threads { assert s.threads[p.t].state.Terminated? ==> s.threads[p.t].joiners == []; }
  }

  /** sleep: the caller is SLEEPING, unless it was found due at once; it is in no queue and goes on where
      it was.  Everybody else is kept, and the next in line runs. */
  ghost predicate SleepMeans(s: State, due: seq<Tid>, s': State) {
    var t := s.current;
    && t in s'.threads && (if t in due then Ready(s'.threads[t]) else s'.threads[t].state.Sleeping? && t !in s'.runq)
    && PcOf(s', t) == s.pc
    && s'.threads.Keys == s.threads.Keys
    && (forall u: Tid {:trigger Kept(s, s', u)} :: u != t ==> Kept(s, s', u))
    && (forall q: QueueId {:trigger Queue(s', q)} :: Queue(s', q) == Queue(s, q) && t !in Queue(s', q))
    && SameLocks(s, s')
    && (s.runq != [] ==> CurrentRuns(s') && s'.current == s.runq[0])
  }

  lemma SleepMeaning(s: State, due: seq<Tid>)
    requires Core(s) && InGuest(s)
    ensures SleepMeans(s, due, DoSleep(s, due).0)
  {
    var t, th := s.current, s.threads[s.current].(state := Sleeping);
    var s1 := SetThread(s, t, th);
    GuestContext(s);
    CoreSetCurrent(s, th, s.pc);
    assert s1 == SetThread(s, t, th).(pc := s.pc);
    SleepSwitches(s, s1, due);
  }

  lemma SleepSwitches(s: State, s1: State, due: seq<Tid>)
    requires Core(s) && CurrentRuns(s) && Core(s1) && s1 == SetThread(s, s.current, s.threads[s.current].(state := Sleeping))
    ensures SleepMeans(s, due, Switch(s1, due))
  {
    var t, s' := s.current, Switch(s1, due);
    SwitchKeepsThreads(s1, due);
    CoreSwitch(s1, due);
    SwitchRecords(s1, due, 0);
    SwitchWakesDue(s1, due, t);
    assert Kept(s1, s', t) && ThreadOk(s', t);
    forall u: Tid | u != t ensures Kept(s, s', u) { assert Kept(s1, s', u); }
    forall q: QueueId ensures Queue(s', q) == Queue(s, q) && t !in Queue(s', q) {
      SwitchKeepsQueues(s1, due, q);
      SameJoiners(s, s1, q);
      CurrentInNoQueue(s, q);
    }
  }

  /** A sleeping thread can run after a switch exactly if it is due. */
  lemma SwitchWakesDue(s: State, due: seq<Tid>, u: Tid)
    requires Core(s) && u in s.threads && s.threads[u].state.Sleeping?
    ensures var s' := Switch(s, due);
            && u in s'.threads
            && (if u in due then Ready(s'.threads[u]) else s'.threads[u].state.Sleeping? && u !in s'.runq)
  {
    CoreSave(s);
    SavedWakeSleepers(Save(s), due);
    DueWakes(Save(s), due, u);
    var s1 := WakeSleepers(Save(s), due);
    CoreDispatch(s1);
    DispatchDrift(s1, u);
    assert ThreadOk(s1, u);
  }

  lemma {:induction false} DueWakes(s: State, due: seq<Tid>, t: Tid)
    requires t in s.threads && (s.threads[t].state.Sleeping? || s.threads[t].state.Runnable?)
    ensures var s' := WakeSleepers(s, due);
            && t in s'.threads && s'.current == s.current
            && s'.threads[t].state == if t in due then Runnable else s.threads[t].state
    decreases |due|
  {
    if due != [] {
      DueWakes(WakeSleeper(s, due[0]), due[1..], t);
      assert t in due <==> t == due[0] || t in due[1..];
    }
  }

  /** create: a new thread, first in line, that will start at its entry; nobody else changes. */
  ghost predicate CreateMeans(s: State, entry: Addr, s': State, code: int) {
    var t := s.nextTid;
    && code == 0 && t !in s.threads && t in s'.threads && s'.nextTid == t + 1
    && s'.threads[t].state.Runnable? && s'.threads[t].pc == entry && !s'.threads[t].detached && !Waits(s'.threads[t])
    && s'.runq == [t] + s.runq && s'.current == s.current && s'.pc == s.pc
    && s'.threads.Keys == s.threads.Keys + {t} && (forall u :: u in s.threads ==> s'.threads[u] == s.threads[u])
    && (forall p: QueueId {:trigger Queue(s', p)} :: Queue(s', p) == Queue(s, p)) && SameLocks(s, s')
  }

  lemma CreateMeaning(s: State, entry: Addr)
    requires Core(s) && InGuest(s)
    ensures var (s', code) := DoCreate(s, entry);
            CreateMeans(s, entry, s', code)
  {
    assert ThreadOk(s, s.nextTid);
  }

  /** ... and the next switch starts it there. */
  lemma CreatedStarts(s: State, entry: Addr, due: seq<Tid>)
    requires Core(s) && InGuest(s) && !IsResume(entry)
    ensures var s' := Switch(DoCreate(s, entry).0, due);
            CurrentRuns(s') && s'.current == s.nextTid && s'.pc == entry
  {
    var s1, t := DoCreate(s, entry).0, s.nextTid;
    CoreCreate(s, entry);
    CreateMeaning(s, entry);
    CoreSwitch(s1, due);
    SwitchKeepsThreads(s1, due);
    assert Kept(s1, Switch(s1, due), t);
  }

  /** The trampoline of a barrier wait: the caller goes on at its call site, and nothing else changes. */
  predicate ResumeBarrierMeans(s: State, at: Addr, s': State)
    requires s.current in s.threads
  {
    && s' == s.(threads := s'.threads, pc := at) && InGuest(s') && !Waits(s'.threads[s.current])
    && s'.threads == s.threads[s.current := s.threads[s.current].(barrierWait := 0)]
  }

  lemma ResumeBarrierMeaning(s: State, at: Addr)
    requires Core(s) && CurrentRuns(s) && s.pc == BARRIER_RESUME && !IsResume(at)
    ensures ResumeBarrierMeans(s, at, BarrierResume(s, at).0)
  {
    assert ThreadOk(s, s.current);
  }
}
