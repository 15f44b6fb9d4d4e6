/**
 What holds in every reachable scheduler state and over every run.
 */
module SchedulerRuns {
  import opened Scheduler
  import opened SchedulerCore
  import opened SchedulerSteps
  import opened SchedulerLocks

  ghost predicate Inv(s: State) { Core(s) && Locks(s) }

  lemma InitInv(s: State)
    requires Init(s)
    ensures Inv(s)
  {
    forall t: Tid ensures ThreadOk(s, t) {}
    forall q: QueueId ensures QueueOk(s, q) { assert Queue(s, q) == []; }
    forall a: Addr ensures MutexOk(s, a) && RwOk(s, a) && BarrierOk(s, a) {}
  }

  /** One guest call in each group of operations. */
  lemma ThreadOpInv(s: State, op: Op, due: seq<Tid>)
    requires Inv(s) && InGuest(s) && Usage(s, op) && (op.Create? || op.Join? || op.Detach? || op.Exit? || op.Sleep?)
    ensures Inv(Perform(s, op, due).0)
    ensures !op.Create? ==> Steps(s, Perform(s, op, due))
  {
    match op
    case Create(entry) => CreateSteps(s, entry); CreateLocks(s, entry);
    case Join(t) => JoinSteps(s, t, due); JoinLocks(s, t, due);
    case Detach(t) => DetachSteps(s, t); DetachLocks(s, t);
    case Exit(v) => ExitSteps(s, v, due); ExitLocks(s, v, due);
    case Sleep => SleepSteps(s, due); SleepLocks(s, due);
  }

  lemma MutexOpInv(s: State, op: Op, due: seq<Tid>)
    requires Inv(s) && InGuest(s) && Usage(s, op)
    requires op.MutexInit? || op.MutexDestroy? || op.MutexLock? || op.TryLock? || op.Unlock?
    ensures Inv(Perform(s, op, due).0) && Steps(s, Perform(s, op, due))
  {
    match op
    case MutexInit(m, kind) =>
      StepsSetMutex(s, m, Mutex(false, 0, 0, kind, []), 0);
      SetMutexLocks(s, m, Mutex(false, 0, 0, kind, []));
    case MutexDestroy(m) => MutexDestroySteps(s, m); MutexDestroyLocks(s, m);
    case MutexLock(m, kind) =>
      MutexLockSteps(s, m, kind, due);
      GuestContext(s);
      var th := s.threads[s.current];
      assert SetThread(s, s.current, th) == s by { assert s.threads[s.current := th] == s.threads; }
      LockLocks(s, m, kind, th, due);
    case TryLock(m) => TryLockSteps(s, m); TryLockLocks(s, m);
    case Unlock(m) => UnlockSteps(s, m); UnlockLocks(s, m);
  }

  lemma CondOpInv(s: State, op: Op, due: seq<Tid>)
    requires Inv(s) && InGuest(s) && Usage(s, op)
    requires op.CondInit? || op.CondDestroy? || op.CondWait? || op.Signal? || op.Broadcast?
    ensures Inv(Perform(s, op, due).0) && Steps(s, Perform(s, op, due))
  {
    match op
    case CondInit(c) => CondInitSteps(s, c); CondInitLocks(s, s.conds[c := []]);
    case CondDestroy(c) => CondInitSteps(s, c); CondInitLocks(s, s.conds - {c});
    case CondWait(c, m) => CondWaitSteps(s, c, m, due); CondWaitLocks(s, c, m, due);
    case Signal(c) => SignalSteps(s, c); SignalLocks(s, c);
    case Broadcast(c) => SignalSteps(s, c); SignalLocks(s, c);
  }

  lemma ReadOpInv(s: State, op: Op, due: seq<Tid>)
    requires Inv(s) && InGuest(s) && (op.ReadLock? || op.TryReadLock?)
    ensures Inv(Perform(s, op, due).0) && Steps(s, Perform(s, op, due))
  {
    ReadLockSteps(s, op.l, due);
    RwLockLocks(s, op.l, due);
  }

  lemma WriteOpInv(s: State, op: Op, due: seq<Tid>)
    requires Inv(s) && InGuest(s) && (op.WriteLock? || op.TryWriteLock?)
    ensures Inv(Perform(s, op, due).0) && Steps(s, Perform(s, op, due))
  {
    WriteLockSteps(s, op.l, due);
    TryWriteLockSteps(s, op.l);
    WriteLockLocks(s, op.l, due);
  }

  lemma RwOpInv(s: State, op: Op, due: seq<Tid>)
    requires Inv(s) && InGuest(s) && Usage(s, op) && (op.RwInit? || op.RwDestroy? || op.RwUnlock?)
    ensures Inv(Perform(s, op, due).0) && Steps(s, Perform(s, op, due))
  {
    match op
    case RwInit(l) => RwInitSteps(s, l); SetRwLocks(s, l, RwLock(0, 0, 0, [], []));
    case RwDestroy(l) => RwInitSteps(s, l); RwDestroyLocks(s, l);
    case RwUnlock(l) => RwUnlockSteps(s, l); RwUnlockLocks(s, l);
  }

  lemma BarrierOpInv(s: State, op: Op, due: seq<Tid>)
    requires Inv(s) && InGuest(s) && Usage(s, op) && (op.BarrierInit? || op.BarrierDestroy? || op.BarrierWait?)
    ensures Inv(Perform(s, op, due).0) && Steps(s, Perform(s, op, due))
  {
    match op
    case BarrierInit(b, n) => BarrierInitSteps(s, b, n); BarrierInitLocks(s, b, n);
    case BarrierDestroy(b) => assert BarrierOk(s, b); BarrierInitSteps(s, b, 0); BarrierInitLocks(s, b, 0);
    case BarrierWait(b) => BarrierWaitSteps(s, b, due); BarrierWaitLocks(s, b, due);
  }

  lemma OpInv(s: State, op: Op, due: seq<Tid>)
    requires Inv(s) && InGuest(s) && Usage(s, op)
    ensures Inv(Perform(s, op, due).0)
    ensures !op.Create? ==> Steps(s, Perform(s, op, due))
  {
    if op.Create? || op.Join? || op.Detach? || op.Exit? || op.Sleep? {
      ThreadOpInv(s, op, due);
    } else if op.MutexInit? || op.MutexDestroy? || op.MutexLock? || op.TryLock? || op.Unlock? {
      MutexOpInv(s, op, due);
    } else if op.CondInit? || op.CondDestroy? || op.CondWait? || op.Signal? || op.Broadcast? {
      CondOpInv(s, op, due);
    } else if op.BarrierInit? || op.BarrierDestroy? || op.BarrierWait? {
      BarrierOpInv(s, op, due);
    } else if op.ReadLock? || op.TryReadLock? {
      ReadOpInv(s, op, due);
    } else if op.WriteLock? || op.TryWriteLock? {
      WriteOpInv(s, op, due);
    } else {
      RwOpInv(s, op, due);
    }
  }

  lemma ResumeInv(s: State, at: Addr, due: seq<Tid>)
    requires Inv(s) && Enabled(s, Resume(at, due))
    ensures Inv(ResumeAt(s, at, due).0) && Steps(s, ResumeAt(s, at, due))
  {
    ResumeLocks(s, at);
    if s.pc == MUTEX_RESUME { MutexResumeSteps(s, at, due); MutexResumeLocks(s, at, due); }
    else if s.pc == COND_RESUME { CondResumeSteps(s, at, due); CondResumeLocks(s, at, due); }
    else if s.pc == JOIN_RESUME { JoinResumeSteps(s, at); }
    else { BarrierResumeSteps(s, at); }
  }

  predicate Creates(e: Step) { e.Guest? && e.op.Create? }

  /** Every step keeps the invariant; every step but pthread_create only appends to the queue and
      takes its head. */
  lemma StepInv(s: State, e: Step)
    requires Inv(s) && Enabled(s, e)
    ensures Inv(Next(s, e))
    ensures !Creates(e) ==> Steps(s, Do(s, e))
  {
    match e
    case Guest(op, at, due) =>
      CoreAt(s, at);
      LocksAt(s, at);
      OpInv(s.(pc := at), op, due);
      if !op.Create? { StepsAfter(s, s.(pc := at), Do(s, e)); }
    case Resume(at, due) => ResumeInv(s, at, due);
    case Preempt(due) => StepsSwitch(s, s, due); SwitchLocks(s, due);
  }

  lemma {:induction false} RunInv(tr: seq<State>, es: seq<Step>, i: nat)
    requires IsRun(tr, es) && i < |tr|
    ensures Inv(tr[i])
  {
    if i == 0 {
      InitInv(tr[0]);
    } else {
      RunInv(tr, es, i - 1);
      StepInv(tr[i - 1], es[i - 1]);
    }
  }

  /** Some run of the scheduler ends in s. */
  ghost predicate Reachable(s: State) {
    exists tr: seq<State>, es: seq<Step> :: IsRun(tr, es) && tr[|es|] == s
  }

  lemma ReachableInv(s: State)
    requires Reachable(s)
    ensures Inv(s)
  {
    var tr: seq<State>, es: seq<Step> :| IsRun(tr, es) && tr[|es|] == s;
    RunInv(tr, es, |es|);
  }

  // ------------------------------------------------------------------ theorems over all runs

  /** Every thread queued on a mutex is blocked, waiting for that mutex, at the mutex trampoline;
      and a free mutex with waiters has a woken thread on its way to it. */
  lemma NoStrandedWaiter(s: State, m: Addr)
    requires Reachable(s) && m in s.mutexes
    ensures forall x :: x in s.mutexes[m].queue ==>
              && x in s.threads && s.threads[x].state.Blocked?
              && s.threads[x].mutexWait == m && s.threads[x].pc == MUTEX_RESUME
    ensures s.mutexes[m].queue != [] && !s.mutexes[m].locked ==>
              exists t: Tid :: t in s.threads && s.threads[t].mutexWait == m
                     && (s.threads[t].state.Runnable? || s.threads[t].state.Running?)
  {
    ReachableInv(s);
    forall x | x in s.mutexes[m].queue
      ensures x in s.threads && s.threads[x].state.Blocked? && s.threads[x].mutexWait == m && s.threads[x].pc == MUTEX_RESUME
    {
      QueuedContext(s, MutexQ(m), x);
    }
    assert MutexOk(s, m);
    if s.mutexes[m].queue != [] && !s.mutexes[m].locked { var t: Tid :| Woken(s, m, t); assert t in s.threads; }
  }

  lemma QueuedContext(s: State, q: QueueId, x: Tid)
    requires Core(s) && x in Queue(s, q)
    ensures x in s.threads && s.threads[x].state.Blocked? && s.threads[x].home == In(q)
    ensures Matches(s.threads[x], q) && Pending(s.threads[x], PcOf(s, x))
    ensures Waits(s.threads[x]) ==> s.threads[x].pc == PcOf(s, x)
  {
    assert QueueOk(s, q) && ThreadOk(s, x);
  }

  /** A thread is blocked exactly when it stands in a wait queue, then in exactly one, once. */
  lemma BlockedIffQueuedOnce(s: State, t: Tid)
    requires Reachable(s) && t in s.threads
    ensures s.threads[t].state.Blocked? <==> exists q: QueueId :: t in Queue(s, q)
    ensures forall p: QueueId, q: QueueId :: t in Queue(s, p) && t in Queue(s, q) ==> p == q
    ensures forall q: QueueId :: Distinct(Queue(s, q))
  {
    ReachableInv(s);
    assert ThreadOk(s, t);
    if s.threads[t].state.Blocked? { assert t in Queue(s, s.threads[t].home.q); }
    forall q: QueueId | t in Queue(s, q) ensures s.threads[t].home == In(q) && s.threads[t].state.Blocked? { QueuedContext(s, q, t); }
    forall q: QueueId ensures Distinct(Queue(s, q)) { assert QueueOk(s, q); }
  }

  /** So waking the head of any queue is never dropped: the thread becomes runnable, last in line. */
  lemma WakeNeverDropped(s: State, q: QueueId)
    requires Reachable(s) && CurrentRuns(s) && HasQueue(s, q) && Queue(s, q) != []
    ensures var s', t := WakeFirst(s, q), Queue(s, q)[0];
            && s'.runq == s.runq + [t] && Queue(s', q) == Queue(s, q)[1..]
            && t in s'.threads && s'.threads[t].state.Runnable? && t !in s.runq
  {
    var t := Queue(s, q)[0];
    ReachableInv(s);
    CoreWakeFirst(s, q);
    assert WakeFirst(s, q).threads[t] == Unblocked(s.threads[t]).(joiners := WakeFirst(s, q).threads[t].joiners);
    assert Queue(WakeFirst(s, q), q) == Queue(s, q)[1..];
  }

  /** At most the current thread runs; the runnable threads are exactly those in the queue, once each. */
  lemma OneRunning(s: State, t: Tid)
    requires Reachable(s) && t in s.threads
    ensures s.threads[t].state.Running? ==> t == s.current
    ensures s.threads[t].state.Runnable? <==> t in s.runq
    ensures Distinct(s.runq)
  {
    ReachableInv(s);
    assert ThreadOk(s, t);
  }

  /** The saved address of an rwlock waiter is overwritten, so no thread ever resumes at an rwlock
      trampoline: a woken waiter goes on at its call site. */
  lemma RwTrampolineUnreached(s: State, t: Tid)
    requires Reachable(s) && t in s.threads
    ensures CurrentRuns(s) ==> s.pc != RD_RESUME && s.pc != WR_RESUME
    ensures t != s.current ==> s.threads[t].pc != RD_RESUME && s.threads[t].pc != WR_RESUME
    ensures forall l :: t in Queue(s, ReadQ(l)) || t in Queue(s, WriteQ(l)) ==> !IsResume(PcOf(s, t))
  {
    ReachableInv(s);
    assert ThreadOk(s, t) && ThreadOk(s, s.current);
    forall l | t in Queue(s, ReadQ(l)) || t in Queue(s, WriteQ(l)) ensures !IsResume(PcOf(s, t)) {
      QueuedContext(s, if t in Queue(s, ReadQ(l)) then ReadQ(l) else WriteQ(l), t);
    }
  }

  lemma LockCoherence(s: State, a: Addr)
    requires Reachable(s)
    ensures a in s.mutexes ==>
              && (s.mutexes[a].locked <==> s.mutexes[a].count > 0)
              && (s.mutexes[a].locked <==> s.mutexes[a].owner != 0)
    ensures a in s.rwlocks ==> s.rwlocks[a].readers == 0 || s.rwlocks[a].writer == 0
    ensures a in s.barriers ==>
              s.barriers[a].waiting == |s.barriers[a].queue| && s.barriers[a].waiting < s.barriers[a].count
  {
    ReachableInv(s);
    assert MutexOk(s, a) && RwOk(s, a) && BarrierOk(s, a);
  }

  // ------------------------------------------------------------------ bounded wait

  /** Step e ran select_next_thread and it returned a thread. */
  predicate Selects(s: State, e: Step)
    requires Enabled(s, e)
  { Do(s, e).1 == SWITCHED && CurrentRuns(Next(s, e)) }

  /** How many of the first n steps selected a thread. */
  function Selections(tr: seq<State>, es: seq<Step>, n: nat): nat
    requires IsTrace(tr, es) && n <= |es|
  {
    if n == 0 then 0 else Selections(tr, es, n - 1) + if Selects(tr[n - 1], es[n - 1]) then 1 else 0
  }

  /** A waiting thread's place only improves: each selection moves it up by one, or picks it. */
  lemma PlaceImproves(s: State, e: Step, k: nat)
    requires Inv(s) && Enabled(s, e) && !Creates(e) && k < |s.runq|
    ensures !Selects(s, e) ==> k < |Next(s, e).runq| && Next(s, e).runq[k] == s.runq[k]
    ensures Selects(s, e) && k == 0 ==> Next(s, e).current == s.runq[0]
    ensures Selects(s, e) && k > 0 ==> k - 1 < |Next(s, e).runq| && Next(s, e).runq[k - 1] == s.runq[k]
  {
    StepInv(s, e);
    var x: seq<Tid> :| Queued(s, x, Next(s, e), Do(s, e).1);
    assert x[k] == s.runq[k];
  }

  lemma {:induction false} TraceInv(tr: seq<State>, es: seq<Step>, n: nat)
    requires IsTrace(tr, es) && Inv(tr[0]) && n < |tr|
    ensures Inv(tr[n])
  {
    if n > 0 { TraceInv(tr, es, n - 1); StepInv(tr[n - 1], es[n - 1]); }
  }

  /** Step i picks the thread that was at place k, as one of the first k + 1 picked. */
  predicate Picks(tr: seq<State>, es: seq<Step>, k: nat, i: nat)
    requires IsTrace(tr, es) && k < |tr[0].runq| && i < |es|
  { Selects(tr[i], es[i]) && tr[i + 1].current == tr[0].runq[k] && Selections(tr, es, i) <= k }

  /** After n steps that thread has moved up once per selection. */
  predicate Placed(tr: seq<State>, es: seq<Step>, k: nat, n: nat)
    requires IsTrace(tr, es) && k < |tr[0].runq| && n <= |es|
  {
    var c := Selections(tr, es, n);
    c <= k && k - c < |tr[n].runq| && tr[n].runq[k - c] == tr[0].runq[k]
  }

  lemma PlaceStep(tr: seq<State>, es: seq<Step>, k: nat, n: nat)
    requires IsTrace(tr, es) && k < |tr[0].runq| && n < |es| && Inv(tr[n]) && !Creates(es[n])
    requires Placed(tr, es, k, n)
    ensures Picks(tr, es, k, n) || Placed(tr, es, k, n + 1)
  {
    PlaceImproves(tr[n], es[n], k - Selections(tr, es, n));
  }

  lemma {:induction false} PlaceAfter(tr: seq<State>, es: seq<Step>, k: nat, n: nat)
    requires IsTrace(tr, es) && Inv(tr[0]) && k < |tr[0].runq| && n <= |es|
    requires forall i :: 0 <= i < n ==> !Creates(es[i])
    ensures Placed(tr, es, k, n) || exists i :: 0 <= i < n && Picks(tr, es, k, i)
  {
    if n > 0 {
      PlaceAfter(tr, es, k, n - 1);
      TraceInv(tr, es, n - 1);
      if Placed(tr, es, k, n - 1) { PlaceStep(tr, es, k, n - 1); }
    }
  }

  /** The thread at place k is among the next k + 1 selected, if nobody calls pthread_create. */
  lemma BoundedWait(tr: seq<State>, es: seq<Step>, k: nat)
    requires IsTrace(tr, es) && Reachable(tr[0]) && k < |tr[0].runq|
    requires forall i :: 0 <= i < |es| ==> !Creates(es[i])
    requires Selections(tr, es, |es|) > k
    ensures exists i :: 0 <= i < |es| && Picks(tr, es, k, i)
  {
    ReachableInv(tr[0]);
    PlaceAfter(tr, es, k, |es|);
  }
}
