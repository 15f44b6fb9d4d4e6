/**
 Joining over whole runs: a join returns only after its target has exited, and with the value the
 target exited with.
 */
module SchedulerJoins {
  import opened Scheduler
  import opened SchedulerCore
  import opened SchedulerSteps
  import opened SchedulerLocks
  import opened SchedulerRuns
  import opened SchedulerMeaning

  /** t existed and has exited. */
  predicate Gone(s: State, t: Tid) { t < s.nextTid && (t !in s.threads || s.threads[t].state.Terminated?) }

  /** A thread on its way out of a join has a target that has exited. */
  predicate JoinOk(s: State, u: Tid) {
    u in s.threads && s.threads[u].joinTarget != 0 && !s.threads[u].state.Blocked? ==> Gone(s, s.threads[u].joinTarget)
  }

  // ------------------------------------------------------------------ what a step may do to a join

  /** u leaves a join queue only because its target has exited. */
  predicate WakeOk(s: State, s': State, u: Tid) {
    u in s'.threads && s'.threads[u].joinTarget != 0 && !s'.threads[u].state.Blocked? ==>
      || (u in s.threads && s.threads[u].joinTarget == s'.threads[u].joinTarget && !s.threads[u].state.Blocked?)
      || Gone(s', s'.threads[u].joinTarget)
  }

  /** The dead stay dead, with their value, until they are reaped; no id is used twice. */
  predicate DeadOk(s: State, s': State, t: Tid) {
    && s.nextTid <= s'.nextTid
    && (t !in s.threads && t < s.nextTid ==> t !in s'.threads)
    && (t in s.threads && s.threads[t].state.Terminated? && t in s'.threads ==>
          s'.threads[t].state.Terminated? && s'.threads[t].retval == s.threads[t].retval)
  }

  ghost predicate Joins(s: State, s': State) {
    (forall u: Tid {:trigger WakeOk(s, s', u)} :: WakeOk(s, s', u)) && (forall t: Tid {:trigger DeadOk(s, s', t)} :: DeadOk(s, s', t))
  }

  lemma JoinsTwice(s: State, s1: State, s2: State)
    requires Core(s) && Joins(s, s1) && Joins(s1, s2)
    ensures Joins(s, s2)
  {
    forall u: Tid ensures WakeOk(s, s2, u) {
      assert WakeOk(s1, s2, u) && WakeOk(s, s1, u);
      if u in s2.threads { assert DeadOk(s1, s2, s2.threads[u].joinTarget); }
    }
    forall t: Tid ensures DeadOk(s, s2, t) { assert DeadOk(s, s1, t) && DeadOk(s1, s2, t) && ThreadOk(s, t); }
  }

  lemma SameThreads(s: State, s': State)
    requires s'.threads == s.threads && s'.nextTid == s.nextTid
    ensures Joins(s, s')
  {
  }

  /** Only the running thread's record changed, and not its join. */
  lemma OwnRecord(s: State, s': State, th: Thread)
    requires CurrentRuns(s) && s'.threads == s.threads[s.current := th] && s'.nextTid == s.nextTid
    requires th.joinTarget == 0 || th.joinTarget == s.threads[s.current].joinTarget
    ensures Joins(s, s')
  {
  }

  lemma KeptJoins(s: State, s': State)
    requires SameButQueues(s, s')
    ensures Joins(s, s')
  {
    forall u: Tid ensures WakeOk(s, s', u) && DeadOk(s, s', u) { assert Kept(s, s', u); }
  }

  /** A thread in a queue other than a join queue is not joining. */
  lemma NotJoining(s: State, q: QueueId, u: Tid)
    requires Core(s) && u in Queue(s, q) && !q.JoinQ?
    ensures u in s.threads && s.threads[u].joinTarget == 0 && s.threads[u].state.Blocked?
  {
    assert QueueOk(s, q) && ThreadOk(s, u);
  }

  lemma PoppedJoins(s: State, q: QueueId, s': State)
    requires Core(s) && Popped(s, q, s') && !q.JoinQ?
    ensures Joins(s, s')
  {
    var t := Queue(s, q)[0];
    NotJoining(s, q, t);
    forall u: Tid ensures WakeOk(s, s', u) && DeadOk(s, s', u) {
      if u in s.threads { assert s'.threads[u].joinTarget == s.threads[u].joinTarget; }
    }
  }

  lemma DrainedJoins(s: State, q: QueueId, s': State)
    requires Core(s) && Drained(s, q, s') && !q.JoinQ?
    ensures Joins(s, s')
  {
    forall u: Tid ensures WakeOk(s, s', u) && DeadOk(s, s', u) {
      if u in Queue(s, q) { NotJoining(s, q, u); }
      if u in s.threads { assert s'.threads[u].joinTarget == s.threads[u].joinTarget; }
    }
  }

  lemma ParksJoins(s: State, q: QueueId, at: Addr, s': State)
    requires CurrentRuns(s) && Parks(s, q, at, s')
    ensures Joins(s, s')
  {
    forall u: Tid ensures WakeOk(s, s', u) && DeadOk(s, s', u) { if u != s.current { assert Kept(s, s', u); } }
  }

  lemma ExitJoins(s: State, v: nat, s': State)
    requires Core(s) && InGuest(s) && ExitMeans(s, v, s')
    ensures Joins(s, s')
  {
    GuestContext(s);
    forall u: Tid ensures WakeOk(s, s', u) && DeadOk(s, s', u) {
      if u in Queue(s, JoinQ(s.current)) { assert QueueOk(s, JoinQ(s.current)) && ThreadOk(s, u); }
      else if u != s.current { assert Kept(s, s', u); }
    }
  }

  // ------------------------------------------------------------------ steps

  lemma ThreadOpJoins(s: State, op: Op, due: seq<Tid>)
    requires Core(s) && InGuest(s) && (op.Create? || op.Join? || op.Detach? || op.Exit? || op.Sleep?)
    ensures Joins(s, Perform(s, op, due).0)
  {
    var s' := Perform(s, op, due).0;
    match op
    case Create(entry) => UsedIds(s);
    case Join(t) =>
      JoinMeaning(s, t, due);
      if Perform(s, op, due).1 == SWITCHED { ParksJoins(s, JoinQ(t), JOIN_RESUME, s'); }
    case Detach(t) =>
    case Exit(v) => ExitMeaning(s, v, due); ExitJoins(s, v, s');
    case Sleep => SleepJoins(s, due);
  }

  lemma SleepJoins(s: State, due: seq<Tid>)
    requires Core(s) && InGuest(s)
    ensures Joins(s, DoSleep(s, due).0)
  {
    var th := s.threads[s.current].(state := Sleeping);
    var s1 := SetThread(s, s.current, th);
    GuestContext(s);
    CoreSetCurrent(s, th, s.pc);
    assert s1 == SetThread(s, s.current, th).(pc := s.pc);
    OwnRecord(s, s1, th);
    SwitchJoins(s1, due);
    JoinsTwice(s, s1, DoSleep(s, due).0);
  }

  lemma SwitchJoins(s: State, due: seq<Tid>)
    requires Core(s)
    ensures Joins(s, Switch(s, due))
  {
    SwitchKeepsThreads(s, due);
    KeptJoins(s, Switch(s, due));
  }

  lemma UnlockJoins(s: State, m: Addr, s': State, code: int)
    requires Core(s) && UnlockMeans(s, m, s', code)
    ensures Joins(s, s')
  {
    if Popped(s, MutexQ(m), s') { PoppedJoins(s, MutexQ(m), s'); } else { SameThreads(s, s'); }
  }

  lemma CondWaitJoins(s: State, c: Addr, m: Addr, due: seq<Tid>)
    requires Inv(s) && InGuest(s) && m != 0
    ensures Joins(s, DoCondWait(s, c, m, due).0)
  {
    var s' := DoCondWait(s, c, m, due).0;
    CondWaitMeaning(s, c, m, due);
    var s1: State, code :| UnlockMeans(s, m, s1, code) && Parks(s1, CondQ(c), COND_RESUME, s');
    UnlockJoins(s, m, s1, code);
    if Popped(s, MutexQ(m), s1) { PoppedRuns(s, MutexQ(m), s1); }
    ParksJoins(s1, CondQ(c), COND_RESUME, s');
    JoinsTwice(s, s1, s');
  }

  lemma PoppedRuns(s: State, q: QueueId, s': State)
    requires Core(s) && CurrentRuns(s) && Popped(s, q, s')
    ensures CurrentRuns(s')
  {
    assert QueueOk(s, q) && ThreadOk(s, s.current);
    assert s'.threads[s.current].state == s.threads[s.current].state;
  }

  lemma MutexOpJoins(s: State, op: Op, due: seq<Tid>)
    requires Inv(s) && InGuest(s) && Usage(s, op) && (op.MutexLock? || op.TryLock? || op.Unlock? || op.CondWait?)
    ensures Joins(s, Perform(s, op, due).0)
  {
    var (s', code) := Perform(s, op, due);
    match op
    case MutexLock(m, kind) =>
      GuestContext(s);
      LockMeaning(s, m, kind, due);
      if code == 0 { SameThreads(s, s'); } else { ParksJoins(s, MutexQ(m), MUTEX_RESUME, s'); }
    case TryLock(m) => TryLockMeaning(s, m); SameThreads(s, s');
    case Unlock(m) => assert MutexOk(s, m); UnlockMeaning(s, m); UnlockJoins(s, m, s', code);
    case CondWait(c, m) => CondWaitJoins(s, c, m, due);
  }

  lemma RwOpJoins(s: State, op: Op, due: seq<Tid>)
    requires Core(s) && InGuest(s)
    requires op.ReadLock? || op.TryReadLock? || op.WriteLock? || op.TryWriteLock? || op.RwUnlock?
    ensures Joins(s, Perform(s, op, due).0)
  {
    match op
    case ReadLock(l) => ReadLockJoins(s, l, due);
    case WriteLock(l) => WriteLockJoins(s, l, due);
    case TryReadLock(l) => TryRwJoins(s, l);
    case TryWriteLock(l) => TryRwJoins(s, l);
    case RwUnlock(l) => RwUnlockJoins(s, l);
  }

  lemma TryRwJoins(s: State, l: Addr)
    ensures Joins(s, DoTryReadLock(s, l).0) && Joins(s, DoTryWriteLock(s, l).0)
  {
    TryReadLockMeaning(s, l);
    SameThreads(s, DoTryReadLock(s, l).0);
    TryWriteLockMeaning(s, l);
    SameThreads(s, DoTryWriteLock(s, l).0);
  }

  lemma ReadLockJoins(s: State, l: Addr, due: seq<Tid>)
    requires Core(s) && InGuest(s)
    ensures Joins(s, DoReadLock(s, l, due).0)
  {
    ReadLockMeaning(s, l, due);
    var (s', code) := DoReadLock(s, l, due);
    if code == 0 { SameThreads(s, s'); } else { ParksJoins(s, ReadQ(l), s.pc, s'); }
  }

  lemma WriteLockJoins(s: State, l: Addr, due: seq<Tid>)
    requires Core(s) && InGuest(s)
    ensures Joins(s, DoWriteLock(s, l, due).0)
  {
    WriteLockMeaning(s, l, due);
    var (s', code) := DoWriteLock(s, l, due);
    if code == 0 { SameThreads(s, s'); } else { ParksJoins(s, WriteQ(l), s.pc, s'); }
  }

  lemma RwUnlockJoins(s: State, l: Addr)
    requires Core(s) && InGuest(s)
    ensures Joins(s, DoRwUnlock(s, l).0)
  {
    var s' := DoRwUnlock(s, l).0;
    RwUnlockMeaning(s, l);
    if Popped(s, WriteQ(l), s') { PoppedJoins(s, WriteQ(l), s'); }
    else if Drained(s, ReadQ(l), s') { DrainedJoins(s, ReadQ(l), s'); }
    else { SameThreads(s, s'); }
  }

  lemma CondOpJoins(s: State, c: Addr)
    requires Core(s) && InGuest(s)
    ensures Joins(s, DoSignal(s, c).0) && Joins(s, DoBroadcast(s, c).0)
  {
    SignalMeaning(s, c);
    var s' := DoSignal(s, c).0;
    if s' == s { SameThreads(s, s'); } else { PoppedJoins(s, CondQ(c), s'); }
    DrainedJoins(s, CondQ(c), DoBroadcast(s, c).0);
  }

  lemma BarrierJoins(s: State, b: Addr, due: seq<Tid>)
    requires Inv(s) && InGuest(s) && b != 0
    ensures Joins(s, DoBarrierWait(s, b, due).0)
  {
    BarrierWaitMeaning(s, b, due);
    var (s', code) := DoBarrierWait(s, b, due);
    if code == SERIAL_THREAD { DrainedJoins(s, BarrierQ(b), s'); } else { ParksJoins(s, BarrierQ(b), BARRIER_RESUME, s'); }
  }

  predicate Records(op: Op) {
    || op.MutexInit? || op.MutexDestroy? || op.CondInit? || op.CondDestroy? || op.RwInit? || op.RwDestroy?
    || op.BarrierInit? || op.BarrierDestroy?
  }

  lemma OpJoins(s: State, op: Op, due: seq<Tid>)
    requires Inv(s) && InGuest(s) && Usage(s, op)
    ensures Joins(s, Perform(s, op, due).0)
  {
    if Records(op) { SameThreads(s, Perform(s, op, due).0); }
    else if op.Create? || op.Join? || op.Detach? || op.Exit? || op.Sleep? { ThreadOpJoins(s, op, due); }
    else if op.MutexLock? || op.TryLock? || op.Unlock? || op.CondWait? { MutexOpJoins(s, op, due); }
    else if op.Signal? || op.Broadcast? { CondOpJoins(s, op.c); }
    else if op.BarrierWait? { BarrierJoins(s, op.b, due); }
    else { RwOpJoins(s, op, due); }
  }

  lemma ResumeJoins(s: State, at: Addr, due: seq<Tid>)
    requires Inv(s) && Enabled(s, Resume(at, due))
    ensures Joins(s, ResumeAt(s, at, due).0)
  {
    var (s', code) := ResumeAt(s, at, due);
    var th := s.threads[s.current];
    assert ThreadOk(s, s.current);
    if s.pc == MUTEX_RESUME {
      ResumeLockMeaning(s, at, due);
      if code == 0 { OwnRecord(s, s', th.(mutexWait := 0)); } else { ParksJoins(s, MutexQ(th.mutexWait), MUTEX_RESUME, s'); }
    } else if s.pc == COND_RESUME {
      ResumeCondMeaning(s, at, due);
      if code == 0 { OwnRecord(s, s', th.(condMutex := 0)); } else { ParksJoins(s, MutexQ(th.condMutex), MUTEX_RESUME, s'); }
    } else if s.pc == JOIN_RESUME {
      Reaped(s, s', th.(joinTarget := 0), th.joinTarget);
    } else {
      OwnRecord(s, s', th.(barrierWait := 0));
    }
  }

  /** The running thread reaps t, if it has terminated. */
  lemma Reaped(s: State, s': State, th: Thread, t: Tid)
    requires CurrentRuns(s) && s'.nextTid == s.nextTid && th.joinTarget == 0
    requires s'.threads == s.threads[s.current := th] || s'.threads == s.threads[s.current := th] - {t}
    ensures Joins(s, s')
  {
  }

  lemma StepJoins(s: State, e: Step)
    requires Inv(s) && Enabled(s, e)
    ensures Joins(s, Next(s, e))
  {
    match e
    case Guest(op, at, due) =>
      var s0 := s.(pc := at);
      CoreAt(s, at);
      LocksAt(s, at);
      OpJoins(s0, op, due);
      FromHere(s, s0, Next(s, e));
    case Resume(at, due) => ResumeJoins(s, at, due);
    case Preempt(due) => SwitchJoins(s, due);
  }

  lemma FromHere(s: State, s0: State, s': State)
    requires s0.threads == s.threads && s0.nextTid == s.nextTid && Joins(s0, s')
    ensures Joins(s, s')
  {
    forall u: Tid ensures WakeOk(s, s', u) && DeadOk(s, s', u) { assert WakeOk(s0, s', u) && DeadOk(s0, s', u); }
  }

  // ------------------------------------------------------------------ runs

  lemma {:induction false} JoinRuns(tr: seq<State>, es: seq<Step>, i: nat, u: Tid)
    requires IsRun(tr, es) && i < |tr|
    ensures JoinOk(tr[i], u)
  {
    if i > 0 {
      JoinRuns(tr, es, i - 1, u);
      RunInv(tr, es, i - 1);
      StepJoins(tr[i - 1], es[i - 1]);
      assert WakeOk(tr[i - 1], tr[i], u);
      if u in tr[i].threads { assert DeadOk(tr[i - 1], tr[i], tr[i].threads[u].joinTarget); }
    }
  }

  /** In every run a thread that has left a join queue, and in particular one that resumes its join, has
      a target that has exited. */
  lemma JoinAfterExit(tr: seq<State>, es: seq<Step>, i: nat)
    requires IsRun(tr, es) && i < |tr| && CurrentRuns(tr[i]) && tr[i].pc == JOIN_RESUME
    ensures var t := tr[i].threads[tr[i].current].joinTarget;
            t != 0 && Gone(tr[i], t)
  {
    RunInv(tr, es, i);
    assert ThreadOk(tr[i], tr[i].current);
    JoinRuns(tr, es, i, tr[i].current);
  }

  /** What a thread exits with is what is there to be joined for as long as it has not been reaped. */
  lemma {:induction false} ValueKept(tr: seq<State>, es: seq<Step>, i: nat, j: nat, t: Tid)
    requires IsRun(tr, es) && i <= j < |tr| && t in tr[i].threads && tr[i].threads[t].state.Terminated? && t in tr[j].threads
    ensures tr[j].threads[t].state.Terminated? && tr[j].threads[t].retval == tr[i].threads[t].retval
  {
    if i < j {
      RunInv(tr, es, j - 1);
      StepJoins(tr[j - 1], es[j - 1]);
      assert DeadOk(tr[j - 1], tr[j], t);
      StaysOut(tr, es, i, j - 1, t);
      ValueKept(tr, es, i, j - 1, t);
    }
  }

  /** A thread id that is out of use stays so. */
  lemma {:induction false} StaysOut(tr: seq<State>, es: seq<Step>, i: nat, j: nat, t: Tid)
    requires IsRun(tr, es) && i <= j < |tr| && t in tr[i].threads
    ensures t < tr[j].nextTid
  {
    if i == j {
      RunInv(tr, es, i);
      assert ThreadOk(tr[i], t);
    } else {
      StaysOut(tr, es, i, j - 1, t);
      RunInv(tr, es, j - 1);
      StepJoins(tr[j - 1], es[j - 1]);
      assert DeadOk(tr[j - 1], tr[j], t);
    }
  }

  /** The value a join delivers is the one its target's exit was given: a thread calls exit with v at
      step i, and while it has not been reaped whoever joins it finds v. */
  lemma JoinDeliversExit(tr: seq<State>, es: seq<Step>, i: nat, j: nat)
    requires IsRun(tr, es) && i < j < |tr| && es[i].Guest? && es[i].op.Exit? && tr[i].current in tr[j].threads
    ensures var th := tr[j].threads[tr[i].current];
            th.state.Terminated? && th.retval == es[i].op.v
  {
    RunInv(tr, es, i);
    var s, e := tr[i], es[i];
    CoreAt(s, e.at);
    ExitMeaning(s.(pc := e.at), e.op.v, e.due);
    ValueKept(tr, es, i + 1, j, s.current);
  }
}
