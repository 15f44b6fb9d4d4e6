/**
 What an object was initialised with lasts: the type of a mutex until it is initialised again or
 destroyed, the count of a barrier likewise.
 */
module SchedulerTypes {
  import opened Bits
  import opened Scheduler
  import opened SchedulerCore
  import opened SchedulerSteps
  import opened SchedulerLocks
  import opened SchedulerRuns
  import opened SchedulerBalance
  import opened SchedulerMeaning

  // ------------------------------------------------------------------ mutex types

  predicate HasKind(s: State, m: Addr, kind: int) { m in s.mutexes && s.mutexes[m].kind == kind }

  predicate SameKind(s: State, s': State, m: Addr) { m in s.mutexes ==> HasKind(s', m, s.mutexes[m].kind) }

  lemma ParkKind(s: State, q: QueueId, th: Thread, on: nat, due: seq<Tid>, m: Addr)
    requires HasQueue(s, q) && s.current in s.threads
    ensures SameKind(s, Switch(EnqueueOnce(s, q, th, on), due), m) && SameKind(s, Switch(Enqueue(s, q, th, on), due), m)
  {
    SwitchKeeps(EnqueueOnce(s, q, th, on), due);
    SwitchKeeps(Enqueue(s, q, th, on), due);
  }

  lemma LockKind(s: State, k: Addr, kind: int, due: seq<Tid>, m: Addr)
    requires s.current in s.threads
    ensures SameKind(s, DoMutexLock(s, k, kind, due).0, m)
    ensures k !in s.mutexes ==> HasKind(DoMutexLock(s, k, kind, due).0, k, kind)
  {
    var s1 := FindMutex(s, k, kind);
    ParkKind(s1, MutexQ(k), s1.threads[s1.current].(mutexWait := k, pc := MUTEX_RESUME), k, due, m);
  }

  lemma UnlockKind(s: State, k: Addr, m: Addr)
    ensures SameKind(s, DoUnlock(s, k).0, m)
  {
  }

  lemma TryLockKind(s: State, k: Addr, m: Addr)
    ensures SameKind(s, DoTryLock(s, k).0, m)
  {
  }

  lemma CondWaitKind(s: State, c: Addr, k: Addr, due: seq<Tid>, m: Addr)
    requires s.current in s.threads
    ensures SameKind(s, DoCondWait(s, c, k, due).0, m)
  {
    var s0 := FindCond(s, c);
    UnlockKind(s0, k, m);
    var s1 := DoUnlock(s0, k).0;
    if s1.current in s1.threads && c in s1.conds {
      ParkKind(s1, CondQ(c), s1.threads[s1.current].(condMutex := k, pc := COND_RESUME), c, due, m);
    }
  }

  lemma ResumeKind(s: State, at: Addr, due: seq<Tid>, m: Addr)
    requires s.current in s.threads
    ensures SameKind(s, ResumeAt(s, at, due).0, m)
  {
    var th := s.threads[s.current];
    LockKind(SetThread(s, s.current, th.(condMutex := 0)), th.condMutex, 0, due, m);
    MutexResumeKind(s, at, due, m);
  }

  lemma MutexResumeKind(s: State, at: Addr, due: seq<Tid>, m: Addr)
    requires s.current in s.threads
    ensures SameKind(s, MutexResume(s, at, due).0, m)
  {
    var th := s.threads[s.current];
    var k, s1 := th.mutexWait, SetThread(s, s.current, th.(mutexWait := 0));
    if k in s1.mutexes { ParkKind(s1, MutexQ(k), s1.threads[s1.current].(mutexWait := k, pc := MUTEX_RESUME), k, due, m); }
  }

  lemma StepKind(s: State, e: Step, m: Addr)
    requires Enabled(s, e) && !Resets(e, m)
    ensures SameKind(s, Next(s, e), m)
  {
    match e
    case Guest(op, at, due) => OpKind(s.(pc := at), op, due, m);
    case Resume(at, due) => ResumeKind(s, at, due, m);
    case Preempt(due) => SwitchKeeps(s, due);
  }

  lemma OpKind(s: State, op: Op, due: seq<Tid>, m: Addr)
    requires s.current in s.threads && ((op.MutexInit? || op.MutexDestroy?) ==> op.m != m)
    ensures SameKind(s, Perform(s, op, due).0, m)
  {
    if IsMutexOp(op) { MutexOpKind(s, op, due, m); } else { OpKeeps(s, op, due); }
  }

  lemma MutexOpKind(s: State, op: Op, due: seq<Tid>, m: Addr)
    requires s.current in s.threads && IsMutexOp(op) && ((op.MutexInit? || op.MutexDestroy?) ==> op.m != m)
    ensures SameKind(s, Perform(s, op, due).0, m)
  {
    match op
    case MutexLock(k, kind) => LockKind(s, k, kind, due, m);
    case Unlock(k) => UnlockKind(s, k, m);
    case CondWait(c, k) => CondWaitKind(s, c, k, due, m);
    case TryLock(k) => TryLockKind(s, k, m);
    case MutexInit(k, kind) =>
    case MutexDestroy(k) =>
  }

  /** The type a mutex has at one point of a trace it has at every later one, until it is reset. */
  lemma {:induction false} KindLasts(tr: seq<State>, es: seq<Step>, i: nat, j: nat, m: Addr, kind: int)
    requires IsTrace(tr, es) && i <= j < |tr| && HasKind(tr[i], m, kind) && forall k :: i <= k < j ==> !Resets(es[k], m)
    ensures HasKind(tr[j], m, kind)
  {
    if i < j {
      KindLasts(tr, es, i, j - 1, m, kind);
      StepKind(tr[j - 1], es[j - 1], m);
    }
  }

  /** The step gives m its type: mutex_init, or the first lock of a statically initialised mutex. */
  predicate Types(s: State, e: Step, m: Addr, kind: int) {
    e.Guest? && (e.op == MutexInit(m, kind) || (e.op == MutexLock(m, kind) && m !in s.mutexes))
  }

  lemma TypesGive(s: State, e: Step, m: Addr, kind: int)
    requires Enabled(s, e) && Types(s, e, m, kind)
    ensures HasKind(Next(s, e), m, kind)
  {
    if e.op.MutexLock? { LockKind(s.(pc := e.at), m, kind, e.due, m); }
  }

  /** Recursion by trylock is granted exactly if that type was 1. */
  lemma TryLockReadsType(tr: seq<State>, es: seq<Step>, i: nat, j: nat, m: Addr, kind: int)
    requires IsRun(tr, es) && i < j < |es| && Types(tr[i], es[i], m, kind) && forall k :: i < k < j ==> !Resets(es[k], m)
    requires es[j].Guest? && es[j].op == TryLock(m) && Count(tr[j], m) > 0 && Owner(tr[j], m) == tr[j].current
    ensures Do(tr[j], es[j]).1 == 0 <==> kind == 1
  {
    TypesGive(tr[i], es[i], m, kind);
    KindLasts(tr, es, i + 1, j, m, kind);
    RunInv(tr, es, j);
    CoreAt(tr[j], es[j].at);
    LocksAt(tr[j], es[j].at);
    TryLockMeaning(tr[j].(pc := es[j].at), m);
  }

  // ------------------------------------------------------------------ barrier counts

  /** barrier_init: EINVAL for zero; else nobody has arrived and n are awaited. */
  lemma BarrierInitMeaning(s: State, b: Addr, n: nat)
    ensures var (s', code) := DoBarrierInit(s, b, n);
            if n == 0 then code == EINVAL && s' == s
            else code == 0 && BarrierOf(s', b).count == n && BarrierOf(s', b).waiting == 0
                 && forall a :: a != b ==> BarrierOf(s', a) == BarrierOf(s, a)
  {
  }

  /** barrier_destroy: refused exactly while threads wait. */
  lemma BarrierDestroyMeaning(s: State, b: Addr)
    requires Inv(s)
    ensures var (s', code) := DoBarrierDestroy(s, b);
            && code == (if b !in s.barriers then EINVAL else if Queue(s, BarrierQ(b)) != [] then EBUSY else 0)
            && (code != 0 ==> s' == s) && (code == 0 ==> s' == s.(barriers := s.barriers - {b}))
  {
    assert BarrierOk(s, b);
  }

  lemma SerialIffLast(s: State, e: Step, b: Addr)
    requires Inv(s) && Enabled(s, e) && Arrives(e, b)
    ensures Serial(s, e, b) <==> BarrierOf(s, b).waiting + 1 == BarrierOf(s, b).count
  {
    assert BarrierOk(s, b);
    StepArrivals(s, e, b);
    StepInv(s, e);
    assert BarrierOk(Next(s, e), b);
  }

  /** a is a multiple of n. */
  predicate MultipleOf(a: nat, n: nat)
    requires n > 0
  { if a < n then a == 0 else MultipleOf(a - n, n) }

  lemma {:induction false} MultipleIsRemainder(a: nat, n: nat)
    requires n > 0
    ensures MultipleOf(a, n) <==> a % n == 0
  {
    if a < n {
      ModUnique(a, n, 0, a);
    } else {
      MultipleIsRemainder(a - n, n);
      var q, r := (a - n) / n, (a - n) % n;
      assert a == (q + 1) * n + r;
      ModUnique(a, n, q + 1, r);
    }
  }

  lemma NextMultiple(q: nat, n: nat, w: nat, a: nat)
    requires w < n && a == q * n + w
    ensures MultipleOf(a + 1, n) <==> w + 1 == n
  {
    MultipleIsRemainder(a + 1, n);
    if w + 1 == n {
      assert a + 1 == (q + 1) * n + 0;
      ModUnique(a + 1, n, q + 1, 0);
    } else {
      ModUnique(a + 1, n, q, w + 1);
    }
  }

  /** y is reached from x, where nobody waits, by a arrivals. */
  lemma LastOfMany(x: Barrier, y: Barrier, a: nat)
    requires ArrivalsAdd(x, y, a) && x.waiting == 0 && y.waiting < y.count
    ensures x.count > 0 && (MultipleOf(a + 1, x.count) <==> y.waiting + 1 == y.count)
  {
    NextMultiple(y.generation - x.generation, x.count, y.waiting, a);
  }

  /** From a barrier nobody waits at, exactly every n-th arrival is the serial one. */
  lemma EveryNthIsSerial(tr: seq<State>, es: seq<Step>, b: Addr, k: nat)
    requires IsTrace(tr, es) && Inv(tr[0]) && k < |es| && Arrives(es[k], b) && BarrierOf(tr[0], b).waiting == 0
    requires forall i :: 0 <= i < k ==> !Rebuilds(es[i], b)
    ensures BarrierOf(tr[0], b).count > 0
    ensures Serial(tr[k], es[k], b) <==> MultipleOf(Arrivals(es, b, k) + 1, BarrierOf(tr[0], b).count)
  {
    ArrivalAt(tr, es, b, k);
    LastWhenMultiple(tr, es, b, k);
  }

  lemma LastWhenMultiple(tr: seq<State>, es: seq<Step>, b: Addr, k: nat)
    requires IsTrace(tr, es) && Inv(tr[0]) && k < |es| && BarrierOf(tr[0], b).waiting == 0
    requires BarrierOf(tr[k], b).waiting < BarrierOf(tr[k], b).count && forall i :: 0 <= i < k ==> !Rebuilds(es[i], b)
    ensures var n := BarrierOf(tr[0], b).count;
            n > 0 && (MultipleOf(Arrivals(es, b, k) + 1, n) <==> BarrierOf(tr[k], b).waiting + 1 == BarrierOf(tr[k], b).count)
  {
    BarrierBalance(tr, es, b, k);
    LastOfMany(BarrierOf(tr[0], b), BarrierOf(tr[k], b), Arrivals(es, b, k));
  }

  lemma ArrivalAt(tr: seq<State>, es: seq<Step>, b: Addr, k: nat)
    requires IsTrace(tr, es) && Inv(tr[0]) && k < |es| && Arrives(es[k], b)
    ensures BarrierOf(tr[k], b).waiting < BarrierOf(tr[k], b).count
    ensures Serial(tr[k], es[k], b) <==> BarrierOf(tr[k], b).waiting + 1 == BarrierOf(tr[k], b).count
  {
    TraceInv(tr, es, k);
    assert BarrierOk(tr[k], b);
    SerialIffLast(tr[k], es[k], b);
  }

  /** After barrier_init(b, n) in a reachable state, however the run goes on, exactly every n-th wait is
      the serial one. */
  lemma InitialisedCount(s: State, e: Step, tr: seq<State>, es: seq<Step>, k: nat, b: Addr, n: nat)
    requires Reachable(s) && Enabled(s, e) && e.Guest? && e.op == BarrierInit(b, n) && n > 0
    requires IsTrace(tr, es) && tr[0] == Next(s, e) && k < |es| && Arrives(es[k], b)
    requires forall j :: 0 <= j < k ==> !Rebuilds(es[j], b)
    ensures Serial(tr[k], es[k], b) <==> MultipleOf(Arrivals(es, b, k) + 1, n)
  {
    ReachableInv(s);
    StepInv(s, e);
    InitGives(s, e, b, n);
    EveryNthIsSerial(tr, es, b, k);
  }

  lemma InitGives(s: State, e: Step, b: Addr, n: nat)
    requires Enabled(s, e) && e.Guest? && e.op == BarrierInit(b, n) && n > 0
    ensures BarrierOf(Next(s, e), b).count == n && BarrierOf(Next(s, e), b).waiting == 0
  {
    BarrierInitMeaning(s.(pc := e.at), b, n);
  }
}
