/**
 Conservation over whole runs: a mutex's lock_count is acquisitions minus unlocks, and a
 barrier's arrivals are generations times count plus those waiting.
 */
module SchedulerBalance {
  import opened Scheduler
  import opened SchedulerCore
  import opened SchedulerSteps
  import opened SchedulerLocks
  import opened SchedulerRuns

  // ------------------------------------------------------------------ mutexes

  /** Who holds m and how often. */
  function Owner(s: State, m: Addr): Tid { if m in s.mutexes then s.mutexes[m].owner else 0 }

  function Count(s: State, m: Addr): nat { if m in s.mutexes then s.mutexes[m].count else 0 }

  predicate SameHold(s: State, s': State, m: Addr) { Owner(s', m) == Owner(s, m) && Count(s', m) == Count(s, m) }

  /** The step completes an acquisition of m: by lock, by trylock, or by a resume trampoline. */
  predicate Takes(s: State, e: Step, m: Addr)
    requires Enabled(s, e)
  {
    && Do(s, e).1 == 0
    && match e
       case Guest(op, _, _) => (op.MutexLock? || op.TryLock?) && op.m == m
       case Resume(_, _) =>
         || (s.pc == MUTEX_RESUME && s.threads[s.current].mutexWait == m && m in s.mutexes)
         || (s.pc == COND_RESUME && s.threads[s.current].condMutex == m)
       case Preempt(_) => false
  }

  /** The step successfully unlocks m, directly or on the way into a condition wait. */
  predicate Drops(s: State, e: Step, m: Addr) {
    e.Guest? && ((e.op.Unlock? && e.op.m == m) || (e.op.CondWait? && e.op.m == m)) && DoUnlock(s, m).1 == 0
  }

  predicate Resets(e: Step, m: Addr) {
    e.Guest? && (e.op.MutexInit? || e.op.MutexDestroy?) && e.op.m == m
  }

  /** A step neither takes nor drops m unless it is one of these; a taker finds m free or its own. */
  ghost predicate Balanced(s: State, e: Step, m: Addr)
    requires Enabled(s, e)
  {
    var s' := Next(s, e);
    if Takes(s, e, m) then
      && (Count(s, m) == 0 || Owner(s, m) == s.current)
      && Count(s', m) == Count(s, m) + 1 && Owner(s', m) == s.current
    else if Drops(s, e, m) then
      && Count(s, m) > 0 && Count(s', m) == Count(s, m) - 1
      && (Count(s', m) > 0 ==> Owner(s', m) == Owner(s, m))
    else SameHold(s, s', m)
  }

  lemma SwitchHold(s: State, due: seq<Tid>, m: Addr)
    ensures SameHold(s, Switch(s, due), m)
  {
    if s.current in s.threads { SwitchDrift(s, due, s.current); }
  }

  lemma SetQueueHold(s: State, q: QueueId, v: seq<Tid>, ts: seq<Tid>, m: Addr)
    requires HasQueue(s, q)
    ensures SameHold(s, UnblockEach(SetQueue(s, q, v), ts), m)
  {
    UnblockEachLocks(SetQueue(s, q, v), ts, s.current);
  }

  lemma WakeFirstHold(s: State, q: QueueId, m: Addr)
    requires HasQueue(s, q) && Queue(s, q) != []
    ensures SameHold(s, WakeFirst(s, q), m)
  {
    var s1, t := SetQueue(s, q, Queue(s, q)[1..]), Queue(s, q)[0];
    assert UnblockEach(s1, [t]) == UnblockEach(Unblock(s1, t), []);
    SetQueueHold(s, q, Queue(s, q)[1..], [t], m);
  }

  lemma ParkHold(s: State, q: QueueId, th: Thread, on: nat, due: seq<Tid>, m: Addr)
    requires HasQueue(s, q) && s.current in s.threads
    ensures SameHold(s, Switch(EnqueueOnce(s, q, th, on), due), m)
  {
    SwitchHold(EnqueueOnce(s, q, th, on), due, m);
  }

  lemma UnlockHold(s: State, k: Addr, m: Addr)
    ensures var (s', code) := DoUnlock(s, k);
            if k == m && code == 0 then
              Count(s, m) > 0 && Count(s', m) == Count(s, m) - 1 && (Count(s', m) > 0 ==> Owner(s', m) == Owner(s, m))
            else SameHold(s, s', m)
  {
    if k in s.mutexes && s.mutexes[k].locked && s.mutexes[k].count == 1 && s.mutexes[k].queue != [] {
      var s1 := SetMutex(s, k, s.mutexes[k].(locked := false, owner := 0, count := 0));
      WakeFirstHold(s1, MutexQ(k), m);
    }
  }

  lemma LockHold(s: State, k: Addr, kind: int, due: seq<Tid>, m: Addr)
    requires s.current in s.threads && (forall a: Addr {:trigger MutexOk(s, a)} :: MutexOk(s, a))
    ensures var (s', code) := DoMutexLock(s, k, kind, due);
            if k == m && code == 0 then
              && (Count(s, m) == 0 || Owner(s, m) == s.current)
              && Count(s', m) == Count(s, m) + 1 && Owner(s', m) == s.current
            else SameHold(s, s', m)
  {
    assert MutexOk(s, k);
    var s1 := FindMutex(s, k, kind);
    if Contended(s, k) {
      ParkHold(s1, MutexQ(k), s1.threads[s1.current].(mutexWait := k, pc := MUTEX_RESUME), k, due, m);
    }
  }

  lemma MutexResumeHold(s: State, at: Addr, due: seq<Tid>, m: Addr)
    requires s.current in s.threads && (forall a: Addr {:trigger MutexOk(s, a)} :: MutexOk(s, a))
    ensures var (s', code) := MutexResume(s, at, due);
            if s.threads[s.current].mutexWait == m && m in s.mutexes && code == 0 then
              Count(s, m) == 0 && Count(s', m) == 1 && Owner(s', m) == s.current
            else SameHold(s, s', m)
  {
    var k := s.threads[s.current].mutexWait;
    assert MutexOk(s, k);
    var s1 := SetThread(s, s.current, s.threads[s.current].(mutexWait := 0));
    if k in s.mutexes && s.mutexes[k].locked {
      ParkHold(s1, MutexQ(k), s1.threads[s1.current].(mutexWait := k, pc := MUTEX_RESUME), k, due, m);
    }
  }

  // ------------------------------------------------------------------ who touches what

  lemma SwitchKeeps(s: State, due: seq<Tid>)
    ensures SameLocks(s, Switch(s, due))
  {
    if s.current in s.threads { SwitchDrift(s, due, s.current); }
  }

  lemma UnblockKeeps(s: State, ts: seq<Tid>)
    ensures SameLocks(s, UnblockEach(s, ts))
  {
    UnblockEachLocks(s, ts, s.current);
  }

  /** Thread operations change no lock record. */
  lemma ThreadOpKeeps(s: State, op: Op, due: seq<Tid>)
    requires s.current in s.threads
    requires op.Create? || op.Join? || op.Detach? || op.Exit? || op.Sleep?
    ensures SameLocks(s, Perform(s, op, due).0)
  {
    match op
    case Create(entry) =>
    case Join(t) =>
      if t in s.threads {
        SwitchKeeps(Enqueue(s, JoinQ(t), s.threads[s.current].(joinTarget := t, pc := JOIN_RESUME), t), due);
      }
    case Detach(t) =>
    case Exit(v) =>
      var th := s.threads[s.current];
      var s1 := SetThread(s, s.current, th.(state := Terminated, retval := v, joiners := []));
      UnblockKeeps(s1, th.joiners);
      SwitchKeeps(UnblockEach(s1, th.joiners), due);
    case Sleep => SwitchKeeps(SetThread(s, s.current, s.threads[s.current].(state := Sleeping)), due);
  }

  /** Condition variable operations change no lock record either, but a condition wait unlocks. */
  lemma CondOpKeeps(s: State, op: Op, due: seq<Tid>)
    requires s.current in s.threads && (op.CondInit? || op.CondDestroy? || op.Signal? || op.Broadcast?)
    ensures SameLocks(s, Perform(s, op, due).0)
  {
    if op.Broadcast? && op.c in s.conds { UnblockKeeps(SetQueue(s, CondQ(op.c), []), s.conds[op.c]); }
  }

  predicate OnlyRwlocks(s: State, s': State) { s'.mutexes == s.mutexes && s'.barriers == s.barriers }

  lemma ReadLockKeeps(s: State, l: Addr, due: seq<Tid>)
    requires s.current in s.threads
    ensures OnlyRwlocks(s, DoReadLock(s, l, due).0)
  {
    var s1 := FindRw(s, l);
    SwitchKeeps(EnqueueOnce(s1, ReadQ(l), s1.threads[s1.current].(readWait := l, pc := RD_RESUME), l), due);
  }

  lemma WriteLockKeeps(s: State, l: Addr, due: seq<Tid>)
    requires s.current in s.threads
    ensures OnlyRwlocks(s, DoWriteLock(s, l, due).0)
  {
    var s1 := FindRw(s, l);
    SwitchKeeps(EnqueueOnce(s1, WriteQ(l), s1.threads[s1.current].(writeWait := l, pc := WR_RESUME), l), due);
  }

  lemma RwUnlockKeeps(s: State, l: Addr)
    ensures OnlyRwlocks(s, DoRwUnlock(s, l).0)
  {
    if l in s.rwlocks && s.rwlocks[l].writer == s.current {
      var s1 := SetRw(s, l, s.rwlocks[l].(writer := 0, depth := 0));
      UnblockKeeps(SetQueue(s1, ReadQ(l), []), s1.rwlocks[l].readQueue);
    }
  }

  predicate IsRwOp(op: Op) {
    op.RwInit? || op.RwDestroy? || op.ReadLock? || op.TryReadLock? || op.WriteLock? || op.TryWriteLock? || op.RwUnlock?
  }

  /** Read-write lock operations change only rwlocks. */
  lemma RwOpKeeps(s: State, op: Op, due: seq<Tid>)
    requires s.current in s.threads && IsRwOp(op)
    ensures OnlyRwlocks(s, Perform(s, op, due).0)
  {
    ReadLockKeeps(s, op.l, due);
    WriteLockKeeps(s, op.l, due);
    RwUnlockKeeps(s, op.l);
  }

  predicate OnlyBarriers(s: State, s': State) { s'.mutexes == s.mutexes && s'.rwlocks == s.rwlocks }

  lemma BarrierOpens(s: State, b: Addr, x: Barrier)
    ensures OnlyBarriers(s, WakeAll(SetBarrier(s, b, x), BarrierQ(b)))
  {
    UnblockKeeps(SetQueue(SetBarrier(s, b, x), BarrierQ(b), []), x.queue);
  }

  lemma BarrierParks(s: State, b: Addr, x: Barrier, th: Thread, due: seq<Tid>)
    requires s.current in s.threads
    ensures OnlyBarriers(s, Switch(Enqueue(SetBarrier(s, b, x), BarrierQ(b), th, b), due))
  {
    SwitchKeeps(Enqueue(SetBarrier(s, b, x), BarrierQ(b), th, b), due);
  }

  /** Barrier operations change only barriers. */
  lemma BarrierOpKeeps(s: State, op: Op, due: seq<Tid>)
    requires s.current in s.threads && IsBarrierOp(op)
    ensures OnlyBarriers(s, Perform(s, op, due).0)
  {
    if op.BarrierWait? {
      var s1 := FindBarrier(s, op.b);
      var x := s1.barriers[op.b];
      BarrierOpens(s1, op.b, x.(waiting := 0, generation := x.generation + 1));
      BarrierParks(s1, op.b, x.(waiting := x.waiting + 1), s.threads[s.current].(barrierWait := op.b, pc := BARRIER_RESUME), due);
    }
  }

  predicate OnlyMutexes(s: State, s': State) { s'.barriers == s.barriers && s'.rwlocks == s.rwlocks }

  lemma LockKeeps(s: State, m: Addr, kind: int, due: seq<Tid>)
    requires s.current in s.threads
    ensures OnlyMutexes(s, DoMutexLock(s, m, kind, due).0)
  {
    var s1 := FindMutex(s, m, kind);
    SwitchKeeps(EnqueueOnce(s1, MutexQ(m), s1.threads[s1.current].(mutexWait := m, pc := MUTEX_RESUME), m), due);
  }

  lemma UnlockKeeps(s: State, m: Addr)
    ensures OnlyMutexes(s, DoUnlock(s, m).0)
  {
  }

  lemma CondWaitKeeps(s: State, c: Addr, m: Addr, due: seq<Tid>)
    requires s.current in s.threads
    ensures OnlyMutexes(s, DoCondWait(s, c, m, due).0)
  {
    UnlockKeeps(FindCond(s, c), m);
    var s1 := DoUnlock(FindCond(s, c), m).0;
    if s1.current in s1.threads && c in s1.conds {
      SwitchKeeps(Enqueue(s1, CondQ(c), s1.threads[s1.current].(condMutex := m, pc := COND_RESUME), c), due);
    }
  }

  predicate IsMutexOp(op: Op) {
    op.MutexInit? || op.MutexDestroy? || op.MutexLock? || op.TryLock? || op.Unlock? || op.CondWait?
  }

  lemma MutexOpKeeps(s: State, op: Op, due: seq<Tid>)
    requires s.current in s.threads && IsMutexOp(op)
    ensures OnlyMutexes(s, Perform(s, op, due).0)
  {
    match op
    case MutexLock(m, kind) => LockKeeps(s, m, kind, due);
    case CondWait(c, m) => CondWaitKeeps(s, c, m, due);
    case _ =>
  }

  predicate IsBarrierOp(op: Op) { op.BarrierInit? || op.BarrierDestroy? || op.BarrierWait? }

  /** Each kind of operation changes only its own kind of record. */
  lemma OpKeeps(s: State, op: Op, due: seq<Tid>)
    requires s.current in s.threads
    ensures !IsMutexOp(op) ==> Perform(s, op, due).0.mutexes == s.mutexes
    ensures !IsBarrierOp(op) ==> Perform(s, op, due).0.barriers == s.barriers
    ensures !IsRwOp(op) ==> Perform(s, op, due).0.rwlocks == s.rwlocks
  {
    if IsMutexOp(op) { MutexOpKeeps(s, op, due); }
    else if IsBarrierOp(op) { BarrierOpKeeps(s, op, due); }
    else if IsRwOp(op) { RwOpKeeps(s, op, due); }
    else if op.CondInit? || op.CondDestroy? || op.Signal? || op.Broadcast? { CondOpKeeps(s, op, due); }
    else { ThreadOpKeeps(s, op, due); }
  }

  lemma ResumeKeeps(s: State, at: Addr, due: seq<Tid>)
    requires s.current in s.threads
    ensures OnlyMutexes(s, ResumeAt(s, at, due).0)
  {
    var th := s.threads[s.current];
    LockKeeps(SetThread(s, s.current, th.(condMutex := 0)), th.condMutex, 0, due);
    var s1 := SetThread(s, s.current, th.(mutexWait := 0));
    if th.mutexWait in s1.mutexes {
      SwitchKeeps(EnqueueOnce(s1, MutexQ(th.mutexWait),
                              s1.threads[s1.current].(mutexWait := th.mutexWait, pc := MUTEX_RESUME), th.mutexWait), due);
    }
  }

  // ------------------------------------------------------------------ lock_count

  lemma CondWaitBalance(s: State, c: Addr, k: Addr, due: seq<Tid>, m: Addr)
    requires Core(s) && InGuest(s) && k != 0
    ensures var (s1, code) := DoUnlock(s, k);
            var s' := DoCondWait(s, c, k, due).0;
            if k == m && code == 0 then
              Count(s, m) > 0 && Count(s', m) == Count(s, m) - 1 && (Count(s', m) > 0 ==> Owner(s', m) == Owner(s, m))
            else SameHold(s, s', m)
  {
    var s0 := FindCond(s, c);
    FindCondSteps(s, c);
    UnlockFrame(s0, k);
    UnlockHold(s0, k, m);
    assert DoUnlock(s0, k).1 == DoUnlock(s, k).1;
    var s1 := DoUnlock(s0, k).0;
    SwitchKeeps(Enqueue(s1, CondQ(c), s1.threads[s1.current].(condMutex := k, pc := COND_RESUME), c), due);
  }

  lemma TryLockHold(s: State, k: Addr, m: Addr)
    requires MutexOk(s, k)
    ensures var (s', code) := DoTryLock(s, k);
            if k == m && code == 0 then
              && (Count(s, m) == 0 || Owner(s, m) == s.current)
              && Count(s', m) == Count(s, m) + 1 && Owner(s', m) == s.current
            else SameHold(s, s', m)
  {
  }

  lemma MutexOpBalance(s: State, op: Op, at: Addr, due: seq<Tid>, m: Addr)
    requires Inv(s) && Enabled(s, Guest(op, at, due)) && !Resets(Guest(op, at, due), m)
    requires IsMutexOp(op) && !op.CondWait?
    ensures Balanced(s, Guest(op, at, due), m)
  {
    var s0 := s.(pc := at);
    CoreAt(s, at);
    LocksAt(s, at);
    match op
    case MutexLock(k, kind) => LockHold(s0, k, kind, due, m);
    case TryLock(k) => assert MutexOk(s0, k); TryLockHold(s0, k, m);
    case Unlock(k) => UnlockPc(s, at, m); UnlockHold(s0, k, m);
    case MutexInit(_, _) =>
    case MutexDestroy(_) =>
  }

  lemma GuestBalance(s: State, op: Op, at: Addr, due: seq<Tid>, m: Addr)
    requires Inv(s) && Enabled(s, Guest(op, at, due)) && !Resets(Guest(op, at, due), m)
    ensures Balanced(s, Guest(op, at, due), m)
  {
    if op.CondWait? {
      CoreAt(s, at);
      UnlockPc(s, at, m);
      CondWaitBalance(s.(pc := at), op.c, op.m, due, m);
    } else if IsMutexOp(op) {
      MutexOpBalance(s, op, at, due, m);
    } else { OpKeeps(s.(pc := at), op, due); }
  }

  lemma UnlockPc(s: State, at: Addr, m: Addr)
    ensures DoUnlock(s.(pc := at), m).1 == DoUnlock(s, m).1
  {
  }

  lemma CondResumeBalance(s: State, at: Addr, due: seq<Tid>, m: Addr)
    requires Inv(s) && CurrentRuns(s) && s.pc == COND_RESUME
    ensures var (s', code) := CondResume(s, at, due);
            if s.threads[s.current].condMutex == m && code == 0 then
              && (Count(s, m) == 0 || Owner(s, m) == s.current)
              && Count(s', m) == Count(s, m) + 1 && Owner(s', m) == s.current
            else SameHold(s, s', m)
  {
    var th := s.threads[s.current].(condMutex := 0);
    ContextLocks(s, th, s.pc);
    LockHold(SetThread(s, s.current, th), s.threads[s.current].condMutex, 0, due, m);
  }

  lemma ResumeBalance(s: State, at: Addr, due: seq<Tid>, m: Addr)
    requires Inv(s) && Enabled(s, Resume(at, due))
    ensures Balanced(s, Resume(at, due), m)
  {
    if s.pc == MUTEX_RESUME { MutexResumeHold(s, at, due, m); }
    else if s.pc == COND_RESUME { CondResumeBalance(s, at, due, m); }
  }

  /** Every step that does not initialise or destroy m. */
  lemma StepBalance(s: State, e: Step, m: Addr)
    requires Inv(s) && Enabled(s, e) && !Resets(e, m)
    ensures Balanced(s, e, m)
  {
    match e
    case Guest(op, at, due) => GuestBalance(s, op, at, due, m);
    case Resume(at, due) => ResumeBalance(s, at, due, m);
    case Preempt(due) => SwitchHold(s, due, m);
  }

  /** Acquisitions and unlocks of m in the first n steps. */
  function Acquisitions(tr: seq<State>, es: seq<Step>, m: Addr, n: nat): nat
    requires IsTrace(tr, es) && n <= |es|
  {
    if n == 0 then 0 else Acquisitions(tr, es, m, n - 1) + if Takes(tr[n - 1], es[n - 1], m) then 1 else 0
  }

  function Unlocks(tr: seq<State>, es: seq<Step>, m: Addr, n: nat): nat
    requires IsTrace(tr, es) && n <= |es|
  {
    if n == 0 then 0 else Unlocks(tr, es, m, n - 1) + if Drops(tr[n - 1], es[n - 1], m) then 1 else 0
  }

  /** lock_count is what it was, plus the acquisitions, minus the successful unlocks. */
  lemma {:induction false} LockCountBalance(tr: seq<State>, es: seq<Step>, m: Addr, n: nat)
    requires IsTrace(tr, es) && Inv(tr[0]) && n <= |es|
    requires forall i :: 0 <= i < n ==> !Resets(es[i], m)
    ensures Count(tr[n], m) + Unlocks(tr, es, m, n) == Count(tr[0], m) + Acquisitions(tr, es, m, n)
  {
    if n > 0 {
      LockCountBalance(tr, es, m, n - 1);
      TraceInv(tr, es, n - 1);
      StepBalance(tr[n - 1], es[n - 1], m);
    }
  }

  /** Mutual exclusion: while m is held only an unlock lowers its count, the owner stays, and nobody
      else acquires it. */
  lemma NoTakeover(s: State, e: Step, m: Addr)
    requires Reachable(s) && Enabled(s, e) && !Resets(e, m) && !Drops(s, e, m) && Count(s, m) > 0
    ensures Owner(Next(s, e), m) == Owner(s, m) && Count(Next(s, e), m) >= Count(s, m)
    ensures Takes(s, e, m) ==> s.current == Owner(s, m)
  {
    ReachableInv(s);
    StepBalance(s, e, m);
  }

  // ------------------------------------------------------------------ barriers

  /** The record of barrier b; an unknown barrier counts to one. */
  function BarrierOf(s: State, b: Addr): Barrier { if b in s.barriers then s.barriers[b] else Barrier(1, 0, 0, []) }

  predicate Arrives(e: Step, b: Addr) { e.Guest? && e.op.BarrierWait? && e.op.b == b }

  /** The arrival is the last of its generation and returns PTHREAD_BARRIER_SERIAL_THREAD. */
  predicate Serial(s: State, e: Step, b: Addr)
    requires Enabled(s, e)
  { Arrives(e, b) && Do(s, e).1 == SERIAL_THREAD }

  predicate Rebuilds(e: Step, b: Addr) { e.Guest? && (e.op.BarrierInit? || e.op.BarrierDestroy?) && e.op.b == b }

  lemma WaitArrival(s: State, k: Addr, due: seq<Tid>, b: Addr)
    requires s.current in s.threads && BarrierOk(s, b)
    ensures var (s', code) := DoBarrierWait(s, k, due);
            var x, y := BarrierOf(s, b), BarrierOf(s', b);
            if k != b then (y.count, y.waiting, y.generation) == (x.count, x.waiting, x.generation)
            else if code == SERIAL_THREAD then
              y.count == x.count && y.waiting == 0 && y.generation == x.generation + 1 && x.waiting + 1 == x.count
            else y.count == x.count && y.waiting == x.waiting + 1 && y.generation == x.generation
  {
    var s1 := FindBarrier(s, k);
    var x := s1.barriers[k];
    if x.waiting + 1 >= x.count {
      var s2 := SetBarrier(s1, k, x.(waiting := 0, generation := x.generation + 1));
      UnblockKeeps(SetQueue(s2, BarrierQ(k), []), x.queue);
    } else {
      var s2 := SetBarrier(s1, k, x.(waiting := x.waiting + 1));
      SwitchKeeps(Enqueue(s2, BarrierQ(k), s2.threads[s2.current].(barrierWait := k, pc := BARRIER_RESUME), k), due);
    }
  }

  /** From x to y: arrivals are conserved, and the generation advances exactly at a serial return. */
  predicate Arrival(x: Barrier, y: Barrier, arrives: bool, serial: bool) {
    && y.count == x.count
    && y.generation == x.generation + (if serial then 1 else 0)
    && y.waiting == (if serial then 0 else x.waiting + if arrives then 1 else 0)
    && (serial ==> arrives && x.waiting + 1 == x.count)
  }

  lemma StepArrivals(s: State, e: Step, b: Addr)
    requires Inv(s) && Enabled(s, e) && !Rebuilds(e, b)
    ensures Arrival(BarrierOf(s, b), BarrierOf(Next(s, e), b), Arrives(e, b), Serial(s, e, b))
  {
    match e
    case Guest(op, at, due) =>
      assert BarrierOk(s, b);
      if op.BarrierWait? { WaitArrival(s.(pc := at), op.b, due, b); } else { GuestKeepsBarrier(s, op, at, due, b); }
    case Resume(at, due) => ResumeKeeps(s, at, due);
    case Preempt(due) => SwitchKeeps(s, due);
  }

  lemma GuestKeepsBarrier(s: State, op: Op, at: Addr, due: seq<Tid>, b: Addr)
    requires Enabled(s, Guest(op, at, due)) && !op.BarrierWait? && !Rebuilds(Guest(op, at, due), b)
    ensures BarrierOf(Next(s, Guest(op, at, due)), b) == BarrierOf(s, b)
  {
    if !IsBarrierOp(op) { OpKeeps(s.(pc := at), op, due); }
  }

  function Arrivals(es: seq<Step>, b: Addr, n: nat): nat
    requires n <= |es|
  { if n == 0 then 0 else Arrivals(es, b, n - 1) + if Arrives(es[n - 1], b) then 1 else 0 }

  predicate ArrivalsAdd(x: Barrier, y: Barrier, arrivals: nat) {
    && y.count == x.count && y.generation >= x.generation
    && arrivals + x.waiting == (y.generation - x.generation) * x.count + y.waiting
  }

  lemma ArrivalAdds(x: Barrier, y: Barrier, z: Barrier, arrivals: nat, arrives: bool, serial: bool)
    requires ArrivalsAdd(x, y, arrivals) && Arrival(y, z, arrives, serial)
    ensures ArrivalsAdd(x, z, arrivals + if arrives then 1 else 0)
  {
    assert (y.generation + 1 - x.generation) * x.count == (y.generation - x.generation) * x.count + x.count;
  }

  /** arrivals = generation * count + waiting, counted from the start of any trace. */
  lemma {:induction false} BarrierBalance(tr: seq<State>, es: seq<Step>, b: Addr, n: nat)
    requires IsTrace(tr, es) && Inv(tr[0]) && n <= |es|
    requires forall i :: 0 <= i < n ==> !Rebuilds(es[i], b)
    ensures ArrivalsAdd(BarrierOf(tr[0], b), BarrierOf(tr[n], b), Arrivals(es, b, n))
  {
    if n > 0 {
      BarrierBalance(tr, es, b, n - 1);
      TraceInv(tr, es, n - 1);
      StepArrivals(tr[n - 1], es[n - 1], b);
      ArrivalAdds(BarrierOf(tr[0], b), BarrierOf(tr[n - 1], b), BarrierOf(tr[n], b), Arrivals(es, b, n - 1),
                  Arrives(es[n - 1], b), Serial(tr[n - 1], es[n - 1], b));
    }
  }

  /** Each generation that ended within the trace has a serial thread ... */
  lemma {:induction false} SerialInEachGeneration(tr: seq<State>, es: seq<Step>, b: Addr, n: nat, g: nat)
    requires IsTrace(tr, es) && Inv(tr[0]) && n <= |es|
    requires forall i :: 0 <= i < n ==> !Rebuilds(es[i], b)
    requires BarrierOf(tr[0], b).generation <= g < BarrierOf(tr[n], b).generation
    ensures exists i :: 0 <= i < n && Serial(tr[i], es[i], b) && BarrierOf(tr[i], b).generation == g
  {
    TraceInv(tr, es, n - 1);
    StepArrivals(tr[n - 1], es[n - 1], b);
    if g < BarrierOf(tr[n - 1], b).generation { SerialInEachGeneration(tr, es, b, n - 1, g); }
  }

  /** ... and no second one. */
  lemma {:induction false} OneSerialPerGeneration(tr: seq<State>, es: seq<Step>, b: Addr, i: nat, j: nat)
    requires IsTrace(tr, es) && Inv(tr[0]) && i < j < |es|
    requires forall k :: 0 <= k < j ==> !Rebuilds(es[k], b)
    requires Serial(tr[i], es[i], b) && Serial(tr[j], es[j], b)
    ensures BarrierOf(tr[i], b).generation < BarrierOf(tr[j], b).generation
  {
    TraceInv(tr, es, i);
    StepArrivals(tr[i], es[i], b);
    GenerationGrows(tr, es, b, i + 1, j);
  }

  lemma {:induction false} GenerationGrows(tr: seq<State>, es: seq<Step>, b: Addr, i: nat, j: nat)
    requires IsTrace(tr, es) && Inv(tr[0]) && i <= j < |tr|
    requires forall k :: 0 <= k < j ==> !Rebuilds(es[k], b)
    ensures BarrierOf(tr[i], b).generation <= BarrierOf(tr[j], b).generation
  {
    if i < j {
      GenerationGrows(tr, es, b, i, j - 1);
      TraceInv(tr, es, j - 1);
      StepArrivals(tr[j - 1], es[j - 1], b);
    }
  }
}
