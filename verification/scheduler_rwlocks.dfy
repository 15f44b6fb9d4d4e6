/**
 Read-write locks over whole runs: only the calls themselves change who holds a lock, so a call
 that had to wait never becomes a holder.
 */
module SchedulerRwLocks {
  import opened Scheduler
  import opened SchedulerCore
  import opened SchedulerSteps
  import opened SchedulerLocks
  import opened SchedulerRuns
  import opened SchedulerBalance
  import opened SchedulerMeaning

  // ------------------------------------------------------------------ steps

  /** The step is a read lock, respectively a write lock, of l that returns 0. */
  predicate ReadsIn(s: State, e: Step, l: Addr)
    requires Enabled(s, e)
  { e.Guest? && (e.op.ReadLock? || e.op.TryReadLock?) && e.op.l == l && Do(s, e).1 == 0 }

  predicate WritesIn(s: State, e: Step, l: Addr)
    requires Enabled(s, e)
  { e.Guest? && (e.op.WriteLock? || e.op.TryWriteLock?) && e.op.l == l && Do(s, e).1 == 0 }

  predicate RwUnlocks(e: Step, l: Addr) { e.Guest? && e.op.RwUnlock? && e.op.l == l }

  /** The unlock is a reader's. */
  predicate ReadsOut(s: State, e: Step, l: Addr) { RwUnlocks(e, l) && Writer(s, l) != s.current && Readers(s, l) > 0 }

  predicate RwResets(e: Step, l: Addr) { e.Guest? && (e.op.RwInit? || e.op.RwDestroy?) && e.op.l == l }

  /** Holders change only by calls that return 0, which find no writer, respectively nobody or the
      caller itself, and by unlocks; no trampoline and no switch changes them. */
  ghost predicate RwBalanced(s: State, e: Step, l: Addr)
    requires Enabled(s, e)
  {
    var s' := Next(s, e);
    if ReadsIn(s, e, l) then Writer(s, l) == 0 && Writer(s', l) == 0 && Readers(s', l) == Readers(s, l) + 1
    else if WritesIn(s, e, l) then
      && (Writer(s, l) == s.current || (Readers(s, l) == 0 && Writer(s, l) == 0))
      && Writer(s', l) == s.current && Readers(s', l) == Readers(s, l)
    else if ReadsOut(s, e, l) then Writer(s', l) == Writer(s, l) && Readers(s', l) == Readers(s, l) - 1
    else if RwUnlocks(e, l) && Writer(s, l) == s.current then
      Readers(s', l) == Readers(s, l) && (Writer(s', l) == 0 || (Depth(s, l) > 1 && Writer(s', l) == s.current))
    else SameRw(s, s', l)
  }

  lemma RwParkSame(s: State, q: QueueId, th: Thread, on: nat, due: seq<Tid>, l: Addr)
    requires HasQueue(s, q) && s.current in s.threads && (q.ReadQ? || q.WriteQ?)
    ensures SameRw(s, Switch(EnqueueOnce(s, q, th, on), due), l)
  {
    SwitchKeeps(EnqueueOnce(s, q, th, on), due);
  }

  lemma SetRwSame(s: State, k: Addr, x: RwLock, l: Addr)
    requires k != l
    ensures SameRw(s, SetRw(s, k, x), l) && SetRw(FindRw(s, k), k, x) == SetRw(s, k, x)
  {
    assert FindRw(s, k).rwlocks[k := x] == s.rwlocks[k := x];
  }

  lemma ReadOther(s: State, k: Addr, due: seq<Tid>, l: Addr)
    requires s.current in s.threads && k != l
    ensures SameRw(s, DoReadLock(s, k, due).0, l)
  {
    var s1 := FindRw(s, k);
    RwParkSame(s1, ReadQ(k), s.threads[s.current].(readWait := k, pc := RD_RESUME), k, due, l);
  }

  lemma WriteOther(s: State, k: Addr, due: seq<Tid>, l: Addr)
    requires s.current in s.threads && k != l
    ensures SameRw(s, DoWriteLock(s, k, due).0, l)
  {
    var s1 := FindRw(s, k);
    var x := s1.rwlocks[k];
    if x.writer == s.current { SetRwSame(s, k, x.(depth := x.depth + 1), l); }
    else if x.readers == 0 && x.writer == 0 { SetRwSame(s, k, x.(writer := s.current, depth := 1), l); }
    else { RwParkSame(s1, WriteQ(k), s.threads[s.current].(writeWait := k, pc := WR_RESUME), k, due, l); }
  }

  lemma UnlockOther(s: State, k: Addr, l: Addr)
    requires k != l
    ensures SameRw(s, DoRwUnlock(s, k).0, l)
  {
    if k in s.rwlocks && s.rwlocks[k].writer == s.current { ReadersSame(s, k, s.rwlocks[k].(writer := 0, depth := 0), l); }
  }

  lemma ReadersSame(s: State, k: Addr, x: RwLock, l: Addr)
    requires k != l
    ensures SameRw(s, WakeAll(SetRw(s, k, x), ReadQ(k)), l)
  {
    UnblockKeeps(SetQueue(SetRw(s, k, x), ReadQ(k), []), x.readQueue);
  }

  lemma RwOther(s: State, op: Op, due: seq<Tid>, l: Addr)
    requires s.current in s.threads && IsRwOp(op) && op.l != l
    ensures SameRw(s, Perform(s, op, due).0, l)
  {
    if op.ReadLock? { ReadOther(s, op.l, due, l); }
    else if op.WriteLock? { WriteOther(s, op.l, due, l); }
    else if op.RwUnlock? { UnlockOther(s, op.l, l); }
  }

  lemma RwOpBalance(s: State, op: Op, at: Addr, due: seq<Tid>)
    requires Inv(s) && Enabled(s, Guest(op, at, due)) && IsRwOp(op) && !op.RwInit? && !op.RwDestroy?
    ensures RwBalanced(s, Guest(op, at, due), op.l)
  {
    var s0 := s.(pc := at);
    CoreAt(s, at);
    match op
    case ReadLock(l) => ReadLockMeaning(s0, l, due);
    case TryReadLock(l) => TryReadLockMeaning(s0, l);
    case WriteLock(l) => WriteLockMeaning(s0, l, due);
    case TryWriteLock(l) => TryWriteLockMeaning(s0, l);
    case RwUnlock(l) => RwUnlockMeaning(s0, l);
  }

  /** Every step that does not initialise or destroy l. */
  lemma RwStepBalance(s: State, e: Step, l: Addr)
    requires Inv(s) && Enabled(s, e) && !RwResets(e, l)
    ensures RwBalanced(s, e, l)
  {
    match e
    case Guest(op, at, due) =>
      if !IsRwOp(op) { OpKeeps(s.(pc := at), op, due); }
      else if op.l != l { RwOther(s.(pc := at), op, due, l); }
      else { RwOpBalance(s, op, at, due); }
    case Resume(at, due) => ResumeKeeps(s, at, due);
    case Preempt(due) => SwitchKeeps(s, due);
  }

  /** A blocking call becomes a holder exactly if it does not have to wait: a reader if there is no
      writer, a writer if the lock is its own or nobody's.  Otherwise the holders stay as they were, and
      the caller waits, to go on at the call site. */
  lemma ReaderIffNoWait(s: State, l: Addr, at: Addr, due: seq<Tid>)
    requires Inv(s) && InGuest(s) && !IsResume(at)
    ensures var e := Guest(ReadLock(l), at, due);
            && (ReadsIn(s, e, l) <==> Writer(s, l) == 0)
            && (!ReadsIn(s, e, l) ==> SameRw(s, Next(s, e), l) && Queues(s, ReadQ(l), at, Next(s, e)))
  {
    CoreAt(s, at);
    ReadLockMeaning(s.(pc := at), l, due);
  }

  lemma WriterIffNoWait(s: State, l: Addr, at: Addr, due: seq<Tid>)
    requires Inv(s) && InGuest(s) && !IsResume(at)
    ensures var e := Guest(WriteLock(l), at, due);
            && (WritesIn(s, e, l) <==> Writer(s, l) == s.current || (Readers(s, l) == 0 && Writer(s, l) == 0))
            && (!WritesIn(s, e, l) ==> SameRw(s, Next(s, e), l) && Queues(s, WriteQ(l), at, Next(s, e)))
  {
    CoreAt(s, at);
    WriteLockMeaning(s.(pc := at), l, due);
  }

  /** The caller is blocked, last in q, and goes on at the given address. */
  predicate Queues(s: State, q: QueueId, at: Addr, s': State) {
    && s.current in s'.threads && s'.threads[s.current].state.Blocked?
    && PcOf(s', s.current) == at && Queue(s', q) == Queue(s, q) + [s.current]
  }

  // ------------------------------------------------------------------ runs

  function ReadAcquisitions(tr: seq<State>, es: seq<Step>, l: Addr, n: nat): nat
    requires IsTrace(tr, es) && n <= |es|
  { if n == 0 then 0 else ReadAcquisitions(tr, es, l, n - 1) + if ReadsIn(tr[n - 1], es[n - 1], l) then 1 else 0 }

  function ReadReleases(tr: seq<State>, es: seq<Step>, l: Addr, n: nat): nat
    requires IsTrace(tr, es) && n <= |es|
  { if n == 0 then 0 else ReadReleases(tr, es, l, n - 1) + if ReadsOut(tr[n - 1], es[n - 1], l) then 1 else 0 }

  /** The reader count is what it was, plus the read locks that did not wait, minus the readers' unlocks. */
  lemma {:induction false} ReaderBalance(tr: seq<State>, es: seq<Step>, l: Addr, n: nat)
    requires IsTrace(tr, es) && Inv(tr[0]) && n <= |es|
    requires forall i :: 0 <= i < n ==> !RwResets(es[i], l)
    ensures Readers(tr[n], l) + ReadReleases(tr, es, l, n) == Readers(tr[0], l) + ReadAcquisitions(tr, es, l, n)
  {
    if n > 0 {
      ReaderBalance(tr, es, l, n - 1);
      TraceInv(tr, es, n - 1);
      RwStepBalance(tr[n - 1], es[n - 1], l);
    }
  }

  /** A thread that holds l for writing, and did not at the start, got it by a call that did not wait. */
  lemma {:induction false} WriterAcquired(tr: seq<State>, es: seq<Step>, l: Addr, n: nat)
    requires IsTrace(tr, es) && Inv(tr[0]) && n <= |es| && Writer(tr[n], l) != 0 && Writer(tr[n], l) != Writer(tr[0], l)
    requires forall i :: 0 <= i < n ==> !RwResets(es[i], l)
    ensures exists i :: 0 <= i < n && WritesIn(tr[i], es[i], l) && tr[i].current == Writer(tr[n], l)
  {
    TraceInv(tr, es, n - 1);
    RwStepBalance(tr[n - 1], es[n - 1], l);
    if !(WritesIn(tr[n - 1], es[n - 1], l) && tr[n - 1].current == Writer(tr[n], l)) { WriterAcquired(tr, es, l, n - 1); }
  }

  // ------------------------------------------------------------------ a waiter without the lock

  const LOCK: Addr := 0x5000_0000
  const CODE: Addr := 0x4000_0000

  function World(threads: map<Tid, Thread>, runq: seq<Tid>, current: Tid, x: RwLock): State {
    State(threads, runq, current, CODE, 4097, map[], map[], map[LOCK := x], map[])
  }

  const MAIN: Thread := NewThread(CODE).(state := Running)
  const WAITER: Thread := NewThread(CODE).(readWait := LOCK)
  const SLEEPER: Thread := WAITER.(state := Blocked, blockedOn := LOCK, home := In(ReadQ(LOCK)))

  predicate Leads(s: State, e: Step, s': State) { Enabled(s, e) && s' == Next(s, e) }

  lemma MainLocks(s: State, s1: State, s2: State)
    requires s == State(map[1 := MAIN], [], 1, CODE, 4096, map[], map[], map[], map[])
    requires s1 == World(map[1 := MAIN], [], 1, RwLock(0, 1, 1, [], [])).(nextTid := 4096)
    requires s2 == World(map[1 := MAIN, 4096 := NewThread(CODE)], [4096], 1, RwLock(0, 1, 1, [], []))
    ensures Leads(s, Guest(WriteLock(LOCK), CODE, []), s1) && Leads(s1, Guest(Create(CODE), CODE, []), s2)
  {
  }

  /** The running main thread gives way to thread 4096. */
  lemma GivesWay(s: State, s': State, th: Thread, x: RwLock)
    requires th.state.Runnable? && th.pc == CODE
    requires s == World(map[1 := MAIN, 4096 := th], [4096], 1, x)
    requires s' == World(map[1 := NewThread(CODE), 4096 := th.(state := Running)], [1], 4096, x)
    ensures Leads(s, Preempt([]), s')
  {
    var s1 := Save(s);
    assert s1.threads == map[1 := NewThread(CODE), 4096 := th];
    assert s1.runq == [4096, 1];
    assert WakeSleepers(s1, []) == s1;
    assert Skip(s1.threads, s1.runq) == 0;
    assert Dispatch(s1).threads == s'.threads && Dispatch(s1).runq == [1];
  }

  lemma ReaderQueues(s: State, s1: State)
    requires s == World(map[1 := NewThread(CODE), 4096 := MAIN], [1], 4096, RwLock(0, 1, 1, [], []))
    requires s1 == EnqueueOnce(s, ReadQ(LOCK), MAIN.(readWait := LOCK, pc := RD_RESUME), LOCK)
    ensures s1.rwlocks == map[LOCK := RwLock(0, 1, 1, [4096], [])]
    ensures s1.threads == map[1 := NewThread(CODE), 4096 := SLEEPER.(pc := RD_RESUME)]
  {
    assert [] + [4096] == [4096];
  }

  lemma ReaderWaits(s: State, s': State)
    requires s == World(map[1 := NewThread(CODE), 4096 := MAIN], [1], 4096, RwLock(0, 1, 1, [], []))
    requires s' == World(map[1 := MAIN, 4096 := SLEEPER], [], 1, RwLock(0, 1, 1, [4096], []))
    ensures Leads(s, Guest(ReadLock(LOCK), CODE, []), s')
  {
    var s1 := EnqueueOnce(s, ReadQ(LOCK), MAIN.(readWait := LOCK, pc := RD_RESUME), LOCK);
    ReaderQueues(s, s1);
    var s2 := Save(s1);
    assert s2.threads == map[1 := NewThread(CODE), 4096 := SLEEPER];
    assert WakeSleepers(s2, []) == s2;
    assert Skip(s2.threads, s2.runq) == 0;
    assert Dispatch(s2).threads == s'.threads && Dispatch(s2).runq == [];
  }

  lemma MainUnlocks(s: State, s': State)
    requires s == World(map[1 := MAIN, 4096 := SLEEPER], [], 1, RwLock(0, 1, 1, [4096], []))
    requires s' == World(map[1 := MAIN, 4096 := WAITER], [4096], 1, RwLock(0, 0, 0, [], []))
    ensures Leads(s, Guest(RwUnlock(LOCK), CODE, []), s')
  {
    var s1 := SetQueue(SetRw(s, LOCK, RwLock(0, 0, 0, [4096], [])), ReadQ(LOCK), []);
    assert s1.rwlocks == map[LOCK := RwLock(0, 0, 0, [], [])];
    var s2 := Unblock(s1, 4096);
    assert s2.threads == map[1 := MAIN, 4096 := WAITER];
    assert UnblockEach(s2, []) == s2 && UnblockEach(s1, [4096]) == s2;
  }

  const HELD: RwLock := RwLock(0, 1, 1, [], [])
  const FREE: RwLock := RwLock(0, 0, 0, [], [])

  lemma Story(tr: seq<State>, es: seq<Step>)
    requires |tr| == 7 && tr[0] == State(map[1 := MAIN], [], 1, CODE, 4096, map[], map[], map[], map[])
    requires tr[1] == World(map[1 := MAIN], [], 1, HELD).(nextTid := 4096)
    requires tr[2] == World(map[1 := MAIN, 4096 := NewThread(CODE)], [4096], 1, HELD)
    requires tr[3] == World(map[1 := NewThread(CODE), 4096 := MAIN], [1], 4096, HELD)
    requires tr[4] == World(map[1 := MAIN, 4096 := SLEEPER], [], 1, HELD.(readQueue := [4096]))
    requires tr[5] == World(map[1 := MAIN, 4096 := WAITER], [4096], 1, FREE)
    requires tr[6] == World(map[1 := NewThread(CODE), 4096 := WAITER.(state := Running)], [1], 4096, FREE)
    requires es == [Guest(WriteLock(LOCK), CODE, []), Guest(Create(CODE), CODE, []), Preempt([]),
                    Guest(ReadLock(LOCK), CODE, []), Guest(RwUnlock(LOCK), CODE, []), Preempt([])]
    ensures forall i :: 0 <= i < 6 ==> Leads(tr[i], es[i], tr[i + 1])
  {
    MainLocks(tr[0], tr[1], tr[2]);
    GivesWay(tr[2], tr[3], NewThread(CODE), HELD);
    ReaderWaits(tr[3], tr[4]);
    MainUnlocks(tr[4], tr[5]);
    GivesWay(tr[5], tr[6], WAITER, FREE);
  }

  /** A run in which a thread that called rdlock, waited and was woken runs guest code after the call,
      while the lock counts no reader: the main thread takes the write lock, creates a thread and is
      preempted; the new thread waits for the read lock; the main thread unlocks and is preempted. */
  lemma WokenWithoutLock() returns (tr: seq<State>, es: seq<Step>)
    ensures IsRun(tr, es) && |es| == 6 && es[3] == Guest(ReadLock(LOCK), CODE, []) && tr[3].current == 4096
    ensures var s := tr[6];
            InGuest(s) && s.current == 4096 && s.pc == CODE && Readers(s, LOCK) == 0 && Writer(s, LOCK) == 0
  {
    tr := [State(map[1 := MAIN], [], 1, CODE, 4096, map[], map[], map[], map[]),
           World(map[1 := MAIN], [], 1, HELD).(nextTid := 4096),
           World(map[1 := MAIN, 4096 := NewThread(CODE)], [4096], 1, HELD),
           World(map[1 := NewThread(CODE), 4096 := MAIN], [1], 4096, HELD),
           World(map[1 := MAIN, 4096 := SLEEPER], [], 1, HELD.(readQueue := [4096])),
           World(map[1 := MAIN, 4096 := WAITER], [4096], 1, FREE),
           World(map[1 := NewThread(CODE), 4096 := WAITER.(state := Running)], [1], 4096, FREE)];
    es := [Guest(WriteLock(LOCK), CODE, []), Guest(Create(CODE), CODE, []), Preempt([]),
           Guest(ReadLock(LOCK), CODE, []), Guest(RwUnlock(LOCK), CODE, []), Preempt([])];
    Story(tr, es);
  }
}
