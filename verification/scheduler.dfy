/**
 The cooperative thread scheduler and its pthread primitives.

 A state holds every thread's context, the runnable queue, the lock, condition variable,
 rwlock and barrier records with their wait queues, and the program counter of the one
 guest CPU.  Each operation is a function of the state, in the order of effects the
 handlers have; a step of the machine is a guest call by the running thread, a resume
 trampoline, or a (periodic or idle) context switch.  Which sleepers are due when a
 successor is selected is nondeterministic: a step carries the list of them.
 */
module Scheduler {
  import opened AddressMap

  type Tid = nat
  type Addr = nat

  const WR_RESUME: Addr := HLE_BASE + 0xFFFD4
  const RD_RESUME: Addr := HLE_BASE + 0xFFFD8
  const BARRIER_RESUME: Addr := HLE_BASE + 0xFFFDC
  const MUTEX_RESUME: Addr := HLE_BASE + 0xFFFEC
  const COND_RESUME: Addr := HLE_BASE + 0xFFFF4
  const JOIN_RESUME: Addr := HLE_BASE + 0xFFFF8

  const EPERM := 1
  const ESRCH := 3
  const EBUSY := 16
  const EINVAL := 22
  const SERIAL_THREAD := -1
  const SWITCHED := -999

  predicate IsResume(pc: Addr) {
    pc == MUTEX_RESUME || pc == COND_RESUME || pc == JOIN_RESUME || pc == BARRIER_RESUME
    || pc == RD_RESUME || pc == WR_RESUME
  }

  datatype ThreadState = Runnable | Running | Blocked | Sleeping | Terminated

  /** Names one wait queue. */
  datatype QueueId =
    | MutexQ(a: Addr) | CondQ(a: Addr) | ReadQ(a: Addr) | WriteQ(a: Addr) | BarrierQ(a: Addr) | JoinQ(t: Tid)

  /** The queue a thread was last put in.  No operation reads it: it records history. */
  datatype Home = Nowhere | In(q: QueueId)

  datatype Thread = Thread(
    state: ThreadState,
    pc: Addr,             // registers.pc, meaningful while the thread is not running
    blockedOn: nat,
    mutexWait: Addr,      // mutex_wait_ptr
    condMutex: Addr,      // cond_wait_mutex
    joinTarget: Tid,
    barrierWait: Addr,
    readWait: Addr,       // rwlock_rdlock_ptr
    writeWait: Addr,      // rwlock_wrlock_ptr
    detached: bool,
    retval: nat,
    joiners: seq<Tid>,    // join_wait_queue
    home: Home)

  datatype Mutex = Mutex(locked: bool, owner: Tid, count: nat, kind: int, queue: seq<Tid>)
  datatype RwLock = RwLock(readers: nat, writer: Tid, depth: nat, readQueue: seq<Tid>, writeQueue: seq<Tid>)
  datatype Barrier = Barrier(count: nat, waiting: nat, generation: nat, queue: seq<Tid>)

  datatype State = State(
    threads: map<Tid, Thread>,
    runq: seq<Tid>,
    current: Tid,
    pc: Addr,             // the guest CPU's program counter
    nextTid: Tid,
    mutexes: map<Addr, Mutex>,
    conds: map<Addr, seq<Tid>>,
    rwlocks: map<Addr, RwLock>,
    barriers: map<Addr, Barrier>)

  // ------------------------------------------------------------------ wait queues

  function Queue(s: State, q: QueueId): seq<Tid> {
    match q
    case MutexQ(a) => if a in s.mutexes then s.mutexes[a].queue else []
    case CondQ(a) => if a in s.conds then s.conds[a] else []
    case ReadQ(a) => if a in s.rwlocks then s.rwlocks[a].readQueue else []
    case WriteQ(a) => if a in s.rwlocks then s.rwlocks[a].writeQueue else []
    case BarrierQ(a) => if a in s.barriers then s.barriers[a].queue else []
    case JoinQ(t) => if t in s.threads then s.threads[t].joiners else []
  }

  predicate HasQueue(s: State, q: QueueId) {
    match q
    case MutexQ(a) => a in s.mutexes
    case CondQ(a) => a in s.conds
    case ReadQ(a) => a in s.rwlocks
    case WriteQ(a) => a in s.rwlocks
    case BarrierQ(a) => a in s.barriers
    case JoinQ(t) => t in s.threads
  }

  function SetQueue(s: State, q: QueueId, v: seq<Tid>): State
    requires HasQueue(s, q)
  {
    match q
    case MutexQ(a) => s.(mutexes := s.mutexes[a := s.mutexes[a].(queue := v)])
    case CondQ(a) => s.(conds := s.conds[a := v])
    case ReadQ(a) => s.(rwlocks := s.rwlocks[a := s.rwlocks[a].(readQueue := v)])
    case WriteQ(a) => s.(rwlocks := s.rwlocks[a := s.rwlocks[a].(writeQueue := v)])
    case BarrierQ(a) => s.(barriers := s.barriers[a := s.barriers[a].(queue := v)])
    case JoinQ(t) => s.(threads := s.threads[t := s.threads[t].(joiners := v)])
  }

  // ------------------------------------------------------------------ scheduling

  function SetThread(s: State, t: Tid, th: Thread): State { s.(threads := s.threads[t := th]) }

  /** A wait is pending that has a resume trampoline. */
  predicate Waits(th: Thread) {
    th.mutexWait != 0 || th.condMutex != 0 || th.joinTarget != 0 || th.barrierWait != 0
  }

  /** A blocked thread whose saved program counter must survive the save. */
  predicate KeepsResumePc(th: Thread) {
    && th.state.Blocked? && Waits(th)
    && HLE_BASE <= th.pc < HLE_BASE + HLE_SIZE
  }

  /** The first half of context_switch: put the current thread away. */
  function Save(s: State): State
    requires s.current in s.threads
  {
    var th := s.threads[s.current];
    if th.state.Running? then
      SetThread(s, s.current, th.(state := Runnable, pc := s.pc)).(runq := s.runq + [s.current])
    else if KeepsResumePc(th) then s
    else SetThread(s, s.current, th.(pc := s.pc))
  }

  /** select_next_thread, part one: a due sleeper becomes runnable. */
  function WakeSleeper(s: State, t: Tid): State {
    if t in s.threads && s.threads[t].state.Sleeping?
    then SetThread(s, t, s.threads[t].(state := Runnable)).(runq := s.runq + [t])
    else s
  }

  function WakeSleepers(s: State, due: seq<Tid>): State
    decreases |due|
  {
    if due == [] then s else WakeSleepers(WakeSleeper(s, due[0]), due[1..])
  }

  /** select_next_thread, part two: how many queue entries are popped to find a runnable thread. */
  function Skip(threads: map<Tid, Thread>, runq: seq<Tid>): (n: nat)
    ensures n <= |runq|
    ensures n < |runq| ==> runq[n] in threads && threads[runq[n]].state.Runnable?
    ensures forall i :: 0 <= i < n ==> !(runq[i] in threads && threads[runq[i]].state.Runnable?)
    decreases |runq|
  {
    if runq == [] || (runq[0] in threads && threads[runq[0]].state.Runnable?) then 0
    else 1 + Skip(threads, runq[1..])
  }

  /** The second half of context_switch: run the successor.  If there is none the current thread
      stays; if that thread has terminated the emulator is stopped by setting its PC to zero. */
  function Dispatch(s: State): State
    requires s.current in s.threads
  {
    var n := Skip(s.threads, s.runq);
    if n < |s.runq| then
      var t := s.runq[n];
      var th := s.threads[t];
      SetThread(s, t, th.(state := Running)).(runq := s.runq[n + 1..], current := t, pc := th.pc)
    else
      var th := s.threads[s.current];
      s.(runq := [],
         pc := if th.state.Terminated? then 0 else s.pc,
         threads := if th.state.Runnable? then s.threads[s.current := th.(state := Running)] else s.threads)
  }

  /** context_switch.  If the current thread is gone it does nothing. */
  function Switch(s: State, due: seq<Tid>): State {
    if s.current !in s.threads then s
    else
      var s1 := WakeSleepers(Save(s), due);
      if s1.current in s1.threads then Dispatch(s1) else s1
  }

  /** unblock_thread_internal: silently does nothing unless t is blocked. */
  function Unblock(s: State, t: Tid): State {
    if t in s.threads && s.threads[t].state.Blocked? then
      SetThread(s, t, s.threads[t].(state := Runnable, blockedOn := 0, home := Nowhere)).(runq := s.runq + [t])
    else s
  }

  function UnblockEach(s: State, ts: seq<Tid>): State
    decreases |ts|
  {
    if ts == [] then s else UnblockEach(Unblock(s, ts[0]), ts[1..])
  }

  /** Pop the head of a wait queue and unblock it. */
  function WakeFirst(s: State, q: QueueId): State
    requires HasQueue(s, q) && Queue(s, q) != []
  { Unblock(SetQueue(s, q, Queue(s, q)[1..]), Queue(s, q)[0]) }

  /** Unblock everybody in a wait queue and clear it. */
  function WakeAll(s: State, q: QueueId): State
    requires HasQueue(s, q)
  { UnblockEach(SetQueue(s, q, []), Queue(s, q)) }

  /** Append the current thread, now blocked with the given context, to a wait queue. */
  function Enqueue(s: State, q: QueueId, th: Thread, on: nat): State
    requires HasQueue(s, q) && s.current in s.threads
  {
    var s1 := SetThread(s, s.current, th.(state := Blocked, blockedOn := on, home := In(q)));
    SetQueue(s1, q, Queue(s1, q) + [s.current])
  }

  /** The same for the queues that are first searched for the current thread. */
  function EnqueueOnce(s: State, q: QueueId, th: Thread, on: nat): State
    requires HasQueue(s, q) && s.current in s.threads
  {
    if s.current in Queue(s, q)
    then SetThread(s, s.current, th.(state := Blocked, blockedOn := on, home := In(q)))
    else Enqueue(s, q, th, on)
  }

  // ------------------------------------------------------------------ threads

  /** Each operation yields the new state and its return code. */
  type Outcome = (State, int)

  function NewThread(entry: Addr): Thread {
    Thread(Runnable, entry, 0, 0, 0, 0, 0, 0, 0, false, 0, [], Nowhere)
  }

  function DoCreate(s: State, entry: Addr): Outcome {
    (SetThread(s, s.nextTid, NewThread(entry)).(runq := [s.nextTid] + s.runq, nextTid := s.nextTid + 1), 0)
  }

  function DoJoin(s: State, t: Tid, due: seq<Tid>): Outcome
    requires s.current in s.threads
  {
    if t !in s.threads then (s, ESRCH)
    else if s.threads[t].detached then (s, EINVAL)
    else if s.threads[t].state.Terminated? then (s.(threads := s.threads - {t}), 0)
    else
      var th := s.threads[s.current].(joinTarget := t, pc := JOIN_RESUME);
      (Switch(Enqueue(s, JoinQ(t), th, t), due), SWITCHED)
  }

  function JoinResume(s: State, at: Addr): Outcome
    requires s.current in s.threads
  {
    var th := s.threads[s.current];
    var s1 := SetThread(s, s.current, th.(joinTarget := 0)).(pc := at);
    if th.joinTarget in s1.threads && s1.threads[th.joinTarget].state.Terminated?
    then (s1.(threads := s1.threads - {th.joinTarget}), 0) else (s1, 0)
  }

  function DoDetach(s: State, t: Tid): Outcome {
    if t !in s.threads then (s, ESRCH)
    else if s.threads[t].state.Terminated? then (s.(threads := s.threads - {t}), 0)
    else (SetThread(s, t, s.threads[t].(detached := true)), 0)
  }

  function DoExit(s: State, v: nat, due: seq<Tid>): Outcome
    requires s.current in s.threads
  {
    var th := s.threads[s.current];
    var s1 := SetThread(s, s.current, th.(state := Terminated, retval := v, joiners := []));
    (Switch(UnblockEach(s1, th.joiners), due), SWITCHED)
  }

  function DoSleep(s: State, due: seq<Tid>): Outcome
    requires s.current in s.threads
  {
    (Switch(SetThread(s, s.current, s.threads[s.current].(state := Sleeping)), due), SWITCHED)
  }

  // ------------------------------------------------------------------ mutexes

  function SetMutex(s: State, m: Addr, x: Mutex): State { s.(mutexes := s.mutexes[m := x]) }

  /** Find the mutex, creating a free one of the given kind if it is unknown. */
  function FindMutex(s: State, m: Addr, kind: int): State {
    if m in s.mutexes then s else SetMutex(s, m, Mutex(false, 0, 0, kind, []))
  }

  function BlockOnMutex(s: State, m: Addr, due: seq<Tid>): State
    requires s.current in s.threads && m in s.mutexes
  {
    var th := s.threads[s.current].(mutexWait := m, pc := MUTEX_RESUME);
    Switch(EnqueueOnce(s, MutexQ(m), th, m), due)
  }

  function Acquired(s: State, m: Addr): State
    requires m in s.mutexes
  { SetMutex(s, m, s.mutexes[m].(locked := true, owner := s.current, count := 1)) }

  function DoMutexLock(s0: State, m: Addr, kind: int, due: seq<Tid>): Outcome
    requires s0.current in s0.threads
  {
    var s := FindMutex(s0, m, kind);
    var x := s.mutexes[m];
    if x.locked && x.count > 0 && x.owner == s.current then (SetMutex(s, m, x.(count := x.count + 1)), 0)
    else if !x.locked then (Acquired(s, m), 0)
    else (BlockOnMutex(s, m, due), SWITCHED)
  }

  function MutexResume(s0: State, at: Addr, due: seq<Tid>): Outcome
    requires s0.current in s0.threads
  {
    var th := s0.threads[s0.current];
    var m := th.mutexWait;
    var s := SetThread(s0, s0.current, th.(mutexWait := 0));
    if m !in s.mutexes then (s.(pc := at), 0)
    else if !s.mutexes[m].locked then (Acquired(s, m).(pc := at), 0)
    else (BlockOnMutex(s, m, due), SWITCHED)
  }

  function DoTryLock(s0: State, m: Addr): Outcome {
    var s := FindMutex(s0, m, 0);
    var x := s.mutexes[m];
    if x.owner == s.current && x.count > 0 then
      if x.kind == 1 then (SetMutex(s, m, x.(count := x.count + 1)), 0) else (s, EBUSY)
    else if !x.locked then (Acquired(s, m), 0)
    else (s, EBUSY)
  }

  function DoUnlock(s: State, m: Addr): Outcome {
    if m !in s.mutexes then (s, EINVAL)
    else
      var x := s.mutexes[m];
      if !x.locked || x.count == 0 then (s, EPERM)
      else if x.count > 1 then (SetMutex(s, m, x.(count := x.count - 1)), 0)
      else
        var s1 := SetMutex(s, m, x.(locked := false, owner := 0, count := 0));
        if x.queue == [] then (s1, 0) else (WakeFirst(s1, MutexQ(m)), 0)
  }

  // ------------------------------------------------------------------ condition variables

  function FindCond(s: State, c: Addr): State {
    if c in s.conds then s else s.(conds := s.conds[c := []])
  }

  function DoCondWait(s: State, c: Addr, m: Addr, due: seq<Tid>): Outcome
    requires s.current in s.threads
  {
    var s1 := DoUnlock(FindCond(s, c), m).0;
    if s1.current !in s1.threads || c !in s1.conds then (s1, SWITCHED)
    else
      var th := s1.threads[s1.current].(condMutex := m, pc := COND_RESUME);
      (Switch(Enqueue(s1, CondQ(c), th, c), due), SWITCHED)
  }

  function CondResume(s: State, at: Addr, due: seq<Tid>): Outcome
    requires s.current in s.threads
  {
    var th := s.threads[s.current];
    var s1 := SetThread(s, s.current, th.(condMutex := 0));
    var (s2, code) := DoMutexLock(s1, th.condMutex, 0, due);
    if code == SWITCHED then (s2, SWITCHED) else (s2.(pc := at), 0)
  }

  function DoSignal(s: State, c: Addr): Outcome {
    if c in s.conds && s.conds[c] != [] then (WakeFirst(s, CondQ(c)), 0) else (s, 0)
  }

  function DoBroadcast(s: State, c: Addr): Outcome {
    if c in s.conds then (WakeAll(s, CondQ(c)), 0) else (s, 0)
  }

  // ------------------------------------------------------------------ read-write locks

  function SetRw(s: State, l: Addr, x: RwLock): State { s.(rwlocks := s.rwlocks[l := x]) }

  function FindRw(s: State, l: Addr): State {
    if l in s.rwlocks then s else SetRw(s, l, RwLock(0, 0, 0, [], []))
  }

  function DoReadLock(s0: State, l: Addr, due: seq<Tid>): Outcome
    requires s0.current in s0.threads
  {
    var s := FindRw(s0, l);
    var x := s.rwlocks[l];
    if x.writer == 0 then (SetRw(s, l, x.(readers := x.readers + 1)), 0)
    else
      var th := s.threads[s.current].(readWait := l, pc := RD_RESUME);
      (Switch(EnqueueOnce(s, ReadQ(l), th, l), due), SWITCHED)
  }

  function DoTryReadLock(s0: State, l: Addr): Outcome {
    var s := FindRw(s0, l);
    var x := s.rwlocks[l];
    if x.writer == 0 then (SetRw(s, l, x.(readers := x.readers + 1)), 0) else (s, EBUSY)
  }

  function DoWriteLock(s0: State, l: Addr, due: seq<Tid>): Outcome
    requires s0.current in s0.threads
  {
    var s := FindRw(s0, l);
    var x := s.rwlocks[l];
    if x.writer == s.current then (SetRw(s, l, x.(depth := x.depth + 1)), 0)
    else if x.readers == 0 && x.writer == 0 then (SetRw(s, l, x.(writer := s.current, depth := 1)), 0)
    else
      var th := s.threads[s.current].(writeWait := l, pc := WR_RESUME);
      (Switch(EnqueueOnce(s, WriteQ(l), th, l), due), SWITCHED)
  }

  /** Unlike the blocking call this one leaves write_count alone. */
  function DoTryWriteLock(s0: State, l: Addr): Outcome {
    var s := FindRw(s0, l);
    var x := s.rwlocks[l];
    if x.readers == 0 && x.writer == 0 then (SetRw(s, l, x.(writer := s.current)), 0) else (s, EBUSY)
  }

  function DoRwUnlock(s: State, l: Addr): Outcome {
    if l !in s.rwlocks then (s, EINVAL)
    else
      var x := s.rwlocks[l];
      if x.writer == s.current then
        if x.depth > 1 then (SetRw(s, l, x.(depth := x.depth - 1)), 0)
        else
          var s1 := SetRw(s, l, x.(writer := 0, depth := 0));
          (if x.writeQueue != [] then WakeFirst(s1, WriteQ(l)) else WakeAll(s1, ReadQ(l)), 0)
      else if x.readers > 0 then
        var s1 := SetRw(s, l, x.(readers := x.readers - 1));
        (if x.readers == 1 && x.writeQueue != [] then WakeFirst(s1, WriteQ(l)) else s1, 0)
      else (s, 0)
  }

  // ------------------------------------------------------------------ barriers

  function SetBarrier(s: State, b: Addr, x: Barrier): State { s.(barriers := s.barriers[b := x]) }

  function DoBarrierInit(s: State, b: Addr, count: nat): Outcome {
    if count == 0 then (s, EINVAL) else (SetBarrier(s, b, Barrier(count, 0, 0, [])), 0)
  }

  function DoBarrierDestroy(s: State, b: Addr): Outcome {
    if b !in s.barriers then (s, EINVAL)
    else if s.barriers[b].waiting > 0 then (s, EBUSY)
    else (s.(barriers := s.barriers - {b}), 0)
  }

  function FindBarrier(s: State, b: Addr): State {
    if b in s.barriers then s else SetBarrier(s, b, Barrier(1, 0, 0, []))
  }

  function DoBarrierWait(s0: State, b: Addr, due: seq<Tid>): Outcome
    requires s0.current in s0.threads
  {
    var s := FindBarrier(s0, b);
    var x := s.barriers[b];
    if x.waiting + 1 >= x.count then
      (WakeAll(SetBarrier(s, b, x.(waiting := 0, generation := x.generation + 1)), BarrierQ(b)), SERIAL_THREAD)
    else
      var s1 := SetBarrier(s, b, x.(waiting := x.waiting + 1));
      var th := s1.threads[s1.current].(barrierWait := b, pc := BARRIER_RESUME);
      (Switch(Enqueue(s1, BarrierQ(b), th, b), due), SWITCHED)
  }

  function BarrierResume(s: State, at: Addr): Outcome
    requires s.current in s.threads
  { (SetThread(s, s.current, s.threads[s.current].(barrierWait := 0)).(pc := at), 0) }

  // ------------------------------------------------------------------ steps

  datatype Op =
    | Create(entry: Addr)
    | Join(t: Tid)
    | Detach(t: Tid)
    | Exit(v: nat)
    | Sleep
    | MutexInit(m: Addr, kind: int)
    | MutexDestroy(m: Addr)
    | MutexLock(m: Addr, kind: int)   // kind: what the static initialiser in guest memory says
    | TryLock(m: Addr)
    | Unlock(m: Addr)
    | CondInit(c: Addr)
    | CondDestroy(c: Addr)
    | CondWait(c: Addr, m: Addr)
    | Signal(c: Addr)
    | Broadcast(c: Addr)
    | RwInit(l: Addr)
    | RwDestroy(l: Addr)
    | ReadLock(l: Addr)
    | TryReadLock(l: Addr)
    | WriteLock(l: Addr)
    | TryWriteLock(l: Addr)
    | RwUnlock(l: Addr)
    | BarrierInit(b: Addr, n: nat)
    | BarrierDestroy(b: Addr)
    | BarrierWait(b: Addr)

  /** A guest call issued at address `at`; a resume trampoline that on completion returns to
      `at`; or a context switch nobody asked for.  `due` lists the sleepers found ready. */
  datatype Step = Guest(op: Op, at: Addr, due: seq<Tid>) | Resume(at: Addr, due: seq<Tid>) | Preempt(due: seq<Tid>)

  /** What callers of the pthread API must respect: no object lives at address zero, and none
      is destroyed or re-initialised while threads wait in it. */
  predicate Usage(s: State, op: Op) {
    match op
    case Create(entry) => !IsResume(entry)
    case MutexInit(m, _) => m != 0 && Queue(s, MutexQ(m)) == []
    case MutexDestroy(m) => Queue(s, MutexQ(m)) == []
    case MutexLock(m, _) => m != 0
    case TryLock(m) => m != 0
    case CondInit(c) => Queue(s, CondQ(c)) == []
    case CondDestroy(c) => Queue(s, CondQ(c)) == []
    case CondWait(c, m) => m != 0
    case RwInit(l) => Queue(s, ReadQ(l)) == [] && Queue(s, WriteQ(l)) == []
    case RwDestroy(l) => Queue(s, ReadQ(l)) == [] && Queue(s, WriteQ(l)) == []
    case BarrierInit(b, _) => b != 0 && Queue(s, BarrierQ(b)) == []
    case BarrierWait(b) => b != 0
    case _ => true
  }

  function Perform(s: State, op: Op, due: seq<Tid>): Outcome
    requires s.current in s.threads
  {
    match op
    case Create(entry) => DoCreate(s, entry)
    case Join(t) => DoJoin(s, t, due)
    case Detach(t) => DoDetach(s, t)
    case Exit(v) => DoExit(s, v, due)
    case Sleep => DoSleep(s, due)
    case MutexInit(m, kind) => (SetMutex(s, m, Mutex(false, 0, 0, kind, [])), 0)
    case MutexDestroy(m) => (s.(mutexes := s.mutexes - {m}), 0)
    case MutexLock(m, kind) => DoMutexLock(s, m, kind, due)
    case TryLock(m) => DoTryLock(s, m)
    case Unlock(m) => DoUnlock(s, m)
    case CondInit(c) => (s.(conds := s.conds[c := []]), 0)
    case CondDestroy(c) => (s.(conds := s.conds - {c}), 0)
    case CondWait(c, m) => DoCondWait(s, c, m, due)
    case Signal(c) => DoSignal(s, c)
    case Broadcast(c) => DoBroadcast(s, c)
    case RwInit(l) => (SetRw(s, l, RwLock(0, 0, 0, [], [])), 0)
    case RwDestroy(l) => (s.(rwlocks := s.rwlocks - {l}), 0)
    case ReadLock(l) => DoReadLock(s, l, due)
    case TryReadLock(l) => DoTryReadLock(s, l)
    case WriteLock(l) => DoWriteLock(s, l, due)
    case TryWriteLock(l) => DoTryWriteLock(s, l)
    case RwUnlock(l) => DoRwUnlock(s, l)
    case BarrierInit(b, n) => DoBarrierInit(s, b, n)
    case BarrierDestroy(b) => DoBarrierDestroy(s, b)
    case BarrierWait(b) => DoBarrierWait(s, b, due)
  }

  function ResumeAt(s: State, at: Addr, due: seq<Tid>): Outcome
    requires s.current in s.threads
  {
    if s.pc == MUTEX_RESUME then MutexResume(s, at, due)
    else if s.pc == COND_RESUME then CondResume(s, at, due)
    else if s.pc == JOIN_RESUME then JoinResume(s, at)
    else BarrierResume(s, at)
  }

  predicate CurrentRuns(s: State) { s.current in s.threads && s.threads[s.current].state.Running? }

  /** A guest call needs the running thread to be in guest code; a trampoline runs exactly when
      the CPU stands at it; a context switch may come at any time. */
  predicate Enabled(s: State, e: Step) {
    match e
    case Guest(op, at, _) => CurrentRuns(s) && !IsResume(s.pc) && !IsResume(at) && Usage(s, op)
    case Resume(at, _) => CurrentRuns(s) && IsResume(s.pc) && s.pc != RD_RESUME && s.pc != WR_RESUME && !IsResume(at)
    case Preempt(_) => true
  }

  function Do(s: State, e: Step): Outcome
    requires Enabled(s, e)
  {
    match e
    case Guest(op, at, due) => Perform(s.(pc := at), op, due)
    case Resume(at, due) => ResumeAt(s, at, due)
    case Preempt(due) => (Switch(s, due), SWITCHED)
  }

  function Next(s: State, e: Step): State
    requires Enabled(s, e)
  { Do(s, e).0 }

  /** The main thread, id 1, runs; nothing else exists. */
  predicate Init(s: State) {
    && s.threads == map[1 := NewThread(s.pc).(state := Running)]
    && s.current == 1 && s.runq == [] && !IsResume(s.pc) && s.nextTid == 4096
    && s.mutexes == map[] && s.conds == map[] && s.rwlocks == map[] && s.barriers == map[]
  }

  /** tr[0], tr[1], ... joined by the steps es[0], es[1], ... */
  ghost predicate IsTrace(tr: seq<State>, es: seq<Step>) {
    && |tr| == |es| + 1
    && forall i :: 0 <= i < |es| ==> Enabled(tr[i], es[i]) && tr[i + 1] == Next(tr[i], es[i])
  }

  ghost predicate IsRun(tr: seq<State>, es: seq<Step>) {
    IsTrace(tr, es) && Init(tr[0])
  }
}
