/**
 The request/mailbox protocol between calling host threads, the vCPU workers that
 run guest functions, and the shutdown loop.

 Every mutex acquisition, predicate evaluation, park, store and notify is its own
 atomic event, so a run is an arbitrary interleaving.  `wait` is two events: the
 predicate is evaluated under the mutex, and later the mutex is released and the
 thread parked, atomically with each other.  A parked thread leaves only when it is
 notified or wakes spuriously; the five second re-check of the callers is not used.
 */
module Mailbox {
  import opened Options

  type Tid = nat
  type Rid = nat
  type Value = nat

  /** Who holds a mutex. */
  datatype Agent = CallerAgent(t: Tid) | WorkerAgent(w: nat) | Stopper

  /** Where a calling host thread is inside `call_function`. */
  datatype CallerPc =
    | Idle
    | WantBox      // request built and routed; about to lock the mailbox
    | Pushing      // mailbox locked, request not yet queued
    | Notifying    // queued, mailbox still locked, notify_one not yet issued
    | LeavingBox   // notified, about to unlock the mailbox
    | WantReq      // about to lock request->mutex
    | Testing      // request locked, about to read `completed`
    | Parking      // read false; about to release and park
    | Parked(notified: bool)
    | Returning    // read true; about to unlock and return the result

  /** Where a worker is inside `run_request_loop`. */
  datatype WorkerPc =
    | Offline      // pool worker that has not been spawned yet
    | Top          // about to read should_stop_ in the loop condition
    | WantMail     // about to lock its mailbox
    | Checking     // mailbox locked, about to evaluate the wait predicate
    | Dozing       // predicate false; about to release and park
    | Asleep(woken: bool)
    | Deciding     // predicate true, mailbox locked, about to re-read should_stop_
    | Popping      // saw no stop; about to pop and unlock
    | Running      // executing the request
    | Finished     // result computed, about to lock request->mutex
    | Storing      // request locked, result and `completed` not yet stored
    | Stored       // stored, about to unlock the request
    | Signalling   // unlocked, about to notify_one
    | Exited

  /** How far a request has travelled.  No guard reads this field: it records history. */
  datatype Stage = Built | Queued | Taken | Done | Signalled

  datatype Caller = Caller(
    pc: CallerPc,
    req: Rid,
    box: nat,
    affinity: int,              // tl_affinity_worker, -1 until assigned
    route: seq<nat>,            // every mailbox index this thread has used, oldest first
    returned: seq<(Rid, Value)> // every call it has finished, with the value it returned
  )

  datatype Worker = Worker(pc: WorkerPc, req: Rid, value: Value)

  datatype Box = Box(queue: seq<Rid>, holder: Option<Agent>)

  datatype Request = Request(
    caller: Tid, box: nat, completed: bool, result: Value,
    holder: Option<Agent>, stage: Stage)

  datatype StopPc =
    | NotStopping
    | Sweeping(i: nat)   // about to lock mailbox i
    | Waking(i: nat)     // mailbox i locked, notify_all not yet issued
    | Leaving(i: nat)    // notify_all issued, about to unlock mailbox i
    | Joining

  datatype State = State(
    boxes: seq<Box>,            // 0 = main emulator thread, 1..N = pool workers
    workers: seq<Worker>,
    callers: map<Tid, Caller>,
    requests: map<Rid, Request>,
    stopping: bool,             // should_stop_
    stopPc: StopPc,
    spawned: bool,              // workers_spawned_
    cursor: nat,                // next_affinity_worker_
    pops: seq<(nat, Rid)>,      // history: which worker popped which request
    computed: map<Rid, Value>   // history: what call_function_internal returned for it
  )

  /** One atomic action of a calling thread. */
  datatype CallerAct =
    | Begin(r: Rid)   // make the request and pick the mailbox
    | LockBox
    | Push
    | NotifyBox
    | UnlockBox
    | LockReq
    | TestReq
    | ParkReq
    | WakeReq
    | SpuriousReq
    | Return

  /** One atomic action of a worker. */
  datatype WorkerAct =
    | LoopTop
    | LockMail
    | CheckMail
    | ParkMail
    | WakeMail
    | SpuriousMail
    | Decide
    | Pop
    | Spawn              // worker 0 brings the whole pool online
    | Execute(v: Value)  // call_function_internal returned v
    | LockDone
    | Store
    | UnlockDone
    | Signal

  /** One atomic action of stop_emulator_thread. */
  datatype StopAct = StopBegin | SweepLock | SweepNotify | SweepUnlock | SweepEnd

  datatype Event = Call(t: Tid, c: CallerAct) | Work(w: nat, k: WorkerAct) | Halt(h: StopAct)

  // ------------------------------------------------------------------ routing

  /** pick_affinity_worker: the mailbox and the thread's affinity afterwards. */
  function Pick(spawned: bool, n: nat, affinity: int, cursor: nat): (r: (nat, int, nat))
    requires 1 <= affinity ==> affinity <= n
    ensures if spawned && n > 0 then 1 <= r.0 <= n && r.1 == r.0 else r.0 == 0 && r.1 == affinity
    ensures 1 <= r.1 ==> r.1 <= n
    ensures 1 <= affinity ==> r.1 == affinity
  {
    if spawned && n > 0 then
      if affinity < 1 then (1 + cursor % n, 1 + cursor % n, cursor + 1)
      else (affinity, affinity, cursor)
    else (0, affinity, cursor)
  }

  // ------------------------------------------------------------------ helpers

  function Pool(s: State): nat
    requires |s.boxes| > 0
  { |s.boxes| - 1 }

  function SetCaller(s: State, t: Tid, pc: CallerPc): State
    requires t in s.callers
  { s.(callers := s.callers[t := s.callers[t].(pc := pc)]) }

  function SetWorker(s: State, w: nat, pc: WorkerPc): State
    requires w < |s.workers|
  { s.(workers := s.workers[w := s.workers[w].(pc := pc)]) }

  function SetHolder(s: State, b: nat, h: Option<Agent>): State
    requires b < |s.boxes|
  { s.(boxes := s.boxes[b := s.boxes[b].(holder := h)]) }

  function SetReq(s: State, r: Rid, q: Request): State
  { s.(requests := s.requests[r := q]) }

  function SetReqHolder(s: State, r: Rid, h: Option<Agent>): State
    requires r in s.requests
  { SetReq(s, r, s.requests[r].(holder := h)) }

  /** notify_one / notify_all on a mailbox: only that mailbox's worker waits there. */
  function NotifyWorker(s: State, b: nat): State
    requires b < |s.workers|
  { if s.workers[b].pc == Asleep(false) then SetWorker(s, b, Asleep(true)) else s }

  /** notify_one on a request: only its caller waits there. */
  function NotifyCaller(s: State, r: Rid): State
    requires r in s.requests
  {
    var t := s.requests[r].caller;
    if t in s.callers && s.callers[t].req == r && s.callers[t].pc == Parked(false)
    then SetCaller(s, t, Parked(true)) else s
  }

  // ------------------------------------------------------------------ events

  predicate CallerAt(s: State, t: Tid, pc: CallerPc) { t in s.callers && s.callers[t].pc == pc }

  predicate WorkerAt(s: State, w: nat, pc: WorkerPc) { w < |s.workers| && s.workers[w].pc == pc }

  /** Shape facts every guard may rely on; part of the invariant below. */
  ghost predicate Shape(s: State) {
    && 0 < |s.boxes| == |s.workers|
    && (forall t :: t in s.callers ==>
         var c := s.callers[t];
         && (1 <= c.affinity ==> c.affinity <= Pool(s))
         && (!c.pc.Idle? ==> c.req in s.requests && c.box < |s.boxes|))
    && (forall w :: 0 <= w < |s.workers| && HasReq(s.workers[w].pc) ==> s.workers[w].req in s.requests)
    && (match s.stopPc
        case Sweeping(i) => i <= |s.boxes|
        case Waking(i) => i < |s.boxes|
        case Leaving(i) => i < |s.boxes|
        case _ => true)
  }

  predicate HasReq(pc: WorkerPc) {
    pc.Running? || pc.Finished? || pc.Storing? || pc.Stored? || pc.Signalling?
  }

  ghost predicate CallerGuard(s: State, t: Tid, c: CallerAct)
    requires Shape(s)
  {
    match c
    case Begin(r) => CallerAt(s, t, Idle) && r !in s.requests
    case LockBox => CallerAt(s, t, WantBox) && s.boxes[s.callers[t].box].holder.None?
    case Push => CallerAt(s, t, Pushing)
    case NotifyBox => CallerAt(s, t, Notifying)
    case UnlockBox => CallerAt(s, t, LeavingBox)
    case LockReq => CallerAt(s, t, WantReq) && s.requests[s.callers[t].req].holder.None?
    case TestReq => CallerAt(s, t, Testing)
    case ParkReq => CallerAt(s, t, Parking)
    case WakeReq => CallerAt(s, t, Parked(true))
    case SpuriousReq => CallerAt(s, t, Parked(false))
    case Return => CallerAt(s, t, Returning)
  }

  ghost predicate WorkerGuard(s: State, w: nat, k: WorkerAct)
    requires Shape(s)
  {
    match k
    case LoopTop => WorkerAt(s, w, Top)
    case LockMail => WorkerAt(s, w, WantMail) && s.boxes[w].holder.None?
    case CheckMail => WorkerAt(s, w, Checking)
    case ParkMail => WorkerAt(s, w, Dozing)
    case WakeMail => WorkerAt(s, w, Asleep(true))
    case SpuriousMail => WorkerAt(s, w, Asleep(false))
    case Decide => WorkerAt(s, w, Deciding)
    case Pop => WorkerAt(s, w, Popping)
    case Spawn => w == 0 && WorkerAt(s, w, Running) && !s.spawned
    case Execute(v) => WorkerAt(s, w, Running)
    case LockDone => WorkerAt(s, w, Finished) && s.requests[s.workers[w].req].holder.None?
    case Store => WorkerAt(s, w, Storing)
    case UnlockDone => WorkerAt(s, w, Stored)
    case Signal => WorkerAt(s, w, Signalling)
  }

  ghost predicate StopGuard(s: State, h: StopAct) {
    match h
    case StopBegin => s.stopPc.NotStopping?
    case SweepLock => s.stopPc.Sweeping? && s.stopPc.i < |s.boxes| && s.boxes[s.stopPc.i].holder.None?
    case SweepNotify => s.stopPc.Waking?
    case SweepUnlock => s.stopPc.Leaving?
    case SweepEnd => s.stopPc.Sweeping? && s.stopPc.i == |s.boxes|
  }

  ghost predicate Guard(s: State, e: Event)
    requires Shape(s)
  {
    match e
    case Call(t, c) => CallerGuard(s, t, c)
    case Work(w, k) => WorkerGuard(s, w, k)
    case Halt(h) => StopGuard(s, h)
  }

  // ------------------------------------------------------------------ effects

  function DoBegin(s: State, t: Tid, r: Rid): State
    requires |s.boxes| > 0 && t in s.callers
    requires 1 <= s.callers[t].affinity ==> s.callers[t].affinity <= Pool(s)
  {
    var c := s.callers[t];
    var (b, a, k) := Pick(s.spawned, Pool(s), c.affinity, s.cursor);
    s.(requests := s.requests[r := Request(t, b, false, 0, None, Built)],
       callers := s.callers[t := c.(pc := WantBox, req := r, box := b, affinity := a,
                                    route := c.route + [b])],
       cursor := k)
  }

  function DoPush(s: State, t: Tid): State
    requires t in s.callers && s.callers[t].req in s.requests && s.callers[t].box < |s.boxes|
  {
    var c := s.callers[t];
    var q := s.boxes[c.box];
    SetCaller(
      s.(boxes := s.boxes[c.box := q.(queue := q.queue + [c.req])],
         requests := s.requests[c.req := s.requests[c.req].(stage := Queued)]),
      t, Notifying)
  }

  function DoReturn(s: State, t: Tid): State
    requires t in s.callers && s.callers[t].req in s.requests
  {
    var c := s.callers[t];
    var q := s.requests[c.req];
    SetReq(s, c.req, q.(holder := None))
    .(callers := s.callers[t := c.(pc := Idle, returned := c.returned + [(c.req, q.result)])])
  }

  ghost function CallerDo(s: State, t: Tid, c: CallerAct): State
    requires Shape(s) && CallerGuard(s, t, c)
  {
    match c
    case Begin(r) => DoBegin(s, t, r)
    case LockBox => SetCaller(SetHolder(s, s.callers[t].box, Some(CallerAgent(t))), t, Pushing)
    case Push => DoPush(s, t)
    case NotifyBox => SetCaller(NotifyWorker(s, s.callers[t].box), t, LeavingBox)
    case UnlockBox => SetCaller(SetHolder(s, s.callers[t].box, None), t, WantReq)
    case LockReq => SetCaller(SetReqHolder(s, s.callers[t].req, Some(CallerAgent(t))), t, Testing)
    case TestReq => SetCaller(s, t, if s.requests[s.callers[t].req].completed then Returning else Parking)
    case ParkReq => SetCaller(SetReqHolder(s, s.callers[t].req, None), t, Parked(false))
    case WakeReq => SetCaller(s, t, WantReq)
    case SpuriousReq => SetCaller(s, t, WantReq)
    case Return => DoReturn(s, t)
  }

  /** The pop and the release of the mailbox that follows it. */
  function DoPop(s: State, w: nat): State
    requires w < |s.workers| == |s.boxes|
  {
    var q := s.boxes[w].queue;
    if q == [] then SetHolder(SetWorker(s, w, Top), w, None)
    else
      var r := q[0];
      s.(boxes := s.boxes[w := Box(q[1..], None)],
         workers := s.workers[w := s.workers[w].(pc := Running, req := r)],
         requests := if r in s.requests then s.requests[r := s.requests[r].(stage := Taken)] else s.requests,
         pops := s.pops + [(w, r)])
  }

  function DoSpawn(s: State): State
    requires |s.workers| > 0
  {
    s.(spawned := true,
       workers := seq(|s.workers|, i requires 0 <= i < |s.workers| =>
         if s.workers[i].pc.Offline? then s.workers[i].(pc := Top) else s.workers[i]))
  }

  function DoExecute(s: State, w: nat, v: Value): State
    requires w < |s.workers|
  {
    s.(workers := s.workers[w := s.workers[w].(pc := Finished, value := v)],
       computed := s.computed[s.workers[w].req := v])
  }

  function DoStore(s: State, w: nat): State
    requires w < |s.workers| && s.workers[w].req in s.requests
  {
    var r := s.workers[w].req;
    SetWorker(SetReq(s, r, s.requests[r].(completed := true, result := s.workers[w].value, stage := Done)),
              w, Stored)
  }

  function DoSignal(s: State, w: nat): State
    requires w < |s.workers| && s.workers[w].req in s.requests
  {
    var r := s.workers[w].req;
    SetWorker(SetReq(NotifyCaller(s, r), r, s.requests[r].(stage := Signalled)), w, Top)
  }

  ghost function WorkerDo(s: State, w: nat, k: WorkerAct): State
    requires Shape(s) && WorkerGuard(s, w, k)
  {
    match k
    case LoopTop => SetWorker(s, w, if s.stopping then Exited else WantMail)
    case LockMail => SetWorker(SetHolder(s, w, Some(WorkerAgent(w))), w, Checking)
    case CheckMail => SetWorker(s, w, if s.boxes[w].queue != [] || s.stopping then Deciding else Dozing)
    case ParkMail => SetWorker(SetHolder(s, w, None), w, Asleep(false))
    case WakeMail => SetWorker(s, w, WantMail)
    case SpuriousMail => SetWorker(s, w, WantMail)
    case Decide =>
      if s.stopping then SetWorker(SetHolder(s, w, None), w, Exited) else SetWorker(s, w, Popping)
    case Pop => DoPop(s, w)
    case Spawn => DoSpawn(s)
    case Execute(v) => DoExecute(s, w, v)
    case LockDone => SetWorker(SetReqHolder(s, s.workers[w].req, Some(WorkerAgent(w))), w, Storing)
    case Store => DoStore(s, w)
    case UnlockDone => SetWorker(SetReqHolder(s, s.workers[w].req, None), w, Signalling)
    case Signal => DoSignal(s, w)
  }

  ghost function StopDo(s: State, h: StopAct): State
    requires Shape(s) && StopGuard(s, h)
  {
    match h
    case StopBegin => s.(stopping := true, stopPc := Sweeping(0))
    case SweepLock => SetHolder(s, s.stopPc.i, Some(Stopper)).(stopPc := Waking(s.stopPc.i))
    case SweepNotify => NotifyWorker(s, s.stopPc.i).(stopPc := Leaving(s.stopPc.i))
    case SweepUnlock => SetHolder(s, s.stopPc.i, None).(stopPc := Sweeping(s.stopPc.i + 1))
    case SweepEnd => s.(stopPc := Joining)
  }

  ghost function Do(s: State, e: Event): State
    requires Shape(s) && Guard(s, e)
  {
    match e
    case Call(t, c) => CallerDo(s, t, c)
    case Work(w, k) => WorkerDo(s, w, k)
    case Halt(h) => StopDo(s, h)
  }

  // ------------------------------------------------------------------ runs

  /** n pool workers, all offline; every caller idle; nothing queued. */
  ghost predicate Init(s: State, n: nat) {
    && |s.boxes| == |s.workers| == n + 1
    && (forall b :: 0 <= b <= n ==> s.boxes[b] == Box([], None))
    && (forall w :: 0 <= w <= n ==> s.workers[w].pc == if w == 0 then Top else Offline)
    && (forall t :: t in s.callers ==>
          s.callers[t].pc == Idle && s.callers[t].affinity == -1 &&
          s.callers[t].route == [] && s.callers[t].returned == [])
    && s.requests == map[] && !s.stopping && s.stopPc == NotStopping && !s.spawned
    && s.pops == [] && s.computed == map[]
  }

  ghost predicate Next(s: State, e: Event, s': State) {
    Shape(s) && Guard(s, e) && s' == Do(s, e)
  }

  /** The i-th event leads from tr[i] to tr[i + 1]. */
  ghost predicate Moved(tr: seq<State>, es: seq<Event>, i: nat)
    requires |tr| == |es| + 1 && i < |es|
  { Next(tr[i], es[i], tr[i + 1]) }

  /** A run: states tr[0], tr[1], ... joined by the events es[0], es[1], ... */
  ghost predicate IsRun(n: nat, tr: seq<State>, es: seq<Event>) {
    && |tr| == |es| + 1
    && Init(tr[0], n)
    && forall i {:trigger Moved(tr, es, i)} :: 0 <= i < |es| ==> Moved(tr, es, i)
  }
}
