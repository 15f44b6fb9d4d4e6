/**
 The invariant of the mailbox protocol, and that every event, so every interleaving, keeps it.
 */
module MailboxProofs {
  import opened Options
  import opened Mailbox

  predicate HoldsBox(pc: CallerPc) { pc.Pushing? || pc.Notifying? || pc.LeavingBox? }

  predicate HoldsReq(pc: CallerPc) { pc.Testing? || pc.Parking? || pc.Returning? }

  predicate HoldsMail(pc: WorkerPc) { pc.Checking? || pc.Dozing? || pc.Deciding? || pc.Popping? }

  predicate HoldsDone(pc: WorkerPc) { pc.Storing? || pc.Stored? }

  predicate Early(pc: CallerPc) { pc.WantBox? || pc.Pushing? }

  predicate Executing(pc: WorkerPc) { pc.Running? || pc.Finished? || pc.Storing? }

  predicate Completing(pc: WorkerPc) { pc.Stored? || pc.Signalling? }

  /** The request has not been popped yet. */
  predicate Fresh(g: Stage) { g.Built? || g.Queued? }

  /** The shutdown loop has already issued its notify_all on mailbox b. */
  predicate Swept(s: State, b: nat) {
    match s.stopPc
    case NotStopping => false
    case Sweeping(i) => b < i
    case Waking(i) => b < i
    case Leaving(i) => b <= i
    case Joining => true
  }

  // ------------------------------------------------------------------ invariant

  /** A calling thread: the mutex it holds, the request it owns, and what it may conclude. */
  ghost predicate CallerOk(s: State, t: Tid)
    requires t in s.callers
  {
    var c := s.callers[t];
    && (c.affinity >= 1 ==> s.spawned && c.affinity < |s.boxes|)
    && (!c.pc.Idle? ==>
          && c.req in s.requests && c.box < |s.boxes|
          && var q := s.requests[c.req];
          && q.caller == t && q.box == c.box
          && (q.stage.Built? <==> Early(c.pc))
          && (HoldsBox(c.pc) ==> s.boxes[c.box].holder == Some(CallerAgent(t)))
          && (HoldsReq(c.pc) ==> q.holder == Some(CallerAgent(t)))
          && (c.pc.Parking? ==> !q.completed)
          && (c.pc.Returning? ==> q.completed)
          && (c.pc == Parked(false) ==> !q.stage.Signalled?))
  }

  /** A worker: the mutex it holds, the request it serves, and why it may sleep. */
  ghost predicate WorkerOk(s: State, w: nat)
    requires w < |s.workers| == |s.boxes|
  {
    var k, b := s.workers[w], s.boxes[w];
    && (HoldsMail(k.pc) ==> b.holder == Some(WorkerAgent(w)))
    && (k.pc.Exited? ==> s.stopping)
    && (k.pc.Offline? <==> w > 0 && !s.spawned)
    && (k.pc.Dozing? ==> b.queue == [] && !Swept(s, w))
    && (k.pc == Asleep(false) ==> !Swept(s, w) && (b.queue != [] ==> PushInProgress(s, w)))
    && (k.pc.Deciding? ==> b.queue != [] || s.stopping)
    && (k.pc.Popping? ==> b.queue != [])
    && (HasReq(k.pc) ==>
          && k.req in s.requests
          && var q := s.requests[k.req];
          && q.box == w
          && q.stage == (if Executing(k.pc) then Taken else Done)
          && (HoldsDone(k.pc) ==> q.holder == Some(WorkerAgent(w)))
          && (k.pc.Running? ==> k.req !in s.computed)
          && (!k.pc.Running? ==> k.req in s.computed && s.computed[k.req] == k.value))
  }

  /** Some caller has pushed to mailbox b, still holds its mutex, and is about to notify. */
  ghost predicate PushInProgress(s: State, b: nat)
    requires b < |s.boxes|
  {
    && s.boxes[b].holder.Some? && s.boxes[b].holder.value.CallerAgent?
    && CallerAt(s, s.boxes[b].holder.value.t, Notifying)
  }

  /** A mailbox: its holder is really inside, and it queues only its own waiting requests. */
  ghost predicate BoxOk(s: State, b: nat)
    requires b < |s.workers| == |s.boxes|
  {
    var h, q := s.boxes[b].holder, s.boxes[b].queue;
    && (h.Some? ==>
          match h.value
          case CallerAgent(t) => t in s.callers && s.callers[t].box == b && HoldsBox(s.callers[t].pc)
          case WorkerAgent(w) => w == b && HoldsMail(s.workers[b].pc)
          case Stopper => (s.stopPc.Waking? || s.stopPc.Leaving?) && s.stopPc.i == b)
    && (forall i :: 0 <= i < |q| ==>
          q[i] in s.requests && s.requests[q[i]].stage == Queued && s.requests[q[i]].box == b)
    && (forall i, j :: 0 <= i < j < |q| ==> q[i] != q[j])
  }

  /** A request is in exactly the one place its stage names, and its result is its own. */
  ghost predicate RequestOk(s: State, r: Rid)
    requires r in s.requests && |s.workers| == |s.boxes|
  {
    var q := s.requests[r];
    && q.box < |s.boxes|
    && (q.box > 0 ==> s.spawned)
    && (q.holder.Some? ==>
          match q.holder.value
          case CallerAgent(t) => t in s.callers && s.callers[t].req == r && HoldsReq(s.callers[t].pc)
          case WorkerAgent(w) => w < |s.workers| && s.workers[w].req == r && HoldsDone(s.workers[w].pc)
          case Stopper => false)
    && (q.stage.Built? ==>
          q.caller in s.callers && s.callers[q.caller].req == r && Early(s.callers[q.caller].pc))
    && (q.stage.Queued? ==> r in s.boxes[q.box].queue)
    && (q.stage.Taken? ==> s.workers[q.box].req == r && Executing(s.workers[q.box].pc))
    && (q.stage.Done? ==> s.workers[q.box].req == r && Completing(s.workers[q.box].pc))
    && (q.completed <==> q.stage.Done? || q.stage.Signalled?)
    && (q.completed ==> r in s.computed && s.computed[r] == q.result)
    && (Fresh(q.stage) ==> r !in s.computed)
  }

  /** The shutdown loop holds the mailbox it is visiting. */
  ghost predicate StopOk(s: State) {
    && (s.stopping <==> !s.stopPc.NotStopping?)
    && (s.stopPc.Sweeping? ==> s.stopPc.i <= |s.boxes|)
    && (s.stopPc.Waking? || s.stopPc.Leaving? ==>
          s.stopPc.i < |s.boxes| && s.boxes[s.stopPc.i].holder == Some(Stopper))
  }

  ghost predicate Core(s: State) {
    && 0 < |s.boxes| == |s.workers|
    && (forall t {:trigger CallerOk(s, t)} :: t in s.callers ==> CallerOk(s, t))
    && (forall w: nat {:trigger WorkerOk(s, w)} :: w < |s.workers| ==> WorkerOk(s, w))
    && (forall b: nat {:trigger BoxOk(s, b)} :: b < |s.boxes| ==> BoxOk(s, b))
    && (forall r {:trigger RequestOk(s, r)} :: r in s.requests ==> RequestOk(s, r))
    && s.computed.Keys <= s.requests.Keys
    && StopOk(s)
  }

  lemma CoreShape(s: State)
    requires Core(s)
    ensures Shape(s)
  {
    forall t | t in s.callers
      ensures 1 <= s.callers[t].affinity ==> s.callers[t].affinity <= Pool(s)
      ensures !s.callers[t].pc.Idle? ==> s.callers[t].req in s.requests && s.callers[t].box < |s.boxes|
    {
      assert CallerOk(s, t);
    }
    forall w | 0 <= w < |s.workers| && HasReq(s.workers[w].pc) ensures s.workers[w].req in s.requests {
      assert WorkerOk(s, w);
    }
  }

  lemma InitCore(s: State, n: nat)
    requires Init(s, n)
    ensures Core(s)
  {
  }

  // ------------------------------------------------------------------ preservation

  predicate InCall(s: State, t: Tid) {
    && t in s.callers && !s.callers[t].pc.Idle? && s.callers[t].req in s.requests
    && s.callers[t].box < |s.boxes| == |s.workers|
  }

  predicate InLoop(s: State, w: nat) {
    w < |s.workers| == |s.boxes| && (HasReq(s.workers[w].pc) ==> s.workers[w].req in s.requests)
  }

  /** Caller t takes, keeps, drops or ignores its request mutex. */
  ghost function ReqMove(s: State, t: Tid, c: Caller, h: Option<Agent>): State
    requires InCall(s, t)
  {
    s.(callers := s.callers[t := c],
       requests := s.requests[s.callers[t].req := s.requests[s.callers[t].req].(holder := h)])
  }

  ghost predicate ReqMoveOk(s: State, t: Tid, c: Caller, h: Option<Agent>)
    requires InCall(s, t)
  {
    var c0, q := s.callers[t], s.requests[s.callers[t].req];
    && !Early(c0.pc) && !HoldsBox(c0.pc) && !Early(c.pc) && !HoldsBox(c.pc)
    && c.req == c0.req && c.box == c0.box && c.affinity == c0.affinity
    && h == (if HoldsReq(c.pc) then Some(CallerAgent(t)) else if HoldsReq(c0.pc) then None else q.holder)
    && (HoldsReq(c.pc) && !HoldsReq(c0.pc) ==> q.holder.None?)
    && (c.pc.Parking? ==> !q.completed)
    && (c.pc.Returning? ==> q.completed)
    && (c.pc == Parked(false) ==> !q.stage.Signalled?)
  }

  lemma ReqMoveBoxes(s: State, t: Tid, c: Caller, h: Option<Agent>, b: nat)
    requires Core(s) && InCall(s, t) && ReqMoveOk(s, t, c, h) && b < |s.boxes|
    ensures WorkerOk(ReqMove(s, t, c, h), b) && BoxOk(ReqMove(s, t, c, h), b)
  {
    assert CallerOk(s, t) && WorkerOk(s, b) && BoxOk(s, b);
  }

  lemma ReqMoveCore(s: State, t: Tid, c: Caller, h: Option<Agent>)
    requires Core(s) && InCall(s, t) && ReqMoveOk(s, t, c, h)
    ensures Core(ReqMove(s, t, c, h))
  {
    var s' := ReqMove(s, t, c, h);
    assert CallerOk(s, t);
    forall u | u in s'.callers ensures CallerOk(s', u) { assert CallerOk(s, u); }
    forall b: nat | b < |s'.boxes| ensures WorkerOk(s', b) && BoxOk(s', b) { ReqMoveBoxes(s, t, c, h, b); }
    forall p | p in s'.requests ensures RequestOk(s', p) { assert RequestOk(s, p); }
  }

  /** Caller t takes, keeps or drops its mailbox mutex. */
  ghost function BoxMove(s: State, t: Tid, pc: CallerPc, h: Option<Agent>): State
    requires InCall(s, t)
  { SetCaller(SetHolder(s, s.callers[t].box, h), t, pc) }

  ghost predicate BoxMoveOk(s: State, t: Tid, pc: CallerPc, h: Option<Agent>)
    requires InCall(s, t)
  {
    var pc0, b := s.callers[t].pc, s.boxes[s.callers[t].box];
    && ((pc0.WantBox? && pc.Pushing?) || (pc0.Notifying? && pc.LeavingBox?) || (pc0.LeavingBox? && pc.WantReq?))
    && h == (if HoldsBox(pc) then Some(CallerAgent(t)) else None)
    && (pc0.WantBox? ==> b.holder.None?)
    && (pc0.Notifying? ==> s.workers[s.callers[t].box].pc != Asleep(false))
  }

  lemma BoxMoveBoxes(s: State, t: Tid, pc: CallerPc, h: Option<Agent>, b: nat)
    requires Core(s) && InCall(s, t) && BoxMoveOk(s, t, pc, h) && b < |s.boxes|
    ensures WorkerOk(BoxMove(s, t, pc, h), b) && BoxOk(BoxMove(s, t, pc, h), b)
  {
    assert CallerOk(s, t) && WorkerOk(s, b) && BoxOk(s, b);
  }

  lemma BoxMoveCore(s: State, t: Tid, pc: CallerPc, h: Option<Agent>)
    requires Core(s) && InCall(s, t) && BoxMoveOk(s, t, pc, h)
    ensures Core(BoxMove(s, t, pc, h))
  {
    var s' := BoxMove(s, t, pc, h);
    assert CallerOk(s, t) && BoxOk(s, s.callers[t].box);
    forall u | u in s'.callers ensures CallerOk(s', u) { assert CallerOk(s, u); }
    forall b: nat | b < |s'.boxes| ensures WorkerOk(s', b) && BoxOk(s', b) { BoxMoveBoxes(s, t, pc, h, b); }
    forall p | p in s'.requests ensures RequestOk(s', p) { assert RequestOk(s, p); }
  }

  /** Worker w, between requests, moves and takes, keeps or drops its mailbox mutex. */
  ghost function MailMove(s: State, w: nat, pc: WorkerPc, h: Option<Agent>): State
    requires InLoop(s, w)
  { SetWorker(SetHolder(s, w, h), w, pc) }

  ghost predicate MailMoveOk(s: State, w: nat, pc: WorkerPc, h: Option<Agent>)
    requires InLoop(s, w)
  {
    var pc0, b := s.workers[w].pc, s.boxes[w];
    && !HasReq(pc0) && !HasReq(pc) && !pc0.Offline? && !pc.Offline?
    && h == (if HoldsMail(pc) then Some(WorkerAgent(w)) else if HoldsMail(pc0) then None else b.holder)
    && (HoldsMail(pc) && !HoldsMail(pc0) ==> b.holder.None?)
    && (pc.Exited? ==> s.stopping)
    && (pc.Dozing? || pc == Asleep(false) ==> b.queue == [] && !Swept(s, w))
    && (pc.Deciding? ==> b.queue != [] || s.stopping)
    && (pc.Popping? ==> b.queue != [])
  }

  lemma MailMoveBoxes(s: State, w: nat, pc: WorkerPc, h: Option<Agent>, b: nat)
    requires Core(s) && InLoop(s, w) && MailMoveOk(s, w, pc, h) && b < |s.boxes|
    ensures BoxOk(MailMove(s, w, pc, h), b)
  {
    assert BoxOk(s, b);
  }

  lemma MailMoveWorkers(s: State, w: nat, pc: WorkerPc, h: Option<Agent>, b: nat)
    requires Core(s) && InLoop(s, w) && MailMoveOk(s, w, pc, h) && b < |s.boxes|
    ensures WorkerOk(MailMove(s, w, pc, h), b)
  {
    assert WorkerOk(s, b) && BoxOk(s, b);
  }

  lemma MailMoveCore(s: State, w: nat, pc: WorkerPc, h: Option<Agent>)
    requires Core(s) && InLoop(s, w) && MailMoveOk(s, w, pc, h)
    ensures Core(MailMove(s, w, pc, h))
  {
    var s' := MailMove(s, w, pc, h);
    assert WorkerOk(s, w) && BoxOk(s, w);
    forall u | u in s'.callers ensures CallerOk(s', u) { assert CallerOk(s, u); }
    forall b: nat | b < |s'.boxes| ensures WorkerOk(s', b) && BoxOk(s', b) {
      MailMoveWorkers(s, w, pc, h, b);
      MailMoveBoxes(s, w, pc, h, b);
    }
    forall p | p in s'.requests ensures RequestOk(s', p) { assert RequestOk(s, p); }
  }

  /** Worker w moves on with its request r, whose record and computed value may change. */
  ghost function DoneMove(s: State, w: nat, k: Worker, q: Request, v: Value): State
    requires InLoop(s, w)
  {
    s.(workers := s.workers[w := k], requests := s.requests[k.req := q], computed := s.computed[k.req := v])
  }

  ghost predicate DoneMoveOk(s: State, w: nat, k: Worker, q: Request, v: Value)
    requires InLoop(s, w)
  {
    var k0 := s.workers[w];
    && HasReq(k0.pc) && k.req == k0.req && (HasReq(k.pc) ==> !k.pc.Running? && k.value == v) && !HoldsMail(k.pc)
    && (!HasReq(k.pc) ==> k.pc.Top?)
    && var q0 := s.requests[k.req];
    && q.caller == q0.caller && q.box == q0.box
    && q.stage == (if Executing(k.pc) then Taken else if HasReq(k.pc) then Done else Signalled)
    && (q.completed <==> !Executing(k.pc)) && (q0.completed ==> q.completed)
    && (q.completed ==> q.result == v)
    && q.holder == (if HoldsDone(k.pc) then Some(WorkerAgent(w)) else if HoldsDone(k0.pc) then None else q0.holder)
    && (HoldsDone(k.pc) && !HoldsDone(k0.pc) ==> q0.holder.None?)
    && (q.completed && !q0.completed ==> HoldsDone(k0.pc))
    && (q.stage.Signalled? ==> !Waiting(s, k.req))
  }

  /** The caller of r is parked on it and has not been notified. */
  predicate Waiting(s: State, r: Rid)
    requires r in s.requests
  {
    CallerAt(s, s.requests[r].caller, Parked(false)) && s.callers[s.requests[r].caller].req == r
  }

  lemma DoneMoveBoxes(s: State, w: nat, k: Worker, q: Request, v: Value, b: nat)
    requires Core(s) && InLoop(s, w) && DoneMoveOk(s, w, k, q, v) && b < |s.boxes|
    ensures BoxOk(DoneMove(s, w, k, q, v), b)
  {
    assert WorkerOk(s, w) && BoxOk(s, b);
  }

  lemma DoneMoveWorkers(s: State, w: nat, k: Worker, q: Request, v: Value, b: nat)
    requires Core(s) && InLoop(s, w) && DoneMoveOk(s, w, k, q, v) && b < |s.boxes|
    ensures WorkerOk(DoneMove(s, w, k, q, v), b)
  {
    assert WorkerOk(s, w) && WorkerOk(s, b);
  }

  lemma DoneMoveCalls(s: State, w: nat, k: Worker, q: Request, v: Value, u: Tid)
    requires Core(s) && InLoop(s, w) && DoneMoveOk(s, w, k, q, v) && u in s.callers
    ensures CallerOk(DoneMove(s, w, k, q, v), u)
  {
    assert WorkerOk(s, w) && CallerOk(s, u);
  }

  lemma DoneMoveCore(s: State, w: nat, k: Worker, q: Request, v: Value)
    requires Core(s) && InLoop(s, w) && DoneMoveOk(s, w, k, q, v)
    ensures Core(DoneMove(s, w, k, q, v))
  {
    var s' := DoneMove(s, w, k, q, v);
    assert WorkerOk(s, w);
    forall u | u in s'.callers ensures CallerOk(s', u) { DoneMoveCalls(s, w, k, q, v, u); }
    forall b: nat | b < |s'.boxes| ensures WorkerOk(s', b) && BoxOk(s', b) {
      DoneMoveWorkers(s, w, k, q, v, b);
      DoneMoveBoxes(s, w, k, q, v, b);
    }
    forall p | p in s'.requests ensures RequestOk(s', p) { assert RequestOk(s, p); }
  }

  /** The remaining effects: building, queueing and popping a request, notifying, spawning. */
  lemma BeginCore(s: State, t: Tid, r: Rid)
    requires Core(s) && Shape(s) && CallerAt(s, t, Idle) && r !in s.requests
    ensures Core(DoBegin(s, t, r))
  {
    var s' := DoBegin(s, t, r);
    assert CallerOk(s, t);
    forall u | u in s'.callers ensures CallerOk(s', u) { assert CallerOk(s, u); }
    forall b: nat | b < |s'.boxes| ensures WorkerOk(s', b) && BoxOk(s', b) { assert WorkerOk(s, b) && BoxOk(s, b); }
    forall p | p in s'.requests ensures RequestOk(s', p) { assert p != r ==> RequestOk(s, p); }
  }

  lemma PushBoxes(s: State, t: Tid, b: nat)
    requires Core(s) && InCall(s, t) && s.callers[t].pc.Pushing? && b < |s.boxes|
    ensures WorkerOk(DoPush(s, t), b) && BoxOk(DoPush(s, t), b)
  {
    assert CallerOk(s, t) && WorkerOk(s, b) && BoxOk(s, b);
  }

  lemma PushCore(s: State, t: Tid)
    requires Core(s) && InCall(s, t) && s.callers[t].pc.Pushing?
    ensures Core(DoPush(s, t))
  {
    var s' := DoPush(s, t);
    assert CallerOk(s, t) && RequestOk(s, s.callers[t].req);
    forall u | u in s'.callers ensures CallerOk(s', u) { assert CallerOk(s, u); }
    forall b: nat | b < |s'.boxes| ensures WorkerOk(s', b) && BoxOk(s', b) { PushBoxes(s, t, b); }
    forall p | p in s'.requests ensures RequestOk(s', p) { assert RequestOk(s, p); }
  }

  lemma PopBoxes(s: State, w: nat, b: nat)
    requires Core(s) && InLoop(s, w) && s.workers[w].pc.Popping? && b < |s.boxes|
    ensures WorkerOk(DoPop(s, w), b) && BoxOk(DoPop(s, w), b)
  {
    assert WorkerOk(s, w) && BoxOk(s, w);
    assert RequestOk(s, s.boxes[w].queue[0]) && WorkerOk(s, b) && BoxOk(s, b);
  }

  lemma PopCore(s: State, w: nat)
    requires Core(s) && InLoop(s, w) && s.workers[w].pc.Popping?
    ensures Core(DoPop(s, w))
  {
    var s' := DoPop(s, w);
    assert WorkerOk(s, w) && BoxOk(s, w) && RequestOk(s, s.boxes[w].queue[0]);
    forall u | u in s'.callers ensures CallerOk(s', u) { assert CallerOk(s, u); }
    forall b: nat | b < |s'.boxes| ensures WorkerOk(s', b) && BoxOk(s', b) { PopBoxes(s, w, b); }
    forall p | p in s'.requests ensures RequestOk(s', p) { assert RequestOk(s, p); }
  }

  lemma NotifyWorkerCore(s: State, w: nat)
    requires Core(s) && w < |s.workers|
    ensures Core(NotifyWorker(s, w))
  {
    if s.workers[w].pc == Asleep(false) {
      var s' := SetWorker(s, w, Asleep(true));
      forall u | u in s'.callers ensures CallerOk(s', u) { assert CallerOk(s, u); }
      forall b: nat | b < |s'.boxes| ensures WorkerOk(s', b) && BoxOk(s', b) { assert WorkerOk(s, b) && BoxOk(s, b); }
      forall p | p in s'.requests ensures RequestOk(s', p) { assert RequestOk(s, p); }
    }
  }

  lemma NotifyCallerCore(s: State, r: Rid)
    requires Core(s) && r in s.requests
    ensures Core(NotifyCaller(s, r)) && !Waiting(NotifyCaller(s, r), r)
  {
    var t := s.requests[r].caller;
    if Waiting(s, r) {
      var c := s.callers[t].(pc := Parked(true));
      assert CallerOk(s, t);
      ReqMoveCore(s, t, c, s.requests[r].holder);
      assert s.requests[r := s.requests[r]] == s.requests;
    }
  }

  lemma SpawnCore(s: State)
    requires Core(s) && !s.spawned
    ensures Core(DoSpawn(s))
  {
    var s' := DoSpawn(s);
    forall u | u in s'.callers ensures CallerOk(s', u) { assert CallerOk(s, u); }
    forall b: nat | b < |s'.boxes| ensures WorkerOk(s', b) && BoxOk(s', b) { assert WorkerOk(s, b) && BoxOk(s, b); }
    forall p | p in s'.requests ensures RequestOk(s', p) { assert RequestOk(s, p); }
  }

  /** The shutdown loop moves and takes or drops the mutex of mailbox i. */
  lemma SweepCore(s: State, stop: StopPc, i: nat, h: Option<Agent>)
    requires Core(s) && i < |s.boxes|
    requires (s.stopPc == Sweeping(i) && stop == Waking(i) && s.boxes[i].holder.None? && h == Some(Stopper))
          || (s.stopPc == Waking(i) && stop == Leaving(i) && h == Some(Stopper) && s.workers[i].pc != Asleep(false))
          || (s.stopPc == Leaving(i) && stop == Sweeping(i + 1) && h == None)
    ensures Core(SetHolder(s, i, h).(stopPc := stop))
  {
    var s' := SetHolder(s, i, h).(stopPc := stop);
    assert BoxOk(s, i);
    forall u | u in s'.callers ensures CallerOk(s', u) { assert CallerOk(s, u); }
    forall b: nat | b < |s'.boxes| ensures WorkerOk(s', b) && BoxOk(s', b) { assert WorkerOk(s, b) && BoxOk(s, b); }
    forall p | p in s'.requests ensures RequestOk(s', p) { assert RequestOk(s, p); }
  }

  lemma StopCore(s: State, stopping: bool, stop: StopPc)
    requires Core(s) && (s.stopping ==> stopping) && (stopping <==> !stop.NotStopping?)
    requires (s.stopPc.NotStopping? && stop == Sweeping(0)) || (s.stopPc == Sweeping(|s.boxes|) && stop == Joining)
    ensures Core(s.(stopping := stopping, stopPc := stop))
  {
    var s' := s.(stopping := stopping, stopPc := stop);
    forall u | u in s'.callers ensures CallerOk(s', u) { assert CallerOk(s, u); }
    forall b: nat | b < |s'.boxes| ensures WorkerOk(s', b) && BoxOk(s', b) { assert WorkerOk(s, b) && BoxOk(s, b); }
    forall p | p in s'.requests ensures RequestOk(s', p) { assert RequestOk(s, p); }
  }

  // ------------------------------------------------------------------ every event

  /** The caller acts that concern its request mutex. */
  predicate OnReply(c: CallerAct) {
    c.LockReq? || c.TestReq? || c.ParkReq? || c.WakeReq? || c.SpuriousReq? || c.Return?
  }

  lemma KeepReqCore(s: State, t: Tid, pc: CallerPc)
    requires Core(s) && InCall(s, t)
    requires ReqMoveOk(s, t, s.callers[t].(pc := pc), s.requests[s.callers[t].req].holder)
    ensures Core(SetCaller(s, t, pc))
  {
    var r := s.callers[t].req;
    ReqMoveCore(s, t, s.callers[t].(pc := pc), s.requests[r].holder);
    assert s.requests[r := s.requests[r]] == s.requests;
  }

  lemma ReplyEventCore(s: State, t: Tid, c: CallerAct)
    requires Core(s) && Shape(s) && CallerGuard(s, t, c) && OnReply(c)
    ensures Core(CallerDo(s, t, c))
  {
    var r := s.callers[t].req;
    assert CallerOk(s, t) && RequestOk(s, r);
    match c
    case LockReq => ReqMoveCore(s, t, s.callers[t].(pc := Testing), Some(CallerAgent(t)));
    case TestReq => KeepReqCore(s, t, if s.requests[r].completed then Returning else Parking);
    case ParkReq => ReqMoveCore(s, t, s.callers[t].(pc := Parked(false)), None);
    case WakeReq => KeepReqCore(s, t, WantReq);
    case SpuriousReq => KeepReqCore(s, t, WantReq);
    case Return => ReqMoveCore(s, t, DoReturn(s, t).callers[t], None);
  }

  lemma SendEventCore(s: State, t: Tid, c: CallerAct)
    requires Core(s) && Shape(s) && CallerGuard(s, t, c) && !OnReply(c)
    ensures Core(CallerDo(s, t, c))
  {
    assert CallerOk(s, t);
    match c
    case Begin(r) => BeginCore(s, t, r);
    case LockBox => BoxMoveCore(s, t, Pushing, Some(CallerAgent(t)));
    case Push => PushCore(s, t);
    case NotifyBox => NotifyBoxCore(s, t);
    case UnlockBox => BoxMoveCore(s, t, WantReq, None);
  }

  lemma NotifyBoxCore(s: State, t: Tid)
    requires Core(s) && InCall(s, t) && s.callers[t].pc.Notifying?
    ensures Core(SetCaller(NotifyWorker(s, s.callers[t].box), t, LeavingBox))
  {
    var b := s.callers[t].box;
    var s1 := NotifyWorker(s, b);
    NotifyWorkerCore(s, b);
    assert CallerOk(s, t);
    BoxMoveCore(s1, t, LeavingBox, Some(CallerAgent(t)));
    assert s1.boxes[b := s1.boxes[b]] == s1.boxes;
  }

  lemma MailEventCore(s: State, w: nat, k: WorkerAct)
    requires Core(s) && Shape(s) && WorkerGuard(s, w, k) && !OnRequest(k) && !k.Pop? && !k.Spawn?
    ensures Core(WorkerDo(s, w, k))
  {
    assert WorkerOk(s, w) && BoxOk(s, w);
    assert s.boxes[w := s.boxes[w]] == s.boxes;
    match k
    case LoopTop => MailMoveCore(s, w, if s.stopping then Exited else WantMail, s.boxes[w].holder);
    case LockMail => MailMoveCore(s, w, Checking, Some(WorkerAgent(w)));
    case CheckMail =>
      SweptStops(s, w);
      MailMoveCore(s, w, if s.boxes[w].queue != [] || s.stopping then Deciding else Dozing, s.boxes[w].holder);
    case ParkMail => MailMoveCore(s, w, Asleep(false), None);
    case WakeMail => MailMoveCore(s, w, WantMail, s.boxes[w].holder);
    case SpuriousMail => MailMoveCore(s, w, WantMail, s.boxes[w].holder);
    case Decide =>
      if s.stopping { MailMoveCore(s, w, Exited, None); } else { MailMoveCore(s, w, Popping, s.boxes[w].holder); }
  }

  lemma SweptStops(s: State, w: nat)
    requires Core(s)
    ensures Swept(s, w) ==> s.stopping
  {
  }

  /** The worker acts that touch a request it has popped. */
  predicate OnRequest(k: WorkerAct) { k.Execute? || k.LockDone? || k.Store? || k.UnlockDone? || k.Signal? }

  lemma DoneEventCore(s: State, w: nat, k: WorkerAct)
    requires Core(s) && Shape(s) && WorkerGuard(s, w, k) && OnRequest(k)
    ensures Core(WorkerDo(s, w, k))
  {
    var r := s.workers[w].req;
    var q, j := s.requests[r], s.workers[w];
    assert WorkerOk(s, w) && RequestOk(s, r);
    match k
    case Execute(v) =>
      DoneMoveCore(s, w, j.(pc := Finished, value := v), q, v);
      assert s.requests[r := q] == s.requests;
    case LockDone =>
      DoneMoveCore(s, w, j.(pc := Storing), q.(holder := Some(WorkerAgent(w))), j.value);
      assert s.computed[r := j.value] == s.computed;
    case Store =>
      DoneMoveCore(s, w, j.(pc := Stored), q.(completed := true, result := j.value, stage := Done), j.value);
      assert s.computed[r := j.value] == s.computed;
    case UnlockDone =>
      DoneMoveCore(s, w, j.(pc := Signalling), q.(holder := None), j.value);
      assert s.computed[r := j.value] == s.computed;
    case Signal => SignalCore(s, w);
  }

  lemma SignalCore(s: State, w: nat)
    requires Core(s) && InLoop(s, w) && s.workers[w].pc.Signalling?
    ensures Core(DoSignal(s, w))
  {
    var r := s.workers[w].req;
    var s1 := NotifyCaller(s, r);
    NotifyCallerCore(s, r);
    assert WorkerOk(s1, w) && RequestOk(s1, r);
    DoneMoveCore(s1, w, s.workers[w].(pc := Top), s.requests[r].(stage := Signalled), s.workers[w].value);
    assert s1.computed[r := s.workers[w].value] == s1.computed;
  }

  lemma StopEventCore(s: State, h: StopAct)
    requires Core(s) && Shape(s) && StopGuard(s, h)
    ensures Core(StopDo(s, h))
  {
    match h
    case StopBegin => StopCore(s, true, Sweeping(0));
    case SweepLock => SweepCore(s, Waking(s.stopPc.i), s.stopPc.i, Some(Stopper));
    case SweepNotify =>
      var i := s.stopPc.i;
      var s1 := NotifyWorker(s, i);
      NotifyWorkerCore(s, i);
      SweepCore(s1, Leaving(i), i, Some(Stopper));
      assert s1.boxes[i := s1.boxes[i]] == s1.boxes;
    case SweepUnlock => SweepCore(s, Sweeping(s.stopPc.i + 1), s.stopPc.i, None);
    case SweepEnd => StopCore(s, true, Joining);
  }

  lemma StepCore(s: State, e: Event)
    requires Core(s) && Shape(s) && Guard(s, e)
    ensures Core(Do(s, e))
  {
    match e
    case Call(t, c) => if OnReply(c) { ReplyEventCore(s, t, c); } else { SendEventCore(s, t, c); }
    case Work(w, k) =>
      if OnRequest(k) { DoneEventCore(s, w, k); }
      else if k.Pop? { PopCore(s, w); }
      else if k.Spawn? { SpawnCore(s); }
      else { MailEventCore(s, w, k); }
    case Halt(h) => StopEventCore(s, h);
  }

  // ------------------------------------------------------------------ histories

  /** No request appears, is popped, or has anything about its completion revised. */
  ghost predicate Forward(s: State, s': State) {
    && s.requests.Keys == s'.requests.Keys
    && forall r :: r in s.requests ==>
         && s'.requests[r].caller == s.requests[r].caller
         && s'.requests[r].box == s.requests[r].box
         && (Fresh(s'.requests[r].stage) <==> Fresh(s.requests[r].stage))
         && (s.requests[r].completed ==> s'.requests[r].completed)
         && (s.requests[r].completed && r in s.computed ==> r in s'.computed && s'.computed[r] == s.computed[r])
  }

  /** Nothing is added to any history. */
  ghost predicate Quiet(s: State, s': State) {
    && s'.pops == s.pops && |s'.boxes| == |s.boxes| && s'.callers.Keys == s.callers.Keys
    && forall t :: t in s.callers ==>
         && s'.callers[t].route == s.callers[t].route
         && s'.callers[t].affinity == s.callers[t].affinity
         && s'.callers[t].returned == s.callers[t].returned
  }

  lemma SendForward(s: State, t: Tid, c: CallerAct)
    requires Core(s) && Shape(s) && CallerGuard(s, t, c) && !c.Begin? && !OnReply(c)
    ensures Forward(s, CallerDo(s, t, c)) && Quiet(s, CallerDo(s, t, c))
  {
    match c
    case LockBox =>
    case Push => assert CallerOk(s, t);
    case NotifyBox =>
    case UnlockBox =>
  }

  lemma ReplyForward(s: State, t: Tid, c: CallerAct)
    requires Core(s) && Shape(s) && CallerGuard(s, t, c) && OnReply(c) && !c.Return?
    ensures Forward(s, CallerDo(s, t, c)) && Quiet(s, CallerDo(s, t, c))
  {
    match c
    case LockReq =>
    case TestReq =>
    case ParkReq =>
    case WakeReq =>
    case SpuriousReq =>
  }

  lemma MailForward(s: State, w: nat, k: WorkerAct)
    requires Core(s) && Shape(s) && WorkerGuard(s, w, k)
    requires !k.Pop? && !OnRequest(k)
    ensures Forward(s, WorkerDo(s, w, k)) && Quiet(s, WorkerDo(s, w, k))
  {
    match k
    case LoopTop =>
    case LockMail =>
    case CheckMail =>
    case ParkMail =>
    case WakeMail =>
    case SpuriousMail =>
    case Decide =>
    case Spawn =>
  }

  lemma DoneForward(s: State, w: nat, k: WorkerAct)
    requires Core(s) && Shape(s) && WorkerGuard(s, w, k) && OnRequest(k)
    ensures Forward(s, WorkerDo(s, w, k)) && Quiet(s, WorkerDo(s, w, k))
  {
    match k
    case Execute(v) => assert WorkerOk(s, w);
    case LockDone =>
    case Store => StoreForward(s, w);
    case UnlockDone =>
    case Signal => SignalForward(s, w);
  }

  lemma StoreForward(s: State, w: nat)
    requires Core(s) && InLoop(s, w) && s.workers[w].pc.Storing?
    ensures Forward(s, DoStore(s, w)) && Quiet(s, DoStore(s, w))
  {
    assert WorkerOk(s, w);
  }

  lemma SignalForward(s: State, w: nat)
    requires Core(s) && InLoop(s, w) && s.workers[w].pc.Signalling?
    ensures Forward(s, DoSignal(s, w)) && Quiet(s, DoSignal(s, w))
  {
    assert WorkerOk(s, w);
  }

  /** The pop history: each request at most once, by its own worker, exactly if it was taken. */
  ghost predicate Popped(s: State, r: Rid)
    requires r in s.requests
  {
    (s.requests[r].box, r) in s.pops <==> !Fresh(s.requests[r].stage)
  }

  ghost predicate PopsOk(s: State) {
    && (forall i :: 0 <= i < |s.pops| ==>
          s.pops[i].1 in s.requests && s.requests[s.pops[i].1].box == s.pops[i].0)
    && (forall i, j :: 0 <= i < j < |s.pops| ==> s.pops[i].1 != s.pops[j].1)
    && (forall r :: r in s.requests ==> Popped(s, r))
  }

  /** Every value a thread was handed is the one computed for its own request. */
  ghost predicate ReturnsOk(s: State) {
    forall t, i :: t in s.callers && 0 <= i < |s.callers[t].returned| ==>
      var (r, v) := s.callers[t].returned[i];
      && r in s.requests && s.requests[r].caller == t && s.requests[r].completed
      && r in s.computed && s.computed[r] == v
  }

  /** route is 0...0 w...w. */
  ghost predicate Sticky(route: seq<nat>, w: int, k: nat) {
    && k <= |route|
    && (forall i :: 0 <= i < k ==> route[i] == 0)
    && (forall i :: k <= i < |route| ==> route[i] == w)
  }

  /** Mailbox 0 for a while, then one pool mailbox for ever. */
  ghost predicate Routed(route: seq<nat>, affinity: int, n: nat) {
    exists k: nat :: Sticky(route, affinity, k) && (k < |route| ==> 1 <= affinity <= n)
  }

  ghost predicate RoutesOk(s: State)
    requires |s.boxes| > 0
  {
    forall t :: t in s.callers ==> Routed(s.callers[t].route, s.callers[t].affinity, Pool(s))
  }

  ghost predicate Inv(s: State) {
    Core(s) && PopsOk(s) && ReturnsOk(s) && RoutesOk(s)
  }

  lemma QuietHistories(s: State, s': State)
    requires Inv(s) && Core(s') && Forward(s, s') && Quiet(s, s')
    ensures Inv(s')
  {
    forall p | p in s'.requests ensures Popped(s', p) { assert Popped(s, p); }
  }

  lemma BeginInv(s: State, t: Tid, r: Rid)
    requires Inv(s) && Shape(s) && CallerAt(s, t, Idle) && r !in s.requests
    ensures Inv(DoBegin(s, t, r))
  {
    var s' := DoBegin(s, t, r);
    BeginCore(s, t, r);
    forall p | p in s'.requests ensures Popped(s', p) { if p != r { assert Popped(s, p); } }
    var c, c' := s.callers[t], s'.callers[t];
    var k: nat :| Sticky(c.route, c.affinity, k) && (k < |c.route| ==> 1 <= c.affinity <= Pool(s));
    assert CallerOk(s, t);
    assert Sticky(c'.route, c'.affinity, if c'.box == 0 then |c'.route| else k);
  }

  lemma ReturnInv(s: State, t: Tid)
    requires Inv(s) && InCall(s, t) && s.callers[t].pc.Returning?
    ensures Inv(DoReturn(s, t))
  {
    var s' := DoReturn(s, t);
    CoreShape(s);
    ReplyEventCore(s, t, Return);
    assert CallerOk(s, t) && RequestOk(s, s.callers[t].req);
    forall p | p in s'.requests ensures Popped(s', p) { assert Popped(s, p); }
  }

  lemma PopInv(s: State, w: nat)
    requires Inv(s) && InLoop(s, w) && s.workers[w].pc.Popping?
    ensures Inv(DoPop(s, w))
  {
    var s' := DoPop(s, w);
    PopCore(s, w);
    assert WorkerOk(s, w) && BoxOk(s, w);
    var r := s.boxes[w].queue[0];
    assert Popped(s, r);
    forall p | p in s'.requests ensures Popped(s', p) { assert Popped(s, p); }
  }

  lemma CallerStepInv(s: State, t: Tid, c: CallerAct)
    requires Inv(s) && Shape(s) && CallerGuard(s, t, c) && Core(CallerDo(s, t, c))
    ensures Inv(CallerDo(s, t, c))
  {
    if c.Begin? { BeginInv(s, t, c.r); }
    else if c.Return? { ReturnInv(s, t); }
    else if OnReply(c) { ReplyForward(s, t, c); QuietHistories(s, CallerDo(s, t, c)); }
    else { SendForward(s, t, c); QuietHistories(s, CallerDo(s, t, c)); }
  }

  lemma WorkerStepInv(s: State, w: nat, k: WorkerAct)
    requires Inv(s) && Shape(s) && WorkerGuard(s, w, k) && Core(WorkerDo(s, w, k))
    ensures Inv(WorkerDo(s, w, k))
  {
    if k.Pop? { PopInv(s, w); }
    else if OnRequest(k) { DoneForward(s, w, k); QuietHistories(s, WorkerDo(s, w, k)); }
    else { MailForward(s, w, k); QuietHistories(s, WorkerDo(s, w, k)); }
  }

  lemma StopStepInv(s: State, h: StopAct)
    requires Inv(s) && Shape(s) && StopGuard(s, h) && Core(StopDo(s, h))
    ensures Inv(StopDo(s, h))
  {
    match h
    case StopBegin => QuietHistories(s, StopDo(s, h));
    case SweepLock => QuietHistories(s, StopDo(s, h));
    case SweepNotify => QuietHistories(s, StopDo(s, h));
    case SweepUnlock => QuietHistories(s, StopDo(s, h));
    case SweepEnd => QuietHistories(s, StopDo(s, h));
  }

  /** Every event keeps the whole invariant. */
  lemma StepInv(s: State, e: Event)
    requires Inv(s) && Shape(s) && Guard(s, e)
    ensures Inv(Do(s, e))
  {
    StepCore(s, e);
    match e
    case Call(t, c) => CallerStepInv(s, t, c);
    case Work(w, k) => WorkerStepInv(s, w, k);
    case Halt(h) => StopStepInv(s, h);
  }

  // ------------------------------------------------------------------ whole runs

  lemma {:induction false} RunInv(n: nat, tr: seq<State>, es: seq<Event>, i: nat)
    requires IsRun(n, tr, es) && i < |tr|
    ensures Inv(tr[i]) && Shape(tr[i])
  {
    if i == 0 {
      InitCore(tr[0], n);
      forall t | t in tr[0].callers ensures Routed(tr[0].callers[t].route, tr[0].callers[t].affinity, n) {
        assert Sticky(tr[0].callers[t].route, tr[0].callers[t].affinity, 0);
      }
    } else {
      RunInv(n, tr, es, i - 1);
      assert Moved(tr, es, i - 1);
      StepInv(tr[i - 1], es[i - 1]);
    }
    CoreShape(tr[i]);
  }
}
