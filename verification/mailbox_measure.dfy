/**
 How far the mailbox protocol is from rest: a measure that every event lowers, unless the event is a
 new call, a new shutdown or a spurious wakeup.
 */
module MailboxMeasure {
  import opened Options
  import opened Sums
  import opened Mailbox
  import opened MailboxProofs
  import opened MailboxTheorems

  // ------------------------------------------------------------------ ranks

  /** Events left until the caller parks or returns; notifying pays for the worker it wakes. */
  function CallerRank(pc: CallerPc): nat {
    match pc
    case Idle => 0
    case WantBox => 12
    case Pushing => 11
    case Notifying => 10
    case LeavingBox => 4
    case WantReq => 3
    case Testing => 2
    case Parking => 1
    case Parked(notified) => if notified then 4 else 0
    case Returning => 1
  }

  /** Events left until the worker parks, or pops, or is at the top of its loop again. */
  function WorkerRank(pc: WorkerPc): nat {
    match pc
    case Offline => 6
    case Top => 5
    case WantMail => 4
    case Checking => 3
    case Dozing => 1
    case Asleep(woken) => if woken then 5 else 0
    case Deciding => 2
    case Popping => 1
    case Running => 5
    case Finished => 4
    case Storing => 3
    case Stored => 2
    case Signalling => 1
    case Exited => 0
  }

  /** What is still to be paid for a request: its worker's next round, and its caller's wakeup. */
  function StageRank(g: Stage): nat {
    match g
    case Built => 14
    case Queued => 14
    case Taken => 9
    case Done => 9
    case Signalled => 0
  }

  function StopRank(pc: StopPc, n: nat): int {
    match pc
    case NotStopping => 0
    case Sweeping(i) => 8 * (n - i) + 1
    case Waking(i) => 8 * (n - i)
    case Leaving(i) => 8 * (n - i) - 6
    case Joining => 0
  }

  function CallerRanks(s: State): map<nat, nat> { map t | t in s.callers :: CallerRank(s.callers[t].pc) }

  function WorkerRanks(s: State): map<nat, nat> {
    map w: nat | 0 <= w < |s.workers| :: WorkerRank(s.workers[w].pc)
  }

  function RequestRanks(s: State): map<nat, nat> { map r | r in s.requests :: StageRank(s.requests[r].stage) }

  ghost function Measure(s: State): int {
    Sum(CallerRanks(s)) + Sum(WorkerRanks(s)) + Sum(RequestRanks(s))
    + StopRank(s.stopPc, |s.boxes|) + if s.spawned then 0 else 1
  }

  /** At most the caller t, the worker w and the request r moved. */
  ghost predicate Moves(s: State, s': State, t: Tid, w: nat, r: Rid) {
    && s'.callers.Keys == s.callers.Keys && |s'.workers| == |s.workers| && s'.requests.Keys == s.requests.Keys
    && (forall u :: u in s.callers && u != t ==> s'.callers[u].pc == s.callers[u].pc)
    && (forall v :: 0 <= v < |s.workers| && v != w ==> s'.workers[v].pc == s.workers[v].pc)
    && (forall q :: q in s.requests && q != r ==> s'.requests[q].stage == s.requests[q].stage)
  }

  function CallerRankAt(s: State, t: Tid): nat { if t in s.callers then CallerRank(s.callers[t].pc) else 0 }

  function WorkerRankAt(s: State, w: nat): nat { if w < |s.workers| then WorkerRank(s.workers[w].pc) else 0 }

  function StageRankAt(s: State, r: Rid): nat { if r in s.requests then StageRank(s.requests[r].stage) else 0 }

  lemma CallerSum(s: State, s': State, t: Tid, w: nat, r: Rid)
    requires Moves(s, s', t, w, r)
    ensures Sum(CallerRanks(s')) + CallerRankAt(s, t) == Sum(CallerRanks(s)) + CallerRankAt(s', t)
  {
    if t in s.callers {
      assert CallerRanks(s') == CallerRanks(s)[t := CallerRankAt(s', t)];
      SumUpdate(CallerRanks(s), t, CallerRankAt(s', t));
    } else {
      assert CallerRanks(s') == CallerRanks(s);
    }
  }

  lemma WorkerSum(s: State, s': State, t: Tid, w: nat, r: Rid)
    requires Moves(s, s', t, w, r)
    ensures Sum(WorkerRanks(s')) + WorkerRankAt(s, w) == Sum(WorkerRanks(s)) + WorkerRankAt(s', w)
  {
    if w < |s.workers| {
      assert WorkerRanks(s') == WorkerRanks(s)[w := WorkerRankAt(s', w)];
      SumUpdate(WorkerRanks(s), w, WorkerRankAt(s', w));
    } else {
      assert WorkerRanks(s') == WorkerRanks(s);
    }
  }

  lemma RequestSum(s: State, s': State, t: Tid, w: nat, r: Rid)
    requires Moves(s, s', t, w, r)
    ensures Sum(RequestRanks(s')) + StageRankAt(s, r) == Sum(RequestRanks(s)) + StageRankAt(s', r)
  {
    if r in s.requests {
      assert RequestRanks(s') == RequestRanks(s)[r := StageRankAt(s', r)];
      SumUpdate(RequestRanks(s), r, StageRankAt(s', r));
    } else {
      assert RequestRanks(s') == RequestRanks(s);
    }
  }

  /** The ranks of the three that may have moved. */
  function RanksAt(s: State, t: Tid, w: nat, r: Rid): nat { CallerRankAt(s, t) + WorkerRankAt(s, w) + StageRankAt(s, r) }

  /** The measure falls if those, with the shutdown loop, do. */
  lemma MeasureFalls(s: State, s': State, t: Tid, w: nat, r: Rid)
    requires Moves(s, s', t, w, r) && |s'.boxes| == |s.boxes| && s'.spawned == s.spawned
    requires RanksAt(s', t, w, r) + StopRank(s'.stopPc, |s.boxes|) < RanksAt(s, t, w, r) + StopRank(s.stopPc, |s.boxes|)
    ensures Measure(s') < Measure(s)
  {
    CallerSum(s, s', t, w, r);
    WorkerSum(s, s', t, w, r);
    RequestSum(s, s', t, w, r);
  }

  // ------------------------------------------------------------------ every event pays

  predicate SameScene(s: State, s': State) {
    |s'.boxes| == |s.boxes| && s'.spawned == s.spawned && s'.stopPc == s.stopPc
  }

  /** The three with ranks below those they had. */
  ghost predicate Pays(s: State, s': State, t: Tid, w: nat, r: Rid) {
    Moves(s, s', t, w, r) && SameScene(s, s') && RanksAt(s', t, w, r) < RanksAt(s, t, w, r)
  }

  lemma TurnPays(s: State, t: Tid, pc: CallerPc, w: nat, r: Rid)
    requires t in s.callers && CallerRank(pc) < CallerRank(s.callers[t].pc)
    ensures Pays(s, SetCaller(s, t, pc), t, w, r)
    ensures forall b: nat, h :: b < |s.boxes| ==> Pays(s, SetCaller(SetHolder(s, b, h), t, pc), t, w, r)
  {
  }

  lemma RelockPays(s: State, t: Tid, pc: CallerPc, w: nat, r: Rid, h: Option<Agent>)
    requires t in s.callers && r in s.requests && CallerRank(pc) < CallerRank(s.callers[t].pc)
    ensures Pays(s, SetCaller(SetReqHolder(s, r, h), t, pc), t, w, r)
  {
  }

  lemma NotifyPays(s: State, t: Tid, w: nat, r: Rid)
    requires CallerAt(s, t, Notifying) && w < |s.workers|
    ensures Pays(s, SetCaller(NotifyWorker(s, w), t, LeavingBox), t, w, r)
  {
  }

  lemma PushPays(s: State, t: Tid)
    requires CallerAt(s, t, Pushing) && s.callers[t].req in s.requests && s.callers[t].box < |s.boxes|
    requires s.requests[s.callers[t].req].stage.Built?
    ensures Pays(s, DoPush(s, t), t, s.callers[t].box, s.callers[t].req)
  {
  }

  lemma ReturnPays(s: State, t: Tid, w: nat)
    requires CallerAt(s, t, Returning) && s.callers[t].req in s.requests
    ensures Pays(s, DoReturn(s, t), t, w, s.callers[t].req)
  {
  }

  lemma CallerPays(s: State, t: Tid, c: CallerAct)
    requires Core(s) && Shape(s) && CallerGuard(s, t, c) && !c.Begin? && !c.SpuriousReq?
    ensures Measure(CallerDo(s, t, c)) < Measure(s)
  {
    assert CallerOk(s, t);
    var b, r := s.callers[t].box, s.callers[t].req;
    match c {
      case LockBox => TurnPays(s, t, Pushing, b, r);
      case Push => PushPays(s, t);
      case NotifyBox => NotifyPays(s, t, b, r);
      case UnlockBox => TurnPays(s, t, WantReq, b, r);
      case LockReq => RelockPays(s, t, Testing, b, r, Some(CallerAgent(t)));
      case TestReq => TurnPays(s, t, CallerDo(s, t, c).callers[t].pc, b, r);
      case ParkReq => RelockPays(s, t, Parked(false), b, r, None);
      case WakeReq => TurnPays(s, t, WantReq, b, r);
      case Return => ReturnPays(s, t, b);
    }
    assert Pays(s, CallerDo(s, t, c), t, b, r);
    MeasureFalls(s, CallerDo(s, t, c), t, b, r);
  }

  predicate Fetches(k: WorkerAct) { k.LoopTop? || k.LockMail? || k.CheckMail? || k.ParkMail? || k.WakeMail? || k.Decide? }

  lemma FetchMoves(s: State, w: nat, k: WorkerAct)
    requires Shape(s) && WorkerGuard(s, w, k) && Fetches(k)
    ensures var s' := WorkerDo(s, w, k);
            Moves(s, s', 0, w, 0) && SameScene(s, s') && RanksAt(s', 0, w, 0) < RanksAt(s, 0, w, 0)
  {
  }

  lemma StoreMoves(s: State, w: nat)
    requires w < |s.workers| && s.workers[w].pc.Storing?
    requires s.workers[w].req in s.requests && s.requests[s.workers[w].req].stage.Taken?
    ensures var s', r := DoStore(s, w), s.workers[w].req;
            Moves(s, s', 0, w, r) && SameScene(s, s') && RanksAt(s', 0, w, r) < RanksAt(s, 0, w, r)
  {
  }

  predicate Serves(k: WorkerAct) { k.Execute? || k.LockDone? || k.UnlockDone? }

  lemma ServeMoves(s: State, w: nat, k: WorkerAct)
    requires Shape(s) && WorkerGuard(s, w, k) && Serves(k)
    ensures var s', r := WorkerDo(s, w, k), s.workers[w].req;
            Moves(s, s', 0, w, r) && SameScene(s, s') && RanksAt(s', 0, w, r) < RanksAt(s, 0, w, r)
  {
  }

  lemma PopMoves(s: State, w: nat)
    requires w < |s.workers| == |s.boxes| && s.boxes[w].queue != [] && s.workers[w].pc.Popping?
    requires s.boxes[w].queue[0] in s.requests && s.requests[s.boxes[w].queue[0]].stage.Queued?
    ensures var s', r := DoPop(s, w), s.boxes[w].queue[0];
            Moves(s, s', 0, w, r) && SameScene(s, s') && RanksAt(s', 0, w, r) < RanksAt(s, 0, w, r)
  {
  }

  lemma SignalMoves(s: State, w: nat)
    requires w < |s.workers| && s.workers[w].pc.Signalling?
    requires s.workers[w].req in s.requests && s.requests[s.workers[w].req].stage.Done?
    ensures var s', r := DoSignal(s, w), s.workers[w].req;
            var t := s.requests[r].caller;
            Moves(s, s', t, w, r) && SameScene(s, s') && RanksAt(s', t, w, r) < RanksAt(s, t, w, r)
  {
  }

  lemma WorkerPays(s: State, w: nat, k: WorkerAct)
    requires Core(s) && Shape(s) && WorkerGuard(s, w, k) && !k.SpuriousMail? && !k.Spawn?
    ensures Measure(WorkerDo(s, w, k)) < Measure(s)
  {
    var s', r := WorkerDo(s, w, k), s.workers[w].req;
    assert WorkerOk(s, w) && BoxOk(s, w);
    if Fetches(k) {
      FetchMoves(s, w, k);
      MeasureFalls(s, s', 0, w, 0);
    } else if Serves(k) {
      ServeMoves(s, w, k);
      MeasureFalls(s, s', 0, w, r);
    } else if k.Store? {
      StoreMoves(s, w);
      MeasureFalls(s, s', 0, w, r);
    } else if k.Pop? {
      PopMoves(s, w);
      MeasureFalls(s, s', 0, w, s.boxes[w].queue[0]);
    } else {
      SignalMoves(s, w);
      MeasureFalls(s, s', s.requests[r].caller, w, r);
    }
  }

  lemma SpawnPays(s: State)
    requires Shape(s) && WorkerGuard(s, 0, Spawn)
    ensures Measure(DoSpawn(s)) < Measure(s)
  {
    var s' := DoSpawn(s);
    assert CallerRanks(s') == CallerRanks(s) && RequestRanks(s') == RequestRanks(s);
    SumBelow(WorkerRanks(s), WorkerRanks(s'));
  }

  lemma SweepPays(s: State)
    requires s.stopPc.Waking? && s.stopPc.i < |s.workers| == |s.boxes|
    ensures Measure(NotifyWorker(s, s.stopPc.i).(stopPc := Leaving(s.stopPc.i))) < Measure(s)
  {
    MeasureFalls(s, NotifyWorker(s, s.stopPc.i).(stopPc := Leaving(s.stopPc.i)), 0, s.stopPc.i, 0);
  }

  lemma StopPays(s: State, h: StopAct)
    requires Shape(s) && StopGuard(s, h) && !h.StopBegin?
    ensures Measure(StopDo(s, h)) < Measure(s)
  {
    if h.SweepNotify? { SweepPays(s); } else { MeasureFalls(s, StopDo(s, h), 0, 0, 0); }
  }

  /** Every event that moves an existing call or an ongoing shutdown forward lowers the measure. */
  lemma ProgressPays(s: State, e: Event)
    requires Core(s) && Shape(s) && Guard(s, e) && Progress(e)
    ensures Measure(Do(s, e)) < Measure(s)
  {
    match e
    case Call(t, c) => CallerPays(s, t, c);
    case Work(w, k) =>
      if k.Spawn? { SpawnPays(s); } else { WorkerPays(s, w, k); }
    case Halt(h) => StopPays(s, h);
  }

  // ------------------------------------------------------------------ runs

  /** The measure is bounded by the sizes of the parts. */
  lemma MeasureBound(s: State)
    requires Core(s)
    ensures 0 <= Measure(s) <= 12 * |s.callers| + 6 * |s.workers| + 14 * |s.requests| + 8 * |s.boxes| + 2
  {
    SumBounded(CallerRanks(s), 12);
    SumBounded(RequestRanks(s), 14);
    SumBounded(WorkerRanks(s), 6);
    assert CallerRanks(s).Keys == s.callers.Keys && RequestRanks(s).Keys == s.requests.Keys;
    WorkerKeys(s.workers, WorkerRanks(s));
  }

  lemma {:induction false} WorkerKeys(ws: seq<Worker>, m: map<nat, nat>)
    requires forall w :: w in m <==> 0 <= w < |ws|
    ensures |m| == |ws|
  {
    if ws == [] {
      assert m == map[];
    } else {
      var n := |ws| - 1;
      WorkerKeys(ws[..n], m - {n});
      assert m.Keys == (m - {n}).Keys + {n};
    }
  }

  /** Without new calls, shutdowns and spurious wakeups a run is soon over ... */
  lemma {:induction false} ProgressEnds(n: nat, tr: seq<State>, es: seq<Event>, i: nat, j: nat)
    requires IsRun(n, tr, es) && i <= j < |tr| && forall k :: i <= k < j ==> Progress(es[k])
    ensures j - i + Measure(tr[j]) <= Measure(tr[i]) && 0 <= Measure(tr[j])
  {
    MeasureNonNegative(n, tr, es, j);
    if i < j {
      ProgressEnds(n, tr, es, i, j - 1);
      StepPays(n, tr, es, j - 1);
    }
  }

  lemma MeasureNonNegative(n: nat, tr: seq<State>, es: seq<Event>, j: nat)
    requires IsRun(n, tr, es) && j < |tr|
    ensures 0 <= Measure(tr[j])
  {
    RunInv(n, tr, es, j);
    MeasureBound(tr[j]);
  }

  lemma StepPays(n: nat, tr: seq<State>, es: seq<Event>, j: nat)
    requires IsRun(n, tr, es) && j < |es| && Progress(es[j])
    ensures Measure(tr[j + 1]) < Measure(tr[j])
  {
    RunInv(n, tr, es, j);
    assert Moved(tr, es, j);
    ProgressPays(tr[j], es[j]);
  }

  /** ... and it can only be over when every call has returned, or, in a shutdown, every worker has
      left: from state i on that takes at most Measure(tr[i]) events, whatever their order. */
  lemma AllReturn(n: nat, tr: seq<State>, es: seq<Event>, i: nat)
    requires IsRun(n, tr, es) && i < |tr| && forall k :: i <= k < |es| ==> Progress(es[k])
    ensures |es| - i <= Measure(tr[i]) && Shape(tr[|es|])
    ensures var s := tr[|es|];
            Quiescent(s) ==>
              if s.stopping then
                s.stopPc == Joining && forall w: nat :: w < |s.workers| ==> s.workers[w].pc.Exited? || s.workers[w].pc.Offline?
              else forall t :: t in s.callers ==> s.callers[t].pc == Idle
  {
    ProgressEnds(n, tr, es, i, |es|);
    RunInv(n, tr, es, |es|);
    CoreShape(tr[|es|]);
    if Quiescent(tr[|es|]) {
      if tr[|es|].stopping { ShutdownReachesAll(n, tr, es, |es|); } else { NoWedge(n, tr, es, |es|); }
    }
  }
}
