/**
 Why the completion is stored under request->mutex.  If result and `completed` are stored
 without it, then whenever a worker finishes while the caller stands between reading
 `completed` and parking, three events leave the caller asleep on a finished call, and no
 later event except a spurious wakeup ever wakes it.
 */
module MailboxRace {
  import opened Options
  import opened Mailbox
  import opened MailboxProofs

  /** The store of result and `completed` without the request mutex. */
  ghost function RawStore(s: State, w: nat): State
    requires w < |s.workers| && s.workers[w].req in s.requests
  { SetWorker(DoStore(s, w), w, Signalling) }

  /** Worker w has the result of r, whose caller t has just read `completed` as false. */
  ghost predicate Window(s: State, t: Tid, w: nat, r: Rid) {
    && CallerAt(s, t, Parking) && s.callers[t].req == r
    && WorkerAt(s, w, Finished) && s.workers[w].req == r
    && r in s.requests && s.requests[r].caller == t
  }

  /** Caller t sleeps un-notified on a completed request that nobody will announce again. */
  ghost predicate Abandoned(s: State, t: Tid, r: Rid) {
    && CallerAt(s, t, Parked(false)) && s.callers[t].req == r
    && r in s.requests && s.requests[r].completed
    && (forall w :: 0 <= w < |s.workers| && HasReq(s.workers[w].pc) ==> s.workers[w].req != r)
    && (forall b :: 0 <= b < |s.boxes| ==> r !in s.boxes[b].queue)
    && (forall u :: u in s.callers && u != t && !s.callers[u].pc.Idle? ==> s.callers[u].req != r)
  }

  /** Store, announce, park: in the window, the unlocked store always loses the wakeup. */
  lemma UnlockedStoreLosesWakeup(s: State, t: Tid, w: nat, r: Rid)
    requires Core(s) && Window(s, t, w, r)
    ensures var s1 := RawStore(s, w);
            && WorkerAt(s1, w, Signalling) && s1.workers[w].req in s1.requests
            && var s2 := DoSignal(s1, w);
            && CallerAt(s2, t, Parking) && s2.callers[t].req in s2.requests
            && Abandoned(SetCaller(SetReqHolder(s2, r, None), t, Parked(false)), t, r)
  {
    assert CallerOk(s, t) && WorkerOk(s, w) && RequestOk(s, r);
    forall v: nat | v < |s.workers| && v != w && HasReq(s.workers[v].pc) ensures s.workers[v].req != r {
      assert WorkerOk(s, v);
    }
    forall b: nat | b < |s.boxes| ensures r !in s.boxes[b].queue { assert BoxOk(s, b); }
    forall u | u in s.callers && u != t && !s.callers[u].pc.Idle? ensures s.callers[u].req != r {
      assert CallerOk(s, u);
    }
  }

  /** No caller event but its own spurious wakeup ends the sleep. */
  lemma AbandonedByCallers(s: State, t: Tid, r: Rid, u: Tid, c: CallerAct)
    requires Shape(s) && Abandoned(s, t, r) && CallerGuard(s, u, c) && (u != t || !c.SpuriousReq?)
    ensures Abandoned(CallerDo(s, u, c), t, r)
  {
    match c
    case Begin(p) =>
    case LockBox =>
    case Push =>
    case NotifyBox =>
    case UnlockBox =>
    case _ => AbandonedByReplies(s, t, r, u, c);
  }

  lemma AbandonedByReplies(s: State, t: Tid, r: Rid, u: Tid, c: CallerAct)
    requires Shape(s) && Abandoned(s, t, r) && CallerGuard(s, u, c) && (u != t || !c.SpuriousReq?) && OnReply(c)
    ensures Abandoned(CallerDo(s, u, c), t, r)
  {
    match c
    case LockReq =>
    case TestReq =>
    case ParkReq =>
    case WakeReq =>
    case SpuriousReq =>
    case Return =>
  }

  lemma AbandonedByMail(s: State, t: Tid, r: Rid, w: nat, k: WorkerAct)
    requires Shape(s) && Abandoned(s, t, r) && WorkerGuard(s, w, k) && !OnRequest(k)
    ensures Abandoned(WorkerDo(s, w, k), t, r)
  {
    match k
    case LoopTop =>
    case LockMail =>
    case CheckMail =>
    case ParkMail =>
    case WakeMail =>
    case SpuriousMail =>
    case Decide =>
    case Pop => AbandonedByPop(s, t, r, w);
    case Spawn =>
  }

  lemma AbandonedByPop(s: State, t: Tid, r: Rid, w: nat)
    requires InLoop(s, w) && Abandoned(s, t, r)
    ensures Abandoned(DoPop(s, w), t, r)
  {
  }

  lemma AbandonedByDone(s: State, t: Tid, r: Rid, w: nat, k: WorkerAct)
    requires Shape(s) && Abandoned(s, t, r) && WorkerGuard(s, w, k) && OnRequest(k)
    ensures Abandoned(WorkerDo(s, w, k), t, r)
  {
    match k
    case Execute(v) =>
    case LockDone =>
    case Store =>
    case UnlockDone =>
    case Signal =>
  }

  /** Once abandoned, abandoned for ever: no event of anybody else ends the sleep. */
  lemma AbandonedForEver(s: State, t: Tid, r: Rid, e: Event)
    requires Shape(s) && Abandoned(s, t, r) && Guard(s, e) && e != Call(t, SpuriousReq)
    ensures Abandoned(Do(s, e), t, r)
  {
    match e
    case Call(u, c) => AbandonedByCallers(s, t, r, u, c);
    case Work(w, k) => if OnRequest(k) { AbandonedByDone(s, t, r, w, k); } else { AbandonedByMail(s, t, r, w, k); }
    case Halt(h) =>
  }

  // ------------------------------------------------------------------ the window is real

  /** Some run of the real protocol, with no pool, reaches s. */
  ghost predicate Reached(s: State) {
    exists tr, es :: IsRun(0, tr, es) && tr[|es|] == s
  }

  lemma Play(s: State, e: Event) returns (s': State)
    requires Reached(s) && Shape(s) && Guard(s, e)
    ensures Reached(s') && Shape(s') && s' == Do(s, e)
  {
    s' := Do(s, e);
    var tr, es :| IsRun(0, tr, es) && tr[|es|] == s;
    var tr', es' := tr + [s'], es + [e];
    forall i | 0 <= i < |es'| ensures Moved(tr', es', i) {
      if i < |es| { assert Moved(tr, es, i); }
    }
    assert IsRun(0, tr', es') && tr'[|es'|] == s';
    RunInv(0, tr', es', |es'|);
  }

  /** A scene of the run: caller 0 with request 0, and worker 0. */
  ghost predicate Scene(s: State, pc: CallerPc, k: WorkerPc, box: Box, q: Request) {
    && Reached(s) && Shape(s) && s.boxes == [box] && !s.stopping
    && CallerAt(s, 0, pc) && s.callers[0].req == 0 && s.callers[0].box == 0
    && WorkerAt(s, 0, k) && (HasReq(k) ==> s.workers[0].req == 0)
    && 0 in s.requests && s.requests[0] == q
  }

  const CALLER := Some(CallerAgent(0))
  const WORKER := Some(WorkerAgent(0))
  const BUILT := Request(0, 0, false, 0, None, Built)

  lemma Begins() returns (s: State)
    ensures Scene(s, WantBox, Top, Box([], None), BUILT)
  {
    var none: seq<Event> := [];
    s := State([Box([], None)], [Worker(Top, 0, 0)], map[0 := Caller(Idle, 0, 0, -1, [], [])], map[],
               false, NotStopping, false, 0, [], map[]);
    assert IsRun(0, [s], none) && [s][|none|] == s;
    s := Play(s, Call(0, Begin(0)));
  }

  lemma Queues() returns (s: State)
    ensures Scene(s, WantReq, Top, Box([0], None), BUILT.(stage := Queued))
  {
    s := Begins();
    s := Play(s, Call(0, LockBox));
    assert s.boxes == [Box([], CALLER)];
    s := Play(s, Call(0, Push));
    assert s.boxes[0].queue == [0];
    s := Play(s, Call(0, NotifyBox));
    s := Play(s, Call(0, UnlockBox));
    assert s.boxes == [Box([0], None)];
  }

  lemma Collects() returns (s: State)
    ensures Scene(s, WantReq, Deciding, Box([0], WORKER), BUILT.(stage := Queued))
  {
    s := Queues();
    s := Play(s, Work(0, LoopTop));
    s := Play(s, Work(0, LockMail));
    assert s.boxes == [Box([0], WORKER)];
    s := Play(s, Work(0, CheckMail));
  }

  lemma Finishes(v: Value) returns (s: State)
    ensures Scene(s, WantReq, Finished, Box([], None), BUILT.(stage := Taken)) && s.workers[0].value == v
  {
    s := Collects();
    s := Play(s, Work(0, Decide));
    s := Play(s, Work(0, Pop));
    assert s.boxes[0].queue == [];
    s := Play(s, Work(0, Execute(v)));
  }

  /** The real protocol, where the store is locked, does reach the window. */
  lemma WindowReached(v: Value) returns (s: State)
    ensures Reached(s) && Window(s, 0, 0, 0) && Core(s) && s.workers[0].value == v
  {
    s := Finishes(v);
    s := Play(s, Call(0, LockReq));
    s := Play(s, Call(0, TestReq));
    var tr, es :| IsRun(0, tr, es) && tr[|es|] == s;
    RunInv(0, tr, es, |es|);
  }
}
