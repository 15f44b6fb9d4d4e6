/**
 Callers at shutdown: the mailboxes are not drained, so a call whose request no worker has popped
 never returns.
 */
module MailboxShutdown {
  import opened Options
  import opened Mailbox
  import opened MailboxProofs
  import opened MailboxTheorems
  import opened MailboxRace

  // ------------------------------------------------------------------ every request is awaited

  /** The caller of a request that is not completed is inside the call. */
  predicate Awaited(s: State, r: Rid) {
    r in s.requests && !s.requests[r].completed ==>
      var t := s.requests[r].caller;
      t in s.callers && s.callers[t].req == r && !s.callers[t].pc.Idle?
  }

  /** No caller left a call, or changed its request inside one, and nothing became incomplete. */
  predicate StillAwaited(s: State, s': State, r: Rid) {
    r in s'.requests && !s'.requests[r].completed ==>
      && r in s.requests && !s.requests[r].completed && s'.requests[r].caller == s.requests[r].caller
      && var t := s.requests[r].caller;
         t in s.callers ==> t in s'.callers && s'.callers[t].req == s.callers[t].req
                            && (s'.callers[t].pc.Idle? ==> s.callers[t].pc.Idle?)
  }

  lemma BeginAwaited(s: State, t: Tid, q: Rid, r: Rid)
    requires Shape(s) && CallerAt(s, t, Idle) && q !in s.requests && Awaited(s, r)
    ensures Awaited(DoBegin(s, t, q), r)
  {
  }

  lemma ReturnAwaited(s: State, t: Tid, r: Rid)
    requires Core(s) && CallerAt(s, t, Returning) && Awaited(s, r)
    ensures s.callers[t].req in s.requests && Awaited(DoReturn(s, t), r)
  {
    assert CallerOk(s, t);
  }

  lemma CallerAwaited(s: State, t: Tid, c: CallerAct, r: Rid)
    requires Core(s) && Shape(s) && CallerGuard(s, t, c) && Awaited(s, r)
    ensures Awaited(CallerDo(s, t, c), r)
  {
    if c.Begin? { BeginAwaited(s, t, c.r, r); }
    else if c.Return? { ReturnAwaited(s, t, r); }
    else { assert StillAwaited(s, CallerDo(s, t, c), r); }
  }

  lemma WorkerAwaited(s: State, w: nat, k: WorkerAct, r: Rid)
    requires Shape(s) && WorkerGuard(s, w, k) && Awaited(s, r)
    ensures Awaited(WorkerDo(s, w, k), r)
  {
    assert StillAwaited(s, WorkerDo(s, w, k), r);
  }

  lemma {:induction false} RequestAwaited(n: nat, tr: seq<State>, es: seq<Event>, i: nat, r: Rid)
    requires IsRun(n, tr, es) && i < |tr|
    ensures Awaited(tr[i], r)
  {
    if i > 0 {
      RequestAwaited(n, tr, es, i - 1, r);
      RunInv(n, tr, es, i - 1);
      var s, e := tr[i - 1], es[i - 1];
      assert Moved(tr, es, i - 1);
      match e
      case Call(t, c) => CallerAwaited(s, t, c, r);
      case Work(w, k) => WorkerAwaited(s, w, k, r);
      case Halt(h) => assert StillAwaited(s, tr[i], r);
    }
  }

  // ------------------------------------------------------------------ who is left behind

  /** The caller of r sleeps on it. */
  predicate Stranded(s: State, r: Rid) {
    r in s.requests && CallerAt(s, s.requests[r].caller, Parked(false)) && s.callers[s.requests[r].caller].req == r
  }

  /** Once nothing can move during shutdown, a call has returned if its request was popped, and sleeps if
      it was not: a caller is asleep exactly on the requests that were never popped. */
  lemma ShutdownStrands(n: nat, tr: seq<State>, es: seq<Event>, i: nat, r: Rid)
    requires IsRun(n, tr, es) && i < |tr| && Shape(tr[i]) && Quiescent(tr[i]) && tr[i].stopping && r in tr[i].requests
    ensures Stranded(tr[i], r) <==> (tr[i].requests[r].box, r) !in tr[i].pops
    ensures tr[i].requests[r].completed <==> (tr[i].requests[r].box, r) in tr[i].pops
  {
    var s := tr[i];
    RunInv(n, tr, es, i);
    ShutdownReachesAll(n, tr, es, i);
    RequestAwaited(n, tr, es, i, r);
    var t := s.requests[r].caller;
    assert RequestOk(s, r) && Popped(s, r);
    if t in s.callers {
      QuiescentCaller(s, t);
      assert CallerOk(s, t);
    }
  }

  /** ... and nobody else is: at rest every caller is between calls or asleep on such a request. */
  lemma ShutdownCallers(n: nat, tr: seq<State>, es: seq<Event>, i: nat, t: Tid)
    requires IsRun(n, tr, es) && i < |tr| && Shape(tr[i]) && Quiescent(tr[i]) && tr[i].stopping && t in tr[i].callers
    ensures var c := tr[i].callers[t];
            c.pc == Idle || (Stranded(tr[i], c.req) && tr[i].requests[c.req].caller == t)
  {
    RunInv(n, tr, es, i);
    QuiescentCaller(tr[i], t);
    assert CallerOk(tr[i], t);
  }

  // ------------------------------------------------------------------ for ever

  /** Every worker has left, or never came. */
  predicate AllGone(s: State) {
    forall w :: 0 <= w < |s.workers| ==> s.workers[w].pc.Exited? || s.workers[w].pc.Offline?
  }

  /** After that no event, spurious wakeups and new calls included, completes a request or ends its call. */
  lemma StrandedForEver(s: State, e: Event, r: Rid)
    requires Core(s) && Shape(s) && Guard(s, e) && AllGone(s) && r in s.requests && !s.requests[r].completed && Awaited(s, r)
    ensures var s' := Do(s, e);
            AllGone(s') && r in s'.requests && !s'.requests[r].completed && Awaited(s', r)
  {
    match e
    case Call(t, c) =>
      CallerAwaited(s, t, c, r);
      CallerCompletesNothing(s, t, c, r);
    case Work(w, k) => assert false;
    case Halt(h) => assert StillAwaited(s, StopDo(s, h), r);
  }

  lemma CallerCompletesNothing(s: State, t: Tid, c: CallerAct, r: Rid)
    requires Shape(s) && CallerGuard(s, t, c) && AllGone(s) && r in s.requests
    ensures var s' := CallerDo(s, t, c);
            AllGone(s') && r in s'.requests && s'.requests[r].completed == s.requests[r].completed
  {
  }

  /** A run that leaves a caller behind: shutdown begins after its push and before the pop. */
  lemma StrandedReached() returns (s: State)
    ensures Reached(s) && s.stopPc == Joining && AllGone(s) && Stranded(s, 0) && !s.requests[0].completed
  {
    s := Sleeps();
    s := Sweeps(s);
    s := Leaves(s);
  }

  lemma Sleeps() returns (s: State)
    ensures Scene(s, Parked(false), Top, Box([0], None), BUILT.(stage := Queued)) && s.stopPc == NotStopping
  {
    s := Queues();
    s := Play(s, Call(0, LockReq));
    s := Play(s, Call(0, TestReq));
    s := Play(s, Call(0, ParkReq));
    var tr, es :| IsRun(0, tr, es) && tr[|es|] == s;
    RunInv(0, tr, es, |es|);
  }

  lemma Sweeps(s0: State) returns (s: State)
    requires Reached(s0) && Shape(s0) && s0.boxes == [Box([0], None)] && s0.stopPc == NotStopping && WorkerAt(s0, 0, Top)
    ensures Reached(s) && Shape(s) && s.stopPc == Leaving(0) && s.stopping && |s.boxes| == 1 && WorkerAt(s, 0, Top)
    ensures s.callers == s0.callers && s.requests == s0.requests
  {
    s := Play(s0, Halt(StopBegin));
    s := Play(s, Halt(SweepLock));
    s := Play(s, Halt(SweepNotify));
  }

  lemma Leaves(s0: State) returns (s: State)
    requires Reached(s0) && Shape(s0) && |s0.boxes| == 1 && s0.stopPc == Leaving(0) && s0.stopping && WorkerAt(s0, 0, Top)
    ensures Reached(s) && s.stopPc == Joining && AllGone(s) && s.callers == s0.callers && s.requests == s0.requests
  {
    s := Play(s0, Halt(SweepUnlock));
    s := Play(s, Halt(SweepEnd));
    s := Play(s, Work(0, LoopTop));
  }
}
