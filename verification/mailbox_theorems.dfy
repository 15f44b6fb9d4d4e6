/**
 What holds in every state of every run of the mailbox protocol.
 */
module MailboxTheorems {
  import opened Options
  import opened Mailbox
  import opened MailboxProofs

  /**
   No lost wakeup, in any state of any run.  A caller is never left parked on a request
   whose completion has been stored and announced; a worker is never left parked on a
   mailbox the shutdown loop has passed, nor on a non-empty one unless the pusher is
   still inside, about to notify.
   */
  lemma NoLostWakeup(n: nat, tr: seq<State>, es: seq<Event>, i: nat)
    requires IsRun(n, tr, es) && i < |tr|
    ensures forall t :: CallerAt(tr[i], t, Parked(false)) ==>
              tr[i].callers[t].req in tr[i].requests &&
              !tr[i].requests[tr[i].callers[t].req].stage.Signalled?
    ensures forall w: nat :: WorkerAt(tr[i], w, Asleep(false)) ==>
              w < |tr[i].boxes| && !Swept(tr[i], w) &&
              (tr[i].boxes[w].queue != [] ==> PushInProgress(tr[i], w))
  {
    RunInv(n, tr, es, i);
    forall t | CallerAt(tr[i], t, Parked(false)) ensures
      tr[i].callers[t].req in tr[i].requests && !tr[i].requests[tr[i].callers[t].req].stage.Signalled?
    {
      assert CallerOk(tr[i], t);
    }
    forall w: nat | WorkerAt(tr[i], w, Asleep(false)) ensures
      w < |tr[i].boxes| && !Swept(tr[i], w) && (tr[i].boxes[w].queue != [] ==> PushInProgress(tr[i], w))
    {
      assert WorkerOk(tr[i], w);
    }
  }

  /** Requests are popped only by the owner of the mailbox they were pushed to, no request twice in
      a whole run, and every completed one was popped. */
  lemma ServedExactlyOnce(n: nat, tr: seq<State>, es: seq<Event>, i: nat)
    requires IsRun(n, tr, es) && i < |tr|
    ensures forall j :: 0 <= j < |tr[i].pops| ==>
              tr[i].pops[j].1 in tr[i].requests && tr[i].requests[tr[i].pops[j].1].box == tr[i].pops[j].0
    ensures forall j, k :: 0 <= j < k < |tr[i].pops| ==> tr[i].pops[j].1 != tr[i].pops[k].1
    ensures forall r :: r in tr[i].requests && tr[i].requests[r].completed ==>
              (tr[i].requests[r].box, r) in tr[i].pops
  {
    RunInv(n, tr, es, i);
    forall r | r in tr[i].requests && tr[i].requests[r].completed ensures (tr[i].requests[r].box, r) in tr[i].pops {
      assert RequestOk(tr[i], r) && Popped(tr[i], r);
    }
  }

  /** Every value call_function ever returned is the one computed for that very request. */
  lemma ReturnsOwnResult(n: nat, tr: seq<State>, es: seq<Event>, i: nat, t: Tid, j: nat)
    requires IsRun(n, tr, es) && i < |tr| && t in tr[i].callers && j < |tr[i].callers[t].returned|
    ensures var (r, v) := tr[i].callers[t].returned[j];
            r in tr[i].requests && tr[i].requests[r].caller == t && r in tr[i].computed && tr[i].computed[r] == v
  {
    RunInv(n, tr, es, i);
  }

  /** The mailboxes one thread uses over a run read 0...0 w...w with 1 <= w <= n. */
  lemma StickyRouting(n: nat, tr: seq<State>, es: seq<Event>, i: nat, t: Tid)
    requires IsRun(n, tr, es) && i < |tr| && t in tr[i].callers
    ensures Routed(tr[i].callers[t].route, tr[i].callers[t].affinity, n)
  {
    RunInv(n, tr, es, i);
    BoxCount(n, tr, es, i);
  }

  lemma {:induction false} BoxCount(n: nat, tr: seq<State>, es: seq<Event>, i: nat)
    requires IsRun(n, tr, es) && i < |tr|
    ensures |tr[i].boxes| == n + 1
  {
    if i > 0 {
      BoxCount(n, tr, es, i - 1);
      assert Moved(tr, es, i - 1);
    }
  }

  // ------------------------------------------------------------------ no wedge

  /** Events that move an existing call or an ongoing shutdown forward. */
  predicate Progress(e: Event) {
    match e
    case Call(_, c) => !c.Begin? && !c.SpuriousReq?
    case Work(_, k) => !k.SpuriousMail?
    case Halt(h) => !h.StopBegin?
  }

  /** Nothing can move without a new call, a new shutdown or a spurious wakeup. */
  ghost predicate Quiescent(s: State)
    requires Shape(s)
  {
    forall e :: Progress(e) ==> !Guard(s, e)
  }

  lemma QuiescentCallers(s: State)
    requires Shape(s) && Quiescent(s)
    ensures forall t :: t in s.callers ==> !HoldsBox(s.callers[t].pc) && !HoldsReq(s.callers[t].pc)
  {
    forall t | t in s.callers ensures !HoldsBox(s.callers[t].pc) && !HoldsReq(s.callers[t].pc) {
      assert !Guard(s, Call(t, Push)) && !Guard(s, Call(t, NotifyBox)) && !Guard(s, Call(t, UnlockBox));
      assert !Guard(s, Call(t, TestReq)) && !Guard(s, Call(t, ParkReq)) && !Guard(s, Call(t, Return));
    }
  }

  lemma QuiescentWorkers(s: State)
    requires Shape(s) && Quiescent(s)
    ensures forall w: nat :: w < |s.workers| ==> !HoldsMail(s.workers[w].pc) && !HoldsDone(s.workers[w].pc)
    ensures !s.stopPc.Waking? && !s.stopPc.Leaving?
  {
    forall w: nat | w < |s.workers| ensures !HoldsMail(s.workers[w].pc) && !HoldsDone(s.workers[w].pc) {
      assert !Guard(s, Work(w, CheckMail)) && !Guard(s, Work(w, ParkMail)) && !Guard(s, Work(w, Decide));
      assert !Guard(s, Work(w, Pop)) && !Guard(s, Work(w, Store)) && !Guard(s, Work(w, UnlockDone));
    }
    assert !Guard(s, Halt(SweepNotify)) && !Guard(s, Halt(SweepUnlock));
  }

  lemma QuiescentUnlocked(s: State)
    requires Core(s) && Shape(s) && Quiescent(s)
    ensures forall b: nat :: b < |s.boxes| ==> s.boxes[b].holder.None?
    ensures forall r :: r in s.requests ==> s.requests[r].holder.None?
  {
    QuiescentCallers(s);
    QuiescentWorkers(s);
    forall b: nat | b < |s.boxes| ensures s.boxes[b].holder.None? { assert BoxOk(s, b); }
    forall r | r in s.requests ensures s.requests[r].holder.None? { assert RequestOk(s, r); }
  }

  lemma QuiescentCaller(s: State, t: Tid)
    requires Core(s) && Shape(s) && Quiescent(s) && t in s.callers
    ensures s.callers[t].pc == Idle || s.callers[t].pc == Parked(false)
  {
    QuiescentCallers(s);
    QuiescentUnlocked(s);
    assert CallerOk(s, t);
    assert !Guard(s, Call(t, LockBox)) && !Guard(s, Call(t, LockReq)) && !Guard(s, Call(t, WakeReq));
  }

  lemma QuiescentWorker(s: State, w: nat)
    requires Core(s) && Shape(s) && Quiescent(s) && w < |s.workers|
    ensures s.workers[w].pc == Offline || s.workers[w].pc == Exited || s.workers[w].pc == Asleep(false)
    ensures s.workers[w].pc == Asleep(false) ==> s.boxes[w].queue == [] && !Swept(s, w)
  {
    QuiescentWorkers(s);
    QuiescentUnlocked(s);
    assert WorkerOk(s, w);
    assert !Guard(s, Work(w, LoopTop)) && !Guard(s, Work(w, LockMail)) && !Guard(s, Work(w, WakeMail));
    assert !Guard(s, Work(w, Execute(0))) && !Guard(s, Work(w, LockDone)) && !Guard(s, Work(w, Signal));
  }

  lemma QueueHead(s: State, b: nat)
    requires Core(s) && b < |s.boxes|
    ensures s.boxes[b].queue != [] ==> exists r :: r in s.requests && s.requests[r].stage == Queued
  {
    assert BoxOk(s, b);
    if s.boxes[b].queue != [] { assert s.requests[s.boxes[b].queue[0]].stage == Queued; }
  }

  /**
   The protocol cannot wedge: in any state of any run with no shutdown under way, if
   nothing can move by itself then every call has returned and every mailbox is empty.
   */
  lemma NoWedge(n: nat, tr: seq<State>, es: seq<Event>, i: nat)
    requires IsRun(n, tr, es) && i < |tr| && Shape(tr[i]) && Quiescent(tr[i]) && !tr[i].stopping
    ensures forall t :: t in tr[i].callers ==> tr[i].callers[t].pc == Idle
    ensures forall b :: 0 <= b < |tr[i].boxes| ==> tr[i].boxes[b].queue == []
    ensures forall r :: r in tr[i].requests ==> tr[i].requests[r].completed
  {
    var s := tr[i];
    RunInv(n, tr, es, i);
    QuiescentUnlocked(s);
    forall r | r in s.requests ensures s.requests[r].stage == Signalled && s.requests[r].completed {
      assert RequestOk(s, r);
      var b := s.requests[r].box;
      QuiescentWorker(s, b);
      assert WorkerOk(s, b);
      if s.requests[r].caller in s.callers { QuiescentCaller(s, s.requests[r].caller); }
    }
    forall t | t in s.callers ensures s.callers[t].pc == Idle {
      QuiescentCaller(s, t);
      assert CallerOk(s, t);
    }
    forall b: nat | b < |s.boxes| ensures s.boxes[b].queue == [] { QueueHead(s, b); }
  }

  /** Shutdown reaches everybody: once nothing can move, the loop has finished and every
      worker that was ever online has left. */
  lemma ShutdownReachesAll(n: nat, tr: seq<State>, es: seq<Event>, i: nat)
    requires IsRun(n, tr, es) && i < |tr| && Shape(tr[i]) && Quiescent(tr[i]) && tr[i].stopping
    ensures tr[i].stopPc == Joining
    ensures forall w :: 0 <= w < |tr[i].workers| ==> tr[i].workers[w].pc == Exited || tr[i].workers[w].pc == Offline
    ensures tr[i].workers[0].pc == Exited
  {
    var s := tr[i];
    RunInv(n, tr, es, i);
    QuiescentUnlocked(s);
    assert !Guard(s, Halt(SweepLock)) && !Guard(s, Halt(SweepNotify));
    assert !Guard(s, Halt(SweepUnlock)) && !Guard(s, Halt(SweepEnd));
    forall w: nat | w < |s.workers| ensures s.workers[w].pc == Exited || s.workers[w].pc == Offline {
      QuiescentWorker(s, w);
    }
    assert WorkerOk(s, 0);
  }
}
