/**
 What every scheduler building block keeps: the correspondence between thread states, the
 runnable queue, the wait queues and the resume addresses.
 */
module SchedulerCore {
  import opened Scheduler

  /** The address a thread continues at: what Save would record for it. */
  function PcOf(s: State, t: Tid): Addr
    requires t in s.threads
  { if t == s.current && !KeepsResumePc(s.threads[t]) then s.pc else s.threads[t].pc }

  /** Each pending wait stands at its own trampoline, and nothing else does. */
  predicate Pending(th: Thread, pc: Addr) {
    && (th.mutexWait != 0 <==> pc == MUTEX_RESUME)
    && (th.condMutex != 0 <==> pc == COND_RESUME)
    && (th.joinTarget != 0 <==> pc == JOIN_RESUME)
    && (th.barrierWait != 0 <==> pc == BARRIER_RESUME)
    && pc != RD_RESUME && pc != WR_RESUME
  }

  /** The context of a thread waiting in q names q's object. */
  predicate Matches(th: Thread, q: QueueId) {
    match q
    case MutexQ(a) => th.mutexWait == a != 0
    case CondQ(a) => th.condMutex != 0 && th.blockedOn == a
    case JoinQ(t) => th.joinTarget == t != 0
    case BarrierQ(a) => th.barrierWait == a != 0
    case ReadQ(a) => th.readWait == a && !Waits(th)
    case WriteQ(a) => th.writeWait == a && !Waits(th)
  }

  predicate ContextOk(th: Thread, pc: Addr) {
    && (th.state.Blocked? <==> th.home.In?)
    && (th.home.In? ==> Matches(th, th.home.q))
    && Pending(th, pc)
    && (th.state.Blocked? && Waits(th) ==> KeepsResumePc(th))
    && (th.state.Terminated? ==> !Waits(th))
  }

  predicate ThreadOk(s: State, t: Tid) {
    t in s.threads ==>
      var th := s.threads[t];
      && 0 < t < s.nextTid
      && (th.state.Running? ==> t == s.current)
      && (th.state.Runnable? ==> t in s.runq)
      && ContextOk(th, PcOf(s, t))
      && (th.home.In? ==> t in Queue(s, th.home.q))
  }

  predicate Distinct(ts: seq<Tid>) { forall i, j :: 0 <= i < j < |ts| ==> ts[i] != ts[j] }

  predicate QueueOk(s: State, q: QueueId) {
    && Distinct(Queue(s, q))
    && forall i :: 0 <= i < |Queue(s, q)| ==>
         Queue(s, q)[i] in s.threads && s.threads[Queue(s, q)[i]].home == In(q)
  }

  predicate RunqOk(s: State) {
    && Distinct(s.runq)
    && forall i :: 0 <= i < |s.runq| ==> s.runq[i] in s.threads && s.threads[s.runq[i]].state.Runnable?
  }

  ghost predicate Core(s: State) {
    && s.current in s.threads
    && 0 < s.nextTid
    && RunqOk(s)
    && (forall t: Tid {:trigger ThreadOk(s, t)} :: ThreadOk(s, t))
    && (forall q: QueueId {:trigger QueueOk(s, q)} :: QueueOk(s, q))
  }

  // ------------------------------------------------------------------ changes of records

  ghost predicate SameQueues(s: State, s': State) {
    forall q: QueueId {:trigger QueueOk(s', q)} :: Queue(s', q) == Queue(s, q)
  }

  lemma CoreSameQueues(s: State, s': State)
    requires Core(s) && SameQueues(s, s')
    requires s'.threads == s.threads && s'.runq == s.runq && s'.current == s.current
    requires s'.pc == s.pc && s'.nextTid == s.nextTid
    ensures Core(s')
  {
    forall t: Tid ensures ThreadOk(s', t) {
      assert ThreadOk(s, t);
      if t in s.threads && s.threads[t].home.In? { assert QueueOk(s', s.threads[t].home.q) || true; }
    }
    forall q: QueueId ensures QueueOk(s', q) { assert QueueOk(s, q); assert QueueOk(s', q) || true; }
  }

  /** The running thread's context, and the CPU's PC, change; it may fall asleep or terminate. */
  lemma CoreSetCurrent(s: State, th: Thread, pc: Addr)
    requires Core(s) && CurrentRuns(s)
    requires th.joiners == s.threads[s.current].joiners
    requires th.state.Running? || th.state.Sleeping? || th.state.Terminated?
    requires th.home.Nowhere? && Pending(th, pc) && (th.state.Terminated? ==> !Waits(th))
    ensures Core(SetThread(s, s.current, th).(pc := pc))
  {
    var s' := SetThread(s, s.current, th).(pc := pc);
    forall t: Tid ensures ThreadOk(s', t) { assert ThreadOk(s, t); }
    forall q: QueueId ensures QueueOk(s', q) { assert QueueOk(s, q); CurrentInNoQueue(s, q); }
  }

  lemma CurrentInNoQueue(s: State, q: QueueId)
    requires Core(s) && s.current in s.threads && !s.threads[s.current].state.Blocked?
    ensures s.current !in Queue(s, q)
  {
    assert QueueOk(s, q) && ThreadOk(s, s.current);
  }

  // ------------------------------------------------------------------ blocking

  predicate MayEnqueue(s: State, q: QueueId, th: Thread, on: nat) {
    && HasQueue(s, q) && CurrentRuns(s)
    && th.joiners == s.threads[s.current].joiners
    && var b := th.(state := Blocked, blockedOn := on, home := In(q));
       ContextOk(b, if KeepsResumePc(b) then b.pc else s.pc)
  }

  lemma CoreEnqueue(s: State, q: QueueId, th: Thread, on: nat)
    requires Core(s) && MayEnqueue(s, q, th, on)
    ensures Core(Enqueue(s, q, th, on))
    ensures EnqueueOnce(s, q, th, on) == Enqueue(s, q, th, on)
  {
    var s' := Enqueue(s, q, th, on);
    CurrentInNoQueue(s, q);
    forall p: QueueId ensures Queue(s', p) == if p == q then Queue(s, q) + [s.current] else Queue(s, p) {
      EnqueueQueues(s, q, th, on, p);
    }
    assert ThreadOk(s, s.current);
    forall t: Tid ensures ThreadOk(s', t) { assert ThreadOk(s, t); }
    forall p: QueueId ensures QueueOk(s', p) { assert QueueOk(s, p); CurrentInNoQueue(s, p); }
  }

  lemma EnqueueQueues(s: State, q: QueueId, th: Thread, on: nat, p: QueueId)
    requires HasQueue(s, q) && s.current in s.threads && th.joiners == s.threads[s.current].joiners
    ensures Queue(Enqueue(s, q, th, on), p) == if p == q then Queue(s, q) + [s.current] else Queue(s, p)
  {
  }

  // ------------------------------------------------------------------ waking

  function Unblocked(th: Thread): Thread { th.(state := Runnable, blockedOn := 0, home := Nowhere) }

  /** s' is s after the head of q was popped and unblocked. */
  ghost predicate Popped(s: State, q: QueueId, s': State) {
    && Queue(s, q) != []
    && s'.current == s.current && s'.pc == s.pc && s'.nextTid == s.nextTid
    && s'.runq == s.runq + [Queue(s, q)[0]]
    && s'.threads.Keys == s.threads.Keys
    && (forall t: Tid {:trigger s'.threads[t]} :: t in s.threads ==>
          s'.threads[t] == (if t == Queue(s, q)[0] then Unblocked(s.threads[t]) else s.threads[t])
                             .(joiners := s'.threads[t].joiners))
    && (forall p: QueueId {:trigger Queue(s', p)} ::
          Queue(s', p) == if p == q then Queue(s, q)[1..] else Queue(s, p))
  }

  predicate CanWake(s: State, q: QueueId) {
    && HasQueue(s, q) && Queue(s, q) != []
    && s.current in s.threads && !s.threads[s.current].state.Blocked?
  }

  /** s1 is s with v as the queue q. */
  ghost predicate Requeued(s: State, q: QueueId, v: seq<Tid>, s1: State) {
    && s1.current == s.current && s1.pc == s.pc && s1.nextTid == s.nextTid && s1.runq == s.runq
    && s1.threads.Keys == s.threads.Keys && HasQueue(s1, q)
    && (forall t: Tid {:trigger s1.threads[t]} :: t in s.threads ==>
          s1.threads[t] == s.threads[t].(joiners := s1.threads[t].joiners))
    && (forall p: QueueId {:trigger Queue(s1, p)} :: Queue(s1, p) == if p == q then v else Queue(s, p))
  }

  lemma SetQueueRequeues(s: State, q: QueueId, v: seq<Tid>)
    requires HasQueue(s, q)
    ensures Requeued(s, q, v, SetQueue(s, q, v))
  {
  }

  lemma UnblockPops(s: State, q: QueueId, s1: State)
    requires Core(s) && CanWake(s, q) && Requeued(s, q, Queue(s, q)[1..], s1)
    ensures Popped(s, q, Unblock(s1, Queue(s, q)[0])) && HasQueue(Unblock(s1, Queue(s, q)[0]), q)
  {
    var t := Queue(s, q)[0];
    var s' := Unblock(s1, t);
    assert QueueOk(s, q) && ThreadOk(s, t);
    assert s1.threads[t].state.Blocked?;
    forall p: QueueId ensures Queue(s', p) == Queue(s1, p) {}
  }

  lemma StillQueued(s: State, q: QueueId, s': State, t: Tid)
    requires Popped(s, q, s') && t in s.threads && t != Queue(s, q)[0]
    requires s.threads[t].home.In? && t in Queue(s, s.threads[t].home.q)
    ensures t in Queue(s', s.threads[t].home.q)
  {
    var p := s.threads[t].home.q;
    assert Queue(s', p) == if p == q then Queue(s, q)[1..] else Queue(s, p);
  }

  lemma PoppedThread(s: State, q: QueueId, s': State, t: Tid)
    requires Core(s) && CanWake(s, q) && Popped(s, q, s')
    ensures ThreadOk(s', t)
  {
    var x := Queue(s, q)[0];
    assert ThreadOk(s, t);
    if t == x {
      assert QueueOk(s, q);
      assert s'.runq[|s.runq|] == t;
    } else if t in s.threads {
      assert s'.threads[t] == s.threads[t].(joiners := s'.threads[t].joiners);
      assert PcOf(s', t) == PcOf(s, t);
      if s.threads[t].home.In? { StillQueued(s, q, s', t); }
    }
  }

  lemma PoppedQueue(s: State, q: QueueId, s': State, p: QueueId)
    requires Core(s) && CanWake(s, q) && Popped(s, q, s')
    ensures QueueOk(s', p)
  {
    assert QueueOk(s, q) && QueueOk(s, p);
    forall i | 0 <= i < |Queue(s', p)|
      ensures Queue(s', p)[i] in s'.threads && s'.threads[Queue(s', p)[i]].home == In(p)
    {
      assert Queue(s', p)[i] == Queue(s, p)[if p == q then i + 1 else i];
    }
  }

  lemma CorePopped(s: State, q: QueueId, s': State)
    requires Core(s) && CanWake(s, q) && Popped(s, q, s')
    ensures Core(s')
  {
    assert QueueOk(s, q) && ThreadOk(s, Queue(s, q)[0]);
    assert Queue(s, q)[0] !in s.runq;
    forall t: Tid ensures ThreadOk(s', t) { PoppedThread(s, q, s', t); }
    forall p: QueueId ensures QueueOk(s', p) { PoppedQueue(s, q, s', p); }
  }

  /** No pop-and-unblock is dropped: the popped thread was blocked and becomes runnable. */
  lemma CoreWakeFirst(s: State, q: QueueId)
    requires Core(s) && CanWake(s, q)
    ensures Core(WakeFirst(s, q)) && Popped(s, q, WakeFirst(s, q)) && HasQueue(WakeFirst(s, q), q)
    ensures var t := Queue(s, q)[0];
            t in s.threads && t != s.current && s.threads[t].state.Blocked? && s.threads[t].home == In(q)
  {
    assert QueueOk(s, q) && ThreadOk(s, Queue(s, q)[0]);
    SetQueueRequeues(s, q, Queue(s, q)[1..]);
    UnblockPops(s, q, SetQueue(s, q, Queue(s, q)[1..]));
    CorePopped(s, q, WakeFirst(s, q));
  }

  /** Unblocking a whole queue is popping it until it is empty. */
  lemma {:induction false} WakeAllUnfold(s: State, q: QueueId)
    requires HasQueue(s, q)
    ensures Queue(s, q) == [] ==> WakeAll(s, q) == s
    ensures Queue(s, q) != [] ==>
              HasQueue(WakeFirst(s, q), q) && WakeAll(s, q) == WakeAll(WakeFirst(s, q), q)
  {
    if Queue(s, q) == [] {
      SetSameQueue(s, q);
    } else {
      var t, rest := Queue(s, q)[0], Queue(s, q)[1..];
      SetQueueTwice(s, q, rest);
      UnblockSetQueue(SetQueue(s, q, rest), q, t);
    }
  }

  lemma SetSameQueue(s: State, q: QueueId)
    requires HasQueue(s, q)
    ensures SetQueue(s, q, Queue(s, q)) == s
  {
    match q
    case MutexQ(a) => assert s.mutexes[a := s.mutexes[a]] == s.mutexes;
    case CondQ(a) => assert s.conds[a := s.conds[a]] == s.conds;
    case ReadQ(a) => assert s.rwlocks[a := s.rwlocks[a]] == s.rwlocks;
    case WriteQ(a) => assert s.rwlocks[a := s.rwlocks[a]] == s.rwlocks;
    case BarrierQ(a) => assert s.barriers[a := s.barriers[a]] == s.barriers;
    case JoinQ(t) => assert s.threads[t := s.threads[t]] == s.threads;
  }

  lemma SetQueueTwice(s: State, q: QueueId, v: seq<Tid>)
    requires HasQueue(s, q)
    ensures HasQueue(SetQueue(s, q, v), q) && SetQueue(SetQueue(s, q, v), q, []) == SetQueue(s, q, [])
  {
    match q
    case MutexQ(a) => assert SetQueue(SetQueue(s, q, v), q, []).mutexes == SetQueue(s, q, []).mutexes;
    case CondQ(a) => assert SetQueue(SetQueue(s, q, v), q, []).conds == SetQueue(s, q, []).conds;
    case ReadQ(a) => assert SetQueue(SetQueue(s, q, v), q, []).rwlocks == SetQueue(s, q, []).rwlocks;
    case WriteQ(a) => assert SetQueue(SetQueue(s, q, v), q, []).rwlocks == SetQueue(s, q, []).rwlocks;
    case BarrierQ(a) => assert SetQueue(SetQueue(s, q, v), q, []).barriers == SetQueue(s, q, []).barriers;
    case JoinQ(t) => assert SetQueue(SetQueue(s, q, v), q, []).threads == SetQueue(s, q, []).threads;
  }

  lemma UnblockSetQueue(s: State, q: QueueId, t: Tid)
    requires HasQueue(s, q)
    ensures HasQueue(Unblock(s, t), q)
    ensures SetQueue(Unblock(s, t), q, []) == Unblock(SetQueue(s, q, []), t)
  {
    assert SetQueue(Unblock(s, t), q, []).threads == Unblock(SetQueue(s, q, []), t).threads;
  }

  /** Waking a queue appends its threads to the runnable ones; the current thread's state stays. */
  ghost predicate Woke(s: State, q: QueueId, s': State) {
    && s'.runq == s.runq + Queue(s, q) && s'.current == s.current
    && s.current in s.threads && s.current in s'.threads
    && s'.threads[s.current].state == s.threads[s.current].state
  }

  lemma {:induction false} CoreWakeAll(s: State, q: QueueId)
    requires Core(s) && HasQueue(s, q) && !s.threads[s.current].state.Blocked?
    ensures Core(WakeAll(s, q)) && Woke(s, q, WakeAll(s, q))
    decreases |Queue(s, q)|, 1
  {
    WakeAllUnfold(s, q);
    if Queue(s, q) != [] {
      CoreWakeFirst(s, q);
      WakeRest(s, q, WakeFirst(s, q));
    } else {
      assert s.runq + Queue(s, q) == s.runq;
    }
  }

  lemma {:induction false} WakeRest(s: State, q: QueueId, s1: State)
    requires Core(s) && CanWake(s, q) && Popped(s, q, s1) && Core(s1) && HasQueue(s1, q)
    requires s.current != Queue(s, q)[0]
    ensures Core(WakeAll(s1, q)) && Woke(s, q, WakeAll(s1, q))
    decreases |Queue(s, q)|, 0
  {
    assert Queue(s1, q) == Queue(s, q)[1..];
    assert s1.threads[s.current] == s.threads[s.current].(joiners := s1.threads[s.current].joiners);
    CoreWakeAll(s1, q);
    assert s.runq + Queue(s, q) == s1.runq + Queue(s1, q);
  }

  // ------------------------------------------------------------------ switching

  /** Between Save and Dispatch nobody runs and the current thread's PC is recorded. */
  ghost predicate Saved(s: State) {
    && Core(s)
    && !s.threads[s.current].state.Running?
    && s.threads[s.current].pc == PcOf(s, s.current)
  }

  /** Only thread t's state and PC change; its queues and everybody else stay. */
  predicate Restated(s: State, s': State, t: Tid) {
    && t in s.threads && t in s'.threads
    && s'.threads == s.threads[t := s.threads[t].(state := s'.threads[t].state, pc := s'.threads[t].pc)]
    && s'.nextTid == s.nextTid && s'.mutexes == s.mutexes && s'.conds == s.conds
    && s'.rwlocks == s.rwlocks && s'.barriers == s.barriers
  }

  lemma RestatedQueue(s: State, s': State, t: Tid, q: QueueId)
    requires QueueOk(s, q) && Restated(s, s', t)
    ensures QueueOk(s', q) && Queue(s', q) == Queue(s, q)
  {
  }

  /** The other threads are still where their state says, and continue where they did. */
  predicate Undisturbed(s: State, s': State, u: Tid) {
    u in s.threads && u in s'.threads ==>
      && (s.threads[u].state.Running? ==> u == s'.current)
      && (s.threads[u].state.Runnable? ==> u in s'.runq)
      && PcOf(s', u) == PcOf(s, u)
  }

  lemma CoreRestated(s: State, s': State, t: Tid)
    requires Core(s) && Restated(s, s', t) && RunqOk(s') && s'.current in s'.threads && ThreadOk(s', t)
    requires forall u: Tid {:trigger Undisturbed(s, s', u)} :: u != t ==> Undisturbed(s, s', u)
    ensures Core(s')
  {
    forall q: QueueId ensures QueueOk(s', q) && Queue(s', q) == Queue(s, q) {
      assert QueueOk(s, q);
      RestatedQueue(s, s', t, q);
    }
    forall u: Tid ensures ThreadOk(s', u) {
      assert ThreadOk(s, u) && (u != t ==> Undisturbed(s, s', u));
      if u in s.threads && s.threads[u].home.In? { assert QueueOk(s', s.threads[u].home.q); }
    }
  }

  lemma CoreSave(s: State)
    requires Core(s)
    ensures Saved(Save(s)) && Save(s).current == s.current
    ensures Save(s).runq == if s.threads[s.current].state.Running? then s.runq + [s.current] else s.runq
  {
    var s', c := Save(s), s.current;
    assert ThreadOk(s, c);
    if !KeepsResumePc(s.threads[c]) {
      assert Restated(s, s', c);
      assert s.threads[c].home.In? ==> Queue(s', s.threads[c].home.q) == Queue(s, s.threads[c].home.q);
      forall u: Tid | u != c ensures Undisturbed(s, s', u) { assert ThreadOk(s, u); }
      CoreRestated(s, s', c);
    }
  }

  lemma SavedWakeSleeper(s: State, t: Tid)
    requires Saved(s)
    ensures Saved(WakeSleeper(s, t)) && s.runq <= WakeSleeper(s, t).runq
  {
    var s' := WakeSleeper(s, t);
    assert ThreadOk(s, t);
    if s' != s {
      forall u: Tid | u != t ensures Undisturbed(s, s', u) { assert ThreadOk(s, u); }
      CoreRestated(s, s', t);
    }
  }

  lemma {:induction false} SavedWakeSleepers(s: State, due: seq<Tid>)
    requires Saved(s)
    ensures Saved(WakeSleepers(s, due)) && s.runq <= WakeSleepers(s, due).runq
    decreases |due|
  {
    if due != [] {
      SavedWakeSleeper(s, due[0]);
      SavedWakeSleepers(WakeSleeper(s, due[0]), due[1..]);
    }
  }

  lemma DispatchHead(s: State)
    requires Saved(s) && s.runq != []
    ensures Core(Dispatch(s)) && CurrentRuns(Dispatch(s))
    ensures Dispatch(s).current == s.runq[0] && Dispatch(s).runq == s.runq[1..]
  {
    var s', t := Dispatch(s), s.runq[0];
    assert Skip(s.threads, s.runq) == 0;
    assert ThreadOk(s, t) && ThreadOk(s, s.current);
    forall u: Tid | u != t ensures Undisturbed(s, s', u) {
      assert ThreadOk(s, u);
      if u in s.threads && s.threads[u].state.Runnable? {
        var i :| 0 <= i < |s.runq| && s.runq[i] == u;
        assert s'.runq[i - 1] == u;
      }
    }
    CoreRestated(s, s', t);
  }

  lemma DispatchNobody(s: State)
    requires Saved(s) && s.runq == []
    ensures Core(Dispatch(s)) && !CurrentRuns(Dispatch(s))
    ensures Dispatch(s).current == s.current && Dispatch(s).runq == []
  {
    var s', c := Dispatch(s), s.current;
    assert ThreadOk(s, c);
    assert s.threads[c := s.threads[c]] == s.threads;
    assert s.threads[c].home.In? ==> Queue(s', s.threads[c].home.q) == Queue(s, s.threads[c].home.q);
    forall u: Tid | u != c ensures Undisturbed(s, s', u) { assert ThreadOk(s, u); }
    CoreRestated(s, s', c);
  }

  lemma CoreDispatch(s: State)
    requires Saved(s)
    ensures Core(Dispatch(s))
    ensures s.runq != [] ==> Dispatch(s).current == s.runq[0] && Dispatch(s).runq == s.runq[1..]
    ensures s.runq == [] ==> Dispatch(s).runq == [] && Dispatch(s).current == s.current
    ensures s.runq != [] <==> CurrentRuns(Dispatch(s))
  {
    if s.runq != [] { DispatchHead(s); } else { DispatchNobody(s); }
  }

  /** A switch keeps the correspondence, and runs the head of the queue if there is one: the
      queue of those already waiting, then the preempted thread, then the due sleepers. */
  lemma CoreSwitch(s: State, due: seq<Tid>)
    requires Core(s)
    ensures Core(Switch(s, due))
    ensures exists x: seq<Tid> :: s.runq <= x && Moves(x, Switch(s, due))
  {
    CoreSave(s);
    SavedWakeSleepers(Save(s), due);
    var s1 := WakeSleepers(Save(s), due);
    CoreDispatch(s1);
    assert s.runq <= s1.runq && Moves(s1.runq, Switch(s, due));
  }

  /** s' selected the head of x, or x was empty and nobody runs. */
  predicate Moves(x: seq<Tid>, s': State) {
    if x == [] then s'.runq == [] && !CurrentRuns(s')
    else s'.runq == x[1..] && s'.current == x[0] && CurrentRuns(s')
  }

  // ------------------------------------------------------------------ births and deaths

  lemma CoreCreate(s: State, entry: Addr)
    requires Core(s) && !IsResume(entry) && CurrentRuns(s)
    ensures Core(DoCreate(s, entry).0)
  {
    var s' := DoCreate(s, entry).0;
    assert ThreadOk(s, s.nextTid);
    forall t: Tid ensures ThreadOk(s', t) { assert ThreadOk(s, t); }
    forall q: QueueId ensures QueueOk(s', q) { assert QueueOk(s, q); }
  }

  lemma CoreErase(s: State, t: Tid)
    requires Core(s) && t in s.threads && t != s.current
    requires s.threads[t].state.Terminated? && s.threads[t].joiners == []
    ensures Core(s.(threads := s.threads - {t}))
  {
    var s' := s.(threads := s.threads - {t});
    assert ThreadOk(s, t);
    forall q: QueueId ensures Queue(s', q) == Queue(s, q) {}
    forall u: Tid ensures ThreadOk(s', u) { assert ThreadOk(s, u); }
    forall q: QueueId ensures QueueOk(s', q) { assert QueueOk(s, q); }
  }

  lemma CoreDetach(s: State, t: Tid)
    requires Core(s) && t in s.threads
    ensures Core(SetThread(s, t, s.threads[t].(detached := true)))
  {
    var s' := SetThread(s, t, s.threads[t].(detached := true));
    forall q: QueueId ensures Queue(s', q) == Queue(s, q) {}
    forall u: Tid ensures ThreadOk(s', u) { assert ThreadOk(s, u); }
    forall q: QueueId ensures QueueOk(s', q) { assert QueueOk(s, q); }
  }

  lemma UsedIds(s: State)
    requires Core(s)
    ensures forall t :: t in s.threads ==> t < s.nextTid
  {
    forall t | t in s.threads ensures t < s.nextTid { assert ThreadOk(s, t); }
  }
}
