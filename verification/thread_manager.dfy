/**
 The thread manager as the object it is: fields updated in place, statement by statement in the
 order of the handlers, each method proved to take the step its specification function gives
 and to keep the scheduler's invariant.
 */
module ThreadManagers {
  import opened AddressMap
  import opened Scheduler
  import opened SchedulerCore
  import opened SchedulerSteps
  import opened SchedulerLocks
  import opened SchedulerRuns
  import opened SchedulerMeaning

  class ThreadManager {
    var threads: map<Tid, Thread>
    var runnableQueue: seq<Tid>
    var currentThread: Tid
    var pc: Addr                      // the guest CPU's program counter
    var nextThreadId: Tid
    var mutexes: map<Addr, Mutex>
    var condvars: map<Addr, seq<Tid>>
    var rwlocks: map<Addr, RwLock>
    var barriers: map<Addr, Barrier>

    function Now(): State
      reads this
    { State(threads, runnableQueue, currentThread, pc, nextThreadId, mutexes, condvars, rwlocks, barriers) }

    ghost predicate Valid()
      reads this
    { Inv(Now()) }

    constructor (entry: Addr)
      requires !IsResume(entry)
      ensures Valid() && Init(Now()) && pc == entry
    {
      threads := map[1 := NewThread(entry).(state := Running)];
      runnableQueue, currentThread, pc, nextThreadId := [], 1, entry, 4096;
      mutexes, condvars, rwlocks, barriers := map[], map[], map[], map[];
      new;
      InitInv(Now());
    }

    // ---------------------------------------------------------------- scheduling

    method SelectNextThread(due: seq<Tid>) returns (found: bool, next: Tid)
      modifies this`threads, this`runnableQueue
      ensures var s1 := WakeSleepers(old(Now()), due);
              var n := Skip(s1.threads, s1.runq);
              && found == (n < |s1.runq|)
              && (found ==> next == s1.runq[n] && Now() == s1.(runq := s1.runq[n + 1..]))
              && (!found ==> Now() == s1.(runq := []))
    {
      for i := 0 to |due|
        invariant WakeSleepers(Now(), due[i..]) == WakeSleepers(old(Now()), due)
      {
        assert due[i..][0] == due[i] && due[i..][1..] == due[i + 1..];
        var t := due[i];
        if t in threads && threads[t].state.Sleeping? {
          threads := threads[t := threads[t].(state := Runnable)];
          runnableQueue := runnableQueue + [t];
        }
      }
      ghost var s1, k := Now(), 0;
      assert s1 == WakeSleepers(old(Now()), due);
      found, next := false, 0;
      while runnableQueue != []
        invariant 0 <= k <= |s1.runq| && runnableQueue == s1.runq[k..] && Now() == s1.(runq := runnableQueue)
        invariant Skip(s1.threads, s1.runq) == k + Skip(s1.threads, s1.runq[k..])
        invariant !found
        decreases |runnableQueue|
      {
        next := runnableQueue[0];
        assert s1.runq[k..][1..] == s1.runq[k + 1..];
        runnableQueue := runnableQueue[1..];
        if next in threads && threads[next].state.Runnable? {
          found := true;
          return;
        }
        k := k + 1;
      }
    }

    /** The first half of context_switch. */
    method SaveCurrent()
      requires currentThread in threads
      modifies this`threads, this`runnableQueue
      ensures Now() == Save(old(Now()))
    {
      var current := threads[currentThread];
      if current.state.Running? {
        threads := threads[currentThread := current.(state := Runnable, pc := pc)];
        runnableQueue := runnableQueue + [currentThread];
      } else {
        var savedResumePc, hasResumePc := current.pc, false;
        if current.state.Blocked? {
          if current.mutexWait != 0 || current.condMutex != 0 || current.joinTarget != 0 || current.barrierWait != 0 {
            hasResumePc := HLE_BASE <= savedResumePc < HLE_BASE + HLE_SIZE;
          }
        }
        threads := threads[currentThread := current.(pc := if hasResumePc then savedResumePc else pc)];
        assert hasResumePc ==> threads == old(threads);
      }
    }

    method ContextSwitch(due: seq<Tid>)
      modifies this`threads, this`runnableQueue, this`currentThread, this`pc
      ensures Now() == Switch(old(Now()), due)
    {
      if currentThread !in threads { return; }
      SaveCurrent();
      WakeSleepersDrift(Now(), due, currentThread);
      var found, next := SelectNextThread(due);
      if !found {
        if threads[currentThread].state.Terminated? {
          pc := 0;
        } else if threads[currentThread].state.Runnable? {
          threads := threads[currentThread := threads[currentThread].(state := Running)];
        }
        return;
      }
      currentThread := next;
      threads := threads[next := threads[next].(state := Running)];
      pc := threads[next].pc;
    }

    /** Also records, for the proofs, which queue the thread was put in. */
    method BlockCurrentThread(q: QueueId, resource: nat)
      modifies this`threads
      ensures Now() == if currentThread in old(threads)
                       then SetThread(old(Now()), currentThread,
                                      old(threads)[currentThread].(state := Blocked, blockedOn := resource, home := In(q)))
                       else old(Now())
    {
      if currentThread in threads {
        threads := threads[currentThread := threads[currentThread].(state := Blocked, blockedOn := resource, home := In(q))];
      }
    }

    method UnblockThread(t: Tid)
      modifies this`threads, this`runnableQueue
      ensures Now() == Unblock(old(Now()), t)
    {
      if t !in threads { return; }
      if !threads[t].state.Blocked? { return; }
      threads := threads[t := threads[t].(state := Runnable, blockedOn := 0, home := Nowhere)];
      runnableQueue := runnableQueue + [t];
    }

    method UnblockThreads(ts: seq<Tid>)
      modifies this`threads, this`runnableQueue
      ensures Now() == UnblockEach(old(Now()), ts)
    {
      for i := 0 to |ts|
        invariant UnblockEach(Now(), ts[i..]) == UnblockEach(old(Now()), ts)
      {
        assert ts[i..][0] == ts[i] && ts[i..][1..] == ts[i + 1..];
        UnblockThread(ts[i]);
      }
    }

    // ---------------------------------------------------------------- threads

    /** A thread with an id never used before is first in line. */
    method Create(entry: Addr) returns (code: int)
      requires Valid() && InGuest(Now()) && !IsResume(entry)
      modifies this
      ensures Valid() && (Now(), code) == DoCreate(old(Now()), entry)
      ensures CreateMeans(old(Now()), entry, Now(), code)
      ensures forall t :: t in old(threads) ==> t < old(nextThreadId)
    {
      OpInv(Now(), Op.Create(entry), []);
      UsedIds(Now());
      CreateMeaning(Now(), entry);
      var t := nextThreadId;
      nextThreadId := nextThreadId + 1;
      threads := threads[t := NewThread(entry)];
      runnableQueue := [t] + runnableQueue;
      code := 0;
    }

    /** A target that has terminated is reaped and its value delivered. */
    method Join(t: Tid, due: seq<Tid>) returns (code: int, retval: nat)
      requires Valid() && InGuest(Now())
      modifies this
      ensures Valid() && (Now(), code) == DoJoin(old(Now()), t, due)
      ensures JoinMeans(old(Now()), t, Now(), code) && (code == 0 ==> retval == old(threads)[t].retval)
    {
      OpInv(Now(), Op.Join(t), due);
      JoinMeaning(Now(), t, due);
      retval := 0;
      if t !in threads { return ESRCH, retval; }
      if threads[t].detached { return EINVAL, retval; }
      if threads[t].state.Terminated? {
        retval := threads[t].retval;
        threads := threads - {t};
        return 0, retval;
      }
      WaitForExit(t, due);
      code := SWITCHED;
    }

    method WaitForExit(t: Tid, due: seq<Tid>)
      requires currentThread in threads && t in threads
      modifies this
      ensures var th := old(threads)[old(currentThread)].(joinTarget := t, pc := JOIN_RESUME);
              Now() == Switch(Enqueue(old(Now()), JoinQ(t), th, t), due)
    {
      threads := threads[t := threads[t].(joiners := threads[t].joiners + [currentThread])];
      threads := threads[currentThread := threads[currentThread].(joinTarget := t, pc := JOIN_RESUME)];
      BlockCurrentThread(JoinQ(t), t);
      ghost var th := old(threads)[currentThread].(joinTarget := t, pc := JOIN_RESUME);
      assert threads == Enqueue(old(Now()), JoinQ(t), th, t).threads;
      ContextSwitch(due);
    }

    /** Delivers the value the target exited with, unless another joiner has reaped it. */
    method ResumeJoin(at: Addr) returns (retval: nat)
      requires Valid() && CurrentRuns(Now()) && pc == JOIN_RESUME && !IsResume(at)
      modifies this
      ensures Valid() && Now() == JoinResume(old(Now()), at).0
      ensures var t := old(threads)[old(currentThread)].joinTarget;
              && (t in threads ==> !threads[t].state.Terminated?)
              && retval == if t in old(threads) && old(threads)[t].state.Terminated? then old(threads)[t].retval else 0
      ensures InGuest(Now()) && pc == at && currentThread == old(currentThread) && !Waits(threads[currentThread])
    {
      ResumeInv(Now(), at, []);
      ResumedContext(Now());
      var t := threads[currentThread].joinTarget;
      threads := threads[currentThread := threads[currentThread].(joinTarget := 0)];
      retval := 0;
      if t in threads && threads[t].state.Terminated? {
        retval := threads[t].retval;
        threads := threads - {t};
      }
      pc := at;
    }

    method Detach(t: Tid) returns (code: int)
      requires Valid() && InGuest(Now())
      modifies this
      ensures Valid() && (Now(), code) == DoDetach(old(Now()), t)
      ensures DetachMeans(old(Now()), t, Now(), code)
    {
      OpInv(Now(), Op.Detach(t), []);
      DetachMeaning(Now(), t);
      if t !in threads { return ESRCH; }
      threads := threads[t := threads[t].(detached := true)];
      if threads[t].state.Terminated? {
        threads := threads - {t};
        assert threads == old(threads) - {t};
      }
      code := 0;
    }

    method Exit(v: nat, due: seq<Tid>)
      requires Valid() && InGuest(Now())
      modifies this
      ensures Valid() && Now() == DoExit(old(Now()), v, due).0
      ensures ExitMeans(old(Now()), v, Now())
    {
      OpInv(Now(), Op.Exit(v), due);
      ExitMeaning(Now(), v, due);
      Finish(v, due);
    }

    method Finish(v: nat, due: seq<Tid>)
      requires currentThread in threads
      modifies this
      ensures Now() == DoExit(old(Now()), v, due).0
    {
      threads := threads[currentThread := threads[currentThread].(retval := v, state := Terminated)];
      var toWake := threads[currentThread].joiners;
      threads := threads[currentThread := threads[currentThread].(joiners := [])];
      assert threads == old(threads)[currentThread := old(threads)[currentThread].(state := Terminated, retval := v, joiners := [])];
      UnblockThreads(toWake);
      ContextSwitch(due);
    }

    method SleepCurrentThread(due: seq<Tid>)
      requires Valid() && InGuest(Now())
      modifies this
      ensures Valid() && Now() == DoSleep(old(Now()), due).0
      ensures SleepMeans(old(Now()), due, Now())
    {
      OpInv(Now(), Op.Sleep, due);
      SleepMeaning(Now(), due);
      threads := threads[currentThread := threads[currentThread].(state := Sleeping)];
      ContextSwitch(due);
    }

    // ---------------------------------------------------------------- mutexes

    /** The common part of lock: everything but the invariant, so that a trampoline can use it. */
    method Acquire(m: Addr, kind: int, due: seq<Tid>) returns (code: int)
      requires currentThread in threads
      modifies this
      ensures (Now(), code) == DoMutexLock(old(Now()), m, kind, due)
    {
      if m !in mutexes {
        mutexes := mutexes[m := Mutex(false, 0, 0, kind, [])];
      }
      if mutexes[m].locked && mutexes[m].count > 0 {
        if mutexes[m].owner == currentThread {
          mutexes := mutexes[m := mutexes[m].(count := mutexes[m].count + 1)];
          return 0;
        }
      }
      if !mutexes[m].locked {
        mutexes := mutexes[m := mutexes[m].(locked := true, owner := currentThread, count := 1)];
        return 0;
      }
      WaitForMutex(m, due);
      code := SWITCHED;
    }

    method WaitForMutex(m: Addr, due: seq<Tid>)
      requires currentThread in threads && m in mutexes
      modifies this
      ensures Now() == BlockOnMutex(old(Now()), m, due)
    {
      if currentThread !in mutexes[m].queue {
        mutexes := mutexes[m := mutexes[m].(queue := mutexes[m].queue + [currentThread])];
      }
      threads := threads[currentThread := threads[currentThread].(mutexWait := m, pc := MUTEX_RESUME)];
      BlockCurrentThread(MutexQ(m), m);
      ghost var th := old(threads)[currentThread].(mutexWait := m, pc := MUTEX_RESUME);
      assert threads == EnqueueOnce(old(Now()), MutexQ(m), th, m).threads;
      ContextSwitch(due);
    }

    method Lock(m: Addr, kind: int, due: seq<Tid>) returns (code: int)
      requires Valid() && InGuest(Now()) && m != 0
      modifies this
      ensures Valid() && (Now(), code) == DoMutexLock(old(Now()), m, kind, due)
      ensures LockMeans(old(Now()), m, Now(), code)
    {
      OpInv(Now(), Op.MutexLock(m, kind), due);
      GuestContext(Now());
      LockMeaning(Now(), m, kind, due);
      code := Acquire(m, kind, due);
    }

    method ResumeLock(at: Addr, due: seq<Tid>) returns (code: int)
      requires Valid() && CurrentRuns(Now()) && pc == MUTEX_RESUME && !IsResume(at)
      modifies this
      ensures Valid() && (Now(), code) == MutexResume(old(Now()), at, due)
      ensures ResumeLockMeans(old(Now()), old(threads)[old(currentThread)].mutexWait, at, Now(), code)
    {
      ResumeInv(Now(), at, due);
      ResumeLockMeaning(Now(), at, due);
      var m := threads[currentThread].mutexWait;
      threads := threads[currentThread := threads[currentThread].(mutexWait := 0)];
      if m in mutexes {
        if mutexes[m].locked {
          WaitForMutex(m, due);
          return SWITCHED;
        }
        mutexes := mutexes[m := mutexes[m].(locked := true, owner := currentThread, count := 1)];
      }
      pc := at;
      code := 0;
    }

    method TryLock(m: Addr) returns (code: int)
      requires Valid() && InGuest(Now()) && m != 0
      modifies this
      ensures Valid() && (Now(), code) == DoTryLock(old(Now()), m)
      ensures TryLockMeans(old(Now()), m, Now(), code)
    {
      OpInv(Now(), Op.TryLock(m), []);
      TryLockMeaning(Now(), m);
      if m !in mutexes {
        mutexes := mutexes[m := Mutex(false, 0, 0, 0, [])];
      }
      if mutexes[m].owner == currentThread && mutexes[m].count > 0 {
        if mutexes[m].kind == 1 {
          mutexes := mutexes[m := mutexes[m].(count := mutexes[m].count + 1)];
          return 0;
        }
        return EBUSY;
      }
      if !mutexes[m].locked {
        mutexes := mutexes[m := mutexes[m].(locked := true, owner := currentThread, count := 1)];
        return 0;
      }
      code := EBUSY;
    }

    method Release(m: Addr) returns (code: int)
      modifies this`mutexes, this`threads, this`runnableQueue
      ensures (Now(), code) == DoUnlock(old(Now()), m)
    {
      if m !in mutexes { return EINVAL; }
      if !mutexes[m].locked || mutexes[m].count == 0 { return EPERM; }
      mutexes := mutexes[m := mutexes[m].(count := mutexes[m].count - 1)];
      if mutexes[m].count == 0 {
        mutexes := mutexes[m := mutexes[m].(locked := false, owner := 0)];
        if mutexes[m].queue != [] {
          var t := mutexes[m].queue[0];
          mutexes := mutexes[m := mutexes[m].(queue := mutexes[m].queue[1..])];
          ghost var free := SetMutex(old(Now()), m, old(mutexes)[m].(locked := false, owner := 0, count := 0));
          assert mutexes == SetQueue(free, MutexQ(m), old(mutexes)[m].queue[1..]).mutexes;
          UnblockThread(t);
          return 0;
        }
      }
      assert mutexes == DoUnlock(old(Now()), m).0.mutexes;
      code := 0;
    }

    method Unlock(m: Addr) returns (code: int)
      requires Valid() && InGuest(Now())
      modifies this
      ensures Valid() && (Now(), code) == DoUnlock(old(Now()), m)
      ensures UnlockMeans(old(Now()), m, Now(), code)
    {
      OpInv(Now(), Op.Unlock(m), []);
      assert MutexOk(Now(), m);
      UnlockMeaning(Now(), m);
      code := Release(m);
    }

    // ---------------------------------------------------------------- condition variables

    method QueueOnCond(c: Addr, m: Addr)
      requires currentThread in threads
      modifies this`condvars, this`threads
      ensures var s := FindCond(old(Now()), c);
              Now() == With(s, c, s.conds[c] + [s.current], s.threads[s.current].(condMutex := m, pc := COND_RESUME))
    {
      if c !in condvars {
        condvars := condvars[c := []];
      }
      condvars := condvars[c := condvars[c] + [currentThread]];
      threads := threads[currentThread := threads[currentThread].(condMutex := m, pc := COND_RESUME)];
    }

    /** Queues itself and records its resume address before it releases the mutex. */
    method CondWait(c: Addr, m: Addr, due: seq<Tid>) returns (code: int)
      requires Valid() && InGuest(Now()) && m != 0
      modifies this
      ensures Valid() && (Now(), code) == DoCondWait(old(Now()), c, m, due)
      ensures CondWaitMeans(old(Now()), c, m, Now())
    {
      OpInv(Now(), Op.CondWait(c, m), due);
      CondWaitMeaning(Now(), c, m, due);
      CondWaitOrder(Now(), c, m);
      QueueOnCond(c, m);
      var _ := Release(m);
      BlockCurrentThread(CondQ(c), c);
      ContextSwitch(due);
      code := SWITCHED;
    }

    method ResumeCondWait(at: Addr, due: seq<Tid>) returns (code: int)
      requires Valid() && CurrentRuns(Now()) && pc == COND_RESUME && !IsResume(at)
      modifies this
      ensures Valid() && (Now(), code) == CondResume(old(Now()), at, due)
      ensures ResumeCondMeans(old(Now()), old(threads)[old(currentThread)].condMutex, at, Now(), code)
    {
      ResumeInv(Now(), at, due);
      ResumeCondMeaning(Now(), at, due);
      var m := threads[currentThread].condMutex;
      threads := threads[currentThread := threads[currentThread].(condMutex := 0)];
      code := Acquire(m, 0, due);
      if code == SWITCHED { return; }
      pc := at;
    }

    method Signal(c: Addr) returns (code: int)
      requires Valid() && InGuest(Now())
      modifies this
      ensures Valid() && (Now(), code) == DoSignal(old(Now()), c)
      ensures code == 0 && SignalMeans(old(Now()), c, Now())
    {
      OpInv(Now(), Op.Signal(c), []);
      SignalMeaning(Now(), c);
      WakeWaiter(c);
      code := 0;
    }

    method WakeWaiter(c: Addr)
      modifies this`condvars, this`threads, this`runnableQueue
      ensures Now() == DoSignal(old(Now()), c).0
    {
      if c in condvars && condvars[c] != [] {
        var t := condvars[c][0];
        condvars := condvars[c := condvars[c][1..]];
        UnblockThread(t);
      }
    }

    method Broadcast(c: Addr) returns (code: int)
      requires Valid() && InGuest(Now())
      modifies this
      ensures Valid() && (Now(), code) == DoBroadcast(old(Now()), c)
      ensures code == 0 && Drained(old(Now()), CondQ(c), Now())
    {
      OpInv(Now(), Op.Broadcast(c), []);
      SignalMeaning(Now(), c);
      WakeWaiters(c);
      code := 0;
    }

    method WakeWaiters(c: Addr)
      modifies this`condvars, this`threads, this`runnableQueue
      ensures Now() == DoBroadcast(old(Now()), c).0
    {
      if c in condvars {
        UnblockEachSetQueue(Now(), CondQ(c), condvars[c]);
        UnblockThreads(condvars[c]);
        condvars := condvars[c := []];
      }
    }

    // ---------------------------------------------------------------- read-write locks

    method ReadLock(l: Addr, due: seq<Tid>) returns (code: int)
      requires Valid() && InGuest(Now())
      modifies this
      ensures Valid() && (Now(), code) == DoReadLock(old(Now()), l, due)
      ensures ReadLockMeans(old(Now()), l, Now(), code)
    {
      OpInv(Now(), Op.ReadLock(l), due);
      ReadLockMeaning(Now(), l, due);
      if l !in rwlocks {
        rwlocks := rwlocks[l := RwLock(0, 0, 0, [], [])];
      }
      if rwlocks[l].writer == 0 {
        rwlocks := rwlocks[l := rwlocks[l].(readers := rwlocks[l].readers + 1)];
        return 0;
      }
      WaitToRead(l, due);
      code := SWITCHED;
    }

    method WaitToRead(l: Addr, due: seq<Tid>)
      requires currentThread in threads && l in rwlocks
      modifies this
      ensures var th := old(threads)[old(currentThread)].(readWait := l, pc := RD_RESUME);
              Now() == Switch(EnqueueOnce(old(Now()), ReadQ(l), th, l), due)
    {
      if currentThread !in rwlocks[l].readQueue {
        rwlocks := rwlocks[l := rwlocks[l].(readQueue := rwlocks[l].readQueue + [currentThread])];
      }
      threads := threads[currentThread := threads[currentThread].(readWait := l, pc := RD_RESUME)];
      BlockCurrentThread(ReadQ(l), l);
      assert threads == old(threads)[currentThread := threads[currentThread]];
      ContextSwitch(due);
    }

    method TryReadLock(l: Addr) returns (code: int)
      requires Valid() && InGuest(Now())
      modifies this
      ensures Valid() && (Now(), code) == DoTryReadLock(old(Now()), l)
      ensures TryReadLockMeans(old(Now()), l, Now(), code)
    {
      OpInv(Now(), Op.TryReadLock(l), []);
      TryReadLockMeaning(Now(), l);
      if l !in rwlocks {
        rwlocks := rwlocks[l := RwLock(0, 0, 0, [], [])];
      }
      if rwlocks[l].writer == 0 {
        rwlocks := rwlocks[l := rwlocks[l].(readers := rwlocks[l].readers + 1)];
        return 0;
      }
      code := EBUSY;
    }

    method WriteLock(l: Addr, due: seq<Tid>) returns (code: int)
      requires Valid() && InGuest(Now())
      modifies this
      ensures Valid() && (Now(), code) == DoWriteLock(old(Now()), l, due)
      ensures WriteLockMeans(old(Now()), l, Now(), code)
    {
      OpInv(Now(), Op.WriteLock(l), due);
      WriteLockMeaning(Now(), l, due);
      if l !in rwlocks {
        rwlocks := rwlocks[l := RwLock(0, 0, 0, [], [])];
      }
      if rwlocks[l].writer == currentThread {
        rwlocks := rwlocks[l := rwlocks[l].(depth := rwlocks[l].depth + 1)];
        return 0;
      }
      if rwlocks[l].readers == 0 && rwlocks[l].writer == 0 {
        rwlocks := rwlocks[l := rwlocks[l].(writer := currentThread, depth := 1)];
        return 0;
      }
      WaitToWrite(l, due);
      code := SWITCHED;
    }

    method WaitToWrite(l: Addr, due: seq<Tid>)
      requires currentThread in threads && l in rwlocks
      modifies this
      ensures var th := old(threads)[old(currentThread)].(writeWait := l, pc := WR_RESUME);
              Now() == Switch(EnqueueOnce(old(Now()), WriteQ(l), th, l), due)
    {
      if currentThread !in rwlocks[l].writeQueue {
        rwlocks := rwlocks[l := rwlocks[l].(writeQueue := rwlocks[l].writeQueue + [currentThread])];
      }
      threads := threads[currentThread := threads[currentThread].(writeWait := l, pc := WR_RESUME)];
      BlockCurrentThread(WriteQ(l), l);
      assert threads == old(threads)[currentThread := threads[currentThread]];
      ContextSwitch(due);
    }

    method TryWriteLock(l: Addr) returns (code: int)
      requires Valid() && InGuest(Now())
      modifies this
      ensures Valid() && (Now(), code) == DoTryWriteLock(old(Now()), l)
      ensures TryWriteLockMeans(old(Now()), l, Now(), code)
    {
      OpInv(Now(), Op.TryWriteLock(l), []);
      TryWriteLockMeaning(Now(), l);
      if l !in rwlocks {
        rwlocks := rwlocks[l := RwLock(0, 0, 0, [], [])];
      }
      if rwlocks[l].readers == 0 && rwlocks[l].writer == 0 {
        rwlocks := rwlocks[l := rwlocks[l].(writer := currentThread)];
        return 0;
      }
      code := EBUSY;
    }

    method WakeWriter(l: Addr)
      requires l in rwlocks && rwlocks[l].writeQueue != []
      modifies this`rwlocks, this`threads, this`runnableQueue
      ensures Now() == WakeFirst(old(Now()), WriteQ(l))
    {
      var t := rwlocks[l].writeQueue[0];
      rwlocks := rwlocks[l := rwlocks[l].(writeQueue := rwlocks[l].writeQueue[1..])];
      UnblockThread(t);
    }

    method RwUnlock(l: Addr) returns (code: int)
      requires Valid() && InGuest(Now())
      modifies this
      ensures Valid() && (Now(), code) == DoRwUnlock(old(Now()), l)
      ensures RwUnlockMeans(old(Now()), l, Now(), code)
    {
      OpInv(Now(), Op.RwUnlock(l), []);
      RwUnlockMeaning(Now(), l);
      code := ReleaseRw(l);
    }

    method ReleaseRw(l: Addr) returns (code: int)
      modifies this`rwlocks, this`threads, this`runnableQueue
      ensures (Now(), code) == DoRwUnlock(old(Now()), l)
    {
      if l !in rwlocks { return EINVAL; }
      if rwlocks[l].writer == currentThread {
        if rwlocks[l].depth > 1 {
          rwlocks := rwlocks[l := rwlocks[l].(depth := rwlocks[l].depth - 1)];
          return 0;
        }
        rwlocks := rwlocks[l := rwlocks[l].(writer := 0, depth := 0)];
        if rwlocks[l].writeQueue != [] {
          WakeWriter(l);
        } else {
          UnblockEachSetQueue(Now(), ReadQ(l), rwlocks[l].readQueue);
          UnblockThreads(rwlocks[l].readQueue);
          rwlocks := rwlocks[l := rwlocks[l].(readQueue := [])];
        }
      } else if rwlocks[l].readers > 0 {
        rwlocks := rwlocks[l := rwlocks[l].(readers := rwlocks[l].readers - 1)];
        if rwlocks[l].readers == 0 && rwlocks[l].writeQueue != [] {
          WakeWriter(l);
        }
      }
      code := 0;
    }

    // ---------------------------------------------------------------- barriers

    method BarrierWait(b: Addr, due: seq<Tid>) returns (code: int)
      requires Valid() && InGuest(Now()) && b != 0
      modifies this
      ensures Valid() && (Now(), code) == DoBarrierWait(old(Now()), b, due)
      ensures BarrierWaitMeans(old(Now()), b, Now(), code)
    {
      OpInv(Now(), Op.BarrierWait(b), due);
      BarrierWaitMeaning(Now(), b, due);
      code := Arrive(b, due);
    }

    method Arrive(b: Addr, due: seq<Tid>) returns (code: int)
      requires currentThread in threads
      modifies this
      ensures (Now(), code) == DoBarrierWait(old(Now()), b, due)
    {
      CountArrival(b);
      if barriers[b].waiting >= barriers[b].count {
        SetBarrierTwice(FindBarrier(old(Now()), b), b, barriers[b], barriers[b].(waiting := 0, generation := barriers[b].generation + 1));
        ReleaseBarrier(b);
        return SERIAL_THREAD;
      }
      WaitAtBarrier(b, due);
      code := SWITCHED;
    }

    method CountArrival(b: Addr)
      modifies this`barriers
      ensures var s := FindBarrier(old(Now()), b);
              Now() == SetBarrier(s, b, s.barriers[b].(waiting := s.barriers[b].waiting + 1))
    {
      if b !in barriers {
        barriers := barriers[b := Barrier(1, 0, 0, [])];
      }
      barriers := barriers[b := barriers[b].(waiting := barriers[b].waiting + 1)];
    }

    method ReleaseBarrier(b: Addr)
      requires b in barriers
      modifies this`barriers, this`threads, this`runnableQueue
      ensures var x := old(barriers)[b].(waiting := 0, generation := old(barriers)[b].generation + 1);
              Now() == WakeAll(SetBarrier(old(Now()), b, x), BarrierQ(b))
    {
      barriers := barriers[b := barriers[b].(waiting := 0, generation := barriers[b].generation + 1)];
      UnblockEachSetQueue(Now(), BarrierQ(b), barriers[b].queue);
      UnblockThreads(barriers[b].queue);
      barriers := barriers[b := barriers[b].(queue := [])];
    }

    method WaitAtBarrier(b: Addr, due: seq<Tid>)
      requires b in barriers && currentThread in threads
      modifies this
      ensures var th := old(threads)[old(currentThread)].(barrierWait := b, pc := BARRIER_RESUME);
              Now() == Switch(Enqueue(old(Now()), BarrierQ(b), th, b), due)
    {
      threads := threads[currentThread := threads[currentThread].(barrierWait := b, pc := BARRIER_RESUME)];
      barriers := barriers[b := barriers[b].(queue := barriers[b].queue + [currentThread])];
      BlockCurrentThread(BarrierQ(b), b);
      assert threads == old(threads)[currentThread := threads[currentThread]];
      ContextSwitch(due);
    }

    method ResumeBarrierWait(at: Addr)
      requires Valid() && CurrentRuns(Now()) && pc == BARRIER_RESUME && !IsResume(at)
      modifies this
      ensures Valid() && Now() == BarrierResume(old(Now()), at).0
      ensures ResumeBarrierMeans(old(Now()), at, Now())
    {
      ResumeInv(Now(), at, []);
      ResumeBarrierMeaning(Now(), at);
      threads := threads[currentThread := threads[currentThread].(barrierWait := 0)];
      pc := at;
    }
  }

  // ------------------------------------------------------------------ order of effects

  lemma SetBarrierTwice(s: State, b: Addr, x: Barrier, y: Barrier)
    ensures SetBarrier(SetBarrier(s, b, x), b, y) == SetBarrier(s, b, y)
  {
    assert s.barriers[b := x][b := y] == s.barriers[b := y];
  }

  /** Clearing a queue after unblocking its threads is clearing it before. */
  lemma {:induction false} UnblockEachSetQueue(s: State, q: QueueId, ts: seq<Tid>)
    requires HasQueue(s, q)
    ensures HasQueue(UnblockEach(s, ts), q)
    ensures SetQueue(UnblockEach(s, ts), q, []) == UnblockEach(SetQueue(s, q, []), ts)
    ensures Queue(UnblockEach(s, ts), q) == Queue(s, q)
    decreases |ts|
  {
    if ts != [] {
      UnblockSetQueue(s, q, ts[0]);
      UnblockEachSetQueue(Unblock(s, ts[0]), q, ts[1..]);
    }
  }

  /** s with v queued on c and th as the current thread's context. */
  function With(s: State, c: Addr, v: seq<Tid>, th: Thread): State {
    s.(conds := s.conds[c := v], threads := s.threads[s.current := th])
  }

  lemma UnblockCommutes(s: State, c: Addr, v: seq<Tid>, th: Thread, t: Tid)
    requires t != s.current
    ensures Unblock(With(s, c, v, th), t) == With(Unblock(s, t), c, v, th)
  {
    assert Unblock(With(s, c, v, th), t).threads == Unblock(s, t).threads[s.current := th];
  }

  /** A waiter may queue itself on a condition variable before or after it unlocks. */
  lemma UnlockCommutes(s: State, c: Addr, v: seq<Tid>, th: Thread, m: Addr)
    requires s.current !in Queue(s, MutexQ(m))
    ensures DoUnlock(With(s, c, v, th), m) == (With(DoUnlock(s, m).0, c, v, th), DoUnlock(s, m).1)
  {
    if m in s.mutexes && s.mutexes[m].queue != [] {
      var x := s.mutexes[m].(locked := false, owner := 0, count := 0);
      UnblockCommutes(SetQueue(SetMutex(s, m, x), MutexQ(m), x.queue[1..]), c, v, th, x.queue[0]);
    }
  }

  /** So the handler's order gives the state the specification describes. */
  lemma CondWaitOrder(s0: State, c: Addr, m: Addr)
    requires Core(s0) && InGuest(s0)
    ensures var s := FindCond(s0, c);
            var th := s.threads[s.current].(condMutex := m, pc := COND_RESUME);
            var s1, s2 := DoUnlock(s, m).0, DoUnlock(With(s, c, s.conds[c] + [s.current], th), m).0;
            && s1.current == s.current && CurrentRuns(s1) && c in s1.conds && s1.threads[s.current] == s.threads[s.current]
            && s2.current == s.current && s.current in s2.threads
            && SetThread(s2, s.current, s2.threads[s.current].(state := Blocked, blockedOn := c, home := In(CondQ(c))))
               == Enqueue(s1, CondQ(c), s1.threads[s.current].(condMutex := m, pc := COND_RESUME), c)
  {
    var s := FindCond(s0, c);
    var th := s.threads[s.current].(condMutex := m, pc := COND_RESUME);
    FindCondSteps(s0, c);
    CurrentInNoQueue(s, MutexQ(m));
    UnlockFrame(s, m);
    UnlockKeepsCurrent(s, m);
    UnlockCommutes(s, c, s.conds[c] + [s.current], th, m);
    var s1 := DoUnlock(s, m).0;
    var b := th.(state := Blocked, blockedOn := c, home := In(CondQ(c)));
    assert s1.threads[s.current := th][s.current := b] == s1.threads[s.current := b];
    assert s1.conds == s.conds;
  }

  lemma UnlockKeepsCurrent(s: State, m: Addr)
    requires s.current in s.threads && s.current !in Queue(s, MutexQ(m))
    ensures s.current in DoUnlock(s, m).0.threads && DoUnlock(s, m).0.threads[s.current] == s.threads[s.current]
  {
  }

  /** A thread at the join trampoline has no other wait pending. */
  lemma ResumedContext(s: State)
    requires Core(s) && CurrentRuns(s) && s.pc == JOIN_RESUME
    ensures !Waits(s.threads[s.current].(joinTarget := 0)) && s.threads[s.current].joinTarget != 0
  {
    assert ThreadOk(s, s.current);
  }
}
