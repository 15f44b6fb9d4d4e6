/**
 Routing over whole runs: before the pool is up every call goes to the main thread's mailbox, after
 that to a worker's, and threads are dealt out to the workers in turn.
 */
module MailboxRouting {
  import opened Bits
  import opened Mailbox
  import opened MailboxProofs
  import opened MailboxTheorems

  /** The pool can come up whenever the main thread runs a request, and then every worker looks for work. */
  lemma PoolComesUp(s: State)
    requires Core(s) && Shape(s) && WorkerAt(s, 0, Running) && !s.spawned
    ensures Guard(s, Work(0, Spawn))
    ensures var s' := Do(s, Work(0, Spawn));
            s'.spawned && s'.workers[0] == s.workers[0] && forall w :: 0 < w < |s'.workers| ==> s'.workers[w].pc == Top
  {
    forall w: nat | 0 < w < |s.workers| ensures s.workers[w].pc == Offline { assert WorkerOk(s, w); }
  }

  predicate Begins(e: Event) { e.Call? && e.c.Begin? }

  /** The call is the first of its thread that finds the pool up. */
  predicate Assigns(s: State, e: Event) {
    Begins(e) && e.t in s.callers && s.spawned && |s.boxes| > 1 && s.callers[e.t].affinity < 1
  }

  /** Every call of every run: the mailbox is the main thread's as long as the pool is not up, and one of
      the pool's from then on. */
  lemma PoolIsUsed(n: nat, tr: seq<State>, es: seq<Event>, i: nat)
    requires IsRun(n, tr, es) && i < |es| && Begins(es[i])
    ensures es[i].t in tr[i + 1].callers
    ensures var box := tr[i + 1].callers[es[i].t].box;
            if tr[i].spawned && n > 0 then 1 <= box <= n else box == 0
  {
    BoxCount(n, tr, es, i);
    RunInv(n, tr, es, i);
    assert Moved(tr, es, i);
  }

  /** How many threads were assigned a worker in the first k events. */
  ghost function Assigned(tr: seq<State>, es: seq<Event>, k: nat): nat
    requires |tr| == |es| + 1 && k <= |es|
  { if k == 0 then 0 else Assigned(tr, es, k - 1) + if Assigns(tr[k - 1], es[k - 1]) then 1 else 0 }

  lemma CursorStep(n: nat, tr: seq<State>, es: seq<Event>, i: nat)
    requires IsRun(n, tr, es) && i < |es|
    ensures tr[i + 1].cursor == tr[i].cursor + if Assigns(tr[i], es[i]) then 1 else 0
  {
    RunInv(n, tr, es, i);
    assert Moved(tr, es, i);
  }

  lemma {:induction false} CursorCounts(n: nat, tr: seq<State>, es: seq<Event>, i: nat)
    requires IsRun(n, tr, es) && i <= |es|
    ensures tr[i].cursor == tr[0].cursor + Assigned(tr, es, i)
  {
    if i > 0 {
      CursorCounts(n, tr, es, i - 1);
      CursorStep(n, tr, es, i - 1);
    }
  }

  /** The worker whose turn it is when k came before: 1, 2, ..., n, and again from 1. */
  function Turn(k: nat, n: nat): (w: nat)
    requires n > 0
    ensures 1 <= w <= n
  { if k < n then 1 + k else Turn(k - n, n) }

  lemma {:induction false} TurnIsRemainder(k: nat, n: nat)
    requires n > 0
    ensures Turn(k, n) == 1 + k % n
  {
    if k < n {
      ModUnique(k, n, 0, k);
    } else {
      TurnIsRemainder(k - n, n);
      var q, r := (k - n) / n, (k - n) % n;
      assert k == (q + 1) * n + r;
      ModUnique(k, n, q + 1, r);
    }
  }

  /** Thread t has worker w for good, and its call goes there. */
  predicate Gets(s: State, t: Tid, w: nat) { t in s.callers && s.callers[t].box == s.callers[t].affinity == w }

  lemma TakesTurn(s: State, e: Event, s': State, n: nat)
    requires Shape(s) && Next(s, e, s') && Assigns(s, e) && |s.boxes| == n + 1
    ensures n > 0 && Gets(s', e.t, Turn(s.cursor, n))
  {
    TurnIsRemainder(s.cursor, n);
  }

  /** The k-th thread to be assigned gets worker 1 + k mod n, counted from the initial cursor, and uses it
      at once. */
  lemma RoundRobin(n: nat, tr: seq<State>, es: seq<Event>, i: nat)
    requires IsRun(n, tr, es) && i < |es| && Assigns(tr[i], es[i])
    ensures n > 0 && Gets(tr[i + 1], es[i].t, Turn(tr[0].cursor + Assigned(tr, es, i), n))
  {
    CursorCounts(n, tr, es, i);
    AssignedShape(n, tr, es, i);
    TakesTurn(tr[i], es[i], tr[i + 1], n);
  }

  lemma AssignedShape(n: nat, tr: seq<State>, es: seq<Event>, i: nat)
    requires IsRun(n, tr, es) && i < |es|
    ensures Shape(tr[i]) && |tr[i].boxes| == n + 1 && Next(tr[i], es[i], tr[i + 1])
  {
    BoxCount(n, tr, es, i);
    RunInv(n, tr, es, i);
    assert Moved(tr, es, i);
  }

  lemma {:induction false} AssignedGrows(tr: seq<State>, es: seq<Event>, i: nat, j: nat)
    requires |tr| == |es| + 1 && i < j <= |es| && Assigns(tr[i], es[i])
    ensures Assigned(tr, es, i) < Assigned(tr, es, j)
  {
    if i + 1 < j { AssignedGrows(tr, es, i, j - 1); }
  }

  /** Any n assignments in a row go to n different workers. */
  lemma InTurn(n: nat, tr: seq<State>, es: seq<Event>, i: nat, j: nat) returns (w: nat, w': nat)
    requires IsRun(n, tr, es) && i < j < |es| && Assigns(tr[i], es[i]) && Assigns(tr[j], es[j])
    requires Assigned(tr, es, j) - Assigned(tr, es, i) < n
    ensures Gets(tr[i + 1], es[i].t, w) && Gets(tr[j + 1], es[j].t, w') && w != w'
  {
    RoundRobin(n, tr, es, i);
    RoundRobin(n, tr, es, j);
    AssignedGrows(tr, es, i, j);
    var k, k' := tr[0].cursor + Assigned(tr, es, i), tr[0].cursor + Assigned(tr, es, j);
    CloseDiffer(k, k', n);
    w, w' := Turn(k, n), Turn(k', n);
  }

  lemma {:induction false} CloseDiffer(x: nat, y: nat, n: nat)
    requires x < y < x + n
    ensures Turn(x, n) != Turn(y, n)
    decreases y
  {
    if x >= n { CloseDiffer(x - n, y - n, n); }
  }

  /** No thread is assigned twice: its later calls go to the worker of the first. */
  lemma AssignedOnce(n: nat, tr: seq<State>, es: seq<Event>, i: nat, j: nat) returns (w: nat)
    requires IsRun(n, tr, es) && i < j < |es| && Assigns(tr[i], es[i]) && Begins(es[j]) && es[j].t == es[i].t
    ensures !Assigns(tr[j], es[j]) && Gets(tr[i + 1], es[i].t, w) && Gets(tr[j + 1], es[i].t, w)
  {
    RoundRobin(n, tr, es, i);
    w := Turn(tr[0].cursor + Assigned(tr, es, i), n);
    AffinityKept(n, tr, es, i + 1, j, es[i].t);
    AssignedShape(n, tr, es, j);
    AssignedShape(n, tr, es, i);
    PoolStaysUp(n, tr, es, i, j);
  }

  lemma {:induction false} AffinityKept(n: nat, tr: seq<State>, es: seq<Event>, i: nat, j: nat, t: Tid)
    requires IsRun(n, tr, es) && i <= j < |tr| && t in tr[i].callers && tr[i].callers[t].affinity >= 1
    ensures t in tr[j].callers && tr[j].callers[t].affinity == tr[i].callers[t].affinity
  {
    if i < j {
      AffinityKept(n, tr, es, i, j - 1, t);
      AffinityStep(n, tr, es, j - 1, t);
    }
  }

  lemma AffinityStep(n: nat, tr: seq<State>, es: seq<Event>, i: nat, t: Tid)
    requires IsRun(n, tr, es) && i < |es| && t in tr[i].callers && tr[i].callers[t].affinity >= 1
    ensures SameAffinity(tr[i], tr[i + 1], t)
  {
    AssignedShape(n, tr, es, i);
    match es[i]
    case Call(u, c) => CallKeepsAffinity(tr[i], u, c, t);
    case Work(w, k) => WorkKeepsAffinity(tr[i], w, k, t);
    case Halt(h) =>
  }

  predicate SameAffinity(s: State, s': State, t: Tid)
    requires t in s.callers
  { t in s'.callers && s'.callers[t].affinity == s.callers[t].affinity }

  lemma CallKeepsAffinity(s: State, u: Tid, c: CallerAct, t: Tid)
    requires Shape(s) && CallerGuard(s, u, c) && t in s.callers && s.callers[t].affinity >= 1
    ensures SameAffinity(s, CallerDo(s, u, c), t)
  {
  }

  lemma WorkKeepsAffinity(s: State, w: nat, k: WorkerAct, t: Tid)
    requires Shape(s) && WorkerGuard(s, w, k) && t in s.callers
    ensures SameAffinity(s, WorkerDo(s, w, k), t)
  {
  }

  lemma {:induction false} PoolStaysUp(n: nat, tr: seq<State>, es: seq<Event>, i: nat, j: nat)
    requires IsRun(n, tr, es) && i <= j < |tr| && tr[i].spawned
    ensures tr[j].spawned && |tr[j].boxes| == |tr[i].boxes|
  {
    if i < j {
      PoolStaysUp(n, tr, es, i, j - 1);
      assert Moved(tr, es, j - 1);
    }
  }
}
