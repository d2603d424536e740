/** What holds in every run of a thread pool, and how closing and joining one ends. */
module PoolSafety {
  import opened Tasks
  import opened Machine
  import opened RoundRobin
  import opened Invariant
  import opened Growth
  import opened Alone
  import opened Safety
  import opened Drain
  import opened Pool

  // ----- one pipeline of the pool -----

  /** The label is an operation of client t. */
  predicate By(l: Label, t: nat) {
    match l
    case Begin(u, _) => u == t
    case BeginJoin(u) => u == t
    case Step(u) => u == t
    case Expire(_) => false
    case StartFails => false
  }

  /** What every step of a pipeline of the pool keeps. */
  ghost predicate Onward(a: State, b: State) {
    && Reachable(b) && b.started && |b.calls| == |a.calls|
    && (a.closing ==> b.closing)
    && (a.worker.Exited? ==> b.worker.Exited?)
  }

  lemma StartedStays(s: State, l: Label)
    requires s.started && s.calls != []
    ensures Next(s, l).started
  {
    hide ExecStep, CallEffect, Perform, Entry;
    match l {
      case Begin(_, _) => case BeginJoin(_) => case Expire(_) => case StartFails =>
      case Step(t) =>
        if t == 0 && s.calls[0].Idle? {
          WorkerStarted(s);
        } else if t < |s.calls| && !Blocked(s, t) {
          PerformStarted(s, t, CallEffect(s, t));
        }
    }
    hide WorkerStep, Blocked;
  }

  lemma PerformStarted(s: State, t: nat, e: Effect)
    requires t < |s.calls|
    ensures Perform(s, t, e).started == s.started
  {
  }

  lemma WorkerStarted(s: State)
    requires s.started && s.calls != []
    ensures WorkerStep(s).started
  {
    hide Ticked, Unwind, Entry, ExecEffect;
    match s.worker {
      case Loop =>
        if s.stack.Frames? {
          match ExecEffect(s.stack.top, s.closing, |s.book.jobs|) {
            case Stay(_, _, _, _, _) => case Call(_) => case Over(_, _) => case Still =>
          }
        }
      case Spawned => case Locked => case Shut => case Stopping => case Leaving =>
      case Exited => case Failed => case Escaped =>
    }
  }

  lemma NextOnward(a: State, l: Label)
    requires Reachable(a) && a.started && a.calls != []
    ensures Onward(a, Next(a, l))
  {
    ReachableInv(a);
    ReachableLater(a, [l]);
    Then(a, [], l);
    assert [] + [l] == [l];
    StartedStays(a, l);
    StepGrows(a, l);
    if a.worker.Exited? {
      ExitedStep(a, l);
    }
    hide Next, Reachable, Ledger, Jobs, Accounts, Order, Closing, Nesting, Waits, Owned, StackOk;
  }

  lemma OthersStay(s: State, l: Label, t: nat)
    requires 0 < t < |s.calls| && !By(l, t)
    ensures |Next(s, l).calls| == |s.calls| && Next(s, l).calls[t] == s.calls[t]
  {
    StepGrows(s, l);
    match l {
      case Begin(_, _) => case BeginJoin(_) => case Expire(_) => case StartFails =>
      case Step(u) =>
        if u == 0 && s.calls[0].Idle? {
          WorkerLeavesCalls(s, t);
        }
    }
    hide WorkerStep, CallEffect, Entry, Blocked;
  }

  lemma ExecLeavesCalls(s: State, t: nat)
    requires 0 < t < |s.calls| && s.stack.Frames?
    ensures |ExecStep(s).calls| == |s.calls| && ExecStep(s).calls[t] == s.calls[t]
  {
    hide Ticked, Unwind, Entry, ExecEffect;
    match ExecEffect(s.stack.top, s.closing, |s.book.jobs|) {
      case Stay(_, _, _, _, _) => case Call(_) => case Over(_, _) => case Still =>
    }
  }

  lemma WorkerLeavesCalls(s: State, t: nat)
    requires 0 < t < |s.calls|
    ensures |WorkerStep(s).calls| == |s.calls| && WorkerStep(s).calls[t] == s.calls[t]
  {
    if s.stack.Frames? {
      ExecLeavesCalls(s, t);
    }
    hide ExecStep;
    match s.worker {
      case Loop => case Spawned => case Locked => case Shut => case Stopping => case Leaving =>
      case Exited => case Failed => case Escaped =>
    }
  }

  /** Client t is inside Close, or that Close has returned. */
  predicate InClose(p: State, t: nat) {
    t < |p.calls| && (p.calls[t].CloseCheck? || p.calls[t].ClosePost? || p.calls[t].CloseStore?
                      || (p.calls[t].Idle? && p.closing))
  }

  /** Client t is inside WaitUntilClosed, or that has returned. */
  predicate InJoin(p: State, t: nat) {
    t < |p.calls| && (p.calls[t].Join? || (p.calls[t].Idle? && p.worker.Exited?))
  }

  // ----- the pool -----

  predicate AllClosing(s: Pool, n: nat) {
    forall p | 0 <= p < n && p < |s.pipes| :: s.pipes[p].closing
  }

  predicate AllExited(s: Pool, n: nat) {
    forall p | 0 <= p < n && p < |s.pipes| :: s.pipes[p].worker.Exited?
  }

  /** The pipeline that client t is in by way of the pool. */
  predicate InPipe(c: PoolCall, p: nat) {
    c == PostIn(p) || c == CloseIn(p) || c == JoinIn(p)
  }

  /** A client is in at most one method at a time. */
  predicate OnePlace(s: Pool, t: nat)
    requires t < |s.threads|
  {
    !s.threads[t].Away? ==>
      0 < t && forall p: nat | p < |s.pipes| && !InPipe(s.threads[t], p) ::
        t < |s.pipes[p].calls| && s.pipes[p].calls[t].Idle?
  }

  predicate ThreadOk(s: Pool, t: nat)
    requires t < |s.threads|
  {
    match s.threads[t]
    case CloseAt(i) => AllClosing(s, i)
    case CloseIn(i) => i < |s.pipes| && AllClosing(s, i) && InClose(s.pipes[i], t)
    case CloseStored => AllClosing(s, |s.pipes|)
    case JoinAt(i) => AllExited(s, i)
    case JoinIn(i) => i < |s.pipes| && AllExited(s, i) && InJoin(s.pipes[i], t)
    case JoinStored => AllExited(s, |s.pipes|)
    case JoinUnlock => s.finished
    case _ => true
  }

  predicate Holding(c: PoolCall) {
    c.JoinTest? || c.JoinAt? || c.JoinIn? || c.JoinStored? || c.JoinUnlock?
  }

  ghost predicate PipesOk(s: Pool) {
    forall p | 0 <= p < |s.pipes| ::
      Reachable(s.pipes[p]) && s.pipes[p].started && |s.pipes[p].calls| == |s.threads|
  }

  ghost predicate PoolInv(s: Pool) {
    && s.threads != [] && s.threads[0].Away?
    && PipesOk(s)
    && (forall t | 0 <= t < |s.threads| :: OnePlace(s, t) && ThreadOk(s, t))
    && (forall t: nat | t < |s.threads| :: Holding(s.threads[t]) <==> s.holder == Just(t))
    && (s.closed ==> AllClosing(s, |s.pipes|))
    && (s.finished ==> AllExited(s, |s.pipes|))
  }

  lemma ThreadAt(s: Pool, t: nat)
    requires PoolInv(s) && t < |s.threads|
    ensures OnePlace(s, t) && ThreadOk(s, t)
  {
  }

  /** A step inside a pipeline; client t may be the one that takes it. */
  lemma InnerKeeps(s: Pool, p: nat, l: Label)
    requires PoolInv(s) && p < |s.pipes| && Allowed(s, l)
    ensures PoolInv(SetPipe(s, p, l))
  {
    var s' := SetPipe(s, p, l);
    assert Reachable(s.pipes[p]) && s.pipes[p].started;
    NextOnward(s.pipes[p], l);
    forall t | 0 <= t < |s.threads|
      ensures OnePlace(s', t) && ThreadOk(s', t)
    {
      ThreadAt(s, t);
      InnerPlace(s, p, l, t);
      InnerThread(s, p, l, t);
    }
    hide Next, Reachable, ThreadOk, OnePlace;
  }

  lemma InnerPlace(s: Pool, p: nat, l: Label, t: nat)
    requires p < |s.pipes| && t < |s.threads| && |s.pipes[p].calls| == |s.threads|
    requires OnePlace(s, t) && (By(l, t) && !l.Step? ==> s.threads[t].Away?)
    ensures OnePlace(SetPipe(s, p, l), t)
    ensures !s.threads[t].Away? ==> 0 < t && (By(l, t) ==> l == Step(t))
  {
    var q := s.pipes[p];
    if !s.threads[t].Away? && !InPipe(s.threads[t], p) {
      assert q.calls[t].Idle?;
      if By(l, t) {
        IdleStays(q, t);
      } else {
        OthersStay(q, l, t);
      }
    }
    hide Next;
  }

  lemma InnerThread(s: Pool, p: nat, l: Label, t: nat)
    requires p < |s.pipes| && t < |s.threads| && Onward(s.pipes[p], Next(s.pipes[p], l))
    requires Reachable(s.pipes[p]) && s.pipes[p].started
    requires !s.threads[t].Away? ==> 0 < t && (By(l, t) ==> l == Step(t))
    requires ThreadOk(s, t)
    ensures ThreadOk(SetPipe(s, p, l), t)
  {
    hide Next, Reachable, InClose, InJoin, By;
    if s.threads[t] == CloseIn(p) {
      InsideClose(s.pipes[p], t, l);
    } else if s.threads[t] == JoinIn(p) {
      InsideJoin(s.pipes[p], t, l);
    }
  }

  lemma InsideClose(q: State, t: nat, l: Label)
    requires 0 < t && InClose(q, t) && (By(l, t) ==> l == Step(t))
    ensures InClose(Next(q, l), t)
  {
    StepGrows(q, l);
    if l == Step(t) {
      CloseSteps(q, t);
    } else {
      OthersStay(q, l, t);
    }
    hide Next;
  }

  lemma InsideJoin(q: State, t: nat, l: Label)
    requires 0 < t && Reachable(q) && q.started && InJoin(q, t) && (By(l, t) ==> l == Step(t))
    ensures InJoin(Next(q, l), t)
  {
    NextOnward(q, l);
    if l == Step(t) {
      if q.calls[t].Join? {
        JoinReturnsAfterExit(q, t);
      } else {
        IdleStays(q, t);
      }
    } else {
      OthersStay(q, l, t);
    }
    hide Next, Reachable;
  }

  /** Client t moves on without touching a pipeline. */
  lemma MoveKeeps(s: Pool, s': Pool, t: nat)
    requires PoolInv(s) && 0 < t < |s.threads| && |s'.threads| == |s.threads|
    requires s' == s.(threads := s.threads[t := s'.threads[t]], closed := s'.closed,
                      finished := s'.finished, holder := s'.holder)
    requires OnePlace(s', t) && ThreadOk(s', t)
    requires Holding(s'.threads[t]) <==> s'.holder == Just(t)
    requires forall u: nat | u != t :: s'.holder == Just(u) <==> s.holder == Just(u)
    requires s'.closed ==> AllClosing(s, |s.pipes|)
    requires s'.finished ==> AllExited(s, |s.pipes|)
    requires s.finished ==> s'.finished
    ensures PoolInv(s')
  {
    forall u | 0 <= u < |s.threads|
      ensures OnePlace(s', u) && ThreadOk(s', u)
    {
      ThreadAt(s, u);
    }
    hide Reachable, InClose, InJoin, Holding;
  }

  /** Client t enters a method of pipeline p by way of the pool. */
  lemma EnterPipeKeeps(s: Pool, p: nat, t: nat, l: Label, c: PoolCall)
    requires PoolInv(s) && p < |s.pipes| && 0 < t < |s.threads| && By(l, t) && !l.Step?
    requires forall q: nat | q < |s.pipes| :: s.pipes[q].calls[t].Idle?
    requires InPipe(c, p) && (Holding(c) <==> Holding(s.threads[t]))
    requires c == CloseIn(p) ==> AllClosing(s, p) && l == Begin(t, Close)
    requires c == JoinIn(p) ==> AllExited(s, p) && l == BeginJoin(t)
    ensures PoolInv(SetThread(SetPipe(s, p, l), t, c))
  {
    var s1 := SetPipe(s, p, l);
    var s' := SetThread(s1, t, c);
    NextOnward(s.pipes[p], l);
    EntersMethod(s.pipes[p], t);
    forall u | 0 <= u < |s.threads| && u != t
      ensures OnePlace(s', u) && ThreadOk(s', u)
    {
      ThreadAt(s, u);
      assert !By(l, u);
      InnerPlace(s, p, l, u);
      InnerThread(s, p, l, u);
      assert OnePlace(s1, u) && ThreadOk(s1, u);
    }
    assert OnePlace(s', t) && ThreadOk(s', t);
    hide Next, Reachable, InClose, InJoin, ThreadOk, OnePlace;
  }

  lemma EntersMethod(q: State, t: nat)
    requires q.started && 0 < t < |q.calls| && q.calls[t].Idle?
    ensures InClose(Next(q, Begin(t, Close)), t) && InJoin(Next(q, BeginJoin(t)), t)
  {
  }

  lemma ReturnedAt(s: Pool, p: nat, t: nat)
    requires PoolInv(s) && p < |s.pipes| && 0 < t < |s.threads|
    ensures t < |s.pipes[p].calls| && (Returned(s, p, t) <==> s.pipes[p].calls[t].Idle?)
  {
    assert |s.pipes[p].calls| == |s.threads|;
  }

  lemma GoReturns(s: Pool, t: nat, p: nat)
    requires PoolInv(s) && t < |s.threads| && InPipe(s.threads[t], p) && Returned(s, p, t)
    ensures PoolInv(GoStep(s, t))
  {
    ThreadAt(s, t);
    var s' := GoStep(s, t);
    assert Holding(s.threads[t]) <==> s.holder == Just(t);
    assert (s.closed ==> AllClosing(s, |s.pipes|)) && (s.finished ==> AllExited(s, |s.pipes|));
    hide PoolInv, Next, AllClosing, AllExited;
    ReturnIsOk(s, t, p);
    hide OnePlace, ThreadOk, Returned, GoStep, Holding;
    MoveKeeps(s, s', t);
  }

  lemma ReturnIsOk(s: Pool, t: nat, p: nat)
    requires t < |s.threads| && InPipe(s.threads[t], p) && Returned(s, p, t)
    requires OnePlace(s, t) && ThreadOk(s, t)
    ensures var s' := GoStep(s, t);
      && 0 < t && s' == SetThread(s, t, s'.threads[t]) && OnePlace(s', t) && ThreadOk(s', t)
      && (Holding(s'.threads[t]) <==> Holding(s.threads[t]))
  {
    hide Next;
  }

  lemma GoInside(s: Pool, t: nat, p: nat)
    requires PoolInv(s) && t < |s.threads| && InPipe(s.threads[t], p) && p < |s.pipes|
    ensures PoolInv(GoStep(s, t))
  {
    ThreadAt(s, t);
    hide PoolInv, Next, OnePlace, ThreadOk;
    if Returned(s, p, t) {
      GoReturns(s, t, p);
    } else {
      InnerKeeps(s, p, Step(t));
    }
  }

  lemma GoEnters(s: Pool, t: nat, p: nat)
    requires PoolInv(s) && t < |s.threads| && p < |s.pipes|
    requires s.threads[t] == CloseAt(p) || s.threads[t] == JoinAt(p)
    ensures PoolInv(GoStep(s, t))
  {
    ThreadAt(s, t);
    forall q: nat | q < |s.pipes|
      ensures s.pipes[q].calls[t].Idle?
    {
      ReturnedAt(s, q, t);
      assert !InPipe(s.threads[t], q);
    }
    if s.threads[t].CloseAt? {
      EnterPipeKeeps(s, p, t, Begin(t, Close), CloseIn(p));
    } else {
      EnterPipeKeeps(s, p, t, BeginJoin(t), JoinIn(p));
    }
    hide PoolInv, Next;
  }

  lemma GoMoves(s: Pool, t: nat)
    requires PoolInv(s) && t < |s.threads| && !s.threads[t].Away?
    requires !s.threads[t].PostIn? && !s.threads[t].CloseIn? && !s.threads[t].JoinIn?
    requires s.threads[t].CloseAt? || s.threads[t].JoinAt? ==> s.threads[t].i >= |s.pipes|
    ensures PoolInv(GoStep(s, t))
  {
    ThreadAt(s, t);
    assert Holding(s.threads[t]) <==> s.holder == Just(t);
    MoveKeeps(s, GoStep(s, t), t);
    hide PoolInv, Next;
  }

  lemma GoKeeps(s: Pool, t: nat)
    requires PoolInv(s) && t < |s.threads|
    ensures PoolInv(GoStep(s, t))
  {
    ThreadAt(s, t);
    hide PoolInv, PipesOk, ThreadOk, Next;
    match s.threads[t]
    case PostIn(i) => if i < |s.pipes| { GoInside(s, t, i); }
    case CloseIn(i) => if i < |s.pipes| { GoInside(s, t, i); }
    case JoinIn(i) => if i < |s.pipes| { GoInside(s, t, i); }
    case CloseAt(i) => if i < |s.pipes| { GoEnters(s, t, i); } else { GoMoves(s, t); }
    case JoinAt(i) => if i < |s.pipes| { GoEnters(s, t, i); } else { GoMoves(s, t); }
    case Away =>
    case CloseTest => GoMoves(s, t);
    case CloseStored => GoMoves(s, t);
    case JoinLock => GoMoves(s, t);
    case JoinTest => GoMoves(s, t);
    case JoinStored => GoMoves(s, t);
    case JoinUnlock => GoMoves(s, t);
  }

  lemma CallKeeps(s: Pool, t: nat, c: PoolCall)
    requires PoolInv(s) && Nowhere(s, t) && (c.CloseTest? || c.JoinLock?)
    ensures PoolInv(SetThread(s, t, c))
  {
    forall p: nat | p < |s.pipes|
      ensures t < |s.pipes[p].calls| && s.pipes[p].calls[t].Idle?
    {
      ReturnedAt(s, p, t);
    }
    assert Holding(s.threads[t]) <==> s.holder == Just(t);
    MoveKeeps(s, SetThread(s, t, c), t);
    hide PoolInv;
  }

  lemma PostKeeps(s: Pool, t: nat, task: Task)
    requires PoolInv(s) && Nowhere(s, t) && s.pipes != []
    ensures PoolInv(PoolNext(s, CallPost(t, task)))
  {
    forall p: nat | p < |s.pipes|
      ensures s.pipes[p].calls[t].Idle?
    {
      ReturnedAt(s, p, t);
    }
    var i := Pick(s.next, |s.pipes|);
    EnterPipeKeeps(s, i, t, Begin(t, Post(task)), PostIn(i));
    CounterFree(SetThread(SetPipe(s, i, Begin(t, Post(task))), t, PostIn(i)), Bump(s.next));
    hide PoolInv, Next;
  }

  lemma CounterFree(s: Pool, next: nat)
    requires PoolInv(s)
    ensures PoolInv(s.(next := next))
  {
    var s' := s.(next := next);
    forall u | 0 <= u < |s.threads|
      ensures OnePlace(s', u) && ThreadOk(s', u)
    {
      ThreadAt(s, u);
    }
    hide Reachable, InClose, InJoin, Holding;
  }

  lemma PoolStepKeeps(s: Pool, l: PoolLabel)
    requires PoolInv(s)
    ensures PoolInv(PoolNext(s, l))
  {
    hide PoolInv, Next, Nowhere;
    match l
    case Inner(p, l') => if p < |s.pipes| && Allowed(s, l') { InnerKeeps(s, p, l'); }
    case CallPost(t, task) => if Nowhere(s, t) && s.pipes != [] { PostKeeps(s, t, task); }
    case CallClose(t) => if Nowhere(s, t) { CallKeeps(s, t, CloseTest); }
    case CallJoinAll(t) => if Nowhere(s, t) { CallKeeps(s, t, JoinLock); }
    case Go(t) => if t < |s.threads| { GoKeeps(s, t); }
  }

  lemma {:induction false} PoolRunKeeps(s: Pool, ls: seq<PoolLabel>)
    requires PoolInv(s)
    ensures PoolInv(PoolExec(s, ls))
  {
    hide PoolInv, PoolNext;
    if ls != [] {
      PoolRunKeeps(s, ls[..|ls| - 1]);
      PoolStepKeeps(PoolExec(s, ls[..|ls| - 1]), ls[|ls| - 1]);
    }
  }

  lemma FreshReachable(capacity: nat, clients: nat)
    ensures Exec(Init(capacity, clients), [Step(0), Step(0)]) == Fresh(capacity, clients)
    ensures Reachable(Fresh(capacity, clients))
  {
    var s := Init(capacity, clients);
    Then(s, [], Step(0));
    Then(s, [Step(0)], Step(0));
    assert [] + [Step(0)] == [Step(0)] && [Step(0)] + [Step(0)] == [Step(0), Step(0)];
  }

  lemma NewPoolInv(size: nat, capacity: nat, clients: nat)
    ensures PoolInv(NewPool(size, capacity, clients))
    ensures var s := NewPool(size, capacity, clients);
      |s.pipes| == size && s.next == 0 && !s.closed && !s.finished && s.holder.Nothing?
  {
    FreshReachable(capacity, clients);
    var s := NewPool(size, capacity, clients);
    forall t | 0 <= t < |s.threads|
      ensures OnePlace(s, t) && ThreadOk(s, t) && s.threads[t].Away?
    {
    }
    hide Reachable;
  }
}
