/** Close of a thread pool always returns, and JoinAll returns once the workers have ended,
    after a number of the caller's own operations that no other thread can raise. */
module PoolReturns {
  import opened Tasks
  import opened Machine
  import opened Growth
  import opened Alone
  import opened Safety
  import opened Drain
  import opened Doom
  import opened Progress
  import opened Pool
  import opened PoolSafety
  import opened PoolShutdown

  /** Inside Close, or inside JoinAll with close_mutex_ locked. */
  predicate Busy(c: PoolCall) {
    c.CloseTest? || c.CloseAt? || c.CloseIn? || c.CloseStored? || Holding(c)
  }

  function CallLeft(c: Call): nat {
    match c
    case CloseCheck => 3
    case ClosePost => 2
    case CloseStore => 1
    case Join => 1
    case _ => 0
  }

  /** Operations that a caller at `c` has left in a pool of n pipelines, `inner` being where
      it stands in the pipeline that it is in. */
  function StepsLeft(c: PoolCall, n: nat, inner: Call): nat {
    match c
    case CloseTest => 5 * n + 3
    case CloseAt(i) => if i < n then 5 * (n - i) + 2 else 2
    case CloseIn(i) => if i < n then 5 * (n - i - 1) + 3 + CallLeft(inner) else 0
    case CloseStored => 1
    case JoinTest => 5 * n + 4
    case JoinAt(i) => if i < n then 5 * (n - i) + 3 else 3
    case JoinIn(i) => if i < n then 5 * (n - i - 1) + 4 + CallLeft(inner) else 0
    case JoinStored => 2
    case JoinUnlock => 1
    case _ => 0
  }

  function InnerCall(s: Pool, t: nat): Call
    requires t < |s.threads|
  {
    var c := s.threads[t];
    if (c.PostIn? || c.CloseIn? || c.JoinIn?) && c.i < |s.pipes| && t < |s.pipes[c.i].calls|
    then s.pipes[c.i].calls[t] else Idle
  }

  function Left(s: Pool, t: nat): nat
    requires t < |s.threads|
  {
    StepsLeft(s.threads[t], |s.pipes|, InnerCall(s, t))
  }

  lemma BusyHasStepsLeft(s: Pool, t: nat)
    requires PoolInv(s) && t < |s.threads| && Busy(s.threads[t])
    ensures Left(s, t) > 0
  {
    ThreadAt(s, t);
    hide PoolInv, InClose, InJoin;
  }

  /** The caller is not the one that moves, except inside a pipeline. */
  lemma OthersLeave(s: Pool, l: PoolLabel, t: nat)
    requires PoolInv(s) && t < |s.threads| && Busy(s.threads[t]) && l != Go(t)
    ensures |PoolNext(s, l).threads| == |s.threads| && PoolNext(s, l).threads[t] == s.threads[t]
  {
    hide PoolInv, Next;
    match l {
      case Inner(_, _) => case CallPost(_, _) => case CallClose(_) => case CallJoinAll(_) =>
      case Go(u) =>
        if u < |s.threads| {
          match s.threads[u] {
            case Away => case PostIn(_) => case CloseTest => case CloseAt(_) => case CloseIn(_) =>
            case CloseStored => case JoinLock => case JoinTest => case JoinAt(_) => case JoinIn(_) =>
            case JoinStored => case JoinUnlock =>
          }
        }
    }
  }

  lemma ShareBy(s: Pool, l: PoolLabel, p: nat, t: nat)
    requires p < |s.pipes| && 0 < t < |s.threads| && !s.threads[t].Away? && l != Go(t)
    requires Share(s, l, p).Just? && By(Share(s, l, p).value, t)
    ensures Share(s, l, p).value == Step(t)
  {
    hide Returned;
  }

  lemma InnerCallShrinks(q: State, t: nat)
    requires 0 < t && (InClose(q, t) || InJoin(q, t))
    ensures |Next(q, Step(t)).calls| == |q.calls|
    ensures CallLeft(Next(q, Step(t)).calls[t]) <= CallLeft(q.calls[t])
    ensures InClose(q, t) && !q.calls[t].Idle? ==>
      CallLeft(Next(q, Step(t)).calls[t]) < CallLeft(q.calls[t])
  {
    StepGrows(q, Step(t));
    if q.calls[t].Join? {
    } else {
      CloseSteps(q, t);
    }
    hide Next;
  }

  /** Nobody else adds to what a caller has left. */
  lemma OthersKeepLeft(s: Pool, l: PoolLabel, t: nat)
    requires PoolInv(s) && t < |s.threads| && Busy(s.threads[t]) && l != Go(t)
    ensures |PoolNext(s, l).threads| == |s.threads| && PoolNext(s, l).threads[t] == s.threads[t]
    ensures Left(PoolNext(s, l), t) <= Left(s, t)
  {
    OthersLeave(s, l, t);
    ThreadAt(s, t);
    var c := s.threads[t];
    if c.CloseIn? || c.JoinIn? {
      var p, q := c.i, s.pipes[c.i];
      StepShares(s, l, p);
      assert InClose(q, t) || InJoin(q, t);
      if Share(s, l, p).Just? {
        var m := Share(s, l, p).value;
        if By(m, t) {
          ShareBy(s, l, p, t);
          InnerCallShrinks(q, t);
        } else {
          OthersStay(q, m, t);
        }
      }
    } else {
      PipesStay(s, l);
    }
    hide PoolInv, PoolNext, Next, Share, By, InClose, InJoin, CallLeft;
  }

  lemma PipesStay(s: Pool, l: PoolLabel)
    ensures |PoolNext(s, l).pipes| == |s.pipes|
  {
    if s.pipes != [] {
      StepShares(s, l, 0);
    } else if l.Go? && l.t < |s.threads| {
      match s.threads[l.t] {
        case Away => case PostIn(_) => case CloseTest => case CloseAt(_) => case CloseIn(_) =>
        case CloseStored => case JoinLock => case JoinTest => case JoinAt(_) => case JoinIn(_) =>
        case JoinStored => case JoinUnlock =>
      }
    }
    hide Next, Share;
  }

  lemma JoinMoves(q: State, t: nat)
    requires 0 < t && InJoin(q, t) && Reachable(q) && q.worker.Exited? && !q.calls[t].Idle?
    ensures |Next(q, Step(t)).calls| == |q.calls| && Next(q, Step(t)).calls[t].Idle?
  {
    StepGrows(q, Step(t));
    JoinReturnsAfterExit(q, t);
    hide Next, Reachable;
  }

  lemma JoinLeft(q: State, t: nat)
    requires InJoin(q, t) && !q.calls[t].Idle?
    ensures CallLeft(q.calls[t]) > CallLeft(Idle)
  {
  }

  /** The caller's own operation inside a pipeline. */
  lemma GoInsideShrinks(s: Pool, t: nat)
    requires PoolInv(s) && t < |s.threads| && (s.threads[t].CloseIn? || s.threads[t].JoinIn?)
    requires Holding(s.threads[t]) ==> AllExited(s, |s.pipes|)
    ensures Left(GoStep(s, t), t) < Left(s, t) && Busy(GoStep(s, t).threads[t])
  {
    ThreadAt(s, t);
    var c := s.threads[t];
    var q := s.pipes[c.i];
    assert Reachable(q) && |q.calls| == |s.threads|;
    hide PoolInv, PipesOk, Next, InClose, InJoin, Reachable, CallLeft;
    if !q.calls[t].Idle? {
      if c.CloseIn? {
        InnerCallShrinks(q, t);
      } else {
        JoinMoves(q, t);
        assert CallLeft(q.calls[t]) > CallLeft(Idle) by { JoinLeft(q, t); }
      }
    }
  }

  predicate Enters(s: Pool, t: nat) {
    t < |s.threads| && (s.threads[t].CloseAt? || s.threads[t].JoinAt?) && s.threads[t].i < |s.pipes|
  }

  /** The caller enters the next pipeline's method. */
  lemma GoEntersShrinks(s: Pool, t: nat)
    requires PoolInv(s) && Enters(s, t)
    ensures Left(GoStep(s, t), t) < Left(s, t) && Busy(GoStep(s, t).threads[t])
  {
    ThreadAt(s, t);
    var i := s.threads[t].i;
    ReturnedAt(s, i, t);
    assert !InPipe(s.threads[t], i);
    hide PoolInv, Next;
  }

  /** The caller's own operation on the pool's fields. */
  lemma GoMovesShrinks(s: Pool, t: nat)
    requires t < |s.threads| && Busy(s.threads[t]) && !Enters(s, t)
    requires !s.threads[t].CloseIn? && !s.threads[t].JoinIn?
    ensures Left(GoStep(s, t), t) < Left(s, t)
    ensures Busy(GoStep(s, t).threads[t]) || GoStep(s, t).threads[t].Away?
  {
    hide Next;
    match s.threads[t] {
      case Away => case PostIn(_) => case CloseTest => case CloseAt(_) => case CloseIn(_) =>
      case CloseStored => case JoinLock => case JoinTest => case JoinAt(_) => case JoinIn(_) =>
      case JoinStored => case JoinUnlock =>
    }
  }

  lemma ExitedStays(s: Pool, l: PoolLabel)
    requires PoolInv(s) && AllExited(s, |s.pipes|)
    ensures AllExited(PoolNext(s, l), |PoolNext(s, l).pipes|)
  {
    PipesStay(s, l);
    forall p | 0 <= p < |s.pipes|
      ensures PoolNext(s, l).pipes[p].worker.Exited?
    {
      StepShares(s, l, p);
      assert Reachable(s.pipes[p]) && s.pipes[p].started && |s.pipes[p].calls| == |s.threads|;
      if Share(s, l, p).Just? {
        NextOnward(s.pipes[p], Share(s, l, p).value);
      }
    }
    hide Reachable, Next, PoolNext, Share, OnePlace, ThreadOk;
  }

  // ----- returning -----

  /** How often client t is scheduled. */
  function Goes(ls: seq<PoolLabel>, t: nat): nat {
    if ls == [] then 0 else Goes(ls[..|ls| - 1], t) + (if ls[|ls| - 1] == Go(t) then 1 else 0)
  }

  /** Client t is out of Close with closed_ set, or out of JoinAll with finished_ set. */
  predicate BackWith(s: Pool, t: nat, joining: bool) {
    Nowhere(s, t) && (if joining then s.finished else s.closed)
  }

  lemma LeavesWithFlags(s: Pool, t: nat)
    requires PoolInv(s) && t < |s.threads| && Busy(s.threads[t])
    ensures var s' := GoStep(s, t);
      && |s'.threads| == |s.threads|
      && (Busy(s'.threads[t]) ==> (Holding(s'.threads[t]) <==> Holding(s.threads[t])))
      && (s'.threads[t].Away? ==> BackWith(s', t, Holding(s.threads[t])))
  {
    ThreadAt(s, t);
    forall p: nat | p < |s.pipes| && !InPipe(s.threads[t], p)
      ensures t < |s.pipes[p].calls| && s.pipes[p].calls[t].Idle?
    {
      ReturnedAt(s, p, t);
    }
    hide PoolInv, Next, InClose, InJoin, AllClosing, AllExited;
    match s.threads[t] {
      case Away => case PostIn(_) => case CloseTest => case CloseAt(_) => case CloseIn(_) =>
      case CloseStored => case JoinLock => case JoinTest => case JoinAt(_) => case JoinIn(_) =>
      case JoinStored => case JoinUnlock =>
    }
  }

  lemma GoShrinks(s: Pool, t: nat)
    requires PoolInv(s) && t < |s.threads| && Busy(s.threads[t])
    requires Holding(s.threads[t]) ==> AllExited(s, |s.pipes|)
    ensures Left(GoStep(s, t), t) < Left(s, t)
  {
    hide PoolInv, GoStep, Left, AllExited;
    if s.threads[t].CloseIn? || s.threads[t].JoinIn? {
      GoInsideShrinks(s, t);
    } else if Enters(s, t) {
      GoEntersShrinks(s, t);
    } else {
      GoMovesShrinks(s, t);
    }
  }

  lemma GoGoesOn(s: Pool, t: nat)
    requires PoolInv(s) && t < |s.threads| && Busy(s.threads[t])
    ensures Busy(GoStep(s, t).threads[t]) || GoStep(s, t).threads[t].Away?
  {
    ThreadAt(s, t);
    hide PoolInv, Next, InClose, InJoin;
    match s.threads[t] {
      case Away => case PostIn(_) => case CloseTest => case CloseAt(_) => case CloseIn(_) =>
      case CloseStored => case JoinLock => case JoinTest => case JoinAt(_) => case JoinIn(_) =>
      case JoinStored => case JoinUnlock =>
    }
  }

  /** One step of the pool, seen by a client inside Close, or inside JoinAll with the lock. */
  lemma OneMore(s: Pool, l: PoolLabel, t: nat)
    requires PoolInv(s) && t < |s.threads| && Busy(s.threads[t])
    ensures var s', joining := PoolNext(s, l), Holding(s.threads[t]);
      && |s'.threads| == |s.threads|
      && (BackWith(s', t, joining) || (Busy(s'.threads[t]) && Holding(s'.threads[t]) == joining))
    ensures (Holding(s.threads[t]) ==> AllExited(s, |s.pipes|)) ==>
              Left(PoolNext(s, l), t) + (if l == Go(t) then 1 else 0) <= Left(s, t)
  {
    hide PoolInv, GoStep, Left, Busy, Holding, AllExited, Next, Nowhere, BackWith;
    if l == Go(t) {
      LeavesWithFlags(s, t);
      GoGoesOn(s, t);
      if Holding(s.threads[t]) ==> AllExited(s, |s.pipes|) {
        GoShrinks(s, t);
      }
    } else {
      OthersKeepLeft(s, l, t);
    }
  }

  /** Where the run `ls` first takes client t out of the method that it is in, if it does; a
      client with the lock may be held up as long as some worker has not ended. */
  lemma {:induction false} Returning(s: Pool, ls: seq<PoolLabel>, t: nat) returns (k: Maybe<nat>)
    requires PoolInv(s) && t < |s.threads| && Busy(s.threads[t])
    ensures k.Just? ==> k.value <= |ls| && BackWith(PoolExec(s, ls[..k.value]), t, Holding(s.threads[t]))
    ensures k.Nothing? ==> var s' := PoolExec(s, ls);
      && |s'.threads| == |s.threads|
      && Busy(s'.threads[t]) && Holding(s'.threads[t]) == Holding(s.threads[t])
    ensures k.Nothing? && (Holding(s.threads[t]) ==> AllExited(s, |s.pipes|)) ==>
      |PoolExec(s, ls).threads| == |s.threads| && Left(PoolExec(s, ls), t) + Goes(ls, t) <= Left(s, t)
      && (AllExited(s, |s.pipes|) ==> AllExited(PoolExec(s, ls), |PoolExec(s, ls).pipes|))
  {
    k := Nothing;
    if ls != [] {
      var before, l := ls[..|ls| - 1], ls[|ls| - 1];
      k := Returning(s, before, t);
      if k.Just? {
        assert before[..k.value] == ls[..k.value];
      } else {
        var s1 := PoolExec(s, before);
        PoolRunKeeps(s, before);
        OneMore(s1, l, t);
        if AllExited(s1, |s1.pipes|) {
          ExitedStays(s1, l);
        }
        if BackWith(PoolNext(s1, l), t, Holding(s.threads[t])) {
          k := Just(|ls|);
          assert ls[..|ls|] == ls;
        }
      }
    }
    hide PoolInv, PoolNext, Left, Busy, Holding, AllExited, BackWith;
  }

  /** A caller of Close comes back, with closed_ set, after a bounded number of its own
      operations; so does a caller of JoinAll that has the lock once every worker has ended,
      with finished_ set. */
  lemma CallerReturns(s: Pool, ls: seq<PoolLabel>, t: nat) returns (k: nat)
    requires PoolReachable(s) && t < |s.threads| && Busy(s.threads[t])
    requires Holding(s.threads[t]) ==> AllExited(s, |s.pipes|)
    requires Goes(ls, t) >= Left(s, t)
    ensures k <= |ls| && BackWith(PoolExec(s, ls[..k]), t, Holding(s.threads[t]))
  {
    PoolReachableInv(s);
    hide PoolInv, PoolExec, PoolReachable, Left, Busy, Holding, AllExited, BackWith;
    var found := Returning(s, ls, t);
    if found.Nothing? {
      PoolRunKeeps(s, ls);
      BusyHasStepsLeft(PoolExec(s, ls), t);
      assert false;
    }
    k := found.value;
  }

  lemma LeftBound(s: Pool, t: nat)
    requires t < |s.threads|
    ensures Left(s, t) <= 5 * |s.pipes| + 4
  {
  }

  lemma {:induction false} PoolExecConcat(s: Pool, a: seq<PoolLabel>, b: seq<PoolLabel>)
    ensures PoolExec(s, a + b) == PoolExec(PoolExec(s, a), b)
  {
    if b == [] {
      assert a + b == a;
    } else {
      assert (a + b)[..|a + b| - 1] == a + b[..|b| - 1];
      PoolExecConcat(s, a, b[..|b| - 1]);
    }
  }

  lemma PoolReachableLater(s: Pool, ls: seq<PoolLabel>)
    requires PoolReachable(s)
    ensures PoolReachable(PoolExec(s, ls))
  {
    var size: nat, capacity: nat, clients: nat, before: seq<PoolLabel> :|
      s == PoolExec(NewPool(size, capacity, clients), before);
    PoolExecConcat(NewPool(size, capacity, clients), before, ls);
  }

  // ----- Close, then JoinAll -----

  /** Nobody is dooming a worker in s, by the state of its bodies. */
  predicate NoneDoomed(s: Pool, work: seq<PoolLabel>) {
    forall p | 0 <= p < |s.pipes| :: !Doomed(s.pipes[p], PoolRoom(s, work, p))
  }

  /** The run schedules every worker as often as its queued work takes. */
  predicate EnoughTurns(s: Pool, work: seq<PoolLabel>) {
    forall p | 0 <= p < |s.pipes| ::
      s.pipes[p].calls != [] && WorkerTurns(work, p) >= Rank(s.pipes[p])
  }

  /** In a closed pool all workers end exactly when none of them is doomed. */
  lemma ClosedPoolEndsWhen(s: Pool, work: seq<PoolLabel>)
    requires PoolReachable(s) && AllClosing(s, |s.pipes|) && EnoughTurns(s, work)
    ensures |PoolExec(s, work).pipes| == |s.pipes|
    ensures AllExited(PoolExec(s, work), |s.pipes|) <==> NoneDoomed(s, work)
  {
    hide PoolReachable, PoolExec, PoolRoom, Doomed, Rank, WorkerTurns;
    PipelinesStay(s, work);
    forall p | 0 <= p < |s.pipes|
      ensures PoolExec(s, work).pipes[p].worker.Exited? <==> !Doomed(s.pipes[p], PoolRoom(s, work, p))
    {
      ClosedPoolEnds(s, work, p);
    }
  }

  /** Close then JoinAll: in a pool that has been closed, whatever is queued and whatever the
      other threads do, a client that holds close_mutex_ in JoinAll comes back with every
      worker ended, unless a body that was open when the pool was closed dooms its worker. */
  lemma ClosedPoolIsJoined(s: Pool, work: seq<PoolLabel>, rest: seq<PoolLabel>, t: nat) returns (k: nat)
    requires PoolReachable(s) && AllClosing(s, |s.pipes|) && EnoughTurns(s, work) && NoneDoomed(s, work)
    requires t < |s.threads| && Holding(s.threads[t]) && Goes(rest, t) >= 5 * |s.pipes| + 4
    ensures k <= |work + rest| && BackWith(PoolExec(s, (work + rest)[..k]), t, true)
    ensures AllExited(PoolExec(s, work), |s.pipes|)
  {
    PoolReachableInv(s);
    var s1 := PoolExec(s, work);
    hide PoolInv, PoolReachable, PoolExec, NoneDoomed, EnoughTurns, Left, Holding, AllExited, BackWith;
    ClosedPoolEndsWhen(s, work);
    assert Busy(s.threads[t]);
    var found := Returning(s, work, t);
    if found.Just? {
      k := found.value;
      assert (work + rest)[..k] == work[..k];
    } else {
      PoolReachableLater(s, work);
      LeftBound(s1, t);
      k := CallerReturns(s1, rest, t);
      PoolExecConcat(s, work, rest[..k]);
      k := |work| + k;
      assert (work + rest)[..k] == work + rest[..k - |work|];
    }
  }

  /** The other half: a doomed worker keeps a client in JoinAll for ever. */
  lemma DoomedPoolIsNotJoined(s: Pool, ls: seq<PoolLabel>, t: nat, p: nat)
    requires PoolReachable(s) && p < |s.pipes| && s.pipes[p].closing && s.pipes[p].calls != []
    requires Doomed(s.pipes[p], PoolRoom(s, ls, p))
    requires t < |s.threads| && Holding(s.threads[t])
    ensures t < |PoolExec(s, ls).threads| && Holding(PoolExec(s, ls).threads[t])
    ensures !PoolExec(s, ls).finished
  {
    PoolReachableInv(s);
    PoolReachableLater(s, ls);
    var s' := PoolExec(s, ls);
    hide PoolExec, PoolRoom, Doomed, PoolReachable, Exec, Room, Reachable, Holding;
    var ms := PoolRunIsPipelineRun(s, ls, p);
    DoomedNeverEnds(s.pipes[p], ms);
    FlagsHold(s');
    assert Busy(s.threads[t]);
    var k := Returning(s, ls, t);
    if k.Just? {
      FlagsLater(s, ls, k.value);
    }
  }

  lemma {:induction false} FlagsStay(s: Pool, ls: seq<PoolLabel>)
    ensures s.finished ==> PoolExec(s, ls).finished
    ensures s.closed ==> PoolExec(s, ls).closed
  {
    if ls != [] {
      FlagsStay(s, ls[..|ls| - 1]);
    }
    hide PoolNext;
  }

  lemma FlagsLater(s: Pool, ls: seq<PoolLabel>, k: nat)
    requires k <= |ls|
    ensures PoolExec(s, ls[..k]).finished ==> PoolExec(s, ls).finished
    ensures PoolExec(s, ls[..k]).closed ==> PoolExec(s, ls).closed
  {
    hide PoolExec;
    PoolExecConcat(s, ls[..k], ls[k..]);
    assert ls == ls[..k] + ls[k..];
    FlagsStay(PoolExec(s, ls[..k]), ls[k..]);
  }

  lemma {:induction false} PipelinesStay(s: Pool, ls: seq<PoolLabel>)
    ensures |PoolExec(s, ls).pipes| == |s.pipes|
  {
    if ls != [] {
      PipelinesStay(s, ls[..|ls| - 1]);
      PipesStay(PoolExec(s, ls[..|ls| - 1]), ls[|ls| - 1]);
    }
    hide PoolNext;
  }
}
