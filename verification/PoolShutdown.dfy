/** How a thread pool is closed and joined. */
module PoolShutdown {
  import opened Tasks
  import opened Machine
  import opened Alone
  import opened Safety
  import opened Progress
  import opened Drain
  import opened Doom
  import opened Pool
  import opened PoolSafety

  /** A state that some pool can be in. */
  ghost predicate PoolReachable(s: Pool) {
    exists size: nat, capacity: nat, clients: nat, ls: seq<PoolLabel> ::
      s == PoolExec(NewPool(size, capacity, clients), ls)
  }

  lemma PoolReachableInv(s: Pool)
    requires PoolReachable(s)
    ensures PoolInv(s)
  {
    var size: nat, capacity: nat, clients: nat, ls: seq<PoolLabel> :|
      s == PoolExec(NewPool(size, capacity, clients), ls);
    NewPoolInv(size, capacity, clients);
    PoolRunKeeps(NewPool(size, capacity, clients), ls);
  }

  /** closed_ implies that every pipeline is closing, finished_ that every worker has ended,
      and no client leaves JoinAll before that. Only one client at a time is between the
      lock and the unlock. */
  lemma FlagsHold(s: Pool)
    requires PoolReachable(s)
    ensures s.closed ==> AllClosing(s, |s.pipes|)
    ensures s.finished ==> AllExited(s, |s.pipes|)
    ensures forall t | 0 <= t < |s.threads| && s.threads[t].JoinUnlock? :: s.finished
    ensures forall t: nat, u: nat | t < |s.threads| && u < |s.threads| ::
              Holding(s.threads[t]) && Holding(s.threads[u]) ==> t == u
  {
    PoolReachableInv(s);
    forall t | 0 <= t < |s.threads| && s.threads[t].JoinUnlock?
      ensures s.finished
    {
      ThreadAt(s, t);
    }
    hide Reachable, PoolReachable, Holding, InClose, InJoin;
  }

  /** JoinAll after the pool has finished touches no pipeline and leaves finished_ set. */
  lemma JoinAllIsIdempotent(s: Pool, t: nat)
    requires Nowhere(s, t) && s.finished && s.holder.Nothing?
    ensures PoolNext(PoolNext(PoolNext(PoolNext(s, CallJoinAll(t)), Go(t)), Go(t)), Go(t)) == s
  {
    var s1 := SetThread(s, t, JoinLock);
    var s2 := SetThread(s, t, JoinTest).(holder := Just(t));
    var s3 := SetThread(s, t, JoinUnlock).(holder := Just(t));
    assert PoolNext(s1, Go(t)) == s2;
    assert PoolNext(s2, Go(t)) == s3;
    assert PoolNext(s3, Go(t)) == s by {
      assert s3.threads[t := Away] == s.threads;
    }
  }

  /** Close of a pool that is closed reads closed_ and touches no pipeline. */
  lemma CloseIsIdempotent(s: Pool, t: nat)
    requires Nowhere(s, t) && s.closed
    ensures PoolNext(PoolNext(s, CallClose(t)), Go(t)) == s
  {
    var s1 := SetThread(s, t, CloseTest);
    assert s1.threads[t := Away] == s.threads;
  }

  // ----- a run of the pool is a run of each of its pipelines -----

  /** How often the worker of pipeline p is scheduled. */
  function WorkerTurns(ls: seq<PoolLabel>, p: nat): nat {
    if ls == [] then 0
    else WorkerTurns(ls[..|ls| - 1], p) + (if ls[|ls| - 1] == Inner(p, Step(0)) then 1 else 0)
  }

  /** What a step of the pool is for pipeline p. */
  function Share(s: Pool, l: PoolLabel, p: nat): Maybe<Label>
    requires p < |s.pipes|
  {
    match l
    case Inner(q, l') => if q == p && Allowed(s, l') then Just(l') else Nothing
    case CallPost(t, task) =>
      if Nowhere(s, t) && RoundRobin.Pick(s.next, |s.pipes|) == p then Just(Begin(t, Post(task)))
      else Nothing
    case CallClose(_) => Nothing
    case CallJoinAll(_) => Nothing
    case Go(t) => if t < |s.threads| then GoShare(s, t, p) else Nothing
  }

  function GoShare(s: Pool, t: nat, p: nat): Maybe<Label>
    requires t < |s.threads|
  {
    var c := s.threads[t];
    if InPipe(c, p) && !Returned(s, p, t) then Just(Step(t))
    else if c == CloseAt(p) then Just(Begin(t, Close))
    else if c == JoinAt(p) then Just(BeginJoin(t))
    else Nothing
  }

  lemma StepShares(s: Pool, l: PoolLabel, p: nat)
    requires p < |s.pipes|
    ensures var share := Share(s, l, p);
      && |PoolNext(s, l).pipes| == |s.pipes|
      && PoolNext(s, l).pipes[p] == if share.Just? then Next(s.pipes[p], share.value) else s.pipes[p]
  {
    hide Next, Nowhere, Returned, GoStep, GoShare;
    match l
    case Inner(_, _) =>
    case CallPost(_, _) =>
    case CallClose(_) =>
    case CallJoinAll(_) =>
    case Go(t) => if t < |s.threads| { GoShares(s, t, p); }
  }

  lemma GoShares(s: Pool, t: nat, p: nat)
    requires t < |s.threads| && p < |s.pipes|
    ensures var share := GoShare(s, t, p);
      && |GoStep(s, t).pipes| == |s.pipes|
      && GoStep(s, t).pipes[p] == if share.Just? then Next(s.pipes[p], share.value) else s.pipes[p]
  {
    hide Next, Returned;
    match s.threads[t] {
      case Away => case PostIn(_) => case CloseTest => case CloseAt(_) => case CloseIn(_) =>
      case CloseStored => case JoinLock => case JoinTest => case JoinAt(_) => case JoinIn(_) =>
      case JoinStored => case JoinUnlock =>
    }
  }

  /** What the counter of pipeline p says at the first operation of its worker. */
  function PoolRoom(s: Pool, ls: seq<PoolLabel>, p: nat): bool {
    if ls == [] then true
    else
      var before := ls[..|ls| - 1];
      if WorkerTurns(before, p) > 0 then PoolRoom(s, before, p)
      else ls[|ls| - 1] == Inner(p, Step(0)) && p < |PoolExec(s, before).pipes| ==>
        var q := PoolExec(s, before).pipes[p]; Ticked(q.count, Up) <= q.capacity
  }

  /** Whatever the pool does, each pipeline sees a run of its own, in which its worker is
      scheduled as often: what is proved of all runs of a pipeline holds within the pool. */
  lemma {:induction false} PoolRunIsPipelineRun(s: Pool, ls: seq<PoolLabel>, p: nat)
    returns (ms: seq<Label>)
    requires PoolInv(s) && p < |s.pipes|
    ensures |PoolExec(s, ls).pipes| == |s.pipes|
    ensures PoolExec(s, ls).pipes[p] == Exec(s.pipes[p], ms)
    ensures Turns(ms) == WorkerTurns(ls, p) && Room(s.pipes[p], ms) == PoolRoom(s, ls, p)
  {
    if ls == [] {
      ms := [];
    } else {
      var before, l := ls[..|ls| - 1], ls[|ls| - 1];
      var s1 := PoolExec(s, before);
      ms := PoolRunIsPipelineRun(s, before, p);
      PoolRunKeeps(s, before);
      StepShares(s1, l, p);
      if Share(s1, l, p).Just? {
        var m := Share(s1, l, p).value;
        Then(s.pipes[p], ms, m);
        assert (ms + [m])[..|ms + [m]| - 1] == ms;
        ms := ms + [m];
      }
    }
    hide PoolInv, PoolNext, Next, Share;
  }

  /** Once pipeline p is closing and its worker has been scheduled as often as its queued
      work takes, that worker has ended unless the state in which this is asked dooms it. */
  lemma ClosedPoolEnds(s: Pool, ls: seq<PoolLabel>, p: nat)
    requires PoolReachable(s) && p < |s.pipes| && s.pipes[p].closing
    requires s.pipes[p].calls != [] && WorkerTurns(ls, p) >= Rank(s.pipes[p])
    ensures |PoolExec(s, ls).pipes| == |s.pipes|
    ensures PoolExec(s, ls).pipes[p].worker.Exited? <==> !Doomed(s.pipes[p], PoolRoom(s, ls, p))
  {
    PoolReachableInv(s);
    assert Reachable(s.pipes[p]);
    hide PoolReachable, Reachable, PoolExec, PoolRoom, Room, Exec, Rank, Doomed, PoolInv;
    var ms := PoolRunIsPipelineRun(s, ls, p);
    ClosedPipelineEnds(s.pipes[p], ms);
  }
}
