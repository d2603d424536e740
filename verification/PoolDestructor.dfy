/** One client that closes a thread pool and then joins it, while the others go on. */
module PoolDestructor {
  import opened Tasks
  import opened Machine
  import opened Invariant
  import opened Safety
  import opened Drain
  import opened Doom
  import opened Pool
  import opened PoolSafety
  import opened PoolShutdown
  import opened PoolReturns

  /** JoinAll entered and, close_mutex_ being free, locked. */
  function EnterJoinAll(s: Pool, t: nat): Pool {
    PoolNext(PoolNext(s, CallJoinAll(t)), Go(t))
  }

  lemma EnteredJoinAll(s: Pool, t: nat)
    requires Nowhere(s, t) && s.holder.Nothing?
    ensures var s' := EnterJoinAll(s, t);
      s' == SetThread(s, t, JoinTest).(holder := Just(t))
  {
    var s1 := SetThread(s, t, JoinLock);
    assert s1.threads[t := JoinTest] == s.threads[t := JoinTest];
  }

  /** The destructor under interleaving. A client inside Close comes back with closed_ set
      within `close`, and the pool is then closing for good. When it goes on to JoinAll and
      gets the lock, it comes back with every worker ended, after the workers have had `work`
      turns and it has had `rest` turns, whatever the other threads do in all of that. */
  lemma CloseThenJoinAll(s: Pool, close: seq<PoolLabel>, work: seq<PoolLabel>, rest: seq<PoolLabel>, t: nat)
    returns (k: nat)
    requires PoolReachable(s) && t < |s.threads| && Busy(s.threads[t]) && !Holding(s.threads[t])
    requires Nowhere(PoolExec(s, close), t) && PoolExec(s, close).holder.Nothing?
    requires var s2 := EnterJoinAll(PoolExec(s, close), t);
      EnoughTurns(s2, work) && NoneDoomed(s2, work) && Goes(rest, t) >= 5 * |s2.pipes| + 4
    ensures PoolExec(s, close).closed && AllClosing(PoolExec(s, close), |s.pipes|)
    ensures var s2 := EnterJoinAll(PoolExec(s, close), t);
      && k <= |work + rest| && BackWith(PoolExec(s2, (work + rest)[..k]), t, true)
      && AllExited(PoolExec(s2, work), |s.pipes|)
  {
    var s1 := PoolExec(s, close);
    var s2 := EnterJoinAll(s1, t);
    CloseCameBack(s, close, t);
    PoolReachableLater(s, close);
    FlagsHold(s1);
    PipelinesStay(s, close);
    EnteredJoinAll(s1, t);
    PoolReachableLater(s1, [CallJoinAll(t), Go(t)]);
    assert [CallJoinAll(t), Go(t)][..1] == [CallJoinAll(t)] && [CallJoinAll(t)][..0] == [];
    assert PoolExec(s1, [CallJoinAll(t)]) == PoolNext(PoolExec(s1, []), CallJoinAll(t));
    assert PoolExec(s1, [CallJoinAll(t), Go(t)]) == s2;
    hide PoolReachable, PoolExec, PoolNext, EnoughTurns, NoneDoomed, Nowhere;
    k := ClosedPoolIsJoined(s2, work, rest, t);
  }

  /** A client that was inside Close and is in no method any more has closed the pool. */
  lemma CloseCameBack(s: Pool, close: seq<PoolLabel>, t: nat)
    requires PoolReachable(s) && t < |s.threads| && Busy(s.threads[t]) && !Holding(s.threads[t])
    requires Nowhere(PoolExec(s, close), t)
    ensures PoolExec(s, close).closed
  {
    PoolReachableInv(s);
    assert Nowhere(PoolExec(s, close), t) ==> !Busy(PoolExec(s, close).threads[t]);
    hide PoolReachable, PoolInv, PoolExec, Left, Busy, Holding, AllExited;
    var k := Returning(s, close, t);
    if k.Just? {
      FlagsLater(s, close, k.value);
    }
  }

  // ----- bodies that do not call PostSynchronously -----

  /** What is posted to the pool or to one of its pipelines never calls PostSynchronously. */
  predicate TamePoolLabel(l: PoolLabel) {
    match l
    case Inner(_, l') => TameLabel(l')
    case CallPost(_, task) => NoSync(task)
    case _ => true
  }

  predicate TamePool(s: Pool) {
    forall p | 0 <= p < |s.pipes| :: Tame(s.pipes[p])
  }

  lemma TamePoolStep(s: Pool, l: PoolLabel)
    requires PoolInv(s) && TamePool(s) && TamePoolLabel(l)
    ensures TamePool(PoolNext(s, l))
  {
    PipesStay(s, l);
    forall p: nat | p < |s.pipes|
      ensures Tame(PoolNext(s, l).pipes[p])
    {
      StepShares(s, l, p);
      assert Reachable(s.pipes[p]) && Tame(s.pipes[p]);
      if Share(s, l, p).Just? {
        ReachableInv(s.pipes[p]);
        TameStep(s.pipes[p], Share(s, l, p).value);
      }
      hide PoolInv, TamePool, Tame, Share, PoolNext, Next, Inv, Reachable, TameLabel, TamePoolLabel;
    }
  }

  lemma {:induction false} TamePoolRun(s: Pool, ls: seq<PoolLabel>)
    requires PoolInv(s) && TamePool(s) && forall i | 0 <= i < |ls| :: TamePoolLabel(ls[i])
    ensures TamePool(PoolExec(s, ls))
  {
    if ls != [] {
      TamePoolRun(s, ls[..|ls| - 1]);
      PoolRunKeeps(s, ls[..|ls| - 1]);
      TamePoolStep(PoolExec(s, ls[..|ls| - 1]), ls[|ls| - 1]);
    }
    hide PoolInv, TamePool, PoolNext, TamePoolLabel;
  }

  lemma TamePoolNotDoomed(s: Pool, work: seq<PoolLabel>)
    requires PoolReachable(s) && TamePool(s)
    ensures NoneDoomed(s, work)
  {
    PoolReachableInv(s);
    forall p: nat | p < |s.pipes|
      ensures !Doomed(s.pipes[p], PoolRoom(s, work, p))
    {
      assert Reachable(s.pipes[p]);
      ReachableInv(s.pipes[p]);
      TameIsNotDoomed(s.pipes[p], PoolRoom(s, work, p));
    }
    hide Doomed, PoolRoom, PoolReachable, Reachable, Ledger, Control, OnePlace, ThreadOk;
  }

  /** Close then JoinAll ends for any queue contents and any interleaving, if nothing that was
      posted before calls PostSynchronously from a body. */
  lemma ClosedTamePoolIsJoined(size: nat, capacity: nat, clients: nat, before: seq<PoolLabel>,
                               work: seq<PoolLabel>, rest: seq<PoolLabel>, t: nat) returns (k: nat)
    requires forall i | 0 <= i < |before| :: TamePoolLabel(before[i])
    requires var s := PoolExec(NewPool(size, capacity, clients), before);
      && AllClosing(s, |s.pipes|) && EnoughTurns(s, work)
      && t < |s.threads| && Holding(s.threads[t]) && Goes(rest, t) >= 5 * |s.pipes| + 4
    ensures var s := PoolExec(NewPool(size, capacity, clients), before);
      && k <= |work + rest| && BackWith(PoolExec(s, (work + rest)[..k]), t, true)
      && AllExited(PoolExec(s, work), |s.pipes|)
  {
    var s0 := NewPool(size, capacity, clients);
    var s := PoolExec(s0, before);
    NewPoolInv(size, capacity, clients);
    TamePoolRun(s0, before);
    assert PoolReachable(s);
    hide PoolReachable, PoolInv, PoolExec, TamePool, NoneDoomed, EnoughTurns, AllClosing, AllExited, BackWith;
    TamePoolNotDoomed(s, work);
    k := ClosedPoolIsJoined(s, work, rest, t);
  }
}
