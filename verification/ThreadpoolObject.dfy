/** `war::Threadpool` as an object that owns its pipelines. */
module ThreadpoolObject {
  import opened Tasks
  import opened Machine
  import opened RoundRobin
  import opened Alone
  import opened Pool
  import opened PoolFill
  import opened Doom
  import opened Progress
  import opened Safety
  import opened Shutdown
  import opened PipelineObject

  class Threadpool {
    const capacity: nat
    var pool: seq<Pipeline>
    var roundRobinNextThread: nat
    var closed: bool
    var finished: bool

    ghost predicate Valid()
      reads this, pool
    {
      && |pool| == capacity > 0
      && roundRobinNextThread < UINT
      && (forall i, j | 0 <= i < j < |pool| :: pool[i] != pool[j])
      && (forall i | 0 <= i < |pool| :: pool[i].Valid() && pool[i].started)
      && (closed ==> forall i | 0 <= i < |pool| :: pool[i].closing)
      && (finished ==> forall i | 0 <= i < |pool| :: pool[i].worker.Exited?)
    }

    /** The object as a state of the machine, no client being in any method. */
    ghost function Now(): Pool
      reads this, pool
    {
      Pool(seq(|pool|, i requires 0 <= i < |pool| reads this, pool => pool[i].Now()),
                roundRobinNextThread, closed, finished, Nothing, [])
    }

    /** `cores` is what hardware_concurrency() reports; it may be 0, and the subtraction of
        one then wraps. */
    constructor (numThreads: nat, maxPerThreadQueueCapacity: nat, cores: nat, clients: nat)
      requires cores < UINT
      ensures Valid() && fresh(pool) && !closed && !finished
      ensures |pool| == PoolSize(numThreads, cores)
      ensures numThreads > 0 ==> |pool| == numThreads
      ensures numThreads == 0 && cores > 0 ==>
        |pool| >= 2 && |pool| >= cores - 1 && (|pool| == 2 || |pool| == cores - 1)
      ensures numThreads == 0 && cores == 0 ==> |pool| == 0xFFFF_FFFF
      ensures roundRobinNextThread == 0
      ensures forall i | 0 <= i < |pool| ::
        && pool[i].capacity == maxPerThreadQueueCapacity && pool[i].count == 0 && pool[i].queue == []
        && !pool[i].closing && pool[i].worker.Loop?
      ensures maxPerThreadQueueCapacity + 1 < SIZE_T ==> Vacant(Now(), maxPerThreadQueueCapacity)
      ensures forall i | 0 <= i < |pool| :: |pool[i].calls| == clients + 1
      ensures forall i, t | 0 <= i < |pool| && 0 < t <= clients :: pool[i].calls[t].Idle?
    {
      var others := (cores + UINT - 1) % UINT;
      capacity := if numThreads > 0 then numThreads else if 2 < others then others else 2;
      closed, finished, roundRobinNextThread := false, false, 0;
      pool := [];
      new;
      hide Reachable, Pipeline.Valid;
      StartAll(maxPerThreadQueueCapacity, clients);
    }

    /** The loop of the constructor. */
    method StartAll(maxPerThreadQueueCapacity: nat, clients: nat)
      requires pool == []
      modifies this`pool
      ensures |pool| == capacity && fresh(pool)
      ensures forall i, j | 0 <= i < j < |pool| :: pool[i] != pool[j]
      ensures forall i | 0 <= i < |pool| :: IsNew(pool[i], maxPerThreadQueueCapacity, clients)
    {
      hide Reachable, Pipeline.Valid;
      while |pool| < capacity
        invariant |pool| <= capacity && fresh(pool)
        invariant forall i, j | 0 <= i < j < |pool| :: pool[i] != pool[j]
        invariant forall i | 0 <= i < |pool| :: IsNew(pool[i], maxPerThreadQueueCapacity, clients)
        decreases capacity - |pool|
      {
        var pipeline := new Pipeline(maxPerThreadQueueCapacity, clients);
        assert IsNew(pipeline, maxPerThreadQueueCapacity, clients);
        hide IsNew;
        pool := pool + [pipeline];
      }
    }

    /** A pipeline as its constructor leaves it. */
    static ghost predicate IsNew(pipeline: Pipeline, capacity: nat, clients: nat)
      reads pipeline
    {
      && pipeline.Valid() && pipeline.started && !pipeline.closing && pipeline.worker.Loop? && pipeline.count == 0
      && pipeline.queue == [] && pipeline.capacity == capacity
      && |pipeline.calls| == clients + 1 && forall t | 0 < t <= clients :: pipeline.calls[t].Idle?
    }

    /** The counter goes up by one, from 2^32 - 1 to 0, and its new value selects. */
    method GetAnyPipeline() returns (pipeline: Pipeline)
      requires Valid()
      modifies this`roundRobinNextThread
      ensures Valid() && pipeline == pool[Pick(old(roundRobinNextThread), |pool|)]
      ensures roundRobinNextThread == Bump(old(roundRobinNextThread))
      ensures roundRobinNextThread ==
        if old(roundRobinNextThread) == 0xFFFF_FFFF then 0 else old(roundRobinNextThread) + 1
      ensures pipeline == pool[roundRobinNextThread % |pool|]
    {
      roundRobinNextThread := (roundRobinNextThread + 1) % UINT;
      return pool[roundRobinNextThread % capacity];
    }

    /** The task goes to the pipeline whose turn it is, and to no other. */
    method Post(t: nat, task: Task) returns (answer: Answer)
      requires Valid() && forall i | 0 <= i < |pool| :: pool[i].Idles(t)
      modifies this`roundRobinNextThread, pool
      ensures Valid() && pool == old(pool)
      ensures Now() == PostToNext(old(Now()), task)
      ensures answer.Accepted? <==> old(TakesNext(Now()))
      ensures var p := pool[roundRobinNextThread % |pool|];
        && (answer.DismissedClosing? <==> old(p.closing))
        && p.queue == old(p.queue) + (if answer.Accepted?
             then [Run(Job(|old(p.book.jobs)|, Plain(task)), Posted)] else [])
      ensures forall i | 0 <= i < |pool| && i != roundRobinNextThread % |pool| :: unchanged(pool[i])
      ensures forall i | 0 <= i < |pool| :: pool[i].Idles(t)
    {
      hide PostAlone, Ticked, Exec, Bump, Pick, Reachable;
      ghost var s, i := Now(), Pick(roundRobinNextThread, |pool|);
      var pipeline := GetAnyPipeline();
      answer := pipeline.Post(t, task);
      assert Now().pipes == s.pipes[i := PostAlone(s.pipes[i], task)];
    }

    /** The pipeline whose turn it is arms a timer with the task, or dismisses the task if it is
        closing; nothing is queued anywhere. */
    method PostWithTimer(t: nat, task: Task) returns (answer: Answer)
      requires Valid() && forall i | 0 <= i < |pool| :: pool[i].Idles(t)
      modifies this`roundRobinNextThread, pool
      ensures Valid() && pool == old(pool)
      ensures roundRobinNextThread ==
        if old(roundRobinNextThread) == 0xFFFF_FFFF then 0 else old(roundRobinNextThread) + 1
      ensures var p := pool[roundRobinNextThread % |pool|];
        && answer == (if old(p.closing) then DismissedClosing else Accepted)
        && p.armed == old(p.armed) + (if old(p.closing) then [] else [Job(|old(p.book.jobs)|, Plain(task))])
        && p.queue == old(p.queue) && p.count == old(p.count)
      ensures forall i | 0 <= i < |pool| && i != roundRobinNextThread % |pool| :: unchanged(pool[i])
    {
      hide Reachable, TimerCalled, Pick, Bump;
      var pipeline := GetAnyPipeline();
      answer := pipeline.PostWithTimer(t, task);
    }

    /** The queue that Close leaves a pipeline with. */
    ghost function Announced(i: nat): seq<Handler>
      requires i < |pool|
      reads this, pool[i]
    {
      if pool[i].closing then pool[i].queue else pool[i].queue + [Marker]
    }

    /** The worker of pipeline i gets stuck if the pipeline is closing. */
    ghost predicate Dooms(i: nat)
      requires i < |pool|
      reads this, pool[i]
    {
      DoomedNow(pool[i].Now())
    }

    method CloseOne(n: nat, t: nat)
      requires Valid() && n < |pool| && forall i | 0 <= i < |pool| :: pool[i].Idles(t)
      modifies pool[n]
      ensures Valid() && forall i | 0 <= i < |pool| :: pool[i].Idles(t)
      ensures forall i | 0 <= i < |pool| && i != n :: pool[i] != pool[n]
      ensures pool[n].closing && pool[n].queue == old(Announced(n)) && Dooms(n) == old(Dooms(n))
    {
      hide Exec, Reachable, Pipeline.Now, DoomedNow, CloseAlone;
      CloseKeepsFate(pool[n].Now());
      pool[n].Close(t);
    }

    /** The loop of Close. */
    method CloseAll(t: nat)
      requires Valid() && forall i | 0 <= i < |pool| :: pool[i].Idles(t)
      modifies pool
      ensures Valid() && forall i | 0 <= i < |pool| :: pool[i].Idles(t)
      ensures forall i | 0 <= i < |pool| :: pool[i].closing && pool[i].queue == old(Announced(i))
      ensures forall i | 0 <= i < |pool| :: Dooms(i) == old(Dooms(i))
    {
      hide Valid, Pipeline.Idles, DoomedNow, Pipeline.Now;
      for n := 0 to |pool|
        invariant Valid() && forall i | 0 <= i < |pool| :: pool[i].Idles(t)
        invariant forall i | 0 <= i < n :: pool[i].closing && pool[i].queue == old(Announced(i))
        invariant forall i | n <= i < |pool| :: Announced(i) == old(Announced(i))
        invariant forall i | 0 <= i < |pool| :: Dooms(i) == old(Dooms(i))
      {
        CloseOne(n, t);
      }
    }

    /** Every pipeline is closed, once; a pool that is closed is left alone. */
    method Close(t: nat)
      requires Valid() && forall i | 0 <= i < |pool| :: pool[i].Idles(t)
      modifies this`closed, pool
      ensures Valid() && pool == old(pool) && closed
      ensures forall i | 0 <= i < |pool| ::
                pool[i].closing && pool[i].queue == old(Announced(i)) && pool[i].Idles(t)
      ensures forall i | 0 <= i < |pool| :: Dooms(i) == old(Dooms(i))
    {
      hide Pipeline.Idles, Pipeline.Now, Pipeline.Valid, DoomedNow;
      if closed {
        return;
      }
      CloseAll(t);
      closed := true;
    }

    method JoinOne(n: nat) returns (ended: bool)
      requires Valid() && closed && !finished && n < |pool|
      modifies pool[n]
      ensures Valid() && (ended <==> pool[n].worker.Exited?) && (ended <==> !old(Dooms(n)))
      ensures forall i | 0 <= i < |pool| && i != n :: pool[i] != pool[n]
    {
      hide Exec, Reachable, Stuck, Dequeued, FirstMarkerAt, Pipeline.Now, DoomedNow;
      ghost var turns;
      ended, turns := pool[n].WaitUntilClosed();
    }

    /** JoinAll of a closed pool while the workers run and no one else does: it returns, with
        finished_ set and every worker ended, if and only if no pipeline is doomed when it is
        called. A pool that has been joined is left alone. */
    method JoinAll() returns (done: bool)
      requires Valid() && closed
      modifies this`finished, pool
      ensures Valid() && pool == old(pool) && (done <==> finished)
      ensures done <==> forall i | 0 <= i < |pool| :: !old(Dooms(i))
      ensures old(finished) ==> forall i | 0 <= i < |pool| :: unchanged(pool[i])
      ensures done ==> forall i | 0 <= i < |pool| :: pool[i].worker.Exited?
    {
      if finished {
        ExitedIsNotDoomed();
        return true;
      }
      hide Pipeline.Valid, Pipeline.Now, DoomedNow;
      done := WaitForAll();
      finished := done;
    }

    lemma ExitedIsNotDoomed()
      requires Valid() && finished
      ensures forall i | 0 <= i < |pool| :: !Dooms(i)
    {
      forall i | 0 <= i < |pool|
        ensures !Dooms(i)
      {
        InvHere(pool[i].Now());
        StuckIsDoomed(pool[i].Now(), Ticked(pool[i].count, Up) <= pool[i].capacity);
        hide Doomed, Ticked, Reachable;
      }
    }

    /** The loop of JoinAll. */
    method WaitForAll() returns (done: bool)
      requires Valid() && closed && !finished
      modifies pool
      ensures Valid() && (done <==> forall i | 0 <= i < |pool| :: !old(Dooms(i)))
      ensures done ==> forall i | 0 <= i < |pool| :: pool[i].worker.Exited?
    {
      hide Valid, Pipeline.Now, DoomedNow;
      for n := 0 to |pool|
        invariant Valid() && forall i | 0 <= i < n :: pool[i].worker.Exited? && !old(Dooms(i))
        invariant forall i | n <= i < |pool| :: Dooms(i) == old(Dooms(i))
      {
        var ended := JoinOne(n);
        if !ended {
          return false;
        }
      }
      return true;
    }

    /** The destructor: Close, then JoinAll. It ends exactly when no body that is open when it
        is called dooms its worker. */
    method Destroy(t: nat) returns (done: bool)
      requires Valid() && forall i | 0 <= i < |pool| :: pool[i].Idles(t)
      modifies this`closed, this`finished, pool
      ensures Valid() && closed && (done <==> finished)
      ensures done <==> forall i | 0 <= i < |pool| :: !old(Dooms(i))
      ensures done ==> forall i | 0 <= i < |pool| :: pool[i].worker.Exited?
    {
      hide Pipeline.Valid, Pipeline.Now, DoomedNow, Valid;
      Close(t);
      done := JoinAll();
    }
  }

  /** Closing does not change what the open bodies go on to do. */
  lemma CloseKeepsFate(s: State)
    ensures DoomedNow(CloseAlone(s)) == DoomedNow(s)
  {
    hide DoomedAt, Ticked;
  }
}
