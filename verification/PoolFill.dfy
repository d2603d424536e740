/** How many tasks a thread pool takes before it refuses one. */
module PoolFill {
  import opened Tasks
  import opened Machine
  import opened RoundRobin
  import opened AccountSteps
  import opened Alone
  import opened Pool

  // ----- one post without interference -----

  /** Post on the pipeline whose turn it is. */
  function PostToNext(s: Pool, task: Task): Pool
    requires s.pipes != []
  {
    var i := Pick(s.next, |s.pipes|);
    s.(pipes := s.pipes[i := PostAlone(s.pipes[i], task)], next := Bump(s.next))
  }

  function Steps5(s: Pool, t: nat, task: Task): Pool {
    var s1 := PoolNext(s, CallPost(t, task));
    PoolNext(PoolNext(PoolNext(PoolNext(s1, Go(t)), Go(t)), Go(t)), Go(t))
  }

  /** Client t is inside Post of pipeline i, which is in state q. */
  function Posting(s: Pool, t: nat, i: nat, q: State): Pool
    requires i < |s.pipes| && t < |s.threads|
  {
    SetThread(s, t, PostIn(i)).(pipes := s.pipes[i := q], next := Bump(s.next))
  }

  lemma PostingGoes(s: Pool, t: nat, i: nat, q: State)
    requires i < |s.pipes| && t < |s.threads| && t < |q.calls|
    ensures !q.calls[t].Idle? ==>
      PoolNext(Posting(s, t, i, q), Go(t)) == Posting(s, t, i, Next(q, Step(t)))
    ensures q.calls[t].Idle? && s.threads[t].Away? ==>
      PoolNext(Posting(s, t, i, q), Go(t)) == s.(pipes := s.pipes[i := q], next := Bump(s.next))
  {
    var s1 := Posting(s, t, i, q);
    assert s1.pipes[i := Next(q, Step(t))] == s.pipes[i := Next(q, Step(t))];
    assert s1.threads[t := s.threads[t]] == s.threads;
    hide Next;
  }

  /** One uninterrupted post to the pool is one uninterrupted post to one pipeline. */
  lemma PostToNextRuns(s: Pool, t: nat, task: Task)
    requires s.pipes != [] && Nowhere(s, t) && Free(s.pipes[Pick(s.next, |s.pipes|)], t)
    ensures Steps5(s, t, task) == PostToNext(s, task)
  {
    var i := Pick(s.next, |s.pipes|);
    var q, job := s.pipes[i], Job(|s.pipes[i].book.jobs|, Plain(task));
    FourSteps(q, t, Post(task));
    PostAloneRuns(q, t, task);
    PostBegins(q, t, task);
    var q1 := Next(q, Begin(t, Post(task)));
    assert PoolNext(s, CallPost(t, task)) == Posting(s, t, i, q1);
    PostingGoes(s, t, i, q1);
    hide Next, PoolNext, Exec, PostAlone, Posting;
    if q.closing {
      FirstCheck(q1, t, job);
      IdleStays(Next(q1, Step(t)), t);
      PostingGoes(s, t, i, Next(q1, Step(t)));
      AwayStays(PostToNext(s, task), t);
    } else {
      Checks(q1, t, job);
      var q2 := Next(q1, Step(t));
      PostingGoes(s, t, i, q2);
      Reserves(q2, t, job);
      var q3 := Next(q2, Step(t));
      PostingGoes(s, t, i, q3);
      LeavesPost(q3, t, job);
      PostingGoes(s, t, i, Next(q3, Step(t)));
    }
  }

  lemma FirstCheck(q: State, t: nat, job: Job)
    requires 0 < t < |q.calls| && q.calls[t] == PostCheck(job) && q.closing && !job.work.Sync?
    ensures |Next(q, Step(t)).calls| == |q.calls| && Next(q, Step(t)).calls[t].Idle?
  {
    ClientStep(q, t);
    hide Next, Resume;
  }

  lemma LeavesPost(q: State, t: nat, job: Job)
    requires 0 < t < |q.calls| && (q.calls[t] == PostRollback(job) || q.calls[t] == PostEnqueue(job))
    requires job.work.Plain?
    ensures |Next(q, Step(t)).calls| == |q.calls| && Next(q, Step(t)).calls[t].Idle?
  {
    ClientStep(q, t);
    hide Next, Resume;
  }

  lemma AwayStays(s: Pool, t: nat)
    requires t < |s.threads| && s.threads[t].Away?
    ensures PoolNext(s, Go(t)) == s
  {
  }

  // ----- a row of posts -----

  /** One client posts `tasks` in turn while the workers are idle. */
  function PostAll(s: Pool, tasks: seq<Task>): Pool
    requires s.pipes != []
    ensures |PostAll(s, tasks).pipes| == |s.pipes|
  {
    if tasks == [] then s else PostToNext(PostAll(s, tasks[..|tasks| - 1]), tasks[|tasks| - 1])
  }

  /** Every pipeline is open, empty and of capacity m. */
  predicate Vacant(s: Pool, m: nat) {
    && s.pipes != [] && s.next < UINT && m + 1 < SIZE_T
    && forall p | 0 <= p < |s.pipes| ::
         !s.pipes[p].closing && s.pipes[p].count == 0 && s.pipes[p].queue == []
         && s.pipes[p].capacity == m
  }

  function Least(a: nat, b: nat): nat {
    if a < b then a else b
  }

  /** The state of a pipeline that took the first of `hits` tasks, as many as fit. */
  predicate Filled(q: State, m: nat, hits: nat) {
    !q.closing && q.capacity == m && q.count == Least(m, hits) && |q.queue| == Least(m, hits)
  }

  lemma OneMoreFits(q: State, m: nat, hits: nat, task: Task)
    requires Filled(q, m, hits) && m + 1 < SIZE_T
    ensures Filled(PostAlone(q, task), m, hits + 1)
  {
    hide Ticked;
    TickedIs(q.count);
  }

  lemma {:induction false} Filling(s: Pool, tasks: seq<Task>, m: nat)
    requires Vacant(s, m)
    ensures PostAll(s, tasks).next == CounterAfter(s.next, |tasks|)
    ensures forall p: nat | p < |s.pipes| ::
              Filled(PostAll(s, tasks).pipes[p], m, Hits(s.next, |tasks|, |s.pipes|, p))
  {
    if tasks != [] {
      var before, n := tasks[..|tasks| - 1], |tasks| - 1;
      Filling(s, before, m);
      var s1, c := PostAll(s, before), |s.pipes|;
      forall p: nat | p < c
        ensures Filled(PostAll(s, tasks).pipes[p], m, Hits(s.next, |tasks|, c, p))
      {
        OneMoreFits(s1.pipes[p], m, Hits(s.next, n, c, p), tasks[n]);
        assert Hits(s.next, n + 1, c, p)
            == Hits(s.next, n, c, p) + (if Pick(CounterAfter(s.next, n), c) == p then 1 else 0);
      }
    }
    hide Filled, PostAlone, Pick, Bump;
  }

  /** The next post to the pool is accepted. */
  predicate TakesNext(s: Pool)
    requires s.pipes != []
  {
    var q := s.pipes[Pick(s.next, |s.pipes|)];
    !q.closing && Ticked(q.count, Up) <= q.capacity
  }

  /** With counter value v at the start, post number i finds its pipeline full. */
  predicate Refuses(v: nat, i: nat, c: nat, m: nat)
    requires c > 0
  {
    Hits(v, i, c, Pick(CounterAfter(v, i), c)) >= m
  }

  lemma RefusedByHits(s: Pool, tasks: seq<Task>, m: nat)
    requires Vacant(s, m)
    ensures TakesNext(PostAll(s, tasks)) <==> !Refuses(s.next, |tasks|, |s.pipes|, m)
  {
    Filling(s, tasks, m);
    var s1 := PostAll(s, tasks);
    var p := Pick(s1.next, |s.pipes|);
    assert Filled(s1.pipes[p], m, Hits(s.next, |tasks|, |s.pipes|, p));
    TickedIs(s1.pipes[p].count);
    hide Pick, Hits, CounterAfter, PostAll, Ticked;
  }

  // ----- exact fill -----

  lemma CeilingHits(hits: nat, n: nat, c: nat, m: nat)
    requires c > 0 && n <= c * m && hits <= n / c + 1 && (n % c == 0 ==> hits == n / c)
    ensures hits <= m
  {
    if n == c * m {
      DivIs(n, c, m, 0);
    } else {
      MulOrder(m, n / c, c);
      assert n == (n / c) * c + n % c;
    }
  }

  lemma FloorHits(hits: nat, n: nat, c: nat, m: nat)
    requires c > 0 && n >= c * m && hits >= n / c
    ensures hits >= m
  {
    assert n == (n / c) * c + n % c;
    MulOrder(n / c + 1, m, c);
  }

  /** The spread of n calls is even: no wrap in them, or wraps do no harm. */
  lemma Spread(v: nat, n: nat, c: nat, r: nat)
    requires v < UINT && r < c && (v + n < UINT || UINT % c == 0)
    ensures n / c <= Hits(v, n, c, r) <= n / c + 1
    ensures n % c == 0 ==> Hits(v, n, c, r) == n / c
  {
    if v + n < UINT {
      StraightSpread(v, n, c, r);
    } else {
      DividingSpread(v, n, c, r);
    }
  }

  lemma RefusesFromFull(v: nat, i: nat, c: nat, m: nat)
    requires v < UINT && c > 0 && (v + i + 1 < UINT || UINT % c == 0)
    ensures Refuses(v, i, c, m) <==> i >= c * m
  {
    var r := Pick(CounterAfter(v, i), c);
    Spread(v, i, c, r);
    Spread(v, i + 1, c, r);
    assert Hits(v, i + 1, c, r) == Hits(v, i, c, r) + 1;
    if i < c * m {
      CeilingHits(Hits(v, i + 1, c, r), i + 1, c, m);
    } else {
      FloorHits(Hits(v, i, c, r), i, c, m);
    }
    hide Pick, Hits;
  }

  /** With c empty pipelines of capacity m and a single producer, from any counter value, the
      first c * m posts are accepted and every later one is refused, as long as the counter
      does not wrap or c divides 2^32. */
  lemma ExactFill(s: Pool, tasks: seq<Task>, m: nat)
    requires Vacant(s, m) && (s.next + |tasks| + 1 < UINT || UINT % |s.pipes| == 0)
    ensures TakesNext(PostAll(s, tasks)) <==> |tasks| < |s.pipes| * m
  {
    RefusedByHits(s, tasks, m);
    RefusesFromFull(s.next, |tasks|, |s.pipes|, m);
  }

  // ----- when the counter wraps -----

  lemma {:induction false} FindHit(v: nat, n: nat, c: nat, r: nat, k: nat) returns (i: nat)
    requires c > 0 && Hits(v, n, c, r) > k
    ensures i < n && Pick(CounterAfter(v, i), c) == r && Hits(v, i, c, r) == k
  {
    if Hits(v, n - 1, c, r) > k {
      i := FindHit(v, n - 1, c, r, k);
    } else {
      i := n - 1;
    }
  }

  /** Pipeline 0 has more than its share of the counter's values. */
  lemma FirstHasMore(c: nat)
    requires c > 0 && UINT % c != 0
    ensures c * Below(UINT, c, 0) > UINT
  {
    var x := UINT + (c - 1);
    assert x == (x / c) * c + x % c;
    if c * (x / c) <= UINT {
      assert (x / c) * c == UINT;
      DivIs(UINT, c, x / c, 0);
    }
  }

  lemma MoreTimes(c: nat, m: nat, b: nat)
    requires m > 0 && c * b > UINT
    ensures (c * m) * b > UINT * m
  {
    assert (c * m) * b == (c * b) * m;
    MulOrder(UINT + 1, c * b, m);
  }

  /** Within some c * m calls pipeline 0 is selected more than m times. */
  lemma OverfullWindow(c: nat, m: nat) returns (v: nat)
    requires c > 0 && m > 0 && UINT % c != 0
    ensures v < UINT && Hits(v, c * m, c, 0) > m
  {
    FirstHasMore(c);
    MoreTimes(c, m, Below(UINT, c, 0));
    Cycles(0, c * m, c, 0);
    assert UINT * (c * m) == (c * m) * UINT;
    v := FindWindow(0, c * m, UINT, c, 0, m);
  }

  ghost predicate FillsExactly(c: nat, m: nat)
    requires c > 0
  {
    forall v: nat, i: nat | v < UINT :: Refuses(v, i, c, m) <==> i >= c * m
  }

  /** From every counter value, wraps included, the pool fills exactly if and only if the
      number of pipelines divides 2^32. */
  lemma FillsExactlyWhen(c: nat, m: nat)
    requires c > 0 && m > 0
    ensures FillsExactly(c, m) <==> UINT % c == 0
  {
    if UINT % c == 0 {
      forall v: nat, i: nat | v < UINT
        ensures Refuses(v, i, c, m) <==> i >= c * m
      {
        RefusesFromFull(v, i, c, m);
      }
    } else {
      var v := OverfullWindow(c, m);
      var i := FindHit(v, c * m, c, 0, m);
      assert Refuses(v, i, c, m) && i < c * m;
    }
  }
}
