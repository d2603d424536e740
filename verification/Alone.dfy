/** Whole calls of a client that nobody interrupts. */
module Alone {
  import opened Tasks
  import opened Machine

  lemma Then(s: State, ls: seq<Label>, l: Label)
    ensures Exec(s, ls + [l]) == Next(Exec(s, ls), l)
  {
    assert (ls + [l])[..|ls + [l]| - 1] == ls;
  }

  /** A call made of at most three operations. */
  function Call3(t: nat, api: Api): seq<Label> {
    [Begin(t, api), Step(t), Step(t), Step(t)]
  }

  lemma FourSteps(s: State, t: nat, api: Api)
    ensures Exec(s, Call3(t, api))
         == Next(Next(Next(Next(s, Begin(t, api)), Step(t)), Step(t)), Step(t))
  {
    var a, b := Begin(t, api), Step(t);
    assert Exec(s, []) == s;
    hide Next, Exec;
    Then(s, [], a);
    assert [] + [a] == [a];
    Then(s, [a], b);
    assert [a] + [b] == [a, b];
    Then(s, [a, b], b);
    assert [a, b] + [b] == [a, b, b];
    Then(s, [a, b, b], b);
    assert [a, b, b] + [b] == Call3(t, api);
  }

  /** The submission of a call of Post, as the book records it. */
  function Submit(s: State, task: Task): State {
    s.(book := s.book.(jobs := s.book.jobs + [Plain(task)]))
  }

  /** `Post` without interference: dismissed when closing, refused when full, else queued. */
  function PostAlone(s: State, task: Task): State {
    var id := |s.book.jobs|;
    var s1 := Submit(s, task);
    if s.closing then
      s1.(book := s1.book.(ends := Add(s.book.ends, Ending(id, RefusedClosing))))
    else if Ticked(s.count, Up) > s.capacity then
      s1.(count := Ticked(Ticked(s.count, Up), Down),
          book := s1.book.(ends := Add(s.book.ends, Ending(id, RefusedCapacity))))
    else
      var h := Run(Job(id, Plain(task)), Posted);
      s1.(count := Ticked(s.count, Up),
          queue := s.queue + [h],
          book := s1.book.(hist := s.book.hist + [h]))
  }

  lemma ClientStep(s: State, t: nat)
    requires 0 < t < |s.calls|
    ensures Next(s, Step(t)) == if Blocked(s, t) then s else Perform(s, t, CallEffect(s, t))
  {
    hide WorkerStep, Perform, CallEffect, Blocked;
  }

  lemma PostBegins(s: State, t: nat, task: Task)
    requires Free(s, t)
    ensures Next(s, Begin(t, Post(task)))
         == Submit(s, task).(calls := s.calls[t := PostCheck(Job(|s.book.jobs|, Plain(task)))])
  {
    hide WorkerStep, Perform;
  }

  lemma PostAloneClosing(s: State, t: nat, task: Task)
    requires Free(s, t) && s.closing
    ensures Exec(s, Call3(t, Post(task))) == PostAlone(s, task)
  {
    FourSteps(s, t, Post(task));
    PostBegins(s, t, task);
    var s1 := Submit(s, task).(calls := s.calls[t := PostCheck(Job(|s.book.jobs|, Plain(task)))]);
    var s2 := PostAlone(s, task);
    ClientStep(s1, t);
    ClientStep(s2, t);
    assert s1.calls[t := Idle] == s.calls;
    hide Next, Exec, Resume;
  }

  lemma Checks(s: State, t: nat, job: Job)
    requires 0 < t < |s.calls| && s.calls[t] == PostCheck(job) && !s.closing
    ensures Next(s, Step(t)) == s.(calls := s.calls[t := PostReserve(job)])
  {
    ClientStep(s, t);
    hide Next, Resume;
  }

  lemma Reserves(s: State, t: nat, job: Job)
    requires 0 < t < |s.calls| && s.calls[t] == PostReserve(job)
    ensures Next(s, Step(t))
         == s.(count := Ticked(s.count, Up),
               calls := s.calls[t := if Ticked(s.count, Up) > s.capacity then PostRollback(job)
                                     else PostEnqueue(job)])
  {
    ClientStep(s, t);
    hide Next, Resume;
  }

  lemma RollsBack(s: State, t: nat, job: Job)
    requires 0 < t < |s.calls| && s.calls[t] == PostRollback(job)
    ensures Next(s, Step(t))
         == s.(count := Ticked(s.count, Down), calls := s.calls[t := Idle],
               book := s.book.(ends := Add(s.book.ends, Ending(job.id, RefusedCapacity))))
  {
    ClientStep(s, t);
    hide Next, Resume;
  }

  lemma Enqueues(s: State, t: nat, job: Job)
    requires 0 < t < |s.calls| && s.calls[t] == PostEnqueue(job) && job.work.Plain?
    ensures var h := Run(job, Posted);
      Next(s, Step(t)) == s.(queue := s.queue + [h], calls := s.calls[t := Idle],
                             book := s.book.(hist := s.book.hist + [h]))
  {
    ClientStep(s, t);
    hide Next, Resume;
  }

  lemma PostAloneOpen(s: State, t: nat, task: Task)
    requires Free(s, t) && !s.closing
    ensures Exec(s, Call3(t, Post(task))) == PostAlone(s, task)
  {
    hide Next, Exec, Ticked;
    FourSteps(s, t, Post(task));
    PostBegins(s, t, task);
    var job, s0 := Job(|s.book.jobs|, Plain(task)), Submit(s, task);
    var s1 := s0.(calls := s.calls[t := PostCheck(job)]);
    Checks(s1, t, job);
    var s2 := s0.(calls := s.calls[t := PostReserve(job)]);
    assert s1.calls[t := PostReserve(job)] == s2.calls;
    Reserves(s2, t, job);
    var c := if Ticked(s.count, Up) > s.capacity then PostRollback(job) else PostEnqueue(job);
    var s3 := s0.(count := Ticked(s.count, Up), calls := s.calls[t := c]);
    assert s2.calls[t := c] == s3.calls;
    assert s3.calls[t := Idle] == s.calls;
    if c.PostRollback? {
      RollsBack(s3, t, job);
    } else {
      Enqueues(s3, t, job);
    }
  }

  lemma PostAloneRuns(s: State, t: nat, task: Task)
    requires Free(s, t)
    ensures Exec(s, Call3(t, Post(task))) == PostAlone(s, task)
  {
    if s.closing {
      PostAloneClosing(s, t, task);
    } else {
      PostAloneOpen(s, t, task);
    }
    hide PostAlone, Exec;
  }

  lemma DispatchChecksOpen(s: State, t: nat, task: Task)
    requires Free(s, t)
    ensures var s1 := Next(Next(s, Begin(t, Dispatch(task))), Step(t));
      s1 == if s.closing then PostAlone(s, task) else Next(s, Begin(t, Post(task)))
  {
    PostBegins(s, t, task);
    var job := Job(|s.book.jobs|, Plain(task));
    var s1 := Submit(s, task).(calls := s.calls[t := DispatchCheck(job)]);
    assert Next(s, Begin(t, Dispatch(task))) == s1 by {
      hide WorkerStep, Perform;
    }
    ClientStep(s1, t);
    assert s1.calls[t := Idle] == s.calls;
    assert s1.calls[t := PostCheck(job)] == s.calls[t := PostCheck(job)];
    hide Next, Resume, Ticked;
  }

  /** From a thread other than the worker, Dispatch does what Post does. */
  lemma DispatchFromClient(s: State, t: nat, task: Task)
    requires Free(s, t)
    ensures Exec(s, [Begin(t, Dispatch(task)), Step(t)] + [Step(t), Step(t), Step(t)])
         == PostAlone(s, task)
  {
    assert PostAlone(s, task).calls == s.calls;
    hide Next, PostAlone;
    FiveSteps(s, t, Dispatch(task));
    hide Exec;
    DispatchChecksOpen(s, t, task);
    if s.closing {
      IdleStays(PostAlone(s, task), t);
    } else {
      FourSteps(s, t, Post(task));
      PostAloneRuns(s, t, task);
    }
  }

  lemma FiveSteps(s: State, t: nat, api: Api)
    ensures Exec(s, [Begin(t, api), Step(t)] + [Step(t), Step(t), Step(t)])
         == Next(Next(Next(Next(Next(s, Begin(t, api)), Step(t)), Step(t)), Step(t)), Step(t))
  {
    hide Next, Exec;
    var a, b := Begin(t, api), Step(t);
    FourSteps(s, t, api);
    Then(s, Call3(t, api), b);
    assert Call3(t, api) + [b] == [a, b] + [b, b, b];
  }

  lemma IdleStays(s: State, t: nat)
    requires 0 < t < |s.calls| && s.calls[t].Idle?
    ensures Next(s, Step(t)) == s
  {
    ClientStep(s, t);
    hide Next;
  }

  /** `Close` without interference. */
  function CloseAlone(s: State): State {
    if s.closing then s
    else s.(closing := true,
            queue := s.queue + [Marker],
            book := s.book.(hist := s.book.hist + [Marker]))
  }

  lemma CloseSteps(s: State, t: nat)
    requires 0 < t < |s.calls|
    ensures s.calls[t].CloseCheck? ==>
      Next(s, Step(t)) == s.(calls := s.calls[t := if s.closing then Idle else ClosePost])
    ensures s.calls[t].ClosePost? ==>
      Next(s, Step(t)) == s.(queue := s.queue + [Marker], calls := s.calls[t := CloseStore],
                             book := s.book.(hist := s.book.hist + [Marker]))
    ensures s.calls[t].CloseStore? ==>
      Next(s, Step(t)) == s.(closing := true, calls := s.calls[t := Idle])
    ensures s.calls[t].Idle? ==> Next(s, Step(t)) == s
  {
    ClientStep(s, t);
    hide Next, Resume;
  }

  lemma CloseBegins(s: State, t: nat)
    requires Free(s, t)
    ensures Next(s, Begin(t, Close)) == s.(calls := s.calls[t := CloseCheck])
  {
    hide WorkerStep, Perform;
  }

  lemma CloseAloneRuns(s: State, t: nat)
    requires Free(s, t)
    ensures Exec(s, Call3(t, Close)) == CloseAlone(s)
  {
    hide Next, Exec;
    FourSteps(s, t, Close);
    var s1 := s.(calls := s.calls[t := CloseCheck]);
    assert Next(s, Begin(t, Close)) == s1 by { CloseBegins(s, t); }
    CloseSteps(s1, t);
    if s.closing {
      assert s1.calls[t := Idle] == s.calls;
      CloseSteps(s, t);
    } else {
      var s2 := s.(calls := s.calls[t := ClosePost]);
      assert s1.calls[t := ClosePost] == s2.calls;
      CloseSteps(s2, t);
      var s3 := CloseAlone(s).(closing := false, calls := s.calls[t := CloseStore]);
      assert s2.calls[t := CloseStore] == s3.calls;
      CloseSteps(s3, t);
      assert s3.calls[t := Idle] == s.calls;
    }
  }

  /** The token overload of Post queues its task whatever closing_, count_ and the capacity
      say, and counts nothing. */
  function TokenAlone(s: State, task: Task): State {
    var h := Run(Job(|s.book.jobs|, Plain(task)), Token);
    s.(queue := s.queue + [h],
       book := s.book.(jobs := s.book.jobs + [Plain(task)], hist := s.book.hist + [h]))
  }

  lemma TokenAloneRuns(s: State, t: nat, task: Task)
    requires Free(s, t)
    ensures Next(Next(s, Begin(t, PostToken(task))), Step(t)) == TokenAlone(s, task)
  {
    var s1 := Submit(s, task).(calls := s.calls[t := TokenEnqueue(Job(|s.book.jobs|, Plain(task)))]);
    assert Next(s, Begin(t, PostToken(task))) == s1 by {
      hide WorkerStep, Perform;
    }
    ClientStep(s1, t);
    assert s1.calls[t := Idle] == s.calls;
    hide Next, Resume;
  }

  // ----- timers -----

  /** What a timer call hands to ExecTask_ when the timer expires. */
  predicate TimerCall(api: Api) {
    api.PostWithTimer? || api.PostTimerToken? || api.PostTimerLegacy?
  }

  /** The timer call of a client: its operations, and one more. */
  function TimerCalled(s: State, t: nat, api: Api): State {
    Next(Next(Next(s, Begin(t, api)), Step(t)), Step(t))
  }

  lemma TimerSteps(s: State, t: nat, job: Job)
    requires 0 < t < |s.calls|
    ensures s.calls[t] == TimerCheck(job) ==>
      Next(s, Step(t)) == if s.closing
        then s.(calls := s.calls[t := Idle], book := s.book.(ends := Add(s.book.ends, Ending(job.id, RefusedClosing))))
        else s.(calls := s.calls[t := TimerArm(job)])
    ensures s.calls[t] == TimerArm(job) ==>
      Next(s, Step(t)) == s.(calls := s.calls[t := Idle], armed := s.armed + [job])
    ensures s.calls[t].Idle? ==> Next(s, Step(t)) == s
  {
    ClientStep(s, t);
    hide Next, Resume;
  }

  lemma TimerBegins(s: State, t: nat, api: Api)
    requires Free(s, t) && TimerCall(api)
    ensures var work := if api.PostTimerLegacy? then Resuming(api.task) else Plain(api.task);
      var job := Job(|s.book.jobs|, work);
      Next(s, Begin(t, api))
        == s.(calls := s.calls[t := if api.PostTimerToken? then TimerArm(job) else TimerCheck(job)],
              book := s.book.(jobs := s.book.jobs + [work]))
  {
    hide WorkerStep, Perform;
  }

  /** PostWithTimer by a client that nobody interrupts arms one timer with its task and touches
      neither queue nor counter; unless the pipeline is closing, when the task is dismissed at
      once. The token overload arms it even then. */
  lemma TimerAloneRuns(s: State, t: nat, api: Api)
    requires Free(s, t) && TimerCall(api)
    ensures var s', id := TimerCalled(s, t, api), |s.book.jobs|;
      var work := if api.PostTimerLegacy? then Resuming(api.task) else Plain(api.task);
      var refused := s.closing && !api.PostTimerToken?;
      && s'.armed == (if refused then s.armed else s.armed + [Job(id, work)])
      && s'.book == s.book.(jobs := s.book.jobs + [work],
                            ends := if refused then Add(s.book.ends, Ending(id, RefusedClosing)) else s.book.ends)
      && s' == s.(armed := s'.armed, book := s'.book)
  {
    hide Next;
    var work := if api.PostTimerLegacy? then Resuming(api.task) else Plain(api.task);
    var job := Job(|s.book.jobs|, work);
    TimerBegins(s, t, api);
    var s1 := Next(s, Begin(t, api));
    TimerSteps(s1, t, job);
    var s2 := Next(s1, Step(t));
    TimerSteps(s2, t, job);
    assert s1.calls[t := Idle] == s.calls;
    assert s2.calls[t := Idle] == s.calls;
  }

  /** When that timer expires, its task is queued last, uncounted, and the timer is gone. */
  lemma TimerExpires(s: State, t: nat, api: Api)
    requires Free(s, t) && TimerCall(api) && s.worker.Loop? && (s.closing ==> api.PostTimerToken?)
    ensures var s' := Next(TimerCalled(s, t, api), Expire(|s.armed|));
      var work := if api.PostTimerLegacy? then Resuming(api.task) else Plain(api.task);
      && s'.queue == s.queue + [Run(Job(|s.book.jobs|, work), Timer)]
      && s'.armed == s.armed && s'.count == s.count
  {
    TimerAloneRuns(s, t, api);
    hide TimerCalled, WorkerStep, CallStep;
  }
}
