/** One handler, from the moment the worker takes it until it takes the next one. */
module Execution {
  import opened Tasks
  import opened Machine
  import opened Invariant
  import opened Service
  import opened Safety

  /** The worker's next operation is one of the innermost activation. */
  lemma ExecutesNext(s: State)
    requires s.calls != [] && s.calls[0].Idle? && s.worker.Loop? && s.stack.Frames?
    ensures Next(s, Step(0)) == ExecStep(s)
  {
    ThreadNext(s, 0);
    LoopExecutes(s);
    hide Next, ExecStep;
  }

  /** ExecTask_ of a handler, up to its test of closing_. */
  lemma CountsDown(s: State)
    requires s.calls != [] && s.calls[0].Idle? && s.worker.Loop?
    requires s.stack.Frames? && s.stack.top.phase.Count?
    ensures var s' := Next(s, Step(0));
      && s'.stack == Frames(s.stack.top.(phase := Check), s.stack.below)
      && s'.count == Ticked(s.count, Down)
      && s' == s.(stack := s'.stack, count := s'.count,
                  book := s.book.(uncompensated := s'.book.uncompensated))
      && (s.stack.top.via == FromQueue(Posted) ==> s'.book == s.book)
  {
    ExecutesNext(s);
    hide Next, Ticked;
  }

  /** Closing: the handler is dismissed, and no body has begun. */
  lemma Dismisses(s: State)
    requires s.calls != [] && s.calls[0].Idle? && s.worker.Loop? && s.closing
    requires s.stack.Frames? && s.stack.below.Empty? && s.stack.top.phase.Check?
    ensures var s' := Next(s, Step(0));
      && s'.stack.Empty? && s'.calls == s.calls && s'.worker.Loop? && s'.count == s.count
      && s'.tasksRun == s.tasksRun && s'.queue == s.queue && s'.promises == s.promises
      && s'.book == s.book.(ends := Add(s.book.ends, Ending(s.stack.top.job.id, Dismissed)),
                            dropped := s.book.dropped + Served(s.stack.top))
  {
    ExecutesNext(s);
    assert s.calls[0 := Idle] == s.calls;
    hide Next;
  }

  /** Open: the test is passed, and the body begins. */
  lemma Begins(s: State)
    requires s.calls != [] && s.calls[0].Idle? && s.worker.Loop? && !s.closing
    requires s.stack.Frames? && s.stack.below.Empty? && s.stack.top.phase.Check?
    ensures var s1 := Next(s, Step(0)); var s' := Next(s1, Step(0));
      && s1.stack.Frames? && s1.calls == s.calls
      && s'.stack.Frames? && Pending(s'.stack) == [] && s'.calls == s.calls && s'.worker.Loop?
      && s'.stopped == s.stopped && s'.queue == s.queue
      && s'.book.ran == s.book.ran + Served(s.stack.top) && s'.book.dropped == s.book.dropped
  {
    ExecutesNext(s);
    var s1 := s.(stack := SetPhase(s.stack, Passed));
    assert ExecStep(s) == s1;
    ExecutesNext(s1);
    hide Next, Ticked;
  }

  /** Once the body of the handler has begun, neither it nor what it dispatches adds to the
      handlers that ran or were dismissed. */
  lemma OpenedKeeps(s: State)
    requires Control(s) && s.worker.Loop? && s.stack.Frames? && Pending(s.stack) == []
    ensures var s' := Next(s, Step(0));
      && s'.book.ran == s.book.ran && s'.book.dropped == s.book.dropped && Pending(s'.stack) == []
  {
    ThreadNext(s, 0);
    LoopExecutes(s);
    hide Next, WorkerStep, CallStep, ExecStep, Control, Pending;
    assert s.calls != [];
    if s.calls[0].Idle? {
    } else {
    }
  }
}
