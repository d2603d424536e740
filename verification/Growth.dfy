/** What no step takes back: the book only grows, closing_ is never cleared, and the
    capacity and the number of threads are fixed. */
module Growth {
  import opened Tasks
  import opened Machine
  import opened Counting

  predicate LogGrows<T(==)>(a: Log<T>, b: Log<T>) {
    b == a || (b.Add? && b.earlier == a)
  }

  predicate Grows(s: State, s': State) {
    && (s.closing ==> s'.closing)
    && s.book.hist <= s'.book.hist
    && s.book.jobs <= s'.book.jobs
    && LogGrows(s.book.ends, s'.book.ends)
    && s'.capacity == s.capacity
    && |s'.calls| == |s.calls|
  }

  lemma EnterGrows(s: State, t: nat, api: Api)
    requires t < |s.calls|
    ensures Grows(s, Enter(s, t, api))
  {
  }

  lemma StaysGrows(s: State, e: FrameEffect)
    requires s.stack.Frames? && e.Stay?
    ensures Grows(s, Stays(s, e))
  {
  }

  lemma OverGrows(s: State, fate: Fate, threw: bool)
    requires s.stack.Frames? && s.calls != []
    ensures Grows(s, IsOver(s, fate, threw))
  {
  }

  lemma ExecGrows(s: State)
    requires s.stack.Frames? && s.calls != []
    ensures Grows(s, ExecStep(s))
  {
    hide Grows, ExecEffect, Stays, Enter, IsOver;
    match ExecEffect(s.stack.top, s.closing, |s.book.jobs|)
    case Stay(_, _, _, _, _) => StaysGrows(s, ExecEffect(s.stack.top, s.closing, |s.book.jobs|));
    case Call(api) => EnterGrows(s, 0, api);
    case Over(fate, threw) => OverGrows(s, fate, threw);
    case Still => SelfGrows(s);
  }

  lemma SelfGrows(s: State)
    ensures Grows(s, s)
  {
  }

  lemma WorkerGrows(s: State)
    requires s.calls != []
    ensures Grows(s, WorkerStep(s))
  {
    hide ExecStep;
    match s.worker
    case Loop => if s.stack.Frames? { ExecGrows(s); }
    case Spawned => case Locked => case Shut => case Stopping => case Leaving =>
    case Exited => case Failed => case Escaped =>
  }

  lemma StepGrows(s: State, l: Label)
    requires s.calls != []
    ensures Grows(s, Next(s, l))
  {
    SelfGrows(s);
    match l {
      case Begin(t, api) =>
        if Free(s, t) {
          EnterGrows(s, t, api);
        }
      case BeginJoin(_) =>
      case Step(t) =>
        if t < |s.calls| {
          WorkerGrows(s);
          if !Blocked(s, t) {
          }
        }
      case Expire(_) =>
      case StartFails =>
    }
    hide WorkerStep, Perform, Enter, Blocked, CallEffect;
  }

  lemma {:induction false} RunGrows(s: State, ls: seq<Label>)
    requires s.calls != []
    ensures |Exec(s, ls).calls| == |s.calls| && Exec(s, ls).capacity == s.capacity
    ensures s.closing ==> Exec(s, ls).closing
    ensures s.book.hist <= Exec(s, ls).book.hist && s.book.jobs <= Exec(s, ls).book.jobs
  {
    if ls != [] {
      RunGrows(s, ls[..|ls| - 1]);
      StepGrows(Exec(s, ls[..|ls| - 1]), ls[|ls| - 1]);
    }
  }

  /** What has ended has ended for good. */
  lemma {:induction false} EndsGrow(s: State, ls: seq<Label>, f: Ending -> nat)
    requires s.calls != []
    ensures TotalLog(s.book.ends, f) <= TotalLog(Exec(s, ls).book.ends, f)
  {
    if ls != [] {
      EndsGrow(s, ls[..|ls| - 1], f);
      RunGrows(s, ls[..|ls| - 1]);
      StepGrows(Exec(s, ls[..|ls| - 1]), ls[|ls| - 1]);
    }
  }
}
