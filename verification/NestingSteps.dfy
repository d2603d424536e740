/** Bodies nest like brackets: `Nesting` is kept by each kind of step. */
module NestingSteps {
  import opened Tasks
  import opened Machine
  import opened Invariant
  import opened LedgerSteps

  lemma OpenUnwind(stack: Stack, threw: bool)
    requires stack.Frames?
    ensures OpenFrames(Unwind(stack, threw)) == OpenFrames(stack.below)
  {
  }

  lemma OutermostOpen(stack: Stack)
    requires StackOk(stack) && stack.Frames? && !stack.top.Begun()
    ensures OpenFrames(stack) == Start <==> stack.below.Empty?
  {
  }

  lemma StaysNesting(s: State)
    requires Control(s) && s.stack.Frames? && Nesting(s)
    requires ExecEffect(s.stack.top, s.closing, |s.book.jobs|).Stay?
    ensures Nesting(Stays(s, ExecEffect(s.stack.top, s.closing, |s.book.jobs|)))
  {
    var e := ExecEffect(s.stack.top, s.closing, |s.book.jobs|);
    if e.began {
      OutermostOpen(s.stack);
      assert s.stack.top.via.FromQueue? <==> s.stack.below.Empty?;
    }
    assert OpenFrames(SetPhase(s.stack, e.phase))
        == if e.began then Add(OpenFrames(s.stack), s.stack.top.job.id) else OpenFrames(s.stack);
    hide Ticked;
  }

  lemma OverNesting(s: State, fate: Fate, threw: bool)
    requires s.stack.Frames? && s.calls != [] && Nesting(s) && OverOk(s.stack.top, fate)
    ensures Nesting(IsOver(s, fate, threw))
  {
    OpenUnwind(s.stack, threw);
    hide Unwind;
  }
}
