/** `war::Transaction`: undo operations that run, last added first, unless it is committed. */
module TransactionRollback {

  /** The state that steps and their undo operations act on. */
  class World<S> {
    var value: S

    constructor (value: S)
      ensures this.value == value
    {
      this.value := value;
    }
  }

  class Transaction<S> {
    var undoers: seq<S -> S>
    var committed: bool

    constructor ()
      ensures undoers == [] && !committed
    {
      undoers, committed := [], false;
    }

    method Commit()
      modifies this`committed
      ensures committed
    {
      committed := true;
    }

    method AddUndo(undo: S -> S)
      modifies this`undoers
      ensures undoers == [undo] + old(undoers)
    {
      undoers := [undo] + undoers;
    }

    /** The destructor. */
    method Destroy(world: World<S>)
      modifies world
      ensures world.value == if committed then old(world.value) else Undo(undoers, old(world.value))
    {
      if !committed {
        for i := 0 to |undoers|
          invariant Undo(undoers[i..], world.value) == Undo(undoers, old(world.value))
        {
          assert undoers[i..][1..] == undoers[i + 1..];
          world.value := undoers[i](world.value);
        }
      }
    }
  }

  function Undo<S>(undoers: seq<S -> S>, s: S): S {
    if undoers == [] then s else Undo(undoers[1..], undoers[0](s))
  }

  // ----- steps with inverses -----

  datatype Change<!S> = Change(perform: S -> S, undo: S -> S)

  function Perform<S>(changes: seq<Change<S>>, s: S): S {
    if changes == [] then s
    else changes[|changes| - 1].perform(Perform(changes[..|changes| - 1], s))
  }

  /** What AddUndo builds up when it is called after each change. */
  function Undoers<S>(changes: seq<Change<S>>): seq<S -> S> {
    if changes == [] then []
    else [changes[|changes| - 1].undo] + Undoers(changes[..|changes| - 1])
  }

  /** Each undo operation takes back its change in the state in which the change is made. */
  predicate Undoable<S(==)>(changes: seq<Change<S>>, s: S) {
    changes == [] ||
    (Undoable(changes[..|changes| - 1], s)
     && var before := Perform(changes[..|changes| - 1], s);
        var last := changes[|changes| - 1];
        last.undo(last.perform(before)) == before)
  }

  /** Undoing in the reverse order restores the state from which the changes were made. */
  lemma {:induction false} Rollback<S>(changes: seq<Change<S>>, s: S)
    requires Undoable(changes, s)
    ensures Undo(Undoers(changes), Perform(changes, s)) == s
  {
    if changes != [] {
      var before, last := changes[..|changes| - 1], changes[|changes| - 1];
      Rollback(before, s);
      assert Undoers(changes)[1..] == Undoers(before);
    }
  }

  lemma {:induction false} PrefixUndoable<S>(changes: seq<Change<S>>, s: S, k: nat)
    requires Undoable(changes, s) && k <= |changes|
    ensures Undoable(changes[..k], s)
    decreases |changes|
  {
    if k == |changes| {
      assert changes[..k] == changes;
    } else {
      PrefixUndoable(changes[..|changes| - 1], s, k);
      assert changes[..|changes| - 1][..k] == changes[..k];
    }
  }

  /** A block that makes changes one by one and commits at its end, left early by an
      exception after k of them: all or nothing. */
  method Attempt<S>(world: World<S>, changes: seq<Change<S>>, k: nat)
    requires k <= |changes| && Undoable(changes, world.value)
    modifies world
    ensures world.value ==
      if k == |changes| then Perform(changes, old(world.value)) else old(world.value)
  {
    var transaction := new Transaction<S>();
    ghost var s := world.value;
    for i := 0 to k
      invariant world.value == Perform(changes[..i], s)
      invariant transaction.undoers == Undoers(changes[..i]) && !transaction.committed
    {
      assert changes[..i + 1][..i] == changes[..i];
      world.value := changes[i].perform(world.value);
      transaction.AddUndo(changes[i].undo);
    }
    if k == |changes| {
      transaction.Commit();
      assert changes[..k] == changes;
    } else {
      PrefixUndoable(changes, s, k);
      Rollback(changes[..k], s);
    }
    transaction.Destroy(world);
  }
}
