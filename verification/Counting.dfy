/** Counting things that are spread over the threads, the queue, the worker's stack and
    the armed timers. */
module Counting {
  import opened Tasks
  import opened Machine

  function Total<T>(s: seq<T>, f: T -> nat): nat {
    if s == [] then 0 else Total(s[..|s| - 1], f) + f(s[|s| - 1])
  }

  function TotalLog<T>(l: Log<T>, f: T -> nat): nat {
    match l
    case Start => 0
    case Add(earlier, x) => TotalLog(earlier, f) + f(x)
  }

  function TotalStack(stack: Stack, f: Frame -> nat): nat {
    match stack
    case Empty => 0
    case Frames(top, below) => f(top) + TotalStack(below, f)
  }

  lemma {:induction false} TotalConcat<T>(a: seq<T>, b: seq<T>, f: T -> nat)
    ensures Total(a + b, f) == Total(a, f) + Total(b, f)
  {
    if b == [] {
      assert a + b == a;
    } else {
      assert (a + b)[..|a + b| - 1] == a + b[..|b| - 1];
      TotalConcat(a, b[..|b| - 1], f);
    }
  }

  lemma TotalSplit<T>(s: seq<T>, i: nat, f: T -> nat)
    requires i < |s|
    ensures Total(s, f) == Total(s[..i], f) + f(s[i]) + Total(s[i + 1..], f)
  {
    assert s == s[..i + 1] + s[i + 1..];
    TotalConcat(s[..i + 1], s[i + 1..], f);
    assert s[..i + 1][..i] == s[..i];
  }

  lemma TotalWithout<T>(s: seq<T>, i: nat, f: T -> nat)
    requires i < |s|
    ensures Total(s[..i] + s[i + 1..], f) == Total(s, f) - f(s[i])
  {
    TotalSplit(s, i, f);
    TotalConcat(s[..i], s[i + 1..], f);
  }

  lemma TotalSet<T>(s: seq<T>, i: nat, x: T, f: T -> nat)
    requires i < |s|
    ensures Total(s[i := x], f) == Total(s, f) - f(s[i]) + f(x)
  {
    TotalSplit(s, i, f);
    TotalSplit(s[i := x], i, f);
    assert s[i := x][..i] == s[..i] && s[i := x][i + 1..] == s[i + 1..];
  }

  lemma TotalAtLeast<T>(s: seq<T>, i: nat, f: T -> nat)
    requires i < |s|
    ensures f(s[i]) <= Total(s, f)
  {
    TotalSplit(s, i, f);
  }

  lemma TotalTail<T>(s: seq<T>, f: T -> nat)
    requires s != []
    ensures Total(s[1..], f) == Total(s, f) - f(s[0])
  {
    TotalSplit(s, 0, f);
    assert s[..0] == [];
  }

  lemma {:induction false} TotalBound<T>(s: seq<T>, f: T -> nat)
    requires forall i | 0 <= i < |s| :: f(s[i]) <= 1
    ensures Total(s, f) <= |s|
  {
    if s != [] {
      TotalBound(s[..|s| - 1], f);
    }
  }

  lemma {:induction false} TotalPositive<T>(s: seq<T>, f: T -> nat) returns (i: nat)
    requires Total(s, f) > 0
    ensures i < |s| && f(s[i]) > 0
  {
    if f(s[|s| - 1]) > 0 {
      i := |s| - 1;
    } else {
      i := TotalPositive(s[..|s| - 1], f);
    }
  }

  /** What each place contributes. */
  datatype Weights = Weights(
    call: Call -> nat, handler: Handler -> nat, frame: Frame -> nat, timer: Job -> nat)

  function Mass(s: State, w: Weights): nat {
    Total(s.calls, w.call) + Total(s.queue, w.handler)
    + TotalStack(s.stack, w.frame) + Total(s.armed, w.timer)
  }
}
