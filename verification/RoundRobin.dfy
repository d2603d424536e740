/** `Threadpool::GetAnyPipeline` selects `++round_robin_next_thread_ % capacity_`, with a
    32-bit counter. How evenly that spreads over the pipelines. */
module RoundRobin {

  /** Arithmetic on `unsigned` wraps here. */
  const UINT := 0x1_0000_0000

  /** The counter after one more call. */
  function Bump(v: nat): nat {
    (v + 1) % UINT
  }

  /** The pipeline that the call made with counter value v selects, among c. */
  function Pick(v: nat, c: nat): (i: nat)
    requires c > 0
    ensures i < c
  {
    Bump(v) % c
  }

  /** The counter after n calls. */
  function CounterAfter(v: nat, n: nat): nat {
    if n == 0 then v else Bump(CounterAfter(v, n - 1))
  }

  /** How many of the next n calls select pipeline r. */
  function Hits(v: nat, n: nat, c: nat, r: nat): nat
    requires c > 0
  {
    if n == 0 then 0
    else Hits(v, n - 1, c, r) + (if Pick(CounterAfter(v, n - 1), c) == r then 1 else 0)
  }

  // ----- counting a residue in a range of integers -----

  lemma MulOrder(a: nat, b: nat, c: nat)
    ensures a <= b ==> a * c <= b * c
  {
  }

  lemma DivIs(x: nat, c: nat, q: nat, s: nat)
    requires c > 0 && x == q * c + s && s < c
    ensures x / c == q && x % c == s
  {
    var d := x / c;
    assert d * c + x % c == x;
    MulOrder(d + 1, q, c);
    MulOrder(q + 1, d, c);
  }

  /** The integers in [0, x) that are congruent to r modulo c. */
  function Below(x: nat, c: nat, r: nat): nat
    requires r < c
  {
    (x + (c - 1 - r)) / c
  }

  lemma SumIs(y: nat, n: nat, c: nat, q: nat, s: nat, q': nat, s': nat)
    requires y == q * c + s && n == q' * c + s' && s < c && s' < c
    ensures (y + n) / c == q + q' + (if s + s' < c then 0 else 1)
  {
    var k := if s + s' < c then 0 else 1;
    assert (q + q' + k) * c == q * c + q' * c + k * c;
    DivIs(y + n, c, q + q' + k, s + s' - k * c);
  }

  lemma BelowStep(x: nat, c: nat, r: nat)
    requires r < c
    ensures Below(x + 1, c, r) == Below(x, c, r) + (if x % c == r then 1 else 0)
  {
    BelowStepAt(x, c, r, x / c, x % c);
  }

  lemma BelowStepAt(x: nat, c: nat, r: nat, q: nat, s: nat)
    requires r < c && x == q * c + s && s < c
    ensures Below(x + 1, c, r) == Below(x, c, r) + (if s == r then 1 else 0)
  {
    SumIs(x, c - 1 - r, c, q, s, 0, c - 1 - r);
    SumIs(x, c - r, c, q, s, if r == 0 then 1 else 0, if r == 0 then 0 else c - r);
    assert x + 1 + (c - 1 - r) == x + (c - r);
  }

  lemma QuotientOfSum(y: nat, n: nat, c: nat)
    requires c > 0
    ensures (y + n) / c == y / c + n / c + (if y % c + n % c < c then 0 else 1)
  {
    SumIs(y, n, c, y / c, y % c, n / c, n % c);
  }

  /** Any n consecutive integers hit a residue n / c times, rounded down or up. */
  lemma BelowSpread(x: nat, n: nat, c: nat, r: nat)
    requires r < c
    ensures var hits := Below(x + n, c, r) - Below(x, c, r);
      n / c <= hits <= n / c + 1 && (n % c == 0 ==> hits == n / c)
  {
    QuotientOfSum(x + (c - 1 - r), n, c);
    assert x + n + (c - 1 - r) == x + (c - 1 - r) + n;
  }

  // ----- stretches without a wrap -----

  lemma {:induction false} AfterStraight(v: nat, n: nat)
    requires v + n < UINT
    ensures CounterAfter(v, n) == v + n
  {
    if n > 0 {
      AfterStraight(v, n - 1);
    }
  }

  lemma {:induction false} HitsStraight(v: nat, n: nat, c: nat, r: nat)
    requires r < c && v + n < UINT
    ensures Hits(v, n, c, r) == Below(v + 1 + n, c, r) - Below(v + 1, c, r)
  {
    if n > 0 {
      HitsStraight(v, n - 1, c, r);
      AfterStraight(v, n);
      BelowStep(v + n, c, r);
      hide Below, Bump;
    }
  }

  /** Without a wrap of the counter, n calls select each pipeline n / c times, rounded down
      or up; exactly so when c divides n. */
  lemma StraightSpread(v: nat, n: nat, c: nat, r: nat)
    requires r < c && v + n < UINT
    ensures n / c <= Hits(v, n, c, r) <= n / c + 1
    ensures n % c == 0 ==> Hits(v, n, c, r) == n / c
  {
    HitsStraight(v, n, c, r);
    BelowSpread(v + 1, n, c, r);
  }

  // ----- stretches with wraps -----

  lemma {:induction false} AfterConcat(v: nat, m: nat, n: nat)
    ensures CounterAfter(v, m + n) == CounterAfter(CounterAfter(v, m), n)
  {
    if n > 0 {
      AfterConcat(v, m, n - 1);
    }
  }

  lemma {:induction false} HitsConcat(v: nat, m: nat, n: nat, c: nat, r: nat)
    requires c > 0
    ensures Hits(v, m + n, c, r) == Hits(v, m, c, r) + Hits(CounterAfter(v, m), n, c, r)
  {
    if n > 0 {
      HitsConcat(v, m, n - 1, c, r);
      AfterConcat(v, m, n - 1);
    }
  }

  lemma BelowZero(c: nat, r: nat)
    requires r < c
    ensures Below(0, c, r) == 0
  {
    DivIs(c - 1 - r, c, 0, c - 1 - r);
  }

  lemma AfterTop(n: nat)
    requires 0 < n <= UINT
    ensures CounterAfter(UINT - 1, n) == n - 1
  {
    if n > 1 {
      AfterTop(n - 1);
    }
  }

  /** From the last value before a wrap, the calls are like those of a fresh start at 0. */
  lemma {:induction false} HitsFromTop(n: nat, c: nat, r: nat)
    requires r < c && n <= UINT
    ensures Hits(UINT - 1, n, c, r) == Below(n, c, r)
    ensures n > 0 ==> CounterAfter(UINT - 1, n) == n - 1
  {
    if n == 0 {
      BelowZero(c, r);
    } else {
      HitsFromTop(n - 1, c, r);
      BelowStep(n - 1, c, r);
      AfterTop(n);
      hide Below, Bump;
    }
  }

  lemma FromTopSpread(n: nat, c: nat, r: nat)
    requires r < c && n <= UINT
    ensures n / c <= Hits(UINT - 1, n, c, r) <= n / c + 1
  {
    HitsFromTop(n, c, r);
    BelowSpread(0, n, c, r);
    BelowZero(c, r);
  }

  /** Over any window of calls that crosses w wraps of the counter, the numbers of times two
      pipelines are selected differ by at most w + 1. */
  lemma {:induction false} Balance(v: nat, n: nat, c: nat, r: nat, r': nat)
    requires v < UINT && r < c && r' < c
    ensures Hits(v, n, c, r) <= Hits(v, n, c, r') + (v + n) / UINT + 1
    decreases n
  {
    if v + n < UINT {
      StraightSpread(v, n, c, r);
      StraightSpread(v, n, c, r');
      DivIs(v + n, UINT, 0, v + n);
    } else if v < UINT - 1 {
      var m := UINT - 1 - v;
      StraightSpread(v, m, c, r);
      StraightSpread(v, m, c, r');
      AfterStraight(v, m);
      HitsConcat(v, m, n - m, c, r);
      HitsConcat(v, m, n - m, c, r');
      FromTop(n - m, c, r, r');
    } else {
      FromTop(n, c, r, r');
    }
  }

  /** The same from the last value before a wrap: one unit less. */
  lemma {:induction false} FromTop(n: nat, c: nat, r: nat, r': nat)
    requires r < c && r' < c
    ensures Hits(UINT - 1, n, c, r) <= Hits(UINT - 1, n, c, r') + (UINT - 1 + n) / UINT
    decreases n
  {
    var first := if n < UINT then n else UINT;
    FromTopSpread(first, c, r);
    FromTopSpread(first, c, r');
    if n >= UINT {
      HitsFromTop(UINT, c, r);
      HitsConcat(UINT - 1, UINT, n - UINT, c, r);
      HitsConcat(UINT - 1, UINT, n - UINT, c, r');
      FromTop(n - UINT, c, r, r');
    }
  }

  // ----- whole cycles -----

  /** A full cycle of the counter meets every value once, wherever it starts. */
  lemma FullCycle(v: nat, c: nat, r: nat)
    requires v < UINT && r < c
    ensures Hits(v, UINT, c, r) == Below(UINT, c, r) && CounterAfter(v, UINT) == v
  {
    var m := UINT - 1 - v;
    HitsStraight(v, m, c, r);
    AfterStraight(v, m);
    HitsFromTop(v + 1, c, r);
    HitsConcat(v, m, v + 1, c, r);
    AfterConcat(v, m, v + 1);
    hide Hits, CounterAfter, Below;
  }

  lemma {:induction false} Cycles(v: nat, t: nat, c: nat, r: nat)
    requires v < UINT && r < c
    ensures Hits(v, t * UINT, c, r) == t * Below(UINT, c, r) && CounterAfter(v, t * UINT) == v
  {
    if t > 0 {
      Cycles(v, t - 1, c, r);
      FullCycle(v, c, r);
      assert t * UINT == (t - 1) * UINT + UINT;
      HitsConcat(v, (t - 1) * UINT, UINT, c, r);
      AfterConcat(v, (t - 1) * UINT, UINT);
      assert t * Below(UINT, c, r) == (t - 1) * Below(UINT, c, r) + Below(UINT, c, r);
      hide Hits, CounterAfter, Below;
    }
  }

  /** If w windows of n calls together select r more than w * m times, one of them selects it
      more than m times. */
  lemma {:induction false} FindWindow(v: nat, n: nat, w: nat, c: nat, r: nat, m: nat) returns (v': nat)
    requires v < UINT && r < c && Hits(v, w * n, c, r) > w * m
    ensures v' < UINT && Hits(v', n, c, r) > m
    decreases w
  {
    if w == 0 {
      assert false;
    }
    assert w * n == (w - 1) * n + n && w * m == (w - 1) * m + m;
    HitsConcat(v, (w - 1) * n, n, c, r);
    if Hits(v, (w - 1) * n, c, r) > (w - 1) * m {
      v' := FindWindow(v, n, w - 1, c, r, m);
    } else {
      v' := CounterAfter(v, (w - 1) * n);
    }
  }

  // ----- windows of any length -----

  lemma ModMod(x: nat, c: nat)
    requires c > 0 && UINT % c == 0
    ensures (x % UINT) % c == x % c
  {
    var q, s, k := x / UINT, x % UINT, UINT / c;
    var q2, s2 := s / c, s % c;
    assert UINT == k * c;
    assert x == (q * k + q2) * c + s2 by {
      assert (q * k + q2) * c == q * (k * c) + q2 * c;
    }
    DivIs(x, c, q * k + q2, s2);
  }

  lemma {:induction false} AfterMod(v: nat, n: nat)
    requires v < UINT
    ensures CounterAfter(v, n) == (v + n) % UINT
  {
    if n > 0 {
      AfterMod(v, n - 1);
    }
  }

  lemma {:induction false} HitsDividing(v: nat, n: nat, c: nat, r: nat)
    requires v < UINT && r < c && UINT % c == 0
    ensures Hits(v, n, c, r) == Below(v + 1 + n, c, r) - Below(v + 1, c, r)
  {
    if n > 0 {
      HitsDividing(v, n - 1, c, r);
      AfterMod(v, n);
      ModMod(v + n, c);
      BelowStep(v + n, c, r);
    }
  }

  /** c divides 2^32: a window of any length is as even as it can be. */
  lemma DividingSpread(v: nat, n: nat, c: nat, r: nat)
    requires v < UINT && r < c && UINT % c == 0
    ensures n / c <= Hits(v, n, c, r) <= n / c + 1
    ensures n % c == 0 ==> Hits(v, n, c, r) == n / c
  {
    HitsDividing(v, n, c, r);
    BelowSpread(v + 1, n, c, r);
  }

  /** A window across one wrap that selects pipeline 0 twice and the last one never: the
      bound of `Balance` is reached. */
  lemma UnevenWindow(c: nat) returns (v: nat, n: nat)
    requires 0 < c < UINT && UINT % c != 0
    ensures v < UINT && Hits(v, n, c, 0) == 2 && Hits(v, n, c, c - 1) == 0
    ensures (v + n) / UINT == 1
  {
    var q, s := UINT / c, UINT % c;
    assert UINT == q * c + s;
    assert q == 0 ==> q * c == 0;
    assert q * c >= c by {
      assert q * c == c + (q - 1) * c;
    }
    v, n := q * c - 1, s + 1;
    HitsStraight(v, s, c, 0);
    HitsStraight(v, s, c, c - 1);
    AfterStraight(v, s);
    LastBlock(q, s, c);
    DivIs(0, c, 0, 0);
    hide Below;
  }

  /** Of the s < c integers from q * c on, one is congruent to 0 and none to c - 1. */
  lemma LastBlock(q: nat, s: nat, c: nat)
    requires 0 < s < c
    ensures Below(q * c + s, c, 0) == Below(q * c, c, 0) + 1
    ensures Below(q * c + s, c, c - 1) == Below(q * c, c, c - 1)
  {
    SumIs(q * c + s, c - 1, c, q, s, 0, c - 1);
    SumIs(q * c, c - 1, c, q, 0, 0, c - 1);
    SumIs(q * c + s, 0, c, q, s, 0, 0);
    SumIs(q * c, 0, c, q, 0, 0, 0);
  }

  ghost predicate Even(c: nat)
    requires c > 0
  {
    forall v: nat, n: nat, r: nat, r': nat | v < UINT && r < c && r' < c ::
      Hits(v, n, c, r) <= Hits(v, n, c, r') + 1
  }

  /** Every window, however long, is even to within one exactly when the number of pipelines
      divides 2^32. */
  lemma EvenExactly(c: nat)
    requires 0 < c < UINT
    ensures Even(c) <==> UINT % c == 0
  {
    if UINT % c == 0 {
      forall v: nat, n: nat, r: nat, r': nat | v < UINT && r < c && r' < c
        ensures Hits(v, n, c, r) <= Hits(v, n, c, r') + 1
      {
        DividingSpread(v, n, c, r);
        DividingSpread(v, n, c, r');
      }
    } else {
      var v, n := UnevenWindow(c);
      assert Hits(v, n, c, 0) > Hits(v, n, c, c - 1) + 1;
    }
  }
}
