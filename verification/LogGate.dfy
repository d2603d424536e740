/** Which handlers a log message reaches: the cached level and filter that every log
    statement tests, and the test of each handler. */
module LogGate {

  /** LL_FATAL to LL_TRACE4. */
  type LogLevel = l: nat | l <= 9

  const FATAL: LogLevel := 0

  /** The bits of an `unsigned int`, each standing for a matter that a message is about. */
  newtype Bit = b: int | 0 <= b < 32

  /** A bit set: `|` is union, and `&` intersection. */
  type Filter = set<Bit>

  /** What a handler is configured to print. */
  datatype Setting = Setting(level: LogLevel, filter: Filter)

  datatype Message = Message(level: LogLevel, filter: Filter, text: string)

  predicate Overlap(f: Filter, g: Filter) {
    f * g != {}
  }

  // ----- the engine -----

  class LogEventHandler {
    var level: LogLevel
    const filter: Filter
    var printed: seq<Message>

    constructor (level: LogLevel, filter: Filter)
      ensures this.level == level && this.filter == filter && printed == []
    {
      this.level, this.filter, printed := level, filter, [];
    }

    /** The engine is not told. */
    method SetLevel(level: LogLevel)
      modifies this`level
      ensures this.level == level
    {
      this.level := level;
    }

    method Submit(m: Message)
      modifies this`printed
      ensures printed == old(printed) + [m]
    {
      printed := printed + [m];
    }
  }

  class LogEngine {
    var handlers: seq<LogEventHandler>
    var currentLevel: LogLevel
    var currentFilter: Filter

    ghost function Settings(): seq<Setting>
      reads this, handlers
    {
      seq(|handlers|, i requires 0 <= i < |handlers| reads this, handlers =>
        Setting(handlers[i].level, handlers[i].filter))
    }

    /** The cache says what a scan of all handlers would say. */
    ghost predicate Cached()
      reads this, handlers
    {
      currentLevel == MaxLevel(Settings()) && currentFilter == AllFilters(Settings())
    }

    /** The cached level is that of a handler, or the lowest if there is none, and no handler's
        is higher; the cached filter has the bits of all handlers' filters and no others. */
    ghost predicate Tells()
      reads this, handlers
    {
      && (forall h | h in handlers :: h.level <= currentLevel && h.filter <= currentFilter)
      && (handlers != [] ==> exists h :: h in handlers && h.level == currentLevel)
      && (handlers == [] ==> currentLevel == 0)
      && (forall b | b in currentFilter :: exists h :: h in handlers && b in h.filter)
    }

    lemma CachedTells()
      requires Cached()
      ensures Tells()
    {
      var all := Settings();
      MaxLevelIsMax(all);
      forall h | h in handlers
        ensures h.level <= currentLevel && h.filter <= currentFilter
      {
        var i :| 0 <= i < |handlers| && handlers[i] == h;
        assert all[i] == Setting(h.level, h.filter);
        FilterCovered(all, i);
      }
      if handlers != [] {
        var i :| 0 <= i < |all| && all[i].level == MaxLevel(all);
        assert handlers[i] in handlers && handlers[i].level == currentLevel;
      }
      forall b | b in currentFilter
        ensures exists h :: h in handlers && b in h.filter
      {
        AllFiltersOverlap(all, {b});
        OneBit(b, AllFilters(all));
        var i :| 0 <= i < |all| && Overlap({b}, all[i].filter);
        OneBit(b, all[i].filter);
        assert handlers[i] in handlers;
      }
    }

    constructor ()
      ensures handlers == [] && Cached()
    {
      handlers, currentLevel, currentFilter := [], FATAL, {};
    }

    method UpdateLevelAndFilter()
      modifies this`currentLevel, this`currentFilter
      ensures Cached() && Tells()
    {
      var level: LogLevel, filter: Filter := FATAL, {};
      ghost var all := Settings();
      for i := 0 to |handlers|
        invariant level == MaxLevel(all[..i]) && filter == AllFilters(all[..i])
      {
        var h := handlers[i];
        assert all[..i + 1][..i] == all[..i];
        if h.level > level {
          level := h.level;
        }
        filter := filter + h.filter;
      }
      assert all[..|all|] == all;
      currentLevel, currentFilter := level, filter;
      assert Settings() == all;
      CachedTells();
    }

    /** From then on a log statement is let through if some handler asks for it, on level and
        filter; and only if some handler asks for its level and some handler for its filter. */
    method AddHandler(handler: LogEventHandler)
      modifies this
      ensures handlers == old(handlers) + [handler] && Cached() && Tells()
      ensures forall h, level: LogLevel, filter: Filter |
                h in handlers && level <= h.level && filter * h.filter != {} :: IsRelevant(level, filter)
      ensures forall level: LogLevel, filter: Filter | IsRelevant(level, filter) ::
                && (exists h :: h in handlers && level <= h.level)
                && (exists h :: h in handlers && filter * h.filter != {})
    {
      handlers := handlers + [handler];
      UpdateLevelAndFilter();
      forall h, level: LogLevel, filter: Filter | h in handlers && level <= h.level && filter * h.filter != {}
        ensures IsRelevant(level, filter)
      {
        Admits(h, level, filter);
      }
      forall level: LogLevel, filter: Filter | IsRelevant(level, filter)
        ensures exists h :: h in handlers && level <= h.level
        ensures exists h :: h in handlers && filter * h.filter != {}
      {
        var h :| h in handlers && h.level == currentLevel;
        var b :| b in filter * currentFilter;
        var g :| g in handlers && b in g.filter;
        assert b in filter * g.filter;
      }
    }

    lemma Admits(h: LogEventHandler, level: LogLevel, filter: Filter)
      requires Tells() && h in handlers && level <= h.level && filter * h.filter != {}
      ensures IsRelevant(level, filter)
    {
      var b :| b in filter * h.filter;
      assert b in filter * currentFilter;
    }

    predicate IsRelevant(level: LogLevel, filter: Filter): (r: bool)
      reads this, handlers
      ensures Cached() ==> (r <==> Passes(Settings(), MaxLevel(Settings()), level, filter))
      ensures currentFilter == AllFilters(Settings()) ==>
        (r <==> Passes(Settings(), currentLevel, level, filter))
    {
      level <= currentLevel && Overlap(filter, currentFilter)
    }

    /** Every handler whose level admits the message gets it, as often as it was added. */
    method DoSubmit(m: Message)
      modifies handlers
      ensures forall h | h in handlers ::
        h.printed == old(h.printed) + (if m.level <= h.level then Copies(m, Times(handlers, h)) else [])
      ensures forall h | h in handlers :: h.level == old(h.level)
    {
      for i := 0 to |handlers|
        invariant forall h | h in handlers :: h.level == old(h.level)
        invariant forall h | h in handlers ::
          h.printed == old(h.printed)
                       + (if m.level <= h.level then Copies(m, Times(handlers[..i], h)) else [])
      {
        var h := handlers[i];
        assert handlers[..i + 1][..i] == handlers[..i];
        if m.level <= h.level {
          h.Submit(m);
        }
      }
      assert handlers[..|handlers|] == handlers;
    }

    /** A log statement. While the cache is fresh it reaches every handler that asks for it. */
    method Log(m: Message)
      modifies handlers
      ensures old(Tells()) ==> forall h | h in handlers && m.level <= old(h.level) && m.filter * h.filter != {} ::
        h.printed == old(h.printed) + Copies(m, Times(handlers, h)) && Times(handlers, h) > 0
      ensures forall h | h in handlers ::
        h.printed == old(h.printed) + (if IsRelevant(m.level, m.filter) && m.level <= h.level
                                       then Copies(m, Times(handlers, h)) else [])
      ensures forall h | h in handlers :: h.level == old(h.level)
    {
      forall h | h in handlers && Tells() && m.level <= h.level && m.filter * h.filter != {}
        ensures IsRelevant(m.level, m.filter)
      {
        Admits(h, m.level, m.filter);
      }
      forall h | h in handlers
        ensures Times(handlers, h) > 0
      {
        AddedAtLeastOnce(handlers, h);
      }
      if IsRelevant(m.level, m.filter) {
        DoSubmit(m);
      }
    }
  }

  lemma {:induction false} AddedAtLeastOnce(handlers: seq<LogEventHandler>, h: LogEventHandler)
    requires h in handlers
    ensures Times(handlers, h) > 0
  {
    if handlers[|handlers| - 1] != h {
      AddedAtLeastOnce(handlers[..|handlers| - 1], h);
    }
  }

  function Times(handlers: seq<LogEventHandler>, h: LogEventHandler): nat {
    if handlers == [] then 0
    else Times(handlers[..|handlers| - 1], h) + (if handlers[|handlers| - 1] == h then 1 else 0)
  }

  function Copies(m: Message, n: nat): seq<Message> {
    seq(n, _ => m)
  }

  // ----- what the cache should hold -----

  function MaxLevel(all: seq<Setting>): LogLevel {
    if all == [] then FATAL
    else
      var rest, last := MaxLevel(all[..|all| - 1]), all[|all| - 1].level;
      if last > rest then last else rest
  }

  function AllFilters(all: seq<Setting>): Filter {
    if all == [] then {} else AllFilters(all[..|all| - 1]) + all[|all| - 1].filter
  }

  lemma {:induction false} MaxLevelIsMax(all: seq<Setting>)
    ensures forall i | 0 <= i < |all| :: all[i].level <= MaxLevel(all)
    ensures all == [] ==> MaxLevel(all) == FATAL
    ensures all != [] ==> exists i :: 0 <= i < |all| && all[i].level == MaxLevel(all)
  {
    if all != [] {
      var rest := all[..|all| - 1];
      MaxLevelIsMax(rest);
      if MaxLevel(all) != all[|all| - 1].level {
        assert rest != [];
        var i :| 0 <= i < |rest| && rest[i].level == MaxLevel(rest);
        assert all[i].level == MaxLevel(all);
      }
    }
  }

  lemma OneBit(b: Bit, f: Filter)
    ensures Overlap({b}, f) <==> b in f
  {
    assert b in f ==> b in {b} * f;
  }

  lemma Excess(f: Filter, g: Filter)
    requires g <= f && g != f
    ensures Overlap(f - g, f) && !Overlap(f - g, g)
  {
    assert f - g != {} by {
      assert f == g + (f - g);
    }
    assert (f - g) * f == f - g;
    assert (f - g) * g == {};
  }

  /** The combined filter overlaps f exactly when some handler's filter does. */
  lemma {:induction false} AllFiltersOverlap(all: seq<Setting>, f: Filter)
    ensures Overlap(f, AllFilters(all)) <==> exists i :: 0 <= i < |all| && Overlap(f, all[i].filter)
  {
    if all != [] {
      var rest, n := all[..|all| - 1], |all| - 1;
      AllFiltersOverlap(rest, f);
      assert forall i | 0 <= i < n :: all[i] == rest[i];
      assert Overlap(f, AllFilters(all)) <==> Overlap(f, AllFilters(rest)) || Overlap(f, all[n].filter);
    }
  }

  // ----- the gate and the handlers -----

  /** The handler is configured for the message, on both counts. */
  predicate Accepts(h: Setting, level: LogLevel, filter: Filter) {
    level <= h.level && Overlap(filter, h.filter)
  }

  predicate SomeAccepts(all: seq<Setting>, level: LogLevel, filter: Filter) {
    exists i :: 0 <= i < |all| && Accepts(all[i], level, filter)
  }

  /** The test of a log statement, with the given cached level and a fresh cached filter. */
  predicate Passes(all: seq<Setting>, cached: LogLevel, level: LogLevel, filter: Filter) {
    level <= cached && Overlap(filter, AllFilters(all))
  }

  /** As long as the cache is fresh, the gate hides no message that some handler accepts, and
      every message that passes reaches at least one handler. It looks at the level and the
      filter separately. */
  lemma GateIsSafe(all: seq<Setting>, level: LogLevel, filter: Filter)
    ensures SomeAccepts(all, level, filter) ==> Passes(all, MaxLevel(all), level, filter)
    ensures Passes(all, MaxLevel(all), level, filter) ==>
      exists i :: 0 <= i < |all| && level <= all[i].level
    ensures Passes(all, MaxLevel(all), level, filter) <==>
      && (exists i :: 0 <= i < |all| && level <= all[i].level)
      && (exists i :: 0 <= i < |all| && Overlap(filter, all[i].filter))
  {
    hide Overlap;
    MaxLevelIsMax(all);
    AllFiltersOverlap(all, filter);
    if SomeAccepts(all, level, filter) {
      var i :| 0 <= i < |all| && Accepts(all[i], level, filter);
      assert Overlap(filter, all[i].filter);
    }
    if all != [] {
      var i :| 0 <= i < |all| && all[i].level == MaxLevel(all);
      assert level <= MaxLevel(all) ==> level <= all[i].level;
    }
    hide MaxLevel, AllFilters;
  }

  /** The handlers with the most detailed level. */
  function Loudest(all: seq<Setting>, top: LogLevel): seq<Setting> {
    if all == [] then []
    else Loudest(all[..|all| - 1], top)
         + (if all[|all| - 1].level == top then [all[|all| - 1]] else [])
  }

  lemma {:induction false} LoudestAre(all: seq<Setting>, top: LogLevel, h: Setting)
    ensures h in Loudest(all, top) <==> h in all && h.level == top
  {
    if all != [] {
      LoudestAre(all[..|all| - 1], top, h);
      assert all == all[..|all| - 1] + [all[|all| - 1]];
    }
  }

  /** Every message that passes is accepted by some handler, on both level and filter. */
  ghost predicate GateIsExact(all: seq<Setting>) {
    forall level: LogLevel, filter: Filter ::
      Passes(all, MaxLevel(all), level, filter) <==> SomeAccepts(all, level, filter)
  }

  /** That is so exactly when the handlers with the most detailed level together cover the
      filters of all handlers. */
  lemma GateIsExactWhen(all: seq<Setting>)
    ensures GateIsExact(all) <==> AllFilters(all) == AllFilters(Loudest(all, MaxLevel(all)))
  {
    var top := MaxLevel(all);
    var loud := Loudest(all, top);
    LoudestCovered(all, top);
    if AllFilters(all) == AllFilters(loud) {
      forall level: LogLevel, filter: Filter
        ensures Passes(all, top, level, filter) <==> SomeAccepts(all, level, filter)
      {
        GateIsSafe(all, level, filter);
        if Passes(all, top, level, filter) {
          AllFiltersOverlap(loud, filter);
          var i :| 0 <= i < |loud| && Overlap(filter, loud[i].filter);
          LoudestAre(all, top, loud[i]);
          var j :| 0 <= j < |all| && all[j] == loud[i];
          assert Accepts(all[j], level, filter);
        }
      }
    } else {
      var beyond := AllFilters(all) - AllFilters(loud);
      Excess(AllFilters(all), AllFilters(loud));
      assert Passes(all, top, top, beyond);
      if SomeAccepts(all, top, beyond) {
        var i :| 0 <= i < |all| && Accepts(all[i], top, beyond);
        MaxLevelIsMax(all);
        LoudestAre(all, top, all[i]);
        AllFiltersOverlap(loud, beyond);
        assert false;
      }
    }
  }

  lemma LoudestCovered(all: seq<Setting>, top: LogLevel)
    ensures AllFilters(Loudest(all, top)) <= AllFilters(all)
  {
    var loud := Loudest(all, top);
    forall b | b in AllFilters(loud)
      ensures b in AllFilters(all)
    {
      AllFiltersOverlap(loud, {b});
      AllFiltersOverlap(all, {b});
      OneBit(b, AllFilters(loud));
      OneBit(b, AllFilters(all));
      var i :| 0 <= i < |loud| && Overlap({b}, loud[i].filter);
      LoudestAre(all, top, loud[i]);
    }
  }

  // ----- what handlers print -----

  /** Every message that passes the gate is printed by exactly the handlers configured for it,
      as promised; `DoSubmit` tests the level only. */
  ghost predicate DeliveryIsExact(all: seq<Setting>) {
    forall level: LogLevel, filter: Filter, i | 0 <= i < |all| ::
      Passes(all, MaxLevel(all), level, filter) ==>
        (level <= all[i].level <==> Accepts(all[i], level, filter))
  }

  /** That is so exactly when all handlers have the same filter. */
  lemma DeliveryIsExactWhen(all: seq<Setting>)
    ensures DeliveryIsExact(all) <==> forall i | 0 <= i < |all| :: all[i].filter == AllFilters(all)
  {
    if i :| 0 <= i < |all| && all[i].filter != AllFilters(all) {
      FilterCovered(all, i);
      var beyond := AllFilters(all) - all[i].filter;
      Excess(AllFilters(all), all[i].filter);
      assert Passes(all, MaxLevel(all), FATAL, beyond) && !Accepts(all[i], FATAL, beyond);
    }
  }

  lemma FilterCovered(all: seq<Setting>, i: nat)
    requires i < |all|
    ensures all[i].filter <= AllFilters(all)
  {
    forall b | b in all[i].filter
      ensures b in AllFilters(all)
    {
      AllFiltersOverlap(all, {b});
      OneBit(b, all[i].filter);
      OneBit(b, AllFilters(all));
    }
  }

  // ----- a stale level -----

  /** After SetLevel the cached level is as it was. The gate then hides a message that some
      handler accepts exactly when a handler with a non-empty filter is set above it. */
  lemma StaleGateHides(all: seq<Setting>, cached: LogLevel)
    ensures (exists level: LogLevel, filter: Filter ::
               SomeAccepts(all, level, filter) && !Passes(all, cached, level, filter))
       <==> exists i :: 0 <= i < |all| && all[i].level > cached && all[i].filter != {}
  {
    if level: LogLevel, filter: Filter :|
      SomeAccepts(all, level, filter) && !Passes(all, cached, level, filter) {
      var i :| 0 <= i < |all| && Accepts(all[i], level, filter);
      AllFiltersOverlap(all, filter);
      assert all[i].level > cached && all[i].filter != {};
    }
    if i :| 0 <= i < |all| && all[i].level > cached && all[i].filter != {} {
      assert Accepts(all[i], all[i].level, all[i].filter);
      assert SomeAccepts(all, all[i].level, all[i].filter);
      assert !Passes(all, cached, all[i].level, all[i].filter);
    }
  }
}
