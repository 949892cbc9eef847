/**
  One book through any sequence of ticks from the default ledger.  A tick migrates the stored book,
  processes it, and is kept only when the result passes the checks made before the first durable write;
  otherwise the stored book stands (scripts/mosaic_murmurs_paper_sync.py:138-153, 162-176, 276-292).
 */
module Ledger {
  import opened Wrappers
  import opened Money
  import opened Market
  import opened Engine
  import opened Accounting
  import opened BookOrders
  import opened BookTick
  import opened Seeding

  const MAX_POSITIONS := 32

  // ----- What is checked before a tick is kept -----

  predicate PositionOk(p: Position) {
    && p.symbol != "" && p.quantity >= 0.0 && p.entry >= 0.0 && p.mark >= 0.0 && p.costBasis >= 0
    && (if p.kind.Prediction? then p.entry <= ONE_DOLLAR && p.mark <= ONE_DOLLAR else p.entry > 0.0 && p.mark > 0.0)
  }

  predicate PositionsOk(ps: seq<Position>) { |ps| <= MAX_POSITIONS && forall p :: p in ps ==> PositionOk(p) }

  predicate FillOk(f: Fill) {
    && f.quantity >= 0.0 && f.cashBefore >= 0 && f.cashAfter >= 0
    && f.costs.gross >= 0 && f.costs.fee >= 0 && f.costs.spread >= 0 && f.costs.slippage >= 0 && f.costs.impact >= 0
    && f.costs.latency >= 0
    && f.costs.total == f.costs.fee + f.costs.spread + f.costs.slippage + f.costs.impact + f.costs.latency
  }

  predicate FillsOk(fills: seq<Fill>) { forall f :: f in fills ==> FillOk(f) }

  predicate Persistable(t: Ticked) {
    t.book.cash >= 0 && PositionsOk(t.book.positions) && FillsOk(FillsOf(t.events))
  }

  // ----- Migration -----

  predicate CountersOk(c: Counters) {
    && c.fees >= 0 && c.spread >= 0 && c.slippage >= 0 && c.impact >= 0 && c.latency >= 0 && c.turnover >= 0
    && c.total == c.fees + c.spread + c.slippage + c.impact + c.latency
  }

  predicate PositionMigrates(p: Position) {
    && p.quantity >= 0.0 && p.entry >= 0.0 && p.mark >= 0.0
    && (if p.kind.Prediction? then p.entry <= ONE_DOLLAR && p.mark <= ONE_DOLLAR else p.entry > 0.0 && p.mark > 0.0)
  }

  function MigratedPosition(p: Position): Position {
    if p.kind.Prediction? then p else p.(costBasis := Round(AtEntry(p, p.quantity)))
  }

  function MigratedPositions(ps: seq<Position>): seq<Position> {
    seq(|ps|, k requires 0 <= k < |ps| => MigratedPosition(ps[k]))
  }

  /** What a stored book is loaded as; None where loading raises. */
  function Migrated(b: Book): Option<Book> {
    if b.cash < 0 || !CountersOk(b.counters) || exists p :: p in b.positions && !PositionMigrates(p) then None
    else
      var c := b.(positions := MigratedPositions(b.positions));
      Some(c.(equity := EquityOf(c), highWater := HighWater(c),  seeded := c.seeded || BasisTotal(c.positions) >= SEED_CAPITAL - 1))
  }

  // ----- Runs -----

  /** `aborted` stands for a tick lost to another book or to a crash before the first write. */
  datatype Feed = Feed(snapshot: Snapshot, aborted: bool)

  datatype Recorded = Recorded(book: Book, events: seq<Event>)

  function LedgerTick(b: Book, m: Snapshot): Option<Ticked> {
    match Migrated(b)
    case None => None
    case Some(c) =>
      match Tick(c, m)
      case None => None
      case Some(t) => if Persistable(t) then Some(t) else None
  }

  function Applied(b: Book, feed: Feed): Recorded {
    if feed.aborted then Recorded(b, [])
    else match LedgerTick(b, feed.snapshot)
      case None => Recorded(b, [])
      case Some(t) => Recorded(t.book, t.events)
  }

  /** The stored book and all recorded events after the feeds. */
  function Run(start: Book, feeds: seq<Feed>): Recorded {
    if feeds == [] then Recorded(start, [])
    else
      var before := Run(start, feeds[..|feeds| - 1]);
      var last := Applied(before.book, feeds[|feeds| - 1]);
      Recorded(last.book, before.events + last.events)
  }

  // ----- The invariant of stored books -----

  /** A book before its initial allocation. */
  predicate Unused(b: Book) { b.positions == [] && b.cash == STARTING_CASH && !b.postmortem && !b.seeded }

  ghost predicate Kept(b: Book) {
    && b.cash >= 0 && WellKept(b.positions) && PositionsOk(b.positions) && CountersOk(b.counters)
    && (b.seeded || Unused(b))
  }

  /** The stored summary figures are those of the stored positions and cash. */
  predicate Summarised(b: Book) { b.equity == EquityOf(b) && b.highWater == HighWater(b) }

  ghost predicate Stored(b: Book) { Kept(b) && Summarised(b) }

  lemma KeptPositions(b: Book)
    requires Kept(b)
    ensures NonNegative(b.positions)
  {}

  lemma MigratedAtCost(p: Position)
    requires AtCost(p)
    ensures MigratedPosition(p) == p
  {}

  lemma MigratedUnchanged(ps: seq<Position>)
    requires WellKept(ps)
    ensures MigratedPositions(ps) == ps
  {
    forall k | 0 <= k < |ps| ensures MigratedPosition(ps[k]) == ps[k] {
      assert ps[k] in ps && AtCost(ps[k]);
      MigratedAtCost(ps[k]);
    }
    assert |MigratedPositions(ps)| == |ps| && forall k :: 0 <= k < |ps| ==> MigratedPositions(ps)[k] == ps[k];
  }

  lemma UnusedBasis(b: Book)
    requires Unused(b)
    ensures BasisTotal(b.positions) == 0
  {}

  lemma MigratesAs(b: Book, c: Book)
    requires b.cash >= 0 && CountersOk(b.counters) && forall p :: p in b.positions ==> PositionMigrates(p)
    requires MigratedPositions(b.positions) == b.positions
    requires c == b.(equity := EquityOf(b), highWater := HighWater(b), seeded := b.seeded || BasisTotal(b.positions) >= SEED_CAPITAL - 1)
    ensures Migrated(b) == Some(c)
  {}

  /** Migration leaves every stored book exactly as it is. */
  lemma MigrationIsIdentity(b: Book)
    requires Kept(b) && Summarised(b)
    ensures Migrated(b) == Some(b)
  {
    MigratedUnchanged(b.positions);
    forall p | p in b.positions ensures PositionMigrates(p) { assert PositionOk(p); }
    if !b.seeded { UnusedBasis(b); }
    MigratesAs(b, b);
  }

  lemma {:induction false} TallyOk(c: Counters, fills: seq<Fill>)
    requires CountersOk(c) && FillsOk(fills)
    ensures CountersOk(Tally(c, fills))
    decreases fills
  {
    if fills != [] {
      assert FillOk(fills[0]);
      TallyOk(if fills[0].settlement then c else RecordCosts(c, fills[0].costs), fills[1..]);
    }
  }

  lemma MeasuringIsStable(b: Book)
    ensures EquityOf(Measured(b)) == Measured(b).equity && HighWater(Measured(b)) == Measured(b).highWater
  {}

  // ----- Unused books -----

  lemma UnusedIsStored(b: Book)
    requires Unused(b) && CountersOk(b.counters) && b.equity == b.cash && b.highWater == b.cash
    ensures Stored(b)
  {}

  lemma NewBookIsUnused(line: Line, strategy: Strategy)
    ensures var b := NewBook(line, strategy); Unused(b) && CountersOk(b.counters) && b.equity == b.cash && b.highWater == b.cash
  {}

  /** The default ledger's books can start a run. */
  lemma NewBookIsStored(line: Line, strategy: Strategy)
    ensures Stored(NewBook(line, strategy))
  {
    NewBookIsUnused(line, strategy);
    UnusedIsStored(NewBook(line, strategy));
  }

  lemma UnusedActs(b: Book, m: Snapshot)
    requires Unused(b) && b.equity == STARTING_CASH
    ensures Act(b, m).Some?
    ensures var c := Act(b, m).value.book; c.seeded || c == b
  {
    InitialAllocationIsAllOrNothing(b, m);
  }

  lemma UnusedMeasures(b: Book)
    requires Unused(b)
    ensures Unused(Measured(b)) && Measured(b).equity == STARTING_CASH
  {}

  lemma UnusedOpens(b: Book, m: Snapshot)
    requires Unused(b)
    ensures Opening(b, m).book == b
  {
    assert MarkAll(b.positions, m) == b.positions;
  }

  /** A tick of an unused book never raises: it completes the initial allocation or leaves the book
      unused. */
  lemma UnusedTicks(b: Book, m: Snapshot)
    requires Unused(b)
    ensures Tick(b, m).Some?
    ensures var c := Tick(b, m).value.book; c.seeded || Unused(c)
  {
    UnusedOpens(b, m);
    UnusedMeasures(b);
    var p := Pretrade(b, m);
    UnusedActs(p, m);
    var t := Act(p, m).value;
    TickParts(b, m, t);
    if t.book == p { UnusedMeasures(p); }
  }

  // ----- Seeded books -----

  lemma SeededActs(p: Book, m: Snapshot)
    requires p.seeded && WellKept(p.positions) && NonNegative(p.positions) && Act(p, m).Some?
    requires !StaleOpenMark(p.positions) ==> CurrentMarks(p.positions, m)
    ensures Act(p, m).value.book.seeded
  {
    if !(p.postmortem || p.equity <= CRASH_EQUITY) && !StaleOpenMark(p.positions) { RebalanceIsSound(p, m, false); }
  }

  lemma SeededStays(b: Book, m: Snapshot)
    requires b.seeded && WellKept(b.positions) && NonNegative(b.positions) && Tick(b, m).Some?
    ensures Tick(b, m).value.book.seeded
  {
    PretradeIsSound(b, m, false);
    TickFills(b, m);
    SeededActs(Pretrade(b, m), m);
  }

  lemma TickMeasures(b: Book, m: Snapshot)
    requires Tick(b, m).Some?
    ensures var c := Tick(b, m).value.book; c.equity == EquityOf(c) && c.highWater == HighWater(c)
  {
    TickFills(b, m);
    MeasuringIsStable(Act(Pretrade(b, m), m).value.book);
  }

  /** A kept tick keeps the invariant and its fills account for it. */
  lemma TickKeeps(b: Book, m: Snapshot, t: Ticked, bounded: bool)
    requires Kept(b) && Tick(b, m) == Some(t) && Persistable(t) && (bounded ==> MarksBounded(m))
    ensures Kept(t.book) && Accounted(b, FillsOf(t.events), t.book, bounded) && FillsOk(FillsOf(t.events))
    ensures t.book.line == b.line && t.book.strategy == b.strategy
  {
    KeptPositions(b);
    TickIsAccounted(b, m, bounded);
    TallyOk(b.counters, FillsOf(t.events));
    if b.seeded { SeededStays(b, m); } else { UnusedTicks(b, m); }
  }

  // ----- Theorems over runs -----

  predicate FeedsBounded(feeds: seq<Feed>) { forall f :: f in feeds ==> MarksBounded(f.snapshot) }

  /** A feed either leaves a stored book alone or takes it through a tick that passed the checks. */
  lemma AppliedCases(b: Book, feed: Feed)
    requires Kept(b) && Summarised(b)
    ensures var a := Applied(b, feed);
            a == Recorded(b, []) || (exists t :: Tick(b, feed.snapshot) == Some(t) && Persistable(t) && a == Recorded(t.book, t.events))
  {
    MigrationIsIdentity(b);
  }

  /** What the checks before the first write ask of a tick. */
  lemma PersistableIs(t: Ticked)
    ensures Persistable(t) <==>
              && t.book.cash >= 0 && |t.book.positions| <= 32
              && (forall p :: p in t.book.positions ==>
                    && p.symbol != "" && p.quantity >= 0.0 && p.entry >= 0.0 && p.mark >= 0.0 && p.costBasis >= 0
                    && if p.kind.Prediction? then p.entry <= 100.0 && p.mark <= 100.0 else p.entry > 0.0 && p.mark > 0.0)
              && (forall f :: f in FillsOf(t.events) ==>
                    && f.quantity >= 0.0 && f.cashBefore >= 0 && f.cashAfter >= 0 && f.costs.gross >= 0 && f.costs.fee >= 0
                    && f.costs.spread >= 0 && f.costs.slippage >= 0 && f.costs.impact >= 0 && f.costs.latency >= 0
                    && f.costs.total == f.costs.fee + f.costs.spread + f.costs.slippage + f.costs.impact + f.costs.latency)
  {
    forall p | p in t.book.positions ensures PositionOk(p) <==>
                    && p.symbol != "" && p.quantity >= 0.0 && p.entry >= 0.0 && p.mark >= 0.0 && p.costBasis >= 0
                    && if p.kind.Prediction? then p.entry <= 100.0 && p.mark <= 100.0 else p.entry > 0.0 && p.mark > 0.0 {}
  }

  /** A tick of a stored book is kept, book and events, unless it is lost, raises, or is refused by those checks. */
  lemma TickIsKeptIff(b: Book, feed: Feed)
    requires Stored(b)
    ensures var x := Tick(b, feed.snapshot);
            Applied(b, feed) == if !feed.aborted && x.Some? && Persistable(x.value) then Recorded(x.value.book, x.value.events) else Recorded(b, [])
  {
    MigrationIsIdentity(b);
  }

  lemma AppliedKeeps(b: Book, feed: Feed, bounded: bool)
    requires Kept(b) && Summarised(b) && (bounded ==> MarksBounded(feed.snapshot))
    ensures var a := Applied(b, feed);
            && Kept(a.book) && Summarised(a.book) && Accounted(b, FillsOf(a.events), a.book, bounded) && FillsOk(FillsOf(a.events))
            && a.book.line == b.line && a.book.strategy == b.strategy
  {
    AppliedCases(b, feed);
    var a := Applied(b, feed);
    if a == Recorded(b, []) {
      NothingAccounted(b, bounded);
    } else {
      TickKeeps(b, feed.snapshot, Ticked(a.book, a.events, Tick(b, feed.snapshot).value.decisions), bounded);
      TickMeasures(b, feed.snapshot);
    }
  }

  lemma AppliedKeepsExtremes(b: Book, feed: Feed)
    requires Kept(b) && Summarised(b)
    ensures var a := Applied(b, feed); a.book.highWater >= b.highWater && a.book.maxDrawdown >= b.maxDrawdown
  {
    AppliedCases(b, feed);
    KeptPositions(b);
    if Applied(b, feed) != Recorded(b, []) { ExtremesNeverFall(b, feed.snapshot); }
  }

  /** Every stored book satisfies the invariant, and its fills account for everything since the start. */
  lemma {:induction false} RunIsStored(start: Book, feeds: seq<Feed>, bounded: bool)
    requires Stored(start) && (bounded ==> FeedsBounded(feeds))
    ensures var r := Run(start, feeds);
            && Stored(r.book) && r.book.line == start.line && r.book.strategy == start.strategy
            && Accounted(start, FillsOf(r.events), r.book, bounded) && FillsOk(FillsOf(r.events))
  {
    if feeds == [] {
      NothingAccounted(start, bounded);
    } else {
      var prefix := feeds[..|feeds| - 1];
      RunIsStored(start, prefix, bounded);
      var before := Run(start, prefix);
      AppliedKeeps(before.book, feeds[|feeds| - 1], bounded);
      var last := Applied(before.book, feeds[|feeds| - 1]);
      FillsOfAppend(before.events, last.events);
      AccountedThrough(start, FillsOf(before.events), before.book, FillsOf(last.events), last.book, bounded);
    }
  }

  /** The default ledger's books: 2000 in cash, no position, no cost. */
  lemma NewBookFacts(line: Line, strategy: Strategy)
    ensures var b := NewBook(line, strategy);
            && b.cash == STARTING_CASH && b.realized == 0 && b.counters == AllCounters(0) && Balance(b) == STARTING_CASH
            && forall ref :: Held(b.positions, ref) == 0.0
  {}

  /** Replaying the recorded fills from the starting book gives the cash, gap-free and never negative, the
      realised result and every cost counter, whose total is the sum of the five components. */
  lemma EventsReplayToBook(start: Book, feeds: seq<Feed>)
    requires Stored(start)
    ensures var r := Run(start, feeds);
            var fills := FillsOf(r.events);
            && Chains(start.cash, fills, r.book.cash)
            && (forall f :: f in fills ==> f.cashBefore >= 0 && f.cashAfter >= 0)
            && r.book.realized == start.realized + RealizedBy(fills)
            && r.book.counters == Tally(start.counters, fills)
            && r.book.counters.total == r.book.counters.fees + r.book.counters.spread + r.book.counters.slippage
                                        + r.book.counters.impact + r.book.counters.latency
  {
    RunIsStored(start, feeds, false);
    var fills := FillsOf(Run(start, feeds).events);
    forall f | f in fills ensures f.cashBefore >= 0 && f.cashAfter >= 0 { assert FillOk(f); }
  }

  /** With prices up to a million, cash plus cost basis less realised result stays within one cent of its
      starting value for each ordinary sell, and the recorded quantities bought less sold are exactly what
      the holdings changed by. */
  lemma BalanceIsConserved(start: Book, feeds: seq<Feed>)
    requires Stored(start) && FeedsBounded(feeds)
    ensures var r := Run(start, feeds);
            var fills := FillsOf(r.events);
            && -Sales(fills) <= Balance(r.book) - Balance(start) <= Sales(fills)
            && forall ref :: Held(r.book.positions, ref) == Held(start.positions, ref) + NetQuantity(fills, ref)
  {
    RunIsStored(start, feeds, true);
  }

  /** Loading any stored book gives it back unchanged. */
  lemma StoredBooksMigrateUnchanged(start: Book, feeds: seq<Feed>)
    requires Stored(start)
    ensures var b := Run(start, feeds).book; Migrated(b) == Some(b)
  {
    RunIsStored(start, feeds, false);
    MigrationIsIdentity(Run(start, feeds).book);
  }

  /** From any stored book, over any run, the high-water mark and the deepest drawdown never fall, and
      equity never exceeds the mark. */
  lemma {:induction false} ExtremesNeverFallOverRuns(start: Book, feeds: seq<Feed>)
    requires Stored(start)
    ensures var c := Run(start, feeds).book;
            c.highWater >= start.highWater && c.maxDrawdown >= start.maxDrawdown && c.equity <= c.highWater
    decreases |feeds|
  {
    RunIsStored(start, feeds, false);
    if feeds != [] {
      var prefix := feeds[..|feeds| - 1];
      ExtremesNeverFallOverRuns(start, prefix);
      RunIsStored(start, prefix, false);
      AppliedKeepsExtremes(Run(start, prefix).book, feeds[|feeds| - 1]);
    }
  }

  lemma AppliedAfterCrash(b: Book, feed: Feed)
    requires Kept(b) && Summarised(b) && b.postmortem
    ensures var a := Applied(b, feed);
            && a.book.postmortem && FillsOf(a.events) == [] && a.book.cash == b.cash && a.book.realized == b.realized
            && a.book.counters == b.counters && (forall ref :: Held(a.book.positions, ref) == Held(b.positions, ref))
  {
    AppliedCases(b, feed);
    CrashIsTerminal(b, feed.snapshot);
    var t := Tick(b, feed.snapshot).value;
    if Applied(b, feed) == Recorded(t.book, t.events) {
      forall ref ensures Held(t.book.positions, ref) == Held(b.positions, ref) {
        SameQuantities(b.positions, t.book.positions, ref);
      }
    }
  }

  lemma {:induction false} SameQuantities(ps: seq<Position>, qs: seq<Position>, ref: nat)
    requires |ps| == |qs| && forall k :: 0 <= k < |ps| ==> ps[k].ref == qs[k].ref && ps[k].quantity == qs[k].quantity
    ensures Find(ps, ref) == Find(qs, ref) && Held(ps, ref) == Held(qs, ref)
  {
    if ps != [] { SameQuantities(ps[1..], qs[1..], ref); }
  }

  /** Once a postmortem is due, no tick of any run emits a fill or changes cash, quantities, the realised
      result or a counter. */
  lemma {:induction false} CrashedBooksStandStill(start: Book, feeds: seq<Feed>)
    requires Stored(start) && start.postmortem
    ensures var c := Run(start, feeds);
            && c.book.postmortem && FillsOf(c.events) == [] && c.book.cash == start.cash
            && c.book.realized == start.realized && c.book.counters == start.counters
            && forall ref :: Held(c.book.positions, ref) == Held(start.positions, ref)
    decreases |feeds|
  {
    if feeds != [] {
      var prefix := feeds[..|feeds| - 1];
      CrashedBooksStandStill(start, prefix);
      RunIsStored(start, prefix, false);
      var before := Run(start, prefix);
      AppliedAfterCrash(before.book, feeds[|feeds| - 1]);
      FillsOfAppend(before.events, Applied(before.book, feeds[|feeds| - 1]).events);
    }
  }
}
