/**
  No instrument is traded twice in one tick of a book, no decision is repeated, and every fill has its
  own decision.
 */
module TickTrades {
  import opened Wrappers
  import opened Money
  import opened Market
  import opened Engine
  import opened Accounting
  import opened BookOrders
  import opened BookTick

  predicate DistinctFills(fills: seq<Fill>) {
    forall j, k :: 0 <= j < k < |fills| ==> fills[j].ref != fills[k].ref
  }

  predicate DistinctDecisions(ds: seq<Decision>) {
    forall j, k :: 0 <= j < k < |ds| ==> ds[j] != ds[k]
  }

  /** A decision about the book as a whole never shares its verdict with one about an instrument. */
  predicate BookVerdictsApart(ds: seq<Decision>) {
    forall d, e :: d in ds && e in ds && d.ref.None? && e.ref.Some? ==> d.verdict != e.verdict
  }

  function DecisionOf(f: Fill): Decision { Decision(VerdictOf(f.side), Some(f.ref)) }

  predicate FillsDecided(fills: seq<Fill>, ds: seq<Decision>) { forall f :: f in fills ==> DecisionOf(f) in ds }

  // ----- Orders -----

  predicate AmongOrders(fills: seq<Fill>, orders: seq<Order>) {
    forall f :: f in fills ==> exists k :: 0 <= k < |orders| && orders[k].instrument.ref == f.ref
  }

  lemma PlaceFills(b: Book, o: Order, clamped: bool)
    requires Place(b, o, clamped).Some?
    ensures var t := Place(b, o, clamped).value;
            && |t.fills| <= 1 && |t.decisions| == 1 && t.decisions[0].ref == Some(o.instrument.ref)
            && forall f :: f in t.fills ==> f.ref == o.instrument.ref && DecisionOf(f) == t.decisions[0]
  {
    if o.side.Sell? {
      if ExecuteSell(b, o.instrument, o.notional, false).Some? { SellTouches(b, o.instrument, o.notional, false); }
    } else if clamped ==> ValidCosts(o.instrument.costs) {
      var notional := if clamped then Min(o.notional, Affordable(b.cash, o.instrument.costs)) else o.notional;
      if RiskPassed(b, Buy, notional, o.instrument) && ExecuteBuy(b, o.instrument, notional).Some? {
        BuyTouches(b, o.instrument, notional);
      }
    }
  }

  lemma {:induction false} OrdersTradeOnce(b: Book, orders: seq<Order>, clamped: bool)
    requires DistinctOrders(orders) && RunOrders(b, orders, clamped).Some?
    ensures var t := RunOrders(b, orders, clamped).value;
            && DistinctFills(t.fills) && AmongOrders(t.fills, orders) && DecidesEach(orders, t.decisions)
            && FillsDecided(t.fills, t.decisions)
    decreases |orders|
  {
    if orders != [] {
      PlaceFills(b, orders[0], clamped);
      var first := Place(b, orders[0], clamped).value;
      OrdersTradeOnce(first.book, orders[1..], clamped);
      var rest := RunOrders(first.book, orders[1..], clamped).value;
      FirstThenRest(orders, first, rest);
    }
  }

  lemma FirstThenRest(orders: seq<Order>, first: Trades, rest: Trades)
    requires orders != [] && DistinctOrders(orders)
    requires |first.fills| <= 1 && |first.decisions| == 1 && first.decisions[0].ref == Some(orders[0].instrument.ref)
    requires forall f :: f in first.fills ==> f.ref == orders[0].instrument.ref && DecisionOf(f) == first.decisions[0]
    requires DistinctFills(rest.fills) && AmongOrders(rest.fills, orders[1..]) && DecidesEach(orders[1..], rest.decisions)
    requires FillsDecided(rest.fills, rest.decisions)
    ensures var t := Joined(first, rest);
            && DistinctFills(t.fills) && AmongOrders(t.fills, orders) && DecidesEach(orders, t.decisions)
            && FillsDecided(t.fills, t.decisions)
  {
    var t := Joined(first, rest);
    forall f | f in t.fills ensures exists k :: 0 <= k < |orders| && orders[k].instrument.ref == f.ref {
      if f in first.fills {
        assert orders[0].instrument.ref == f.ref;
      } else {
        var k :| 0 <= k < |orders[1..]| && orders[1..][k].instrument.ref == f.ref;
        assert orders[k + 1].instrument.ref == f.ref;
      }
    }
    forall f | f in rest.fills ensures f.ref != orders[0].instrument.ref {
      var k :| 0 <= k < |orders[1..]| && orders[1..][k].instrument.ref == f.ref;
      assert orders[k + 1].instrument.ref == f.ref;
    }
    assert forall k :: 0 <= k < |rest.fills| ==> rest.fills[k] in rest.fills;
    assert forall k :: 0 <= k < |first.fills| ==> first.fills[k] in first.fills;
  }

  lemma DecidingEachIsDistinct(orders: seq<Order>, ds: seq<Decision>)
    requires DistinctOrders(orders) && DecidesEach(orders, ds)
    ensures DistinctDecisions(ds)
  {}

  // ----- Settlements -----

  predicate SettledFrom(m: Snapshot, rest: seq<Position>, f: Fill) {
    exists p :: p in rest && p.ref == f.ref && SettlesAt(p, Lookup(m, p.ref))
  }

  predicate Gone(ps: seq<Position>, ref: nat) { forall p :: p in ps ==> p.ref != ref }

  predicate DecisionPerFill(t: Trades) {
    && |t.fills| == |t.decisions|
    && forall k :: 0 <= k < |t.fills| ==> t.decisions[k] == Decision(PaperSell, Some(t.fills[k].ref)) && t.fills[k].side.Sell?
  }

  /** One settlement for each decision, of a position that is gone afterwards. */
  ghost predicate SettledApart(t: Trades, m: Snapshot, rest: seq<Position>) {
    && DecisionPerFill(t) && DistinctFills(t.fills)
    && forall f :: f in t.fills ==> SettledFrom(m, rest, f) && Gone(t.book.positions, f.ref)
  }

  lemma {:induction false} SettlementsAreApart(b: Book, m: Snapshot, all: seq<Position>, rest: seq<Position>)
    requires WellKept(b.positions) && WellKept(all) && Within(b.positions, all) && Within(rest, all) && DistinctPositions(rest)
    ensures SettledApart(Settle(b, m, rest), m, rest)
    decreases |rest|
  {
    if rest != [] {
      var p := rest[0];
      var quote := Lookup(m, p.ref);
      assert p in rest && Within(rest[1..], all);
      if SettlesAt(p, quote) && ExecuteSell(b, quote.value, 0, true).Some? {
        SettlesOne(b, m, all, p, false);
        SellParts(b, quote.value, 0, true);
        var x := ExecuteSell(b, quote.value, 0, true).value;
        SettledPositionIsGone(b, m, all, p);
        SettlementsAreApart(x.book, m, all, rest[1..]);
        SettleIsSound(x.book, m, all, rest[1..], false);
        FirstSettled(x, Settle(x.book, m, rest[1..]), m, rest);
      } else {
        SettlementsAreApart(b, m, all, rest[1..]);
      }
    }
  }

  lemma SettledPositionIsGone(b: Book, m: Snapshot, all: seq<Position>, p: Position)
    requires WellKept(b.positions) && WellKept(all) && Within(b.positions, all) && p in all
    requires SettlesAt(p, Lookup(m, p.ref)) && ExecuteSell(b, Lookup(m, p.ref).value, 0, true).Some?
    ensures forall q :: q in ExecuteSell(b, Lookup(m, p.ref).value, 0, true).value.book.positions ==> q.ref != p.ref
  {
    var i := Lookup(m, p.ref).value;
    SellParts(b, i, 0, true);
    var k := Find(b.positions, i.ref).value;
    assert Reduced(b.positions, k, i, b.positions[k].quantity) == b.positions[..k] + b.positions[k + 1..];
  }

  lemma FirstSettled(x: Executed, t: Trades, m: Snapshot, rest: seq<Position>)
    requires rest != [] && DistinctPositions(rest) && SettledApart(t, m, rest[1..])
    requires x.fill.ref == rest[0].ref && x.fill.side.Sell? && SettlesAt(rest[0], Lookup(m, rest[0].ref))
    requires forall q :: q in x.book.positions ==> q.ref != rest[0].ref
    requires Within(t.book.positions, x.book.positions)
    ensures SettledApart(Trades(t.book, [x.fill] + t.fills, [Decision(PaperSell, Some(rest[0].ref))] + t.decisions), m, rest)
  {
    assert rest[0] in rest && SettledFrom(m, rest, x.fill);
    forall f | f in t.fills ensures f.ref != rest[0].ref && SettledFrom(m, rest, f) {
      SettledLater(m, rest, f);
    }
    FirstFill(x.fill, t.fills);
  }

  lemma SettledLater(m: Snapshot, rest: seq<Position>, f: Fill)
    requires rest != [] && DistinctPositions(rest) && SettledFrom(m, rest[1..], f)
    ensures SettledFrom(m, rest, f) && f.ref != rest[0].ref
  {
    var p :| p in rest[1..] && p.ref == f.ref && SettlesAt(p, Lookup(m, p.ref));
    assert p in rest;
  }

  lemma FirstFill(f: Fill, fills: seq<Fill>)
    requires DistinctFills(fills) && forall g :: g in fills ==> g.ref != f.ref
    ensures DistinctFills([f] + fills)
  {
    assert forall k :: 0 <= k < |fills| ==> fills[k] in fills;
  }

  // ----- A whole tick -----

  /** Decisions and fills of a tick, in order. */
  ghost predicate TradesOnce(fills: seq<Fill>, ds: seq<Decision>) {
    DistinctFills(fills) && DistinctDecisions(ds) && BookVerdictsApart(ds) && FillsDecided(fills, ds)
  }

  lemma {:induction false} EligibleAreOpen(s: Strategy, m: seq<Instrument>)
    ensures forall i :: i in Eligible(s, m) ==> i in m && !i.settled
  {
    if m != [] { EligibleAreOpen(s, m[1..]); }
  }

  lemma {:induction false} WithRefsAre(items: seq<Instrument>, refs: seq<nat>)
    requires Increasing(refs)
    ensures forall r :: r in WithRefs(items, refs) ==> r in refs || exists i :: i in items && i.ref == r
  {
    if items != [] {
      WithRefsAre(items[1..], refs);
      WithRefsIncreases(items[1..], refs);
      InsertRefIncreases(items[0].ref, WithRefs(items[1..], refs));
      assert items[0] in items;
    }
  }

  /** Rebalancing orders never name a settled instrument that is not held. */
  lemma OrdersAvoid(b: Book, m: Snapshot, ref: nat)
    requires Lookup(m, ref).Some? && Lookup(m, ref).value.settled
    requires forall p :: p in b.positions ==> p.ref != ref
    ensures forall o :: o in Orders(b, m) ==> o.instrument.ref != ref
  {
    var eligible := Eligible(b.strategy, m);
    var refs := TradedRefs(b, m);
    EligibleAreOpen(b.strategy, m);
    HeldRefsIncrease(b.positions);
    WithRefsAre(eligible, HeldRefs(b.positions));
    WithRefsIncreases(eligible, HeldRefs(b.positions));
    forall i | i in eligible ensures i.ref != ref { MembersLookUp(m, i); }
    assert ref !in refs;
    OrdersForSide(b, m, Targets(b, m, refs), refs, Sell);
    OrdersForSide(b, m, Targets(b, m, refs), refs, Buy);
  }

  lemma JoinedTradesOnce(s: Trades, m: Snapshot, rest: seq<Position>, orders: seq<Order>, fills: seq<Fill>, ds: seq<Decision>)
    requires SettledApart(s, m, rest) && DistinctOrders(orders) && DistinctFills(fills) && AmongOrders(fills, orders)
    requires DecidesEach(orders, ds) && FillsDecided(fills, ds)
    requires forall f, o :: f in s.fills && o in orders ==> o.instrument.ref != f.ref
    ensures TradesOnce(s.fills + fills, s.decisions + ds)
  {
    DecidingEachIsDistinct(orders, ds);
    forall j, k | 0 <= j < |s.fills| && 0 <= k < |fills| ensures s.fills[j].ref != fills[k].ref {
      assert s.fills[j] in s.fills && fills[k] in fills;
      var o :| 0 <= o < |orders| && orders[o].instrument.ref == fills[k].ref;
      assert orders[o] in orders;
    }
    forall j, k | 0 <= j < |s.fills| && 0 <= k < |orders| ensures s.decisions[j] != ds[k] {
      assert s.fills[j] in s.fills && orders[k] in orders;
    }
    forall d | d in s.decisions + ds ensures d.ref.Some? {
      if d in s.decisions {
        var j :| 0 <= j < |s.decisions| && s.decisions[j] == d;
      } else {
        var j :| 0 <= j < |ds| && ds[j] == d;
        assert ds[j].ref == Some(orders[j].instrument.ref);
      }
    }
    SettlementsDecided(s, m, rest);
  }

  lemma SettlementsDecided(s: Trades, m: Snapshot, rest: seq<Position>)
    requires SettledApart(s, m, rest)
    ensures FillsDecided(s.fills, s.decisions) && DistinctDecisions(s.decisions)
    ensures forall d :: d in s.decisions ==> d.verdict == PaperSell && d.ref.Some?
  {
    forall f | f in s.fills ensures DecisionOf(f) in s.decisions {
      var k :| 0 <= k < |s.fills| && s.fills[k] == f;
      assert s.decisions[k] == DecisionOf(f);
    }
  }

  /** Settlements followed by a single decision about the book. */
  lemma BookDecisionTradesOnce(s: Trades, m: Snapshot, rest: seq<Position>, d: Decision)
    requires SettledApart(s, m, rest) && d.ref.None? && d.verdict != PaperSell
    ensures TradesOnce(s.fills, s.decisions + [d])
  {
    SettlementsDecided(s, m, rest);
    assert forall k :: 0 <= k < |s.decisions| ==> s.decisions[k] in s.decisions;
  }

  lemma RebalanceTradesOnce(s: Trades, m: Snapshot, rest: seq<Position>, p: Book)
    requires SettledApart(s, m, rest) && p.positions == s.book.positions && RebalanceBook(p, m).Some?
    ensures var t := RebalanceBook(p, m).value; TradesOnce(s.fills + t.fills, s.decisions + t.decisions)
  {
    OrdersAreSound(p, m);
    var orders := Orders(p, m);
    OrdersTradeOnce(p, orders, true);
    var run := RunOrders(p, orders, true).value;
    if run.decisions == [] {
      BookDecisionTradesOnce(s, m, rest, Decision(Watch, None));
      assert run.fills == [];
      assert s.fills + [] == s.fills;
    } else {
      forall f, o | f in s.fills && o in orders ensures o.instrument.ref != f.ref { OrdersAvoid(p, m, f.ref); }
      JoinedTradesOnce(s, m, rest, orders, run.fills, run.decisions);
    }
  }

  lemma SeedTradesOnce(s: Trades, m: Snapshot, rest: seq<Position>, p: Book)
    requires SettledApart(s, m, rest) && p.positions == [] && s.fills == [] && SeedBook(p, m).Some?
    ensures var t := SeedBook(p, m).value; TradesOnce(s.fills + t.fills, s.decisions + t.decisions)
  {
    if SeedInstruments(p.strategy, m).Some? {
      SeedOrdersAreSound(p.strategy, m, SEED_CAPITAL);
      var orders := SeedOrders(SeedInstruments(p.strategy, m).value, SEED_CAPITAL);
      OrdersTradeOnce(p, orders, false);
      var run := RunOrders(p, orders, false).value;
      JoinedTradesOnce(s, m, rest, orders, run.fills, run.decisions);
    } else {
      BookDecisionTradesOnce(s, m, rest, Decision(Avoid, None));
      assert s.fills + [] == s.fills;
    }
  }

  lemma OpeningIsApart(b: Book, m: Snapshot)
    requires WellKept(b.positions)
    ensures SettledApart(Opening(b, m), m, MarkAll(b.positions, m))
  {
    MarkingKeepsPositions(b.positions, m);
    var marked := Marking(b, m);
    SettlementsAreApart(marked, m, marked.positions, marked.positions);
  }

  lemma ActTradesOnce(s: Trades, m: Snapshot, rest: seq<Position>, p: Book)
    requires SettledApart(s, m, rest) && p.positions == s.book.positions && Act(p, m).Some?
    requires p.seeded || (p.positions == [] && s.fills == [])
    ensures var t := Act(p, m).value; TradesOnce(s.fills + FillsOf(t.events), s.decisions + t.decisions)
  {
    var t := Act(p, m).value;
    if p.postmortem || p.equity <= CRASH_EQUITY {
      BookDecisionTradesOnce(s, m, rest, Decision(PostmortemRequired, None));
      assert FillsOf([BookCrashed(p.equity)]) == [] + FillsOf([]);
      assert s.fills + [] == s.fills;
    } else if StaleOpenMark(p.positions) {
      BookDecisionTradesOnce(s, m, rest, Decision(Avoid, None));
      assert s.fills + [] == s.fills;
    } else if p.seeded {
      RebalanceTradesOnce(s, m, rest, p);
      FillsOfFills(RebalanceBook(p, m).value.fills);
    } else {
      SeedTradesOnce(s, m, rest, p);
      FillsOfFills(SeedBook(p, m).value.fills);
    }
  }

  /** In a tick of a stored book no instrument is filled twice, no decision is repeated, and every fill
      carries out one of the decisions. */
  lemma TickTradesOnce(b: Book, m: Snapshot)
    requires WellKept(b.positions) && NonNegative(b.positions) && (b.seeded || b.positions == []) && Tick(b, m).Some?
    ensures var t := Tick(b, m).value; TradesOnce(FillsOf(t.events), t.decisions)
  {
    OpeningIsApart(b, m);
    PretradeIsSound(b, m, false);
    TickFills(b, m);
    var s := Opening(b, m);
    var p := Pretrade(b, m);
    if b.positions == [] {
      assert MarkAll(b.positions, m) == [];
      assert s.fills == [] && p.positions == [];
    }
    ActTradesOnce(s, m, MarkAll(b.positions, m), p);
    TickParts(b, m, Act(p, m).value);
  }
}
