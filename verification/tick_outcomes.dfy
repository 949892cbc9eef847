/**
  What one tick does, step by step: marks, settlements, summary figures, the orders a rebalance makes and what becomes
  of each (scripts/mosaic_murmurs_paper_engine.py:517-575, 640-658, 1000-1080, 1197-1287).
 */
module TickOutcomes {
  import opened Wrappers
  import opened Money
  import opened Market
  import opened Selection
  import opened Engine
  import opened Accounting
  import opened BookOrders
  import opened TargetBounds
  import opened BookTick
  import opened TradeValues

  // ----- Fresh quotes -----

  /** A recent quote with valid costs counts as fresh if it is an open prediction strictly between nothing and a dollar, a
      decided one at either end, or anything else that is not decided and has a price. */
  lemma FreshQuotes(i: Instrument)
    ensures IsFresh(i) && i.kind.Prediction? && !i.settled <==>
              i.recent && ValidCosts(i.costs) && i.kind.Prediction? && !i.settled && 0.0 < i.mark < 100.0
    ensures IsFresh(i) && i.kind.Prediction? && i.settled <==>
              i.recent && ValidCosts(i.costs) && i.kind.Prediction? && i.settled && (i.mark == 0.0 || i.mark == 100.0)
    ensures IsFresh(i) && !i.kind.Prediction? <==>
              i.recent && ValidCosts(i.costs) && !i.kind.Prediction? && !i.settled && i.mark > 0.0
  {}

  // ----- Marks -----

  /** A fresh quote of the position's own instrument. */
  predicate Quotes(p: Position, i: Instrument) {
    && i.ref == p.ref && IsFresh(i) && i.kind == p.kind && (p.symbol == "" || i.symbol == "" || i.symbol == p.symbol)
  }

  lemma QuoteIsFound(m: Snapshot, i: Instrument)
    requires i in m
    ensures Lookup(m, i.ref) == Some(i)
  {
    MembersLookUp(m, i);
  }

  /** A position with a quote of its own takes over the price and is current; any other keeps its price and is not. */
  lemma MarksFollowQuotes(ps: seq<Position>, m: Snapshot, k: nat)
    requires k < |ps|
    ensures |MarkAll(ps, m)| == |ps|
    ensures var p, q := ps[k], MarkAll(ps, m)[k];
            && q == p.(mark := q.mark, current := q.current)
            && (forall i :: i in m && Quotes(p, i) ==> q.mark == i.mark && q.current)
            && ((forall i :: i in m ==> !Quotes(p, i)) ==> q.mark == p.mark && !q.current)
  {
    forall i | i in m && Quotes(ps[k], i) ensures MarkAll(ps, m)[k].mark == i.mark && MarkAll(ps, m)[k].current {
      QuoteIsFound(m, i);
    }
  }

  // ----- Settlement -----

  /** The snapshot has the outcome of the position's market. */
  predicate Decided(p: Position, m: Snapshot) {
    p.kind.Prediction? && exists i :: i in m && i.ref == p.ref && i.kind.Prediction? && i.settled && IsFresh(i)
  }

  lemma DecidedIs(p: Position, m: Snapshot)
    ensures SettlesAt(p, Lookup(m, p.ref)) <==> Decided(p, m)
  {
    forall i | i in m && i.ref == p.ref ensures Lookup(m, p.ref) == Some(i) { QuoteIsFound(m, i); }
  }

  lemma SoldIsGone(b: Book, m: Snapshot, k: nat, p: Position)
    requires DistinctPositions(b.positions) && k < |b.positions| && b.positions[k] == p && p.quantity > 0.0
    requires SettlesAt(p, Lookup(m, p.ref))
    ensures ExecuteSell(b, Lookup(m, p.ref).value, 0, true).Some?
    ensures ExecuteSell(b, Lookup(m, p.ref).value, 0, true).value.book.positions == b.positions[..k] + b.positions[k + 1..]
  {
    FindIs(b.positions, k);
  }

  lemma RemovedAre(ps: seq<Position>, k: nat)
    requires DistinctPositions(ps) && k < |ps|
    ensures var after := ps[..k] + ps[k + 1..];
            DistinctPositions(after) && forall q :: q in after <==> q in ps && q != ps[k]
  {
    var after := ps[..k] + ps[k + 1..];
    forall q | q in ps && q != ps[k] ensures q in after {
      var j :| 0 <= j < |ps| && ps[j] == q;
      assert if j < k then after[j] == q else after[j - 1] == q;
    }
  }

  lemma EmptySellsNothing(b: Book, m: Snapshot, p: Position)
    requires DistinctPositions(b.positions) && SettlesAt(p, Lookup(m, p.ref))
    requires (p in b.positions && p.quantity <= 0.0) || forall q :: q in b.positions ==> q.ref != p.ref
    ensures ExecuteSell(b, Lookup(m, p.ref).value, 0, true).None?
  {
    var k := Find(b.positions, p.ref);
    if k.Some? && p in b.positions {
      var j :| 0 <= j < |b.positions| && b.positions[j] == p;
      FindIs(b.positions, j);
    }
  }

  /** The settled ones among `rest` go, the others stay. */
  lemma {:induction false} SettlesExactly(b: Book, m: Snapshot, all: seq<Position>, rest: seq<Position>)
    requires DistinctPositions(all) && DistinctPositions(b.positions) && Within(b.positions, all) && Within(rest, all)
    ensures forall q :: q in Settle(b, m, rest).book.positions
                        <==> q in b.positions && !(q in rest && q.quantity > 0.0 && SettlesAt(q, Lookup(m, q.ref)))
    decreases |rest|
  {
    if rest != [] {
      var p := rest[0];
      assert p in rest && rest == [p] + rest[1..];
      if SettlesAt(p, Lookup(m, p.ref)) && p in b.positions && p.quantity > 0.0 {
        var k :| 0 <= k < |b.positions| && b.positions[k] == p;
        SoldIsGone(b, m, k, p);
        RemovedAre(b.positions, k);
        SettlesExactly(ExecuteSell(b, Lookup(m, p.ref).value, 0, true).value.book, m, all, rest[1..]);
      } else {
        if SettlesAt(p, Lookup(m, p.ref)) {
          forall q | q in b.positions && q.ref == p.ref ensures q == p { SameRefSamePosition(all, q, p); }
          EmptySellsNothing(b, m, p);
        }
        SettlesExactly(b, m, all, rest[1..]);
      }
    }
  }

  /** A live book keeps exactly the marked positions whose market is not decided, or that hold nothing. */
  lemma DecidedPositionsAreClosed(b: Book, m: Snapshot)
    requires WellKept(b.positions) && !b.postmortem
    ensures forall q :: q in Opening(b, m).book.positions
                        <==> q in MarkAll(b.positions, m) && !(q.quantity > 0.0 && Decided(q, m))
  {
    MarkingKeepsPositions(b.positions, m);
    var marked := Marking(b, m);
    SettlesExactly(marked, m, marked.positions, marked.positions);
    forall q: Position ensures SettlesAt(q, Lookup(m, q.ref)) <==> Decided(q, m) { DecidedIs(q, m); }
  }

  // ----- Summary figures -----

  function Worths(ps: seq<Position>): seq<int> { seq(|ps|, k requires 0 <= k < |ps| => Round(Worth(ps[k].quantity, ps[k].mark))) }

  lemma ExposureOfLast(ps: seq<Position>)
    requires ps != []
    ensures var p := ps[|ps| - 1];
            Exposure(ps) == Exposure(ps[..|ps| - 1]) + if p.quantity > 0.0 then (if ValueOf(p) < 0 then -ValueOf(p) else ValueOf(p)) else 0
  {}

  lemma NothingIsWorth(mark: real)
    ensures Worth(0.0, mark) == 0.0
  {}

  lemma WorthOf(p: Position)
    requires p.quantity >= 0.0 && p.mark >= 0.0
    ensures ValueOf(p) == Round(Worth(p.quantity, p.mark)) >= 0
    ensures p.quantity == 0.0 ==> Round(Worth(p.quantity, p.mark)) == 0
  {
    WorthNonNegative(p.quantity, p.mark);
    RoundMonotone(0.0, Worth(p.quantity, p.mark));
    RoundOfInt(0);
    if p.quantity == 0.0 { NothingIsWorth(p.mark); }
  }

  lemma {:induction false} ExposureIsWorth(ps: seq<Position>)
    requires forall p :: p in ps ==> p.quantity >= 0.0 && p.mark >= 0.0
    ensures Exposure(ps) == Sum(Worths(ps))
  {
    if ps != [] {
      var init, last := ps[..|ps| - 1], ps[|ps| - 1];
      assert last in ps;
      ExposureIsWorth(init);
      ExposureOfLast(ps);
      WorthOf(last);
      assert Worths(ps) == Worths(init) + [Round(Worth(last.quantity, last.mark))];
      SumAppend(Worths(init), [Round(Worth(last.quantity, last.mark))]);
      SumOfOne(Round(Worth(last.quantity, last.mark)));
    }
  }

  lemma SumOfOne(x: int)
    ensures Sum([x]) == x
  {
    assert [x][1..] == [];
  }

  function Fall(high: int, equity: int): real
    requires high > 0
  {
    (high - equity) as real / high as real * 1_000_000.0
  }

  lemma DrawdownIs(b: Book)
    ensures Drawdown(b) == Round(Fall(HighWater(b), EquityOf(b)))
  {}

  /** Equity is cash and the worth of every holding at its mark, the high-water mark the highest equity seen, and the
      drawdown the deepest fall from it, in ten-thousandths of a percent. */
  lemma SummaryFigures(b: Book)
    requires forall p :: p in b.positions ==> p.quantity >= 0.0 && p.mark >= 0.0
    ensures var s := Measured(b);
            && s.equity == b.cash + Sum(Worths(b.positions))
            && s.highWater == Max(Max(b.highWater, s.equity), 200_000)
            && s.maxDrawdown == Max(b.maxDrawdown, Round(Fall(s.highWater, s.equity)))
            && s == b.(equity := s.equity, highWater := s.highWater, maxDrawdown := s.maxDrawdown)
  {
    ExposureIsWorth(b.positions);
    DrawdownIs(b);
  }

  // ----- Orders -----

  /** What is held of a reference, at its mark. */
  function HeldWorth(ps: seq<Position>, ref: nat): int {
    match Find(ps, ref) case None => 0 case Some(k) => Round(Worth(ps[k].quantity, ps[k].mark))
  }

  function Gap(b: Book, targets: map<nat, int>, ref: nat): int
    requires ref in targets
  {
    targets[ref] - HeldWorth(b.positions, ref)
  }

  function Size(x: int): nat { if x < 0 then -x else x }

  function LeastOrder(l: Line): int { match l case Standard => 4_000 case Aggressive => 2_000 case HyperAggressive => 500 }

  /** The order for a reference closes the gap to its target, or as much of it as one order may. */
  predicate Closes(b: Book, targets: map<nat, int>, o: Order) {
    var ref := o.instrument.ref;
    && ref in targets && Gap(b, targets, ref) != 0
    && (if Gap(b, targets, ref) < 0 then o.side == Sell else o.side == Buy)
    && o.notional == Min(Size(Gap(b, targets, ref)), 200_000) && Size(Gap(b, targets, ref)) >= LeastOrder(b.line)
  }

  lemma HeldWorthIs(ps: seq<Position>, ref: nat)
    ensures HeldValue(ps, ref) == HeldWorth(ps, ref)
  {}

  lemma GapIs(b: Book, targets: map<nat, int>, ref: nat)
    requires ref in targets
    ensures Delta(b, targets, ref) == Gap(b, targets, ref)
  {
    HeldWorthIs(b.positions, ref);
  }

  lemma OrderCloses(b: Book, m: Snapshot, targets: map<nat, int>, ref: nat)
    requires ref in targets
    ensures var o := OrderFor(b, m, targets, ref);
            && (o.Some? <==> Size(Gap(b, targets, ref)) >= LeastOrder(b.line) && exists i :: i in m && i.ref == ref)
            && (o.Some? ==> o.value.instrument in m && o.value.instrument.ref == ref && Closes(b, targets, o.value))
  {
    GapIs(b, targets, ref);
    LeastIs(b.line);
  }

  lemma LeastIs(l: Line)
    ensures ProfileOf(l).minimumOrder == LeastOrder(l) && ProfileOf(l).maximumOrder == 200_000
  {}

  lemma {:induction false} OrdersForHas(b: Book, m: Snapshot, targets: map<nat, int>, refs: seq<nat>, side: Side, ref: nat)
    requires ref in refs && OrderFor(b, m, targets, ref).Some? && OrderFor(b, m, targets, ref).value.side == side
    ensures OrderFor(b, m, targets, ref).value in OrdersFor(b, m, targets, refs, side)
  {
    if refs[0] != ref {
      assert refs == [refs[0]] + refs[1..];
      OrdersForHas(b, m, targets, refs[1..], side, ref);
    }
  }

  lemma {:induction false} WithRefsAre(items: seq<Instrument>, refs: seq<nat>, ref: nat)
    requires Increasing(refs)
    ensures ref in WithRefs(items, refs) <==> ref in refs || exists i :: i in items && i.ref == ref
  {
    if items != [] {
      WithRefsAre(items[1..], refs, ref);
      WithRefsIncreases(items[1..], refs);
      InsertRefIncreases(items[0].ref, WithRefs(items[1..], refs));
      assert items == [items[0]] + items[1..];
    }
  }

  lemma {:induction false} EligibleAre(s: Strategy, m: seq<Instrument>, i: Instrument)
    ensures i in Eligible(s, m) <==> i in m && EligibleFor(s, i) && i.mark > 0.0 && IsFresh(i)
  {
    if m != [] {
      EligibleAre(s, m[1..], i);
      assert m == [m[0]] + m[1..];
    }
  }

  /** The references of a rebalance: what is held, and every fresh eligible instrument with a price. */
  lemma TradedRefsAre(b: Book, m: Snapshot, ref: nat)
    ensures ref in TradedRefs(b, m)
            <==> (exists p :: p in b.positions && p.ref == ref)
                 || exists i :: i in m && i.ref == ref && EligibleFor(b.strategy, i) && i.mark > 0.0 && IsFresh(i)
  {
    HeldRefsIncrease(b.positions);
    WithRefsAre(Eligible(b.strategy, m), HeldRefs(b.positions), ref);
    forall i: Instrument ensures i in Eligible(b.strategy, m) <==> i in m && EligibleFor(b.strategy, i) && i.mark > 0.0 && IsFresh(i) {
      EligibleAre(b.strategy, m, i);
    }
  }

  /** Every order of a rebalance closes a gap between a holding and its target: a sell above it, a buy below it, for the
      distance, at most 2000. */
  lemma OrdersCloseGaps(b: Book, m: Snapshot)
    ensures var targets := Targets(b, m, TradedRefs(b, m));
            forall o :: o in Orders(b, m) ==> o.instrument in m && Closes(b, targets, o)
  {
    var refs := TradedRefs(b, m);
    var targets := Targets(b, m, refs);
    HeldRefsIncrease(b.positions);
    WithRefsIncreases(Eligible(b.strategy, m), HeldRefs(b.positions));
    OrdersForSide(b, m, targets, refs, Sell);
    OrdersForSide(b, m, targets, refs, Buy);
    forall o | o in Orders(b, m) ensures o.instrument in m && Closes(b, targets, o) {
      OrderCloses(b, m, targets, o.instrument.ref);
    }
  }

  /** And every gap of the line's least order or more, of a quoted instrument, has one. */
  lemma GapsHaveOrders(b: Book, m: Snapshot, i: Instrument)
    requires !b.postmortem && EquityOf(b) > 1 && Eligible(b.strategy, m) != [] && i in m && i.ref in TradedRefs(b, m)
    requires Size(Gap(b, Targets(b, m, TradedRefs(b, m)), i.ref)) >= LeastOrder(b.line)
    ensures exists o :: o in Orders(b, m) && o.instrument == i
  {
    var refs := TradedRefs(b, m);
    var targets := Targets(b, m, refs);
    OrderCloses(b, m, targets, i.ref);
    var o := OrderFor(b, m, targets, i.ref).value;
    QuoteIsFound(m, i);
    OrdersForHas(b, m, targets, refs, o.side, i.ref);
    assert o in Orders(b, m);
  }

  // ----- Target limits -----

  function GrossShare(l: Line): real { match l case Standard => 0.80 case Aggressive => 0.95 case HyperAggressive => 1.0 }

  function PositionShare(l: Line): real { match l case Standard => 0.40 case Aggressive => 0.65 case HyperAggressive => 1.0 }

  function MostTargets(l: Line): nat { match l case Standard => 3 case Aggressive => 2 case HyperAggressive => 1 }

  lemma LimitsAre(b: Book)
    ensures GrossTarget(b) == Round(Scaled(EquityOf(b) as real, GrossShare(b.line)))
    ensures PositionCap(b) == Scaled(EquityOf(b) as real, PositionShare(b.line))
  {
    SharesAre(b.line);
    LimitsFor(b, GrossShare(b.line), PositionShare(b.line));
  }

  lemma LimitsFor(b: Book, gross: real, most: real)
    requires gross == ProfileOf(b.line).targetGross && most == ProfileOf(b.line).maxPosition
    ensures GrossTarget(b) == Round(Scaled(EquityOf(b) as real, gross)) && PositionCap(b) == Scaled(EquityOf(b) as real, most)
  {}

  lemma SharesAre(l: Line)
    ensures ProfileOf(l).targetGross == GrossShare(l) && ProfileOf(l).maxPosition == PositionShare(l)
  {}

  lemma TargetsWithin(b: Book, m: Snapshot, gross: int, cap: int)
    requires EquityOf(b) >= 0 && gross == GrossTarget(b) && cap == Round(PositionCap(b))
    ensures var refs := TradedRefs(b, m); var targets := Targets(b, m, refs);
            TargetSum(targets, refs) <= gross && forall r :: r in refs ==> 0 <= targets[r] <= cap
  {
    TargetsFit(b, m);
  }

  /** Together the targets come to at most 80, 95 or 100 percent of the equity, and each to at most 40, 65 or 100, by
      the line. */
  lemma TargetsByLine(b: Book, m: Snapshot, gross: int, cap: int)
    requires EquityOf(b) >= 0
    requires gross == Round(Scaled(EquityOf(b) as real, GrossShare(b.line)))
    requires cap == Round(Scaled(EquityOf(b) as real, PositionShare(b.line)))
    ensures var refs := TradedRefs(b, m); var targets := Targets(b, m, refs);
            TargetSum(targets, refs) <= gross && forall r :: r in refs ==> 0 <= targets[r] <= cap
  {
    LimitsAre(b);
    TargetsWithin(b, m, gross, cap);
  }

  lemma CountIs(l: Line)
    ensures ProfileOf(l).targetCount == MostTargets(l)
  {}

  /** They are of three, two or one instruments, or of as many as are eligible. */
  lemma TargetsAreFew(b: Book, m: Snapshot)
    ensures |Selected(b, m)| == Min(|Eligible(b.strategy, m)|, MostTargets(b.line))
  {
    CountIs(b.line);
    EligibleWithin(b.strategy, m);
    TargetsAreEligible(ModeOf(b.strategy), ProfileOf(b.line).targetCount, Eligible(b.strategy, m));
  }

  // ----- What becomes of an order -----

  /** The cash a buy of this amount must find: the adverse price and the fee on top of it. */
  function CashNeeded(m: CostModel, notional: int): real { notional as real * (1.0 + Slip(m)) * (1.0 + m.fee / 10_000.0) }

  lemma CashNeededIs(m: CostModel, notional: int)
    ensures CashNeeded(m, notional) == RequiredCash(m, notional)
  {
    SlipIs(m);
  }

  /** The checks an order must pass. */
  predicate Allowed(b: Book, side: Side, notional: int, i: Instrument) {
    && IsFresh(i) && !b.postmortem && notional <= 200_001
    && (side.Buy? ==> i.mark > 0.0 && b.cash as real + 0.1 >= CashNeeded(i.costs, notional))
  }

  lemma AllowedIs(b: Book, side: Side, notional: int, i: Instrument)
    ensures Allowed(b, side, notional, i) <==> RiskPassed(b, side, notional, i)
  {
    CashNeededIs(i.costs, notional);
  }

  lemma FloorBelow(x: real)
    ensures x.Floor as real <= x < (x.Floor + 1) as real
  {}

  lemma ScaleUp(x: real, y: real, k: real)
    requires k >= 1.0 && x <= y
    ensures x * k <= y * k
  {}

  lemma ScaleStrictly(x: real, y: real, k: real)
    requires k >= 1.0 && x < y
    ensures x * k < y * k
  {}

  lemma FloorCovers(cash: real, k: real, q: real, n: int)
    requires k >= 1.0 && q * k == cash && n as real <= q < (n + 1) as real
    ensures n as real * k <= cash < (n + 1) as real * k
  {
    ScaleUp(n as real, q, k);
    ScaleStrictly(q, (n + 1) as real, k);
  }

  /** A rebalancing buy is cut down to the largest amount, in whole cents, whose need the cash covers. */
  lemma AffordableIsLargest(cash: int, m: CostModel)
    requires ValidCosts(m)
    ensures var n := Affordable(cash, m); CashNeeded(m, n) <= cash as real < CashNeeded(m, n + 1)
  {
    SlipIs(m);
    var k := CashMultiplier(m);
    var n := Affordable(cash, m);
    Quotient(cash as real, k);
    FloorBelow(cash as real / k);
    FloorCovers(cash as real, k, cash as real / k, n);
    NeedIs(m, n, k);
    NeedIs(m, n + 1, k);
  }

  lemma NeedIs(m: CostModel, n: int, k: real)
    requires k == (1.0 + Slip(m)) * (1.0 + m.fee / 10_000.0)
    ensures CashNeeded(m, n) == n as real * k
  {
    ProductOfThree(n as real, 1.0 + Slip(m), 1.0 + m.fee / 10_000.0);
  }

  /** A sell is carried out if it is allowed, and is otherwise avoided. */
  lemma SellIsPlaced(b: Book, o: Order, clamped: bool)
    requires o.side.Sell?
    ensures var t := Place(b, o, clamped); var ref := Some(o.instrument.ref);
            if !Allowed(b, Sell, o.notional, o.instrument) then t == Some(Trades(b, [], [Decision(Avoid, ref)]))
            else match ExecuteSell(b, o.instrument, o.notional, false)
              case None => t == Some(Trades(b, [], [Decision(PaperSell, ref)]))
              case Some(x) => t == Some(Trades(x.book, [x.fill], [Decision(PaperSell, ref)]))
  {
    AllowedIs(b, Sell, o.notional, o.instrument);
  }

  /** And so is a buy, of the amount it was cut down to. */
  lemma BuyIsPlaced(b: Book, o: Order)
    requires o.side.Buy? && ValidCosts(o.instrument.costs)
    ensures var t := Place(b, o, true); var ref := Some(o.instrument.ref);
            var n := Min(o.notional, Affordable(b.cash, o.instrument.costs));
            if !Allowed(b, Buy, n, o.instrument) then t == Some(Trades(b, [], [Decision(Avoid, ref)]))
            else match ExecuteBuy(b, o.instrument, n)
              case None => t == None
              case Some(x) => t == Some(Trades(x.book, [x.fill], [Decision(PaperBuy, ref)]))
  {
    AllowedIs(b, Buy, Min(o.notional, Affordable(b.cash, o.instrument.costs)), o.instrument);
  }

  lemma OneOrder(b: Book, o: Order, clamped: bool, t: Trades)
    requires Place(b, o, clamped) == Some(t)
    ensures RunOrders(b, [o], clamped) == Some(t) && Joined(Trades(b, [], []), t) == t
  {
    assert [o][1..] == [];
    assert RunOrders(t.book, [], clamped) == Some(Trades(t.book, [], []));
    assert t.fills + [] == t.fills == [] + t.fills && t.decisions + [] == t.decisions == [] + t.decisions;
  }

  /** Orders are placed one after the other, each on the book the earlier ones left. */
  lemma {:induction false} OrdersInTurn(b: Book, orders: seq<Order>, clamped: bool, k: nat)
    requires k < |orders| && RunOrders(b, orders, clamped).Some?
    ensures var before := RunOrders(b, orders[..k], clamped); var upTo := RunOrders(b, orders[..k + 1], clamped);
            && before.Some? && upTo.Some? && Place(before.value.book, orders[k], clamped).Some?
            && upTo.value == Joined(before.value, Place(before.value.book, orders[k], clamped).value)
    decreases |orders|
  {
    var first := Place(b, orders[0], clamped).value;
    if k == 0 {
      assert orders[..0] == [] && orders[..1] == [orders[0]];
      OneOrder(b, orders[0], clamped, first);
    } else {
      assert orders[..k][1..] == orders[1..][..k - 1] && orders[..k + 1][1..] == orders[1..][..k];
      OrdersInTurn(first.book, orders[1..], clamped, k - 1);
      var before := RunOrders(first.book, orders[1..][..k - 1], clamped).value;
      var next := Place(before.book, orders[k], clamped).value;
      JoinedAssociates(first, before, next);
    }
  }

  lemma JoinedAssociates(a: Trades, b: Trades, c: Trades)
    ensures Joined(a, Joined(b, c)) == Joined(Joined(a, b), c)
  {
    assert a.fills + (b.fills + c.fills) == (a.fills + b.fills) + c.fills;
    assert a.decisions + (b.decisions + c.decisions) == (a.decisions + b.decisions) + c.decisions;
  }

  // ----- The tick -----

  predicate SomeStale(ps: seq<Position>) { exists p :: p in ps && p.quantity > 0.0 && !p.current }

  lemma StaleIs(ps: seq<Position>)
    ensures StaleOpenMark(ps) <==> SomeStale(ps)
  {
    if p :| p in ps && p.quantity > 0.0 && !p.current {
      var k :| 0 <= k < |ps| && ps[k] == p;
    }
  }

  /** The tick of a book that has been marked and settled to p: what it decides after its settlements. */
  predicate Follows(b: Book, m: Snapshot, t: Ticked, c: Book, events: seq<Event>, decisions: seq<Decision>) {
    var opening := Opening(b, m);
    && t.book == Measured(c) && t.decisions == opening.decisions + decisions
    && t.events == FillEvents(opening.fills) + events + [Marked(t.book.equity)]
  }

  /** A crashed book is due a postmortem and trades no more; one with a stale open mark waits; any other, once seeded,
      places the orders of its rebalance and watches when there are none. */
  lemma SeededTickDoes(b: Book, m: Snapshot)
    requires Pretrade(b, m).seeded
    ensures var p := Pretrade(b, m); var x := Tick(b, m); var r := RunOrders(p, Orders(p, m), true);
            if p.postmortem then x.Some? && Follows(b, m, x.value, p, [], [Decision(PostmortemRequired, None)])
            else if p.equity <= 1 then
              x.Some? && Follows(b, m, x.value, p.(postmortem := true), [BookCrashed(p.equity)], [Decision(PostmortemRequired, None)])
            else if SomeStale(p.positions) then x.Some? && Follows(b, m, x.value, p, [], [Decision(Avoid, None)])
            else if r.None? then x.None?
            else x.Some? && Follows(b, m, x.value, r.value.book, FillEvents(r.value.fills),
                                    if r.value.decisions == [] then [Decision(Watch, None)] else r.value.decisions)
  {
    StaleIs(Pretrade(b, m).positions);
  }

  /** And one that is not seeded yet makes its initial allocation. */
  lemma NewTickDoes(b: Book, m: Snapshot)
    requires var p := Pretrade(b, m); !p.seeded && !p.postmortem && p.equity > 1 && !SomeStale(p.positions)
    ensures var p := Pretrade(b, m); var x := Tick(b, m);
            match SeedBook(p, m)
            case None => x.None?
            case Some(r) => x.Some? && Follows(b, m, x.value, r.book, FillEvents(r.fills), r.decisions)
  {
    StaleIs(Pretrade(b, m).positions);
  }
}
