/**
  Buying into a book: when a buy raises, why a clamped buy always passes the cash check, and that the
  initial allocation is all or nothing.
 */
module Seeding {
  import opened Wrappers
  import opened Money
  import opened Market
  import opened Selection
  import opened Engine
  import opened Accounting
  import opened BookOrders
  import opened Costs

  // ----- Single buys -----

  lemma QuotientSign(x: real, y: real)
    requires y > 0.0
    ensures (x > 0.0 ==> x / y > 0.0) && (x == 0.0 ==> x / y == 0.0)
  {}

  lemma GrossSign(i: Instrument, notional: int)
    requires ValidCosts(i.costs)
    ensures (notional > 0 ==> BuyGross(i, notional) > 0.0) && (notional == 0 <==> BuyGross(i, notional) == 0.0)
  {
    if notional > 0 { PositiveProduct(notional as real, BuyMultiplier(i.costs)); }
    if notional < 0 { PositiveProduct(-notional as real, BuyMultiplier(i.costs)); }
  }

  lemma BuyQuantitySign(i: Instrument, notional: int)
    requires i.mark > 0.0 && ValidCosts(i.costs)
    ensures (notional >= 0 ==> BuyQuantity(i, notional) >= 0.0) && (BuyQuantity(i, notional) == 0.0 <==> notional == 0)
  {
    var price := if i.kind.Prediction? then i.mark else i.mark * BuyMultiplier(i.costs);
    PositiveProduct(i.mark, BuyMultiplier(i.costs));
    GrossSign(i, notional);
    QuotientSign(BuyGross(i, notional), price);
  }

  /** The quantity a buy would divide by is zero: it cancels the holding exactly, or opens a crypto or equity
      position with nothing. */
  predicate BuysToZero(b: Book, i: Instrument, notional: int)
    requires i.mark > 0.0 && ValidCosts(i.costs)
  {
    var k := Find(b.positions, i.ref);
    if k.Some? then b.positions[k.value].quantity + BuyQuantity(i, notional) == 0.0 else notional == 0 && !i.kind.Prediction?
  }

  /** A buy of any amount, negative ones included, raises exactly in those two cases. */
  lemma BuyRaisesIff(b: Book, i: Instrument, notional: int)
    requires i.mark > 0.0 && ValidCosts(i.costs)
    ensures ExecuteBuy(b, i, notional).None? <==> BuysToZero(b, i, notional)
  {
    BuyQuantitySign(i, notional);
  }

  /** What a rebalancing buy is cut down to. */
  function Clamped(b: Book, o: Order): int
    requires ValidCosts(o.instrument.costs)
  {
    Min(o.notional, Affordable(b.cash, o.instrument.costs))
  }

  lemma AffordableSign(cash: int, m: CostModel)
    requires ValidCosts(m)
    ensures cash >= 0 ==> Affordable(cash, m) >= 0
    ensures cash == 0 ==> Affordable(cash, m) == 0
  {
    QuotientAtLeastZero(cash as real, CashMultiplier(m));
  }

  lemma QuotientAtLeastZero(x: real, y: real)
    requires y >= 1.0
    ensures (x >= 0.0 ==> x / y >= 0.0) && (x == 0.0 ==> x / y == 0.0)
  {
    if x > 0.0 { QuotientSign(x, y); }
  }

  /** A buy with invalid costs, or one that passes its checks and buys to zero. */
  predicate RaisingBuy(b: Book, o: Order) {
    && o.side.Buy?
    && (ValidCosts(o.instrument.costs) ==>
          RiskPassed(b, Buy, Clamped(b, o), o.instrument) && BuysToZero(b, o.instrument, Clamped(b, o)))
  }

  /** Placing a rebalancing order raises exactly for such a buy; a sell never does. */
  lemma PlaceRaisesIff(b: Book, o: Order)
    ensures Place(b, o, true).None? <==> RaisingBuy(b, o)
  {
    if o.side.Buy? && ValidCosts(o.instrument.costs) && RiskPassed(b, Buy, Clamped(b, o), o.instrument) {
      BuyRaisesIff(b, o.instrument, Clamped(b, o));
    }
  }

  /** With cash that is not negative and no short position, that is when the cash affords nothing, the other
      checks pass, and there is nothing to add to, or an empty position. */
  lemma PlaceRaisesWithoutCashIff(b: Book, o: Order)
    requires o.side.Buy? && o.notional > 0 && ValidCosts(o.instrument.costs) && b.cash >= 0 && NonNegative(b.positions)
    ensures Place(b, o, true).None?
            <==> && Affordable(b.cash, o.instrument.costs) == 0
                 && IsFresh(o.instrument) && o.instrument.mark > 0.0 && !b.postmortem
                 && var k := Find(b.positions, o.instrument.ref);
                    if k.Some? then b.positions[k.value].quantity == 0.0 else !o.instrument.kind.Prediction?
  {
    var i := o.instrument;
    AffordableSign(b.cash, i.costs);
    PlaceRaisesIff(b, o);
    if i.mark > 0.0 {
      BuyQuantitySign(i, Clamped(b, o));
      var k := Find(b.positions, i.ref);
      if k.Some? { assert b.positions[k.value] in b.positions; }
      ClampedBuyPassesCashCheck(b.cash, i.costs, Clamped(b, o));
    }
  }

  lemma FloorTimes(x: real, y: real, n: int)
    requires y > 0.0 && n as real <= x / y
    ensures n as real * y <= x
  {
    var q := x / y;
    assert q * y == x;
    assert (q - n as real) * y >= 0.0;
  }

  /** The cash check never blocks a buy that was cut down to the affordable amount, even from negative
      cash, where the amount is negative as well. */
  lemma ClampedBuyPassesCashCheck(cash: int, m: CostModel, notional: int)
    requires ValidCosts(m) && notional <= Affordable(cash, m)
    ensures RequiredCash(m, notional) <= cash as real
    ensures cash < 0 ==> notional < 0
  {
    FloorTimes(cash as real, CashMultiplier(m), notional);
    assert RequiredCash(m, notional) == notional as real * CashMultiplier(m);
    if notional >= 0 { ProductNonNegative(notional as real, CashMultiplier(m)); }
  }

  // ----- The initial allocation -----

  lemma RequiredAtMost(m: CostModel, n: nat)
    requires ValidCosts(m)
    ensures RequiredCash(m, n) <= n as real * 1.54
  {
    var x := BuyMultiplier(m);
    var y := 1.0 + m.fee / BPS;
    assert x * y <= 1.4 * y;
    assert 1.4 * y <= 1.54;
    assert n as real * x * y == n as real * (x * y);
    ProductNonNegative(n as real, 1.54 - x * y);
    assert n as real * (1.54 - x * y) == n as real * 1.54 - n as real * (x * y);
  }

  lemma GrossCovers(i: Instrument, notional: nat)
    requires ValidCosts(i.costs)
    ensures BuyGross(i, notional) >= notional as real
  {
    Apart(notional as real, BuyMultiplier(i.costs));
  }

  /** The basis a buy adds covers its notional. */
  lemma OutlayCoversNotional(i: Instrument, notional: nat)
    requires ValidCosts(i.costs)
    ensures Outlay(i, notional) >= notional
  {
    var gross := BuyGross(i, notional);
    GrossCovers(i, notional);
    CostsNonNegative(i, gross, Buy);
    PaidCovers(i, notional, gross, Breakdown(i, gross, Buy));
  }

  lemma PaidCovers(i: Instrument, notional: nat, gross: real, c: Engine.Costs)
    requires gross >= notional as real && c.fee >= 0 && c.total >= 0
    ensures Paid(i, gross, c) >= notional
  {
    RoundMonotone(notional as real, gross + CashCosts(i, c) as real);
    RoundOfInt(notional);
  }

  /** A share of at least six cents costs less than twice itself. */
  lemma OutlayAtMostTwice(i: Instrument, notional: nat)
    requires ValidCosts(i.costs) && notional >= 6
    ensures Outlay(i, notional) <= 2 * notional && RequiredCash(i.costs, notional) <= 2.0 * notional as real
  {
    RequiredAtMost(i.costs, notional);
    if i.kind.Prediction? { PredictionOutlayBound(i, notional); } else { PlainOutlayBound(i, notional); }
  }

  function Notionals(orders: seq<Order>): nat {
    if orders == [] then 0 else orders[0].notional + Notionals(orders[1..])
  }

  predicate SeedOrder(b: Book, o: Order) {
    && o.side.Buy? && IsFresh(o.instrument) && o.instrument.mark > 0.0
    && 6 <= o.notional <= ProfileOf(b.line).maximumOrder
    && Find(b.positions, o.instrument.ref).None?
  }

  lemma SeedBuyFills(b: Book, o: Order)
    requires SeedOrder(b, o) && !b.postmortem && b.cash >= 2 * o.notional
    ensures Place(b, o, false).Some?
    ensures var t := Place(b, o, false).value;
            && |t.fills| == 1 && t.decisions == [Decision(PaperBuy, Some(o.instrument.ref))]
            && t.book.cash >= b.cash - 2 * o.notional
            && BasisTotal(t.book.positions) >= BasisTotal(b.positions) + o.notional
            && t.book.line == b.line && !t.book.postmortem
            && t.book.positions[..|t.book.positions| - 1] == b.positions
            && t.book.positions[|t.book.positions| - 1].ref == o.instrument.ref
  {
    var i := o.instrument;
    OutlayAtMostTwice(i, o.notional);
    OutlayCoversNotional(i, o.notional);
    BuyQuantitySign(i, o.notional);
    assert RiskPassed(b, Buy, o.notional, i);
    BuyParts(b, i, o.notional);
    var p := Bought(None, i, BuyQuantity(i, o.notional), Outlay(i, o.notional)).value;
    BasisAppend(b.positions, [p]);
    BasisOfOne(p);
  }

  lemma SeedOrdersStay(b: Book, c: Book, orders: seq<Order>)
    requires orders != [] && DistinctOrders(orders) && c.line == b.line
    requires |c.positions| > 0 && c.positions[..|c.positions| - 1] == b.positions
    requires c.positions[|c.positions| - 1].ref == orders[0].instrument.ref
    requires forall o :: o in orders ==> SeedOrder(b, o)
    ensures forall o :: o in orders[1..] ==> SeedOrder(c, o)
  {
    assert forall j :: 0 <= j < |b.positions| ==> c.positions[j] == b.positions[j];
    forall o | o in orders[1..] ensures SeedOrder(c, o) {
      assert o in orders && SeedOrder(b, o);
      assert o.instrument.ref != orders[0].instrument.ref;
    }
  }

  /** Every seed order fills when the cash is twice their sum. */
  lemma {:induction false} SeedOrdersAllFill(b: Book, orders: seq<Order>)
    requires DistinctOrders(orders) && !b.postmortem && b.cash >= 2 * Notionals(orders)
    requires forall o :: o in orders ==> SeedOrder(b, o)
    ensures RunOrders(b, orders, false).Some?
    ensures var t := RunOrders(b, orders, false).value;
            && |t.fills| == |orders| == |t.decisions|
            && (forall k :: 0 <= k < |orders| ==> t.decisions[k] == Decision(PaperBuy, Some(orders[k].instrument.ref)))
            && t.book.cash >= 0 && BasisTotal(t.book.positions) >= BasisTotal(b.positions) + Notionals(orders)
    decreases |orders|
  {
    if orders != [] {
      SeedBuyFills(b, orders[0]);
      var c := Place(b, orders[0], false).value.book;
      SeedOrdersStay(b, c, orders);
      SeedOrdersAllFill(c, orders[1..]);
    }
  }

  lemma {:induction false} NotionalsOf(orders: seq<Order>, shares: seq<nat>)
    requires |orders| == |shares| && forall k :: 0 <= k < |orders| ==> orders[k].notional == shares[k]
    ensures Notionals(orders) == Sum(shares)
  {
    if orders != [] { NotionalsOf(orders[1..], shares[1..]); }
  }

  lemma SharesAreLarge(total: nat, count: nat)
    requires 2 <= count <= 5 && total == SEED_CAPITAL
    ensures forall k :: 0 <= k < count ==> 20_000 <= Split(total, count)[k] <= 50_001
  {}

  /** The initial allocation of a new book buys every seed instrument and completes, or - when a mark is
      missing or stale - buys nothing and leaves the book new.  It never raises. */
  lemma InitialAllocationIsAllOrNothing(b: Book, m: Snapshot)
    requires b.positions == [] && b.cash == STARTING_CASH && !b.seeded && !b.postmortem
    ensures SeedBook(b, m).Some?
    ensures var t := SeedBook(b, m).value;
            match SeedInstruments(b.strategy, m)
            case None => t == Trades(b, [], [Decision(Avoid, None)])
            case Some(items) =>
              && t.book.seeded && t.book.cash >= 0 && BasisTotal(t.book.positions) >= SEED_CAPITAL
              && |t.fills| == |items| == |t.decisions|
              && forall k :: 0 <= k < |items| ==> t.decisions[k] == Decision(PaperBuy, Some(items[k].ref))
  {
    if SeedInstruments(b.strategy, m).Some? {
      var items := SeedInstruments(b.strategy, m).value;
      var orders := SeedOrders(items, SEED_CAPITAL);
      SeedsAreSound(b.strategy, m);
      SeedOrdersAreSound(b.strategy, m, SEED_CAPITAL);
      SplitIsFair(SEED_CAPITAL, |items|);
      NotionalsOf(orders, Split(SEED_CAPITAL, |items|));
      SharesAreLarge(SEED_CAPITAL, |items|);
      forall o | o in orders ensures SeedOrder(b, o) {
        var k :| 0 <= k < |orders| && orders[k] == o;
        assert items[k] in items;
      }
      SeedOrdersAllFill(b, orders);
    }
  }
}
