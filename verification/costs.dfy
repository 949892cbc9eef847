/**
  Execution costs: how the components relate to the adverse price, and how far separate rounding can
  take a buy past the cash its check allowed for.
 */
module Costs {
  import opened Wrappers
  import opened Money
  import opened Market
  import opened Engine

  // ----- Arithmetic on one product at a time -----

  lemma ProductNonNegative(x: real, y: real)
    requires x >= 0.0 && y >= 0.0
    ensures x * y >= 0.0
  {}

  lemma RoundNonNegative(x: real)
    requires x >= 0.0
    ensures Round(x) >= 0
  {}

  lemma QuotientOfProduct(x: real, y: real)
    requires y > 0.0
    ensures x * y / y == x
  {}

  lemma SharesAddUp(x: real, a: real, b: real, c: real, d: real, all: real)
    requires all > 0.0 && a + b + c + d == all
    ensures Share(x, a, all) + Share(x, b, all) + Share(x, c, all) + Share(x, d, all) == x
  {
    assert x * a + x * b + x * c + x * d == x * all;
    QuotientOfProduct(x, all);
    assert x * a / all + x * b / all + x * c / all + x * d / all == (x * a + x * b + x * c + x * d) / all;
  }

  lemma ShareNear(impact: real, bps: real, all: real)
    requires all > 0.0
    ensures -0.5 <= ShareOf(impact, bps, all) as real - Share(impact, bps, all) <= 0.5
  {
    RoundNear(Share(impact, bps, all));
  }

  lemma ShareNonNegative(impact: real, bps: real, all: real)
    requires impact >= 0.0 && bps >= 0.0
    ensures ShareOf(impact, bps, all) >= 0
  {
    if all > 0.0 {
      ProductNonNegative(impact, bps);
      ProductNonNegative(impact * bps, 1.0 / all);
      assert impact * bps / all == impact * bps * (1.0 / all);
      RoundNonNegative(Share(impact, bps, all));
    }
  }

  // ----- Components -----

  function Adverse(c: Engine.Costs): int { c.spread + c.slippage + c.impact + c.latency }

  /** The four adverse components make up the price impact to within two cents, the fee is the rate to
      within half a cent, and the total is exactly their sum. */
  lemma ComponentsMakeUpImpact(i: Instrument, gross: real, side: Side)
    requires ValidCosts(i.costs) && AdverseBps(i.costs) > 0.0
    ensures var c := Breakdown(i, gross, side);
            && -2.0 <= Adverse(c) as real - PriceImpact(i, gross, side) <= 2.0
            && -0.5 <= c.fee as real - Rate(gross, i.costs.fee) <= 0.5
            && c.total == c.fee + Adverse(c)
  {
    SharesMakeUp(PriceImpact(i, gross, side), i.costs);
    RoundNear(Rate(gross, i.costs.fee));
  }

  lemma SharesMakeUp(x: real, m: CostModel)
    requires AdverseBps(m) > 0.0
    ensures var all := AdverseBps(m);
            -2.0 <= (ShareOf(x, m.halfSpread, all) + ShareOf(x, m.slippage, all) + ShareOf(x, m.impact, all) + ShareOf(x, m.latency, all)) as real - x <= 2.0
  {
    var all := AdverseBps(m);
    ShareNear(x, m.halfSpread, all);
    ShareNear(x, m.slippage, all);
    ShareNear(x, m.impact, all);
    ShareNear(x, m.latency, all);
    SharesAddUp(x, m.halfSpread, m.slippage, m.impact, m.latency, all);
  }

  lemma MultiplierRange(m: CostModel, side: Side)
    requires ValidCosts(m)
    ensures 0.6 <= Multiplier(m, side) <= 1.4
    ensures if side.Buy? then Multiplier(m, side) >= 1.0 else Multiplier(m, side) <= 1.0
  {}

  /** For crypto and equity the price impact is exactly what the adverse price adds to or takes from the
      value at the mark; for predictions it is the adverse rate on the traded amount. */
  lemma ImpactIsAdversePrice(i: Instrument, value: real, side: Side)
    requires ValidCosts(i.costs) && value >= 0.0
    ensures i.kind.Prediction? ==> PriceImpact(i, value, side) == Rate(value, AdverseBps(i.costs))
    ensures !i.kind.Prediction? ==>
              var traded := value * Multiplier(i.costs, side);
              PriceImpact(i, traded, side) == if side.Buy? then traded - value else value - traded
  {
    if !i.kind.Prediction? {
      var k := Multiplier(i.costs, side);
      MultiplierRange(i.costs, side);
      Apart(value, k);
      ImpactIsDistance(i, value * k, value, side);
    }
  }

  lemma ImpactIsDistance(i: Instrument, traded: real, value: real, side: Side)
    requires !i.kind.Prediction? && ValidCosts(i.costs) && traded == value * Multiplier(i.costs, side)
    ensures PriceImpact(i, traded, side) == AbsReal(traded - value)
  {
    MultiplierRange(i.costs, side);
    QuotientOfProduct(value, Multiplier(i.costs, side));
  }

  lemma Apart(value: real, k: real)
    requires value >= 0.0
    ensures k >= 1.0 ==> value * k >= value
    ensures k <= 1.0 ==> value * k <= value
  {
    assert value * (k - 1.0) == value * k - value;
    if k >= 1.0 { ProductNonNegative(value, k - 1.0); }
    if k <= 1.0 { ProductNonNegative(value, 1.0 - k); }
  }

  lemma ShareOfRate(value: real, bps: real, all: real)
    requires all > 0.0
    ensures Share(Rate(value, all), bps, all) == Rate(value, bps)
  {
    assert value * all / BPS * bps == value * bps / BPS * all;
    QuotientOfProduct(value * bps / BPS, all);
  }

  lemma AdverseParts(value: real, bps: real)
    ensures value * (1.0 + bps / BPS) - value == Rate(value, bps)
    ensures value - value * (1.0 - bps / BPS) == Rate(value, bps)
  {
    assert value * (1.0 + bps / BPS) == value + value * (bps / BPS);
    assert value * (1.0 - bps / BPS) == value - value * (bps / BPS);
  }

  lemma ImpactIsRate(i: Instrument, value: real, side: Side)
    requires ValidCosts(i.costs) && value >= 0.0
    ensures var traded := if i.kind.Prediction? then value else value * Multiplier(i.costs, side);
            PriceImpact(i, traded, side) == Rate(value, AdverseBps(i.costs))
  {
    ImpactIsAdversePrice(i, value, side);
    AdverseParts(value, AdverseBps(i.costs));
    MultiplierIs(i.costs, side);
  }

  lemma MultiplierIs(m: CostModel, side: Side)
    requires ValidCosts(m)
    ensures Multiplier(m, side) == if side.Buy? then 1.0 + AdverseBps(m) / BPS else 1.0 - AdverseBps(m) / BPS
  {}

  predicate NearRate(cost: int, value: real, bps: real) { -0.5 <= cost as real - Rate(value, bps) <= 0.5 }

  lemma ComponentNearRate(value: real, bps: real, all: real)
    requires 0.0 <= bps <= all
    ensures NearRate(ShareOf(Rate(value, all), bps, all), value, bps)
  {
    if all > 0.0 {
      ShareOfRate(value, bps, all);
      ShareNear(Rate(value, all), bps, all);
    }
  }

  /** Each adverse component of a trade is its own rate on the value at the mark, and the fee its rate on
      what was traded, each to half a cent. */
  lemma ComponentsAreTheirRates(i: Instrument, value: real, side: Side)
    requires ValidCosts(i.costs) && value >= 0.0
    ensures var traded := if i.kind.Prediction? then value else value * Multiplier(i.costs, side);
            var c := Breakdown(i, traded, side);
            && NearRate(c.spread, value, i.costs.halfSpread) && NearRate(c.slippage, value, i.costs.slippage)
            && NearRate(c.impact, value, i.costs.impact) && NearRate(c.latency, value, i.costs.latency)
            && NearRate(c.fee, traded, i.costs.fee)
  {
    var traded := if i.kind.Prediction? then value else value * Multiplier(i.costs, side);
    var all := AdverseBps(i.costs);
    ImpactIsRate(i, value, side);
    ComponentNearRate(value, i.costs.halfSpread, all);
    ComponentNearRate(value, i.costs.slippage, all);
    ComponentNearRate(value, i.costs.impact, all);
    ComponentNearRate(value, i.costs.latency, all);
    RoundNear(Rate(traded, i.costs.fee));
  }

  lemma ImpactNonNegative(i: Instrument, gross: real, side: Side)
    requires ValidCosts(i.costs) && gross >= 0.0
    ensures PriceImpact(i, gross, side) >= 0.0
  {
    ProductNonNegative(gross, AdverseBps(i.costs));
  }

  lemma RateNonNegative(x: real, bps: real)
    requires x >= 0.0 && bps >= 0.0
    ensures Rate(x, bps) >= 0.0
  {
    ProductNonNegative(x, bps);
  }

  /** A trade of a non-negative amount has no negative cost. */
  lemma CostsNonNegative(i: Instrument, gross: real, side: Side)
    requires ValidCosts(i.costs) && gross >= 0.0
    ensures var c := Breakdown(i, gross, side);
            && 0 <= c.gross && 0 <= c.fee && 0 <= c.spread && 0 <= c.slippage && 0 <= c.impact && 0 <= c.latency
            && c.total == c.fee + Adverse(c)
  {
    var m := i.costs;
    ImpactNonNegative(i, gross, side);
    SharesNonNegative(PriceImpact(i, gross, side), m);
    RateNonNegative(gross, m.fee);
    RoundNonNegative(gross);
    RoundNonNegative(Rate(gross, m.fee));
  }

  lemma SharesNonNegative(x: real, m: CostModel)
    requires x >= 0.0 && ValidCosts(m)
    ensures ShareOf(x, m.halfSpread, AdverseBps(m)) >= 0 && ShareOf(x, m.slippage, AdverseBps(m)) >= 0
    ensures ShareOf(x, m.impact, AdverseBps(m)) >= 0 && ShareOf(x, m.latency, AdverseBps(m)) >= 0
  {
    ShareNonNegative(x, m.halfSpread, AdverseBps(m));
    ShareNonNegative(x, m.slippage, AdverseBps(m));
    ShareNonNegative(x, m.impact, AdverseBps(m));
    ShareNonNegative(x, m.latency, AdverseBps(m));
  }

  // ----- Cash -----

  /** A buy pays its recorded gross amount and cash costs, to the cent - exactly, for predictions. */
  lemma BuyPaysItsCosts(i: Instrument, notional: int)
    ensures var c := Breakdown(i, BuyGross(i, notional), Buy);
            var paid := c.gross + CashCosts(i, c);
            && paid - 1 <= Outlay(i, notional) <= paid + 1
            && (i.kind.Prediction? ==> c.gross == notional && Outlay(i, notional) == paid)
  {
    var gross := BuyGross(i, notional);
    var c := Breakdown(i, gross, Buy);
    RoundNear(gross);
    RoundNear(gross + CashCosts(i, c) as real);
    IntegerDrift(Outlay(i, notional) - c.gross - CashCosts(i, c), 1.0);
    RoundOfInt(notional);
    RoundOfInt(notional + c.total);
  }

  /** A sell yields its recorded gross amount less its cash costs, to the cent, and a settlement exactly. */
  lemma SellYieldsItsProceeds(i: Instrument, proceeds: real, settlement: bool)
    ensures var c := SellCosts(i, proceeds, settlement);
            var net := NetProceeds(i, proceeds, c, settlement);
            if settlement then net == c.gross && c.total == 0
            else -1 <= net - (c.gross - CashCosts(i, c)) <= 1
  {
    var c := SellCosts(i, proceeds, settlement);
    var net := NetProceeds(i, proceeds, c, settlement);
    RoundNear(proceeds);
    RoundNear(proceeds - CashCosts(i, c) as real);
    if settlement {
      assert proceeds - 0.0 == proceeds;
    } else {
      IntegerDrift(net - c.gross + CashCosts(i, c), 1.0);
    }
  }

  // ----- The affordability check -----

  lemma RequiredIs(m: CostModel, notional: int)
    ensures var gross := notional as real * BuyMultiplier(m); RequiredCash(m, notional) == gross + Rate(gross, m.fee)
  {
    Expand(notional as real, AdverseBps(m) / BPS, m.fee / BPS);
  }

  lemma RequiredCovers(m: CostModel, notional: nat)
    requires ValidCosts(m)
    ensures var n := notional as real; RequiredCash(m, notional) >= n + Rate(n, AdverseBps(m)) + Rate(n, m.fee)
  {
    var n := notional as real;
    var a := AdverseBps(m) / BPS;
    var f := m.fee / BPS;
    Expand(n, a, f);
    assert Rate(n, AdverseBps(m)) == n * a;
    assert Rate(n, m.fee) == n * f;
    ProductNonNegative(n, a);
    ProductNonNegative(n * a, f);
  }

  lemma Expand(n: real, a: real, f: real)
    ensures n * (1.0 + a) * (1.0 + f) == n * (1.0 + a) + n * (1.0 + a) * f
    ensures n * (1.0 + a) * (1.0 + f) == n + n * a + n * f + n * a * f
  {
    assert n * (1.0 + a) == n + n * a;
    assert (n + n * a) * f == n * f + n * a * f;
  }

  lemma PaidBound(i: Instrument, gross: real, c: Engine.Costs)
    requires !i.kind.Prediction? && c.fee == Round(Rate(gross, i.costs.fee))
    ensures Paid(i, gross, c) as real <= gross + Rate(gross, i.costs.fee) + 1.0
  {
    RoundNear(Rate(gross, i.costs.fee));
    RoundNear(gross + c.fee as real);
  }

  lemma PlainPaidBound(i: Instrument, notional: int, gross: real, c: Engine.Costs)
    requires !i.kind.Prediction? && c.fee == Round(Rate(gross, i.costs.fee)) && gross == notional as real * BuyMultiplier(i.costs)
    ensures Paid(i, gross, c) as real <= RequiredCash(i.costs, notional) + 1.0
  {
    PaidBound(i, gross, c);
    RequiredIs(i.costs, notional);
  }

  /** Crypto and equity: the outlay is at most a cent above the cash the check asks for. */
  lemma PlainOutlayBound(i: Instrument, notional: int)
    requires ValidCosts(i.costs) && !i.kind.Prediction?
    ensures Outlay(i, notional) as real <= RequiredCash(i.costs, notional) + 1.0
  {
    PlainPaidBound(i, notional, BuyGross(i, notional), Breakdown(i, BuyGross(i, notional), Buy));
  }

  /** The total cost of a prediction trade, against its exact rates. */
  lemma PredictionTotal(i: Instrument, gross: real)
    requires ValidCosts(i.costs) && i.kind.Prediction? && gross >= 0.0
    ensures Breakdown(i, gross, Buy).total as real <= Rate(gross, i.costs.fee) + Rate(gross, AdverseBps(i.costs)) + 2.5
  {
    if AdverseBps(i.costs) > 0.0 {
      ComponentsMakeUpImpact(i, gross, Buy);
    } else {
      RoundNear(Rate(gross, i.costs.fee));
      assert AdverseBps(i.costs) == 0.0;
    }
  }

  /** Predictions: the outlay is at most two and a half cents above the cash the check asks for. */
  lemma PredictionOutlayBound(i: Instrument, notional: nat)
    requires ValidCosts(i.costs) && i.kind.Prediction?
    ensures Outlay(i, notional) as real <= RequiredCash(i.costs, notional) + 2.5
  {
    PredictionTotal(i, notional as real);
    BuyPaysItsCosts(i, notional);
    RequiredCovers(i.costs, notional);
  }

  /** A buy of a positive amount that passed its checks leaves cash of at least minus one cent for crypto
      and equity, and minus two cents for predictions. */
  lemma OverdraftBound(b: Book, i: Instrument, notional: nat)
    requires notional > 0 && b.cash >= 0 && RiskPassed(b, Buy, notional, i) && ExecuteBuy(b, i, notional).Some?
    ensures ExecuteBuy(b, i, notional).value.book.cash >= if i.kind.Prediction? then -2 else -1
  {
    if i.kind.Prediction? { PredictionOutlayBound(i, notional); } else { PlainOutlayBound(i, notional); }
    assert Outlay(i, notional) as real <= b.cash as real + (if i.kind.Prediction? then 2.6 else 1.1);
    BuyLeaves(b, i, notional);
  }

  lemma BuyLeaves(b: Book, i: Instrument, notional: int)
    requires i.mark > 0.0 && ValidCosts(i.costs) && ExecuteBuy(b, i, notional).Some?
    ensures ExecuteBuy(b, i, notional).value.book.cash == b.cash - Outlay(i, notional)
  {}

  /** The margin that rules an overdraft out. */
  lemma MarginPreventsOverdraft(b: Book, i: Instrument, notional: nat)
    requires i.mark > 0.0 && ValidCosts(i.costs) && ExecuteBuy(b, i, notional).Some?
    requires RequiredCash(i.costs, notional) + (if i.kind.Prediction? then 2.5 else 1.0) <= b.cash as real
    ensures ExecuteBuy(b, i, notional).value.book.cash >= 0
  {
    if i.kind.Prediction? { PredictionOutlayBound(i, notional); } else { PlainOutlayBound(i, notional); }
    BuyLeaves(b, i, notional);
  }

  // ----- Exactly when the check covers a buy -----

  /** What the cash check compares. */
  predicate CashCovers(cash: int, m: CostModel, notional: int) { cash as real + 0.1 >= RequiredCash(m, notional) }

  /** The least whole amount of cash that passes the check. */
  function LeastCash(m: CostModel, notional: int): (c: int)
    ensures CashCovers(c, m, notional) && !CashCovers(c - 1, m, notional)
  {
    var x := RequiredCash(m, notional) - 0.1;
    if x.Floor as real == x then x.Floor else x.Floor + 1
  }

  lemma LeastCashIsLeast(m: CostModel, notional: int, outlay: int)
    ensures outlay <= LeastCash(m, notional) <==> outlay as real < RequiredCash(m, notional) + 0.9
    ensures forall cash :: CashCovers(cash, m, notional) <==> cash >= LeastCash(m, notional)
  {}

  /** A buy never overdraws, at whatever cash it passes the check, if and only if its outlay exceeds the
      required cash by less than nine tenths of a cent. */
  lemma CheckCoversBuyIff(i: Instrument, notional: int)
    ensures (forall cash :: CashCovers(cash, i.costs, notional) ==> cash - Outlay(i, notional) >= 0)
            <==> Outlay(i, notional) as real < RequiredCash(i.costs, notional) + 0.9
  {
    var least := LeastCash(i.costs, notional);
    LeastCashIsLeast(i.costs, notional, Outlay(i, notional));
    if Outlay(i, notional) > least {
      assert CashCovers(least, i.costs, notional) && least - Outlay(i, notional) < 0;
    }
  }

  /** For one book: a checked buy overdraws exactly when the outlay is that far over and the cash is below it. */
  lemma CheckedBuyOverdrawsIff(b: Book, i: Instrument, notional: int)
    requires RiskPassed(b, Buy, notional, i) && ExecuteBuy(b, i, notional).Some?
    ensures var outlay := Outlay(i, notional);
            ExecuteBuy(b, i, notional).value.book.cash < 0
            <==> outlay as real >= RequiredCash(i.costs, notional) + 0.9 && LeastCash(i.costs, notional) <= b.cash < outlay
  {
    LeastCashIsLeast(i.costs, notional, Outlay(i, notional));
    BuyLeaves(b, i, notional);
  }

  /** Without a fee the check of a crypto or equity buy is exact: no checked buy overdraws. */
  lemma FeeFreeBuysNeverOverdraw(b: Book, i: Instrument, notional: int)
    requires !i.kind.Prediction? && i.costs.fee == 0.0
    requires RiskPassed(b, Buy, notional, i) && ExecuteBuy(b, i, notional).Some?
    ensures ExecuteBuy(b, i, notional).value.book.cash >= 0
  {
    FeeFreeOutlay(i, notional);
    BuyLeaves(b, i, notional);
  }

  lemma ZeroRate(x: real)
    ensures Rate(x, 0.0) == 0.0
  {}

  lemma FeeFreePaid(i: Instrument, notional: int, gross: real, c: Engine.Costs)
    requires !i.kind.Prediction? && i.costs.fee == 0.0 && c.fee == 0 && gross == notional as real * BuyMultiplier(i.costs)
    ensures Paid(i, gross, c) as real <= RequiredCash(i.costs, notional) + 0.5
  {
    RequiredIs(i.costs, notional);
    ZeroRate(gross);
    RoundNear(gross);
  }

  lemma FeeFreeBreakdown(i: Instrument, gross: real)
    requires i.costs.fee == 0.0
    ensures Breakdown(i, gross, Buy).fee == 0
  {
    ZeroRate(gross);
    RoundOfInt(0);
  }

  lemma FeeFreeOutlay(i: Instrument, notional: int)
    requires !i.kind.Prediction? && i.costs.fee == 0.0
    ensures Outlay(i, notional) as real <= RequiredCash(i.costs, notional) + 0.5
  {
    FeeFreeBreakdown(i, BuyGross(i, notional));
    FeeFreePaid(i, notional, BuyGross(i, notional), Breakdown(i, BuyGross(i, notional), Buy));
  }

  // ----- The bounds are reached -----

  function Quoted(kind: Kind, mark: real, costs: CostModel): Instrument {
    Instrument(1, kind, "X", mark, false, true, costs, {}, None, "YES", 0.0, 0.0)
  }

  function Holding(cash: int): Book { NewBook(HyperAggressive, PredictionMarkets).(cash := cash) }

  /** With the default prediction costs, a buy cut down to what 6.03 affords overdraws by a cent. */
  lemma DefaultPredictionOverdraws()
    ensures var i := Quoted(Prediction, 50.0, CostModel(0.0, 25.0, 10.0, 5.0, 10.0));
            && Affordable(603, i.costs) == 600 && RiskPassed(Holding(603), Buy, 600, i)
            && Outlay(i, 600) == 604
  {
    var i := Quoted(Prediction, 50.0, CostModel(0.0, 25.0, 10.0, 5.0, 10.0));
    var c := Breakdown(i, 600.0, Buy);
    assert AdverseBps(i.costs) == 50.0;
    assert PriceImpact(i, 600.0, Buy) == 3.0;
    assert c.spread == 2 && c.slippage == 1 && c.impact == 0 && c.latency == 1 && c.fee == 0;
    assert CashMultiplier(i.costs) == 1.005;
    assert 600.0 <= 603.0 / 1.005 < 601.0;
  }

  function Hefty(z: real): Instrument { Quoted(Prediction, 50.0, CostModel(z, z, z, z, z)) }

  lemma PredictionBoundIsReached()
    ensures RiskPassed(Holding(54), Buy, 51, Hefty(100.0)) && Outlay(Hefty(100.0), 51) == 56
  {
    var p := Hefty(100.0);
    var c := Breakdown(p, 51.0, Buy);
    assert PriceImpact(p, 51.0, Buy) == 2.04;
    assert c.fee == 1 && c.spread == 1 && c.slippage == 1 && c.impact == 1 && c.latency == 1;
    assert RequiredCash(p.costs, 51) == 53.5704;
  }

  function Pricier(): Instrument { Quoted(Crypto, 50.0, CostModel(60.0, 5.0, 10.0, 2.0, 2.0)) }

  lemma PlainBoundIsReached()
    ensures RiskPassed(Holding(266), Buy, 264, Pricier()) && Outlay(Pricier(), 264) == 267
  {
    assert BuyGross(Pricier(), 264) == 264.5016;
    assert Breakdown(Pricier(), 264.5016, Buy).fee == 2;
  }

  /** Two cents for predictions, and one cent for crypto, are reached. */
  lemma OverdraftBoundsAreReached()
    ensures RiskPassed(Holding(54), Buy, 51, Hefty(100.0)) && Outlay(Hefty(100.0), 51) == 56
    ensures RiskPassed(Holding(266), Buy, 264, Pricier()) && Outlay(Pricier(), 264) == 267
  {
    PredictionBoundIsReached();
    PlainBoundIsReached();
  }
}
