/**
  What a trade pays per unit: the recorded fill of a buy or a sell in terms of its quantity, the mark and the cost
  model alone (scripts/mosaic_murmurs_paper_engine.py:767-965).
 */
module TradeValues {
  import opened Wrappers
  import opened Money
  import opened Market
  import opened Engine
  import opened Costs

  // ----- Amounts -----

  function Worth(quantity: real, mark: real): real { quantity * mark }

  /** The adverse components together, as a fraction of the price. */
  function Slip(m: CostModel): real { (m.halfSpread + m.slippage + m.impact + m.latency) / 10_000.0 }

  function Scaled(value: real, factor: real): real { value * factor }

  /** What a value at the mark changes hands for: the adverse components are in the price of crypto and equity, and
      among the cash costs of predictions. */
  function Amount(i: Instrument, value: real, side: Side): real {
    if i.kind.Prediction? then value
    else if side.Buy? then Scaled(value, 1.0 + Slip(i.costs))
    else Scaled(value, if Slip(i.costs) >= 1.0 then 0.0 else 1.0 - Slip(i.costs))
  }

  function SaleAmount(i: Instrument, quantity: real, settlement: bool): real {
    if settlement then Worth(quantity, i.mark) else Amount(i, Worth(quantity, i.mark), Sell)
  }

  function CashCost(i: Instrument, c: Engine.Costs): int { if i.kind.Prediction? then c.total else c.fee }

  predicate CostNear(cost: int, value: real, bps: real) { -0.5 <= cost as real - value * bps / 10_000.0 <= 0.5 }

  /** Each adverse component is its own rate on the value at the mark, and the fee its rate on what changed hands. */
  predicate CostsNear(c: Engine.Costs, m: CostModel, value: real, traded: real) {
    && CostNear(c.spread, value, m.halfSpread) && CostNear(c.slippage, value, m.slippage)
    && CostNear(c.impact, value, m.impact) && CostNear(c.latency, value, m.latency) && CostNear(c.fee, traded, m.fee)
    && c.total == c.fee + c.spread + c.slippage + c.impact + c.latency
  }

  lemma SlipIs(m: CostModel)
    ensures Slip(m) == AdverseBps(m) / BPS
    ensures BuyMultiplier(m) == 1.0 + Slip(m) && SellMultiplier(m) == if Slip(m) >= 1.0 then 0.0 else 1.0 - Slip(m)
  {}

  lemma ProductOfThree(x: real, y: real, z: real)
    ensures x * (y * z) == x * y * z
  {}

  lemma ProceedsAre(i: Instrument, q: real, settlement: bool)
    ensures Proceeds(i, q, settlement) == SaleAmount(i, q, settlement)
  {
    SlipIs(i.costs);
    ProductOfThree(q, i.mark, SellMultiplier(i.costs));
  }

  lemma BuyGrossIs(i: Instrument, notional: int)
    ensures BuyGross(i, notional) == Amount(i, notional as real, Buy)
  {
    SlipIs(i.costs);
  }

  lemma AmountIs(i: Instrument, value: real, side: Side)
    ensures Amount(i, value, side) == if i.kind.Prediction? then value else value * Multiplier(i.costs, side)
  {
    SlipIs(i.costs);
  }

  lemma GrossIs(i: Instrument, gross: real, side: Side)
    ensures var c := Breakdown(i, gross, side); c.gross == Round(gross) && c.total == c.fee + c.spread + c.slippage + c.impact + c.latency
  {}

  lemma NearIsNear(cost: int, value: real, bps: real)
    ensures NearRate(cost, value, bps) <==> CostNear(cost, value, bps)
  {}

  lemma AllNear(m: CostModel, c: Engine.Costs, value: real, traded: real)
    requires NearRate(c.spread, value, m.halfSpread) && NearRate(c.slippage, value, m.slippage)
    requires NearRate(c.impact, value, m.impact) && NearRate(c.latency, value, m.latency) && NearRate(c.fee, traded, m.fee)
    requires c.total == c.fee + c.spread + c.slippage + c.impact + c.latency
    ensures CostsNear(c, m, value, traded)
  {
    NearIsNear(c.spread, value, m.halfSpread);
    NearIsNear(c.slippage, value, m.slippage);
    NearIsNear(c.impact, value, m.impact);
    NearIsNear(c.latency, value, m.latency);
    NearIsNear(c.fee, traded, m.fee);
  }

  lemma BreakdownIsNear(i: Instrument, value: real, side: Side, traded: real, c: Engine.Costs)
    requires ValidCosts(i.costs) && value >= 0.0 && traded == Amount(i, value, side) && c == Breakdown(i, traded, side)
    ensures CostsNear(c, i.costs, value, traded)
  {
    AmountIs(i, value, side);
    ComponentsAreTheirRates(i, value, side);
    GrossIs(i, traded, side);
    AllNear(i.costs, c, value, traded);
  }

  lemma NetNear(v: real, cash: int)
    ensures -1 <= Round(v - cash as real) - (Round(v) - cash) <= 1
  {
    RoundNear(v);
    RoundNear(v - cash as real);
    IntegerDrift(Round(v - cash as real) - (Round(v) - cash), 1.0);
  }

  lemma Quotient(x: real, y: real)
    requires y > 0.0
    ensures x / y * y == x
  {}

  lemma QuotientBelow(x: real, y: real, q: real)
    requires y > 0.0 && x < q * y
    ensures x / y < q
  {}

  // ----- Sells -----

  /** The k-th position is the first of this reference. */
  predicate Holds(b: Book, k: nat, ref: nat) {
    k < |b.positions| && b.positions[k].ref == ref && forall j :: 0 <= j < k ==> b.positions[j].ref != ref
  }

  lemma SaleIs(b: Book, k: nat, i: Instrument, notional: nat, settlement: bool, x: Executed)
    requires Holds(b, k, i.ref) && ExecuteSell(b, i, notional, settlement) == Some(x)
    ensures var p, q := b.positions[k], SellQuantity(b.positions[k], i, notional, settlement);
            p.quantity > 0.0 && q > 0.0 && x == Sold(b, k, i, q, settlement)
  {
    assert Find(b.positions, i.ref) == Some(k);
  }

  /** What is recorded of a sale that brings v. */
  predicate Brings(i: Instrument, f: Fill, settlement: bool, v: real) {
    && f.costs.gross == Round(v)
    && f.cashAfter - f.cashBefore == Round(v - (if settlement then 0 else CashCost(i, f.costs)) as real)
    && (settlement ==> f.costs == Engine.Costs(f.costs.gross, 0, 0, 0, 0, 0, 0))
  }

  lemma SoldIs(b: Book, k: nat, i: Instrument, q: real, settlement: bool)
    requires k < |b.positions| && b.positions[k].quantity > 0.0
    ensures var f := Sold(b, k, i, q, settlement).fill;
            && f.quantity == q && Brings(i, f, settlement, Proceeds(i, q, settlement))
            && f.realized == Round((f.cashAfter - f.cashBefore) as real - BasisSold(b.positions[k], i, q))
            && (!settlement ==> f.costs == Breakdown(i, Proceeds(i, q, settlement), Sell))
  {}

  lemma FillIs(b: Book, k: nat, i: Instrument, notional: nat, settlement: bool, x: Executed) returns (v: real)
    requires Holds(b, k, i.ref) && ExecuteSell(b, i, notional, settlement) == Some(x)
    ensures x.fill.quantity > 0.0 && v == Proceeds(i, x.fill.quantity, settlement) && Brings(i, x.fill, settlement, v)
    ensures !settlement ==> x.fill.costs == Breakdown(i, v, Sell)
  {
    SaleIs(b, k, i, notional, settlement, x);
    var q := SellQuantity(b.positions[k], i, notional, settlement);
    SoldIs(b, k, i, q, settlement);
    v := Proceeds(i, q, settlement);
  }

  /** A settlement pays the quantity at its mark, free of cost; any other sale its amount, less the costs in cash. */
  predicate PaidFor(i: Instrument, f: Fill, settlement: bool) {
    var gross := Round(SaleAmount(i, f.quantity, settlement));
    && f.costs.gross == gross
    && (if settlement then f.cashAfter - f.cashBefore == gross && f.costs == Engine.Costs(gross, 0, 0, 0, 0, 0, 0)
        else -1 <= (f.cashAfter - f.cashBefore) - (gross - CashCost(i, f.costs)) <= 1)
  }

  lemma BringsPays(i: Instrument, f: Fill, settlement: bool, v: real)
    requires Brings(i, f, settlement, v) && v == SaleAmount(i, f.quantity, settlement)
    ensures PaidFor(i, f, settlement)
  {
    NetNear(v, CashCost(i, f.costs));
    assert v - 0 as real == v;
  }

  lemma SalePays(b: Book, k: nat, i: Instrument, notional: nat, settlement: bool, x: Executed)
    requires Holds(b, k, i.ref) && ExecuteSell(b, i, notional, settlement) == Some(x)
    ensures PaidFor(i, x.fill, settlement)
  {
    var v := FillIs(b, k, i, notional, settlement, x);
    ProceedsAre(i, x.fill.quantity, settlement);
    BringsPays(i, x.fill, settlement, v);
  }

  /** All of it in a settlement, or when the notional comes within a cent of its value; otherwise the quantity that is
      worth the notional at the mark. */
  predicate SellsFor(held: real, i: Instrument, notional: nat, settlement: bool, q: real) {
    if settlement || notional as real >= Worth(held, i.mark) - 1.0 then q == held else q < held && Worth(q, i.mark) == notional as real
  }

  lemma PartIsWorth(p: Position, i: Instrument, notional: nat, settlement: bool)
    requires i.mark > 0.0
    ensures SellsFor(p.quantity, i, notional, settlement, SellQuantity(p, i, notional, settlement))
  {
    if !settlement && notional as real < p.quantity * i.mark - 1.0 {
      Quotient(notional as real, i.mark);
      QuotientBelow(notional as real, i.mark, p.quantity);
    }
  }

  lemma QuantitySold(b: Book, k: nat, i: Instrument, notional: nat, settlement: bool, x: Executed)
    requires Holds(b, k, i.ref) && ExecuteSell(b, i, notional, settlement) == Some(x) && i.mark > 0.0
    ensures x.fill.quantity > 0.0 && SellsFor(b.positions[k].quantity, i, notional, settlement, x.fill.quantity)
  {
    SaleIs(b, k, i, notional, settlement, x);
    SoldIs(b, k, i, SellQuantity(b.positions[k], i, notional, settlement), settlement);
    PartIsWorth(b.positions[k], i, notional, settlement);
  }

  lemma WorthNonNegative(q: real, mark: real)
    requires q >= 0.0 && mark >= 0.0
    ensures Worth(q, mark) >= 0.0
  {
    ProductNonNegative(q, mark);
  }

  /** The costs an ordinary sale records, each at its own rate. */
  lemma SaleCosts(b: Book, k: nat, i: Instrument, notional: nat, x: Executed)
    requires Holds(b, k, i.ref) && ExecuteSell(b, i, notional, false) == Some(x) && ValidCosts(i.costs) && i.mark >= 0.0
    ensures CostsNear(x.fill.costs, i.costs, Worth(x.fill.quantity, i.mark), SaleAmount(i, x.fill.quantity, false))
  {
    var v := FillIs(b, k, i, notional, false, x);
    ProceedsAre(i, x.fill.quantity, false);
    WorthNonNegative(x.fill.quantity, i.mark);
    BreakdownIsNear(i, Worth(x.fill.quantity, i.mark), Sell, v, x.fill.costs);
  }

  /** What the quantity sold had cost: its share of the basis for predictions, its worth at the entry price otherwise. */
  function CostSold(p: Position, i: Instrument, quantity: real): real
    requires p.quantity > 0.0
  {
    if i.kind.Prediction? then p.costBasis as real * quantity / p.quantity else quantity * p.entry
  }

  lemma BasisSoldIs(p: Position, i: Instrument, quantity: real)
    requires p.quantity > 0.0
    ensures BasisSold(p, i, quantity) == CostSold(p, i, quantity)
  {}

  /** The result is what came in, less that. */
  lemma SaleResult(b: Book, k: nat, i: Instrument, notional: nat, settlement: bool, x: Executed)
    requires Holds(b, k, i.ref) && ExecuteSell(b, i, notional, settlement) == Some(x)
    ensures b.positions[k].quantity > 0.0
    ensures x.fill.realized == Round((x.fill.cashAfter - x.fill.cashBefore) as real - CostSold(b.positions[k], i, x.fill.quantity))
  {
    SaleIs(b, k, i, notional, settlement, x);
    SoldIs(b, k, i, SellQuantity(b.positions[k], i, notional, settlement), settlement);
    BasisSoldIs(b.positions[k], i, x.fill.quantity);
  }

  // ----- Buys -----

  /** What a buy's fill is made of. */
  predicate BuyFill(i: Instrument, notional: int, f: Fill)
    requires i.mark > 0.0 && ValidCosts(i.costs)
  {
    && f.quantity == BuyQuantity(i, notional) && f.costs == Breakdown(i, BuyGross(i, notional), Buy)
    && f.cashBefore - f.cashAfter == Outlay(i, notional)
  }

  lemma BuyIs(b: Book, i: Instrument, notional: int, x: Executed)
    requires i.mark > 0.0 && ValidCosts(i.costs) && ExecuteBuy(b, i, notional) == Some(x)
    ensures BuyFill(i, notional, x.fill)
  {}

  lemma ScaledQuotient(n: real, m: real, k: real)
    requires m > 0.0 && k > 0.0
    ensures m * k > 0.0 && n * k / (m * k) * m == n
  {
    PositiveProduct(m, k);
    var q := n * k / (m * k);
    Quotient(n * k, m * k);
    ProductOfThree(q, m, k);
    Cancels(q * m, n, k);
  }

  lemma Cancels(x: real, y: real, k: real)
    requires k > 0.0 && x * k == y * k
    ensures x == y
  {}

  lemma SlipNonNegative(m: CostModel)
    requires ValidCosts(m)
    ensures Slip(m) >= 0.0
  {}

  lemma BuyQuantityIsWorth(i: Instrument, notional: int)
    requires i.mark > 0.0 && ValidCosts(i.costs)
    ensures Worth(BuyQuantity(i, notional), i.mark) == notional as real
  {
    SlipIs(i.costs);
    SlipNonNegative(i.costs);
    if i.kind.Prediction? {
      Quotient(notional as real, i.mark);
    } else {
      ScaledQuotient(notional as real, i.mark, BuyMultiplier(i.costs));
    }
  }

  /** A buy obtains the quantity that is worth its notional at the mark. */
  lemma QuantityBought(b: Book, i: Instrument, notional: int, x: Executed)
    requires i.mark > 0.0 && ValidCosts(i.costs) && ExecuteBuy(b, i, notional) == Some(x)
    ensures Worth(x.fill.quantity, i.mark) == notional as real
  {
    BuyIs(b, i, notional, x);
    BuyQuantityIsWorth(i, notional);
  }

  /** It pays the amount of its notional and the costs in cash, to the cent - exactly, for predictions. */
  predicate PaysFor(i: Instrument, notional: int, f: Fill) {
    var gross := Round(Amount(i, notional as real, Buy));
    && f.costs.gross == gross && -1 <= (f.cashBefore - f.cashAfter) - (gross + CashCost(i, f.costs)) <= 1
    && (i.kind.Prediction? ==> f.cashBefore - f.cashAfter == notional + f.costs.total)
  }

  lemma OutlayIs(i: Instrument, notional: int, gross: real, c: Engine.Costs)
    requires gross == BuyGross(i, notional) && c == Breakdown(i, gross, Buy)
    ensures c.gross == Round(gross) && -1 <= Outlay(i, notional) - (c.gross + CashCost(i, c)) <= 1
    ensures i.kind.Prediction? ==> Outlay(i, notional) == notional + c.total
  {
    BuyPaysItsCosts(i, notional);
    GrossIs(i, gross, Buy);
  }

  lemma BuyPays(b: Book, i: Instrument, notional: int, x: Executed)
    requires i.mark > 0.0 && ValidCosts(i.costs) && ExecuteBuy(b, i, notional) == Some(x)
    ensures PaysFor(i, notional, x.fill)
  {
    BuyIs(b, i, notional, x);
    BuyGrossIs(i, notional);
    OutlayIs(i, notional, BuyGross(i, notional), x.fill.costs);
  }

  /** The costs a buy records, each at its own rate. */
  lemma BuyCosts(b: Book, i: Instrument, notional: nat, x: Executed)
    requires i.mark > 0.0 && ValidCosts(i.costs) && ExecuteBuy(b, i, notional) == Some(x)
    ensures CostsNear(x.fill.costs, i.costs, notional as real, Amount(i, notional as real, Buy))
  {
    BuyIs(b, i, notional, x);
    BuyGrossIs(i, notional);
    BreakdownIsNear(i, notional as real, Buy, BuyGross(i, notional), x.fill.costs);
  }
}
