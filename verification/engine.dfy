/**
  One paper book through one tick: mark, settle, then crash, freeze, seed or rebalance
  (scripts/mosaic_murmurs_paper_engine.py).  Money is in whole cents, prices are cents per unit and
  quantities and prices are exact; every money() of the source is a Round here.  These functions
  specify the methods of PaperBook.
 */
module Engine {
  import opened Wrappers
  import opened Money
  import opened Market
  import opened Selection

  const STARTING_CASH := 200_000
  const SEED_CAPITAL := 100_000
  const CRASH_EQUITY := 1
  const DUST := 0.00000001

  datatype Side = Buy | Sell

  // ----- Costs -----

  datatype Costs = Costs(gross: int, fee: int, spread: int, slippage: int, impact: int, latency: int, total: int)

  function Rate(x: real, bps: real): real { x * bps / BPS }

  function BuyMultiplier(m: CostModel): real { 1.0 + AdverseBps(m) / BPS }

  function SellMultiplier(m: CostModel): real { MaxReal(0.0, 1.0 - AdverseBps(m) / BPS) }

  function Multiplier(m: CostModel, side: Side): real { if side.Buy? then BuyMultiplier(m) else SellMultiplier(m) }

  /** What the adverse components cost in all, before it is split among them. */
  function PriceImpact(i: Instrument, gross: real, side: Side): real {
    var multiplier := Multiplier(i.costs, side);
    if i.kind.Prediction? then Rate(gross, AdverseBps(i.costs))
    else AbsReal(gross - (if multiplier > 0.0 then gross / multiplier else 0.0))
  }

  function Share(impact: real, bps: real, total: real): real
    requires total > 0.0
  {
    impact * bps / total
  }

  function ShareOf(impact: real, bps: real, total: real): int {
    if total <= 0.0 then 0 else Round(Share(impact, bps, total))
  }

  function Breakdown(i: Instrument, gross: real, side: Side): Costs {
    var impact := PriceImpact(i, gross, side);
    var all := AdverseBps(i.costs);
    var fee := Round(Rate(gross, i.costs.fee));
    var spread := ShareOf(impact, i.costs.halfSpread, all);
    var slippage := ShareOf(impact, i.costs.slippage, all);
    var market := ShareOf(impact, i.costs.impact, all);
    var latency := ShareOf(impact, i.costs.latency, all);
    Costs(Round(gross), fee, spread, slippage, market, latency, fee + spread + slippage + market + latency)
  }

  function FreeOfCost(gross: int, nil: int): Costs { Costs(gross, nil, nil, nil, nil, nil, nil) }

  // ----- Books -----

  datatype Position = Position(ref: nat, kind: Kind, symbol: string, quantity: real, entry: real, mark: real, costBasis: int, current: bool)

  datatype Counters = Counters(fees: int, spread: int, slippage: int, impact: int, latency: int, total: int, turnover: int)

  datatype Book = Book(line: Line, strategy: Strategy, cash: int, positions: seq<Position>, realized: int, counters: Counters,
                       equity: int, highWater: int, maxDrawdown: int, seeded: bool, postmortem: bool)

  datatype Fill = Fill(ref: nat, side: Side, settlement: bool, quantity: real, costs: Costs, realized: int,
                       cashBefore: int, cashAfter: int)

  datatype Event = Filled(fill: Fill) | BookCrashed(equity: int) | Marked(equity: int)

  datatype Verdict = PaperBuy | PaperSell | Avoid | Watch | PostmortemRequired
  datatype Decision = Decision(verdict: Verdict, ref: Option<nat>)

  function NewBook(line: Line, strategy: Strategy): Book { OpenBook(line, strategy, STARTING_CASH, 0) }

  /** An empty book with the given cash and every other amount at `nil`. */
  function OpenBook(line: Line, strategy: Strategy, cash: int, nil: int): Book {
    Book(line, strategy, cash, [], nil, AllCounters(nil), cash, cash, nil, false, false)
  }

  function AllCounters(n: int): Counters { Counters(n, n, n, n, n, n, n) }

  function Find(ps: seq<Position>, ref: nat): (r: Option<nat>)
    ensures r.Some? ==> r.value < |ps| && ps[r.value].ref == ref && forall j :: 0 <= j < r.value ==> ps[j].ref != ref
    ensures r.None? ==> forall j :: 0 <= j < |ps| ==> ps[j].ref != ref
  {
    if ps == [] then None
    else if ps[0].ref == ref then Some(0)
    else match Find(ps[1..], ref)
      case None => None
      case Some(k) => Some(k + 1)
  }

  function ValueOf(p: Position): int { Round(p.quantity * p.mark) }

  function RecordCosts(x: Counters, c: Costs): Counters {
    Counters(x.fees + c.fee, x.spread + c.spread, x.slippage + c.slippage, x.impact + c.impact, x.latency + c.latency,
             x.total + c.total, x.turnover + c.gross)
  }

  // ----- Trades -----

  datatype Executed = Executed(book: Book, fill: Fill)

  function BuyGross(i: Instrument, notional: int): real {
    if i.kind.Prediction? then notional as real else notional as real * BuyMultiplier(i.costs)
  }

  /** The costs paid in cash: all of them for predictions, only the fee where the price carries the rest. */
  function CashCosts(i: Instrument, c: Costs): int { if i.kind.Prediction? then c.total else c.fee }

  function Paid(i: Instrument, gross: real, c: Costs): int { Round(gross + CashCosts(i, c) as real) }

  function Outlay(i: Instrument, notional: int): int {
    Paid(i, BuyGross(i, notional), Breakdown(i, BuyGross(i, notional), Buy))
  }

  function BuyQuantity(i: Instrument, notional: int): real
    requires i.mark > 0.0 && ValidCosts(i.costs)
  {
    var price := if i.kind.Prediction? then i.mark else i.mark * BuyMultiplier(i.costs);
    assert price > 0.0 by { PositiveProduct(i.mark, BuyMultiplier(i.costs)); }
    BuyGross(i, notional) / price
  }

  lemma PositiveProduct(x: real, y: real)
    requires x > 0.0 && y > 0.0
    ensures x * y > 0.0
  {}

  /** The position after a buy, or None where the source divides by a zero quantity. */
  function Bought(held: Option<Position>, i: Instrument, quantity: real, outlay: int): Option<Position> {
    match held
    case Some(p) =>
      var q := p.quantity + quantity;
      if q == 0.0 then None
      else
        var entry := if i.kind.Prediction? then (p.quantity * p.entry + quantity * i.mark) / q
                     else (p.costBasis + outlay) as real / q;
        Some(p.(quantity := q, costBasis := p.costBasis + outlay, entry := entry, mark := i.mark, current := true))
    case None =>
      if quantity == 0.0 && !i.kind.Prediction? then None
      else Some(Position(i.ref, i.kind, i.symbol, quantity, if i.kind.Prediction? then i.mark else outlay as real / quantity,
                         i.mark, outlay, true))
  }

  function ExecuteBuy(b: Book, i: Instrument, notional: int): Option<Executed>
    requires i.mark > 0.0 && ValidCosts(i.costs)
  {
    var k := Find(b.positions, i.ref);
    var quantity := BuyQuantity(i, notional);
    var outlay := Outlay(i, notional);
    var costs := Breakdown(i, BuyGross(i, notional), Buy);
    match Bought(if k.Some? then Some(b.positions[k.value]) else None, i, quantity, outlay)
    case None => None
    case Some(p) =>
      var after := b.(cash := b.cash - outlay, counters := RecordCosts(b.counters, costs),
                      positions := if k.Some? then b.positions[k.value := p] else b.positions + [p]);
      Some(Executed(after, Fill(i.ref, Buy, false, quantity, costs, 0, b.cash, after.cash)))
  }

  function SellQuantity(p: Position, i: Instrument, notional: nat, settlement: bool): real {
    if settlement || notional as real >= p.quantity * i.mark - 1.0 then p.quantity
    else MinReal(p.quantity, notional as real / i.mark)
  }

  function Proceeds(i: Instrument, quantity: real, settlement: bool): real {
    quantity * (if settlement || i.kind.Prediction? then i.mark else i.mark * SellMultiplier(i.costs))
  }

  function SellCosts(i: Instrument, proceeds: real, settlement: bool): Costs {
    if settlement then FreeOfCost(Round(proceeds), 0) else Breakdown(i, proceeds, Sell)
  }

  function NetProceeds(i: Instrument, proceeds: real, costs: Costs, settlement: bool): int {
    Round(proceeds - (if settlement then costs.fee else CashCosts(i, costs)) as real)
  }

  /** The part of a basis that falls on `quantity` out of `held`. */
  function Part(basis: int, quantity: real, held: real): real
    requires held > 0.0
  {
    basis as real * quantity / held
  }

  function AtEntry(p: Position, quantity: real): real { quantity * p.entry }

  /** The cost of what is sold: a share of the basis for predictions, quantity at entry price otherwise. */
  function BasisSold(p: Position, i: Instrument, quantity: real): real
    requires p.quantity > 0.0
  {
    if i.kind.Prediction? then Part(p.costBasis, quantity, p.quantity) else AtEntry(p, quantity)
  }

  function BasisKept(p: Position, i: Instrument, remaining: real): int
    requires p.quantity > 0.0
  {
    if i.kind.Prediction? then Round(Part(p.costBasis, remaining, p.quantity)) else Round(AtEntry(p, remaining))
  }

  /** The sale of `quantity` of the k-th position. */
  function Sold(b: Book, k: nat, i: Instrument, quantity: real, settlement: bool): Executed
    requires k < |b.positions| && b.positions[k].quantity > 0.0
  {
    var p := b.positions[k];
    var proceeds := Proceeds(i, quantity, settlement);
    var costs := SellCosts(i, proceeds, settlement);
    var net := NetProceeds(i, proceeds, costs, settlement);
    var realized := Round(net as real - BasisSold(p, i, quantity));
    var remaining := MaxReal(0.0, p.quantity - quantity);
    var kept := p.(quantity := remaining, costBasis := BasisKept(p, i, remaining), mark := i.mark);
    var after := b.(cash := b.cash + net, realized := b.realized + realized,
                    counters := if settlement then b.counters else RecordCosts(b.counters, costs),
                    positions := if remaining <= DUST then b.positions[..k] + b.positions[k + 1..] else b.positions[k := kept]);
    Executed(after, Fill(i.ref, Sell, settlement, quantity, costs, realized, b.cash, after.cash))
  }

  function ExecuteSell(b: Book, i: Instrument, notional: nat, settlement: bool): Option<Executed> {
    var k := Find(b.positions, i.ref);
    if k.None? then None
    else
      var p := b.positions[k.value];
      var quantity := SellQuantity(p, i, notional, settlement);
      if quantity <= 0.0 || p.quantity <= 0.0 then None else Some(Sold(b, k.value, i, quantity, settlement))
  }

  // ----- Mark and settle -----

  predicate SameInstrument(p: Position, i: Instrument) {
    i.kind == p.kind && (p.symbol == "" || i.symbol == "" || p.symbol == i.symbol)
  }

  function MarkPosition(p: Position, m: Snapshot): Position {
    match Lookup(m, p.ref)
    case Some(i) => if SameInstrument(p, i) && IsFresh(i) then p.(mark := i.mark, current := true) else p.(current := false)
    case None => p.(current := false)
  }

  function MarkAll(ps: seq<Position>, m: Snapshot): seq<Position> {
    seq(|ps|, k requires 0 <= k < |ps| => MarkPosition(ps[k], m))
  }

  datatype Trades = Trades(book: Book, fills: seq<Fill>, decisions: seq<Decision>)

  predicate SettlesAt(p: Position, q: Option<Instrument>) {
    q.Some? && q.value.kind.Prediction? && p.kind.Prediction? && q.value.settled && IsFresh(q.value)
  }

  /** Settles the positions listed in `rest`, in order. */
  function Settle(b: Book, m: Snapshot, rest: seq<Position>): Trades
    decreases |rest|
  {
    if rest == [] then Trades(b, [], [])
    else
      var quote := Lookup(m, rest[0].ref);
      if !SettlesAt(rest[0], quote) then Settle(b, m, rest[1..])
      else match ExecuteSell(b, quote.value, 0, true)
        case None => Settle(b, m, rest[1..])
        case Some(x) =>
          var t := Settle(x.book, m, rest[1..]);
          Trades(t.book, [x.fill] + t.fills, [Decision(PaperSell, Some(rest[0].ref))] + t.decisions)
  }

  function SettleBook(b: Book, m: Snapshot): Trades {
    if b.postmortem then Trades(b, [], []) else Settle(b, m, b.positions)
  }

  // ----- Summaries -----

  function Exposure(ps: seq<Position>): int {
    if ps == [] then 0
    else Exposure(ps[..|ps| - 1]) + (var p := ps[|ps| - 1]; if p.quantity > 0.0 then (if ValueOf(p) < 0 then -ValueOf(p) else ValueOf(p)) else 0)
  }

  function EquityOf(b: Book): int { b.cash + Exposure(b.positions) }

  predicate StaleOpenMark(ps: seq<Position>) { exists k :: 0 <= k < |ps| && ps[k].quantity > 0.0 && !ps[k].current }

  function HighWater(b: Book): int { Max(Max(b.highWater, EquityOf(b)), STARTING_CASH) }

  /** The drawdown in percent to four digits, counted in units of the last digit. */
  function Drawdown(b: Book): int {
    Round((HighWater(b) - EquityOf(b)) as real / HighWater(b) as real * 1_000_000.0)
  }

  function Measured(b: Book): Book {
    b.(equity := EquityOf(b), highWater := HighWater(b), maxDrawdown := Max(b.maxDrawdown, Drawdown(b)))
  }

  // ----- Risk checks -----

  function RequiredCash(m: CostModel, notional: int): real {
    notional as real * BuyMultiplier(m) * (1.0 + m.fee / BPS)
  }

  predicate RiskPassed(b: Book, side: Side, notional: int, i: Instrument) {
    && IsFresh(i)
    && (side.Buy? ==> i.mark > 0.0)
    && notional <= ProfileOf(b.line).maximumOrder + 1
    && (side.Buy? ==> b.cash as real + 0.1 >= RequiredCash(i.costs, notional))
    && !b.postmortem
  }

  // ----- Orders -----

  datatype Order = Order(side: Side, instrument: Instrument, notional: nat)

  lemma MultiplierAboveOne(x: real, y: real)
    requires x >= 1.0 && y >= 1.0
    ensures x * y >= x && x * y >= 1.0
  {
    assert x * y == x + x * (y - 1.0);
  }

  function CashMultiplier(m: CostModel): (r: real)
    requires ValidCosts(m)
    ensures r >= 1.0
  {
    MultiplierAboveOne(BuyMultiplier(m), 1.0 + m.fee / BPS);
    BuyMultiplier(m) * (1.0 + m.fee / BPS)
  }

  /** The largest notional, in whole cents, that the cash covers with its costs. */
  function Affordable(cash: int, m: CostModel): int
    requires ValidCosts(m)
  {
    (cash as real / CashMultiplier(m)).Floor
  }

  function VerdictOf(side: Side): Verdict { if side.Buy? then PaperBuy else PaperSell }

  function Carried(o: Order, x: Option<Executed>, b: Book): Trades {
    Trades(if x.Some? then x.value.book else b, if x.Some? then [x.value.fill] else [],
           [Decision(VerdictOf(o.side), Some(o.instrument.ref))])
  }

  /** Checks and executes one order; a rebalancing buy is first cut down to what the cash affords.
      None where the source raises. */
  function Place(b: Book, o: Order, clamped: bool): Option<Trades> {
    if o.side.Sell? then
      if !RiskPassed(b, Sell, o.notional, o.instrument) then Some(Trades(b, [], [Decision(Avoid, Some(o.instrument.ref))]))
      else Some(Carried(o, ExecuteSell(b, o.instrument, o.notional, false), b))
    else if clamped && !ValidCosts(o.instrument.costs) then None
    else
      var notional := if clamped then Min(o.notional, Affordable(b.cash, o.instrument.costs)) else o.notional;
      if !RiskPassed(b, Buy, notional, o.instrument) then Some(Trades(b, [], [Decision(Avoid, Some(o.instrument.ref))]))
      else
        var x := ExecuteBuy(b, o.instrument, notional);
        if x.None? then None else Some(Carried(o, x, b))
  }

  function Joined(a: Trades, b: Trades): Trades {
    Trades(b.book, a.fills + b.fills, a.decisions + b.decisions)
  }

  function RunOrders(b: Book, orders: seq<Order>, clamped: bool): Option<Trades>
    decreases |orders|
  {
    if orders == [] then Some(Trades(b, [], []))
    else match Place(b, orders[0], clamped)
      case None => None
      case Some(first) =>
        match RunOrders(first.book, orders[1..], clamped)
        case None => None
        case Some(rest) => Some(Joined(first, rest))
  }

  // ----- Seeding -----

  function BasisTotal(ps: seq<Position>): int {
    if ps == [] then 0 else BasisTotal(ps[..|ps| - 1]) + ps[|ps| - 1].costBasis
  }

  function SeedOrders(items: seq<Instrument>, total: nat): seq<Order> {
    var shares := Split(total, |items|);
    seq(|items|, k requires 0 <= k < |items| => Order(Buy, items[k], shares[k]))
  }

  function SeedBook(b: Book, m: Snapshot): Option<Trades> {
    var remaining := Max(0, SEED_CAPITAL - BasisTotal(b.positions));
    if remaining <= 1 then Some(Trades(b.(seeded := true), [], []))
    else match SeedInstruments(b.strategy, m)
      case None => Some(Trades(b, [], [Decision(Avoid, None)]))
      case Some(items) =>
        match RunOrders(b, SeedOrders(items, remaining), false)
        case None => None
        case Some(t) => Some(t.(book := t.book.(seeded := BasisTotal(t.book.positions) >= SEED_CAPITAL - 1)))
  }

  // ----- Rebalancing -----

  function Eligible(s: Strategy, m: seq<Instrument>): seq<Instrument> {
    if m == [] then []
    else (if EligibleFor(s, m[0]) && m[0].mark > 0.0 && IsFresh(m[0]) then [m[0]] else []) + Eligible(s, m[1..])
  }

  function AllocationFor(selected: seq<Instrument>, shares: seq<int>, ref: nat): int
    requires |selected| == |shares|
  {
    if selected == [] then 0 else if selected[0].ref == ref then shares[0] else AllocationFor(selected[1..], shares[1..], ref)
  }

  function Selected(b: Book, m: Snapshot): seq<Instrument> {
    SelectTargets(ModeOf(b.strategy), ProfileOf(b.line).targetCount, Eligible(b.strategy, m))
  }

  function GrossTarget(b: Book): int { Round(EquityOf(b) as real * ProfileOf(b.line).targetGross) }

  function PositionCap(b: Book): real { EquityOf(b) as real * ProfileOf(b.line).maxPosition }

  /** The target for each reference: its allocation, or nothing. */
  function Targets(b: Book, m: Snapshot, refs: seq<nat>): map<nat, int> {
    var selected := Selected(b, m);
    var shares := Allocate(GrossTarget(b), PositionCap(b), |selected|);
    map r | r in refs :: AllocationFor(selected, shares, r)
  }

  /** The references in ascending order, without repetition. */
  function InsertRef(x: nat, s: seq<nat>): seq<nat> {
    if s == [] || x < s[0] then [x] + s else if x == s[0] then s else [s[0]] + InsertRef(x, s[1..])
  }

  function HeldRefs(ps: seq<Position>): seq<nat> {
    if ps == [] then [] else InsertRef(ps[0].ref, HeldRefs(ps[1..]))
  }

  function WithRefs(items: seq<Instrument>, refs: seq<nat>): seq<nat> {
    if items == [] then refs else InsertRef(items[0].ref, WithRefs(items[1..], refs))
  }

  function HeldValue(ps: seq<Position>, ref: nat): int {
    match Find(ps, ref) case None => 0 case Some(k) => ValueOf(ps[k])
  }

  function Delta(b: Book, targets: map<nat, int>, ref: nat): int {
    (if ref in targets then targets[ref] else 0) - HeldValue(b.positions, ref)
  }

  /** The order that moves one holding to its target, if the change is large enough. */
  function OrderFor(b: Book, m: Snapshot, targets: map<nat, int>, ref: nat): Option<Order> {
    var i := Lookup(m, ref);
    var delta := Delta(b, targets, ref);
    var size := if delta < 0 then -delta else delta;
    if i.None? || size < ProfileOf(b.line).minimumOrder then None
    else Some(Order(if delta < 0 then Sell else Buy, i.value, Min(size, ProfileOf(b.line).maximumOrder)))
  }

  function OrdersFor(b: Book, m: Snapshot, targets: map<nat, int>, refs: seq<nat>, side: Side): seq<Order> {
    if refs == [] then []
    else
      var first := OrderFor(b, m, targets, refs[0]);
      (if first.Some? && first.value.side == side then [first.value] else []) + OrdersFor(b, m, targets, refs[1..], side)
  }

  function TradedRefs(b: Book, m: Snapshot): seq<nat> { WithRefs(Eligible(b.strategy, m), HeldRefs(b.positions)) }

  /** Sells before buys, each by reference. */
  function Orders(b: Book, m: Snapshot): seq<Order> {
    if b.postmortem || EquityOf(b) <= CRASH_EQUITY || Eligible(b.strategy, m) == [] then []
    else
      var refs := TradedRefs(b, m);
      var targets := Targets(b, m, refs);
      OrdersFor(b, m, targets, refs, Sell) + OrdersFor(b, m, targets, refs, Buy)
  }

  function RebalanceBook(b: Book, m: Snapshot): Option<Trades> {
    match RunOrders(b, Orders(b, m), true)
    case None => None
    case Some(t) => Some(if t.decisions == [] then t.(decisions := [Decision(Watch, None)]) else t)
  }

  // ----- The tick -----

  datatype Ticked = Ticked(book: Book, events: seq<Event>, decisions: seq<Decision>)

  function FillEvents(fills: seq<Fill>): seq<Event> {
    seq(|fills|, k requires 0 <= k < |fills| => Filled(fills[k]))
  }

  /** What the book does after settlement; None where the source raises. */
  function Act(b: Book, m: Snapshot): Option<Ticked> {
    if b.postmortem || b.equity <= CRASH_EQUITY then
      Some(Ticked(b.(postmortem := true), if b.postmortem then [] else [BookCrashed(b.equity)], [Decision(PostmortemRequired, None)]))
    else if StaleOpenMark(b.positions) then Some(Ticked(b, [], [Decision(Avoid, None)]))
    else match (if b.seeded then RebalanceBook(b, m) else SeedBook(b, m))
      case None => None
      case Some(t) => Some(Ticked(t.book, FillEvents(t.fills), t.decisions))
  }

  function Opening(b: Book, m: Snapshot): Trades {
    SettleBook(b.(positions := MarkAll(b.positions, m)), m)
  }

  function Tick(b: Book, m: Snapshot): Option<Ticked> {
    var settled := Opening(b, m);
    match Act(Measured(settled.book), m)
    case None => None
    case Some(t) =>
      var after := Measured(t.book);
      Some(Ticked(after, FillEvents(settled.fills) + t.events + [Marked(after.equity)], settled.decisions + t.decisions))
  }
}
