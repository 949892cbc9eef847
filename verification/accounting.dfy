/**
  What one trade does to a book's accounts: the cash chain, the cost counters, the realised result,
  the quantity held in each instrument, and the balance  cash + cost basis - realised.
 */
module Accounting {
  import opened Wrappers
  import opened Money
  import opened Market
  import opened Engine

  /** Prices up to a million dollars. */
  const MAX_MARK := 100_000_000.0

  // ----- Positions -----

  predicate DistinctPositions(ps: seq<Position>) {
    forall j, k :: 0 <= j < k < |ps| ==> ps[j].ref != ps[k].ref
  }

  function Held(ps: seq<Position>, ref: nat): real {
    match Find(ps, ref) case None => 0.0 case Some(k) => ps[k].quantity
  }

  lemma {:induction false} BasisAppend(a: seq<Position>, b: seq<Position>)
    ensures BasisTotal(a + b) == BasisTotal(a) + BasisTotal(b)
  {
    if b == [] {
      assert a + b == a;
    } else {
      assert (a + b)[..|a + b| - 1] == a + b[..|b| - 1];
      BasisAppend(a, b[..|b| - 1]);
    }
  }

  lemma BasisOfOne(p: Position)
    ensures BasisTotal([p]) == p.costBasis
  {
    assert BasisTotal([p][..0]) == 0;
  }

  lemma BasisSplit(ps: seq<Position>, k: nat)
    requires k < |ps|
    ensures BasisTotal(ps) == BasisTotal(ps[..k]) + ps[k].costBasis + BasisTotal(ps[k + 1..])
  {
    assert ps == ps[..k] + ([ps[k]] + ps[k + 1..]);
    BasisAppend(ps[..k], [ps[k]] + ps[k + 1..]);
    BasisAppend([ps[k]], ps[k + 1..]);
    BasisOfOne(ps[k]);
  }

  lemma {:induction false} FindIs(ps: seq<Position>, k: nat)
    requires k < |ps| && DistinctPositions(ps)
    ensures Find(ps, ps[k].ref) == Some(k)
  {}

  /** The basis and the quantity held of one reference change by the given amounts, nothing else does. */
  ghost predicate Moves(ps: seq<Position>, after: seq<Position>, ref: nat, quantity: real, basis: int) {
    && BasisTotal(after) == BasisTotal(ps) + basis
    && forall r :: Held(after, r) == Held(ps, r) + (if r == ref then quantity else 0.0)
  }

  lemma Changed(ps: seq<Position>, k: nat, p: Position)
    requires k < |ps| && DistinctPositions(ps) && p.ref == ps[k].ref
    ensures var after := ps[k := p];
            && DistinctPositions(after)
            && Moves(ps, after, p.ref, p.quantity - ps[k].quantity, p.costBasis - ps[k].costBasis)
  {
    var after := ps[k := p];
    BasisSplit(ps, k);
    BasisSplit(after, k);
    assert after[..k] == ps[..k] && after[k + 1..] == ps[k + 1..];
    FindIs(ps, k);
    FindIs(after, k);
    forall r | r != p.ref ensures Held(after, r) == Held(ps, r) {
      var f := Find(ps, r);
      if f.Some? {
        assert after[f.value] == ps[f.value];
        FindIs(after, f.value);
      }
    }
  }

  lemma {:induction false} FindAppend(ps: seq<Position>, p: Position, r: nat)
    ensures Find(ps + [p], r) == if Find(ps, r).Some? then Find(ps, r) else if p.ref == r then Some(|ps|) else None
  {
    if ps == [] {
      assert (ps + [p])[1..] == [];
    } else {
      assert (ps + [p])[1..] == ps[1..] + [p];
      FindAppend(ps[1..], p, r);
    }
  }

  lemma AddedHeld(ps: seq<Position>, p: Position, r: nat)
    requires Find(ps, p.ref).None?
    ensures Held(ps + [p], r) == Held(ps, r) + (if r == p.ref then p.quantity else 0.0)
  {
    FindAppend(ps, p, r);
  }

  lemma Added(ps: seq<Position>, p: Position)
    requires DistinctPositions(ps) && Find(ps, p.ref).None?
    ensures var after := ps + [p];
            && DistinctPositions(after)
            && Moves(ps, after, p.ref, p.quantity, p.costBasis)
  {
    BasisAppend(ps, [p]);
    BasisOfOne(p);
    forall r ensures Held(ps + [p], r) == Held(ps, r) + (if r == p.ref then p.quantity else 0.0) {
      AddedHeld(ps, p, r);
    }
  }

  lemma RemovedHeld(ps: seq<Position>, k: nat, r: nat)
    requires k < |ps| && DistinctPositions(ps) && r != ps[k].ref
    ensures Held(ps[..k] + ps[k + 1..], r) == Held(ps, r)
  {
    var after := ps[..k] + ps[k + 1..];
    var f := Find(ps, r);
    if f.Some? {
      var at := if f.value < k then f.value else f.value - 1;
      assert after[at] == ps[f.value];
      FindIs(after, at);
    }
  }

  lemma Removed(ps: seq<Position>, k: nat)
    requires k < |ps| && DistinctPositions(ps)
    ensures var after := ps[..k] + ps[k + 1..];
            && DistinctPositions(after)
            && Moves(ps, after, ps[k].ref, -ps[k].quantity, -ps[k].costBasis)
  {
    BasisSplit(ps, k);
    BasisAppend(ps[..k], ps[k + 1..]);
    FindIs(ps, k);
    forall r | r != ps[k].ref ensures Held(ps[..k] + ps[k + 1..], r) == Held(ps, r) {
      RemovedHeld(ps, k, r);
    }
  }

  // ----- Accounts -----

  function Balance(b: Book): int { b.cash + BasisTotal(b.positions) - b.realized }

  /** Each fill starts from the cash the one before left. */
  predicate Chains(cash: int, fills: seq<Fill>, after: int)
    decreases fills
  {
    if fills == [] then cash == after
    else fills[0].cashBefore == cash && Chains(fills[0].cashAfter, fills[1..], after)
  }

  function Tally(c: Counters, fills: seq<Fill>): Counters
    decreases fills
  {
    if fills == [] then c
    else Tally(if fills[0].settlement then c else RecordCosts(c, fills[0].costs), fills[1..])
  }

  function RealizedBy(fills: seq<Fill>): int {
    if fills == [] then 0 else fills[0].realized + RealizedBy(fills[1..])
  }

  function Moved(f: Fill, ref: nat): real {
    if f.ref != ref then 0.0 else if f.side.Buy? then f.quantity else -f.quantity
  }

  function NetQuantity(fills: seq<Fill>, ref: nat): real {
    if fills == [] then 0.0 else Moved(fills[0], ref) + NetQuantity(fills[1..], ref)
  }

  /** Ordinary sells, the only fills that may shift the balance. */
  function Sales(fills: seq<Fill>): int {
    if fills == [] then 0 else (if fills[0].side.Sell? && !fills[0].settlement then 1 else 0) + Sales(fills[1..])
  }

  ghost predicate HoldingsMoved(b: Book, fills: seq<Fill>, c: Book) {
    forall ref :: Held(c.positions, ref) == Held(b.positions, ref) + NetQuantity(fills, ref)
  }

  /** The fills account for every difference between two states of a book; for the quantities and the
      balance, when prices were bounded. */
  ghost predicate Accounted(b: Book, fills: seq<Fill>, c: Book, bounded: bool) {
    && Chains(b.cash, fills, c.cash)
    && c.counters == Tally(b.counters, fills)
    && c.realized == b.realized + RealizedBy(fills)
    && (bounded ==> HoldingsMoved(b, fills, c) && -Sales(fills) <= Balance(c) - Balance(b) <= Sales(fills))
  }

  lemma {:induction false} ChainsAppend(cash: int, f: seq<Fill>, mid: int, g: seq<Fill>, after: int)
    requires Chains(cash, f, mid) && Chains(mid, g, after)
    ensures Chains(cash, f + g, after)
    decreases f
  {
    if f == [] {
      assert f + g == g;
    } else {
      assert (f + g)[1..] == f[1..] + g;
      ChainsAppend(f[0].cashAfter, f[1..], mid, g, after);
    }
  }

  lemma {:induction false} FoldsAppend(c: Counters, f: seq<Fill>, g: seq<Fill>)
    ensures Tally(c, f + g) == Tally(Tally(c, f), g)
    ensures RealizedBy(f + g) == RealizedBy(f) + RealizedBy(g)
    ensures Sales(f + g) == Sales(f) + Sales(g)
    decreases f
  {
    if f == [] {
      assert f + g == g;
    } else {
      assert (f + g)[1..] == f[1..] + g;
      FoldsAppend(if f[0].settlement then c else RecordCosts(c, f[0].costs), f[1..], g);
    }
  }

  /** Sum of one cost field over the ordinary fills. */
  function FieldSum(fills: seq<Fill>, field: Costs -> int): int {
    if fills == [] then 0 else (if fills[0].settlement then 0 else field(fills[0].costs)) + FieldSum(fills[1..], field)
  }

  /** Each counter is the sum of its own field over the ordinary fills, turnover that of the gross
      amounts. */
  lemma {:induction false} TallyIsFieldwise(c: Counters, fills: seq<Fill>)
    ensures var t := Tally(c, fills);
            && t.fees == c.fees + FieldSum(fills, (k: Costs) => k.fee)
            && t.spread == c.spread + FieldSum(fills, (k: Costs) => k.spread)
            && t.slippage == c.slippage + FieldSum(fills, (k: Costs) => k.slippage)
            && t.impact == c.impact + FieldSum(fills, (k: Costs) => k.impact)
            && t.latency == c.latency + FieldSum(fills, (k: Costs) => k.latency)
            && t.total == c.total + FieldSum(fills, (k: Costs) => k.total)
            && t.turnover == c.turnover + FieldSum(fills, (k: Costs) => k.gross)
    decreases fills
  {
    if fills != [] {
      TallyIsFieldwise(if fills[0].settlement then c else RecordCosts(c, fills[0].costs), fills[1..]);
    }
  }

  lemma {:induction false} NetAppend(f: seq<Fill>, g: seq<Fill>, ref: nat)
    ensures NetQuantity(f + g, ref) == NetQuantity(f, ref) + NetQuantity(g, ref)
  {
    if f == [] {
      assert f + g == g;
    } else {
      assert (f + g)[1..] == f[1..] + g;
      NetAppend(f[1..], g, ref);
    }
  }

  /** Accounts compose. */
  lemma AccountedThrough(b: Book, f: seq<Fill>, c: Book, g: seq<Fill>, d: Book, bounded: bool)
    requires Accounted(b, f, c, bounded) && Accounted(c, g, d, bounded)
    ensures Accounted(b, f + g, d, bounded)
  {
    ChainsAppend(b.cash, f, c.cash, g, d.cash);
    FoldsAppend(b.counters, f, g);
    if bounded {
      forall ref ensures Held(d.positions, ref) == Held(b.positions, ref) + NetQuantity(f + g, ref) {
        NetAppend(f, g, ref);
      }
    }
  }

  // ----- Positions at cost -----

  /** Positions other than predictions carry exactly the rounded value of their quantity at entry. */
  predicate AtCost(p: Position) {
    p.kind.Prediction? || (p.quantity != 0.0 && p.costBasis == Round(AtEntry(p, p.quantity)))
  }

  predicate WellKept(ps: seq<Position>) {
    DistinctPositions(ps) && forall p :: p in ps ==> AtCost(p)
  }

  /** The instrument trades the same kind of contract as the position that would be touched. */
  predicate FitsBuy(ps: seq<Position>, i: Instrument) {
    forall p :: p in ps && p.ref == i.ref && !p.kind.Prediction? ==> !i.kind.Prediction?
  }

  predicate FitsSell(ps: seq<Position>, i: Instrument) {
    forall p :: p in ps && p.ref == i.ref && p.quantity > 0.0 ==> (p.kind.Prediction? <==> i.kind.Prediction?)
  }

  lemma DivideBack(x: real, q: real)
    requires q != 0.0
    ensures q * (x / q) == x
  {}

  function HeldAtEntry(held: Option<Position>): real { if held.Some? then held.value.quantity * held.value.entry else 0.0 }

  /** Prediction entries average the marks bought at. */
  lemma PredictionEntryAverages(held: Option<Position>, i: Instrument, quantity: real, outlay: int)
    requires i.kind.Prediction? && Bought(held, i, quantity, outlay).Some?
    ensures var p := Bought(held, i, quantity, outlay).value;
            p.quantity * p.entry == HeldAtEntry(held) + quantity * i.mark
  {
    if held.Some? {
      DivideBack(HeldAtEntry(held) + quantity * i.mark, held.value.quantity + quantity);
    }
  }

  /** Every other entry averages the outlays, so that quantity times entry is the cost basis. */
  lemma PlainEntryAverages(held: Option<Position>, i: Instrument, quantity: real, outlay: int)
    requires !i.kind.Prediction? && Bought(held, i, quantity, outlay).Some?
    ensures var p := Bought(held, i, quantity, outlay).value; p.quantity * p.entry == p.costBasis as real
  {
    var p := Bought(held, i, quantity, outlay).value;
    DivideBack(p.costBasis as real, p.quantity);
  }

  lemma BoughtAtCost(held: Option<Position>, i: Instrument, quantity: real, outlay: int)
    requires Bought(held, i, quantity, outlay).Some?
    requires held.Some? ==> held.value.ref == i.ref && (held.value.kind.Prediction? || !i.kind.Prediction?)
    ensures var p := Bought(held, i, quantity, outlay).value;
            && AtCost(p) && p.ref == i.ref && p.kind == (if held.Some? then held.value.kind else i.kind)
            && p.quantity == (if held.Some? then held.value.quantity else 0.0) + quantity
            && p.costBasis == (if held.Some? then held.value.costBasis else 0) + outlay
            && p.mark == i.mark && p.current
  {
    var p := Bought(held, i, quantity, outlay).value;
    if !p.kind.Prediction? {
      PlainEntryAverages(held, i, quantity, outlay);
      assert AtEntry(p, p.quantity) == p.costBasis as real;
      RoundOfInt(p.costBasis);
    }
  }

  // ----- Buys -----

  /** The parts of a buy, without its arithmetic. */
  lemma BuyParts(b: Book, i: Instrument, notional: int)
    requires i.mark > 0.0 && ValidCosts(i.costs) && ExecuteBuy(b, i, notional).Some?
    ensures var x := ExecuteBuy(b, i, notional).value;
            var k := Find(b.positions, i.ref);
            var outlay := Outlay(i, notional);
            var costs := Breakdown(i, BuyGross(i, notional), Buy);
            var p := Bought(if k.Some? then Some(b.positions[k.value]) else None, i, BuyQuantity(i, notional), outlay);
            && p.Some?
            && x.fill == Fill(i.ref, Buy, false, BuyQuantity(i, notional), costs, 0, b.cash, b.cash - outlay)
            && x.book == b.(cash := b.cash - outlay, counters := RecordCosts(b.counters, costs),
                            positions := if k.Some? then b.positions[k.value := p.value] else b.positions + [p.value])
  {}

  lemma AccountedOnce(b: Book, f: Fill, c: Book, d: int, bounded: bool)
    requires f.cashBefore == b.cash && f.cashAfter == c.cash
    requires c.counters == if f.settlement then b.counters else RecordCosts(b.counters, f.costs)
    requires c.realized == b.realized + f.realized
    requires bounded ==> Moves(b.positions, c.positions, f.ref, Moved(f, f.ref), d)
    requires bounded ==>
               var shift := c.cash - b.cash + d - f.realized; -1 <= shift <= 1 && (shift == 0 || (f.side.Sell? && !f.settlement))
    ensures Accounted(b, [f], c, bounded)
  {
    assert [f][1..] == [];
    forall ref ensures NetQuantity([f], ref) == Moved(f, ref) {
      assert NetQuantity([f], ref) == Moved(f, ref) + NetQuantity([], ref);
    }
    assert Tally(b.counters, [f]) == c.counters;
  }

  /** Storing a bought position under its reference. */
  lemma BoughtWellKept(ps: seq<Position>, ref: nat, p: Position)
    requires WellKept(ps) && AtCost(p) && p.ref == ref
    ensures var k := Find(ps, ref);
            var after := if k.Some? then ps[k.value := p] else ps + [p];
            && WellKept(after)
            && Moves(ps, after, ref, p.quantity - (if k.Some? then ps[k.value].quantity else 0.0),
                     p.costBasis - (if k.Some? then ps[k.value].costBasis else 0))
  {
    var k := Find(ps, ref);
    if k.Some? { Changed(ps, k.value, p); } else { Added(ps, p); }
  }

  /** A buy leaves the balance exactly where it was. */
  lemma BuyAccounted(b: Book, i: Instrument, notional: int, bounded: bool)
    requires i.mark > 0.0 && ValidCosts(i.costs) && ExecuteBuy(b, i, notional).Some?
    requires WellKept(b.positions) && FitsBuy(b.positions, i)
    ensures var x := ExecuteBuy(b, i, notional).value;
            Accounted(b, [x.fill], x.book, bounded) && WellKept(x.book.positions) && Balance(x.book) == Balance(b)
  {
    BuyParts(b, i, notional);
    var x := ExecuteBuy(b, i, notional).value;
    var k := Find(b.positions, i.ref);
    var held := if k.Some? then Some(b.positions[k.value]) else None;
    BoughtAtCost(held, i, BuyQuantity(i, notional), Outlay(i, notional));
    var p := Bought(held, i, BuyQuantity(i, notional), Outlay(i, notional)).value;
    BoughtWellKept(b.positions, i.ref, p);
    AccountedOnce(b, x.fill, x.book, Outlay(i, notional), bounded);
  }

  // ----- Sells -----

  /** A sale that is not of the whole position leaves more than dust behind. */
  lemma PartialSaleLeavesMore(p: Position, i: Instrument, notional: nat, settlement: bool)
    requires p.quantity > 0.0 && 0.0 <= i.mark <= MAX_MARK
    ensures var s := SellQuantity(p, i, notional, settlement);
            s == p.quantity || (0.0 <= s && p.quantity - s > DUST && s * i.mark == notional as real)
  {
    var s := SellQuantity(p, i, notional, settlement);
    if s != p.quantity {
      assert s * i.mark == notional as real;
      assert (p.quantity - s) * i.mark == p.quantity * i.mark - notional as real;
      if p.quantity - s <= DUST {
        ProductsOrdered(p.quantity - s, DUST, i.mark, MAX_MARK);
        assert false;
      }
    }
  }

  lemma ProductsOrdered(a: real, b: real, x: real, y: real)
    requires a <= b && 0.0 <= b && 0.0 <= x <= y
    ensures a * x <= b * y
  {
    assert a * x <= b * x;
    assert b * x <= b * y;
  }

  /** The basis splits into what is sold and what is left, up to the roundings of one sale. */
  lemma DriftBound(net: int, basis: int, sold: real, left: real)
    requires -0.5 <= basis as real - (sold + left) <= 0.5
    ensures -1 <= net - basis + Round(left) - Round(net as real - sold) <= 1
  {
    RoundNear(left);
    RoundNear(net as real - sold);
    IntegerDrift(net - basis + Round(left) - Round(net as real - sold), 1.5);
  }

  lemma PartsAddUp(basis: int, a: real, b: real, held: real)
    requires held > 0.0 && a + b == held
    ensures Part(basis, a, held) + Part(basis, b, held) == basis as real
  {
    var x := basis as real;
    assert x * a + x * b == x * held;
    assert (x * a + x * b) / held == x;
  }

  /** What a sale adds to the balance. */
  function Shift(p: Position, i: Instrument, quantity: real, net: int): int
    requires p.quantity > 0.0
  {
    net - p.costBasis + BasisKept(p, i, p.quantity - quantity) - Round(net as real - BasisSold(p, i, quantity))
  }

  lemma PredictionDrift(p: Position, i: Instrument, quantity: real, net: int)
    requires p.quantity > 0.0 && i.kind.Prediction?
    ensures -1 <= Shift(p, i, quantity, net) <= 1
  {
    PartsAddUp(p.costBasis, quantity, p.quantity - quantity, p.quantity);
    ShiftBound(p, i, quantity, net, Part(p.costBasis, quantity, p.quantity), Part(p.costBasis, p.quantity - quantity, p.quantity));
  }

  lemma PlainDrift(p: Position, i: Instrument, quantity: real, net: int)
    requires p.quantity > 0.0 && !i.kind.Prediction? && p.costBasis == Round(AtEntry(p, p.quantity))
    ensures -1 <= Shift(p, i, quantity, net) <= 1
  {
    EntrySplits(p, quantity);
    ShiftBound(p, i, quantity, net, AtEntry(p, quantity), AtEntry(p, p.quantity - quantity));
  }

  lemma ShiftBound(p: Position, i: Instrument, quantity: real, net: int, sold: real, left: real)
    requires p.quantity > 0.0 && BasisSold(p, i, quantity) == sold && BasisKept(p, i, p.quantity - quantity) == Round(left)
    requires -0.5 <= p.costBasis as real - (sold + left) <= 0.5
    ensures -1 <= Shift(p, i, quantity, net) <= 1
  {
    DriftBound(net, p.costBasis, sold, left);
  }

  /** Selling `quantity` at any net price shifts the balance by at most a cent. */
  lemma SaleDrift(p: Position, i: Instrument, quantity: real, net: int)
    requires AtCost(p) && p.quantity > 0.0 && (p.kind.Prediction? <==> i.kind.Prediction?)
    ensures -1 <= Shift(p, i, quantity, net) <= 1
  {
    if i.kind.Prediction? { PredictionDrift(p, i, quantity, net); } else { PlainDrift(p, i, quantity, net); }
  }

  lemma EntrySplits(p: Position, quantity: real)
    requires p.costBasis == Round(AtEntry(p, p.quantity))
    ensures -0.5 <= p.costBasis as real - (AtEntry(p, quantity) + AtEntry(p, p.quantity - quantity)) <= 0.5
  {
    RoundNear(AtEntry(p, p.quantity));
    assert AtEntry(p, quantity) + AtEntry(p, p.quantity - quantity) == AtEntry(p, p.quantity);
  }

  /** What is left of a position sold out is worth nothing, and a settlement realises it exactly. */
  lemma SoldOut(p: Position, i: Instrument, net: int)
    requires p.quantity > 0.0
    ensures BasisKept(p, i, 0.0) == 0
    ensures i.kind.Prediction? ==> Round(net as real - BasisSold(p, i, p.quantity)) == net - p.costBasis
  {
    RoundOfInt(0);
    assert Part(p.costBasis, 0.0, p.quantity) == 0.0;
    PartsAddUp(p.costBasis, p.quantity, 0.0, p.quantity);
    RoundOfInt(net - p.costBasis);
    assert i.kind.Prediction? ==> net as real - BasisSold(p, i, p.quantity) == (net - p.costBasis) as real;
  }

  function Remainder(p: Position, i: Instrument, quantity: real): Position
    requires p.quantity > 0.0
  {
    var remaining := MaxReal(0.0, p.quantity - quantity);
    p.(quantity := remaining, costBasis := BasisKept(p, i, remaining), mark := i.mark)
  }

  /** The positions after a sale of `quantity` of the k-th. */
  function Reduced(ps: seq<Position>, k: nat, i: Instrument, quantity: real): seq<Position>
    requires k < |ps| && ps[k].quantity > 0.0
  {
    var p := Remainder(ps[k], i, quantity);
    if p.quantity <= DUST then ps[..k] + ps[k + 1..] else ps[k := p]
  }

  lemma ReplacedAtCost(ps: seq<Position>, k: nat, p: Position)
    requires k < |ps| && WellKept(ps) && AtCost(p) && p.ref == ps[k].ref
    ensures WellKept(ps[k := p])
  {}

  lemma RemovedAtCost(ps: seq<Position>, k: nat)
    requires k < |ps| && WellKept(ps)
    ensures WellKept(ps[..k] + ps[k + 1..])
  {
    Removed(ps, k);
  }

  /** The sale of `quantity` leaves no unaccounted remainder. */
  predicate CleanSale(p: Position, i: Instrument, quantity: real)
    requires p.quantity > 0.0
  {
    && quantity <= p.quantity
    && (p.quantity - quantity <= DUST ==> quantity == p.quantity && BasisKept(p, i, p.quantity - quantity) == 0)
  }

  lemma ReducedWellKept(ps: seq<Position>, k: nat, i: Instrument, quantity: real)
    requires k < |ps| && ps[k].quantity > 0.0 && WellKept(ps) && ps[k].ref == i.ref
    requires ps[k].kind.Prediction? <==> i.kind.Prediction?
    ensures WellKept(Reduced(ps, k, i, quantity))
  {
    var p := Remainder(ps[k], i, quantity);
    if p.quantity <= DUST { RemovedAtCost(ps, k); } else { ReplacedAtCost(ps, k, p); }
  }

  lemma ReducedMoves(ps: seq<Position>, k: nat, i: Instrument, quantity: real)
    requires k < |ps| && ps[k].quantity > 0.0 && WellKept(ps) && ps[k].ref == i.ref && CleanSale(ps[k], i, quantity)
    ensures var after := Reduced(ps, k, i, quantity);
            Moves(ps, after, i.ref, -quantity, BasisKept(ps[k], i, ps[k].quantity - quantity) - ps[k].costBasis)
  {
    var p := Remainder(ps[k], i, quantity);
    if p.quantity <= DUST { Removed(ps, k); } else { Changed(ps, k, p); }
  }

  /** What a sell leaves of the position, and how far it shifts the balance. */
  lemma SellMoves(p: Position, i: Instrument, notional: nat, settlement: bool, net: int)
    requires AtCost(p) && p.quantity > 0.0 && (p.kind.Prediction? <==> i.kind.Prediction?)
    requires 0.0 <= i.mark <= MAX_MARK && (settlement ==> i.kind.Prediction?)
    ensures var q := SellQuantity(p, i, notional, settlement);
            && CleanSale(p, i, q)
            && -1 <= Shift(p, i, q, net) <= 1 && (settlement ==> Shift(p, i, q, net) == 0)
  {
    PartialSaleLeavesMore(p, i, notional, settlement);
    var q := SellQuantity(p, i, notional, settlement);
    SaleDrift(p, i, q, net);
    assert settlement ==> q == p.quantity;
    if q == p.quantity {
      assert p.quantity - q == 0.0;
      SoldOut(p, i, net);
    }
  }

  /** The parts of a sell, without its arithmetic. */
  lemma SellParts(b: Book, i: Instrument, notional: nat, settlement: bool)
    requires ExecuteSell(b, i, notional, settlement).Some?
    ensures var x := ExecuteSell(b, i, notional, settlement).value;
            var k := Find(b.positions, i.ref);
            && k.Some? && b.positions[k.value].quantity > 0.0
            && var p := b.positions[k.value];
            var q := SellQuantity(p, i, notional, settlement);
            var proceeds := Proceeds(i, q, settlement);
            var costs := SellCosts(i, proceeds, settlement);
            var net := NetProceeds(i, proceeds, costs, settlement);
            var realized := Round(net as real - BasisSold(p, i, q));
            && q > 0.0
            && x.fill == Fill(i.ref, Sell, settlement, q, costs, realized, b.cash, b.cash + net)
            && x.book == b.(cash := b.cash + net, realized := b.realized + realized,
                            counters := if settlement then b.counters else RecordCosts(b.counters, costs),
                            positions := Reduced(b.positions, k.value, i, q))
  {}

  /** An ordinary sell shifts the balance by at most a cent, a settlement not at all. */
  lemma SellAccounted(b: Book, i: Instrument, notional: nat, settlement: bool, bounded: bool)
    requires ExecuteSell(b, i, notional, settlement).Some?
    requires WellKept(b.positions) && FitsSell(b.positions, i) && 0.0 <= i.mark && (bounded ==> i.mark <= MAX_MARK)
    requires settlement ==> i.kind.Prediction?
    ensures var x := ExecuteSell(b, i, notional, settlement).value;
            Accounted(b, [x.fill], x.book, bounded) && WellKept(x.book.positions)
  {
    SellParts(b, i, notional, settlement);
    var x := ExecuteSell(b, i, notional, settlement).value;
    SoldAccounted(b, i, notional, settlement, x.fill, x.book, Find(b.positions, i.ref).value, bounded);
  }

  /** With a bounded price the sale moves exactly the quantity sold, and the balance by at most a cent. */
  lemma SoldWithin(ps: seq<Position>, k: nat, i: Instrument, notional: nat, settlement: bool, net: int)
    requires k < |ps| && ps[k].quantity > 0.0 && ps[k].ref == i.ref && WellKept(ps) && 0.0 <= i.mark <= MAX_MARK
    requires (ps[k].kind.Prediction? <==> i.kind.Prediction?) && (settlement ==> i.kind.Prediction?)
    ensures var q := SellQuantity(ps[k], i, notional, settlement);
            var shift := Shift(ps[k], i, q, net);
            && Moves(ps, Reduced(ps, k, i, q), i.ref, -q, SoldBasis(ps[k], i, q))
            && -1 <= shift <= 1 && (settlement ==> shift == 0)
  {
    assert ps[k] in ps;
    SellMoves(ps[k], i, notional, settlement, net);
    ReducedMoves(ps, k, i, SellQuantity(ps[k], i, notional, settlement));
  }

  lemma SoldAccounted(b: Book, i: Instrument, notional: nat, settlement: bool, f: Fill, c: Book, k: nat, bounded: bool)
    requires k < |b.positions| && b.positions[k].quantity > 0.0 && b.positions[k].ref == i.ref
    requires WellKept(b.positions) && FitsSell(b.positions, i) && 0.0 <= i.mark && (bounded ==> i.mark <= MAX_MARK)
    requires settlement ==> i.kind.Prediction?
    requires f.ref == i.ref && f.side.Sell? && f.settlement == settlement && f.cashBefore == b.cash && f.cashAfter == c.cash
    requires f.quantity == SellQuantity(b.positions[k], i, notional, settlement)
    requires f.realized == Round((c.cash - b.cash) as real - BasisSold(b.positions[k], i, f.quantity))
    requires c.realized == b.realized + f.realized && c.positions == Reduced(b.positions, k, i, f.quantity)
    requires c.counters == if settlement then b.counters else RecordCosts(b.counters, f.costs)
    ensures Accounted(b, [f], c, bounded) && WellKept(c.positions)
  {
    assert b.positions[k] in b.positions;
    ReducedWellKept(b.positions, k, i, f.quantity);
    if bounded {
      SoldWithin(b.positions, k, i, notional, settlement, c.cash - b.cash);
      SoldShift(b, c, b.positions[k], i, f.quantity);
    }
    AccountedOnce(b, f, c, SoldBasis(b.positions[k], i, f.quantity), bounded);
  }

  /** What a sale takes off the cost basis, as a change. */
  function SoldBasis(p: Position, i: Instrument, quantity: real): int
    requires p.quantity > 0.0
  {
    BasisKept(p, i, p.quantity - quantity) - p.costBasis
  }

  lemma SoldShift(b: Book, c: Book, p: Position, i: Instrument, quantity: real)
    requires p.quantity > 0.0 && c.realized == b.realized + Round((c.cash - b.cash) as real - BasisSold(p, i, quantity))
    ensures c.cash - b.cash + SoldBasis(p, i, quantity) - (c.realized - b.realized) == Shift(p, i, quantity, c.cash - b.cash)
  {}

  // ----- Above the price bound -----

  /** A sale that leaves dust drops the basis of the dust with it. */
  lemma DustTakesItsBasis(b: Book, k: nat, i: Instrument, quantity: real, settlement: bool)
    requires k < |b.positions| && b.positions[k].quantity > 0.0 && WellKept(b.positions)
    requires 0.0 <= b.positions[k].quantity - quantity <= DUST
    requires b.positions[k].kind.Prediction? <==> i.kind.Prediction?
    ensures var p := b.positions[k];
            var kept := BasisKept(p, i, p.quantity - quantity);
            var c := Sold(b, k, i, quantity, settlement).book;
            -1 - kept <= Balance(c) - Balance(b) <= 1 - kept
  {
    var p := b.positions[k];
    assert p in b.positions;
    SaleDrift(p, i, quantity, Sold(b, k, i, quantity, settlement).book.cash - b.cash);
    Removed(b.positions, k);
    SoldMoves(b, k, i, quantity, settlement);
  }

  lemma SoldMoves(b: Book, k: nat, i: Instrument, quantity: real, settlement: bool)
    requires k < |b.positions| && b.positions[k].quantity > 0.0
    requires 0.0 <= b.positions[k].quantity - quantity <= DUST
    ensures var c := Sold(b, k, i, quantity, settlement).book;
            && c.positions == b.positions[..k] + b.positions[k + 1..]
            && c.realized == b.realized + Round((c.cash - b.cash) as real - BasisSold(b.positions[k], i, quantity))
  {}

  /** A holding bought at this mark, of which a sale of `notional` leaves exactly the dust limit. */
  function Dusty(i: Instrument, notional: nat): Position
    requires i.mark > 0.0
  {
    var p := Position(i.ref, i.kind, "X", notional as real / i.mark + DUST, i.mark, i.mark, 0, true);
    p.(costBasis := Round(AtEntry(p, p.quantity)))
  }

  lemma DustyWorth(n: real, mark: real)
    requires mark > 0.0
    ensures (n / mark + DUST) * mark == n + DUST * mark
  {
    assert n / mark * mark == n;
  }

  lemma DustWorthACent(mark: real)
    requires mark > MAX_MARK
    ensures DUST * mark > 1.0
  {}

  lemma DustySale(i: Instrument, notional: nat)
    requires i.mark > MAX_MARK
    ensures var p := Dusty(i, notional); SellQuantity(p, i, notional, false) == p.quantity - DUST
  {
    DustyWorth(notional as real, i.mark);
    DustWorthACent(i.mark);
  }

  /** A partial sale leaves dust behind. */
  predicate LeavesDust(p: Position, i: Instrument, notional: nat) {
    p.quantity > 0.0 && notional > 0 && var s := SellQuantity(p, i, notional, false); s != p.quantity && p.quantity - s <= DUST
  }

  /** The price bound is exact: a partial sale can leave dust if and only if the mark is above a million. */
  lemma PriceBoundIsExact(i: Instrument)
    requires i.mark > 0.0
    ensures (exists p, notional :: LeavesDust(p, i, notional)) <==> i.mark > MAX_MARK
  {
    if i.mark > MAX_MARK {
      DustySale(i, 1);
      DustyQuantity(i, 1);
      assert LeavesDust(Dusty(i, 1), i, 1);
    }
    forall p: Position, notional: nat | LeavesDust(p, i, notional) ensures i.mark > MAX_MARK {
      if i.mark <= MAX_MARK { PartialSaleLeavesMore(p, i, notional, false); }
    }
  }

  lemma DustyIsAtCost(i: Instrument, notional: nat)
    requires i.mark > 0.0
    ensures AtCost(Dusty(i, notional)) && Dusty(i, notional).quantity > 0.0
  {
    DustyQuantity(i, notional);
    DustyBasis(i, notional);
  }

  lemma DustyBasis(i: Instrument, notional: nat)
    requires i.mark > 0.0
    ensures var p := Dusty(i, notional); p.costBasis == Round(AtEntry(p, p.quantity))
  {}

  lemma DustyKeeps(i: Instrument, notional: nat)
    requires i.mark > 0.0 && !i.kind.Prediction? && Dusty(i, notional).quantity > 0.0
    ensures BasisKept(Dusty(i, notional), i, DUST) == Round(DUST * i.mark)
  {}

  /** Above the bound every such sale loses the basis of its dust: what the dust is worth at the mark, to the
      cent. */
  lemma DustLosesBasis(b: Book, i: Instrument, notional: nat)
    requires i.mark > MAX_MARK && !i.kind.Prediction? && b.positions == [Dusty(i, notional)]
    ensures var p := Dusty(i, notional);
            var q := SellQuantity(p, i, notional, false);
            && p.quantity > 0.0 && WellKept(b.positions) && p.quantity - q == DUST
            && -1 - Round(DUST * i.mark) <= Balance(Sold(b, 0, i, q, false).book) - Balance(b) <= 1 - Round(DUST * i.mark)
  {
    DustySale(i, notional);
    DustyIsAtCost(i, notional);
    DustyKeeps(i, notional);
    DustTakesItsBasis(b, 0, i, Dusty(i, notional).quantity - DUST, false);
  }

  lemma DustyQuantity(i: Instrument, notional: nat)
    requires i.mark > 0.0
    ensures Dusty(i, notional).quantity >= DUST
  {
    assert notional as real / i.mark >= 0.0;
  }
}
