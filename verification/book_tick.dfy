/**
  One tick of one book: its fills account for every change, an ordinary fill means every open
  position was freshly marked, a crashed book stands still, and the extremes never fall.
 */
module BookTick {
  import opened Wrappers
  import opened Money
  import opened Market
  import opened Engine
  import opened Accounting
  import opened BookOrders

  predicate MarksBounded(m: Snapshot) { forall i :: i in m ==> i.mark <= MAX_MARK }

  predicate Ordinary(fills: seq<Fill>) { forall f :: f in fills ==> !f.settlement }

  predicate Settlements(fills: seq<Fill>) { forall f :: f in fills ==> f.settlement && f.side.Sell? }

  /** Positions of other references are left alone. */
  predicate OthersKept(ps: seq<Position>, after: seq<Position>, ref: nat) {
    forall p :: p in after ==> p.ref == ref || p in ps
  }

  /** Fields no trade touches. */
  predicate SameBook(b: Book, c: Book) {
    && c.line == b.line && c.strategy == b.strategy && c.equity == b.equity && c.highWater == b.highWater
    && c.maxDrawdown == b.maxDrawdown && c.seeded == b.seeded && c.postmortem == b.postmortem
  }

  lemma Unmoved(b: Book, c: Book, bounded: bool)
    requires c.cash == b.cash && c.counters == b.counters && c.realized == b.realized
    requires BasisTotal(c.positions) == BasisTotal(b.positions)
    requires forall ref :: Held(c.positions, ref) == Held(b.positions, ref)
    ensures Accounted(b, [], c, bounded)
  {}

  lemma NothingAccounted(b: Book, bounded: bool)
    ensures Accounted(b, [], b, bounded)
  {
    Unmoved(b, b, bounded);
  }

  // ----- One order -----

  lemma BuyTouches(b: Book, i: Instrument, notional: int)
    requires i.mark > 0.0 && ValidCosts(i.costs) && ExecuteBuy(b, i, notional).Some?
    ensures var x := ExecuteBuy(b, i, notional).value;
            && OthersKept(b.positions, x.book.positions, i.ref) && SameBook(b, x.book) && !x.fill.settlement
            && x.fill.ref == i.ref && x.fill.side.Buy?
  {
    BuyParts(b, i, notional);
  }

  lemma SellTouches(b: Book, i: Instrument, notional: nat, settlement: bool)
    requires ExecuteSell(b, i, notional, settlement).Some?
    ensures var x := ExecuteSell(b, i, notional, settlement).value;
            && OthersKept(b.positions, x.book.positions, i.ref) && SameBook(b, x.book)
            && x.fill.settlement == settlement && x.fill.ref == i.ref && x.fill.side.Sell?
  {
    SellParts(b, i, notional, settlement);
  }

  ghost predicate Sound(b: Book, t: Trades, bounded: bool) {
    && Accounted(b, t.fills, t.book, bounded) && WellKept(t.book.positions) && SameBook(b, t.book)
  }

  lemma PlaceIsSound(b: Book, o: Order, clamped: bool, bounded: bool)
    requires WellKept(b.positions) && Fits(b.positions, o) && (bounded ==> o.instrument.mark <= MAX_MARK) && Place(b, o, clamped).Some?
    ensures var t := Place(b, o, clamped).value;
            && Sound(b, t, bounded) && Ordinary(t.fills) && OthersKept(b.positions, t.book.positions, o.instrument.ref)
            && |t.decisions| == 1 && t.decisions[0].ref == Some(o.instrument.ref)
  {
    var i := o.instrument;
    NothingAccounted(b, bounded);
    if o.side.Sell? {
      if RiskPassed(b, Sell, o.notional, i) && ExecuteSell(b, i, o.notional, false).Some? {
        SellAccounted(b, i, o.notional, false, bounded);
        SellTouches(b, i, o.notional, false);
      }
    } else if clamped ==> ValidCosts(i.costs) {
      var notional := if clamped then Min(o.notional, Affordable(b.cash, i.costs)) else o.notional;
      if RiskPassed(b, Buy, notional, i) && ExecuteBuy(b, i, notional).Some? {
        BuyAccounted(b, i, notional, bounded);
        BuyTouches(b, i, notional);
      }
    }
  }

  // ----- A list of orders -----

  lemma RestFits(ps: seq<Position>, after: seq<Position>, orders: seq<Order>)
    requires orders != [] && DistinctOrders(orders) && OrdersFit(ps, orders)
    requires OthersKept(ps, after, orders[0].instrument.ref)
    ensures DistinctOrders(orders[1..]) && OrdersFit(after, orders[1..])
  {
    forall o | o in orders[1..] ensures Fits(after, o) {
      assert Fits(ps, o);
      assert o.instrument.ref != orders[0].instrument.ref;
    }
  }

  /** Decisions of an order list: one for each order, in order. */
  predicate DecidesEach(orders: seq<Order>, decisions: seq<Decision>) {
    |decisions| == |orders| && forall k :: 0 <= k < |orders| ==> decisions[k].ref == Some(orders[k].instrument.ref)
  }

  lemma {:induction false} RunOrdersIsSound(b: Book, orders: seq<Order>, clamped: bool, bounded: bool)
    requires WellKept(b.positions) && DistinctOrders(orders) && OrdersFit(b.positions, orders)
    requires forall o :: o in orders ==> (bounded ==> o.instrument.mark <= MAX_MARK)
    requires RunOrders(b, orders, clamped).Some?
    ensures var t := RunOrders(b, orders, clamped).value;
            Sound(b, t, bounded) && Ordinary(t.fills) && DecidesEach(orders, t.decisions)
    decreases |orders|
  {
    NothingAccounted(b, bounded);
    if orders != [] {
      PlaceIsSound(b, orders[0], clamped, bounded);
      var first := Place(b, orders[0], clamped).value;
      RestFits(b.positions, first.book.positions, orders);
      RunOrdersIsSound(first.book, orders[1..], clamped, bounded);
      var rest := RunOrders(first.book, orders[1..], clamped).value;
      AccountedThrough(b, first.fills, first.book, rest.fills, rest.book, bounded);
    }
  }

  // ----- Marking and settling -----

  lemma {:induction false} MarkingKeepsFind(ps: seq<Position>, m: Snapshot, ref: nat)
    ensures Find(MarkAll(ps, m), ref) == Find(ps, ref)
  {
    if ps != [] {
      assert MarkAll(ps, m)[1..] == MarkAll(ps[1..], m);
      MarkingKeepsFind(ps[1..], m, ref);
    }
  }

  lemma MarkingKeepsHeld(ps: seq<Position>, m: Snapshot, ref: nat)
    ensures Held(MarkAll(ps, m), ref) == Held(ps, ref)
  {
    MarkingKeepsFind(ps, m, ref);
  }

  lemma {:induction false} MarkingKeepsBasis(ps: seq<Position>, m: Snapshot)
    ensures BasisTotal(MarkAll(ps, m)) == BasisTotal(ps)
  {
    if ps != [] {
      assert MarkAll(ps, m)[..|ps| - 1] == MarkAll(ps[..|ps| - 1], m);
      MarkingKeepsBasis(ps[..|ps| - 1], m);
    }
  }

  function Marking(b: Book, m: Snapshot): Book { b.(positions := MarkAll(b.positions, m)) }

  lemma MarkingKeepsPositions(ps: seq<Position>, m: Snapshot)
    requires WellKept(ps)
    ensures WellKept(MarkAll(ps, m)) && (NonNegative(ps) ==> NonNegative(MarkAll(ps, m)))
  {
    var after := MarkAll(ps, m);
    forall k | 0 <= k < |after| ensures after[k].ref == ps[k].ref && AtCost(after[k]) && after[k].quantity == ps[k].quantity {
      assert ps[k] in ps;
    }
  }

  lemma MarkingIsSound(b: Book, m: Snapshot, bounded: bool)
    requires WellKept(b.positions)
    ensures Sound(b, Trades(Marking(b, m), [], []), bounded)
    ensures NonNegative(b.positions) ==> NonNegative(Marking(b, m).positions)
  {
    MarkingKeepsPositions(b.positions, m);
    MarkingKeepsBasis(b.positions, m);
    forall ref ensures Held(Marking(b, m).positions, ref) == Held(b.positions, ref) { MarkingKeepsHeld(b.positions, m, ref); }
    Unmoved(b, Marking(b, m), bounded);
  }

  predicate Within(ps: seq<Position>, all: seq<Position>) { forall p :: p in ps ==> p in all }

  lemma SameRefSamePosition(all: seq<Position>, p: Position, q: Position)
    requires DistinctPositions(all) && p in all && q in all && p.ref == q.ref
    ensures p == q
  {}

  /** Settling one position. */
  lemma SettlesOne(b: Book, m: Snapshot, all: seq<Position>, p: Position, bounded: bool)
    requires WellKept(b.positions) && WellKept(all) && Within(b.positions, all) && p in all && (bounded ==> MarksBounded(m))
    requires SettlesAt(p, Lookup(m, p.ref)) && ExecuteSell(b, Lookup(m, p.ref).value, 0, true).Some?
    ensures var x := ExecuteSell(b, Lookup(m, p.ref).value, 0, true).value;
            && Accounted(b, [x.fill], x.book, bounded) && WellKept(x.book.positions) && SameBook(b, x.book)
            && Within(x.book.positions, b.positions) && Settlements([x.fill])
            && forall q :: q in b.positions && q !in x.book.positions ==> q == p
  {
    var i := Lookup(m, p.ref).value;
    forall q | q in b.positions && q.ref == i.ref ensures q.kind.Prediction? { SameRefSamePosition(all, p, q); }
    SellAccounted(b, i, 0, true, bounded);
    SellTouches(b, i, 0, true);
    SellParts(b, i, 0, true);
    var k := Find(b.positions, i.ref).value;
    SameRefSamePosition(all, b.positions[k], p);
    RemovalKeepsRest(b.positions, k);
  }

  lemma RemovalKeepsRest(ps: seq<Position>, k: nat)
    requires k < |ps|
    ensures forall q :: q in ps && q !in ps[..k] + ps[k + 1..] ==> q == ps[k]
  {
    assert ps == ps[..k] + [ps[k]] + ps[k + 1..];
  }

  lemma {:induction false} SettleIsSound(b: Book, m: Snapshot, all: seq<Position>, rest: seq<Position>, bounded: bool)
    requires WellKept(b.positions) && WellKept(all) && Within(b.positions, all) && Within(rest, all) && (bounded ==> MarksBounded(m))
    ensures var t := Settle(b, m, rest);
            && Sound(b, t, bounded) && Settlements(t.fills) && Within(t.book.positions, b.positions)
            && forall q :: q in b.positions && q !in t.book.positions ==> SettlesAt(q, Lookup(m, q.ref))
    decreases |rest|
  {
    NothingAccounted(b, bounded);
    if rest != [] {
      assert rest[0] in rest && Within(rest[1..], all);
      var quote := Lookup(m, rest[0].ref);
      if SettlesAt(rest[0], quote) && ExecuteSell(b, quote.value, 0, true).Some? {
        SettlesOne(b, m, all, rest[0], bounded);
        var x := ExecuteSell(b, quote.value, 0, true).value;
        SettleIsSound(x.book, m, all, rest[1..], bounded);
        var t := Settle(x.book, m, rest[1..]);
        AccountedThrough(b, [x.fill], x.book, t.fills, t.book, bounded);
      } else {
        SettleIsSound(b, m, all, rest[1..], bounded);
      }
    }
  }

  lemma OpeningIsSound(b: Book, m: Snapshot, bounded: bool)
    requires WellKept(b.positions) && (bounded ==> MarksBounded(m))
    ensures var t := Opening(b, m);
            && Sound(b, t, bounded) && Settlements(t.fills) && Within(t.book.positions, MarkAll(b.positions, m))
            && forall q :: q in MarkAll(b.positions, m) && q !in t.book.positions ==> SettlesAt(q, Lookup(m, q.ref))
  {
    MarkingIsSound(b, m, bounded);
    var marked := Marking(b, m);
    SettleIsSound(marked, m, marked.positions, marked.positions, bounded);
    NothingAccounted(marked, bounded);
    var t := Opening(b, m);
    AccountedThrough(b, [], marked, t.fills, t.book, bounded);
    assert [] + t.fills == t.fills;
  }

  /** When no open mark is stale, each open position carries this tick's fresh quote. */
  lemma FreshMarks(b: Book, m: Snapshot, ps: seq<Position>)
    requires Within(ps, MarkAll(b.positions, m)) && !StaleOpenMark(ps)
    ensures CurrentMarks(ps, m)
  {
    var all := MarkAll(b.positions, m);
    forall p | p in ps && p.quantity > 0.0
      ensures var i := Lookup(m, p.ref); i.Some? && SameInstrument(p, i.value) && IsFresh(i.value) && p.mark == i.value.mark
    {
      var j :| 0 <= j < |ps| && ps[j] == p;
      var k :| 0 <= k < |all| && all[k] == p;
      assert p == MarkPosition(b.positions[k], m);
    }
  }

  // ----- Measuring -----

  lemma MeasuringIsSound(b: Book, bounded: bool)
    ensures Accounted(b, [], Measured(b), bounded) && Measured(b).positions == b.positions
    ensures Measured(b).highWater >= b.highWater && Measured(b).maxDrawdown >= b.maxDrawdown
    ensures Measured(b).highWater >= Measured(b).equity == EquityOf(b) && Measured(b).highWater >= STARTING_CASH
  {
    Unmoved(b, Measured(b), bounded);
  }

  // ----- The tick -----

  function FillIn(e: Event): seq<Fill> { if e.Filled? then [e.fill] else [] }

  function FillsOf(events: seq<Event>): seq<Fill> {
    if events == [] then [] else FillIn(events[0]) + FillsOf(events[1..])
  }

  lemma {:induction false} FillsOfAppend(a: seq<Event>, b: seq<Event>)
    ensures FillsOf(a + b) == FillsOf(a) + FillsOf(b)
  {
    if a == [] {
      assert a + b == b;
    } else {
      assert (a + b)[0] == a[0] && (a + b)[1..] == a[1..] + b;
      FillsOfAppend(a[1..], b);
      assert FillIn(a[0]) + (FillsOf(a[1..]) + FillsOf(b)) == FillIn(a[0]) + FillsOf(a[1..]) + FillsOf(b);
    }
  }

  lemma {:induction false} FillsOfFills(fills: seq<Fill>)
    ensures FillsOf(FillEvents(fills)) == fills
  {
    if fills != [] {
      assert FillEvents(fills)[1..] == FillEvents(fills[1..]);
      FillsOfFills(fills[1..]);
    }
  }

  /** What acting on a measured book keeps; an ordinary fill means every open mark is this tick's. */
  ghost predicate SoundAct(b: Book, m: Snapshot, t: Ticked, bounded: bool) {
    && Accounted(b, FillsOf(t.events), t.book, bounded) && WellKept(t.book.positions) && Ordinary(FillsOf(t.events))
    && t.book.line == b.line && t.book.strategy == b.strategy
    && t.book.highWater == b.highWater && t.book.maxDrawdown == b.maxDrawdown
    && (FillsOf(t.events) != [] ==> CurrentMarks(b.positions, m) && !b.postmortem)
    && (b.postmortem ==> t.book == b && t.events == [])
  }

  lemma RebalanceIsSound(b: Book, m: Snapshot, bounded: bool)
    requires WellKept(b.positions) && CurrentMarks(b.positions, m) && NonNegative(b.positions) && (bounded ==> MarksBounded(m))
    requires RebalanceBook(b, m).Some?
    ensures var t := RebalanceBook(b, m).value; Sound(b, t, bounded) && Ordinary(t.fills)
  {
    OrdersAreSound(b, m);
    var orders := Orders(b, m);
    CurrentOrdersFit(b.positions, m, orders);
    assert forall o :: o in orders ==> FromSnapshot(m, o.instrument);
    RunOrdersIsSound(b, orders, true, bounded);
  }

  lemma SeedOrdersRunSoundly(b: Book, m: Snapshot, remaining: nat, bounded: bool)
    requires WellKept(b.positions) && CurrentMarks(b.positions, m) && NonNegative(b.positions) && (bounded ==> MarksBounded(m))
    requires SeedInstruments(b.strategy, m).Some?
    requires RunOrders(b, SeedOrders(SeedInstruments(b.strategy, m).value, remaining), false).Some?
    ensures var t := RunOrders(b, SeedOrders(SeedInstruments(b.strategy, m).value, remaining), false).value;
            Sound(b, t, bounded) && Ordinary(t.fills)
  {
    SeedOrdersAreSound(b.strategy, m, remaining);
    var orders := SeedOrders(SeedInstruments(b.strategy, m).value, remaining);
    CurrentOrdersFit(b.positions, m, orders);
    forall o: Order | o in orders ensures (bounded ==> o.instrument.mark <= MAX_MARK) { assert FromSnapshot(m, o.instrument); }
    RunOrdersIsSound(b, orders, false, bounded);
  }

  lemma SeededOnly(b: Book, t: Trades, seeded: bool, bounded: bool)
    requires Sound(b, t, bounded)
    ensures var c := t.book.(seeded := seeded);
            Accounted(b, t.fills, c, bounded) && WellKept(c.positions) && SameBook(b, c.(seeded := b.seeded))
  {
    var c := t.book.(seeded := seeded);
    Unmoved(t.book, c, bounded);
    AccountedThrough(b, t.fills, t.book, [], c, bounded);
    assert t.fills + [] == t.fills;
  }

  lemma SeedingIsSound(b: Book, m: Snapshot, bounded: bool)
    requires WellKept(b.positions) && CurrentMarks(b.positions, m) && NonNegative(b.positions) && (bounded ==> MarksBounded(m))
    requires SeedBook(b, m).Some?
    ensures var t := SeedBook(b, m).value;
            && Accounted(b, t.fills, t.book, bounded) && WellKept(t.book.positions) && Ordinary(t.fills)
            && SameBook(b, t.book.(seeded := b.seeded))
  {
    var remaining := Max(0, SEED_CAPITAL - BasisTotal(b.positions));
    if remaining > 1 && SeedInstruments(b.strategy, m).Some? {
      SeedOrdersRunSoundly(b, m, remaining, bounded);
      var run := RunOrders(b, SeedOrders(SeedInstruments(b.strategy, m).value, remaining), false).value;
      SeededOnly(b, run, BasisTotal(run.book.positions) >= SEED_CAPITAL - 1, bounded);
    } else {
      NothingAccounted(b, bounded);
      SeededOnly(b, Trades(b, [], []), true, bounded);
    }
  }

  lemma ActIsSound(b: Book, m: Snapshot, bounded: bool)
    requires WellKept(b.positions) && NonNegative(b.positions) && (bounded ==> MarksBounded(m))
    requires !StaleOpenMark(b.positions) ==> CurrentMarks(b.positions, m)
    requires Act(b, m).Some?
    ensures SoundAct(b, m, Act(b, m).value, bounded)
  {
    NothingAccounted(b, bounded);
    if !(b.postmortem || b.equity <= CRASH_EQUITY) && !StaleOpenMark(b.positions) {
      if b.seeded { RebalanceIsSound(b, m, bounded); } else { SeedingIsSound(b, m, bounded); }
      var t := if b.seeded then RebalanceBook(b, m).value else SeedBook(b, m).value;
      FillsOfFills(t.fills);
    } else {
      assert FillsOf([BookCrashed(b.equity)]) == [] + FillsOf([]);
    }
  }

  lemma WithinKeeps(ps: seq<Position>, all: seq<Position>)
    requires Within(ps, all) && NonNegative(all)
    ensures NonNegative(ps)
  {}

  /** The measured book a tick acts on. */
  function Pretrade(b: Book, m: Snapshot): Book { Measured(Opening(b, m).book) }

  lemma PretradeIsSound(b: Book, m: Snapshot, bounded: bool)
    requires WellKept(b.positions) && NonNegative(b.positions) && (bounded ==> MarksBounded(m))
    ensures var p := Pretrade(b, m);
            && Accounted(b, Opening(b, m).fills, p, bounded) && WellKept(p.positions) && NonNegative(p.positions)
            && (!StaleOpenMark(p.positions) ==> CurrentMarks(p.positions, m))
            && p.line == b.line && p.strategy == b.strategy && p.postmortem == b.postmortem && p.seeded == b.seeded
            && p.highWater >= b.highWater && p.maxDrawdown >= b.maxDrawdown
  {
    OpeningIsSound(b, m, bounded);
    var t := Opening(b, m);
    MeasuringIsSound(t.book, bounded);
    AccountedThrough(b, t.fills, t.book, [], Measured(t.book), bounded);
    assert t.fills + [] == t.fills;
    MarkingKeepsPositions(b.positions, m);
    WithinKeeps(t.book.positions, MarkAll(b.positions, m));
    if !StaleOpenMark(t.book.positions) { FreshMarks(b, m, t.book.positions); }
  }

  lemma TickFills(b: Book, m: Snapshot)
    requires Tick(b, m).Some?
    ensures Act(Pretrade(b, m), m).Some?
    ensures FillsOf(Tick(b, m).value.events) == Opening(b, m).fills + FillsOf(Act(Pretrade(b, m), m).value.events)
    ensures Tick(b, m).value.book == Measured(Act(Pretrade(b, m), m).value.book)
  {
    var settled := Opening(b, m);
    var t := Act(Pretrade(b, m), m).value;
    var mark := [Marked(Measured(t.book).equity)];
    FillsOfFills(settled.fills);
    FillsOfAppend(FillEvents(settled.fills) + t.events, mark);
    FillsOfAppend(FillEvents(settled.fills), t.events);
    assert FillsOf(mark) == [] + FillsOf([]);
  }

  /** A tick's fills account for all it changes. */
  lemma TickIsAccounted(b: Book, m: Snapshot, bounded: bool)
    requires WellKept(b.positions) && NonNegative(b.positions) && (bounded ==> MarksBounded(m)) && Tick(b, m).Some?
    ensures var t := Tick(b, m).value;
            && Accounted(b, FillsOf(t.events), t.book, bounded) && WellKept(t.book.positions)
            && t.book.line == b.line && t.book.strategy == b.strategy
  {
    PretradeIsSound(b, m, bounded);
    var p := Pretrade(b, m);
    TickFills(b, m);
    ActIsSound(p, m, bounded);
    var t := Act(p, m).value;
    AccountedThrough(b, Opening(b, m).fills, p, FillsOf(t.events), t.book, bounded);
    MeasuringIsSound(t.book, bounded);
    AccountedThrough(b, Opening(b, m).fills + FillsOf(t.events), t.book, [], Measured(t.book), bounded);
    assert Opening(b, m).fills + FillsOf(t.events) + [] == FillsOf(Tick(b, m).value.events);
  }

  /** An ordinary fill means that every open position has a fresh quote of its own instrument in this
      snapshot, or was settled from one, and that the book had not crashed. */
  lemma OrdinaryFillNeedsFreshMarks(b: Book, m: Snapshot)
    requires WellKept(b.positions) && NonNegative(b.positions) && Tick(b, m).Some?
    requires !Settlements(FillsOf(Tick(b, m).value.events))
    ensures !b.postmortem
    ensures forall p :: p in b.positions && p.quantity > 0.0 ==>
              var i := Lookup(m, p.ref);
              i.Some? && IsFresh(i.value) && (SameInstrument(p, i.value) || (p.kind == i.value.kind == Prediction && i.value.settled))
  {
    OpeningIsSound(b, m, false);
    PretradeIsSound(b, m, false);
    TickFills(b, m);
    var p := Pretrade(b, m);
    ActIsSound(p, m, false);
    assert FillsOf(Act(p, m).value.events) != [];
    var all := MarkAll(b.positions, m);
    forall k | 0 <= k < |b.positions| && b.positions[k].quantity > 0.0
      ensures var i := Lookup(m, b.positions[k].ref);
              i.Some? && IsFresh(i.value)
              && (SameInstrument(b.positions[k], i.value) || (b.positions[k].kind == i.value.kind == Prediction && i.value.settled))
    {
      assert all[k] == MarkPosition(b.positions[k], m) && all[k] in all;
      if all[k] in p.positions { assert all[k].quantity > 0.0; }
    }
  }

  /** Once a postmortem is due no tick trades, settles or moves money; positions are only re-marked. */
  lemma CrashIsTerminal(b: Book, m: Snapshot)
    requires b.postmortem
    ensures Tick(b, m).Some?
    ensures var t := Tick(b, m).value;
            && FillsOf(t.events) == [] && t.events == [Marked(t.book.equity)]
            && t.decisions == [Decision(PostmortemRequired, None)]
            && t.book.postmortem && t.book.cash == b.cash && t.book.realized == b.realized && t.book.counters == b.counters
            && |t.book.positions| == |b.positions|
            && forall k :: 0 <= k < |b.positions| ==>
                 t.book.positions[k].(mark := b.positions[k].mark, current := b.positions[k].current) == b.positions[k]
  {
    var settled := Opening(b, m);
    assert FillEvents(settled.fills) == [];
  }

  lemma CrashingAct(p: Book, m: Snapshot)
    requires !p.postmortem && p.equity <= CRASH_EQUITY
    ensures Act(p, m) == Some(Ticked(p.(postmortem := true), [BookCrashed(p.equity)], [Decision(PostmortemRequired, None)]))
  {}

  lemma TickParts(b: Book, m: Snapshot, t: Ticked)
    requires Act(Pretrade(b, m), m) == Some(t)
    ensures Tick(b, m) == Some(Ticked(Measured(t.book), FillEvents(Opening(b, m).fills) + t.events + [Marked(Measured(t.book).equity)],
                                      Opening(b, m).decisions + t.decisions))
  {}

  /** A book at or below a cent of equity crashes in that tick, before any trade. */
  lemma CrashesAtOneCent(b: Book, m: Snapshot)
    requires !b.postmortem && Pretrade(b, m).equity <= CRASH_EQUITY
    ensures Tick(b, m).Some?
    ensures var t := Tick(b, m).value;
            t.book.postmortem && t.events == FillEvents(Opening(b, m).fills) + [BookCrashed(Pretrade(b, m).equity)] + [Marked(t.book.equity)]
  {
    var p := Pretrade(b, m);
    OpeningKeepsPostmortem(b, m);
    CrashingAct(p, m);
    TickParts(b, m, Act(p, m).value);
  }

  lemma OpeningKeepsPostmortem(b: Book, m: Snapshot)
    ensures Opening(b, m).book.postmortem == b.postmortem
  {
    SettlingKeepsPostmortem(Marking(b, m), m, MarkAll(b.positions, m));
  }

  lemma {:induction false} SettlingKeepsPostmortem(b: Book, m: Snapshot, rest: seq<Position>)
    ensures Settle(b, m, rest).book.postmortem == b.postmortem
    decreases |rest|
  {
    if rest != [] {
      var quote := Lookup(m, rest[0].ref);
      if SettlesAt(rest[0], quote) && ExecuteSell(b, quote.value, 0, true).Some? {
        SellTouches(b, quote.value, 0, true);
        SettlingKeepsPostmortem(ExecuteSell(b, quote.value, 0, true).value.book, m, rest[1..]);
      } else {
        SettlingKeepsPostmortem(b, m, rest[1..]);
      }
    }
  }

  /** The high-water mark and the deepest drawdown never decrease, and equity never exceeds the mark. */
  lemma ExtremesNeverFall(b: Book, m: Snapshot)
    requires WellKept(b.positions) && NonNegative(b.positions) && Tick(b, m).Some?
    ensures var c := Tick(b, m).value.book;
            && c.highWater >= b.highWater && c.maxDrawdown >= b.maxDrawdown
            && c.highWater >= Pretrade(b, m).equity && c.highWater >= c.equity == EquityOf(c)
            && (c.postmortem || !b.postmortem)
  {
    PretradeIsSound(b, m, false);
    TickFills(b, m);
    ActIsSound(Pretrade(b, m), m, false);
    MeasuringIsSound(Opening(b, m).book, false);
    MeasuringIsSound(Act(Pretrade(b, m), m).value.book, false);
  }
}
