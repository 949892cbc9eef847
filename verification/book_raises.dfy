/**
  Which ticks raise: the division by a zero quantity in a buy (scripts/mosaic_murmurs_paper_engine.py:847-864)
  and nothing else, with a stored book and a snapshot at which it happens.
 */
module RaisingTicks {
  import opened Wrappers
  import opened Money
  import opened Market
  import opened Selection
  import opened Engine
  import opened Accounting
  import opened BookOrders
  import opened BookTick
  import opened Seeding
  import opened Ledger

  /** The k-th order is reached, and is then a buy with invalid costs or to a zero quantity. */
  predicate RaisesAt(b: Book, orders: seq<Order>, k: nat) {
    k < |orders| && RunOrders(b, orders[..k], true).Some? && RaisingBuy(RunOrders(b, orders[..k], true).value.book, orders[k])
  }

  lemma RaisesFirst(b: Book, orders: seq<Order>)
    requires orders != []
    ensures RaisesAt(b, orders, 0) <==> Place(b, orders[0], true).None?
  {
    assert orders[..0] == [];
    PlaceRaisesIff(b, orders[0]);
  }

  lemma RaisesLater(b: Book, orders: seq<Order>, k: nat)
    requires orders != [] && Place(b, orders[0], true).Some?
    ensures RaisesAt(Place(b, orders[0], true).value.book, orders[1..], k) <==> RaisesAt(b, orders, k + 1)
  {
    if k + 1 < |orders| {
      assert orders[..k + 1][0] == orders[0] && orders[..k + 1][1..] == orders[1..][..k];
    }
  }

  ghost predicate RaisesSomewhere(b: Book, orders: seq<Order>) { exists k :: RaisesAt(b, orders, k) }

  lemma ExistsShifted(p: nat -> bool, q: nat -> bool)
    requires !p(0) && forall k: nat :: q(k) <==> p(k + 1)
    ensures (exists k :: p(k)) <==> (exists k :: q(k))
  {
    forall k: nat | p(k) ensures exists j :: q(j) {
      assert k > 0 && q(k - 1);
    }
  }

  lemma SomewhereIs(b: Book, orders: seq<Order>, p: nat -> bool)
    requires forall k: nat :: p(k) <==> RaisesAt(b, orders, k)
    ensures RaisesSomewhere(b, orders) <==> exists k :: p(k)
  {
    forall k: nat | RaisesAt(b, orders, k) ensures exists j :: p(j) {
      assert p(k);
    }
  }

  lemma RaisesInRest(b: Book, orders: seq<Order>)
    requires orders != [] && Place(b, orders[0], true).Some?
    ensures RaisesSomewhere(b, orders) <==> RaisesSomewhere(Place(b, orders[0], true).value.book, orders[1..])
  {
    var next := Place(b, orders[0], true).value.book;
    var p, q := (k: nat) => RaisesAt(b, orders, k), (k: nat) => RaisesAt(next, orders[1..], k);
    RaisesFirst(b, orders);
    forall k: nat ensures q(k) <==> p(k + 1) { RaisesLater(b, orders, k); }
    ExistsShifted(p, q);
    SomewhereIs(b, orders, p);
    SomewhereIs(next, orders[1..], q);
  }

  lemma RunOrdersRaises(b: Book, orders: seq<Order>)
    requires orders != []
    ensures RunOrders(b, orders, true).None?
            <==> Place(b, orders[0], true).None? || RunOrders(Place(b, orders[0], true).value.book, orders[1..], true).None?
  {}

  lemma {:induction false} OrdersRaiseIff(b: Book, orders: seq<Order>)
    ensures RunOrders(b, orders, true).None? <==> RaisesSomewhere(b, orders)
    decreases |orders|
  {
    if orders != [] {
      RunOrdersRaises(b, orders);
      RaisesFirst(b, orders);
      if Place(b, orders[0], true).Some? {
        OrdersRaiseIff(Place(b, orders[0], true).value.book, orders[1..]);
        RaisesInRest(b, orders);
      }
    }
  }

  /** The book trades by rebalancing in this tick. */
  predicate Rebalances(p: Book) {
    !p.postmortem && p.equity > CRASH_EQUITY && !StaleOpenMark(p.positions) && p.seeded
  }

  lemma ActRaisesIff(p: Book, m: Snapshot)
    requires p.seeded
    ensures Act(p, m).None? <==> Rebalances(p) && RunOrders(p, Orders(p, m), true).None?
  {}

  lemma TickRaisesWithAct(b: Book, m: Snapshot)
    ensures Tick(b, m).None? <==> Act(Pretrade(b, m), m).None?
  {}

  /** A tick of a stored book raises if and only if the book rebalances and one of its orders, once reached, is a
      buy with invalid costs, or one that passes its checks and buys to a zero quantity. */
  lemma TickRaisesIff(b: Book, m: Snapshot)
    requires Kept(b)
    ensures var p := Pretrade(b, m);
            Tick(b, m).None? <==> Rebalances(p) && RaisesSomewhere(p, Orders(p, m))
  {
    KeptPositions(b);
    PretradeIsSound(b, m, false);
    if b.seeded {
      TickRaisesWithAct(b, m);
      ActRaisesIff(Pretrade(b, m), m);
      OrdersRaiseIff(Pretrade(b, m), Orders(Pretrade(b, m), m));
    } else {
      UnusedTicks(b, m);
    }
  }

  // ----- An input at which a tick raises -----

  function Free(z: real): CostModel { CostModel(z, z, z, z, z) }

  /** A small holding, too small to be sold by a rebalance. */
  function Small(ref: nat): Position { Position(ref, Crypto, "X", 1.0, 400.0, 400.0, 400, true) }

  function SmallQuote(ref: nat): Instrument { Instrument(ref, Crypto, "X", 400.0, false, true, Free(0.0), {}, None, "", 0.0, 0.0) }

  function Wanted(): Instrument { Instrument(3, Crypto, "Y", 100.0, false, true, Free(0.0), {CryptoMomentum}, None, "", 0.0, 0.0) }

  function Quotes(): Snapshot { [SmallQuote(1), SmallQuote(2), Wanted()] }

  /** No cash, two holdings of 4.00 each, and a target of 8.00 in an instrument not held. */
  function Penniless(): Book {
    OpenBook(HyperAggressive, CryptoMomentum, 0, 0).(positions := [Small(1), Small(2)], equity := 800, highWater := STARTING_CASH,
                                                     maxDrawdown := 996_000, seeded := true)
  }

  lemma SmallFacts(ref: nat)
    ensures ValueOf(Small(ref)) == 400 && AtCost(Small(ref)) && PositionOk(Small(ref))
  {
    RoundOfInt(400);
  }

  lemma PennilessExposure()
    ensures Exposure(Penniless().positions) == 800
  {
    var ps := [Small(1), Small(2)];
    SmallFacts(1);
    SmallFacts(2);
    assert ps[..1] == [Small(1)] && [Small(1)][..0] == [];
    assert Exposure([Small(1)]) == 400;
  }

  lemma PennilessSummary()
    ensures EquityOf(Penniless()) == 800 && HighWater(Penniless()) == STARTING_CASH && Drawdown(Penniless()) == 996_000
  {
    PennilessExposure();
    RoundOfInt(996_000);
    assert (STARTING_CASH - 800) as real / STARTING_CASH as real * 1_000_000.0 == 996_000.0;
  }

  lemma PennilessIsKept()
    ensures Kept(Penniless())
  {
    SmallFacts(1);
    SmallFacts(2);
  }

  lemma PennilessPretrade()
    ensures Pretrade(Penniless(), Quotes()) == Penniless()
  {
    var b := Penniless();
    assert MarkAll(b.positions, Quotes()) == b.positions;
    assert Settle(b, Quotes(), b.positions).book == b by {
      assert b.positions[1..] == [Small(2)] && [Small(2)][1..] == [];
    }
    PennilessSummary();
  }

  lemma OnlyWantedIsEligible()
    ensures Eligible(CryptoMomentum, Quotes()) == [Wanted()]
  {
    var m: seq<Instrument> := Quotes();
    assert m[1..] == [SmallQuote(2), Wanted()] && m[1..][1..] == [Wanted()] && [Wanted()][1..] == [];
  }

  lemma SelectsOnly(b: Book, m: Snapshot, i: Instrument)
    requires Eligible(b.strategy, m) == [i] && ProfileOf(b.line).targetCount == 1
    ensures Selected(b, m) == [i]
  {
    TargetsAreEligible(ModeOf(b.strategy), 1, [i]);
    assert Selected(b, m)[0] in Selected(b, m);
  }

  lemma WantedIsSelected()
    ensures Selected(Penniless(), Quotes()) == [Wanted()]
  {
    OnlyWantedIsEligible();
    SelectsOnly(Penniless(), Quotes(), Wanted());
  }

  lemma PennilessTargets()
    ensures GrossTarget(Penniless()) == 800 && PositionCap(Penniless()) == 800.0
    ensures Allocate(800, 800.0, 1) == [800]
  {
    PennilessSummary();
    RoundOfInt(800);
    assert Allocate(800, 800.0, 1) == [800] + Allocate(0, 800.0, 0);
  }

  lemma WantedShare(ref: nat)
    ensures AllocationFor([Wanted()], [800], ref) == if ref == 3 then 800 else 0
  {
    assert [Wanted()][1..] == [];
  }

  lemma WantedTarget()
    ensures TradedRefs(Penniless(), Quotes()) == [1, 2, 3]
    ensures Targets(Penniless(), Quotes(), [1, 2, 3]) == map[1 := 0, 2 := 0, 3 := 800]
  {
    OnlyWantedIsEligible();
    WantedIsSelected();
    PennilessTargets();
    HeldTwo();
    WantedShare(1);
    WantedShare(2);
    WantedShare(3);
  }

  lemma HeldTwo()
    ensures HeldRefs([Small(1), Small(2)]) == [1, 2] && WithRefs([Wanted()], [1, 2]) == [1, 2, 3]
  {
    assert [Small(1), Small(2)][1..] == [Small(2)] && [Small(2)][1..] == [];
    assert [1, 2][1..] == [2] && [2][1..] == [];
    assert InsertRef(3, [2]) == [2, 3] && InsertRef(3, [1, 2]) == [1] + InsertRef(3, [2]);
  }

  lemma PennilessOrders()
    ensures Orders(Penniless(), Quotes()) == [Order(Buy, Wanted(), 800)]
  {
    var b := Penniless();
    var targets := map[1 := 0, 2 := 0, 3 := 800];
    PennilessSummary();
    OnlyWantedIsEligible();
    WantedTarget();
    SmallFacts(1);
    SmallFacts(2);
    OrderOfEach();
    OnlyOneOrder(targets, Sell);
    OnlyOneOrder(targets, Buy);
  }

  lemma OrderOfEach()
    ensures var targets := map[1 := 0, 2 := 0, 3 := 800];
            && OrderFor(Penniless(), Quotes(), targets, 1).None? && OrderFor(Penniless(), Quotes(), targets, 2).None?
            && OrderFor(Penniless(), Quotes(), targets, 3) == Some(Order(Buy, Wanted(), 800))
  {
    SmallFacts(1);
    SmallFacts(2);
    FindIs(Penniless().positions, 0);
    FindIs(Penniless().positions, 1);
    assert Find(Penniless().positions, 3).None?;
    MembersLookUp(Quotes(), Quotes()[2]);
  }

  lemma OnlyOneOrder(targets: map<nat, int>, side: Side)
    requires targets == map[1 := 0, 2 := 0, 3 := 800]
    ensures OrdersFor(Penniless(), Quotes(), targets, [1, 2, 3], side) == if side.Buy? then [Order(Buy, Wanted(), 800)] else []
  {
    OrderOfEach();
    assert [1, 2, 3][1..] == [2, 3] && [2, 3][1..] == [3] && [3][1..] == [];
  }

  lemma PennilessPlace()
    ensures Place(Penniless(), Order(Buy, Wanted(), 800), true).None?
  {
    var b := Penniless();
    AffordableSign(0, Wanted().costs);
    assert Find(b.positions, 3).None?;
    PlaceRaisesWithoutCashIff(b, Order(Buy, Wanted(), 800));
  }

  lemma PennilessRebalance()
    ensures RunOrders(Penniless(), Orders(Penniless(), Quotes()), true).None?
  {
    PennilessPlace();
    PennilessOrders();
    RunOrdersRaises(Penniless(), [Order(Buy, Wanted(), 800)]);
  }

  lemma PennilessRebalances()
    ensures Rebalances(Penniless())
  {}

  lemma PennilessAct()
    ensures Act(Penniless(), Quotes()).None?
  {
    PennilessRebalances();
    PennilessRebalance();
    ActRaisesIff(Penniless(), Quotes());
  }

  lemma TickOf(b: Book, p: Book, m: Snapshot)
    requires Pretrade(b, m) == p && Act(p, m).None?
    ensures Tick(b, m).None?
  {
    TickRaisesWithAct(b, m);
  }

  /** The ledger refuses a tick that raises. */
  lemma RaisingTickIsRefused(b: Book, m: Snapshot)
    requires Stored(b) && Tick(b, m).None?
    ensures LedgerTick(b, m).None?
  {
    MigrationIsIdentity(b);
  }

  lemma PennilessIsStored()
    ensures Stored(Penniless())
  {
    PennilessIsKept();
    PennilessSummary();
  }

  lemma PennilessRaises()
    ensures Tick(Penniless(), Quotes()).None?
  {
    PennilessPretrade();
    PennilessAct();
    TickOf(Penniless(), Penniless(), Quotes());
  }

  /** A stored book without cash whose rebalance opens a position with nothing: the tick raises, and the ledger
      keeps the book as it was. */
  lemma PennilessTickRaises()
    ensures Stored(Penniless()) && Tick(Penniless(), Quotes()).None? && LedgerTick(Penniless(), Quotes()).None?
  {
    PennilessIsStored();
    PennilessRaises();
    RaisingTickIsRefused(Penniless(), Quotes());
  }

  lemma {:induction false} RefusedBooksAreStuck(b: Book, feeds: seq<Feed>)
    requires forall f :: f in feeds ==> LedgerTick(b, f.snapshot).None?
    ensures Run(b, feeds) == Recorded(b, [])
  {
    if feeds != [] {
      RefusedBooksAreStuck(b, feeds[..|feeds| - 1]);
      assert feeds[|feeds| - 1] in feeds;
    }
  }

  /** A stored book that rebalances into a raising order at every snapshot it is fed stays as it is, without an
      event. */
  lemma RaisingBooksAreStuck(b: Book, feeds: seq<Feed>)
    requires Stored(b)
    requires forall f :: f in feeds ==>
               var p := Pretrade(b, f.snapshot);
               Rebalances(p) && RaisesSomewhere(p, Orders(p, f.snapshot))
    ensures Run(b, feeds) == Recorded(b, [])
  {
    forall f | f in feeds ensures LedgerTick(b, f.snapshot).None? {
      TickRaisesIff(b, f.snapshot);
      RaisingTickIsRefused(b, f.snapshot);
    }
    RefusedBooksAreStuck(b, feeds);
  }
}
