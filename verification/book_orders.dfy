/**
  The order lists of a tick: each names instruments of the snapshot, no reference twice, sells before
  buys, and every order fits the position it touches.
 */
module BookOrders {
  import opened Wrappers
  import opened Money
  import opened Market
  import opened Selection
  import opened Engine
  import opened Accounting

  predicate FromSnapshot(m: Snapshot, i: Instrument) { Lookup(m, i.ref) == Some(i) }

  lemma {:induction false} MembersLookUp(m: seq<Instrument>, i: Instrument)
    requires DistinctRefs(m) && i in m
    ensures Lookup(m, i.ref) == Some(i)
  {
    if m[0].ref == i.ref {
      assert exists k :: 0 <= k < |m| && m[k] == i;
      assert m[0] == i;
    } else {
      MembersLookUp(m[1..], i);
    }
  }

  predicate DistinctOrders(orders: seq<Order>) {
    forall j, k :: 0 <= j < k < |orders| ==> orders[j].instrument.ref != orders[k].instrument.ref
  }

  predicate SellsFirst(orders: seq<Order>) {
    forall j, k :: 0 <= j < k < |orders| && orders[k].side.Sell? ==> orders[j].side.Sell?
  }

  predicate OrdersFrom(m: Snapshot, orders: seq<Order>) {
    forall o :: o in orders ==> FromSnapshot(m, o.instrument)
  }

  // ----- Rebalancing orders -----

  predicate Increasing(s: seq<nat>) { forall j, k :: 0 <= j < k < |s| ==> s[j] < s[k] }

  lemma PrependIncreases(x: nat, s: seq<nat>)
    requires Increasing(s) && forall y :: y in s ==> x < y
    ensures Increasing([x] + s)
  {
    assert forall k :: 0 <= k < |s| ==> s[k] in s;
  }

  lemma {:induction false} InsertRefIncreases(x: nat, s: seq<nat>)
    requires Increasing(s)
    ensures Increasing(InsertRef(x, s))
    ensures forall y :: y in InsertRef(x, s) <==> y == x || y in s
  {
    if s != [] && s[0] < x {
      InsertRefIncreases(x, s[1..]);
      PrependIncreases(s[0], InsertRef(x, s[1..]));
      assert s == [s[0]] + s[1..];
    } else if s != [] && x < s[0] {
      PrependIncreases(x, s);
    }
  }

  lemma {:induction false} HeldRefsIncrease(ps: seq<Position>)
    ensures Increasing(HeldRefs(ps))
    ensures forall y :: y in HeldRefs(ps) <==> exists p :: p in ps && p.ref == y
  {
    if ps != [] {
      HeldRefsIncrease(ps[1..]);
      InsertRefIncreases(ps[0].ref, HeldRefs(ps[1..]));
      assert ps == [ps[0]] + ps[1..];
    }
  }

  lemma {:induction false} WithRefsIncreases(items: seq<Instrument>, refs: seq<nat>)
    requires Increasing(refs)
    ensures Increasing(WithRefs(items, refs))
  {
    if items != [] {
      WithRefsIncreases(items[1..], refs);
      InsertRefIncreases(items[0].ref, WithRefs(items[1..], refs));
    }
  }

  /** Each order of one side is the order for one of the references, in their order. */
  lemma {:induction false} OrdersForSide(b: Book, m: Snapshot, targets: map<nat, int>, refs: seq<nat>, side: Side)
    requires Increasing(refs)
    ensures var orders := OrdersFor(b, m, targets, refs, side);
            && (forall o :: o in orders ==> o.side == side && o.instrument.ref in refs && OrderFor(b, m, targets, o.instrument.ref) == Some(o))
            && (forall j, k :: 0 <= j < k < |orders| ==> orders[j].instrument.ref < orders[k].instrument.ref)
  {
    if refs != [] {
      OrdersForSide(b, m, targets, refs[1..], side);
      var first := OrderFor(b, m, targets, refs[0]);
      if first.Some? { OrderForRef(b, m, targets, refs[0]); }
      assert forall r :: r in refs[1..] ==> refs[0] < r;
      var rest := OrdersFor(b, m, targets, refs[1..], side);
      assert forall k :: 0 <= k < |rest| ==> rest[k] in rest;
    }
  }

  lemma OrderForRef(b: Book, m: Snapshot, targets: map<nat, int>, ref: nat)
    requires OrderFor(b, m, targets, ref).Some?
    ensures var o := OrderFor(b, m, targets, ref).value; o.instrument.ref == ref && Lookup(m, ref) == Some(o.instrument)
  {}

  lemma OrdersAreSound(b: Book, m: Snapshot)
    ensures DistinctOrders(Orders(b, m)) && SellsFirst(Orders(b, m)) && OrdersFrom(m, Orders(b, m))
    ensures forall o :: o in Orders(b, m) ==> OrderFor(b, m, Targets(b, m, TradedRefs(b, m)), o.instrument.ref) == Some(o)
  {
    var refs := TradedRefs(b, m);
    var targets := Targets(b, m, refs);
    HeldRefsIncrease(b.positions);
    WithRefsIncreases(Eligible(b.strategy, m), HeldRefs(b.positions));
    OrdersForSide(b, m, targets, refs, Sell);
    OrdersForSide(b, m, targets, refs, Buy);
    var sells := OrdersFor(b, m, targets, refs, Sell);
    var buys := OrdersFor(b, m, targets, refs, Buy);
    JoinedOrders(b, m, targets, sells, buys);
    forall o: Order | o in sells + buys ensures FromSnapshot(m, o.instrument) {
      OrderForRef(b, m, targets, o.instrument.ref);
    }
  }

  lemma JoinedOrders(b: Book, m: Snapshot, targets: map<nat, int>, sells: seq<Order>, buys: seq<Order>)
    requires forall o :: o in sells ==> o.side == Sell && OrderFor(b, m, targets, o.instrument.ref) == Some(o)
    requires forall o :: o in buys ==> o.side == Buy && OrderFor(b, m, targets, o.instrument.ref) == Some(o)
    requires forall j, k :: 0 <= j < k < |sells| ==> sells[j].instrument.ref < sells[k].instrument.ref
    requires forall j, k :: 0 <= j < k < |buys| ==> buys[j].instrument.ref < buys[k].instrument.ref
    ensures DistinctOrders(sells + buys) && SellsFirst(sells + buys)
    ensures forall o :: o in sells + buys ==> OrderFor(b, m, targets, o.instrument.ref) == Some(o)
  {
    var all := sells + buys;
    forall j, k | 0 <= j < k < |all| ensures all[j].instrument.ref != all[k].instrument.ref {
      if j < |sells| <= k {
        assert all[j] in sells && all[k] in buys;
      }
    }
    assert forall k :: |sells| <= k < |all| ==> all[k] in buys;
    assert forall k :: 0 <= k < |sells| ==> all[k] in sells;
  }

  // ----- Eligible instruments -----

  lemma {:induction false} EligibleWithin(s: Strategy, m: seq<Instrument>)
    requires DistinctRefs(m)
    ensures DistinctRefs(Eligible(s, m)) && forall i :: i in Eligible(s, m) ==> i in m
  {
    if m != [] {
      EligibleWithin(s, m[1..]);
      var rest := Eligible(s, m[1..]);
      assert forall k :: 0 <= k < |rest| ==> rest[k] in rest;
    }
  }

  lemma DistinctTargets(s: Strategy, m: Snapshot, mode: Mode, count: nat)
    ensures DistinctRefs(SelectTargets(mode, count, Eligible(s, m)))
  {
    EligibleWithin(s, m);
    TargetsAreEligible(mode, count, Eligible(s, m));
  }

  // ----- Seed orders -----

  lemma {:induction false} FirstSeedIs(s: Strategy, m: seq<Instrument>, symbol: string)
    requires FirstSeed(s, m, symbol).Some?
    ensures var i := FirstSeed(s, m, symbol).value; i in m && i.symbol == symbol && EligibleFor(s, i)
  {
    if m[0].symbol != symbol || !EligibleFor(s, m[0]) { FirstSeedIs(s, m[1..], symbol); }
  }

  lemma {:induction false} SeedsAre(s: Strategy, m: seq<Instrument>, symbols: seq<string>)
    requires SeedsBySymbol(s, m, symbols).Some?
    ensures var items := SeedsBySymbol(s, m, symbols).value;
            && |items| == |symbols|
            && forall k :: 0 <= k < |items| ==> items[k] in m && items[k].symbol == symbols[k] && IsFresh(items[k]) && EligibleFor(s, items[k])
  {
    if symbols != [] {
      FirstSeedIs(s, m, symbols[0]);
      SeedsAre(s, m, symbols[1..]);
    }
  }

  lemma {:induction false} OutcomesAre(s: Strategy, m: seq<Instrument>, id: nat)
    ensures forall i :: i in Outcomes(s, m, id) ==> i in m && EligibleFor(s, i) && i.marketId == Some(id)
  {
    if m != [] { OutcomesAre(s, m[1..], id); }
  }

  lemma {:induction false} BestMarketIs(s: Strategy, m: seq<Instrument>, rest: seq<Instrument>)
    requires BestMarket(s, m, rest).Some?
    ensures forall i :: i in BestMarket(s, m, rest).value ==> i in m && EligibleFor(s, i)
    decreases |rest|
  {
    if BestMarket(s, m, rest[1..]).Some? { BestMarketIs(s, m, rest[1..]); }
    if rest[0].marketId.Some? { OutcomesAre(s, m, rest[0].marketId.value); }
  }

  lemma {:induction false} WithOutcomeIs(items: seq<Instrument>, name: string)
    requires WithOutcome(items, name).Some?
    ensures var i := WithOutcome(items, name).value; i in items && i.outcome == name
  {
    if items[0].outcome != name { WithOutcomeIs(items[1..], name); }
  }

  predicate DistinctStrings(s: seq<string>) { forall j, k :: 0 <= j < k < |s| ==> s[j] != s[k] }

  lemma SeedSymbolsDistinct(s: Strategy)
    ensures DistinctStrings(SeedSymbols(s)) && |SeedSymbols(s)| <= 5 && (s.PredictionMarkets? || 3 <= |SeedSymbols(s)|)
  {
    var all := SeedSymbols(s);
    if s.LocalEventWatch? {
      assert all[0][0] == 'M' && all[1][0] == 'A' && all[2][0] == 'C' && all[3][0] == 'S' && all[4][1] == 'A';
      assert all[4][0] == 'B';
    } else if !s.PredictionMarkets? {
      assert |all| == 3;
      assert all[0] != all[1] && all[0] != all[2] && all[1] != all[2];
    }
  }

  /** Seeds are fresh, eligible instruments of the snapshot, all different. */
  lemma SeedsAreSound(s: Strategy, m: Snapshot)
    requires SeedInstruments(s, m).Some?
    ensures var items := SeedInstruments(s, m).value;
            && 2 <= |items| <= 5 && DistinctRefs(items)
            && forall i :: i in items ==> FromSnapshot(m, i) && IsFresh(i) && EligibleFor(s, i)
  {
    var items := SeedInstruments(s, m).value;
    if s.PredictionMarkets? {
      var all := BestMarket(s, m, m).value;
      BestMarketIs(s, m, m);
      WithOutcomeIs(all, "YES");
      WithOutcomeIs(all, "NO");
      assert "YES"[0] != "NO"[0];
      MembersLookUp(m, items[0]);
      MembersLookUp(m, items[1]);
    } else {
      SeedsAre(s, m, SeedSymbols(s));
      SeedSymbolsDistinct(s);
      SymbolsSeparate(m, items, SeedSymbols(s));
      forall i | i in items ensures FromSnapshot(m, i) { MembersLookUp(m, i); }
    }
  }

  lemma SymbolsSeparate(m: Snapshot, items: seq<Instrument>, symbols: seq<string>)
    requires |items| == |symbols| && DistinctStrings(symbols)
    requires forall k :: 0 <= k < |items| ==> items[k] in m && items[k].symbol == symbols[k]
    ensures DistinctRefs(items)
  {
    forall j, k | 0 <= j < k < |items| ensures items[j].ref != items[k].ref {
      MembersLookUp(m, items[j]);
      MembersLookUp(m, items[k]);
    }
  }

  lemma SeedOrdersAreSound(s: Strategy, m: Snapshot, total: nat)
    requires SeedInstruments(s, m).Some?
    ensures var orders := SeedOrders(SeedInstruments(s, m).value, total);
            DistinctOrders(orders) && OrdersFrom(m, orders) && forall o :: o in orders ==> o.side.Buy?
  {
    SeedsAreSound(s, m);
  }

  // ----- Orders and positions -----

  /** Every open position was marked from a fresh quote of its own instrument. */
  predicate CurrentMarks(ps: seq<Position>, m: Snapshot) {
    forall p :: p in ps && p.quantity > 0.0 ==>
      var i := Lookup(m, p.ref);
      i.Some? && SameInstrument(p, i.value) && IsFresh(i.value) && p.mark == i.value.mark
  }

  predicate NonNegative(ps: seq<Position>) { forall p :: p in ps ==> p.quantity >= 0.0 }

  predicate Fits(ps: seq<Position>, o: Order) {
    if o.side.Sell? then FitsSell(ps, o.instrument) else FitsBuy(ps, o.instrument)
  }

  predicate OrdersFit(ps: seq<Position>, orders: seq<Order>) { forall o :: o in orders ==> Fits(ps, o) }

  lemma CurrentOrdersFit(ps: seq<Position>, m: Snapshot, orders: seq<Order>)
    requires CurrentMarks(ps, m) && NonNegative(ps) && WellKept(ps) && OrdersFrom(m, orders)
    ensures OrdersFit(ps, orders)
  {
    forall o | o in orders ensures Fits(ps, o) {
      assert FromSnapshot(m, o.instrument);
    }
  }
}
