/**
  Which instruments a book is seeded with and which it aims for, by score, liquidity, price and reference
  (scripts/mosaic_murmurs_paper_engine.py:584-709, 1140-1194).
 */
module TargetChoice {
  import opened Wrappers
  import opened Money
  import opened Market
  import opened Selection
  import opened BookOrders

  // ----- Rankings -----

  predicate NotWeaker(a: Instrument, b: Instrument) { a.score > b.score || (a.score == b.score && a.ref >= b.ref) }

  predicate NotWeakerMarket(a: Instrument, b: Instrument) {
    a.score > b.score || (a.score == b.score && (a.liquidity > b.liquidity || (a.liquidity == b.liquidity && a.ref >= b.ref)))
  }

  predicate NotWeakerOutcome(a: Instrument, b: Instrument) {
    || a.score > b.score
    || (a.score == b.score && (a.liquidity > b.liquidity
        || (a.liquidity == b.liquidity && (a.mark > b.mark || (a.mark == b.mark && a.ref >= b.ref)))))
  }

  lemma RankingsAre(a: Instrument, b: Instrument)
    ensures !ByScore(a, b) <==> NotWeaker(a, b)
    ensures !ByLiquidity(a, b) <==> NotWeakerMarket(a, b)
    ensures !ByMark(a, b) <==> NotWeakerOutcome(a, b)
  {}

  // ----- Targets -----

  /** Momentum takes the highest scores first, reversion the lowest, and a barbell in turn the highest and the lowest of
      what remains. */
  lemma ScoresDecide(eligible: seq<Instrument>, i: nat, j: nat)
    requires i < j < |eligible|
    ensures var m, r, b := Ordered(Momentum, eligible), Ordered(Reversion, eligible), Ordered(Barbell, eligible);
            && |m| == |r| == |b| == |eligible| && NotWeaker(m[i], m[j]) && NotWeaker(r[j], r[i])
            && if i % 2 == 0 then NotWeaker(b[i], b[j]) else NotWeaker(b[j], b[i])
  {
    LengthsKept(Momentum, eligible);
    LengthsKept(Reversion, eligible);
    LengthsKept(Barbell, eligible);
    MomentumAndReversionOrders(eligible);
    BarbellAlternates(eligible);
    var m, r, b := Ordered(Momentum, eligible), Ordered(Reversion, eligible), Ordered(Barbell, eligible);
    RankingsAre(m[i], m[j]);
    RankingsAre(r[j], r[i]);
    RankingsAre(b[i], b[j]);
    RankingsAre(b[j], b[i]);
  }

  lemma LengthsKept(mode: Mode, eligible: seq<Instrument>)
    ensures |Ordered(mode, eligible)| == |eligible|
  {
    OrderedPermutes(mode, eligible);
    assert |multiset(Ordered(mode, eligible))| == |Ordered(mode, eligible)| && |multiset(eligible)| == |eligible|;
  }

  /** Traded on one market: under one market id, or the same instrument without one. */
  predicate SameMarket(x: Instrument, y: Instrument) {
    (x.marketId.Some? && y.marketId == x.marketId) || (x.marketId.None? && y.marketId.None? && x.ref == y.ref)
  }

  lemma HeadIsPicked(eligible: seq<Instrument>, k: nat)
    requires DistinctRefs(eligible) && k < |Keys(eligible)|
    ensures k < |PredictionOrder(eligible)| && PredictionOrder(eligible)[k] in eligible && IsPick(eligible, PredictionOrder(eligible)[k])
  {
    PickCount(eligible);
    var picks := Picks(eligible, eligible, true);
    DescendingPermutes(ByLiquidity, picks);
    assert Descending(ByLiquidity, picks)[k] in multiset(picks);
    PicksMember(eligible, eligible, Descending(ByLiquidity, picks)[k]);
  }

  /** The prediction order begins with the strongest outcome of each market, the strongest market first. */
  lemma PredictionsDecide(eligible: seq<Instrument>, k: nat)
    requires DistinctRefs(eligible) && k < |Keys(eligible)|
    ensures var p := PredictionOrder(eligible);
            && k < |p| && p[k] in eligible
            && (forall y :: y in eligible && SameMarket(p[k], y) ==> NotWeakerOutcome(p[k], y))
            && (forall j :: k < j < |Keys(eligible)| && j < |p| ==> NotWeakerMarket(p[k], p[j]) && !SameMarket(p[k], p[j]))
  {
    HeadIsPicked(eligible, k);
    PredictionHeadDescends(eligible);
    PredictionOrderSpreads(eligible, |Keys(eligible)|);
    var p := PredictionOrder(eligible);
    forall y | y in eligible && SameMarket(p[k], y) ensures NotWeakerOutcome(p[k], y) {
      RankingsAre(p[k], y);
      assert KeyOf(y) == KeyOf(p[k]);
    }
    forall j | k < j < |Keys(eligible)| && j < |p| ensures NotWeakerMarket(p[k], p[j]) && !SameMarket(p[k], p[j]) {
      RankingsAre(p[k], p[j]);
      var head := p[..|Keys(eligible)|];
      assert head[k] == p[k] && head[j] == p[j] && KeyOf(head[k]) != KeyOf(head[j]);
    }
  }

  // ----- Shares -----

  function FairShare(left: int, slots: nat, cap: real): real
    requires slots > 0
  {
    if left as real / slots as real <= cap then left as real / slots as real else cap
  }

  lemma SlotIs(left: int, cap: real, slots: nat)
    requires slots > 0
    ensures SlotAllocation(left, cap, slots) == Round(FairShare(left, slots, cap))
  {}

  lemma SlotWithin(left: nat, cap: real, slots: nat)
    requires slots > 0 && cap >= 0.0
    ensures 0 <= SlotAllocation(left, cap, slots) <= left
  {
    SlotShare(left, cap, slots);
  }

  /** Each allocation is an even share of what the earlier ones left, cut down to the cap. */
  lemma {:induction false} SharesInTurn(remaining: nat, cap: real, slots: nat, k: nat)
    requires k < slots && cap >= 0.0
    ensures var a := Allocate(remaining, cap, slots); var left := remaining - Sum(a[..k]);
            left >= 0 && a[k] == Round(FairShare(left, slots - k, cap))
    decreases slots
  {
    var first := SlotAllocation(remaining, cap, slots);
    var a := Allocate(remaining, cap, slots);
    SlotWithin(remaining, cap, slots);
    SlotIs(remaining, cap, slots);
    if k == 0 {
      assert a[..0] == [];
    } else {
      var rest := Allocate(remaining - first, cap, slots - 1);
      assert a == [first] + rest;
      SharesInTurn(remaining - first, cap, slots - 1, k - 1);
      assert a[..k] == [first] + rest[..k - 1];
      assert a[..k][1..] == rest[..k - 1];
    }
  }

  // ----- Seeds -----

  /** The first instrument of this symbol that the strategy may trade. */
  predicate FirstOf(s: Strategy, m: seq<Instrument>, symbol: string, k: nat) {
    && k < |m| && m[k].symbol == symbol && EligibleFor(s, m[k])
    && forall j :: 0 <= j < k ==> m[j].symbol != symbol || !EligibleFor(s, m[j])
  }

  lemma FirstIsLater(s: Strategy, m: seq<Instrument>, symbol: string, k: nat)
    requires m != [] && !(m[0].symbol == symbol && EligibleFor(s, m[0])) && FirstOf(s, m[1..], symbol, k)
    ensures FirstOf(s, m, symbol, k + 1) && m[k + 1] == m[1..][k]
  {
    forall j | 0 <= j < k + 1 ensures m[j].symbol != symbol || !EligibleFor(s, m[j]) {
      if j > 0 { assert m[j] == m[1..][j - 1]; }
    }
  }

  lemma {:induction false} FirstSeedFound(s: Strategy, m: seq<Instrument>, symbol: string)
    ensures match FirstSeed(s, m, symbol)
            case Some(i) => exists k: nat :: FirstOf(s, m, symbol, k) && m[k] == i
            case None => forall i :: i in m ==> i.symbol != symbol || !EligibleFor(s, i)
  {
    if m != [] {
      if m[0].symbol == symbol && EligibleFor(s, m[0]) {
        assert FirstOf(s, m, symbol, 0);
      } else {
        FirstSeedFound(s, m[1..], symbol);
        if FirstSeed(s, m, symbol).Some? {
          var k: nat :| FirstOf(s, m[1..], symbol, k) && m[1..][k] == FirstSeed(s, m, symbol).value;
          FirstIsLater(s, m, symbol, k);
        } else {
          assert m == [m[0]] + m[1..];
        }
      }
    }
  }

  predicate SeedOk(s: Strategy, m: seq<Instrument>, symbol: string) {
    FirstSeed(s, m, symbol).Some? && IsFresh(FirstSeed(s, m, symbol).value)
  }

  /** A book is seeded with the first instrument of each of its symbols, if there is one for each and all are fresh. */
  lemma {:induction false} SeedsBySymbolIff(s: Strategy, m: seq<Instrument>, symbols: seq<string>)
    ensures match SeedsBySymbol(s, m, symbols)
            case Some(items) => |items| == |symbols| && forall k :: 0 <= k < |symbols| ==> SeedOk(s, m, symbols[k]) && FirstSeed(s, m, symbols[k]) == Some(items[k])
            case None => exists k :: 0 <= k < |symbols| && !SeedOk(s, m, symbols[k])
  {
    if symbols != [] {
      SeedsBySymbolIff(s, m, symbols[1..]);
      if SeedsBySymbol(s, m, symbols).None? {
        if SeedOk(s, m, symbols[0]) {
          var k :| 0 <= k < |symbols[1..]| && !SeedOk(s, m, symbols[1..][k]);
          assert symbols[k + 1] == symbols[1..][k];
        } else {
          assert !SeedOk(s, m, symbols[0]);
        }
      }
    }
  }

  /** A market the strategy may trade, with fresh outcomes that include a yes and a no. */
  ghost predicate TwoSided(s: Strategy, m: seq<Instrument>, id: nat) {
    && (exists i :: OutcomeOf(s, m, id, i) && i.outcome == "YES") && (exists i :: OutcomeOf(s, m, id, i) && i.outcome == "NO")
    && forall i :: OutcomeOf(s, m, id, i) ==> IsFresh(i)
  }

  predicate OutcomeOf(s: Strategy, m: seq<Instrument>, id: nat, i: Instrument) { i in m && EligibleFor(s, i) && i.marketId == Some(id) }

  lemma {:induction false} OutcomesHave(s: Strategy, m: seq<Instrument>, id: nat, i: Instrument)
    ensures i in Outcomes(s, m, id) <==> OutcomeOf(s, m, id, i)
  {
    if m != [] {
      OutcomesHave(s, m[1..], id, i);
      assert m == [m[0]] + m[1..];
    }
  }

  lemma {:induction false} WithOutcomeFinds(items: seq<Instrument>, name: string)
    ensures WithOutcome(items, name).Some? <==> exists i :: i in items && i.outcome == name
  {
    if items != [] {
      WithOutcomeFinds(items[1..], name);
      assert items == [items[0]] + items[1..];
    }
  }

  lemma BinaryIs(s: Strategy, m: seq<Instrument>, id: nat)
    ensures Outcomes(s, m, id) != [] && Binary(Outcomes(s, m, id)) <==> TwoSided(s, m, id)
  {
    var items := Outcomes(s, m, id);
    forall i: Instrument ensures i in items <==> OutcomeOf(s, m, id, i) { OutcomesHave(s, m, id, i); }
    WithOutcomeFinds(items, "YES");
    WithOutcomeFinds(items, "NO");
  }

  lemma {:induction false} BestLiquidityIs(items: seq<Instrument>)
    requires items != []
    ensures forall i :: i in items ==> i.liquidity <= BestLiquidity(items)
    ensures exists i :: i in items && i.liquidity == BestLiquidity(items)
  {
    if |items| > 1 {
      BestLiquidityIs(items[1..]);
      assert items == [items[0]] + items[1..];
    }
    assert items[0] in items;
  }

  function MarketLiquidity(s: Strategy, m: seq<Instrument>, id: nat): real {
    var items := Outcomes(s, m, id);
    if items == [] then 0.0 else BestLiquidity(items)
  }

  /** The k-th instrument of the list is on this market, which can be seeded. */
  ghost predicate Seedable(s: Strategy, m: seq<Instrument>, rest: seq<Instrument>, k: nat, id: nat) {
    k < |rest| && EligibleFor(s, rest[k]) && rest[k].marketId == Some(id) && TwoSided(s, m, id)
  }

  ghost predicate MostLiquid(s: Strategy, m: seq<Instrument>, rest: seq<Instrument>, id: nat) {
    && TwoSided(s, m, id)
    && forall k: nat, other: nat :: Seedable(s, m, rest, k, other) ==> MarketLiquidity(s, m, other) <= MarketLiquidity(s, m, id)
  }

  /** The k-th instrument is on this market, and every market that can be seeded before it is less liquid. */
  ghost predicate FirstBest(s: Strategy, m: seq<Instrument>, rest: seq<Instrument>, id: nat, k: nat) {
    && Seedable(s, m, rest, k, id)
    && forall j: nat, other: nat :: j < k && Seedable(s, m, rest, j, other) ==> MarketLiquidity(s, m, other) < MarketLiquidity(s, m, id)
  }

  lemma FirstBestLater(s: Strategy, m: seq<Instrument>, rest: seq<Instrument>, id: nat, k: nat)
    requires rest != [] && FirstBest(s, m, rest[1..], id, k)
    requires forall other: nat :: Seedable(s, m, rest, 0, other) ==> MarketLiquidity(s, m, other) < MarketLiquidity(s, m, id)
    ensures FirstBest(s, m, rest, id, k + 1)
  {
    SeedableLater(s, m, rest, k, id);
    forall j: nat, other: nat | j < k + 1 && Seedable(s, m, rest, j, other) ensures MarketLiquidity(s, m, other) < MarketLiquidity(s, m, id) {
      if j > 0 { SeedableLater(s, m, rest, j - 1, other); }
    }
  }

  lemma SeedableHere(s: Strategy, m: seq<Instrument>, rest: seq<Instrument>)
    requires rest != []
    ensures var here := if rest[0].marketId.Some? then Outcomes(s, m, rest[0].marketId.value) else [];
            (exists id: nat :: Seedable(s, m, rest, 0, id)) <==> EligibleFor(s, rest[0]) && here != [] && Binary(here)
  {
    if rest[0].marketId.Some? {
      BinaryIs(s, m, rest[0].marketId.value);
      assert Seedable(s, m, rest, 0, rest[0].marketId.value)
        <==> EligibleFor(s, rest[0]) && Outcomes(s, m, rest[0].marketId.value) != [] && Binary(Outcomes(s, m, rest[0].marketId.value));
    }
  }

  lemma SeedableLater(s: Strategy, m: seq<Instrument>, rest: seq<Instrument>, k: nat, id: nat)
    requires rest != []
    ensures Seedable(s, m, rest, k + 1, id) <==> Seedable(s, m, rest[1..], k, id)
  {}

  /** One instrument more: its market, if it can be seeded and is as liquid as the best of the rest, is the best. */
  lemma BestWithOneMore(s: Strategy, m: seq<Instrument>, rest: seq<Instrument>, id: nat)
    requires rest != [] && TwoSided(s, m, id)
    requires forall other: nat :: Seedable(s, m, rest, 0, other) ==> MarketLiquidity(s, m, other) <= MarketLiquidity(s, m, id)
    requires forall k: nat, other: nat :: Seedable(s, m, rest[1..], k, other) ==> MarketLiquidity(s, m, other) <= MarketLiquidity(s, m, id)
    ensures MostLiquid(s, m, rest, id)
  {
    forall k: nat, other: nat | Seedable(s, m, rest, k, other) ensures MarketLiquidity(s, m, other) <= MarketLiquidity(s, m, id) {
      if k > 0 { SeedableLater(s, m, rest, k - 1, other); }
    }
  }

  function Better(s: Strategy, m: seq<Instrument>, later: Option<nat>, id: nat): nat {
    if later.Some? && MarketLiquidity(s, m, later.value) > MarketLiquidity(s, m, id) then later.value else id
  }

  lemma BestMarketHere(s: Strategy, m: seq<Instrument>, rest: seq<Instrument>, id: nat, later: Option<nat>)
    requires rest != [] && Seedable(s, m, rest, 0, id) && (later.Some? ==> TwoSided(s, m, later.value))
    requires BestMarket(s, m, rest[1..]) == match later case None => None case Some(x) => Some(Outcomes(s, m, x))
    ensures BestMarket(s, m, rest) == Some(Outcomes(s, m, Better(s, m, later, id)))
  {
    BinaryIs(s, m, id);
    if later.Some? { BinaryIs(s, m, later.value); }
  }

  lemma BestMarketElsewhere(s: Strategy, m: seq<Instrument>, rest: seq<Instrument>)
    requires rest != [] && forall id: nat :: !Seedable(s, m, rest, 0, id)
    ensures BestMarket(s, m, rest) == BestMarket(s, m, rest[1..])
  {
    SeedableHere(s, m, rest);
  }

  /** The best market of the list and where it is met first, or that the list has none. */
  ghost predicate IsBest(s: Strategy, m: seq<Instrument>, rest: seq<Instrument>, best: Option<nat>, k: nat) {
    match best
    case Some(id) => BestMarket(s, m, rest) == Some(Outcomes(s, m, id)) && MostLiquid(s, m, rest, id) && FirstBest(s, m, rest, id, k)
    case None => BestMarket(s, m, rest) == None && forall n: nat, id: nat :: !Seedable(s, m, rest, n, id)
  }

  lemma SameMarketHere(s: Strategy, m: seq<Instrument>, rest: seq<Instrument>, id: nat, other: nat)
    requires Seedable(s, m, rest, 0, id) && Seedable(s, m, rest, 0, other)
    ensures id == other
  {}

  lemma HereIsBest(s: Strategy, m: seq<Instrument>, rest: seq<Instrument>, id: nat, later: Option<nat>, j: nat)
    requires rest != [] && Seedable(s, m, rest, 0, id) && IsBest(s, m, rest[1..], later, j)
    requires later.Some? ==> MarketLiquidity(s, m, later.value) <= MarketLiquidity(s, m, id)
    ensures IsBest(s, m, rest, Some(id), 0)
  {
    BestMarketHere(s, m, rest, id, later);
    forall other: nat | Seedable(s, m, rest, 0, other) ensures other == id { SameMarketHere(s, m, rest, id, other); }
    BestWithOneMore(s, m, rest, id);
  }

  lemma LaterIsBest(s: Strategy, m: seq<Instrument>, rest: seq<Instrument>, id: nat, later: nat, j: nat)
    requires rest != [] && Seedable(s, m, rest, 0, id) && IsBest(s, m, rest[1..], Some(later), j)
    requires MarketLiquidity(s, m, later) > MarketLiquidity(s, m, id)
    ensures IsBest(s, m, rest, Some(later), j + 1)
  {
    BestMarketHere(s, m, rest, id, Some(later));
    forall other: nat | Seedable(s, m, rest, 0, other) ensures other == id { SameMarketHere(s, m, rest, id, other); }
    BestWithOneMore(s, m, rest, later);
    FirstBestLater(s, m, rest, later, j);
  }

  lemma NothingHere(s: Strategy, m: seq<Instrument>, rest: seq<Instrument>, later: Option<nat>, j: nat)
    requires rest != [] && (forall id: nat :: !Seedable(s, m, rest, 0, id)) && IsBest(s, m, rest[1..], later, j)
    ensures IsBest(s, m, rest, later, if later.Some? then j + 1 else 0)
  {
    BestMarketElsewhere(s, m, rest);
    if later.Some? {
      BestWithOneMore(s, m, rest, later.value);
      FirstBestLater(s, m, rest, later.value, j);
    } else {
      forall n: nat, id: nat ensures !Seedable(s, m, rest, n, id) {
        if n > 0 { SeedableLater(s, m, rest, n - 1, id); }
      }
    }
  }

  lemma {:induction false} BestMarketIs(s: Strategy, m: seq<Instrument>, rest: seq<Instrument>) returns (best: Option<nat>, k: nat)
    ensures IsBest(s, m, rest, best, k)
    decreases |rest|
  {
    best, k := None, 0;
    if rest != [] {
      var later, j := BestMarketIs(s, m, rest[1..]);
      if id: nat :| Seedable(s, m, rest, 0, id) {
        if later.Some? && MarketLiquidity(s, m, later.value) > MarketLiquidity(s, m, id) {
          LaterIsBest(s, m, rest, id, later.value, j);
          best, k := later, j + 1;
        } else {
          HereIsBest(s, m, rest, id, later, j);
          best, k := Some(id), 0;
        }
      } else {
        NothingHere(s, m, rest, later, j);
        best, k := later, if later.Some? then j + 1 else 0;
      }
    }
  }

  lemma TwoSidedIsSeedable(s: Strategy, m: seq<Instrument>, id: nat) returns (k: nat)
    requires TwoSided(s, m, id)
    ensures Seedable(s, m, m, k, id)
  {
    var i :| OutcomeOf(s, m, id, i) && i.outcome == "YES";
    k :| k < |m| && m[k] == i;
  }

  /** Some outcome of the other market is at least as liquid as every outcome of the one. */
  ghost predicate NoMoreLiquid(s: Strategy, m: seq<Instrument>, one: nat, other: nat) {
    exists j :: OutcomeOf(s, m, other, j) && AtLeast(s, m, one, j.liquidity)
  }

  ghost predicate AtLeast(s: Strategy, m: seq<Instrument>, one: nat, liquidity: real) {
    forall i :: OutcomeOf(s, m, one, i) ==> i.liquidity <= liquidity
  }

  lemma LiquidityCompares(s: Strategy, m: seq<Instrument>, one: nat, other: nat)
    requires TwoSided(s, m, one) && TwoSided(s, m, other) && MarketLiquidity(s, m, one) <= MarketLiquidity(s, m, other)
    ensures NoMoreLiquid(s, m, one, other)
  {
    BinaryIs(s, m, one);
    BinaryIs(s, m, other);
    BestLiquidityIs(Outcomes(s, m, one));
    BestLiquidityIs(Outcomes(s, m, other));
    var j :| j in Outcomes(s, m, other) && j.liquidity == MarketLiquidity(s, m, other);
    OutcomesHave(s, m, other, j);
    forall i | OutcomeOf(s, m, one, i) ensures i.liquidity <= j.liquidity { OutcomesHave(s, m, one, i); }
  }

  lemma LiquidityBelow(s: Strategy, m: seq<Instrument>, one: nat, other: nat)
    requires TwoSided(s, m, one) && TwoSided(s, m, other) && MarketLiquidity(s, m, one) < MarketLiquidity(s, m, other)
    ensures LessLiquid(s, m, one, other)
  {
    BinaryIs(s, m, one);
    BinaryIs(s, m, other);
    BestLiquidityIs(Outcomes(s, m, one));
    BestLiquidityIs(Outcomes(s, m, other));
    var j :| j in Outcomes(s, m, other) && j.liquidity == MarketLiquidity(s, m, other);
    OutcomesHave(s, m, other, j);
    forall i | OutcomeOf(s, m, one, i) ensures i.liquidity < j.liquidity { OutcomesHave(s, m, one, i); }
  }

  /** Some outcome of the other market is more liquid than every outcome of the one. */
  ghost predicate LessLiquid(s: Strategy, m: seq<Instrument>, one: nat, other: nat) {
    exists j :: OutcomeOf(s, m, other, j) && forall i :: OutcomeOf(s, m, one, i) ==> i.liquidity < j.liquidity
  }

  /** On this market, and every such market met before it in the snapshot is less liquid. */
  ghost predicate FirstSeedMarket(s: Strategy, m: seq<Instrument>, id: nat, k: nat) {
    && k < |m| && OutcomeOf(s, m, id, m[k])
    && forall j: nat, other: nat :: j < k && j < |m| && OutcomeOf(s, m, other, m[j]) && TwoSided(s, m, other) ==> LessLiquid(s, m, other, id)
  }

  lemma FirstBestIsFirst(s: Strategy, m: seq<Instrument>, id: nat, k: nat)
    requires FirstBest(s, m, m, id, k)
    ensures FirstSeedMarket(s, m, id, k)
  {
    forall j: nat, other: nat | j < k && j < |m| && OutcomeOf(s, m, other, m[j]) && TwoSided(s, m, other) ensures LessLiquid(s, m, other, id) {
      assert Seedable(s, m, m, j, other);
      LiquidityBelow(s, m, other, id);
    }
  }

  /** The market the prediction book is seeded from. */
  ghost predicate SeedMarket(s: Strategy, m: seq<Instrument>, id: nat) {
    TwoSided(s, m, id) && forall other: nat :: TwoSided(s, m, other) ==> NoMoreLiquid(s, m, other, id)
  }

  lemma PredictionSeeds(s: Strategy, m: seq<Instrument>)
    requires s.PredictionMarkets?
    ensures match BestMarket(s, m, m)
            case None => SeedInstruments(s, m) == None
            case Some(items) => SeedInstruments(s, m) == Some([WithOutcome(items, "YES").value, WithOutcome(items, "NO").value])
  {}

  /** A fresh yes and a fresh no of this market. */
  ghost predicate YesAndNo(s: Strategy, m: seq<Instrument>, id: nat, items: seq<Instrument>) {
    && |items| == 2 && items[0].outcome == "YES" && items[1].outcome == "NO"
    && OutcomeOf(s, m, id, items[0]) && OutcomeOf(s, m, id, items[1])
  }

  /** The prediction book is seeded with the yes and the no of the first market of the snapshot that has both, fresh, and
      than which no other such market is more liquid; if there is none, with nothing. */
  lemma SeedMarketIsMostLiquid(s: Strategy, m: seq<Instrument>) returns (best: Option<nat>, k: nat)
    requires s.PredictionMarkets?
    ensures match best
            case None => SeedInstruments(s, m) == None && forall id: nat :: !TwoSided(s, m, id)
            case Some(id) => SeedMarket(s, m, id) && FirstSeedMarket(s, m, id, k) && SeedInstruments(s, m).Some? && YesAndNo(s, m, id, SeedInstruments(s, m).value)
  {
    best, k := BestMarketIs(s, m, m);
    PredictionSeeds(s, m);
    match best {
      case None => NothingSeedable(s, m);
      case Some(id) =>
        BestIsSeedMarket(s, m, id);
        FirstBestIsFirst(s, m, id, k);
        SeedsOf(s, m, id);
    }
  }

  lemma NothingSeedable(s: Strategy, m: seq<Instrument>)
    requires forall k: nat, id: nat :: !Seedable(s, m, m, k, id)
    ensures forall id: nat :: !TwoSided(s, m, id)
  {
    forall id: nat | TwoSided(s, m, id) ensures false { var k := TwoSidedIsSeedable(s, m, id); }
  }

  lemma BestIsSeedMarket(s: Strategy, m: seq<Instrument>, id: nat)
    requires MostLiquid(s, m, m, id)
    ensures SeedMarket(s, m, id)
  {
    forall other: nat | TwoSided(s, m, other) ensures NoMoreLiquid(s, m, other, id) {
      var k := TwoSidedIsSeedable(s, m, other);
      LiquidityCompares(s, m, other, id);
    }
  }

  lemma SeedsOf(s: Strategy, m: seq<Instrument>, id: nat)
    requires TwoSided(s, m, id)
    ensures var items := Outcomes(s, m, id);
            && WithOutcome(items, "YES").Some? && WithOutcome(items, "NO").Some?
            && var yes, no := WithOutcome(items, "YES").value, WithOutcome(items, "NO").value;
            && yes.outcome == "YES" && no.outcome == "NO" && OutcomeOf(s, m, id, yes) && OutcomeOf(s, m, id, no)
  {
    BinaryIs(s, m, id);
    var items := Outcomes(s, m, id);
    WithOutcomeIs(items, "YES");
    WithOutcomeIs(items, "NO");
    OutcomesHave(s, m, id, WithOutcome(items, "YES").value);
    OutcomesHave(s, m, id, WithOutcome(items, "NO").value);
  }
}
