/**
  Which instruments a rebalance holds, in what order and how much of each
  (scripts/mosaic_murmurs_paper_engine.py:712-719, 1146-1194, 1217-1228).
 */
module Selection {
  import opened Wrappers
  import opened Money
  import opened Market

  // ----- Orders -----

  type Less = (Instrument, Instrument) -> bool

  predicate ByScore(a: Instrument, b: Instrument) {
    a.score < b.score || (a.score == b.score && a.ref < b.ref)
  }

  predicate ByLiquidity(a: Instrument, b: Instrument) {
    a.score < b.score || (a.score == b.score && (a.liquidity < b.liquidity || (a.liquidity == b.liquidity && a.ref < b.ref)))
  }

  /** The order by which the representative of a market is the greatest. */
  predicate ByMark(a: Instrument, b: Instrument) {
    || a.score < b.score
    || (a.score == b.score && (a.liquidity < b.liquidity
        || (a.liquidity == b.liquidity && (a.mark < b.mark || (a.mark == b.mark && a.ref < b.ref)))))
  }

  function Insert(less: Less, x: Instrument, s: seq<Instrument>): seq<Instrument> {
    if s == [] || !less(s[0], x) then [x] + s else [s[0]] + Insert(less, x, s[1..])
  }

  function Sorted(less: Less, s: seq<Instrument>): seq<Instrument> {
    if s == [] then [] else Insert(less, s[0], Sorted(less, s[1..]))
  }

  function Reversed(s: seq<Instrument>): seq<Instrument> {
    if s == [] then [] else Reversed(s[1..]) + [s[0]]
  }

  /** Python's reverse=True, for keys that never tie. */
  function Descending(less: Less, s: seq<Instrument>): seq<Instrument> { Reversed(Sorted(less, s)) }

  lemma {:induction false} InsertPermutes(less: Less, x: Instrument, s: seq<Instrument>)
    ensures multiset(Insert(less, x, s)) == multiset(s) + multiset{x}
  {
    if s != [] && less(s[0], x) {
      InsertPermutes(less, x, s[1..]);
      assert s == [s[0]] + s[1..];
    }
  }

  lemma {:induction false} SortedPermutes(less: Less, s: seq<Instrument>)
    ensures multiset(Sorted(less, s)) == multiset(s)
  {
    if s != [] {
      SortedPermutes(less, s[1..]);
      InsertPermutes(less, s[0], Sorted(less, s[1..]));
      assert s == [s[0]] + s[1..];
    }
  }

  lemma {:induction false} ReversedPermutes(s: seq<Instrument>)
    ensures multiset(Reversed(s)) == multiset(s)
  {
    if s != [] {
      ReversedPermutes(s[1..]);
      assert s == [s[0]] + s[1..];
    }
  }

  ghost predicate StrictWeak(less: Less) {
    && (forall a, b :: less(a, b) ==> !less(b, a))
    && (forall a, b, c :: !less(a, b) && !less(b, c) ==> !less(a, c))
  }

  lemma OrdersAreStrictWeak()
    ensures StrictWeak(ByScore) && StrictWeak(ByLiquidity)
  {}

  predicate AscendingBy(less: Less, s: seq<Instrument>) {
    forall i, j :: 0 <= i < j < |s| ==> !less(s[j], s[i])
  }

  predicate Ascending(s: seq<Instrument>) {
    forall i, j :: 0 <= i < j < |s| ==> !ByScore(s[j], s[i])
  }

  lemma {:induction false} InsertAscends(less: Less, x: Instrument, s: seq<Instrument>)
    requires StrictWeak(less) && AscendingBy(less, s)
    ensures AscendingBy(less, Insert(less, x, s))
  {
    if s != [] && less(s[0], x) {
      InsertAscends(less, x, s[1..]);
      InsertPermutes(less, x, s[1..]);
      var t := Insert(less, x, s[1..]);
      forall j | 0 <= j < |t| ensures !less(t[j], s[0]) {
        assert t[j] in multiset(t);
        assert t[j] in s[1..] || t[j] == x;
      }
    }
  }

  lemma {:induction false} SortedAscends(less: Less, s: seq<Instrument>)
    requires StrictWeak(less)
    ensures AscendingBy(less, Sorted(less, s))
  {
    if s != [] {
      SortedAscends(less, s[1..]);
      InsertAscends(less, s[0], Sorted(less, s[1..]));
    }
  }

  lemma {:induction false} ReversedAt(s: seq<Instrument>)
    ensures |Reversed(s)| == |s| && forall k :: 0 <= k < |s| ==> Reversed(s)[k] == s[|s| - 1 - k]
  {
    if s != [] {
      ReversedAt(s[1..]);
    }
  }

  lemma DescendingDescends(less: Less, s: seq<Instrument>)
    requires StrictWeak(less)
    ensures var d := Descending(less, s); forall i, j :: 0 <= i < j < |d| ==> !less(d[i], d[j])
  {
    SortedAscends(less, s);
    ReversedAt(Sorted(less, s));
  }

  // ----- The barbell -----

  /** The greatest, then the least, of what remains. */
  function Alternated(s: seq<Instrument>): seq<Instrument> {
    if |s| <= 1 then s
    else [s[|s| - 1], s[0]] + Alternated(s[1..|s| - 1])
  }

  lemma EndsAndMiddle(s: seq<Instrument>)
    requires |s| > 1
    ensures multiset(s) == multiset{s[0]} + multiset(s[1..|s| - 1]) + multiset{s[|s| - 1]}
  {
    assert s == [s[0]] + s[1..|s| - 1] + [s[|s| - 1]];
  }

  lemma {:induction false} AlternatedPermutes(s: seq<Instrument>)
    ensures multiset(Alternated(s)) == multiset(s)
    decreases |s|
  {
    if |s| > 1 {
      AlternatedPermutes(s[1..|s| - 1]);
      EndsAndMiddle(s);
    }
  }

  /** Even places hold a greatest and odd places a least of everything from there on. */
  predicate Alternates(s: seq<Instrument>) {
    forall i, j :: 0 <= i < j < |s| ==> if i % 2 == 0 then !ByScore(s[i], s[j]) else !ByScore(s[j], s[i])
  }

  lemma {:induction false} AlternatedAlternates(s: seq<Instrument>)
    requires Ascending(s)
    ensures Alternates(Alternated(s))
    decreases |s|
  {
    if |s| > 1 {
      var middle := s[1..|s| - 1];
      AlternatedAlternates(middle);
      AlternatedPermutes(middle);
      var t := Alternated(middle);
      forall j | 0 <= j < |t| ensures !ByScore(s[|s| - 1], t[j]) && !ByScore(t[j], s[0]) {
        assert t[j] in multiset(t);
        assert t[j] in middle;
      }
      PairAlternates(s[|s| - 1], s[0], t);
    }
  }

  lemma PairAlternates(high: Instrument, low: Instrument, t: seq<Instrument>)
    requires Alternates(t) && !ByScore(high, low)
    requires forall j :: 0 <= j < |t| ==> !ByScore(high, t[j]) && !ByScore(t[j], low)
    ensures Alternates([high, low] + t)
  {
    var whole := [high, low] + t;
    forall i, j | 0 <= i < j < |whole| ensures if i % 2 == 0 then !ByScore(whole[i], whole[j]) else !ByScore(whole[j], whole[i]) {
      if i >= 2 { assert whole[i] == t[i - 2] && whole[j] == t[j - 2]; }
    }
  }

  method BarbellOrder(ascending: seq<Instrument>) returns (ordered: seq<Instrument>)
    ensures ordered == Alternated(ascending)
  {
    ordered := [];
    var left, right := 0, |ascending| - 1;
    assert ascending[0..|ascending|] == ascending;
    while left <= right
      invariant 0 <= left <= right + 1 <= |ascending|
      invariant ordered + Alternated(ascending[left..right + 1]) == Alternated(ascending)
      decreases right - left
    {
      ghost var rest, was := ascending[left..right + 1], ordered;
      ordered := ordered + [ascending[right]];
      right := right - 1;
      if left <= right {
        ordered := ordered + [ascending[left]];
        left := left + 1;
        assert rest[1..|rest| - 1] == ascending[left..right + 1];
        assert ordered == was + [rest[|rest| - 1], rest[0]];
      } else {
        assert rest == [ascending[right + 1]];
      }
    }
  }

  // ----- Prediction markets -----

  datatype MarketKey = ById(id: nat) | ByRef(ref: nat)

  function KeyOf(i: Instrument): MarketKey {
    if i.marketId.Some? then ById(i.marketId.value) else ByRef(i.ref)
  }

  /** The representative of its market: the greatest of the instruments traded there. */
  predicate IsPick(all: seq<Instrument>, x: Instrument) {
    forall y :: y in all && KeyOf(y) == KeyOf(x) ==> !ByMark(x, y)
  }

  function Picks(all: seq<Instrument>, s: seq<Instrument>, picked: bool): seq<Instrument> {
    if s == [] then []
    else (if IsPick(all, s[0]) == picked then [s[0]] else []) + Picks(all, s[1..], picked)
  }

  function PredictionOrder(eligible: seq<Instrument>): seq<Instrument> {
    Descending(ByLiquidity, Picks(eligible, eligible, true)) + Descending(ByLiquidity, Picks(eligible, eligible, false))
  }

  lemma {:induction false} PicksSplit(all: seq<Instrument>, s: seq<Instrument>)
    ensures multiset(Picks(all, s, true)) + multiset(Picks(all, s, false)) == multiset(s)
  {
    if s != [] {
      PicksSplit(all, s[1..]);
      assert s == [s[0]] + s[1..];
    }
  }

  lemma {:induction false} PicksMember(all: seq<Instrument>, s: seq<Instrument>, x: Instrument)
    ensures x in Picks(all, s, true) <==> x in s && IsPick(all, x)
  {
    if s != [] {
      PicksMember(all, s[1..], x);
      assert s == [s[0]] + s[1..];
    }
  }

  lemma DescendingPermutes(less: Less, s: seq<Instrument>)
    ensures multiset(Descending(less, s)) == multiset(s)
  {
    SortedPermutes(less, s);
    ReversedPermutes(Sorted(less, s));
  }

  /** The prediction order is a permutation of the eligible instruments. */
  lemma PredictionOrderPermutes(eligible: seq<Instrument>)
    ensures multiset(PredictionOrder(eligible)) == multiset(eligible)
  {
    DescendingPermutes(ByLiquidity, Picks(eligible, eligible, true));
    DescendingPermutes(ByLiquidity, Picks(eligible, eligible, false));
    PicksSplit(eligible, eligible);
  }

  /** The greatest instrument of a market, found by walking up the order. */
  lemma {:induction false} EveryMarketHasPick(all: seq<Instrument>, s: seq<Instrument>, x: Instrument) returns (p: Instrument)
    requires x in all && multiset(s) <= multiset(all)
    requires forall y :: y in all && KeyOf(y) == KeyOf(x) && ByMark(x, y) ==> y in s
    ensures p in all && KeyOf(p) == KeyOf(x) && IsPick(all, p)
    decreases |s|
  {
    if IsPick(all, x) {
      p := x;
    } else {
      var y :| y in all && KeyOf(y) == KeyOf(x) && ByMark(x, y);
      var k :| 0 <= k < |s| && s[k] == y;
      var rest := s[..k] + s[k + 1..];
      assert s == s[..k] + [s[k]] + s[k + 1..];
      forall z | z in all && KeyOf(z) == KeyOf(y) && ByMark(y, z) ensures z in rest {
        assert z in s && z != y;
        assert z in multiset(rest) by { assert multiset(s) == multiset(rest) + multiset{y}; }
      }
      assert multiset(s) == multiset(rest) + multiset{y};
      p := EveryMarketHasPick(all, rest, y);
    }
  }

  function Keys(s: seq<Instrument>): set<MarketKey> { set i | i in s :: KeyOf(i) }

  predicate DistinctMarkets(s: seq<Instrument>) {
    forall i, j :: 0 <= i < j < |s| ==> KeyOf(s[i]) != KeyOf(s[j])
  }

  lemma CountsOnce(s: seq<Instrument>, x: Instrument)
    requires DistinctRefs(s)
    ensures multiset(s)[x] <= 1
  {
    if x in s {
      var k :| 0 <= k < |s| && s[k] == x;
      assert s == s[..k] + [x] + s[k + 1..];
      assert x !in s[..k] && x !in s[k + 1..];
    }
  }

  /** References stay distinct in any selection from instruments with distinct references. */
  lemma SelectionKeepsRefs(s: seq<Instrument>, t: seq<Instrument>)
    requires DistinctRefs(s) && multiset(t) <= multiset(s)
    ensures DistinctRefs(t)
  {
    forall i, j | 0 <= i < j < |t| ensures t[i].ref != t[j].ref {
      assert t == t[..i] + [t[i]] + t[i + 1..j] + [t[j]] + t[j + 1..];
      assert t[i] in multiset(t) && t[j] in multiset(t);
      assert t[i] in s && t[j] in s;
      CountsOnce(s, t[i]);
    }
  }

  lemma PicksAreDistinct(all: seq<Instrument>, t: seq<Instrument>)
    requires DistinctRefs(t) && forall x :: x in t ==> x in all && IsPick(all, x)
    ensures DistinctMarkets(t)
  {
    forall i, j | 0 <= i < j < |t| ensures KeyOf(t[i]) != KeyOf(t[j]) {
      assert t[i] in t && t[j] in t;
      assert t[i].ref != t[j].ref;
    }
  }

  lemma {:induction false} DistinctMarketCount(t: seq<Instrument>)
    requires DistinctMarkets(t)
    ensures |Keys(t)| == |t|
  {
    if t != [] {
      var init, last := t[..|t| - 1], t[|t| - 1];
      DistinctMarketCount(init);
      assert Keys(t) == Keys(init) + {KeyOf(last)};
      assert forall i :: i in init ==> KeyOf(i) != KeyOf(last);
    }
  }

  /** The order starts with one representative for each market. */
  lemma PickCount(eligible: seq<Instrument>)
    requires DistinctRefs(eligible)
    ensures var head := Descending(ByLiquidity, Picks(eligible, eligible, true));
            |head| == |Keys(eligible)| && DistinctMarkets(head)
  {
    var picks := Picks(eligible, eligible, true);
    var head := Descending(ByLiquidity, picks);
    DescendingPermutes(ByLiquidity, picks);
    PicksSplit(eligible, eligible);
    SelectionKeepsRefs(eligible, head);
    forall x | x in head ensures x in eligible && IsPick(eligible, x) {
      assert x in multiset(head);
      PicksMember(eligible, eligible, x);
    }
    PicksAreDistinct(eligible, head);
    DistinctMarketCount(head);
    forall k | k in Keys(eligible) ensures k in Keys(head) {
      var x :| x in eligible && KeyOf(x) == k;
      var p := EveryMarketHasPick(eligible, eligible, x);
      PicksMember(eligible, eligible, p);
      assert p in multiset(picks);
      assert p in multiset(head);
    }
    assert Keys(head) == Keys(eligible);
  }

  /** With distinct references the first items, one for every market there is, come from distinct markets. */
  lemma PredictionOrderSpreads(eligible: seq<Instrument>, count: nat)
    requires DistinctRefs(eligible) && count <= |Keys(eligible)|
    ensures count <= |PredictionOrder(eligible)| && DistinctMarkets(PredictionOrder(eligible)[..count])
  {
    PickCount(eligible);
    var head := Descending(ByLiquidity, Picks(eligible, eligible, true));
    assert PredictionOrder(eligible)[..count] == head[..count];
  }

  // ----- select_targets -----

  function Ordered(mode: Mode, eligible: seq<Instrument>): seq<Instrument> {
    match mode
    case PredictionEdge => PredictionOrder(eligible)
    case Reversion => Sorted(ByScore, eligible)
    case Barbell => Alternated(Sorted(ByScore, eligible))
    case Momentum => Descending(ByScore, eligible)
  }

  function SelectTargets(mode: Mode, count: nat, eligible: seq<Instrument>): seq<Instrument> {
    var ordered := Ordered(mode, eligible);
    if |ordered| <= count then ordered else ordered[..count]
  }

  lemma OrderedPermutes(mode: Mode, eligible: seq<Instrument>)
    ensures multiset(Ordered(mode, eligible)) == multiset(eligible)
  {
    match mode {
      case PredictionEdge => PredictionOrderPermutes(eligible);
      case Reversion => SortedPermutes(ByScore, eligible);
      case Barbell => SortedPermutes(ByScore, eligible); AlternatedPermutes(Sorted(ByScore, eligible));
      case Momentum => DescendingPermutes(ByScore, eligible);
    }
  }

  /** Targets are distinct eligible instruments: all of them, or as many as the line holds. */
  lemma TargetsAreEligible(mode: Mode, count: nat, eligible: seq<Instrument>)
    requires DistinctRefs(eligible)
    ensures var t := SelectTargets(mode, count, eligible);
            && |t| == (if |eligible| < count then |eligible| else count)
            && DistinctRefs(t) && multiset(t) <= multiset(eligible)
            && (forall x :: x in t ==> x in eligible)
  {
    var ordered := Ordered(mode, eligible);
    OrderedPermutes(mode, eligible);
    assert |multiset(ordered)| == |ordered| && |multiset(eligible)| == |eligible|;
    var t := SelectTargets(mode, count, eligible);
    assert ordered == t + ordered[|t|..];
    SelectionKeepsRefs(eligible, t);
    forall x | x in t ensures x in eligible {
      assert x in multiset(t);
    }
  }

  /** The volatility barbell alternates the strongest and the weakest of what remains. */
  lemma BarbellAlternates(eligible: seq<Instrument>)
    ensures Alternates(Ordered(Barbell, eligible)) && multiset(Ordered(Barbell, eligible)) == multiset(eligible)
  {
    OrdersAreStrictWeak();
    SortedAscends(ByScore, eligible);
    AlternatedAlternates(Sorted(ByScore, eligible));
    OrderedPermutes(Barbell, eligible);
  }

  /** Momentum holds the strongest instruments first, reversion the weakest. */
  lemma MomentumAndReversionOrders(eligible: seq<Instrument>)
    ensures var m := Ordered(Momentum, eligible); forall i, j :: 0 <= i < j < |m| ==> !ByScore(m[i], m[j])
    ensures var r := Ordered(Reversion, eligible); forall i, j :: 0 <= i < j < |r| ==> !ByScore(r[j], r[i])
  {
    OrdersAreStrictWeak();
    SortedAscends(ByScore, eligible);
    DescendingDescends(ByScore, eligible);
  }

  /** Among the representatives of the markets, the strongest and most liquid come first. */
  lemma PredictionHeadDescends(eligible: seq<Instrument>)
    requires DistinctRefs(eligible)
    ensures var p := PredictionOrder(eligible);
            forall i, j :: 0 <= i < j < |Keys(eligible)| && j < |p| ==> !ByLiquidity(p[i], p[j])
  {
    OrdersAreStrictWeak();
    DescendingDescends(ByLiquidity, Picks(eligible, eligible, true));
    PickCount(eligible);
  }

  // ----- Allocation -----

  function SlotAllocation(remaining: int, cap: real, slots: nat): int
    requires slots > 0
  {
    Round(MinReal(cap, remaining as real / slots as real))
  }

  /** One allocation for each selected instrument, in cents. */
  function Allocate(remaining: int, cap: real, slots: nat): (s: seq<int>)
    ensures |s| == slots
    decreases slots
  {
    if slots == 0 then []
    else
      var a := SlotAllocation(remaining, cap, slots);
      [a] + Allocate(Max(0, remaining - a), cap, slots - 1)
  }

  predicate CapNeverBinds(remaining: int, cap: real, slots: nat)
    decreases slots
  {
    slots > 0 ==>
      var share := remaining as real / slots as real;
      share <= cap && CapNeverBinds(Max(0, remaining - Round(share)), cap, slots - 1)
  }

  lemma QuotientBounds(x: real, y: real)
    requires x >= 0.0 && y >= 1.0
    ensures 0.0 <= x / y <= x
  {
    var q := x / y;
    assert q * y == x;
  }

  lemma SlotShare(remaining: nat, cap: real, slots: nat)
    requires slots > 0 && cap >= 0.0
    ensures 0 <= Round(MinReal(cap, remaining as real / slots as real)) <= remaining
    ensures Round(MinReal(cap, remaining as real / slots as real)) <= Round(cap)
    ensures slots == 1 && remaining as real <= cap ==> Round(MinReal(cap, remaining as real / slots as real)) == remaining
  {
    var share := remaining as real / slots as real;
    QuotientBounds(remaining as real, slots as real);
    RoundMonotone(MinReal(cap, share), remaining as real);
    RoundMonotone(MinReal(cap, share), cap);
    RoundMonotone(0.0, MinReal(cap, share));
    RoundOfInt(remaining);
    RoundOfInt(0);
  }

  /** Allocations are non-negative, none is above the rounded cap, and they sum to at most the gross
      target - to exactly the gross target when the cap never binds. */
  lemma {:induction false} AllocationsFit(remaining: nat, cap: real, slots: nat)
    requires cap >= 0.0
    ensures var a := Allocate(remaining, cap, slots);
            && (forall i :: 0 <= i < slots ==> 0 <= a[i] <= Round(cap))
            && Sum(a) <= remaining
            && (slots > 0 && CapNeverBinds(remaining, cap, slots) ==> Sum(a) == remaining)
    decreases slots
  {
    if slots > 0 {
      SlotShare(remaining, cap, slots);
      AllocationsFit(remaining - Round(MinReal(cap, remaining as real / slots as real)), cap, slots - 1);
    }
  }

  lemma AllocateStep(remaining: int, cap: real, slots: nat, done: seq<int>)
    requires slots > 0
    ensures var a := SlotAllocation(remaining, cap, slots);
            done + Allocate(remaining, cap, slots) == done + [a] + Allocate(Max(0, remaining - a), cap, slots - 1)
  {}

  /** The loop of target_notionals. */
  method Allocations(gross: nat, cap: real, slots: nat) returns (targets: seq<int>)
    ensures targets == Allocate(gross, cap, slots)
  {
    targets := [];
    var remaining := gross;
    for index := 0 to slots
      invariant targets + Allocate(remaining, cap, slots - index) == Allocate(gross, cap, slots)
    {
      AllocateStep(remaining, cap, slots - index, targets);
      var allocation := SlotAllocation(remaining, cap, slots - index);
      targets := targets + [allocation];
      remaining := Max(0, remaining - allocation);
    }
    assert targets + [] == targets;
  }

  // ----- Seed shares -----

  /** The total in shares that differ by at most one cent. */
  function Split(total: nat, count: nat): (s: seq<nat>)
    ensures |s| == count
  {
    if count == 0 then [] else seq(count, i requires 0 <= i < count => total / count + (if i < total % count then 1 else 0))
  }

  method SplitNotional(total: nat, count: nat) returns (cents: seq<int>)
    ensures cents == Split(total, count)
  {
    if count == 0 {
      return [];
    }
    var base := total / count;
    cents := seq(count, _ => base);
    for index := 0 to total - base * count
      invariant index <= |cents| == count
      invariant forall i :: 0 <= i < count ==> cents[i] == base + (if i < index then 1 else 0)
    {
      cents := cents[index := cents[index] + 1];
    }
  }

  /** `count` shares of `base`, the first `raised` of them a cent higher. */
  function Raised(count: nat, base: int, raised: nat): seq<int> {
    seq(count, i requires 0 <= i < count => base + (if i < raised then 1 else 0))
  }

  lemma RaisedGrows(count: nat, base: int, raised: nat)
    requires 0 < count && raised <= count
    ensures var less := if raised == count then raised - 1 else raised;
            Raised(count, base, raised) == Raised(count - 1, base, less) + [base + raised - less]
  {}

  lemma {:induction false} SumOfRaised(count: nat, base: int, raised: nat)
    requires raised <= count
    ensures Sum(Raised(count, base, raised)) == base * count + raised
  {
    if count > 0 {
      var less := if raised == count then raised - 1 else raised;
      SumOfRaised(count - 1, base, less);
      RaisedGrows(count, base, raised);
      SumAppend(Raised(count - 1, base, less), [base + raised - less]);
      assert Sum([base + raised - less]) == base + raised - less;
      OneShareMore(base, count);
    }
  }

  lemma OneShareMore(base: int, count: int)
    ensures base * (count - 1) + base == base * count
  {}

  /** Seed shares sum to the total and no two differ by more than a cent. */
  lemma SplitIsFair(total: nat, count: nat)
    requires count > 0
    ensures var s := Split(total, count);
            && Sum(s) == total
            && forall i, j :: 0 <= i < count && 0 <= j < count ==> s[i] <= s[j] + 1
  {
    SumOfRaised(count, total / count, total % count);
  }
}
