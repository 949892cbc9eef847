/**
  What candidates, labels and policies say, in terms of the quotes and the evidence they are made from
  (scripts/mosaic_murmurs_strategy_synthesis.py:78-91, 116-161, 196-245, 256-310).
 */
module StrategyValues {
  import opened Wrappers
  import opened Money
  import opened Market
  import opened ShadowStrategy
  import opened StrategyLoop

  // ----- Features -----

  /** Within half a unit of the eighth digit. */
  predicate Near(x: real, y: real) { -0.000000005 <= x - y <= 0.000000005 }

  function Within(x: real): real { if x < -1.0 then -1.0 else if x > 1.0 then 1.0 else x }

  /** The features of a quote, cut to the unit interval and to eight digits. */
  predicate FeaturesOf(f: Features, q: Quote) {
    && Near(f.momentum, Within(q.raw.momentum / 10.0)) && Near(f.mosaic, Within(q.raw.mosaic))
    && Near(f.murmurs, Within(q.raw.murmurs)) && Near(f.delta, Within(q.raw.delta / 10.0))
  }

  lemma NormalizedIs(q: Quote)
    ensures FeaturesOf(Normalized(q), q)
  {
    EightIsNear(Within(q.raw.momentum / 10.0));
    EightIsNear(Within(q.raw.mosaic));
    EightIsNear(Within(q.raw.murmurs));
    EightIsNear(Within(q.raw.delta / 10.0));
  }

  // ----- Quotes -----

  /** A strategy trades a quote that carries its tag, is of one of its kinds, has no outcome yet, was retrieved within
      two hours, and whose price is at most 96 hours old for equity and two for anything else. */
  lemma EligibleIs(s: Strategy, q: Quote, now: int)
    ensures EligibleQuote(s, q, now) <==>
              && s in q.tags && q.kind in KindsOf(s) && !q.settled && q.sound
              && 0 <= now - q.retrieved <= 2 * 3_600_000_000
              && 0 <= now - q.asOf <= (if q.kind.Equity? then 96 else 2) * 3_600_000_000
  {}

  // ----- Candidates -----

  function Weighed(w: real, f: real): real { w * f }

  /** The weighted sum of the features. */
  function Pull(w: Features, f: Features): real {
    Weighed(w.momentum, f.momentum) + Weighed(w.mosaic, f.mosaic) + Weighed(w.murmurs, f.murmurs) + Weighed(w.delta, f.delta)
  }

  lemma PullIs(w: Features, f: Features)
    ensures Score(w, f) == Pull(w, f)
  {}

  /** The candidate points where the weighted sum does, and asks for a trade exactly when 200 times its size exceeds the
      round-trip cost. */
  predicate Points(p: Policy, c: Candidate) {
    var x := Pull(p.weights, c.features);
    && c.direction == (if x > 0.0 then 1 else if x < 0.0 then -1 else 0)
    && (c.action == Overweight <==> x > 0.0 && 200.0 * x > c.roundTrip)
    && (c.action == Underweight <==> x < 0.0 && -200.0 * x > c.roundTrip)
  }

  /** It copies price and cost of the quote it picked, decides now, and looks a day ahead. */
  predicate PickedFrom(p: Policy, q: Quote, now: int, c: Candidate) {
    && c.strategy == p.strategy && c.ref == q.ref && c.entry == q.mark && c.roundTrip == q.roundTrip
    && c.decided <= now < c.decided + 1_000_000 && c.decided % 1_000_000 == 0
    && c.featureEnd <= q.asOf < c.featureEnd + 1_000_000 && c.featureEnd % 1_000_000 == 0
    && c.horizon == 24 && c.available == c.decided + 24 * 3_600_000_000
    && FeaturesOf(c.features, q)
  }

  lemma ScoreSets(p: Policy, q: Quote, c: Candidate)
    requires c.direction == Direction(p.weights, q) && c.action == ActionFor(p.weights, q) && c.features == Normalized(q) && c.roundTrip == q.roundTrip
    ensures Points(p, c)
  {
    PullIs(p.weights, c.features);
  }

  /** Every candidate of a policy is of its best eligible quote, and points where the policy's weights say. */
  lemma CandidatePoints(ids: CandidateIds, p: Policy, m: seq<Quote>, es: seq<Experience>, now: int, c: Candidate)
    requires CandidateFor(ids, p, m, es, now) == Some(c)
    ensures Best(p.strategy, p.weights, m, now).Some? && PickedFrom(p, Best(p.strategy, p.weights, m, now).value, now, c)
    ensures Points(p, c)
  {
    var q := Best(p.strategy, p.weights, m, now).value;
    RecordedHours(now, LABEL_HORIZON);
    NormalizedIs(q);
    ScoreSets(p, q, c);
  }

  function Strength(w: Features, q: Quote): real { AbsReal(Pull(w, Normalized(q))) }

  /** The best quote is eligible, and pulls hardest of all that are; on ties it has the greatest reference. */
  lemma BestPullsHardest(s: Strategy, w: Features, m: seq<Quote>, now: int, q: Quote)
    requires q in m && EligibleQuote(s, q, now)
    ensures Best(s, w, m, now).Some?
    ensures var best := Best(s, w, m, now).value;
            Strength(w, q) < Strength(w, best) || (Strength(w, q) == Strength(w, best) && q.ref <= best.ref)
  {
    BestIsBest(s, w, m, now);
    var best := Best(s, w, m, now).value;
    PullIs(w, Normalized(q));
    PullIs(w, Normalized(best));
  }

  /** The candidates of a pass are one for each policy with an eligible quote. */
  lemma {:induction false} CandidatesAreOfPolicies(ids: CandidateIds, policies: seq<Policy>, m: seq<Quote>, es: seq<Experience>, now: int, c: Candidate)
    ensures c in Candidates(ids, policies, m, es, now) <==> exists p :: p in policies && CandidateFor(ids, p, m, es, now) == Some(c)
    decreases |policies|
  {
    if policies != [] {
      var init, last := policies[..|policies| - 1], policies[|policies| - 1];
      assert policies == init + [last];
      CandidatesAreOfPolicies(ids, init, m, es, now, c);
      var one := CandidateFor(ids, last, m, es, now);
      assert c in Candidates(ids, policies, m, es, now) <==> c in Candidates(ids, init, m, es, now) || one == Some(c);
    }
  }

  // ----- Labels -----

  /** The return of a price against the entry price, in basis points. */
  function PriceReturn(mark: real, entry: real): real
    requires entry > 0.0
  {
    (mark / entry - 1.0) * 10_000.0
  }

  /** What a trade earned: the return in its direction, less the round-trip cost; watching earns nothing. */
  function Earned(c: Candidate, mark: real): real
    requires c.entry > 0.0
  {
    if c.action.Watching? then 0.0
    else (if c.direction == 1 then PriceReturn(mark, c.entry) else if c.direction == -1 then -PriceReturn(mark, c.entry) else 0.0) - c.roundTrip
  }

  lemma SignedReturn(c: Candidate, mark: real)
    requires c.entry > 0.0 && -1 <= c.direction <= 1
    ensures GrossReturn(c, mark) == if c.direction == 1 then PriceReturn(mark, c.entry) else if c.direction == -1 then -PriceReturn(mark, c.entry) else 0.0
  {
    DirectionSigns(PriceReturn(mark, c.entry), c.direction);
  }

  lemma DirectionSigns(x: real, d: int)
    requires -1 <= d <= 1
    ensures x * d as real == if d == 1 then x else if d == -1 then -x else 0.0
  {}

  lemma NetIs(ids: ExperienceIds, c: Candidate, mark: real, markAsOf: int, resolved: int)
    requires c.entry > 0.0 && -1 <= c.direction <= 1
    ensures LabelRecord(ids, c, mark, markAsOf, resolved).net == Earned(c, mark)
  {
    SignedReturn(c, mark);
  }

  /** The quote a label uses: of the candidate's instrument, fresh, and the last of those. */
  ghost predicate LastOfThem(m: seq<Quote>, ref: nat, now: int, k: nat) {
    k < |m| && m[k].ref == ref && FreshAt(m[k], now) && forall j :: k < j < |m| ==> m[j].ref != ref || !FreshAt(m[j], now)
  }

  lemma {:induction false} LastFreshIs(m: seq<Quote>, ref: nat, now: int, k: nat)
    requires LastOfThem(m, ref, now, k)
    ensures LastFresh(m, ref, now) == Some(m[k])
  {
    if k < |m| - 1 { LastFreshIs(m[..|m| - 1], ref, now, k); }
  }

  /** A label is due when its hour has come, and can be made from a quote taken since, at or before now. */
  predicate Makes(c: Candidate, q: Quote, now: int) {
    && 1 <= c.horizon <= 720 && c.available == c.decided + c.horizon * 3_600_000_000 && c.available <= now
    && c.available <= q.asOf <= now && c.entry > 0.0 && q.mark >= 0.0
  }

  /** A candidate gets a label exactly when its last fresh quote makes one: with that quote's mark, the features and
      direction it was decided on, and what it earned. */
  lemma LabelSays(ids: ExperienceIds, c: Candidate, m: seq<Quote>, now: int, k: nat)
    requires LastOfThem(m, c.ref, now, k) && -1 <= c.direction <= 1
    ensures Label(ids, c, m, now).Some? <==> Makes(c, m[k], now)
    ensures Label(ids, c, m, now).Some? ==>
              var e := Label(ids, c, m, now).value;
              && e.candidate == c.id && e.strategy == c.strategy && e.ref == c.ref && e.features == c.features && e.direction == c.direction
              && e.decided == c.decided && e.available == c.available && e.mark == m[k].mark && e.net == Earned(c, m[k].mark)
  {
    LastFreshIs(m, c.ref, now, k);
    if Makes(c, m[k], now) { NetIs(ids, c, m[k].mark, Recorded(m[k].asOf), Recorded(now)); }
  }

  lemma NoQuoteNoLabel(ids: ExperienceIds, c: Candidate, m: seq<Quote>, now: int)
    requires forall q :: q in m && q.ref == c.ref ==> !FreshAt(q, now)
    ensures Label(ids, c, m, now).None?
  {}

  lemma QuotientRises(x: real, y: real, k: real)
    requires k > 0.0 && x < y
    ensures x / k < y / k
  {}

  /** The higher the mark, the more a trade upwards earns and the less one downwards. */
  lemma EarnedFollowsMark(c: Candidate, low: real, high: real)
    requires c.entry > 0.0 && !c.action.Watching? && low < high
    ensures c.direction == 1 ==> Earned(c, low) < Earned(c, high)
    ensures c.direction == -1 ==> Earned(c, low) > Earned(c, high)
  {
    QuotientRises(low, high, c.entry);
  }

  // ----- Evidence -----

  /** Evidence is used in the order of its resolution, by id within a second. */
  lemma EvidenceIsByTime(es: seq<Experience>, s: Strategy, now: int, j: nat, k: nat)
    requires j < k < |Resolved(es, s, now)|
    ensures var a, b := Resolved(es, s, now)[j], Resolved(es, s, now)[k];
            a.resolved < b.resolved || (a.resolved == b.resolved && a.id <= b.id)
  {
    ResolvedInOrder(es, s, now);
  }

  // ----- Policies -----

  function Total(xs: seq<real>): real { if xs == [] then 0.0 else xs[0] + Total(xs[1..]) }

  lemma {:induction false} TotalLast(xs: seq<real>, x: real)
    ensures Total(xs + [x]) == Total(xs) + x
  {
    if xs == [] {
      assert (xs + [x])[1..] == [];
    } else {
      assert (xs + [x])[1..] == xs[1..] + [x];
      TotalLast(xs[1..], x);
    }
  }

  function Nets(es: seq<Experience>): seq<real> { seq(|es|, k requires 0 <= k < |es| => es[k].net) }

  /** The features of an experience, and their weights: one of the four. */
  datatype Feature = Momentum | Mosaic | Murmurs | Delta

  function Of(f: Features, x: Feature): real {
    match x case Momentum => f.momentum case Mosaic => f.mosaic case Murmurs => f.murmurs case Delta => f.delta
  }

  /** A feature's credit: the return it preceded, turned around for a trade downwards, times the feature. */
  function CreditOf(e: Experience, x: Feature): real { (if e.direction >= 0 then e.net else -e.net) * Of(e.features, x) }

  function Credits(es: seq<Experience>, x: Feature): seq<real> { seq(|es|, k requires 0 <= k < |es| => CreditOf(es[k], x)) }

  lemma {:induction false} ReturnsAre(es: seq<Experience>)
    ensures ReturnSum(es) == Total(Nets(es))
  {
    if es != [] {
      var init, last := es[..|es| - 1], es[|es| - 1];
      ReturnsAre(init);
      assert Nets(es) == Nets(init) + [last.net];
      TotalLast(Nets(init), last.net);
    }
  }

  lemma CreditIs(e: Experience, x: Feature)
    ensures Of(Credit(e), x) == CreditOf(e, x)
  {}

  lemma PlusIs(a: Features, b: Features, x: Feature)
    ensures Of(Plus(a, b), x) == Of(a, x) + Of(b, x)
  {}

  lemma {:induction false} CreditsAre(es: seq<Experience>, x: Feature)
    ensures Of(CreditSum(es), x) == Total(Credits(es, x))
  {
    if es != [] {
      var init, last := es[..|es| - 1], es[|es| - 1];
      CreditsAre(init, x);
      assert Credits(es, x) == Credits(init, x) + [CreditOf(last, x)];
      TotalLast(Credits(init, x), CreditOf(last, x));
      CreditIs(last, x);
      PlusIs(CreditSum(init), Credit(last), x);
    }
  }

  function Mean(xs: seq<real>): real
    requires xs != []
  {
    Total(xs) / |xs| as real
  }

  /** A five-hundredth of the mean credit, at most a fifth either way. */
  function Shift(x: real): real { if x / 500.0 < -0.20 then -0.20 else if x / 500.0 > 0.20 then 0.20 else x / 500.0 }

  lemma TimesIs(k: real, f: Features, x: Feature)
    ensures Of(Times(k, f), x) == k * Of(f, x)
  {}

  lemma Reciprocally(x: real, n: real)
    requires n > 0.0
    ensures 1.0 / n * x == x / n
  {}

  lemma AdjustedIs(base: Features, quality: Features, x: Feature)
    ensures Of(Adjusted(base, quality), x) == Of(base, x) + Shift(Of(quality, x))
  {}

  function Share(x: real, all: real): real
    requires all > 0.0
  {
    x / all
  }

  /** The weight of each feature before scaling: the strategy's own, shifted by the mean credit of the evidence. */
  lemma RawWeightIs(s: Strategy, es: seq<Experience>, x: Feature)
    ensures Of(RawWeights(s, es), x) == Of(BaseWeights(s), x) + if es == [] then 0.0 else Shift(Mean(Credits(es, x)))
  {
    if es != [] {
      var quality := AverageCredit(es, x);
      RawIs(s, es, quality);
      AdjustedIs(BaseWeights(s), quality, x);
    }
  }

  lemma RawIs(s: Strategy, es: seq<Experience>, quality: Features)
    requires es != [] && quality == Times(1.0 / |es| as real, CreditSum(es))
    ensures RawWeights(s, es) == Adjusted(BaseWeights(s), quality)
  {}

  lemma ScaledBy(w: Features, n: real, x: Feature)
    requires n > 0.0
    ensures Of(Times(1.0 / n, w), x) == Share(Of(w, x), n)
  {
    TimesIs(1.0 / n, w, x);
    Reciprocally(Of(w, x), n);
  }

  lemma AverageCredit(es: seq<Experience>, x: Feature) returns (quality: Features)
    requires es != []
    ensures quality == Times(1.0 / |es| as real, CreditSum(es)) && Of(quality, x) == Mean(Credits(es, x))
  {
    quality := Times(1.0 / |es| as real, CreditSum(es));
    CreditsAre(es, x);
    ScaledBy(CreditSum(es), |es| as real, x);
  }

  lemma {:induction false} TotalsCompare(xs: seq<real>, ys: seq<real>)
    requires |xs| == |ys| && forall k :: 0 <= k < |xs| ==> xs[k] <= ys[k]
    ensures Total(xs) <= Total(ys)
  {
    if xs != [] { TotalsCompare(xs[1..], ys[1..]); }
  }

  lemma QuotientsCompare(x: real, y: real, n: real)
    requires n > 0.0 && x <= y
    ensures x / n <= y / n
  {}

  /** Better evidence for a feature, experience by experience, never lowers its weight; evidence that all speaks for it
      never puts it below the strategy's own. */
  lemma BetterEvidenceWeighsMore(s: Strategy, es: seq<Experience>, better: seq<Experience>, x: Feature)
    requires |es| == |better| && forall k :: 0 <= k < |es| ==> CreditOf(es[k], x) <= CreditOf(better[k], x)
    ensures Of(RawWeights(s, es), x) <= Of(RawWeights(s, better), x)
  {
    RawWeightIs(s, es, x);
    RawWeightIs(s, better, x);
    if es != [] {
      TotalsCompare(Credits(es, x), Credits(better, x));
      QuotientsCompare(Total(Credits(es, x)), Total(Credits(better, x)), |es| as real);
    }
  }

  lemma {:induction false} TotalNonNegative(xs: seq<real>)
    requires forall k :: 0 <= k < |xs| ==> xs[k] >= 0.0
    ensures Total(xs) >= 0.0
  {
    if xs != [] { TotalNonNegative(xs[1..]); }
  }

  lemma ProfitableEvidenceNeverLowers(s: Strategy, es: seq<Experience>, x: Feature)
    requires forall e :: e in es ==> CreditOf(e, x) >= 0.0
    ensures Of(RawWeights(s, es), x) >= Of(BaseWeights(s), x)
  {
    RawWeightIs(s, es, x);
    if es != [] {
      forall k | 0 <= k < |es| ensures Credits(es, x)[k] >= 0.0 { assert es[k] in es; }
      TotalNonNegative(Credits(es, x));
      QuotientsCompare(0.0, Total(Credits(es, x)), |es| as real);
    }
  }

  lemma ScaledIs(w: Features, n: real, x: Feature)
    requires n == Magnitude(w) > 0.0
    ensures Near(Of(NormalizedWeights(w), x), Share(Of(w, x), n))
  {
    ScaledBy(w, n, x);
    RoundedIs(Times(1.0 / n, w), x);
  }

  lemma RoundedIs(w: Features, x: Feature)
    ensures Near(Of(Rounded(w), x), Of(w, x))
  {
    EightIsNear(Of(w, x));
  }

  lemma RawIsPositive(s: Strategy, es: seq<Experience>)
    ensures Magnitude(RawWeights(s, es)) > 0.0
  {
    LeadKeepsItsSign(s, es);
  }

  /** A policy's figures: how many experiences it used and which last 64, the mean of their net returns, and each weight
      as its share of the whole, to eight digits. */
  lemma PolicyFigures(s: Strategy, es: seq<Experience>, now: int, x: Feature)
    ensures var p := PolicyFor(s, es, now); var used := Resolved(es, s, now); var w := RawWeights(s, used);
            && p.strategy == s && p.generated == now && p.count == |used|
            && p.mean == (if used == [] then 0.0 else Mean(Nets(used)))
            && |p.experiences| == Min(|used|, 64)
            && (forall k :: 0 <= k < |p.experiences| ==> p.experiences[k] == used[|used| - |p.experiences| + k].id)
            && Magnitude(w) > 0.0 && Near(Of(p.weights, x), Share(Of(w, x), Magnitude(w)))
  {
    var used := Resolved(es, s, now);
    ReturnsAre(used);
    RawIsPositive(s, used);
    ScaledIs(RawWeights(s, used), Magnitude(RawWeights(s, used)), x);
  }
}
