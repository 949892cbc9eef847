/**
  Shadow strategies: delayed labels, policies fitted to resolved experience, and the candidate each
  policy picks (scripts/mosaic_murmurs_strategy_synthesis.py).  Times are microseconds; recorded times
  are cut to whole seconds.  Weights, scores and returns are exact.
 */
module ShadowStrategy {
  import opened Wrappers
  import opened Money
  import opened Market

  const SECOND := 1_000_000
  const HOUR := 3_600_000_000
  const FAST_AGE := 2 * HOUR
  const EQUITY_AGE := 96 * HOUR
  const LABEL_HORIZON := 24
  const MAX_HORIZON := 720
  const MAX_RETRIEVED := 64

  /** A recorded time: the whole second at or before t. */
  function Recorded(t: int): int { t - t % SECOND }

  lemma RecordedIsEarlier(t: int, u: int)
    requires t <= u
    ensures Recorded(t) <= Recorded(u) && Recorded(t) <= t
  {}

  lemma RecordedHours(t: int, hours: int)
    ensures Recorded(t + hours * HOUR) == Recorded(t) + hours * HOUR
  {
    assert hours * HOUR == (hours * 3_600) * SECOND;
  }

  // ----- Quotes -----

  datatype Features = Features(momentum: real, mosaic: real, murmurs: real, delta: real)

  /** `sound` stands for the provenance, price and cost checks of instrument_fresh. */
  datatype Quote = Quote(ref: nat, kind: Kind, tags: set<Strategy>, settled: bool, sound: bool, asOf: int, retrieved: int,
                         mark: real, roundTrip: real, raw: Features)

  predicate FreshAt(q: Quote, now: int) {
    && q.sound && 0 <= now - q.retrieved <= FAST_AGE && 0 <= now - q.asOf
    && (q.settled || now - q.asOf <= if q.kind.Equity? then EQUITY_AGE else FAST_AGE)
  }

  predicate EligibleQuote(s: Strategy, q: Quote, now: int) {
    s in q.tags && q.kind in KindsOf(s) && !q.settled && FreshAt(q, now)
  }

  function Clip(x: real, low: real, high: real): real { MinReal(high, MaxReal(low, x)) }

  const DIGITS := 100_000_000.0

  /** Rounded to eight digits. */
  function Eight(x: real): real { Round(x * DIGITS) as real / DIGITS }

  function Rounded(f: Features): Features { Features(Eight(f.momentum), Eight(f.mosaic), Eight(f.murmurs), Eight(f.delta)) }

  function Normalized(q: Quote): Features {
    Rounded(Features(Clip(q.raw.momentum / 10.0, -1.0, 1.0), Clip(q.raw.mosaic, -1.0, 1.0), Clip(q.raw.murmurs, -1.0, 1.0),
                     Clip(q.raw.delta / 10.0, -1.0, 1.0)))
  }

  lemma EightIsNear(x: real)
    ensures -0.000000005 <= Eight(x) - x <= 0.000000005
  {
    RoundNear(x * DIGITS);
  }

  lemma EightStaysUnit(x: real)
    requires -1.0 <= x <= 1.0
    ensures -1.0 <= Eight(x) <= 1.0
  {
    RoundMonotone(-DIGITS, x * DIGITS);
    RoundMonotone(x * DIGITS, DIGITS);
    RoundOfInt(-100_000_000);
    RoundOfInt(100_000_000);
  }

  // ----- Records -----

  datatype Action = Watching | Overweight | Underweight

  datatype Candidate = Candidate(id: nat, strategy: Strategy, ref: nat, decided: int, featureEnd: int, horizon: int, available: int,
                                 features: Features, retrieved: seq<nat>, direction: int, entry: real, roundTrip: real, action: Action)

  datatype Experience = Experience(id: nat, candidate: nat, strategy: Strategy, ref: nat, resolved: int, markAsOf: int, mark: real,
                                   features: Features, direction: int, net: real, decided: int, available: int)

  datatype Policy = Policy(strategy: Strategy, weights: Features, count: nat, experiences: seq<nat>, mean: real, generated: int)

  // ----- Delayed labels -----

  /** The last fresh quote of a reference, as a dictionary built in order keeps it. */
  function LastFresh(m: seq<Quote>, ref: nat, now: int): (r: Option<Quote>)
    ensures r.Some? ==> r.value in m && r.value.ref == ref && FreshAt(r.value, now)
    ensures r.None? ==> forall q :: q in m && q.ref == ref ==> !FreshAt(q, now)
  {
    if m == [] then None
    else if m[|m| - 1].ref == ref && FreshAt(m[|m| - 1], now) then Some(m[|m| - 1])
    else
      assert m == m[..|m| - 1] + [m[|m| - 1]];
      LastFresh(m[..|m| - 1], ref, now)
  }

  predicate Due(c: Candidate, now: int) {
    1 <= c.horizon <= MAX_HORIZON && c.available == c.decided + c.horizon * HOUR && c.available <= now
  }

  predicate Usable(c: Candidate, q: Quote, now: int) {
    c.available <= q.asOf <= now && c.entry > 0.0 && q.mark >= 0.0
  }

  function GrossReturn(c: Candidate, mark: real): real
    requires c.entry > 0.0
  {
    (mark / c.entry - 1.0) * 10_000.0 * c.direction as real
  }

  /** Experience ids are the digest of candidate, strategy and instrument. */
  type ExperienceIds = (nat, Strategy, nat) -> nat

  /** The record of a label: everything but the mark and the two times is fixed by the candidate. */
  function LabelRecord(ids: ExperienceIds, c: Candidate, mark: real, markAsOf: int, resolved: int): Experience
    requires c.entry > 0.0
  {
    Experience(ids(c.id, c.strategy, c.ref), c.id, c.strategy, c.ref, resolved, markAsOf, mark, c.features, c.direction,
               if c.action.Watching? then 0.0 else GrossReturn(c, mark) - c.roundTrip, c.decided, c.available)
  }

  predicate MadeFrom(ids: ExperienceIds, c: Candidate, e: Experience) {
    c.entry > 0.0 && e == LabelRecord(ids, c, e.mark, e.markAsOf, e.resolved)
  }

  function Labelled(ids: ExperienceIds, c: Candidate, q: Quote, now: int): Experience
    requires c.entry > 0.0
  {
    LabelRecord(ids, c, q.mark, Recorded(q.asOf), Recorded(now))
  }

  function Label(ids: ExperienceIds, c: Candidate, m: seq<Quote>, now: int): Option<Experience> {
    if !Due(c, now) then None
    else match LastFresh(m, c.ref, now)
      case None => None
      case Some(q) => if Usable(c, q, now) then Some(Labelled(ids, c, q, now)) else None
  }

  predicate Known(experiences: seq<Experience>, candidate: nat) { exists e :: e in experiences && e.candidate == candidate }

  function Matured(ids: ExperienceIds, candidates: seq<Candidate>, existing: seq<Experience>, m: seq<Quote>, now: int): seq<Experience> {
    if candidates == [] then []
    else
      var c := candidates[|candidates| - 1];
      var outcome := if Known(existing, c.id) then None else Label(ids, c, m, now);
      Matured(ids, candidates[..|candidates| - 1], existing, m, now) + if outcome.Some? then [outcome.value] else []
  }

  method MatureExperiences(ids: ExperienceIds, candidates: seq<Candidate>, existing: seq<Experience>, m: seq<Quote>, now: int)
    returns (matured: seq<Experience>)
    ensures matured == Matured(ids, candidates, existing, m, now)
  {
    var labelled := set e | e in existing :: e.candidate;
    matured := [];
    for k := 0 to |candidates|
      invariant matured == Matured(ids, candidates[..k], existing, m, now)
    {
      var c := candidates[k];
      assert candidates[..k + 1][..k] == candidates[..k];
      assert c.id in labelled <==> Known(existing, c.id);
      if c.id !in labelled && Due(c, now) {
        var q := LastFresh(m, c.ref, now);
        if q.Some? && Usable(c, q.value, now) {
          matured := matured + [Labelled(ids, c, q.value, now)];
        }
      }
    }
    assert candidates[..|candidates|] == candidates;
  }

  /** A label lies between the horizon and the moment it is resolved. */
  predicate LabelInWindow(e: Experience) { e.available <= e.markAsOf <= e.resolved && e.decided + HOUR <= e.available }

  predicate WholeSeconds(t: int) { t % SECOND == 0 }

  lemma LabelsAreInWindow(ids: ExperienceIds, c: Candidate, m: seq<Quote>, now: int)
    requires WholeSeconds(c.available) && Label(ids, c, m, now).Some?
    ensures var e := Label(ids, c, m, now).value;
            && LabelInWindow(e) && MadeFrom(ids, c, e) && e.resolved <= now
            && e.available == c.decided + c.horizon * HOUR
  {
    var q := LastFresh(m, c.ref, now).value;
    RecordedIsEarlier(c.available, q.asOf);
    RecordedIsEarlier(q.asOf, now);
    assert Recorded(c.available) == c.available;
  }

  /** What a mature record says about a candidate of the list. */
  lemma {:induction false} MaturedComesFrom(ids: ExperienceIds, candidates: seq<Candidate>, existing: seq<Experience>, m: seq<Quote>, now: int)
    ensures forall e :: e in Matured(ids, candidates, existing, m, now) ==>
              !Known(existing, e.candidate) && exists c :: c in candidates && Label(ids, c, m, now) == Some(e)
  {
    if candidates != [] {
      var init := candidates[..|candidates| - 1];
      MaturedComesFrom(ids, init, existing, m, now);
      assert candidates == init + [candidates[|candidates| - 1]];
    }
  }

  /** Every due candidate without a known label gets its label. */
  lemma {:induction false} MaturedHas(ids: ExperienceIds, candidates: seq<Candidate>, existing: seq<Experience>, m: seq<Quote>, now: int, c: Candidate)
    requires c in candidates && !Known(existing, c.id) && Label(ids, c, m, now).Some?
    ensures Label(ids, c, m, now).value in Matured(ids, candidates, existing, m, now)
  {
    var init := candidates[..|candidates| - 1];
    assert candidates == init + [candidates[|candidates| - 1]];
    if c != candidates[|candidates| - 1] { MaturedHas(ids, init, existing, m, now, c); }
  }

  predicate DistinctCandidates(cs: seq<Candidate>) { forall j, k :: 0 <= j < k < |cs| ==> cs[j].id != cs[k].id }

  predicate OneEach(es: seq<Experience>) { forall j, k :: 0 <= j < k < |es| ==> es[j].candidate != es[k].candidate }

  /** One tick labels no candidate twice. */
  lemma {:induction false} MaturedOnce(ids: ExperienceIds, candidates: seq<Candidate>, existing: seq<Experience>, m: seq<Quote>, now: int)
    requires DistinctCandidates(candidates)
    ensures OneEach(Matured(ids, candidates, existing, m, now))
  {
    if candidates != [] {
      var init := candidates[..|candidates| - 1];
      var last := candidates[|candidates| - 1];
      MaturedOnce(ids, init, existing, m, now);
      MaturedComesFrom(ids, init, existing, m, now);
      var before := Matured(ids, init, existing, m, now);
      forall j | 0 <= j < |before| ensures before[j].candidate != last.id {
        assert before[j] in before;
        var c :| c in init && Label(ids, c, m, now) == Some(before[j]);
        assert c.id == before[j].candidate;
      }
    }
  }

  // ----- Resolved experience -----

  predicate Earlier(a: Experience, b: Experience) { a.resolved < b.resolved || (a.resolved == b.resolved && a.id < b.id) }

  function InsertExperience(e: Experience, s: seq<Experience>): seq<Experience> {
    if s == [] || Earlier(e, s[0]) then [e] + s else [s[0]] + InsertExperience(e, s[1..])
  }

  /** The experiences of a strategy resolved by now, by time of resolution. */
  function Resolved(es: seq<Experience>, s: Strategy, now: int): seq<Experience> {
    if es == [] then []
    else
      var rest := Resolved(es[..|es| - 1], s, now);
      var e := es[|es| - 1];
      if e.strategy == s && e.resolved <= now then InsertExperience(e, rest) else rest
  }

  /** Records resolved after now have no influence. */
  lemma {:induction false} LaterExperienceIsIgnored(es: seq<Experience>, later: seq<Experience>, s: Strategy, now: int)
    requires forall e :: e in later ==> e.resolved > now
    ensures Resolved(es + later, s, now) == Resolved(es, s, now)
  {
    if later == [] {
      assert es + later == es;
    } else {
      assert (es + later)[..|es + later| - 1] == es + later[..|later| - 1];
      assert later[|later| - 1] in later;
      LaterExperienceIsIgnored(es, later[..|later| - 1], s, now);
    }
  }

  lemma {:induction false} InsertExperienceMembers(e: Experience, s: seq<Experience>)
    ensures multiset(InsertExperience(e, s)) == multiset(s) + multiset{e}
  {
    if s != [] && !Earlier(e, s[0]) {
      InsertExperienceMembers(e, s[1..]);
      assert s == [s[0]] + s[1..];
    }
  }

  /** Exactly the strategy's experiences resolved by now, each as often as recorded. */
  lemma {:induction false} ResolvedMembers(es: seq<Experience>, s: Strategy, now: int)
    ensures forall e :: multiset(Resolved(es, s, now))[e] == if e.strategy == s && e.resolved <= now then multiset(es)[e] else 0
  {
    if es != [] {
      var init := es[..|es| - 1];
      ResolvedMembers(init, s, now);
      InsertExperienceMembers(es[|es| - 1], Resolved(init, s, now));
      assert es == init + [es[|es| - 1]];
    }
  }

  predicate InOrder(s: seq<Experience>) { forall j, k :: 0 <= j < k < |s| ==> !Earlier(s[k], s[j]) }

  lemma {:induction false} InsertExperienceInOrder(e: Experience, s: seq<Experience>)
    requires InOrder(s)
    ensures InOrder(InsertExperience(e, s))
  {
    if s != [] && !Earlier(e, s[0]) {
      InsertExperienceInOrder(e, s[1..]);
      InsertExperienceMembers(e, s[1..]);
      var t := InsertExperience(e, s[1..]);
      forall k | 0 <= k < |t| ensures !Earlier(t[k], s[0]) {
        assert t[k] in multiset(t);
        if t[k] != e {
          assert t[k] in s[1..];
        }
      }
    }
  }

  lemma {:induction false} ResolvedInOrder(es: seq<Experience>, s: Strategy, now: int)
    ensures InOrder(Resolved(es, s, now))
  {
    if es != [] {
      ResolvedInOrder(es[..|es| - 1], s, now);
      InsertExperienceInOrder(es[|es| - 1], Resolved(es[..|es| - 1], s, now));
    }
  }

  // ----- Policies -----

  function BaseWeights(s: Strategy): Features {
    match s
    case PredictionMarkets => Features(0.10, 0.10, 0.10, 0.70)
    case CryptoMomentum => Features(0.70, 0.10, 0.10, 0.10)
    case EquityWatch => Features(0.65, 0.20, 0.10, 0.05)
    case LocalEventWatch => Features(0.40, 0.35, 0.20, 0.05)
    case AiCyberWatch => Features(0.45, 0.15, 0.35, 0.05)
    case CrossAssetMomentum => Features(0.70, 0.10, 0.10, 0.10)
    case ContrarianReversion => Features(-0.70, 0.10, 0.10, 0.10)
    case VolatilityBarbell => Features(0.55, 0.15, 0.20, 0.10)
  }

  function Plus(a: Features, b: Features): Features {
    Features(a.momentum + b.momentum, a.mosaic + b.mosaic, a.murmurs + b.murmurs, a.delta + b.delta)
  }

  function Times(k: real, a: Features): Features { Features(k * a.momentum, k * a.mosaic, k * a.murmurs, k * a.delta) }

  /** Each feature weighted by the signed return it preceded. */
  function Credit(e: Experience): Features { Times(e.net * (if e.direction >= 0 then 1.0 else -1.0), e.features) }

  function CreditSum(es: seq<Experience>): Features {
    if es == [] then Features(0.0, 0.0, 0.0, 0.0) else Plus(CreditSum(es[..|es| - 1]), Credit(es[|es| - 1]))
  }

  function ReturnSum(es: seq<Experience>): real { if es == [] then 0.0 else ReturnSum(es[..|es| - 1]) + es[|es| - 1].net }

  function Nudge(x: real): real { Clip(x / 500.0, -0.20, 0.20) }

  function Adjusted(base: Features, quality: Features): Features {
    Plus(base, Features(Nudge(quality.momentum), Nudge(quality.mosaic), Nudge(quality.murmurs), Nudge(quality.delta)))
  }

  function Magnitude(w: Features): real { AbsReal(w.momentum) + AbsReal(w.mosaic) + AbsReal(w.murmurs) + AbsReal(w.delta) }

  function NormalizedWeights(w: Features): Features {
    if Magnitude(w) <= 0.0 then Features(0.0, 0.0, 0.0, 0.0) else Rounded(Times(1.0 / Magnitude(w), w))
  }

  function RawWeights(s: Strategy, matured: seq<Experience>): Features {
    if matured == [] then BaseWeights(s) else Adjusted(BaseWeights(s), Times(1.0 / |matured| as real, CreditSum(matured)))
  }

  function LastOf<T>(s: seq<T>, limit: nat): seq<T> { if |s| <= limit then s else s[|s| - limit..] }

  function IdsOf(es: seq<Experience>): seq<nat> { seq(|es|, k requires 0 <= k < |es| => es[k].id) }

  function PolicyFor(s: Strategy, es: seq<Experience>, now: int): Policy {
    var matured := Resolved(es, s, now);
    Policy(s, NormalizedWeights(RawWeights(s, matured)), |matured|, IdsOf(LastOf(matured, MAX_RETRIEVED)),
           if matured == [] then 0.0 else ReturnSum(matured) / |matured| as real, now)
  }

  /** A policy at a moment is fixed by the experience resolved by then. */
  lemma PolicyIgnoresLaterExperience(s: Strategy, es: seq<Experience>, later: seq<Experience>, now: int)
    requires forall e :: e in later ==> e.resolved > now
    ensures PolicyFor(s, es + later, now) == PolicyFor(s, es, now)
  {
    LaterExperienceIsIgnored(es, later, s, now);
  }

  /** The weight a strategy is about. */
  function Lead(s: Strategy, w: Features): real { if s.PredictionMarkets? then w.delta else w.momentum }

  lemma NudgeIsSmall(x: real)
    ensures -0.20 <= Nudge(x) <= 0.20
  {}

  lemma BaseLead(s: Strategy)
    ensures AbsReal(Lead(s, BaseWeights(s))) >= 0.40 && Magnitude(BaseWeights(s)) == 1.0
  {}

  lemma AbsOfSum(x: real, d: real, bound: real)
    requires -bound <= d <= bound
    ensures AbsReal(x) - bound <= AbsReal(x + d) <= AbsReal(x) + bound
    ensures AbsReal(x) > bound ==> (x + d > 0.0 <==> x > 0.0)
  {}

  lemma LeadWithin(s: Strategy, w: Features)
    ensures AbsReal(Lead(s, w)) <= Magnitude(w)
  {}

  /** Adjusting by any quality moves each weight by at most a fifth. */
  lemma AdjustedMagnitude(base: Features, quality: Features)
    ensures Magnitude(Adjusted(base, quality)) <= Magnitude(base) + 0.80
  {
    NudgeIsSmall(quality.momentum);
    NudgeIsSmall(quality.mosaic);
    NudgeIsSmall(quality.murmurs);
    NudgeIsSmall(quality.delta);
    AbsOfSum(base.momentum, Nudge(quality.momentum), 0.20);
    AbsOfSum(base.mosaic, Nudge(quality.mosaic), 0.20);
    AbsOfSum(base.murmurs, Nudge(quality.murmurs), 0.20);
    AbsOfSum(base.delta, Nudge(quality.delta), 0.20);
  }

  lemma AdjustedLead(s: Strategy, base: Features, quality: Features)
    ensures Lead(s, Adjusted(base, quality)) == Lead(s, base) + Nudge(Lead(s, quality))
  {}

  /** However the experience turned out, the leading weight keeps its sign and a tenth of the magnitude. */
  lemma LeadKeepsItsSign(s: Strategy, matured: seq<Experience>)
    ensures var w := RawWeights(s, matured);
            && (Lead(s, w) > 0.0 <==> Lead(s, BaseWeights(s)) > 0.0)
            && 0.20 <= AbsReal(Lead(s, w)) && 0.20 <= Magnitude(w) <= 1.80
  {
    BaseLead(s);
    LeadWithin(s, RawWeights(s, matured));
    if matured != [] {
      var quality := Times(1.0 / |matured| as real, CreditSum(matured));
      NudgeIsSmall(Lead(s, quality));
      AdjustedLead(s, BaseWeights(s), quality);
      AbsOfSum(Lead(s, BaseWeights(s)), Nudge(Lead(s, quality)), 0.20);
      AdjustedMagnitude(BaseWeights(s), quality);
    }
  }

  lemma ScaledAbs(k: real, x: real)
    requires k > 0.0
    ensures AbsReal(k * x) == k * AbsReal(x) && (k * x > 0.0 <==> x > 0.0)
  {}

  lemma Distributes(k: real, a: real, b: real, c: real, d: real)
    ensures k * a + k * b + k * c + k * d == k * (a + b + c + d)
  {}

  lemma Inverse(x: real)
    requires x > 0.0
    ensures 1.0 / x * x == 1.0 && 1.0 / x > 0.0
  {}

  lemma ScaledMagnitude(k: real, w: Features)
    requires k > 0.0
    ensures Magnitude(Times(k, w)) == k * Magnitude(w)
  {
    ScaledAbs(k, w.momentum);
    ScaledAbs(k, w.mosaic);
    ScaledAbs(k, w.murmurs);
    ScaledAbs(k, w.delta);
    Distributes(k, AbsReal(w.momentum), AbsReal(w.mosaic), AbsReal(w.murmurs), AbsReal(w.delta));
  }

  lemma NormalizesBy(k: real, w: Features)
    requires k > 0.0 && k * Magnitude(w) == 1.0
    ensures Magnitude(Times(k, w)) == 1.0
  {
    ScaledMagnitude(k, w);
  }

  /** Scaled to total magnitude one, before rounding. */
  lemma Normalizes(w: Features)
    requires Magnitude(w) > 0.0
    ensures Magnitude(Times(1.0 / Magnitude(w), w)) == 1.0
  {
    Inverse(Magnitude(w));
    NormalizesBy(1.0 / Magnitude(w), w);
  }

  lemma EightAbs(x: real)
    ensures AbsReal(x) - 0.000000005 <= AbsReal(Eight(x)) <= AbsReal(x) + 0.000000005
    ensures AbsReal(x) > 0.000000005 ==> (Eight(x) > 0.0 <==> x > 0.0)
  {
    EightIsNear(x);
    AbsOfSum(x, Eight(x) - x, 0.000000005);
  }

  /** How far rounding four weights moves their total magnitude. */
  const SLACK := 0.00000002

  lemma RoundedMagnitude(w: Features)
    ensures Magnitude(w) - SLACK <= Magnitude(Rounded(w)) <= Magnitude(w) + SLACK
  {
    EightAbs(w.momentum);
    EightAbs(w.mosaic);
    EightAbs(w.murmurs);
    EightAbs(w.delta);
  }

  lemma RoundedLead(s: Strategy, w: Features)
    requires AbsReal(Lead(s, w)) >= 0.10
    ensures Lead(s, Rounded(w)) > 0.0 <==> Lead(s, w) > 0.0
  {
    EightAbs(Lead(s, w));
  }

  lemma ShareOfLead(s: Strategy, w: Features)
    requires 0.20 <= AbsReal(Lead(s, w)) && 0.20 <= Magnitude(w) <= 1.80
    ensures var n := Times(1.0 / Magnitude(w), w);
            AbsReal(Lead(s, n)) >= 0.10 && (Lead(s, n) > 0.0 <==> Lead(s, w) > 0.0)
  {
    var k := 1.0 / Magnitude(w);
    Inverse(Magnitude(w));
    ScaledAbs(k, Lead(s, w));
    assert k >= 0.5 by { Reciprocal(Magnitude(w)); }
    assert k * AbsReal(Lead(s, w)) >= 0.5 * 0.20 by { ProductAtLeast(k, 0.5, AbsReal(Lead(s, w)), 0.20); }
    assert Lead(s, Times(k, w)) == k * Lead(s, w);
  }

  lemma Reciprocal(x: real)
    requires 0.0 < x <= 2.0
    ensures 1.0 / x >= 0.5
  {}

  lemma ProductAtLeast(x: real, a: real, y: real, b: real)
    requires x >= a >= 0.0 && y >= b >= 0.0
    ensures x * y >= a * b
  {
    assert x * y >= a * y;
    assert a * y >= a * b;
  }

  /** Policy weights have total magnitude one, up to their rounding to eight digits, and lead with the sign of
      the strategy's own weight. */
  lemma PolicyWeightsAreNormalized(s: Strategy, es: seq<Experience>, now: int)
    ensures var w := PolicyFor(s, es, now).weights;
            1.0 - SLACK <= Magnitude(w) <= 1.0 + SLACK && (Lead(s, w) > 0.0 <==> Lead(s, BaseWeights(s)) > 0.0)
  {
    var w := RawWeights(s, Resolved(es, s, now));
    LeadKeepsItsSign(s, Resolved(es, s, now));
    WeightsAreNormalized(s, w);
  }

  lemma WeightsAreNormalized(s: Strategy, w: Features)
    requires 0.20 <= AbsReal(Lead(s, w)) && 0.20 <= Magnitude(w) <= 1.80
    ensures 1.0 - SLACK <= Magnitude(NormalizedWeights(w)) <= 1.0 + SLACK
    ensures Lead(s, NormalizedWeights(w)) > 0.0 <==> Lead(s, w) > 0.0
  {
    var n := Times(1.0 / Magnitude(w), w);
    Normalizes(w);
    RoundedMagnitude(n);
    ShareOfLead(s, w);
    RoundedLead(s, n);
  }

  // ----- Candidates -----

  function Score(w: Features, f: Features): real {
    w.momentum * f.momentum + w.mosaic * f.mosaic + w.murmurs * f.murmurs + w.delta * f.delta
  }

  predicate Beats(w: Features, a: Quote, b: Quote) {
    var x, y := AbsReal(Score(w, Normalized(a))), AbsReal(Score(w, Normalized(b)));
    x > y || (x == y && a.ref > b.ref)
  }

  /** The first of the best eligible quotes. */
  function Best(s: Strategy, w: Features, m: seq<Quote>, now: int): (r: Option<Quote>)
    ensures r.Some? ==> r.value in m && EligibleQuote(s, r.value, now)
    ensures r.None? ==> forall q :: q in m ==> !EligibleQuote(s, q, now)
  {
    if m == [] then None
    else
      var before := Best(s, w, m[..|m| - 1], now);
      var q := m[|m| - 1];
      assert m == m[..|m| - 1] + [q];
      if EligibleQuote(s, q, now) && (before.None? || Beats(w, q, before.value)) then Some(q) else before
  }

  lemma {:induction false} BestIsBest(s: Strategy, w: Features, m: seq<Quote>, now: int)
    ensures forall q :: q in m && EligibleQuote(s, q, now) ==> Best(s, w, m, now).Some? && !Beats(w, q, Best(s, w, m, now).value)
  {
    if m != [] {
      BestIsBest(s, w, m[..|m| - 1], now);
      assert m == m[..|m| - 1] + [m[|m| - 1]];
    }
  }

  function Edge(w: Features, q: Quote): real { AbsReal(Score(w, Normalized(q))) * 200.0 }

  function Direction(w: Features, q: Quote): int {
    var x := Score(w, Normalized(q));
    if x > 0.0 then 1 else if x < 0.0 then -1 else 0
  }

  function ActionFor(w: Features, q: Quote): Action {
    if Direction(w, q) == 0 || Edge(w, q) - q.roundTrip <= 0.0 then Watching
    else if Direction(w, q) > 0 then Overweight else Underweight
  }

  lemma WeightedFeature(w: real, f: real)
    requires -1.0 <= f <= 1.0
    ensures -AbsReal(w) <= w * f <= AbsReal(w)
  {
    FractionOf(AbsReal(w), f);
    assert w * f == if w < 0.0 then -(AbsReal(w) * f) else AbsReal(w) * f;
  }

  lemma FractionOf(a: real, f: real)
    requires a >= 0.0 && -1.0 <= f <= 1.0
    ensures -a <= a * f <= a
  {
    assert a * (1.0 - f) == a - a * f;
    assert a * (1.0 + f) == a + a * f;
  }

  predicate Unit(f: Features) {
    -1.0 <= f.momentum <= 1.0 && -1.0 <= f.mosaic <= 1.0 && -1.0 <= f.murmurs <= 1.0 && -1.0 <= f.delta <= 1.0
  }

  lemma ScoreWithin(w: Features, f: Features, a: real, b: real, c: real, d: real)
    requires -a <= w.momentum * f.momentum <= a && -b <= w.mosaic * f.mosaic <= b
    requires -c <= w.murmurs * f.murmurs <= c && -d <= w.delta * f.delta <= d
    ensures -(a + b + c + d) <= Score(w, f) <= a + b + c + d
  {}

  lemma AbsWithin(x: real, m: real)
    requires -m <= x <= m
    ensures AbsReal(x) <= m
  {}

  lemma ScoreIsBounded(w: Features, f: Features)
    requires Unit(f)
    ensures AbsReal(Score(w, f)) <= Magnitude(w)
  {
    var a, b, c, d := AbsReal(w.momentum), AbsReal(w.mosaic), AbsReal(w.murmurs), AbsReal(w.delta);
    WeightedFeature(w.momentum, f.momentum);
    WeightedFeature(w.mosaic, f.mosaic);
    WeightedFeature(w.murmurs, f.murmurs);
    WeightedFeature(w.delta, f.delta);
    ScoreWithin(w, f, a, b, c, d);
    AbsWithin(Score(w, f), a + b + c + d);
  }

  lemma NormalizedIsUnit(q: Quote)
    ensures Unit(Normalized(q))
  {
    EightStaysUnit(Clip(q.raw.momentum / 10.0, -1.0, 1.0));
    EightStaysUnit(Clip(q.raw.mosaic, -1.0, 1.0));
    EightStaysUnit(Clip(q.raw.murmurs, -1.0, 1.0));
    EightStaysUnit(Clip(q.raw.delta / 10.0, -1.0, 1.0));
  }

  /** A trade needs round-trip costs below its expected edge, and no edge exceeds 200 basis points by more than
      the rounding of the weights: from 200.000004 on every candidate only watches. */
  lemma CostsBlockTrades(s: Strategy, es: seq<Experience>, now: int, q: Quote)
    ensures var w := PolicyFor(s, es, now).weights;
            && Edge(w, q) <= 200.0 * (1.0 + SLACK)
            && (ActionFor(w, q) != Watching ==> q.roundTrip < Edge(w, q))
            && (q.roundTrip >= 200.0 * (1.0 + SLACK) ==> ActionFor(w, q) == Watching)
  {
    PolicyWeightsAreNormalized(s, es, now);
    NormalizedIsUnit(q);
    ScoreIsBounded(PolicyFor(s, es, now).weights, Normalized(q));
  }

  /** Candidate ids are the digest of the policy, the instrument, the second, and the whole snapshot. */
  type CandidateIds = (Policy, nat, int, Features, seq<Quote>) -> nat

  function CandidateFor(ids: CandidateIds, p: Policy, m: seq<Quote>, es: seq<Experience>, now: int): Option<Candidate> {
    match Best(p.strategy, p.weights, m, now)
    case None => None
    case Some(q) =>
      Some(Candidate(ids(p, q.ref, Recorded(now), Normalized(q), m), p.strategy, q.ref, Recorded(now), Recorded(q.asOf), LABEL_HORIZON,
                     Recorded(now + LABEL_HORIZON * HOUR), Normalized(q), IdsOf(LastOf(Resolved(es, p.strategy, now), MAX_RETRIEVED)),
                     Direction(p.weights, q), q.mark, q.roundTrip, ActionFor(p.weights, q)))
  }

  /** The feature window of a candidate ends by its decision, so the guard against a later end never
      fires, and its label becomes due a whole horizon after the decision. */
  lemma CandidatesLookBack(ids: CandidateIds, p: Policy, m: seq<Quote>, es: seq<Experience>, now: int)
    requires CandidateFor(ids, p, m, es, now).Some?
    ensures var c := CandidateFor(ids, p, m, es, now).value;
            && Best(p.strategy, p.weights, m, now).value.asOf <= now
            && c.featureEnd <= c.decided <= now && c.available == c.decided + c.horizon * HOUR && WholeSeconds(c.available)
            && c.strategy == p.strategy
  {
    var q := Best(p.strategy, p.weights, m, now).value;
    RecordedIsEarlier(q.asOf, now);
    RecordedHours(now, LABEL_HORIZON);
  }
}
