/**
  Why candidates are never refused: their ids carry the policy that made them, and a policy carries its strategy
  and its moment (scripts/mosaic_murmurs_strategy_synthesis.py:150-165, 214-224).
 */
module FreshCandidates {
  import opened Wrappers
  import opened Market
  import opened ShadowStrategy
  import opened StrategyLoop
  import opened ForgottenLabels

  /** Candidate ids tell the strategy and the moment of their policies apart, both of which they digest. */
  ghost predicate TellsPoliciesApart(ids: CandidateIds) {
    forall p, r, t, f, m, q, s, u, g, n :: ids(p, r, t, f, m) == ids(q, s, u, g, n) ==>
      p.strategy == q.strategy && p.generated == q.generated
  }

  function MomentNo(t: int): nat { if t >= 0 then 2 * t else -2 * t - 1 }

  function StrategyNo(s: Strategy): nat {
    match s
    case PredictionMarkets => 0
    case CryptoMomentum => 1
    case EquityWatch => 2
    case LocalEventWatch => 3
    case AiCyberWatch => 4
    case CrossAssetMomentum => 5
    case ContrarianReversion => 6
    case VolatilityBarbell => 7
  }

  /** Ids made of nothing but the two. */
  function IdOf(p: Policy, ref: nat, decided: int, features: Features, m: seq<Quote>): nat {
    8 * MomentNo(p.generated) + StrategyNo(p.strategy)
  }

  lemma StrategyNosDiffer(s: Strategy, t: Strategy)
    ensures StrategyNo(s) == StrategyNo(t) <==> s == t
    ensures StrategyNo(s) < 8
  {}

  /** There are such ids. */
  lemma IdsCanTellPoliciesApart()
    ensures TellsPoliciesApart(IdOf)
  {
    forall p: Policy, q: Policy | 8 * MomentNo(p.generated) + StrategyNo(p.strategy) == 8 * MomentNo(q.generated) + StrategyNo(q.strategy)
      ensures p.strategy == q.strategy && p.generated == q.generated
    {
      StrategyNosDiffer(p.strategy, q.strategy);
      StrategyNosDiffer(q.strategy, p.strategy);
    }
  }

  /** The id of the candidate was made from a policy of its strategy, at this moment. */
  ghost predicate MadeAt(ids: CandidateIds, c: Candidate, now: int) {
    exists p: Policy, m: seq<Quote> :: p.generated == now && p.strategy == c.strategy && c.id == ids(p, c.ref, c.decided, c.features, m)
  }

  lemma MadeApart(ids: CandidateIds, c: Candidate, now: int, d: Candidate, other: int)
    requires TellsPoliciesApart(ids) && MadeAt(ids, c, now) && MadeAt(ids, d, other)
    requires now != other || c.strategy != d.strategy
    ensures c.id != d.id
  {
    var p: Policy, m: seq<Quote> :| p.generated == now && p.strategy == c.strategy && c.id == ids(p, c.ref, c.decided, c.features, m);
    var q: Policy, n: seq<Quote> :| q.generated == other && q.strategy == d.strategy && d.id == ids(q, d.ref, d.decided, d.features, n);
    assert p.strategy != q.strategy || p.generated != q.generated;
  }

  /** Policies of different strategies, all generated now. */
  predicate PoliciesOf(policies: seq<Policy>, now: int) {
    && (forall k :: 0 <= k < |policies| ==> policies[k].generated == now)
    && forall j, k :: 0 <= j < k < |policies| ==> policies[j].strategy != policies[k].strategy
  }

  predicate HasStrategy(policies: seq<Policy>, s: Strategy) { exists k :: 0 <= k < |policies| && policies[k].strategy == s }

  /** Made now, at most one for each of the policies. */
  ghost predicate MadeNow(ids: CandidateIds, cs: seq<Candidate>, policies: seq<Policy>, now: int) {
    && (forall c :: c in cs ==> MadeAt(ids, c, now) && HasStrategy(policies, c.strategy))
    && forall j, k :: 0 <= j < k < |cs| ==> cs[j].strategy != cs[k].strategy
  }

  lemma CandidateIsMadeNow(ids: CandidateIds, p: Policy, m: seq<Quote>, es: seq<Experience>, now: int)
    requires p.generated == now && CandidateFor(ids, p, m, es, now).Some?
    ensures var c := CandidateFor(ids, p, m, es, now).value; MadeAt(ids, c, now) && c.strategy == p.strategy
  {}

  lemma MorePolicies(ids: CandidateIds, cs: seq<Candidate>, policies: seq<Policy>, p: Policy, now: int)
    requires MadeNow(ids, cs, policies, now)
    ensures MadeNow(ids, cs, policies + [p], now)
  {
    forall s | HasStrategy(policies, s) ensures HasStrategy(policies + [p], s) {
      var k :| 0 <= k < |policies| && policies[k].strategy == s;
      assert (policies + [p])[k] == policies[k];
    }
  }

  lemma OneMoreMadeNow(ids: CandidateIds, cs: seq<Candidate>, policies: seq<Policy>, c: Candidate, p: Policy, now: int)
    requires MadeNow(ids, cs, policies, now) && MadeAt(ids, c, now) && c.strategy == p.strategy && !HasStrategy(policies, p.strategy)
    ensures MadeNow(ids, cs + [c], policies + [p], now)
  {
    MorePolicies(ids, cs, policies, p, now);
    assert (policies + [p])[|policies|] == p;
    assert forall k :: 0 <= k < |cs| ==> cs[k] in cs;
  }

  lemma {:induction false} CandidatesAreMadeNow(ids: CandidateIds, policies: seq<Policy>, m: seq<Quote>, es: seq<Experience>, now: int)
    requires PoliciesOf(policies, now)
    ensures MadeNow(ids, Candidates(ids, policies, m, es, now), policies, now)
    decreases |policies|
  {
    if policies != [] {
      var init, p := policies[..|policies| - 1], policies[|policies| - 1];
      assert policies == init + [p];
      CandidatesAreMadeNow(ids, init, m, es, now);
      if CandidateFor(ids, p, m, es, now).Some? {
        CandidateIsMadeNow(ids, p, m, es, now);
        OneMoreMadeNow(ids, Candidates(ids, init, m, es, now), init, CandidateFor(ids, p, m, es, now).value, p, now);
      } else {
        MorePolicies(ids, Candidates(ids, init, m, es, now), init, p, now);
      }
    }
  }

  lemma StrategiesAreDistinct(j: nat, k: nat)
    requires j < k < |STRATEGIES|
    ensures STRATEGIES[j] != STRATEGIES[k]
  {}

  lemma PolicyIsFor(strategies: seq<Strategy>, fit: seq<Experience>, now: int, k: nat)
    requires k < |strategies|
    ensures Policies(strategies, fit, now)[k].strategy == strategies[k] && Policies(strategies, fit, now)[k].generated == now
  {}

  lemma PoliciesAreApart(fit: seq<Experience>, now: int)
    ensures PoliciesOf(Policies(STRATEGIES, fit, now), now)
  {
    var policies := Policies(STRATEGIES, fit, now);
    forall k | 0 <= k < |policies| ensures policies[k].generated == now && policies[k].strategy == STRATEGIES[k] {
      PolicyIsFor(STRATEGIES, fit, now, k);
    }
    forall j, k | 0 <= j < k < |policies| ensures policies[j].strategy != policies[k].strategy {
      StrategiesAreDistinct(j, k);
    }
  }

  lemma {:induction false} UnknownCandidatesAreAppended(log: seq<Candidate>, fresher: seq<Candidate>)
    requires DistinctCandidates(fresher) && forall c, d :: c in fresher && d in log ==> d.id != c.id
    ensures WithCandidates(log, fresher) == Some(log + fresher)
  {
    if fresher == [] {
      assert log + fresher == log;
    } else {
      var init, last := fresher[..|fresher| - 1], fresher[|fresher| - 1];
      assert last in fresher && fresher == init + [last];
      UnknownCandidatesAreAppended(log, init);
      assert forall d :: d in log + init ==> d.id != last.id;
      assert log + fresher == log + init + [last];
    }
  }

  // ----- Runs -----

  /** Every logged candidate was made at one of the moments. */
  ghost predicate MadeEarlier(ids: CandidateIds, cs: seq<Candidate>, moments: seq<Moment>) {
    forall c :: c in cs ==> exists k :: 0 <= k < |moments| && MadeAt(ids, c, moments[k].now)
  }

  lemma MadeEarlierExtends(ids: CandidateIds, cs: seq<Candidate>, moments: seq<Moment>, at: Moment)
    requires MadeEarlier(ids, cs, moments)
    ensures MadeEarlier(ids, cs, moments + [at])
  {
    forall c | c in cs ensures exists k :: 0 <= k < |moments + [at]| && MadeAt(ids, c, (moments + [at])[k].now) {
      var k :| 0 <= k < |moments| && MadeAt(ids, c, moments[k].now);
      assert (moments + [at])[k] == moments[k];
    }
  }

  lemma NewAreMadeNow(ids: Ids, logs: Logs, at: Moment)
    ensures MadeNow(ids.candidate, NewCandidates(ids, logs, at), Policies(STRATEGIES, Evidence(ids, logs, at), at.now), at.now)
  {
    var evidence := Evidence(ids, logs, at);
    PoliciesAreApart(evidence, at.now);
    CandidatesAreMadeNow(ids.candidate, Policies(STRATEGIES, evidence, at.now), at.market, evidence, at.now);
  }

  lemma TickMakesNow(ids: Ids, logs: Logs, moments: seq<Moment>, at: Moment)
    requires DistinctCandidates(logs.candidates) && MadeEarlier(ids.candidate, logs.candidates, moments)
    ensures forall c :: c in Ticked(ids, logs, at).candidates ==> c in logs.candidates || MadeAt(ids.candidate, c, at.now)
  {
    NewAreMadeNow(ids, logs, at);
    if WithCandidates(logs.candidates, NewCandidates(ids, logs, at)).Some? {
      CandidatesAppended(logs.candidates, NewCandidates(ids, logs, at));
    }
  }

  lemma MadeNowOrEarlier(ids: CandidateIds, cs: seq<Candidate>, more: seq<Candidate>, moments: seq<Moment>, at: Moment)
    requires MadeEarlier(ids, cs, moments) && forall c :: c in more ==> c in cs || MadeAt(ids, c, at.now)
    ensures MadeEarlier(ids, more, moments + [at])
  {
    MadeEarlierExtends(ids, cs, moments, at);
    assert (moments + [at])[|moments|] == at;
  }

  lemma OneTickMore(ids: Ids, logs: Logs, moments: seq<Moment>, at: Moment)
    requires DistinctCandidates(logs.candidates) && MadeEarlier(ids.candidate, logs.candidates, moments)
    ensures MadeEarlier(ids.candidate, Ticked(ids, logs, at).candidates, moments + [at])
  {
    TickMakesNow(ids, logs, moments, at);
    MadeNowOrEarlier(ids.candidate, logs.candidates, Ticked(ids, logs, at).candidates, moments, at);
  }

  lemma {:induction false} LoggedAreMadeEarlier(ids: Ids, moments: seq<Moment>)
    ensures MadeEarlier(ids.candidate, After(ids, moments).candidates, moments)
  {
    if moments != [] {
      var prefix, at := moments[..|moments| - 1], moments[|moments| - 1];
      assert moments == prefix + [at];
      LoggedAreMadeEarlier(ids, prefix);
      LogsStaySound(ids, prefix);
      OneTickMore(ids, After(ids, prefix), prefix, at);
    }
  }

  predicate NewMoment(moments: seq<Moment>, at: Moment) { forall k :: 0 <= k < |moments| ==> moments[k].now != at.now }

  /** At a moment the clock has not shown before, the candidates are appended as they are. */
  lemma CandidatesAreNeverRefused(ids: Ids, moments: seq<Moment>, at: Moment)
    requires TellsPoliciesApart(ids.candidate) && NewMoment(moments, at)
    ensures var logs := After(ids, moments);
            WithCandidates(logs.candidates, NewCandidates(ids, logs, at)) == Some(logs.candidates + NewCandidates(ids, logs, at))
  {
    var logs := After(ids, moments);
    var fresher := NewCandidates(ids, logs, at);
    LoggedAreMadeEarlier(ids, moments);
    NewAreMadeNow(ids, logs, at);
    forall j, k | 0 <= j < k < |fresher| ensures fresher[j].id != fresher[k].id {
      assert fresher[j] in fresher && fresher[k] in fresher;
      MadeApart(ids.candidate, fresher[j], at.now, fresher[k], at.now);
    }
    forall c, d | c in fresher && d in logs.candidates ensures d.id != c.id {
      var k :| 0 <= k < |moments| && MadeAt(ids.candidate, d, moments[k].now);
      MadeApart(ids.candidate, d, moments[k].now, c, at.now);
    }
    UnknownCandidatesAreAppended(logs.candidates, fresher);
  }

  /** So over runs a tick at a new moment stores every label if and only if no loaded candidate's own label has
      been forgotten. */
  lemma TickStoresLabelsIff(ids: Ids, moments: seq<Moment>, at: Moment)
    requires TellsPoliciesApart(ids.candidate) && NewMoment(moments, at)
    ensures var logs := After(ids, moments);
            (forall e :: e in NewLabels(ids, logs, at) ==> e in Ticked(ids, logs, at).experiences)
            <==> !exists k, c :: Relabels(logs, at, k, c)
  {
    LogsStaySound(ids, moments);
    CandidatesAreNeverRefused(ids, moments, at);
    ForgottenLabelsCostTheTick(ids, After(ids, moments), at);
  }
}
