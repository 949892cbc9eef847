/**
  The shadow strategy loop over a sequence of ticks: load the recent log records, label what is due, fit
  the policies, pick candidates, and append (scripts/mosaic-murmurs-paper-memory-loop.py:201-267,
  613-629, 832-834).  A record's durable identity is its candidate in both logs.
 */
module StrategyLoop {
  import opened Wrappers
  import opened Market
  import opened ShadowStrategy

  const LOAD_LIMIT := 10_000

  datatype Ids = Ids(candidate: CandidateIds, experience: ExperienceIds)

  datatype Logs = Logs(candidates: seq<Candidate>, experiences: seq<Experience>)

  datatype Moment = Moment(market: seq<Quote>, now: int)

  const STRATEGIES: seq<Strategy> :=
    [PredictionMarkets, CryptoMomentum, EquityWatch, LocalEventWatch, AiCyberWatch, CrossAssetMomentum, ContrarianReversion, VolatilityBarbell]

  // ----- One pass -----

  function Policies(strategies: seq<Strategy>, es: seq<Experience>, now: int): seq<Policy> {
    seq(|strategies|, k requires 0 <= k < |strategies| => PolicyFor(strategies[k], es, now))
  }

  method FitPolicy(s: Strategy, es: seq<Experience>, now: int) returns (policy: Policy)
    ensures policy == PolicyFor(s, es, now)
  {
    var matured := ResolvedExperiences(es, s, now);
    var mean := 0.0;
    if matured != [] {
      var total := TotalReturn(matured);
      mean := total / |matured| as real;
    }
    var weights := NormalizedWeights(RawWeights(s, matured));
    policy := Policy(s, weights, |matured|, IdsOf(LastOf(matured, MAX_RETRIEVED)), mean, now);
  }

  method SynthesizeShadowPolicies(es: seq<Experience>, now: int) returns (policies: seq<Policy>)
    ensures policies == Policies(STRATEGIES, es, now)
  {
    policies := [];
    for k := 0 to |STRATEGIES|
      invariant |policies| == k
      invariant forall j :: 0 <= j < k ==> policies[j] == PolicyFor(STRATEGIES[j], es, now)
    {
      var policy := FitPolicy(STRATEGIES[k], es, now);
      policies := policies + [policy];
    }
  }

  method TotalReturn(es: seq<Experience>) returns (total: real)
    ensures total == ReturnSum(es)
  {
    total := 0.0;
    for k := 0 to |es|
      invariant total == ReturnSum(es[..k])
    {
      assert es[..k + 1][..k] == es[..k];
      total := total + es[k].net;
    }
    assert es[..|es|] == es;
  }

  method ResolvedExperiences(es: seq<Experience>, s: Strategy, now: int) returns (resolved: seq<Experience>)
    ensures resolved == Resolved(es, s, now)
  {
    resolved := [];
    for k := 0 to |es|
      invariant resolved == Resolved(es[..k], s, now)
    {
      assert es[..k + 1][..k] == es[..k];
      if es[k].strategy == s && es[k].resolved <= now {
        resolved := InsertExperience(es[k], resolved);
      }
    }
    assert es[..|es|] == es;
  }

  function Candidates(ids: CandidateIds, policies: seq<Policy>, m: seq<Quote>, es: seq<Experience>, now: int): seq<Candidate> {
    if policies == [] then []
    else
      var c := CandidateFor(ids, policies[|policies| - 1], m, es, now);
      Candidates(ids, policies[..|policies| - 1], m, es, now) + if c.Some? then [c.value] else []
  }

  method GenerateShadowCandidates(ids: CandidateIds, policies: seq<Policy>, m: seq<Quote>, es: seq<Experience>, now: int)
    returns (candidates: seq<Candidate>)
    ensures candidates == Candidates(ids, policies, m, es, now)
  {
    candidates := [];
    for k := 0 to |policies|
      invariant candidates == Candidates(ids, policies[..k], m, es, now)
    {
      assert policies[..k + 1][..k] == policies[..k];
      var c := CandidateFor(ids, policies[k], m, es, now);
      if c.Some? {
        candidates := candidates + [c.value];
      }
    }
    assert policies[..|policies|] == policies;
  }

  // ----- Appending -----

  /** The log with the candidates it does not yet hold; None when one conflicts with a stored record. */
  function WithCandidates(log: seq<Candidate>, fresher: seq<Candidate>): Option<seq<Candidate>> {
    if fresher == [] then Some(log)
    else
      var before := WithCandidates(log, fresher[..|fresher| - 1]);
      var c := fresher[|fresher| - 1];
      if before.None? then None
      else if forall d :: d in before.value ==> d.id != c.id then Some(before.value + [c])
      else if c in before.value then before
      else None
  }

  function WithExperiences(log: seq<Experience>, fresher: seq<Experience>): Option<seq<Experience>> {
    if fresher == [] then Some(log)
    else
      var before := WithExperiences(log, fresher[..|fresher| - 1]);
      var e := fresher[|fresher| - 1];
      if before.None? then None
      else if forall d :: d in before.value ==> d.candidate != e.candidate then Some(before.value + [e])
      else if e in before.value then before
      else None
  }

  lemma {:induction false} CandidatesAppended(log: seq<Candidate>, fresher: seq<Candidate>)
    requires DistinctCandidates(log) && WithCandidates(log, fresher).Some?
    ensures var after := WithCandidates(log, fresher).value;
            && DistinctCandidates(after) && (forall c :: c in after <==> c in log || c in fresher)
            && |after| >= |log| && after[..|log|] == log
  {
    if fresher != [] {
      var init := fresher[..|fresher| - 1];
      CandidatesAppended(log, init);
      assert fresher == init + [fresher[|fresher| - 1]];
      var before := WithCandidates(log, init).value;
      assert forall k :: 0 <= k < |before| ==> before[k] in before;
    }
  }

  lemma {:induction false} ExperiencesAppended(log: seq<Experience>, fresher: seq<Experience>)
    requires OneEach(log) && WithExperiences(log, fresher).Some?
    ensures var after := WithExperiences(log, fresher).value;
            && OneEach(after) && (forall e :: e in after <==> e in log || e in fresher)
            && |after| >= |log| && after[..|log|] == log
  {
    if fresher != [] {
      var init := fresher[..|fresher| - 1];
      ExperiencesAppended(log, init);
      assert fresher == init + [fresher[|fresher| - 1]];
      var before := WithExperiences(log, init).value;
      assert forall k :: 0 <= k < |before| ==> before[k] in before;
    }
  }

  /** Appending distinct labels is refused exactly when a stored label of the same candidate differs. */
  lemma {:induction false} RefusedIffRelabelled(log: seq<Experience>, fresher: seq<Experience>)
    requires OneEach(log) && OneEach(fresher)
    ensures WithExperiences(log, fresher).None? <==> exists d, e :: d in log && e in fresher && d.candidate == e.candidate && d != e
  {
    if fresher != [] {
      var init := fresher[..|fresher| - 1];
      var last := fresher[|fresher| - 1];
      assert fresher == init + [last];
      RefusedIffRelabelled(log, init);
      if WithExperiences(log, init).Some? {
        ExperiencesAppended(log, init);
        LastDecides(log, init, last);
      }
    }
  }

  lemma LastDecides(log: seq<Experience>, init: seq<Experience>, last: Experience)
    requires OneEach(log) && OneEach(init + [last]) && WithExperiences(log, init).Some?
    ensures var before := WithExperiences(log, init).value;
            (last !in before && exists d :: d in before && d.candidate == last.candidate)
            <==> exists d :: d in log && d.candidate == last.candidate && d != last
  {
    ExperiencesAppended(log, init);
    var before := WithExperiences(log, init).value;
    forall d | d in init ensures d.candidate != last.candidate {
      var k :| 0 <= k < |init| && init[k] == d;
      assert (init + [last])[k] == d && (init + [last])[|init|] == last;
    }
    forall d, e | d in log && e in log && d.candidate == e.candidate ensures d == e {}
  }

  // ----- A tick -----

  function Loaded(logs: Logs): Logs { Logs(LastOf(logs.candidates, LOAD_LIMIT), LastOf(logs.experiences, LOAD_LIMIT)) }

  function NewLabels(ids: Ids, logs: Logs, at: Moment): seq<Experience> {
    Matured(ids.experience, Loaded(logs).candidates, Loaded(logs).experiences, at.market, at.now)
  }

  /** What the policies of the tick are fitted to. */
  function Evidence(ids: Ids, logs: Logs, at: Moment): seq<Experience> {
    Loaded(logs).experiences + NewLabels(ids, logs, at)
  }

  function NewCandidates(ids: Ids, logs: Logs, at: Moment): seq<Candidate> {
    var evidence := Evidence(ids, logs, at);
    Candidates(ids.candidate, Policies(STRATEGIES, evidence, at.now), at.market, evidence, at.now)
  }

  /** The candidates are appended first; a refused append ends the tick. */
  function Ticked(ids: Ids, logs: Logs, at: Moment): Logs {
    match WithCandidates(logs.candidates, NewCandidates(ids, logs, at))
    case None => logs
    case Some(cs) =>
      match WithExperiences(logs.experiences, NewLabels(ids, logs, at))
      case None => Logs(cs, logs.experiences)
      case Some(es) => Logs(cs, es)
  }

  function After(ids: Ids, moments: seq<Moment>): Logs {
    if moments == [] then Logs([], []) else Ticked(ids, After(ids, moments[..|moments| - 1]), moments[|moments| - 1])
  }

  // ----- Invariant -----

  predicate CandidateOk(c: Candidate) {
    c.featureEnd <= c.decided && c.available == c.decided + c.horizon * HOUR && c.horizon == LABEL_HORIZON && WholeSeconds(c.available)
  }

  /** A label belongs to a logged candidate, and its mark lies between that candidate's horizon and the
      moment it was resolved. */
  predicate LabelOk(ids: ExperienceIds, cs: seq<Candidate>, e: Experience) {
    LabelInWindow(e) && exists c :: c in cs && MadeFrom(ids, c, e)
  }

  predicate LogsOk(ids: Ids, logs: Logs) {
    && DistinctCandidates(logs.candidates) && OneEach(logs.experiences)
    && (forall c :: c in logs.candidates ==> CandidateOk(c))
    && forall e :: e in logs.experiences ==> LabelOk(ids.experience, logs.candidates, e)
  }

  lemma LastOfMembers<T>(s: seq<T>, limit: nat)
    ensures forall x :: x in LastOf(s, limit) ==> x in s
  {}

  lemma LastOfDistinct(cs: seq<Candidate>, limit: nat)
    requires DistinctCandidates(cs)
    ensures DistinctCandidates(LastOf(cs, limit))
  {}

  lemma {:induction false} CandidatesAreOk(ids: CandidateIds, policies: seq<Policy>, m: seq<Quote>, es: seq<Experience>, now: int)
    ensures forall c :: c in Candidates(ids, policies, m, es, now) ==> CandidateOk(c) && c.decided <= now
  {
    if policies != [] {
      CandidatesAreOk(ids, policies[..|policies| - 1], m, es, now);
      if CandidateFor(ids, policies[|policies| - 1], m, es, now).Some? {
        CandidatesLookBack(ids, policies[|policies| - 1], m, es, now);
      }
    }
  }

  /** Every label of a tick is sound, new among the loaded ones, and the only one for its candidate. */
  lemma NewLabelsAreOk(ids: Ids, logs: Logs, at: Moment)
    requires LogsOk(ids, logs)
    ensures OneEach(NewLabels(ids, logs, at))
    ensures forall e :: e in NewLabels(ids, logs, at) ==>
              LabelOk(ids.experience, logs.candidates, e) && e.resolved <= at.now && !Known(Loaded(logs).experiences, e.candidate)
  {
    var cs := Loaded(logs).candidates;
    LastOfMembers(logs.candidates, LOAD_LIMIT);
    LastOfDistinct(logs.candidates, LOAD_LIMIT);
    MaturedOnce(ids.experience, cs, Loaded(logs).experiences, at.market, at.now);
    MaturedComesFrom(ids.experience, cs, Loaded(logs).experiences, at.market, at.now);
    forall e | e in NewLabels(ids, logs, at) ensures LabelOk(ids.experience, logs.candidates, e) && e.resolved <= at.now {
      var c :| c in cs && Label(ids.experience, c, at.market, at.now) == Some(e);
      assert CandidateOk(c);
      LabelsAreInWindow(ids.experience, c, at.market, at.now);
    }
  }

  lemma LabelsSurvive(ids: ExperienceIds, cs: seq<Candidate>, more: seq<Candidate>, e: Experience)
    requires LabelOk(ids, cs, e) && forall c :: c in cs ==> c in more
    ensures LabelOk(ids, more, e)
  {}

  lemma TickKeepsLogs(ids: Ids, logs: Logs, at: Moment)
    requires LogsOk(ids, logs)
    ensures var after := Ticked(ids, logs, at);
            && LogsOk(ids, after)
            && (forall e :: e in after.experiences ==> e in logs.experiences || e.resolved <= at.now)
            && forall c :: c in after.candidates ==> c in logs.candidates || c.decided <= at.now
  {
    var picked := NewCandidates(ids, logs, at);
    var evidence := Evidence(ids, logs, at);
    CandidatesAreOk(ids.candidate, Policies(STRATEGIES, evidence, at.now), at.market, evidence, at.now);
    NewLabelsAreOk(ids, logs, at);
    if WithCandidates(logs.candidates, picked).Some? {
      CandidatesAppended(logs.candidates, picked);
      if WithExperiences(logs.experiences, NewLabels(ids, logs, at)).Some? {
        ExperiencesAppended(logs.experiences, NewLabels(ids, logs, at));
      }
      var after := Ticked(ids, logs, at);
      forall e | e in after.experiences ensures LabelOk(ids.experience, after.candidates, e) {
        LabelsSurvive(ids.experience, logs.candidates, after.candidates, e);
      }
    }
  }

  // ----- Theorems over runs -----

  /** Over any run, each candidate has at most one label, every label mark lies between its candidate's
      horizon and its resolution, and every feature window ends by its decision. */
  lemma {:induction false} LogsStaySound(ids: Ids, moments: seq<Moment>)
    ensures LogsOk(ids, After(ids, moments))
  {
    if moments != [] {
      var prefix := moments[..|moments| - 1];
      LogsStaySound(ids, prefix);
      TickKeepsLogs(ids, After(ids, prefix), moments[|moments| - 1]);
    }
  }

  predicate InTimeOrder(moments: seq<Moment>) { forall j, k :: 0 <= j < k < |moments| ==> moments[j].now <= moments[k].now }

  /** With a clock that does not run back, everything logged was known by the last tick. */
  lemma {:induction false} LogsAreKnown(ids: Ids, moments: seq<Moment>, now: int)
    requires InTimeOrder(moments) && (moments != [] ==> moments[|moments| - 1].now <= now)
    ensures forall e :: e in After(ids, moments).experiences ==> e.resolved <= now
    ensures forall c :: c in After(ids, moments).candidates ==> c.decided <= now
  {
    if moments != [] {
      var prefix := moments[..|moments| - 1];
      LogsStaySound(ids, prefix);
      LogsAreKnown(ids, prefix, now);
      TickKeepsLogs(ids, After(ids, prefix), moments[|moments| - 1]);
    }
  }

  /** The policies of a tick are fitted to exactly the strategy's evidence, all of it marked and resolved by
      that tick; records resolved later could not change them. */
  lemma PoliciesSeeOnlyThePast(ids: Ids, moments: seq<Moment>, at: Moment, s: Strategy, later: seq<Experience>)
    requires InTimeOrder(moments + [at])
    requires forall e :: e in later ==> e.resolved > at.now
    ensures var evidence := Evidence(ids, After(ids, moments), at);
            && (forall e :: e in evidence ==> e.markAsOf <= e.resolved <= at.now)
            && (forall e :: multiset(Resolved(evidence, s, at.now))[e] == if e.strategy == s then multiset(evidence)[e] else 0)
            && PolicyFor(s, evidence + later, at.now) == PolicyFor(s, evidence, at.now)
  {
    var logs := After(ids, moments);
    var evidence := Evidence(ids, logs, at);
    assert forall k :: 0 <= k < |moments| ==> (moments + [at])[k] == moments[k];
    assert (moments + [at])[|moments|] == at;
    LogsStaySound(ids, moments);
    LogsAreKnown(ids, moments, at.now);
    NewLabelsAreOk(ids, logs, at);
    LastOfMembers(logs.experiences, LOAD_LIMIT);
    forall e | e in evidence ensures e.markAsOf <= e.resolved <= at.now {
      if e in Loaded(logs).experiences { assert LabelOk(ids.experience, logs.candidates, e); }
    }
    ResolvedMembers(evidence, s, at.now);
    forall e ensures multiset(Resolved(evidence, s, at.now))[e] == if e.strategy == s then multiset(evidence)[e] else 0 {
      if multiset(evidence)[e] > 0 { assert e in evidence; }
    }
    PolicyIgnoresLaterExperience(s, evidence, later, at.now);
  }

  lemma {:induction false} UnknownLabelsAreAppended(log: seq<Experience>, fresher: seq<Experience>)
    requires OneEach(fresher) && forall e :: e in fresher ==> !Known(log, e.candidate)
    ensures WithExperiences(log, fresher) == Some(log + fresher)
  {
    if fresher == [] {
      assert log + fresher == log;
    } else {
      var init := fresher[..|fresher| - 1];
      var last := fresher[|fresher| - 1];
      UnknownLabelsAreAppended(log, init);
      assert last in fresher && fresher == init + [last];
      assert forall d :: d in log + init ==> d.candidate != last.candidate;
      assert log + fresher == log + init + [last];
    }
  }

  /** While the whole log is loaded, no candidate is labelled again and the labels are appended as they
      are. */
  lemma LoadedLogsAreNeverRelabelled(ids: Ids, logs: Logs, at: Moment)
    requires LogsOk(ids, logs) && |logs.experiences| <= LOAD_LIMIT
    ensures forall e :: e in NewLabels(ids, logs, at) ==> !Known(logs.experiences, e.candidate)
    ensures WithExperiences(logs.experiences, NewLabels(ids, logs, at)) == Some(logs.experiences + NewLabels(ids, logs, at))
  {
    NewLabelsAreOk(ids, logs, at);
    UnknownLabelsAreAppended(logs.experiences, NewLabels(ids, logs, at));
  }

  /** A label is refused only after its candidate's first label fell out of the loaded records. */
  lemma RefusalMeansForgotten(ids: Ids, logs: Logs, at: Moment)
    requires LogsOk(ids, logs) && WithExperiences(logs.experiences, NewLabels(ids, logs, at)).None?
    ensures |logs.experiences| > LOAD_LIMIT
    ensures exists d, e :: d in logs.experiences[..|logs.experiences| - LOAD_LIMIT] && e in NewLabels(ids, logs, at)
                           && d.candidate == e.candidate && d != e
  {
    if |logs.experiences| <= LOAD_LIMIT {
      LoadedLogsAreNeverRelabelled(ids, logs, at);
    }
    NewLabelsAreOk(ids, logs, at);
    RefusedIffRelabelled(logs.experiences, NewLabels(ids, logs, at));
    var d, e :| d in logs.experiences && e in NewLabels(ids, logs, at) && d.candidate == e.candidate && d != e;
    var cut := |logs.experiences| - LOAD_LIMIT;
    assert logs.experiences == logs.experiences[..cut] + logs.experiences[cut..];
    assert d !in logs.experiences[cut..];
  }
}
