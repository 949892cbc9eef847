/**
  When a candidate is labelled again.  A tick loads the last 10,000 records of each log
  (scripts/mosaic-murmurs-paper-memory-loop.py:250-267, 613-619); a label that has left them is forgotten, and
  relabelling its candidate makes append_jsonl refuse the tick's labels.
 */
module ForgottenLabels {
  import opened Wrappers
  import opened Market
  import opened ShadowStrategy
  import opened StrategyLoop

  /** The k-th label is no longer loaded, its candidate still is, is due, and has a usable fresh quote whose
      mark, time or second of resolution is not the recorded one. */
  predicate Relabels(logs: Logs, at: Moment, k: nat, c: Candidate) {
    && k < |logs.experiences| - LOAD_LIMIT && c in Loaded(logs).candidates && logs.experiences[k].candidate == c.id
    && Due(c, at.now)
    && var q := LastFresh(at.market, c.ref, at.now);
    && q.Some? && Usable(c, q.value, at.now)
    && (logs.experiences[k].mark, logs.experiences[k].markAsOf, logs.experiences[k].resolved)
       != (q.value.mark, Recorded(q.value.asOf), Recorded(at.now))
  }

  lemma ForgottenIsUnknown(logs: Logs, k: nat)
    requires OneEach(logs.experiences) && k < |logs.experiences| - LOAD_LIMIT
    ensures !Known(Loaded(logs).experiences, logs.experiences[k].candidate)
  {
    var cut := |logs.experiences| - LOAD_LIMIT;
    forall e | e in logs.experiences[cut..] ensures e.candidate != logs.experiences[k].candidate {
      var j :| 0 <= j < |logs.experiences[cut..]| && logs.experiences[cut..][j] == e;
      assert logs.experiences[cut + j] == e;
    }
  }

  lemma RelabellingIsRefused(ids: Ids, logs: Logs, at: Moment, k: nat, c: Candidate)
    requires LogsOk(ids, logs) && Relabels(logs, at, k, c)
    ensures WithExperiences(logs.experiences, NewLabels(ids, logs, at)).None?
    ensures exists e :: e in NewLabels(ids, logs, at) && e !in logs.experiences
  {
    var q := LastFresh(at.market, c.ref, at.now).value;
    var e := Labelled(ids.experience, c, q, at.now);
    ForgottenIsUnknown(logs, k);
    MaturedHas(ids.experience, Loaded(logs).candidates, Loaded(logs).experiences, at.market, at.now, c);
    NewLabelsAreOk(ids, logs, at);
    RefusedIffRelabelled(logs.experiences, NewLabels(ids, logs, at));
    var d := logs.experiences[k];
    assert d in logs.experiences && e in NewLabels(ids, logs, at) && d.candidate == e.candidate && d != e;
    forall x | x in logs.experiences ensures x != e {
      var j :| 0 <= j < |logs.experiences| && logs.experiences[j] == x;
    }
  }

  lemma SameCandidate(cs: seq<Candidate>, c: Candidate, d: Candidate)
    requires DistinctCandidates(cs) && c in cs && d in cs && c.id == d.id
    ensures c == d
  {}

  /** The candidate of a new label, when it has an older one in the log. */
  lemma CandidateOfLabel(ids: Ids, logs: Logs, at: Moment, d: Experience, e: Experience) returns (c: Candidate)
    requires LogsOk(ids, logs) && d in logs.experiences && e in NewLabels(ids, logs, at) && d.candidate == e.candidate
    ensures c in Loaded(logs).candidates && Label(ids.experience, c, at.market, at.now) == Some(e) && MadeFrom(ids.experience, c, d)
  {
    MaturedComesFrom(ids.experience, Loaded(logs).candidates, Loaded(logs).experiences, at.market, at.now);
    c :| c in Loaded(logs).candidates && Label(ids.experience, c, at.market, at.now) == Some(e);
    LastOfMembers(logs.candidates, LOAD_LIMIT);
    assert LabelOk(ids.experience, logs.candidates, d);
    var made :| made in logs.candidates && MadeFrom(ids.experience, made, d);
    SameCandidate(logs.candidates, made, c);
  }

  lemma RefusalNamesCandidate(ids: Ids, logs: Logs, at: Moment) returns (k: nat, c: Candidate)
    requires LogsOk(ids, logs) && WithExperiences(logs.experiences, NewLabels(ids, logs, at)).None?
    ensures Relabels(logs, at, k, c)
  {
    RefusalMeansForgotten(ids, logs, at);
    var cut := |logs.experiences| - LOAD_LIMIT;
    var d, e :| d in logs.experiences[..cut] && e in NewLabels(ids, logs, at) && d.candidate == e.candidate && d != e;
    k :| 0 <= k < |logs.experiences[..cut]| && logs.experiences[..cut][k] == d;
    c := CandidateOfLabel(ids, logs, at, d, e);
  }

  /** The labels of a tick are refused if and only if a loaded candidate, due and with a usable quote, has a
      differing label among the records that are no longer loaded. */
  lemma RefusedIffForgotten(ids: Ids, logs: Logs, at: Moment)
    requires LogsOk(ids, logs)
    ensures WithExperiences(logs.experiences, NewLabels(ids, logs, at)).None? <==> exists k, c :: Relabels(logs, at, k, c)
  {
    if WithExperiences(logs.experiences, NewLabels(ids, logs, at)).None? {
      var k, c := RefusalNamesCandidate(ids, logs, at);
    }
    forall k, c | Relabels(logs, at, k, c) ensures WithExperiences(logs.experiences, NewLabels(ids, logs, at)).None? {
      RelabellingIsRefused(ids, logs, at, k, c);
    }
  }

  /** Then the tick loses all its labels; otherwise, unless its candidates were refused, it stores each. */
  lemma ForgottenLabelsCostTheTick(ids: Ids, logs: Logs, at: Moment)
    requires LogsOk(ids, logs)
    ensures (exists k, c :: Relabels(logs, at, k, c)) ==>
              && Ticked(ids, logs, at).experiences == logs.experiences
              && exists e :: e in NewLabels(ids, logs, at) && e !in Ticked(ids, logs, at).experiences
    ensures !(exists k, c :: Relabels(logs, at, k, c)) && WithCandidates(logs.candidates, NewCandidates(ids, logs, at)).Some? ==>
              forall e :: e in NewLabels(ids, logs, at) ==> e in Ticked(ids, logs, at).experiences
  {
    RefusedIffForgotten(ids, logs, at);
    if k, c :| Relabels(logs, at, k, c) {
      RelabellingIsRefused(ids, logs, at, k, c);
    } else {
      ExperiencesAppended(logs.experiences, NewLabels(ids, logs, at));
    }
  }

  // ----- An input that meets it -----

  function CandidateNo(k: nat): Candidate {
    Candidate(k, CryptoMomentum, 0, 0, 0, LABEL_HORIZON, LABEL_HORIZON * HOUR, Zeroes(0.0), [], 1, 1.0, 0.0, Watching)
  }

  function Zeroes(z: real): Features { Features(z, z, z, z) }

  function LabelNo(ids: Ids, k: nat): Experience {
    LabelRecord(ids.experience, CandidateNo(k), 1.0, LABEL_HORIZON * HOUR, LABEL_HORIZON * HOUR)
  }

  lemma LabelNoFacts(ids: Ids, k: nat)
    ensures var e := LabelNo(ids, k);
            && e.candidate == k && e.mark == 1.0 && e.markAsOf == e.resolved == LABEL_HORIZON * HOUR
            && LabelInWindow(e) && MadeFrom(ids.experience, CandidateNo(k), e)
  {}

  /** The candidate whose label is the k-th: the last candidate was labelled first. */
  function Labels(k: nat): nat { if k == 0 then LOAD_LIMIT else k - 1 }

  /** One candidate more than is loaded. */
  function FullLogs(ids: Ids): Logs {
    Logs(seq(LOAD_LIMIT + 1, k requires 0 <= k <= LOAD_LIMIT => CandidateNo(k)),
         seq(LOAD_LIMIT + 1, k requires 0 <= k <= LOAD_LIMIT => LabelNo(ids, Labels(k))))
  }

  /** A second after those labels, with a fresh quote. */
  function Later(): Moment {
    var now := LABEL_HORIZON * HOUR + SECOND;
    Moment([Quote(0, Crypto, {}, false, true, now, now, 1.0, 0.0, Zeroes(0.0))], now)
  }

  lemma FullLogsLabels(ids: Ids)
    ensures var logs := FullLogs(ids);
            && OneEach(logs.experiences)
            && forall e :: e in logs.experiences ==> LabelOk(ids.experience, logs.candidates, e)
  {
    var logs := FullLogs(ids);
    forall k | 0 <= k <= LOAD_LIMIT
      ensures logs.experiences[k].candidate == Labels(k) && LabelOk(ids.experience, logs.candidates, logs.experiences[k])
    {
      LabelNoFacts(ids, Labels(k));
      assert logs.candidates[Labels(k)] == CandidateNo(Labels(k));
    }
  }

  lemma FullLogsAreOk(ids: Ids)
    ensures LogsOk(ids, FullLogs(ids))
  {
    FullLogsLabels(ids);
  }

  lemma LaterIsUsable()
    ensures var c := CandidateNo(LOAD_LIMIT);
            && Due(c, Later().now) && LastFresh(Later().market, 0, Later().now) == Some(Later().market[0])
            && Usable(c, Later().market[0], Later().now) && Recorded(Later().now) == LABEL_HORIZON * HOUR + SECOND
  {}

  lemma LastIsLoaded(ids: Ids)
    ensures CandidateNo(LOAD_LIMIT) in Loaded(FullLogs(ids)).candidates
  {
    var logs := FullLogs(ids);
    assert logs.candidates[1..][LOAD_LIMIT - 1] == CandidateNo(LOAD_LIMIT);
  }

  /** Sound logs with one label too many and a fresh quote: the tick is refused its labels. */
  lemma FullLogsForget(ids: Ids)
    ensures LogsOk(ids, FullLogs(ids)) && Relabels(FullLogs(ids), Later(), 0, CandidateNo(LOAD_LIMIT))
    ensures WithExperiences(FullLogs(ids).experiences, NewLabels(ids, FullLogs(ids), Later())).None?
  {
    FullLogsAreOk(ids);
    LaterIsUsable();
    LastIsLoaded(ids);
    LabelNoFacts(ids, LOAD_LIMIT);
    assert FullLogs(ids).experiences[0] == LabelNo(ids, LOAD_LIMIT);
    RelabellingIsRefused(ids, FullLogs(ids), Later(), 0, CandidateNo(LOAD_LIMIT));
  }
}
