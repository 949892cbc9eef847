/**
  The candidate and experience logs as record files: append_jsonl does to the files what the strategy loop does to
  its logs, whatever crashes and retries come before (scripts/mosaic-murmurs-paper-memory-loop.py:201-247,
  613-629, 832-834).
 */
module StrategyRecords {
  import opened Wrappers
  import opened Market
  import opened ShadowStrategy
  import opened StrategyLoop
  import opened ForgottenLabels
  import opened FreshCandidates
  import JournalLog
  import Journal

  type Record = JournalLog.Record

  /** How records are written: the text of an id, and everything that does not identify the record. */
  datatype Writing = Writing(name: nat -> string, candidate: Candidate -> string, experience: Experience -> string)

  ghost predicate GoodWriting(w: Writing) {
    && (forall k: nat :: w.name(k) != "")
    && forall j: nat, k: nat :: w.name(j) == w.name(k) ==> j == k
  }

  function CandidateRecord(w: Writing, c: Candidate): Record {
    JournalLog.Record(map[JournalLog.CandidateId := w.name(c.id)], w.candidate(c))
  }

  function ExperienceRecord(w: Writing, e: Experience): Record {
    JournalLog.Record(map[JournalLog.CandidateId := w.name(e.candidate), JournalLog.ExperienceId := w.name(e.id)], w.experience(e))
  }

  function CandidateRecords(w: Writing, cs: seq<Candidate>): seq<Record> {
    seq(|cs|, k requires 0 <= k < |cs| => CandidateRecord(w, cs[k]))
  }

  function ExperienceRecords(w: Writing, es: seq<Experience>): seq<Record> {
    seq(|es|, k requires 0 <= k < |es| => ExperienceRecord(w, es[k]))
  }

  /** Both are filed under their candidate. */
  lemma FiledUnderCandidate(r: Record)
    requires JournalLog.EventId !in r.ids && JournalLog.DecisionId !in r.ids
    requires JournalLog.CandidateId in r.ids && r.ids[JournalLog.CandidateId] != ""
    ensures JournalLog.RecordIdentity(r) == JournalLog.ByKey(JournalLog.CandidateId, r.ids[JournalLog.CandidateId])
  {
    var keys := JournalLog.ID_KEYS;
    assert keys[1..][0] == JournalLog.DecisionId && keys[1..][1..][0] == JournalLog.CandidateId;
    assert JournalLog.FirstIdentity(r, keys) == JournalLog.FirstIdentity(r, keys[1..]);
    assert JournalLog.FirstIdentity(r, keys[1..]) == JournalLog.FirstIdentity(r, keys[1..][1..]);
  }

  lemma CandidateIdentity(w: Writing, c: Candidate)
    requires GoodWriting(w)
    ensures JournalLog.RecordIdentity(CandidateRecord(w, c)) == JournalLog.ByKey(JournalLog.CandidateId, w.name(c.id))
  {
    FiledUnderCandidate(CandidateRecord(w, c));
  }

  lemma ExperienceIdentity(w: Writing, e: Experience)
    requires GoodWriting(w)
    ensures JournalLog.RecordIdentity(ExperienceRecord(w, e)) == JournalLog.ByKey(JournalLog.CandidateId, w.name(e.candidate))
  {
    FiledUnderCandidate(ExperienceRecord(w, e));
  }

  /** Of these no two differ without their records differing. */
  predicate CandidatesTold(w: Writing, cs: seq<Candidate>) {
    forall c, d :: c in cs && d in cs && CandidateRecord(w, c) == CandidateRecord(w, d) ==> c == d
  }

  predicate ExperiencesTold(w: Writing, es: seq<Experience>) {
    forall d, e :: d in es && e in es && ExperienceRecord(w, d) == ExperienceRecord(w, e) ==> d == e
  }

  // ----- Candidates -----

  lemma CandidatesAgree(w: Writing, cs: seq<Candidate>, j: nat, k: nat)
    requires GoodWriting(w) && DistinctCandidates(cs) && j < |cs| && k < |cs|
    ensures JournalLog.Agree(CandidateRecord(w, cs[j]), CandidateRecord(w, cs[k]))
  {
    CandidateIdentity(w, cs[j]);
    CandidateIdentity(w, cs[k]);
  }

  lemma DistinctCandidatesAgree(w: Writing, cs: seq<Candidate>)
    requires GoodWriting(w) && DistinctCandidates(cs)
    ensures JournalLog.Consistent(CandidateRecords(w, cs))
  {
    var rs := CandidateRecords(w, cs);
    forall a, b | a in rs && b in rs ensures JournalLog.Agree(a, b) {
      var j :| 0 <= j < |cs| && rs[j] == a;
      var k :| 0 <= k < |cs| && rs[k] == b;
      CandidatesAgree(w, cs, j, k);
    }
  }

  lemma CandidateIsNamed(w: Writing, cs: seq<Candidate>, c: Candidate)
    requires GoodWriting(w) && c in cs
    ensures CandidateRecord(w, c) in CandidateRecords(w, cs)
  {
    var k :| 0 <= k < |cs| && cs[k] == c;
    assert CandidateRecords(w, cs)[k] == CandidateRecord(w, c);
  }

  lemma OneCandidateMore(w: Writing, cs: seq<Candidate>, c: Candidate)
    requires GoodWriting(w) && CandidatesTold(w, cs + [c])
    ensures JournalLog.Named(CandidateRecords(w, cs), CandidateRecord(w, c)) <==> exists d :: d in cs && d.id == c.id
    ensures CandidateRecord(w, c) in CandidateRecords(w, cs) <==> c in cs
  {
    var rs := CandidateRecords(w, cs);
    CandidateIdentity(w, c);
    forall d | d in cs
      ensures CandidateRecord(w, d) in rs
      ensures JournalLog.RecordIdentity(CandidateRecord(w, d)) == JournalLog.ByKey(JournalLog.CandidateId, w.name(d.id))
    {
      CandidateIsNamed(w, cs, d);
      CandidateIdentity(w, d);
    }
    forall r | r in rs ensures exists d :: d in cs && r == CandidateRecord(w, d) {
      var k :| 0 <= k < |rs| && rs[k] == r;
      assert cs[k] in cs;
    }
  }

  lemma RecordsOfOne(w: Writing, cs: seq<Candidate>, c: Candidate)
    ensures CandidateRecords(w, cs + [c]) == CandidateRecords(w, cs) + [CandidateRecord(w, c)]
  {}

  function CandidatesOnFile(w: Writing, cs: Option<seq<Candidate>>): Option<seq<Record>> {
    match cs case None => None case Some(kept) => Some(CandidateRecords(w, kept))
  }

  /** Appending the records of candidates is appending the candidates, and it is refused when that is. */
  lemma {:induction false} CandidateFileIsLog(w: Writing, log: seq<Candidate>, fresher: seq<Candidate>)
    requires GoodWriting(w) && DistinctCandidates(log) && CandidatesTold(w, log + fresher)
    ensures JournalLog.Appended(CandidateRecords(w, log), CandidateRecords(w, fresher)) == CandidatesOnFile(w, WithCandidates(log, fresher))
  {
    if fresher != [] {
      var init, c := fresher[..|fresher| - 1], fresher[|fresher| - 1];
      assert fresher == init + [c];
      CandidateFileIsLog(w, log, init);
      DistinctCandidatesAgree(w, log);
      RecordsOfOne(w, init, c);
      JournalLog.AppendedOneMore(CandidateRecords(w, log), CandidateRecords(w, init), CandidateRecord(w, c));
      if WithCandidates(log, init).Some? {
        CandidatesAppended(log, init);
        OneCandidateMore(w, WithCandidates(log, init).value, c);
        RecordsOfOne(w, WithCandidates(log, init).value, c);
      }
    }
  }

  // ----- Experiences -----

  lemma LabelsAgree(w: Writing, es: seq<Experience>, j: nat, k: nat)
    requires GoodWriting(w) && OneEach(es) && j < |es| && k < |es|
    ensures JournalLog.Agree(ExperienceRecord(w, es[j]), ExperienceRecord(w, es[k]))
  {
    ExperienceIdentity(w, es[j]);
    ExperienceIdentity(w, es[k]);
  }

  lemma DistinctLabelsAgree(w: Writing, es: seq<Experience>)
    requires GoodWriting(w) && OneEach(es)
    ensures JournalLog.Consistent(ExperienceRecords(w, es))
  {
    var rs := ExperienceRecords(w, es);
    forall a, b | a in rs && b in rs ensures JournalLog.Agree(a, b) {
      var j :| 0 <= j < |es| && rs[j] == a;
      var k :| 0 <= k < |es| && rs[k] == b;
      LabelsAgree(w, es, j, k);
    }
  }

  lemma LabelIsNamed(w: Writing, es: seq<Experience>, e: Experience)
    requires GoodWriting(w) && e in es
    ensures ExperienceRecord(w, e) in ExperienceRecords(w, es)
  {
    var k :| 0 <= k < |es| && es[k] == e;
    assert ExperienceRecords(w, es)[k] == ExperienceRecord(w, e);
  }

  lemma OneLabelMore(w: Writing, es: seq<Experience>, e: Experience)
    requires GoodWriting(w) && ExperiencesTold(w, es + [e])
    ensures JournalLog.Named(ExperienceRecords(w, es), ExperienceRecord(w, e)) <==> exists d :: d in es && d.candidate == e.candidate
    ensures ExperienceRecord(w, e) in ExperienceRecords(w, es) <==> e in es
  {
    var rs := ExperienceRecords(w, es);
    ExperienceIdentity(w, e);
    forall d | d in es
      ensures ExperienceRecord(w, d) in rs
      ensures JournalLog.RecordIdentity(ExperienceRecord(w, d)) == JournalLog.ByKey(JournalLog.CandidateId, w.name(d.candidate))
    {
      LabelIsNamed(w, es, d);
      ExperienceIdentity(w, d);
    }
    forall r | r in rs ensures exists d :: d in es && r == ExperienceRecord(w, d) {
      var k :| 0 <= k < |rs| && rs[k] == r;
      assert es[k] in es;
    }
  }

  lemma LabelsOfOne(w: Writing, es: seq<Experience>, e: Experience)
    ensures ExperienceRecords(w, es + [e]) == ExperienceRecords(w, es) + [ExperienceRecord(w, e)]
  {}

  function LabelsOnFile(w: Writing, es: Option<seq<Experience>>): Option<seq<Record>> {
    match es case None => None case Some(kept) => Some(ExperienceRecords(w, kept))
  }

  /** And so for labels. */
  lemma {:induction false} LabelFileIsLog(w: Writing, log: seq<Experience>, fresher: seq<Experience>)
    requires GoodWriting(w) && OneEach(log) && ExperiencesTold(w, log + fresher)
    ensures JournalLog.Appended(ExperienceRecords(w, log), ExperienceRecords(w, fresher)) == LabelsOnFile(w, WithExperiences(log, fresher))
  {
    if fresher != [] {
      var init, e := fresher[..|fresher| - 1], fresher[|fresher| - 1];
      assert fresher == init + [e];
      LabelFileIsLog(w, log, init);
      DistinctLabelsAgree(w, log);
      LabelsOfOne(w, init, e);
      JournalLog.AppendedOneMore(ExperienceRecords(w, log), ExperienceRecords(w, init), ExperienceRecord(w, e));
      if WithExperiences(log, init).Some? {
        ExperiencesAppended(log, init);
        OneLabelMore(w, WithExperiences(log, init).value, e);
        LabelsOfOne(w, WithExperiences(log, init).value, e);
      }
    }
  }

  // ----- Crash safety of the two logs -----

  const CANDIDATE_LOG: Journal.LogIndex := 4
  const EXPERIENCE_LOG: Journal.LogIndex := 5

  /** The two files hold the records of these logs. */
  ghost predicate OnFile(w: Writing, ids: Ids, logs: Logs, d: Journal.Disk) {
    && LogsOk(ids, logs)
    && d.logs[CANDIDATE_LOG] == CandidateRecords(w, logs.candidates)
    && d.logs[EXPERIENCE_LOG] == ExperienceRecords(w, logs.experiences)
  }

  /** The two batches are what the loop makes of the logs at a moment. */
  ghost predicate MadeOf(w: Writing, ids: Ids, logs: Logs, at: Moment, batches: Journal.Logs) {
    var cs, es := NewCandidates(ids, logs, at), NewLabels(ids, logs, at);
    && batches[CANDIDATE_LOG] == CandidateRecords(w, cs) && CandidatesTold(w, logs.candidates + cs)
    && batches[EXPERIENCE_LOG] == ExperienceRecords(w, es) && ExperiencesTold(w, logs.experiences + es)
  }

  /** Every attempt that started before the ledger was written took the logs as they are on file. */
  ghost predicate AttemptsOf(w: Writing, ids: Ids, logs: Logs, d0: Journal.Disk, events: seq<Journal.Event>) {
    forall p :: p in Journal.MadeInTime(d0, events) ==> exists at :: MadeOf(w, ids, logs, at, p.records)
  }

  lemma FilesAfterAppend(w: Writing, ids: Ids, logs: Logs, at: Moment, d0: Journal.Disk, batches: Journal.Logs, d: Journal.Disk)
    requires GoodWriting(w) && OnFile(w, ids, logs, d0) && MadeOf(w, ids, logs, at, batches)
    requires JournalLog.Appended(d0.logs[CANDIDATE_LOG], batches[CANDIDATE_LOG]) == Some(d.logs[CANDIDATE_LOG])
    requires JournalLog.Appended(d0.logs[EXPERIENCE_LOG], batches[EXPERIENCE_LOG]) == Some(d.logs[EXPERIENCE_LOG])
    ensures WithCandidates(logs.candidates, NewCandidates(ids, logs, at)).Some?
    ensures WithExperiences(logs.experiences, NewLabels(ids, logs, at)).Some?
    ensures OnFile(w, ids, Ticked(ids, logs, at), d)
  {
    CandidateFileIsLog(w, logs.candidates, NewCandidates(ids, logs, at));
    LabelFileIsLog(w, logs.experiences, NewLabels(ids, logs, at));
    TickKeepsLogs(ids, logs, at);
  }

  /** Whatever crashes and same-key retries came before, a completed tick leaves the two files as one undisturbed
      pass of the loop at one moment leaves the logs, with nothing refused. */
  lemma CrashSafeStrategyLogs(w: Writing, ids: Ids, logs: Logs, d0: Journal.Disk, key: string, events: seq<Journal.Event>)
    returns (at: Moment)
    requires GoodWriting(w) && OnFile(w, ids, logs, d0) && key !in d0.ledger.processed && Journal.OnlyKey(events, key)
    requires AttemptsOf(w, ids, logs, d0, events) && Journal.Run(Journal.System(d0, Journal.Stopped), events).phase.Completed?
    ensures var d := Journal.Run(Journal.System(d0, Journal.Stopped), events).disk;
            key in d.replays && MadeOf(w, ids, logs, at, d.replays[key].records) && OnFile(w, ids, Ticked(ids, logs, at), d)
    ensures WithCandidates(logs.candidates, NewCandidates(ids, logs, at)).Some?
    ensures WithExperiences(logs.experiences, NewLabels(ids, logs, at)).Some?
  {
    var p := Journal.CrashSafeTick(d0, key, events);
    at :| MadeOf(w, ids, logs, at, p.records);
    FilesAfterAppend(w, ids, logs, at, d0, p.records, Journal.Run(Journal.System(d0, Journal.Stopped), events).disk);
  }

  /** A tick whose attempts all label a forgotten candidate again never completes, however often it is retried. */
  lemma ForgottenLabelsStopTheTick(w: Writing, ids: Ids, logs: Logs, d0: Journal.Disk, key: string, events: seq<Journal.Event>)
    requires GoodWriting(w) && OnFile(w, ids, logs, d0) && key !in d0.ledger.processed && Journal.OnlyKey(events, key)
    requires AttemptsOf(w, ids, logs, d0, events)
    requires forall p, at :: p in Journal.MadeInTime(d0, events) && MadeOf(w, ids, logs, at, p.records) ==> exists k, c :: Relabels(logs, at, k, c)
    ensures !Journal.Run(Journal.System(d0, Journal.Stopped), events).phase.Completed?
  {
    if Journal.Run(Journal.System(d0, Journal.Stopped), events).phase.Completed? {
      var p := Journal.CrashSafeTick(d0, key, events);
      var at :| MadeOf(w, ids, logs, at, p.records);
      FilesAfterAppend(w, ids, logs, at, d0, p.records, Journal.Run(Journal.System(d0, Journal.Stopped), events).disk);
      RefusedIffForgotten(ids, logs, at);
      assert false;
    }
  }

  /** After a run of the loop, at a new moment: the candidate file is its old contents and then the tick's
      candidates, and every label of the tick is on file. */
  lemma CrashSafeAfterRuns(w: Writing, ids: Ids, moments: seq<Moment>, d0: Journal.Disk, key: string, events: seq<Journal.Event>)
    requires TellsPoliciesApart(ids.candidate) && GoodWriting(w) && OnFile(w, ids, After(ids, moments), d0)
    requires key !in d0.ledger.processed && Journal.OnlyKey(events, key) && AttemptsOf(w, ids, After(ids, moments), d0, events)
    requires forall p, at :: p in Journal.MadeInTime(d0, events) && MadeOf(w, ids, After(ids, moments), at, p.records) ==> NewMoment(moments, at)
    requires Journal.Run(Journal.System(d0, Journal.Stopped), events).phase.Completed?
    ensures var d := Journal.Run(Journal.System(d0, Journal.Stopped), events).disk;
            && key in d.replays
            && (exists at :: OnFile(w, ids, After(ids, moments + [at]), d))
            && d.logs[CANDIDATE_LOG] == d0.logs[CANDIDATE_LOG] + d.replays[key].records[CANDIDATE_LOG]
            && forall r :: r in d.replays[key].records[EXPERIENCE_LOG] ==> r in d.logs[EXPERIENCE_LOG]
  {
    var logs := After(ids, moments);
    var d := Journal.Run(Journal.System(d0, Journal.Stopped), events).disk;
    var p := Journal.CrashSafeTick(d0, key, events);
    var at :| MadeOf(w, ids, logs, at, p.records);
    FilesAfterAppend(w, ids, logs, at, d0, p.records, d);
    CandidatesAreNeverRefused(ids, moments, at);
    assert (moments + [at])[..|moments + [at]| - 1] == moments;
    assert OnFile(w, ids, After(ids, moments + [at]), d);
    RecordsOfBoth(w, logs.candidates, NewCandidates(ids, logs, at));
    LabelsReachFile(w, ids, logs, at);
  }

  lemma RecordsOfBoth(w: Writing, cs: seq<Candidate>, more: seq<Candidate>)
    ensures CandidateRecords(w, cs + more) == CandidateRecords(w, cs) + CandidateRecords(w, more)
  {}

  lemma LabelsReachFile(w: Writing, ids: Ids, logs: Logs, at: Moment)
    requires GoodWriting(w) && LogsOk(ids, logs)
    requires WithCandidates(logs.candidates, NewCandidates(ids, logs, at)).Some?
    requires WithExperiences(logs.experiences, NewLabels(ids, logs, at)).Some?
    ensures forall r :: r in ExperienceRecords(w, NewLabels(ids, logs, at)) ==> r in ExperienceRecords(w, Ticked(ids, logs, at).experiences)
  {
    var labels := NewLabels(ids, logs, at);
    ExperiencesAppended(logs.experiences, labels);
    forall r | r in ExperienceRecords(w, labels) ensures r in ExperienceRecords(w, Ticked(ids, logs, at).experiences) {
      var k :| 0 <= k < |labels| && ExperienceRecords(w, labels)[k] == r;
      assert labels[k] in labels;
      LabelIsNamed(w, Ticked(ids, logs, at).experiences, labels[k]);
    }
  }

  // ----- Interrupted ticks -----

  /** Some of a tick's candidates and labels on top of sound logs. */
  lemma PartOfTickIsOk(ids: Ids, logs: Logs, at: Moment, some: Logs)
    requires LogsOk(ids, logs) && DistinctCandidates(some.candidates) && OneEach(some.experiences)
    requires forall c :: c in logs.candidates ==> c in some.candidates
    requires forall c :: c in some.candidates ==> c in logs.candidates || c in NewCandidates(ids, logs, at)
    requires forall e :: e in some.experiences ==> e in logs.experiences || e in NewLabels(ids, logs, at)
    ensures LogsOk(ids, some)
  {
    var evidence := Evidence(ids, logs, at);
    CandidatesAreOk(ids.candidate, Policies(STRATEGIES, evidence, at.now), at.market, evidence, at.now);
    NewLabelsAreOk(ids, logs, at);
    forall e | e in some.experiences ensures LabelOk(ids.experience, some.candidates, e) {
      LabelsSurvive(ids.experience, logs.candidates, some.candidates, e);
    }
  }

  /** The log that a torn candidate file holds. */
  lemma TornCandidates(w: Writing, log: seq<Candidate>, fresher: seq<Candidate>, l: seq<Record>) returns (cs: seq<Candidate>)
    requires GoodWriting(w) && DistinctCandidates(log) && CandidatesTold(w, log + fresher)
    requires Journal.Torn(CandidateRecords(w, log), CandidateRecords(w, fresher), l)
    ensures l == CandidateRecords(w, cs) && log <= cs && DistinctCandidates(cs) && forall c :: c in cs ==> c in log || c in fresher
  {
    cs := log;
    if l != CandidateRecords(w, log) {
      CandidateFileIsLog(w, log, fresher);
      CandidatesAppended(log, fresher);
      cs := WithCandidates(log, fresher).value[..|l|];
      assert l == CandidateRecords(w, WithCandidates(log, fresher).value)[..|l|];
    }
  }

  lemma TornLabels(w: Writing, log: seq<Experience>, fresher: seq<Experience>, l: seq<Record>) returns (es: seq<Experience>)
    requires GoodWriting(w) && OneEach(log) && ExperiencesTold(w, log + fresher)
    requires Journal.Torn(ExperienceRecords(w, log), ExperienceRecords(w, fresher), l)
    ensures l == ExperienceRecords(w, es) && log <= es && OneEach(es) && forall e :: e in es ==> e in log || e in fresher
  {
    es := log;
    if l != ExperienceRecords(w, log) {
      LabelFileIsLog(w, log, fresher);
      ExperiencesAppended(log, fresher);
      es := WithExperiences(log, fresher).value[..|l|];
      assert l == ExperienceRecords(w, WithExperiences(log, fresher).value)[..|l|];
    }
  }

  /** At every moment of a tick, completed or not, the two files hold sound logs that extend the earlier ones: so a
      tick that is given up leaves the next one logs as good as any. */
  lemma FilesStaySound(w: Writing, ids: Ids, logs: Logs, d0: Journal.Disk, key: string, events: seq<Journal.Event>) returns (held: Logs)
    requires GoodWriting(w) && OnFile(w, ids, logs, d0) && key !in d0.ledger.processed && Journal.OnlyKey(events, key)
    requires AttemptsOf(w, ids, logs, d0, events)
    ensures OnFile(w, ids, held, Journal.Run(Journal.System(d0, Journal.Stopped), events).disk)
    ensures logs.candidates <= held.candidates && logs.experiences <= held.experiences
  {
    var s := Journal.Run(Journal.System(d0, Journal.Stopped), events);
    var made := Journal.MadeInTime(d0, events);
    Journal.RunKeepsInvInTime(d0, key, made, events);
    held := logs;
    if !Journal.Unapplied(d0, key, made, s) {
      var x := s.disk.replays[key];
      var p :| p in made && x.(committed := false) == Journal.NewReplay(d0.ledger, key, p);
      var at :| MadeOf(w, ids, logs, at, p.records);
      assert Journal.Torn(d0.logs[CANDIDATE_LOG], x.records[CANDIDATE_LOG], s.disk.logs[CANDIDATE_LOG]);
      assert Journal.Torn(d0.logs[EXPERIENCE_LOG], x.records[EXPERIENCE_LOG], s.disk.logs[EXPERIENCE_LOG]);
      var cs := TornCandidates(w, logs.candidates, NewCandidates(ids, logs, at), s.disk.logs[CANDIDATE_LOG]);
      var es := TornLabels(w, logs.experiences, NewLabels(ids, logs, at), s.disk.logs[EXPERIENCE_LOG]);
      held := Logs(cs, es);
      PartOfTickIsOk(ids, logs, at, held);
    }
  }

  // ----- Such a way of writing -----

  function Strokes(n: nat): string { seq(n + 1, _ => '1') }

  lemma StrokesAreGood(candidate: Candidate -> string, experience: Experience -> string)
    ensures GoodWriting(Writing(Strokes, candidate, experience))
  {
    forall j: nat, k: nat | Strokes(j) == Strokes(k) ensures j == k {
      assert |Strokes(j)| == |Strokes(k)|;
    }
  }
}
