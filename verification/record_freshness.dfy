/**
  Why the records of a tick are new to the decision and event logs: identities carry the run key, so ticks with
  different keys never share one (scripts/mosaic_murmurs_paper_engine.py:736-741, 888-891, 1331-1353;
  scripts/mosaic-murmurs-paper-memory-loop.py:201-206).
 */
module RecordFreshness {
  import opened Wrappers
  import opened Market
  import opened Engine
  import opened BookTick
  import opened TickTrades
  import opened Identities
  import JournalLog
  import Journal

  type Record = JournalLog.Record

  /** One tick of all books: its run key, and the outcome of each book. */
  datatype TickRun = TickRun(key: string, owners: seq<Owner>, ticks: seq<Ticked>)

  /** The naming of a tick; digest and reference names are the same in all of them. */
  function NamingOf(n: Naming, t: TickRun): Naming { n.(run := t.key) }

  predicate SoundRun(n: Naming, t: TickRun) {
    && Plain(t.key) && |t.owners| == |t.ticks| && EachBookOnce(t.owners)
    && forall i :: 0 <= i < |t.ticks| ==> EventsOnce(t.ticks[i].events)
  }

  ghost predicate SoundDecisions(t: TickRun) {
    forall i :: 0 <= i < |t.ticks| ==> TradesOnce(FillsOf(t.ticks[i].events), t.ticks[i].decisions)
  }

  // ----- Identities of different ticks -----

  lemma DecisionsOfTicksDiffer(n: Naming, k: string, o: Owner, d: Decision, l: string, q: Owner, e: Decision)
    requires GoodNaming(n) && Plain(k) && Plain(l) && k != l
    ensures DecisionId(n.(run := k), o, d) != DecisionId(n.(run := l), q, e)
    ensures DecisionKey(n.(run := k), o, d) != DecisionKey(n.(run := l), q, e)
  {
    var a, b := DecisionParts(n.(run := k), o, d), DecisionParts(n.(run := l), q, e);
    DecisionPartsPlain(n.(run := k), o, d);
    DecisionPartsPlain(n.(run := l), q, e);
    assert a[0] != b[0];
    if DecisionId(n.(run := k), o, d) == DecisionId(n.(run := l), q, e) { StableIdIsInjective(n.digest, "decision", a, b); }
    if DecisionKey(n.(run := k), o, d) == DecisionKey(n.(run := l), q, e) { StableIdIsInjective(n.digest, "idem", a, b); }
  }

  lemma EventsOfTicksDiffer(n: Naming, k: string, o: Owner, d: Event, l: string, q: Owner, e: Event)
    requires GoodNaming(n) && Plain(k) && Plain(l) && k != l
    ensures EventId(n.(run := k), o, d) != EventId(n.(run := l), q, e)
  {
    var a, b := EventParts(n.(run := k), o, d), EventParts(n.(run := l), q, e);
    EventPartsPlain(n.(run := k), o, d);
    EventPartsPlain(n.(run := l), q, e);
    if d.Filled? && e.Filled? {
      DecisionsOfTicksDiffer(n, k, o, DecisionOf(d.fill), l, q, DecisionOf(e.fill));
    }
    assert a[0] != b[0] || |a| != |b|;
    if EventId(n.(run := k), o, d) == EventId(n.(run := l), q, e) { StableIdIsInjective(n.digest, "event", a, b); }
  }

  // ----- Records -----

  /** The identifying fields of the records; the rest of a record is its body. */
  function DecisionRecord(n: Naming, o: Owner, d: Decision, body: string): Record {
    JournalLog.Record(map[JournalLog.DecisionId := DecisionId(n, o, d), JournalLog.CandidateId := DecisionId(n, o, d)], body)
  }

  function EventRecord(n: Naming, o: Owner, e: Event, body: string): Record {
    var event := map[JournalLog.EventId := EventId(n, o, e)];
    JournalLog.Record(match e
                      case Filled(f) => event[JournalLog.DecisionId := DecisionId(n, o, DecisionOf(f))]
                      case _ => event, body)
  }

  lemma StableIdNotEmpty(digest: Digest, prefix: string, parts: seq<string>)
    ensures StableId(digest, prefix, parts) != ""
  {
    assert StableId(digest, prefix, parts)[|prefix|] == '_';
  }

  /** A decision is filed under its decision id, an event under its event id. */
  lemma RecordsAreFiledById(n: Naming, o: Owner, d: Decision, e: Event, body: string)
    ensures JournalLog.RecordIdentity(DecisionRecord(n, o, d, body)) == JournalLog.ByKey(JournalLog.DecisionId, DecisionId(n, o, d))
    ensures JournalLog.RecordIdentity(EventRecord(n, o, e, body)) == JournalLog.ByKey(JournalLog.EventId, EventId(n, o, e))
  {
    StableIdNotEmpty(n.digest, "decision", DecisionParts(n, o, d));
    StableIdNotEmpty(n.digest, "event", EventParts(n, o, e));
    var keys := JournalLog.ID_KEYS;
    assert keys[0] == JournalLog.EventId && keys[1..][0] == JournalLog.DecisionId;
    assert JournalLog.FirstIdentity(DecisionRecord(n, o, d, body), keys[1..])
        == JournalLog.ByKey(JournalLog.DecisionId, DecisionId(n, o, d));
  }

  /** Where a record of a batch comes from: a book and a place in its list. */
  predicate IsDecision(n: Naming, t: TickRun, r: Record, i: nat, j: nat)
    requires |t.owners| == |t.ticks|
  {
    i < |t.ticks| && j < |t.ticks[i].decisions| && r == DecisionRecord(NamingOf(n, t), t.owners[i], t.ticks[i].decisions[j], r.body)
  }

  predicate IsEvent(n: Naming, t: TickRun, r: Record, i: nat, j: nat)
    requires |t.owners| == |t.ticks|
  {
    i < |t.ticks| && j < |t.ticks[i].events| && r == EventRecord(NamingOf(n, t), t.owners[i], t.ticks[i].events[j], r.body)
  }

  /** The decision records of a tick, each at its own place. */
  predicate DecisionBatch(n: Naming, t: TickRun, rs: seq<Record>, place: seq<(nat, nat)>)
    requires |t.owners| == |t.ticks|
  {
    && |place| == |rs| && (forall a, b :: 0 <= a < b < |rs| ==> place[a] != place[b])
    && forall a :: 0 <= a < |rs| ==> IsDecision(n, t, rs[a], place[a].0, place[a].1)
  }

  predicate EventBatch(n: Naming, t: TickRun, rs: seq<Record>, place: seq<(nat, nat)>)
    requires |t.owners| == |t.ticks|
  {
    && |place| == |rs| && (forall a, b :: 0 <= a < b < |rs| ==> place[a] != place[b])
    && forall a :: 0 <= a < |rs| ==> IsEvent(n, t, rs[a], place[a].0, place[a].1)
  }

  /** The records of a log all come from ticks with other keys. */
  ghost predicate OlderDecisions(n: Naming, key: string, log: seq<Record>) {
    forall r :: r in log ==> exists k, o, d :: OtherDecision(n, key, r, k, o, d)
  }

  predicate OtherDecision(n: Naming, key: string, r: Record, k: string, o: Owner, d: Decision) {
    Plain(k) && k != key && r == DecisionRecord(n.(run := k), o, d, r.body)
  }

  ghost predicate OlderEvents(n: Naming, key: string, log: seq<Record>) {
    forall r :: r in log ==> exists k, o, e :: OtherEvent(n, key, r, k, o, e)
  }

  predicate OtherEvent(n: Naming, key: string, r: Record, k: string, o: Owner, e: Event) {
    Plain(k) && k != key && r == EventRecord(n.(run := k), o, e, r.body)
  }

  function SomeDecision(): Decision { Decision(Watch, None) }

  function SomeEvent(): Event { Marked(0) }

  lemma DecisionRecordsDiffer(n: Naming, t: TickRun, r: Record, x: nat, j: nat, s: Record, y: nat, k: nat)
    requires GoodNaming(n) && SoundRun(n, t) && SoundDecisions(t) && (x, j) != (y, k)
    requires IsDecision(n, t, r, x, j) && IsDecision(n, t, s, y, k)
    ensures JournalLog.RecordIdentity(r) != JournalLog.RecordIdentity(s)
  {
    var m := NamingOf(n, t);
    RecordsAreFiledById(m, t.owners[x], t.ticks[x].decisions[j], SomeEvent(), r.body);
    RecordsAreFiledById(m, t.owners[y], t.ticks[y].decisions[k], SomeEvent(), s.body);
    DecisionIdentitiesAreDistinct(m, t.owners, t.ticks, x, j, y, k);
  }

  lemma EventRecordsDiffer(n: Naming, t: TickRun, r: Record, x: nat, j: nat, s: Record, y: nat, k: nat)
    requires GoodNaming(n) && SoundRun(n, t) && (x, j) != (y, k)
    requires IsEvent(n, t, r, x, j) && IsEvent(n, t, s, y, k)
    ensures JournalLog.RecordIdentity(r) != JournalLog.RecordIdentity(s)
  {
    var m := NamingOf(n, t);
    RecordsAreFiledById(m, t.owners[x], SomeDecision(), t.ticks[x].events[j], r.body);
    RecordsAreFiledById(m, t.owners[y], SomeDecision(), t.ticks[y].events[k], s.body);
    EventIdentitiesAreDistinct(m, t.owners, t.ticks, x, j, y, k);
  }

  lemma OlderDecisionDiffers(n: Naming, t: TickRun, older: Record, r: Record, x: nat, j: nat)
    requires GoodNaming(n) && SoundRun(n, t) && IsDecision(n, t, r, x, j)
    requires exists k, o, d :: OtherDecision(n, t.key, older, k, o, d)
    ensures JournalLog.RecordIdentity(older) != JournalLog.RecordIdentity(r)
  {
    var k, o, d :| OtherDecision(n, t.key, older, k, o, d);
    RecordsAreFiledById(n.(run := k), o, d, SomeEvent(), older.body);
    RecordsAreFiledById(NamingOf(n, t), t.owners[x], t.ticks[x].decisions[j], SomeEvent(), r.body);
    DecisionsOfTicksDiffer(n, k, o, d, t.key, t.owners[x], t.ticks[x].decisions[j]);
  }

  lemma OlderEventDiffers(n: Naming, t: TickRun, older: Record, r: Record, x: nat, j: nat)
    requires GoodNaming(n) && SoundRun(n, t) && IsEvent(n, t, r, x, j)
    requires exists k, o, e :: OtherEvent(n, t.key, older, k, o, e)
    ensures JournalLog.RecordIdentity(older) != JournalLog.RecordIdentity(r)
  {
    var k, o, e :| OtherEvent(n, t.key, older, k, o, e);
    RecordsAreFiledById(n.(run := k), o, SomeDecision(), e, older.body);
    RecordsAreFiledById(NamingOf(n, t), t.owners[x], SomeDecision(), t.ticks[x].events[j], r.body);
    EventsOfTicksDiffer(n, k, o, e, t.key, t.owners[x], t.ticks[x].events[j]);
  }

  /** The decisions of a tick are fresh records for a log of decisions of other ticks. */
  lemma TickDecisionsAreFresh(n: Naming, t: TickRun, log: seq<Record>, rs: seq<Record>, place: seq<(nat, nat)>)
    requires GoodNaming(n) && SoundRun(n, t) && SoundDecisions(t) && DecisionBatch(n, t, rs, place) && OlderDecisions(n, t.key, log)
    ensures JournalLog.Fresh(log, rs)
  {
    forall a, b | 0 <= a < b < |rs| ensures JournalLog.RecordIdentity(rs[a]) != JournalLog.RecordIdentity(rs[b]) {
      DecisionRecordsDiffer(n, t, rs[a], place[a].0, place[a].1, rs[b], place[b].0, place[b].1);
    }
    forall a, b | 0 <= a < |log| && 0 <= b < |rs| ensures JournalLog.RecordIdentity(log[a]) != JournalLog.RecordIdentity(rs[b]) {
      assert log[a] in log;
      OlderDecisionDiffers(n, t, log[a], rs[b], place[b].0, place[b].1);
    }
  }

  /** And so are its events for a log of events of other ticks. */
  lemma TickEventsAreFresh(n: Naming, t: TickRun, log: seq<Record>, rs: seq<Record>, place: seq<(nat, nat)>)
    requires GoodNaming(n) && SoundRun(n, t) && EventBatch(n, t, rs, place) && OlderEvents(n, t.key, log)
    ensures JournalLog.Fresh(log, rs)
  {
    forall a, b | 0 <= a < b < |rs| ensures JournalLog.RecordIdentity(rs[a]) != JournalLog.RecordIdentity(rs[b]) {
      EventRecordsDiffer(n, t, rs[a], place[a].0, place[a].1, rs[b], place[b].0, place[b].1);
    }
    forall a, b | 0 <= a < |log| && 0 <= b < |rs| ensures JournalLog.RecordIdentity(log[a]) != JournalLog.RecordIdentity(rs[b]) {
      assert log[a] in log;
      OlderEventDiffers(n, t, log[a], rs[b], place[b].0, place[b].1);
    }
  }

  /** So a consistent log of other ticks takes each of them exactly once, and stays consistent. */
  lemma TickRecordsAppended(n: Naming, t: TickRun, log: seq<Record>, rs: seq<Record>, place: seq<(nat, nat)>)
    requires GoodNaming(n) && SoundRun(n, t) && SoundDecisions(t) && JournalLog.Consistent(log)
    requires (DecisionBatch(n, t, rs, place) && OlderDecisions(n, t.key, log)) || (EventBatch(n, t, rs, place) && OlderEvents(n, t.key, log))
    ensures JournalLog.Appended(log, rs) == Some(log + rs) && JournalLog.Consistent(log + rs)
  {
    if DecisionBatch(n, t, rs, place) && OlderDecisions(n, t.key, log) {
      TickDecisionsAreFresh(n, t, log, rs, place);
    } else {
      TickEventsAreFresh(n, t, log, rs, place);
    }
    JournalLog.FreshRecordsAppended(log, rs);
    if rs == [] {
      assert log + rs == log;
    } else {
      JournalLog.RefusedExactlyOnConflict(log, rs);
    }
  }

  // ----- Logs filed under the applied keys -----

  /** Every record was made by a tick with one of these keys. */
  ghost predicate DecisionsFiled(n: Naming, keys: seq<string>, log: seq<Record>) {
    forall r :: r in log ==> exists k, o, d :: k in keys && Plain(k) && r == DecisionRecord(n.(run := k), o, d, r.body)
  }

  ghost predicate EventsFiled(n: Naming, keys: seq<string>, log: seq<Record>) {
    forall r :: r in log ==> exists k, o, e :: k in keys && Plain(k) && r == EventRecord(n.(run := k), o, e, r.body)
  }

  lemma FiledIsOlder(n: Naming, keys: seq<string>, key: string, log: seq<Record>)
    requires key !in keys
    ensures DecisionsFiled(n, keys, log) ==> OlderDecisions(n, key, log)
    ensures EventsFiled(n, keys, log) ==> OlderEvents(n, key, log)
  {
    if DecisionsFiled(n, keys, log) {
      forall r | r in log ensures exists k, o, d :: OtherDecision(n, key, r, k, o, d) {
        var k, o, d :| k in keys && Plain(k) && r == DecisionRecord(n.(run := k), o, d, r.body);
        assert OtherDecision(n, key, r, k, o, d);
      }
    }
    if EventsFiled(n, keys, log) {
      forall r | r in log ensures exists k, o, e :: OtherEvent(n, key, r, k, o, e) {
        var k, o, e :| k in keys && Plain(k) && r == EventRecord(n.(run := k), o, e, r.body);
        assert OtherEvent(n, key, r, k, o, e);
      }
    }
  }

  lemma DecisionsStayFiled(n: Naming, keys: seq<string>, t: TickRun, log: seq<Record>, rs: seq<Record>, place: seq<(nat, nat)>)
    requires SoundRun(n, t) && DecisionsFiled(n, keys, log) && DecisionBatch(n, t, rs, place)
    ensures DecisionsFiled(n, keys + [t.key], log + rs)
  {
    forall r | r in log + rs
      ensures exists k, o, d :: k in keys + [t.key] && Plain(k) && r == DecisionRecord(n.(run := k), o, d, r.body)
    {
      if r in rs {
        var a :| 0 <= a < |rs| && rs[a] == r;
        assert IsDecision(n, t, rs[a], place[a].0, place[a].1);
        assert t.key in keys + [t.key];
      }
    }
  }

  lemma EventsStayFiled(n: Naming, keys: seq<string>, t: TickRun, log: seq<Record>, rs: seq<Record>, place: seq<(nat, nat)>)
    requires SoundRun(n, t) && EventsFiled(n, keys, log) && EventBatch(n, t, rs, place)
    ensures EventsFiled(n, keys + [t.key], log + rs)
  {
    forall r | r in log + rs
      ensures exists k, o, e :: k in keys + [t.key] && Plain(k) && r == EventRecord(n.(run := k), o, e, r.body)
    {
      if r in rs {
        var a :| 0 <= a < |rs| && rs[a] == r;
        assert IsEvent(n, t, rs[a], place[a].0, place[a].1);
        assert t.key in keys + [t.key];
      }
    }
  }

  // ----- Crash safety of the two logs -----

  const DECISION_LOG: Journal.LogIndex := 2
  const EVENT_LOG: Journal.LogIndex := 3

  /** The two batches of an attempt are the records of a tick of all books under its key. */
  ghost predicate TickBatches(n: Naming, key: string, p: Journal.Produced) {
    exists t: TickRun, places: seq<(nat, nat)>, spots: seq<(nat, nat)> ::
      && t.key == key && SoundRun(n, t) && SoundDecisions(t)
      && DecisionBatch(n, t, p.records[DECISION_LOG], places) && EventBatch(n, t, p.records[EVENT_LOG], spots)
  }

  /** The two logs hold records of the applied keys only, without conflict. */
  ghost predicate LogsFiled(n: Naming, d: Journal.Disk) {
    && DecisionsFiled(n, d.ledger.processed, d.logs[DECISION_LOG]) && JournalLog.Consistent(d.logs[DECISION_LOG])
    && EventsFiled(n, d.ledger.processed, d.logs[EVENT_LOG]) && JournalLog.Consistent(d.logs[EVENT_LOG])
  }

  lemma BatchesAppended(n: Naming, d0: Journal.Disk, key: string, p: Journal.Produced)
    requires GoodNaming(n) && key !in d0.ledger.processed && LogsFiled(n, d0) && TickBatches(n, key, p)
    ensures var decisions, events := p.records[DECISION_LOG], p.records[EVENT_LOG];
            && JournalLog.Appended(d0.logs[DECISION_LOG], decisions) == Some(d0.logs[DECISION_LOG] + decisions)
            && JournalLog.Consistent(d0.logs[DECISION_LOG] + decisions)
            && DecisionsFiled(n, d0.ledger.processed + [key], d0.logs[DECISION_LOG] + decisions)
            && JournalLog.Appended(d0.logs[EVENT_LOG], events) == Some(d0.logs[EVENT_LOG] + events)
            && JournalLog.Consistent(d0.logs[EVENT_LOG] + events)
            && EventsFiled(n, d0.ledger.processed + [key], d0.logs[EVENT_LOG] + events)
  {
    var t: TickRun, places: seq<(nat, nat)>, spots: seq<(nat, nat)> :| t.key == key && SoundRun(n, t) && SoundDecisions(t)
                            && DecisionBatch(n, t, p.records[DECISION_LOG], places) && EventBatch(n, t, p.records[EVENT_LOG], spots);
    var keys := d0.ledger.processed;
    FiledIsOlder(n, keys, key, d0.logs[DECISION_LOG]);
    FiledIsOlder(n, keys, key, d0.logs[EVENT_LOG]);
    TickRecordsAppended(n, t, d0.logs[DECISION_LOG], p.records[DECISION_LOG], places);
    TickRecordsAppended(n, t, d0.logs[EVENT_LOG], p.records[EVENT_LOG], spots);
    DecisionsStayFiled(n, keys, t, d0.logs[DECISION_LOG], p.records[DECISION_LOG], places);
    EventsStayFiled(n, keys, t, d0.logs[EVENT_LOG], p.records[EVENT_LOG], spots);
  }

  /** Whatever crashes and same-key retries came before: a completed tick leaves in the decision and event logs
      exactly their old contents and then its own records, each once, and the logs are filed for the next key. */
  lemma CrashSafeDecisionsAndEvents(n: Naming, d0: Journal.Disk, key: string, events: seq<Journal.Event>)
    requires GoodNaming(n) && key !in d0.ledger.processed && Journal.OnlyKey(events, key) && LogsFiled(n, d0)
    requires forall p :: p in Journal.MadeInTime(d0, events) ==> TickBatches(n, key, p)
    requires Journal.Run(Journal.System(d0, Journal.Stopped), events).phase.Completed?
    ensures var d := Journal.Run(Journal.System(d0, Journal.Stopped), events).disk;
            && key in d.replays && LogsFiled(n, d)
            && d.logs[DECISION_LOG] == d0.logs[DECISION_LOG] + d.replays[key].records[DECISION_LOG]
            && d.logs[EVENT_LOG] == d0.logs[EVENT_LOG] + d.replays[key].records[EVENT_LOG]
  {
    var p := Journal.CrashSafeTick(d0, key, events);
    BatchesAppended(n, d0, key, p);
  }
}
