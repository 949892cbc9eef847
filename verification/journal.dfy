/**
  The durable steps of one paper tick and its recovery after a crash
  (scripts/mosaic-murmurs-paper-memory-loop.py:590-845).  A process may stop between any two durable
  steps, and between any two records of an append; ticks exclude each other.
 */
module Journal {
  import opened Wrappers
  import opened JournalLog

  type Key = string
  const LOG_COUNT := 9

  /** One log, or one batch of records, for each of the nine record files. */
  type Logs = b: seq<Log> | |b| == LOG_COUNT witness [[], [], [], [], [], [], [], [], []]
  type LogIndex = n: nat | n < LOG_COUNT

  /** The ledger as far as the journal looks at it: applied keys, cash of every book, everything else. */
  datatype Ledger = Ledger(processed: seq<Key>, cash: seq<int>, rest: nat)

  /** What the engine and the record builders made of one attempt at a tick. */
  datatype Produced = Produced(cash: seq<int>, rest: nat, records: Logs, state: nat)

  /** The replay record; its ledger digest stands for the ledger. */
  datatype Replay = Replay(key: Key, ledger: Ledger, records: Logs, state: nat, committed: bool)

  datatype Disk = Disk(ledger: Ledger, replays: map<Key, Replay>, logs: Logs, latest: Option<nat>)

  datatype Phase =
    | Stopped
    | WriteReplay(replay: Replay)
    | WriteLedger(replay: Replay)
    | OpenLog(replay: Replay, done: nat)
    | AppendLog(replay: Replay, n: LogIndex, pending: seq<Record>)
    | WriteLatest(replay: Replay)
    | MarkCommitted(replay: Replay)
    | Completed(key: Key)
    | Raised

  datatype System = System(disk: Disk, phase: Phase)

  datatype Event = Start(key: Key, produced: Produced) | Proceed | Crash

  /** migrate_ledger refuses negative cash and otherwise leaves a written ledger as it is;
      the validation of a new canonical state refuses it too. */
  predicate Solvent(l: Ledger) { forall i :: 0 <= i < |l.cash| ==> l.cash[i] >= 0 }

  function NewReplay(l: Ledger, key: Key, p: Produced): Replay {
    Replay(key, Ledger(l.processed + [key], p.cash, p.rest), p.records, p.state, false)
  }

  function StartTick(d: Disk, key: Key, p: Produced): Phase {
    if !Solvent(d.ledger) then Raised
    else if key in d.ledger.processed then
      if key !in d.replays || d.replays[key].key != key || d.replays[key].ledger != d.ledger
      then Raised
      else WriteLedger(d.replays[key])
    else if !Solvent(NewReplay(d.ledger, key, p).ledger) then Raised
    else WriteReplay(NewReplay(d.ledger, key, p))
  }

  function ProceedTick(s: System): System {
    var d := s.disk;
    match s.phase
    case WriteReplay(r) => System(d.(replays := d.replays[r.key := r]), WriteLedger(r))
    case WriteLedger(r) => System(d.(ledger := r.ledger), OpenLog(r, 0))
    case OpenLog(r, n) =>
      if n >= LOG_COUNT then System(d, WriteLatest(r))
      else (match Appended(d.logs[n], r.records[n])
            case None => System(d, Raised)
            case Some(whole) => System(d, AppendLog(r, n, whole[|d.logs[n]|..])))
    case AppendLog(r, n, pending) =>
      if pending == [] then System(d, OpenLog(r, n + 1))
      else System(d.(logs := d.logs[n := d.logs[n] + [pending[0]]]), AppendLog(r, n, pending[1..]))
    case WriteLatest(r) => System(d.(latest := Some(r.state)), MarkCommitted(r))
    case MarkCommitted(r) =>
      if r.key !in d.replays then System(d, Raised)
      else System(d.(replays := d.replays[r.key := d.replays[r.key].(committed := true)]), Completed(r.key))
    case _ => s
  }

  predicate Idle(p: Phase) { p.Stopped? || p.Completed? || p.Raised? }

  function Step(s: System, e: Event): System {
    match e
    case Start(key, p) => if Idle(s.phase) then s.(phase := StartTick(s.disk, key, p)) else s
    case Proceed => ProceedTick(s)
    case Crash => s.(phase := Stopped)
  }

  function Run(s: System, events: seq<Event>): System {
    if events == [] then s
    else Step(Run(s, events[..|events| - 1]), events[|events| - 1])
  }

  // ----- The invariant of one key -----

  /** `l` is the log as it was, or an unfinished or finished append of the records to it. */
  predicate Torn(before: Log, records: Log, l: Log) {
    || l == before
    || (Appended(before, records).Some? && before <= l && l <= Appended(before, records).value)
  }

  predicate Complete(before: Log, records: Log, l: Log) { Appended(before, records) == Some(l) }

  /** The replay record is the outcome of one of the attempts made, whole. */
  ghost predicate FromAttempt(d0: Disk, key: Key, made: set<Produced>, r: Replay) {
    exists p :: p in made && r.(committed := false) == NewReplay(d0.ledger, key, p) && Solvent(r.ledger)
  }

  predicate SameAttempt(r: Replay, x: Replay) { r.(committed := false) == x.(committed := false) }

  ghost predicate Unapplied(d0: Disk, key: Key, made: set<Produced>, s: System) {
    && s.disk.ledger == d0.ledger && s.disk.logs == d0.logs && s.disk.latest == d0.latest
    && (match s.phase
        case Stopped => true
        case Raised => true
        case WriteReplay(r) => FromAttempt(d0, key, made, r)
        case WriteLedger(r) => FromAttempt(d0, key, made, r) && key in s.disk.replays && s.disk.replays[key] == r
        case _ => false)
  }

  predicate CompleteTo(d0: Disk, r: Replay, s: System, n: nat) {
    forall m :: 0 <= m < n && m < LOG_COUNT ==> Complete(d0.logs[m], r.records[m], s.disk.logs[m])
  }

  /** The latest state is the earlier one until all logs are complete. */
  predicate LatestOk(d0: Disk, x: Replay, s: System) {
    s.disk.latest == d0.latest || (s.disk.latest == Some(x.state) && CompleteTo(d0, x, s, LOG_COUNT))
  }

  ghost predicate Applied(d0: Disk, key: Key, made: set<Produced>, s: System) {
    && key in s.disk.replays
    && var x := s.disk.replays[key];
    && FromAttempt(d0, key, made, x)
    && s.disk.ledger == x.ledger
    && (forall m :: 0 <= m < LOG_COUNT ==> Torn(d0.logs[m], x.records[m], s.disk.logs[m]))
    && LatestOk(d0, x, s)
    && (match s.phase
        case Stopped => true
        case Raised => true
        case WriteReplay(r) => false
        case WriteLedger(r) => SameAttempt(r, x)
        case OpenLog(r, n) => SameAttempt(r, x) && CompleteTo(d0, x, s, n)
        case AppendLog(r, n, pending) =>
          SameAttempt(r, x) && CompleteTo(d0, x, s, n) && Complete(d0.logs[n], x.records[n], s.disk.logs[n] + pending)
        case WriteLatest(r) => SameAttempt(r, x) && CompleteTo(d0, x, s, LOG_COUNT)
        case MarkCommitted(r) => SameAttempt(r, x) && CompleteTo(d0, x, s, LOG_COUNT) && s.disk.latest == Some(x.state)
        case Completed(k) => k == key && x.committed && CompleteTo(d0, x, s, LOG_COUNT) && s.disk.latest == Some(x.state))
  }

  ghost predicate Inv(d0: Disk, key: Key, made: set<Produced>, s: System) {
    && key !in d0.ledger.processed
    && (Unapplied(d0, key, made, s) || Applied(d0, key, made, s))
  }

  lemma AppliedHasKey(d0: Disk, key: Key, made: set<Produced>, s: System)
    requires Applied(d0, key, made, s)
    ensures s.disk.ledger.processed == d0.ledger.processed + [key] && key in s.disk.ledger.processed
    ensures s.disk.replays[key].key == key && Solvent(s.disk.ledger)
  {}

  /** However much of the append had reached the file, appending again completes it. */
  lemma TornCompletes(before: Log, records: Log, l: Log)
    requires Torn(before, records, l)
    ensures Appended(l, records) == Appended(before, records)
    ensures Appended(l, records).Some? ==>
              var whole := Appended(l, records).value; l <= whole && l + whole[|l|..] == whole
  {
    if l != before {
      AppendResumes(before, records, |l| - |before|);
      assert Appended(before, records).value[..|l|] == l;
    }
  }

  lemma StartKeepsInv(d0: Disk, key: Key, made: set<Produced>, s: System, p: Produced)
    requires Inv(d0, key, made, s) && Idle(s.phase) && p in made
    ensures Inv(d0, key, made, s.(phase := StartTick(s.disk, key, p)))
  {
    if Applied(d0, key, made, s) {
      AppliedHasKey(d0, key, made, s);
    }
  }

  lemma WriteLedgerKeepsInv(d0: Disk, key: Key, made: set<Produced>, s: System)
    requires Inv(d0, key, made, s) && s.phase.WriteLedger?
    ensures Applied(d0, key, made, ProceedTick(s))
  {}

  lemma OpenLogKeepsInv(d0: Disk, key: Key, made: set<Produced>, s: System)
    requires Applied(d0, key, made, s) && s.phase.OpenLog?
    ensures Applied(d0, key, made, ProceedTick(s))
  {
    var n := s.phase.done;
    if n < LOG_COUNT {
      var x := s.disk.replays[key];
      TornCompletes(d0.logs[n], x.records[n], s.disk.logs[n]);
    }
  }

  /** Writing the first pending record leaves a log that the rest completes. */
  lemma OneMore(before: Log, records: Log, l: Log, pending: seq<Record>)
    requires Torn(before, records, l) && Complete(before, records, l + pending) && pending != []
    ensures Torn(before, records, l + [pending[0]]) && Complete(before, records, (l + [pending[0]]) + pending[1..])
  {
    assert (l + [pending[0]]) + pending[1..] == l + pending;
    AppendResumes(before, records, 0);
  }

  lemma LogReplaced(d0: Disk, x: Replay, s: System, t: System, n: LogIndex, l: Log)
    requires forall m :: 0 <= m < LOG_COUNT ==> Torn(d0.logs[m], x.records[m], s.disk.logs[m])
    requires CompleteTo(d0, x, s, n) && Torn(d0.logs[n], x.records[n], l) && t.disk.logs == s.disk.logs[n := l]
    ensures forall m :: 0 <= m < LOG_COUNT ==> Torn(d0.logs[m], x.records[m], t.disk.logs[m])
    ensures CompleteTo(d0, x, t, n)
  {}

  /** Once all logs are complete nothing is pending. */
  lemma CompleteHasNothingPending(d0: Disk, x: Replay, s: System, n: LogIndex, pending: seq<Record>)
    requires CompleteTo(d0, x, s, LOG_COUNT) && Complete(d0.logs[n], x.records[n], s.disk.logs[n] + pending)
    ensures pending == []
  {
    assert |s.disk.logs[n] + pending| == |s.disk.logs[n]|;
  }

  lemma LogFinished(d0: Disk, x: Replay, s: System, n: LogIndex)
    requires CompleteTo(d0, x, s, n) && Complete(d0.logs[n], x.records[n], s.disk.logs[n] + [])
    ensures CompleteTo(d0, x, s, n + 1)
  {
    assert s.disk.logs[n] + [] == s.disk.logs[n];
  }

  lemma AppendLogKeepsInv(d0: Disk, key: Key, made: set<Produced>, s: System)
    requires Applied(d0, key, made, s) && s.phase.AppendLog?
    ensures Applied(d0, key, made, ProceedTick(s))
  {
    var n, pending := s.phase.n, s.phase.pending;
    var x := s.disk.replays[key];
    if pending == [] {
      LogFinished(d0, x, s, n);
    } else {
      if CompleteTo(d0, x, s, LOG_COUNT) { CompleteHasNothingPending(d0, x, s, n, pending); }
      OneMore(d0.logs[n], x.records[n], s.disk.logs[n], pending);
      LogReplaced(d0, x, s, ProceedTick(s), n, s.disk.logs[n] + [pending[0]]);
    }
  }

  lemma ProceedKeepsInv(d0: Disk, key: Key, made: set<Produced>, s: System)
    requires Inv(d0, key, made, s)
    ensures Inv(d0, key, made, ProceedTick(s))
  {
    match s.phase {
      case WriteLedger(_) => WriteLedgerKeepsInv(d0, key, made, s);
      case OpenLog(_, _) => OpenLogKeepsInv(d0, key, made, s);
      case AppendLog(_, _, _) => AppendLogKeepsInv(d0, key, made, s);
      case _ =>
    }
  }

  /** Every start is for this key. */
  predicate OnlyKey(events: seq<Event>, key: Key) {
    forall i :: 0 <= i < |events| && events[i].Start? ==> events[i].key == key
  }

  /** What the attempts of a run produced. */
  function Made(events: seq<Event>): set<Produced> {
    set i | 0 <= i < |events| && events[i].Start? :: events[i].produced
  }

  /** Those of the attempts that started before the ledger was written; a later start replays. */
  function MadeInTime(d0: Disk, events: seq<Event>): set<Produced> {
    set i | 0 <= i < |events| && events[i].Start? && Run(System(d0, Stopped), events[..i]).disk.ledger == d0.ledger :: events[i].produced
  }

  lemma InTimeIsMade(d0: Disk, events: seq<Event>)
    ensures MadeInTime(d0, events) <= Made(events)
  {}

  lemma InTimeGrows(d0: Disk, events: seq<Event>, e: Event)
    ensures MadeInTime(d0, events) <= MadeInTime(d0, events + [e])
    ensures e.Start? && Run(System(d0, Stopped), events).disk.ledger == d0.ledger ==> e.produced in MadeInTime(d0, events + [e])
  {
    var more := events + [e];
    assert more[..|events|] == events && more[|events|] == e;
    forall p | p in MadeInTime(d0, events) ensures p in MadeInTime(d0, more) {
      var i :| 0 <= i < |events| && events[i].Start? && Run(System(d0, Stopped), events[..i]).disk.ledger == d0.ledger && events[i].produced == p;
      assert more[i] == events[i] && more[..i] == events[..i];
    }
  }

  /** What a later start produced is not looked at. */
  lemma LateStartKeepsInv(d0: Disk, key: Key, made: set<Produced>, s: System, p: Produced)
    requires Inv(d0, key, made, s) && Idle(s.phase) && s.disk.ledger != d0.ledger
    ensures Inv(d0, key, made, s.(phase := StartTick(s.disk, key, p)))
  {
    AppliedHasKey(d0, key, made, s);
  }

  lemma {:induction false} RunKeepsInvInTime(d0: Disk, key: Key, made: set<Produced>, events: seq<Event>)
    requires key !in d0.ledger.processed && OnlyKey(events, key) && MadeInTime(d0, events) <= made
    ensures Inv(d0, key, made, Run(System(d0, Stopped), events))
  {
    if events != [] {
      var init, e := events[..|events| - 1], events[|events| - 1];
      assert events == init + [e];
      InTimeGrows(d0, init, e);
      RunKeepsInvInTime(d0, key, made, init);
      var s := Run(System(d0, Stopped), init);
      match e {
        case Start(k, p) =>
          if Idle(s.phase) {
            if s.disk.ledger == d0.ledger { StartKeepsInv(d0, key, made, s, p); } else { LateStartKeepsInv(d0, key, made, s, p); }
          }
        case Proceed => ProceedKeepsInv(d0, key, made, s);
        case Crash =>
      }
    }
  }

  lemma RunKeepsInv(d0: Disk, key: Key, made: set<Produced>, events: seq<Event>)
    requires key !in d0.ledger.processed && OnlyKey(events, key) && Made(events) <= made
    ensures Inv(d0, key, made, Run(System(d0, Stopped), events))
  {
    InTimeIsMade(d0, events);
    RunKeepsInvInTime(d0, key, made, events);
  }

  // ----- Theorems -----

  /** A new key starts if and only if no book has negative cash, neither stored nor computed. */
  lemma NewKeyStartsIff(d: Disk, key: Key, p: Produced)
    requires key !in d.ledger.processed
    ensures if (forall x :: x in d.ledger.cash ==> x >= 0) && (forall x :: x in p.cash ==> x >= 0)
            then StartTick(d, key, p) == WriteReplay(Replay(key, Ledger(d.ledger.processed + [key], p.cash, p.rest), p.records, p.state, false))
            else StartTick(d, key, p) == Raised
  {
    SolventIs(d.ledger);
    SolventIs(NewReplay(d.ledger, key, p).ledger);
  }

  lemma SolventIs(l: Ledger)
    ensures Solvent(l) <==> forall x :: x in l.cash ==> x >= 0
  {
    forall i | 0 <= i < |l.cash| ensures l.cash[i] in l.cash {}
  }

  /** Crash safety: whatever crashes and same-key retries came before, when the tick completes its key has
      been applied exactly once, and the ledger, all nine logs and the latest state come whole from one and the
      same attempt, one that started before the ledger was written: each log is what one undisturbed append to
      the original log would have left. */
  lemma CrashSafeTick(d0: Disk, key: Key, events: seq<Event>) returns (p: Produced)
    requires key !in d0.ledger.processed && OnlyKey(events, key)
    requires Run(System(d0, Stopped), events).phase.Completed?
    ensures p in MadeInTime(d0, events) && p in Made(events)
    ensures var d := Run(System(d0, Stopped), events).disk;
            && d.ledger == Ledger(d0.ledger.processed + [key], p.cash, p.rest) && d.latest == Some(p.state)
            && (forall n :: 0 <= n < LOG_COUNT ==> Appended(d0.logs[n], p.records[n]) == Some(d.logs[n]))
            && key in d.replays && d.replays[key] == Replay(key, d.ledger, p.records, p.state, true)
  {
    RunKeepsInvInTime(d0, key, MadeInTime(d0, events), events);
    InTimeIsMade(d0, events);
    var x := Run(System(d0, Stopped), events).disk.replays[key];
    p :| p in MadeInTime(d0, events) && x.(committed := false) == NewReplay(d0.ledger, key, p);
  }

  /** When the records are fresh, every log is its old contents followed by each record exactly once. */
  lemma CrashSafeTickFresh(d0: Disk, key: Key, events: seq<Event>)
    requires key !in d0.ledger.processed && OnlyKey(events, key)
    requires Run(System(d0, Stopped), events).phase.Completed?
    requires forall p, n :: p in MadeInTime(d0, events) && 0 <= n < LOG_COUNT ==> Consistent(d0.logs[n]) && Fresh(d0.logs[n], p.records[n])
    ensures var d := Run(System(d0, Stopped), events).disk;
            key in d.replays && forall n :: 0 <= n < LOG_COUNT ==> d.logs[n] == d0.logs[n] + d.replays[key].records[n]
  {
    var p := CrashSafeTick(d0, key, events);
    forall n | 0 <= n < LOG_COUNT ensures Appended(d0.logs[n], p.records[n]) == Some(d0.logs[n] + p.records[n]) {
      FreshRecordsAppended(d0.logs[n], p.records[n]);
    }
  }

  /** At every moment the latest state is the earlier one, or that of the attempt whose ledger and logs are all
      written. */
  lemma LatestFollowsLogs(d0: Disk, key: Key, events: seq<Event>)
    requires key !in d0.ledger.processed && OnlyKey(events, key)
    ensures var d := Run(System(d0, Stopped), events).disk;
            || d.latest == d0.latest
            || exists p :: && p in MadeInTime(d0, events) && d.latest == Some(p.state)
                           && d.ledger == Ledger(d0.ledger.processed + [key], p.cash, p.rest)
                           && forall n :: 0 <= n < LOG_COUNT ==> Appended(d0.logs[n], p.records[n]) == Some(d.logs[n])
  {
    RunKeepsInvInTime(d0, key, MadeInTime(d0, events), events);
    var s := Run(System(d0, Stopped), events);
    if s.disk.latest != d0.latest {
      var x := s.disk.replays[key];
      var p :| p in MadeInTime(d0, events) && x.(committed := false) == NewReplay(d0.ledger, key, p);
      assert CompleteTo(d0, x, s, LOG_COUNT);
    }
  }

  /** At no moment is the key applied twice, and logs never lose or reorder what they held. */
  lemma NeverTwice(d0: Disk, key: Key, events: seq<Event>)
    requires key !in d0.ledger.processed && OnlyKey(events, key)
    ensures var d := Run(System(d0, Stopped), events).disk;
            && (d.ledger == d0.ledger || d.ledger.processed == d0.ledger.processed + [key])
            && (d.ledger == d0.ledger ==> d.logs == d0.logs)
            && forall n :: 0 <= n < LOG_COUNT ==> d0.logs[n] <= d.logs[n]
  {
    RunKeepsInv(d0, key, Made(events), events);
    var s := Run(System(d0, Stopped), events);
    if Applied(d0, key, Made(events), s) {
      AppliedHasKey(d0, key, Made(events), s);
      forall n | 0 <= n < LOG_COUNT ensures d0.logs[n] <= s.disk.logs[n] {
        assert Torn(d0.logs[n], s.disk.replays[key].records[n], s.disk.logs[n]);
      }
    }
  }
}
