/**
  When a retry succeeds, when it can never succeed, and the undisturbed tick as the loop the source
  runs (scripts/mosaic-murmurs-paper-memory-loop.py:699-733, 786-843).
 */
module JournalRecovery {
  import opened Wrappers
  import opened JournalLog
  import opened Journal

  function Proceeds(k: nat): seq<Event> { seq(k, _ => Proceed) }

  lemma {:induction false} RunSplits(s: System, a: seq<Event>, b: seq<Event>)
    ensures Run(s, a + b) == Run(Run(s, a), b)
  {
    if b == [] {
      assert a + b == a;
    } else {
      RunSplits(s, a, b[..|b| - 1]);
      assert (a + b)[..|a + b| - 1] == a + b[..|b| - 1];
    }
  }

  lemma RunProceeds(s: System, k: nat)
    ensures Run(s, Proceeds(k + 1)) == Run(ProceedTick(s), Proceeds(k))
  {
    assert Proceeds(k + 1) == [Proceed] + Proceeds(k);
    RunSplits(s, [Proceed], Proceeds(k));
    assert Run(s, [Proceed]) == ProceedTick(s) by { assert Run(s, [Proceed][..0]) == s; }
  }

  /** No record of the attempt conflicts with what its log held before the tick. */
  ghost predicate Compatible(d0: Disk, r: Replay) {
    forall n :: 0 <= n < LOG_COUNT && r.records[n] != [] ==> Consistent(d0.logs[n] + r.records[n])
  }

  function Stage(p: Phase): nat {
    match p case WriteLedger(_) => 4 case OpenLog(_, _) => 3 case AppendLog(_, _, _) => 3 case WriteLatest(_) => 2 case MarkCommitted(_) => 1 case _ => 0
  }

  function LogsLeft(p: Phase): int {
    match p case OpenLog(_, n) => LOG_COUNT - n case AppendLog(_, n, _) => LOG_COUNT - n case _ => 0
  }

  function RecordsLeft(p: Phase): nat {
    match p case AppendLog(_, _, pending) => |pending| case _ => 0
  }

  /** A retry of an applied tick that is not interrupted reaches completion. */
  lemma {:induction false} Drains(d0: Disk, key: Key, made: set<Produced>, s: System) returns (k: nat)
    requires Applied(d0, key, made, s) && key !in d0.ledger.processed && Stage(s.phase) > 0
    requires Compatible(d0, s.disk.replays[key])
    requires s.phase.OpenLog? ==> s.phase.done <= LOG_COUNT
    ensures Run(s, Proceeds(k)).phase == Completed(key)
    decreases Stage(s.phase), LogsLeft(s.phase), s.phase.OpenLog?, RecordsLeft(s.phase)
  {
    var t := ProceedTick(s);
    ProceedKeepsInv(d0, key, made, s);
    AppliedHasKey(d0, key, made, s);
    if s.phase.OpenLog? && s.phase.done < LOG_COUNT {
      var n := s.phase.done;
      TornCompletes(d0.logs[n], s.disk.replays[key].records[n], s.disk.logs[n]);
      if s.disk.replays[key].records[n] != [] {
        RefusedExactlyOnConflict(d0.logs[n], s.disk.replays[key].records[n]);
      }
    }
    if s.phase.MarkCommitted? {
      k := 1;
      RunProceeds(s, 0);
    } else {
      var j := Drains(d0, key, made, t);
      k := j + 1;
      RunProceeds(s, j);
    }
  }

  /** After any crashes, a tick whose ledger has been written is completed by one uninterrupted retry,
      provided none of its records conflicts with an older record of its log. */
  lemma RetryCompletes(d0: Disk, key: Key, events: seq<Event>, p: Produced) returns (k: nat)
    requires key !in d0.ledger.processed && OnlyKey(events, key)
    requires var s := Run(System(d0, Stopped), events);
             && Idle(s.phase) && key in s.disk.ledger.processed
             && key in s.disk.replays && Compatible(d0, s.disk.replays[key])
    ensures Run(System(d0, Stopped), events + [Start(key, p)] + Proceeds(k)).phase == Completed(key)
  {
    var s := Run(System(d0, Stopped), events);
    var made := Made(events) + {p};
    RunKeepsInv(d0, key, made, events);
    AppliedHasKey(d0, key, made, s);
    StartKeepsInv(d0, key, made, s, p);
    var t := s.(phase := StartTick(s.disk, key, p));
    k := Drains(d0, key, made, t);
    RunSplits(System(d0, Stopped), events, [Start(key, p)]);
    assert Run(s, [Start(key, p)]) == t by { assert Run(s, [Start(key, p)][..0]) == s; }
    RunSplits(System(d0, Stopped), events + [Start(key, p)], Proceeds(k));
  }

  /** A conflicting record is the only other ending: then no run of this key ever completes. */
  lemma CompletionNeedsCompatibility(d0: Disk, key: Key, events: seq<Event>)
    requires key !in d0.ledger.processed && OnlyKey(events, key)
    requires Run(System(d0, Stopped), events).phase.Completed?
    ensures var d := Run(System(d0, Stopped), events).disk;
            key in d.replays && Compatible(d0, d.replays[key])
  {
    var p := CrashSafeTick(d0, key, events);
    forall n | 0 <= n < LOG_COUNT && p.records[n] != [] ensures Consistent(d0.logs[n] + p.records[n]) {
      RefusedExactlyOnConflict(d0.logs[n], p.records[n]);
    }
  }

  /** Once the ledger is written, the records of the tick are settled. */
  lemma StepKeepsRecords(d0: Disk, key: Key, made: set<Produced>, s: System, e: Event)
    requires Applied(d0, key, made, s) && (e.Start? ==> e.key == key)
    ensures key in Step(s, e).disk.replays && Step(s, e).disk.replays[key].records == s.disk.replays[key].records
  {
    AppliedHasKey(d0, key, made, s);
  }

  lemma OnlyKeyJoins(a: seq<Event>, b: seq<Event>, key: Key)
    requires OnlyKey(a, key) && OnlyKey(b, key)
    ensures OnlyKey(a + b, key)
  {}

  lemma {:induction false} RunKeepsRecords(d0: Disk, key: Key, events: seq<Event>, more: seq<Event>)
    requires key !in d0.ledger.processed && OnlyKey(events, key) && OnlyKey(more, key)
    requires key in Run(System(d0, Stopped), events).disk.ledger.processed
    ensures var s, t := Run(System(d0, Stopped), events).disk, Run(System(d0, Stopped), events + more).disk;
            && key in s.replays && key in t.replays && t.replays[key].records == s.replays[key].records
            && key in t.ledger.processed
    decreases |more|
  {
    var start := System(d0, Stopped);
    OnlyKeyJoins(events, more, key);
    RunKeepsInv(d0, key, Made(events), events);
    if more == [] {
      assert events + more == events;
    } else {
      var init, last := more[..|more| - 1], more[|more| - 1];
      RunKeepsRecords(d0, key, events, init);
      OnlyKeyJoins(events, init, key);
      RunKeepsInv(d0, key, Made(events + init), events + init);
      var s := Run(start, events + init);
      StepKeepsRecords(d0, key, Made(events + init), s, last);
      assert (events + more)[..|events + more| - 1] == events + init && (events + more)[|events + more| - 1] == last;
      RunKeepsInv(d0, key, Made(events + more), events + more);
      LedgerKeepsKey(d0, key, s, last);
    }
  }

  lemma LedgerKeepsKey(d0: Disk, key: Key, s: System, e: Event)
    requires key in s.disk.ledger.processed && (s.phase.WriteLedger? ==> key in s.phase.replay.ledger.processed)
    ensures key in Step(s, e).disk.ledger.processed
  {}

  /** A tick whose ledger has been written can still be completed if and only if none of its records
      conflicts with an older record of its log. */
  lemma CompletesIffCompatible(d0: Disk, key: Key, events: seq<Event>, p: Produced)
    requires key !in d0.ledger.processed && OnlyKey(events, key)
    requires var s := Run(System(d0, Stopped), events); Idle(s.phase) && key in s.disk.ledger.processed
    ensures var s := Run(System(d0, Stopped), events);
            && key in s.disk.replays
            && (Compatible(d0, s.disk.replays[key])
                <==> exists more :: OnlyKey(more, key) && Run(System(d0, Stopped), events + more).phase.Completed?)
  {
    var start := System(d0, Stopped);
    RunKeepsRecords(d0, key, events, []);
    if Compatible(d0, Run(start, events).disk.replays[key]) {
      var k := RetryCompletes(d0, key, events, p);
      var more := [Start(key, p)] + Proceeds(k);
      assert events + more == events + [Start(key, p)] + Proceeds(k);
      assert OnlyKey(more, key);
    }
    forall more | OnlyKey(more, key) && Run(start, events + more).phase.Completed?
      ensures Compatible(d0, Run(start, events).disk.replays[key])
    {
      OnlyKeyJoins(events, more, key);
      CompletionNeedsCompatibility(d0, key, events + more);
      RunKeepsRecords(d0, key, events, more);
    }
  }

  // ----- Another key in between -----

  /** An applied key is taken up again exactly when the ledger is still the one its record digested. */
  lemma RetryAcceptedIffUntouched(d: Disk, key: Key, p: Produced)
    requires Solvent(d.ledger) && key in d.ledger.processed
    requires key in d.replays && d.replays[key].key == key
    ensures StartTick(d, key, p) == WriteLedger(d.replays[key]) <==> d.replays[key].ledger == d.ledger
    ensures StartTick(d, key, p) == Raised <==> d.replays[key].ledger != d.ledger
  {}

  predicate Longer(l: Ledger, x: Replay, key: Key) { |l.processed| > |x.ledger.processed| && key in l.processed }

  /** Other keys have been applied since this key's record was written. */
  predicate Overtaken(s: System, key: Key) {
    && key in s.disk.replays
    && var x := s.disk.replays[key];
    && Longer(s.disk.ledger, x, key)
    && (s.phase.WriteReplay? ==> s.phase.replay.key != key && Longer(s.phase.replay.ledger, x, key))
    && (s.phase.WriteLedger? ==> Longer(s.phase.replay.ledger, x, key))
  }

  /** Once another key has been applied on top, no retry of this key is ever accepted again: records of an
      interrupted tick that had not reached its logs by then stay missing. */
  lemma {:induction false} OvertakenForever(s: System, key: Key, events: seq<Event>, p: Produced)
    requires Overtaken(s, key)
    ensures Overtaken(Run(s, events), key)
    ensures StartTick(Run(s, events).disk, key, p) == Raised
  {
    if events != [] {
      OvertakenForever(s, key, events[..|events| - 1], p);
      var t := Run(s, events[..|events| - 1]);
      match events[|events| - 1] {
        case Start(other, q) =>
        case Proceed =>
        case Crash =>
      }
    }
  }

  /** An applied key is overtaken as soon as the ledger of another key's tick is written. */
  lemma AnotherKeyOvertakes(s: System, key: Key, other: Key, p: Produced)
    requires Idle(s.phase) && Solvent(s.disk.ledger) && key in s.disk.ledger.processed
    requires key in s.disk.replays && s.disk.replays[key].ledger == s.disk.ledger
    requires other !in s.disk.ledger.processed && Solvent(NewReplay(s.disk.ledger, other, p).ledger)
    ensures var t := Run(s, [Start(other, p), Proceed, Proceed]);
            && Overtaken(t, key) && t.disk == s.disk.(replays := s.disk.replays[other := NewReplay(s.disk.ledger, other, p)],
                                                      ledger := NewReplay(s.disk.ledger, other, p).ledger)
            && t.phase == OpenLog(NewReplay(s.disk.ledger, other, p), 0)
  {
    RunThree(s, Start(other, p), Proceed, Proceed);
  }

  lemma RunThree(s: System, e: Event, f: Event, g: Event)
    ensures Run(s, [e, f, g]) == Step(Step(Step(s, e), f), g)
  {
    RunSplits(s, [e, f], [g]);
    RunSplits(s, [e], [f]);
    assert [e, f, g] == [e, f] + [g] && [e, f] == [e] + [f];
    RunOne(s, e);
    RunOne(Step(s, e), f);
    RunOne(Step(Step(s, e), f), g);
  }

  lemma RunOne(s: System, e: Event)
    ensures Run(s, [e]) == Step(s, e)
  {
    assert [e][..0] == [];
  }

  /** The record is in no log, no other tick has it, and the key that has it is refused. */
  ghost predicate Missing(s: System, key: Key, n: LogIndex, r: Record) {
    && Overtaken(s, key) && r !in s.disk.logs[n]
    && (forall k :: k in s.disk.replays && k != key ==> r !in s.disk.replays[k].records[n])
    && (match s.phase
        case WriteReplay(x) => r !in x.records[n]
        case WriteLedger(x) => r !in x.records[n]
        case OpenLog(x, _) => r !in x.records[n]
        case AppendLog(x, m, pending) => r !in x.records[n] && (m == n ==> r !in pending)
        case _ => true)
  }

  /** No tick started from here on produces the record. */
  predicate WithoutRecord(events: seq<Event>, n: LogIndex, r: Record) {
    forall i :: 0 <= i < |events| && events[i].Start? ==> r !in events[i].produced.records[n]
  }

  lemma MissingStep(s: System, key: Key, n: LogIndex, r: Record, e: Event)
    requires Missing(s, key, n, r) && (e.Start? ==> r !in e.produced.records[n])
    requires Overtaken(Step(s, e), key)
    ensures Missing(Step(s, e), key, n, r)
  {
    if e.Proceed? && s.phase.OpenLog? && s.phase.done < LOG_COUNT {
      var m := s.phase.done;
      if Appended(s.disk.logs[m], s.phase.replay.records[m]).Some? {
        AppendAddsOnlyRecords(s.disk.logs[m], s.phase.replay.records[m]);
      }
    }
  }

  /** A record an overtaken tick had not appended is never appended by any retry. */
  lemma {:induction false} MissingForever(s: System, key: Key, n: LogIndex, r: Record, events: seq<Event>)
    requires Missing(s, key, n, r) && WithoutRecord(events, n, r)
    ensures Missing(Run(s, events), key, n, r)
  {
    if events != [] {
      var init, last := events[..|events| - 1], events[|events| - 1];
      assert forall i :: 0 <= i < |init| ==> init[i] == events[i];
      MissingForever(s, key, n, r, init);
      OvertakenForever(s, key, events, Nothing());
      MissingStep(Run(s, init), key, n, r, last);
    }
  }

  function Nothing(): Produced { Produced([], 0, [[], [], [], [], [], [], [], [], []], 0) }

  /** Whatever crashes came before: once another key is applied on top of an interrupted tick, the records it
      had not appended stay missing, and its key is refused. */
  lemma OvertakenTickLosesRecords(s: System, key: Key, other: Key, q: Produced, n: LogIndex, r: Record, later: seq<Event>, p: Produced)
    requires Idle(s.phase) && Solvent(s.disk.ledger) && key in s.disk.ledger.processed
    requires key in s.disk.replays && s.disk.replays[key].ledger == s.disk.ledger
    requires other !in s.disk.ledger.processed && Solvent(NewReplay(s.disk.ledger, other, q).ledger)
    requires r !in s.disk.logs[n] && r !in q.records[n] && WithoutRecord(later, n, r)
    requires forall k :: k in s.disk.replays && k != key ==> r !in s.disk.replays[k].records[n]
    ensures var t := Run(Run(s, [Start(other, q), Proceed, Proceed]), later);
            r !in t.disk.logs[n] && StartTick(t.disk, key, p) == Raised
  {
    AnotherKeyOvertakes(s, key, other, q);
    var overtaken := Run(s, [Start(other, q), Proceed, Proceed]);
    MissingForever(overtaken, key, n, r, later);
    OvertakenForever(overtaken, key, later, p);
  }

  /** Such runs exist from every solvent ledger: a tick that crashes between its ledger and its logs, and then
      another key, lose every record the first one had produced. */
  lemma CrashThenOtherKeyLosesRecords(d0: Disk, key: Key, p: Produced, other: Key, q: Produced, n: LogIndex, r: Record, later: seq<Event>)
    requires Solvent(d0.ledger) && key !in d0.ledger.processed && other !in d0.ledger.processed && key != other
    requires Solvent(NewReplay(d0.ledger, key, p).ledger) && Solvent(NewReplay(d0.ledger, other, q).ledger)
    requires r in p.records[n] && r !in d0.logs[n] && r !in q.records[n] && WithoutRecord(later, n, r)
    requires forall k :: k in d0.replays ==> r !in d0.replays[k].records[n]
    ensures var crashed := Run(System(d0, Stopped), [Start(key, p), Proceed, Proceed] + [Crash]);
            var t := Run(Run(crashed, [Start(other, q), Proceed, Proceed]), later);
            && key in crashed.disk.replays && r in crashed.disk.replays[key].records[n] && key in crashed.disk.ledger.processed
            && r !in t.disk.logs[n] && StartTick(t.disk, key, p) == Raised
  {
    var start := System(d0, Stopped);
    RunThree(start, Start(key, p), Proceed, Proceed);
    RunSplits(start, [Start(key, p), Proceed, Proceed], [Crash]);
    var written := Run(start, [Start(key, p), Proceed, Proceed]);
    RunOne(written, Crash);
    OvertakenTickLosesRecords(written.(phase := Stopped), key, other, q, n, r, later, p);
  }

  // ----- The undisturbed tick -----

  /** The replay a tick follows: the stored one of an applied key, or a new one; None where it raises. */
  function Replaying(l: Ledger, replays: map<Key, Replay>, key: Key, p: Produced): Option<Replay> {
    if !Solvent(l) then None
    else if key in l.processed then
      if key in replays && replays[key].key == key && replays[key].ledger == l then Some(replays[key]) else None
    else if Solvent(NewReplay(l, key, p).ledger) then Some(NewReplay(l, key, p)) else None
  }

  /** It is the one the tick of the crash-safe machine starts with. */
  lemma ReplayingIsStart(d: Disk, key: Key, p: Produced)
    ensures match StartTick(d, key, p)
            case WriteReplay(x) => key !in d.ledger.processed && Replaying(d.ledger, d.replays, key, p) == Some(x)
            case WriteLedger(x) => key in d.ledger.processed && Replaying(d.ledger, d.replays, key, p) == Some(x)
            case other => other == Raised && Replaying(d.ledger, d.replays, key, p) == None
  {}

  class PaperLoop {
    var ledger: Ledger
    var replays: map<Key, Replay>
    var logs: array<Log>
    var latest: Option<nat>

    ghost predicate Valid()
      reads this
    {
      logs.Length == LOG_COUNT
    }

    constructor (l: Ledger)
      ensures Valid() && fresh(logs) && ledger == l && replays == map[] && latest == None
      ensures forall n :: 0 <= n < LOG_COUNT ==> logs[n] == []
    {
      ledger, replays, latest := l, map[], None;
      logs := new Log[LOG_COUNT](_ => []);
    }

    /** Appends each batch to its log, stopping at the first conflict. */
    method AppendAll(records: Logs) returns (ok: bool)
      requires Valid()
      modifies logs
      ensures Valid()
      ensures ok <==> forall n :: 0 <= n < LOG_COUNT ==> Appended(old(logs[n]), records[n]).Some?
      ensures ok ==> forall n :: 0 <= n < LOG_COUNT ==> Some(logs[n]) == Appended(old(logs[n]), records[n])
      ensures forall n :: 0 <= n < LOG_COUNT ==> Some(logs[n]) == Appended(old(logs[n]), records[n]) || logs[n] == old(logs[n])
    {
      for n := 0 to LOG_COUNT
        invariant forall m :: 0 <= m < n ==> Some(logs[m]) == Appended(old(logs[m]), records[m])
        invariant forall m :: n <= m < LOG_COUNT ==> logs[m] == old(logs[m])
      {
        var result := AppendJsonl(logs[n], records[n]);
        if result.None? {
          return false;
        }
        logs[n] := result.value;
      }
      return true;
    }

    /** One tick: a new key is computed, journalled and applied; an applied key is replayed from its record.  It
        succeeds exactly when the ledger is solvent, there is a replay to follow and no append conflicts. */
    method RunTick(key: Key, p: Produced) returns (ok: bool)
      requires Valid()
      modifies this, logs
      ensures Valid() && logs == old(logs)
      ensures var x := Replaying(old(ledger), old(replays), key, p);
              && (ok <==> x.Some? && forall n :: 0 <= n < LOG_COUNT ==> Appended(old(logs[n]), x.value.records[n]).Some?)
              && (ok ==>
                    && ledger == x.value.ledger && latest == Some(x.value.state)
                    && replays == old(replays)[key := x.value.(committed := true)]
                    && forall n :: 0 <= n < LOG_COUNT ==> Some(logs[n]) == Appended(old(logs[n]), x.value.records[n]))
              && (x.None? ==> ledger == old(ledger) && replays == old(replays) && latest == old(latest) && logs[..] == old(logs[..]))
    {
      if !Solvent(ledger) {
        return false;
      }
      var replay: Replay;
      if key in ledger.processed {
        if key !in replays || replays[key].key != key || replays[key].ledger != ledger {
          return false;
        }
        replay := replays[key];
      } else {
        replay := NewReplay(ledger, key, p);
        if !Solvent(replay.ledger) {
          return false;
        }
        replays := replays[key := replay];
      }
      ledger := replay.ledger;
      ok := AppendAll(replay.records);
      if !ok {
        return false;
      }
      latest := Some(replay.state);
      replays := replays[key := replays[key].(committed := true)];
    }
  }
}
