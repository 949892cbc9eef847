/**
  When an applied tick can still be completed, whatever keys have run before and in between
  (scripts/mosaic-murmurs-paper-memory-loop.py:698-733, 786-834).
 */
module JournalResume {
  import opened Wrappers
  import opened JournalLog
  import opened Journal
  import opened JournalRecovery

  // ----- Replay records over runs of any keys -----

  /** A replay record files a solvent ledger whose last applied key is its own. */
  predicate ReplayOk(key: Key, x: Replay) {
    && x.key == key && Solvent(x.ledger)
    && var keys := x.ledger.processed;
    && |keys| > 0 && keys[|keys| - 1] == key && key !in keys[..|keys| - 1]
  }

  predicate ReplaysOk(s: System) {
    && (forall k :: k in s.disk.replays ==> ReplayOk(k, s.disk.replays[k]))
    && (s.phase.WriteReplay? ==> ReplayOk(s.phase.replay.key, s.phase.replay))
  }

  lemma NewReplayOk(l: Ledger, key: Key, p: Produced)
    requires key !in l.processed && Solvent(NewReplay(l, key, p).ledger)
    ensures ReplayOk(key, NewReplay(l, key, p))
  {
    assert (l.processed + [key])[..|l.processed|] == l.processed;
  }

  lemma StepKeepsReplays(s: System, e: Event)
    requires ReplaysOk(s)
    ensures ReplaysOk(Step(s, e))
  {
    if e.Start? && Idle(s.phase) && StartTick(s.disk, e.key, e.produced).WriteReplay? {
      NewReplayOk(s.disk.ledger, e.key, e.produced);
    }
  }

  /** Over any run of any keys every replay record stays well formed. */
  lemma {:induction false} RunKeepsReplays(s: System, events: seq<Event>)
    requires ReplaysOk(s)
    ensures ReplaysOk(Run(s, events))
  {
    if events != [] {
      RunKeepsReplays(s, events[..|events| - 1]);
      StepKeepsReplays(Run(s, events[..|events| - 1]), events[|events| - 1]);
    }
  }

  // ----- The applied tick seen from where it stopped -----

  /** The disk as if only this key were missing from its ledger: the base the tick resumes from. */
  function Base(d: Disk, key: Key): Disk
    requires key in d.replays && ReplayOk(key, d.replays[key])
  {
    var x := d.replays[key].ledger;
    d.(ledger := Ledger(x.processed[..|x.processed| - 1], x.cash, x.rest))
  }

  function Outcome(x: Replay): Produced { Produced(x.ledger.cash, x.ledger.rest, x.records, x.state) }

  /** The ledger is still the one the key's record digested. */
  predicate Untouched(d: Disk, key: Key) { key in d.replays && d.replays[key].ledger == d.ledger }

  lemma StoppedIsApplied(d: Disk, key: Key, made: set<Produced>)
    requires Untouched(d, key) && ReplayOk(key, d.replays[key]) && Outcome(d.replays[key]) in made
    ensures Applied(Base(d, key), key, made, System(d, Stopped)) && key !in Base(d, key).ledger.processed
  {
    var x := d.replays[key];
    var keys := x.ledger.processed;
    assert keys == keys[..|keys| - 1] + [key];
    assert x.(committed := false) == NewReplay(Base(d, key).ledger, key, Outcome(x));
  }

  lemma AppliedStep(d0: Disk, key: Key, made: set<Produced>, s: System, e: Event)
    requires Applied(d0, key, made, s) && key !in d0.ledger.processed && (e.Start? ==> e.key == key && e.produced in made)
    ensures Applied(d0, key, made, Step(s, e))
    ensures Step(s, e).disk.replays[key].records == s.disk.replays[key].records
  {
    AppliedHasKey(d0, key, made, s);
    StepKeepsRecords(d0, key, made, s, e);
    match e {
      case Start(_, p) => if Idle(s.phase) { AppliedStart(d0, key, made, s, p); }
      case Proceed => ProceedKeepsApplied(d0, key, made, s);
      case Crash =>
    }
  }

  lemma AppliedStart(d0: Disk, key: Key, made: set<Produced>, s: System, p: Produced)
    requires Applied(d0, key, made, s) && Idle(s.phase)
    ensures Applied(d0, key, made, s.(phase := StartTick(s.disk, key, p)))
  {
    AppliedHasKey(d0, key, made, s);
  }

  lemma ProceedKeepsApplied(d0: Disk, key: Key, made: set<Produced>, s: System)
    requires Applied(d0, key, made, s) && key !in d0.ledger.processed
    ensures Applied(d0, key, made, ProceedTick(s))
  {
    match s.phase {
      case WriteLedger(_) => WriteLedgerKeepsInv(d0, key, made, s);
      case OpenLog(_, _) => OpenLogKeepsInv(d0, key, made, s);
      case AppendLog(_, _, _) => AppendLogKeepsInv(d0, key, made, s);
      case _ =>
    }
  }

  lemma {:induction false} AppliedRuns(d0: Disk, key: Key, made: set<Produced>, s: System, more: seq<Event>)
    requires Applied(d0, key, made, s) && key !in d0.ledger.processed && OnlyKey(more, key) && Made(more) <= made
    ensures Applied(d0, key, made, Run(s, more))
    ensures Run(s, more).disk.replays[key].records == s.disk.replays[key].records
  {
    if more != [] {
      var init, last := more[..|more| - 1], more[|more| - 1];
      forall p | p in Made(init) ensures p in Made(more) {
        var i :| 0 <= i < |init| && init[i].Start? && init[i].produced == p;
        assert more[i] == init[i];
      }
      AppliedRuns(d0, key, made, s, init);
      assert last.Start? ==> last.produced in Made(more);
      AppliedStep(d0, key, made, Run(s, init), last);
    }
  }

  // ----- Completion -----

  /** No record of a nonempty batch conflicts with what its log holds now. */
  ghost predicate CompatibleNow(d: Disk, key: Key)
    requires key in d.replays
  {
    Compatible(d, d.replays[key])
  }

  ghost predicate CanComplete(d: Disk, key: Key) {
    exists more :: OnlyKey(more, key) && Run(System(d, Stopped), more).phase.Completed?
  }

  lemma CompletedIsCompatible(d: Disk, key: Key, more: seq<Event>)
    requires Untouched(d, key) && ReplayOk(key, d.replays[key])
    requires OnlyKey(more, key) && Run(System(d, Stopped), more).phase.Completed?
    ensures CompatibleNow(d, key)
  {
    var made := Made(more) + {Outcome(d.replays[key])};
    StoppedIsApplied(d, key, made);
    AppliedRuns(Base(d, key), key, made, System(d, Stopped), more);
    var records := d.replays[key].records;
    forall n | 0 <= n < LOG_COUNT && records[n] != [] ensures Consistent(d.logs[n] + records[n]) {
      RefusedExactlyOnConflict(d.logs[n], records[n]);
    }
  }

  lemma CompatibleCompletes(d: Disk, key: Key)
    requires Untouched(d, key) && ReplayOk(key, d.replays[key]) && CompatibleNow(d, key)
    ensures CanComplete(d, key)
  {
    var x := d.replays[key];
    var made := {Outcome(x)};
    var s := System(d, Stopped);
    StoppedIsApplied(d, key, made);
    AppliedHasKey(Base(d, key), key, made, s);
    AppliedStart(Base(d, key), key, made, s, Outcome(x));
    var t := s.(phase := StartTick(d, key, Outcome(x)));
    var k := Drains(Base(d, key), key, made, t);
    RunOne(s, Start(key, Outcome(x)));
    RunSplits(s, [Start(key, Outcome(x))], Proceeds(k));
    var more := [Start(key, Outcome(x))] + Proceeds(k);
    assert OnlyKey(more, key) && Run(s, more).phase.Completed?;
  }

  /** A key that is refused leaves the disk alone, however often it is tried. */
  lemma {:induction false} RefusedStays(d: Disk, key: Key, more: seq<Event>)
    requires OnlyKey(more, key) && forall p :: StartTick(d, key, p) == Raised
    ensures var s := Run(System(d, Stopped), more); s.disk == d && (s.phase.Stopped? || s.phase.Raised?)
  {
    if more != [] {
      var init := more[..|more| - 1];
      assert forall i :: 0 <= i < |init| ==> init[i] == more[i];
      RefusedStays(d, key, init);
    }
  }

  lemma TouchedIsRefused(d: Disk, key: Key, p: Produced)
    requires key in d.ledger.processed && !Untouched(d, key)
    ensures StartTick(d, key, p) == Raised
  {}

  /** Whatever ran before: an applied key can still be completed by its own retries if and only if no other key's
      ledger has been written since, and no record of its batches conflicts with what the logs hold now. */
  lemma ResumesIff(d: Disk, key: Key)
    requires key in d.ledger.processed && (key in d.replays ==> ReplayOk(key, d.replays[key]))
    ensures CanComplete(d, key) <==> Untouched(d, key) && CompatibleNow(d, key)
  {
    if Untouched(d, key) {
      forall more | OnlyKey(more, key) && Run(System(d, Stopped), more).phase.Completed? ensures CompatibleNow(d, key) {
        CompletedIsCompatible(d, key, more);
      }
      if CompatibleNow(d, key) { CompatibleCompletes(d, key); }
    } else {
      forall p ensures StartTick(d, key, p) == Raised { TouchedIsRefused(d, key, p); }
      forall more | OnlyKey(more, key) ensures !Run(System(d, Stopped), more).phase.Completed? {
        RefusedStays(d, key, more);
      }
    }
  }

  /** In particular after any run of any keys, crashes included. */
  lemma ResumesAfterAnyRunIff(s: System, events: seq<Event>, key: Key)
    requires ReplaysOk(s) && key in Run(s, events).disk.ledger.processed
    ensures var d := Run(s, events).disk; CanComplete(d, key) <==> Untouched(d, key) && CompatibleNow(d, key)
  {
    RunKeepsReplays(s, events);
    ResumesIff(Run(s, events).disk, key);
  }
}
