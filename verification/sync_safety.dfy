/**
  Safety of every interleaving of SyncProtocol, for any number of calls and any write outcomes.
 */
module SyncSafety {
  import opened SyncAuth
  import opened SyncState
  import opened SyncHistory
  import opened SyncProtocol

  // ----- The invariant -----

  ghost predicate ClockInv(s: System) {
    && 0 <= s.clock <= MAX_CLOCK
    && (forall k :: 0 <= k < |s.commits| ==> s.commits[k].time <= s.clock)
  }

  predicate HoldsTicket(s: System, r: Request) {
    Verified(r) && r.nonce in s.tickets && s.tickets[r.nonce] == Ticket(r.deviceId, r.expiresAt)
  }

  ghost predicate OriginInv(s: System) {
    && (forall id :: id in s.calls ==> HoldsTicket(s, s.calls[id].request))
    && (forall a, b :: a in s.calls && b in s.calls && a != b ==> s.calls[a].token != s.calls[b].token)
    && (forall k :: 0 <= k < |s.commits| ==> CameFrom(s, s.commits[k]))
  }

  predicate CameFrom(s: System, x: Commit) {
    x.call in s.calls && s.calls[x.call].request == x.request && s.calls[x.call].token == x.token
  }

  ghost predicate RosterOk(c: Config, s: System, i: nat)
    requires i < |s.rosters|
  {
    && 1 <= s.rosters[i].source <= |s.commits|
    && s.rosters[i].payload == RosterPayload(At(c, s.commits, s.rosters[i].source), c)
  }

  ghost predicate RosterInv(c: Config, s: System) {
    && (forall i :: 0 <= i < |s.rosters| ==> RosterOk(c, s, i))
    && (forall i, j :: 0 <= i < j < |s.rosters| ==> s.rosters[i].payload.revision < s.rosters[j].payload.revision)
  }

  ghost predicate PendingOk(c: Config, s: System, call: Call, v: nat, next: State, time: int)
    requires v <= |s.commits|
  {
    && 0 <= time <= s.clock
    && (forall k :: 0 <= k < v ==> s.commits[k].time <= time)
    && Transition(At(c, s.commits, v), call.request, c, time, call.token) == Ok(next)
  }

  ghost predicate OwnOk(s: System, id: nat, own: nat) {
    own < |s.commits| && s.commits[own].call == id
  }

  ghost predicate PublishedOk(c: Config, s: System, own: nat, v: nat, r: nat) {
    && own < v <= |s.commits| && 0 < r <= |s.rosters|
    && s.rosters[r - 1].payload == RosterPayload(At(c, s.commits, v), c)
  }

  ghost predicate CallOk(c: Config, s: System, id: nat, call: Call) {
    match call.pc
    case ReadControl(_) => true
    case ReadClock(_, v) => v <= |s.commits|
    case WriteControl(_, v, next, time) => v <= |s.commits| && PendingOk(c, s, call, v, next, time)
    case ReadRoster(_, own) => OwnOk(s, id, own)
    case ReadControlAgain(_, own, r) => OwnOk(s, id, own) && r <= |s.rosters|
    case WriteRoster(_, own, r, v) =>
      && OwnOk(s, id, own) && own < v <= |s.commits| && r <= |s.rosters|
      && (r > 0 ==> s.rosters[r - 1].payload.revision < At(c, s.commits, v).rosterRevision)
    case Recheck(own, v, r) => OwnOk(s, id, own) && PublishedOk(c, s, own, v, r)
    case Finished(own, v, r, granted) =>
      && OwnOk(s, id, own) && PublishedOk(c, s, own, v, r)
      && IsMember(At(c, s.commits, v), call.request) && granted == GrantsStorage(call.request.action)
    case Failed(f) => f.Denied? || f.OutOfAttempts? || f.Interrupted?
  }

  ghost predicate Inv(c: Config, s: System) {
    && ValidHistory(c, s.commits)
    && ClockInv(s) && OriginInv(s) && RosterInv(c, s)
    && (forall id :: id in s.calls ==> CallOk(c, s, id, s.calls[id]))
  }

  // ----- Preservation -----

  predicate Extends(s: System, t: System) {
    && s.clock <= t.clock
    && s.commits <= t.commits
    && s.rosters <= t.rosters
  }

  lemma AtExtends(c: Config, s: System, t: System, v: nat)
    requires s.commits <= t.commits && v <= |s.commits|
    ensures At(c, t.commits, v) == At(c, s.commits, v)
  {}

  /** What a call relies on survives whatever other calls do. */
  lemma CallStable(c: Config, s: System, t: System, id: nat, call: Call)
    requires Extends(s, t) && CallOk(c, s, id, call)
    ensures CallOk(c, t, id, call)
  {
    match call.pc {
      case WriteControl(_, v, _, _) => AtExtends(c, s, t, v);
      case WriteRoster(_, _, _, v) => AtExtends(c, s, t, v);
      case Recheck(_, v, _) => AtExtends(c, s, t, v);
      case Finished(_, v, _, _) => AtExtends(c, s, t, v);
      case _ =>
    }
  }

  lemma CallsStable(c: Config, s: System, t: System, id: nat)
    requires Inv(c, s) && Extends(s, t)
    requires forall o :: o in t.calls && o != id ==> o in s.calls && t.calls[o] == s.calls[o]
    requires id in t.calls ==> CallOk(c, t, id, t.calls[id])
    ensures forall o :: o in t.calls ==> CallOk(c, t, o, t.calls[o])
  {
    forall o | o in t.calls && o != id ensures CallOk(c, t, o, t.calls[o]) {
      CallStable(c, s, t, o, s.calls[o]);
    }
  }

  /** A step that writes neither blob keeps the invariant if the call it moves stays in order. */
  lemma LocalStep(c: Config, s: System, id: nat, pc: Pc)
    requires Inv(c, s) && id in s.calls
    requires CallOk(c, s, id, s.calls[id].(pc := pc))
    ensures Inv(c, Put(s, id, s.calls[id], pc))
  {
    var t := Put(s, id, s.calls[id], pc);
    CallStable(c, s, t, id, s.calls[id].(pc := pc));
    CallsStable(c, s, t, id);
    RostersStable(c, s, t);
    OriginStable(s, t, id, pc);
  }

  /** A write computed from the latest version with a clock reading taken after it extends the history. */
  lemma HistoryGrowsBy(c: Config, s: System, x: Commit)
    requires ValidHistory(c, s.commits) && HoldsTicket(s, x.request)
    requires forall k :: 0 <= k < |s.commits| ==> HoldsTicket(s, s.commits[k].request)
    requires 0 <= s.clock <= MAX_CLOCK
    requires PendingOk(c, s, Call(x.request, x.token, ReadControl(0)), |s.commits|, x.state, x.time)
    ensures ValidHistory(c, s.commits + [x])
  {
    assert At(c, s.commits + [x], |s.commits|) == At(c, s.commits, |s.commits|);
    StepsAppend(c, s.commits, x);
    HistoryAppends(c, s.commits, x);
  }

  lemma HistoryGrows(c: Config, s: System, id: nat)
    requires Inv(c, s) && id in s.calls && s.calls[id].pc.WriteControl? && s.calls[id].pc.version == |s.commits|
    ensures ValidHistory(c, s.commits + [CommitOf(s, id)])
    ensures s.calls[id].pc.time <= s.clock
  {
    assert CallOk(c, s, id, s.calls[id]);
    forall k | 0 <= k < |s.commits| ensures HoldsTicket(s, s.commits[k].request) {
      assert CameFrom(s, s.commits[k]);
    }
    HistoryGrowsBy(c, s, CommitOf(s, id));
  }

  function CommitOf(s: System, id: nat): Commit
    requires id in s.calls && s.calls[id].pc.WriteControl?
  {
    var call := s.calls[id];
    Commit(call.pc.next, call.request, call.pc.time, call.token, id)
  }

  lemma OriginStable(s: System, t: System, id: nat, pc: Pc)
    requires OriginInv(s) && id in s.calls && t.tickets == s.tickets && t.calls == s.calls[id := s.calls[id].(pc := pc)]
    requires t.commits == s.commits || (s.calls[id].pc.WriteControl? && t.commits == s.commits + [CommitOf(s, id)])
    ensures OriginInv(t)
  {
    forall k | 0 <= k < |t.commits| ensures CameFrom(t, t.commits[k]) {
      if k < |s.commits| { assert CameFrom(s, s.commits[k]); }
    }
  }

  lemma RostersStable(c: Config, s: System, t: System)
    requires RosterInv(c, s) && s.commits <= t.commits && t.rosters == s.rosters
    ensures RosterInv(c, t)
  {
    forall i | 0 <= i < |t.rosters| ensures RosterOk(c, t, i) {
      assert RosterOk(c, s, i);
      AtExtends(c, s, t, s.rosters[i].source);
    }
  }

  lemma RosterAppends(c: Config, s: System, t: System, v: nat)
    requires RosterInv(c, s) && t.commits == s.commits && 1 <= v <= |s.commits|
    requires t.rosters == s.rosters + [RosterWrite(RosterPayload(At(c, s.commits, v), c), v)]
    requires |s.rosters| > 0 ==> s.rosters[|s.rosters| - 1].payload.revision < At(c, s.commits, v).rosterRevision
    ensures RosterInv(c, t)
  {
    forall i | 0 <= i < |t.rosters| ensures RosterOk(c, t, i) {
      if i < |s.rosters| { assert RosterOk(c, s, i); }
    }
  }

  lemma ControlWritten(c: Config, s: System, id: nat, pc: Pc)
    requires Inv(c, s) && id in s.calls && s.calls[id].pc.WriteControl? && s.calls[id].pc.version == |s.commits|
    requires pc == ReadRoster(0, |s.commits|) || pc.ReadControl? || pc == Failed(OutOfAttempts) || pc == Failed(Interrupted)
    ensures Inv(c, Put(s, id, s.calls[id], pc).(commits := s.commits + [CommitOf(s, id)]))
  {
    var t := Put(s, id, s.calls[id], pc).(commits := s.commits + [CommitOf(s, id)]);
    HistoryGrows(c, s, id);
    OriginStable(s, t, id, pc);
    RostersStable(c, s, t);
    CallsStable(c, s, t, id);
  }

  lemma WriteControlStep(c: Config, s: System, id: nat, o: Outcome)
    requires Inv(c, s) && id in s.calls && s.calls[id].pc.WriteControl?
    ensures Inv(c, StepWriteControl(s, id, s.calls[id], o))
  {
    var call := s.calls[id];
    var pc := StepWriteControl(s, id, call, o).calls[id].pc;
    if o.NotApplied? || call.pc.version != |s.commits| {
      LocalStep(c, s, id, pc);
    } else {
      ControlWritten(c, s, id, pc);
    }
  }

  /** Reading the roster before control: the published roster can be neither newer than the control
      state read after it nor different at the same revision. */
  lemma NeverAhead(c: Config, s: System, r: nat)
    requires ValidHistory(c, s.commits) && RosterInv(c, s) && r <= |s.rosters|
    ensures !Decide(RosterAt(s.rosters, r), RosterPayload(At(c, s.commits, |s.commits|), c), c).Refuse?
  {
    EveryGroupId(c, s.commits, |s.commits|);
    if r > 0 {
      assert RosterOk(c, s, r - 1);
      RevisionNamesContent(c, s.commits, s.rosters[r - 1].source, |s.commits|);
      EveryGroupId(c, s.commits, s.rosters[r - 1].source);
    }
  }

  lemma {:induction false} EveryGroupId(c: Config, h: History, k: nat)
    requires ValidHistory(c, h) && k <= |h|
    ensures At(c, h, k).groupId == c.groupId
  {
    if k > 0 {
      EveryGroupId(c, h, k - 1);
      CommitIsGood(c, h, k - 1);
    }
  }

  lemma ReadControlAgainStep(c: Config, s: System, id: nat)
    requires Inv(c, s) && id in s.calls && s.calls[id].pc.ReadControlAgain?
    requires WellFormed(s, s.calls[id].pc)
    ensures Inv(c, Put(s, id, s.calls[id], StepReadControlAgain(c, s, s.calls[id])))
  {
    var call := s.calls[id];
    assert CallOk(c, s, id, call);
    EveryStateValid(c, s.commits, |s.commits|);
    NeverAhead(c, s, call.pc.roster);
    LocalStep(c, s, id, StepReadControlAgain(c, s, call));
  }

  function Written(c: Config, s: System, id: nat, pc: Pc, v: nat): System
    requires id in s.calls && v <= |s.commits|
  {
    Put(s, id, s.calls[id], pc).(rosters := s.rosters + [RosterWrite(RosterPayload(At(c, s.commits, v), c), v)])
  }

  lemma RosterWritten(c: Config, s: System, id: nat, pc: Pc, v: nat, t: System)
    requires Inv(c, s) && id in s.calls && 1 <= v <= |s.commits| && t == Written(c, s, id, pc, v)
    requires |s.rosters| > 0 ==> s.rosters[|s.rosters| - 1].payload.revision < At(c, s.commits, v).rosterRevision
    requires CallOk(c, t, id, t.calls[id])
    ensures Inv(c, t)
  {
    OriginStable(s, t, id, pc);
    RosterAppends(c, s, t, v);
    CallsStable(c, s, t, id);
  }

  lemma WriteRosterStep(c: Config, s: System, id: nat, o: Outcome)
    requires Inv(c, s) && id in s.calls && s.calls[id].pc.WriteRoster? && WellFormed(s, s.calls[id].pc)
    ensures Inv(c, StepWriteRoster(c, s, id, s.calls[id], o))
  {
    var call := s.calls[id];
    var pc := StepWriteRoster(c, s, id, call, o).calls[id].pc;
    assert CallOk(c, s, id, call);
    if o.NotApplied? || call.pc.roster != |s.rosters| {
      LocalStep(c, s, id, pc);
    } else {
      RosterWritten(c, s, id, pc, call.pc.version, Written(c, s, id, pc, call.pc.version));
    }
  }

  lemma ReadClockStep(c: Config, s: System, id: nat)
    requires Inv(c, s) && id in s.calls && s.calls[id].pc.ReadClock? && WellFormed(s, s.calls[id].pc)
    ensures Inv(c, Put(s, id, s.calls[id], StepReadClock(c, s, s.calls[id])))
  {
    LocalStep(c, s, id, StepReadClock(c, s, s.calls[id]));
  }

  lemma CallStep(c: Config, s: System, id: nat, o: Outcome)
    requires Inv(c, s) && id in s.calls && WellFormed(s, s.calls[id].pc)
    ensures Inv(c, StepCall(c, s, id, o))
  {
    var call := s.calls[id];
    assert CallOk(c, s, id, call);
    match call.pc {
      case ReadControl(n) =>
        EveryStateValid(c, s.commits, |s.commits|);
        LocalStep(c, s, id, ReadClock(n, |s.commits|));
      case ReadClock(_, _) => ReadClockStep(c, s, id);
      case WriteControl(_, _, _, _) => WriteControlStep(c, s, id, o);
      case ReadRoster(n, own) => LocalStep(c, s, id, ReadControlAgain(n, own, |s.rosters|));
      case ReadControlAgain(_, _, _) => ReadControlAgainStep(c, s, id);
      case WriteRoster(_, _, _, _) => WriteRosterStep(c, s, id, o);
      case Recheck(_, _, _) => LocalStep(c, s, id, StepRecheck(c, s, call));
      case Finished(_, _, _, _) =>
      case Failed(_) =>
    }
  }

  /** Time passes, a challenge is issued or a call begins: nothing else about the calls changes. */
  predicate Arrives(s: System, t: System, id: nat) {
    && s.clock <= t.clock <= MAX_CLOCK && t.commits == s.commits && t.rosters == s.rosters
    && (forall n :: n in s.tickets ==> n in t.tickets && t.tickets[n] == s.tickets[n])
    && (forall o :: o in s.calls ==> o in t.calls && t.calls[o] == s.calls[o])
    && (forall o :: o in t.calls && o !in s.calls ==> o == id && t.calls[o].pc.ReadControl?)
  }

  lemma OtherArrives(c: Config, s: System, e: Event)
    requires Enabled(s, e) && (e.Tick? || e.IssueChallenge? || e.Begin?) && 0 <= s.clock <= MAX_CLOCK
    ensures Arrives(s, Step(c, s, e), if e.Begin? then e.id else 0)
  {}

  lemma ArrivingCalls(c: Config, s: System, t: System, id: nat)
    requires Inv(c, s) && Arrives(s, t, id)
    ensures forall o :: o in t.calls ==> CallOk(c, t, o, t.calls[o])
  {
    forall o | o in s.calls ensures CallOk(c, t, o, s.calls[o]) {
      CallStable(c, s, t, o, s.calls[o]);
    }
  }

  lemma ArrivingOrigin(c: Config, s: System, e: Event)
    requires OriginInv(s) && Enabled(s, e) && (e.Tick? || e.IssueChallenge? || e.Begin?)
    ensures OriginInv(Step(c, s, e))
  {
    var t := Step(c, s, e);
    forall k | 0 <= k < |t.commits| ensures CameFrom(t, t.commits[k]) {
      assert CameFrom(s, s.commits[k]);
    }
  }

  lemma OtherStep(c: Config, s: System, e: Event)
    requires Inv(c, s) && Enabled(s, e) && (e.Tick? || e.IssueChallenge? || e.Begin?)
    ensures Inv(c, Step(c, s, e))
  {
    var t := Step(c, s, e);
    var id := if e.Begin? then e.id else 0;
    OtherArrives(c, s, e);
    ArrivingCalls(c, s, t, id);
    ArrivingOrigin(c, s, e);
    RostersStable(c, s, t);
  }

  /** Every interleaving keeps the invariant. */
  lemma {:induction false} RunSafe(c: Config, events: seq<Event>)
    requires ValidConfig(c)
    ensures Inv(c, Run(c, events))
  {
    if events != [] {
      var s, e := Run(c, events[..|events| - 1]), events[|events| - 1];
      RunSafe(c, events[..|events| - 1]);
      if Enabled(s, e) {
        match e {
          case Advance(id, o) => CallStep(c, s, id, o);
          case Interrupt(id) => LocalStep(c, s, id, Failed(Interrupted));
          case _ => OtherStep(c, s, e);
        }
      }
    }
  }
}
