/**
  A call that nothing disturbs runs to its end: it is refused with the answer of the one transition, or it commits,
  publishes and returns (api/_lib/wardriver-sync-store.js:200-295).
 */
module SyncProgress {
  import opened Wrappers
  import opened SyncAuth
  import opened SyncState
  import opened SyncOutcomes
  import opened SyncHistory
  import opened SyncProtocol
  import opened SyncSafety
  import opened SyncTheorems

  /** The call takes k steps and each of its writes is answered. */
  function Advances(id: nat, k: nat): seq<Event> { seq(k, _ => Advance(id, Answered)) }

  lemma AdvancesJoin(events: seq<Event>, id: nat, j: nat, k: nat)
    ensures events + Advances(id, j) + Advances(id, k) == events + Advances(id, j + k)
  {}

  function Advanced(c: Config, s: System, id: nat, k: nat): System
    decreases k
  {
    if k == 0 then s else Advanced(c, Step(c, s, Advance(id, Answered)), id, k - 1)
  }

  lemma {:induction false} RunAdvances(c: Config, events: seq<Event>, id: nat, k: nat)
    ensures Run(c, events + Advances(id, k)) == Advanced(c, Run(c, events), id, k)
    decreases k
  {
    if k == 0 {
      assert events + Advances(id, 0) == events;
    } else {
      var one := events + [Advance(id, Answered)];
      assert one[..|one| - 1] == events;
      RunAdvances(c, one, id, k - 1);
      assert one + Advances(id, k - 1) == events + Advances(id, k);
    }
  }

  lemma {:induction false} AdvancedJoins(c: Config, s: System, id: nat, j: nat, k: nat)
    ensures Advanced(c, Advanced(c, s, id, j), id, k) == Advanced(c, s, id, j + k)
    decreases j
  {
    if j > 0 { AdvancedJoins(c, Step(c, s, Advance(id, Answered)), id, j - 1, k); }
  }

  lemma OneStep(c: Config, s: System, id: nat, t: System)
    requires Step(c, s, Advance(id, Answered)) == t
    ensures Advanced(c, s, id, 1) == t
  {}

  lemma TwoSteps(c: Config, s: System, id: nat, t: System, u: System)
    requires Step(c, s, Advance(id, Answered)) == t && Step(c, t, Advance(id, Answered)) == u
    ensures Advanced(c, s, id, 2) == u
  {
    OneStep(c, t, id, u);
    OneStep(c, s, id, t);
    AdvancedJoins(c, s, id, 1, 1);
  }

  function Moved(s: System, id: nat, pc: Pc): System
    requires id in s.calls
  {
    s.(calls := s.calls[id := s.calls[id].(pc := pc)])
  }

  lemma MovedTwice(s: System, id: nat, a: Pc, b: Pc)
    requires id in s.calls
    ensures Moved(Moved(s, id, a), id, b) == Moved(s, id, b)
  {
    assert Moved(Moved(s, id, a), id, b).calls == Moved(s, id, b).calls;
  }

  // ----- transact -----

  lemma ReadControlMoves(c: Config, s: System, id: nat, attempt: nat)
    requires id in s.calls && s.calls[id].pc == ReadControl(attempt) && ValidState(Current(c, s), c)
    ensures Step(c, s, Advance(id, Answered)) == Moved(s, id, ReadClock(attempt, |s.commits|))
  {}

  lemma ReadClockMoves(c: Config, s: System, id: nat, attempt: nat)
    requires id in s.calls && s.calls[id].pc == ReadClock(attempt, |s.commits|)
    ensures var x := Transition(Current(c, s), s.calls[id].request, c, s.clock, s.calls[id].token);
            Step(c, s, Advance(id, Answered))
            == Moved(s, id, if x.Err? then Failed(Denied(x.error)) else WriteControl(attempt, |s.commits|, x.value, s.clock))
  {}

  /** Reading control and then the clock decides the call. */
  lemma ReadsDecide(c: Config, s: System, id: nat, attempt: nat)
    requires id in s.calls && s.calls[id].pc == ReadControl(attempt) && ValidState(Current(c, s), c)
    ensures var x := Transition(Current(c, s), s.calls[id].request, c, s.clock, s.calls[id].token);
            Advanced(c, s, id, 2)
            == Moved(s, id, if x.Err? then Failed(Denied(x.error)) else WriteControl(attempt, |s.commits|, x.value, s.clock))
  {
    ReadControlMoves(c, s, id, attempt);
    var t := Moved(s, id, ReadClock(attempt, |s.commits|));
    ReadClockMoves(c, t, id, attempt);
    var x := Transition(Current(c, s), s.calls[id].request, c, s.clock, s.calls[id].token);
    var pc := if x.Err? then Failed(Denied(x.error)) else WriteControl(attempt, |s.commits|, x.value, s.clock);
    MovedTwice(s, id, ReadClock(attempt, |s.commits|), pc);
    TwoSteps(c, s, id, t, Moved(s, id, pc));
  }

  /** The state once the call's write is in, and the call is at pc. */
  function Committed(s: System, id: nat, next: State, time: int, pc: Pc): System
    requires id in s.calls
  {
    Moved(s, id, pc).(commits := s.commits + [Commit(next, s.calls[id].request, time, s.calls[id].token, id)])
  }

  lemma WriteControlMoves(c: Config, s: System, id: nat, attempt: nat, next: State, time: int)
    requires id in s.calls && s.calls[id].pc == WriteControl(attempt, |s.commits|, next, time)
    ensures Step(c, s, Advance(id, Answered)) == Committed(s, id, next, time, ReadRoster(0, |s.commits|))
  {}

  lemma ReadRosterMoves(c: Config, s: System, id: nat, own: nat)
    requires id in s.calls && s.calls[id].pc == ReadRoster(0, own)
    ensures Step(c, s, Advance(id, Answered)) == Moved(s, id, ReadControlAgain(0, own, |s.rosters|))
  {}

  // ----- publishRoster -----

  /** The last roster shows the current control state. */
  predicate UpToDate(c: Config, s: System) {
    s.rosters != [] && s.rosters[|s.rosters| - 1].payload == RosterPayload(Current(c, s), c)
  }

  /** The last roster shows the current control state, and at most one is newer than those of s. */
  predicate Publishes(c: Config, s: System, t: System) {
    UpToDate(c, t) && s.rosters <= t.rosters && |t.rosters| <= |s.rosters| + 1
  }

  predicate NotRefused(c: Config, s: System) {
    s.commits != [] && ValidState(Current(c, s), c) && !Decide(RosterAt(s.rosters, |s.rosters|), RosterPayload(Current(c, s), c), c).Refuse?
  }

  lemma InvIsNotRefused(c: Config, s: System)
    requires Inv(c, s)
    ensures ValidState(Current(c, s), c) && (s.commits != [] ==> NotRefused(c, s))
  {
    EveryStateValid(c, s.commits, |s.commits|);
    NeverAhead(c, s, |s.rosters|);
  }

  lemma ComparisonMoves(c: Config, s: System, id: nat, own: nat)
    requires id in s.calls && s.calls[id].pc == ReadControlAgain(0, own, |s.rosters|) && NotRefused(c, s)
    ensures var v, n := |s.commits|, |s.rosters|;
            || (UpToDate(c, s) && Step(c, s, Advance(id, Answered)) == Moved(s, id, Recheck(own, v, n)))
            || Step(c, s, Advance(id, Answered)) == Moved(s, id, WriteRoster(0, own, n, v))
  {}

  /** The state with one roster more, the payload of the current control state, and the call at pc. */
  function WithRoster(c: Config, s: System, id: nat, pc: Pc): System
    requires id in s.calls
  {
    Moved(s, id, pc).(rosters := s.rosters + [RosterWrite(RosterPayload(Current(c, s), c), |s.commits|)])
  }

  lemma WriteRosterMoves(c: Config, s: System, id: nat, own: nat)
    requires id in s.calls && s.calls[id].pc == WriteRoster(0, own, |s.rosters|, |s.commits|)
    ensures Step(c, s, Advance(id, Answered)) == WithRoster(c, s, id, Recheck(own, |s.commits|, |s.rosters| + 1))
  {}

  lemma PublicationSkips(c: Config, s: System, id: nat, own: nat)
    requires id in s.calls && UpToDate(c, s)
    requires Step(c, s, Advance(id, Answered)) == Moved(s, id, Recheck(own, |s.commits|, |s.rosters|))
    ensures var t := Advanced(c, s, id, 1);
            t == Moved(s, id, Recheck(own, |s.commits|, |t.rosters|)).(rosters := t.rosters) && Publishes(c, s, t)
  {
    OneStep(c, s, id, Moved(s, id, Recheck(own, |s.commits|, |s.rosters|)));
  }

  lemma RosterShowsCurrent(c: Config, s: System, id: nat, a: Pc, b: Pc)
    requires id in s.calls
    ensures var t := WithRoster(c, Moved(s, id, a), id, b); t == Moved(s, id, b).(rosters := t.rosters) && Publishes(c, s, t)
  {
    MovedTwice(s, id, a, b);
  }

  lemma PublicationWrites(c: Config, s: System, id: nat, own: nat)
    requires id in s.calls
    ensures var v, n := |s.commits|, |s.rosters|;
            var t := Advanced(c, Moved(s, id, WriteRoster(0, own, n, v)), id, 1);
            t == Moved(s, id, Recheck(own, v, |t.rosters|)).(rosters := t.rosters) && Publishes(c, s, t)
  {
    var v, n := |s.commits|, |s.rosters|;
    var t := Moved(s, id, WriteRoster(0, own, n, v));
    WriteRosterMoves(c, t, id, own);
    RosterShowsCurrent(c, s, id, WriteRoster(0, own, n, v), Recheck(own, v, n + 1));
    OneStep(c, t, id, WithRoster(c, t, id, Recheck(own, v, n + 1)));
  }

  lemma RecheckMoves(c: Config, s: System, id: nat, own: nat, v: nat, r: nat)
    requires id in s.calls && s.calls[id].pc == Recheck(own, v, r) && v <= |s.commits|
    requires IsMember(At(c, s.commits, v), s.calls[id].request)
    ensures var a := s.calls[id].request.action;
            Step(c, s, Advance(id, Answered)) == Moved(s, id, Finished(own, v, r, a.Enroll? || a.Grants?))
  {}

  // ----- execute -----

  /** What an accepted call leaves: its write, a roster that shows it, and its own end. */
  predicate Executed(c: Config, s: System, t: System, id: nat, next: State, time: int)
    requires id in s.calls
  {
    var call, n := s.calls[id], |s.commits|;
    && t.commits == s.commits + [Commit(next, call.request, time, call.token, id)] && Publishes(c, s, t) && t.clock == s.clock && t.tickets == s.tickets
    && t.calls == s.calls[id := call.(pc := Finished(n, n + 1, |t.rosters|, call.request.action.Enroll? || call.request.action.Grants?))]
  }

  lemma CallEnds(c: Config, s: System, id: nat, next: State, time: int, written: System, published: System, t: System)
    requires id in s.calls && written == Committed(s, id, next, time, ReadControlAgain(0, |s.commits|, |s.rosters|))
    requires published == Moved(written, id, Recheck(|s.commits|, |s.commits| + 1, |published.rosters|)).(rosters := published.rosters)
    requires Publishes(c, written, published)
    requires var a := s.calls[id].request.action;
             t == Moved(published, id, Finished(|s.commits|, |s.commits| + 1, |published.rosters|, a.Enroll? || a.Grants?))
    ensures Executed(c, s, t, id, next, time)
  {
    var n, r := |s.commits|, |published.rosters|;
    var a := s.calls[id].request.action;
    assert t.calls == s.calls[id := s.calls[id].(pc := Finished(n, n + 1, r, a.Enroll? || a.Grants?))];
    assert Current(c, t) == Current(c, published);
  }

  lemma WriteMoves(c: Config, s: System, id: nat, attempt: nat, next: State, time: int)
    requires id in s.calls && s.calls[id].pc == WriteControl(attempt, |s.commits|, next, time)
    ensures Advanced(c, s, id, 2) == Committed(s, id, next, time, ReadControlAgain(0, |s.commits|, |s.rosters|))
  {
    WriteControlMoves(c, s, id, attempt, next, time);
    var t := Committed(s, id, next, time, ReadRoster(0, |s.commits|));
    ReadRosterMoves(c, t, id, |s.commits|);
    MovedTwice(s, id, ReadRoster(0, |s.commits|), ReadControlAgain(0, |s.commits|, |s.rosters|));
    TwoSteps(c, s, id, t, Committed(s, id, next, time, ReadControlAgain(0, |s.commits|, |s.rosters|)));
  }

  lemma CommittedIsMember(c: Config, s: System, id: nat)
    requires Inv(c, s) && id in s.calls && s.calls[id].pc.WriteControl?
    ensures IsMember(s.calls[id].pc.next, s.calls[id].request)
  {
    var call := s.calls[id];
    assert CallOk(c, s, id, call);
    TransitionComputes(At(c, s.commits, call.pc.version), call.request, c, call.pc.time, call.token);
    AcceptedIsMember(At(c, s.commits, call.pc.version), call.request, c, call.pc.time, call.token);
  }

  lemma TransitionComputes(s: State, r: Request, c: Config, now: int, token: Text)
    requires Transition(s, r, c, now, token).Ok?
    ensures Compute(s, r, c, now, token) == Transition(s, r, c, now, token)
  {}

  // ----- Over runs -----

  lemma RunReads(c: Config, events: seq<Event>, id: nat, attempt: nat) returns (x: Result<State>)
    requires ValidConfig(c) && id in Run(c, events).calls && Run(c, events).calls[id].pc == ReadControl(attempt)
    ensures var s := Run(c, events); x == Transition(Current(c, s), s.calls[id].request, c, s.clock, s.calls[id].token)
    ensures var s := Run(c, events);
            Run(c, events + Advances(id, 2))
            == Moved(s, id, if x.Err? then Failed(Denied(x.error)) else WriteControl(attempt, |s.commits|, x.value, s.clock))
  {
    RunIsNotRefused(c, events);
    ReadsDecide(c, Run(c, events), id, attempt);
    RunAdvances(c, events, id, 2);
    var s := Run(c, events);
    x := Transition(Current(c, s), s.calls[id].request, c, s.clock, s.calls[id].token);
  }

  lemma RunIsNotRefused(c: Config, events: seq<Event>)
    requires ValidConfig(c)
    ensures ValidState(Current(c, Run(c, events)), c) && (Run(c, events).commits != [] ==> NotRefused(c, Run(c, events)))
  {
    RunSafe(c, events);
    InvIsNotRefused(c, Run(c, events));
  }

  lemma RunWrites(c: Config, events: seq<Event>, id: nat, attempt: nat, next: State, time: int)
    requires ValidConfig(c) && id in Run(c, events).calls
    requires Run(c, events).calls[id].pc == WriteControl(attempt, |Run(c, events).commits|, next, time)
    ensures var s := Run(c, events);
            Run(c, events + Advances(id, 2)) == Committed(s, id, next, time, ReadControlAgain(0, |s.commits|, |s.rosters|))
    ensures IsMember(next, Run(c, events).calls[id].request)
  {
    WriteMoves(c, Run(c, events), id, attempt, next, time);
    RunAdvances(c, events, id, 2);
    RunSafe(c, events);
    CommittedIsMember(c, Run(c, events), id);
  }

  lemma Publication(c: Config, s: System, id: nat, own: nat) returns (k: nat)
    requires id in s.calls && s.calls[id].pc == ReadControlAgain(0, own, |s.rosters|) && NotRefused(c, s)
    ensures var t := Advanced(c, s, id, k);
            t == Moved(s, id, Recheck(own, |s.commits|, |t.rosters|)).(rosters := t.rosters) && Publishes(c, s, t)
  {
    ComparisonMoves(c, s, id, own);
    if Step(c, s, Advance(id, Answered)) == Moved(s, id, WriteRoster(0, own, |s.rosters|, |s.commits|)) {
      k := 2;
      PublicationWrites(c, s, id, own);
      OneStep(c, s, id, Moved(s, id, WriteRoster(0, own, |s.rosters|, |s.commits|)));
      AdvancedJoins(c, s, id, 1, 1);
    } else {
      k := 1;
      PublicationSkips(c, s, id, own);
    }
  }

  lemma RunPublishes(c: Config, events: seq<Event>, id: nat, own: nat) returns (k: nat)
    requires ValidConfig(c) && id in Run(c, events).calls && Run(c, events).commits != []
    requires Run(c, events).calls[id].pc == ReadControlAgain(0, own, |Run(c, events).rosters|)
    ensures var s, t := Run(c, events), Run(c, events + Advances(id, k));
            t == Moved(s, id, Recheck(own, |s.commits|, |t.rosters|)).(rosters := t.rosters) && Publishes(c, s, t)
  {
    RunIsNotRefused(c, events);
    k := Publication(c, Run(c, events), id, own);
    RunAdvances(c, events, id, k);
  }

  lemma RunRechecks(c: Config, events: seq<Event>, id: nat, own: nat, v: nat, r: nat)
    requires id in Run(c, events).calls && Run(c, events).calls[id].pc == Recheck(own, v, r) && v <= |Run(c, events).commits|
    requires IsMember(At(c, Run(c, events).commits, v), Run(c, events).calls[id].request)
    ensures var s := Run(c, events); var a := s.calls[id].request.action;
            Run(c, events + Advances(id, 1)) == Moved(s, id, Finished(own, v, r, a.Enroll? || a.Grants?))
  {
    var s := Run(c, events);
    var a := s.calls[id].request.action;
    RecheckMoves(c, s, id, own, v, r);
    OneStep(c, s, id, Moved(s, id, Finished(own, v, r, a.Enroll? || a.Grants?)));
    RunAdvances(c, events, id, 1);
  }

  lemma AcceptedCallCompletes(c: Config, events: seq<Event>, id: nat, attempt: nat, next: State, time: int) returns (k: nat)
    requires ValidConfig(c) && id in Run(c, events).calls
    requires Run(c, events).calls[id].pc == WriteControl(attempt, |Run(c, events).commits|, next, time)
    ensures Executed(c, Run(c, events), Run(c, events + Advances(id, k)), id, next, time)
  {
    var s := Run(c, events);
    RunWrites(c, events, id, attempt, next, time);
    var first := events + Advances(id, 2);
    var j := RunPublishes(c, first, id, |s.commits|);
    var second := first + Advances(id, j);
    RunRechecks(c, second, id, |s.commits|, |s.commits| + 1, |Run(c, second).rosters|);
    var third := second + Advances(id, 1);
    CallEnds(c, s, id, next, time, Run(c, first), Run(c, second), Run(c, third));
    k := 3 + j;
    assert third == events + Advances(id, k);
  }

  lemma StartDoesNotMatter(c: Config, s: System, t: System, id: nat, pc: Pc, next: State, time: int)
    requires id in s.calls && Executed(c, Moved(s, id, pc), t, id, next, time)
    ensures Executed(c, s, t, id, next, time)
  {
    MovedTwice(s, id, pc, t.calls[id].pc);
  }

  lemma RunsJoin(c: Config, events: seq<Event>, id: nat, j: nat, k: nat)
    ensures Run(c, events + Advances(id, j) + Advances(id, k)) == Run(c, events + Advances(id, j + k))
  {
    AdvancesJoin(events, id, j, k);
  }

  lemma AcceptedReadCompletes(c: Config, events: seq<Event>, id: nat, s: System, attempt: nat, next: State) returns (k: nat)
    requires ValidConfig(c) && id in s.calls && Run(c, events) == Moved(s, id, WriteControl(attempt, |s.commits|, next, s.clock))
    ensures Executed(c, s, Run(c, events + Advances(id, k)), id, next, s.clock)
  {
    k := AcceptedCallCompletes(c, events, id, attempt, next, s.clock);
    StartDoesNotMatter(c, s, Run(c, events + Advances(id, k)), id, WriteControl(attempt, |s.commits|, next, s.clock), next, s.clock);
  }

  /** From its first read on, a call that nothing disturbs is denied what the transition denies, and nothing else
      changes. */
  lemma UndisturbedDenial(c: Config, events: seq<Event>, id: nat)
    requires ValidConfig(c) && id in Run(c, events).calls && Run(c, events).calls[id].pc.ReadControl?
    ensures var s := Run(c, events); var x := Transition(Current(c, s), s.calls[id].request, c, s.clock, s.calls[id].token);
            x.Err? ==> Run(c, events + Advances(id, 2)) == Moved(s, id, Failed(Denied(x.error)))
  {
    var x := RunReads(c, events, id, Run(c, events).calls[id].pc.attempt);
  }

  /** Otherwise it commits exactly that transition, the last roster shows it, and the call returns, with storage
      granted exactly to enroll and grants calls. */
  lemma UndisturbedCallCompletes(c: Config, events: seq<Event>, id: nat) returns (k: nat, next: State)
    requires ValidConfig(c) && id in Run(c, events).calls && Run(c, events).calls[id].pc.ReadControl?
    requires var s := Run(c, events); Transition(Current(c, s), s.calls[id].request, c, s.clock, s.calls[id].token).Ok?
    ensures var s := Run(c, events); Transition(Current(c, s), s.calls[id].request, c, s.clock, s.calls[id].token) == Ok(next)
    ensures Executed(c, Run(c, events), Run(c, events + Advances(id, k)), id, next, Run(c, events).clock)
  {
    var attempt := Run(c, events).calls[id].pc.attempt;
    var x := RunReads(c, events, id, attempt);
    next := x.value;
    var j := AcceptedReadCompletes(c, events + Advances(id, 2), id, Run(c, events), attempt, next);
    RunsJoin(c, events, id, 2, j);
    k := 2 + j;
  }

  predicate ShowsSource(c: Config, s: System, i: nat)
    requires i < |s.rosters|
  {
    var p, v := s.rosters[i].payload, s.rosters[i].source;
    && 1 <= v <= |s.commits|
    && p.groupId == c.groupId && p.revision == s.commits[v - 1].state.rosterRevision && p.ownerDeviceId == Sha256(c.ownerKey)
  }

  lemma SourceIsShown(c: Config, s: System, i: nat)
    requires ValidHistory(c, s.commits) && i < |s.rosters| && RefinesControl(c, s, i)
    ensures ShowsSource(c, s, i) && Shows(s.rosters[i].payload, s.commits[s.rosters[i].source - 1].state)
  {
    var v := s.rosters[i].source;
    EveryStateValid(c, s.commits, v);
    PayloadShows(s.commits[v - 1].state, c);
  }

  lemma RunHistoryIsValid(c: Config, events: seq<Event>)
    requires ValidConfig(c)
    ensures ValidHistory(c, Run(c, events).commits)
  {
    RunSafe(c, events);
  }

  /** Every published roster shows the members of a committed control state, field by field. */
  lemma RostersShowMembers(c: Config, events: seq<Event>, i: nat)
    requires ValidConfig(c) && i < |Run(c, events).rosters|
    ensures var s := Run(c, events); ShowsSource(c, s, i) && Shows(s.rosters[i].payload, s.commits[s.rosters[i].source - 1].state)
  {
    RostersRefineControl(c, events, i);
    RunHistoryIsValid(c, events);
    SourceIsShown(c, Run(c, events), i);
  }

  // ----- Lost races -----

  predicate Conflicts(o: Outcome) { o.Answered? || o.AppliedThenConflict? }

  /** A control write of an older version changes nothing and the call reads again, five times in all; then it is out of
      attempts. */
  lemma LostControlWriteReadsAgain(c: Config, s: System, id: nat, o: Outcome, attempt: nat, v: nat, next: State, time: int)
    requires id in s.calls && s.calls[id].pc == WriteControl(attempt, v, next, time) && v < |s.commits| && Conflicts(o)
    ensures Step(c, s, Advance(id, o)) == Moved(s, id, if attempt + 1 < 5 then ReadControl(attempt + 1) else Failed(OutOfAttempts))
  {}

  /** And so a roster write of an older version. */
  lemma LostRosterWriteReadsAgain(c: Config, s: System, id: nat, o: Outcome, attempt: nat, own: nat, r: nat, v: nat)
    requires id in s.calls && s.calls[id].pc == WriteRoster(attempt, own, r, v) && r < |s.rosters| && v <= |s.commits| && Conflicts(o)
    ensures Step(c, s, Advance(id, o)) == Moved(s, id, if attempt + 1 < 5 then ReadRoster(attempt + 1, own) else Failed(OutOfAttempts))
  {}

  // ----- Challenges -----

  /** A challenge can be used for 120 seconds after it was issued, and no longer. */
  lemma ChallengeRunsOut(c: Config, s: System, device: Digest, seconds: nat, id: nat, r: Request, token: Text)
    requires r.nonce !in s.tickets && s.clock + seconds <= MAX_CLOCK && id !in s.calls && Verified(r) && r.deviceId == device
    requires r.expiresAt == s.clock + 120 && forall other :: other in s.calls ==> s.calls[other].token != token
    ensures var t := Step(c, Step(c, s, IssueChallenge(r.nonce, device)), Tick(seconds));
            Step(c, t, Begin(id, r, token)) == if seconds < 120 then t.(calls := t.calls[id := Call(r, token, ReadControl(0))]) else t
  {}
}
