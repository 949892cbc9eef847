/**
  Any number of execute() calls against the two blobs of a sync group, one storage operation
  or clock reading at a time (api/_lib/wardriver-sync-store.js: transact, publishRoster, execute).
  Each blob is its history of writes, and a version is a position in that history, so every
  write makes a fresh ETag.  A local copy of a blob is the version it was read at.
 */
module SyncProtocol {
  import opened Wrappers
  import opened SyncAuth
  import opened SyncState
  import opened SyncHistory

  const MAX_CAS_ATTEMPTS := 5

  datatype Ticket = Ticket(deviceId: Digest, expiresAt: int)

  /** A roster write and the control version its payload was derived from. */
  datatype RosterWrite = RosterWrite(payload: Payload, source: nat)

  datatype Failure =
    | Denied(error: SyncError)  // raised by transact's own checks or by requireMember
    | InvalidControl            // validateState refused what was read
    | NoControl                 // publishRoster found no control blob
    | RosterAhead               // the published roster is newer than control, or of another group
    | RosterDiffers             // the published roster has this revision but other content
    | OutOfAttempts
    | Interrupted               // an I/O error the caller saw, or the instance stopped

  /** Where a call stands; `own` is the index of the control write it made. */
  datatype Pc =
    | ReadControl(attempt: nat)
    | ReadClock(attempt: nat, version: nat)
    | WriteControl(attempt: nat, version: nat, next: State, time: int)
    | ReadRoster(attempt: nat, own: nat)
    | ReadControlAgain(attempt: nat, own: nat, roster: nat)
    | WriteRoster(attempt: nat, own: nat, roster: nat, version: nat)
    | Recheck(own: nat, version: nat, roster: nat)
    | Finished(own: nat, version: nat, roster: nat, granted: bool)
    | Failed(failure: Failure)

  datatype Call = Call(request: Request, token: Text, pc: Pc)

  datatype System = System(clock: int, tickets: map<nat, Ticket>, commits: History,
                           rosters: seq<RosterWrite>, calls: map<nat, Call>)

  /** How a conditional write ends: answered; applied but reported to the caller as an error;
      applied but its answer lost, so that the client library's own retry reports a conflict;
      or not applied at all. */
  datatype Outcome = Answered | AppliedThenError | AppliedThenConflict | NotApplied

  datatype Event =
    | Tick(seconds: nat)
    | IssueChallenge(nonce: nat, deviceId: Digest)
    | Begin(id: nat, request: Request, token: Text)
    | Advance(id: nat, outcome: Outcome)
    | Interrupt(id: nat)

  function InitialSystem(): System { System(0, map[], [], [], map[]) }

  // ----- publishRoster's comparison of the published roster with control -----

  datatype Decision = Publish | AlreadyPublished | Refuse(failure: Failure)

  function Decide(published: Option<Payload>, payload: Payload, c: Config): Decision {
    match published
    case None => Publish
    case Some(previous) =>
      if previous.groupId != c.groupId || previous.revision > payload.revision then Refuse(RosterAhead)
      else if previous.revision == payload.revision then
        if previous != payload then Refuse(RosterDiffers) else AlreadyPublished
      else Publish
  }

  function RosterAt(rosters: seq<RosterWrite>, version: nat): Option<Payload>
    requires version <= |rosters|
  {
    if version == 0 then None else Some(rosters[version - 1].payload)
  }

  // ----- One step of one call -----

  function RetryControl(attempt: nat): Pc {
    if attempt + 1 < MAX_CAS_ATTEMPTS then ReadControl(attempt + 1) else Failed(OutOfAttempts)
  }

  function RetryRoster(attempt: nat, own: nat): Pc {
    if attempt + 1 < MAX_CAS_ATTEMPTS then ReadRoster(attempt + 1, own) else Failed(OutOfAttempts)
  }

  function AfterWrite(o: Outcome, answered: Pc, conflict: Pc): Pc {
    match o
    case Answered => answered
    case AppliedThenConflict => conflict
    case AppliedThenError => Failed(Interrupted)
    case NotApplied => Failed(Interrupted)
  }

  function GrantsStorage(a: Action): bool { a.Enroll? || a.Grants? }

  predicate WellFormed(s: System, pc: Pc) {
    match pc
    case ReadClock(_, v) => v <= |s.commits|
    case WriteControl(_, v, _, _) => v <= |s.commits|
    case ReadControlAgain(_, _, r) => r <= |s.rosters|
    case WriteRoster(_, _, r, v) => r <= |s.rosters| && v <= |s.commits|
    case Recheck(_, v, r) => v <= |s.commits|
    case _ => true
  }

  function Put(s: System, id: nat, call: Call, pc: Pc): System {
    s.(calls := s.calls[id := call.(pc := pc)])
  }

  function StepReadClock(c: Config, s: System, call: Call): Pc
    requires call.pc.ReadClock? && WellFormed(s, call.pc)
  {
    match Transition(At(c, s.commits, call.pc.version), call.request, c, s.clock, call.token)
    case Err(e) => Failed(Denied(e))
    case Ok(t) => WriteControl(call.pc.attempt, call.pc.version, t, s.clock)
  }

  function StepWriteControl(s: System, id: nat, call: Call, o: Outcome): System
    requires call.pc.WriteControl?
  {
    var n := |s.commits|;
    if o.NotApplied? then Put(s, id, call, Failed(Interrupted))
    else if call.pc.version != n then
      Put(s, id, call, if o.AppliedThenError? then Failed(Interrupted) else RetryControl(call.pc.attempt))
    else
      Put(s, id, call, AfterWrite(o, ReadRoster(0, n), RetryControl(call.pc.attempt)))
      .(commits := s.commits + [Commit(call.pc.next, call.request, call.pc.time, call.token, id)])
  }

  function StepReadControlAgain(c: Config, s: System, call: Call): Pc
    requires call.pc.ReadControlAgain? && WellFormed(s, call.pc)
  {
    var v := |s.commits|;
    if v == 0 then Failed(NoControl)
    else if !ValidState(At(c, s.commits, v), c) then Failed(InvalidControl)
    else match Decide(RosterAt(s.rosters, call.pc.roster), RosterPayload(At(c, s.commits, v), c), c)
      case Refuse(f) => Failed(f)
      case AlreadyPublished => Recheck(call.pc.own, v, call.pc.roster)
      case Publish => WriteRoster(call.pc.attempt, call.pc.own, call.pc.roster, v)
  }

  function StepWriteRoster(c: Config, s: System, id: nat, call: Call, o: Outcome): System
    requires call.pc.WriteRoster? && WellFormed(s, call.pc)
  {
    var n := |s.rosters|;
    var own, v := call.pc.own, call.pc.version;
    if o.NotApplied? then Put(s, id, call, Failed(Interrupted))
    else if call.pc.roster != n then
      Put(s, id, call, if o.AppliedThenError? then Failed(Interrupted) else RetryRoster(call.pc.attempt, own))
    else
      Put(s, id, call, AfterWrite(o, Recheck(own, v, n + 1), RetryRoster(call.pc.attempt, own)))
      .(rosters := s.rosters + [RosterWrite(RosterPayload(At(c, s.commits, v), c), v)])
  }

  function StepRecheck(c: Config, s: System, call: Call): Pc
    requires call.pc.Recheck? && WellFormed(s, call.pc)
  {
    if !IsMember(At(c, s.commits, call.pc.version), call.request) then Failed(Denied(NotMember))
    else Finished(call.pc.own, call.pc.version, call.pc.roster, GrantsStorage(call.request.action))
  }

  function StepCall(c: Config, s: System, id: nat, o: Outcome): System
    requires id in s.calls && WellFormed(s, s.calls[id].pc)
  {
    var call := s.calls[id];
    match call.pc
    case ReadControl(n) =>
      var v := |s.commits|;
      Put(s, id, call, if ValidState(At(c, s.commits, v), c) then ReadClock(n, v) else Failed(InvalidControl))
    case ReadClock(_, _) => Put(s, id, call, StepReadClock(c, s, call))
    case WriteControl(_, _, _, _) => StepWriteControl(s, id, call, o)
    case ReadRoster(n, own) => Put(s, id, call, ReadControlAgain(n, own, |s.rosters|))
    case ReadControlAgain(_, _, _) => Put(s, id, call, StepReadControlAgain(c, s, call))
    case WriteRoster(_, _, _, _) => StepWriteRoster(c, s, id, call, o)
    case Recheck(_, _, _) => Put(s, id, call, StepRecheck(c, s, call))
    case Finished(_, _, _, _) => s
    case Failed(_) => s
  }

  // ----- Whole runs -----

  predicate Terminal(pc: Pc) { pc.Finished? || pc.Failed? }

  predicate Enabled(s: System, e: Event) {
    match e
    case Tick(seconds) => s.clock + seconds <= MAX_CLOCK
    case IssueChallenge(nonce, _) => nonce !in s.tickets
    case Begin(id, r, token) =>
      && id !in s.calls && Verified(r)
      && r.nonce in s.tickets && s.tickets[r.nonce] == Ticket(r.deviceId, r.expiresAt) && r.expiresAt > s.clock
      && (forall other :: other in s.calls ==> s.calls[other].token != token)
    case Advance(id, _) => id in s.calls && WellFormed(s, s.calls[id].pc)
    case Interrupt(id) => id in s.calls && !Terminal(s.calls[id].pc)
  }

  function Step(c: Config, s: System, e: Event): System {
    if !Enabled(s, e) then s
    else match e
      case Tick(seconds) => s.(clock := s.clock + seconds)
      case IssueChallenge(nonce, device) => s.(tickets := s.tickets[nonce := Ticket(device, s.clock + CHALLENGE_SECONDS)])
      case Begin(id, r, token) => s.(calls := s.calls[id := Call(r, token, ReadControl(0))])
      case Advance(id, o) => StepCall(c, s, id, o)
      case Interrupt(id) => Put(s, id, s.calls[id], Failed(Interrupted))
  }

  /** The system after any sequence of events: an event that cannot happen changes nothing. */
  function Run(c: Config, events: seq<Event>): System {
    if events == [] then InitialSystem()
    else Step(c, Run(c, events[..|events| - 1]), events[|events| - 1])
  }
}
