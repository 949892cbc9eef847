/**
  The store in the source's own form: the control state as an object that a request changes in
  place, and transact, publishRoster and execute as retry loops over the two blobs
  (api/_lib/wardriver-sync-store.js).  Between any two of its operations a call lets the other
  instances run, which may write both blobs as long as they keep the store valid.
 */
module SyncControl {
  import opened Wrappers
  import opened SyncAuth
  import opened SyncState
  import opened SyncHistory
  import opened SyncProtocol
  import opened SyncSafety

  class ControlState {
    const groupId: Text
    var rosterRevision: int
    var devices: map<Digest, Member>
    var invitations: map<Digest, Invitation>
    var requests: seq<Receipt>

    function Value(): State
      reads this
    {
      State(groupId, rosterRevision, devices, invitations, requests)
    }

    constructor (s: State)
      ensures Value() == s
    {
      groupId, rosterRevision, devices, invitations, requests :=
        s.groupId, s.rosterRevision, s.devices, s.invitations, s.requests;
    }

    method DropExpiredInvitations(now: int)
      modifies this`invitations
      ensures invitations == LiveInvitations(old(invitations), now)
    {
      var rest := invitations.Keys;
      while rest != {}
        invariant rest <= invitations.Keys <= old(invitations).Keys
        invariant forall h :: h in invitations ==> invitations[h] == old(invitations)[h]
        invariant forall h :: h in invitations && h !in rest ==> invitations[h].expiresAt > now
        invariant forall h :: h in old(invitations) && h !in invitations ==> old(invitations)[h].expiresAt <= now
        decreases |rest|
      {
        var h :| h in rest;
        if invitations[h].expiresAt <= now {
          invitations := invitations - {h};
        }
        rest := rest - {h};
      }
    }

    method EnrollMember(r: Request, c: Config, now: int) returns (changed: Result<bool>)
      requires r.action.Enroll?
      modifies this`devices, this`invitations
      ensures match SyncState.EnrollMember(old(Value()), r, c, now)
              case Ok(x) => changed == Ok(x.changed) && Value() == x.state
              case Err(e) => changed == Err(e)
    {
      var hash := Sha256(r.action.invitation);
      if r.deviceId in devices {
        var member := devices[r.deviceId];
        if member.status.Revoked? || member.publicKeySpki != r.publicKeySpki {
          return Err(NotMember);
        }
        return if member.invitationHash != Some(hash) then Err(InvitationInvalid) else Ok(false);
      }
      if hash in invitations && invitations[hash].consumedBy.Some? {
        return Err(InvitationUsed);
      }
      if hash !in invitations || invitations[hash].expiresAt <= now {
        return Err(InvitationInvalid);
      }
      if |devices| >= MAX_MEMBERS || |ActiveIds(devices)| >= c.maxDevices {
        return Err(GroupFull);
      }
      invitations := invitations[hash := invitations[hash].(consumedBy := Some(r.deviceId))];
      devices := devices[r.deviceId := Member(r.publicKeySpki, r.action.displayName, Active, None, Some(hash))];
      return Ok(true);
    }

    method RevokeMember(r: Request, c: Config) returns (changed: Result<bool>)
      requires r.action.Revoke?
      modifies this`devices
      ensures match SyncState.RevokeMember(old(Value()), r, c)
              case Ok(x) => changed == Ok(x.changed) && Value() == x.state
              case Err(e) => changed == Err(e)
    {
      var id := r.action.target;
      if id == c.OwnerId() {
        return Err(OwnerProtected);
      }
      if id !in devices {
        return Err(DeviceNotFound);
      }
      if devices[id].status.Revoked? {
        return if devices[id].acceptedThrough != Some(r.action.cutoff) then Err(CutoffConflict) else Ok(false);
      }
      devices := devices[id := devices[id].(status := Revoked, acceptedThrough := Some(r.action.cutoff))];
      return Ok(true);
    }

    method ApplyMemberAction(r: Request, c: Config, now: int, token: Text) returns (changed: Result<bool>)
      requires !r.action.Enroll?
      modifies this`devices, this`invitations
      ensures match SyncState.ApplyMemberAction(old(Value()), r, c, now, token)
              case Ok(x) => changed == Ok(x.changed) && Value() == x.state
              case Err(e) => changed == Err(e)
    {
      if r.deviceId !in devices || devices[r.deviceId].status.Revoked? || devices[r.deviceId].publicKeySpki != r.publicKeySpki {
        return Err(NotMember);
      }
      if (r.action.Invite? || r.action.Revoke?) && r.deviceId != c.OwnerId() {
        return Err(OwnerRequired);
      }
      match r.action {
        case Invite(seconds) =>
          if |invitations| >= MAX_INVITATIONS {
            return Err(RateLimited);
          }
          invitations := invitations[Sha256(token) := Invitation(now + seconds, None)];
          return Ok(false);
        case Rename(name) =>
          if devices[r.deviceId].displayName == name {
            return Ok(false);
          }
          devices := devices[r.deviceId := devices[r.deviceId].(displayName := name)];
          return Ok(true);
        case Revoke(_, _) =>
          changed := RevokeMember(r, c);
        case Grants =>
          return Ok(false);
      }
    }

    method ApplyAction(r: Request, c: Config, now: int, token: Text) returns (error: Option<SyncError>)
      modifies this`devices, this`invitations, this`rosterRevision
      ensures match SyncState.ApplyAction(old(Value()), r, c, now, token)
              case Ok(s) => error == None && Value() == s
              case Err(e) => error == Some(e)
    {
      var changed: Result<bool>;
      if r.action.Enroll? {
        changed := EnrollMember(r, c, now);
      } else {
        changed := ApplyMemberAction(r, c, now, token);
      }
      if changed.Err? {
        return Some(changed.error);
      }
      if changed.value {
        if rosterRevision == MAX_SAFE_INTEGER {
          return Some(SyncUnavailable);
        }
        rosterRevision := rosterRevision + 1;
      }
      return None;
    }

    /** One attempt of transact between reading the clock and validating what it will write. */
    method Accept(r: Request, c: Config, now: int, token: Text) returns (error: Option<SyncError>)
      modifies this
      ensures match Compute(old(Value()), r, c, now, token)
              case Ok(s) => error == None && Value() == s
              case Err(e) => error == Some(e)
    {
      if r.expiresAt <= now {
        return Some(ChallengeExpired);
      }
      requests := LiveReceipts(requests, now);
      if HasReceipt(requests, r.deviceId, r.nonce) {
        return Some(ChallengeUsed);
      }
      if |requests| >= MAX_NONCES || CountOf(requests, r.deviceId) >= MAX_DEVICE_NONCES {
        return Some(RateLimited);
      }
      DropExpiredInvitations(now);
      error := ApplyAction(r, c, now, token);
      if error.None? {
        requests := requests + [Receipt(r.deviceId, r.nonce, r.expiresAt)];
      }
    }

    /** One attempt of transact between reading the clock and writing the blob. */
    method Replace(r: Request, c: Config, now: int, token: Text) returns (next: Result<State>)
      modifies this
      ensures next == Transition(old(Value()), r, c, now, token)
    {
      var error := Accept(r, c, now, token);
      next := if error.Some? then Err(error.value) else if ValidState(Value(), c) then Ok(Value()) else Err(SyncUnavailable);
    }
  }

  // ----- The store around one call -----

  ghost predicate StoreOk(c: Config, s: System) {
    && ValidHistory(c, s.commits) && ClockInv(s) && RosterInv(c, s)
    && forall k :: 0 <= k < |s.commits| ==> HoldsTicket(s, s.commits[k].request)
  }

  /** Nothing written is lost, the clock does not run back and no challenge changes. */
  ghost predicate Grown(s: System, t: System) {
    Extends(s, t) && forall n :: n in s.tickets ==> n in t.tickets && t.tickets[n] == s.tickets[n]
  }

  /** What a computed write holds of the version it read and the clock reading it took. */
  ghost predicate Computed(c: Config, s: System, v: nat, x: Commit) {
    v <= |s.commits| && PendingOk(c, s, Call(x.request, x.token, Pc.ReadControl(0)), v, x.state, x.time)
  }

  lemma GrownThrough(s: System, t: System, u: System)
    requires Grown(s, t) && Grown(t, u)
    ensures Grown(s, u)
  {}

  lemma TicketKept(s: System, t: System, r: Request)
    requires Grown(s, t) && HoldsTicket(s, r)
    ensures HoldsTicket(t, r)
  {}

  /** A computed write stays good while others run: its clock reading was taken after the read. */
  lemma ComputedKept(c: Config, s: System, t: System, v: nat, x: Commit)
    requires Grown(s, t) && Computed(c, s, v, x)
    ensures Computed(c, t, v, x)
  {
    AtExtends(c, s, t, v);
  }

  lemma ComputedNow(c: Config, s: System, v: nat, x: Commit)
    requires StoreOk(c, s) && v <= |s.commits| && x.time == s.clock
    requires Transition(At(c, s.commits, v), x.request, c, x.time, x.token) == Ok(x.state)
    ensures Computed(c, s, v, x)
  {}

  lemma CommitsKeepTickets(s: System, x: Commit)
    requires HoldsTicket(s, x.request) && forall k :: 0 <= k < |s.commits| ==> HoldsTicket(s, s.commits[k].request)
    ensures var t := s.(commits := s.commits + [x]); forall k :: 0 <= k < |t.commits| ==> HoldsTicket(t, t.commits[k].request)
  {}

  lemma CommitsKeepClock(s: System, x: Commit)
    requires ClockInv(s) && x.time <= s.clock
    ensures ClockInv(s.(commits := s.commits + [x]))
  {}

  lemma CommitKeepsStore(c: Config, s: System, x: Commit)
    requires StoreOk(c, s) && HoldsTicket(s, x.request) && Computed(c, s, |s.commits|, x)
    ensures StoreOk(c, s.(commits := s.commits + [x])) && Grown(s, s.(commits := s.commits + [x]))
  {
    HistoryGrowsBy(c, s, x);
    CommitsKeepTickets(s, x);
    CommitsKeepClock(s, x);
    RostersStable(c, s, s.(commits := s.commits + [x]));
  }

  function RosterOf(c: Config, h: History, v: nat): RosterWrite
    requires v <= |h|
  {
    RosterWrite(RosterPayload(At(c, h, v), c), v)
  }

  /** The roster at this position, if any, is older than the given control version. */
  predicate RosterBehind(c: Config, s: System, roster: nat, v: nat) {
    && v <= |s.commits| && roster <= |s.rosters|
    && (roster > 0 ==> s.rosters[roster - 1].payload.revision < At(c, s.commits, v).rosterRevision)
  }

  lemma RosterBehindKept(c: Config, s: System, t: System, roster: nat, v: nat)
    requires Grown(s, t) && RosterBehind(c, s, roster, v)
    ensures RosterBehind(c, t, roster, v)
  {
    AtExtends(c, s, t, v);
  }

  lemma RosterKeepsStore(c: Config, s: System, v: nat)
    requires StoreOk(c, s) && 1 <= v <= |s.commits| && RosterBehind(c, s, |s.rosters|, v)
    ensures var t := s.(rosters := s.rosters + [RosterOf(c, s.commits, v)]); StoreOk(c, t) && Grown(s, t)
  {
    RosterAppends(c, s, s.(rosters := s.rosters + [RosterOf(c, s.commits, v)]), v);
  }

  /** The comparison of publishRoster, by its outcome. */
  lemma DecisionMeans(c: Config, s: System, roster: nat, v: nat)
    requires StoreOk(c, s) && roster <= |s.rosters| && v == |s.commits| && v > 0
    ensures var d := Decide(RosterAt(s.rosters, roster), RosterPayload(At(c, s.commits, v), c), c);
            && !d.Refuse?
            && (d.AlreadyPublished? ==> PublishedOk(c, s, v - 1, v, roster))
            && (d.Publish? ==> RosterBehind(c, s, roster, v))
  {
    NeverAhead(c, s, roster);
  }

  /** Some control state from `from` on denies the request with this error, at some clock reading. */
  ghost predicate DeniedSince(c: Config, h: History, from: nat, r: Request, token: Text, e: SyncError) {
    exists v: nat, now: int :: from <= v <= |h| && Transition(At(c, h, v), r, c, now, token) == Err(e)
  }

  datatype Publication = Published(version: nat, roster: nat) | NotPublished(failure: Failure)
  datatype Reply = Reply(own: nat, version: nat, roster: nat, granted: bool)

  /** In these methods `quiet` says that no other instance acts and every write is answered. */
  class SyncStore {
    const config: Config
    var clock: int
    var commits: History          // the control blob: its version is the length
    var rosters: seq<RosterWrite> // the roster blob, likewise
    ghost var tickets: map<nat, Ticket>

    ghost function Shared(): System
      reads this
    {
      System(clock, tickets, commits, rosters, map[])
    }

    ghost predicate Valid()
      reads this
    {
      StoreOk(config, Shared())
    }

    constructor (c: Config)
      requires ValidConfig(c)
      ensures Valid() && config == c && commits == [] && rosters == []
    {
      config, clock, commits, rosters, tickets := c, 0, [], [], map[];
    }

    /** Time passes and other instances read and write the blobs; callers may rely on no more than this. */
    method OthersRun(quiet: bool)
      requires Valid()
      modifies this
      ensures Valid() && Grown(old(Shared()), Shared())
      ensures quiet ==> Shared() == old(Shared())
    {}

    method ReadControl() returns (control: ControlState, etag: nat)
      requires Valid()
      ensures fresh(control) && etag == |commits| && control.Value() == At(config, commits, etag)
      ensures ValidState(control.Value(), config)
    {
      etag := |commits|;
      EveryStateValid(config, commits, etag);
      control := new ControlState(At(config, commits, etag));
    }

    /** A conditional write of the control blob: If-Match on the ETag, or If-None-Match when it was absent. */
    method WriteControl(x: Commit, etag: nat, quiet: bool) returns (o: Outcome, conflict: bool)
      requires Valid() && HoldsTicket(Shared(), x.request) && Computed(config, Shared(), etag, x)
      modifies this`commits
      ensures Valid() && Grown(old(Shared()), Shared())
      ensures conflict <==> etag != |old(commits)|
      ensures commits == if o.NotApplied? || conflict then old(commits) else old(commits) + [x]
      ensures quiet ==> o.Answered?
    {
      o := *;
      if quiet {
        o := Answered;
      }
      conflict := etag != |commits|;
      if !o.NotApplied? && !conflict {
        CommitKeepsStore(config, Shared(), x);
        commits := commits + [x];
      }
    }

    /** One attempt of transact up to its write: read the state, then the clock, then compute. */
    method Prepare(r: Request, token: Text, id: nat, quiet: bool) returns (next: Result<State>, etag: nat, now: int)
      requires Valid()
      modifies this
      ensures Valid() && Grown(old(Shared()), Shared())
      ensures |old(commits)| <= etag <= |commits| && now == clock
      ensures next == Transition(At(config, commits, etag), r, config, now, token)
      ensures quiet ==> Shared() == old(Shared()) && etag == |commits|
    {
      var control;
      control, etag := ReadControl();
      ghost var read := Shared();
      OthersRun(quiet);
      AtExtends(config, read, Shared(), etag);
      now := clock;
      next := control.Replace(r, config, now, token);
    }

    /** The write of an attempt: `done` when it was applied and answered, `again` when it met a conflict. */
    method TryCommit(x: Commit, etag: nat, quiet: bool) returns (again: bool, done: bool, own: nat)
      requires Valid() && HoldsTicket(Shared(), x.request) && Computed(config, Shared(), etag, x)
      modifies this
      ensures Valid() && Grown(old(Shared()), Shared())
      ensures !(again && done)
      ensures done ==> |old(commits)| <= own < |commits| && commits[own] == x
      ensures quiet && etag == |old(commits)| ==> done && Shared() == old(Shared()).(commits := old(commits) + [x])
    {
      OthersRun(quiet);
      TicketKept(old(Shared()), Shared(), x.request);
      ComputedKept(config, old(Shared()), Shared(), etag, x);
      own := |commits|;
      ghost var before := Shared();
      var o, conflict := WriteControl(x, etag, quiet);
      GrownThrough(old(Shared()), before, Shared());
      done := o.Answered? && !conflict;
      again := !done && !o.NotApplied? && !o.AppliedThenError?;
    }

    /** One attempt of transact; `again` when its write met a conflict. */
    method Attempt(r: Request, token: Text, id: nat, quiet: bool) returns (again: bool, result: Result<State>, own: nat)
      requires Valid() && HoldsTicket(Shared(), r)
      modifies this
      ensures Valid() && Grown(old(Shared()), Shared())
      ensures again ==> result == Err(SyncUnavailable)
      ensures result.Ok? ==>
                && |old(commits)| <= own < |commits|
                && commits[own] == Commit(result.value, r, commits[own].time, token, id)
      ensures result.Err? && result.error != SyncUnavailable ==>
                DeniedSince(config, commits, |old(commits)|, r, token, result.error)
      ensures quiet ==>
                && !again && result == Transition(At(config, old(commits), |old(commits)|), r, config, old(clock), token)
                && Shared() == old(Shared()).(commits := if result.Err? then old(commits)
                                               else old(commits) + [Commit(result.value, r, old(clock), token, id)])
    {
      again, own := false, |commits|;
      var next, etag, now := Prepare(r, token, id, quiet);
      result := next;
      if next.Ok? {
        var x := Commit(next.value, r, now, token, id);
        ghost var prepared := Shared();
        TicketKept(old(Shared()), prepared, r);
        ComputedNow(config, prepared, etag, x);
        var done;
        again, done, own := TryCommit(x, etag, quiet);
        GrownThrough(old(Shared()), prepared, Shared());
        result := if done then next else Err(SyncUnavailable);
      }
    }

    /** transact: on success exactly the returned state has been committed for this request; an error other
        than unavailability is what some state read during the call answers; undisturbed, the outcome is
        that of the one transition. */
    method Transact(r: Request, token: Text, id: nat, quiet: bool) returns (result: Result<State>, own: nat)
      requires Valid() && HoldsTicket(Shared(), r)
      modifies this
      ensures Valid() && Grown(old(Shared()), Shared())
      ensures result.Ok? ==>
                && |old(commits)| <= own < |commits|
                && commits[own] == Commit(result.value, r, commits[own].time, token, id)
      ensures result.Err? && result.error != SyncUnavailable ==>
                DeniedSince(config, commits, |old(commits)|, r, token, result.error)
      ensures quiet ==>
                && result == Transition(At(config, old(commits), |old(commits)|), r, config, old(clock), token)
                && Shared() == old(Shared()).(commits := if result.Err? then old(commits)
                                               else old(commits) + [Commit(result.value, r, old(clock), token, id)])
    {
      result, own := Err(SyncUnavailable), 0;
      var again := true;
      for attempt := 0 to MAX_CAS_ATTEMPTS
        invariant Valid() && Grown(old(Shared()), Shared())
        invariant again && (quiet ==> attempt == 0 && Shared() == old(Shared()))
        invariant result == Err(SyncUnavailable)
      {
        ghost var before := Shared();
        again, result, own := Attempt(r, token, id, quiet);
        GrownThrough(old(Shared()), before, Shared());
        if !again {
          return;
        }
      }
    }

    /** One attempt of publishRoster up to its write: read the roster, then control, then compare. */
    method Compare(quiet: bool) returns (decision: Decision, roster: nat, version: nat)
      requires Valid() && |commits| > 0
      modifies this
      ensures Valid() && Grown(old(Shared()), Shared()) && !decision.Refuse?
      ensures |old(commits)| <= version <= |commits|
      ensures decision.AlreadyPublished? ==> PublishedOk(config, Shared(), |old(commits)| - 1, version, roster)
      ensures decision.Publish? ==> RosterBehind(config, Shared(), roster, version)
      ensures quiet ==> Shared() == old(Shared()) && roster == |rosters| && version == |commits|
    {
      roster := |rosters|;
      var published := RosterAt(rosters, roster);
      OthersRun(quiet);
      var control;
      control, version := ReadControl();
      DecisionMeans(config, Shared(), roster, version);
      decision := Decide(published, RosterPayload(control.Value(), config), config);
    }

    /** A conditional write of the roster blob. */
    method WriteRoster(version: nat, etag: nat, quiet: bool) returns (o: Outcome, conflict: bool)
      requires Valid() && 1 <= version && RosterBehind(config, Shared(), etag, version)
      modifies this`rosters
      ensures Valid() && Grown(old(Shared()), Shared())
      ensures conflict <==> etag != |old(rosters)|
      ensures rosters == if o.NotApplied? || conflict then old(rosters) else old(rosters) + [RosterOf(config, commits, version)]
      ensures quiet ==> o.Answered?
    {
      o := *;
      if quiet {
        o := Answered;
      }
      conflict := etag != |rosters|;
      if !o.NotApplied? && !conflict {
        RosterKeepsStore(config, Shared(), version);
        rosters := rosters + [RosterOf(config, commits, version)];
      }
    }

    /** The write of an attempt: `done` when it was applied and answered, `again` when it met a conflict. */
    method TryPublish(version: nat, etag: nat, quiet: bool) returns (again: bool, done: bool)
      requires Valid() && 1 <= version && RosterBehind(config, Shared(), etag, version)
      modifies this
      ensures Valid() && Grown(old(Shared()), Shared())
      ensures !(again && done)
      ensures done ==> |rosters| == etag + 1 && rosters[etag] == RosterOf(config, commits, version)
      ensures quiet ==> commits == old(commits) && (etag == |old(rosters)| ==> done)
    {
      OthersRun(quiet);
      RosterBehindKept(config, old(Shared()), Shared(), etag, version);
      ghost var before := Shared();
      var o, conflict := WriteRoster(version, etag, quiet);
      GrownThrough(old(Shared()), before, Shared());
      done := o.Answered? && !conflict;
      again := !done && !o.NotApplied? && !o.AppliedThenError?;
    }

    /** One attempt of publishRoster; `again` when its write met a conflict. */
    method Publish(quiet: bool) returns (again: bool, result: Publication)
      requires Valid() && |commits| > 0
      modifies this
      ensures Valid() && Grown(old(Shared()), Shared())
      ensures result.Published? ==> PublishedOk(config, Shared(), |old(commits)| - 1, result.version, result.roster)
      ensures again ==> result == NotPublished(OutOfAttempts)
      ensures result.NotPublished? && !again ==> result.failure.Interrupted?
      ensures quiet ==> !again && result.Published? && result.version == |commits| && commits == old(commits)
    {
      again := false;
      var decision, roster, version := Compare(quiet);
      result := Published(version, roster);
      if decision.Publish? {
        ghost var compared := Shared();
        var done;
        again, done := TryPublish(version, roster, quiet);
        GrownThrough(old(Shared()), compared, Shared());
        result := if done then Published(version, roster + 1) else NotPublished(if again then OutOfAttempts else Interrupted);
      }
    }

    /** publishRoster: never refuses what it reads, and on success the roster blob holds, at the returned
        position, the payload of the returned control version; undisturbed, it succeeds. */
    method PublishRoster(quiet: bool) returns (result: Publication)
      requires Valid() && |commits| > 0
      modifies this
      ensures Valid() && Grown(old(Shared()), Shared())
      ensures result.Published? ==> PublishedOk(config, Shared(), |old(commits)| - 1, result.version, result.roster)
      ensures result.NotPublished? ==> result.failure.OutOfAttempts? || result.failure.Interrupted?
      ensures quiet ==> result.Published? && result.version == |commits| && commits == old(commits)
    {
      result := NotPublished(OutOfAttempts);
      for attempt := 0 to MAX_CAS_ATTEMPTS
        invariant Valid() && Grown(old(Shared()), Shared())
        invariant quiet ==> attempt == 0 && commits == old(commits)
        invariant result == NotPublished(OutOfAttempts)
      {
        ghost var before := Shared();
        var again;
        again, result := Publish(quiet);
        GrownThrough(old(Shared()), before, Shared());
        if !again {
          return;
        }
      }
    }

    /** The rest of execute after its own write. */
    method Answer(r: Request, own: nat, quiet: bool) returns (reply: Option<Reply>)
      requires Valid() && own < |commits|
      modifies this
      ensures Valid() && Grown(old(Shared()), Shared())
      ensures reply.Some? ==>
                var x := reply.value;
                && x.own == own && PublishedOk(config, Shared(), own, x.version, x.roster)
                && IsMember(At(config, commits, x.version), r)
                && (x.granted <==> r.action.Enroll? || r.action.Grants?)
      ensures quiet ==> (reply.Some? <==> IsMember(At(config, old(commits), |old(commits)|), r))
    {
      reply := None;
      var publication := PublishRoster(quiet);
      if publication.Published? && IsMember(At(config, commits, publication.version), r) {
        reply := Some(Reply(own, publication.version, publication.roster, GrantsStorage(r.action)));
      }
    }

    /** execute: a reply means that the request was committed, that the roster blob covers its write, and
        that the caller was still a member when control was last read; undisturbed, a reply is due exactly
        when the transition is accepted. */
    method Execute(r: Request, token: Text, id: nat, quiet: bool) returns (reply: Option<Reply>)
      requires Valid() && HoldsTicket(Shared(), r)
      modifies this
      ensures Valid() && Grown(old(Shared()), Shared())
      ensures reply.Some? ==>
                var x := reply.value;
                && |old(commits)| <= x.own < |commits| && commits[x.own].request == r
                && PublishedOk(config, Shared(), x.own, x.version, x.roster)
                && IsMember(At(config, commits, x.version), r)
                && (x.granted <==> r.action.Enroll? || r.action.Grants?)
      ensures quiet ==> (reply.Some? <==> Transition(At(config, old(commits), |old(commits)|), r, config, old(clock), token).Ok?)
    {
      ghost var start := At(config, commits, |commits|);
      ghost var now := clock;
      var committed, own := Transact(r, token, id, quiet);
      reply := None;
      if committed.Ok? {
        ghost var written := Shared();
        reply := Answer(r, own, quiet);
        GrownThrough(old(Shared()), written, Shared());
        if quiet {
          AcceptedIsMember(start, r, config, now, token);
        }
      }
    }
  }
}
