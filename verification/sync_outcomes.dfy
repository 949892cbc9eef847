/**
  What every request is answered, in terms of the stored state alone: when it is accepted, what it leaves behind,
  and which error it gets otherwise (api/_lib/wardriver-sync-store.js:112-215).
 */
module SyncOutcomes {
  import opened Wrappers
  import opened SyncAuth
  import opened SyncState

  predicate Live(s: State, i: int, now: int) { 0 <= i < |s.requests| && s.requests[i].expiresAt > now }

  function LiveCount(s: State, now: int): nat { |set i | 0 <= i < |s.requests| && s.requests[i].expiresAt > now| }

  function LiveCountOf(s: State, device: Digest, now: int): nat {
    |set i | 0 <= i < |s.requests| && s.requests[i].expiresAt > now && s.requests[i].deviceId == device|
  }

  ghost predicate Presented(s: State, r: Request, now: int) {
    exists i :: Live(s, i, now) && s.requests[i].deviceId == r.deviceId && s.requests[i].nonce == r.nonce
  }

  // ----- Receipts -----

  function Picked(rs: seq<Receipt>, pick: Receipt -> bool): set<int> { set i | 0 <= i < |rs| && pick(rs[i]) }

  lemma PickedLast(rs: seq<Receipt>, pick: Receipt -> bool)
    requires rs != []
    ensures |Picked(rs, pick)| == |Picked(rs[..|rs| - 1], pick)| + if pick(rs[|rs| - 1]) then 1 else 0
  {
    var init := rs[..|rs| - 1];
    assert Picked(rs, pick) == Picked(init, pick) + if pick(rs[|rs| - 1]) then {|rs| - 1} else {};
  }

  lemma {:induction false} LiveReceiptsLast(rs: seq<Receipt>, x: Receipt, now: int)
    ensures LiveReceipts(rs + [x], now) == LiveReceipts(rs, now) + if x.expiresAt > now then [x] else []
  {
    if rs == [] {
      assert [x][1..] == [];
    } else {
      assert (rs + [x])[1..] == rs[1..] + [x];
      LiveReceiptsLast(rs[1..], x, now);
    }
  }

  lemma {:induction false} CountOfLast(rs: seq<Receipt>, x: Receipt, device: Digest)
    ensures CountOf(rs + [x], device) == CountOf(rs, device) + if x.deviceId == device then 1 else 0
  {
    if rs == [] {
      assert [x][1..] == [];
    } else {
      assert (rs + [x])[1..] == rs[1..] + [x];
      CountOfLast(rs[1..], x, device);
    }
  }

  lemma {:induction false} LiveReceiptsCount(rs: seq<Receipt>, device: Digest, now: int)
    ensures |LiveReceipts(rs, now)| == |Picked(rs, (x: Receipt) => x.expiresAt > now)|
    ensures CountOf(LiveReceipts(rs, now), device) == |Picked(rs, (x: Receipt) => x.expiresAt > now && x.deviceId == device)|
  {
    if rs != [] {
      var init, last := rs[..|rs| - 1], rs[|rs| - 1];
      assert rs == init + [last];
      LiveReceiptsCount(init, device, now);
      LiveReceiptsLast(init, last, now);
      CountOfLast(LiveReceipts(init, now), last, device);
      PickedLast(rs, (x: Receipt) => x.expiresAt > now);
      PickedLast(rs, (x: Receipt) => x.expiresAt > now && x.deviceId == device);
      if last.expiresAt <= now { assert LiveReceipts(init, now) + [] == LiveReceipts(init, now); }
    }
  }

  lemma LiveCountsAre(s: State, device: Digest, now: int)
    ensures |LiveReceipts(s.requests, now)| == LiveCount(s, now)
    ensures CountOf(LiveReceipts(s.requests, now), device) == LiveCountOf(s, device, now)
  {
    LiveReceiptsCount(s.requests, device, now);
    assert Picked(s.requests, (x: Receipt) => x.expiresAt > now) == set i | 0 <= i < |s.requests| && s.requests[i].expiresAt > now;
    assert Picked(s.requests, (x: Receipt) => x.expiresAt > now && x.deviceId == device)
        == set i | 0 <= i < |s.requests| && s.requests[i].expiresAt > now && s.requests[i].deviceId == device;
  }

  lemma PresentedIs(s: State, r: Request, now: int)
    ensures HasReceipt(LiveReceipts(s.requests, now), r.deviceId, r.nonce) <==> Presented(s, r, now)
  {
    var live := LiveReceipts(s.requests, now);
    if i :| 0 <= i < |live| && live[i].deviceId == r.deviceId && live[i].nonce == r.nonce {
      assert live[i] in s.requests;
      var j :| 0 <= j < |s.requests| && s.requests[j] == live[i];
      assert live[i] in live && Live(s, j, now);
    }
    if i :| Live(s, i, now) && s.requests[i].deviceId == r.deviceId && s.requests[i].nonce == r.nonce {
      assert s.requests[i] in s.requests && s.requests[i] in live;
      var j :| 0 <= j < |live| && live[j] == s.requests[i];
    }
  }

  /** The challenge still runs, has no live receipt, and neither the group nor the device has too many. */
  ghost predicate Admitted(s: State, r: Request, now: int) {
    r.expiresAt > now && !Presented(s, r, now) && LiveCount(s, now) < 512 && LiveCountOf(s, r.deviceId, now) < 64
  }

  /** What is refused before the action is looked at, and how. */
  lemma AdmissionErrors(s: State, r: Request, c: Config, now: int, token: Text)
    ensures Admission(s, r, now).None? <==> Admitted(s, r, now)
    ensures r.expiresAt <= now ==> Transition(s, r, c, now, token) == Err(ChallengeExpired)
    ensures r.expiresAt > now && Presented(s, r, now) ==> Transition(s, r, c, now, token) == Err(ChallengeUsed)
    ensures r.expiresAt > now && !Presented(s, r, now) && !Admitted(s, r, now) ==> Transition(s, r, c, now, token) == Err(RateLimited)
  {
    LiveCountsAre(s, r.deviceId, now);
    PresentedIs(s, r, now);
  }

  // ----- What every accepted request leaves -----

  predicate RunsAt(s: State, hash: Digest, now: int) { hash in s.invitations && s.invitations[hash].expiresAt > now }

  /** The requests of t are the live ones of s and this one; the group is the same. */
  ghost predicate Received(s: State, r: Request, now: int, t: State) {
    && t.groupId == s.groupId
    && (forall x :: x in t.requests <==> (x in s.requests && x.expiresAt > now) || x == Receipt(r.deviceId, r.nonce, r.expiresAt))
    && |t.requests| == LiveCount(s, now) + 1
  }

  /** The invitations of t are those of s that still run, but for the one. */
  ghost predicate InvitationsBut(s: State, now: int, t: State, hash: Digest) {
    forall h :: h != hash ==> (h in t.invitations <==> RunsAt(s, h, now)) && (RunsAt(s, h, now) ==> t.invitations[h] == s.invitations[h])
  }

  ghost predicate InvitationsAsTheyRun(s: State, now: int, t: State) {
    && (forall h :: h in t.invitations <==> RunsAt(s, h, now))
    && forall h :: RunsAt(s, h, now) ==> t.invitations[h] == s.invitations[h]
  }

  predicate RosterUnmoved(s: State, t: State) { t.devices == s.devices && t.rosterRevision == s.rosterRevision }

  /** One member is as given, the others are as they were, and the revision has risen by one. */
  predicate RosterMoved(s: State, t: State, id: Digest, m: Member) {
    t.devices == s.devices[id := m] && t.rosterRevision == s.rosterRevision + 1
  }

  /** Every accepted request leaves its receipt beside those that still run. */
  lemma AcceptedIsReceived(s: State, r: Request, c: Config, now: int, token: Text)
    requires ValidState(s, c) && Verified(r) && 0 <= now <= MAX_CLOCK && Transition(s, r, c, now, token).Ok?
    ensures Received(s, r, now, Transition(s, r, c, now, token).value)
  {
    ComputedStateIsValid(s, r, c, now, token);
    ComputedParts(s, r, c, now, token);
    TransitionIsGood(s, r, c, now, token);
    LiveCountsAre(s, r.deviceId, now);
    ReceiptsAre(s, r, now, Compute(s, r, c, now, token).value);
  }

  lemma ReceiptsAre(s: State, r: Request, now: int, t: State)
    requires t.groupId == s.groupId && t.requests == LiveReceipts(s.requests, now) + [Receipt(r.deviceId, r.nonce, r.expiresAt)]
    requires |LiveReceipts(s.requests, now)| == LiveCount(s, now)
    ensures Received(s, r, now, t)
  {}

  ghost predicate Asks(s: State, r: Request, c: Config, now: int) {
    ValidState(s, c) && Verified(r) && 0 <= now <= MAX_CLOCK && Admitted(s, r, now)
  }

  /** The transition of an admitted request is its action on what still runs. */
  lemma Decided(s: State, r: Request, c: Config, now: int, token: Text)
    requires Asks(s, r, c, now)
    ensures var x := ApplyAction(Pruned(s, now), r, c, now, token); var y := Transition(s, r, c, now, token);
            && (x.Err? ==> y == Err(x.error))
            && (x.Ok? ==> y.Ok? && y.value == x.value.(requests := y.value.requests))
  {
    AdmissionErrors(s, r, c, now, token);
    ComputedStateIsValid(s, r, c, now, token);
  }

  lemma MemberHasItsKey(s: State, r: Request, c: Config)
    requires ValidState(s, c) && Verified(r) && r.deviceId in s.devices
    ensures s.devices[r.deviceId].publicKeySpki == r.publicKeySpki
  {
    assert ValidMember(r.deviceId, s.devices[r.deviceId]);
  }

  // ----- Enrolment -----

  predicate HasRoom(s: State, c: Config) {
    |s.devices| < 32 && |set id | id in s.devices && s.devices[id].status.Active?| < c.maxDevices
  }

  predicate Unconsumed(s: State, hash: Digest, now: int) { RunsAt(s, hash, now) && s.invitations[hash].consumedBy.None? }

  /** A device that is not a member is admitted if and only if its invitation is stored, unconsumed and still runs,
      and the group has room for it. */
  lemma NewDeviceAdmittedIff(s: State, r: Request, c: Config, now: int, token: Text)
    requires Asks(s, r, c, now) && r.action.Enroll? && r.deviceId !in s.devices
    ensures var x := Transition(s, r, c, now, token); var hash := Sha256(r.action.invitation);
            && (x.Ok? <==> Unconsumed(s, hash, now) && HasRoom(s, c) && s.rosterRevision < MAX_SAFE_INTEGER)
            && (RunsAt(s, hash, now) && s.invitations[hash].consumedBy.Some? ==> x == Err(InvitationUsed))
            && (!RunsAt(s, hash, now) ==> x == Err(InvitationInvalid))
            && (Unconsumed(s, hash, now) && !HasRoom(s, c) ==> x == Err(GroupFull))
            && (Unconsumed(s, hash, now) && HasRoom(s, c) && s.rosterRevision == MAX_SAFE_INTEGER ==> x == Err(SyncUnavailable))
  {
    Decided(s, r, c, now, token);
    assert ActiveIds(s.devices) == set id | id in s.devices && s.devices[id].status.Active?;
  }

  /** It is then an active member under its key and name, and the invitation is consumed by it. */
  lemma AdmittedDeviceIsMember(s: State, r: Request, c: Config, now: int, token: Text)
    requires Asks(s, r, c, now) && r.action.Enroll? && r.deviceId !in s.devices && Transition(s, r, c, now, token).Ok?
    ensures var t := Transition(s, r, c, now, token).value; var hash := Sha256(r.action.invitation);
            && RosterMoved(s, t, r.deviceId, Member(r.publicKeySpki, r.action.displayName, Active, None, Some(hash)))
            && InvitationsBut(s, now, t, hash)
            && hash in s.invitations && hash in t.invitations && t.invitations[hash] == Invitation(s.invitations[hash].expiresAt, Some(r.deviceId))
  {
    Decided(s, r, c, now, token);
  }

  /** A device that is one already is let in again exactly when it is active and this was its invitation. */
  lemma KnownDeviceAdmittedIff(s: State, r: Request, c: Config, now: int, token: Text)
    requires Asks(s, r, c, now) && r.action.Enroll? && r.deviceId in s.devices
    ensures var x := Transition(s, r, c, now, token); var m := s.devices[r.deviceId]; var hash := Sha256(r.action.invitation);
            && (m.status.Revoked? ==> x == Err(NotMember))
            && (m.status.Active? && m.invitationHash != Some(hash) ==> x == Err(InvitationInvalid))
            && (m.status.Active? && m.invitationHash == Some(hash) ==>
                  x.Ok? && RosterUnmoved(s, x.value) && InvitationsAsTheyRun(s, now, x.value))
  {
    Decided(s, r, c, now, token);
    MemberHasItsKey(s, r, c);
  }

  // ----- The other actions -----

  predicate ActiveSender(s: State, r: Request) { r.deviceId in s.devices && s.devices[r.deviceId].status.Active? }

  lemma SenderIsMember(s: State, r: Request, c: Config, now: int)
    requires ValidState(s, c) && Verified(r)
    ensures IsMember(Pruned(s, now), r) <==> ActiveSender(s, r)
  {
    if ActiveSender(s, r) { MemberHasItsKey(s, r, c); }
  }

  /** Whoever is not an active member is refused, and so is anyone but the owner who invites or revokes. */
  lemma OnlyMembersAct(s: State, r: Request, c: Config, now: int, token: Text)
    requires Asks(s, r, c, now) && !r.action.Enroll?
    ensures !ActiveSender(s, r) ==> Transition(s, r, c, now, token) == Err(NotMember)
    ensures ActiveSender(s, r) && (r.action.Invite? || r.action.Revoke?) && r.deviceId != Sha256(c.ownerKey) ==>
              Transition(s, r, c, now, token) == Err(OwnerRequired)
  {
    Decided(s, r, c, now, token);
    SenderIsMember(s, r, c, now);
  }

  lemma OwnerIsActive(s: State, r: Request, c: Config)
    requires ValidState(s, c) && r.deviceId == Sha256(c.ownerKey)
    ensures ActiveSender(s, r)
  {}

  lemma RunningInvitations(s: State, now: int)
    ensures |LiveInvitations(s.invitations, now)| == |set h | h in s.invitations && s.invitations[h].expiresAt > now|
  {
    assert LiveInvitations(s.invitations, now).Keys == set h | h in s.invitations && s.invitations[h].expiresAt > now;
  }

  /** The owner may invite if and only if fewer than 32 invitations still run. */
  lemma OwnerInvitesIff(s: State, r: Request, c: Config, now: int, token: Text)
    requires Asks(s, r, c, now) && r.action.Invite? && r.deviceId == Sha256(c.ownerKey)
    ensures if |set h | h in s.invitations && s.invitations[h].expiresAt > now| < 32 then Transition(s, r, c, now, token).Ok?
            else Transition(s, r, c, now, token) == Err(RateLimited)
  {
    Decided(s, r, c, now, token);
    OwnerIsActive(s, r, c);
    SenderIsMember(s, r, c, now);
    RunningInvitations(s, now);
  }

  /** The invitation is then stored under the hash of its token and runs for as long as was asked. */
  lemma InvitationIsStored(s: State, r: Request, c: Config, now: int, token: Text)
    requires Asks(s, r, c, now) && r.action.Invite? && Transition(s, r, c, now, token).Ok?
    ensures var t := Transition(s, r, c, now, token).value; var hash := Sha256(token);
            && RosterUnmoved(s, t) && InvitationsBut(s, now, t, hash)
            && hash in t.invitations && t.invitations[hash] == Invitation(now + r.action.expiresInSeconds, None)
  {
    Decided(s, r, c, now, token);
  }

  /** An active member takes the name it asks for; the same name again moves nothing. */
  lemma MemberRenamesIff(s: State, r: Request, c: Config, now: int, token: Text)
    requires Asks(s, r, c, now) && r.action.Rename? && ActiveSender(s, r)
    ensures var x := Transition(s, r, c, now, token); var m := s.devices[r.deviceId];
            if m.displayName == r.action.name then
              x.Ok? && RosterUnmoved(s, x.value) && InvitationsAsTheyRun(s, now, x.value)
            else if s.rosterRevision == MAX_SAFE_INTEGER then x == Err(SyncUnavailable)
            else
              && x.Ok? && InvitationsAsTheyRun(s, now, x.value)
              && RosterMoved(s, x.value, r.deviceId, Member(m.publicKeySpki, r.action.name, m.status, m.acceptedThrough, m.invitationHash))
  {
    Decided(s, r, c, now, token);
    SenderIsMember(s, r, c, now);
  }

  /** The owner revokes any other member that is active, at the cutoff it gives; a revoked one keeps its own. */
  lemma OwnerRevokesIff(s: State, r: Request, c: Config, now: int, token: Text)
    requires Asks(s, r, c, now) && r.action.Revoke? && r.deviceId == Sha256(c.ownerKey)
    ensures var x := Transition(s, r, c, now, token); var target := r.action.target;
            if target == r.deviceId then x == Err(OwnerProtected)
            else if target !in s.devices then x == Err(DeviceNotFound)
            else
              var m := s.devices[target];
              if m.status.Revoked? && m.acceptedThrough != Some(r.action.cutoff) then x == Err(CutoffConflict)
              else if m.status.Revoked? then
                x.Ok? && RosterUnmoved(s, x.value) && InvitationsAsTheyRun(s, now, x.value)
              else if s.rosterRevision == MAX_SAFE_INTEGER then x == Err(SyncUnavailable)
              else
                && x.Ok? && InvitationsAsTheyRun(s, now, x.value)
                && RosterMoved(s, x.value, target, Member(m.publicKeySpki, m.displayName, Revoked, Some(r.action.cutoff), m.invitationHash))
  {
    Decided(s, r, c, now, token);
    OwnerIsActive(s, r, c);
    SenderIsMember(s, r, c, now);
  }

  /** A grants call of an active member is always accepted, and moves nothing. */
  lemma MemberIsGranted(s: State, r: Request, c: Config, now: int, token: Text)
    requires Asks(s, r, c, now) && r.action.Grants? && ActiveSender(s, r)
    ensures var x := Transition(s, r, c, now, token);
            x.Ok? && RosterUnmoved(s, x.value) && InvitationsAsTheyRun(s, now, x.value)
  {
    Decided(s, r, c, now, token);
    SenderIsMember(s, r, c, now);
  }

  // ----- Published entries -----

  /** A roster entry is its member's, field by field; only a revoked one shows a cutoff. */
  ghost predicate Shows(payload: Payload, s: State) {
    && (forall id :: id in payload.devices <==> id in s.devices)
    && forall id :: id in s.devices ==>
         && payload.devices[id].publicKeySpki == s.devices[id].publicKeySpki
         && payload.devices[id].displayName == s.devices[id].displayName
         && payload.devices[id].status == s.devices[id].status
         && payload.devices[id].acceptedThrough == s.devices[id].acceptedThrough
  }

  lemma PayloadShows(s: State, c: Config)
    requires ValidState(s, c)
    ensures var p := RosterPayload(s, c);
            && Shows(p, s) && p.groupId == c.groupId && p.revision == s.rosterRevision && p.ownerDeviceId == Sha256(c.ownerKey)
  {
    forall id | id in s.devices ensures s.devices[id].status.Active? ==> s.devices[id].acceptedThrough.None? {
      assert ValidMember(id, s.devices[id]);
    }
  }
}
