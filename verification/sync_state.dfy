/**
  The control state of a sync group and the transition one accepted request makes on it
  (api/_lib/wardriver-sync-store.js: validateState, applyAction and the body of transact).
  These functions specify the methods of SyncControl.ControlState and the steps of
  SyncProtocol.
 */
module SyncState {
  import opened Wrappers
  import opened SyncAuth

  const MAX_MEMBERS := 32
  const MAX_INVITATIONS := 32
  const MAX_NONCES := 512
  const MAX_DEVICE_NONCES := 64

  datatype Member = Member(publicKeySpki: Text, displayName: Text, status: Status,
                           acceptedThrough: Option<Cutoff>, invitationHash: Option<Digest>)
  datatype Invitation = Invitation(expiresAt: int, consumedBy: Option<Digest>)
  datatype Receipt = Receipt(deviceId: Digest, nonce: nat, expiresAt: int)
  datatype State = State(groupId: Text, rosterRevision: int, devices: map<Digest, Member>,
                         invitations: map<Digest, Invitation>, requests: seq<Receipt>)
  datatype Change = Change(state: State, changed: bool)

  function InitialState(c: Config): State {
    State(c.groupId, 1, map[c.OwnerId() := Member(c.ownerKey, c.ownerName, Active, None, None)], map[], [])
  }

  // ----- validateState -----

  predicate ValidMember(id: Digest, m: Member) {
    && id == Sha256(m.publicKeySpki)
    && DisplayName(m.displayName) == Some(m.displayName)
    && (m.status.Active? ==> m.acceptedThrough.None?)
    && (m.status.Revoked? ==> m.acceptedThrough.Some? && ValidCutoff(m.acceptedThrough.value))
  }

  predicate ValidOwner(s: State, c: Config) {
    && c.OwnerId() in s.devices
    && s.devices[c.OwnerId()].publicKeySpki == c.ownerKey
    && s.devices[c.OwnerId()].status.Active?
  }

  predicate SafeInteger(n: int) { -MAX_SAFE_INTEGER <= n <= MAX_SAFE_INTEGER }

  predicate ValidInvitation(hash: Digest, i: Invitation, devices: map<Digest, Member>) {
    && SafeInteger(i.expiresAt)
    && (i.consumedBy.Some? ==>
          i.consumedBy.value in devices && devices[i.consumedBy.value].invitationHash == Some(hash))
  }

  predicate ValidEnvelope(s: State, c: Config) {
    && s.groupId == c.groupId
    && 1 <= s.rosterRevision <= MAX_SAFE_INTEGER
    && |s.devices| <= MAX_MEMBERS
    && |s.invitations| <= MAX_INVITATIONS
    && |s.requests| <= MAX_NONCES
  }

  predicate ValidMembers(devices: map<Digest, Member>) { forall id :: id in devices ==> ValidMember(id, devices[id]) }

  predicate ValidInvitations(invitations: map<Digest, Invitation>, devices: map<Digest, Member>) {
    forall h :: h in invitations ==> ValidInvitation(h, invitations[h], devices)
  }

  predicate ValidState(s: State, c: Config) {
    && ValidEnvelope(s, c) && ValidMembers(s.devices) && ValidOwner(s, c) && ValidInvitations(s.invitations, s.devices)
    && (forall r :: r in s.requests ==> SafeInteger(r.expiresAt))
  }

  // ----- Membership actions -----

  predicate IsMember(s: State, r: Request) {
    && r.deviceId in s.devices
    && s.devices[r.deviceId].status.Active?
    && s.devices[r.deviceId].publicKeySpki == r.publicKeySpki
  }

  function ActiveIds(devices: map<Digest, Member>): set<Digest> {
    set id | id in devices && devices[id].status.Active?
  }

  function EnrollMember(s: State, r: Request, c: Config, now: int): Result<Change>
    requires r.action.Enroll?
  {
    var hash := Sha256(r.action.invitation);
    if r.deviceId in s.devices then
      if !IsMember(s, r) then Err(NotMember)
      else if s.devices[r.deviceId].invitationHash != Some(hash) then Err(InvitationInvalid)
      else Ok(Change(s, false))
    else if hash in s.invitations && s.invitations[hash].consumedBy.Some? then Err(InvitationUsed)
    else if hash !in s.invitations || s.invitations[hash].expiresAt <= now then Err(InvitationInvalid)
    else if |s.devices| >= MAX_MEMBERS || |ActiveIds(s.devices)| >= c.maxDevices then Err(GroupFull)
    else
      var member := Member(r.publicKeySpki, r.action.displayName, Active, None, Some(hash));
      Ok(Change(s.(invitations := s.invitations[hash := s.invitations[hash].(consumedBy := Some(r.deviceId))],
                   devices := s.devices[r.deviceId := member]), true))
  }

  function AddInvitation(s: State, r: Request, now: int, token: Text): Result<Change>
    requires r.action.Invite?
  {
    if |s.invitations| >= MAX_INVITATIONS then Err(RateLimited)
    else Ok(Change(s.(invitations := s.invitations[Sha256(token) := Invitation(now + r.action.expiresInSeconds, None)]), false))
  }

  function RenameMember(s: State, r: Request): Result<Change>
    requires r.action.Rename? && r.deviceId in s.devices
  {
    var m := s.devices[r.deviceId];
    if m.displayName == r.action.name then Ok(Change(s, false))
    else Ok(Change(s.(devices := s.devices[r.deviceId := m.(displayName := r.action.name)]), true))
  }

  function RevokeMember(s: State, r: Request, c: Config): Result<Change>
    requires r.action.Revoke?
  {
    var target := r.action.target;
    if target == c.OwnerId() then Err(OwnerProtected)
    else if target !in s.devices then Err(DeviceNotFound)
    else if s.devices[target].status.Revoked? then
      if s.devices[target].acceptedThrough != Some(r.action.cutoff) then Err(CutoffConflict) else Ok(Change(s, false))
    else
      var m := s.devices[target].(status := Revoked, acceptedThrough := Some(r.action.cutoff));
      Ok(Change(s.(devices := s.devices[target := m]), true))
  }

  function ApplyMemberAction(s: State, r: Request, c: Config, now: int, token: Text): Result<Change>
    requires !r.action.Enroll?
  {
    if !IsMember(s, r) then Err(NotMember)
    else if (r.action.Invite? || r.action.Revoke?) && r.deviceId != c.OwnerId() then Err(OwnerRequired)
    else match r.action
      case Invite(_) => AddInvitation(s, r, now, token)
      case Rename(_) => RenameMember(s, r)
      case Revoke(_, _) => RevokeMember(s, r, c)
      case Grants => Ok(Change(s, false))
  }

  /** The change ApplyAction makes before it moves the revision. */
  function ChangeOf(p: State, r: Request, c: Config, now: int, token: Text): Result<Change> {
    if r.action.Enroll? then EnrollMember(p, r, c, now) else ApplyMemberAction(p, r, c, now, token)
  }

  function ApplyAction(s: State, r: Request, c: Config, now: int, token: Text): Result<State> {
    match ChangeOf(s, r, c, now, token)
    case Err(e) => Err(e)
    case Ok(change) =>
      if !change.changed then Ok(change.state)
      else if change.state.rosterRevision == MAX_SAFE_INTEGER then Err(SyncUnavailable)
      else Ok(change.state.(rosterRevision := change.state.rosterRevision + 1))
  }

  // ----- Receipts and invitations that have run out -----

  function LiveReceipts(rs: seq<Receipt>, now: int): (live: seq<Receipt>)
    ensures forall r :: r in live <==> r in rs && r.expiresAt > now
    ensures |live| <= |rs|
  {
    if rs == [] then []
    else (if rs[0].expiresAt > now then [rs[0]] else []) + LiveReceipts(rs[1..], now)
  }

  function CountOf(rs: seq<Receipt>, device: Digest): nat {
    if rs == [] then 0 else (if rs[0].deviceId == device then 1 else 0) + CountOf(rs[1..], device)
  }

  predicate HasReceipt(rs: seq<Receipt>, device: Digest, nonce: nat) {
    exists i :: 0 <= i < |rs| && rs[i].deviceId == device && rs[i].nonce == nonce
  }

  function LiveInvitations(m: map<Digest, Invitation>, now: int): map<Digest, Invitation> {
    map h | h in m && m[h].expiresAt > now :: m[h]
  }

  /** The state an action sees: receipts and invitations that have run out are gone. */
  function Pruned(s: State, now: int): State {
    s.(requests := LiveReceipts(s.requests, now), invitations := LiveInvitations(s.invitations, now))
  }

  /** The error raised before any action is tried, if one is. */
  function Admission(s: State, r: Request, now: int): Option<SyncError> {
    var live := LiveReceipts(s.requests, now);
    if r.expiresAt <= now then Some(ChallengeExpired)
    else if HasReceipt(live, r.deviceId, r.nonce) then Some(ChallengeUsed)
    else if |live| >= MAX_NONCES || CountOf(live, r.deviceId) >= MAX_DEVICE_NONCES then Some(RateLimited)
    else None
  }

  /** transact between its clock reading and the validation of the state it will write. */
  function Compute(s: State, r: Request, c: Config, now: int, token: Text): Result<State> {
    match Admission(s, r, now)
    case Some(e) => Err(e)
    case None =>
      match ApplyAction(Pruned(s, now), r, c, now, token)
      case Err(e) => Err(e)
      case Ok(t) => Ok(t.(requests := t.requests + [Receipt(r.deviceId, r.nonce, r.expiresAt)]))
  }

  /** The state transact goes on to write, or the error it raises instead. */
  function Transition(s: State, r: Request, c: Config, now: int, token: Text): Result<State> {
    match Compute(s, r, c, now, token)
    case Err(e) => Err(e)
    case Ok(t) => if ValidState(t, c) then Ok(t) else Err(SyncUnavailable)
  }

  // ----- Roster payload -----

  datatype RosterEntry = RosterEntry(publicKeySpki: Text, displayName: Text, status: Status, acceptedThrough: Option<Cutoff>)
  datatype Payload = Payload(groupId: Text, revision: int, ownerDeviceId: Digest, devices: map<Digest, RosterEntry>)

  function EntryOf(m: Member): RosterEntry {
    RosterEntry(m.publicKeySpki, m.displayName, m.status, if m.status.Revoked? then m.acceptedThrough else None)
  }

  function Entries(devices: map<Digest, Member>): map<Digest, RosterEntry> {
    map id | id in devices :: EntryOf(devices[id])
  }

  function RosterPayload(s: State, c: Config): Payload {
    Payload(s.groupId, s.rosterRevision, c.OwnerId(), Entries(s.devices))
  }

  // ----- What one transition keeps -----

  lemma CountBound(rs: seq<Receipt>, device: Digest)
    ensures CountOf(rs, device) <= |rs|
  {}

  /** An existing member keeps its key and admission hash; revocation and its cutoff are final. */
  predicate Kept(before: Member, after: Member) {
    && after.publicKeySpki == before.publicKeySpki
    && after.invitationHash == before.invitationHash
    && (before.status.Revoked? ==> after.status == before.status && after.acceptedThrough == before.acceptedThrough)
  }

  predicate DevicesKept(before: map<Digest, Member>, after: map<Digest, Member>) {
    forall id :: id in before ==> id in after && Kept(before[id], after[id])
  }

  /** What every membership action keeps, and that it reports a change exactly when the roster changes. */
  ghost predicate GoodChange(p: State, x: Change, c: Config) {
    && x.state.groupId == p.groupId
    && x.state.rosterRevision == p.rosterRevision
    && x.state.requests == p.requests
    && DevicesKept(p.devices, x.state.devices)
    && (x.changed <==> Entries(x.state.devices) != Entries(p.devices))
    && (|ActiveIds(p.devices)| <= c.maxDevices ==> |ActiveIds(x.state.devices)| <= c.maxDevices)
  }

  lemma EnrollIsGood(p: State, r: Request, c: Config, now: int)
    requires r.action.Enroll? && EnrollMember(p, r, c, now).Ok?
    ensures GoodChange(p, EnrollMember(p, r, c, now).value, c)
  {
    var t := EnrollMember(p, r, c, now).value.state;
    if r.deviceId !in p.devices {
      assert r.deviceId in Entries(t.devices) && r.deviceId !in Entries(p.devices);
      assert ActiveIds(t.devices) == ActiveIds(p.devices) + {r.deviceId};
    }
  }

  lemma RenameIsGood(p: State, r: Request, c: Config)
    requires r.action.Rename? && r.deviceId in p.devices && RenameMember(p, r).Ok?
    ensures GoodChange(p, RenameMember(p, r).value, c)
  {
    var t := RenameMember(p, r).value.state;
    if p.devices[r.deviceId].displayName != r.action.name {
      assert Entries(t.devices)[r.deviceId] != Entries(p.devices)[r.deviceId];
    }
    assert ActiveIds(t.devices) == ActiveIds(p.devices);
  }

  lemma RevokeIsGood(p: State, r: Request, c: Config)
    requires r.action.Revoke? && RevokeMember(p, r, c).Ok?
    ensures GoodChange(p, RevokeMember(p, r, c).value, c)
  {
    var t := RevokeMember(p, r, c).value.state;
    var target := r.action.target;
    if p.devices[target].status.Active? {
      assert Entries(t.devices)[target] != Entries(p.devices)[target];
    }
    SubsetSize(ActiveIds(t.devices), ActiveIds(p.devices));
  }

  lemma ActionIsGood(p: State, r: Request, c: Config, now: int, token: Text)
    requires ChangeOf(p, r, c, now, token).Ok?
    ensures GoodChange(p, ChangeOf(p, r, c, now, token).value, c)
  {
    match r.action {
      case Enroll(_, _) => EnrollIsGood(p, r, c, now);
      case Rename(_) => RenameIsGood(p, r, c);
      case Revoke(_, _) => RevokeIsGood(p, r, c);
      case Invite(_) =>
      case Grants =>
    }
  }

  /** What each accepted action leaves behind. */
  lemma ActionTakesEffect(p: State, r: Request, c: Config, now: int, token: Text)
    requires ChangeOf(p, r, c, now, token).Ok?
    ensures var t := ChangeOf(p, r, c, now, token).value.state;
            && IsMember(t, r)
            && (forall id :: id in p.devices && id != r.deviceId && (r.action.Revoke? ==> id != r.action.target) ==> t.devices[id] == p.devices[id])
            && match r.action
               case Enroll(invitation, name) =>
                 && t.devices[r.deviceId].invitationHash == Some(Sha256(invitation))
                 && (r.deviceId !in p.devices ==> t.devices[r.deviceId].displayName == name)
               case Rename(name) => t.devices[r.deviceId].displayName == name
               case Revoke(target, cutoff) =>
                 r.deviceId == c.OwnerId() && target != c.OwnerId() && t.devices[target].status.Revoked?
                 && t.devices[target].acceptedThrough == Some(cutoff)
               case Invite(seconds) =>
                 r.deviceId == c.OwnerId() && t.devices == p.devices
                 && t.invitations == p.invitations[Sha256(token) := Invitation(now + seconds, None)]
               case Grants => t == p
  {
    ActionIsGood(p, r, c, now, token);
  }

  /** One committed transition: members are kept, the device limit holds, and the roster revision
      rises by exactly one when the roster content changes and stays otherwise. */
  lemma TransitionIsGood(s: State, r: Request, c: Config, now: int, token: Text)
    requires Compute(s, r, c, now, token).Ok?
    ensures var t := Compute(s, r, c, now, token).value;
            && t.groupId == s.groupId
            && DevicesKept(s.devices, t.devices)
            && t.rosterRevision == s.rosterRevision + (if Entries(t.devices) == Entries(s.devices) then 0 else 1)
            && (|ActiveIds(s.devices)| <= c.maxDevices ==> |ActiveIds(t.devices)| <= c.maxDevices)
  {
    ActionIsGood(Pruned(s, now), r, c, now, token);
  }

  lemma SizeOfUpdate(m: map<Digest, Invitation>, k: Digest, v: Invitation)
    ensures |m[k := v]| == |m| + (if k in m then 0 else 1)
  {
    assert m[k := v].Keys == m.Keys + {k};
  }

  lemma SizeOfDevices(m: map<Digest, Member>, k: Digest, v: Member)
    ensures |m[k := v]| == |m| + (if k in m then 0 else 1)
  {
    assert m[k := v].Keys == m.Keys + {k};
  }

  lemma LiveInvitationsSize(m: map<Digest, Invitation>, now: int)
    ensures |LiveInvitations(m, now)| <= |m|
  {
    SubsetSize(LiveInvitations(m, now).Keys, m.Keys);
  }

  lemma PrunedStaysValid(s: State, c: Config, now: int)
    requires ValidState(s, c)
    ensures ValidState(Pruned(s, now), c)
  {
    LiveInvitationsSize(s.invitations, now);
  }

  lemma MemberAdded(devices: map<Digest, Member>, id: Digest, m: Member)
    requires ValidMembers(devices) && ValidMember(id, m)
    ensures ValidMembers(devices[id := m])
  {}

  lemma InvitationConsumed(p: State, id: Digest, m: Member, hash: Digest)
    requires ValidInvitations(p.invitations, p.devices) && id !in p.devices && hash in p.invitations
    requires m.invitationHash == Some(hash)
    ensures ValidInvitations(p.invitations[hash := p.invitations[hash].(consumedBy := Some(id))], p.devices[id := m])
  {
    assert ValidInvitation(hash, p.invitations[hash], p.devices);
    forall h | h in p.invitations ensures ValidInvitation(h, p.invitations[h], p.devices) {}
  }

  lemma EnrolledStateIsValid(p: State, r: Request, c: Config, now: int)
    requires ValidState(p, c) && Verified(r) && r.action.Enroll? && EnrollMember(p, r, c, now).Ok?
    ensures ValidState(EnrollMember(p, r, c, now).value.state, c)
  {
    if r.deviceId !in p.devices {
      var hash := Sha256(r.action.invitation);
      var m := Member(r.publicKeySpki, r.action.displayName, Active, None, Some(hash));
      SizeOfUpdate(p.invitations, hash, p.invitations[hash].(consumedBy := Some(r.deviceId)));
      SizeOfDevices(p.devices, r.deviceId, m);
      MemberAdded(p.devices, r.deviceId, m);
      InvitationConsumed(p, r.deviceId, m, hash);
    }
  }

  lemma InvitationsStayValid(p: State, devices: map<Digest, Member>)
    requires ValidInvitations(p.invitations, p.devices)
    requires forall id :: id in p.devices ==> id in devices && devices[id].invitationHash == p.devices[id].invitationHash
    ensures ValidInvitations(p.invitations, devices)
  {
    forall h | h in p.invitations ensures ValidInvitation(h, p.invitations[h], devices) {
      assert ValidInvitation(h, p.invitations[h], p.devices);
    }
  }

  lemma UpdatedMemberStateIsValid(p: State, c: Config, id: Digest, m: Member)
    requires ValidState(p, c) && id in p.devices && ValidMember(id, m)
    requires m.invitationHash == p.devices[id].invitationHash && m.publicKeySpki == p.devices[id].publicKeySpki
    requires id == c.OwnerId() ==> m.status.Active?
    ensures ValidState(p.(devices := p.devices[id := m]), c)
  {
    SizeOfDevices(p.devices, id, m);
    MemberAdded(p.devices, id, m);
    InvitationsStayValid(p, p.devices[id := m]);
  }

  lemma RenamedStateIsValid(p: State, c: Config, id: Digest, name: Text)
    requires ValidState(p, c) && id in p.devices && DisplayName(name) == Some(name)
    ensures ValidState(p.(devices := p.devices[id := p.devices[id].(displayName := name)]), c)
  {
    assert ValidMember(id, p.devices[id]);
    UpdatedMemberStateIsValid(p, c, id, p.devices[id].(displayName := name));
  }

  lemma RevokedStateIsValid(p: State, r: Request, c: Config)
    requires ValidState(p, c) && r.action.Revoke? && ValidCutoff(r.action.cutoff) && RevokeMember(p, r, c).Ok?
    ensures ValidState(RevokeMember(p, r, c).value.state, c)
  {
    var id := r.action.target;
    if p.devices[id].status.Active? {
      assert ValidMember(id, p.devices[id]);
      UpdatedMemberStateIsValid(p, c, id, p.devices[id].(status := Revoked, acceptedThrough := Some(r.action.cutoff)));
    }
  }

  lemma InvitedStateIsValid(p: State, c: Config, hash: Digest, expiresAt: int)
    requires ValidState(p, c) && |p.invitations| < MAX_INVITATIONS && SafeInteger(expiresAt)
    ensures ValidState(p.(invitations := p.invitations[hash := Invitation(expiresAt, None)]), c)
  {
    SizeOfUpdate(p.invitations, hash, Invitation(expiresAt, None));
  }

  lemma MemberActionStateIsValid(p: State, r: Request, c: Config, now: int, token: Text)
    requires ValidState(p, c) && Verified(r) && 0 <= now <= MAX_CLOCK
    requires !r.action.Enroll? && ApplyMemberAction(p, r, c, now, token).Ok?
    ensures ValidState(ApplyMemberAction(p, r, c, now, token).value.state, c)
  {
    match r.action {
      case Invite(seconds) => InvitedStateIsValid(p, c, Sha256(token), now + seconds);
      case Rename(name) => RenamedStateIsValid(p, c, r.deviceId, name);
      case Revoke(_, _) => RevokedStateIsValid(p, r, c);
      case Grants =>
    }
  }

  lemma ChangedStateIsValid(p: State, r: Request, c: Config, now: int, token: Text)
    requires ValidState(p, c) && Verified(r) && 0 <= now <= MAX_CLOCK
    requires ChangeOf(p, r, c, now, token).Ok?
    ensures ValidState(ChangeOf(p, r, c, now, token).value.state, c)
  {
    if r.action.Enroll? { EnrolledStateIsValid(p, r, c, now); } else { MemberActionStateIsValid(p, r, c, now, token); }
  }

  lemma SealedStateIsValid(t: State, c: Config, revision: int, requests: seq<Receipt>)
    requires ValidState(t, c) && 1 <= revision <= MAX_SAFE_INTEGER && |requests| <= MAX_NONCES
    requires forall r :: r in requests ==> SafeInteger(r.expiresAt)
    ensures ValidState(t.(rosterRevision := revision, requests := requests), c)
  {}

  lemma ComputedParts(s: State, r: Request, c: Config, now: int, token: Text)
    requires Compute(s, r, c, now, token).Ok? && 1 <= s.rosterRevision <= MAX_SAFE_INTEGER
    ensures var p := Pruned(s, now); var t := Compute(s, r, c, now, token).value;
            && ChangeOf(p, r, c, now, token).Ok?
            && t.requests == LiveReceipts(s.requests, now) + [Receipt(r.deviceId, r.nonce, r.expiresAt)]
            && |t.requests| <= MAX_NONCES
            && 1 <= t.rosterRevision <= MAX_SAFE_INTEGER
            && t == ChangeOf(p, r, c, now, token).value.state.(rosterRevision := t.rosterRevision, requests := t.requests)
  {
    ActionIsGood(Pruned(s, now), r, c, now, token);
  }

  lemma ComputedDevices(s: State, r: Request, c: Config, now: int, token: Text)
    requires Compute(s, r, c, now, token).Ok?
    ensures ChangeOf(Pruned(s, now), r, c, now, token).Ok?
    ensures Compute(s, r, c, now, token).value.devices == ChangeOf(Pruned(s, now), r, c, now, token).value.state.devices
  {}

  lemma ChangedIsMember(p: State, r: Request, c: Config, now: int, token: Text)
    requires ChangeOf(p, r, c, now, token).Ok?
    ensures IsMember(ChangeOf(p, r, c, now, token).value.state, r)
  {
    ActionTakesEffect(p, r, c, now, token);
  }

  /** An accepted request leaves its sender a member. */
  lemma AcceptedIsMember(s: State, r: Request, c: Config, now: int, token: Text)
    requires Compute(s, r, c, now, token).Ok?
    ensures IsMember(Compute(s, r, c, now, token).value, r)
  {
    ComputedDevices(s, r, c, now, token);
    ChangedIsMember(Pruned(s, now), r, c, now, token);
  }

  /** validateState is inductive: the check transact makes on the state it computed never fires
      when the state it read was valid and the request passed verification. */
  lemma ComputedStateIsValid(s: State, r: Request, c: Config, now: int, token: Text)
    requires ValidState(s, c) && Verified(r) && 0 <= now <= MAX_CLOCK
    ensures Compute(s, r, c, now, token).Ok? ==> ValidState(Compute(s, r, c, now, token).value, c)
    ensures Transition(s, r, c, now, token) == Compute(s, r, c, now, token)
  {
    if Compute(s, r, c, now, token).Ok? {
      var p := Pruned(s, now);
      PrunedStaysValid(s, c, now);
      ChangedStateIsValid(p, r, c, now, token);
      ComputedParts(s, r, c, now, token);
      var t := Compute(s, r, c, now, token).value;
      SealedStateIsValid(ChangeOf(p, r, c, now, token).value.state, c, t.rosterRevision, t.requests);
    }
  }

  /** A still-active device that repeats its own enrolment with a fresh challenge is let in again,
      with the invitation or without it, and the roster does not move. */
  lemma EnrolmentRecovers(s: State, r: Request, c: Config, now: int, token: Text)
    requires ValidState(s, c) && Verified(r) && 0 <= now <= MAX_CLOCK
    requires r.action.Enroll? && r.deviceId in s.devices && s.devices[r.deviceId].status.Active?
    requires s.devices[r.deviceId].invitationHash == Some(Sha256(r.action.invitation))
    requires Admission(s, r, now).None?
    ensures Transition(s, r, c, now, token).Ok?
    ensures RosterPayload(Transition(s, r, c, now, token).value, c) == RosterPayload(s, c)
  {
    ComputedStateIsValid(s, r, c, now, token);
    assert ValidMember(r.deviceId, s.devices[r.deviceId]);
  }
}
