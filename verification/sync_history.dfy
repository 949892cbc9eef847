/**
  Theorems about the sequence of control states a group commits.  A control blob is its
  history: version k is the state after k committed writes, and every write makes a fresh
  version (the ETag).  SyncSafety shows that every interleaving of calls produces such a history.
 */
module SyncHistory {
  import opened Wrappers
  import opened SyncAuth
  import opened SyncState

  /** One committed write: what was written, for which request, the clock reading it was
      computed with, the invitation token drawn by the call, and the call itself. */
  datatype Commit = Commit(state: State, request: Request, time: int, token: Text, call: nat)
  type History = seq<Commit>

  function At(c: Config, h: History, k: nat): State
    requires k <= |h|
  {
    if k == 0 then InitialState(c) else h[k - 1].state
  }

  predicate SameChallenge(a: Request, b: Request) { a.deviceId == b.deviceId && a.nonce == b.nonce }

  ghost predicate CommitOk(c: Config, h: History, k: nat)
    requires k < |h|
  {
    && Verified(h[k].request)
    && 0 <= h[k].time <= MAX_CLOCK
    && Transition(At(c, h, k), h[k].request, c, h[k].time, h[k].token) == Ok(h[k].state)
  }

  ghost predicate StepsOk(c: Config, h: History) {
    forall k :: 0 <= k < |h| ==> CommitOk(c, h, k)
  }

  /** The clock is read after the state: no write carries an older reading than the one before it. */
  predicate TimesOk(h: History) {
    forall i, j :: 0 <= i < j < |h| ==> h[i].time <= h[j].time
  }

  /** A challenge has one expiry, whoever presents it and however often. */
  predicate ChallengesOk(h: History) {
    forall i, j :: 0 <= i < |h| && 0 <= j < |h| && SameChallenge(h[i].request, h[j].request) ==>
      h[i].request.expiresAt == h[j].request.expiresAt
  }

  ghost predicate ValidHistory(c: Config, h: History) {
    ValidConfig(c) && StepsOk(c, h) && TimesOk(h) && ChallengesOk(h)
  }

  lemma PrefixCommitOk(c: Config, h: History, x: Commit, k: nat)
    requires k < |h| && CommitOk(c, h, k)
    ensures CommitOk(c, h + [x], k)
  {
    assert At(c, h + [x], k) == At(c, h, k);
  }

  lemma StepsAppend(c: Config, h: History, x: Commit)
    requires StepsOk(c, h) && CommitOk(c, h + [x], |h|)
    ensures StepsOk(c, h + [x])
  {
    forall k | 0 <= k < |h + [x]| ensures CommitOk(c, h + [x], k) {
      if k < |h| { PrefixCommitOk(c, h, x, k); }
    }
  }

  lemma HistoryAppends(c: Config, h: History, x: Commit)
    requires ValidHistory(c, h) && StepsOk(c, h + [x])
    requires forall k :: 0 <= k < |h| ==> h[k].time <= x.time
    requires forall k :: 0 <= k < |h| && SameChallenge(h[k].request, x.request) ==> h[k].request.expiresAt == x.request.expiresAt
    ensures ValidHistory(c, h + [x])
  {}

  /** Every state a group reaches passes validateState: a reader never fails closed on it. */
  lemma EveryStateValid(c: Config, h: History, k: nat)
    requires ValidHistory(c, h) && k <= |h|
    ensures ValidState(At(c, h, k), c)
  {
    if k > 0 {
      assert CommitOk(c, h, k - 1);
    }
  }

  // ----- At most once -----

  function ReceiptOf(r: Request): Receipt { Receipt(r.deviceId, r.nonce, r.expiresAt) }

  lemma TransitionReceipts(s: State, r: Request, c: Config, now: int, token: Text)
    requires Compute(s, r, c, now, token).Ok?
    ensures var live := LiveReceipts(s.requests, now);
            && Compute(s, r, c, now, token).value.requests == live + [ReceiptOf(r)]
            && r.expiresAt > now && !HasReceipt(live, r.deviceId, r.nonce)
  {
    ActionIsGood(Pruned(s, now), r, c, now, token);
  }

  lemma CommitComputes(c: Config, h: History, k: nat)
    requires ValidHistory(c, h) && k < |h|
    ensures Compute(At(c, h, k), h[k].request, c, h[k].time, h[k].token) == Ok(h[k].state)
  {
    assert CommitOk(c, h, k);
  }

  lemma CommitReceipts(c: Config, h: History, k: nat)
    requires ValidHistory(c, h) && k < |h|
    ensures var live := LiveReceipts(At(c, h, k).requests, h[k].time);
            && h[k].state.requests == live + [ReceiptOf(h[k].request)]
            && h[k].request.expiresAt > h[k].time && !HasReceipt(live, h[k].request.deviceId, h[k].request.nonce)
  {
    CommitComputes(c, h, k);
    TransitionReceipts(At(c, h, k), h[k].request, c, h[k].time, h[k].token);
  }

  /** A receipt stays in the control state until a committer has seen its challenge run out. */
  lemma {:induction false} ReceiptKeptUntilExpiry(c: Config, h: History, i: nat, k: nat)
    requires ValidHistory(c, h) && i <= k < |h|
    ensures ReceiptOf(h[i].request) in h[k].state.requests || h[i].request.expiresAt <= h[k].time
  {
    CommitReceipts(c, h, k);
    if i < k {
      ReceiptKeptUntilExpiry(c, h, i, k - 1);
    }
  }

  /** A challenge authorises at most one committed write over the whole life of the group,
      although receipts are deleted once their challenge has run out. */
  lemma ChallengeCommitsOnce(c: Config, h: History, i: nat, j: nat)
    requires ValidHistory(c, h) && i < j < |h|
    ensures !SameChallenge(h[i].request, h[j].request)
  {
    ReceiptKeptUntilExpiry(c, h, i, j - 1);
    LiveReceiptBlocks(h[j - 1].state.requests, ReceiptOf(h[i].request), h[j].time);
    CommitReceipts(c, h, j);
  }

  lemma LiveReceiptBlocks(rs: seq<Receipt>, r: Receipt, now: int)
    ensures r in rs && r.expiresAt > now ==> HasReceipt(LiveReceipts(rs, now), r.deviceId, r.nonce)
  {
    if r in rs && r.expiresAt > now {
      assert r in LiveReceipts(rs, now);
    }
  }

  // ----- Membership -----

  lemma CommitIsGood(c: Config, h: History, k: nat)
    requires ValidHistory(c, h) && k < |h|
    ensures DevicesKept(At(c, h, k).devices, h[k].state.devices)
    ensures h[k].state.rosterRevision ==
            At(c, h, k).rosterRevision + (if Entries(h[k].state.devices) == Entries(At(c, h, k).devices) then 0 else 1)
    ensures h[k].state.groupId == At(c, h, k).groupId
    ensures |ActiveIds(At(c, h, k).devices)| <= c.maxDevices ==> |ActiveIds(h[k].state.devices)| <= c.maxDevices
  {
    CommitComputes(c, h, k);
    TransitionIsGood(At(c, h, k), h[k].request, c, h[k].time, h[k].token);
  }

  /** Members are never removed or re-keyed, and revocation with its cutoff is permanent. */
  lemma {:induction false} MembersAreKept(c: Config, h: History, i: nat, j: nat)
    requires ValidHistory(c, h) && i <= j <= |h|
    ensures DevicesKept(At(c, h, i).devices, At(c, h, j).devices)
  {
    if i < j {
      MembersAreKept(c, h, i, j - 1);
      CommitIsGood(c, h, j - 1);
    }
  }

  /** The owner is always an active member under its configured key, and the device limit holds. */
  lemma OwnerActiveWithinLimit(c: Config, h: History, k: nat)
    requires ValidHistory(c, h) && k <= |h|
    ensures ValidOwner(At(c, h, k), c)
    ensures |ActiveIds(At(c, h, k).devices)| <= c.maxDevices
  {
    EveryStateValid(c, h, k);
    WithinLimit(c, h, k);
  }

  lemma {:induction false} WithinLimit(c: Config, h: History, k: nat)
    requires ValidHistory(c, h) && k <= |h|
    ensures |ActiveIds(At(c, h, k).devices)| <= c.maxDevices
  {
    if k == 0 {
      assert ActiveIds(InitialState(c).devices) == {c.OwnerId()};
    } else {
      WithinLimit(c, h, k - 1);
      CommitIsGood(c, h, k - 1);
    }
  }

  /** The roster revision never falls, and equal revisions mean equal roster payloads. */
  lemma {:induction false} RevisionNamesContent(c: Config, h: History, i: nat, j: nat)
    requires ValidHistory(c, h) && i <= j <= |h|
    ensures At(c, h, i).rosterRevision <= At(c, h, j).rosterRevision
    ensures At(c, h, i).rosterRevision == At(c, h, j).rosterRevision
            <==> RosterPayload(At(c, h, i), c) == RosterPayload(At(c, h, j), c)
  {
    if i < j {
      RevisionNamesContent(c, h, i, j - 1);
      CommitIsGood(c, h, j - 1);
    }
  }

  predicate RevokedWith(s: State, target: Digest, cutoff: Cutoff) {
    target in s.devices && s.devices[target].status.Revoked? && s.devices[target].acceptedThrough == Some(cutoff)
  }

  lemma RevokeRevokes(p: State, r: Request, c: Config, now: int, token: Text)
    requires r.action.Revoke? && ChangeOf(p, r, c, now, token).Ok?
    ensures RevokedWith(ChangeOf(p, r, c, now, token).value.state, r.action.target, r.action.cutoff)
  {}

  /** From the commit of a revoke on, its target is revoked with exactly that cutoff. */
  lemma RevocationIsPermanent(c: Config, h: History, i: nat, j: nat)
    requires ValidHistory(c, h) && i < j <= |h| && h[i].request.action.Revoke?
    ensures RevokedWith(At(c, h, j), h[i].request.action.target, h[i].request.action.cutoff)
  {
    CommitComputes(c, h, i);
    RevokeRevokes(Pruned(At(c, h, i), h[i].time), h[i].request, c, h[i].time, h[i].token);
    MembersAreKept(c, h, i + 1, j);
  }

  // ----- Invitations -----

  ghost predicate FreshInvitations(h: History) {
    forall i, j :: 0 <= i < j < |h| && h[i].request.action.Invite? && h[j].request.action.Invite? ==> h[i].token != h[j].token
  }

  /** The hashes of every invitation issued before version k. */
  function Issued(h: History, k: nat): set<Digest>
    requires k <= |h|
  {
    if k == 0 then {} else Issued(h, k - 1) + FreshHashes(h[k - 1].request, h[k - 1].token)
  }

  function FreshHashes(r: Request, token: Text): set<Digest> {
    if r.action.Invite? then {Sha256(token)} else {}
  }

  predicate Spent(invitations: map<Digest, Invitation>, hash: Digest) {
    hash in invitations ==> invitations[hash].consumedBy.Some?
  }

  /** Every hash in the state was issued, a member's own is spent, and no two members share one. */
  ghost predicate InvitationsSound(s: State, issued: set<Digest>) {
    && s.invitations.Keys <= issued
    && (forall id :: id in s.devices && s.devices[id].invitationHash.Some? ==>
          s.devices[id].invitationHash.value in issued && Spent(s.invitations, s.devices[id].invitationHash.value))
    && (forall a, b :: a in s.devices && b in s.devices && a != b && s.devices[a].invitationHash.Some? ==>
          s.devices[a].invitationHash != s.devices[b].invitationHash)
  }

  /** One new member consumes an invitation that nobody had consumed. */
  ghost predicate Consumes(s: State, t: State, id: Digest, hash: Digest) {
    && id !in s.devices && hash in s.invitations && s.invitations[hash].consumedBy.None?
    && t.devices.Keys == s.devices.Keys + {id} && t.devices[id].invitationHash == Some(hash)
    && (forall o :: o in s.devices ==> t.devices[o].invitationHash == s.devices[o].invitationHash)
    && Spent(t.invitations, hash)
    && (forall o :: o in t.invitations && o != hash ==> o in s.invitations && t.invitations[o] == s.invitations[o])
  }

  /** No member is admitted; at most the given invitation is new. */
  ghost predicate AdmitsNobody(s: State, t: State, issued: set<Digest>) {
    && t.devices.Keys == s.devices.Keys
    && (forall o :: o in s.devices ==> t.devices[o].invitationHash == s.devices[o].invitationHash)
    && (forall o :: o in t.invitations && o !in issued ==> o in s.invitations && t.invitations[o] == s.invitations[o])
  }

  lemma EnrollConsumes(p: State, r: Request, c: Config, now: int)
    requires r.action.Enroll? && EnrollMember(p, r, c, now).Ok?
    ensures var t := EnrollMember(p, r, c, now).value.state;
            if r.deviceId in p.devices then t == p else Consumes(p, t, r.deviceId, Sha256(r.action.invitation))
  {}

  lemma OthersAdmitNobody(p: State, r: Request, c: Config, now: int, token: Text)
    requires !r.action.Enroll? && ApplyMemberAction(p, r, c, now, token).Ok?
    ensures AdmitsNobody(p, ApplyMemberAction(p, r, c, now, token).value.state, FreshHashes(r, token))
  {}

  lemma PrunedConsumes(s: State, p: State, t: State, id: Digest, hash: Digest)
    requires Consumes(p, t, id, hash) && p.devices == s.devices
    requires forall h :: h in p.invitations ==> h in s.invitations && s.invitations[h] == p.invitations[h]
    ensures Consumes(s, t, id, hash)
  {}

  lemma PrunedAdmitsNobody(s: State, p: State, t: State, added: set<Digest>)
    requires AdmitsNobody(p, t, added) && p.devices == s.devices
    requires forall h :: h in p.invitations ==> h in s.invitations && s.invitations[h] == p.invitations[h]
    ensures AdmitsNobody(s, t, added)
  {}

  /** What a computed state is made of, next to the revision and the receipts. */
  lemma ComputedChange(s: State, r: Request, c: Config, now: int, token: Text)
    requires Compute(s, r, c, now, token).Ok?
    ensures var p := Pruned(s, now); var t := Compute(s, r, c, now, token).value;
            && ChangeOf(p, r, c, now, token).Ok?
            && t.devices == ChangeOf(p, r, c, now, token).value.state.devices
            && t.invitations == ChangeOf(p, r, c, now, token).value.state.invitations
  {}

  lemma EnrollmentInvitations(s: State, t: State, r: Request, c: Config, now: int)
    requires r.action.Enroll? && EnrollMember(Pruned(s, now), r, c, now).Ok?
    requires t.devices == EnrollMember(Pruned(s, now), r, c, now).value.state.devices
    requires t.invitations == EnrollMember(Pruned(s, now), r, c, now).value.state.invitations
    ensures AdmitsNobody(s, t, {}) || Consumes(s, t, r.deviceId, Sha256(r.action.invitation))
  {
    var p := Pruned(s, now);
    EnrollConsumes(p, r, c, now);
    if r.deviceId in p.devices {
      PrunedAdmitsNobody(s, p, t, {});
    } else {
      PrunedConsumes(s, p, t, r.deviceId, Sha256(r.action.invitation));
    }
  }

  lemma CommitInvitations(c: Config, h: History, k: nat)
    requires ValidHistory(c, h) && k < |h|
    ensures var s := At(c, h, k); var x := h[k];
            || AdmitsNobody(s, x.state, FreshHashes(x.request, x.token))
            || exists id, hash :: Consumes(s, x.state, id, hash)
  {
    CommitComputes(c, h, k);
    var s, x := At(c, h, k), h[k];
    ComputedChange(s, x.request, c, x.time, x.token);
    if x.request.action.Enroll? {
      EnrollmentInvitations(s, x.state, x.request, c, x.time);
    } else {
      OthersAdmitNobody(Pruned(s, x.time), x.request, c, x.time, x.token);
      PrunedAdmitsNobody(s, Pruned(s, x.time), x.state, FreshHashes(x.request, x.token));
    }
  }

  lemma ConsumingStaysSound(s: State, t: State, id: Digest, hash: Digest, issued: set<Digest>)
    requires InvitationsSound(s, issued) && Consumes(s, t, id, hash)
    ensures InvitationsSound(t, issued)
  {}

  lemma AdmittingNobodyStaysSound(s: State, t: State, added: set<Digest>, issued: set<Digest>)
    requires InvitationsSound(s, issued) && AdmitsNobody(s, t, added) && added !! issued
    ensures InvitationsSound(t, issued + added)
  {}

  lemma {:induction false} IssuedTokens(h: History, k: nat, hash: Digest)
    requires k <= |h| && hash in Issued(h, k)
    ensures exists i :: 0 <= i < k && h[i].request.action.Invite? && Sha256(h[i].token) == hash
  {
    if hash in Issued(h, k - 1) {
      IssuedTokens(h, k - 1, hash);
    }
  }

  lemma {:induction false} InvitationsStaySound(c: Config, h: History, k: nat)
    requires ValidHistory(c, h) && FreshInvitations(h) && k <= |h|
    ensures InvitationsSound(At(c, h, k), Issued(h, k))
  {
    if k > 0 {
      InvitationsStaySound(c, h, k - 1);
      CommitInvitations(c, h, k - 1);
      var s, x, issued := At(c, h, k - 1), h[k - 1], Issued(h, k - 1);
      var added := FreshHashes(x.request, x.token);
      if id, hash :| Consumes(s, x.state, id, hash) {
        ConsumingStaysSound(s, x.state, id, hash, issued);
        assert Spent(x.state.invitations, hash);
      } else {
        forall hash | hash in issued ensures hash !in added {
          IssuedTokens(h, k - 1, hash);
        }
        AdmittingNobodyStaysSound(s, x.state, added, issued);
      }
    }
  }

  /** An invitation admits one device: no two members ever share an invitation hash, even after
      the consumed invitation has been cleaned up. */
  lemma InvitationAdmitsOneDevice(c: Config, h: History, i: nat, j: nat, a: Digest, b: Digest)
    requires ValidHistory(c, h) && FreshInvitations(h) && i <= |h| && j <= |h|
    requires a in At(c, h, i).devices && b in At(c, h, j).devices && a != b
    requires At(c, h, i).devices[a].invitationHash.Some?
    ensures At(c, h, i).devices[a].invitationHash != At(c, h, j).devices[b].invitationHash
  {
    var last := |h|;
    MembersAreKept(c, h, i, last);
    MembersAreKept(c, h, j, last);
    InvitationsStaySound(c, h, last);
  }
}
