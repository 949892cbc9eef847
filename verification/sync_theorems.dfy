/**
  What every interleaving of sync calls guarantees, and why two orderings in the source matter.
 */
module SyncTheorems {
  import opened Wrappers
  import opened SyncAuth
  import opened SyncState
  import opened SyncHistory
  import opened SyncProtocol
  import opened SyncSafety

  function Current(c: Config, s: System): State { At(c, s.commits, |s.commits|) }

  // ----- Later states -----

  lemma StepGrows(c: Config, s: System, e: Event)
    ensures Extends(s, Step(c, s, e))
    ensures forall id :: id in s.calls && Terminal(s.calls[id].pc) ==>
              id in Step(c, s, e).calls && Step(c, s, e).calls[id] == s.calls[id]
  {}

  lemma {:induction false} RunGrows(c: Config, before: seq<Event>, after: seq<Event>)
    ensures Extends(Run(c, before), Run(c, before + after))
    ensures forall id :: id in Run(c, before).calls && Terminal(Run(c, before).calls[id].pc) ==>
              id in Run(c, before + after).calls && Run(c, before + after).calls[id] == Run(c, before).calls[id]
  {
    if after == [] {
      assert before + after == before;
    } else {
      var init, last := after[..|after| - 1], after[|after| - 1];
      RunGrows(c, before, init);
      var all := before + after;
      assert all[..|all| - 1] == before + init && all[|all| - 1] == last;
      StepGrows(c, Run(c, before + init), last);
    }
  }

  lemma FinishedFacts(c: Config, events: seq<Event>, id: nat)
    requires ValidConfig(c) && id in Run(c, events).calls && Run(c, events).calls[id].pc.Finished?
    ensures var s := Run(c, events); var call := s.calls[id];
            && OwnOk(s, id, call.pc.own) && PublishedOk(c, s, call.pc.own, call.pc.version, call.pc.roster)
            && IsMember(At(c, s.commits, call.pc.version), call.request)
            && call.pc.granted == GrantsStorage(call.request.action)
  {
    RunSafe(c, events);
    var s := Run(c, events);
    assert CallOk(c, s, id, s.calls[id]);
  }

  // ----- At most once -----

  /** In every interleaving, a challenge commits at most one control write over the whole run,
      whether or not callers learn that their write was applied. */
  lemma AtMostOnce(c: Config, events: seq<Event>, i: nat, j: nat)
    requires ValidConfig(c) && i < j < |Run(c, events).commits|
    ensures var h := Run(c, events).commits; !SameChallenge(h[i].request, h[j].request)
  {
    RunSafe(c, events);
    ChallengeCommitsOnce(c, Run(c, events).commits, i, j);
  }

  // ----- Roster publication -----

  /** The branches that fail closed on bad stored data are never taken: control always validates, and
      the published roster is neither ahead of control nor different at the same revision. */
  lemma FailClosedUnreachable(c: Config, events: seq<Event>, id: nat)
    requires ValidConfig(c) && id in Run(c, events).calls && Run(c, events).calls[id].pc.Failed?
    ensures var f := Run(c, events).calls[id].pc.failure; f.Denied? || f.OutOfAttempts? || f.Interrupted?
  {
    RunSafe(c, events);
    var s := Run(c, events);
    assert CallOk(c, s, id, s.calls[id]);
  }

  /** Roster i is the payload of a committed control state, not ahead of the current one, and older than every
      later roster. */
  predicate RefinesControl(c: Config, s: System, i: nat)
    requires i < |s.rosters|
  {
    && 1 <= s.rosters[i].source <= |s.commits|
    && s.rosters[i].payload == RosterPayload(s.commits[s.rosters[i].source - 1].state, c)
    && s.rosters[i].payload.revision <= Current(c, s).rosterRevision
    && forall j :: i < j < |s.rosters| ==> s.rosters[i].payload.revision < s.rosters[j].payload.revision
  }

  lemma RosterRefines(c: Config, s: System, i: nat)
    requires ValidHistory(c, s.commits) && RosterInv(c, s) && i < |s.rosters|
    ensures RefinesControl(c, s, i)
  {
    assert RosterOk(c, s, i);
    RevisionNamesContent(c, s.commits, s.rosters[i].source, |s.commits|);
  }

  /** Publication refines the history of control: every roster is the payload of a committed control
      state, in strictly rising revision order, and never ahead of the current control state. */
  lemma RostersRefineControl(c: Config, events: seq<Event>, i: nat)
    requires ValidConfig(c) && i < |Run(c, events).rosters|
    ensures RefinesControl(c, Run(c, events), i)
  {
    RunSafe(c, events);
    RosterRefines(c, Run(c, events), i);
  }

  /** A roster at or after the one a call returned with is the payload of a version that has its write. */
  lemma LaterRosterCovers(c: Config, s: System, pc: Pc, q: nat) returns (v: nat)
    requires ValidHistory(c, s.commits) && RosterInv(c, s) && pc.Finished? && PublishedOk(c, s, pc.own, pc.version, pc.roster)
    requires pc.roster - 1 <= q < |s.rosters|
    ensures pc.own < v <= |s.commits| && s.rosters[q].payload == RosterPayload(At(c, s.commits, v), c)
  {
    assert RosterOk(c, s, q);
    if q == pc.roster - 1 {
      v := pc.version;
    } else {
      v := s.rosters[q].source;
      if v <= pc.version {
        RevisionNamesContent(c, s.commits, v, pc.version);
      }
    }
  }

  /** Once a call has returned, every roster published from then on - and the one it returned with -
      is the payload of a control state at or after the write the call made. */
  lemma ReturnMeansPublished(c: Config, before: seq<Event>, after: seq<Event>, id: nat, q: nat) returns (v: nat)
    requires ValidConfig(c)
    requires id in Run(c, before).calls && Run(c, before).calls[id].pc.Finished?
    requires Run(c, before).calls[id].pc.roster - 1 <= q < |Run(c, before + after).rosters|
    ensures var s := Run(c, before + after); var own := Run(c, before).calls[id].pc.own;
            && own < v <= |s.commits| && s.commits[own].call == id
            && s.rosters[q].payload == RosterPayload(At(c, s.commits, v), c)
  {
    RunGrows(c, before, after);
    RunSafe(c, before + after);
    FinishedFacts(c, before + after, id);
    v := LaterRosterCovers(c, Run(c, before + after), Run(c, before).calls[id].pc, q);
  }

  // ----- Revocation -----

  /** Once a revoke call has returned, every roster published from then on - and the one it returned
      with - lists the target as revoked with exactly that cutoff. */
  lemma RevocationTakesHold(c: Config, before: seq<Event>, after: seq<Event>, id: nat, q: nat)
    requires ValidConfig(c)
    requires id in Run(c, before).calls && Run(c, before).calls[id].pc.Finished?
    requires Run(c, before).calls[id].request.action.Revoke?
    requires Run(c, before).calls[id].pc.roster - 1 <= q < |Run(c, before + after).rosters|
    ensures var action := Run(c, before).calls[id].request.action;
            var devices := Run(c, before + after).rosters[q].payload.devices;
            && action.target in devices
            && devices[action.target].status.Revoked?
            && devices[action.target].acceptedThrough == Some(action.cutoff)
  {
    var s := Run(c, before + after);
    var v := ReturnMeansPublished(c, before, after, id, q);
    RunGrows(c, before, after);
    RunSafe(c, before + after);
    var own := s.calls[id].pc.own;
    assert CameFrom(s, s.commits[own]);
    RevocationIsPermanent(c, s.commits, own, v);
  }

  /** A call whose last control read follows the commit that revoked its device grants it nothing:
      it does not even finish. */
  lemma RevokedDeviceGetsNothing(c: Config, events: seq<Event>, id: nat, k: nat)
    requires ValidConfig(c)
    requires id in Run(c, events).calls && Run(c, events).calls[id].pc.Finished?
    requires k < Run(c, events).calls[id].pc.version
    requires k < |Run(c, events).commits|
    ensures var s := Run(c, events);
            s.commits[k].request.action.Revoke? ==> s.commits[k].request.action.target != s.calls[id].request.deviceId
  {
    RunSafe(c, events);
    var s := Run(c, events);
    FinishedFacts(c, events, id);
    if s.commits[k].request.action.Revoke? {
      RevocationIsPermanent(c, s.commits, k, s.calls[id].pc.version);
    }
  }

  /** Storage grants go only to active members, and only for enroll and grants calls. */
  lemma GrantsGoToActiveMembers(c: Config, events: seq<Event>, id: nat)
    requires ValidConfig(c)
    requires id in Run(c, events).calls && Run(c, events).calls[id].pc.Finished?
    ensures var s := Run(c, events); var call := s.calls[id];
            && call.pc.own < call.pc.version <= |s.commits|
            && IsMember(s.commits[call.pc.version - 1].state, call.request)
            && (call.pc.granted <==> call.request.action.Enroll? || call.request.action.Grants?)
  {
    FinishedFacts(c, events, id);
  }

  // ----- Membership -----

  /** At every moment of every run the owner is active under its configured key, the device limit
      holds, the state validates, and every member known earlier is still there under its key,
      still revoked with its cutoff if it was revoked. */
  lemma MembershipInvariant(c: Config, before: seq<Event>, after: seq<Event>)
    requires ValidConfig(c)
    ensures var s := Current(c, Run(c, before + after));
            && ValidState(s, c) && ValidOwner(s, c)
            && |ActiveIds(s.devices)| <= c.maxDevices
            && DevicesKept(Current(c, Run(c, before)).devices, s.devices)
  {
    RunSafe(c, before + after);
    RunGrows(c, before, after);
    var h := Run(c, before + after).commits;
    var k := |Run(c, before).commits|;
    EveryStateValid(c, h, |h|);
    OwnerActiveWithinLimit(c, h, |h|);
    MembersAreKept(c, h, k, |h|);
    assert At(c, h, k) == Current(c, Run(c, before));
  }

  /** Tokens belong to calls and a call commits at most once, so no invitation is issued twice. */
  lemma InvitationsAreFresh(c: Config, events: seq<Event>)
    requires ValidConfig(c)
    ensures FreshInvitations(Run(c, events).commits)
  {
    RunSafe(c, events);
    var s := Run(c, events);
    forall i, j | 0 <= i < j < |s.commits| ensures s.commits[i].token != s.commits[j].token {
      assert CameFrom(s, s.commits[i]) && CameFrom(s, s.commits[j]);
      AtMostOnce(c, events, i, j);
    }
  }

  /** In every run an invitation admits one device, over all control states ever committed. */
  lemma OneDevicePerInvitation(c: Config, events: seq<Event>, i: nat, j: nat, a: Digest, b: Digest)
    requires ValidConfig(c) && i < |Run(c, events).commits| && j < |Run(c, events).commits| && a != b
    requires a in Run(c, events).commits[i].state.devices && b in Run(c, events).commits[j].state.devices
    requires Run(c, events).commits[i].state.devices[a].invitationHash.Some?
    ensures var h := Run(c, events).commits;
            h[i].state.devices[a].invitationHash != h[j].state.devices[b].invitationHash
  {
    RunSafe(c, events);
    InvitationsAreFresh(c, events);
    InvitationAdmitsOneDevice(c, Run(c, events).commits, i + 1, j + 1, a, b);
  }

  // ----- Why the clock is read after the state -----

  /** The request is accepted on this state at this clock reading. */
  predicate Accepts(c: Config, s: State, r: Request, now: int, token: Text) { Transition(s, r, c, now, token).Ok? }

  predicate Unused(s: State, r: Request, now: int) {
    r.expiresAt > now && !HasReceipt(LiveReceipts(s.requests, now), r.deviceId, r.nonce)
  }

  lemma AcceptedIsFresh(s: State, r: Request, c: Config, now: int, token: Text)
    requires Accepts(c, s, r, now, token)
    ensures Unused(s, r, now)
  {
    TransitionReceipts(s, r, c, now, token);
  }

  lemma StoredReceiptRunsOut(s: State, r: Request, now: int, time: int)
    requires ReceiptOf(r) in s.requests || r.expiresAt <= time
    requires Unused(s, r, now)
    ensures now < time
  {
    LiveReceiptBlocks(s.requests, ReceiptOf(r), now);
  }

  /** The last committed state still has the receipt of a committed challenge, or was computed after it ran out. */
  lemma LastStateRemembers(c: Config, h: History, i: nat, r: Request)
    requires ValidHistory(c, h) && i < |h|
    requires SameChallenge(r, h[i].request) && r.expiresAt == h[i].request.expiresAt
    ensures ReceiptOf(r) in h[|h| - 1].state.requests || r.expiresAt <= h[|h| - 1].time
  {
    ReceiptKeptUntilExpiry(c, h, i, |h| - 1);
  }

  lemma AcceptedBefore(c: Config, s: State, r: Request, now: int, token: Text, time: int)
    requires Accepts(c, s, r, now, token) && (ReceiptOf(r) in s.requests || r.expiresAt <= time)
    ensures now < time
  {
    AcceptedIsFresh(s, r, c, now, token);
    StoredReceiptRunsOut(s, r, now, time);
  }

  /** A challenge that has already committed is accepted again only by a computation whose clock
      reading is older than the state it read: reading the clock second rules that out. */
  lemma ReplayNeedsOlderClock(c: Config, h: History, i: nat, r: Request, now: int, token: Text)
    requires ValidHistory(c, h) && i < |h|
    requires SameChallenge(r, h[i].request) && r.expiresAt == h[i].request.expiresAt
    requires Accepts(c, At(c, h, |h|), r, now, token)
    ensures now < h[|h| - 1].time
  {
    LastStateRemembers(c, h, i, r);
    AcceptedBefore(c, At(c, h, |h|), r, now, token, h[|h| - 1].time);
  }

  // ----- Why the roster is read before control -----

  /** publishRoster refuses exactly when the control state it compares is older in content than the
      published roster, which only reading control first can produce. */
  lemma ControlFirstWouldRefuse(c: Config, h: History, i: nat, j: nat)
    requires ValidHistory(c, h) && i <= |h| && j <= |h|
    ensures Decide(Some(RosterPayload(At(c, h, j), c)), RosterPayload(At(c, h, i), c), c).Refuse?
            <==> At(c, h, i).rosterRevision < At(c, h, j).rosterRevision
  {
    EveryGroupId(c, h, i);
    EveryGroupId(c, h, j);
    if i <= j { RevisionNamesContent(c, h, i, j); } else { RevisionNamesContent(c, h, j, i); }
  }
}
