/**
  transact with its two reads swapped: the clock first, then the control state
  (api/_lib/wardriver-sync-store.js:203-205 the other way round).  A run of it commits one challenge twice,
  which no run of SyncProtocol does.
 */
module SyncClockFirst {
  import opened Wrappers
  import opened SyncAuth
  import opened SyncState
  import opened SyncHistory

  datatype Pc = Begun | HasClock(time: int) | Ready(version: nat, next: State, time: int) | Committed | Stopped

  datatype Call = Call(request: Request, pc: Pc)

  datatype System = System(clock: int, commits: History, calls: map<nat, Call>)

  datatype Event = Tick(seconds: nat) | Begin(id: nat, request: Request) | Advance(id: nat)

  function Computed(c: Config, s: System, r: Request, time: int): Pc {
    match Transition(At(c, s.commits, |s.commits|), r, c, time, [])
    case Err(_) => Stopped
    case Ok(next) => Ready(|s.commits|, next, time)
  }

  function Moved(s: System, id: nat, pc: Pc): System
    requires id in s.calls
  {
    s.(calls := s.calls[id := s.calls[id].(pc := pc)])
  }

  function StepCall(c: Config, s: System, id: nat): System
    requires id in s.calls
  {
    match s.calls[id].pc
    case Begun => Moved(s, id, HasClock(s.clock))
    case HasClock(time) => Moved(s, id, Computed(c, s, s.calls[id].request, time))
    case Ready(version, next, time) =>
      if version != |s.commits| then Moved(s, id, Begun)
      else Moved(s, id, Committed).(commits := s.commits + [Commit(next, s.calls[id].request, time, [], id)])
    case _ => s
  }

  function Step(c: Config, s: System, e: Event): System {
    match e
    case Tick(seconds) => s.(clock := s.clock + seconds)
    case Begin(id, r) =>
      if id in s.calls || !Verified(r) || r.expiresAt <= s.clock then s else s.(calls := s.calls[id := Call(r, Begun)])
    case Advance(id) => if id in s.calls then StepCall(c, s, id) else s
  }

  function Run(c: Config, s: System, events: seq<Event>): System
    decreases events
  {
    if events == [] then s else Run(c, Step(c, s, events[0]), events[1..])
  }

  lemma {:induction false} RunJoins(c: Config, s: System, a: seq<Event>, b: seq<Event>)
    ensures Run(c, s, a + b) == Run(c, Run(c, s, a), b)
    decreases |a|
  {
    if a == [] {
      assert a + b == b;
    } else {
      assert (a + b)[0] == a[0] && (a + b)[1..] == a[1..] + b;
      RunJoins(c, Step(c, s, a[0]), a[1..], b);
    }
  }

  lemma RunOne(c: Config, s: System, e: Event)
    ensures Run(c, s, [e]) == Step(c, s, e)
  {
    assert [e][1..] == [];
  }

  lemma RunTwo(c: Config, s: System, e: Event, f: Event)
    ensures Run(c, s, [e, f]) == Step(c, Step(c, s, e), f)
  {
    assert [e, f][1..] == [f];
    RunOne(c, Step(c, s, e), f);
  }

  // ----- Requests for grants -----

  function OwnerGrants(c: Config, nonce: nat, expiresAt: int): Request {
    Request(Grants, c.OwnerId(), c.ownerKey, nonce, expiresAt)
  }

  lemma GrantsComputes(s: State, r: Request, c: Config, now: int, live: seq<Receipt>)
    requires s.invitations == map[] && r.action.Grants? && IsMember(s, r) && r.expiresAt > now
    requires LiveReceipts(s.requests, now) == live && |live| < MAX_DEVICE_NONCES && !HasReceipt(live, r.deviceId, r.nonce)
    ensures Compute(s, r, c, now, []) == Ok(s.(requests := live + [ReceiptOf(r)]))
  {
    CountBound(live, r.deviceId);
    assert LiveInvitations(s.invitations, now) == map[];
  }

  /** The state in which only these receipts differ from the first one. */
  function With(c: Config, receipts: seq<Receipt>): State { InitialState(c).(requests := receipts) }

  lemma GrantsAccepted(receipts: seq<Receipt>, r: Request, c: Config, now: int, live: seq<Receipt>)
    requires ValidConfig(c) && 0 <= now <= MAX_CLOCK && |receipts| <= 1
    requires forall x :: x in receipts ==> SafeInteger(x.expiresAt)
    requires r.action.Grants? && r.deviceId == c.OwnerId() && r.publicKeySpki == c.ownerKey && now < r.expiresAt <= MAX_SAFE_INTEGER
    requires LiveReceipts(receipts, now) == live && !HasReceipt(live, r.deviceId, r.nonce)
    ensures Transition(With(c, receipts), r, c, now, []) == Ok(With(c, live + [ReceiptOf(r)]))
  {
    GrantsComputes(With(c, receipts), r, c, now, live);
    ComputedStateIsValid(With(c, receipts), r, c, now, []);
  }

  /** A call that has its clock reading and is not disturbed commits in two more steps. */
  lemma Commits(c: Config, s: System, id: nat, time: int, receipts: seq<Receipt>, live: seq<Receipt>)
    requires ValidConfig(c) && id in s.calls && s.calls[id].pc == HasClock(time) && 0 <= time <= MAX_CLOCK
    requires At(c, s.commits, |s.commits|) == With(c, receipts) && |receipts| <= 1
    requires forall x :: x in receipts ==> SafeInteger(x.expiresAt)
    requires var r := s.calls[id].request;
             && r.action.Grants? && r.deviceId == c.OwnerId() && r.publicKeySpki == c.ownerKey && time < r.expiresAt <= MAX_SAFE_INTEGER
             && LiveReceipts(receipts, time) == live && !HasReceipt(live, r.deviceId, r.nonce)
    ensures var r := s.calls[id].request;
            Run(c, s, [Advance(id), Advance(id)])
            == Moved(s, id, Committed).(commits := s.commits + [Commit(With(c, live + [ReceiptOf(r)]), r, time, [], id)])
  {
    GrantsAccepted(receipts, s.calls[id].request, c, time, live);
    RunTwo(c, s, Advance(id), Advance(id));
  }

  // ----- The run -----

  function Whole(c: Config): seq<Event> { Opening(c) + Commit2(0) + Middle(c) + Commit2(1) + Commit2(2) }

  function Commit2(id: nat): seq<Event> { [Advance(id), Advance(id)] }

  function Opening(c: Config): seq<Event> { [Begin(0, OwnerGrants(c, 0, 120)), Advance(0)] }

  /** A second caller of the first challenge reads the clock at 119 and stalls; another one comes at 121. */
  function Middle(c: Config): seq<Event> {
    [Tick(119), Begin(2, OwnerGrants(c, 0, 120))] + [Advance(2), Tick(2)] + [Begin(1, OwnerGrants(c, 1, 239)), Advance(1)]
  }

  function Nothing(): System { System(0, [], map[]) }

  function AfterFirst(c: Config): System {
    var first := OwnerGrants(c, 0, 120);
    System(0, [Commit(With(c, [ReceiptOf(first)]), first, 0, [], 0)], map[0 := Call(first, Committed)])
  }

  lemma FirstCommits(c: Config)
    requires ValidConfig(c)
    ensures Run(c, Nothing(), Opening(c) + Commit2(0)) == AfterFirst(c)
  {
    var first := OwnerGrants(c, 0, 120);
    RunJoins(c, Nothing(), Opening(c), Commit2(0));
    RunTwo(c, Nothing(), Begin(0, first), Advance(0));
    var s := Run(c, Nothing(), Opening(c));
    assert With(c, []) == InitialState(c);
    Commits(c, s, 0, 0, [], []);
    assert [] + [ReceiptOf(first)] == [ReceiptOf(first)];
  }

  function Stalled(c: Config): System {
    AfterFirst(c).(clock := 121, calls := map[0 := Call(OwnerGrants(c, 0, 120), Committed), 2 := Call(OwnerGrants(c, 0, 120), HasClock(119)),
                                              1 := Call(OwnerGrants(c, 1, 239), HasClock(121))])
  }

  lemma SecondStalls(c: Config)
    requires ValidConfig(c)
    ensures Run(c, AfterFirst(c), Middle(c)) == Stalled(c)
  {
    var first, second := OwnerGrants(c, 0, 120), OwnerGrants(c, 1, 239);
    var s := AfterFirst(c);
    var a, b, d := [Tick(119), Begin(2, first)], [Advance(2), Tick(2)], [Begin(1, second), Advance(1)];
    RunJoins(c, s, a + b, d);
    RunJoins(c, s, a, b);
    RunTwo(c, s, a[0], a[1]);
    RunTwo(c, Run(c, s, a), b[0], b[1]);
    RunTwo(c, Run(c, s, a + b), d[0], d[1]);
  }

  lemma PrunedAt121(c: Config)
    ensures LiveReceipts([ReceiptOf(OwnerGrants(c, 0, 120))], 121) == []
    ensures LiveReceipts([ReceiptOf(OwnerGrants(c, 1, 239))], 119) == [ReceiptOf(OwnerGrants(c, 1, 239))]
  {}

  lemma BothCommit(c: Config)
    requires ValidConfig(c)
    ensures var s := Run(c, Stalled(c), Commit2(1) + Commit2(2));
            && |s.commits| == 3 && s.commits[0].request == s.commits[2].request == OwnerGrants(c, 0, 120)
  {
    var second := OwnerGrants(c, 1, 239);
    var s := Stalled(c);
    PrunedAt121(c);
    RunJoins(c, s, Commit2(1), Commit2(2));
    Commits(c, s, 1, 121, [ReceiptOf(OwnerGrants(c, 0, 120))], []);
    assert [] + [ReceiptOf(second)] == [ReceiptOf(second)];
    var t := Run(c, s, Commit2(1));
    Commits(c, t, 2, 119, [ReceiptOf(second)], [ReceiptOf(second)]);
  }

  /** Reading the clock first, a challenge commits twice: its second caller reads the clock just before the
      expiry and the state just after another commit has pruned the receipt. */
  lemma ClockFirstWouldReplay(c: Config)
    requires ValidConfig(c)
    ensures var h := Run(c, Nothing(), Whole(c)).commits;
            |h| == 3 && SameChallenge(h[0].request, h[2].request)
  {
    var start := Nothing();
    FirstCommits(c);
    SecondStalls(c);
    BothCommit(c);
    var head := Opening(c) + Commit2(0);
    assert Whole(c) == (head + Middle(c)) + (Commit2(1) + Commit2(2));
    RunJoins(c, start, head, Middle(c));
    RunJoins(c, start, head + Middle(c), Commit2(1) + Commit2(2));
  }
}
