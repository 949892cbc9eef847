/**
  A caller that nothing disturbs gets its answer: the passcode decides between 200 and 401, unless the entity is full
  and alive (api/validate-passcode/index.js:46-65, api/_lib/passcode-rate-limit.js:62-112).
 */
module LimiterProgress {
  import opened Wrappers
  import opened Limiter
  import opened LimiterProtocol

  /** The caller takes k steps and each of its operations is answered. */
  function Advances(id: nat, k: nat): seq<Event> { seq(k, _ => Advance(id, Answered)) }

  lemma OneMore(c: Config, events: seq<Event>, id: nat, k: nat)
    ensures Run(c, events + Advances(id, k + 1)) == Step(c, Run(c, events + Advances(id, k)), Advance(id, Answered))
  {
    var more := events + Advances(id, k + 1);
    assert more[..|more| - 1] == events + Advances(id, k);
  }

  lemma TwoMore(c: Config, events: seq<Event>, id: nat, k: nat)
    ensures Run(c, events + Advances(id, k + 2))
         == Step(c, Step(c, Run(c, events + Advances(id, k)), Advance(id, Answered)), Advance(id, Answered))
  {
    OneMore(c, events, id, k);
    OneMore(c, events, id, k + 1);
  }

  lemma NoneYet(c: Config, events: seq<Event>, id: nat)
    ensures Run(c, events + Advances(id, 0)) == Run(c, events)
  {
    assert events + Advances(id, 0) == events;
  }

  /** The system with this log, and the caller at pc. */
  function Moved(s: System, log: Log, id: nat, pc: Pc, checked: Option<nat>): System
    requires id in s.callers
  {
    System(log, s.callers[id := s.callers[id].(pc := pc, checked := checked)])
  }

  lemma MovedTwice(s: System, a: Log, id: nat, p: Pc, x: Option<nat>, b: Log, q: Pc, y: Option<nat>)
    requires id in s.callers
    ensures Moved(Moved(s, a, id, p, x), b, id, q, y) == Moved(s, b, id, q, y)
  {
    assert Moved(Moved(s, a, id, p, x), b, id, q, y).callers == Moved(s, b, id, q, y).callers;
  }

  // ----- From the check on -----

  /** The reservation at this position is the latest mutation of the entity. */
  predicate StillLatest(log: Log, etag: nat) { etag == |log| && etag > 0 && log[etag - 1].Reserved? }

  function AfterReset(log: Log, id: nat, now: int, etag: nat): Log {
    if StillLatest(log, etag) then log + [ResetBy(id, now)] else log
  }

  lemma LatestIsGone(log: Log, id: nat, now: int, etag: nat)
    ensures var after := AfterReset(log, id, now, etag);
            if StillLatest(log, etag) then EntityAt(after, |after|).None? else after == log
  {}

  lemma RightIsReset(c: Config, s: System, id: nat, etag: nat)
    requires id in s.callers && s.callers[id].pc == Verify(etag) && s.callers[id].correct
    ensures Step(c, Step(c, s, Advance(id, Answered)), Advance(id, Answered))
         == Moved(s, AfterReset(s.log, id, s.callers[id].now, etag), id, Responded(SessionIssued), Some(etag))
  {
    var t := Moved(s, s.log, id, Reset(etag), Some(etag));
    assert Step(c, s, Advance(id, Answered)) == t;
    MovedTwice(s, s.log, id, Reset(etag), Some(etag), AfterReset(s.log, id, s.callers[id].now, etag), Responded(SessionIssued), Some(etag));
  }

  /** From its check on, a caller with the right passcode that nothing disturbs gets a session; the entity is gone when
      the caller's reservation was still its latest version (LatestIsGone), and otherwise untouched. */
  lemma RightPasscodeGetsSession(c: Config, events: seq<Event>, id: nat, etag: nat)
    requires id in Run(c, events).callers && Run(c, events).callers[id].pc == Verify(etag) && Run(c, events).callers[id].correct
    ensures var s := Run(c, events);
            Run(c, events + Advances(id, 2))
            == Moved(s, AfterReset(s.log, id, s.callers[id].now, etag), id, Responded(SessionIssued), Some(etag))
  {
    RightIsReset(c, Run(c, events), id, etag);
    NoneYet(c, events, id);
    TwoMore(c, events, id, 0);
  }

  /** With a wrong one it gets 401, and the count stays. */
  lemma WrongPasscodeGetsNone(c: Config, events: seq<Event>, id: nat, etag: nat)
    requires id in Run(c, events).callers && Run(c, events).callers[id].pc == Verify(etag) && !Run(c, events).callers[id].correct
    ensures var s := Run(c, events);
            Run(c, events + Advances(id, 1)) == Moved(s, s.log, id, Responded(InvalidPasscode), Some(etag))
  {
    NoneYet(c, events, id);
    OneMore(c, events, id, 0);
  }

  // ----- From the arrival on -----

  /** The last mutation is a reservation that is full and alive at this clock reading. */
  predicate Full(c: Config, log: Log, now: int) {
    log != [] && log[|log| - 1].Reserved? && log[|log| - 1].attempts >= c.maxAttempts && now < log[|log| - 1].expiresAt
  }

  predicate RunsOut(log: Log, now: int) { log != [] && log[|log| - 1].Reserved? && log[|log| - 1].expiresAt <= now }

  /** An entity that has run out is dropped first. */
  function Cleared(log: Log, id: nat, now: int): Log { if RunsOut(log, now) then log + [Expired(id, now)] else log }

  /** Then the attempt is counted, in the entity that is there or in one of its own. */
  function Counted(c: Config, log: Log, id: nat, now: int): Log {
    var base := Cleared(log, id, now);
    base + [if base != [] && base[|base| - 1].Reserved? then Reserved(id, now, base[|base| - 1].attempts + 1, base[|base| - 1].expiresAt)
            else Reserved(id, now, 1, now + c.windowMs)]
  }

  lemma ReadAndWrite(c: Config, s: System, id: nat, retry: nat)
    requires id in s.callers && s.callers[id].pc == Read(retry) && !RunsOut(s.log, s.callers[id].now) && !Full(c, s.log, s.callers[id].now)
    ensures var log := Counted(c, s.log, id, s.callers[id].now);
            Step(c, Step(c, s, Advance(id, Answered)), Advance(id, Answered)) == Moved(s, log, id, Verify(|log|), s.callers[id].checked)
  {
    var x := s.callers[id];
    var last := Counted(c, s.log, id, x.now)[|s.log|];
    var pc := Write(retry, if EntityAt(s.log, |s.log|).Some? then Some(|s.log|) else None, last.attempts, last.expiresAt);
    assert Step(c, s, Advance(id, Answered)) == Moved(s, s.log, id, pc, x.checked);
    var log := Counted(c, s.log, id, x.now);
    MovedTwice(s, s.log, id, pc, x.checked, log, Verify(|log|), x.checked);
  }

  lemma ReadAndDrop(c: Config, s: System, id: nat)
    requires id in s.callers && s.callers[id].pc == Read(0) && RunsOut(s.log, s.callers[id].now)
    ensures Step(c, Step(c, s, Advance(id, Answered)), Advance(id, Answered))
         == Moved(s, Cleared(s.log, id, s.callers[id].now), id, Read(1), s.callers[id].checked)
  {
    var x := s.callers[id];
    var pc := DeleteExpired(0, |s.log|);
    assert Step(c, s, Advance(id, Answered)) == Moved(s, s.log, id, pc, x.checked);
    MovedTwice(s, s.log, id, pc, x.checked, Cleared(s.log, id, x.now), Read(1), x.checked);
  }

  lemma ClearedIsFree(c: Config, log: Log, id: nat, now: int)
    requires RunsOut(log, now)
    ensures var base := Cleared(log, id, now); !RunsOut(base, now) && !Full(c, base, now) && Counted(c, base, id, now) == Counted(c, log, id, now)
  {}

  /** The caller reads an entity with room, or none, and counts its attempt. */
  lemma RunCounts(c: Config, events: seq<Event>, id: nat, retry: nat)
    requires id in Run(c, events).callers && Run(c, events).callers[id].pc == Read(retry)
    requires var s := Run(c, events); !RunsOut(s.log, s.callers[id].now) && !Full(c, s.log, s.callers[id].now)
    ensures var s := Run(c, events); var log := Counted(c, s.log, id, s.callers[id].now);
            Run(c, events + Advances(id, 2)) == Moved(s, log, id, Verify(|log|), s.callers[id].checked)
  {
    NoneYet(c, events, id);
    TwoMore(c, events, id, 0);
    ReadAndWrite(c, Run(c, events), id, retry);
  }

  /** The caller reads an entity that has run out, and drops it. */
  lemma RunDrops(c: Config, events: seq<Event>, id: nat)
    requires id in Run(c, events).callers && Run(c, events).callers[id].pc == Read(0)
    requires RunsOut(Run(c, events).log, Run(c, events).callers[id].now)
    ensures var s := Run(c, events); var x := s.callers[id];
            Run(c, events + Advances(id, 2)) == Moved(s, Cleared(s.log, id, x.now), id, Read(1), x.checked)
  {
    NoneYet(c, events, id);
    TwoMore(c, events, id, 0);
    ReadAndDrop(c, Run(c, events), id);
  }

  lemma AdvancesJoin(events: seq<Event>, id: nat)
    ensures events + Advances(id, 2) + Advances(id, 2) == events + Advances(id, 4)
  {}

  lemma DroppedThenCounted(c: Config, s: System, id: nat, t: System)
    requires id in s.callers && RunsOut(s.log, s.callers[id].now)
    requires t == Moved(s, Cleared(s.log, id, s.callers[id].now), id, Read(1), s.callers[id].checked)
    ensures var x := s.callers[id]; var log := Counted(c, s.log, id, x.now);
            && !RunsOut(t.log, x.now) && !Full(c, t.log, x.now) && Counted(c, t.log, id, x.now) == log
            && Moved(t, log, id, Verify(|log|), x.checked) == Moved(s, log, id, Verify(|log|), x.checked)
  {
    var x := s.callers[id];
    var log := Counted(c, s.log, id, x.now);
    ClearedIsFree(c, s.log, id, x.now);
    MovedTwice(s, t.log, id, Read(1), x.checked, log, Verify(|log|), x.checked);
  }

  /** A caller that arrives when the entity is not full and alive counts its attempt and comes to its check. */
  lemma ArrivalIsCounted(c: Config, events: seq<Event>, id: nat) returns (k: nat)
    requires id in Run(c, events).callers && Run(c, events).callers[id].pc == Read(0)
    requires !Full(c, Run(c, events).log, Run(c, events).callers[id].now)
    ensures var s := Run(c, events); var x := s.callers[id]; var log := Counted(c, s.log, id, x.now);
            Run(c, events + Advances(id, k)) == Moved(s, log, id, Verify(|log|), x.checked)
  {
    var s := Run(c, events);
    if RunsOut(s.log, s.callers[id].now) {
      RunDrops(c, events, id);
      var dropped := events + Advances(id, 2);
      DroppedThenCounted(c, s, id, Run(c, dropped));
      RunCounts(c, dropped, id, 1);
      AdvancesJoin(events, id);
      k := 4;
    } else {
      RunCounts(c, events, id, 0);
      k := 2;
    }
  }

  /** And one that arrives when it is gets 429, with the seconds until it runs out. */
  lemma ArrivalIsRefused(c: Config, events: seq<Event>, id: nat)
    requires id in Run(c, events).callers && Run(c, events).callers[id].pc == Read(0)
    requires Full(c, Run(c, events).log, Run(c, events).callers[id].now)
    ensures var s, t := Run(c, events), Run(c, events + Advances(id, 1)); var left := s.log[|s.log| - 1].expiresAt - s.callers[id].now;
            exists n: int :: (n - 1) * 1000 < left <= n * 1000 && t == Moved(s, s.log, id, Responded(TooMany(n)), s.callers[id].checked)
  {
    var s := Run(c, events);
    NoneYet(c, events, id);
    OneMore(c, events, id, 0);
    var n := RetryAfter(s.log[|s.log| - 1].expiresAt, s.callers[id].now);
    RetryAfterRoundsUp(s.log[|s.log| - 1].expiresAt, s.callers[id].now);
    assert Run(c, events + Advances(id, 1)) == Moved(s, s.log, id, Responded(TooMany(n)), s.callers[id].checked);
  }

  /** The entity is no longer as the caller read it: there is one where there was none, or another version. */
  predicate LostRace(log: Log, version: Option<nat>) {
    match version
    case None => log != [] && log[|log| - 1].Reserved?
    case Some(v) => log != [] && log[|log| - 1].Reserved? && v != |log|
  }

  /** A caller that lost a race counts nothing and reads again, sixteen times in all; then it gives up with 503. */
  lemma LostRaceReadsAgain(c: Config, s: System, id: nat, o: Outcome)
    requires id in s.callers && s.callers[id].pc.Write? && LostRace(s.log, s.callers[id].pc.version)
    requires o.Answered? || o.AppliedThenConflict?
    ensures var x := s.callers[id]; var n := x.pc.retry;
            Step(c, s, Advance(id, o)) == Moved(s, s.log, id, if n + 1 < 16 then Read(n + 1) else Responded(Unavailable), x.checked)
  {}
}
