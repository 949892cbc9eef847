/**
  Any number of concurrent passcode validations against one entity, one table operation at a time:
  reserve, then verify the passcode, then reset (api/validate-passcode/index.js:46-65,
  api/_lib/passcode-rate-limit.js:62-138).
 */
module LimiterProtocol {
  import opened Wrappers
  import opened Limiter

  datatype Response =
    | TooMany(retryAfterSeconds: int) // 429
    | SessionIssued                   // 200
    | InvalidPasscode                 // 401
    | Unavailable                     // 503

  /** `version` is the ETag a pending write was read with, if the entity existed. */
  datatype Pc =
    | Read(retry: nat)
    | DeleteExpired(retry: nat, etag: nat)
    | Write(retry: nat, version: Option<nat>, attempts: int, expiresAt: int)
    | Verify(etag: nat)
    | Reset(etag: nat)
    | Responded(response: Response)

  /** `now` is the reading reserveAttempt took of its own instance's clock; `checked` is the
      reservation under which verifyPasscode ran, once it has. */
  datatype Caller = Caller(now: int, correct: bool, pc: Pc, checked: Option<nat>)

  datatype System = System(log: Log, callers: map<nat, Caller>)

  datatype Outcome = Answered | AppliedThenError | AppliedThenConflict | NotApplied

  datatype Event =
    | Arrive(id: nat, now: nat, correct: bool)
    | Advance(id: nat, outcome: Outcome)
    | Interrupt(id: nat)

  function Retry(retry: nat): Pc {
    if retry + 1 < MAX_MUTATION_RETRIES then Read(retry + 1) else Responded(Unavailable)
  }

  function Max(a: int, b: int): int { if a < b then b else a }

  /** Math.max(1, Math.ceil((expiresAtMs - now) / 1000)), for an entity that has not run out. */
  function RetryAfter(expiresAt: int, now: int): int { Max(1, (expiresAt - now + 999) / 1000) }

  function Put(s: System, id: nat, caller: Caller, pc: Pc): System {
    s.(callers := s.callers[id := caller.(pc := pc)])
  }

  function AfterWrite(o: Outcome, answered: Pc, conflict: Pc): Pc {
    match o
    case Answered => answered
    case AppliedThenConflict => conflict
    case AppliedThenError => Responded(Unavailable)
    case NotApplied => Responded(Unavailable)
  }

  function StepRead(c: Config, s: System, caller: Caller): Pc
    requires caller.pc.Read?
  {
    match EntityAt(s.log, |s.log|)
    case None => Write(caller.pc.retry, None, 1, caller.now + c.windowMs)
    case Some(x) =>
      if x.expiresAt <= caller.now then DeleteExpired(caller.pc.retry, x.etag)
      else if x.attempts >= c.maxAttempts then Responded(TooMany(RetryAfter(x.expiresAt, caller.now)))
      else Write(caller.pc.retry, Some(x.etag), x.attempts + 1, x.expiresAt)
  }

  predicate Holds(log: Log, etag: nat) {
    EntityAt(log, |log|).Some? && EntityAt(log, |log|).value.etag == etag
  }

  /** A conditional delete: a missing entity or another version is not an error. */
  function StepDelete(s: System, id: nat, caller: Caller, o: Outcome, etag: nat, e: Entry, next: Pc): System {
    if o.NotApplied? then Put(s, id, caller, Responded(Unavailable))
    else if !Holds(s.log, etag) then Put(s, id, caller, if o.AppliedThenError? then Responded(Unavailable) else next)
    else Put(s, id, caller, AfterWrite(o, next, next)).(log := s.log + [e])
  }

  /** createEntity conflicts when an entity is there; updateEntity conflicts on another version and
      fails when the entity is gone. */
  function StepWrite(s: System, id: nat, caller: Caller, o: Outcome): System
    requires caller.pc.Write?
  {
    var pc := caller.pc;
    var there := EntityAt(s.log, |s.log|).Some?;
    if o.NotApplied? then Put(s, id, caller, Responded(Unavailable))
    else if pc.version.Some? && !there then Put(s, id, caller, Responded(Unavailable))
    else if (if pc.version.None? then there else !Holds(s.log, pc.version.value)) then
      Put(s, id, caller, if o.AppliedThenError? then Responded(Unavailable) else Retry(pc.retry))
    else
      Put(s, id, caller, AfterWrite(o, Verify(|s.log| + 1), Retry(pc.retry)))
      .(log := s.log + [Reserved(id, caller.now, pc.attempts, pc.expiresAt)])
  }

  function StepVerify(s: System, id: nat, caller: Caller): System
    requires caller.pc.Verify?
  {
    var pc := if caller.correct then Reset(caller.pc.etag) else Responded(InvalidPasscode);
    s.(callers := s.callers[id := caller.(pc := pc, checked := Some(caller.pc.etag))])
  }

  function StepCaller(c: Config, s: System, id: nat, o: Outcome): System
    requires id in s.callers
  {
    var caller := s.callers[id];
    match caller.pc
    case Read(_) => Put(s, id, caller, StepRead(c, s, caller))
    case DeleteExpired(n, etag) => StepDelete(s, id, caller, o, etag, Expired(id, caller.now), Retry(n))
    case Write(_, _, _, _) => StepWrite(s, id, caller, o)
    case Verify(_) => StepVerify(s, id, caller)
    case Reset(etag) => StepDelete(s, id, caller, o, etag, ResetBy(id, caller.now), Responded(SessionIssued))
    case Responded(_) => s
  }

  predicate Enabled(s: System, e: Event) {
    match e
    case Arrive(id, _, _) => id !in s.callers
    case Advance(id, _) => id in s.callers
    case Interrupt(id) => id in s.callers && !s.callers[id].pc.Responded?
  }

  function Step(c: Config, s: System, e: Event): System {
    if !Enabled(s, e) then s
    else match e
      case Arrive(id, now, correct) => s.(callers := s.callers[id := Caller(now, correct, Read(0), None)])
      case Advance(id, o) => StepCaller(c, s, id, o)
      case Interrupt(id) => Put(s, id, s.callers[id], Responded(Unavailable))
  }

  /** The system after any sequence of events: an event that cannot happen changes nothing. */
  function Run(c: Config, events: seq<Event>): System {
    if events == [] then System([], map[])
    else Step(c, Run(c, events[..|events| - 1]), events[|events| - 1])
  }

  // ----- The invariant -----

  predicate OwnReservation(log: Log, id: nat, etag: nat) {
    0 < etag <= |log| && log[etag - 1].Reserved? && log[etag - 1].caller == id
  }

  /** Some reservation was full and alive at this clock reading, for so many more seconds, a part of one counted
      whole. */
  ghost predicate FullFor(c: Config, log: Log, now: int, seconds: int) {
    exists k :: && 0 <= k < |log| && log[k].Reserved? && log[k].attempts >= c.maxAttempts && now < log[k].expiresAt
                && (seconds - 1) * 1000 < log[k].expiresAt - now <= seconds * 1000
  }

  /** What an answer says about the check. */
  ghost predicate AnswerOk(c: Config, log: Log, caller: Caller, r: Response) {
    match r
    case SessionIssued => caller.correct && caller.checked.Some?
    case InvalidPasscode => !caller.correct && caller.checked.Some?
    case TooMany(seconds) => caller.checked.None? && FullFor(c, log, caller.now, seconds)
    case Unavailable => true
  }

  /** What a pending write or delete holds of the version it read. */
  ghost predicate CallerOk(c: Config, log: Log, id: nat, caller: Caller) {
    && (caller.checked.Some? ==> OwnReservation(log, id, caller.checked.value))
    && (match caller.pc
        case Read(_) => caller.checked.None?
        case DeleteExpired(_, etag) => caller.checked.None? && 0 < etag <= |log| && log[etag - 1].Reserved? && log[etag - 1].expiresAt <= caller.now
        case Write(_, etag, attempts, expiresAt) =>
          caller.checked.None? &&
          (match etag
           case None => attempts == 1 && expiresAt == caller.now + c.windowMs
           case Some(v) =>
             && 0 < v <= |log| && log[v - 1].Reserved? && attempts == log[v - 1].attempts + 1 <= c.maxAttempts
             && expiresAt == log[v - 1].expiresAt && caller.now < expiresAt)
        case Verify(etag) => caller.checked.None? && OwnReservation(log, id, etag)
        case Reset(etag) => OwnReservation(log, id, etag) && caller.correct && caller.checked == Some(etag)
        case Responded(r) => AnswerOk(c, log, caller, r))
  }

  ghost predicate Inv(c: Config, s: System) {
    LogOk(c, s.log) && forall id :: id in s.callers ==> CallerOk(c, s.log, id, s.callers[id])
  }

  /** Mutations of others leave a caller's hold on what it read. */
  lemma CallerStable(c: Config, log: Log, more: Log, id: nat, caller: Caller)
    requires CallerOk(c, log, id, caller) && log <= more
    ensures CallerOk(c, more, id, caller)
  {
    if caller.pc.Responded? && caller.pc.response.TooMany? {
      var seconds := caller.pc.response.retryAfterSeconds;
      var k :| && 0 <= k < |log| && log[k].Reserved? && log[k].attempts >= c.maxAttempts && caller.now < log[k].expiresAt
               && (seconds - 1) * 1000 < log[k].expiresAt - caller.now <= seconds * 1000;
      assert more[k] == log[k];
    }
  }

  lemma ReadMoves(c: Config, s: System, id: nat, caller: Caller)
    requires ValidConfig(c) && LogOk(c, s.log) && CallerOk(c, s.log, id, caller) && caller.pc.Read?
    ensures CallerOk(c, s.log, id, caller.(pc := StepRead(c, s, caller)))
  {
    if StepRead(c, s, caller).Responded? {
      var x := s.log[|s.log| - 1];
      RetryAfterRoundsUp(x.expiresAt, caller.now);
    }
  }

  lemma RetryAfterRoundsUp(expiresAt: int, now: int)
    requires now < expiresAt
    ensures var n := RetryAfter(expiresAt, now); 1 <= n && (n - 1) * 1000 < expiresAt - now <= n * 1000
  {}

  lemma DeleteMoves(c: Config, s: System, id: nat, caller: Caller, o: Outcome, etag: nat, e: Entry, next: Pc)
    requires CallerOk(c, s.log, id, caller)
    requires (next.Read? && caller.checked.None?) || next == Responded(Unavailable)
             || (next == Responded(SessionIssued) && caller.correct && caller.checked.Some?)
    ensures var t := StepDelete(s, id, caller, o, etag, e, next); id in t.callers && CallerOk(c, t.log, id, t.callers[id])
  {
    CallerStable(c, s.log, s.log + [e], id, caller);
  }

  lemma WriteMoves(c: Config, s: System, id: nat, caller: Caller, o: Outcome)
    requires CallerOk(c, s.log, id, caller) && caller.pc.Write?
    ensures var t := StepWrite(s, id, caller, o); id in t.callers && CallerOk(c, t.log, id, t.callers[id])
  {}

  lemma MovedCaller(c: Config, s: System, id: nat, o: Outcome)
    requires ValidConfig(c) && Inv(c, s) && id in s.callers
    ensures var t := StepCaller(c, s, id, o); id in t.callers && CallerOk(c, t.log, id, t.callers[id])
  {
    var caller := s.callers[id];
    assert CallerOk(c, s.log, id, caller);
    match caller.pc {
      case Read(_) => ReadMoves(c, s, id, caller);
      case DeleteExpired(n, etag) => DeleteMoves(c, s, id, caller, o, etag, Expired(id, caller.now), Retry(n));
      case Write(_, _, _, _) => WriteMoves(c, s, id, caller, o);
      case Reset(etag) => DeleteMoves(c, s, id, caller, o, etag, ResetBy(id, caller.now), Responded(SessionIssued));
      case _ =>
    }
  }

  lemma LogStep(c: Config, s: System, id: nat, o: Outcome)
    requires ValidConfig(c) && Inv(c, s) && id in s.callers
    ensures var t := StepCaller(c, s, id, o);
            LogOk(c, t.log) && s.log <= t.log && t.callers.Keys == s.callers.Keys && forall k :: k in s.callers && k != id ==> t.callers[k] == s.callers[k]
  {
    var t := StepCaller(c, s, id, o);
    assert CallerOk(c, s.log, id, s.callers[id]);
    if |t.log| > |s.log| {
      assert t.log == s.log + [t.log[|s.log|]];
      assert EntityAt(t.log, |s.log|) == EntityAt(s.log, |s.log|);
      LogAppends(c, s.log, t.log[|s.log|]);
    }
  }

  lemma CallerStepSafe(c: Config, s: System, id: nat, o: Outcome)
    requires ValidConfig(c) && Inv(c, s) && id in s.callers
    ensures Inv(c, StepCaller(c, s, id, o))
    ensures s.log <= StepCaller(c, s, id, o).log
  {
    var t := StepCaller(c, s, id, o);
    LogStep(c, s, id, o);
    MovedCaller(c, s, id, o);
    forall k | k in t.callers && k != id ensures CallerOk(c, t.log, k, t.callers[k]) {
      CallerStable(c, s.log, t.log, k, s.callers[k]);
    }
  }

  lemma StepSafe(c: Config, s: System, e: Event)
    requires ValidConfig(c) && Inv(c, s)
    ensures Inv(c, Step(c, s, e))
    ensures s.log <= Step(c, s, e).log
  {
    if e.Advance? && e.id in s.callers { CallerStepSafe(c, s, e.id, e.outcome); }
  }

  /** Every interleaving keeps the invariant. */
  lemma {:induction false} RunSafe(c: Config, events: seq<Event>)
    requires ValidConfig(c)
    ensures Inv(c, Run(c, events))
  {
    if events != [] {
      RunSafe(c, events[..|events| - 1]);
      StepSafe(c, Run(c, events[..|events| - 1]), events[|events| - 1]);
    }
  }

  // ----- Theorems -----

  /** The stored count is at every moment the number of reservations since the entity was created,
      and never exceeds the limit. */
  lemma StoredCountIsExact(c: Config, events: seq<Event>)
    requires ValidConfig(c) && EntityAt(Run(c, events).log, |Run(c, events).log|).Some?
    ensures var log := Run(c, events).log; var x := EntityAt(log, |log|).value;
            && 1 <= x.attempts <= c.maxAttempts && x.attempts <= |log|
            && (forall j :: |log| - x.attempts <= j < |log| ==> log[j].Reserved? && log[j].expiresAt == x.expiresAt)
            && (|log| - x.attempts > 0 ==> !log[|log| - x.attempts - 1].Reserved?)
  {
    RunSafe(c, events);
    CountsReservations(c, Run(c, events).log, |Run(c, events).log| - 1);
  }

  /** The callers whose passcode was checked under the entity created at position `birth`. */
  function CheckedUnder(s: System, birth: int): set<nat> {
    set id | id in s.callers && s.callers[id].checked.Some?
             && OwnReservation(s.log, id, s.callers[id].checked.value)
             && Birth(s.log, s.callers[id].checked.value - 1) == birth
  }

  function ReservationsOf(s: System, ids: set<nat>): set<int>
    requires forall id :: id in ids ==> id in s.callers && s.callers[id].checked.Some?
  {
    set id | id in ids :: s.callers[id].checked.value - 1
  }

  lemma {:induction false} DistinctReservations(s: System, ids: set<nat>)
    requires forall id :: id in ids ==> id in s.callers && s.callers[id].checked.Some? && OwnReservation(s.log, id, s.callers[id].checked.value)
    ensures |ReservationsOf(s, ids)| == |ids|
  {
    if ids != {} {
      var id :| id in ids;
      DistinctReservations(s, ids - {id});
      assert ReservationsOf(s, ids) == ReservationsOf(s, ids - {id}) + {s.callers[id].checked.value - 1};
      assert forall o :: o in ids - {id} ==> s.callers[o].checked.value != s.callers[id].checked.value;
    }
  }

  /** However many callers run at once, at most maxAttempts passcodes are checked in one entity's
      lifetime, each under its own reservation. */
  lemma ChecksBoundedPerLifetime(c: Config, events: seq<Event>, birth: nat)
    requires ValidConfig(c)
    ensures |CheckedUnder(Run(c, events), birth)| <= c.maxAttempts
  {
    RunSafe(c, events);
    var s := Run(c, events);
    var ids := CheckedUnder(s, birth);
    DistinctReservations(s, ids);
    forall k | k in ReservationsOf(s, ids) ensures birth <= k < birth + c.maxAttempts {
      CountsReservations(c, s.log, k);
    }
    SubsetSize(ReservationsOf(s, ids), Range(birth, birth + c.maxAttempts));
  }

  /** No passcode is checked and no session issued without a reservation of the caller's own. */
  lemma ChecksNeedReservations(c: Config, events: seq<Event>, id: nat)
    requires ValidConfig(c) && id in Run(c, events).callers
    ensures var s := Run(c, events); var x := s.callers[id];
            && (x.checked.Some? ==> OwnReservation(s.log, id, x.checked.value))
            && (x.pc == Responded(SessionIssued) ==> x.correct && x.checked.Some?)
  {
    RunSafe(c, events);
    assert CallerOk(c, Run(c, events).log, id, Run(c, events).callers[id]);
  }

  /** Whoever is told that the passcode is wrong gave a wrong one that was checked, whoever has a session gave the
      right one, and a caller that was not checked is told nothing but to come back later or that the service is
      unavailable - the former only while a reservation is full, with the seconds it still runs. */
  lemma AnswersFollowChecks(c: Config, events: seq<Event>, id: nat)
    requires ValidConfig(c) && id in Run(c, events).callers && Run(c, events).callers[id].pc.Responded?
    ensures var s := Run(c, events); var x := s.callers[id];
            && (x.pc.response == InvalidPasscode ==> x.checked.Some? && !x.correct)
            && (x.pc.response == SessionIssued ==> x.checked.Some? && x.correct)
            && (x.checked.None? ==> x.pc.response.TooMany? || x.pc.response.Unavailable?)
            && (x.pc.response.TooMany? ==> FullFor(c, s.log, x.now, x.pc.response.retryAfterSeconds))
  {
    RunSafe(c, events);
    assert CallerOk(c, Run(c, events).log, id, Run(c, events).callers[id]);
  }

  lemma AnswerStays(c: Config, s: System, e: Event, id: nat)
    requires id in s.callers && s.callers[id].pc.Responded?
    ensures id in Step(c, s, e).callers && Step(c, s, e).callers[id] == s.callers[id]
  {}

  /** An answer is final: nothing that happens later changes it. */
  lemma {:induction false} AnswersAreFinal(c: Config, before: seq<Event>, after: seq<Event>, id: nat)
    requires id in Run(c, before).callers && Run(c, before).callers[id].pc.Responded?
    ensures id in Run(c, before + after).callers && Run(c, before + after).callers[id] == Run(c, before).callers[id]
    decreases |after|
  {
    if after == [] {
      assert before + after == before;
    } else {
      var init, all := after[..|after| - 1], before + after;
      assert all[..|all| - 1] == before + init && all[|all| - 1] == after[|after| - 1];
      AnswersAreFinal(c, before, init, id);
      AnswerStays(c, Run(c, before + init), after[|after| - 1], id);
    }
  }

  /** In every run, a reset removes only the version its own caller's reservation wrote. */
  lemma ResetsEraseOnlyTheirOwn(c: Config, events: seq<Event>, k: nat)
    requires ValidConfig(c) && k < |Run(c, events).log| && Run(c, events).log[k].ResetBy?
    ensures var log := Run(c, events).log;
            k > 0 && log[k - 1].Reserved? && log[k - 1].caller == log[k].caller
  {
    RunSafe(c, events);
    ResetErasesOnlyItsOwn(c, Run(c, events).log, k);
  }

  /** In every run without resets whose mutations follow the callers' clocks, the sliding bound holds. */
  lemma RunsKeepSlidingBound(c: Config, events: seq<Event>, from: int)
    requires ValidConfig(c) && NoResets(Run(c, events).log) && Ordered(Run(c, events).log)
    ensures |WindowOf(c, Run(c, events).log, from)| <= 2 * c.maxAttempts - 1
  {
    RunSafe(c, events);
    SlidingBound(c, Run(c, events).log, from);
  }
}
