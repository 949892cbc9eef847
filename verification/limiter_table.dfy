/**
  The limiter in the source's own form: an object over the table whose reserveAttempt retries in a
  loop (api/_lib/passcode-rate-limit.js:46-139).  Between any two table operations other instances
  may run, under the same contract.
 */
module LimiterTable {
  import opened Wrappers
  import opened Limiter
  import opened LimiterProtocol

  datatype Reservation = Granted(etag: nat) | Limited(retryAfterSeconds: int) | Failed

  // ----- An attempt that nothing disturbs -----

  /** The log after a caller dropped an entity that had run out, if there was one. */
  function Dropped(log: Log, caller: nat, now: int): Log {
    var entity := EntityAt(log, |log|);
    if entity.Some? && entity.value.expiresAt <= now then log + [Expired(caller, now)] else log
  }

  function NextReservation(c: Config, entity: Option<Entity>, caller: nat, now: int): Entry {
    match entity
    case None => Reserved(caller, now, 1, now + c.windowMs)
    case Some(x) => Reserved(caller, now, x.attempts + 1, x.expiresAt)
  }

  predicate Full(c: Config, log: Log) {
    EntityAt(log, |log|).Some? && EntityAt(log, |log|).value.attempts >= c.maxAttempts
  }

  function Reserving(c: Config, log: Log, caller: nat, now: int): Log {
    if Full(c, log) then log else log + [NextReservation(c, EntityAt(log, |log|), caller, now)]
  }

  function Answer(c: Config, log: Log, now: int): Reservation {
    if Full(c, log) then Limited(RetryAfter(EntityAt(log, |log|).value.expiresAt, now)) else Granted(|log| + 1)
  }

  // ----- What a reply means, whatever others did -----

  /** A grant is a new entry of the caller's own, within the limit of the entity it was counted in. */
  predicate GrantOk(c: Config, before: Log, log: Log, caller: nat, now: int, r: Reservation) {
    r.Granted? ==>
      && |before| < r.etag <= |log| && OwnReservation(log, caller, r.etag) && log[r.etag - 1].now == now
      && r.etag - log[r.etag - 1].attempts >= 0 && log[r.etag - 1].attempts <= c.maxAttempts
  }

  /** A refusal saw a full entity that had not run out by the caller's clock. */
  predicate LimitOk(c: Config, log: Log, now: int, r: Reservation, seen: Option<Entity>) {
    r.Limited? ==>
      && seen.Some? && seen.value.etag <= |log| && EntityAt(log, seen.value.etag) == seen
      && seen.value.attempts == c.maxAttempts && now < seen.value.expiresAt
      && r.retryAfterSeconds == RetryAfter(seen.value.expiresAt, now)
  }

  /** In these methods `quiet` says that no other instance acts and every operation is answered. */
  class PasscodeRateLimiter {
    const config: Config
    var log: Log // the entity: its version is the length

    ghost predicate Valid()
      reads this
    {
      ValidConfig(config) && LogOk(config, log)
    }

    constructor (c: Config)
      requires ValidConfig(c)
      ensures Valid() && config == c && log == []
    {
      config, log := c, [];
    }

    /** Other instances reserve, drop and reset; callers may rely on no more than this. */
    method OthersRun(quiet: bool)
      requires Valid()
      modifies this
      ensures Valid() && old(log) <= log
      ensures quiet ==> log == old(log)
    {}

    method Mutate(e: Entry, expected: Option<Entity>, quiet: bool) returns (o: Outcome, conflict: bool)
      requires Valid()
      requires EntityAt(log, |log|) == expected ==> EntryOk(config, log + [e], |log|)
      modifies this
      ensures Valid()
      ensures conflict <==> EntityAt(old(log), |old(log)|) != expected
      ensures log == if o.NotApplied? || conflict then old(log) else old(log) + [e]
      ensures quiet ==> o.Answered?
    {
      o := *;
      if quiet {
        o := Answered;
      }
      conflict := EntityAt(log, |log|) != expected;
      if !o.NotApplied? && !conflict {
        LogAppends(config, log, e);
        log := log + [e];
      }
    }

    method DeleteExpired(caller: nat, now: nat, entity: Entity, quiet: bool) returns (ok: bool)
      requires Valid() && entity.expiresAt <= now && entity.etag <= |log| && EntityAt(log, entity.etag) == Some(entity)
      modifies this
      ensures Valid() && old(log) <= log
      ensures quiet ==> ok && log == if EntityAt(old(log), |old(log)|) == Some(entity) then old(log) + [Expired(caller, now)] else old(log)
    {
      OthersRun(quiet);
      var o, _ := Mutate(Expired(caller, now), Some(entity), quiet);
      ok := !o.NotApplied? && !o.AppliedThenError?;
    }

    /** The write of an attempt: `done` when it was applied and answered, `again` when it met a conflict. */
    method Count(caller: nat, now: nat, entity: Option<Entity>, quiet: bool) returns (again: bool, done: bool)
      requires Valid()
      requires entity.Some? ==> entity.value.attempts < config.maxAttempts && now < entity.value.expiresAt
      modifies this
      ensures Valid() && old(log) <= log && !(again && done)
      ensures done ==> |old(log)| < |log| && OwnReservation(log, caller, |log|) && log[|log| - 1].now == now
      ensures quiet && entity == EntityAt(old(log), |old(log)|) ==> done && log == old(log) + [NextReservation(config, entity, caller, now)]
    {
      OthersRun(quiet);
      var gone := entity.Some? && EntityAt(log, |log|).None?;
      var o, conflict := Mutate(NextReservation(config, entity, caller, now), entity, quiet);
      done := o.Answered? && !conflict && !gone;
      again := !done && !gone && !o.NotApplied? && !o.AppliedThenError?;
    }

    /** One round of reserveAttempt. */
    method Attempt(caller: nat, now: nat, quiet: bool) returns (again: bool, r: Reservation, ghost seen: Option<Entity>)
      requires Valid()
      modifies this
      ensures Valid() && old(log) <= log
      ensures again ==> r.Failed?
      ensures GrantOk(config, old(log), log, caller, now, r) && LimitOk(config, log, now, r, seen)
      ensures quiet ==> var entity := EntityAt(old(log), |old(log)|);
                if entity.Some? && entity.value.expiresAt <= now then again && log == old(log) + [Expired(caller, now)]
                else !again && log == Reserving(config, old(log), caller, now) && r == Answer(config, old(log), now)
    {
      again, r, seen := false, Failed, None;
      var entity := EntityAt(log, |log|);
      if entity.Some? && entity.value.expiresAt <= now {
        again := DeleteExpired(caller, now, entity.value, quiet);
      } else if entity.Some? && entity.value.attempts >= config.maxAttempts {
        CountsReservations(config, log, entity.value.etag - 1);
        seen, r := entity, Limited(RetryAfter(entity.value.expiresAt, now));
      } else {
        var done;
        again, done := Count(caller, now, entity, quiet);
        if done {
          CountsReservations(config, log, |log| - 1);
          r := Granted(|log|);
        }
      }
    }

    /** A granted attempt is a new entry of the log, counted in the entity it went to; a limited one saw a
        full entity that had not run out by the caller's clock.  Undisturbed, an attempt is limited exactly
        when the entity is full and alive, and otherwise granted, in a new entity if the old one ran out. */
    method ReserveAttempt(caller: nat, now: nat, quiet: bool) returns (r: Reservation, ghost seen: Option<Entity>)
      requires Valid()
      modifies this
      ensures Valid() && old(log) <= log
      ensures GrantOk(config, old(log), log, caller, now, r) && LimitOk(config, log, now, r, seen)
      ensures quiet ==> r == Answer(config, Dropped(old(log), caller, now), now)
      ensures quiet ==> log == Reserving(config, Dropped(old(log), caller, now), caller, now)
    {
      r, seen := Failed, None;
      for retry := 0 to MAX_MUTATION_RETRIES
        invariant Valid() && old(log) <= log && r == Failed
        invariant quiet ==> log == if retry == 0 then old(log) else Dropped(old(log), caller, now)
        invariant quiet && retry > 0 ==> retry == 1 && EntityAt(log, |log|).None?
      {
        OthersRun(quiet);
        var again;
        again, r, seen := Attempt(caller, now, quiet);
        if !again {
          return;
        }
      }
    }

    /** Deletes the entity exactly if the reservation is still its latest version. */
    method Reset(caller: nat, now: nat, etag: nat, quiet: bool) returns (ok: bool)
      requires Valid() && OwnReservation(log, caller, etag)
      modifies this
      ensures Valid()
      ensures log == old(log) || (log == old(log) + [ResetBy(caller, now)] && |old(log)| == etag)
      ensures ok && |old(log)| == etag ==> EntityAt(log, |log|).None?
      ensures quiet ==> ok
    {
      var held := Entity(log[etag - 1].attempts, log[etag - 1].expiresAt, etag);
      var o, _ := Mutate(ResetBy(caller, now), Some(held), quiet);
      ok := !o.NotApplied? && !o.AppliedThenError?;
    }
  }
}
