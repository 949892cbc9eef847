/**
  The passcode rate limiter (api/_lib/passcode-rate-limit.js) and the handler that reserves,
  verifies and resets (api/validate-passcode/index.js), for one caller key.
  The table entity is the history of its mutations; an ETag is a position in that history.
 */
module Limiter {
  import opened Wrappers

  const MAX_MUTATION_RETRIES := 16

  datatype Config = Config(maxAttempts: int, windowMs: int)

  predicate ValidConfig(c: Config) {
    1 <= c.maxAttempts <= 100 && 10_000 <= c.windowMs <= 86_400_000
  }

  /** A mutation of the entity: who made it and with which reading of its own clock. */
  datatype Entry =
    | Reserved(caller: nat, now: int, attempts: int, expiresAt: int)
    | Expired(caller: nat, now: int)
    | ResetBy(caller: nat, now: int)
  type Log = seq<Entry>

  datatype Entity = Entity(attempts: int, expiresAt: int, etag: nat)

  /** The entity after the first k mutations. */
  function EntityAt(log: Log, k: nat): Option<Entity>
    requires k <= |log|
  {
    if k == 0 || !log[k - 1].Reserved? then None
    else Some(Entity(log[k - 1].attempts, log[k - 1].expiresAt, k))
  }

  // ----- What the code lets into the log -----

  predicate EntryOk(c: Config, log: Log, k: nat)
    requires k < |log|
  {
    var before := EntityAt(log, k);
    match log[k]
    case Reserved(_, now, attempts, expiresAt) =>
      (match before
       case None => attempts == 1 && expiresAt == now + c.windowMs
       case Some(x) => attempts == x.attempts + 1 <= c.maxAttempts && expiresAt == x.expiresAt && now < x.expiresAt)
    case Expired(_, now) => before.Some? && before.value.expiresAt <= now
    case ResetBy(caller, _) => before.Some? && log[k - 1].caller == caller
  }

  predicate LogOk(c: Config, log: Log) {
    forall k :: 0 <= k < |log| ==> EntryOk(c, log, k)
  }

  lemma LogAppends(c: Config, log: Log, e: Entry)
    requires LogOk(c, log) && EntryOk(c, log + [e], |log|)
    ensures LogOk(c, log + [e])
  {
    forall k | 0 <= k < |log| ensures EntryOk(c, log + [e], k) {
      assert EntryOk(c, log, k);
      assert EntityAt(log + [e], k) == EntityAt(log, k);
    }
  }

  // ----- One entity lifetime -----

  /** Where the entity that holds reservation k was created. */
  function Birth(log: Log, k: nat): int
    requires k < |log| && log[k].Reserved?
  {
    k + 1 - log[k].attempts
  }

  /** The stored count is the number of reservations since the entity was created: the lifetime of
      reservation k is an unbroken run of reservations that count 1, 2, ... and share one expiry, one
      window after the first. */
  lemma {:induction false} CountsReservations(c: Config, log: Log, k: nat)
    requires ValidConfig(c) && LogOk(c, log) && k < |log| && log[k].Reserved?
    ensures 1 <= log[k].attempts <= c.maxAttempts && 0 <= Birth(log, k) <= k
    ensures forall j :: Birth(log, k) <= j <= k ==>
              log[j].Reserved? && log[j].attempts == j - Birth(log, k) + 1 && log[j].expiresAt == log[k].expiresAt
    ensures log[k].expiresAt == log[Birth(log, k)].now + c.windowMs
    ensures log[k].now < log[k].expiresAt
    ensures Birth(log, k) > 0 ==> !log[Birth(log, k) - 1].Reserved?
  {
    assert EntryOk(c, log, k);
    if k > 0 && log[k - 1].Reserved? {
      CountsReservations(c, log, k - 1);
    }
  }

  /** A reset removes exactly the version its own reservation wrote: nothing happened in between, so
      no other reservation is erased. */
  lemma ResetErasesOnlyItsOwn(c: Config, log: Log, k: nat)
    requires LogOk(c, log) && k < |log| && log[k].ResetBy?
    ensures k > 0 && log[k - 1].Reserved? && log[k - 1].caller == log[k].caller
    ensures EntityAt(log, k).Some? && EntityAt(log, k).value.etag == k
  {
    assert EntryOk(c, log, k);
  }

  // ----- The sliding bound -----

  predicate NoResets(log: Log) { forall k :: 0 <= k < |log| ==> !log[k].ResetBy? }

  predicate Ordered(log: Log) { forall i, j :: 0 <= i < j < |log| ==> log[i].now <= log[j].now }

  predicate InWindow(c: Config, log: Log, from: int, k: int) {
    0 <= k < |log| && log[k].Reserved? && from <= log[k].now < from + c.windowMs
  }

  function WindowOf(c: Config, log: Log, from: int): set<int> {
    set k | 0 <= k < |log| && InWindow(c, log, from, k)
  }

  /** Without resets, a later entity is created only when the earlier one has run out. */
  lemma {:induction false} NextBirthIsAfterExpiry(c: Config, log: Log, i: nat, j: nat)
    requires ValidConfig(c) && LogOk(c, log) && NoResets(log) && Ordered(log)
    requires i < j < |log| && log[i].Reserved? && log[j].Reserved? && i < Birth(log, j)
    ensures Birth(log, j) <= j && log[i].expiresAt <= log[Birth(log, j)].now
    decreases j - i
  {
    CountsReservations(c, log, j);
    var k := i + 1;
    assert EntryOk(c, log, k);
    if log[k].Reserved? {
      CountsReservations(c, log, k);
      NextBirthIsAfterExpiry(c, log, k, j);
    } else {
      assert log[k].now <= log[Birth(log, j)].now;
    }
  }

  function Range(lo: int, hi: int): (r: set<int>)
    requires lo <= hi
    ensures forall k :: k in r <==> lo <= k < hi
    ensures |r| == hi - lo
    decreases hi - lo
  {
    if lo == hi then {} else Range(lo, hi - 1) + {hi - 1}
  }

  lemma WithinLifetimes(s: set<int>, from1: int, to1: int, from2: int, to2: int)
    requires from1 <= to1 && from2 <= to2
    requires forall k :: k in s ==> from1 <= k < to1 || from2 <= k < to2
    ensures |s| <= (to1 - from1) + (to2 - from2)
  {
    SubsetSize(s, Range(from1, to1) + Range(from2, to2));
  }

  /** Two reservations in one window belong to the same entity or to entities born one after the other. */
  lemma AtMostTwoLives(c: Config, log: Log, from: int, i: nat, j: nat, k: nat)
    requires ValidConfig(c) && LogOk(c, log) && NoResets(log) && Ordered(log)
    requires InWindow(c, log, from, i) && InWindow(c, log, from, j) && InWindow(c, log, from, k)
    requires i < Birth(log, j) && i < Birth(log, k)
    ensures Birth(log, j) == Birth(log, k)
  {
    CountsReservations(c, log, j);
    CountsReservations(c, log, k);
    NextBirthIsAfterExpiry(c, log, i, j);
    NextBirthIsAfterExpiry(c, log, i, k);
    if Birth(log, j) < Birth(log, k) {
      LivesDoNotOverlap(c, log, j, k);
      NextBirthIsAfterExpiry(c, log, j, k);
      CountsReservations(c, log, i);
    } else if Birth(log, k) < Birth(log, j) {
      LivesDoNotOverlap(c, log, k, j);
      NextBirthIsAfterExpiry(c, log, k, j);
      CountsReservations(c, log, i);
    }
  }

  lemma LivesDoNotOverlap(c: Config, log: Log, j: nat, k: nat)
    requires ValidConfig(c) && LogOk(c, log) && j < |log| && k < |log| && log[j].Reserved? && log[k].Reserved?
    ensures Birth(log, j) < Birth(log, k) ==> j < Birth(log, k)
  {
    CountsReservations(c, log, j);
    CountsReservations(c, log, k);
  }

  lemma {:induction false} SmallestOf(s: set<int>, j: nat) returns (m: nat)
    requires j in s && forall k :: k in s ==> 0 <= k
    ensures m in s && forall k :: k in s ==> m <= k
  {
    if k :| k in s && k < j {
      m := SmallestOf(s, k);
    } else {
      m := j;
    }
  }

  /** With no resets and mutations ordered by the callers' clocks, any window of windowMs holds at most
      2 * maxAttempts - 1 reservations. */
  lemma SlidingBound(c: Config, log: Log, from: int)
    requires ValidConfig(c) && LogOk(c, log) && NoResets(log) && Ordered(log)
    ensures |WindowOf(c, log, from)| <= 2 * c.maxAttempts - 1
  {
    var s := WindowOf(c, log, from);
    if s != {} {
      var any :| any in s;
      var i := SmallestOf(s, any);
      CountsReservations(c, log, i);
      var b := Birth(log, i);
      var later := set k | k in s && i < Birth(log, k);
      forall k | k in s && k !in later ensures b <= k < b + c.maxAttempts {
        CountsReservations(c, log, k);
        LivesDoNotOverlap(c, log, k, i);
        LivesDoNotOverlap(c, log, i, k);
      }
      if later == {} {
        WithinLifetimes(s, b, b + c.maxAttempts, 0, 0);
      } else {
        var j :| j in later;
        CountsReservations(c, log, j);
        NextBirthIsAfterExpiry(c, log, i, j);
        var d := Birth(log, j);
        assert !InWindow(c, log, from, b) by { assert log[d].now <= log[j].now; }
        forall k | k in later ensures d <= k < d + c.maxAttempts {
          AtMostTwoLives(c, log, from, i, j, k);
          CountsReservations(c, log, k);
        }
        WithinLifetimes(s, b + 1, b + c.maxAttempts, d, d + c.maxAttempts);
      }
    }
  }

  /** One reservation just before the window, maxAttempts - 1 more at the very end of its life, and after the
      expiry maxAttempts of the next entity. */
  function FullWindow(c: Config, from: int): Log
    requires ValidConfig(c)
  {
    var n, before, expiry := c.maxAttempts, from - 1, from - 1 + c.windowMs;
    seq(2 * n + 1, k requires 0 <= k <= 2 * n =>
      if k == 0 then Reserved(0, before, 1, expiry)
      else if k < n then Reserved(k, expiry - 1, k + 1, expiry)
      else if k == n then Expired(k, expiry)
      else Reserved(k - 1, expiry, k - n, expiry + c.windowMs))
  }

  lemma FullWindowEntry(c: Config, from: int, k: nat)
    requires ValidConfig(c) && k <= 2 * c.maxAttempts
    ensures EntryOk(c, FullWindow(c, from), k) && !FullWindow(c, from)[k].ResetBy?
    ensures from - 1 <= FullWindow(c, from)[k].now <= from - 1 + c.windowMs
  {}

  lemma FullWindowIsOk(c: Config, from: int)
    requires ValidConfig(c)
    ensures LogOk(c, FullWindow(c, from)) && NoResets(FullWindow(c, from))
  {
    forall k | 0 <= k < |FullWindow(c, from)| ensures EntryOk(c, FullWindow(c, from), k) && !FullWindow(c, from)[k].ResetBy? {
      FullWindowEntry(c, from, k);
    }
  }

  lemma FullWindowMembers(c: Config, from: int, k: int)
    requires ValidConfig(c)
    ensures InWindow(c, FullWindow(c, from), from, k) <==> 1 <= k < c.maxAttempts || c.maxAttempts < k <= 2 * c.maxAttempts
  {}

  lemma FullWindowSet(c: Config, from: int)
    requires ValidConfig(c)
    ensures var n := c.maxAttempts; WindowOf(c, FullWindow(c, from), from) == Range(1, n) + Range(n + 1, 2 * n + 1)
  {
    forall k ensures k in WindowOf(c, FullWindow(c, from), from) <==> 1 <= k < c.maxAttempts || c.maxAttempts < k <= 2 * c.maxAttempts {
      FullWindowMembers(c, from, k);
    }
  }

  lemma FullWindowOrdered(c: Config, from: int)
    requires ValidConfig(c)
    ensures Ordered(FullWindow(c, from))
  {}

  lemma RangesSize(a: int, b: int, d: int, e: int)
    requires a <= b <= d <= e
    ensures |Range(a, b) + Range(d, e)| == (b - a) + (e - d)
  {
    assert Range(a, b) !! Range(d, e);
  }

  /** The bound is reached, for every configuration and every window. */
  lemma SlidingBoundIsTight(c: Config, from: int)
    requires ValidConfig(c)
    ensures LogOk(c, FullWindow(c, from)) && NoResets(FullWindow(c, from)) && Ordered(FullWindow(c, from))
    ensures |WindowOf(c, FullWindow(c, from), from)| == 2 * c.maxAttempts - 1
  {
    var n := c.maxAttempts;
    FullWindowIsOk(c, from);
    FullWindowOrdered(c, from);
    FullWindowSet(c, from);
    RangesSize(1, n, n + 1, 2 * n + 1);
  }

  const OUT_OF_ORDER: Log := [Reserved(0, 0, 1, 10_000), Reserved(1, 5_000, 2, 10_000), Expired(2, 10_000),
                              Reserved(3, 5_000, 1, 15_000), Reserved(4, 5_000, 2, 15_000)]

  /** The bound needs the order: one caller with a fast clock drops the entity early, and two with slow
      clocks then reserve in the window of the first entity again. */
  lemma SlidingBoundNeedsOrder()
    ensures var c := Config(2, 10_000);
            var log := OUT_OF_ORDER;
            && LogOk(c, log) && NoResets(log)
            && |WindowOf(c, log, 0)| > 2 * c.maxAttempts - 1
  {
    assert WindowOf(Config(2, 10_000), OUT_OF_ORDER, 0) == {0, 1, 3, 4};
  }
}
