/**
  Runs of the limiter that reach its sliding bound, and one that exceeds it when the callers' clocks are out of
  order (api/_lib/passcode-rate-limit.js:62-138).
 */
module LimiterRuns {
  import opened Wrappers
  import opened Limiter
  import opened LimiterProtocol

  lemma RunOne(c: Config, events: seq<Event>, e: Event)
    ensures Run(c, events + [e]) == Step(c, Run(c, events), e)
  {
    assert (events + [e])[..|events|] == events;
  }

  // ----- Blocks of events -----

  /** A caller with a wrong passcode that meets no one else: read, then count. */
  function Reserving(id: nat, now: nat): seq<Event> {
    [Arrive(id, now, false)] + [Advance(id, Answered)] + [Advance(id, Answered)]
  }

  /** A caller that finds an entity that has run out: read and drop it. */
  function Dropping(id: nat, now: nat): seq<Event> { Reserving(id, now) }

  function Next(c: Config, log: Log, id: nat, now: nat): Entry {
    match EntityAt(log, |log|)
    case None => Reserved(id, now, 1, now + c.windowMs)
    case Some(x) => Reserved(id, now, x.attempts + 1, x.expiresAt)
  }

  /** The entity, if any, is alive at this clock reading and has room. */
  predicate HasRoom(c: Config, log: Log, now: nat) {
    match EntityAt(log, |log|) case None => true case Some(x) => now < x.expiresAt && x.attempts < c.maxAttempts
  }

  predicate RunsOut(log: Log, now: nat) {
    EntityAt(log, |log|).Some? && EntityAt(log, |log|).value.expiresAt <= now
  }

  function Only(s: System, log: Log, id: nat, caller: Caller): System { System(log, s.callers[id := caller]) }

  lemma ThreeSteps(c: Config, events: seq<Event>, id: nat, now: nat)
    ensures var s := Run(c, events);
            Run(c, events + Reserving(id, now))
            == Step(c, Step(c, Step(c, s, Arrive(id, now, false)), Advance(id, Answered)), Advance(id, Answered))
  {
    var a, b := [Arrive(id, now, false)], [Advance(id, Answered)];
    assert events + Reserving(id, now) == events + a + b + b;
    RunOne(c, events, a[0]);
    RunOne(c, events + a, b[0]);
    RunOne(c, events + a + b, b[0]);
  }

  lemma ReservingCounts(c: Config, s: System, id: nat, now: nat)
    requires id !in s.callers && HasRoom(c, s.log, now)
    ensures Step(c, Step(c, Step(c, s, Arrive(id, now, false)), Advance(id, Answered)), Advance(id, Answered))
         == Only(s, s.log + [Next(c, s.log, id, now)], id, Caller(now, false, Verify(|s.log| + 1), None))
  {}

  lemma DroppingDrops(c: Config, s: System, id: nat, now: nat)
    requires id !in s.callers && RunsOut(s.log, now)
    ensures Step(c, Step(c, Step(c, s, Arrive(id, now, false)), Advance(id, Answered)), Advance(id, Answered))
         == Only(s, s.log + [Expired(id, now)], id, Caller(now, false, Read(1), None))
  {}

  lemma RetryCounts(c: Config, s: System, id: nat)
    requires id in s.callers && s.callers[id].pc == Read(1) && s.callers[id].now >= 0 && EntityAt(s.log, |s.log|).None?
    ensures Step(c, Step(c, s, Advance(id, Answered)), Advance(id, Answered)).log
         == s.log + [Reserved(id, s.callers[id].now, 1, s.callers[id].now + c.windowMs)]
    ensures Step(c, Step(c, s, Advance(id, Answered)), Advance(id, Answered)).callers.Keys == s.callers.Keys
  {}

  /** The run has written this log, and its callers are the first m. */
  ghost predicate Wrote(c: Config, events: seq<Event>, log: Log, m: nat) {
    Run(c, events).log == log && forall id: nat :: id in Run(c, events).callers <==> id < m
  }

  lemma NothingWritten(c: Config)
    ensures Wrote(c, [], [], 0)
  {}

  lemma Counts(c: Config, events: seq<Event>, id: nat, now: nat)
    requires id !in Run(c, events).callers && HasRoom(c, Run(c, events).log, now)
    ensures var s := Run(c, events);
            var t := Run(c, events + Reserving(id, now));
            t.log == s.log + [Next(c, s.log, id, now)] && t.callers.Keys == s.callers.Keys + {id}
  {
    ThreeSteps(c, events, id, now);
    ReservingCounts(c, Run(c, events), id, now);
  }

  lemma DropsAndStops(c: Config, events: seq<Event>, id: nat, now: nat)
    requires id !in Run(c, events).callers && RunsOut(Run(c, events).log, now)
    ensures var s := Run(c, events);
            var t := Run(c, events + Dropping(id, now) + [Interrupt(id)]);
            t.log == s.log + [Expired(id, now)] && t.callers.Keys == s.callers.Keys + {id}
  {
    ThreeSteps(c, events, id, now);
    DroppingDrops(c, Run(c, events), id, now);
    RunOne(c, events + Dropping(id, now), Interrupt(id));
  }

  lemma DropsAndCounts(c: Config, events: seq<Event>, id: nat, now: nat)
    requires id !in Run(c, events).callers && RunsOut(Run(c, events).log, now)
    ensures var s := Run(c, events);
            var t := Run(c, events + Dropping(id, now) + [Advance(id, Answered)] + [Advance(id, Answered)]);
            && t.log == s.log + [Expired(id, now)] + [Reserved(id, now, 1, now + c.windowMs)]
            && t.callers.Keys == s.callers.Keys + {id}
  {
    var dropped := events + Dropping(id, now);
    ThreeSteps(c, events, id, now);
    DroppingDrops(c, Run(c, events), id, now);
    RunOne(c, dropped, Advance(id, Answered));
    RunOne(c, dropped + [Advance(id, Answered)], Advance(id, Answered));
    RetryCounts(c, Run(c, dropped), id);
  }

  lemma WritesNext(c: Config, events: seq<Event>, log: Log, m: nat, now: nat)
    requires Wrote(c, events, log, m) && HasRoom(c, log, now)
    ensures Wrote(c, events + Reserving(m, now), log + [Next(c, log, m, now)], m + 1)
  {
    Counts(c, events, m, now);
  }

  lemma WritesNextEntity(c: Config, events: seq<Event>, log: Log, m: nat, now: nat)
    requires Wrote(c, events, log, m) && RunsOut(log, now)
    ensures Wrote(c, events + Dropping(m, now) + [Advance(m, Answered)] + [Advance(m, Answered)],
                  log + [Expired(m, now)] + [Reserved(m, now, 1, now + c.windowMs)], m + 1)
  {
    DropsAndCounts(c, events, m, now);
  }

  lemma WritesExpiry(c: Config, events: seq<Event>, log: Log, m: nat, now: nat)
    requires Wrote(c, events, log, m) && RunsOut(log, now)
    ensures Wrote(c, events + Dropping(m, now) + [Interrupt(m)], log + [Expired(m, now)], m + 1)
  {
    DropsAndStops(c, events, m, now);
  }

  // ----- A run that fills a window -----

  /** The clock readings of the callers: just before the window, at the end of the first entity's life, and then
      at its expiry. */
  function ClockOf(c: Config, from: nat, id: nat): nat
    requires ValidConfig(c) && from > 0
  {
    if id == 0 then from - 1 else if id < c.maxAttempts then from + c.windowMs - 2 else from - 1 + c.windowMs
  }

  function BlockOf(c: Config, from: nat, id: nat): seq<Event>
    requires ValidConfig(c) && from > 0
  {
    Reserving(id, ClockOf(c, from, id)) + if id == c.maxAttempts then [Advance(id, Answered)] + [Advance(id, Answered)] else []
  }

  /** The first m callers, one after the other. */
  function Filling(c: Config, from: nat, m: nat): seq<Event>
    requires ValidConfig(c) && from > 0
  {
    if m == 0 then [] else Filling(c, from, m - 1) + BlockOf(c, from, m - 1)
  }

  function Written(c: Config, m: nat): nat
    requires ValidConfig(c)
  {
    if m <= c.maxAttempts then m else m + 1
  }

  lemma NextEntry(c: Config, from: nat, m: nat, log: Log)
    requires ValidConfig(c) && from > 0 && m < 2 * c.maxAttempts && m != c.maxAttempts
    requires log == FullWindow(c, from)[..Written(c, m)]
    ensures HasRoom(c, log, ClockOf(c, from, m))
    ensures log + [Next(c, log, m, ClockOf(c, from, m))] == FullWindow(c, from)[..Written(c, m + 1)]
  {
    var all, k := FullWindow(c, from), Written(c, m);
    assert all[..k + 1] == all[..k] + [all[k]];
    assert k > 0 ==> log[k - 1] == all[k - 1];
    assert all[k] == Next(c, log, m, ClockOf(c, from, m));
  }

  function Prefix(c: Config, from: nat, m: nat): Log
    requires ValidConfig(c) && from > 0 && m <= 2 * c.maxAttempts
  {
    FullWindow(c, from)[..Written(c, m)]
  }

  lemma FillsOne(c: Config, from: nat, m: nat, events: seq<Event>)
    requires ValidConfig(c) && from > 0 && m < 2 * c.maxAttempts && m != c.maxAttempts
    requires Wrote(c, events, Prefix(c, from, m), m)
    ensures Wrote(c, events + BlockOf(c, from, m), Prefix(c, from, m + 1), m + 1)
  {
    NextEntry(c, from, m, Prefix(c, from, m));
    assert BlockOf(c, from, m) == Reserving(m, ClockOf(c, from, m));
    WritesNext(c, events, Prefix(c, from, m), m, ClockOf(c, from, m));
  }

  lemma TurnOver(c: Config, from: nat, log: Log)
    requires ValidConfig(c) && from > 0 && log == FullWindow(c, from)[..c.maxAttempts]
    ensures var n, now := c.maxAttempts, ClockOf(c, from, c.maxAttempts);
            && RunsOut(log, now)
            && log + [Expired(n, now)] + [Reserved(n, now, 1, now + c.windowMs)] == FullWindow(c, from)[..n + 2]
  {
    var all, n := FullWindow(c, from), c.maxAttempts;
    assert log[n - 1] == all[n - 1];
    assert all[..n + 2] == all[..n] + [all[n]] + [all[n + 1]];
  }

  lemma FillsTurn(c: Config, from: nat, events: seq<Event>)
    requires ValidConfig(c) && from > 0 && Wrote(c, events, Prefix(c, from, c.maxAttempts), c.maxAttempts)
    ensures Wrote(c, events + BlockOf(c, from, c.maxAttempts), Prefix(c, from, c.maxAttempts + 1), c.maxAttempts + 1)
  {
    var n := c.maxAttempts;
    var now, more := ClockOf(c, from, n), [Advance(n, Answered)];
    TurnOver(c, from, Prefix(c, from, n));
    WritesNextEntity(c, events, Prefix(c, from, n), n, now);
    assert events + BlockOf(c, from, n) == events + Dropping(n, now) + more + more;
  }

  lemma FillsNext(c: Config, from: nat, m: nat, events: seq<Event>, more: seq<Event>)
    requires ValidConfig(c) && from > 0 && m < 2 * c.maxAttempts && more == events + BlockOf(c, from, m)
    requires Wrote(c, events, Prefix(c, from, m), m)
    ensures Wrote(c, more, Prefix(c, from, m + 1), m + 1)
  {
    if m == c.maxAttempts { FillsTurn(c, from, events); } else { FillsOne(c, from, m, events); }
  }

  lemma {:induction false} FillsWindow(c: Config, from: nat, m: nat)
    requires ValidConfig(c) && from > 0 && m <= 2 * c.maxAttempts
    ensures Wrote(c, Filling(c, from, m), Prefix(c, from, m), m)
  {
    if m == 0 {
      NothingWritten(c);
      assert Prefix(c, from, 0) == [];
    } else {
      FillsWindow(c, from, m - 1);
      FillsNext(c, from, m - 1, Filling(c, from, m - 1), Filling(c, from, m));
    }
  }

  /** For every configuration and every window from 1 on there is a run, without resets and in clock order,
      with 2 * maxAttempts - 1 reservations in it. */
  lemma RunsReachSlidingBound(c: Config, from: nat)
    requires ValidConfig(c) && from > 0
    ensures var log := Run(c, Filling(c, from, 2 * c.maxAttempts)).log;
            && NoResets(log) && Ordered(log) && |WindowOf(c, log, from)| == 2 * c.maxAttempts - 1
  {
    FillsWindow(c, from, 2 * c.maxAttempts);
    SlidingBoundIsTight(c, from);
    var all := FullWindow(c, from);
    assert all[..|all|] == all;
  }

  // ----- A run with clocks out of order -----

  function UntilDropped(): seq<Event> { [] + Reserving(0, 0) + Reserving(1, 5_000) + Dropping(2, 10_000) + [Interrupt(2)] }

  function Disordered(): seq<Event> { UntilDropped() + Reserving(3, 5_000) + Reserving(4, 5_000) }

  function Pair(): Config { Config(2, 10_000) }

  lemma OneMore(n: nat)
    requires n < 5
    ensures OUT_OF_ORDER[..n + 1] == OUT_OF_ORDER[..n] + [OUT_OF_ORDER[n]]
  {}

  /** The entries follow from each other at these clock readings. */
  lemma DisorderedEntries()
    ensures HasRoom(Pair(), OUT_OF_ORDER[..0], 0) && OUT_OF_ORDER[0] == Next(Pair(), OUT_OF_ORDER[..0], 0, 0)
    ensures HasRoom(Pair(), OUT_OF_ORDER[..1], 5_000) && OUT_OF_ORDER[1] == Next(Pair(), OUT_OF_ORDER[..1], 1, 5_000)
    ensures RunsOut(OUT_OF_ORDER[..2], 10_000) && OUT_OF_ORDER[2] == Expired(2, 10_000)
    ensures HasRoom(Pair(), OUT_OF_ORDER[..3], 5_000) && OUT_OF_ORDER[3] == Next(Pair(), OUT_OF_ORDER[..3], 3, 5_000)
    ensures HasRoom(Pair(), OUT_OF_ORDER[..4], 5_000) && OUT_OF_ORDER[4] == Next(Pair(), OUT_OF_ORDER[..4], 4, 5_000)
  {}

  lemma DisorderedStep(events: seq<Event>, n: nat, now: nat)
    requires n < 5 && Wrote(Pair(), events, OUT_OF_ORDER[..n], n)
    requires HasRoom(Pair(), OUT_OF_ORDER[..n], now) && OUT_OF_ORDER[n] == Next(Pair(), OUT_OF_ORDER[..n], n, now)
    ensures Wrote(Pair(), events + Reserving(n, now), OUT_OF_ORDER[..n + 1], n + 1)
  {
    OneMore(n);
    WritesNext(Pair(), events, OUT_OF_ORDER[..n], n, now);
  }

  lemma DisorderedDrop(events: seq<Event>)
    requires Wrote(Pair(), events, OUT_OF_ORDER[..2], 2)
    ensures Wrote(Pair(), events + Dropping(2, 10_000) + [Interrupt(2)], OUT_OF_ORDER[..3], 3)
  {
    OneMore(2);
    DisorderedEntries();
    WritesExpiry(Pair(), events, OUT_OF_ORDER[..2], 2, 10_000);
  }

  lemma DropIsWritten()
    ensures Wrote(Pair(), UntilDropped(), OUT_OF_ORDER[..3], 3)
  {
    NothingWritten(Pair());
    DisorderedEntries();
    DisorderedStep([], 0, 0);
    DisorderedStep([] + Reserving(0, 0), 1, 5_000);
    DisorderedDrop([] + Reserving(0, 0) + Reserving(1, 5_000));
  }

  lemma DisorderedWrites()
    ensures Wrote(Pair(), Disordered(), OUT_OF_ORDER[..5], 5)
  {
    DropIsWritten();
    DisorderedEntries();
    DisorderedStep(UntilDropped(), 3, 5_000);
    DisorderedStep(UntilDropped() + Reserving(3, 5_000), 4, 5_000);
  }

  /** A caller whose clock is ahead drops the entity early; two behind it reserve in the first window again. */
  lemma RunsExceedBoundOutOfOrder()
    ensures var log := Run(Pair(), Disordered()).log;
            log == OUT_OF_ORDER && NoResets(log) && |WindowOf(Pair(), log, 0)| > 2 * Pair().maxAttempts - 1
  {
    DisorderedWrites();
    assert OUT_OF_ORDER[..5] == OUT_OF_ORDER;
    SlidingBoundNeedsOrder();
  }
}
