/**
  A paper book updated in place, as process_tick updates it
  (scripts/mosaic_murmurs_paper_engine.py:640-658, 828-1062, 1078-1137, 1231-1303, 1366-1415).  Each
  method is proved against the function of Engine that specifies it.  An operation that raises reports
  so; its tick is abandoned and the stored book kept.
 */
module PaperBooks {
  import opened Wrappers
  import opened Money
  import opened Market
  import opened Selection
  import opened Engine
  import opened BookOrders

  /** The trades done so far, followed by those of the rest. */
  function Following(done: Trades, rest: Option<Trades>): Option<Trades> {
    if rest.None? then None else Some(Joined(done, rest.value))
  }

  lemma FollowingNothing(b: Book, rest: Option<Trades>)
    ensures Following(Trades(b, [], []), rest) == rest
  {
    if rest.Some? { assert [] + rest.value.fills == rest.value.fills && [] + rest.value.decisions == rest.value.decisions; }
  }

  lemma FollowingJoined(done: Trades, next: Trades, rest: Option<Trades>)
    ensures Following(done, Following(next, rest)) == Following(Joined(done, next), rest)
  {
    if rest.Some? {
      assert done.fills + (next.fills + rest.value.fills) == done.fills + next.fills + rest.value.fills;
      assert done.decisions + (next.decisions + rest.value.decisions) == done.decisions + next.decisions + rest.value.decisions;
    }
  }

  lemma {:induction false} AllocationGrows(selected: seq<Instrument>, shares: seq<int>, k: nat, ref: nat)
    requires |selected| == |shares| && k < |selected| && DistinctRefs(selected)
    ensures AllocationFor(selected[..k + 1], shares[..k + 1], ref)
         == if ref == selected[k].ref then shares[k] else AllocationFor(selected[..k], shares[..k], ref)
    decreases k
  {
    if k > 0 {
      AllocationGrows(selected[1..], shares[1..], k - 1, ref);
      assert selected[..k + 1][1..] == selected[1..][..k] && selected[..k][1..] == selected[1..][..k - 1];
      assert shares[..k + 1][1..] == shares[1..][..k] && shares[..k][1..] == shares[1..][..k - 1];
    }
  }

  lemma GrossTargetNonNegative(b: Book)
    requires EquityOf(b) >= 0
    ensures GrossTarget(b) >= 0
  {
    RoundMonotone(0.0, EquityOf(b) as real * ProfileOf(b.line).targetGross);
  }

  function OfSide(order: Option<Order>, side: Side): seq<Order> {
    if order.Some? && order.value.side == side then [order.value] else []
  }

  lemma OrdersForStep(b: Book, m: Snapshot, targets: map<nat, int>, refs: seq<nat>, k: nat, side: Side, done: seq<Order>)
    requires k < |refs|
    ensures done + OrdersFor(b, m, targets, refs[k..], side)
         == done + OfSide(OrderFor(b, m, targets, refs[k]), side) + OrdersFor(b, m, targets, refs[k + 1..], side)
  {
    assert refs[k..][0] == refs[k] && refs[k..][1..] == refs[k + 1..];
  }

  method AssignTargets(selected: seq<Instrument>, shares: seq<int>, refs: seq<nat>) returns (targets: map<nat, int>)
    requires |selected| == |shares| && DistinctRefs(selected)
    ensures targets.Keys == set r | r in refs
    ensures forall r :: r in refs ==> targets[r] == AllocationFor(selected, shares, r)
  {
    targets := map r | r in refs :: 0;
    for k := 0 to |selected|
      invariant targets.Keys == set r | r in refs
      invariant forall r :: r in refs ==> targets[r] == AllocationFor(selected[..k], shares[..k], r)
    {
      forall r: nat {
        AllocationGrows(selected, shares, k, r);
      }
      if selected[k].ref in targets {
        targets := targets[selected[k].ref := shares[k]];
      }
    }
    assert selected[..|selected|] == selected && shares[..|selected|] == shares;
  }

  class PaperBook {
    const line: Line
    const strategy: Strategy
    var cash: int
    var positions: seq<Position>
    var realized: int
    var counters: Counters
    var equity: int
    var highWater: int
    var maxDrawdown: int
    var seeded: bool
    var postmortem: bool

    function Value(): Book
      reads this
    {
      Book(line, strategy, cash, positions, realized, counters, equity, highWater, maxDrawdown, seeded, postmortem)
    }

    constructor (line: Line, strategy: Strategy)
      ensures this.line == line && this.strategy == strategy && Value() == NewBook(line, strategy)
    {
      this.line := line;
      this.strategy := strategy;
      cash := STARTING_CASH;
      positions := [];
      realized := 0;
      counters := AllCounters(0);
      equity := STARTING_CASH;
      highWater := STARTING_CASH;
      maxDrawdown := 0;
      seeded := false;
      postmortem := false;
    }

    // ----- Marks -----

    method MarkBook(m: Snapshot)
      modifies this`positions
      ensures positions == MarkAll(old(positions), m)
    {
      for k := 0 to |positions|
        invariant |positions| == |old(positions)|
        invariant forall j :: 0 <= j < k ==> positions[j] == MarkPosition(old(positions)[j], m)
        invariant forall j :: k <= j < |positions| ==> positions[j] == old(positions)[j]
      {
        var p := positions[k];
        var quote := Lookup(m, p.ref);
        var trusted := quote.Some? && SameInstrument(p, quote.value) && IsFresh(quote.value);
        positions := positions[k := if trusted then p.(mark := quote.value.mark, current := true) else p.(current := false)];
      }
    }

    // ----- Trades -----

    method RecordExecutionCosts(c: Engine.Costs)
      modifies this`counters
      ensures counters == RecordCosts(old(counters), c)
    {
      counters := counters.(fees := counters.fees + c.fee, spread := counters.spread + c.spread,
                            slippage := counters.slippage + c.slippage, impact := counters.impact + c.impact,
                            latency := counters.latency + c.latency, total := counters.total + c.total);
      counters := counters.(turnover := counters.turnover + c.gross);
    }

    /** None when the source divides by zero. */
    method ExecuteBuy(i: Instrument, notional: int) returns (fill: Option<Fill>)
      requires i.mark > 0.0 && ValidCosts(i.costs)
      modifies this
      ensures match Engine.ExecuteBuy(old(Value()), i, notional)
              case None => fill.None?
              case Some(x) => fill == Some(x.fill) && Value() == x.book
    {
      var before := cash;
      var gross := BuyGross(i, notional);
      var costs := Breakdown(i, gross, Buy);
      var quantity := BuyQuantity(i, notional);
      var outlay := Paid(i, gross, costs);
      var k := Find(positions, i.ref);
      var p := Bought(if k.Some? then Some(positions[k.value]) else None, i, quantity, outlay);
      if p.None? {
        return None;
      }
      positions := if k.Some? then positions[k.value := p.value] else positions + [p.value];
      cash := before - outlay;
      RecordExecutionCosts(costs);
      fill := Some(Fill(i.ref, Buy, false, quantity, costs, 0, before, cash));
    }

    /** None when nothing is held to sell. */
    method ExecuteSell(i: Instrument, notional: nat, settlement: bool) returns (fill: Option<Fill>)
      modifies this
      ensures match Engine.ExecuteSell(old(Value()), i, notional, settlement)
              case None => fill.None? && Value() == old(Value())
              case Some(x) => fill == Some(x.fill) && Value() == x.book
    {
      var k := Find(positions, i.ref);
      if k.None? {
        return None;
      }
      var p := positions[k.value];
      var quantity := SellQuantity(p, i, notional, settlement);
      if quantity <= 0.0 || p.quantity <= 0.0 {
        return None;
      }
      fill := SellPosition(k.value, i, quantity, settlement);
    }

    /** Books a sale: the cash, the result, the costs, and what is left of the position. */
    method BookSale(k: nat, left: Position, net: int, gain: int, costs: Engine.Costs, settlement: bool)
      requires k < |positions|
      modifies this
      ensures Value() == old(Value()).(cash := old(cash) + net, realized := old(realized) + gain,
                                       counters := if settlement then old(counters) else RecordCosts(old(counters), costs),
                                       positions := if left.quantity <= DUST then old(positions)[..k] + old(positions)[k + 1..]
                                                    else old(positions)[k := left])
    {
      cash := cash + net;
      realized := realized + gain;
      if !settlement {
        RecordExecutionCosts(costs);
      }
      if left.quantity <= DUST {
        positions := positions[..k] + positions[k + 1..];
      } else {
        positions := positions[k := left];
      }
    }

    method SellPosition(k: nat, i: Instrument, quantity: real, settlement: bool) returns (fill: Option<Fill>)
      requires k < |positions| && positions[k].quantity > 0.0
      modifies this
      ensures var x := Sold(old(Value()), k, i, quantity, settlement); fill == Some(x.fill) && Value() == x.book
    {
      var p := positions[k];
      var before := cash;
      var proceeds := Proceeds(i, quantity, settlement);
      var costs := SellCosts(i, proceeds, settlement);
      var net := NetProceeds(i, proceeds, costs, settlement);
      var gain := Round(net as real - BasisSold(p, i, quantity));
      var remaining := MaxReal(0.0, p.quantity - quantity);
      BookSale(k, p.(quantity := remaining, costBasis := BasisKept(p, i, remaining), mark := i.mark), net, gain, costs, settlement);
      fill := Some(Fill(i.ref, Sell, settlement, quantity, costs, gain, before, cash));
    }

    /** Every held prediction whose quote is explicitly settled and fresh is closed at that quote. */
    method SettleTerminalPositions(m: Snapshot) returns (fills: seq<Fill>, decisions: seq<Decision>)
      modifies this
      ensures Trades(Value(), fills, decisions) == SettleBook(old(Value()), m)
    {
      fills, decisions := [], [];
      if postmortem {
        return;
      }
      ghost var start := Value();
      var listed := positions;
      for k := 0 to |listed|
        invariant Settle(start, m, listed) == Joined(Trades(Value(), fills, decisions), Settle(Value(), m, listed[k..]))
      {
        var quote := Lookup(m, listed[k].ref);
        ghost var rest := Settle(Value(), m, listed[k..]);
        assert listed[k..][0] == listed[k] && listed[k..][1..] == listed[k + 1..];
        if SettlesAt(listed[k], quote) {
          var fill := ExecuteSell(quote.value, 0, true);
          if fill.Some? {
            fills := fills + [fill.value];
            decisions := decisions + [Decision(PaperSell, Some(listed[k].ref))];
          }
        }
      }
      assert fills + [] == fills && decisions + [] == decisions;
    }

    // ----- Orders -----

    /** Checks and executes one order. */
    method PlaceOrder(o: Order, clamped: bool) returns (raised: bool, fills: seq<Fill>, decision: Decision)
      modifies this
      ensures match Place(old(Value()), o, clamped)
              case None => raised
              case Some(t) => !raised && t == Trades(Value(), fills, [decision])
    {
      raised, fills, decision := false, [], Decision(Avoid, Some(o.instrument.ref));
      if o.side.Sell? {
        if RiskPassed(Value(), Sell, o.notional, o.instrument) {
          decision := Decision(PaperSell, Some(o.instrument.ref));
          var fill := ExecuteSell(o.instrument, o.notional, false);
          fills := if fill.Some? then [fill.value] else [];
        }
      } else if clamped && !ValidCosts(o.instrument.costs) {
        raised := true;
      } else {
        var notional := if clamped then Min(o.notional, Affordable(cash, o.instrument.costs)) else o.notional;
        if RiskPassed(Value(), Buy, notional, o.instrument) {
          decision := Decision(PaperBuy, Some(o.instrument.ref));
          var fill := ExecuteBuy(o.instrument, notional);
          raised := fill.None?;
          fills := if fill.Some? then [fill.value] else [];
        }
      }
    }

    method PlaceOrders(orders: seq<Order>, clamped: bool) returns (raised: bool, fills: seq<Fill>, decisions: seq<Decision>)
      modifies this
      ensures match RunOrders(old(Value()), orders, clamped)
              case None => raised
              case Some(t) => !raised && t == Trades(Value(), fills, decisions)
    {
      raised, fills, decisions := false, [], [];
      ghost var start := Value();
      FollowingNothing(start, RunOrders(start, orders, clamped));
      assert orders[0..] == orders;
      var k := 0;
      while k < |orders| && !raised
        invariant k <= |orders|
        invariant raised ==> RunOrders(start, orders, clamped) == None
        invariant !raised ==> RunOrders(start, orders, clamped)
                                == Following(Trades(Value(), fills, decisions), RunOrders(Value(), orders[k..], clamped))
        decreases |orders| - k, !raised
      {
        ghost var done := Trades(Value(), fills, decisions);
        ghost var placed := Place(Value(), orders[k], clamped);
        assert orders[k..][0] == orders[k] && orders[k..][1..] == orders[k + 1..];
        ghost var all := RunOrders(Value(), orders[k..], clamped);
        assert all == if placed.None? then None else Following(placed.value, RunOrders(placed.value.book, orders[k + 1..], clamped));
        var some, decision;
        raised, some, decision := PlaceOrder(orders[k], clamped);
        if !raised {
          FollowingJoined(done, placed.value, RunOrders(Value(), orders[k + 1..], clamped));
          fills := fills + some;
          decisions := decisions + [decision];
          k := k + 1;
        }
      }
      assert !raised ==> orders[k..] == [] && fills + [] == fills && decisions + [] == decisions;
    }

    // ----- Targets -----

    /** Market value of the open positions. */
    method GrossExposure() returns (gross: int)
      ensures gross == Exposure(positions)
    {
      gross := 0;
      for k := 0 to |positions|
        invariant gross == Exposure(positions[..k])
      {
        var p := positions[k];
        assert positions[..k + 1][..k] == positions[..k];
        if p.quantity > 0.0 {
          var value := ValueOf(p);
          gross := gross + if value < 0 then -value else value;
        }
      }
      assert positions[..|positions|] == positions;
    }

    method TargetNotionals(m: Snapshot, refs: seq<nat>) returns (targets: map<nat, int>)
      requires EquityOf(Value()) > CRASH_EQUITY
      ensures targets == Targets(Value(), m, refs)
    {
      var gross, cap := GrossTarget(Value()), PositionCap(Value());
      var selected := Selected(Value(), m);
      GrossTargetNonNegative(Value());
      DistinctTargets(strategy, m, ModeOf(strategy), ProfileOf(line).targetCount);
      var shares := Allocations(gross, cap, |selected|);
      targets := AssignTargets(selected, shares, refs);
    }

    /** The order that moves one holding to its target, if the change is large enough. */
    method OrderTowards(m: Snapshot, targets: map<nat, int>, ref: nat) returns (order: Option<Order>)
      requires ref in targets
      ensures order == OrderFor(Value(), m, targets, ref)
    {
      var profile := ProfileOf(line);
      var quote := Lookup(m, ref);
      var delta := targets[ref] - HeldValue(positions, ref);
      var size := if delta < 0 then -delta else delta;
      if quote.None? || size < profile.minimumOrder {
        order := None;
      } else {
        order := Some(Order(if delta < 0 then Sell else Buy, quote.value, Min(size, profile.maximumOrder)));
      }
    }

    method OrdersTowards(m: Snapshot, refs: seq<nat>, targets: map<nat, int>) returns (orders: seq<Order>)
      requires forall r :: r in refs ==> r in targets
      ensures orders == OrdersFor(Value(), m, targets, refs, Sell) + OrdersFor(Value(), m, targets, refs, Buy)
    {
      var sells, buys := [], [];
      for k := 0 to |refs|
        invariant sells + OrdersFor(Value(), m, targets, refs[k..], Sell) == OrdersFor(Value(), m, targets, refs, Sell)
        invariant buys + OrdersFor(Value(), m, targets, refs[k..], Buy) == OrdersFor(Value(), m, targets, refs, Buy)
      {
        var order := OrderTowards(m, targets, refs[k]);
        OrdersForStep(Value(), m, targets, refs, k, Sell, sells);
        OrdersForStep(Value(), m, targets, refs, k, Buy, buys);
        sells := sells + OfSide(order, Sell);
        buys := buys + OfSide(order, Buy);
      }
      orders := sells + buys;
    }

    /** The orders of a rebalance: the sells, then the buys, each by reference. */
    method CollectOrders(m: Snapshot) returns (orders: seq<Order>)
      ensures orders == Orders(Value(), m)
    {
      orders := [];
      var exposure := GrossExposure();
      var eligible := Eligible(strategy, m);
      if !postmortem && cash + exposure > CRASH_EQUITY && eligible != [] {
        var refs := WithRefs(eligible, HeldRefs(positions));
        var targets := TargetNotionals(m, refs);
        orders := OrdersTowards(m, refs, targets);
      }
    }

    // ----- A tick -----

    method Rebalance(m: Snapshot) returns (raised: bool, fills: seq<Fill>, decisions: seq<Decision>)
      modifies this
      ensures match RebalanceBook(old(Value()), m)
              case None => raised
              case Some(t) => !raised && t == Trades(Value(), fills, decisions)
    {
      var orders := CollectOrders(m);
      raised, fills, decisions := PlaceOrders(orders, true);
      if !raised && decisions == [] {
        decisions := [Decision(Watch, None)];
      }
    }

    method DeployedBasis() returns (total: int)
      ensures total == BasisTotal(positions)
    {
      total := 0;
      for k := 0 to |positions|
        invariant total == BasisTotal(positions[..k])
      {
        assert positions[..k + 1][..k] == positions[..k];
        total := total + positions[k].costBasis;
      }
      assert positions[..|positions|] == positions;
    }

    method Seed(m: Snapshot) returns (raised: bool, fills: seq<Fill>, decisions: seq<Decision>)
      modifies this
      ensures match SeedBook(old(Value()), m)
              case None => raised
              case Some(t) => !raised && t == Trades(Value(), fills, decisions)
    {
      raised, fills, decisions := false, [], [];
      var deployed := DeployedBasis();
      var remaining := Max(0, SEED_CAPITAL - deployed);
      if remaining <= 1 {
        seeded := true;
        return;
      }
      var items := SeedInstruments(strategy, m);
      if items.None? {
        decisions := [Decision(Avoid, None)];
        return;
      }
      raised, fills, decisions := PlaceOrders(SeedOrders(items.value, remaining), false);
      deployed := DeployedBasis();
      seeded := deployed >= SEED_CAPITAL - 1;
    }

    method Measure()
      modifies this`equity, this`highWater, this`maxDrawdown
      ensures Value() == Measured(old(Value()))
    {
      var exposure := GrossExposure();
      var worth := cash + exposure;
      var high := Max(Max(highWater, worth), STARTING_CASH);
      var drawdown := Round((high - worth) as real / high as real * 1_000_000.0);
      equity, highWater, maxDrawdown := worth, high, Max(maxDrawdown, drawdown);
    }

    method HasStaleMark() returns (stale: bool)
      ensures stale == StaleOpenMark(positions)
    {
      stale := false;
      for k := 0 to |positions|
        invariant stale <==> exists j :: 0 <= j < k && positions[j].quantity > 0.0 && !positions[j].current
      {
        stale := stale || (positions[k].quantity > 0.0 && !positions[k].current);
      }
    }

    method ActOn(m: Snapshot) returns (raised: bool, events: seq<Event>, decisions: seq<Decision>)
      modifies this
      ensures match Act(old(Value()), m)
              case None => raised
              case Some(t) => !raised && t == Ticked(Value(), events, decisions)
    {
      raised, events, decisions := false, [], [];
      var stale := HasStaleMark();
      if postmortem || equity <= CRASH_EQUITY {
        events := if postmortem then [] else [BookCrashed(equity)];
        decisions := [Decision(PostmortemRequired, None)];
        postmortem := true;
      } else if stale {
        decisions := [Decision(Avoid, None)];
      } else {
        var fills;
        if seeded {
          raised, fills, decisions := Rebalance(m);
        } else {
          raised, fills, decisions := Seed(m);
        }
        events := FillEvents(fills);
      }
    }

    /** One tick of this book. */
    method ProcessTick(m: Snapshot) returns (raised: bool, events: seq<Event>, decisions: seq<Decision>)
      modifies this
      ensures match Tick(old(Value()), m)
              case None => raised
              case Some(t) => !raised && t == Ticked(Value(), events, decisions)
    {
      MarkBook(m);
      var fills, settlements := SettleTerminalPositions(m);
      Measure();
      raised, events, decisions := ActOn(m);
      if !raised {
        Measure();
        events := FillEvents(fills) + events + [Marked(equity)];
        decisions := settlements + decisions;
      }
    }
  }
}
