/**
  The identities a tick gives its decisions and events: a prefix and the digest of parts joined by a
  separator (scripts/mosaic_murmurs_paper_engine.py:202-204, 736-741, 888-891, 975-978, 1331-1353).
  Digests are ideal: injective, and made of ordinary characters.  The identities of one tick over all
  books are pairwise distinct, so the uniqueness checks of the paper state accept them
  (scripts/mosaic_murmurs_paper_sync.py:162-166, 338-339).
 */
module Identities {
  import opened Wrappers
  import opened Market
  import opened Engine
  import opened Accounting
  import opened BookOrders
  import opened BookTick
  import opened TickTrades

  const SEPARATOR := '\U{001F}'

  type Digest = string -> string

  ghost predicate Ideal(digest: Digest) {
    && (forall x, y :: digest(x) == digest(y) ==> x == y)
    && (forall x :: Plain(digest(x)))
  }

  predicate Plain(s: string) { SEPARATOR !in s }

  predicate AllPlain(parts: seq<string>) { forall p :: p in parts ==> Plain(p) }

  function Join(parts: seq<string>): string {
    if parts == [] then "" else if |parts| == 1 then parts[0] else parts[0] + [SEPARATOR] + Join(parts[1..])
  }

  lemma SameHead(a: string, b: string, s: string, t: string)
    requires Plain(a) && Plain(b) && a + [SEPARATOR] + s == b + [SEPARATOR] + t
    ensures a == b && s == t
  {
    var x := a + [SEPARATOR] + s;
    assert x[|a|] == SEPARATOR && x[|b|] == SEPARATOR;
    assert forall k :: 0 <= k < |a| ==> x[k] == a[k] && a[k] in a;
    assert forall k :: 0 <= k < |b| ==> x[k] == b[k] && b[k] in b;
    assert |a| == |b|;
    assert a == x[..|a|] && s == x[|a| + 1..];
    assert b == x[..|b|] && t == x[|b| + 1..];
  }

  lemma {:induction false} JoinHasSeparator(parts: seq<string>)
    requires |parts| >= 2
    ensures SEPARATOR in Join(parts)
  {
    assert Join(parts)[|parts[0]|] == SEPARATOR;
  }

  /** Joining loses nothing when no part contains the separator. */
  lemma {:induction false} JoinIsInjective(a: seq<string>, b: seq<string>)
    requires a != [] && b != [] && AllPlain(a) && AllPlain(b) && Join(a) == Join(b)
    ensures a == b
  {
    if |a| == 1 || |b| == 1 {
      if |a| >= 2 { JoinHasSeparator(a); }
      if |b| >= 2 { JoinHasSeparator(b); }
      assert a[0] in a && b[0] in b;
      assert |a| == 1 && |b| == 1;
    } else {
      assert a[0] in a && b[0] in b;
      SameHead(a[0], b[0], Join(a[1..]), Join(b[1..]));
      JoinIsInjective(a[1..], b[1..]);
      assert a == [a[0]] + a[1..] && b == [b[0]] + b[1..];
    }
  }

  function StableId(digest: Digest, prefix: string, parts: seq<string>): string {
    prefix + "_" + digest(Join(parts))
  }

  lemma StableIdIsInjective(digest: Digest, prefix: string, a: seq<string>, b: seq<string>)
    requires Ideal(digest) && a != [] && b != [] && AllPlain(a) && AllPlain(b)
    requires StableId(digest, prefix, a) == StableId(digest, prefix, b)
    ensures a == b
  {
    var x := StableId(digest, prefix, a);
    assert x[|prefix| + 1..] == digest(Join(a));
    assert x[|prefix| + 1..] == digest(Join(b));
    JoinIsInjective(a, b);
  }

  // ----- Names -----

  function LineId(l: Line): string {
    match l case Standard => "standard" case Aggressive => "aggressive" case HyperAggressive => "hyper_aggressive"
  }

  function StrategyId(s: Strategy): string {
    match s
    case PredictionMarkets => "prediction_markets"
    case CryptoMomentum => "crypto"
    case EquityWatch => "equity_watch"
    case LocalEventWatch => "local_event_watch"
    case AiCyberWatch => "ai_cyber_watch"
    case CrossAssetMomentum => "cross_asset_momentum"
    case ContrarianReversion => "contrarian_reversion"
    case VolatilityBarbell => "volatility_barbell"
  }

  function BookId(l: Line, s: Strategy): string { LineId(l) + "__" + StrategyId(s) }

  function ActionName(v: Verdict): string {
    match v
    case PaperBuy => "PAPER_BUY"
    case PaperSell => "PAPER_SELL"
    case Avoid => "AVOID"
    case Watch => "WATCH"
    case PostmortemRequired => "POSTMORTEM_REQUIRED"
  }

  lemma ActionNamesDiffer(v: Verdict, w: Verdict)
    requires ActionName(v) == ActionName(w)
    ensures v == w
  {
    var a, b := ActionName(v), ActionName(w);
    assert a[0] == b[0] && |a| == |b|;
  }

  lemma ActionNamesPlain(v: Verdict)
    ensures Plain(ActionName(v)) && Plain("fill") && Plain("mark") && Plain("crash")
  {}

  lemma StrategyIdsDiffer(s: Strategy, t: Strategy)
    requires StrategyId(s) == StrategyId(t)
    ensures s == t
  {
    var a, b := StrategyId(s), StrategyId(t);
    assert |a| == |b| && a[0] == b[0];
    assert a[1] == b[1];
  }

  lemma BookIdsDiffer(l: Line, s: Strategy, k: Line, t: Strategy)
    requires BookId(l, s) == BookId(k, t)
    ensures l == k && s == t
  {
    var x := BookId(l, s);
    assert x[0] == LineId(l)[0] && x[0] == LineId(k)[0];
    assert l == k;
    assert StrategyId(s) == x[|LineId(l)| + 2..];
    assert StrategyId(t) == x[|LineId(l)| + 2..];
    StrategyIdsDiffer(s, t);
  }

  lemma BookIdsPlain(l: Line, s: Strategy)
    ensures Plain(BookId(l, s))
  {
    assert Plain(LineId(l)) && Plain("__") && Plain(StrategyId(s));
  }

  // ----- Identities -----

  /** How a tick names things: its run key and the instrument references. */
  datatype Naming = Naming(digest: Digest, run: string, refs: nat -> string)

  ghost predicate GoodNaming(n: Naming) {
    && Ideal(n.digest) && Plain(n.run)
    && (forall x: nat, y: nat :: n.refs(x) == n.refs(y) ==> x == y)
    && (forall x: nat :: Plain(n.refs(x)))
  }

  /** A digest that keeps everything and avoids the separator. */
  function Escaped(s: string): string {
    if s == "" then "" else (if s[0] == SEPARATOR then "a" else ['b', s[0]]) + Escaped(s[1..])
  }

  lemma {:induction false} EscapedIsInjective(x: string, y: string)
    requires Escaped(x) == Escaped(y)
    ensures x == y
  {
    if x != "" && y != "" {
      var a, b := Escaped(x), Escaped(y);
      assert a[0] == b[0] && (x[0] != SEPARATOR ==> a[1] == x[0]) && (y[0] != SEPARATOR ==> b[1] == y[0]);
      assert Escaped(x[1..]) == a[if x[0] == SEPARATOR then 1 else 2..];
      assert Escaped(y[1..]) == b[if y[0] == SEPARATOR then 1 else 2..];
      EscapedIsInjective(x[1..], y[1..]);
      assert x == [x[0]] + x[1..] && y == [y[0]] + y[1..];
    }
  }

  lemma {:induction false} EscapedIsPlain(s: string)
    ensures Plain(Escaped(s))
  {
    if s != "" {
      EscapedIsPlain(s[1..]);
    }
  }

  function Tally(n: nat): string { seq(n, _ => '1') }

  /** There is such a naming for every plain run key. */
  lemma NamingExists(run: string)
    requires Plain(run)
    ensures GoodNaming(Naming(Escaped, run, Tally))
  {
    forall x, y | Escaped(x) == Escaped(y) ensures x == y { EscapedIsInjective(x, y); }
    forall x ensures Plain(Escaped(x)) { EscapedIsPlain(x); }
    forall x: nat, y: nat | Tally(x) == Tally(y) ensures x == y { assert |Tally(x)| == |Tally(y)|; }
  }

  datatype Owner = Owner(line: Line, strategy: Strategy)

  function OwnerId(o: Owner): string { BookId(o.line, o.strategy) }

  function RefName(n: Naming, o: Owner, d: Decision): string {
    match d.ref case Some(r) => n.refs(r) case None => "paper_book:" + OwnerId(o)
  }

  function DecisionParts(n: Naming, o: Owner, d: Decision): seq<string> {
    [n.run, OwnerId(o), ActionName(d.verdict), RefName(n, o, d)]
  }

  function DecisionId(n: Naming, o: Owner, d: Decision): string { StableId(n.digest, "decision", DecisionParts(n, o, d)) }

  function DecisionKey(n: Naming, o: Owner, d: Decision): string { StableId(n.digest, "idem", DecisionParts(n, o, d)) }

  function EventParts(n: Naming, o: Owner, e: Event): seq<string> {
    match e
    case Filled(f) => [DecisionId(n, o, DecisionOf(f)), "fill"]
    case BookCrashed(_) => [n.run, OwnerId(o), "crash"]
    case Marked(_) => [n.run, OwnerId(o), "mark"]
  }

  function EventId(n: Naming, o: Owner, e: Event): string { StableId(n.digest, "event", EventParts(n, o, e)) }

  function EventKeyParts(n: Naming, o: Owner, e: Event): seq<string> {
    match e
    case Filled(f) => DecisionParts(n, o, DecisionOf(f))
    case BookCrashed(_) => [n.run, OwnerId(o), "crash"]
    case Marked(_) => [n.run, OwnerId(o), "mark"]
  }

  /** A fill takes over the key of its decision. */
  function EventKey(n: Naming, o: Owner, e: Event): string { StableId(n.digest, "idem", EventKeyParts(n, o, e)) }

  lemma DecisionPartsPlain(n: Naming, o: Owner, d: Decision)
    requires GoodNaming(n)
    ensures AllPlain(DecisionParts(n, o, d))
  {
    BookIdsPlain(o.line, o.strategy);
    ActionNamesPlain(d.verdict);
    assert Plain("paper_book:");
  }

  /** Two decisions share their parts only when they are about the same book, with the same verdict, and
      about the same instrument - or one is about the book and the other about an instrument. */
  lemma DecisionPartsApart(n: Naming, o: Owner, d: Decision, q: Owner, e: Decision)
    requires GoodNaming(n) && DecisionParts(n, o, d) == DecisionParts(n, q, e)
    ensures o == q && d.verdict == e.verdict && (d.ref.Some? == e.ref.Some? ==> d == e)
  {
    var a, b := DecisionParts(n, o, d), DecisionParts(n, q, e);
    assert a[1] == b[1] && a[2] == b[2] && a[3] == b[3];
    BookIdsDiffer(o.line, o.strategy, q.line, q.strategy);
    ActionNamesDiffer(d.verdict, e.verdict);
  }

  lemma DecisionIdsApart(n: Naming, prefix: string, o: Owner, d: Decision, q: Owner, e: Decision)
    requires GoodNaming(n)
    requires StableId(n.digest, prefix, DecisionParts(n, o, d)) == StableId(n.digest, prefix, DecisionParts(n, q, e))
    ensures o == q && d.verdict == e.verdict && (d.ref.Some? == e.ref.Some? ==> d == e)
  {
    DecisionPartsPlain(n, o, d);
    DecisionPartsPlain(n, q, e);
    StableIdIsInjective(n.digest, prefix, DecisionParts(n, o, d), DecisionParts(n, q, e));
    DecisionPartsApart(n, o, d, q, e);
  }

  // ----- One tick over the books -----

  /** The outcome of each book's tick; every book once. */
  predicate EachBookOnce(owners: seq<Owner>) { forall j, k :: 0 <= j < k < |owners| ==> owners[j] != owners[k] }

  /** Two items of a tick's collection, the j-th of one book and the k-th of another or the same. */
  lemma DecisionIdentitiesAreDistinct(n: Naming, owners: seq<Owner>, ticks: seq<Ticked>, x: nat, j: nat, y: nat, k: nat)
    requires GoodNaming(n) && |owners| == |ticks| && EachBookOnce(owners)
    requires forall i :: 0 <= i < |ticks| ==> TradesOnce(FillsOf(ticks[i].events), ticks[i].decisions)
    requires x < |ticks| && y < |ticks| && j < |ticks[x].decisions| && k < |ticks[y].decisions| && (x, j) != (y, k)
    ensures DecisionId(n, owners[x], ticks[x].decisions[j]) != DecisionId(n, owners[y], ticks[y].decisions[k])
    ensures DecisionKey(n, owners[x], ticks[x].decisions[j]) != DecisionKey(n, owners[y], ticks[y].decisions[k])
  {
    var d, e := ticks[x].decisions[j], ticks[y].decisions[k];
    SameTickDecisions(n, owners[x], ticks[x], j, if x == y then k else j);
    if DecisionId(n, owners[x], d) == DecisionId(n, owners[y], e) { DecisionIdsApart(n, "decision", owners[x], d, owners[y], e); }
    if DecisionKey(n, owners[x], d) == DecisionKey(n, owners[y], e) { DecisionIdsApart(n, "idem", owners[x], d, owners[y], e); }
  }

  lemma SameTickDecisions(n: Naming, o: Owner, t: Ticked, j: nat, k: nat)
    requires TradesOnce(FillsOf(t.events), t.decisions) && j < |t.decisions| && k < |t.decisions|
    ensures j != k && t.decisions[j].verdict == t.decisions[k].verdict ==>
              t.decisions[j].ref.Some? == t.decisions[k].ref.Some? && t.decisions[j] != t.decisions[k]
  {
    assert t.decisions[j] in t.decisions && t.decisions[k] in t.decisions;
  }

  // ----- Events -----

  /** At most one crash and one mark, and no instrument filled twice. */
  predicate EventsApart(d: Event, e: Event) {
    match (d, e)
    case (Filled(f), Filled(g)) => f.ref != g.ref
    case (BookCrashed(_), BookCrashed(_)) => false
    case (Marked(_), Marked(_)) => false
    case _ => true
  }

  predicate EventsOnce(events: seq<Event>) { forall j, k :: 0 <= j < k < |events| ==> EventsApart(events[j], events[k]) }

  lemma ActEvents(p: Book, m: Snapshot)
    requires Act(p, m).Some?
    ensures var e := Act(p, m).value.events; e == [BookCrashed(p.equity)] || e == FillEvents(FillsOf(e))
  {
    var e := Act(p, m).value.events;
    if e != [] && e != [BookCrashed(p.equity)] {
      FillsOfFills(if p.seeded then RebalanceBook(p, m).value.fills else SeedBook(p, m).value.fills);
    }
  }

  lemma TickEventsOnce(b: Book, m: Snapshot)
    requires Tick(b, m).Some? && DistinctFills(FillsOf(Tick(b, m).value.events))
    ensures EventsOnce(Tick(b, m).value.events)
  {
    TickFills(b, m);
    var p := Pretrade(b, m);
    ActEvents(p, m);
    var acted := Act(p, m).value;
    TickParts(b, m, acted);
    EventsInParts(Opening(b, m).fills, acted.events, p.equity, Marked(Tick(b, m).value.book.equity));
  }

  lemma EventsInParts(fills: seq<Fill>, acted: seq<Event>, equity: int, mark: Event)
    requires DistinctFills(fills + FillsOf(acted)) && mark.Marked?
    requires acted == [BookCrashed(equity)] || acted == FillEvents(FillsOf(acted))
    ensures EventsOnce(FillEvents(fills) + acted + [mark])
  {
    var all := FillEvents(fills) + acted + [mark];
    var f := fills + FillsOf(acted);
    if acted == FillEvents(FillsOf(acted)) {
      assert forall k :: 0 <= k < |f| ==> all[k] == Filled(f[k]);
    } else {
      assert FillsOf(acted) == [] + FillsOf([]);
      assert f == fills;
      assert forall k :: 0 <= k < |f| ==> all[k] == Filled(f[k]);
    }
  }

  lemma EventPartsPlain(n: Naming, o: Owner, e: Event)
    requires GoodNaming(n)
    ensures AllPlain(EventParts(n, o, e)) && AllPlain(EventKeyParts(n, o, e))
  {
    BookIdsPlain(o.line, o.strategy);
    ActionNamesPlain(Watch);
    if e.Filled? {
      DecisionPartsPlain(n, o, DecisionOf(e.fill));
      assert Plain("decision" + "_");
    }
  }

  lemma EventPartsApart(n: Naming, o: Owner, d: Event, q: Owner, e: Event)
    requires GoodNaming(n) && (EventParts(n, o, d) == EventParts(n, q, e) || EventKeyParts(n, o, d) == EventKeyParts(n, q, e))
    ensures o == q && !EventsApart(d, e)
  {
    if d.Filled? && e.Filled? {
      assert EventParts(n, o, d)[0] == EventParts(n, q, e)[0];
      DecisionIdsApart(n, "decision", o, DecisionOf(d.fill), q, DecisionOf(e.fill));
    } else {
      assert |EventParts(n, o, d)| == |EventParts(n, q, e)| || |EventKeyParts(n, o, d)| == |EventKeyParts(n, q, e)|;
      assert !d.Filled? && !e.Filled?;
      assert EventParts(n, o, d)[1] == EventParts(n, q, e)[1] && EventParts(n, o, d)[2] == EventParts(n, q, e)[2];
      BookIdsDiffer(o.line, o.strategy, q.line, q.strategy);
      assert "crash"[0] != "mark"[0];
    }
  }

  lemma EventIdentitiesAreDistinct(n: Naming, owners: seq<Owner>, ticks: seq<Ticked>, x: nat, j: nat, y: nat, k: nat)
    requires GoodNaming(n) && |owners| == |ticks| && EachBookOnce(owners)
    requires forall i :: 0 <= i < |ticks| ==> EventsOnce(ticks[i].events)
    requires x < |ticks| && y < |ticks| && j < |ticks[x].events| && k < |ticks[y].events| && (x, j) != (y, k)
    ensures EventId(n, owners[x], ticks[x].events[j]) != EventId(n, owners[y], ticks[y].events[k])
    ensures EventKey(n, owners[x], ticks[x].events[j]) != EventKey(n, owners[y], ticks[y].events[k])
  {
    var d, e := ticks[x].events[j], ticks[y].events[k];
    EventPartsPlain(n, owners[x], d);
    EventPartsPlain(n, owners[y], e);
    if EventId(n, owners[x], d) == EventId(n, owners[y], e) {
      StableIdIsInjective(n.digest, "event", EventParts(n, owners[x], d), EventParts(n, owners[y], e));
      EventPartsApart(n, owners[x], d, owners[y], e);
    }
    if EventKey(n, owners[x], d) == EventKey(n, owners[y], e) {
      StableIdIsInjective(n.digest, "idem", EventKeyParts(n, owners[x], d), EventKeyParts(n, owners[y], e));
      EventPartsApart(n, owners[x], d, owners[y], e);
    }
  }

  // ----- Every tick -----

  /** Stored books, each once, with the outcome of their ticks on one snapshot. */
  predicate TickedTogether(owners: seq<Owner>, books: seq<Book>, m: Snapshot, ticks: seq<Ticked>) {
    && |owners| == |books| == |ticks| && EachBookOnce(owners)
    && forall i :: 0 <= i < |books| ==>
         && WellKept(books[i].positions) && NonNegative(books[i].positions) && (books[i].seeded || books[i].positions == [])
         && Tick(books[i], m) == Some(ticks[i])
  }

  /** No two decisions of a tick share an identity or a key, and neither do two events. */
  lemma TickIdentitiesAreDistinct(n: Naming, owners: seq<Owner>, books: seq<Book>, m: Snapshot, ticks: seq<Ticked>, x: nat, y: nat)
    requires GoodNaming(n) && TickedTogether(owners, books, m, ticks) && x < |ticks| && y < |ticks|
    ensures forall j, k :: 0 <= j < |ticks[x].decisions| && 0 <= k < |ticks[y].decisions| && (x != y || j != k) ==>
              && DecisionId(n, owners[x], ticks[x].decisions[j]) != DecisionId(n, owners[y], ticks[y].decisions[k])
              && DecisionKey(n, owners[x], ticks[x].decisions[j]) != DecisionKey(n, owners[y], ticks[y].decisions[k])
    ensures forall j, k :: 0 <= j < |ticks[x].events| && 0 <= k < |ticks[y].events| && (x != y || j != k) ==>
              && EventId(n, owners[x], ticks[x].events[j]) != EventId(n, owners[y], ticks[y].events[k])
              && EventKey(n, owners[x], ticks[x].events[j]) != EventKey(n, owners[y], ticks[y].events[k])
  {
    forall i | 0 <= i < |ticks| ensures TradesOnce(FillsOf(ticks[i].events), ticks[i].decisions) && EventsOnce(ticks[i].events) {
      TickTradesOnce(books[i], m);
      TickEventsOnce(books[i], m);
    }
    forall j, k | 0 <= j < |ticks[x].decisions| && 0 <= k < |ticks[y].decisions| && (x != y || j != k)
      ensures DecisionId(n, owners[x], ticks[x].decisions[j]) != DecisionId(n, owners[y], ticks[y].decisions[k])
           && DecisionKey(n, owners[x], ticks[x].decisions[j]) != DecisionKey(n, owners[y], ticks[y].decisions[k])
    {
      DecisionIdentitiesAreDistinct(n, owners, ticks, x, j, y, k);
    }
    forall j, k | 0 <= j < |ticks[x].events| && 0 <= k < |ticks[y].events| && (x != y || j != k)
      ensures EventId(n, owners[x], ticks[x].events[j]) != EventId(n, owners[y], ticks[y].events[k])
           && EventKey(n, owners[x], ticks[x].events[j]) != EventKey(n, owners[y], ticks[y].events[k])
    {
      EventIdentitiesAreDistinct(n, owners, ticks, x, j, y, k);
    }
  }
}
