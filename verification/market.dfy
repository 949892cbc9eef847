/**
  Market snapshots, the strategy and line tables, execution-cost models and the choice of
  instruments (scripts/mosaic_murmurs_paper_engine.py:28-171, 584-709, 767-781, 1140-1194).
 */
module Market {
  import opened Wrappers
  import opened Money

  datatype Kind = Crypto | Equity | Prediction

  /** Basis points of each cost component, after defaults have been filled in. */
  datatype CostModel = CostModel(fee: real, halfSpread: real, slippage: real, impact: real, latency: real)

  const MAX_BPS := 1_000.0
  const BPS := 10_000.0

  predicate ValidCosts(m: CostModel) {
    && 0.0 <= m.fee <= MAX_BPS && 0.0 <= m.halfSpread <= MAX_BPS && 0.0 <= m.slippage <= MAX_BPS
    && 0.0 <= m.impact <= MAX_BPS && 0.0 <= m.latency <= MAX_BPS
  }

  function AdverseBps(m: CostModel): real { m.halfSpread + m.slippage + m.impact + m.latency }

  /** `recent` stands for the age and provenance tests of instrument_fresh. */
  datatype Instrument = Instrument(
    ref: nat, kind: Kind, symbol: string, mark: real, settled: bool, recent: bool, costs: CostModel,
    tags: set<Strategy>, marketId: Option<nat>, outcome: string, score: real, liquidity: real)

  predicate DistinctRefs(s: seq<Instrument>) {
    forall i, j :: 0 <= i < j < |s| ==> s[i].ref != s[j].ref
  }

  /** The snapshot index: one instrument for each reference, in order. */
  type Snapshot = s: seq<Instrument> | DistinctRefs(s) witness []

  const ONE_DOLLAR := 100.0

  predicate IsFresh(i: Instrument) {
    && i.recent && ValidCosts(i.costs)
    && (if i.kind.Prediction? then
          0.0 <= i.mark <= ONE_DOLLAR && (i.settled <==> i.mark == 0.0 || i.mark == ONE_DOLLAR)
        else !i.settled && i.mark > 0.0)
  }

  function Lookup(m: seq<Instrument>, ref: nat): (r: Option<Instrument>)
    ensures r.Some? ==> r.value in m && r.value.ref == ref
    ensures r.None? ==> forall i :: i in m ==> i.ref != ref
  {
    if m == [] then None else if m[0].ref == ref then Some(m[0]) else Lookup(m[1..], ref)
  }

  // ----- Strategies and lines -----

  datatype Strategy =
    | PredictionMarkets | CryptoMomentum | EquityWatch | LocalEventWatch | AiCyberWatch
    | CrossAssetMomentum | ContrarianReversion | VolatilityBarbell

  datatype Mode = PredictionEdge | Momentum | Reversion | Barbell

  datatype Line = Standard | Aggressive | HyperAggressive

  datatype Profile = Profile(targetGross: real, maxPosition: real, targetCount: nat, minimumOrder: int, maximumOrder: int)

  function ProfileOf(l: Line): Profile {
    match l
    case Standard => Profile(0.80, 0.40, 3, 4_000, 200_000)
    case Aggressive => Profile(0.95, 0.65, 2, 2_000, 200_000)
    case HyperAggressive => Profile(1.0, 1.0, 1, 500, 200_000)
  }

  function ModeOf(s: Strategy): Mode {
    match s
    case PredictionMarkets => PredictionEdge
    case ContrarianReversion => Reversion
    case VolatilityBarbell => Barbell
    case _ => Momentum
  }

  function KindsOf(s: Strategy): set<Kind> {
    match s
    case PredictionMarkets => {Prediction}
    case CryptoMomentum => {Crypto}
    case EquityWatch => {Equity}
    case LocalEventWatch => {Equity}
    case AiCyberWatch => {Equity}
    case _ => {Crypto, Equity}
  }

  function SeedSymbols(s: Strategy): seq<string> {
    match s
    case PredictionMarkets => []
    case CryptoMomentum => ["BTC", "ETH", "SOL"]
    case EquityWatch => ["SPY", "QQQ", "MSFT"]
    case LocalEventWatch => ["MSFT", "AMZN", "COST", "SBUX", "BA"]
    case AiCyberWatch => ["HACK", "CIBR", "AIQ"]
    case CrossAssetMomentum => ["BTC", "QQQ", "AIQ"]
    case ContrarianReversion => ["ETH", "AMZN", "CIBR"]
    case VolatilityBarbell => ["SPY", "SOL", "AIQ"]
  }

  predicate EligibleFor(s: Strategy, i: Instrument) {
    !i.settled && s in i.tags && i.kind in KindsOf(s)
  }

  // ----- Seed instruments -----

  function FirstSeed(s: Strategy, m: seq<Instrument>, symbol: string): Option<Instrument> {
    if m == [] then None
    else if m[0].symbol == symbol && EligibleFor(s, m[0]) then Some(m[0])
    else FirstSeed(s, m[1..], symbol)
  }

  /** One fresh instrument for each symbol, or nothing when any is missing or stale. */
  function SeedsBySymbol(s: Strategy, m: seq<Instrument>, symbols: seq<string>): Option<seq<Instrument>> {
    if symbols == [] then Some([])
    else
      var first := FirstSeed(s, m, symbols[0]);
      var rest := SeedsBySymbol(s, m, symbols[1..]);
      if first.None? || !IsFresh(first.value) || rest.None? then None else Some([first.value] + rest.value)
  }

  function Outcomes(s: Strategy, m: seq<Instrument>, marketId: nat): seq<Instrument> {
    if m == [] then []
    else (if EligibleFor(s, m[0]) && m[0].marketId == Some(marketId) then [m[0]] else []) + Outcomes(s, m[1..], marketId)
  }

  function WithOutcome(items: seq<Instrument>, name: string): Option<Instrument> {
    if items == [] then None else if items[0].outcome == name then Some(items[0]) else WithOutcome(items[1..], name)
  }

  predicate Binary(items: seq<Instrument>) {
    && WithOutcome(items, "YES").Some? && WithOutcome(items, "NO").Some?
    && forall i :: i in items ==> IsFresh(i)
  }

  function BestLiquidity(items: seq<Instrument>): real
    requires items != []
  {
    if |items| == 1 then items[0].liquidity else MaxReal(items[0].liquidity, BestLiquidity(items[1..]))
  }

  /** The most liquid binary market among those of the instruments in `rest`, the first one on ties. */
  function BestMarket(s: Strategy, m: seq<Instrument>, rest: seq<Instrument>): Option<seq<Instrument>>
    ensures BestMarket(s, m, rest).Some? ==> BestMarket(s, m, rest).value != [] && Binary(BestMarket(s, m, rest).value)
    decreases |rest|
  {
    if rest == [] then None
    else
      var later := BestMarket(s, m, rest[1..]);
      var here := if rest[0].marketId.Some? then Outcomes(s, m, rest[0].marketId.value) else [];
      if !EligibleFor(s, rest[0]) || here == [] || !Binary(here) then later
      else if later.Some? && BestLiquidity(later.value) > BestLiquidity(here) then later
      else Some(here)
  }

  function SeedInstruments(s: Strategy, m: seq<Instrument>): Option<seq<Instrument>> {
    if s.PredictionMarkets? then
      match BestMarket(s, m, m)
      case None => None
      case Some(items) => Some([WithOutcome(items, "YES").value, WithOutcome(items, "NO").value])
    else SeedsBySymbol(s, m, SeedSymbols(s))
  }
}
