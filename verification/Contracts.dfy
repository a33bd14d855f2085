/** The records of `kairos_core` that the risk manager reads and writes.

    A SHA-256 identity is modelled by the content it hashes: an intent, review,
    decision, snapshot or measurement identity is the record itself, so two
    records share an identity exactly when their contents agree.  Floats are
    reals; only the sign constraints of the records are kept. */
module Contracts {
  import opened Common

  type NonNeg = r: real | r >= 0.0 witness 0.0
  type Pos = r: real | r > 0.0 witness 1.0

  datatype Side = Long | Short
  datatype OrderRole = EntryOrder | ProtectiveOrder
  datatype TradingMode = DryRunMode | PaperMode | LiveMode
  datatype Profile = Dev | Demo | Prod
  datatype SystemMode = Normal | TextLocalFilter | ConflictSafe | LocalQuantMode
  datatype Verdict = Allow | Veto | Defer
  datatype Regime = Bull | Bear | Chop | OtherRegime

  datatype ExitPlan = ExitPlan(stopPrice: Pos, targetPrice: Pos, maxHoldingMs: int)

  datatype Evidence = Evidence(kind: string, reference: string, contentSha256: string, observedAtMs: int)

  /** An intent's metadata dictionary: a record when its key set is exactly the one a
      technical canary carries, otherwise a dictionary no canary check accepts.
      `ruleTexts` holds the decimal fields, in the order of the source's list. */
  datatype Metadata =
    | OtherMetadata
    | CanaryMetadata(
        accountId: string, alphaClaim: string, entryOrder: string, entryPolicy: string, purpose: string,
        venueSymbol: string, trading: string, marketState: string, updatedAt: string,
        ruleTexts: seq<string>, rulesSha: string, quantity: string)

  datatype Intent = Intent(
    strategyId: string, strategyRevision: string, symbol: string, side: Side,
    decisionTsMs: int, entryEligibleTsMs: int, entryExpiresTsMs: int,
    exitPlan: ExitPlan, observedSim: bool,
    metadata: Metadata, evidence: seq<Evidence>)

  datatype Review = Review(intent: Intent, routeIntent: Intent, verdict: Verdict, reviewedAtMs: int)

  datatype Venue = Venue(
    profile: Profile, symbol: string, observedAtMs: int, expiresAtMs: int,
    bestBid: Pos, bestAsk: Pos, venueMidPrice: Pos,
    assessedNotionalUsd: NonNeg, depthUsd: NonNeg,
    buySlippageBps: NonNeg, sellSlippageBps: NonNeg, takerFeeBps: NonNeg,
    entryAllowed: bool, reasonCodes: seq<string>)

  /** `strategyWeights` is a dictionary in insertion order; `producedAtMs` is
      None for a timestamp without a time zone. */
  datatype StrategicAllocation = StrategicAllocation(
    regime: Regime, stableReservePct: real, strategyWeights: seq<(string, real)>,
    maxGrossLeverage: real, producedAtMs: Option<int>)

  /** Evidence that binds Macro capital to one intent under the adaptive policy.
      `wellFormed` stands for the contract's own validation and `acceptedBy` for
      the policies whose observation check accepts the embedded observation. */
  datatype RegimeBinding = RegimeBinding(
    wellFormed: bool, intent: Intent, acceptedBy: set<int>, policyId: int, expiresAtMs: int,
    source: string, accountId: string, accountCapturedAtMs: int, boundAtMs: int,
    allocation: StrategicAllocation)

  /** A trade is named by its intent, account and venue symbol. */
  datatype TradeId = TradeId(intent: Intent, accountId: string, venueSymbol: string)

  datatype Reason =
    | Admission(text: string)
    | ImmutableIntentMismatch | SimOnlyIntent | ReviewNotAllowed(verdict: Verdict)
    | StrategyNotPaperApproved | SystemModeNotNormal(mode: SystemMode)
    | DecisionClockPrecedesReview | CandidateNotYetEligible | CandidateExpired
    | UnsupportedSignalSymbol | VenueSymbolMismatch | VenueObservationFromFuture
    | VenueQualityStale | VenueEntryBlocked | VenueReported(code: string)
    | AccountSnapshotMissing | AccountEnvironmentMismatch | AccountIdMismatch
    | AccountNotReconciled | AccountSequenceInvalid | AccountSnapshotFromFuture
    | AccountSnapshotStale | SymbolHasReservedIdea | SymbolHasActivePosition
    | SymbolHasOpenOrder | GlobalCanaryIdeaLimitReached | AccountOpenRiskUnderstated
    | PortfolioOpenRiskLimitExhausted | DailyDrawdownLimitReached
    | PendingEntryOrderPresent | UnvaluedPendingEntryOrder
    | StrategicAllocationMissing | StrategicAllocationInvalid
    | StrategicAllocationNaiveTimestamp | StrategicAllocationFromFuture
    | StrategicAllocationStale | StrategyHasNoMacroAllocation | MacroRegimeChop
    | MacroRegimeForbidsLong | MacroRegimeForbidsShort
    | RegimeBindingMissing | RegimeBindingInvalid
    | LongGeometryInvalid | ShortGeometryInvalid | MacroLeverageBelowOne
    | CanaryInstrumentBindingInvalid | CanaryLeverageMustEqualOne
    | CanaryMinimumExceedsRiskCapacity | PositionCapacityExhausted
    | PositionBelowMinimumNotional | ComputedLossExceedsBudget

  datatype Cause = CausedByReview | CausedByBinding

  datatype Decision = Decision(
    review: Review, venue: Venue, approved: bool, rejectionReasons: seq<Reason>, causedBy: Cause,
    decidedAtMs: int, tradingMode: TradingMode, profile: Profile, accountId: string, venueSymbol: string,
    quantity: NonNeg, leverage: real, notionalUsd: NonNeg, lossBudgetUsd: NonNeg,
    worstCaseLossUsd: NonNeg, worstEntryPrice: Pos, estimatedFeesUsd: NonNeg, estimatedSlippageUsd: NonNeg,
    exitPlan: ExitPlan)
  {
    function Trade(): TradeId { TradeId(review.intent, accountId, venueSymbol) }
  }

  /** The lineage that an execution record carries; every field names content. */
  datatype Lineage = Lineage(
    venueSymbol: string, strategyId: string, strategyRevision: string,
    intent: Intent, riskDecision: Decision, trade: TradeId)

  datatype Position = Position(
    lineage: Lineage, side: Side, signedQuantity: real, entryPrice: real, markPrice: real, exitPlan: ExitPlan)

  datatype OpenOrder = OpenOrder(
    lineage: Lineage, role: OrderRole, quantity: real, filledQuantity: real, price: Option<real>)

  datatype Account = Account(
    tradingMode: TradingMode, profile: Profile, accountId: string,
    equityUsd: NonNeg, availableBalanceUsd: real, durableDayStartEquityUsd: Pos, durablePeakEquityUsd: Pos,
    totalOpenRiskUsd: real, dailyRealizedPnlUsd: real,
    capturedAtMs: int, reconciliationSeq: int, reconciled: bool,
    positions: seq<Position>, openOrders: seq<OpenOrder>)

  const CANARY_STRATEGY := "technical-canary"

  const REJECTED_STRATEGIES: set<string> := {
    "trend_breakout_v1", "trend_pullback_reclaim_v1", "range_mean_reversion_v1",
    "orderflow_volatility_expansion_v1", "regime_veto_retest_reclaim_v1" }

  const DEV_UNIVERSE: set<string> := { "BTCUSD:DEV", "ETHUSD:DEV", "SOLUSD:DEV", "BNBUSD:DEV", "XRPUSD:DEV" }

  /** The fixed map from a signal symbol to its DEV instrument. */
  function DevSymbol(signal: string): (r: Option<string>)
    ensures r.Some? ==> r.value in DEV_UNIVERSE
  {
    match signal
    case "BTCUSDT" => Some("BTCUSD:DEV")
    case "ETHUSDT" => Some("ETHUSD:DEV")
    case "SOLUSDT" => Some("SOLUSD:DEV")
    case "BNBUSDT" => Some("BNBUSD:DEV")
    case "XRPUSDT" => Some("XRPUSD:DEV")
    case _ => None
  }

  /** Settings of the PAPER route; the regime policy is named by a number. */
  datatype Settings = Settings(
    accountId: string, strategyAllowlist: set<string>,
    snapshotMaxAgeS: real, allocationMaxAgeS: real, maxDailyDrawdownPct: real,
    perTradeRiskFraction: Pos, maxTotalOpenRiskFraction: Pos, maxLeverage: real,
    maxPositionNotionalUsd: Pos, minNotionalUsd: Pos,
    decisionCacheSize: nat, regimePolicy: Option<int>, regimeMacroSource: string)
  {
    predicate StrategyAllowed(id: string, revision: string) {
      id !in REJECTED_STRATEGIES && id + "@" + revision in strategyAllowlist
    }
  }

  /** Which strategies and weights make an allocation unsafe to consume. */
  predicate AllocationInvalid(a: StrategicAllocation) {
    || !(0.0 <= a.stableReservePct <= 1.0)
    || a.maxGrossLeverage <= 0.0
    || (exists i | 0 <= i < |a.strategyWeights| :: !(0.0 <= a.strategyWeights[i].1 <= 1.0))
    || a.stableReservePct + WeightSum(a.strategyWeights) > 1.0001
  }

  function WeightSum(weights: seq<(string, real)>): real {
    if weights == [] then 0.0 else weights[0].1 + WeightSum(weights[1..])
  }

  /** Dictionary lookup with default zero. */
  function WeightOf(weights: seq<(string, real)>, name: string): real {
    if weights == [] then 0.0
    else if weights[0].0 == name then weights[0].1
    else WeightOf(weights[1..], name)
  }
}
