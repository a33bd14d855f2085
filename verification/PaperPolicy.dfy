/** What a PAPER approval means: exactly when one is given, and what it never exceeds. */
module PaperPolicy {
  import opened Common
  import opened Contracts
  import opened CanaryInstrument
  import opened PaperPipeline

  // ----- the admission conditions, gate by gate -----

  predicate ReviewAdmissible(cfg: Settings, x: Inputs) {
    var intent := x.review.intent;
    && x.admission == []
    && x.review.routeIntent == intent && !intent.observedSim && x.review.verdict == Allow
    && cfg.StrategyAllowed(intent.strategyId, intent.strategyRevision)
    && x.mode == Normal
    && x.review.reviewedAtMs <= x.decidedAtMs
    && intent.entryEligibleTsMs <= x.decidedAtMs <= intent.entryExpiresTsMs
  }

  predicate VenueAdmissible(x: Inputs) {
    && DevSymbol(x.review.intent.symbol) == Some(x.venue.symbol)
    && x.venue.observedAtMs <= x.decidedAtMs <= x.venue.expiresAtMs
    && x.venue.entryAllowed
  }

  predicate AccountAdmissible(cfg: Settings, x: Inputs) {
    && x.account.Some?
    && var a := x.account.value;
    && AccountStanding(cfg, a)
    && 0 <= x.decidedAtMs - a.capturedAtMs && (x.decidedAtMs - a.capturedAtMs) as real <= cfg.snapshotMaxAgeS * 1000.0
    && x.venue.symbol !in x.reservations.symbols
    && (forall p :: p in a.positions ==> p.lineage.venueSymbol != x.venue.symbol)
    && (forall o :: o in a.openOrders ==> o.lineage.venueSymbol != x.venue.symbol && !o.role.EntryOrder?)
    && (x.review.intent.strategyId == CANARY_STRATEGY ==>
          ActiveCanaryTrades(a) == {} && x.reservations.activeCanaryIdeas == 0)
    && PositionRisk(a.positions) <= a.totalOpenRiskUsd + 0.000001
    && !RiskExhausted(cfg, a, x.reservations)
    && Drawdown(a) * 100.0 < cfg.maxDailyDrawdownPct
  }

  predicate AllocationAdmissible(
    cfg: Settings, a: StrategicAllocation, strategy: string, side: Side, decidedAtMs: int, legacyRegime: bool)
  {
    && !AllocationInvalid(a)
    && a.producedAtMs.Some? && a.producedAtMs.value <= decidedAtMs
    && (decidedAtMs - a.producedAtMs.value) as real <= cfg.allocationMaxAgeS * 1000.0
    && WeightOf(a.strategyWeights, strategy) > 0.0
    && (legacyRegime ==> !a.regime.Chop? && (a.regime.Bear? ==> side.Short?) && (a.regime.Bull? ==> side.Long?))
  }

  predicate CapitalAdmissible(cfg: Settings, x: Inputs) {
    var intent := x.review.intent;
    if Adaptive(cfg, intent) then
      && x.binding.Some?
      && BindingValid(cfg, x.binding.value, intent, x.account, x.decidedAtMs)
      && AllocationAdmissible(cfg, x.binding.value.allocation, intent.strategyId, intent.side, x.decidedAtMs, false)
    else
      && x.allocation.Some?
      && AllocationAdmissible(cfg, x.allocation.value, intent.strategyId, intent.side, x.decidedAtMs, true)
  }

  predicate GeometryAdmissible(x: Inputs) {
    var plan := x.review.intent.exitPlan;
    if x.review.intent.side.Long? then plan.stopPrice < x.Entry() < plan.targetPrice
    else plan.targetPrice < x.Entry() < plan.stopPrice
  }

  predicate GatesOpen(cfg: Settings, x: Inputs) {
    && ReviewAdmissible(cfg, x)
    && VenueAdmissible(x)
    && AccountAdmissible(cfg, x)
    && CapitalAdmissible(cfg, x)
    && GeometryAdmissible(x)
  }

  lemma EmptyConcat<T>(a: seq<T>, b: seq<T>)
    ensures a + b == [] <==> a == [] && b == []
  {
    assert |a + b| == |a| + |b|;
  }

  lemma DedupEmpty(texts: seq<string>)
    ensures Dedup(texts) == [] <==> texts == []
  {
  }

  lemma ReviewGate(cfg: Settings, x: Inputs)
    ensures ReviewReasons(cfg, x.review, x.admission, x.mode, x.decidedAtMs) == [] <==> ReviewAdmissible(cfg, x)
  {
    DedupEmpty(x.admission);
    hide Dedup;
  }

  lemma VenueGate(rs: seq<Reason>, x: Inputs)
    ensures VenueReasons(rs, x.review.intent, x.venue, x.decidedAtMs) == [] <==> rs == [] && VenueAdmissible(x)
  {
    hide DevSymbol;
  }

  lemma {:induction false} OrderGate(os: seq<OpenOrder>)
    ensures OrderReasons(os) == [] <==> forall o :: o in os ==> !o.role.EntryOrder?
  {
    if os != [] {
      OrderGate(os[..|os| - 1]);
      EmptyConcat(OrderReasons(os[..|os| - 1]), ReasonsOf(os[|os| - 1]));
      assert os == os[..|os| - 1] + [os[|os| - 1]];
    }
  }

  lemma StandingGate(cfg: Settings, a: Account, decidedAtMs: int)
    ensures StandingReasons(cfg, a, decidedAtMs) == [] <==>
      && AccountStanding(cfg, a) && 0 <= decidedAtMs - a.capturedAtMs
      && (decidedAtMs - a.capturedAtMs) as real <= cfg.snapshotMaxAgeS * 1000.0
  {
  }

  lemma ConflictGate(rs: seq<Reason>, a: Account, venueSymbol: string, strategy: string, res: Reservations)
    ensures ConflictReasons(rs, a, venueSymbol, strategy, res) == [] <==>
      && rs == [] && venueSymbol !in res.symbols
      && (forall p :: p in a.positions ==> p.lineage.venueSymbol != venueSymbol)
      && (forall o :: o in a.openOrders ==> o.lineage.venueSymbol != venueSymbol)
      && (strategy == CANARY_STRATEGY ==> ActiveCanaryTrades(a) == {} && res.activeCanaryIdeas == 0)
  {
    hide ActiveCanaryTrades;
  }

  lemma AccountingGate(cfg: Settings, x: Inputs)
    ensures x.Accounting(cfg) == [] <==> AccountAdmissible(cfg, x)
  {
    if x.account.Some? {
      var a := x.account.value;
      var strategy := x.review.intent.strategyId;
      var standing := StandingReasons(cfg, a, x.decidedAtMs);
      var conflicts := ConflictReasons(standing, a, x.venue.symbol, strategy, x.reservations);
      StandingGate(cfg, a, x.decidedAtMs);
      ConflictGate(standing, a, x.venue.symbol, strategy, x.reservations);
      OrderGate(a.openOrders);
      EmptyConcat(ExposureReasons(conflicts, cfg, a, x.reservations), OrderReasons(a.openOrders));
      hide StandingReasons, ConflictReasons, ActiveCanaryTrades, PositionRisk, OrderReasons, RiskExhausted, Drawdown;
    }
  }

  lemma AllocationGateExact(
    cfg: Settings, a: StrategicAllocation, strategy: string, side: Side, decidedAtMs: int, legacyRegime: bool)
    ensures AllocationReasons(cfg, a, strategy, side, decidedAtMs, legacyRegime) == []
       <==> AllocationAdmissible(cfg, a, strategy, side, decidedAtMs, legacyRegime)
  {
    hide AllocationInvalid, WeightOf;
  }

  lemma CapitalGateExact(cfg: Settings, x: Inputs)
    ensures x.Capital(cfg).reasons == [] <==> CapitalAdmissible(cfg, x)
    ensures x.Capital(cfg).reasons == [] ==> x.Capital(cfg).metrics.Some?
  {
    var intent := x.review.intent;
    if Adaptive(cfg, intent) {
      if x.binding.Some? {
        AllocationGateExact(cfg, x.binding.value.allocation, intent.strategyId, intent.side, x.decidedAtMs, false);
      }
    } else if x.allocation.Some? {
      AllocationGateExact(cfg, x.allocation.value, intent.strategyId, intent.side, x.decidedAtMs, true);
    }
    hide AllocationReasons, AllocationAdmissible, BindingValid;
  }

  /** No gate objects exactly when every admission condition holds. */
  lemma GatesExact(cfg: Settings, x: Inputs)
    ensures GateReasons(cfg, x) == [] <==> GatesOpen(cfg, x)
  {
    var r1 := ReviewReasons(cfg, x.review, x.admission, x.mode, x.decidedAtMs);
    var r2 := VenueReasons(r1, x.review.intent, x.venue, x.decidedAtMs);
    ReviewGate(cfg, x);
    VenueGate(r1, x);
    AccountingGate(cfg, x);
    CapitalGateExact(cfg, x);
    EmptyConcat(r2, x.Accounting(cfg));
    EmptyConcat(r2 + x.Accounting(cfg), x.Capital(cfg).reasons);
    hide ReviewReasons, VenueReasons, AccountReasons, CapitalGate, ReviewAdmissible, VenueAdmissible,
         AccountAdmissible, CapitalAdmissible;
  }

  // ----- the size an admissible idea would get -----

  /** A positive budget, at least unit leverage, and a size above the minimum notional. */
  predicate SizeAdmissible(cfg: Settings, x: Inputs)
    requires x.account.Some? && x.Capital(cfg).metrics.Some?
  {
    var t := TermsOf(cfg, x);
    var chosen := ChosenQuantity(cfg, x.review.intent, x.Entry(), t.leverage, CapacityOf(cfg, x));
    && t.lossBudget > 0.0
    && AllowedLeverage(cfg, x.Capital(cfg).metrics.value) >= 1.0
    && chosen.reasons == [] && chosen.quantity > 0.0
    && chosen.quantity * x.Entry() + 0.000000001 >= cfg.minNotionalUsd
    && EconomicsAt(x, chosen.quantity).loss <= t.lossBudget + 0.000001
  }

  function EconomicsAt(x: Inputs, quantity: NonNeg): Economics {
    EconomicsOf(quantity, x.review.intent.side, x.review.intent.exitPlan.stopPrice, x.Entry(), x.venue)
  }

  lemma TermsExact(cfg: Settings, x: Inputs)
    ensures TermsOf(cfg, x).reasons == [] <==>
      && GatesOpen(cfg, x) && x.account.Some? && x.Capital(cfg).metrics.Some?
      && TermsOf(cfg, x).lossBudget > 0.0 && AllowedLeverage(cfg, x.Capital(cfg).metrics.value) >= 1.0
  {
    GatesExact(cfg, x);
    CapitalGateExact(cfg, x);
    AccountingGate(cfg, x);
    hide GateReasons, CapitalGate, AccountReasons, MetricsOf, LossBudget, AllowedLeverage,
         ReviewAdmissible, VenueAdmissible, CapitalAdmissible, GeometryAdmissible, BindingValid;
  }

  /** An approval is given exactly to an acceptable request whose gates are open and whose size fits. */
  lemma ApprovedExactly(cfg: Settings, x: Inputs)
    ensures Decide(cfg, x).Ok? && Decide(cfg, x).value.approved <==>
      && x.Acceptable() && GatesOpen(cfg, x) && x.account.Some? && x.Capital(cfg).metrics.Some?
      && SizeAdmissible(cfg, x)
  {
    TermsExact(cfg, x);
    hide GatesOpen, TermsOf, CapacityOf, EconomicsOf, ChosenQuantity, AllowedLeverage, CapitalGate;
  }

  // ----- consequences of an approval -----

  ghost predicate Approves(cfg: Settings, x: Inputs, d: Decision) {
    Decide(cfg, x) == Ok(d) && d.approved
  }

  /** What an approval records, and the size it was given. */
  lemma ApprovalRecords(cfg: Settings, x: Inputs, d: Decision)
    requires Approves(cfg, x, d)
    ensures GatesOpen(cfg, x) && x.account.Some? && x.Capital(cfg).metrics.Some?
    ensures d.review == x.review && d.venueSymbol == x.venue.symbol && d.accountId == cfg.accountId
    ensures d.tradingMode == PaperMode && d.profile == Dev
    ensures d.lossBudgetUsd == TermsOf(cfg, x).lossBudget == LossBudget(cfg, x.Measured().value, x.reservations)
    ensures d.lossBudgetUsd > 0.0
    ensures var chosen := ChosenQuantity(cfg, x.review.intent, x.Entry(), TermsOf(cfg, x).leverage, CapacityOf(cfg, x));
            chosen.reasons == [] && d.quantity == chosen.quantity
    ensures d.notionalUsd == d.quantity * x.Entry() && d.worstCaseLossUsd == EconomicsAt(x, d.quantity).loss
    ensures d.worstCaseLossUsd <= d.lossBudgetUsd + 0.000001
  {
    ApprovedExactly(cfg, x);
    hide GatesOpen, GateReasons, CapacityOf, EconomicsOf, ChosenQuantity, AllowedLeverage, CapitalGate, LossBudget, MetricsOf,
         BudgetReasons, NotionalCap, LossPerUnit;
  }

  lemma {:induction false} DedupKeeps(texts: seq<string>, text: string)
    ensures text in Dedup(texts) <==> text in texts
  {
    if texts != [] {
      DedupKeeps(texts[..|texts| - 1], text);
      assert texts == texts[..|texts| - 1] + [texts[|texts| - 1]];
    }
  }

  lemma ReviewReports(cfg: Settings, x: Inputs, text: string)
    requires text in x.admission
    ensures Admission(text) in ReviewReasons(cfg, x.review, x.admission, x.mode, x.decidedAtMs)
  {
    DedupKeeps(x.admission, text);
    hide Dedup, Settings.StrategyAllowed;
    var told := Dedup(x.admission);
    var i :| 0 <= i < |told| && told[i] == text;
    assert AdmissionReasons(told)[i] == Admission(text);
    hide AdmissionReasons;
  }

  lemma GatesReport(cfg: Settings, x: Inputs, text: string)
    requires text in x.admission
    ensures Admission(text) in GateReasons(cfg, x)
  {
    ReviewReports(cfg, x, text);
    hide ReviewReasons, DevSymbol, Inputs.Accounting, Inputs.Capital, Inputs.Entry, VenueCodes;
  }

  lemma SizingReports(cfg: Settings, x: Inputs, text: string)
    requires text in x.admission
    ensures Admission(text) in SizingOf(cfg, x).reasons
  {
    GatesReport(cfg, x, text);
    hide GateReasons, Inputs.Capital, Inputs.Measured, LossBudget, AllowedLeverage, Sized, ChosenQuantity, CapacityOf;
  }

  /** Every reason an evaluation is told is among the reasons of its rejection. */
  lemma AdmissionReported(cfg: Settings, x: Inputs, text: string)
    requires text in x.admission && Decide(cfg, x).Ok?
    ensures !Decide(cfg, x).value.approved && Admission(text) in Decide(cfg, x).value.rejectionReasons
  {
    SizingReports(cfg, x, text);
    hide SizingOf, TermsOf, Inputs.Capital, EconomicsOf, Adaptive;
  }

  /** Every decision adds up: costs follow from its own quantity and prices, a rejection costs nothing,
      and the clock never precedes the review. */
  lemma DecisionAddsUp(cfg: Settings, x: Inputs, d: Decision)
    requires Decide(cfg, x) == Ok(d)
    ensures d.approved <==> d.rejectionReasons == []
    ensures d.review == x.review && d.venue == x.venue && d.exitPlan == x.review.intent.exitPlan
    ensures d.worstEntryPrice == (if x.review.intent.side.Long? then x.venue.bestAsk else x.venue.bestBid)
    ensures d.decidedAtMs >= x.decidedAtMs && d.decidedAtMs >= x.review.reviewedAtMs
    ensures d.decidedAtMs == x.decidedAtMs || d.decidedAtMs == x.review.reviewedAtMs
    ensures d.notionalUsd == d.quantity * d.worstEntryPrice
    ensures d.estimatedFeesUsd == d.quantity * (d.worstEntryPrice + d.exitPlan.stopPrice) * d.venue.takerFeeBps / 10000.0
    ensures d.estimatedSlippageUsd == d.quantity * d.venue.venueMidPrice *
      (if x.review.intent.side.Long? then d.venue.buySlippageBps else d.venue.sellSlippageBps) / 10000.0
    ensures d.worstCaseLossUsd ==
      d.quantity * Abs(d.worstEntryPrice - d.exitPlan.stopPrice) + d.estimatedFeesUsd + d.estimatedSlippageUsd
    ensures !d.approved ==> d.quantity == 0.0
  {
    hide TermsOf, SizingOf, Adaptive, CapitalGate, EconomicsOf;
    EconomicsSpelled(d.quantity, x.review.intent.side, d.exitPlan.stopPrice, d.worstEntryPrice, x.venue);
    if !d.approved { NoCosts(x.review.intent.side, d.exitPlan.stopPrice, d.worstEntryPrice, x.venue); }
  }

  lemma EconomicsSpelled(q: NonNeg, side: Side, stop: Pos, entry: Pos, v: Venue)
    ensures var e := EconomicsOf(q, side, stop, entry, v);
      && e.fees == q * (entry + stop) * v.takerFeeBps / 10000.0
      && e.slippage == q * v.venueMidPrice * (if side.Long? then v.buySlippageBps else v.sellSlippageBps) / 10000.0
      && e.loss == q * Abs(entry - stop) + e.fees + e.slippage
  {
  }

  lemma NoCosts(side: Side, stop: Pos, entry: Pos, v: Venue)
    ensures EconomicsOf(0.0, side, stop, entry, v) == Economics(0.0, 0.0, 0.0)
  {
    assert 0.0 * (entry + stop) == 0.0 && 0.0 * v.venueMidPrice == 0.0 && 0.0 * Abs(entry - stop) == 0.0;
  }

  /** An approval's leverage is what settings and allocation allow, at least one, and it names its cause. */
  lemma ApprovalTerms(cfg: Settings, x: Inputs, d: Decision)
    requires Approves(cfg, x, d)
    ensures d.causedBy == (if Adaptive(cfg, x.review.intent) then CausedByBinding else CausedByReview)
    ensures x.Capital(cfg).metrics.Some? && 1.0 <= d.leverage == AllowedLeverage(cfg, x.Capital(cfg).metrics.value)
  {
    ApprovedExactly(cfg, x);
    CapitalGateExact(cfg, x);
    hide GateReasons, CapacityOf, ChosenQuantity, LossBudget, CapitalGate, BudgetReasons, ReviewAdmissible, VenueAdmissible,
         AccountAdmissible, GeometryAdmissible, AllocationAdmissible, BindingValid, MetricsOf, SizingOf, EconomicsOf;
  }

  lemma BudgetFits(cfg: Settings, m: AccountMetrics, res: Reservations)
    requires LossBudget(cfg, m, res) > 0.0
    ensures m.totalOpenRiskUsd + res.openRiskUsd + LossBudget(cfg, m, res) <= m.equityUsd * cfg.maxTotalOpenRiskFraction
    ensures LossBudget(cfg, m, res) <= m.equityUsd * cfg.perTradeRiskFraction
  {
  }

  lemma MeasuredFigures(x: Inputs)
    requires x.account.Some?
    ensures x.Measured().Some?
    ensures x.Measured().value.equityUsd == x.account.value.equityUsd
    ensures x.Measured().value.totalOpenRiskUsd == x.account.value.totalOpenRiskUsd
  {
  }

  /** Reserved and reconciled risk, with the new loss, stay inside the portfolio limit. */
  lemma ApprovalKeepsRiskLimit(cfg: Settings, x: Inputs, d: Decision)
    requires Approves(cfg, x, d)
    ensures x.account.Some?
    ensures var a := x.account.value;
            var limit := a.equityUsd * cfg.maxTotalOpenRiskFraction;
            && a.totalOpenRiskUsd + x.reservations.openRiskUsd < limit
            && a.totalOpenRiskUsd + x.reservations.openRiskUsd + d.worstCaseLossUsd <= limit + 0.000001
            && d.worstCaseLossUsd <= a.equityUsd * cfg.perTradeRiskFraction + 0.000001
  {
    hide Approves, TermsOf, CapitalGate, ChosenQuantity, CapacityOf, EconomicsOf, MetricsOf, GatesOpen, LossBudget,
         EconomicsAt;
    ApprovalRecords(cfg, x, d);
    MeasuredFigures(x);
    BudgetFits(cfg, x.Measured().value, x.reservations);
  }

  /** Outside the canary, sizing and economics agree: the over-budget branch is dead. */
  lemma NonCanaryNeverOverBudget(cfg: Settings, x: Inputs)
    requires x.review.intent.strategyId != CANARY_STRATEGY
    ensures EconomicsAt(x, SizingOf(cfg, x).quantity).loss <= TermsOf(cfg, x).lossBudget
  {
    var t := TermsOf(cfg, x);
    var intent := x.review.intent;
    EconomicsIsPerUnit(SizingOf(cfg, x).quantity, intent.side, intent.exitPlan.stopPrice, x.Entry(), x.venue);
    if t.reasons == [] && x.account.Some? && x.Capital(cfg).metrics.Some? {
      CapacityFits(cfg, intent.side, intent.exitPlan.stopPrice, x.Entry(), x.venue, t.lossBudget, t.leverage,
                   x.Measured().value, x.Capital(cfg).metrics.value, x.reservations);
    }
    hide TermsOf, LossPerUnit, NotionalCap, CapitalGate, MetricsOf, EconomicsOf, SizeQuantity;
  }

  /** Reserved, reconciled and new notional together fit margin, gross and strategy caps. */
  ghost predicate WithinCaps(cfg: Settings, x: Inputs, notional: real)
    requires x.account.Some? && x.Capital(cfg).metrics.Some?
  {
    var m, al, leverage := x.Measured().value, x.Capital(cfg).metrics.value, TermsOf(cfg, x).leverage;
    && notional <= cfg.maxPositionNotionalUsd
    && notional <= x.venue.assessedNotionalUsd
    && notional <= x.venue.depthUsd
    && x.reservations.notionalUsd + notional <= MarginCap(m, al, leverage)
    && m.grossNotionalUsd + x.reservations.notionalUsd + notional <= GrossCap(m, al)
    && m.strategyNotionalUsd + At(x.reservations.strategyNotionalUsd, al.strategyId) + notional <= StrategyCap(m, al)
  }

  /** How far beyond its computed capacity a canary may reach; nothing else may. */
  function Slack(x: Inputs): real {
    if x.review.intent.strategyId == CANARY_STRATEGY then 0.000000000001 else 0.0
  }

  /** The same in dollars at the worst entry. */
  function SlackUsd(x: Inputs): real { Slack(x) * x.Entry() }

  lemma ApprovalWithinCapacity(cfg: Settings, x: Inputs, d: Decision)
    requires Approves(cfg, x, d)
    ensures x.account.Some? && x.Capital(cfg).metrics.Some?
    ensures 0.0 < d.quantity <= CapacityOf(cfg, x) + Slack(x)
    ensures x.review.intent.strategyId != CANARY_STRATEGY ==> CapacityOf(cfg, x) > 0.0
    ensures x.review.intent.strategyId == CANARY_STRATEGY ==>
      BoundQuantity(x.review.intent, cfg.accountId, x.Entry()) == Ok(d.quantity)
  {
    ApprovedExactly(cfg, x);
    ApprovalRecords(cfg, x, d);
    hide CapacityOf, TermsOf, CapitalGate, GatesOpen, EconomicsOf, BoundQuantity, AllowedLeverage;
  }

  /** The notional that venue, settings and remaining capital still allow; zero once one of them is exhausted. */
  function Room(cfg: Settings, x: Inputs): real
    requires x.account.Some? && x.Capital(cfg).metrics.Some?
  {
    NotionalCap(cfg, x.venue, TermsOf(cfg, x).leverage, x.Measured().value, x.Capital(cfg).metrics.value, x.reservations)
  }

  /** A positive notional fits every cap at once exactly when it fits the remaining room. */
  lemma WithinCapsIff(cfg: Settings, x: Inputs, n: real)
    requires x.account.Some? && x.Capital(cfg).metrics.Some? && n > 0.0
    ensures WithinCaps(cfg, x, n) <==> n <= Room(cfg, x)
  {
    hide TermsOf, CapitalGate, MetricsOf, MarginCap, GrossCap, StrategyCap, At;
  }

  /** An approval fits every cap if and only if its notional is within the remaining room.  Outside the canary
      it always is.  A canary trades its bound quantity, which may pass computed capacity by 1e-12: while there
      is capacity the caps hold up to that slack, and without any they need not hold at all. */
  lemma ApprovalWithinCaps(cfg: Settings, x: Inputs, d: Decision)
    requires Approves(cfg, x, d)
    ensures x.account.Some? && x.Capital(cfg).metrics.Some?
    ensures WithinCaps(cfg, x, d.notionalUsd) <==> d.notionalUsd <= Room(cfg, x)
    ensures x.review.intent.strategyId != CANARY_STRATEGY ==> d.notionalUsd <= Room(cfg, x)
    ensures x.review.intent.strategyId == CANARY_STRATEGY ==>
      var bound := BoundQuantity(x.review.intent, cfg.accountId, x.Entry());
      bound.Ok? && d.notionalUsd == bound.value * x.Entry()
    ensures CapacityOf(cfg, x) > 0.0 ==> WithinCaps(cfg, x, d.notionalUsd - SlackUsd(x))
  {
    hide Approves, WithinCaps, Slack, Inputs.Entry, Inputs.Capital, TermsOf, CapitalGate, ChosenQuantity, MetricsOf,
         EconomicsOf, GatesOpen, LossBudget, EconomicsAt, CapacityOf, Room, BoundQuantity;
    ApprovalWithinCapacity(cfg, x, d);
    ApprovalRecords(cfg, x, d);
    PositiveProduct(d.quantity, x.Entry());
    WithinCapsIff(cfg, x, d.notionalUsd);
    if CapacityOf(cfg, x) > 0.0 {
      var notional := d.notionalUsd - SlackUsd(x);
      NoSlack(x);
      Distribute(d.quantity, Slack(x), x.Entry());
      CapacityWithinCaps(cfg, x, d.quantity - Slack(x), notional);
    }
  }

  lemma NoSlack(x: Inputs)
    ensures SlackUsd(x) == Slack(x) * x.Entry()
    ensures x.review.intent.strategyId != CANARY_STRATEGY ==> SlackUsd(x) == 0.0
  {
  }

  lemma PositiveProduct(a: real, b: real)
    requires a > 0.0 && b > 0.0
    ensures a * b > 0.0
  {
  }

  lemma Distribute(a: real, b: real, c: real)
    ensures (a - b) * c == a * c - b * c
  {
  }

  lemma CapacityWithinCaps(cfg: Settings, x: Inputs, quantity: real, notional: real)
    requires x.account.Some? && x.Capital(cfg).metrics.Some?
    requires quantity <= CapacityOf(cfg, x) && CapacityOf(cfg, x) > 0.0 && notional == quantity * x.Entry()
    ensures WithinCaps(cfg, x, notional)
  {
    hide TermsOf, CapitalGate, MetricsOf, EconomicsOf, NotionalCap, LossPerUnit, MarginCap, GrossCap, StrategyCap, At;
    var t, intent := TermsOf(cfg, x), x.review.intent;
    var m, al := x.Measured().value, x.Capital(cfg).metrics.value;
    CapacityFits(cfg, intent.side, intent.exitPlan.stopPrice, x.Entry(), x.venue, t.lossBudget, t.leverage, m, al, x.reservations);
    var room := NotionalCap(cfg, x.venue, t.leverage, m, al, x.reservations);
    assert room > 0.0;
    hide SizeQuantity;
    assert (CapacityOf(cfg, x) - quantity) * x.Entry() >= 0.0;
    CapSplits(cfg, x.venue, t.leverage, m, al, x.reservations, notional);
  }

  lemma CapSplits(
    cfg: Settings, venue: Venue, leverage: real, m: AccountMetrics, al: AllocationMetrics, res: Reservations, n: real)
    requires n <= NotionalCap(cfg, venue, leverage, m, al, res) && NotionalCap(cfg, venue, leverage, m, al, res) > 0.0
    ensures n <= cfg.maxPositionNotionalUsd && n <= venue.assessedNotionalUsd && n <= venue.depthUsd
    ensures res.notionalUsd + n <= MarginCap(m, al, leverage)
    ensures m.grossNotionalUsd + res.notionalUsd + n <= GrossCap(m, al)
    ensures m.strategyNotionalUsd + At(res.strategyNotionalUsd, al.strategyId) + n <= StrategyCap(m, al)
  {
    hide MarginCap, GrossCap, StrategyCap, At;
    SmallestOf(cfg.maxPositionNotionalUsd, venue.assessedNotionalUsd, venue.depthUsd,
               MarginCap(m, al, leverage) - res.notionalUsd, GrossCap(m, al) - m.grossNotionalUsd - res.notionalUsd,
               StrategyCap(m, al) - m.strategyNotionalUsd - At(res.strategyNotionalUsd, al.strategyId), n);
  }

  /** Three ceilings and three remainders: what stays below a positive smallest of them stays below each. */
  lemma SmallestOf(a: real, b: real, c: real, x: real, y: real, z: real, n: real)
    ensures var least := Min(Min(Min(a, b), Min(c, Max(0.0, x))), Min(Max(0.0, y), Max(0.0, z)));
      least > 0.0 && n <= least ==> n <= a && n <= b && n <= c && n <= x && n <= y && n <= z
  {
  }
}
