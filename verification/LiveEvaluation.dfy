/** The LIVE evaluator's budget and caps around the sizing, and the headroom an approval keeps. */
module LiveEvaluation {
  import opened Common
  import opened Contracts
  import opened CanaryInstrument
  import opened FloatGrid
  import opened LiveSizing

  /** Frozen ceilings, as the decimals their floats spell. */
  datatype Limits = Limits(
    perTradeRiskFraction: Pos, aggregateOpenRiskFraction: Pos, perTradeDollarCapUsd: Pos, aggregateDollarCapUsd: Pos,
    dailyLossCapUsd: Pos, maxAccountEquityUsd: Pos, maxPositionNotionalUsd: Pos, minNotionalUsd: Pos)

  /** Verified account figures. */
  datatype Facts = Facts(
    equityUsd: NonNeg, availableBalanceUsd: real, openRiskUsd: NonNeg, openNotionalUsd: NonNeg,
    reservedRiskUsd: NonNeg, reservedNotionalUsd: NonNeg, strategyNotionalUsd: NonNeg,
    strategyReservedNotionalUsd: NonNeg, dailyAdverseUsd: NonNeg)

  datatype Capital = Capital(stableReservePct: real, strategyWeight: real, maxGrossLeverage: real)

  datatype Liquidity = Liquidity(assessedNotionalUsd: NonNeg, depthUsd: NonNeg)

  datatype LiveReason =
    | Prior(text: string) | AllocationUnusable | InstrumentPriceGeometryInvalid | RiskBudgetExhausted | SizingNumericInvalid
    | LivePositionCapacityExhausted | LivePositionBelowMinimumNotional
    | BelowInstrumentMinimumQuantity | BelowInstrumentMinimumNotional | LossExceedsBudget

  /** Everything the budget part of one evaluation reads; `prior` are the reasons of the earlier gates,
      and `capital` is absent when the allocation is missing or invalid. */
  datatype LiveInputs = LiveInputs(
    prior: seq<LiveReason>, limits: Limits, facts: Facts, capital: Option<Capital>, liquidity: Liquidity,
    order: Order, rules: Option<LiveRules>)

  // ----- instrument geometry -----

  predicate OnTick(price: Pos, r: LiveRules) {
    r.minPrice <= price <= r.maxPrice && Aligned(price, r.priceIncrement)
  }

  /** Stop, target and entry are on the price grid, in bounds, and in order for the side. */
  predicate GeometryValid(o: Order, r: LiveRules) {
    && OnTick(o.stop, r) && OnTick(o.target, r) && OnTick(o.entry, r)
    && (o.side.Long? ==> o.stop < o.entry < o.target)
    && (o.side.Short? ==> o.target < o.entry < o.stop)
  }

  // ----- budget and caps -----

  function RiskRoom(l: Limits, f: Facts): real {
    Max(0.0, f.equityUsd * l.aggregateOpenRiskFraction - f.openRiskUsd - f.reservedRiskUsd)
  }

  function DailyRoom(l: Limits, f: Facts): real {
    Max(0.0, l.dailyLossCapUsd - f.dailyAdverseUsd - f.openRiskUsd - f.reservedRiskUsd)
  }

  function Budget(l: Limits, f: Facts): real {
    Min(Min(f.equityUsd * l.perTradeRiskFraction, l.perTradeDollarCapUsd), Min(RiskRoom(l, f), DailyRoom(l, f)))
  }

  function GrossCap(f: Facts, c: Capital): real {
    f.equityUsd * (1.0 - c.stableReservePct) * Min(1.0, c.maxGrossLeverage)
  }

  function StrategyCap(f: Facts, c: Capital): real { f.equityUsd * c.strategyWeight }

  function GrossRoom(f: Facts, c: Capital): real {
    Max(0.0, GrossCap(f, c) - f.openNotionalUsd - f.reservedNotionalUsd)
  }

  function StrategyRoom(f: Facts, c: Capital): real {
    Max(0.0, StrategyCap(f, c) - f.strategyNotionalUsd - f.strategyReservedNotionalUsd)
  }

  function AggregateRoom(l: Limits, f: Facts): real {
    Max(0.0, l.aggregateDollarCapUsd - f.openNotionalUsd - f.reservedNotionalUsd)
  }

  function BalanceRoom(f: Facts): real { Max(0.0, f.availableBalanceUsd - f.reservedNotionalUsd) }

  function NotionalRoom(x: LiveInputs, c: Capital): real {
    var room := Min(Min(Min(x.limits.maxPositionNotionalUsd, AggregateRoom(x.limits, x.facts)),
                        Min(x.liquidity.assessedNotionalUsd, x.liquidity.depthUsd)),
                    Min(BalanceRoom(x.facts), Min(GrossRoom(x.facts, c), StrategyRoom(x.facts, c))));
    if x.rules.Some? && x.rules.value.maxNotionalUsd.Some? then Min(room, x.rules.value.maxNotionalUsd.value) else room
  }

  function Quantum(rules: Option<LiveRules>): Pos {
    if rules.Some? then rules.value.quantityIncrement else QUANTITY_QUANTUM
  }

  /** Rounding toward zero. */
  function Truncate(x: real): int { if x >= 0.0 then x.Floor else -((-x).Floor) }

  /** Whole lots in a quantity. */
  function Lots(x: real, quantum: Pos): int { Truncate(x / quantum) }

  /** What budget, cap and venue maximum allow, before rounding to lots. */
  function Bounded(x: LiveInputs, budget: real, cap: real): real
    requires LiveSizing.LossPerUnit(x.order) > 0.0
  {
    var unrounded := Min(budget / LiveSizing.LossPerUnit(x.order), cap / x.order.entry);
    if x.rules.Some? then Min(unrounded, x.rules.value.maxQuantity) else unrounded
  }

  /** The largest lot that budget and cap allow before any conversion. */
  function StartLot(x: LiveInputs, budget: real, cap: real): real
    requires LiveSizing.LossPerUnit(x.order) > 0.0
  {
    Lots(Bounded(x, budget, cap), Quantum(x.rules)) as real * Quantum(x.rules)
  }

  function Size(g: Grid, x: LiveInputs, c: Capital, lossBudget: int): Result<Display> {
    var budget := g.spell(lossBudget);
    if LiveSizing.LossPerUnit(x.order) <= 0.0 || budget <= 0.0 then Ok(NOTHING)
    else
      var cap := NotionalRoom(x, c);
      Correct(g, x.order, x.rules, Quantum(x.rules), budget, cap, StartLot(x, budget, cap), 2)
  }

  datatype LiveOutcome = LiveOutcome(reasons: seq<LiveReason>, lossBudget: int, display: Display)
  {
    predicate Approved() { reasons == [] }
  }

  predicate Below(g: Grid, f: int, bound: real) { f <= g.top && g.spell(f) < bound }

  /** What a sized order is still turned down for. */
  function SizeReasons(g: Grid, x: LiveInputs, d: Display): seq<LiveReason> {
    var r1 := Note([], g.spell(d.quantity) <= 0.0, LivePositionCapacityExhausted);
    var r2 := Note(r1, g.spell(d.quantity) > 0.0 && Below(g, d.notional, x.limits.minNotionalUsd),
                   LivePositionBelowMinimumNotional);
    if x.rules.None? || g.spell(d.quantity) <= 0.0 then r2
    else
      var r3 := Note(r2, g.spell(d.quantity) < x.rules.value.minQuantity, BelowInstrumentMinimumQuantity);
      Note(r3, NotionalFor(x.order, g.spell(d.quantity)) < x.rules.value.minNotionalUsd, BelowInstrumentMinimumNotional)
  }

  /** The budget part of the evaluation; an overflowing budget escapes as an exception. */
  function EvaluateLive(g: Grid, x: LiveInputs): Result<LiveOutcome> {
    var r0 := Note(x.prior, x.capital.None?, AllocationUnusable);
    var r1 := Note(r0, x.rules.Some? && !GeometryValid(x.order, x.rules.value), InstrumentPriceGeometryInvalid);
    match x.capital
    case None => Ok(LiveOutcome(r1, 0, NOTHING))
    case Some(c) =>
      var lossBudget := LowerFloat(g, Budget(x.limits, x.facts));
      if lossBudget.Raised? then Raised
      else
        var r2 := Note(r1, g.spell(lossBudget.value) <= 0.0, RiskBudgetExhausted);
        if r2 != [] then Ok(LiveOutcome(r2, lossBudget.value, NOTHING))
        else
          var sized := Size(g, x, c, lossBudget.value);
          var d := if sized.Ok? then sized.value else NOTHING;
          var r3 := Note([], sized.Raised?, SizingNumericInvalid) + SizeReasons(g, x, d);
          var r4 := Note(r3, Exceeds(g, d.worstLoss, g.spell(lossBudget.value)), LossExceedsBudget);
          Ok(LiveOutcome(r4, lossBudget.value, if r4 == [] then d else NOTHING))
  }

  /** The evaluation step by step, accumulating reasons around the correction loop. */
  method Evaluate(g: Grid, x: LiveInputs) returns (r: Result<LiveOutcome>)
    ensures r == EvaluateLive(g, x)
  {
    hide Budget, NotionalRoom, GeometryValid, LowerFloat, Exceeds, LiveSizing.LossPerUnit, NotionalFor, Bounded, Lots, Correct;
    var reasons := x.prior;
    if x.capital.None? { reasons := reasons + [AllocationUnusable]; }
    if x.rules.Some? && !GeometryValid(x.order, x.rules.value) { reasons := reasons + [InstrumentPriceGeometryInvalid]; }
    if x.capital.None? {
      return Ok(LiveOutcome(reasons, 0, NOTHING));
    }
    var lossBudget := LowerFloat(g, Budget(x.limits, x.facts));
    if lossBudget.Raised? {
      return Raised;
    }
    var budget := g.spell(lossBudget.value);
    if budget <= 0.0 { reasons := reasons + [RiskBudgetExhausted]; }
    if reasons != [] {
      return Ok(LiveOutcome(reasons, lossBudget.value, NOTHING));
    }
    var d := NOTHING;
    if LiveSizing.LossPerUnit(x.order) > 0.0 && budget > 0.0 {
      var cap := NotionalRoom(x, x.capital.value);
      var sized := CorrectionLoop(g, x.order, x.rules, Quantum(x.rules), budget, cap, StartLot(x, budget, cap));
      if sized.Ok? {
        d := sized.value;
      } else {
        reasons := reasons + [SizingNumericInvalid];
      }
    }
    assert reasons == Note([], Size(g, x, x.capital.value, lossBudget.value).Raised?, SizingNumericInvalid);
    reasons := reasons + SizeReasons(g, x, d);
    if Exceeds(g, d.worstLoss, budget) { reasons := reasons + [LossExceedsBudget]; }
    r := Ok(LiveOutcome(reasons, lossBudget.value, if reasons == [] then d else NOTHING));
  }

  // ----- headroom -----

  ghost predicate ApprovedLive(g: Grid, x: LiveInputs, d: Display) {
    EvaluateLive(g, x).Ok? && EvaluateLive(g, x).value.Approved() && EvaluateLive(g, x).value.display == d
  }

  /** Existing risk, reserved risk and the new worst loss inside every loss ceiling. */
  ghost predicate RiskHeadroom(l: Limits, f: Facts, worst: real) {
    && f.openRiskUsd + f.reservedRiskUsd + worst <= f.equityUsd * l.aggregateOpenRiskFraction
    && f.dailyAdverseUsd + f.openRiskUsd + f.reservedRiskUsd + worst <= l.dailyLossCapUsd
    && worst <= f.equityUsd * l.perTradeRiskFraction
    && worst <= l.perTradeDollarCapUsd
  }

  /** Existing, reserved and new notional inside every notional ceiling. */
  ghost predicate NotionalHeadroom(x: LiveInputs, c: Capital, notional: real) {
    var l, f := x.limits, x.facts;
    && notional <= l.maxPositionNotionalUsd
    && f.openNotionalUsd + f.reservedNotionalUsd + notional <= l.aggregateDollarCapUsd
    && notional <= x.liquidity.assessedNotionalUsd && notional <= x.liquidity.depthUsd
    && f.reservedNotionalUsd + notional <= f.availableBalanceUsd
    && f.openNotionalUsd + f.reservedNotionalUsd + notional <= GrossCap(f, c)
    && f.strategyNotionalUsd + f.strategyReservedNotionalUsd + notional <= StrategyCap(f, c)
    && (x.rules.Some? && x.rules.value.maxNotionalUsd.Some? ==> notional <= x.rules.value.maxNotionalUsd.value)
  }

  lemma BudgetLeavesHeadroom(l: Limits, f: Facts, worst: real)
    requires 0.0 < Budget(l, f) && worst <= Budget(l, f)
    ensures RiskHeadroom(l, f, worst)
  {
  }

  lemma RoomLeavesHeadroom(x: LiveInputs, c: Capital, notional: real)
    requires 0.0 < notional <= NotionalRoom(x, c)
    ensures NotionalHeadroom(x, c, notional)
  {
    hide GrossCap, StrategyCap;
  }

  /** An approval is a safe, positive display under the evaluation's own budget and cap. */
  lemma ApprovalIsSafe(g: Grid, x: LiveInputs, d: Display)
    requires g.Valid() && ApprovedLive(g, x, d)
    ensures x.capital.Some? && x.prior == [] && (x.rules.Some? ==> GeometryValid(x.order, x.rules.value))
    ensures LowerFloat(g, Budget(x.limits, x.facts)).Ok?
    ensures var lossBudget := LowerFloat(g, Budget(x.limits, x.facts)).value;
      && g.spell(lossBudget) > 0.0
      && Size(g, x, x.capital.value, lossBudget) == Ok(d) && d != NOTHING
      && Safe(g, x.order, g.spell(lossBudget), NotionalRoom(x, x.capital.value), d)
      && g.spell(d.quantity) > 0.0 && SizeReasons(g, x, d) == []
  {
    var c := x.capital;
    hide Budget, NotionalRoom, GeometryValid, Correct, StartLot, LiveSizing.LossPerUnit, Safe, LowerFloat, Exceeds, LotExact;
    if c.Some? {
      var lossBudget := LowerFloat(g, Budget(x.limits, x.facts));
      if lossBudget.Ok? && g.spell(lossBudget.value) > 0.0 && LiveSizing.LossPerUnit(x.order) > 0.0 {
        var budget, cap := g.spell(lossBudget.value), NotionalRoom(x, c.value);
        CorrectedSafely(g, x.order, x.rules, Quantum(x.rules), budget, cap, StartLot(x, budget, cap), 2);
      }
    }
    assert g.spell(0) == 0.0;
  }

  /** Every approved LIVE order keeps its headroom: in decimal spelling, risk with the displayed worst
      loss and notional with the displayed notional stay inside every ceiling at once. */
  lemma Headroom(g: Grid, x: LiveInputs, d: Display)
    requires g.Valid() && ApprovedLive(g, x, d)
    ensures x.capital.Some?
    ensures RiskHeadroom(x.limits, x.facts, g.spell(d.worstLoss))
    ensures NotionalHeadroom(x, x.capital.value, g.spell(d.notional))
    ensures g.spell(d.notional) >= x.limits.minNotionalUsd
  {
    ApprovalIsSafe(g, x, d);
    hide EvaluateLive, ApprovedLive, RiskHeadroom, NotionalHeadroom, NotionalRoom, FeesFor, SlippageFor, StopLossFor, Size,
         GeometryValid, LowerFloat;
    var lossBudget := LowerFloat(g, Budget(x.limits, x.facts)).value;
    BudgetNonNegative(x.limits, x.facts);
    hide Budget;
    LowerSpellsBelow(g, Budget(x.limits, x.facts));
    BudgetLeavesHeadroom(x.limits, x.facts, g.spell(d.worstLoss));
    PositiveNotional(x.order, g.spell(d.quantity));
    hide NotionalFor;
    RoomLeavesHeadroom(x, x.capital.value, g.spell(d.notional));
  }

  lemma PositiveNotional(o: Order, quantity: real)
    requires quantity > 0.0
    ensures NotionalFor(o, quantity) > 0.0
  {
  }

  lemma BudgetNonNegative(l: Limits, f: Facts)
    ensures Budget(l, f) >= 0.0
  {
    assert f.equityUsd * l.perTradeRiskFraction >= 0.0;
  }

  /** The displayed worst loss covers the true stop-out loss of the displayed quantity. */
  lemma DisplayCoversLoss(g: Grid, x: LiveInputs, d: Display)
    requires g.Valid() && ApprovedLive(g, x, d)
    ensures StopLossFor(x.order, g.spell(d.quantity)) + g.spell(d.fees) + g.spell(d.slippage) <= g.spell(d.worstLoss)
    ensures LossFor(x.order, g.spell(d.quantity)) <= g.spell(d.worstLoss)
    ensures NotionalFor(x.order, g.spell(d.quantity)) <= g.spell(d.notional)
  {
    ApprovalIsSafe(g, x, d);
    hide ApprovedLive, EvaluateLive, NotionalRoom, Budget, Size, GeometryValid, FeesFor, SlippageFor, StopLossFor,
         NotionalFor, LowerFloat;
  }

  /** With instrument rules, an approved quantity is an exact lot within the venue's bounds, at prices
      on its grid, and the actual order notional reaches the venue's minimum. */
  lemma ApprovedLotIsLegal(g: Grid, x: LiveInputs, d: Display)
    requires g.Valid() && ApprovedLive(g, x, d) && x.rules.Some?
    ensures var r := x.rules.value;
      && GeometryValid(x.order, r)
      && Aligned(g.spell(d.quantity), r.quantityIncrement)
      && r.minQuantity <= g.spell(d.quantity) <= r.maxQuantity
      && NotionalFor(x.order, g.spell(d.quantity)) >= r.minNotionalUsd
  {
    ApprovalIsSafe(g, x, d);
    hide ApprovedLive, EvaluateLive, NotionalRoom, Budget, GeometryValid, NotionalFor, LowerFloat, Correct, StartLot,
         LiveSizing.LossPerUnit, Safe, Aligned;
    var lossBudget := LowerFloat(g, Budget(x.limits, x.facts)).value;
    var budget, cap := g.spell(lossBudget), NotionalRoom(x, x.capital.value);
    assert LiveSizing.LossPerUnit(x.order) > 0.0;
    CorrectedSafely(g, x.order, x.rules, Quantum(x.rules), budget, cap, StartLot(x, budget, cap), 2);
  }

  // ----- the start lot itself -----

  /** Before any conversion the start lot already fits budget, cap and venue maximum. */
  lemma StartLotFits(x: LiveInputs, budget: real, cap: real)
    requires LiveSizing.LossPerUnit(x.order) > 0.0 && budget >= 0.0 && cap >= 0.0
    ensures var q := StartLot(x, budget, cap);
      && 0.0 <= q && Aligned(q, Quantum(x.rules))
      && LossFor(x.order, q) <= budget && NotionalFor(x.order, q) <= cap
      && (x.rules.Some? ==> q <= x.rules.value.maxQuantity)
  {
    hide LiveSizing.LossPerUnit, LossFor, Quantum, Aligned, Lots, Bounded, StartLot, NotionalFor;
    var q := StartLot(x, budget, cap);
    LossIsPerUnit(x.order, q);
    BoundedFits(x, budget, cap);
    StartLotIs(x, budget, cap);
    LotAligned(Bounded(x, budget, cap), Quantum(x.rules), q);
    LotBelow(Bounded(x, budget, cap), Quantum(x.rules), q);
    QuotientCovers(q, budget, LiveSizing.LossPerUnit(x.order));
    NotionalCovers(x.order, q, cap);
  }

  lemma StartLotIs(x: LiveInputs, budget: real, cap: real)
    requires LiveSizing.LossPerUnit(x.order) > 0.0
    ensures StartLot(x, budget, cap) == Lots(Bounded(x, budget, cap), Quantum(x.rules)) as real * Quantum(x.rules)
  {
    hide Bounded, Lots, Quantum;
  }

  lemma NotionalCovers(o: Order, q: real, cap: real)
    requires q <= cap / o.entry
    ensures NotionalFor(o, q) <= cap
  {
    QuotientCovers(q, cap, o.entry);
  }

  lemma BoundedFits(x: LiveInputs, budget: real, cap: real)
    requires LiveSizing.LossPerUnit(x.order) > 0.0 && budget >= 0.0 && cap >= 0.0
    ensures 0.0 <= Bounded(x, budget, cap)
    ensures Bounded(x, budget, cap) <= budget / LiveSizing.LossPerUnit(x.order)
    ensures Bounded(x, budget, cap) <= cap / x.order.entry
    ensures x.rules.Some? ==> Bounded(x, budget, cap) <= x.rules.value.maxQuantity
  {
    hide LiveSizing.LossPerUnit;
    NonNegativeQuotient(budget, LiveSizing.LossPerUnit(x.order));
    NonNegativeQuotient(cap, x.order.entry);
  }

  lemma NonNegativeQuotient(a: real, b: real)
    requires a >= 0.0 && b > 0.0
    ensures a / b >= 0.0
  {
  }

  lemma LotBelow(x: real, quantum: Pos, q: real)
    requires x >= 0.0 && q == Lots(x, quantum) as real * quantum
    ensures 0.0 <= q <= x
  {
    hide Lots;
    LotCount(x, quantum);
    QuotientCovers(Lots(x, quantum) as real, x, quantum);
    assert Lots(x, quantum) as real * quantum >= 0.0;
  }

  lemma LotAligned(x: real, quantum: Pos, q: real)
    requires q == Lots(x, quantum) as real * quantum
    ensures Aligned(q, quantum)
  {
    hide Lots, Aligned;
    MultipleAligned(Lots(x, quantum), quantum);
  }

  lemma LotCount(x: real, quantum: Pos)
    requires x >= 0.0
    ensures 0 <= Lots(x, quantum) && Lots(x, quantum) as real <= x / quantum
  {
    NonNegativeQuotient(x, quantum);
  }

  lemma QuotientCovers(q: real, a: real, b: real)
    requires b > 0.0 && q <= a / b
    ensures q * b <= a
  {
    var y := a / b;
    assert y * b == a;
    assert (y - q) * b >= 0.0;
  }

  lemma LossIsPerUnit(o: Order, quantity: real)
    ensures LossFor(o, quantity) == quantity * LiveSizing.LossPerUnit(o)
  {
    var fee, slip := (o.entry + o.stop) * o.feeRate, o.mid * o.slippageRate;
    assert FeesFor(o, quantity) == quantity * fee;
    assert SlippageFor(o, quantity) == quantity * slip;
    assert quantity * (Distance(o) + fee + slip) == quantity * Distance(o) + quantity * fee + quantity * slip;
  }
}
