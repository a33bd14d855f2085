/** The pure PAPER policy: gates, sizing, economics and the resulting decision. */
module PaperPipeline {
  import opened Common
  import opened Contracts
  import opened CanaryInstrument

  // ----- reservations seen by the policy -----

  /** Risk already approved but not yet represented by reconciliation. */
  datatype Reservations = Reservations(
    symbols: set<string>, openRiskUsd: real, notionalUsd: real,
    strategyNotionalUsd: OrderedMap<string, real>, activeCanaryIdeas: nat)

  function LossOf(d: Decision): real { if d.approved then d.worstCaseLossUsd else 0.0 }

  function NotionalOf(d: Decision): real { if d.approved then d.notionalUsd else 0.0 }

  function NotionalFor(d: Decision, strategy: string): real {
    if d.review.intent.strategyId == strategy then NotionalOf(d) else 0.0
  }

  function CanaryCount(d: Decision): nat {
    if d.approved && d.review.intent.strategyId == CANARY_STRATEGY then 1 else 0
  }

  function TotalLoss(ds: seq<Decision>): real {
    if ds == [] then 0.0 else TotalLoss(ds[..|ds| - 1]) + LossOf(ds[|ds| - 1])
  }

  function TotalNotional(ds: seq<Decision>): real {
    if ds == [] then 0.0 else TotalNotional(ds[..|ds| - 1]) + NotionalOf(ds[|ds| - 1])
  }

  function StrategyTotal(ds: seq<Decision>, strategy: string): real {
    if ds == [] then 0.0 else StrategyTotal(ds[..|ds| - 1], strategy) + NotionalFor(ds[|ds| - 1], strategy)
  }

  function CanaryIdeas(ds: seq<Decision>): nat {
    if ds == [] then 0 else CanaryIdeas(ds[..|ds| - 1]) + CanaryCount(ds[|ds| - 1])
  }

  /** One more decision adds its own amounts. */
  lemma TotalsAppend(ds: seq<Decision>, d: Decision)
    ensures TotalLoss(ds + [d]) == TotalLoss(ds) + LossOf(d)
    ensures TotalNotional(ds + [d]) == TotalNotional(ds) + NotionalOf(d)
    ensures CanaryIdeas(ds + [d]) == CanaryIdeas(ds) + CanaryCount(d)
  {
    assert (ds + [d])[..|ds|] == ds;
  }

  lemma StrategyTotalAppend(ds: seq<Decision>, d: Decision)
    ensures forall s :: StrategyTotal(ds + [d], s) == StrategyTotal(ds, s) + NotionalFor(d, s)
  {
    assert (ds + [d])[..|ds|] == ds;
  }

  function SymbolsOf(ds: seq<Decision>): set<string> {
    set d | d in ds && d.approved :: d.venueSymbol
  }

  function Sum(m: OrderedMap<string, real>, keys: seq<string>): real
    requires forall k :: k in keys ==> k in m.items
  {
    if keys == [] then 0.0 else Sum(m, keys[..|keys| - 1]) + m.items[keys[|keys| - 1]]
  }

  predicate IsTrimmed(text: string) {
    text != "" && !IsSpace(text[0]) && !IsSpace(text[|text| - 1])
  }

  /** Strategy names are unique, not empty and without surrounding white space. */
  predicate NamesValid(names: seq<string>) {
    && (forall i, j :: 0 <= i < j < |names| ==> names[i] != names[j])
    && (forall k :: k in names ==> IsTrimmed(k))
  }

  /** What the reservation record refuses to be constructed from. */
  predicate ReservationsValid(r: Reservations) {
    && r.symbols <= DEV_UNIVERSE
    && r.openRiskUsd >= 0.0 && r.notionalUsd >= 0.0
    && NamesValid(r.strategyNotionalUsd.keys)
    && (forall k :: k in r.strategyNotionalUsd.items ==> r.strategyNotionalUsd.items[k] >= 0.0)
    && (forall k :: k in r.strategyNotionalUsd.keys ==> k in r.strategyNotionalUsd.items)
    && Sum(r.strategyNotionalUsd, r.strategyNotionalUsd.keys) <= r.notionalUsd + 0.000001
  }

  /** `r` aggregates exactly the approved decisions of `ds`. */
  ghost predicate Aggregates(r: Reservations, ds: seq<Decision>) {
    && r.symbols == SymbolsOf(ds)
    && r.openRiskUsd == TotalLoss(ds)
    && r.notionalUsd == TotalNotional(ds)
    && r.activeCanaryIdeas == CanaryIdeas(ds)
    && HoldsTotals(r.strategyNotionalUsd, ds)
  }

  lemma {:induction false} SumAfterPut(m: OrderedMap<string, real>, keys: seq<string>, k: string, v: real)
    requires Distinct(keys) && forall j :: j in keys ==> j in m.items
    ensures k !in keys ==> Sum(m.Put(k, v), keys) == Sum(m, keys)
    ensures k in keys ==> Sum(m.Put(k, v), keys) == Sum(m, keys) - m.items[k] + v
  {
    if keys != [] {
      var front, last := keys[..|keys| - 1], keys[|keys| - 1];
      assert keys == front + [last];
      SumAfterPut(m, front, k, v);
    }
  }

  function At(m: OrderedMap<string, real>, k: string): real {
    if k in m.items then m.items[k] else 0.0
  }

  /** `totals` holds the strategy totals of `ds`, and nothing else. */
  ghost predicate HoldsTotals(totals: OrderedMap<string, real>, ds: seq<Decision>) {
    && totals.Valid()
    && (forall s :: At(totals, s) == StrategyTotal(ds, s))
    && Sum(totals, totals.keys) == TotalNotional(ds)
  }

  lemma AddedToTotals(totals: OrderedMap<string, real>, id: string, amount: real)
    requires totals.Valid()
    ensures var updated := totals.Put(id, At(totals, id) + amount);
            && updated.Valid()
            && Sum(updated, updated.keys) == Sum(totals, totals.keys) + amount
            && forall s :: At(updated, s) == At(totals, s) + (if s == id then amount else 0.0)
  {
    hide Distinct;
    var v := At(totals, id) + amount;
    var updated := totals.Put(id, v);
    PutValid(totals, id, v);
    SumAfterPut(totals, totals.keys, id, v);
    if id !in totals.items {
      SumLast(updated, totals.keys, id);
    }
  }

  lemma SumLast(m: OrderedMap<string, real>, keys: seq<string>, k: string)
    requires (forall j :: j in keys ==> j in m.items) && k in m.items
    ensures Sum(m, keys + [k]) == Sum(m, keys) + m.items[k]
  {
    assert (keys + [k])[..|keys|] == keys;
  }

  lemma TotalsAfter(totals: OrderedMap<string, real>, ds: seq<Decision>, d: Decision)
    requires HoldsTotals(totals, ds)
    ensures var id := d.review.intent.strategyId;
            HoldsTotals(if d.approved then totals.Put(id, At(totals, id) + d.notionalUsd) else totals, ds + [d])
  {
    hide TotalNotional, StrategyTotal, Sum;
    TotalsAppend(ds, d);
    StrategyTotalAppend(ds, d);
    AddedToTotals(totals, d.review.intent.strategyId, d.notionalUsd);
  }

  function TotalsOf(ds: seq<Decision>): OrderedMap<string, real> {
    if ds == [] then OrderedMap([], map[])
    else
      var totals, d := TotalsOf(ds[..|ds| - 1]), ds[|ds| - 1];
      var id := d.review.intent.strategyId;
      if d.approved then totals.Put(id, At(totals, id) + d.notionalUsd) else totals
  }

  function ViewOf(ds: seq<Decision>): Reservations {
    Reservations(SymbolsOf(ds), TotalLoss(ds), TotalNotional(ds), TotalsOf(ds), CanaryIdeas(ds))
  }

  lemma {:induction false} TotalsHold(ds: seq<Decision>)
    ensures HoldsTotals(TotalsOf(ds), ds)
  {
    hide HoldsTotals, TotalsOf, At;
    if ds == [] {
      NoTotals();
    } else {
      var front, d := ds[..|ds| - 1], ds[|ds| - 1];
      assert ds == front + [d];
      TotalsHold(front);
      TotalsStep(front, d);
      TotalsAfter(TotalsOf(front), front, d);
    }
  }

  /** The dictionary names exactly the strategies that have an approved decision. */
  lemma {:induction false} TotalsName(ds: seq<Decision>, k: string)
    ensures k in TotalsOf(ds).keys <==> exists d :: d in ds && d.approved && d.review.intent.strategyId == k
  {
    hide At;
    if ds != [] {
      var front, d := ds[..|ds| - 1], ds[|ds| - 1];
      assert ds == front + [d];
      TotalsHold(front);
      TotalsName(front, k);
    }
  }

  /** The view accounts for every approved decision once: nothing is lost between strategies. */
  lemma ViewAggregates(ds: seq<Decision>)
    ensures Aggregates(ViewOf(ds), ds)
  {
    TotalsHold(ds);
  }

  /** Aggregates the un-reconciled approvals, filling a dictionary of strategy totals. */
  method ReservationView(ds: seq<Decision>) returns (r: Reservations)
    ensures r == ViewOf(ds)
  {
    hide TotalNotional, TotalLoss, CanaryIdeas, TotalsOf, SymbolsOf, At;
    var totals: OrderedMap<string, real> := OrderedMap([], map[]);
    var risk, notional, canaries := 0.0, 0.0, 0;
    NoTotals();
    for i := 0 to |ds|
      invariant totals == TotalsOf(ds[..i])
      invariant risk == TotalLoss(ds[..i]) && notional == TotalNotional(ds[..i])
      invariant canaries == CanaryIdeas(ds[..i])
    {
      var d := ds[i];
      assert ds[..i + 1] == ds[..i] + [d];
      TotalsStep(ds[..i], d);
      TotalsAppend(ds[..i], d);
      if d.approved {
        var id := d.review.intent.strategyId;
        totals := totals.Put(id, At(totals, id) + d.notionalUsd);
        risk := risk + d.worstCaseLossUsd;
        notional := notional + d.notionalUsd;
        if id == CANARY_STRATEGY {
          canaries := canaries + 1;
        }
      }
    }
    assert ds[..|ds|] == ds;
    r := Reservations(SymbolsOf(ds), risk, notional, totals, canaries);
  }

  lemma TotalsStep(ds: seq<Decision>, d: Decision)
    ensures var id := d.review.intent.strategyId;
            TotalsOf(ds + [d]) ==
              if d.approved then TotalsOf(ds).Put(id, At(TotalsOf(ds), id) + d.notionalUsd) else TotalsOf(ds)
  {
    assert (ds + [d])[..|ds|] == ds;
  }

  lemma NoTotals()
    ensures HoldsTotals(OrderedMap([], map[]), []) && TotalsOf([]) == OrderedMap([], map[])
    ensures TotalLoss([]) == 0.0 && TotalNotional([]) == 0.0 && CanaryIdeas([]) == 0
  {
  }

  // ----- account gate -----

  datatype AccountMetrics = AccountMetrics(
    equityUsd: NonNeg, availableBalanceUsd: real, totalOpenRiskUsd: real,
    grossNotionalUsd: real, strategyNotionalUsd: real)

  function MarkNotional(p: Position): real { Abs(p.signedQuantity) * p.markPrice }

  function StopRisk(p: Position): real {
    Abs(p.signedQuantity) *
    Max(0.0, if p.side.Long? then p.entryPrice - p.exitPlan.stopPrice else p.exitPlan.stopPrice - p.entryPrice)
  }

  function PositionRisk(ps: seq<Position>): real {
    if ps == [] then 0.0 else PositionRisk(ps[..|ps| - 1]) + StopRisk(ps[|ps| - 1])
  }

  function PositionNotional(ps: seq<Position>): real {
    if ps == [] then 0.0 else PositionNotional(ps[..|ps| - 1]) + MarkNotional(ps[|ps| - 1])
  }

  function PositionNotionalFor(ps: seq<Position>, strategy: string): real {
    if ps == [] then 0.0
    else
      var p := ps[|ps| - 1];
      PositionNotionalFor(ps[..|ps| - 1], strategy) + (if p.lineage.strategyId == strategy then MarkNotional(p) else 0.0)
  }

  /** What an open order contributes to pending notional: entries not yet filled, at their own price. */
  function PendingNotional(o: OpenOrder): real {
    if o.role.EntryOrder? && o.filledQuantity < o.quantity && o.price.Some?
    then (o.quantity - o.filledQuantity) * o.price.value
    else 0.0
  }

  function PendingTotal(os: seq<OpenOrder>): real {
    if os == [] then 0.0 else PendingTotal(os[..|os| - 1]) + PendingNotional(os[|os| - 1])
  }

  function PendingTotalFor(os: seq<OpenOrder>, strategy: string): real {
    if os == [] then 0.0
    else
      var o := os[|os| - 1];
      PendingTotalFor(os[..|os| - 1], strategy) +
      (if o.lineage.strategyId == strategy then PendingNotional(o) else 0.0)
  }

  function OrderReasons(os: seq<OpenOrder>): seq<Reason> {
    if os == [] then [] else OrderReasons(os[..|os| - 1]) + ReasonsOf(os[|os| - 1])
  }

  function ReasonsOf(o: OpenOrder): seq<Reason> {
    if !o.role.EntryOrder? then []
    else if o.filledQuantity < o.quantity && o.price.None? then [PendingEntryOrderPresent, UnvaluedPendingEntryOrder]
    else [PendingEntryOrderPresent]
  }

  /** Trades of the canary strategy that the account already represents. */
  function ActiveCanaryTrades(a: Account): set<TradeId> {
    (set p | p in a.positions && p.lineage.strategyId == CANARY_STRATEGY :: p.lineage.trade) +
    (set o | o in a.openOrders && o.lineage.strategyId == CANARY_STRATEGY && o.role.EntryOrder? :: o.lineage.trade)
  }

  function Drawdown(a: Account): real {
    var day := a.durableDayStartEquityUsd;
    Max(Max(0.0, (day - a.equityUsd) / day),
        Max(-a.dailyRealizedPnlUsd / day, (a.durablePeakEquityUsd - a.equityUsd) / a.durablePeakEquityUsd))
  }

  function MetricsOf(a: Account, strategy: string): AccountMetrics {
    AccountMetrics(a.equityUsd, a.availableBalanceUsd, a.totalOpenRiskUsd,
      PositionNotional(a.positions) + PendingTotal(a.openOrders),
      PositionNotionalFor(a.positions, strategy) + PendingTotalFor(a.openOrders, strategy))
  }

  predicate AccountStanding(cfg: Settings, a: Account) {
    a.tradingMode.PaperMode? && a.profile.Dev? && a.accountId == cfg.accountId && a.reconciled && a.reconciliationSeq > 0
  }

  function StandingReasons(cfg: Settings, a: Account, decidedAtMs: int): seq<Reason> {
    var age := decidedAtMs - a.capturedAtMs;
    var r1 := Note([], !(a.tradingMode.PaperMode? && a.profile.Dev?), AccountEnvironmentMismatch);
    var r2 := Note(r1, a.accountId != cfg.accountId, AccountIdMismatch);
    var r3 := Note(r2, !a.reconciled, AccountNotReconciled);
    var r4 := Note(r3, a.reconciliationSeq <= 0, AccountSequenceInvalid);
    var r5 := Note(r4, age < 0, AccountSnapshotFromFuture);
    Note(r5, age >= 0 && age as real > cfg.snapshotMaxAgeS * 1000.0, AccountSnapshotStale)
  }

  function ConflictReasons(rs: seq<Reason>, a: Account, venueSymbol: string, strategy: string, res: Reservations): seq<Reason>
  {
    var r1 := Note(rs, venueSymbol in res.symbols, SymbolHasReservedIdea);
    var r2 := Note(r1, exists p :: p in a.positions && p.lineage.venueSymbol == venueSymbol, SymbolHasActivePosition);
    var r3 := Note(r2, exists o :: o in a.openOrders && o.lineage.venueSymbol == venueSymbol, SymbolHasOpenOrder);
    Note(r3, strategy == CANARY_STRATEGY && |ActiveCanaryTrades(a)| + res.activeCanaryIdeas >= 1,
         GlobalCanaryIdeaLimitReached)
  }

  function ExposureReasons(rs: seq<Reason>, cfg: Settings, a: Account, res: Reservations): seq<Reason> {
    var r1 := Note(rs, a.totalOpenRiskUsd + 0.000001 < PositionRisk(a.positions), AccountOpenRiskUnderstated);
    var r2 := Note(r1, RiskExhausted(cfg, a, res), PortfolioOpenRiskLimitExhausted);
    Note(r2, Drawdown(a) * 100.0 >= cfg.maxDailyDrawdownPct, DailyDrawdownLimitReached)
  }

  function AccountReasons(
    cfg: Settings, a: Account, venueSymbol: string, strategy: string, decidedAtMs: int, res: Reservations): seq<Reason>
  {
    ExposureReasons(ConflictReasons(StandingReasons(cfg, a, decidedAtMs), a, venueSymbol, strategy, res), cfg, a, res)
    + OrderReasons(a.openOrders)
  }

  predicate RiskExhausted(cfg: Settings, a: Account, res: Reservations) {
    a.totalOpenRiskUsd + res.openRiskUsd >= a.equityUsd * cfg.maxTotalOpenRiskFraction - 0.000000001
  }

  method AccountGate(
    cfg: Settings, account: Option<Account>, venueSymbol: string, strategy: string, decidedAtMs: int, res: Reservations)
    returns (reasons: seq<Reason>, metrics: Option<AccountMetrics>)
    ensures account.None? ==> reasons == [AccountSnapshotMissing] && metrics == None
    ensures account.Some? ==>
      && reasons == AccountReasons(cfg, account.value, venueSymbol, strategy, decidedAtMs, res)
      && metrics == Some(MetricsOf(account.value, strategy))
  {
    if account.None? {
      return [AccountSnapshotMissing], None;
    }
    var a := account.value;
    reasons := CheckStanding(cfg, a, decidedAtMs);
    reasons := CheckConflicts(reasons, a, venueSymbol, strategy, res);
    hide StandingReasons, ConflictReasons, RiskExhausted, Drawdown, PositionRisk, OrderReasons;
    var risk, gross, own := SumPositions(a.positions, strategy);
    if a.totalOpenRiskUsd + 0.000001 < risk { reasons := reasons + [AccountOpenRiskUnderstated]; }
    if RiskExhausted(cfg, a, res) { reasons := reasons + [PortfolioOpenRiskLimitExhausted]; }
    if Drawdown(a) * 100.0 >= cfg.maxDailyDrawdownPct { reasons := reasons + [DailyDrawdownLimitReached]; }
    var pending, ownPending;
    reasons, pending, ownPending := ScanOrders(a.openOrders, strategy, reasons);
    metrics := Some(AccountMetrics(a.equityUsd, a.availableBalanceUsd, a.totalOpenRiskUsd, gross + pending, own + ownPending));
  }

  method CheckStanding(cfg: Settings, a: Account, decidedAtMs: int) returns (reasons: seq<Reason>)
    ensures reasons == StandingReasons(cfg, a, decidedAtMs)
  {
    reasons := [];
    if !(a.tradingMode.PaperMode? && a.profile.Dev?) { reasons := reasons + [AccountEnvironmentMismatch]; }
    if a.accountId != cfg.accountId { reasons := reasons + [AccountIdMismatch]; }
    if !a.reconciled { reasons := reasons + [AccountNotReconciled]; }
    if a.reconciliationSeq <= 0 { reasons := reasons + [AccountSequenceInvalid]; }
    var age := decidedAtMs - a.capturedAtMs;
    if age < 0 {
      reasons := reasons + [AccountSnapshotFromFuture];
    } else if age as real > cfg.snapshotMaxAgeS * 1000.0 {
      reasons := reasons + [AccountSnapshotStale];
    }
  }

  method CheckConflicts(before: seq<Reason>, a: Account, venueSymbol: string, strategy: string, res: Reservations)
    returns (reasons: seq<Reason>)
    ensures reasons == ConflictReasons(before, a, venueSymbol, strategy, res)
  {
    hide ActiveCanaryTrades;
    reasons := before;
    if venueSymbol in res.symbols { reasons := reasons + [SymbolHasReservedIdea]; }
    if exists p :: p in a.positions && p.lineage.venueSymbol == venueSymbol {
      reasons := reasons + [SymbolHasActivePosition];
    }
    if exists o :: o in a.openOrders && o.lineage.venueSymbol == venueSymbol {
      reasons := reasons + [SymbolHasOpenOrder];
    }
    if strategy == CANARY_STRATEGY && |ActiveCanaryTrades(a)| + res.activeCanaryIdeas >= 1 {
      reasons := reasons + [GlobalCanaryIdeaLimitReached];
    }
  }

  method SumPositions(positions: seq<Position>, strategy: string) returns (risk: real, gross: real, own: real)
    ensures risk == PositionRisk(positions)
    ensures gross == PositionNotional(positions) && own == PositionNotionalFor(positions, strategy)
  {
    hide StopRisk, MarkNotional;
    risk, gross, own := 0.0, 0.0, 0.0;
    for i := 0 to |positions|
      invariant risk == PositionRisk(positions[..i])
      invariant gross == PositionNotional(positions[..i]) && own == PositionNotionalFor(positions[..i], strategy)
    {
      var p := positions[i];
      assert positions[..i + 1][..i] == positions[..i];
      risk := risk + StopRisk(p);
      gross := gross + MarkNotional(p);
      if p.lineage.strategyId == strategy {
        own := own + MarkNotional(p);
      }
    }
    assert positions[..|positions|] == positions;
  }

  lemma OrdersAppend(os: seq<OpenOrder>, o: OpenOrder, strategy: string)
    ensures OrderReasons(os + [o]) == OrderReasons(os) + ReasonsOf(o)
    ensures PendingTotal(os + [o]) == PendingTotal(os) + PendingNotional(o)
    ensures PendingTotalFor(os + [o], strategy)
         == PendingTotalFor(os, strategy) + (if o.lineage.strategyId == strategy then PendingNotional(o) else 0.0)
  {
    hide PendingNotional, ReasonsOf;
    assert (os + [o])[..|os|] == os;
  }

  method ScanOrders(orders: seq<OpenOrder>, strategy: string, before: seq<Reason>)
    returns (reasons: seq<Reason>, pending: real, ownPending: real)
    ensures reasons == before + OrderReasons(orders)
    ensures pending == PendingTotal(orders) && ownPending == PendingTotalFor(orders, strategy)
  {
    reasons, pending, ownPending := before, 0.0, 0.0;
    assert before == before + OrderReasons([]);
    for i := 0 to |orders|
      invariant reasons == before + OrderReasons(orders[..i])
      invariant pending == PendingTotal(orders[..i]) && ownPending == PendingTotalFor(orders[..i], strategy)
    {
      hide OrderReasons, PendingTotal, PendingTotalFor;
      var order := orders[i];
      assert orders[..i + 1] == orders[..i] + [order];
      OrdersAppend(orders[..i], order, strategy);
      if !order.role.EntryOrder? {
        continue;
      }
      reasons := reasons + [PendingEntryOrderPresent];
      if order.filledQuantity >= order.quantity {
        continue;
      }
      if order.price.None? {
        reasons := reasons + [UnvaluedPendingEntryOrder];
        continue;
      }
      var notional := (order.quantity - order.filledQuantity) * order.price.value;
      pending := pending + notional;
      if order.lineage.strategyId == strategy {
        ownPending := ownPending + notional;
      }
    }
    assert orders[..|orders|] == orders;
  }

  // ----- allocation gates -----

  datatype AllocationMetrics = AllocationMetrics(
    strategyId: string, stableReserveFraction: real, strategyWeight: real, maxGrossLeverage: real)

  function AllocationMetricsOf(a: StrategicAllocation, strategy: string): AllocationMetrics {
    AllocationMetrics(strategy, a.stableReservePct, WeightOf(a.strategyWeights, strategy), a.maxGrossLeverage)
  }

  function AllocationReasons(
    cfg: Settings, a: StrategicAllocation, strategy: string, side: Side, decidedAtMs: int, legacyRegime: bool): seq<Reason>
  {
    var producedAtMs := if a.producedAtMs.None? then decidedAtMs + 1 else a.producedAtMs.value;
    var age := decidedAtMs - producedAtMs;
    var r1 := Note([], AllocationInvalid(a), StrategicAllocationInvalid);
    var r2 := Note(r1, a.producedAtMs.None?, StrategicAllocationNaiveTimestamp);
    var r3 := Note(r2, age < 0, StrategicAllocationFromFuture);
    var r4 := Note(r3, age >= 0 && age as real > cfg.allocationMaxAgeS * 1000.0, StrategicAllocationStale);
    var r5 := Note(r4, WeightOf(a.strategyWeights, strategy) <= 0.0, StrategyHasNoMacroAllocation);
    var r6 := Note(r5, legacyRegime && a.regime.Chop?, MacroRegimeChop);
    var r7 := Note(r6, legacyRegime && a.regime.Bear? && side.Long?, MacroRegimeForbidsLong);
    Note(r7, legacyRegime && a.regime.Bull? && side.Short?, MacroRegimeForbidsShort)
  }

  datatype AllocationVerdict = AllocationVerdict(reasons: seq<Reason>, metrics: Option<AllocationMetrics>)

  function AllocationGate(
    cfg: Settings, allocation: Option<StrategicAllocation>, strategy: string, side: Side, decidedAtMs: int, legacyRegime: bool)
    : AllocationVerdict
  {
    match allocation
    case None => AllocationVerdict([StrategicAllocationMissing], None)
    case Some(a) =>
      AllocationVerdict(AllocationReasons(cfg, a, strategy, side, decidedAtMs, legacyRegime),
                        Some(AllocationMetricsOf(a, strategy)))
  }

  /** The causal binding is for this intent, policy, producer and account, and current. */
  predicate BindingValid(cfg: Settings, b: RegimeBinding, intent: Intent, account: Option<Account>, decidedAtMs: int) {
    && b.wellFormed
    && cfg.regimePolicy.Some?
    && cfg.regimePolicy.value in b.acceptedBy
    && b.policyId == cfg.regimePolicy.value
    && b.intent == intent
    && b.source == cfg.regimeMacroSource
    && b.accountId == cfg.accountId
    && account.Some? && b.accountId == account.value.accountId
    && b.accountCapturedAtMs <= intent.decisionTsMs
    && b.boundAtMs <= decidedAtMs <= b.expiresAtMs
  }

  function AdaptiveGate(
    cfg: Settings, binding: Option<RegimeBinding>, intent: Intent, account: Option<Account>, decidedAtMs: int): AllocationVerdict
  {
    match binding
    case None => AllocationVerdict([RegimeBindingMissing], None)
    case Some(b) =>
      if !BindingValid(cfg, b, intent, account, decidedAtMs) then AllocationVerdict([RegimeBindingInvalid], None)
      else AllocationGate(cfg, Some(b.allocation), intent.strategyId, intent.side, decidedAtMs, false)
  }

  predicate Adaptive(cfg: Settings, intent: Intent) {
    cfg.regimePolicy.Some? && intent.strategyId != CANARY_STRATEGY
  }

  function CapitalGate(
    cfg: Settings, allocation: Option<StrategicAllocation>, binding: Option<RegimeBinding>,
    intent: Intent, account: Option<Account>, decidedAtMs: int): AllocationVerdict
  {
    if Adaptive(cfg, intent) then AdaptiveGate(cfg, binding, intent, account, decidedAtMs)
    else AllocationGate(cfg, allocation, intent.strategyId, intent.side, decidedAtMs, true)
  }

  // ----- sizing and economics -----

  function WorstEntry(venue: Venue, side: Side): Pos { if side.Long? then venue.bestAsk else venue.bestBid }

  function SlippageBps(venue: Venue, side: Side): NonNeg {
    if side.Long? then venue.buySlippageBps else venue.sellSlippageBps
  }

  /** Loss of one unit stopped out: distance to the stop, two taker fees and the measured slippage. */
  function LossPerUnit(side: Side, stop: Pos, entry: Pos, venue: Venue): NonNeg {
    Abs(entry - stop) + (entry + stop) * venue.takerFeeBps / 10000.0 + venue.venueMidPrice * SlippageBps(venue, side) / 10000.0
  }

  function DeployableEquity(m: AccountMetrics, al: AllocationMetrics): real {
    Min(m.availableBalanceUsd, m.equityUsd * (1.0 - al.stableReserveFraction))
  }

  function MarginCap(m: AccountMetrics, al: AllocationMetrics, leverage: real): real { DeployableEquity(m, al) * leverage }

  function GrossCap(m: AccountMetrics, al: AllocationMetrics): real {
    m.equityUsd * (1.0 - al.stableReserveFraction) * al.maxGrossLeverage
  }

  function StrategyCap(m: AccountMetrics, al: AllocationMetrics): real {
    m.equityUsd * al.strategyWeight * al.maxGrossLeverage
  }

  function NotionalCap(
    cfg: Settings, venue: Venue, leverage: real, m: AccountMetrics, al: AllocationMetrics, res: Reservations): real
  {
    var margin := Max(0.0, MarginCap(m, al, leverage) - res.notionalUsd);
    var gross := Max(0.0, GrossCap(m, al) - m.grossNotionalUsd - res.notionalUsd);
    var own := Max(0.0, StrategyCap(m, al) - m.strategyNotionalUsd - At(res.strategyNotionalUsd, al.strategyId));
    Min(Min(Min(cfg.maxPositionNotionalUsd, venue.assessedNotionalUsd), Min(venue.depthUsd, margin)), Min(gross, own))
  }

  function SizeQuantity(
    cfg: Settings, side: Side, stop: Pos, entry: Pos, venue: Venue, lossBudget: real, leverage: real,
    m: AccountMetrics, al: AllocationMetrics, res: Reservations): NonNeg
  {
    var lossPerUnit := LossPerUnit(side, stop, entry, venue);
    var cap := NotionalCap(cfg, venue, leverage, m, al, res);
    if lossPerUnit <= 0.0 || lossBudget <= 0.0 then 0.0
    else if cap <= 0.0 then 0.0
    else Max(0.0, Min(lossBudget / lossPerUnit, cap / entry))
  }

  datatype Economics = Economics(fees: NonNeg, slippage: NonNeg, loss: NonNeg)

  function EconomicsOf(quantity: NonNeg, side: Side, stop: Pos, entry: Pos, venue: Venue): Economics {
    var fees := quantity * (entry + stop) * venue.takerFeeBps / 10000.0;
    var slippage := quantity * venue.venueMidPrice * SlippageBps(venue, side) / 10000.0;
    Economics(fees, slippage, quantity * Abs(entry - stop) + fees + slippage)
  }

  /** The two loss formulas agree. */
  lemma EconomicsIsPerUnit(quantity: NonNeg, side: Side, stop: Pos, entry: Pos, venue: Venue)
    ensures EconomicsOf(quantity, side, stop, entry, venue).loss == quantity * LossPerUnit(side, stop, entry, venue)
  {
    var fee, slip := venue.takerFeeBps, SlippageBps(venue, side);
    var distance := Abs(entry - stop);
    var feeUnit, slipUnit := (entry + stop) * fee / 10000.0, venue.venueMidPrice * slip / 10000.0;
    assert quantity * (entry + stop) * fee / 10000.0 == quantity * feeUnit;
    assert quantity * venue.venueMidPrice * slip / 10000.0 == quantity * slipUnit;
    assert quantity * (distance + feeUnit + slipUnit) == quantity * distance + quantity * feeUnit + quantity * slipUnit;
  }

  /** Capacity never costs more than the budget, nor buys more than the notional cap. */
  lemma CapacityFits(
    cfg: Settings, side: Side, stop: Pos, entry: Pos, venue: Venue, lossBudget: real, leverage: real,
    m: AccountMetrics, al: AllocationMetrics, res: Reservations)
    ensures var q := SizeQuantity(cfg, side, stop, entry, venue, lossBudget, leverage, m, al, res);
            && (q > 0.0 <==>
                  (&& LossPerUnit(side, stop, entry, venue) > 0.0 && lossBudget > 0.0
                   && NotionalCap(cfg, venue, leverage, m, al, res) > 0.0))
            && (q > 0.0 ==> EconomicsOf(q, side, stop, entry, venue).loss <= lossBudget)
            && (q > 0.0 ==> q * entry <= NotionalCap(cfg, venue, leverage, m, al, res))
  {
    var q := SizeQuantity(cfg, side, stop, entry, venue, lossBudget, leverage, m, al, res);
    EconomicsIsPerUnit(q, side, stop, entry, venue);
    hide LossPerUnit, NotionalCap, EconomicsOf;
    var unit, cap := LossPerUnit(side, stop, entry, venue), NotionalCap(cfg, venue, leverage, m, al, res);
    if unit > 0.0 && lossBudget > 0.0 && cap > 0.0 {
      PositiveQuotient(lossBudget, unit);
      PositiveQuotient(cap, entry);
    }
    if q > 0.0 {
      QuotientFits(q, lossBudget, unit);
      QuotientFits(q, cap, entry);
    }
  }

  lemma PositiveQuotient(a: real, b: real)
    requires a > 0.0 && b > 0.0
    ensures a / b > 0.0
  {
  }

  lemma QuotientFits(q: real, a: real, b: real)
    requires b > 0.0 && q <= a / b
    ensures q * b <= a
  {
    var x := a / b;
    assert x * b == a;
    assert (x - q) * b >= 0.0;
  }

  // ----- the decision -----

  /** The distinct texts, first occurrence kept. */
  function Dedup(texts: seq<string>): seq<string> {
    if texts == [] then []
    else
      var front, last := Dedup(texts[..|texts| - 1]), texts[|texts| - 1];
      if last in front then front else front + [last]
  }

  function AdmissionReasons(texts: seq<string>): seq<Reason> {
    seq(|texts|, i requires 0 <= i < |texts| => Admission(texts[i]))
  }

  function ReviewReasons(
    cfg: Settings, review: Review, admission: seq<string>, mode: SystemMode, decidedAtMs: int): seq<Reason>
  {
    var intent := review.intent;
    var r0 := AdmissionReasons(Dedup(admission));
    var r1 := Note(r0, review.routeIntent != intent, ImmutableIntentMismatch);
    var r2 := Note(r1, intent.observedSim, SimOnlyIntent);
    var r3 := Note(r2, !review.verdict.Allow?, ReviewNotAllowed(review.verdict));
    var r4 := Note(r3, !cfg.StrategyAllowed(intent.strategyId, intent.strategyRevision), StrategyNotPaperApproved);
    var r5 := Note(r4, !mode.Normal?, SystemModeNotNormal(mode));
    ClockReasons(r5, review, decidedAtMs)
  }

  function ClockReasons(rs: seq<Reason>, review: Review, decidedAtMs: int): seq<Reason> {
    var r1 := Note(rs, decidedAtMs < review.reviewedAtMs, DecisionClockPrecedesReview);
    var r2 := Note(r1, decidedAtMs < review.intent.entryEligibleTsMs, CandidateNotYetEligible);
    Note(r2, decidedAtMs > review.intent.entryExpiresTsMs, CandidateExpired)
  }

  function VenueCodes(codes: seq<string>): seq<Reason> {
    seq(|codes|, i requires 0 <= i < |codes| => VenueReported(codes[i]))
  }

  function VenueReasons(rs: seq<Reason>, intent: Intent, venue: Venue, decidedAtMs: int): seq<Reason> {
    var expected := DevSymbol(intent.symbol);
    var r1 := Note(rs, expected.None?, UnsupportedSignalSymbol);
    var r2 := Note(r1, expected.Some? && venue.symbol != expected.value, VenueSymbolMismatch);
    var r3 := Note(r2, decidedAtMs < venue.observedAtMs, VenueObservationFromFuture);
    var r4 := Note(r3, decidedAtMs > venue.expiresAtMs, VenueQualityStale);
    if venue.entryAllowed then r4 else r4 + [VenueEntryBlocked] + VenueCodes(venue.reasonCodes)
  }

  function GeometryReasons(rs: seq<Reason>, intent: Intent, entry: Pos): seq<Reason> {
    var stop, target := intent.exitPlan.stopPrice, intent.exitPlan.targetPrice;
    var r1 := Note(rs, intent.side.Long? && !(stop < entry < target), LongGeometryInvalid);
    Note(r1, intent.side.Short? && !(target < entry < stop), ShortGeometryInvalid)
  }

  function LossBudget(cfg: Settings, m: AccountMetrics, res: Reservations): NonNeg {
    Min(m.equityUsd * cfg.perTradeRiskFraction,
        Max(0.0, m.equityUsd * cfg.maxTotalOpenRiskFraction - m.totalOpenRiskUsd - res.openRiskUsd))
  }

  function AllowedLeverage(cfg: Settings, al: AllocationMetrics): real { Min(cfg.maxLeverage, al.maxGrossLeverage) }

  function BudgetReasons(rs: seq<Reason>, cfg: Settings, m: AccountMetrics, al: AllocationMetrics, res: Reservations): seq<Reason> {
    var r1 := Note(rs, LossBudget(cfg, m, res) <= 0.0, PortfolioOpenRiskLimitExhausted);
    Note(r1, AllowedLeverage(cfg, al) < 1.0, MacroLeverageBelowOne)
  }

  datatype Sizing = Sizing(reasons: seq<Reason>, quantity: NonNeg)

  /** A canary trades its bound quantity or nothing; anything else trades its capacity. */
  function ChosenQuantity(cfg: Settings, intent: Intent, entry: Pos, leverage: real, capacity: NonNeg): Sizing {
    if intent.strategyId != CANARY_STRATEGY then Sizing([], capacity)
    else
      match BoundQuantity(intent, cfg.accountId, entry)
      case Raised => Sizing([CanaryInstrumentBindingInvalid], 0.0)
      case Ok(required) =>
        if Abs(leverage - 1.0) > 0.000000000001 then Sizing([CanaryLeverageMustEqualOne], 0.0)
        else if required > capacity + 0.000000000001 then Sizing([CanaryMinimumExceedsRiskCapacity], 0.0)
        else Sizing([], required)
  }

  function Sized(cfg: Settings, chosen: Sizing, entry: Pos): Sizing {
    if chosen.quantity <= 0.0 then Sizing(chosen.reasons + [PositionCapacityExhausted], chosen.quantity)
    else if chosen.quantity * entry + 0.000000001 < cfg.minNotionalUsd
    then Sizing(chosen.reasons + [PositionBelowMinimumNotional], 0.0)
    else chosen
  }

  /** Everything the policy reads, so that one name stands for one evaluation. */
  datatype Inputs = Inputs(
    review: Review, venue: Venue, account: Option<Account>, allocation: Option<StrategicAllocation>,
    decidedAtMs: int, mode: SystemMode, reservations: Reservations, admission: seq<string>,
    binding: Option<RegimeBinding>)
  {
    function Entry(): Pos { WorstEntry(venue, review.intent.side) }
    function Capital(cfg: Settings): AllocationVerdict {
      CapitalGate(cfg, allocation, binding, review.intent, account, decidedAtMs)
    }
    function Accounting(cfg: Settings): seq<Reason> {
      if account.None? then [AccountSnapshotMissing]
      else AccountReasons(cfg, account.value, venue.symbol, review.intent.strategyId, decidedAtMs, reservations)
    }
    function Measured(): Option<AccountMetrics> {
      if account.None? then None else Some(MetricsOf(account.value, review.intent.strategyId))
    }
    predicate Acceptable() {
      decidedAtMs >= 0 && venue.profile.Dev? && forall i :: 0 <= i < |admission| ==> IsTrimmed(admission[i])
    }
  }

  /** Reasons raised before the budget is looked at. */
  function GateReasons(cfg: Settings, x: Inputs): seq<Reason> {
    var r1 := ReviewReasons(cfg, x.review, x.admission, x.mode, x.decidedAtMs);
    var r2 := VenueReasons(r1, x.review.intent, x.venue, x.decidedAtMs);
    GeometryReasons(r2 + x.Accounting(cfg) + x.Capital(cfg).reasons, x.review.intent, x.Entry())
  }

  datatype Terms = Terms(reasons: seq<Reason>, lossBudget: NonNeg, leverage: real)

  function TermsOf(cfg: Settings, x: Inputs): Terms {
    var rs := GateReasons(cfg, x);
    if x.account.None? || x.Capital(cfg).metrics.None? then Terms(rs, 0.0, 1.0)
    else
      var m, al := x.Measured().value, x.Capital(cfg).metrics.value;
      var leverage := AllowedLeverage(cfg, al);
      Terms(BudgetReasons(rs, cfg, m, al, x.reservations), LossBudget(cfg, m, x.reservations),
            if leverage < 1.0 then 1.0 else leverage)
  }

  function CapacityOf(cfg: Settings, x: Inputs): NonNeg
    requires x.account.Some? && x.Capital(cfg).metrics.Some?
  {
    var t := TermsOf(cfg, x);
    SizeQuantity(cfg, x.review.intent.side, x.review.intent.exitPlan.stopPrice, x.Entry(), x.venue,
                 t.lossBudget, t.leverage, x.Measured().value, x.Capital(cfg).metrics.value, x.reservations)
  }

  function SizingOf(cfg: Settings, x: Inputs): Sizing {
    var t := TermsOf(cfg, x);
    if t.reasons != [] || x.account.None? || x.Capital(cfg).metrics.None? then Sizing(t.reasons, 0.0)
    else Sized(cfg, ChosenQuantity(cfg, x.review.intent, x.Entry(), t.leverage, CapacityOf(cfg, x)), x.Entry())
  }

  /** The approval or the explicit rejection; a rejection carries no size and no loss. */
  function Finish(cfg: Settings, x: Inputs, t: Terms, sizing: Sizing): Decision {
    var intent, entry := x.review.intent, x.Entry();
    var e := EconomicsOf(sizing.quantity, intent.side, intent.exitPlan.stopPrice, entry, x.venue);
    var reasons := Note(sizing.reasons, e.loss > t.lossBudget + 0.000001, ComputedLossExceedsBudget);
    var approved := reasons == [];
    var quantity: NonNeg := if approved then sizing.quantity else 0.0;
    Decision(x.review, x.venue, approved, reasons,
      if Adaptive(cfg, intent) && x.binding.Some? && x.Capital(cfg).reasons == [] then CausedByBinding else CausedByReview,
      if x.decidedAtMs < x.review.reviewedAtMs then x.review.reviewedAtMs else x.decidedAtMs,
      PaperMode, Dev, cfg.accountId, x.venue.symbol,
      quantity, t.leverage, quantity * entry, t.lossBudget,
      if approved then e.loss else 0.0, entry, if approved then e.fees else 0.0, if approved then e.slippage else 0.0,
      intent.exitPlan)
  }

  function Decide(cfg: Settings, x: Inputs): Result<Decision> {
    if !x.Acceptable() then Raised else Ok(Finish(cfg, x, TermsOf(cfg, x), SizingOf(cfg, x)))
  }

  // ----- the step-by-step evaluation -----

  method CheckReview(cfg: Settings, review: Review, admission: seq<string>, mode: SystemMode, decidedAtMs: int)
    returns (reasons: seq<Reason>)
    ensures reasons == ReviewReasons(cfg, review, admission, mode, decidedAtMs)
  {
    hide Dedup, AdmissionReasons, Settings.StrategyAllowed;
    var intent := review.intent;
    reasons := AdmissionReasons(Dedup(admission));
    if review.routeIntent != intent { reasons := reasons + [ImmutableIntentMismatch]; }
    if intent.observedSim { reasons := reasons + [SimOnlyIntent]; }
    if !review.verdict.Allow? { reasons := reasons + [ReviewNotAllowed(review.verdict)]; }
    if !cfg.StrategyAllowed(intent.strategyId, intent.strategyRevision) { reasons := reasons + [StrategyNotPaperApproved]; }
    if !mode.Normal? { reasons := reasons + [SystemModeNotNormal(mode)]; }
    reasons := CheckClock(reasons, review, decidedAtMs);
  }

  method CheckClock(before: seq<Reason>, review: Review, decidedAtMs: int) returns (reasons: seq<Reason>)
    ensures reasons == ClockReasons(before, review, decidedAtMs)
  {
    reasons := before;
    if decidedAtMs < review.reviewedAtMs { reasons := reasons + [DecisionClockPrecedesReview]; }
    if decidedAtMs < review.intent.entryEligibleTsMs { reasons := reasons + [CandidateNotYetEligible]; }
    if decidedAtMs > review.intent.entryExpiresTsMs { reasons := reasons + [CandidateExpired]; }
  }

  method CheckVenue(before: seq<Reason>, intent: Intent, venue: Venue, decidedAtMs: int) returns (reasons: seq<Reason>)
    ensures reasons == VenueReasons(before, intent, venue, decidedAtMs)
  {
    hide DevSymbol;
    var expected := DevSymbol(intent.symbol);
    reasons := before;
    if expected.None? {
      reasons := reasons + [UnsupportedSignalSymbol];
    } else if venue.symbol != expected.value {
      reasons := reasons + [VenueSymbolMismatch];
    }
    if decidedAtMs < venue.observedAtMs { reasons := reasons + [VenueObservationFromFuture]; }
    if decidedAtMs > venue.expiresAtMs { reasons := reasons + [VenueQualityStale]; }
    if !venue.entryAllowed {
      reasons := reasons + [VenueEntryBlocked];
      reasons := reasons + VenueCodes(venue.reasonCodes);
    }
  }

  method ChooseAndCheck(cfg: Settings, intent: Intent, entry: Pos, leverage: real, capacity: NonNeg)
    returns (quantity: NonNeg, reasons: seq<Reason>)
    ensures Sizing(reasons, quantity) == Sized(cfg, ChosenQuantity(cfg, intent, entry, leverage, capacity), entry)
  {
    hide BoundQuantity;
    quantity, reasons := 0.0, [];
    if intent.strategyId == CANARY_STRATEGY {
      var required := BoundQuantity(intent, cfg.accountId, entry);
      if required.Raised? {
        reasons := reasons + [CanaryInstrumentBindingInvalid];
      } else if Abs(leverage - 1.0) > 0.000000000001 {
        reasons := reasons + [CanaryLeverageMustEqualOne];
      } else if required.value > capacity + 0.000000000001 {
        reasons := reasons + [CanaryMinimumExceedsRiskCapacity];
      } else {
        quantity := required.value;
      }
    } else {
      quantity := capacity;
    }
    var notional := quantity * entry;
    if quantity <= 0.0 {
      reasons := reasons + [PositionCapacityExhausted];
    } else if notional + 0.000000001 < cfg.minNotionalUsd {
      reasons := reasons + [PositionBelowMinimumNotional];
      quantity := 0.0;
    }
  }

  /** Every gate in order, with the figures that account and allocation supply. */
  method RunGates(cfg: Settings, x: Inputs)
    returns (reasons: seq<Reason>, account: Option<AccountMetrics>, capital: AllocationVerdict)
    ensures reasons == GateReasons(cfg, x) && account == x.Measured() && capital == x.Capital(cfg)
  {
    hide AccountReasons, MetricsOf, ReviewReasons, VenueReasons, CapitalGate;
    var intent, entry := x.review.intent, x.Entry();
    reasons := CheckReview(cfg, x.review, x.admission, x.mode, x.decidedAtMs);
    reasons := CheckVenue(reasons, intent, x.venue, x.decidedAtMs);
    var accounting;
    accounting, account := AccountGate(cfg, x.account, x.venue.symbol, intent.strategyId, x.decidedAtMs, x.reservations);
    reasons := reasons + accounting;
    capital := CapitalGate(cfg, x.allocation, x.binding, intent, x.account, x.decidedAtMs);
    reasons := reasons + capital.reasons;
    var stop, target := intent.exitPlan.stopPrice, intent.exitPlan.targetPrice;
    if intent.side.Long? && !(stop < entry < target) {
      reasons := reasons + [LongGeometryInvalid];
    } else if intent.side.Short? && !(target < entry < stop) {
      reasons := reasons + [ShortGeometryInvalid];
    }
  }

  /** Loss budget and leverage, with the reasons that exhaust them. */
  method SetTerms(
    cfg: Settings, x: Inputs, before: seq<Reason>, account: Option<AccountMetrics>, capital: AllocationVerdict)
    returns (t: Terms)
    requires before == GateReasons(cfg, x) && account == x.Measured() && capital == x.Capital(cfg)
    ensures t == TermsOf(cfg, x)
  {
    hide GateReasons, MetricsOf, CapitalGate, LossBudget, AllowedLeverage;
    var reasons, lossBudget: NonNeg, leverage := before, 0.0, 1.0;
    if account.Some? && capital.metrics.Some? {
      lossBudget := LossBudget(cfg, account.value, x.reservations);
      if lossBudget <= 0.0 { reasons := reasons + [PortfolioOpenRiskLimitExhausted]; }
      leverage := AllowedLeverage(cfg, capital.metrics.value);
      if leverage < 1.0 {
        reasons := reasons + [MacroLeverageBelowOne];
        leverage := 1.0;
      }
    }
    t := Terms(reasons, lossBudget, leverage);
  }

  /** The quantity, once nothing has been objected to. */
  method SizeOrder(cfg: Settings, x: Inputs, t: Terms, account: Option<AccountMetrics>, capital: AllocationVerdict)
    returns (s: Sizing)
    requires t == TermsOf(cfg, x) && account == x.Measured() && capital == x.Capital(cfg)
    ensures s == SizingOf(cfg, x)
  {
    hide TermsOf, MetricsOf, CapitalGate, SizeQuantity, Sized, ChosenQuantity;
    var intent, entry := x.review.intent, x.Entry();
    var reasons, quantity: NonNeg := t.reasons, 0.0;
    if reasons == [] && account.Some? && capital.metrics.Some? {
      var capacity := SizeQuantity(cfg, intent.side, intent.exitPlan.stopPrice, entry, x.venue, t.lossBudget, t.leverage,
                                   account.value, capital.metrics.value, x.reservations);
      quantity, reasons := ChooseAndCheck(cfg, intent, entry, t.leverage, capacity);
    }
    s := Sizing(reasons, quantity);
  }

  /** The decision, with everything zeroed when there is a reason against it. */
  method Settle(cfg: Settings, x: Inputs, t: Terms, sizing: Sizing, capital: AllocationVerdict) returns (d: Decision)
    requires capital == x.Capital(cfg)
    ensures d == Finish(cfg, x, t, sizing)
  {
    hide CapitalGate, EconomicsOf;
    var intent, entry, reasons, quantity := x.review.intent, x.Entry(), sizing.reasons, sizing.quantity;
    var e := EconomicsOf(quantity, intent.side, intent.exitPlan.stopPrice, entry, x.venue);
    var fees, slippage, loss := e.fees, e.slippage, e.loss;
    if loss > t.lossBudget + 0.000001 {
      reasons := reasons + [ComputedLossExceedsBudget];
      quantity, fees, slippage, loss := 0.0, 0.0, 0.0, 0.0;
    }
    if reasons != [] {
      quantity, fees, slippage, loss := 0.0, 0.0, 0.0, 0.0;
    }
    d := Decision(x.review, x.venue, reasons == [], reasons,
      if Adaptive(cfg, intent) && x.binding.Some? && capital.reasons == [] then CausedByBinding else CausedByReview,
      if x.decidedAtMs < x.review.reviewedAtMs then x.review.reviewedAtMs else x.decidedAtMs,
      PaperMode, Dev, cfg.accountId, x.venue.symbol, quantity, t.leverage, quantity * entry, t.lossBudget, loss,
      entry, fees, slippage, intent.exitPlan);
  }

  /** Runs every gate, then the budget, then the sizing, accumulating reasons. */
  method Evaluate(cfg: Settings, x: Inputs) returns (r: Result<Decision>)
    ensures r == Decide(cfg, x)
  {
    hide GateReasons, TermsOf, SizingOf, Finish, IsTrimmed, CapitalGate, MetricsOf;
    if !x.Acceptable() {
      return Raised;
    }
    var reasons, account, capital := RunGates(cfg, x);
    var t := SetTerms(cfg, x, reasons, account, capital);
    var sizing := SizeOrder(cfg, x, t, account, capital);
    var d := Settle(cfg, x, t, sizing, capital);
    r := Ok(d);
  }
}
