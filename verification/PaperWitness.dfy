/** One concrete run that ends in a new approval, for any size: the theorems about approvals are about something. */
module PaperWitness {
  import opened Common
  import opened Contracts
  import opened CanaryInstrument
  import opened PaperPipeline
  import opened PaperPolicy
  import opened PaperState
  import opened PaperRuns

  /** Dollars of equity, and of the position that is approved on it. */
  type Size = r: real | r >= 10000.0 witness 10000.0

  /** From entry to stop, such that the whole position loses one dollar. */
  function Distance(n: Size): (d: Pos)
    ensures d <= 0.01 && d * n == 100.0
  {
    ScaleUp(0.01, 100.0 / n, n);
    ScaleUp(0.0, 100.0 / n, n);
    100.0 / n
  }

  function Units(n: Size): (q: Pos)
    ensures q * 100.0 == n && q * Distance(n) == 1.0
  {
    assert Distance(n) * n == 100.0 * (n / 100.0 * Distance(n));
    n / 100.0
  }

  function Plan(n: Size): ExitPlan { ExitPlan(100.0 - Distance(n), 110.0, 60000) }
  function Idea(n: Size): Intent { Intent("breakout", "2", "ETHUSDT", Long, 10, 20, 40, Plan(n), false, OtherMetadata, []) }
  function Reviewed(n: Size): Review { Review(Idea(n), Idea(n), Allow, 15) }
  function Quote(n: Size): Venue {
    Venue(Dev, "ETHUSD:DEV", 20, 50, 100.0, 100.0, 100.0, n, n, 0.0, 0.0, 0.0, true, [])
  }
  function Book(n: Size): Account { Account(PaperMode, Dev, "paper-1", n, n, n, n, 0.0, 0.0, 20, 1, true, [], []) }
  const CAPITAL := StrategicAllocation(Bull, 0.0, [("breakout", 1.0)], 1.0, Some(20))
  function Cfg(n: Size): Settings {
    Settings("paper-1", {"breakout@2", "technical-canary@1"}, 60.0, 60.0, 5.0, 0.0025, 0.01, 1.0, n, 0.0000000001, 100, None, "")
  }
  function Asked(n: Size): Request { Request(Reviewed(n), Some(CAPITAL), 30, Normal, []) }
  function Ready(n: Size): seq<Event> { [RestoreEvent([]), AccountEvent(Book(n)), VenueEvent(Quote(n))] }

  /** The state in which nothing but one account and one measurement is known. */
  function Settled(n: Size): State {
    State(Some(Book(n)), Some(1), Some(20), map["ETHUSD:DEV" := Quote(n)],
          map["ETHUSD:DEV" := VenueVersion(20, Some(Quote(n)))], OrderedMap([], map[]), OrderedMap([], map[]), true, true,
          OrderedMap([], map[]))
  }

  function Given(n: Size): Inputs {
    Inputs(Reviewed(n), Quote(n), Some(Book(n)), Some(CAPITAL), 30, Normal, ViewOf([]), [], None)
  }

  lemma NothingReserved()
    ensures var r := ViewOf([]);
      r.symbols == {} && r.openRiskUsd == 0.0 && r.notionalUsd == 0.0 && r.activeCanaryIdeas == 0
      && At(r.strategyNotionalUsd, "breakout") == 0.0 && ReservationsValid(r)
  {
    ViewAggregates([]);
  }

  lemma Allowed(n: Size)
    ensures Cfg(n).StrategyAllowed("breakout", "2")
  {
    assert "breakout" + "@" + "2" == "breakout@2";
  }

  lemma Weights()
    ensures WeightOf(CAPITAL.strategyWeights, "breakout") == 1.0 && !AllocationInvalid(CAPITAL)
  {
    assert CAPITAL.strategyWeights[1..] == [];
    assert WeightSum([]) == 0.0;
    assert WeightSum(CAPITAL.strategyWeights) == 1.0;
  }

  lemma NoDrawdown(n: Size)
    ensures Drawdown(Book(n)) == 0.0
  {
  }

  lemma AccountOpen(n: Size)
    ensures AccountAdmissible(Cfg(n), Given(n))
  {
    hide ViewOf, Distance, Drawdown;
    NothingReserved();
    NoDrawdown(n);
    assert Book(n).positions == [] && Book(n).openOrders == [];
    assert PositionRisk([]) == 0.0;
    assert !RiskExhausted(Cfg(n), Book(n), ViewOf([]));
  }

  lemma GatesAreOpen(n: Size)
    ensures GatesOpen(Cfg(n), Given(n))
  {
    hide ViewOf, WeightOf, AllocationInvalid, Settings.StrategyAllowed, AccountAdmissible;
    Allowed(n);
    Weights();
    AccountOpen(n);
  }

  function Metrics(n: Size): AccountMetrics { AccountMetrics(n, n, 0.0, 0.0, 0.0) }
  const FUNDS := AllocationMetrics("breakout", 0.0, 1.0, 1.0)

  lemma Measures(n: Size)
    ensures Given(n).Measured() == Some(Metrics(n))
  {
    hide ViewOf;
    assert Book(n).positions == [] && Book(n).openOrders == [];
    assert PositionNotional([]) == 0.0 && PendingTotal([]) == 0.0;
    assert PositionNotionalFor([], "breakout") == 0.0 && PendingTotalFor([], "breakout") == 0.0;
  }

  lemma Figures(n: Size)
    ensures Given(n).Capital(Cfg(n)).metrics == Some(FUNDS) && Given(n).Measured() == Some(Metrics(n))
    ensures LossBudget(Cfg(n), Metrics(n), ViewOf([])) == 0.0025 * n && AllowedLeverage(Cfg(n), FUNDS) == 1.0
  {
    hide ViewOf, WeightOf, AllocationInvalid, AllocationReasons, MetricsOf, Inputs.Measured;
    NothingReserved();
    Weights();
    Measures(n);
  }

  lemma WholeCap(n: Size)
    ensures NotionalCap(Cfg(n), Quote(n), 1.0, Metrics(n), FUNDS, ViewOf([])) == n
  {
    hide ViewOf, At;
    NothingReserved();
    assert DeployableEquity(Metrics(n), FUNDS) == n;
  }

  lemma UnitLoss(n: Size)
    ensures LossPerUnit(Long, Plan(n).stopPrice, 100.0, Quote(n)) == Distance(n)
  {
    hide Distance;
  }

  lemma AtMostQuotient(q: real, a: real, b: real)
    requires b > 0.0 && q * b <= a
    ensures q <= a / b
  {
    ScaleUp(a / b, q, b);
  }

  lemma Capacity(n: Size)
    ensures SizeQuantity(Cfg(n), Long, Plan(n).stopPrice, 100.0, Quote(n), 0.0025 * n, 1.0, Metrics(n), FUNDS, ViewOf([]))
         == Units(n)
  {
    hide ViewOf, NotionalCap, LossPerUnit, Distance;
    WholeCap(n);
    UnitLoss(n);
    AtMostQuotient(Units(n), 0.0025 * n, Distance(n));
    assert n / 100.0 == Units(n);
  }

  lemma OneDollar(n: Size)
    ensures EconomicsOf(Units(n), Long, Plan(n).stopPrice, 100.0, Quote(n)).loss == 1.0
  {
    EconomicsIsPerUnit(Units(n), Long, Plan(n).stopPrice, 100.0, Quote(n));
    hide EconomicsOf, LossPerUnit, Distance, Units;
    UnitLoss(n);
  }

  lemma TermsAre(n: Size)
    ensures Given(n).account.Some? && Given(n).Capital(Cfg(n)).metrics == Some(FUNDS)
    ensures TermsOf(Cfg(n), Given(n)) == Terms([], 0.0025 * n, 1.0) && CapacityOf(Cfg(n), Given(n)) == Units(n)
  {
    hide ViewOf, GatesOpen, GateReasons, CapitalGate, MetricsOf, LossBudget, AllowedLeverage, SizeQuantity, Distance;
    GatesAreOpen(n);
    Figures(n);
    Capacity(n);
    TermsExact(Cfg(n), Given(n));
  }

  /** The decision that this idea gets. */
  function Answer(n: Size): Decision {
    Approved(n);
    Decide(Cfg(n), Given(n)).value
  }

  lemma Approved(n: Size)
    ensures Decide(Cfg(n), Given(n)).Ok?
    ensures var d := Decide(Cfg(n), Given(n)).value;
      d.approved && d.quantity == Units(n) && d.notionalUsd == n && d.worstCaseLossUsd == 1.0
  {
    hide ViewOf, GatesOpen, CapitalGate, TermsOf, CapacityOf, SizeQuantity, Distance, Units, Decide, LossBudget, EconomicsOf;
    var x := Given(n);
    GatesAreOpen(n);
    TermsAre(n);
    OneDollar(n);
    ApprovedExactly(Cfg(n), x);
    ApprovalRecords(Cfg(n), x, Decide(Cfg(n), x).value);
  }

  /** After recovery, one snapshot and one measurement, the idea is newly approved: for the whole equity, at a
      stop that loses one dollar. */
  lemma ApprovalReachable(n: Size)
    ensures Run(Cfg(n), FRESH, Ready(n)) == Settled(n)
    ensures NewlyApproves(Cfg(n), Settled(n), EvaluateEvent(Asked(n)), Answer(n))
    ensures Answer(n).quantity == n / 100.0 && Answer(n).notionalUsd == n && Answer(n).worstCaseLossUsd == 1.0
  {
    hide Run, Decide, ViewOf, Record, Distance;
    SettledRun(n);
    NothingReserved();
    Approved(n);
    assert LedgerOf(Settled(n).reservations) == [];
    assert InputsFor(Cfg(n), Settled(n), Asked(n), Quote(n)) == Given(n);
    assert EvaluateStep(Cfg(n), Settled(n), Asked(n)).outcome == Decided(Answer(n));
  }

  lemma SettledRun(n: Size)
    ensures Run(Cfg(n), FRESH, Ready(n)) == Settled(n)
  {
    hide Restore, ApplyAccount, Distance;
    var es := Ready(n);
    assert es[..2][..1] == [RestoreEvent([])] && es[..2] == [RestoreEvent([]), AccountEvent(Book(n))];
    assert Run(Cfg(n), FRESH, []) == FRESH;
    NothingRestored(n);
    assert Run(Cfg(n), FRESH, [RestoreEvent([])]) == FRESH.(durableLoaded := true);
    Adopted(n);
    var adopted := Settled(n).(venue := map[], venueVersions := map[]);
    assert Run(Cfg(n), FRESH, es[..2]) == adopted;
    assert ApplyVenue(adopted, Quote(n)) == Step(Settled(n), Applied);
  }

  lemma NothingRestored(n: Size)
    ensures Restore(Cfg(n), FRESH, []) == Step(FRESH.(durableLoaded := true), Applied)
  {
  }

  lemma Adopted(n: Size)
    ensures ApplyAccount(Cfg(n), FRESH.(durableLoaded := true), Book(n)) ==
      Step(Settled(n).(venue := map[], venueVersions := map[]), Applied)
  {
    assert ReleasedTrades(FRESH.reservations, Book(n)) == {};
  }
}
