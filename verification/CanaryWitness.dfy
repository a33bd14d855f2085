/** A canary approved although nothing is left under the caps: how far its tolerance can reach. */
module CanaryWitness {
  import opened Common
  import opened Contracts
  import opened Decimals
  import opened CanaryInstrument
  import opened PaperPipeline
  import opened PaperPolicy
  import opened PaperState
  import opened PaperInvariants
  import opened PaperReplay
  import opened PaperRuns
  import opened PaperCaps
  import Past = PaperWitness

  // ----- an instrument whose least legal order is 1e-12 units -----

  const TINY := Dec(1, -12)
  const RULE := Rule("BTCUSD:DEV", "all", "OPEN", 5,
    [Dec(1, 0), Dec(1, 0), TINY, Dec(1, 0), Dec(1, -10), Dec(1, 0), Dec(1000, 0), TINY, Dec(1, 0)], 5)
  const NUMBERS := Numbers(1.0, 1.0, 0.000000000001, 1.0, 0.0000000001, 1.0, 1000.0, 0.000000000001, 1.0)

  lemma Powers()
    ensures Pow10(0) == 1 && Pow10(10) == 10000000000 && Pow10(12) == 1000000000000
  {
    assert Pow10(5) == 100000;
    assert Pow10(10) == 10000000000;
  }

  lemma Figures()
    ensures NumbersOf(RULE.decimals) == NUMBERS && Value(TINY) == 0.000000000001
  {
    Powers();
    hide Pow10;
  }

  lemma RuleHolds()
    ensures RuleValid(RULE) && QuantityFits(RULE, TINY)
  {
    Figures();
    assert "BTCUSD:DEV"[6..] == ":DEV";
    MultipleAligned(1, 1.0);
    MultipleAligned(1000, 1.0);
    MultipleAligned(1, 0.000000000001);
    hide Value, NumbersOf, Aligned;
  }

  lemma LeastOrder()
    ensures NumbersValid(NUMBERS) && EffectiveMinQuantity(NUMBERS, 100.0) == Ok(0.000000000001)
  {
    RuleHolds();
    Figures();
    MultipleAligned(100, 1.0);
    hide Value, NumbersOf, Aligned;
    assert StepsFor(0.0000000001, 100.0, 0.000000000001) == 1;
  }

  const IDEA := Intent(CANARY_STRATEGY, "1", "BTCUSDT", Long, 10, 20, 40, ExitPlan(99.0, 110.0, 60000), false,
                       MetadataOf(RULE, TINY, "paper-1"), [RuleEvidence(RULE)])

  lemma BoundIsTiny()
    ensures BoundQuantity(IDEA, "paper-1", 100.0) == Ok(0.000000000001)
  {
    RuleHolds();
    Figures();
    LeastOrder();
    BindingRoundTrip(RULE, TINY, "paper-1");
    hide Value, NumbersOf, BoundInstrument, MetadataOf, RuleEvidence, EffectiveMinQuantity, RuleValid, NumbersValid;
  }

  // ----- a ledger that already fills the margin -----

  const PLAN := ExitPlan(99.0, 110.0, 60000)
  const QUOTE := Venue(Dev, "BTCUSD:DEV", 20, 50, 100.0, 100.0, 100.0, 1000.0, 1000.0, 0.0, 0.0, 0.0, true, [])
  const BOOK := Account(PaperMode, Dev, "paper-1", 10000.0, 10000.0, 10000.0, 10000.0, 0.0, 0.0, 20, 1, true, [], [])
  const CAPITAL := StrategicAllocation(Bull, 0.0, [(CANARY_STRATEGY, 0.5)], 1.0, Some(20))
  const METRICS := AccountMetrics(10000.0, 10000.0, 0.0, 0.0, 0.0)
  const FUNDS := AllocationMetrics(CANARY_STRATEGY, 0.0, 0.5, 1.0)

  /** The settings under which the past approval was given, and everything below happens. */
  function Cfg(n: Past.Size): Settings { Past.Cfg(n) }

  /** An approval of notional `n` that an earlier run gave. */
  function Held(n: Past.Size): Decision { Past.Answer(n) }

  lemma HeldFigures(n: Past.Size)
    ensures Recoverable(Cfg(n), Held(n)) && Held(n).review == Past.Reviewed(n) && Held(n).venueSymbol == "ETHUSD:DEV"
    ensures Held(n).notionalUsd == n && Held(n).worstCaseLossUsd == 1.0
    ensures Decide(Cfg(n), Past.Given(n)) == Ok(Held(n))
  {
    hide Decide, ViewOf, Past.Distance;
    Past.Approved(n);
    hide EconomicsOf, GatesOpen, TermsOf, CapacityOf, LossBudget;
    ApprovalRecords(Cfg(n), Past.Given(n), Held(n));
  }

  /** A long canary idea on BTC in its entry window, bound to 1e-12 units. */
  predicate Suits(i: Intent) {
    && i.strategyId == CANARY_STRATEGY && i.strategyRevision == "1" && i.symbol == "BTCUSDT" && i.side.Long?
    && i.entryEligibleTsMs == 20 && i.entryExpiresTsMs == 40 && i.exitPlan == PLAN && !i.observedSim
    && BoundQuantity(i, "paper-1", 100.0) == Ok(0.000000000001)
  }

  function Asked(i: Intent): Request { Request(Review(i, i, Allow, 15), Some(CAPITAL), 30, Normal, []) }

  function Given(i: Intent, n: Past.Size): Inputs {
    Inputs(Review(i, i, Allow, 15), QUOTE, Some(BOOK), Some(CAPITAL), 30, Normal, ViewOf([Held(n)]), [], None)
  }

  /** The aggregate of a single approval. */
  lemma OneReserved(d: Decision)
    requires d.approved
    ensures var r := ViewOf([d]);
      && r.symbols == {d.venueSymbol} && r.openRiskUsd == d.worstCaseLossUsd && r.notionalUsd == d.notionalUsd
      && r.activeCanaryIdeas == CanaryCount(d)
      && (d.review.intent.strategyId != CANARY_STRATEGY ==> At(r.strategyNotionalUsd, CANARY_STRATEGY) == 0.0)
  {
    var ds := [d];
    ViewAggregates(ds);
    assert ds[..0] == [] && StrategyTotal([], CANARY_STRATEGY) == 0.0;
    assert TotalLoss(ds) == d.worstCaseLossUsd && TotalNotional(ds) == d.notionalUsd && CanaryIdeas(ds) == CanaryCount(d);
    assert StrategyTotal(ds, CANARY_STRATEGY) == NotionalFor(d, CANARY_STRATEGY);
    assert d in ds && SymbolsOf(ds) == {d.venueSymbol};
    hide Held, ViewOf, TotalLoss, TotalNotional, StrategyTotal, CanaryIdeas;
  }

  lemma HeldReserved(n: Past.Size)
    ensures var r := ViewOf([Held(n)]);
      && r.symbols == {"ETHUSD:DEV"} && r.openRiskUsd == 1.0 && r.notionalUsd == n && r.activeCanaryIdeas == 0
      && At(r.strategyNotionalUsd, CANARY_STRATEGY) == 0.0
  {
    hide Held, ViewOf, At, Held;
    HeldFigures(n);
    assert Held(n).review.intent.strategyId == "breakout";
    OneReserved(Held(n));
  }

  lemma Weights(n: Past.Size)
    ensures WeightOf(CAPITAL.strategyWeights, CANARY_STRATEGY) == 0.5 && !AllocationInvalid(CAPITAL)
    ensures Cfg(n).StrategyAllowed(CANARY_STRATEGY, "1")
  {
    assert CAPITAL.strategyWeights[1..] == [];
    assert WeightSum([]) == 0.0;
    assert WeightSum(CAPITAL.strategyWeights) == 0.5;
    assert CANARY_STRATEGY + "@" + "1" == "technical-canary@1";
  }

  lemma AccountOpen(i: Intent, n: Past.Size)
    requires Suits(i)
    ensures AccountAdmissible(Cfg(n), Given(i, n))
  {
    hide Held, ViewOf, BoundQuantity, Held;
    HeldReserved(n);
    assert BOOK.positions == [] && BOOK.openOrders == [];
    assert PositionRisk([]) == 0.0 && Drawdown(BOOK) == 0.0 && ActiveCanaryTrades(BOOK) == {};
    assert !RiskExhausted(Cfg(n), BOOK, ViewOf([Held(n)]));
  }

  lemma GatesAreOpen(i: Intent, n: Past.Size)
    requires Suits(i)
    ensures GatesOpen(Cfg(n), Given(i, n))
  {
    hide Held, ViewOf, WeightOf, AllocationInvalid, Settings.StrategyAllowed, AccountAdmissible, BoundQuantity;
    Weights(n);
    AccountOpen(i, n);
  }

  lemma Measures(i: Intent, n: Past.Size)
    requires Suits(i)
    ensures Given(i, n).Measured() == Some(METRICS)
  {
    hide Held, ViewOf, BoundQuantity, Held;
    assert BOOK.positions == [] && BOOK.openOrders == [];
    assert PositionNotional([]) == 0.0 && PendingTotal([]) == 0.0;
    assert PositionNotionalFor([], CANARY_STRATEGY) == 0.0 && PendingTotalFor([], CANARY_STRATEGY) == 0.0;
  }

  lemma Funds(i: Intent, n: Past.Size)
    requires Suits(i)
    ensures Given(i, n).Capital(Cfg(n)).metrics == Some(FUNDS)
    ensures LossBudget(Cfg(n), METRICS, ViewOf([Held(n)])) == 25.0 && AllowedLeverage(Cfg(n), FUNDS) == 1.0
  {
    hide Held, ViewOf, WeightOf, AllocationInvalid, AllocationReasons, BoundQuantity;
    HeldReserved(n);
    Weights(n);
  }

  /** Reserved notional beyond the margin leaves no room and no capacity. */
  lemma NothingLeft(n: Past.Size)
    ensures NotionalCap(Cfg(n), QUOTE, 1.0, METRICS, FUNDS, ViewOf([Held(n)])) == 0.0
    ensures SizeQuantity(Cfg(n), Long, 99.0, 100.0, QUOTE, 25.0, 1.0, METRICS, FUNDS, ViewOf([Held(n)])) == 0.0
  {
    HeldReserved(n);
    hide Held, ViewOf, At;
    assert DeployableEquity(METRICS, FUNDS) == 10000.0;
  }

  lemma TermsAre(i: Intent, n: Past.Size)
    requires Suits(i)
    ensures Given(i, n).account.Some? && Given(i, n).Capital(Cfg(n)).metrics == Some(FUNDS)
    ensures TermsOf(Cfg(n), Given(i, n)) == Terms([], 25.0, 1.0)
  {
    hide Held, ViewOf, GatesOpen, GateReasons, CapitalGate, MetricsOf, LossBudget, AllowedLeverage, BoundQuantity;
    GatesAreOpen(i, n);
    Measures(i, n);
    Funds(i, n);
    TermsExact(Cfg(n), Given(i, n));
  }

  lemma NoCapacity(i: Intent, n: Past.Size)
    requires Suits(i)
    ensures Given(i, n).account.Some? && Given(i, n).Capital(Cfg(n)).metrics.Some?
    ensures CapacityOf(Cfg(n), Given(i, n)) == 0.0 && Room(Cfg(n), Given(i, n)) == 0.0
  {
    hide Held, ViewOf, CapitalGate, MetricsOf, TermsOf, SizeQuantity, NotionalCap, BoundQuantity;
    TermsAre(i, n);
    Measures(i, n);
    NothingLeft(n);
  }

  lemma TinyCosts()
    ensures EconomicsOf(0.000000000001, Long, 99.0, 100.0, QUOTE).loss == 0.000000000001
  {
  }

  lemma StillSized(i: Intent, n: Past.Size)
    requires Suits(i)
    ensures Given(i, n).account.Some? && Given(i, n).Capital(Cfg(n)).metrics.Some?
    ensures ChosenQuantity(Cfg(n), i, 100.0, 1.0, 0.0) == Sizing([], 0.000000000001) && SizeAdmissible(Cfg(n), Given(i, n))
  {
    hide Held, ViewOf, CapitalGate, TermsOf, CapacityOf, Room, BoundQuantity, EconomicsOf;
    TermsAre(i, n);
    NoCapacity(i, n);
    TinyCosts();
    assert ChosenQuantity(Cfg(n), i, 100.0, 1.0, 0.0) == Sizing([], 0.000000000001);
    hide ChosenQuantity;
  }

  lemma Approved(i: Intent, n: Past.Size)
    requires Suits(i)
    ensures var x := Given(i, n);
      && Decide(Cfg(n), x).Ok? && Decide(Cfg(n), x).value.approved && Decide(Cfg(n), x).value.quantity == 0.000000000001
      && x.account.Some? && x.Capital(Cfg(n)).metrics.Some? && CapacityOf(Cfg(n), x) == 0.0 && Room(Cfg(n), x) == 0.0
  {
    hide Held, ViewOf, GatesOpen, CapitalGate, TermsOf, CapacityOf, Room, BoundQuantity, ChosenQuantity, SizeAdmissible, EconomicsOf,
         Decide, LossBudget;
    var x := Given(i, n);
    GatesAreOpen(i, n);
    TermsAre(i, n);
    NoCapacity(i, n);
    StillSized(i, n);
    ApprovedExactly(Cfg(n), x);
    ApprovalRecords(Cfg(n), x, Decide(Cfg(n), x).value);
  }

  // ----- the run -----

  function Ready(d: Decision): seq<Event> { [RestoreEvent([d]), AccountEvent(BOOK), VenueEvent(QUOTE)] }

  function Loaded(d: Decision): State {
    FRESH.(reservations := OrderedMap([d.Trade()], map[d.Trade() := Reservation(d, 0)]),
           decisions := OrderedMap([d.review], map[d.review := d]), durableLoaded := true)
  }

  function Adopted(d: Decision): State {
    Loaded(d).(account := Some(BOOK), latestSeq := Some(1), latestCapturedAtMs := Some(20), accountReady := true)
  }

  function Settled(d: Decision): State {
    Adopted(d).(venue := map["BTCUSD:DEV" := QUOTE], venueVersions := map["BTCUSD:DEV" := VenueVersion(20, Some(QUOTE))])
  }

  /** An approval of account paper-1 that has not expired. */
  predicate Current(cfg: Settings, d: Decision) {
    && Recoverable(cfg, d) && cfg.accountId == "paper-1" && cfg.decisionCacheSize >= 1
    && d.review.intent.entryExpiresTsMs >= 20
  }

  lemma RestoresOne(cfg: Settings, d: Decision)
    requires Current(cfg, d)
    ensures Restore(cfg, FRESH, [d]) == Step(Loaded(d), Applied)
  {
    assert [d][..0] == [];
    assert RememberAll(cfg, FRESH, []) == Step(FRESH, Applied);
    assert RememberAll(cfg, FRESH, [d]) == Step(Remember(FRESH, d), Applied);
    hide RememberAll;
  }

  lemma AdoptsBook(cfg: Settings, d: Decision)
    requires Current(cfg, d)
    ensures ApplyAccount(cfg, Loaded(d), BOOK) == Step(Adopted(d), Applied)
  {
    var s := Adopted(d);
    assert BOOK.positions == [] && BOOK.openOrders == [];
    assert ReleasedTrades(s.reservations, BOOK) == {};
    WithoutNone(s.reservations.keys, {});
    assert s.reservations.Drop({}) == s.reservations;
    assert !AnyConflict(s.reservations, BOOK);
    hide ReleasedTrades, AnyConflict;
  }

  lemma SettledRun(cfg: Settings, d: Decision)
    requires Current(cfg, d)
    ensures Run(cfg, FRESH, Ready(d)) == Settled(d)
  {
    hide Restore, ApplyAccount, Current, Settings.StrategyAllowed;
    var es := Ready(d);
    assert es[..2][..1] == [RestoreEvent([d])] && es[..2] == [RestoreEvent([d]), AccountEvent(BOOK)];
    assert [RestoreEvent([d])][..0] == [];
    assert Run(cfg, FRESH, []) == FRESH;
    RestoresOne(cfg, d);
    assert Run(cfg, FRESH, [RestoreEvent([d])]) == Loaded(d);
    AdoptsBook(cfg, d);
    assert Run(cfg, FRESH, es[..2]) == Adopted(d);
    assert ApplyVenue(Adopted(d), QUOTE) == Step(Settled(d), Applied);
  }

  lemma SettledBase(cfg: Settings, d: Decision)
    requires Current(cfg, d)
    ensures Base(cfg, Settled(d)) && LedgerOf(Settled(d).reservations) == [d]
  {
    hide Run, LedgerInv, CacheInv, VenueInv, GateInv, Current;
    SettledRun(cfg, d);
    FreshStateRetained(cfg, {});
    RunBase(cfg, FRESH, Ready(d));
    var ledger := LedgerOf(Settled(d).reservations);
    assert |ledger| == 1 && ledger[0] == d;
  }

  lemma HeldCurrent(n: Past.Size)
    ensures Current(Cfg(n), Held(n)) && Held(n).approved && IsTrimmed(Held(n).review.intent.strategyId)
  {
    hide Held;
    HeldFigures(n);
  }

  lemma ReservedIsValid(n: Past.Size)
    ensures ReservationsValid(ViewOf([Held(n)]))
  {
    hide Held, ViewOf, ReservationsValid, Base, Held, Current, IsTrimmed;
    HeldCurrent(n);
    SettledBase(Cfg(n), Held(n));
    ViewIsValid(Cfg(n), Settled(Held(n)));
  }

  lemma Evaluated(i: Intent, n: Past.Size)
    requires Suits(i)
    ensures WellFormed(Settled(Held(n)))
    ensures LedgerOf(Settled(Held(n)).reservations) == [Held(n)]
    ensures InputsFor(Cfg(n), Settled(Held(n)), Asked(i), QUOTE) == Given(i, n)
    ensures VenueFor(Settled(Held(n)), Asked(i)) == Some(QUOTE)
    ensures Decide(Cfg(n), Given(i, n)).Ok?
    ensures var d := Decide(Cfg(n), Given(i, n)).value;
      && NewlyApproves(Cfg(n), Settled(Held(n)), EvaluateEvent(Asked(i)), d)
      && Fresh(Cfg(n), Settled(Held(n)), Asked(i), d)
  {
    hide Decide, ViewOf, Record, BoundQuantity, Room, CapacityOf, Held, Current, LedgerOf, LedgerInv, CacheInv, VenueInv, GateInv;
    Approved(i, n);
    HeldCurrent(n);
    HeldFigures(n);
    SettledBase(Cfg(n), Held(n));
    ReservedIsValid(n);
    assert i.symbol != Held(n).review.intent.symbol;
    assert EvaluateStep(Cfg(n), Settled(Held(n)), Asked(i)).outcome == Decided(Decide(Cfg(n), Given(i, n)).value);
  }

  /** Approval `past`, once given by a coordinator with these settings, is recovered; then decision `d` newly approves
      1e-12 units of idea `i`, and the ledger with it does not fit the caps. */
  ghost predicate BeyondCaps(i: Intent, n: Past.Size, d: Decision) {
    && NewlyApproves(Cfg(n), Run(Cfg(n), FRESH, Past.Ready(n)), EvaluateEvent(Past.Asked(n)), Held(n))
    && NewlyApproves(Cfg(n), Run(Cfg(n), FRESH, Ready(Held(n))), EvaluateEvent(Asked(i)), d) && d.quantity == 0.000000000001
    && WellFormed(Settled(Held(n))) && WellFormed(Record(Cfg(n), Settled(Held(n)), d))
    && Given(i, n).account.Some? && Given(i, n).Capital(Cfg(n)).metrics.Some?
    && var after := ViewOf(LedgerOf(Record(Cfg(n), Settled(Held(n)), d).reservations));
    after.notionalUsd > n && !LedgerWithinCaps(Cfg(n), Given(i, n), after, d.notionalUsd, 0.0)
  }

  /** The approved notional adds to the recovered one, which has left no room. */
  lemma AddsNotional(i: Intent, n: Past.Size, d: Decision)
    requires Suits(i) && Decide(Cfg(n), Given(i, n)) == Ok(d) && d.approved && d.quantity == 0.000000000001
    ensures d.notionalUsd > 0.0 && ViewOf([Held(n)] + [d]).notionalUsd > n
  {
    hide Decide, ViewOf, Held, BoundQuantity, TotalNotional;
    HeldReserved(n);
    TotalsAppend([Held(n)], d);
    ViewTotals([Held(n)], CANARY_STRATEGY);
    ViewTotals([Held(n)] + [d], CANARY_STRATEGY);
    DecisionAddsUp(Cfg(n), Given(i, n), d);
    assert d.notionalUsd == 0.000000000001 * 100.0;
  }

  /** What the caps say of the state after the recovery. */
  lemma ExceedsCaps(i: Intent, n: Past.Size, s: State, d: Decision)
    requires Suits(i) && Base(Cfg(n), s) && LedgerOf(s.reservations) == [Held(n)]
    requires VenueFor(s, Asked(i)) == Some(QUOTE) && InputsFor(Cfg(n), s, Asked(i), QUOTE) == Given(i, n)
    requires Decide(Cfg(n), Given(i, n)) == Ok(d) && d.approved && d.quantity == 0.000000000001 && Fresh(Cfg(n), s, Asked(i), d)
    requires Given(i, n).account.Some? && Given(i, n).Capital(Cfg(n)).metrics.Some? && Room(Cfg(n), Given(i, n)) == 0.0
    ensures WellFormed(Record(Cfg(n), s, d))
    ensures var after := ViewOf(LedgerOf(Record(Cfg(n), s, d).reservations));
      after.notionalUsd > n && !LedgerWithinCaps(Cfg(n), Given(i, n), after, d.notionalUsd, 0.0)
  {
    hide BoundQuantity, Decide, ViewOf, Record, Fresh, LedgerWithinCaps, Room, CapacityOf, LedgerInv, CacheInv, VenueInv, GateInv,
         Held, LedgerOf, InputsFor, VenueFor, Given;
    ApprovalReaggregates(Cfg(n), s, Asked(i), d);
    ApprovalExposure(Cfg(n), s, Asked(i), d);
    AddsNotional(i, n, d);
  }

  lemma ReachesBeyondCaps(i: Intent, n: Past.Size)
    requires Suits(i)
    ensures exists d :: BeyondCaps(i, n, d)
  {
    hide BoundQuantity, Decide, ViewOf, Record, Run, Fresh, NewlyApproves, LedgerWithinCaps, Room, CapacityOf,
         LedgerInv, CacheInv, VenueInv, GateInv, Settled, Current, LedgerOf, InputsFor, VenueFor,
         Given, Suits, Asked, Ready, Past.Settled, Past.Asked, Past.Ready, Past.Answer, Past.Cfg, Base, WellFormed, OrderedMap.Valid;
    Past.ApprovalReachable(n);
    HeldCurrent(n);
    SettledRun(Cfg(n), Held(n));
    SettledBase(Cfg(n), Held(n));
    Evaluated(i, n);
    Approved(i, n);
    var d := Decide(Cfg(n), Given(i, n)).value;
    ExceedsCaps(i, n, Settled(Held(n)), d);
    assert BeyondCaps(i, n, d);
  }

  /** However far an earlier approval, genuinely given and now recovered, exceeds what is left of the margin, a canary
      bound to 1e-12 units is newly approved on top of it: without computed capacity no slack bounds the excess. */
  lemma CanaryBeyondCaps(n: Past.Size)
    ensures exists d :: BeyondCaps(IDEA, n, d)
  {
    BoundIsTiny();
    hide BoundQuantity, MetadataOf, RuleEvidence, BeyondCaps;
    ReachesBeyondCaps(IDEA, n);
  }
}
