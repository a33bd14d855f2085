/** One concrete LIVE approval on a concrete float grid: the headroom theorem is about something. */
module LiveWitness {
  import opened Common
  import opened Contracts
  import opened FloatGrid
  import opened LiveSizing
  import opened LiveEvaluation
  import CapitalBudget

  const ORDER := Order(Long, 100.0, 99.0, 110.0, 100.0, 0.0, 0.0)
  const LIMITS := Limits(0.0025, 0.01, 50.0, 5000.0, 100.0, 20000.0, 1000.0, 10.0)
  const FACTS := Facts(10000.0, 10000.0, 0.0, 0.0, 0.0, 0.0, 0.0, 0.0, 0.0)
  const FUNDS := Capital(0.0, 0.5, 1.0)
  const ASKED := LiveInputs([], LIMITS, FACTS, Some(FUNDS), Liquidity(1000.0, 1000.0), ORDER, None)
  const SHOWN := Display(10000, 1000000, 0, 0, 10000)

  lemma Room()
    ensures Budget(LIMITS, FACTS) == 25.0 && NotionalRoom(ASKED, FUNDS) == 1000.0
  {
    assert FACTS.equityUsd * LIMITS.perTradeRiskFraction == 25.0;
  }

  lemma FirstLot()
    ensures LiveSizing.LossPerUnit(ORDER) == 1.0 && StartLot(ASKED, 25.0, 1000.0) == 10.0
  {
    assert Bounded(ASKED, 25.0, 1000.0) == 10.0;
    assert 10.0 / QUANTITY_QUANTUM == 1000000000.0;
    assert Lots(10.0, QUANTITY_QUANTUM) == 1000000000;
  }

  /** Thousandths are converted exactly. */
  lemma Exact(v: real, i: nat)
    requires v * 1000.0 == i as real && i <= 10000000
    ensures var g := CapitalBudget.Thousandths();
      i <= g.top && LowerFloat(g, v) == Ok(i) && UpperFloat(g, v) == Ok(i) && g.spell(i) == v
  {
    CapitalBudget.ThousandthsValid();
    SpelledIsExact(CapitalBudget.Thousandths(), i);
  }

  lemma Costs()
    ensures NotionalFor(ORDER, 10.0) == 1000.0 && StopLossFor(ORDER, 10.0) == 10.0 && LossFor(ORDER, 10.0) == 10.0
    ensures FeesFor(ORDER, 10.0) == 0.0 && SlippageFor(ORDER, 10.0) == 0.0
  {
    CostsOf(ORDER, 10.0);
    assert ORDER.feeRate == 0.0 && ORDER.slippageRate == 0.0 && ORDER.entry == 100.0 && ORDER.stop == 99.0;
    hide FeesFor, SlippageFor, LossFor, StopLossFor, NotionalFor;
  }

  lemma CostsOf(o: Order, q: real)
    requires o.feeRate == 0.0 && o.slippageRate == 0.0
    ensures FeesFor(o, q) == 0.0 && SlippageFor(o, q) == 0.0
    ensures o.entry == 100.0 && o.stop == 99.0 ==> NotionalFor(o, q) == q * 100.0 && LossFor(o, q) == StopLossFor(o, q) == q
  {
    assert q * (o.entry + o.stop) * 0.0 == 0.0 && q * o.mid * 0.0 == 0.0;
  }

  /** Without fees, and with every figure converted exactly, a candidate is shown as it is and fits. */
  lemma ExactFits(g: Grid, o: Order, quantum: Pos, budget: real, cap: real, q: real, notional: real, i: int, n: int)
    requires LowerFloat(g, q) == Ok(i) && UpperFloat(g, q) == Ok(i) && g.spell(i) == q && 0 <= i <= g.top
    requires UpperFloat(g, notional) == Ok(n) && g.spell(n) == notional && n <= g.top
    requires UpperFloat(g, 0.0) == Ok(0) && g.spell(0) == 0.0
    requires NotionalFor(o, q) == notional <= cap && StopLossFor(o, q) == LossFor(o, q) == q <= budget
    requires FeesFor(o, q) == 0.0 && SlippageFor(o, q) == 0.0
    ensures Try(g, o, None, quantum, budget, cap, q) == Fits(Display(i, n, 0, 0, i))
  {
    hide LowerFloat, UpperFloat, NotionalFor, FeesFor, SlippageFor, StopLossFor, LossFor;
  }

  /** A start lot that fits is what sizing returns. */
  lemma SizedAtOnce(g: Grid, x: LiveInputs, c: Capital, f: int, d: Display)
    requires LiveSizing.LossPerUnit(x.order) > 0.0 && g.spell(f) > 0.0
    requires StartLot(x, g.spell(f), NotionalRoom(x, c)) > 0.0
    requires Try(g, x.order, x.rules, Quantum(x.rules), g.spell(f), NotionalRoom(x, c),
                 StartLot(x, g.spell(f), NotionalRoom(x, c))) == Fits(d)
    ensures Size(g, x, c, f) == Ok(d)
  {
    hide Try, StartLot, NotionalRoom, LiveSizing.LossPerUnit, Quantum;
  }

  /** Acceptable figures are approved. */
  lemma ApprovedAtOnce(g: Grid, x: LiveInputs, c: Capital, f: int, d: Display)
    requires x.prior == [] && x.capital == Some(c) && x.rules.None?
    requires LowerFloat(g, Budget(x.limits, x.facts)) == Ok(f) && g.spell(f) > 0.0 && Size(g, x, c, f) == Ok(d)
    requires SizeReasons(g, x, d) == [] && !Exceeds(g, d.worstLoss, g.spell(f))
    ensures ApprovedLive(g, x, d)
  {
    hide LowerFloat, Budget, Size, SizeReasons, Exceeds;
  }

  /** An order without fees whose start lot and figures are converted exactly is approved as it is. */
  lemma ExactApproval(
    g: Grid, x: LiveInputs, c: Capital, f: int, budget: real, cap: real, q: real, notional: real, i: int, n: int)
    requires x.prior == [] && x.capital == Some(c) && x.rules.None?
    requires LowerFloat(g, Budget(x.limits, x.facts)) == Ok(f) && g.spell(f) == budget > 0.0
    requires LiveSizing.LossPerUnit(x.order) > 0.0 && NotionalRoom(x, c) == cap && StartLot(x, budget, cap) == q > 0.0
    requires LowerFloat(g, q) == Ok(i) && UpperFloat(g, q) == Ok(i) && g.spell(i) == q && 0 <= i <= g.top
    requires UpperFloat(g, notional) == Ok(n) && g.spell(n) == notional && n <= g.top
    requires UpperFloat(g, 0.0) == Ok(0) && g.spell(0) == 0.0
    requires NotionalFor(x.order, q) == notional <= cap && StopLossFor(x.order, q) == LossFor(x.order, q) == q <= budget
    requires FeesFor(x.order, q) == 0.0 && SlippageFor(x.order, q) == 0.0
    requires notional >= x.limits.minNotionalUsd
    ensures ApprovedLive(g, x, Display(i, n, 0, 0, i))
  {
    hide LowerFloat, UpperFloat, NotionalFor, FeesFor, SlippageFor, StopLossFor, LossFor, Budget, NotionalRoom, StartLot,
         LiveSizing.LossPerUnit, Try, Size, ApprovedLive;
    ExactFits(g, x.order, QUANTITY_QUANTUM, budget, cap, q, notional, i, n);
    SizedAtOnce(g, x, c, f, Display(i, n, 0, 0, i));
    ApprovedAtOnce(g, x, c, f, Display(i, n, 0, 0, i));
  }

  /** Ten units at 100, at risk for 10 under a budget of 25. */
  lemma LiveApprovalReachable()
    ensures CapitalBudget.Thousandths().Valid() && ApprovedLive(CapitalBudget.Thousandths(), ASKED, SHOWN)
  {
    hide LowerFloat, UpperFloat, NotionalFor, FeesFor, SlippageFor, StopLossFor, LossFor, Budget, NotionalRoom, StartLot,
         LiveSizing.LossPerUnit, ApprovedLive, Grid.Valid, CapitalBudget.Thousandths;
    CapitalBudget.ThousandthsValid();
    Room();
    FirstLot();
    Costs();
    Exact(0.0, 0);
    Exact(10.0, 10000);
    Exact(25.0, 25000);
    Exact(1000.0, 1000000);
    ExactApproval(CapitalBudget.Thousandths(), ASKED, FUNDS, 25000, 25.0, 1000.0, 10.0, 1000.0, 10000, 1000000);
  }
}
