/** LIVE sizing: caps, lot rounding, the bounded correction loop and the headroom it leaves. */
module LiveSizing {
  import opened Common
  import opened Contracts
  import opened CanaryInstrument
  import opened FloatGrid

  const QUANTITY_QUANTUM: real := 0.00000001

  /** Prices and rates of one order; every figure is the decimal its float spells. */
  datatype Order = Order(side: Side, entry: Pos, stop: Pos, target: Pos, mid: Pos, feeRate: NonNeg, slippageRate: NonNeg)

  datatype LiveRules = LiveRules(
    priceIncrement: Pos, minPrice: Pos, maxPrice: Pos,
    quantityIncrement: Pos, minQuantity: Pos, maxQuantity: Pos, minNotionalUsd: Pos, maxNotionalUsd: Option<Pos>)

  function Distance(o: Order): NonNeg { Abs(o.entry - o.stop) }

  function NotionalFor(o: Order, quantity: real): real { quantity * o.entry }

  function StopLossFor(o: Order, quantity: real): real { quantity * Distance(o) }

  function FeesFor(o: Order, quantity: real): real { quantity * (o.entry + o.stop) * o.feeRate }

  function SlippageFor(o: Order, quantity: real): real { quantity * o.mid * o.slippageRate }

  function LossFor(o: Order, quantity: real): real {
    StopLossFor(o, quantity) + FeesFor(o, quantity) + SlippageFor(o, quantity)
  }

  function LossPerUnit(o: Order): NonNeg {
    Distance(o) + (o.entry + o.stop) * o.feeRate + o.mid * o.slippageRate
  }

  /** What a float beyond the largest one spells is more than any cap. */
  predicate Exceeds(g: Grid, f: int, cap: real) { f > g.top || g.spell(f) > cap }

  /** The displayed order: float indices for quantity, notional, fees, slippage and worst loss. */
  datatype Display = Display(quantity: int, notional: int, fees: int, slippage: int, worstLoss: int)

  const NOTHING := Display(0, 0, 0, 0, 0)

  datatype Trial = Unrepresentable | TooMuch | Fits(display: Display)

  /** An instrument lot must be spelled exactly, on the grid and under the maximum. */
  predicate LotExact(g: Grid, rules: Option<LiveRules>, quantum: Pos, candidate: real, f: int) {
    rules.Some? ==>
      g.spell(f) == candidate && Aligned(g.spell(f), quantum) && g.spell(f) <= rules.value.maxQuantity
  }

  /** The costs of a candidate, each converted upward; infinite fees or slippage cannot be summed. */
  function Shown(g: Grid, o: Order, candidate: real, quantity: int): Result<Display> {
    var shown := g.spell(quantity);
    var notional := UpperFloat(g, Max(NotionalFor(o, candidate), NotionalFor(o, shown)));
    var fees, slippage := UpperFloat(g, FeesFor(o, candidate)), UpperFloat(g, SlippageFor(o, candidate));
    if notional.Raised? || fees.Raised? || slippage.Raised? || fees.value > g.top || slippage.value > g.top then Raised
    else
      var displayed := StopLossFor(o, shown) + g.spell(fees.value) + g.spell(slippage.value);
      var worst := UpperFloat(g, Max(LossFor(o, candidate), displayed));
      if worst.Raised? then Raised
      else Ok(Display(quantity, notional.value, fees.value, slippage.value, worst.value))
  }

  predicate Violates(g: Grid, o: Order, budget: real, cap: real, candidate: real, d: Display) {
    || LossFor(o, candidate) > budget || Exceeds(g, d.worstLoss, budget)
    || NotionalFor(o, candidate) > cap || Exceeds(g, d.notional, cap) || NotionalFor(o, g.spell(d.quantity)) > cap
  }

  /** One candidate quantity, converted for display and checked against budget and cap. */
  function Try(g: Grid, o: Order, rules: Option<LiveRules>, quantum: Pos, budget: real, cap: real, candidate: real): Trial {
    var low := LowerFloat(g, candidate);
    if low.Raised? || !LotExact(g, rules, quantum, candidate, low.value) then Unrepresentable
    else
      var shown := Shown(g, o, candidate, low.value);
      if shown.Raised? then Unrepresentable
      else if Violates(g, o, budget, cap, candidate, shown.value) then TooMuch
      else Fits(shown.value)
  }

  /** At most `corrections` smaller lots are tried after the first candidate. */
  function Correct(
    g: Grid, o: Order, rules: Option<LiveRules>, quantum: Pos, budget: real, cap: real, candidate: real, corrections: nat)
    : Result<Display>
    decreases corrections
  {
    if candidate <= 0.0 then Ok(NOTHING)
    else
      match Try(g, o, rules, quantum, budget, cap, candidate)
      case Unrepresentable => Raised
      case Fits(d) => Ok(d)
      case TooMuch =>
        if corrections == 0 then Ok(NOTHING)
        else Correct(g, o, rules, quantum, budget, cap, candidate - quantum, corrections - 1)
  }

  /** Converts a candidate's costs one after another. */
  method Convert(g: Grid, o: Order, candidate: real, quantity: int) returns (r: Result<Display>)
    ensures r == Shown(g, o, candidate, quantity)
  {
    hide UpperFloat, FeesFor, SlippageFor, LossFor, NotionalFor, StopLossFor;
    var shown := g.spell(quantity);
    var loss := LossFor(o, candidate);
    var displayedStopLoss := StopLossFor(o, shown);
    var notional := UpperFloat(g, Max(NotionalFor(o, candidate), NotionalFor(o, shown)));
    if notional.Raised? {
      return Raised;
    }
    var fees := UpperFloat(g, FeesFor(o, candidate));
    if fees.Raised? {
      return Raised;
    }
    var slippage := UpperFloat(g, SlippageFor(o, candidate));
    if slippage.Raised? || fees.value > g.top || slippage.value > g.top {
      return Raised;
    }
    var worst := UpperFloat(g, Max(loss, displayedStopLoss + g.spell(fees.value) + g.spell(slippage.value)));
    if worst.Raised? {
      return Raised;
    }
    return Ok(Display(quantity, notional.value, fees.value, slippage.value, worst.value));
  }

  /** The correction loop itself, step by step. */
  method CorrectionLoop(
    g: Grid, o: Order, rules: Option<LiveRules>, quantum: Pos, budget: real, cap: real, start: real)
    returns (r: Result<Display>)
    ensures r == Correct(g, o, rules, quantum, budget, cap, start, 2)
  {
    hide LowerFloat, LotExact, Violates, Shown;
    var candidate := start;
    for correction := 0 to 3
      invariant correction <= 2
      invariant Correct(g, o, rules, quantum, budget, cap, start, 2)
             == Correct(g, o, rules, quantum, budget, cap, candidate, 2 - correction)
    {
      if candidate <= 0.0 {
        return Ok(NOTHING);
      }
      var low := LowerFloat(g, candidate);
      if low.Raised? || !LotExact(g, rules, quantum, candidate, low.value) {
        return Raised;
      }
      var shown := Convert(g, o, candidate, low.value);
      if shown.Raised? {
        return Raised;
      }
      if !Violates(g, o, budget, cap, candidate, shown.value) {
        return Ok(shown.value);
      }
      if correction == 2 {
        break;
      }
      candidate := candidate - quantum;
    }
    return Ok(NOTHING);
  }

  // ----- what a displayed order never understates -----

  /** The display is finite, no smaller than the true costs of its own quantity, and within budget and cap. */
  ghost predicate Safe(g: Grid, o: Order, budget: real, cap: real, d: Display) {
    && 0 <= d.quantity <= g.top && 0.0 <= g.spell(d.quantity)
    && g.Finite(d.notional) && g.Finite(d.fees) && g.Finite(d.slippage) && g.Finite(d.worstLoss)
    && NotionalFor(o, g.spell(d.quantity)) <= g.spell(d.notional) <= cap
    && FeesFor(o, g.spell(d.quantity)) <= g.spell(d.fees)
    && SlippageFor(o, g.spell(d.quantity)) <= g.spell(d.slippage)
    && StopLossFor(o, g.spell(d.quantity)) + g.spell(d.fees) + g.spell(d.slippage) <= g.spell(d.worstLoss) <= budget
  }

  lemma ScaledDown(a: real, b: real, c: real)
    requires a <= b && c >= 0.0
    ensures a * c <= b * c
  {
    assert (b - a) * c >= 0.0;
  }

  lemma CostsGrow(o: Order, a: real, b: real)
    requires a <= b
    ensures FeesFor(o, a) <= FeesFor(o, b) && SlippageFor(o, a) <= SlippageFor(o, b)
    ensures NotionalFor(o, a) <= NotionalFor(o, b) && StopLossFor(o, a) <= StopLossFor(o, b)
  {
    ScaledDown(a, b, o.entry + o.stop);
    ScaledDown(a * (o.entry + o.stop), b * (o.entry + o.stop), o.feeRate);
    ScaledDown(a, b, o.mid);
    ScaledDown(a * o.mid, b * o.mid, o.slippageRate);
    ScaledDown(a, b, o.entry);
    ScaledDown(a, b, Distance(o));
  }

  lemma UpperBetween(g: Grid, v: real, cap: real)
    requires g.Valid() && UpperFloat(g, v).Ok? && !Exceeds(g, UpperFloat(g, v).value, cap)
    ensures g.Finite(UpperFloat(g, v).value) && v <= g.spell(UpperFloat(g, v).value) <= cap
  {
    UpperIsLeast(g, v, 0);
    UpperSpellsAbove(g, v);
  }

  lemma UpperCovers(g: Grid, v: real)
    requires g.Valid() && UpperFloat(g, v).Ok? && UpperFloat(g, v).value <= g.top
    ensures g.Finite(UpperFloat(g, v).value) && v <= g.spell(UpperFloat(g, v).value)
  {
    UpperIsLeast(g, v, 0);
    UpperSpellsAbove(g, v);
  }

  /** A candidate that fits is displayed safely, and never larger than itself. */
  lemma FitsSafely(
    g: Grid, o: Order, rules: Option<LiveRules>, quantum: Pos, budget: real, cap: real, candidate: real, d: Display)
    requires g.Valid() && candidate > 0.0 && Try(g, o, rules, quantum, budget, cap, candidate) == Fits(d)
    ensures Safe(g, o, budget, cap, d) && g.spell(d.quantity) <= candidate
    ensures LotExact(g, rules, quantum, candidate, d.quantity)
  {
    var quantity := LowerFloat(g, candidate).value;
    var shown := g.spell(quantity);
    LowerSpellsBelow(g, candidate);
    CostsGrow(o, shown, candidate);
    hide LowerFloat, UpperFloat, NotionalFor, FeesFor, SlippageFor, StopLossFor, LotExact;
    UpperBetween(g, Max(NotionalFor(o, candidate), NotionalFor(o, shown)), cap);
    UpperCovers(g, FeesFor(o, candidate));
    UpperCovers(g, SlippageFor(o, candidate));
    UpperBetween(g, Max(LossFor(o, candidate), StopLossFor(o, shown) + g.spell(d.fees) + g.spell(d.slippage)), budget);
  }

  /** The lot `k` increments below `start`. */
  function Lot(start: real, quantum: real, k: nat): real { start - k as real * quantum }

  lemma LotSteps(start: real, quantum: real)
    ensures Lot(start, quantum, 0) == start
    ensures forall k: nat {:trigger Lot(start - quantum, quantum, k)} :: Lot(start - quantum, quantum, k) == Lot(start, quantum, k + 1)
  {
  }

  /** The display is the `k`th candidate, and every larger candidate was too much. */
  ghost predicate FirstFit(
    g: Grid, o: Order, rules: Option<LiveRules>, quantum: Pos, budget: real, cap: real, start: real, k: nat, d: Display)
  {
    && Lot(start, quantum, k) > 0.0
    && Try(g, o, rules, quantum, budget, cap, Lot(start, quantum, k)) == Fits(d)
    && forall j: nat :: j < k ==> Try(g, o, rules, quantum, budget, cap, Lot(start, quantum, j)) == TooMuch
  }

  /** The loop returns nothing, or the largest of its candidates that fits. */
  lemma {:induction false} CorrectIsFirstFit(
    g: Grid, o: Order, rules: Option<LiveRules>, quantum: Pos, budget: real, cap: real, start: real, corrections: nat)
    ensures var r := Correct(g, o, rules, quantum, budget, cap, start, corrections);
      r.Ok? && r.value != NOTHING ==>
        exists k: nat :: k <= corrections && FirstFit(g, o, rules, quantum, budget, cap, start, k, r.value)
    decreases corrections
  {
    hide Try, Lot, FirstFit;
    LotSteps(start, quantum);
    var r := Correct(g, o, rules, quantum, budget, cap, start, corrections);
    if start > 0.0 {
      match Try(g, o, rules, quantum, budget, cap, start) {
        case Fits(d) =>
          FirstTry(g, o, rules, quantum, budget, cap, start, d);
        case TooMuch =>
          if corrections > 0 {
            CorrectIsFirstFit(g, o, rules, quantum, budget, cap, start - quantum, corrections - 1);
            if r.Ok? && r.value != NOTHING {
              var k: nat :| k <= corrections - 1 && FirstFit(g, o, rules, quantum, budget, cap, start - quantum, k, r.value);
              LaterTry(g, o, rules, quantum, budget, cap, start, k, r.value);
            }
          }
        case Unrepresentable =>
      }
    }
  }

  /** What ended the loop: one of its candidates, counted from the start lot, and nothing but refusals before it. */
  ghost predicate StoppedAt(
    g: Grid, o: Order, rules: Option<LiveRules>, quantum: Pos, budget: real, cap: real, start: real, k: nat)
  {
    && Lot(start, quantum, k) > 0.0
    && Try(g, o, rules, quantum, budget, cap, Lot(start, quantum, k)) == Unrepresentable
    && forall j: nat :: j < k ==> Try(g, o, rules, quantum, budget, cap, Lot(start, quantum, j)) == TooMuch
  }

  /** Every positive candidate up to the last correction was too much. */
  ghost predicate AllTooMuch(
    g: Grid, o: Order, rules: Option<LiveRules>, quantum: Pos, budget: real, cap: real, start: real, corrections: nat)
  {
    forall j: nat :: j <= corrections && Lot(start, quantum, j) > 0.0 ==>
      Try(g, o, rules, quantum, budget, cap, Lot(start, quantum, j)) == TooMuch
  }

  /** Whatever fits shows a positive notional. */
  lemma FitsSomething(
    g: Grid, o: Order, rules: Option<LiveRules>, quantum: Pos, budget: real, cap: real, candidate: real, d: Display)
    requires g.Valid() && candidate > 0.0 && Try(g, o, rules, quantum, budget, cap, candidate) == Fits(d)
    ensures d != NOTHING
  {
    var shown := g.spell(LowerFloat(g, candidate).value);
    var notional := Max(NotionalFor(o, candidate), NotionalFor(o, shown));
    assert candidate * o.entry > 0.0;
    hide LowerFloat, UpperFloat, FeesFor, SlippageFor, StopLossFor, LossFor, LotExact;
    UpperBetween(g, notional, cap);
  }

  /** The loop comes back empty only if every positive candidate was too much, and fails exactly on the first
      candidate that was not too much but cannot be represented. */
  lemma {:induction false} CorrectStops(
    g: Grid, o: Order, rules: Option<LiveRules>, quantum: Pos, budget: real, cap: real, start: real, corrections: nat)
    requires g.Valid()
    ensures var r := Correct(g, o, rules, quantum, budget, cap, start, corrections);
      && (r == Ok(NOTHING) ==> AllTooMuch(g, o, rules, quantum, budget, cap, start, corrections))
      && (r == Raised ==> exists k: nat :: k <= corrections && StoppedAt(g, o, rules, quantum, budget, cap, start, k))
    decreases corrections
  {
    hide Try, Lot, StoppedAt, AllTooMuch, Grid.Valid;
    if start <= 0.0 {
      NothingPositive(g, o, rules, quantum, budget, cap, start, corrections);
    } else {
      match Try(g, o, rules, quantum, budget, cap, start) {
        case Fits(d) =>
          FitsSomething(g, o, rules, quantum, budget, cap, start, d);
        case TooMuch =>
          OneMoreTooMuch(g, o, rules, quantum, budget, cap, start, corrections);
          if corrections > 0 {
            CorrectStops(g, o, rules, quantum, budget, cap, start - quantum, corrections - 1);
            if Correct(g, o, rules, quantum, budget, cap, start - quantum, corrections - 1) == Raised {
              var k: nat :| k <= corrections - 1 && StoppedAt(g, o, rules, quantum, budget, cap, start - quantum, k);
              LaterStop(g, o, rules, quantum, budget, cap, start, k);
            }
          }
        case Unrepresentable =>
          StoppedAtOnce(g, o, rules, quantum, budget, cap, start);
      }
    }
  }

  lemma NothingPositive(
    g: Grid, o: Order, rules: Option<LiveRules>, quantum: Pos, budget: real, cap: real, start: real, corrections: nat)
    requires start <= 0.0
    ensures AllTooMuch(g, o, rules, quantum, budget, cap, start, corrections)
  {
    hide Try;
    forall j: nat ensures Lot(start, quantum, j) <= 0.0 {
      assert j as real * quantum >= 0.0;
    }
  }

  lemma StoppedAtOnce(g: Grid, o: Order, rules: Option<LiveRules>, quantum: Pos, budget: real, cap: real, start: real)
    requires start > 0.0 && Try(g, o, rules, quantum, budget, cap, start) == Unrepresentable
    ensures StoppedAt(g, o, rules, quantum, budget, cap, start, 0)
  {
    hide Try;
  }

  lemma OneMoreTooMuch(
    g: Grid, o: Order, rules: Option<LiveRules>, quantum: Pos, budget: real, cap: real, start: real, corrections: nat)
    requires Try(g, o, rules, quantum, budget, cap, start) == TooMuch
    ensures corrections == 0 || AllTooMuch(g, o, rules, quantum, budget, cap, start - quantum, corrections - 1)
      ==> AllTooMuch(g, o, rules, quantum, budget, cap, start, corrections)
  {
    LotSteps(start, quantum);
    hide Try, Lot;
    if corrections == 0 || AllTooMuch(g, o, rules, quantum, budget, cap, start - quantum, corrections - 1) {
      forall j: nat | j <= corrections && Lot(start, quantum, j) > 0.0
        ensures Try(g, o, rules, quantum, budget, cap, Lot(start, quantum, j)) == TooMuch
      {
        if j > 0 { assert Lot(start - quantum, quantum, j - 1) == Lot(start, quantum, j); }
      }
    }
  }

  lemma LaterStop(
    g: Grid, o: Order, rules: Option<LiveRules>, quantum: Pos, budget: real, cap: real, start: real, k: nat)
    requires Try(g, o, rules, quantum, budget, cap, start) == TooMuch
    requires StoppedAt(g, o, rules, quantum, budget, cap, start - quantum, k)
    ensures StoppedAt(g, o, rules, quantum, budget, cap, start, k + 1)
  {
    LotSteps(start, quantum);
    hide Try, Lot;
    forall j: nat | j < k + 1 ensures Try(g, o, rules, quantum, budget, cap, Lot(start, quantum, j)) == TooMuch {
      if j > 0 { assert Lot(start - quantum, quantum, j - 1) == Lot(start, quantum, j); }
    }
  }

  lemma FirstTry(
    g: Grid, o: Order, rules: Option<LiveRules>, quantum: Pos, budget: real, cap: real, start: real, d: Display)
    requires start > 0.0 && Try(g, o, rules, quantum, budget, cap, start) == Fits(d)
    ensures FirstFit(g, o, rules, quantum, budget, cap, start, 0, d)
  {
    hide Try;
  }

  lemma LaterTry(
    g: Grid, o: Order, rules: Option<LiveRules>, quantum: Pos, budget: real, cap: real, start: real, k: nat, d: Display)
    requires Try(g, o, rules, quantum, budget, cap, start) == TooMuch
    requires FirstFit(g, o, rules, quantum, budget, cap, start - quantum, k, d)
    ensures FirstFit(g, o, rules, quantum, budget, cap, start, k + 1, d)
  {
    LotSteps(start, quantum);
    hide Try, Lot;
    forall j: nat | j < k + 1 ensures Try(g, o, rules, quantum, budget, cap, Lot(start, quantum, j)) == TooMuch {
      if j > 0 { assert Lot(start - quantum, quantum, j - 1) == Lot(start, quantum, j); }
    }
  }

  /** Whatever quantity the loop starts from, it returns nothing or a safe display no larger than the
      start; with instrument rules the displayed lot is exactly one of its candidates. */
  lemma CorrectedSafely(
    g: Grid, o: Order, rules: Option<LiveRules>, quantum: Pos, budget: real, cap: real, start: real, corrections: nat)
    requires g.Valid()
    ensures var r := Correct(g, o, rules, quantum, budget, cap, start, corrections);
      r.Ok? && r.value != NOTHING ==>
        && Safe(g, o, budget, cap, r.value) && g.spell(r.value.quantity) <= start
        && exists k: nat :: k <= corrections && LotExact(g, rules, quantum, Lot(start, quantum, k), r.value.quantity)
  {
    hide Try, Safe, LotExact, Correct;
    CorrectIsFirstFit(g, o, rules, quantum, budget, cap, start, corrections);
    var r := Correct(g, o, rules, quantum, budget, cap, start, corrections);
    if r.Ok? && r.value != NOTHING {
      var k: nat :| k <= corrections && FirstFit(g, o, rules, quantum, budget, cap, start, k, r.value);
      FitsSafely(g, o, rules, quantum, budget, cap, Lot(start, quantum, k), r.value);
      assert k as real * quantum >= 0.0;
    }
  }
}
