/** Capital-budget proposals: caps shrink, follow equity, and settle when proposed again. */
module CapitalBudget {
  import opened Common
  import opened Contracts
  import opened FloatGrid

  /** Frozen limits as float indices. */
  datatype LimitFloats = LimitFloats(
    perTradeFraction: int, aggregateFraction: int, perTradeCap: int, aggregateCap: int, dailyCap: int,
    maxEquity: int, maxPosition: int, minNotional: int)

  /** What constructing the limits accepts: positive finite fields, fraction ceilings, coherent minimum. */
  ghost predicate LimitsValid(g: Grid, l: LimitFloats) {
    && 0 < l.perTradeFraction <= g.top && g.spell(l.perTradeFraction) <= 0.0025
    && 0 < l.aggregateFraction <= g.top && g.spell(l.aggregateFraction) <= 0.01
    && 0 < l.perTradeCap <= g.top && 0 < l.aggregateCap <= g.top && 0 < l.dailyCap <= g.top
    && 0 < l.maxEquity <= g.top && 0 < l.maxPosition <= g.top && 0 < l.minNotional <= g.top
    && l.minNotional <= l.aggregateCap && l.minNotional <= l.maxPosition
  }

  datatype BudgetPolicy = BudgetPolicy(perTradeFraction: Pos, aggregateFraction: Pos, dailyFraction: Pos)
  {
    predicate Valid() { perTradeFraction <= 0.0025 && aggregateFraction <= 0.01 && dailyFraction <= 0.01 }
  }

  /** Rounding down to whole cents. */
  function CentFloor(v: NonNeg): NonNeg { (v * 100.0).Floor as real / 100.0 }

  predicate WholeCents(v: real) { (v * 100.0).Floor as real == v * 100.0 }

  /** The four dollar ceilings before conversion, in cents. */
  datatype Caps = Caps(perTrade: NonNeg, daily: NonNeg, aggregate: NonNeg, position: NonNeg)

  /** The part of the capital basis a fraction allows. */
  function Share(basis: Pos, fraction: Pos): Pos { basis * fraction }

  function Basis(g: Grid, l: LimitFloats, equity: Pos): real { Min(equity, g.spell(l.maxEquity)) }

  function CapsFor(g: Grid, l: LimitFloats, p: BudgetPolicy, basis: Pos): Caps
    requires g.spell(l.perTradeCap) > 0.0 && g.spell(l.dailyCap) > 0.0 && g.spell(l.aggregateCap) > 0.0
      && g.spell(l.maxPosition) > 0.0
  {
    var aggregate := CentFloor(Min(basis, g.spell(l.aggregateCap)));
    Caps(CentFloor(Min(g.spell(l.perTradeCap), Share(basis, p.perTradeFraction))),
         CentFloor(Min(g.spell(l.dailyCap), Share(basis, p.dailyFraction))),
         aggregate,
         CentFloor(Min(aggregate, g.spell(l.maxPosition))))
  }

  /** The proposal, or a refusal; `venueMinimum` is the largest minimum notional of the scoped symbols. */
  ghost function Propose(g: Grid, l: LimitFloats, p: BudgetPolicy, equity: Pos, venueMinimum: Pos): Result<LimitFloats>
    requires g.Valid() && LimitsValid(g, l) && p.Valid()
  {
    LimitsSpellPositive(g, l);
    var basis := Basis(g, l, equity);
    var minimum := Max(venueMinimum, g.spell(l.minNotional));
    var caps := CapsFor(g, l, p, basis);
    if p.perTradeFraction > g.spell(l.perTradeFraction) || p.aggregateFraction > g.spell(l.aggregateFraction) then Raised
    else if caps.perTrade <= 0.0 || caps.daily <= 0.0 || caps.position <= 0.0 then Raised
    else if minimum > caps.position then Raised
    else Convert(g, p, caps, g.spell(l.maxEquity), minimum)
  }

  /** Conversion of every figure in its safe direction, then the limits' own validation. */
  ghost function Convert(g: Grid, p: BudgetPolicy, caps: Caps, ceiling: real, minimum: real): Result<LimitFloats> {
    var fraction, aggregateFraction := LowerFloat(g, p.perTradeFraction), LowerFloat(g, p.aggregateFraction);
    var perTrade, aggregate := LowerFloat(g, caps.perTrade), LowerFloat(g, caps.aggregate);
    var daily, position := LowerFloat(g, caps.daily), LowerFloat(g, caps.position);
    var equity, least := LowerFloat(g, ceiling), UpperFloat(g, minimum);
    if fraction.Raised? || aggregateFraction.Raised? || perTrade.Raised? || aggregate.Raised? || daily.Raised?
       || position.Raised? || equity.Raised? || least.Raised? then Raised
    else
      var proposed := LimitFloats(fraction.value, aggregateFraction.value, perTrade.value, aggregate.value, daily.value,
                                  equity.value, position.value, least.value);
      if LimitsValid(g, proposed) then Ok(proposed) else Raised
  }

  lemma SpellPositive(g: Grid, f: int)
    requires g.Valid() && 0 < f <= g.top
    ensures g.spell(f) > 0.0
  {
    SpellOrdered(g, 0, f);
  }

  lemma LimitsSpellPositive(g: Grid, l: LimitFloats)
    requires g.Valid() && LimitsValid(g, l)
    ensures g.spell(l.perTradeFraction) > 0.0 && g.spell(l.aggregateFraction) > 0.0
    ensures g.spell(l.perTradeCap) > 0.0 && g.spell(l.dailyCap) > 0.0 && g.spell(l.aggregateCap) > 0.0
    ensures g.spell(l.maxPosition) > 0.0 && g.spell(l.maxEquity) > 0.0 && g.spell(l.minNotional) > 0.0
  {
    SpellPositive(g, l.perTradeFraction);
    SpellPositive(g, l.aggregateFraction);
    SpellPositive(g, l.perTradeCap);
    SpellPositive(g, l.dailyCap);
    SpellPositive(g, l.aggregateCap);
    SpellPositive(g, l.maxPosition);
    SpellPositive(g, l.maxEquity);
    SpellPositive(g, l.minNotional);
  }

  // ----- cents -----

  lemma CentsBelow(v: NonNeg)
    ensures CentFloor(v) <= v && WholeCents(CentFloor(v))
  {
    var n := (v * 100.0).Floor;
    assert CentFloor(v) * 100.0 == n as real;
  }

  lemma CentsMonotone(v: NonNeg, w: NonNeg)
    requires v <= w
    ensures CentFloor(v) <= CentFloor(w)
  {
    assert (v * 100.0).Floor <= (w * 100.0).Floor;
  }

  lemma CentsFixed(v: NonNeg)
    ensures CentFloor(v) == v <==> WholeCents(v)
  {
  }

  // ----- deflation -----

  lemma LowerUnder(g: Grid, v: NonNeg, f: int)
    requires g.Valid() && 0 <= f <= g.top && LowerFloat(g, v).Ok? && v <= g.spell(f)
    ensures 0 <= LowerFloat(g, v).value <= f && g.spell(LowerFloat(g, v).value) <= v
  {
    LowerSpellsBelow(g, v);
    if LowerFloat(g, v).value > f { SpellOrdered(g, f, LowerFloat(g, v).value); }
  }

  /** The figures of a proposal, one conversion each. */
  lemma ProposalFigures(g: Grid, l: LimitFloats, p: BudgetPolicy, equity: Pos, venueMinimum: Pos)
    requires g.Valid() && LimitsValid(g, l) && p.Valid() && Propose(g, l, p, equity, venueMinimum).Ok?
    ensures g.spell(l.perTradeCap) > 0.0 && g.spell(l.dailyCap) > 0.0 && g.spell(l.aggregateCap) > 0.0
    ensures g.spell(l.maxPosition) > 0.0 && g.spell(l.maxEquity) > 0.0
    ensures var n := Propose(g, l, p, equity, venueMinimum).value;
      var caps := CapsFor(g, l, p, Basis(g, l, equity));
      && LimitsValid(g, n)
      && p.perTradeFraction <= g.spell(l.perTradeFraction) && p.aggregateFraction <= g.spell(l.aggregateFraction)
      && LowerFloat(g, p.perTradeFraction) == Ok(n.perTradeFraction)
      && LowerFloat(g, p.aggregateFraction) == Ok(n.aggregateFraction)
      && LowerFloat(g, caps.perTrade) == Ok(n.perTradeCap) && LowerFloat(g, caps.daily) == Ok(n.dailyCap)
      && LowerFloat(g, caps.aggregate) == Ok(n.aggregateCap) && LowerFloat(g, caps.position) == Ok(n.maxPosition)
      && LowerFloat(g, g.spell(l.maxEquity)) == Ok(n.maxEquity)
      && UpperFloat(g, Max(venueMinimum, g.spell(l.minNotional))) == Ok(n.minNotional)
  {
    LimitsSpellPositive(g, l);
    hide CapsFor, LowerFloat, UpperFloat, LimitsValid, Basis, Grid.Valid;
  }

  lemma CapsBelowLimits(g: Grid, l: LimitFloats, p: BudgetPolicy, basis: Pos)
    requires g.spell(l.perTradeCap) > 0.0 && g.spell(l.dailyCap) > 0.0 && g.spell(l.aggregateCap) > 0.0
      && g.spell(l.maxPosition) > 0.0
    ensures var caps := CapsFor(g, l, p, basis);
      && caps.perTrade <= g.spell(l.perTradeCap) && caps.perTrade <= Share(basis, p.perTradeFraction)
      && caps.daily <= g.spell(l.dailyCap) && caps.daily <= Share(basis, p.dailyFraction)
      && caps.aggregate <= g.spell(l.aggregateCap) && caps.aggregate <= basis
      && caps.position <= g.spell(l.maxPosition) && caps.position <= caps.aggregate
  {
    hide CentFloor, Share;
    CentsBelow(Min(basis, g.spell(l.aggregateCap)));
    CentsBelow(Min(g.spell(l.perTradeCap), Share(basis, p.perTradeFraction)));
    CentsBelow(Min(g.spell(l.dailyCap), Share(basis, p.dailyFraction)));
    CentsBelow(Min(CentFloor(Min(basis, g.spell(l.aggregateCap))), g.spell(l.maxPosition)));
  }

  /** A proposal is valid and never above the current limits; the start ceiling is kept exactly and
      only the minimum notional may rise, to what the venues demand. */
  lemma ProposalDeflates(g: Grid, l: LimitFloats, p: BudgetPolicy, equity: Pos, venueMinimum: Pos)
    requires g.Valid() && LimitsValid(g, l) && p.Valid() && Propose(g, l, p, equity, venueMinimum).Ok?
    ensures Basis(g, l, equity) > 0.0
    ensures var n := Propose(g, l, p, equity, venueMinimum).value;
      && LimitsValid(g, n)
      && n.perTradeFraction <= l.perTradeFraction && n.aggregateFraction <= l.aggregateFraction
      && n.perTradeCap <= l.perTradeCap && n.aggregateCap <= l.aggregateCap && n.dailyCap <= l.dailyCap
      && n.maxPosition <= l.maxPosition && n.maxEquity == l.maxEquity
      && n.minNotional >= l.minNotional && g.spell(n.minNotional) >= venueMinimum
      && g.spell(n.perTradeCap) <= Share(Basis(g, l, equity), p.perTradeFraction)
      && g.spell(n.dailyCap) <= Share(Basis(g, l, equity), p.dailyFraction)
      && g.spell(n.aggregateCap) <= Basis(g, l, equity) && n.maxPosition <= n.aggregateCap
  {
    ProposalFigures(g, l, p, equity, venueMinimum);
    var n, basis := Propose(g, l, p, equity, venueMinimum).value, Basis(g, l, equity);
    hide Propose, CapsFor, LowerFloat, UpperFloat, Share, Grid.Valid;
    CapsBelowLimits(g, l, p, basis);
    var caps := CapsFor(g, l, p, basis);
    LowerUnder(g, p.perTradeFraction, l.perTradeFraction);
    LowerUnder(g, p.aggregateFraction, l.aggregateFraction);
    LowerUnder(g, caps.perTrade, l.perTradeCap);
    LowerUnder(g, caps.daily, l.dailyCap);
    LowerUnder(g, caps.aggregate, l.aggregateCap);
    LowerUnder(g, caps.position, l.maxPosition);
    SpelledIsExact(g, l.maxEquity);
    LowerMonotone(g, caps.position, caps.aggregate);
    UpperSpellsAbove(g, Max(venueMinimum, g.spell(l.minNotional)));
    SpellOrdered(g, n.minNotional, l.minNotional);
  }

  // ----- looser limits and more equity -----

  /** No limit of `k` is tighter than that of `l`. */
  predicate Looser(l: LimitFloats, k: LimitFloats) {
    && l.perTradeFraction <= k.perTradeFraction && l.aggregateFraction <= k.aggregateFraction
    && l.perTradeCap <= k.perTradeCap && l.aggregateCap <= k.aggregateCap && l.dailyCap <= k.dailyCap
    && l.maxEquity <= k.maxEquity && l.maxPosition <= k.maxPosition && k.minNotional <= l.minNotional
  }

  lemma SpellsFollow(g: Grid, f: int, h: int)
    requires g.Valid() && 0 <= f <= h <= g.top
    ensures g.spell(f) <= g.spell(h)
  {
    SpellOrdered(g, h, f);
  }

  lemma LimitsFollow(g: Grid, l: LimitFloats, k: LimitFloats)
    requires g.Valid() && LimitsValid(g, l) && LimitsValid(g, k) && Looser(l, k)
    ensures g.spell(l.perTradeFraction) <= g.spell(k.perTradeFraction)
      && g.spell(l.aggregateFraction) <= g.spell(k.aggregateFraction)
    ensures 0.0 < g.spell(l.perTradeCap) <= g.spell(k.perTradeCap) && 0.0 < g.spell(l.dailyCap) <= g.spell(k.dailyCap)
    ensures 0.0 < g.spell(l.aggregateCap) <= g.spell(k.aggregateCap) && 0.0 < g.spell(l.maxPosition) <= g.spell(k.maxPosition)
    ensures 0.0 < g.spell(l.maxEquity) <= g.spell(k.maxEquity) && g.spell(l.minNotional) >= g.spell(k.minNotional) > 0.0
  {
    LimitsSpellPositive(g, l);
    LimitsSpellPositive(g, k);
    SpellsFollow(g, l.perTradeFraction, k.perTradeFraction);
    SpellsFollow(g, l.aggregateFraction, k.aggregateFraction);
    SpellsFollow(g, l.perTradeCap, k.perTradeCap);
    SpellsFollow(g, l.dailyCap, k.dailyCap);
    SpellsFollow(g, l.aggregateCap, k.aggregateCap);
    SpellsFollow(g, l.maxPosition, k.maxPosition);
    SpellsFollow(g, l.maxEquity, k.maxEquity);
    SpellsFollow(g, k.minNotional, l.minNotional);
  }

  lemma SharesFollow(low: Pos, high: Pos, fraction: Pos)
    requires low <= high
    ensures Share(low, fraction) <= Share(high, fraction)
  {
    assert (high - low) * fraction >= 0.0;
  }

  lemma CapsFollow(g: Grid, l: LimitFloats, k: LimitFloats, p: BudgetPolicy, low: Pos, high: Pos)
    requires low <= high
    requires 0.0 < g.spell(l.perTradeCap) <= g.spell(k.perTradeCap) && 0.0 < g.spell(l.dailyCap) <= g.spell(k.dailyCap)
    requires 0.0 < g.spell(l.aggregateCap) <= g.spell(k.aggregateCap) && 0.0 < g.spell(l.maxPosition) <= g.spell(k.maxPosition)
    ensures var a, b := CapsFor(g, l, p, low), CapsFor(g, k, p, high);
      a.perTrade <= b.perTrade && a.daily <= b.daily && a.aggregate <= b.aggregate && a.position <= b.position
  {
    hide CentFloor, Share;
    SharesFollow(low, high, p.perTradeFraction);
    SharesFollow(low, high, p.dailyFraction);
    CentsMonotone(Min(low, g.spell(l.aggregateCap)), Min(high, g.spell(k.aggregateCap)));
    CentsMonotone(Min(g.spell(l.perTradeCap), Share(low, p.perTradeFraction)),
                  Min(g.spell(k.perTradeCap), Share(high, p.perTradeFraction)));
    CentsMonotone(Min(g.spell(l.dailyCap), Share(low, p.dailyFraction)),
                  Min(g.spell(k.dailyCap), Share(high, p.dailyFraction)));
    CentsMonotone(Min(CentFloor(Min(low, g.spell(l.aggregateCap))), g.spell(l.maxPosition)),
                  Min(CentFloor(Min(high, g.spell(k.aggregateCap))), g.spell(k.maxPosition)));
  }

  /** A positive figure that some limit spells at or above is converted without overflow. */
  lemma LowerFinite(g: Grid, v: real, f: int)
    requires g.Valid() && 0.0 <= v <= g.spell(f) && 0 <= f <= g.top
    ensures LowerFloat(g, v).Ok? && 0 <= LowerFloat(g, v).value <= g.top
  {
    Reads(g, v, g.spell(f));
    Reads(g, g.spell(0), v);
    assert g.read(g.spell(0)) == 0 && g.read(g.spell(f)) == f;
    LowerIsGreatest(g, v, 0);
  }

  /** One cap of the higher proposal: convertible, and at least the lower one. */
  lemma CapFollows(g: Grid, low: NonNeg, high: NonNeg, f: int)
    requires g.Valid() && 0 <= f <= g.top && low <= high <= g.spell(f) && LowerFloat(g, low).Ok?
    ensures LowerFloat(g, high).Ok? && LowerFloat(g, low).value <= LowerFloat(g, high).value <= g.top
  {
    LowerFinite(g, high, f);
    LowerMonotone(g, low, high);
  }

  /** A smaller minimum: convertible, and not above the larger one. */
  lemma MinimumFollows(g: Grid, low: Pos, high: Pos)
    requires g.Valid() && low <= high && UpperFloat(g, high).Ok? && UpperFloat(g, high).value <= g.top
    ensures UpperFloat(g, low).Ok? && 0 < UpperFloat(g, low).value <= UpperFloat(g, high).value
  {
    Reads(g, g.spell(0), low);
    Reads(g, low, high);
    assert g.read(g.spell(0)) == 0;
    UpperIsLeast(g, high, UpperFloat(g, high).value);
    UpperIsLeast(g, low, UpperFloat(g, high).value);
    UpperIsLeast(g, low, 0);
  }

  /** Limits that are looser than valid ones, with the same fractions, are valid. */
  lemma LimitsGrow(g: Grid, a: LimitFloats, b: LimitFloats)
    requires LimitsValid(g, a) && Looser(a, b) && b.minNotional > 0
    requires b.perTradeFraction == a.perTradeFraction && b.aggregateFraction == a.aggregateFraction
    requires b.perTradeCap <= g.top && b.dailyCap <= g.top && b.aggregateCap <= g.top && b.maxPosition <= g.top && b.maxEquity <= g.top
    ensures LimitsValid(g, b)
  {
  }

  /** The proposal whose figures are converted to `n`, once the guards are passed. */
  lemma ProposalIs(g: Grid, l: LimitFloats, p: BudgetPolicy, equity: Pos, venueMinimum: Pos, caps: Caps, n: LimitFloats)
    requires g.Valid() && LimitsValid(g, l) && p.Valid() && LimitsValid(g, n)
    requires g.spell(l.perTradeCap) > 0.0 && g.spell(l.dailyCap) > 0.0 && g.spell(l.aggregateCap) > 0.0
      && g.spell(l.maxPosition) > 0.0 && Basis(g, l, equity) > 0.0
    requires caps == CapsFor(g, l, p, Basis(g, l, equity))
    requires p.perTradeFraction <= g.spell(l.perTradeFraction) && p.aggregateFraction <= g.spell(l.aggregateFraction)
    requires caps.perTrade > 0.0 && caps.daily > 0.0 && caps.position > 0.0
      && Max(venueMinimum, g.spell(l.minNotional)) <= caps.position
    requires LowerFloat(g, p.perTradeFraction) == Ok(n.perTradeFraction)
      && LowerFloat(g, p.aggregateFraction) == Ok(n.aggregateFraction)
      && LowerFloat(g, caps.perTrade) == Ok(n.perTradeCap) && LowerFloat(g, caps.daily) == Ok(n.dailyCap)
      && LowerFloat(g, caps.aggregate) == Ok(n.aggregateCap) && LowerFloat(g, caps.position) == Ok(n.maxPosition)
      && LowerFloat(g, g.spell(l.maxEquity)) == Ok(n.maxEquity)
      && UpperFloat(g, Max(venueMinimum, g.spell(l.minNotional))) == Ok(n.minNotional)
    ensures Propose(g, l, p, equity, venueMinimum) == Ok(n)
  {
    hide CapsFor, LowerFloat, UpperFloat, LimitsValid, Basis, Grid.Valid;
  }

  /** Whatever is loosened, the limits in force, the equity or what the venues demand, a proposal stays possible,
      no proposed cap falls and the minimum does not rise; its fractions are the policy's and its ceiling the new one. */
  lemma ProposalFollows(
    g: Grid, l: LimitFloats, k: LimitFloats, p: BudgetPolicy, low: Pos, high: Pos, demanded: Pos, needed: Pos)
    requires g.Valid() && LimitsValid(g, l) && LimitsValid(g, k) && p.Valid() && Looser(l, k) && low <= high && needed <= demanded
    requires Propose(g, l, p, low, demanded).Ok?
    ensures Propose(g, k, p, high, needed).Ok?
    ensures var a, b := Propose(g, l, p, low, demanded).value, Propose(g, k, p, high, needed).value;
      && Looser(a, b) && b.maxEquity == k.maxEquity
      && b.perTradeFraction == a.perTradeFraction && b.aggregateFraction == a.aggregateFraction
  {
    hide Propose, CapsFor, LowerFloat, UpperFloat, Grid.Valid, Share, CentFloor;
    ProposalFigures(g, l, p, low, demanded);
    ProposalDeflates(g, l, p, low, demanded);
    PositiveCaps(g, l, p, low, demanded);
    LimitsFollow(g, l, k);
    SpelledIsExact(g, k.maxEquity);
    var n := Propose(g, l, p, low, demanded).value;
    assert 0.0 < Basis(g, l, low) <= Basis(g, k, high);
    hide Basis;
    var a, b := CapsFor(g, l, p, Basis(g, l, low)), CapsFor(g, k, p, Basis(g, k, high));
    CapsFollow(g, l, k, p, Basis(g, l, low), Basis(g, k, high));
    CapsBelowLimits(g, k, p, Basis(g, k, high));
    CapFollows(g, a.perTrade, b.perTrade, k.perTradeCap);
    CapFollows(g, a.daily, b.daily, k.dailyCap);
    CapFollows(g, a.aggregate, b.aggregate, k.aggregateCap);
    CapFollows(g, a.position, b.position, k.maxPosition);
    var most, least := Max(demanded, g.spell(l.minNotional)), Max(needed, g.spell(k.minNotional));
    MinimumFollows(g, least, most);
    var m := LimitFloats(n.perTradeFraction, n.aggregateFraction, LowerFloat(g, b.perTrade).value, LowerFloat(g, b.aggregate).value,
                         LowerFloat(g, b.daily).value, k.maxEquity, LowerFloat(g, b.position).value, UpperFloat(g, least).value);
    LimitsGrow(g, n, m);
    hide LimitsValid;
    ProposalIs(g, k, p, high, needed, b, m);
  }

  /** More verified equity keeps a proposal possible, never lowers a proposed cap, and changes nothing else. */
  lemma ProposalFollowsEquity(g: Grid, l: LimitFloats, p: BudgetPolicy, low: Pos, high: Pos, venueMinimum: Pos)
    requires g.Valid() && LimitsValid(g, l) && p.Valid() && low <= high
    requires Propose(g, l, p, low, venueMinimum).Ok?
    ensures Propose(g, l, p, high, venueMinimum).Ok?
    ensures var a, b := Propose(g, l, p, low, venueMinimum).value, Propose(g, l, p, high, venueMinimum).value;
      && a.perTradeCap <= b.perTradeCap && a.dailyCap <= b.dailyCap
      && a.aggregateCap <= b.aggregateCap && a.maxPosition <= b.maxPosition
      && b == a.(perTradeCap := b.perTradeCap, dailyCap := b.dailyCap, aggregateCap := b.aggregateCap, maxPosition := b.maxPosition)
  {
    hide Propose, CapsFor, LowerFloat, UpperFloat, Grid.Valid, Share, Basis;
    ProposalFollows(g, l, l, p, low, high, venueMinimum, venueMinimum);
    ProposalFigures(g, l, p, low, venueMinimum);
    ProposalFigures(g, l, p, high, venueMinimum);
  }

  lemma PositiveCaps(g: Grid, l: LimitFloats, p: BudgetPolicy, equity: Pos, venueMinimum: Pos)
    requires g.Valid() && LimitsValid(g, l) && p.Valid() && Propose(g, l, p, equity, venueMinimum).Ok?
    ensures g.spell(l.perTradeCap) > 0.0 && g.spell(l.dailyCap) > 0.0 && g.spell(l.aggregateCap) > 0.0
      && g.spell(l.maxPosition) > 0.0 && Basis(g, l, equity) > 0.0
    ensures var caps := CapsFor(g, l, p, Basis(g, l, equity));
      && caps.perTrade > 0.0 && caps.daily > 0.0 && caps.position > 0.0
      && Max(venueMinimum, g.spell(l.minNotional)) <= caps.position
  {
    LimitsSpellPositive(g, l);
    hide CapsFor, LowerFloat, UpperFloat, LimitsValid, Convert, Grid.Valid;
  }

  /** Equity above the recorded ceiling proposes what the ceiling proposes. */
  lemma ProposalSaturates(g: Grid, l: LimitFloats, p: BudgetPolicy, equity: Pos, venueMinimum: Pos)
    requires g.Valid() && LimitsValid(g, l) && p.Valid() && g.spell(l.maxEquity) > 0.0 && equity >= g.spell(l.maxEquity)
    ensures Propose(g, l, p, equity, venueMinimum) == Propose(g, l, p, g.spell(l.maxEquity), venueMinimum)
  {
    assert Basis(g, l, equity) == Basis(g, l, g.spell(l.maxEquity));
    hide CapsFor, Convert, Grid.Valid, LimitsValid;
  }

  // ----- proposing again -----

  /** The policy's fractions are spelled by floats and every proposed cap spells whole cents. */
  predicate Settled(g: Grid, p: BudgetPolicy, n: LimitFloats) {
    && g.spell(n.perTradeFraction) == p.perTradeFraction
    && g.spell(n.aggregateFraction) == p.aggregateFraction
    && WholeCents(g.spell(n.perTradeCap)) && WholeCents(g.spell(n.dailyCap))
    && WholeCents(g.spell(n.aggregateCap)) && WholeCents(g.spell(n.maxPosition))
  }

  /** The decimal is one that some float spells. */
  predicate Spelled(g: Grid, v: NonNeg) { LowerFloat(g, v).Ok? && g.spell(LowerFloat(g, v).value) == v }

  lemma SpelledIff(g: Grid, v: NonNeg)
    requires g.Valid()
    ensures Spelled(g, v) <==> exists f :: 0 <= f <= g.top && g.spell(f) == v
  {
    if Spelled(g, v) { LowerSpellsBelow(g, v); }
    forall f | 0 <= f <= g.top && g.spell(f) == v ensures Spelled(g, v) {
      SpelledIsExact(g, f);
    }
  }

  /** The float that a cap is lowered to spells whole cents. */
  predicate KeepsCents(g: Grid, v: NonNeg) { LowerFloat(g, v).Ok? ==> WholeCents(g.spell(LowerFloat(g, v).value)) }

  /** What decides, before anything is proposed, whether a proposal would settle. */
  predicate WillSettle(g: Grid, l: LimitFloats, p: BudgetPolicy, basis: Pos)
    requires g.spell(l.perTradeCap) > 0.0 && g.spell(l.dailyCap) > 0.0 && g.spell(l.aggregateCap) > 0.0
      && g.spell(l.maxPosition) > 0.0
  {
    var caps := CapsFor(g, l, p, basis);
    && Spelled(g, p.perTradeFraction) && Spelled(g, p.aggregateFraction)
    && KeepsCents(g, caps.perTrade) && KeepsCents(g, caps.daily) && KeepsCents(g, caps.aggregate) && KeepsCents(g, caps.position)
  }

  lemma SettledIff(g: Grid, l: LimitFloats, p: BudgetPolicy, equity: Pos, venueMinimum: Pos, n: LimitFloats)
    requires g.Valid() && LimitsValid(g, l) && p.Valid() && Propose(g, l, p, equity, venueMinimum) == Ok(n)
    ensures g.spell(l.perTradeCap) > 0.0 && g.spell(l.dailyCap) > 0.0 && g.spell(l.aggregateCap) > 0.0
      && g.spell(l.maxPosition) > 0.0 && Basis(g, l, equity) > 0.0
    ensures Settled(g, p, n) <==> WillSettle(g, l, p, Basis(g, l, equity))
  {
    hide Propose, CapsFor, LowerFloat, UpperFloat, LimitsValid, Basis, Grid.Valid, WholeCents;
    ProposalFigures(g, l, p, equity, venueMinimum);
    PositiveCaps(g, l, p, equity, venueMinimum);
  }

  /** Flooring a spelled cap to cents and converting it again returns it exactly when it spells cents. */
  lemma CentRoundTrip(g: Grid, f: int)
    requires g.Valid() && 0 < f <= g.top && g.spell(f) > 0.0
    ensures LowerFloat(g, CentFloor(g.spell(f))) == Ok(f) <==> WholeCents(g.spell(f))
  {
    CentsBelow(g.spell(f));
    CentsFixed(g.spell(f));
    SpelledIsExact(g, f);
    hide CentFloor, WholeCents;
    if LowerFloat(g, CentFloor(g.spell(f))) == Ok(f) {
      LowerSpellsBelow(g, CentFloor(g.spell(f)));
    }
  }

  lemma CapsAgain(g: Grid, l: LimitFloats, p: BudgetPolicy, equity: Pos, venueMinimum: Pos, n: LimitFloats)
    requires g.Valid() && LimitsValid(g, l) && p.Valid() && Propose(g, l, p, equity, venueMinimum) == Ok(n)
    ensures LimitsValid(g, n) && Basis(g, n, equity) == Basis(g, l, equity) > 0.0
    ensures g.spell(n.perTradeCap) > 0.0 && g.spell(n.dailyCap) > 0.0 && g.spell(n.aggregateCap) > 0.0
      && g.spell(n.maxPosition) > 0.0
    ensures var again := CapsFor(g, n, p, Basis(g, n, equity));
      && again.perTrade == CentFloor(g.spell(n.perTradeCap)) && again.daily == CentFloor(g.spell(n.dailyCap))
      && again.aggregate == CentFloor(g.spell(n.aggregateCap))
      && again.position == CentFloor(Min(again.aggregate, g.spell(n.maxPosition)))
    ensures g.spell(n.maxPosition) <= g.spell(n.aggregateCap)
  {
    ProposalDeflates(g, l, p, equity, venueMinimum);
    LimitsSpellPositive(g, l);
    LimitsSpellPositive(g, n);
    SpellOrdered(g, n.aggregateCap, n.maxPosition);
    hide Propose, CentFloor, LimitsValid, Grid.Valid, Share;
  }

  lemma MinimumAgain(g: Grid, l: LimitFloats, p: BudgetPolicy, equity: Pos, venueMinimum: Pos, n: LimitFloats)
    requires g.Valid() && LimitsValid(g, l) && p.Valid() && Propose(g, l, p, equity, venueMinimum) == Ok(n)
    ensures LimitsValid(g, n)
    ensures Max(venueMinimum, g.spell(n.minNotional)) == g.spell(n.minNotional) <= g.spell(n.maxPosition)
    ensures UpperFloat(g, g.spell(n.minNotional)) == Ok(n.minNotional)
    ensures LowerFloat(g, g.spell(n.maxEquity)) == Ok(n.maxEquity)
  {
    ProposalDeflates(g, l, p, equity, venueMinimum);
    SpelledIsExact(g, n.minNotional);
    SpelledIsExact(g, n.maxEquity);
    SpellOrdered(g, n.maxPosition, n.minNotional);
    hide Propose;
  }

  /** A settled proposal converts again to itself, cap by cap, and only a settled one does. */
  lemma FiguresSettleIff(g: Grid, l: LimitFloats, p: BudgetPolicy, equity: Pos, venueMinimum: Pos, n: LimitFloats)
    requires g.Valid() && LimitsValid(g, l) && p.Valid() && Propose(g, l, p, equity, venueMinimum) == Ok(n)
    ensures g.spell(n.perTradeCap) > 0.0 && g.spell(n.dailyCap) > 0.0 && g.spell(n.aggregateCap) > 0.0
      && g.spell(n.maxPosition) > 0.0 && Basis(g, n, equity) > 0.0
    ensures var again := CapsFor(g, n, p, Basis(g, n, equity));
      Settled(g, p, n) <==>
        (&& g.spell(n.perTradeFraction) == p.perTradeFraction && g.spell(n.aggregateFraction) == p.aggregateFraction
         && LowerFloat(g, again.perTrade) == Ok(n.perTradeCap) && LowerFloat(g, again.daily) == Ok(n.dailyCap)
         && LowerFloat(g, again.aggregate) == Ok(n.aggregateCap) && LowerFloat(g, again.position) == Ok(n.maxPosition))
  {
    CapsAgain(g, l, p, equity, venueMinimum, n);
    hide Propose, CapsFor, CentFloor, WholeCents, LowerFloat, LimitsValid, Basis, Grid.Valid;
    CentRoundTrip(g, n.perTradeCap);
    CentRoundTrip(g, n.dailyCap);
    CentRoundTrip(g, n.aggregateCap);
    CentRoundTrip(g, n.maxPosition);
    CentsFixed(g.spell(n.aggregateCap));
    CentsFixed(g.spell(n.maxPosition));
  }

  lemma FractionsSpellBelow(g: Grid, l: LimitFloats, p: BudgetPolicy, equity: Pos, venueMinimum: Pos, n: LimitFloats)
    requires g.Valid() && LimitsValid(g, l) && p.Valid() && Propose(g, l, p, equity, venueMinimum) == Ok(n)
    ensures g.spell(n.perTradeFraction) <= p.perTradeFraction && g.spell(n.aggregateFraction) <= p.aggregateFraction
    ensures LowerFloat(g, p.perTradeFraction) == Ok(n.perTradeFraction)
    ensures LowerFloat(g, p.aggregateFraction) == Ok(n.aggregateFraction)
  {
    hide Propose, CapsFor, LowerFloat, UpperFloat, Basis;
    ProposalFigures(g, l, p, equity, venueMinimum);
    LowerSpellsBelow(g, p.perTradeFraction);
    LowerSpellsBelow(g, p.aggregateFraction);
  }

  /** A settled proposal passes every guard again. */
  lemma SettledAgain(g: Grid, l: LimitFloats, p: BudgetPolicy, equity: Pos, venueMinimum: Pos, n: LimitFloats)
    requires g.Valid() && LimitsValid(g, l) && p.Valid() && Propose(g, l, p, equity, venueMinimum) == Ok(n) && Settled(g, p, n)
    ensures LimitsValid(g, n) && Propose(g, n, p, equity, venueMinimum) == Ok(n)
  {
    hide Propose, CapsFor, CentFloor, WholeCents, LowerFloat, UpperFloat, LimitsValid, Basis, Grid.Valid;
    CapsAgain(g, l, p, equity, venueMinimum, n);
    MinimumAgain(g, l, p, equity, venueMinimum, n);
    FiguresSettleIff(g, l, p, equity, venueMinimum, n);
    FractionsSpellBelow(g, l, p, equity, venueMinimum, n);
    CentsFixed(g.spell(n.perTradeCap));
    CentsFixed(g.spell(n.dailyCap));
    CentsFixed(g.spell(n.aggregateCap));
    CentsFixed(g.spell(n.maxPosition));
    ProposalIs(g, n, p, equity, venueMinimum, CapsFor(g, n, p, Basis(g, n, equity)), n);
  }

  /** Proposing again from the proposed limits with the same facts changes nothing if and only if the
      policy's fractions are spelled by floats and the caps are lowered to whole cents: before conversion, for one
      who has yet to propose, or in the proposal itself. */
  lemma ProposalSettlesIff(g: Grid, l: LimitFloats, p: BudgetPolicy, equity: Pos, venueMinimum: Pos, n: LimitFloats)
    requires g.Valid() && LimitsValid(g, l) && p.Valid() && Propose(g, l, p, equity, venueMinimum) == Ok(n)
    ensures LimitsValid(g, n)
    ensures Propose(g, n, p, equity, venueMinimum) == Ok(n) <==> Settled(g, p, n)
    ensures g.spell(l.perTradeCap) > 0.0 && g.spell(l.dailyCap) > 0.0 && g.spell(l.aggregateCap) > 0.0
      && g.spell(l.maxPosition) > 0.0 && Basis(g, l, equity) > 0.0
    ensures Propose(g, n, p, equity, venueMinimum) == Ok(n) <==> WillSettle(g, l, p, Basis(g, l, equity))
  {
    hide Propose, Settled, WillSettle, CapsFor, LowerFloat, UpperFloat, LimitsValid, Basis, Grid.Valid;
    SettledIff(g, l, p, equity, venueMinimum, n);
    CapsAgain(g, l, p, equity, venueMinimum, n);
    if Settled(g, p, n) {
      SettledAgain(g, l, p, equity, venueMinimum, n);
    }
    if Propose(g, n, p, equity, venueMinimum) == Ok(n) {
      ProposalFigures(g, n, p, equity, venueMinimum);
      FractionsSpellBelow(g, l, p, equity, venueMinimum, n);
      FiguresSettleIff(g, l, p, equity, venueMinimum, n);
    }
  }

  /** Thousandths as floats: read rounds down. */
  function Thousandths(): Grid {
    Grid((x: real) => (x * 1000.0).Floor, (i: int) => i as real / 1000.0, 10000000)
  }

  lemma ThousandthsValid()
    ensures Thousandths().Valid()
  {
    var g := Thousandths();
    forall x, y | x <= y ensures g.read(x) <= g.read(y) {
      assert x * 1000.0 <= y * 1000.0;
    }
    forall f | g.Finite(f) ensures g.read(g.spell(f)) == f {
      assert g.spell(f) * 1000.0 == f as real;
    }
  }

  const START := LimitFloats(2, 10, 100000, 1000000, 100000, 1000000, 1000000, 10000)
  const BETWEEN := BudgetPolicy(0.0015, 0.01, 0.01)

  /** Proposing twice is not idempotent: a policy fraction between two floats is accepted once, and then
      refused because it exceeds the fraction just proposed for it. */
  lemma ProposingTwiceCanFail()
    ensures Thousandths().Valid() && LimitsValid(Thousandths(), START) && BETWEEN.Valid()
    ensures Propose(Thousandths(), START, BETWEEN, 1000.0, 5.0).Ok?
    ensures LimitsValid(Thousandths(), Propose(Thousandths(), START, BETWEEN, 1000.0, 5.0).value)
    ensures Propose(Thousandths(), Propose(Thousandths(), START, BETWEEN, 1000.0, 5.0).value, BETWEEN, 1000.0, 5.0) == Raised
  {
    ThousandthsValid();
    var g := Thousandths();
    hide Grid.Valid;
    var n := LimitFloats(1, 10, 1500, 1000000, 10000, 1000000, 1000000, 10000);
    LimitsSpellPositive(g, START);
    assert CapsFor(g, START, BETWEEN, 1000.0) == Caps(1.5, 10.0, 1000.0, 1000.0);
    assert Propose(g, START, BETWEEN, 1000.0, 5.0) == Ok(n);
  }
}
