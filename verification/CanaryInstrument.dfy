/** The instrument rule bound into a technical canary: metadata round trip and least legal quantity. */
module CanaryInstrument {
  import opened Common
  import opened Contracts
  import opened Decimals

  const INSTRUMENT_RULE_DOMAIN := "evedex-dev-instrument-rule.v1"
  const CANARY_ENTRY_ORDER := "MARKETABLE_IOC_LIMIT"

  /** The decimal fields of a rule, in the order of the source's field list. */
  const FIELD_COUNT := 9
  const LOT_SIZE := 0
  const PRICE_INCREMENT := 1
  const QUANTITY_INCREMENT := 2
  const MULTIPLIER := 3
  const MIN_VOLUME_USD := 4
  const MIN_PRICE := 5
  const MAX_PRICE := 6
  const MIN_QUANTITY := 7
  const MAX_QUANTITY := 8

  datatype Rule = Rule(
    venueSymbol: string, trading: string, marketState: string, updatedAtMs: nat,
    decimals: seq<Dec>, fetchedAtMs: nat)

  /** The same nine numbers as reals. */
  datatype Numbers = Numbers(
    lotSize: real, priceIncrement: real, quantityIncrement: real, multiplier: real, minVolumeUsd: real,
    minPrice: real, maxPrice: real, minQuantity: real, maxQuantity: real)

  function NumbersOf(d: seq<Dec>): Numbers
    requires |d| == FIELD_COUNT
  {
    Numbers(Value(d[LOT_SIZE]), Value(d[PRICE_INCREMENT]), Value(d[QUANTITY_INCREMENT]), Value(d[MULTIPLIER]),
            Value(d[MIN_VOLUME_USD]), Value(d[MIN_PRICE]), Value(d[MAX_PRICE]), Value(d[MIN_QUANTITY]),
            Value(d[MAX_QUANTITY]))
  }

  /** `x % step == 0` for a positive step. */
  predicate Aligned(x: real, step: real)
    requires step > 0.0
  {
    (x / step).Floor as real * step == x
  }

  predicate NumbersValid(n: Numbers) {
    && n.lotSize == 1.0 && n.multiplier == 1.0
    && n.priceIncrement > 0.0 && n.quantityIncrement > 0.0 && n.minVolumeUsd > 0.0
    && 0.0 < n.minPrice < n.maxPrice
    && 0.0 < n.minQuantity <= n.maxQuantity
    && Aligned(n.minPrice, n.priceIncrement)
    && Aligned(n.maxPrice, n.priceIncrement)
    && Aligned(n.minQuantity, n.quantityIncrement)
  }

  predicate IsDevSymbol(name: string) {
    && |name| >= 4 && name[|name| - 4..] == ":DEV"
    && forall i :: 0 <= i < |name| ==> !('a' <= name[i] <= 'z')
  }

  /** What constructing a rule accepts. */
  predicate RuleValid(r: Rule) {
    && IsDevSymbol(r.venueSymbol)
    && r.trading == "all" && r.marketState == "OPEN"
    && |r.decimals| == FIELD_COUNT
    && (forall i :: 0 <= i < FIELD_COUNT ==> r.decimals[i].coefficient > 0)
    && NumbersValid(NumbersOf(r.decimals))
  }

  // ----- printing -----

  function Texts(decimals: seq<Dec>): seq<string> {
    seq(|decimals|, i requires 0 <= i < |decimals| => Canonical(decimals[i]))
  }

  function Joined(texts: seq<string>): string {
    if texts == [] then "" else "," + texts[0] + Joined(texts[1..])
  }

  /** Stands for the SHA-256 of the rule payload: the text that is hashed. */
  function RulesSha(r: Rule): string {
    INSTRUMENT_RULE_DOMAIN + Joined(Texts(r.decimals) + [r.marketState, r.venueSymbol, r.trading, Digits(r.updatedAtMs)])
  }

  function RuleEvidence(r: Rule): Evidence {
    Evidence("venue_instrument", "EVEDEX_DEV:" + r.venueSymbol + ":" + Digits(r.updatedAtMs),
             RulesSha(r), r.updatedAtMs)
  }

  /** The metadata of a canary intent on `accountId` for `quantity` under rule `r`. */
  function MetadataOf(r: Rule, quantity: Dec, accountId: string): Metadata {
    CanaryMetadata(accountId, "false", CANARY_ENTRY_ORDER, "NEXT_BAR_MARKET", "technical_execution_canary",
                   r.venueSymbol, r.trading, r.marketState, Digits(r.updatedAtMs),
                   Texts(r.decimals), RulesSha(r), Canonical(quantity))
  }

  // ----- binding -----

  function VenueEvidence(evidence: seq<Evidence>): seq<Evidence> {
    if evidence == [] then []
    else if evidence[0].kind == "venue_instrument" then [evidence[0]] + VenueEvidence(evidence[1..])
    else VenueEvidence(evidence[1..])
  }

  predicate QuantityFits(r: Rule, quantity: Dec)
    requires RuleValid(r)
  {
    var n := NumbersOf(r.decimals);
    && n.minQuantity <= Value(quantity) <= n.maxQuantity
    && Aligned(Value(quantity), n.quantityIncrement)
  }

  predicate PolicyMetadataValid(m: Metadata, accountId: string) {
    && m.CanaryMetadata?
    && |m.ruleTexts| == FIELD_COUNT
    && m.accountId == accountId
    && m.alphaClaim == "false"
    && m.entryOrder == CANARY_ENTRY_ORDER
    && m.entryPolicy == "NEXT_BAR_MARKET"
    && m.purpose == "technical_execution_canary"
    && m.trading == "all"
    && m.marketState == "OPEN"
  }

  predicate AllCanonical(texts: seq<string>) {
    forall i :: 0 <= i < |texts| ==> ParseCanonical(texts[i]).Some?
  }

  function DecimalsOf(texts: seq<string>): (d: seq<Dec>)
    requires AllCanonical(texts)
  {
    seq(|texts|, i requires 0 <= i < |texts| => ParseCanonical(texts[i]).value)
  }

  function CanonicalNat(text: string): Option<nat> {
    var n := ParseNat(text);
    if n.Some? && Digits(n.value) == text then n else None
  }

  /** The rule and quantity that an intent's metadata and evidence bind, if they are exact. */
  function BoundInstrument(m: Metadata, evidence: seq<Evidence>, accountId: string): Result<(Rule, Dec)> {
    if !PolicyMetadataValid(m, accountId) || CanonicalNat(m.updatedAt).None? || !AllCanonical(m.ruleTexts) then Raised
    else
      var updated := CanonicalNat(m.updatedAt).value;
      var rule := Rule(m.venueSymbol, m.trading, m.marketState, updated, DecimalsOf(m.ruleTexts), updated);
      if !RuleValid(rule) || m.rulesSha != RulesSha(rule) then Raised
      else if VenueEvidence(evidence) != [RuleEvidence(rule)] then Raised
      else
        var bound := ParseCanonical(m.quantity);
        if bound.None? || !QuantityFits(rule, bound.value) then Raised else Ok((rule, bound.value))
  }

  /** Revalidates the binding field by field, collecting the decimals in a loop. */
  method BoundCanaryInstrument(m: Metadata, evidence: seq<Evidence>, accountId: string)
    returns (r: Result<(Rule, Dec)>)
    ensures r == BoundInstrument(m, evidence, accountId)
  {
    hide Canonical, ParseCanonical, Value, RulesSha, Digits, Aligned, IsDevSymbol, CanonicalNat, RuleEvidence;
    if m.OtherMetadata? || |m.ruleTexts| != FIELD_COUNT || m.accountId != accountId {
      return Raised;
    }
    if || m.alphaClaim != "false" || m.entryOrder != CANARY_ENTRY_ORDER
       || m.entryPolicy != "NEXT_BAR_MARKET" || m.purpose != "technical_execution_canary"
       || m.trading != "all" || m.marketState != "OPEN" {
      return Raised;
    }
    var updated := CanonicalNat(m.updatedAt);
    if updated.None? {
      return Raised;
    }
    var decimals: seq<Dec> := [];
    for i := 0 to |m.ruleTexts|
      invariant |decimals| == i
      invariant forall j :: 0 <= j < i ==> ParseCanonical(m.ruleTexts[j]) == Some(decimals[j])
    {
      var value := ParseCanonical(m.ruleTexts[i]);
      if value.None? {
        return Raised;
      }
      decimals := decimals + [value.value];
    }
    assert decimals == DecimalsOf(m.ruleTexts);
    var rule := Rule(m.venueSymbol, m.trading, m.marketState, updated.value, decimals, updated.value);
    if !RuleValid(rule) || m.rulesSha != RulesSha(rule) {
      return Raised;
    }
    var venueEvidence := VenueEvidence(evidence);
    if |venueEvidence| != 1 || venueEvidence[0] != RuleEvidence(rule) {
      return Raised;
    }
    var bound := ParseCanonical(m.quantity);
    if bound.None? || !QuantityFits(rule, bound.value) {
      return Raised;
    }
    r := Ok((rule, bound.value));
  }

  // ----- round trip -----

  /** The rule in minimal decimals; the fetch time is not part of the binding. */
  function Normalized(r: Rule): Rule {
    Rule(r.venueSymbol, r.trading, r.marketState, r.updatedAtMs,
         seq(|r.decimals|, i requires 0 <= i < |r.decimals| => Normalize(r.decimals[i])), r.updatedAtMs)
  }

  lemma NormalizedField(d: Dec)
    requires d.coefficient > 0
    ensures ParseCanonical(Canonical(d)) == Some(Normalize(d))
    ensures Value(Normalize(d)) == Value(d) && Normalize(d).coefficient > 0 && Canonical(Normalize(d)) == Canonical(d)
  {
    StrictRoundTrip(d);
    CanonicalRoundTrip(d);
    PositiveStays(d);
  }

  lemma NormalizedRule(r: Rule)
    requires RuleValid(r)
    ensures RuleValid(Normalized(r)) && NumbersOf(Normalized(r).decimals) == NumbersOf(r.decimals)
    ensures Texts(Normalized(r).decimals) == Texts(r.decimals)
    ensures AllCanonical(Texts(r.decimals)) && DecimalsOf(Texts(r.decimals)) == Normalized(r).decimals
  {
    hide Canonical, ParseCanonical, Normalize, Value, Aligned, IsDevSymbol;
    forall i | 0 <= i < FIELD_COUNT
      ensures ParseCanonical(Canonical(r.decimals[i])) == Some(Normalize(r.decimals[i]))
      ensures Value(Normalize(r.decimals[i])) == Value(r.decimals[i]) && Normalize(r.decimals[i]).coefficient > 0
      ensures Canonical(Normalize(r.decimals[i])) == Canonical(r.decimals[i])
    {
      NormalizedField(r.decimals[i]);
    }
  }

  /** A rule's own metadata binds that rule and quantity again, numerically unchanged. */
  lemma BindingRoundTrip(r: Rule, quantity: Dec, accountId: string)
    requires RuleValid(r) && QuantityFits(r, quantity)
    ensures BoundInstrument(MetadataOf(r, quantity, accountId), [RuleEvidence(r)], accountId)
         == Ok((Normalized(r), Normalize(quantity)))
    ensures NumbersOf(Normalized(r).decimals) == NumbersOf(r.decimals) && Value(Normalize(quantity)) == Value(quantity)
  {
    hide Canonical, ParseCanonical, Normalize, Value, Aligned, IsDevSymbol, Digits, ParseNat, Joined, Texts, NumbersOf;
    PositiveValue(quantity);
    NormalizedField(quantity);
    NormalizedRule(r);
    NatRoundTrip(r.updatedAtMs);
    assert RulesSha(Normalized(r)) == RulesSha(r);
    assert RuleEvidence(Normalized(r)) == RuleEvidence(r);
    assert QuantityFits(Normalized(r), Normalize(quantity));
    assert VenueEvidence([RuleEvidence(r)]) == [RuleEvidence(r)];
  }

  /** Whatever is accepted is the printed metadata of the rule that was rebuilt. */
  lemma AcceptedReprints(m: Metadata, evidence: seq<Evidence>, accountId: string)
    requires BoundInstrument(m, evidence, accountId).Ok?
    ensures var (rule, quantity) := BoundInstrument(m, evidence, accountId).value;
            && RuleValid(rule) && QuantityFits(rule, quantity)
            && m == MetadataOf(rule, quantity, accountId)
            && VenueEvidence(evidence) == [RuleEvidence(rule)]
  {
    var (rule, quantity) := BoundInstrument(m, evidence, accountId).value;
    AcceptedTexts(m.ruleTexts);
    ParseCanonicalSound(m.quantity);
    hide Texts, DecimalsOf, AllCanonical, RuleValid, QuantityFits, VenueEvidence, RuleEvidence, RulesSha, Canonical,
         ParseCanonical, Value, Digits, ParseNat;
  }

  lemma AcceptedTexts(texts: seq<string>)
    requires AllCanonical(texts)
    ensures Texts(DecimalsOf(texts)) == texts
  {
    hide Canonical, ParseCanonical, Value;
    forall i | 0 <= i < |texts| ensures Canonical(DecimalsOf(texts)[i]) == texts[i] {
      ParseCanonicalSound(texts[i]);
    }
  }

  // ----- least legal quantity -----

  function Ceiling(x: real): int { -((-x).Floor) }

  /** How many steps are worth the volume at this price, rounded up. */
  function StepsFor(volume: real, price: real, step: real): int
    requires price > 0.0 && step > 0.0
  {
    Ceiling(volume / price / step)
  }

  /** The larger of the quantity minimum and the volume minimum rounded up to the grid. */
  function LeastCandidate(n: Numbers, price: real): real
    requires NumbersValid(n) && price > 0.0
  {
    Max(n.minQuantity, StepsFor(n.minVolumeUsd, price, n.quantityIncrement) as real * n.quantityIncrement)
  }

  function EffectiveMinQuantity(n: Numbers, price: real): Result<real>
    requires NumbersValid(n)
  {
    if price <= 0.0 then Raised
    else if price < n.minPrice || price > n.maxPrice then Raised
    else if !Aligned(price, n.priceIncrement) then Raised
    else
      var result := LeastCandidate(n, price);
      if result > n.maxQuantity then Raised else Ok(result)
  }

  /** Quantities the venue would fill at this price, its maximum aside. */
  predicate LegalQuantity(n: Numbers, price: real, quantity: real)
    requires NumbersValid(n)
  {
    && Aligned(quantity, n.quantityIncrement)
    && quantity >= n.minQuantity
    && quantity * price >= n.minVolumeUsd
  }

  predicate PriceAccepted(n: Numbers, price: real)
    requires NumbersValid(n)
  {
    n.minPrice <= price <= n.maxPrice && Aligned(price, n.priceIncrement)
  }

  lemma MultipleAligned(m: int, step: real)
    requires step > 0.0
    ensures Aligned(m as real * step, step)
  {
    assert (m as real * step) / step == m as real;
  }

  lemma ScaleUp(a: real, b: real, c: real)
    requires c > 0.0
    ensures a >= b <==> a * c >= b * c
  {
    if a >= b { assert (a - b) * c >= 0.0; } else { assert (b - a) * c > 0.0; }
  }

  /** Exactly the multiples from `StepsFor` on are worth the volume. */
  lemma StepsForReaches(volume: real, price: real, step: real, m: int)
    requires price > 0.0 && step > 0.0
    ensures m as real * step * price >= volume <==> m >= StepsFor(volume, price, step)
  {
    var target := volume / price;
    assert target * price == volume;
    ScaleUp(m as real * step, target, price);
    MultipleReaches(target, step, m);
  }

  lemma MultipleReaches(target: real, step: real, m: int)
    requires step > 0.0
    ensures m as real * step >= target <==> m >= Ceiling(target / step)
  {
    var x := target / step;
    assert x * step == target;
    ScaleUp(m as real, x, step);
    assert m as real >= x <==> m >= Ceiling(x);
  }

  lemma CandidateIsLegal(n: Numbers, price: real)
    requires NumbersValid(n) && price > 0.0
    ensures LegalQuantity(n, price, LeastCandidate(n, price))
  {
    hide Aligned, StepsFor;
    var step := n.quantityIncrement;
    var k := StepsFor(n.minVolumeUsd, price, step);
    var byVolume := k as real * step;
    MultipleAligned(k, step);
    StepsForReaches(n.minVolumeUsd, price, step, k);
    assert Aligned(byVolume, step) && byVolume * price >= n.minVolumeUsd;
    if n.minQuantity > byVolume {
      ScaleUp(n.minQuantity, byVolume, price);
      assert LeastCandidate(n, price) == n.minQuantity;
    } else {
      assert LeastCandidate(n, price) == byVolume;
    }
  }

  lemma AlignedSteps(x: real, step: real)
    requires step > 0.0 && Aligned(x, step)
    ensures x == (x / step).Floor as real * step
  {
  }

  lemma FewerSteps(k: int, m: int, step: real)
    requires k <= m && step > 0.0
    ensures k as real * step <= m as real * step
  {
    assert (m - k) as real * step >= 0.0;
  }

  lemma SameWorth(a: real, b: real, price: real)
    requires a == b
    ensures a * price == b * price
  {
  }

  lemma CandidateIsLeast(n: Numbers, price: real, quantity: real)
    requires NumbersValid(n) && price > 0.0 && LegalQuantity(n, price, quantity)
    ensures LeastCandidate(n, price) <= quantity
  {
    var step := n.quantityIncrement;
    AlignedSteps(quantity, step);
    EnoughSteps((quantity / step).Floor, quantity, n.minVolumeUsd, price, step);
    hide Aligned, StepsFor;
    assert StepsFor(n.minVolumeUsd, price, step) as real * step <= quantity;
  }

  /** An aligned quantity worth the volume is no fewer steps than the volume needs. */
  lemma EnoughSteps(m: int, quantity: real, volume: real, price: real, step: real)
    requires price > 0.0 && step > 0.0 && m as real * step == quantity && quantity * price >= volume
    ensures StepsFor(volume, price, step) as real * step <= quantity
  {
    hide StepsFor;
    SameWorth(m as real * step, quantity, price);
    StepsForReaches(volume, price, step, m);
    FewerSteps(StepsFor(volume, price, step), m, step);
  }

  /** The effective minimum is the smallest legal quantity. */
  lemma EffectiveMinIsLeast(n: Numbers, price: real)
    requires NumbersValid(n) && EffectiveMinQuantity(n, price).Ok?
    ensures var least := EffectiveMinQuantity(n, price).value;
            && LegalQuantity(n, price, least) && 0.0 < least <= n.maxQuantity
            && forall q :: LegalQuantity(n, price, q) ==> least <= q
  {
    hide Aligned, StepsFor;
    forall q | LegalQuantity(n, price, q) ensures LeastCandidate(n, price) <= q {
      CandidateIsLeast(n, price, q);
    }
    CandidateIsLegal(n, price);
  }

  /** It is refused exactly at a rejected price, or when no legal quantity fits under the maximum. */
  lemma EffectiveMinExistsIff(n: Numbers, price: real)
    requires NumbersValid(n)
    ensures EffectiveMinQuantity(n, price).Ok? <==>
      PriceAccepted(n, price) && exists q :: LegalQuantity(n, price, q) && q <= n.maxQuantity
  {
    hide Aligned, StepsFor;
    if PriceAccepted(n, price) {
      CandidateIsLegal(n, price);
      forall q | LegalQuantity(n, price, q) ensures LeastCandidate(n, price) <= q {
        CandidateIsLeast(n, price, q);
      }
    }
  }

  /** The quantity a canary must trade: the bound one, if it is still the least legal one. */
  function BoundQuantity(intent: Intent, accountId: string, worstEntry: Pos): (q: Result<real>)
    ensures q.Ok? ==> q.value > 0.0
  {
    match BoundInstrument(intent.metadata, intent.evidence, accountId)
    case Raised => Raised
    case Ok((rule, bound)) =>
      var expected := EffectiveMinQuantity(NumbersOf(rule.decimals), worstEntry);
      if expected.Ok? && Value(bound) == expected.value then
        EffectiveMinIsLeast(NumbersOf(rule.decimals), worstEntry);
        Ok(Value(bound))
      else Raised
  }

  /** A canary quantity comes from a valid printed rule and is the least legal one at the worst entry. */
  lemma BoundQuantityIsLeast(intent: Intent, accountId: string, worstEntry: Pos)
    requires BoundQuantity(intent, accountId, worstEntry).Ok?
    ensures exists rule, quantity ::
      && RuleValid(rule)
      && intent.metadata == MetadataOf(rule, quantity, accountId)
      && Value(quantity) == BoundQuantity(intent, accountId, worstEntry).value
      && LegalQuantity(NumbersOf(rule.decimals), worstEntry, Value(quantity))
      && (forall q :: LegalQuantity(NumbersOf(rule.decimals), worstEntry, q) ==> Value(quantity) <= q)
  {
    AcceptedReprints(intent.metadata, intent.evidence, accountId);
    var (rule, quantity) := BoundInstrument(intent.metadata, intent.evidence, accountId).value;
    EffectiveMinIsLeast(NumbersOf(rule.decimals), worstEntry);
  }
}
