/** Model and provider breakers collapsed into one system mode, and what that mode says about the
    whole trace of health events. */
module HealthMode {
  import opened Common
  import opened Contracts
  import opened CircuitBreaker
  import opened BreakerTables

  const FLASH := "deepseek-flash"
  const LUNA := "gpt-6-luna"
  const SOL := "gpt-6.1-sol"
  const OPENAI := "openai"
  const DEEPSEEK := "deepseek"

  const CURRENT_MODELS: set<string> := {LUNA, SOL}
  const LEGACY_MODELS: set<string> :=
    {FLASH, "deepseek-v4-flash", "gpt-5.6-luna", "gpt-5.6-terra", "gpt-5.6-sol", "gpt-6-sol"}
  const KNOWN_MODELS: set<string> := CURRENT_MODELS + LEGACY_MODELS
  const OPENAI_MODELS: set<string> := {LUNA, SOL, "gpt-5.6-luna", "gpt-5.6-terra", "gpt-5.6-sol", "gpt-6-sol"}

  const MODEL_OUTAGE_KINDS: set<string> := {"5xx", "timeout", "connection", "rate_limit"}
  const PROVIDER_OUTAGE_KINDS: set<string> := {"connection", "rate_limit", "provider_outage"}

  function Strip(text: string): string {
    if text != "" && IsSpace(text[0]) then Strip(text[1..])
    else if text != "" && IsSpace(text[|text| - 1]) then Strip(text[..|text| - 1])
    else text
  }

  function Lower(text: string): string {
    seq(|text|, i requires 0 <= i < |text| => if 'A' <= text[i] <= 'Z' then text[i] - 'A' + 'a' else text[i])
  }

  function NormalizeProvider(provider: string): string { Lower(Strip(provider)) }

  predicate StartsWith(text: string, prefix: string) { prefix <= text }

  function InferProvider(model: string): Option<string> {
    if model in OPENAI_MODELS || StartsWith(model, "gpt-") then Some(OPENAI)
    else if model == FLASH || StartsWith(model, "deepseek-") then Some(DEEPSEEK)
    else None
  }

  /** A health signal, with the clock readings its handling takes. */
  datatype HealthEvent = HealthEvent(
    model: string, ok: bool, kind: string, provider: Option<string>, failureAt: real, providerAt: real, readAt: real)

  /** The provider the event names, or the one its model implies. */
  function Resolved(e: HealthEvent): Option<string> {
    if e.provider.Some? && e.provider.value != "" then e.provider else InferProvider(e.model)
  }

  /** A known model's success is attributed to another provider than its own. */
  predicate WrongProvider(e: HealthEvent) {
    && e.model in KNOWN_MODELS && Resolved(e).Some?
    && Some(NormalizeProvider(Resolved(e).value)) != InferProvider(e.model)
  }

  // ----- the registry, step by step -----

  datatype Registry = Registry(maxFailures: nat, cooldownS: real, models: map<string, Breaker>, providers: map<string, Breaker>)
  {
    function Model(k: string): Breaker { Lookup(models, k, maxFailures, cooldownS) }
    function Provider(k: string): Breaker { Lookup(providers, k, maxFailures, cooldownS) }
    function FailModel(k: string, now: real): Registry { this.(models := models[k := Fail(Model(k), now)]) }
    function PassModel(k: string): Registry { this.(models := models[k := Succeed(Model(k))]) }
    function FailProvider(p: string, now: real): Registry {
      var k := NormalizeProvider(p);
      this.(providers := providers[k := Fail(Provider(k), now)])
    }
    function PassProvider(p: string): Registry {
      var k := NormalizeProvider(p);
      this.(providers := providers[k := Succeed(Provider(k))])
    }
    predicate Down(k: string) { k in models && !models[k].state.Closed? }
  }

  function Success(r: Registry, e: HealthEvent): Registry {
    if WrongProvider(e) then r
    else
      var passed := r.PassModel(e.model);
      if Resolved(e).Some? && Resolved(e).value != "" && e.model in CURRENT_MODELS
      then passed.PassProvider(Resolved(e).value) else passed
  }

  function Outage(r: Registry, e: HealthEvent): Registry {
    var failed := if e.kind in MODEL_OUTAGE_KINDS then r.FailModel(e.model, e.failureAt) else r;
    if Resolved(e).Some? && NormalizeProvider(Resolved(e).value) == OPENAI && e.kind in PROVIDER_OUTAGE_KINDS
    then failed.FailProvider(Resolved(e).value, e.providerAt) else failed
  }

  /** Reading the mode creates the provider breaker and lets open breakers start probing. */
  function ReadRegistry(r: Registry, now: real): Registry {
    var probed := r.(providers := r.providers[OPENAI := Probe(r.Provider(OPENAI), now)]);
    if !r.Provider(OPENAI).state.Closed? then probed
    else probed.(models := map k | k in r.models :: Probe(r.models[k], now))
  }

  function ModeOf(r: Registry): SystemMode {
    if !r.Provider(OPENAI).state.Closed? then LocalQuantMode
    else if exists k :: k in r.models && k != FLASH && r.Down(k) then LocalQuantMode
    else if r.Down(FLASH) then TextLocalFilter
    else Normal
  }

  function Handle(r: Registry, e: HealthEvent): Registry {
    ReadRegistry(if e.ok then Success(r, e) else Outage(r, e), e.readAt)
  }

  function HandleAll(maxFailures: nat, cooldownS: real, es: seq<HealthEvent>): Registry {
    if es == [] then Registry(maxFailures, cooldownS, map[], map[])
    else Handle(HandleAll(maxFailures, cooldownS, es[..|es| - 1]), es[|es| - 1])
  }

  // ----- the same mode, declared over the trace -----

  predicate ModelFails(e: HealthEvent, k: string) { !e.ok && e.model == k && e.kind in MODEL_OUTAGE_KINDS }

  predicate ModelRecovers(e: HealthEvent, k: string) { e.ok && e.model == k && !WrongProvider(e) }

  /** Failures of a model since its last attributable success. */
  function ModelStreak(es: seq<HealthEvent>, k: string): nat {
    if es == [] then 0
    else
      var e, before := es[|es| - 1], ModelStreak(es[..|es| - 1], k);
      if ModelFails(e, k) then before + 1 else if ModelRecovers(e, k) then 0 else before
  }

  predicate ProviderFails(e: HealthEvent) {
    !e.ok && Resolved(e).Some? && NormalizeProvider(Resolved(e).value) == OPENAI && e.kind in PROVIDER_OUTAGE_KINDS
  }

  /** Only a current model's success, attributed to its own provider, speaks for the provider. */
  predicate ProviderRecovers(e: HealthEvent) { e.ok && e.model in CURRENT_MODELS && !WrongProvider(e) }

  function ProviderStreak(es: seq<HealthEvent>): nat {
    if es == [] then 0
    else
      var e, before := es[|es| - 1], ProviderStreak(es[..|es| - 1]);
      if ProviderFails(e) then before + 1 else if ProviderRecovers(e) then 0 else before
  }

  ghost function DeclaredMode(maxFailures: nat, es: seq<HealthEvent>): SystemMode {
    if ProviderStreak(es) > maxFailures then LocalQuantMode
    else if exists k :: k != FLASH && ModelStreak(es, k) > maxFailures then LocalQuantMode
    else if ModelStreak(es, FLASH) > maxFailures then TextLocalFilter
    else Normal
  }

  /** The breaker is what a streak of that length leaves behind. */
  predicate Tracks(b: Breaker, maxFailures: nat, streak: nat) {
    && b.maxFailures == maxFailures
    && (b.state.Closed? <==> streak <= maxFailures)
    && (b.state.Closed? ==> b.failures == streak)
    && (!b.state.Closed? ==> b.failures > maxFailures && b.openedAt.Some?)
  }

  lemma TracksSteps(b: Breaker, maxFailures: nat, streak: nat, now: real)
    requires Tracks(b, maxFailures, streak)
    ensures Tracks(Fail(b, now), maxFailures, streak + 1)
    ensures Tracks(Succeed(b), maxFailures, 0)
    ensures Tracks(Probe(b, now), maxFailures, streak)
    ensures Probe(b, now).state.Closed? <==> b.state.Closed?
  {
  }

  ghost predicate Follows(r: Registry, maxFailures: nat, es: seq<HealthEvent>) {
    && r.maxFailures == maxFailures
    && (forall k :: Tracks(r.Model(k), maxFailures, ModelStreak(es, k)))
    && Tracks(r.Provider(OPENAI), maxFailures, ProviderStreak(es))
  }

  lemma CurrentModelsAreOpenAi(model: string)
    requires model in CURRENT_MODELS
    ensures model in KNOWN_MODELS && InferProvider(model) == Some(OPENAI)
  {
  }

  lemma OpenAiIsNormal()
    ensures NormalizeProvider(OPENAI) == OPENAI
  {
    assert Strip(OPENAI) == OPENAI;
    assert |Lower(OPENAI)| == 6;
  }

  /** For a current model, a success that is not misattributed names the provider itself. */
  lemma CurrentSuccess(e: HealthEvent)
    requires e.model in CURRENT_MODELS && !WrongProvider(e)
    ensures Resolved(e).Some? && Resolved(e).value != "" && NormalizeProvider(Resolved(e).value) == OPENAI
  {
    CurrentModelsAreOpenAi(e.model);
    hide InferProvider, NormalizeProvider;
    assert Resolved(e).Some?;
    assert OPENAI != "";
  }

  lemma ReadTracks(r: Registry, maxFailures: nat, es: seq<HealthEvent>, now: real)
    requires Follows(r, maxFailures, es)
    ensures Follows(ReadRegistry(r, now), maxFailures, es)
    ensures ModeOf(ReadRegistry(r, now)) == ModeOf(r)
  {
    var n := ReadRegistry(r, now);
    TracksSteps(r.Provider(OPENAI), maxFailures, ProviderStreak(es), now);
    forall k ensures Tracks(n.Model(k), maxFailures, ModelStreak(es, k)) && (n.Down(k) <==> r.Down(k)) {
      TracksSteps(r.Model(k), maxFailures, ModelStreak(es, k), now);
    }
    hide Tracks, ModelStreak, ProviderStreak, Probe;
    assert n.models.Keys == r.models.Keys;
  }

  /** Reading the mode does not change it. */
  lemma ReadKeepsMode(r: Registry, now: real)
    ensures ModeOf(ReadRegistry(r, now)) == ModeOf(r)
  {
    var n := ReadRegistry(r, now);
    assert n.models.Keys == r.models.Keys;
    forall k ensures n.Down(k) <==> r.Down(k) {
    }
  }

  lemma SuccessTracks(r: Registry, maxFailures: nat, es: seq<HealthEvent>, e: HealthEvent)
    requires Follows(r, maxFailures, es) && e.ok
    ensures Follows(Success(r, e), maxFailures, es + [e])
  {
    assert (es + [e])[..|es|] == es;
    if e.model in CURRENT_MODELS && !WrongProvider(e) { CurrentSuccess(e); }
    hide Tracks, InferProvider, NormalizeProvider, Succeed, Resolved, WrongProvider;
    TracksSteps(r.Provider(OPENAI), maxFailures, ProviderStreak(es), e.providerAt);
    TracksSteps(r.Model(e.model), maxFailures, ModelStreak(es, e.model), e.failureAt);
    forall k ensures Tracks(Success(r, e).Model(k), maxFailures, ModelStreak(es + [e], k)) {
      assert k != e.model ==> Success(r, e).Model(k) == r.Model(k);
    }
  }

  /** One model's streak after a signal that is not a success. */
  lemma OutageStreak(es: seq<HealthEvent>, e: HealthEvent, k: string)
    requires !e.ok
    ensures ModelStreak(es + [e], k) == if ModelFails(e, k) then ModelStreak(es, k) + 1 else ModelStreak(es, k)
    ensures ProviderStreak(es + [e]) == if ProviderFails(e) then ProviderStreak(es) + 1 else ProviderStreak(es)
  {
    assert (es + [e])[..|es|] == es;
    hide ProviderFails, ModelFails;
  }

  lemma OutageTracks(r: Registry, maxFailures: nat, es: seq<HealthEvent>, e: HealthEvent)
    requires Follows(r, maxFailures, es) && !e.ok
    ensures Follows(Outage(r, e), maxFailures, es + [e])
  {
    hide Tracks, NormalizeProvider, Fail, Resolved, WrongProvider, ModelStreak, ProviderStreak;
    TracksSteps(r.Provider(OPENAI), maxFailures, ProviderStreak(es), e.providerAt);
    TracksSteps(r.Model(e.model), maxFailures, ModelStreak(es, e.model), e.failureAt);
    OutageStreak(es, e, e.model);
    forall k ensures Tracks(Outage(r, e).Model(k), maxFailures, ModelStreak(es + [e], k)) {
      OutageStreak(es, e, k);
      assert k != e.model ==> Outage(r, e).Model(k) == r.Model(k);
    }
  }

  lemma {:induction false} RegistryFollows(maxFailures: nat, cooldownS: real, es: seq<HealthEvent>)
    ensures Follows(HandleAll(maxFailures, cooldownS, es), maxFailures, es)
  {
    if es != [] {
      var front, e := es[..|es| - 1], es[|es| - 1];
      var before := HandleAll(maxFailures, cooldownS, front);
      RegistryFollows(maxFailures, cooldownS, front);
      hide Follows, ReadRegistry, Success, Outage;
      if e.ok { SuccessTracks(before, maxFailures, front, e); } else { OutageTracks(before, maxFailures, front, e); }
      assert front + [e] == es;
      ReadTracks(if e.ok then Success(before, e) else Outage(before, e), maxFailures, es, e.readAt);
    }
  }

  lemma ModeIsDeclared(r: Registry, maxFailures: nat, es: seq<HealthEvent>)
    requires Follows(r, maxFailures, es)
    ensures ModeOf(r) == DeclaredMode(maxFailures, es)
  {
    hide ModelStreak, ProviderStreak;
    forall k ensures r.Down(k) <==> ModelStreak(es, k) > maxFailures {
      assert Tracks(r.Model(k), maxFailures, ModelStreak(es, k));
    }
    if exists k :: k != FLASH && ModelStreak(es, k) > maxFailures {
      var k :| k != FLASH && ModelStreak(es, k) > maxFailures;
      assert r.Down(k) && k in r.models;
    }
  }

  /** The system mode is a function of the health trace alone; cooldowns and clocks play no part. */
  lemma SystemModeIsHistory(maxFailures: nat, cooldownS: real, es: seq<HealthEvent>)
    ensures ModeOf(HandleAll(maxFailures, cooldownS, es)) == DeclaredMode(maxFailures, es)
  {
    hide Follows, HandleAll, DeclaredMode;
    RegistryFollows(maxFailures, cooldownS, es);
    ModeIsDeclared(HandleAll(maxFailures, cooldownS, es), maxFailures, es);
  }

  // ----- the registry object -----

  class CircuitBreakerRegistry {
    const maxFailures: nat
    const cooldownS: real
    const breakers: BreakerTable
    const providerBreakers: BreakerTable

    ghost function Repr(): set<object>
      reads this, breakers, providerBreakers
    {
      {this, breakers, providerBreakers} + breakers.objects + providerBreakers.objects
    }

    ghost predicate Valid()
      reads Repr()
    {
      && breakers != providerBreakers
      && breakers.Valid() && providerBreakers.Valid()
      && breakers.objects !! providerBreakers.objects
      && breakers.maxFailures == providerBreakers.maxFailures == maxFailures
      && breakers.cooldownS == providerBreakers.cooldownS == cooldownS
    }

    ghost function View(): Registry
      reads Repr()
    {
      Registry(maxFailures, cooldownS, breakers.Contents(), providerBreakers.Contents())
    }

    constructor (maxFailures: nat, cooldownS: real)
      ensures Valid() && fresh(Repr())
      ensures View() == HandleAll(maxFailures, cooldownS, [])
    {
      this.maxFailures, this.cooldownS := maxFailures, cooldownS;
      breakers := new BreakerTable(maxFailures, cooldownS);
      providerBreakers := new BreakerTable(maxFailures, cooldownS);
    }

    method RecordFailure(k: string, now: real)
      requires Valid()
      modifies Repr()
      ensures Valid() && fresh(Repr() - old(Repr())) && View() == old(View()).FailModel(k, now)
    {
      hide Fail, BreakerTable.Valid;
      breakers.RecordFailure(k, now);
    }

    method RecordSuccess(k: string)
      requires Valid()
      modifies Repr()
      ensures Valid() && fresh(Repr() - old(Repr())) && View() == old(View()).PassModel(k)
    {
      hide Succeed, BreakerTable.Valid;
      breakers.RecordSuccess(k);
    }

    method RecordProviderFailure(provider: string, now: real)
      requires Valid()
      modifies Repr()
      ensures Valid() && fresh(Repr() - old(Repr())) && View() == old(View()).FailProvider(provider, now)
    {
      hide Fail, BreakerTable.Valid, NormalizeProvider;
      providerBreakers.RecordFailure(NormalizeProvider(provider), now);
    }

    method RecordProviderSuccess(provider: string)
      requires Valid()
      modifies Repr()
      ensures Valid() && fresh(Repr() - old(Repr())) && View() == old(View()).PassProvider(provider)
    {
      hide Succeed, BreakerTable.Valid, NormalizeProvider;
      providerBreakers.RecordSuccess(NormalizeProvider(provider));
    }

    /** Reads every breaker and collapses them; the provider outage is looked at first. */
    method SystemModeAt(now: real) returns (mode: SystemMode)
      requires Valid()
      modifies Repr()
      ensures Valid() && fresh(Repr() - old(Repr()))
      ensures View() == ReadRegistry(old(View()), now) && mode == ModeOf(old(View()))
    {
      hide Probe, BreakerTable.Valid, BreakerTable.Contents, NormalizeProvider;
      OpenAiIsNormal();
      ghost var before := View();
      var allowed := providerBreakers.Allowed(NormalizeProvider(OPENAI), now);
      if !allowed {
        return LocalQuantMode;
      }
      var down := breakers.DownKeys(now);
      assert forall k :: k in down ==> before.Down(k) && k in before.models;
      assert forall k :: k in before.models && before.Down(k) ==> k in down;
      if exists k :: k in down && k != FLASH {
        return LocalQuantMode;
      }
      if FLASH in down {
        return TextLocalFilter;
      }
      return Normal;
    }
  }
}
