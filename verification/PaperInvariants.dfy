/** What every step of the PAPER coordinator keeps. */
module PaperInvariants {
  import opened Common
  import opened Contracts
  import opened PaperPipeline
  import opened PaperPolicy
  import opened PaperState

  // ----- the dictionaries stay dictionaries -----

  ghost predicate WellFormed(s: State) {
    s.decisions.Valid() && s.reservations.Valid() && s.regime.Valid()
  }

  lemma ReconcileWellFormed(s: State, a: Account)
    requires WellFormed(s)
    ensures WellFormed(Reconcile(s, a).state)
  {
    DropValid(s.reservations, ReleasedTrades(s.reservations, a));
  }

  lemma {:induction false} RememberAllWellFormed(cfg: Settings, s: State, ds: seq<Decision>)
    requires WellFormed(s)
    ensures WellFormed(RememberAll(cfg, s, ds).state)
  {
    if ds != [] {
      var before := RememberAll(cfg, s, ds[..|ds| - 1]).state;
      var d := ds[|ds| - 1];
      RememberAllWellFormed(cfg, s, ds[..|ds| - 1]);
      hide OrderedMap.Valid, OrderedMap.Put, Recoverable, ClashesWith, RememberAll;
      PutValid(before.reservations, d.Trade(), Reservation(d, 0));
      PutValid(before.decisions, d.review, d);
      RememberAllStep(cfg, s, ds);
    }
  }

  /** One more recovered decision either stops the recovery or is remembered. */
  lemma RememberAllStep(cfg: Settings, s: State, ds: seq<Decision>)
    requires ds != []
    ensures var before, d := RememberAll(cfg, s, ds[..|ds| - 1]), ds[|ds| - 1];
            RememberAll(cfg, s, ds) ==
              if !before.outcome.Applied? then before
              else if !Recoverable(cfg, d) || ClashesWith(before.state, d) then Step(before.state, Refused)
              else Step(Remember(before.state, d), Applied)
  {
  }

  lemma TrimWellFormed(cfg: Settings, s: State)
    requires WellFormed(s)
    ensures WellFormed(TrimCache(cfg, s))
  {
    EvictSpares(s.decisions, ReservedReviews(s.reservations), cfg.decisionCacheSize);
  }

  lemma RecordWellFormed(cfg: Settings, s: State, d: Decision)
    requires WellFormed(s)
    ensures WellFormed(Record(cfg, s, d))
  {
    PutValid(s.decisions, d.review, d);
    MoveToEndValid(s.decisions.Put(d.review, d), d.review);
    var seqNow := if s.latestSeq.Some? then s.latestSeq.value else 0;
    PutValid(s.reservations, d.Trade(), Reservation(d, seqNow));
    hide OrderedMap.Valid, OrderedMap.Put, OrderedMap.MoveToEnd, Evict;
    var cached := s.(decisions := s.decisions.Put(d.review, d).MoveToEnd(d.review));
    TrimWellFormed(cfg, cached);
    TrimWellFormed(cfg, cached.(reservations := s.reservations.Put(d.Trade(), Reservation(d, seqNow))));
  }

  lemma NextWellFormed(cfg: Settings, s: State, e: Event)
    requires WellFormed(s)
    ensures WellFormed(Next(cfg, s, e).state)
  {
    hide OrderedMap.Valid, OrderedMap.Put, OrderedMap.MoveToEnd, Evict, Decide, ViewOf, ReservationsValid, Reconcile, Record,
         TrimCache, RememberAll, AccountStanding, RetainedIntents, Dedup, Adaptive, VenueFor, AdmissionFor;
    match e {
      case AccountEvent(a) =>
        var adopted := s.(latestSeq := Some(a.reconciliationSeq), latestCapturedAtMs := Some(a.capturedAtMs),
                          account := Some(a), accountReady := AccountStanding(cfg, a));
        ReconcileWellFormed(adopted, a);
      case VenueEvent(v) =>
      case RegimeEvent(b, receivedAtMs) =>
        PutValid(s.regime, b.intent, None);
        PutValid(s.regime, b.intent, Some(b));
        EvictSpares(s.regime.Put(b.intent, Some(b)), RetainedIntents(s), cfg.decisionCacheSize);
      case RestoreEvent(ds) =>
        RestoreWellFormed(cfg, s, ds);
      case EvaluateEvent(q) =>
        EvaluateWellFormed(cfg, s, q);
    }
  }

  lemma AccountWellFormed(cfg: Settings, s: State, a: Account)
    requires WellFormed(s)
    ensures WellFormed(ApplyAccount(cfg, s, a).state)
  {
    NextWellFormed(cfg, s, AccountEvent(a));
  }

  lemma RegimeWellFormed(cfg: Settings, s: State, b: RegimeBinding, receivedAtMs: int)
    requires WellFormed(s)
    ensures WellFormed(ApplyRegime(cfg, s, b, receivedAtMs).state)
  {
    NextWellFormed(cfg, s, RegimeEvent(b, receivedAtMs));
  }

  lemma RestoreWellFormed(cfg: Settings, s: State, ds: seq<Decision>)
    requires WellFormed(s)
    ensures WellFormed(Restore(cfg, s, ds).state)
  {
    hide OrderedMap.Valid, Evict, Reconcile, RememberAll, AccountStanding, ReservedReviews;
    RememberAllWellFormed(cfg, s, ds);
    var loaded := RememberAll(cfg, s, ds).state;
    TrimWellFormed(cfg, loaded);
    var s1 := TrimCache(cfg, loaded).(durableLoaded := true);
    if s1.account.Some? {
      ReconcileWellFormed(s1.(accountReady := true), s1.account.value);
    }
  }

  lemma EvaluateWellFormed(cfg: Settings, s: State, q: Request)
    requires WellFormed(s)
    ensures WellFormed(EvaluateStep(cfg, s, q).state)
  {
    hide OrderedMap.Valid, OrderedMap.Put, OrderedMap.MoveToEnd, Decide, ViewOf, ReservationsValid, Record,
         Dedup, Adaptive, VenueFor, AdmissionFor;
    if q.review in s.decisions.items {
      MoveToEndValid(s.decisions, q.review);
    }
    if VenueFor(s, q).Some? {
      var x := InputsFor(cfg, s, q, VenueFor(s, q).value);
      if Decide(cfg, x).Ok? {
        RecordWellFormed(cfg, s, Decide(cfg, x).value);
      }
    }
  }

  // ----- what an evaluation can do -----

  /** The request is decided afresh: not replayed, not turned away, not carrying admission reasons. */
  ghost predicate Fresh(cfg: Settings, s: State, q: Request, d: Decision)
    requires s.reservations.Valid()
  {
    && s.RecoveryComplete()
    && q.review !in s.decisions.items
    && AdmissionFor(cfg, s, q) == []
    && VenueFor(s, q).Some?
    && Decide(cfg, InputsFor(cfg, s, q, VenueFor(s, q).value)) == Ok(d)
  }

  /** An evaluation leaves the state alone, touches only the replay order, or records a fresh decision. */
  lemma EvaluateShape(cfg: Settings, s: State, q: Request)
    requires WellFormed(s)
    ensures var n := EvaluateStep(cfg, s, q);
      || n.state == s
      || (&& q.review in s.decisions.items && AdmissionFor(cfg, s, q) == []
          && n == Step(s.(decisions := s.decisions.MoveToEnd(q.review)), Decided(s.decisions.items[q.review])))
      || (exists d :: Fresh(cfg, s, q, d) && n == Step(Record(cfg, s, d), Decided(d)))
  {
    hide Decide, ViewOf, ReservationsValid, Record, Dedup, Adaptive, VenueFor, AdmissionFor;
    if VenueFor(s, q).Some? && Decide(cfg, InputsFor(cfg, s, q, VenueFor(s, q).value)).Ok? {
      var d := Decide(cfg, InputsFor(cfg, s, q, VenueFor(s, q).value)).value;
      assert s.RecoveryComplete() && q.review !in s.decisions.items && AdmissionFor(cfg, s, q) == [] ==> Fresh(cfg, s, q, d);
    }
  }

  lemma LedgerMembers(m: OrderedMap<TradeId, Reservation>)
    requires m.Valid()
    ensures forall t :: t in m.items ==> m.items[t].decision in LedgerOf(m)
    ensures forall d :: d in LedgerOf(m) ==> exists t :: t in m.items && m.items[t].decision == d
  {
    forall t | t in m.items ensures m.items[t].decision in LedgerOf(m) {
      var i :| 0 <= i < |m.keys| && m.keys[i] == t;
      assert LedgerOf(m)[i] == m.items[t].decision;
    }
  }

  lemma {:induction false} NoCanaryIdeas(ds: seq<Decision>, d: Decision)
    requires CanaryIdeas(ds) == 0 && d in ds && d.approved
    ensures d.review.intent.strategyId != CANARY_STRATEGY
  {
    if d != ds[|ds| - 1] {
      assert ds == ds[..|ds| - 1] + [ds[|ds| - 1]];
      NoCanaryIdeas(ds[..|ds| - 1], d);
    }
  }

  // ----- the account gate and the ledger entries -----

  ghost predicate GateInv(cfg: Settings, s: State) {
    && (s.accountReady <==> s.account.Some? && AccountStanding(cfg, s.account.value))
    && (s.account.Some? ==>
          && s.latestSeq == Some(s.account.value.reconciliationSeq)
          && s.latestCapturedAtMs == Some(s.account.value.capturedAtMs))
  }

  ghost predicate EntryInv(cfg: Settings, latestSeq: Option<int>, t: TradeId, r: Reservation) {
    && r.decision.Trade() == t
    && Recoverable(cfg, r.decision)
    && (r.reconciliationSeq == 0 || (latestSeq.Some? && 0 < r.reconciliationSeq <= latestSeq.value))
  }

  /** Entries are keyed by their own trade, belong here, and predate the newest sequence. */
  ghost predicate LedgerInv(cfg: Settings, latestSeq: Option<int>, m: map<TradeId, Reservation>) {
    forall t :: t in m ==> EntryInv(cfg, latestSeq, t, m[t])
  }

  ghost predicate CacheInv(m: map<Review, Decision>) {
    forall k :: k in m ==> m[k].review == k
  }

  /** A usable measurement is the unpoisoned newest one of its own symbol. */
  ghost predicate VenueInv(venue: map<string, Venue>, versions: map<string, VenueVersion>) {
    && (forall k :: k in venue ==>
          && k in versions
          && versions[k] == VenueVersion(venue[k].observedAtMs, Some(venue[k]))
          && venue[k].symbol == k && venue[k].profile == Dev)
    && (forall k :: k in versions && versions[k].measurement.Some? ==>
          k in venue && venue[k] == versions[k].measurement.value)
  }

  ghost predicate Base(cfg: Settings, s: State) {
    && WellFormed(s)
    && GateInv(cfg, s)
    && LedgerInv(cfg, s.latestSeq, s.reservations.items)
    && CacheInv(s.decisions.items)
    && VenueInv(s.venue, s.venueVersions)
  }

  lemma FreshlyApproved(cfg: Settings, s: State, q: Request, d: Decision)
    requires WellFormed(s) && Fresh(cfg, s, q, d) && d.approved
    ensures Approves(cfg, InputsFor(cfg, s, q, VenueFor(s, q).value), d)
    ensures d.review == q.review && Recoverable(cfg, d) && DevSymbol(q.review.intent.symbol) == Some(d.venueSymbol)
    ensures s.account.Some?
    ensures forall t :: t in s.reservations.items && s.reservations.items[t].decision.approved ==>
      s.reservations.items[t].decision.venueSymbol != d.venueSymbol
    ensures d.review.intent.strategyId == CANARY_STRATEGY ==>
      forall t :: t in s.reservations.items && s.reservations.items[t].decision.approved ==>
        s.reservations.items[t].decision.review.intent.strategyId != CANARY_STRATEGY
  {
    var x := InputsFor(cfg, s, q, VenueFor(s, q).value);
    var ledger := LedgerOf(s.reservations);
    LedgerMembers(s.reservations);
    assert x.reservations == ViewOf(ledger);
    assert x.reservations.symbols == SymbolsOf(ledger) && x.reservations.activeCanaryIdeas == CanaryIdeas(ledger);
    hide Decide, ViewOf, TermsOf, CapacityOf, CapitalGate, ChosenQuantity, EconomicsOf, LossBudget, CanaryIdeas, ReviewAdmissible,
         CapitalAdmissible, GeometryAdmissible, RiskExhausted, Drawdown, PositionRisk, MetricsOf, DevSymbol;
    ApprovalRecords(cfg, x, d);
    if d.review.intent.strategyId == CANARY_STRATEGY {
      forall t | t in s.reservations.items && s.reservations.items[t].decision.approved
        ensures s.reservations.items[t].decision.review.intent.strategyId != CANARY_STRATEGY
      {
        NoCanaryIdeas(ledger, s.reservations.items[t].decision);
      }
    }
  }

  lemma ReconcileBase(cfg: Settings, s: State, a: Account)
    requires Base(cfg, s) && s.account == Some(a)
    ensures Base(cfg, Reconcile(s, a).state)
  {
    hide OrderedMap.Valid, EntryInv, CacheInv, VenueInv, AccountStanding, AnyConflict, ReleasedTrades;
    ReconcileWellFormed(s, a);
  }

  /** A newer sequence leaves every entry behind it. */
  lemma LaterSequence(cfg: Settings, before: Option<int>, now: int, m: map<TradeId, Reservation>)
    requires LedgerInv(cfg, before, m) && (before.Some? ==> before.value < now)
    ensures LedgerInv(cfg, Some(now), m)
  {
    hide Recoverable;
  }

  lemma AccountBase(cfg: Settings, s: State, a: Account)
    requires Base(cfg, s)
    ensures Base(cfg, ApplyAccount(cfg, s, a).state)
  {
    hide OrderedMap.Valid, LedgerInv, CacheInv, VenueInv, AccountStanding, Reconcile;
    var adopted := s.(latestSeq := Some(a.reconciliationSeq), latestCapturedAtMs := Some(a.capturedAtMs),
                      account := Some(a), accountReady := AccountStanding(cfg, a));
    if s.latestSeq.None? || s.latestSeq.value < a.reconciliationSeq {
      LaterSequence(cfg, s.latestSeq, a.reconciliationSeq, s.reservations.items);
      ReconcileBase(cfg, adopted, a);
    }
  }

  lemma VenueAdopted(venue: map<string, Venue>, versions: map<string, VenueVersion>, v: Venue)
    requires VenueInv(venue, versions) && v.profile == Dev
    ensures VenueInv(venue[v.symbol := v], versions[v.symbol := VenueVersion(v.observedAtMs, Some(v))])
  {
  }

  lemma VenuePoisoned(venue: map<string, Venue>, versions: map<string, VenueVersion>, v: Venue)
    requires VenueInv(venue, versions)
    ensures VenueInv(venue - {v.symbol}, versions[v.symbol := VenueVersion(v.observedAtMs, None)])
  {
  }

  lemma VenueBase(cfg: Settings, s: State, v: Venue)
    requires Base(cfg, s)
    ensures Base(cfg, ApplyVenue(s, v).state)
  {
    hide OrderedMap.Valid, LedgerInv, CacheInv, AccountStanding, VenueInv;
    VenuePoisoned(s.venue, s.venueVersions, v);
    if v.profile.Dev? { VenueAdopted(s.venue, s.venueVersions, v); }
  }

  lemma RegimeBase(cfg: Settings, s: State, b: RegimeBinding, receivedAtMs: int)
    requires Base(cfg, s)
    ensures Base(cfg, ApplyRegime(cfg, s, b, receivedAtMs).state)
  {
    hide OrderedMap.Valid, OrderedMap.Put, LedgerInv, CacheInv, VenueInv, AccountStanding, Evict, RetainedIntents;
    NextWellFormed(cfg, s, RegimeEvent(b, receivedAtMs));
  }

  lemma TrimBase(cfg: Settings, s: State)
    requires Base(cfg, s)
    ensures Base(cfg, TrimCache(cfg, s))
  {
    hide OrderedMap.Valid, LedgerInv, VenueInv, AccountStanding, Evict, ReservedReviews;
    TrimWellFormed(cfg, s);
    EvictSpares(s.decisions, ReservedReviews(s.reservations), cfg.decisionCacheSize);
  }

  lemma RememberBase(cfg: Settings, s: State, d: Decision)
    requires Base(cfg, s) && Recoverable(cfg, d)
    ensures Base(cfg, Remember(s, d))
  {
    PutValid(s.reservations, d.Trade(), Reservation(d, 0));
    PutValid(s.decisions, d.review, d);
    hide OrderedMap.Valid, VenueInv, AccountStanding, Recoverable;
  }

  lemma {:induction false} RememberAllBase(cfg: Settings, s: State, ds: seq<Decision>)
    requires Base(cfg, s)
    ensures Base(cfg, RememberAll(cfg, s, ds).state)
    ensures var n := RememberAll(cfg, s, ds).state;
      n == s.(reservations := n.reservations, decisions := n.decisions)
  {
    if ds != [] {
      hide Base, Recoverable, ClashesWith, RememberAll;
      var before, d := RememberAll(cfg, s, ds[..|ds| - 1]), ds[|ds| - 1];
      RememberAllBase(cfg, s, ds[..|ds| - 1]);
      RememberAllStep(cfg, s, ds);
      if Recoverable(cfg, d) { RememberBase(cfg, before.state, d); }
    } else {
      assert RememberAll(cfg, s, ds).state == s;
    }
  }

  lemma RestoreBase(cfg: Settings, s: State, ds: seq<Decision>)
    requires Base(cfg, s)
    ensures Base(cfg, Restore(cfg, s, ds).state)
  {
    hide OrderedMap.Valid, AccountStanding, RememberAll, VenueInv, Reconcile, TrimCache, LedgerInv, CacheInv;
    RememberAllBase(cfg, s, ds);
    var loaded := RememberAll(cfg, s, ds).state;
    TrimBase(cfg, loaded);
    TrimOnlyCache(cfg, loaded);
    var s1 := TrimCache(cfg, loaded).(durableLoaded := true);
    if s1.account.Some? && AccountStanding(cfg, s1.account.value) {
      ReconcileBase(cfg, s1.(accountReady := true), s1.account.value);
    }
  }

  lemma TrimOnlyCache(cfg: Settings, s: State)
    ensures TrimCache(cfg, s) == s.(decisions := TrimCache(cfg, s).decisions)
  {
  }

  /** Recording keeps everything but the cache and the one new reservation. */
  lemma RecordEffect(cfg: Settings, s: State, d: Decision)
    requires WellFormed(s)
    ensures var n := Record(cfg, s, d);
      && n == s.(reservations := n.reservations, decisions := n.decisions)
      && n.reservations == (if d.approved
           then s.reservations.Put(d.Trade(), Reservation(d, if s.latestSeq.Some? then s.latestSeq.value else 0))
           else s.reservations)
      && (forall k :: k in n.decisions.items ==>
            (k == d.review && n.decisions.items[k] == d) ||
            (k in s.decisions.items && n.decisions.items[k] == s.decisions.items[k]))
      && (forall k :: k in ReservedReviews(n.reservations) && k in s.decisions.items && k != d.review ==>
            k in n.decisions.items && n.decisions.items[k] == s.decisions.items[k])
      && (d.approved ==> d.review in n.decisions.items && n.decisions.items[d.review] == d)
      && (|n.decisions.keys| <= cfg.decisionCacheSize || forall k :: k in n.decisions.items ==> k in ReservedReviews(n.reservations))
  {
    PutValid(s.decisions, d.review, d);
    MoveToEndValid(s.decisions.Put(d.review, d), d.review);
    var cached := s.decisions.Put(d.review, d).MoveToEnd(d.review);
    var n := Record(cfg, s, d);
    assert n.reservations == (if d.approved
           then s.reservations.Put(d.Trade(), Reservation(d, if s.latestSeq.Some? then s.latestSeq.value else 0))
           else s.reservations);
    EvictSpares(cached, ReservedReviews(n.reservations), cfg.decisionCacheSize);
    assert n.decisions == Evict(cached, ReservedReviews(n.reservations), cfg.decisionCacheSize);
    assert cached.items == s.decisions.items[d.review := d];
    if d.approved {
      assert n.reservations.items[d.Trade()].decision == d;
    }
  }

  lemma RecordBase(cfg: Settings, s: State, q: Request, d: Decision)
    requires Base(cfg, s) && Fresh(cfg, s, q, d)
    ensures Base(cfg, Record(cfg, s, d))
  {
    hide OrderedMap.Valid, Record, Fresh, AccountStanding, Recoverable, ReservedReviews, VenueInv;
    RecordWellFormed(cfg, s, d);
    RecordEffect(cfg, s, d);
    if d.approved { FreshlyApproved(cfg, s, q, d); }
    ReadySequence(cfg, s, q, d);
  }

  lemma ReadySequence(cfg: Settings, s: State, q: Request, d: Decision)
    requires Base(cfg, s) && Fresh(cfg, s, q, d)
    ensures d.review == q.review
    ensures s.latestSeq.Some? && s.latestSeq.value > 0
  {
    DecidesReview(cfg, InputsFor(cfg, s, q, VenueFor(s, q).value));
    hide OrderedMap.Valid, Decide;
  }

  lemma DecidesReview(cfg: Settings, x: Inputs)
    requires Decide(cfg, x).Ok?
    ensures Decide(cfg, x).value.review == x.review
  {
    hide TermsOf, SizingOf, CapitalGate, EconomicsOf;
  }

  lemma EvaluateBase(cfg: Settings, s: State, q: Request)
    requires Base(cfg, s)
    ensures Base(cfg, EvaluateStep(cfg, s, q).state)
  {
    hide OrderedMap.Valid, OrderedMap.MoveToEnd, Fresh, Record, AccountStanding, Recoverable, AdmissionFor, EvaluateStep;
    EvaluateShape(cfg, s, q);
    EvaluateWellFormed(cfg, s, q);
    forall d | Fresh(cfg, s, q, d) ensures Base(cfg, Record(cfg, s, d)) {
      RecordBase(cfg, s, q, d);
    }
    var n := EvaluateStep(cfg, s, q);
    if q.review in s.decisions.items && n.state == s.(decisions := s.decisions.MoveToEnd(q.review)) {
      MovedItems(s.decisions, q.review);
    }
  }

  lemma MovedItems<K, V>(m: OrderedMap<K, V>, k: K)
    ensures m.MoveToEnd(k).items == m.items
  {
  }

  /** Every step keeps the base invariant: readiness, lineage of entries, cache keys, usable venues. */
  lemma NextBase(cfg: Settings, s: State, e: Event)
    requires Base(cfg, s)
    ensures Base(cfg, Next(cfg, s, e).state)
  {
    hide Base, ApplyAccount, ApplyVenue, ApplyRegime, Restore, EvaluateStep;
    match e {
      case AccountEvent(a) => AccountBase(cfg, s, a);
      case VenueEvent(v) => VenueBase(cfg, s, v);
      case RegimeEvent(b, receivedAtMs) => RegimeBase(cfg, s, b, receivedAtMs);
      case RestoreEvent(ds) => RestoreBase(cfg, s, ds);
      case EvaluateEvent(q) => EvaluateBase(cfg, s, q);
    }
  }

  // ----- what each step leaves alone -----

  lemma ReconcileKeeps(s: State, a: Account)
    ensures var n := Reconcile(s, a).state;
      && n == s.(account := n.account, accountReady := n.accountReady, reservations := n.reservations)
      && (n.account == None || n == s.(reservations := n.reservations))
      && forall t :: t in n.reservations.items ==>
           t in s.reservations.items && n.reservations.items[t] == s.reservations.items[t]
  {
    hide AnyConflict, ReleasedTrades;
  }

  lemma AccountKeeps(cfg: Settings, s: State, a: Account)
    ensures var n := ApplyAccount(cfg, s, a).state;
      && n == s.(account := n.account, accountReady := n.accountReady, reservations := n.reservations,
                 latestSeq := n.latestSeq, latestCapturedAtMs := n.latestCapturedAtMs)
      && forall t :: t in n.reservations.items ==>
           t in s.reservations.items && n.reservations.items[t] == s.reservations.items[t]
  {
    var adopted := s.(latestSeq := Some(a.reconciliationSeq), latestCapturedAtMs := Some(a.capturedAtMs),
                      account := Some(a), accountReady := AccountStanding(cfg, a));
    hide Reconcile, AccountStanding;
    ReconcileKeeps(adopted, a);
  }

  lemma VenueKeeps(s: State, v: Venue)
    ensures ApplyVenue(s, v).state == s.(venue := ApplyVenue(s, v).state.venue, venueVersions := ApplyVenue(s, v).state.venueVersions)
  {
  }

  lemma RegimeKeeps(cfg: Settings, s: State, b: RegimeBinding, receivedAtMs: int)
    ensures ApplyRegime(cfg, s, b, receivedAtMs).state == s.(regime := ApplyRegime(cfg, s, b, receivedAtMs).state.regime)
  {
    hide Evict, RetainedIntents, OrderedMap.Put;
  }

  /** Remembering recovered decisions touches ledger and cache only. */
  lemma {:induction false} RememberAllKeeps(cfg: Settings, s: State, ds: seq<Decision>)
    ensures var n := RememberAll(cfg, s, ds).state; n == s.(reservations := n.reservations, decisions := n.decisions)
  {
    if ds != [] {
      RememberAllKeeps(cfg, s, ds[..|ds| - 1]);
      hide RememberAll, Recoverable, ClashesWith, OrderedMap.Put;
      RememberAllStep(cfg, s, ds);
    } else {
      assert RememberAll(cfg, s, ds).state == s;
    }
  }

  /** Recovery touches the account gate, ledger and cache only, and never adopts another account. */
  lemma RestoreFrame(cfg: Settings, s: State, ds: seq<Decision>)
    ensures var n := Restore(cfg, s, ds).state;
      && n == s.(account := n.account, accountReady := n.accountReady, reservations := n.reservations,
                 decisions := n.decisions, durableLoaded := n.durableLoaded)
      && (n.account == None || n.account == s.account)
  {
    hide RememberAll, Reconcile, AccountStanding, TrimCache;
    RememberAllKeeps(cfg, s, ds);
    var loaded := RememberAll(cfg, s, ds).state;
    TrimOnlyCache(cfg, loaded);
    var s1 := TrimCache(cfg, loaded).(durableLoaded := true);
    if s1.account.Some? { ReconcileKeeps(s1.(accountReady := true), s1.account.value); }
  }

  /** A recovery that runs through trims the cache and may let the current account release reservations. */
  lemma RestoreKeeps(cfg: Settings, s: State, ds: seq<Decision>)
    ensures var n, loaded := Restore(cfg, s, ds).state, RememberAll(cfg, s, ds);
      if s.durableLoaded then n == s
      else if !loaded.outcome.Applied? then n == loaded.state
      else
        && n.durableLoaded && n.decisions == TrimCache(cfg, loaded.state).decisions
        && forall t :: t in n.reservations.items ==>
             t in loaded.state.reservations.items && n.reservations.items[t] == loaded.state.reservations.items[t]
  {
    hide RememberAll, Reconcile, AccountStanding, TrimCache;
    var loaded := RememberAll(cfg, s, ds).state;
    TrimOnlyCache(cfg, loaded);
    var s1 := TrimCache(cfg, loaded).(durableLoaded := true);
    if s1.account.Some? { ReconcileKeeps(s1.(accountReady := true), s1.account.value); }
  }

  /** An evaluation may add one approval to the ledger and change the cache, nothing else. */
  lemma EvaluationKeeps(cfg: Settings, s: State, q: Request)
    requires WellFormed(s)
    ensures var n := EvaluateStep(cfg, s, q).state;
      n == s.(reservations := n.reservations, decisions := n.decisions) && (!s.RecoveryComplete() ==> n == s)
  {
    hide EvaluateStep, Fresh, Record, AdmissionFor, OrderedMap.Valid, ReservedReviews;
    EvaluateShape(cfg, s, q);
    forall d | Fresh(cfg, s, q, d)
      ensures var n := Record(cfg, s, d); n == s.(reservations := n.reservations, decisions := n.decisions)
    {
      RecordEffect(cfg, s, d);
    }
    UnavailableKeeps(cfg, s, q);
  }

  lemma UnavailableKeeps(cfg: Settings, s: State, q: Request)
    requires s.reservations.Valid()
    ensures !s.RecoveryComplete() ==> EvaluateStep(cfg, s, q) == Step(s, Unavailable)
  {
  }

  lemma MembersAreKeys(s: State)
    requires WellFormed(s)
    ensures forall k :: k in s.decisions.items ==> k in s.decisions.keys
  {
  }

  lemma ReviewsOf(m: OrderedMap<TradeId, Reservation>)
    ensures forall t :: t in m.items ==> m.items[t].decision.review in ReservedReviews(m)
  {
  }

  lemma LoadedWhenFresh(cfg: Settings, s: State, q: Request, d: Decision)
    requires s.reservations.Valid() && Fresh(cfg, s, q, d)
    ensures s.durableLoaded && d.review == q.review && q.review !in s.decisions.items
  {
    DecidesReview(cfg, InputsFor(cfg, s, q, VenueFor(s, q).value));
    hide Decide;
  }
}
