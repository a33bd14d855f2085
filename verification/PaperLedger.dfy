/** One idea per symbol, one canary, and a cache within its bound, given approvals that may stand side by side. */
module PaperLedger {
  import opened Common
  import opened Contracts
  import opened PaperState
  import opened PaperInvariants
  import opened PaperReplay

  /** Two decisions that may be reserved side by side. */
  predicate SideBySide(a: Decision, b: Decision) {
    && a.venueSymbol != b.venueSymbol
    && a.review != b.review
    && !(a.review.intent.strategyId == CANARY_STRATEGY && b.review.intent.strategyId == CANARY_STRATEGY)
  }

  /** Durable approvals of which any two may be reserved side by side. */
  ghost predicate Compatible(durable: set<Decision>) {
    forall a, b :: a in durable && b in durable && a != b ==> SideBySide(a, b)
  }

  ghost predicate Apart(m: map<TradeId, Reservation>) {
    forall t, u :: t in m && u in m && t != u ==> SideBySide(m[t].decision, m[u].decision)
  }

  function CacheBound(cfg: Settings): nat { if cfg.decisionCacheSize < 5 then 5 else cfg.decisionCacheSize }

  ghost predicate Guarded(cfg: Settings, durable: set<Decision>, s: State) {
    && Retained(cfg, durable, s)
    && Apart(s.reservations.items)
    && |s.decisions.keys| <= CacheBound(cfg)
  }

  lemma CompatibleAgree(durable: set<Decision>)
    requires Compatible(durable)
    ensures OneSymbolPerReview(durable)
  {
    forall a, b | a in durable && b in durable && a.review == b.review ensures a.venueSymbol == b.venueSymbol {
      assert a != b ==> SideBySide(a, b);
    }
  }

  // ----- the five-symbol universe -----

  /** Decisions on pairwise different symbols of the five-symbol universe are at most five. */
  lemma FitsUniverse(keys: seq<Review>, cache: map<Review, Decision>)
    requires Distinct(keys) && forall k :: k in keys ==> k in cache && cache[k].venueSymbol in DEV_UNIVERSE
    requires forall k, j :: k in keys && j in keys && k != j ==> cache[k].venueSymbol != cache[j].venueSymbol
    ensures |keys| <= 5
  {
    var symbols := seq(|keys|, i requires 0 <= i < |keys| => cache[keys[i]].venueSymbol);
    forall i, j | 0 <= i < j < |symbols| ensures symbols[i] != symbols[j] {
      assert keys[i] in keys && keys[j] in keys;
    }
    Pigeonhole(symbols, DEV_UNIVERSE);
    assert |DEV_UNIVERSE| <= 5 by {
      assert DEV_UNIVERSE == {"BTCUSD:DEV"} + {"ETHUSD:DEV"} + {"SOLUSD:DEV"} + {"BNBUSD:DEV"} + {"XRPUSD:DEV"};
    }
  }

  /** A cache in which only reserved reviews are left is no larger than the universe. */
  lemma ReservedCacheFits(cfg: Settings, s: State)
    requires Base(cfg, s) && Apart(s.reservations.items) && Replayable(s.reservations.items, s.decisions.items)
    requires forall k :: k in s.decisions.items ==> k in ReservedReviews(s.reservations)
    ensures |s.decisions.keys| <= 5
  {
    forall k | k in s.decisions.keys
      ensures k in s.decisions.items && s.decisions.items[k].venueSymbol in DEV_UNIVERSE
    {
      var t :| t in s.reservations.items && s.reservations.items[t].decision.review == k;
      assert EntryInv(cfg, s.latestSeq, t, s.reservations.items[t]);
    }
    forall k, j | k in s.decisions.keys && j in s.decisions.keys && k != j
      ensures s.decisions.items[k].venueSymbol != s.decisions.items[j].venueSymbol
    {
      var t :| t in s.reservations.items && s.reservations.items[t].decision.review == k;
      var u :| u in s.reservations.items && s.reservations.items[u].decision.review == j;
      assert t != u && SideBySide(s.reservations.items[t].decision, s.reservations.items[u].decision);
    }
    FitsUniverse(s.decisions.keys, s.decisions.items);
  }

  lemma DurableOnUniverse(cfg: Settings, durable: set<Decision>, s: State)
    requires Compatible(durable) && OnlyDurable(cfg, durable, s) && s.decisions.Valid() && CacheInv(s.decisions.items)
    ensures |s.decisions.keys| <= 5
  {
    forall k, j | k in s.decisions.keys && j in s.decisions.keys && k != j
      ensures s.decisions.items[k].venueSymbol != s.decisions.items[j].venueSymbol
    {
      assert SideBySide(s.decisions.items[k], s.decisions.items[j]);
    }
    FitsUniverse(s.decisions.keys, s.decisions.items);
  }

  lemma TrimWithinBound(cfg: Settings, s: State)
    requires Base(cfg, s) && Apart(s.reservations.items) && Replayable(s.reservations.items, s.decisions.items)
    ensures |TrimCache(cfg, s).decisions.keys| <= CacheBound(cfg)
  {
    TrimBase(cfg, s);
    TrimReplayable(cfg, s);
    EvictSpares(s.decisions, ReservedReviews(s.reservations), cfg.decisionCacheSize);
    hide Evict, OrderedMap.Valid, SideBySide;
    var n := TrimCache(cfg, s);
    if |n.decisions.keys| > cfg.decisionCacheSize {
      MembersAreKeys(n);
      ReservedCacheFits(cfg, n);
    }
  }

  // ----- recovery -----

  lemma FewerApart(m: map<TradeId, Reservation>, fewer: map<TradeId, Reservation>)
    requires Apart(m) && forall t :: t in fewer ==> t in m && fewer[t] == m[t]
    ensures Apart(fewer)
  {
    hide SideBySide;
  }

  lemma ApartWith(m: map<TradeId, Reservation>, t: TradeId, r: Reservation)
    requires Apart(m)
    requires forall u :: u in m && u != t ==> SideBySide(m[u].decision, r.decision) && SideBySide(r.decision, m[u].decision)
    ensures Apart(m[t := r])
  {
    hide SideBySide;
  }

  /** A reservation under another trade is another decision, so the two may stand side by side. */
  lemma OtherDecision(cfg: Settings, durable: set<Decision>, s: State, d: Decision, t: TradeId)
    requires LedgerInv(cfg, s.latestSeq, s.reservations.items) && OnlyDurable(cfg, durable, s) && Compatible(durable)
    requires d in durable && t in s.reservations.items && t != d.Trade()
    ensures SideBySide(s.reservations.items[t].decision, d) && SideBySide(d, s.reservations.items[t].decision)
  {
    hide SideBySide, Recoverable;
    assert EntryInv(cfg, s.latestSeq, t, s.reservations.items[t]);
  }

  lemma RememberApart(cfg: Settings, durable: set<Decision>, s: State, d: Decision)
    requires Compatible(durable) && Recovering(cfg, durable, s) && Apart(s.reservations.items) && d in durable
    ensures Apart(Remember(s, d).reservations.items)
  {
    Remembered(s, d);
    hide Remember, SideBySide, Apart, Compatible, OnlyDurable, LedgerInv, CacheInv, VenueInv, GateInv, Replayable, OrderedMap.Valid;
    forall t | t in s.reservations.items && t != d.Trade()
      ensures SideBySide(s.reservations.items[t].decision, d) && SideBySide(d, s.reservations.items[t].decision)
    {
      OtherDecision(cfg, durable, s, d, t);
    }
    ApartWith(s.reservations.items, d.Trade(), Reservation(d, 0));
  }

  lemma {:induction false} RememberAllApart(cfg: Settings, durable: set<Decision>, s: State, ds: seq<Decision>)
    requires Compatible(durable) && Recovering(cfg, durable, s) && Apart(s.reservations.items)
    requires forall d :: d in ds ==> d in durable
    ensures Apart(RememberAll(cfg, s, ds).state.reservations.items)
  {
    CompatibleAgree(durable);
    hide Recovering, Apart, Compatible, OneSymbolPerReview, RememberAll, Recoverable, ClashesWith;
    if ds != [] {
      var before, d := RememberAll(cfg, s, ds[..|ds| - 1]), ds[|ds| - 1];
      RememberAllApart(cfg, durable, s, ds[..|ds| - 1]);
      RememberAllRecovering(cfg, durable, s, ds[..|ds| - 1]);
      RememberAllStep(cfg, s, ds);
      RememberApart(cfg, durable, before.state, d);
    } else {
      NothingToRemember(cfg, s);
    }
  }

  lemma NothingToRemember(cfg: Settings, s: State)
    ensures RememberAll(cfg, s, []) == Step(s, Applied)
  {
  }

  lemma RestoreGuarded(cfg: Settings, durable: set<Decision>, s: State, ds: seq<Decision>)
    requires Compatible(durable) && Guarded(cfg, durable, s)
    requires forall d :: d in ds ==> d in durable
    ensures Guarded(cfg, durable, Restore(cfg, s, ds).state)
  {
    CompatibleAgree(durable);
    RestoreRetained(cfg, durable, s, ds);
    RestoreKeeps(cfg, s, ds);
    hide Restore, RememberAll, TrimCache, Replayable, OnlyDurable, Compatible, OneSymbolPerReview, Apart, LedgerInv, VenueInv,
         GateInv, CacheInv, OrderedMap.Valid;
    if !s.durableLoaded {
      RememberAllRecovering(cfg, durable, s, ds);
      RememberAllApart(cfg, durable, s, ds);
      var n, loaded := Restore(cfg, s, ds).state, RememberAll(cfg, s, ds).state;
      if RememberAll(cfg, s, ds).outcome.Applied? {
        FewerApart(loaded.reservations.items, n.reservations.items);
        TrimWithinBound(cfg, loaded);
      } else {
        DurableOnUniverse(cfg, durable, n);
      }
    }
  }

  // ----- evaluation -----

  /** A fresh approval differs from every reservation in symbol, review and trade. */
  lemma NewBesideReserved(cfg: Settings, s: State, q: Request, d: Decision)
    requires Base(cfg, s) && Replayable(s.reservations.items, s.decisions.items)
    requires Fresh(cfg, s, q, d) && d.approved
    ensures d.Trade() !in s.reservations.items
    ensures forall t :: t in s.reservations.items ==>
      SideBySide(s.reservations.items[t].decision, d) && SideBySide(d, s.reservations.items[t].decision)
  {
    hide OrderedMap.Valid, Fresh, VenueInv, GateInv;
    FreshlyApproved(cfg, s, q, d);
    LoadedWhenFresh(cfg, s, q, d);
  }

  lemma RecordApart(cfg: Settings, s: State, q: Request, d: Decision)
    requires Base(cfg, s) && Replayable(s.reservations.items, s.decisions.items) && Apart(s.reservations.items)
    requires Fresh(cfg, s, q, d)
    ensures Apart(Record(cfg, s, d).reservations.items)
  {
    hide Record, Replayable, Fresh, SideBySide, Apart, CacheInv, VenueInv, GateInv, LedgerInv, ReservedReviews, OrderedMap.Valid;
    RecordEffect(cfg, s, d);
    if d.approved {
      NewBesideReserved(cfg, s, q, d);
      var seqNow := if s.latestSeq.Some? then s.latestSeq.value else 0;
      ApartWith(s.reservations.items, d.Trade(), Reservation(d, seqNow));
    }
  }

  lemma RecordWithinUniverse(cfg: Settings, s: State, q: Request, d: Decision)
    requires Base(cfg, s) && Replayable(s.reservations.items, s.decisions.items) && Apart(s.reservations.items)
    requires Fresh(cfg, s, q, d)
    ensures |Record(cfg, s, d).decisions.keys| <= CacheBound(cfg)
  {
    RecordBase(cfg, s, q, d);
    RecordEffect(cfg, s, d);
    RecordApart(cfg, s, q, d);
    RecordReplayable(cfg, s, q, d);
    hide Record, ReservedReviews, Fresh, Base, Apart, Replayable;
    if |Record(cfg, s, d).decisions.keys| > cfg.decisionCacheSize { ReservedCacheFits(cfg, Record(cfg, s, d)); }
  }

  lemma EvaluateGuarded(cfg: Settings, durable: set<Decision>, s: State, q: Request)
    requires Guarded(cfg, durable, s)
    ensures Guarded(cfg, durable, EvaluateStep(cfg, s, q).state)
  {
    hide Fresh, Record, AdmissionFor, EvaluateStep, Apart, Replayable, OnlyDurable, LedgerInv, CacheInv, VenueInv, GateInv,
         OrderedMap.Valid;
    EvaluateShape(cfg, s, q);
    EvaluateRetained(cfg, durable, s, q);
    forall d | Fresh(cfg, s, q, d)
      ensures Apart(Record(cfg, s, d).reservations.items) && |Record(cfg, s, d).decisions.keys| <= CacheBound(cfg)
    {
      RecordApart(cfg, s, q, d);
      RecordWithinUniverse(cfg, s, q, d);
    }
    if q.review in s.decisions.items { MoveToEndValid(s.decisions, q.review); }
  }

  lemma FewerGuarded(cfg: Settings, durable: set<Decision>, s: State, n: State)
    requires Guarded(cfg, durable, s) && Retained(cfg, durable, n) && n.decisions == s.decisions
    requires forall t :: t in n.reservations.items ==>
      t in s.reservations.items && n.reservations.items[t] == s.reservations.items[t]
    ensures Guarded(cfg, durable, n)
  {
    hide Retained, Apart;
    FewerApart(s.reservations.items, n.reservations.items);
  }

  /** Every step keeps the ledger invariants, given durable approvals that may stand side by side. */
  lemma NextGuarded(cfg: Settings, durable: set<Decision>, s: State, e: Event)
    requires Compatible(durable) && Guarded(cfg, durable, s)
    requires e.RestoreEvent? ==> forall d :: d in e.decisions ==> d in durable
    ensures Guarded(cfg, durable, Next(cfg, s, e).state)
  {
    CompatibleAgree(durable);
    NextRetained(cfg, durable, s, e);
    hide ApplyAccount, ApplyVenue, ApplyRegime, Restore, EvaluateStep, Compatible, OneSymbolPerReview, Base, Retained, Guarded;
    match e {
      case AccountEvent(a) =>
        AccountKeeps(cfg, s, a);
        FewerGuarded(cfg, durable, s, ApplyAccount(cfg, s, a).state);
      case VenueEvent(v) =>
        VenueKeeps(s, v);
        FewerGuarded(cfg, durable, s, ApplyVenue(s, v).state);
      case RegimeEvent(b, receivedAtMs) =>
        RegimeKeeps(cfg, s, b, receivedAtMs);
        FewerGuarded(cfg, durable, s, ApplyRegime(cfg, s, b, receivedAtMs).state);
      case RestoreEvent(ds) => RestoreGuarded(cfg, durable, s, ds);
      case EvaluateEvent(q) => EvaluateGuarded(cfg, durable, s, q);
    }
  }

  lemma FreshStateGuarded(cfg: Settings, durable: set<Decision>)
    ensures Guarded(cfg, durable, FRESH)
  {
  }
}
