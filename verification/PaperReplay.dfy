/** Replay protection: what is reserved stays cached under its own review, within a memory bound. */
module PaperReplay {
  import opened Common
  import opened Contracts
  import opened PaperState
  import opened PaperInvariants

  /** Every reserved decision is cached under its own review. */
  ghost predicate Replayable(m: map<TradeId, Reservation>, cache: map<Review, Decision>) {
    forall t :: t in m ==> m[t].decision.review in cache && cache[m[t].decision.review] == m[t].decision
  }

  /** Until recovery, ledger and cache hold durable approvals only. */
  ghost predicate OnlyDurable(cfg: Settings, durable: set<Decision>, s: State) {
    && (forall t :: t in s.reservations.items ==> s.reservations.items[t].decision in durable)
    && (forall k :: k in s.decisions.items ==> s.decisions.items[k] in durable && Recoverable(cfg, s.decisions.items[k]))
  }

  /** No review was approved on two symbols. */
  ghost predicate OneSymbolPerReview(durable: set<Decision>) {
    forall a, b :: a in durable && b in durable && a.review == b.review ==> a.venueSymbol == b.venueSymbol
  }

  /** The decision is on the symbol its own intent maps to. */
  predicate OnOwnSymbol(d: Decision) { DevSymbol(d.review.intent.symbol) == Some(d.venueSymbol) }

  /** Approvals that are on their own symbols agree on the symbol of a review. */
  lemma OwnSymbolsAgree(durable: set<Decision>)
    requires forall d :: d in durable ==> OnOwnSymbol(d)
    ensures OneSymbolPerReview(durable)
  {
    hide DevSymbol;
  }

  ghost predicate Retained(cfg: Settings, durable: set<Decision>, s: State) {
    && Base(cfg, s)
    && Replayable(s.reservations.items, s.decisions.items)
    && (!s.durableLoaded ==> OnlyDurable(cfg, durable, s))
  }

  // ----- recovery -----

  ghost predicate Recovering(cfg: Settings, durable: set<Decision>, s: State) {
    && Base(cfg, s)
    && Replayable(s.reservations.items, s.decisions.items)
    && OnlyDurable(cfg, durable, s)
  }

  lemma Remembered(s: State, d: Decision)
    ensures Remember(s, d).reservations.items == s.reservations.items[d.Trade() := Reservation(d, 0)]
    ensures Remember(s, d).decisions.items == s.decisions.items[d.review := d]
  {
  }

  /** A reservation under another trade has another review. */
  lemma OtherReview(cfg: Settings, durable: set<Decision>, s: State, d: Decision, t: TradeId)
    requires LedgerInv(cfg, s.latestSeq, s.reservations.items) && OnlyDurable(cfg, durable, s) && OneSymbolPerReview(durable)
    requires d in durable && Recoverable(cfg, d) && t in s.reservations.items && t != d.Trade()
    ensures s.reservations.items[t].decision.review != d.review
  {
    assert EntryInv(cfg, s.latestSeq, t, s.reservations.items[t]);
  }

  lemma RememberReplayable(cfg: Settings, durable: set<Decision>, s: State, d: Decision)
    requires OneSymbolPerReview(durable) && Recovering(cfg, durable, s) && d in durable && Recoverable(cfg, d)
    ensures Replayable(Remember(s, d).reservations.items, Remember(s, d).decisions.items)
  {
    Remembered(s, d);
    hide Remember, Recoverable, OneSymbolPerReview, OnlyDurable, LedgerInv, CacheInv, VenueInv, GateInv, OrderedMap.Valid;
    forall t | t in s.reservations.items && t != d.Trade() ensures s.reservations.items[t].decision.review != d.review {
      OtherReview(cfg, durable, s, d, t);
    }
  }

  lemma RememberDurable(cfg: Settings, durable: set<Decision>, s: State, d: Decision)
    requires OnlyDurable(cfg, durable, s) && d in durable && Recoverable(cfg, d)
    ensures OnlyDurable(cfg, durable, Remember(s, d))
  {
    Remembered(s, d);
    hide Remember, Recoverable;
  }

  lemma {:induction false} RememberAllRecovering(cfg: Settings, durable: set<Decision>, s: State, ds: seq<Decision>)
    requires OneSymbolPerReview(durable) && Recovering(cfg, durable, s)
    requires forall d :: d in ds ==> d in durable
    ensures Recovering(cfg, durable, RememberAll(cfg, s, ds).state)
  {
    if ds != [] {
      hide Base, Replayable, OnlyDurable, OneSymbolPerReview, RememberAll, Recoverable, ClashesWith;
      var before, d := RememberAll(cfg, s, ds[..|ds| - 1]), ds[|ds| - 1];
      RememberAllRecovering(cfg, durable, s, ds[..|ds| - 1]);
      RememberAllStep(cfg, s, ds);
      if Recoverable(cfg, d) {
        RememberBase(cfg, before.state, d);
        RememberReplayable(cfg, durable, before.state, d);
        RememberDurable(cfg, durable, before.state, d);
      }
    } else {
      assert RememberAll(cfg, s, ds).state == s;
    }
  }

  /** Trimming drops nothing that is reserved. */
  lemma TrimReplayable(cfg: Settings, s: State)
    requires WellFormed(s) && Replayable(s.reservations.items, s.decisions.items)
    ensures Replayable(s.reservations.items, TrimCache(cfg, s).decisions.items)
  {
    EvictSpares(s.decisions, ReservedReviews(s.reservations), cfg.decisionCacheSize);
    ReviewsOf(s.reservations);
    hide Evict, OrderedMap.Valid, ReservedReviews;
  }

  lemma StaysReplayable(m: map<TradeId, Reservation>, fewer: map<TradeId, Reservation>, cache: map<Review, Decision>)
    requires Replayable(m, cache) && forall t :: t in fewer ==> t in m && fewer[t] == m[t]
    ensures Replayable(fewer, cache)
  {
  }

  lemma RestoreRetained(cfg: Settings, durable: set<Decision>, s: State, ds: seq<Decision>)
    requires OneSymbolPerReview(durable) && Retained(cfg, durable, s)
    requires forall d :: d in ds ==> d in durable
    ensures Retained(cfg, durable, Restore(cfg, s, ds).state)
  {
    RestoreBase(cfg, s, ds);
    RestoreKeeps(cfg, s, ds);
    hide Restore, RememberAll, TrimCache, Replayable, OnlyDurable, OneSymbolPerReview, LedgerInv, CacheInv, VenueInv, GateInv,
         OrderedMap.Valid;
    if !s.durableLoaded {
      RememberAllRecovering(cfg, durable, s, ds);
      RememberAllBase(cfg, s, ds);
      var n, loaded := Restore(cfg, s, ds).state, RememberAll(cfg, s, ds).state;
      if RememberAll(cfg, s, ds).outcome.Applied? {
        TrimReplayable(cfg, loaded);
        StaysReplayable(loaded.reservations.items, n.reservations.items, n.decisions.items);
      }
    }
  }

  // ----- evaluation -----

  /** A fresh decision is cached, and displaces nothing that is reserved. */
  lemma RecordReplayable(cfg: Settings, s: State, q: Request, d: Decision)
    requires Base(cfg, s) && Replayable(s.reservations.items, s.decisions.items) && Fresh(cfg, s, q, d)
    ensures Replayable(Record(cfg, s, d).reservations.items, Record(cfg, s, d).decisions.items)
  {
    hide Record, Fresh, CacheInv, VenueInv, GateInv, LedgerInv, OrderedMap.Valid;
    RecordEffect(cfg, s, d);
    LoadedWhenFresh(cfg, s, q, d);
    var n := Record(cfg, s, d);
    ReviewsOf(n.reservations);
    hide ReservedReviews;
    forall t | t in n.reservations.items
      ensures n.reservations.items[t].decision.review in n.decisions.items
      ensures n.decisions.items[n.reservations.items[t].decision.review] == n.reservations.items[t].decision
    {
      if t in s.reservations.items && n.reservations.items[t] == s.reservations.items[t] {
        assert s.reservations.items[t].decision.review in s.decisions.items;
      }
    }
  }

  lemma EvaluateRetained(cfg: Settings, durable: set<Decision>, s: State, q: Request)
    requires Retained(cfg, durable, s)
    ensures Retained(cfg, durable, EvaluateStep(cfg, s, q).state)
  {
    hide Fresh, Record, AdmissionFor, EvaluateStep, Replayable, OnlyDurable, LedgerInv, CacheInv, VenueInv, GateInv,
         OrderedMap.Valid;
    EvaluateShape(cfg, s, q);
    EvaluateBase(cfg, s, q);
    EvaluationKeeps(cfg, s, q);
    forall d | Fresh(cfg, s, q, d) ensures Replayable(Record(cfg, s, d).reservations.items, Record(cfg, s, d).decisions.items) {
      RecordReplayable(cfg, s, q, d);
    }
    MovedItems(s.decisions, q.review);
  }

  /** Dropping reservations, or anything outside ledger and cache, loses nothing. */
  lemma FewerRetained(cfg: Settings, durable: set<Decision>, s: State, n: State)
    requires Retained(cfg, durable, s) && Base(cfg, n)
    requires n.decisions == s.decisions && n.durableLoaded == s.durableLoaded
    requires forall t :: t in n.reservations.items ==>
      t in s.reservations.items && n.reservations.items[t] == s.reservations.items[t]
    ensures Retained(cfg, durable, n)
  {
    hide Base, Recoverable;
  }

  /** Every step keeps what is reserved replayable, given durable approvals on one symbol per review. */
  lemma NextRetained(cfg: Settings, durable: set<Decision>, s: State, e: Event)
    requires OneSymbolPerReview(durable) && Retained(cfg, durable, s)
    requires e.RestoreEvent? ==> forall d :: d in e.decisions ==> d in durable
    ensures Retained(cfg, durable, Next(cfg, s, e).state)
  {
    NextBase(cfg, s, e);
    hide ApplyAccount, ApplyVenue, ApplyRegime, Restore, EvaluateStep, OneSymbolPerReview, Base, Retained;
    match e {
      case AccountEvent(a) =>
        AccountKeeps(cfg, s, a);
        FewerRetained(cfg, durable, s, ApplyAccount(cfg, s, a).state);
      case VenueEvent(v) =>
        VenueKeeps(s, v);
        FewerRetained(cfg, durable, s, ApplyVenue(s, v).state);
      case RegimeEvent(b, receivedAtMs) =>
        RegimeKeeps(cfg, s, b, receivedAtMs);
        FewerRetained(cfg, durable, s, ApplyRegime(cfg, s, b, receivedAtMs).state);
      case RestoreEvent(ds) => RestoreRetained(cfg, durable, s, ds);
      case EvaluateEvent(q) => EvaluateRetained(cfg, durable, s, q);
    }
  }

  lemma FreshStateRetained(cfg: Settings, durable: set<Decision>)
    ensures Retained(cfg, durable, FRESH)
  {
  }

  // ----- the memory bound -----

  lemma {:induction false} MembersAtMost<K>(xs: seq<K>)
    ensures |set x | x in xs| <= |xs|
  {
    if xs != [] {
      MembersAtMost(xs[1..]);
      assert (set x | x in xs) == (set x | x in xs[1..]) + {xs[0]};
    }
  }

  /** There are at most as many reserved reviews as reservations. */
  lemma ReservedReviewsFew(m: OrderedMap<TradeId, Reservation>)
    requires m.Valid()
    ensures |ReservedReviews(m)| <= |m.keys|
  {
    var reviews := seq(|m.keys|, i requires 0 <= i < |m.keys| => m.items[m.keys[i]].decision.review);
    MembersAtMost(reviews);
    assert ReservedReviews(m) == set x | x in reviews by {
      forall k | k in ReservedReviews(m) ensures k in reviews {
        var t :| t in m.items && m.items[t].decision.review == k;
        var i :| 0 <= i < |m.keys| && m.keys[i] == t;
        assert reviews[i] == k;
      }
      forall k | k in reviews ensures k in ReservedReviews(m) {
        var i :| 0 <= i < |reviews| && reviews[i] == k;
        assert m.keys[i] in m.keys;
      }
    }
  }

  /** After a decision is recorded the cache holds no more than its size or the reservations, whichever is more. */
  lemma RecordWithinBound(cfg: Settings, s: State, d: Decision)
    requires WellFormed(s)
    ensures var n := Record(cfg, s, d);
      |n.decisions.keys| <= cfg.decisionCacheSize || |n.decisions.keys| <= |n.reservations.keys|
  {
    RecordWellFormed(cfg, s, d);
    RecordEffect(cfg, s, d);
    hide Record;
    var n := Record(cfg, s, d);
    ReservedReviewsFew(n.reservations);
    if |n.decisions.keys| > cfg.decisionCacheSize {
      Pigeonhole(n.decisions.keys, ReservedReviews(n.reservations));
    }
  }

  /** Before recovery completes the cache holds no more than the durable approvals. */
  lemma DurableCacheFits(cfg: Settings, durable: set<Decision>, s: State)
    requires OnlyDurable(cfg, durable, s) && s.decisions.Valid() && CacheInv(s.decisions.items)
    ensures |s.decisions.keys| <= |durable|
  {
    hide Recoverable;
    var keys := s.decisions.keys;
    var held := seq(|keys|, i requires 0 <= i < |keys| => s.decisions.items[keys[i]]);
    forall i, j | 0 <= i < j < |held| ensures held[i] != held[j] {
      assert keys[i] in keys && keys[j] in keys && held[i].review == keys[i] && held[j].review == keys[j];
    }
    forall d | d in held ensures d in durable {
      var i :| 0 <= i < |held| && held[i] == d;
      assert keys[i] in keys;
    }
    Pigeonhole(held, durable);
  }

  /** The cache size, the number of durable approvals, and a bound on the ledger: the largest of them. */
  function CacheLimit(cfg: Settings, durable: set<Decision>, most: nat): nat {
    var larger := if |durable| < most then most else |durable|;
    if cfg.decisionCacheSize < larger then larger else cfg.decisionCacheSize
  }

  lemma RestoreWithinBound(cfg: Settings, durable: set<Decision>, s: State, ds: seq<Decision>)
    requires OneSymbolPerReview(durable) && Retained(cfg, durable, s) && !s.durableLoaded
    requires forall d :: d in ds ==> d in durable
    ensures |Restore(cfg, s, ds).state.decisions.keys| <= |durable|
  {
    RestoreBase(cfg, s, ds);
    RestoreKeeps(cfg, s, ds);
    RememberAllRecovering(cfg, durable, s, ds);
    hide Restore, RememberAll, Replayable, OneSymbolPerReview, LedgerInv, VenueInv, GateInv, Recoverable, Evict, ReservedReviews;
    var n, loaded := Restore(cfg, s, ds).state, RememberAll(cfg, s, ds).state;
    EvictSpares(loaded.decisions, ReservedReviews(loaded.reservations), cfg.decisionCacheSize);
    TrimmedDurable(cfg, durable, n, loaded);
  }

  lemma TrimmedDurable(cfg: Settings, durable: set<Decision>, n: State, loaded: State)
    requires OnlyDurable(cfg, durable, loaded) && n.decisions.Valid() && CacheInv(n.decisions.items)
    requires forall k :: k in n.decisions.items ==> k in loaded.decisions.items && n.decisions.items[k] == loaded.decisions.items[k]
    ensures |n.decisions.keys| <= |durable|
  {
    hide Recoverable;
    DurableCacheFits(cfg, durable, loaded.(decisions := n.decisions));
  }

  /** A step keeps the cache within the limit as long as the ledger it leads to is within `most`. */
  lemma NextWithinBound(cfg: Settings, durable: set<Decision>, s: State, e: Event, most: nat)
    requires OneSymbolPerReview(durable) && Retained(cfg, durable, s)
    requires e.RestoreEvent? ==> forall d :: d in e.decisions ==> d in durable
    requires |s.decisions.keys| <= CacheLimit(cfg, durable, most) && |Next(cfg, s, e).state.reservations.keys| <= most
    ensures |Next(cfg, s, e).state.decisions.keys| <= CacheLimit(cfg, durable, most)
  {
    hide ApplyAccount, ApplyVenue, ApplyRegime, Restore, EvaluateStep, OneSymbolPerReview, Replayable, OnlyDurable,
         LedgerInv, CacheInv, VenueInv, GateInv, OrderedMap.Valid;
    match e {
      case AccountEvent(a) => AccountKeeps(cfg, s, a);
      case VenueEvent(v) => VenueKeeps(s, v);
      case RegimeEvent(b, receivedAtMs) => RegimeKeeps(cfg, s, b, receivedAtMs);
      case RestoreEvent(ds) =>
        RestoreKeeps(cfg, s, ds);
        if !s.durableLoaded { RestoreWithinBound(cfg, durable, s, ds); }
      case EvaluateEvent(q) =>
        hide Fresh, Record, AdmissionFor;
        EvaluateShape(cfg, s, q);
        forall d | Fresh(cfg, s, q, d)
          ensures var n := Record(cfg, s, d);
            |n.decisions.keys| <= cfg.decisionCacheSize || |n.decisions.keys| <= |n.reservations.keys|
        {
          RecordWithinBound(cfg, s, d);
        }
        if q.review in s.decisions.items { MoveToEndValid(s.decisions, q.review); }
    }
  }
}
