/** Recovery in either order, the reach of a regime poison, and caps after re-aggregation. */
module PaperRecovery {
  import opened Common
  import opened Contracts
  import opened PaperPipeline
  import opened PaperPolicy
  import opened PaperState
  import opened PaperInvariants
  import opened PaperReplay
  import opened PaperLedger
  import opened PaperRuns

  // ----- recovery commutes -----

  /** Recovery reads and writes only ledger and cache. */
  lemma {:induction false} RememberAllFrame(cfg: Settings, s: State, n: State, ds: seq<Decision>)
    requires n.reservations == s.reservations && n.decisions == s.decisions
    ensures var r, q := RememberAll(cfg, s, ds), RememberAll(cfg, n, ds);
      && r.outcome == q.outcome
      && r.state == s.(reservations := r.state.reservations, decisions := r.state.decisions)
      && q.state == n.(reservations := r.state.reservations, decisions := r.state.decisions)
  {
    if ds != [] {
      var front := ds[..|ds| - 1];
      RememberAllFrame(cfg, s, n, front);
      hide RememberAll, Recoverable, OrderedMap.Put;
      RememberAllStep(cfg, s, ds);
      RememberAllStep(cfg, n, ds);
    } else {
      assert RememberAll(cfg, s, ds).state == s && RememberAll(cfg, n, ds).state == n;
    }
  }

  /** The state a fresh coordinator reaches by adopting one snapshot. */
  function Adopted(cfg: Settings, a: Account): State {
    FRESH.(latestSeq := Some(a.reconciliationSeq), latestCapturedAtMs := Some(a.capturedAtMs),
           account := Some(a), accountReady := AccountStanding(cfg, a))
  }

  lemma FirstSnapshot(cfg: Settings, a: Account)
    ensures ApplyAccount(cfg, FRESH, a) == Step(Adopted(cfg, a), Applied)
  {
    hide AccountStanding;
    var m: OrderedMap<TradeId, Reservation> := OrderedMap([], map[]);
    assert ReleasedTrades(m, a) == {};
    assert m.Drop({}) == m;
  }

  /** Restoring then applying the first snapshot, or the other way round, ends in one state with the
      same verdict on the snapshot: accepted, not authoritative, or in conflict with the ledger. */
  lemma RecoveryCommutes(cfg: Settings, ds: seq<Decision>, a: Account)
    requires RememberAll(cfg, FRESH, ds).outcome == Applied
    ensures var restored, adopted := Restore(cfg, FRESH, ds), ApplyAccount(cfg, FRESH, a);
      && restored.outcome == Applied && adopted.outcome == Applied
      && ApplyAccount(cfg, restored.state, a) == Restore(cfg, adopted.state, ds)
  {
    FirstSnapshot(cfg, a);
    RememberAllFrame(cfg, FRESH, Adopted(cfg, a), ds);
    hide RememberAll, AccountStanding, Evict, ReservedReviews, Reconcile;
    var loaded := RememberAll(cfg, FRESH, ds).state;
    var late := RememberAll(cfg, Adopted(cfg, a), ds).state;
    var trimmed := TrimCache(cfg, loaded).decisions;
    assert TrimCache(cfg, late).decisions == trimmed;
    var meeting := Adopted(cfg, a).(reservations := loaded.reservations, decisions := trimmed, durableLoaded := true);
    assert Restore(cfg, FRESH, ds).state == loaded.(decisions := trimmed, durableLoaded := true);
    assert TrimCache(cfg, late).(durableLoaded := true) == meeting;
    assert meeting.accountReady == AccountStanding(cfg, a);
  }

  // ----- which recovered lists keep every decision replayable -----

  ghost predicate OneDecisionPerReview(ds: seq<Decision>) {
    forall a, b :: a in ds && b in ds && a.review == b.review ==> a == b
  }

  /** The ledger reserves exactly the listed decisions. */
  ghost predicate Lists(m: map<TradeId, Reservation>, ds: seq<Decision>) {
    && (forall d :: d in ds ==> d.Trade() in m && m[d.Trade()].decision == d)
    && (forall t :: t in m ==> m[t].decision in ds)
  }

  /** The cache holds one of the listed decisions per review. */
  ghost predicate Caches(m: map<Review, Decision>, ds: seq<Decision>) {
    && (forall d :: d in ds ==> d.review in m)
    && (forall k :: k in m ==> m[k] in ds && m[k].review == k)
  }

  ghost predicate Remembers(n: State, ds: seq<Decision>) {
    Lists(n.reservations.items, ds) && Caches(n.decisions.items, ds)
  }

  lemma ListsOneMore(m: map<TradeId, Reservation>, ds: seq<Decision>, d: Decision)
    requires Lists(m, ds) && (d.Trade() in m ==> m[d.Trade()].decision == d)
    ensures Lists(m[d.Trade() := Reservation(d, 0)], ds + [d])
  {
  }

  lemma CachesOneMore(m: map<Review, Decision>, ds: seq<Decision>, d: Decision)
    requires Caches(m, ds)
    ensures Caches(m[d.review := d], ds + [d])
  {
  }

  lemma RemembersOneMore(n: State, ds: seq<Decision>, d: Decision)
    requires Remembers(n, ds) && !ClashesWith(n, d)
    ensures Remembers(Remember(n, d), ds + [d])
  {
    Remembered(n, d);
    hide Remember, Lists, Caches;
    ListsOneMore(n.reservations.items, ds, d);
    CachesOneMore(n.decisions.items, ds, d);
  }

  lemma {:induction false} RememberedExactly(cfg: Settings, ds: seq<Decision>)
    requires RememberAll(cfg, FRESH, ds).outcome == Applied
    ensures Remembers(RememberAll(cfg, FRESH, ds).state, ds)
  {
    NothingRemembered();
    hide RememberAll, Recoverable, Remembers, ClashesWith, Remember;
    if ds == [] {
      assert RememberAll(cfg, FRESH, ds).state == FRESH by { OnlyFresh(cfg); }
    } else {
      var front, d := ds[..|ds| - 1], ds[|ds| - 1];
      RememberAllStep(cfg, FRESH, ds);
      RememberedExactly(cfg, front);
      RemembersOneMore(RememberAll(cfg, FRESH, front).state, front, d);
      assert ds == front + [d];
    }
  }

  lemma NothingRemembered()
    ensures Remembers(FRESH, [])
  {
  }

  lemma OnlyFresh(cfg: Settings)
    ensures RememberAll(cfg, FRESH, []) == Step(FRESH, Applied)
  {
  }

  lemma RestoredFresh(cfg: Settings, ds: seq<Decision>)
    requires RememberAll(cfg, FRESH, ds).outcome == Applied
    ensures var n, loaded := Restore(cfg, FRESH, ds).state, RememberAll(cfg, FRESH, ds).state;
      n.reservations == loaded.reservations && n.decisions == TrimCache(cfg, loaded).decisions
  {
    RememberAllFrame(cfg, FRESH, FRESH, ds);
    hide RememberAll, Evict, ReservedReviews;
  }

  lemma TrimKeepsReserved(cfg: Settings, s: State)
    requires WellFormed(s)
    ensures var cache := TrimCache(cfg, s).decisions.items;
      && (forall k :: k in cache ==> k in s.decisions.items && cache[k] == s.decisions.items[k])
      && (forall t :: t in s.reservations.items && s.reservations.items[t].decision.review in s.decisions.items ==>
            s.reservations.items[t].decision.review in cache)
  {
    EvictSpares(s.decisions, ReservedReviews(s.reservations), cfg.decisionCacheSize);
    ReviewsOf(s.reservations);
    hide Evict, ReservedReviews;
  }

  /** A recovery that runs through saw two decisions on one review only if they were on two symbols: on one
      symbol they are one trade, and a second decision on a trade is refused. */
  lemma RecoveredReviewsIff(cfg: Settings, ds: seq<Decision>)
    requires RememberAll(cfg, FRESH, ds).outcome == Applied
    ensures OneDecisionPerReview(ds) <==> OneSymbolPerReview(set d | d in ds)
  {
    RememberedExactly(cfg, ds);
    RememberedHere(cfg, ds);
    hide RememberAll, LedgerInv, OrderedMap.Valid;
    var n := RememberAll(cfg, FRESH, ds).state;
    forall a, b | a in ds && b in ds && a.review == b.review && a.venueSymbol == b.venueSymbol ensures a == b {
      assert Reserves(n, a) && Reserves(n, b);
      assert a.accountId == cfg.accountId && b.accountId == cfg.accountId;
    }
    if OneDecisionPerReview(ds) {
      forall a, b | a in (set d | d in ds) && b in (set d | d in ds) && a.review == b.review
        ensures a.venueSymbol == b.venueSymbol
      {
        assert a in ds && b in ds;
      }
    }
  }

  lemma RememberedHere(cfg: Settings, ds: seq<Decision>)
    requires RememberAll(cfg, FRESH, ds).outcome == Applied
    ensures forall d :: d in ds ==> d.accountId == cfg.accountId
  {
    FreshStateRetained(cfg, {});
    RememberAllBase(cfg, FRESH, ds);
    RememberedExactly(cfg, ds);
    hide RememberAll, VenueInv, GateInv, CacheInv, OrderedMap.Valid;
    var n := RememberAll(cfg, FRESH, ds).state;
    forall d | d in ds ensures d.accountId == cfg.accountId {
      assert Reserves(n, d) && EntryInv(cfg, n.latestSeq, d.Trade(), n.reservations.items[d.Trade()]);
    }
  }

  /** Recovering approvals on their own symbols, as every approval is, always leaves each of them replayable. */
  lemma OwnRecoveryReplays(cfg: Settings, ds: seq<Decision>)
    requires RememberAll(cfg, FRESH, ds).outcome == Applied && forall d :: d in ds ==> OnOwnSymbol(d)
    ensures var n := Restore(cfg, FRESH, ds).state; Replayable(n.reservations.items, n.decisions.items)
  {
    hide RememberAll, Restore, OnOwnSymbol, OneSymbolPerReview;
    OwnSymbolsAgree(set d | d in ds);
    RecoveredReviewsIff(cfg, ds);
    RecoveryReplaysIff(cfg, ds);
  }

  /** The recovered ledger is apart if and only if its approvals may stand side by side. */
  lemma RecoveredApartIff(cfg: Settings, ds: seq<Decision>)
    requires RememberAll(cfg, FRESH, ds).outcome == Applied
    ensures Apart(Restore(cfg, FRESH, ds).state.reservations.items) <==> Compatible(set d | d in ds)
  {
    RememberedExactly(cfg, ds);
    RestoredFresh(cfg, ds);
    RememberedByTrade(cfg, ds);
    hide RememberAll, Restore, Apart, Compatible;
    ListedApartIff(RememberAll(cfg, FRESH, ds).state.reservations.items, ds);
  }

  lemma RememberedByTrade(cfg: Settings, ds: seq<Decision>)
    ensures var m := RememberAll(cfg, FRESH, ds).state.reservations.items; forall t :: t in m ==> m[t].decision.Trade() == t
  {
    FreshStateRetained(cfg, {});
    RememberAllBase(cfg, FRESH, ds);
    hide RememberAll, VenueInv, GateInv, CacheInv, OrderedMap.Valid, Recoverable;
    var n := RememberAll(cfg, FRESH, ds).state;
    assert forall t :: t in n.reservations.items ==> EntryInv(cfg, n.latestSeq, t, n.reservations.items[t]);
  }

  lemma ListedApartIff(m: map<TradeId, Reservation>, ds: seq<Decision>)
    requires forall d :: d in ds ==> d.Trade() in m && m[d.Trade()].decision == d
    requires forall t :: t in m ==> m[t].decision in ds && m[t].decision.Trade() == t
    ensures Apart(m) <==> Compatible(set d | d in ds)
  {
    hide SideBySide;
    var listed := set d | d in ds;
    if Apart(m) {
      forall a, b | a in listed && b in listed && a != b ensures SideBySide(a, b) {
        assert m[a.Trade()].decision == a && m[b.Trade()].decision == b;
      }
    }
    if Compatible(listed) {
      forall t, u | t in m && u in m && t != u ensures SideBySide(m[t].decision, m[u].decision) {
        assert m[t].decision in listed && m[u].decision in listed;
      }
    }
  }

  /** Every recovered approval stays replayable if and only if no two of them decide one review differently. */
  lemma RecoveryReplaysIff(cfg: Settings, ds: seq<Decision>)
    requires RememberAll(cfg, FRESH, ds).outcome == Applied
    ensures var n := Restore(cfg, FRESH, ds).state;
      Replayable(n.reservations.items, n.decisions.items) <==> OneDecisionPerReview(ds)
  {
    assert WellFormed(FRESH);
    hide RememberAll, Restore, TrimCache, OrderedMap.Valid;
    var loaded, n := RememberAll(cfg, FRESH, ds).state, Restore(cfg, FRESH, ds).state;
    RestoredFresh(cfg, ds);
    RememberedExactly(cfg, ds);
    RememberAllWellFormed(cfg, FRESH, ds);
    TrimKeepsReserved(cfg, loaded);
    if Replayable(n.reservations.items, n.decisions.items) {
      forall a, b | a in ds && b in ds && a.review == b.review ensures a == b {
        assert Reserves(loaded, a) && Reserves(loaded, b);
      }
    }
  }

  /** A malformed record, an approval moved to a symbol that is not its intent's, is recovered beside the
      genuine one: both are reserved, but only the later can be replayed. */
  lemma RecoveryCanForget(cfg: Settings, d: Decision, other: string)
    requires Recoverable(cfg, d) && OnOwnSymbol(d) && other in DEV_UNIVERSE && other != d.venueSymbol
    ensures var e := d.(venueSymbol := other);
      && !OnOwnSymbol(e)
      && RememberAll(cfg, FRESH, [d, e]).outcome == Applied
      && Reserves(Restore(cfg, FRESH, [d, e]).state, d) && Reserves(Restore(cfg, FRESH, [d, e]).state, e)
      && var n := Restore(cfg, FRESH, [d, e]).state; !Replayable(n.reservations.items, n.decisions.items)
  {
    var e := d.(venueSymbol := other);
    assert [d, e][..1] == [d] && [d][..0] == [];
    assert RememberAll(cfg, FRESH, [d]) == Step(Remember(FRESH, d), Applied);
    assert d.Trade() != e.Trade() && Recoverable(cfg, e);
    hide Recoverable;
    assert RememberAll(cfg, FRESH, [d, e]).outcome == Applied;
    RecoveryReplaysIff(cfg, [d, e]);
    RestoredFresh(cfg, [d, e]);
    RememberedExactly(cfg, [d, e]);
    assert d in [d, e] && e in [d, e] && d != e && d.review == e.review;
    hide RememberAll, Restore, Remember;
  }

  // ----- regime poison -----

  /** While a decision for the intent can still be replayed, its poison survives every step. */
  lemma PoisonStep(cfg: Settings, s: State, e: Event, i: Intent)
    requires Base(cfg, s) && RegimePoisoned(s, i) && i in RetainedIntents(s)
    ensures RegimePoisoned(Next(cfg, s, e).state, i)
  {
    hide ApplyAccount, ApplyVenue, ApplyRegime, Restore, EvaluateStep, LedgerInv, CacheInv, VenueInv, GateInv, RetainedIntents,
         OrderedMap.Valid;
    match e {
      case AccountEvent(a) => AccountKeeps(cfg, s, a);
      case VenueEvent(v) => VenueKeeps(s, v);
      case RegimeEvent(b, receivedAtMs) => RegimePoisonKept(cfg, s, b, receivedAtMs, i);
      case RestoreEvent(ds) => RestoreFrame(cfg, s, ds);
      case EvaluateEvent(q) => EvaluationKeeps(cfg, s, q);
    }
  }

  /** Eviction spares the poison of a retained intent, and no binding overwrites it. */
  lemma RegimePoisonKept(cfg: Settings, s: State, b: RegimeBinding, receivedAtMs: int, i: Intent)
    requires s.regime.Valid() && RegimePoisoned(s, i) && i in RetainedIntents(s)
    ensures RegimePoisoned(ApplyRegime(cfg, s, b, receivedAtMs).state, i)
  {
    hide RetainedIntents;
    if b.intent !in s.regime.items {
      PutValid(s.regime, b.intent, Some(b));
      EvictSpares(s.regime.Put(b.intent, Some(b)), RetainedIntents(s), cfg.decisionCacheSize);
    }
    hide Evict, OrderedMap.Valid;
  }

  /** A poisoned intent is never approved, replayed or cached. */
  lemma PoisonBlocks(cfg: Settings, s: State, q: Request)
    requires WellFormed(s) && Adaptive(cfg, q.review.intent) && RegimePoisoned(s, q.review.intent)
    ensures EvaluateStep(cfg, s, q).state == s
    ensures EvaluateStep(cfg, s, q).outcome.Decided? ==> !EvaluateStep(cfg, s, q).outcome.decision.approved
  {
    DedupEmpty(q.admission + ["regime_bound_allocation_conflict"]);
    assert AdmissionFor(cfg, s, q) != [];
    if VenueFor(s, q).Some? && Decide(cfg, InputsFor(cfg, s, q, VenueFor(s, q).value)).Ok? {
      RejectedWhenAdmonished(cfg, InputsFor(cfg, s, q, VenueFor(s, q).value));
    }
    hide Decide, ViewOf, ReservationsValid, Record, VenueFor, AdmissionFor, OrderedMap.Valid;
  }

  /** Poison is absorbing: from a state where an intent's binding is in conflict, as long as the intent
      stays retained it stays poisoned, and no evaluation of it is approved. */
  lemma {:induction false} PoisonAbsorbs(cfg: Settings, s: State, es: seq<Event>, i: Intent)
    requires Base(cfg, s) && RegimePoisoned(s, i) && Adaptive(cfg, i)
    requires forall k :: 0 <= k < |es| ==> i in RetainedIntents(Run(cfg, s, es[..k]))
    ensures RegimePoisoned(Run(cfg, s, es), i)
    ensures forall k :: 0 <= k < |es| ==> Blocked(cfg, s, es, k, i)
  {
    hide Next, LedgerInv, CacheInv, VenueInv, GateInv, RetainedIntents, RegimePoisoned, OutcomeAt, Adaptive, Blocked;
    if es != [] {
      var front, e := es[..|es| - 1], es[|es| - 1];
      var last: nat := |es| - 1;
      forall k | 0 <= k < |front| ensures i in RetainedIntents(Run(cfg, s, front[..k])) {
        assert front[..k] == es[..k];
      }
      PoisonAbsorbs(cfg, s, front, i);
      RunBase(cfg, s, front);
      PoisonStep(cfg, Run(cfg, s, front), e, i);
      forall k | 0 <= k < |es| ensures Blocked(cfg, s, es, k, i) {
        if k < last {
          assert Blocked(cfg, s, front, k, i);
          StillBlocked(cfg, s, es, k, i);
        } else {
          BlockedLast(cfg, s, es, i);
        }
      }
    }
  }

  /** If event `k` evaluates the intent, it approves nothing and changes nothing. */
  ghost predicate Blocked(cfg: Settings, s: State, es: seq<Event>, k: nat, i: Intent)
    requires WellFormed(s) && k < |es|
  {
    es[k].EvaluateEvent? && es[k].request.review.intent == i ==>
      && Run(cfg, s, es[..k + 1]) == Run(cfg, s, es[..k])
      && (OutcomeAt(cfg, s, es, k).Decided? ==> !OutcomeAt(cfg, s, es, k).decision.approved)
  }

  lemma StillBlocked(cfg: Settings, s: State, es: seq<Event>, k: nat, i: Intent)
    requires WellFormed(s) && k < |es| - 1 && Blocked(cfg, s, es[..|es| - 1], k, i)
    ensures Blocked(cfg, s, es, k, i)
  {
    var front := es[..|es| - 1];
    assert front[..k] == es[..k] && front[..k + 1] == es[..k + 1] && front[k] == es[k];
    hide Next, Run, OutcomeAt, OrderedMap.Valid;
    SameOutcome(cfg, s, front, es, k);
  }

  lemma BlockedLast(cfg: Settings, s: State, es: seq<Event>, i: Intent)
    requires WellFormed(s) && es != [] && Adaptive(cfg, i) && RegimePoisoned(Run(cfg, s, es[..|es| - 1]), i)
    ensures Blocked(cfg, s, es, |es| - 1, i)
  {
    hide Next, Run, OutcomeAt, OrderedMap.Valid, Adaptive, RegimePoisoned;
    var k: nat := |es| - 1;
    if es[k].EvaluateEvent? && es[k].request.review.intent == i {
      RunStep(cfg, s, es, k);
      StepOutcome(cfg, s, es, k);
      BlockedNext(cfg, Run(cfg, s, es[..k]), es[k]);
    }
  }

  lemma BlockedNext(cfg: Settings, s: State, e: Event)
    requires WellFormed(s) && e.EvaluateEvent?
    requires Adaptive(cfg, e.request.review.intent) && RegimePoisoned(s, e.request.review.intent)
    ensures Next(cfg, s, e).state == s
    ensures Next(cfg, s, e).outcome.Decided? ==> !Next(cfg, s, e).outcome.decision.approved
  {
    hide EvaluateStep;
    PoisonBlocks(cfg, s, e.request);
  }

  lemma SameOutcome(cfg: Settings, s: State, front: seq<Event>, es: seq<Event>, k: nat)
    requires WellFormed(s) && k < |front| && k < |es| && front[..k] == es[..k] && front[k] == es[k]
    ensures OutcomeAt(cfg, s, front, k) == OutcomeAt(cfg, s, es, k)
  {
    hide Next, Run;
  }
}
