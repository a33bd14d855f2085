/** The coordinator object: every public method is one atomic step of the state machine. */
module PaperRuntime {
  import opened Common
  import opened Contracts
  import opened PaperPipeline
  import opened PaperState
  import opened PaperInvariants

  class PaperRiskCoordinator {
    const cfg: Settings

    var account: Option<Account>
    var latestSeq: Option<int>
    var latestCapturedAtMs: Option<int>
    var venue: map<string, Venue>
    var venueVersions: map<string, VenueVersion>
    var decisions: OrderedMap<Review, Decision>
    var reservations: OrderedMap<TradeId, Reservation>
    var durableLoaded: bool
    var accountReady: bool
    var regime: OrderedMap<Intent, Option<RegimeBinding>>

    function View(): State
      reads this
    {
      State(account, latestSeq, latestCapturedAtMs, venue, venueVersions, decisions, reservations,
            durableLoaded, accountReady, regime)
    }

    ghost predicate Valid()
      reads this
    {
      WellFormed(View())
    }

    constructor (cfg: Settings)
      ensures this.cfg == cfg && View() == FRESH && Valid()
    {
      this.cfg := cfg;
      account, latestSeq, latestCapturedAtMs := None, None, None;
      venue, venueVersions := map[], map[];
      decisions, reservations, regime := OrderedMap([], map[]), OrderedMap([], map[]), OrderedMap([], map[]);
      durableLoaded, accountReady := false, false;
    }

    method ApplyRegimeAllocation(binding: RegimeBinding, receivedAtMs: int) returns (r: Outcome)
      requires Valid()
      modifies this`regime
      ensures Valid()
      ensures Step(View(), r) == ApplyRegime(cfg, old(View()), binding, receivedAtMs)
    {
      hide RetainedIntents, Evict, OrderedMap.Valid;
      RegimeWellFormed(cfg, View(), binding, receivedAtMs);
      if cfg.regimePolicy.None? || !binding.wellFormed || binding.boundAtMs > receivedAtMs {
        return Refused;
      }
      if binding.intent in regime.items {
        var existing := regime.items[binding.intent];
        if existing == Some(binding) {
          return Ignored;
        }
        regime := regime.Put(binding.intent, None);
        return Refused;
      }
      regime := EvictLoop(regime.Put(binding.intent, Some(binding)), RetainedIntents(View()), cfg.decisionCacheSize);
      return Applied;
    }

    method ApplyAccountSnapshot(snapshot: Account) returns (r: Outcome)
      requires Valid()
      modifies this`account, this`accountReady, this`latestSeq, this`latestCapturedAtMs, this`reservations
      ensures Valid()
      ensures Step(View(), r) == ApplyAccount(cfg, old(View()), snapshot)
    {
      hide AccountStanding, Reconcile, OrderedMap.Valid;
      AccountWellFormed(cfg, View(), snapshot);
      if latestSeq.Some? && snapshot.reconciliationSeq < latestSeq.value {
        return Ignored;
      }
      if latestSeq.Some? && snapshot.reconciliationSeq == latestSeq.value {
        if account == Some(snapshot) {
          return Ignored;
        }
        account, accountReady := None, false;
        return Refused;
      }
      if latestCapturedAtMs.Some? && snapshot.capturedAtMs < latestCapturedAtMs.value {
        latestSeq := Some(snapshot.reconciliationSeq);
        account, accountReady := None, false;
        return Refused;
      }
      latestSeq := Some(snapshot.reconciliationSeq);
      latestCapturedAtMs := Some(snapshot.capturedAtMs);
      account := Some(snapshot);
      accountReady := AccountStanding(cfg, snapshot);
      r := Applied;
      if accountReady {
        r := ReconcileReservations(snapshot);
      }
    }

    /** Walks the ledger; on any conflict nothing is removed and authority is revoked. */
    method ReconcileReservations(snapshot: Account) returns (r: Outcome)
      requires reservations.Valid()
      modifies this`account, this`accountReady, this`reservations
      ensures Step(View(), r) == Reconcile(old(View()), snapshot)
    {
      hide Conflicts, Released, OrderedMap.Drop, PositionsOf, OrdersOf;
      var positionsByTrade := GroupPositions(snapshot.positions);
      var ordersByTrade := GroupOrders(snapshot.openOrders);
      var transferred: set<TradeId> := {};
      for i := 0 to |reservations.keys|
        invariant unchanged(this)
        invariant forall j :: 0 <= j < i ==> !Conflicts(reservations.keys[j], reservations.items[reservations.keys[j]], snapshot)
        invariant transferred == set t | t in reservations.keys[..i] && Released(t, reservations.items[t], snapshot)
      {
        var trade := reservations.keys[i];
        var reservation := reservations.items[trade];
        var positions := if trade in positionsByTrade then positionsByTrade[trade] else [];
        var orders := if trade in ordersByTrade then ordersByTrade[trade] else [];
        assert reservations.keys[..i + 1] == reservations.keys[..i] + [trade];
        var clean, release := ReconcileOne(trade, reservation, positions, orders, snapshot);
        if !clean {
          account, accountReady := None, false;
          return Refused;
        }
        if release {
          transferred := transferred + {trade};
        }
      }
      assert reservations.keys[..|reservations.keys|] == reservations.keys;
      assert transferred == ReleasedTrades(reservations, snapshot);
      reservations := reservations.Drop(transferred);
      r := Applied;
    }

    method ReconcileOne(
      trade: TradeId, reservation: Reservation, positions: seq<Position>, orders: seq<OpenOrder>, snapshot: Account)
      returns (clean: bool, release: bool)
      requires positions == PositionsOf(snapshot.positions, trade) && orders == OrdersOf(snapshot.openOrders, trade)
      ensures clean == !Conflicts(trade, reservation, snapshot)
      ensures clean ==> release == Released(trade, reservation, snapshot)
    {
      GroupedPositions(snapshot.positions, trade);
      GroupedOrders(snapshot.openOrders, trade);
      hide PositionsOf, OrdersOf, LineageMatches, PositionMatches;
      clean, release := true, false;
      for i := 0 to |positions|
        invariant forall j :: 0 <= j < i ==> PositionMatches(reservation.decision, positions[j])
      {
        if !PositionMatches(reservation.decision, positions[i]) {
          assert positions[i] in positions;
          return false, false;
        }
      }
      for i := 0 to |orders|
        invariant forall j :: 0 <= j < i ==> LineageMatches(reservation.decision, orders[j].lineage)
      {
        if !LineageMatches(reservation.decision, orders[i].lineage) {
          assert orders[i] in orders;
          return false, false;
        }
      }
      if positions != [] || exists o :: o in orders && o.role.EntryOrder? {
        if positions != [] { assert positions[0] in positions; }
        return true, true;
      }
      if orders != [] {
        assert orders[0] in orders;
        return false, false;
      }
      release := snapshot.reconciliationSeq > reservation.reconciliationSeq
              && snapshot.capturedAtMs > reservation.decision.review.intent.entryExpiresTsMs;
    }

    method ApplyVenueQuality(v: Venue) returns (r: Outcome)
      requires Valid()
      modifies this`venue, this`venueVersions
      ensures Valid()
      ensures Step(View(), r) == ApplyVenue(old(View()), v)
    {
      if !v.profile.Dev? {
        return Refused;
      }
      if v.symbol !in DEV_UNIVERSE {
        return Refused;
      }
      if v.symbol in venueVersions && v.observedAtMs < venueVersions[v.symbol].observedAtMs {
        return Ignored;
      }
      if v.symbol in venueVersions && v.observedAtMs == venueVersions[v.symbol].observedAtMs {
        if venueVersions[v.symbol].measurement == Some(v) {
          return Ignored;
        }
        venue := venue - {v.symbol};
        venueVersions := venueVersions[v.symbol := VenueVersion(v.observedAtMs, None)];
        return Refused;
      }
      venueVersions := venueVersions[v.symbol := VenueVersion(v.observedAtMs, Some(v))];
      venue := venue[v.symbol := v];
      return Applied;
    }

    method RestoreReservations(ds: seq<Decision>) returns (r: Outcome)
      requires Valid()
      modifies this`account, this`accountReady, this`reservations, this`decisions, this`durableLoaded
      ensures Valid()
      ensures Step(View(), r) == Restore(cfg, old(View()), ds)
    {
      hide Recoverable, Reconcile, AccountStanding, Evict, OrderedMap.Valid, OrderedMap.Put;
      RestoreWellFormed(cfg, View(), ds);
      if durableLoaded {
        return AlreadyRestored;
      }
      assert ds[..0] == [];
      for i := 0 to |ds|
        invariant Step(View(), Applied) == RememberAll(cfg, old(View()), ds[..i])
        invariant reservations.Valid()
      {
        var d := ds[i];
        OneMoreRemembered(cfg, old(View()), View(), ds, i);
        if !Recoverable(cfg, d) || (d.Trade() in reservations.items && reservations.items[d.Trade()].decision != d) {
          PrefixFails(cfg, old(View()), ds, i + 1);
          return Refused;
        }
        hide RememberAll;
        reservations := reservations.Put(d.Trade(), Reservation(d, 0));
        decisions := decisions.Put(d.review, d);
      }
      assert ds[..|ds|] == ds;
      hide RememberAll;
      TrimDecisionCache();
      durableLoaded := true;
      r := Applied;
      if account.Some? {
        accountReady := AccountStanding(cfg, account.value);
        if accountReady {
          r := ReconcileReservations(account.value);
        }
      }
    }

    method TrimDecisionCache()
      modifies this`decisions
      ensures View() == TrimCache(cfg, old(View()))
    {
      hide Evict, ReservedReviews;
      decisions := EvictLoop(decisions, ReservedReviews(reservations), cfg.decisionCacheSize);
    }

    method Evaluate(q: Request) returns (r: Outcome)
      requires Valid()
      modifies this`decisions, this`reservations
      ensures Valid()
      ensures Step(View(), r) == EvaluateStep(cfg, old(View()), q)
    {
      hide Decide, Evict, ReservedReviews, Adaptive, Dedup, ViewOf, ReservationsValid, VenueFor, LedgerOf, Record;
      EvaluateWellFormed(cfg, View(), q);
      if !(durableLoaded && accountReady) {
        return Unavailable;
      }
      var intent := q.review.intent;
      var binding := if intent in regime.items then regime.items[intent] else None;
      var admission := q.admission;
      if Adaptive(cfg, intent) && intent in regime.items && binding.None? {
        admission := Dedup(q.admission + ["regime_bound_allocation_conflict"]);
      }
      if q.review in decisions.items && admission == [] {
        decisions := decisions.MoveToEnd(q.review);
        return Decided(decisions.items[q.review]);
      }
      var quality := VenueFor(View(), q);
      if quality.None? {
        return Unavailable;
      }
      var reserved := ReservationView(LedgerOf(reservations));
      if !ReservationsValid(reserved) {
        return Refused;
      }
      var x := Inputs(q.review, quality.value, account, q.allocation, q.decidedAtMs, q.mode, reserved, admission, binding);
      assert x == InputsFor(cfg, View(), q, quality.value);
      var result := PaperPipeline.Evaluate(cfg, x);
      if result.Raised? {
        return Refused;
      }
      var decision := result.value;
      if admission != [] {
        return Decided(decision);
      }
      RecordDecision(decision);
      r := Decided(decision);
    }

    /** Caches a fresh decision, and reserves it under the newest sequence when approved. */
    method RecordDecision(decision: Decision)
      modifies this`decisions, this`reservations
      ensures View() == Record(cfg, old(View()), decision)
    {
      hide Evict, ReservedReviews, OrderedMap.Put, OrderedMap.MoveToEnd;
      decisions := decisions.Put(decision.review, decision).MoveToEnd(decision.review);
      if decision.approved {
        reservations := reservations.Put(decision.Trade(), Reservation(decision, if latestSeq.Some? then latestSeq.value else 0));
      }
      TrimDecisionCache();
    }
  }

  /** The next listed decision is refused, or it is remembered. */
  lemma OneMoreRemembered(cfg: Settings, s: State, now: State, ds: seq<Decision>, i: nat)
    requires i < |ds| && RememberAll(cfg, s, ds[..i]) == Step(now, Applied) && now.reservations.Valid()
    ensures RememberAll(cfg, s, ds[..i + 1]) ==
      if !Recoverable(cfg, ds[i]) || ClashesWith(now, ds[i]) then Step(now, Refused) else Step(Remember(now, ds[i]), Applied)
    ensures Remember(now, ds[i]).reservations.Valid()
  {
    hide RememberAll, Recoverable, ClashesWith, OrderedMap.Valid, OrderedMap.Put;
    assert ds[..i + 1][..i] == ds[..i];
    RememberAllStep(cfg, s, ds[..i + 1]);
    PutValid(now.reservations, ds[i].Trade(), Reservation(ds[i], 0));
  }

  /** A refused prefix decides the whole recovery. */
  lemma {:induction false} PrefixFails(cfg: Settings, s: State, ds: seq<Decision>, n: nat)
    requires n <= |ds| && !RememberAll(cfg, s, ds[..n]).outcome.Applied?
    ensures RememberAll(cfg, s, ds) == RememberAll(cfg, s, ds[..n])
  {
    if n < |ds| {
      assert ds[..|ds| - 1][..n] == ds[..n];
      PrefixFails(cfg, s, ds[..|ds| - 1], n);
    } else {
      assert ds[..n] == ds;
    }
  }

  // ----- grouping a snapshot by trade -----

  lemma {:induction false} GroupedPositions(ps: seq<Position>, t: TradeId)
    ensures forall p :: p in PositionsOf(ps, t) ==> p in ps && p.lineage.trade == t
    ensures forall p :: p in ps && p.lineage.trade == t ==> p in PositionsOf(ps, t)
  {
    if ps != [] {
      GroupedPositions(ps[..|ps| - 1], t);
      assert ps == ps[..|ps| - 1] + [ps[|ps| - 1]];
    }
  }

  lemma {:induction false} GroupedOrders(os: seq<OpenOrder>, t: TradeId)
    ensures forall o :: o in OrdersOf(os, t) ==> o in os && o.lineage.trade == t
    ensures forall o :: o in os && o.lineage.trade == t ==> o in OrdersOf(os, t)
  {
    if os != [] {
      GroupedOrders(os[..|os| - 1], t);
      assert os == os[..|os| - 1] + [os[|os| - 1]];
    }
  }

  /** Builds the dictionary of positions by trade. */
  method GroupPositions(ps: seq<Position>) returns (m: map<TradeId, seq<Position>>)
    ensures forall t :: (if t in m then m[t] else []) == PositionsOf(ps, t)
  {
    m := map[];
    for i := 0 to |ps|
      invariant forall t :: (if t in m then m[t] else []) == PositionsOf(ps[..i], t)
    {
      var t := ps[i].lineage.trade;
      assert ps[..i + 1][..i] == ps[..i];
      m := m[t := (if t in m then m[t] else []) + [ps[i]]];
    }
    assert ps[..|ps|] == ps;
  }

  method GroupOrders(os: seq<OpenOrder>) returns (m: map<TradeId, seq<OpenOrder>>)
    ensures forall t :: (if t in m then m[t] else []) == OrdersOf(os, t)
  {
    m := map[];
    for i := 0 to |os|
      invariant forall t :: (if t in m then m[t] else []) == OrdersOf(os[..i], t)
    {
      var t := os[i].lineage.trade;
      assert os[..i + 1][..i] == os[..i];
      m := m[t := (if t in m then m[t] else []) + [os[i]]];
    }
    assert os[..|os|] == os;
  }
}
