/** Theorems about whole runs of the PAPER coordinator. */
module PaperRuns {
  import opened Common
  import opened Contracts
  import opened PaperPipeline
  import opened PaperPolicy
  import opened PaperState
  import opened PaperInvariants
  import opened PaperReplay
  import opened PaperLedger

  /** The state after a sequence of events in any order. */
  function Run(cfg: Settings, s: State, es: seq<Event>): (n: State)
    requires WellFormed(s)
    ensures WellFormed(n)
  {
    if es == [] then s
    else
      var before := Run(cfg, s, es[..|es| - 1]);
      NextWellFormed(cfg, before, es[|es| - 1]);
      Next(cfg, before, es[|es| - 1]).state
  }

  /** The outcome of event `i`. */
  function OutcomeAt(cfg: Settings, s: State, es: seq<Event>, i: nat): Outcome
    requires WellFormed(s) && i < |es|
  {
    Next(cfg, Run(cfg, s, es[..i]), es[i]).outcome
  }

  lemma RunStep(cfg: Settings, s: State, es: seq<Event>, i: nat)
    requires WellFormed(s) && i < |es|
    ensures Run(cfg, s, es[..i + 1]) == Next(cfg, Run(cfg, s, es[..i]), es[i]).state
  {
    assert es[..i + 1][..i] == es[..i];
    hide Next;
  }

  /** Every recovered list draws on the durable approvals. */
  ghost predicate RestoresFrom(es: seq<Event>, durable: set<Decision>) {
    forall i, d :: 0 <= i < |es| && es[i].RestoreEvent? && d in es[i].decisions ==> d in durable
  }

  lemma {:induction false} RunBase(cfg: Settings, s: State, es: seq<Event>)
    requires Base(cfg, s)
    ensures Base(cfg, Run(cfg, s, es))
  {
    hide LedgerInv, CacheInv, VenueInv, GateInv, Next;
    if es != [] {
      RunBase(cfg, s, es[..|es| - 1]);
      NextBase(cfg, Run(cfg, s, es[..|es| - 1]), es[|es| - 1]);
    }
  }

  lemma {:induction false} RunRetained(cfg: Settings, durable: set<Decision>, s: State, es: seq<Event>)
    requires OneSymbolPerReview(durable) && Retained(cfg, durable, s) && RestoresFrom(es, durable)
    ensures Retained(cfg, durable, Run(cfg, s, es))
  {
    hide LedgerInv, CacheInv, VenueInv, GateInv, Replayable, OnlyDurable, Next, OneSymbolPerReview;
    if es != [] {
      RunRetained(cfg, durable, s, es[..|es| - 1]);
      NextRetained(cfg, durable, Run(cfg, s, es[..|es| - 1]), es[|es| - 1]);
    }
  }

  lemma {:induction false} RunGuarded(cfg: Settings, durable: set<Decision>, s: State, es: seq<Event>)
    requires Compatible(durable) && Guarded(cfg, durable, s) && RestoresFrom(es, durable)
    ensures Guarded(cfg, durable, Run(cfg, s, es))
  {
    hide LedgerInv, CacheInv, VenueInv, GateInv, Replayable, OnlyDurable, Apart, Next, Compatible;
    if es != [] {
      RunGuarded(cfg, durable, s, es[..|es| - 1]);
      NextGuarded(cfg, durable, Run(cfg, s, es[..|es| - 1]), es[|es| - 1]);
    }
  }

  // ----- aggregate risk -----

  /** Reconciled open risk plus every reserved worst-case loss. */
  function Exposure(s: State): real
    requires s.account.Some? && s.reservations.Valid()
  {
    s.account.value.totalOpenRiskUsd + TotalLoss(LedgerOf(s.reservations))
  }

  function RiskLimit(cfg: Settings, a: Account): real { a.equityUsd * cfg.maxTotalOpenRiskFraction }

  lemma LedgerAppend(m: OrderedMap<TradeId, Reservation>, t: TradeId, r: Reservation)
    requires m.Valid() && t !in m.items
    ensures m.Put(t, r).Valid() && LedgerOf(m.Put(t, r)) == LedgerOf(m) + [r.decision]
  {
    PutValid(m, t, r);
    var n := m.Put(t, r);
    assert n.keys == m.keys + [t];
    forall i | 0 <= i < |m.keys| ensures n.items[n.keys[i]] == m.items[m.keys[i]] {
      assert m.keys[i] in m.keys;
    }
  }

  /** The event puts a decision on the ledger that was not on record before. */
  ghost predicate NewlyApproves(cfg: Settings, s: State, e: Event, d: Decision)
    requires s.reservations.Valid()
  {
    e.EvaluateEvent? && e.request.review !in s.decisions.items && d.approved && Next(cfg, s, e).outcome == Decided(d)
  }

  lemma NewApprovalIsFresh(cfg: Settings, s: State, e: Event, d: Decision)
    requires WellFormed(s) && NewlyApproves(cfg, s, e, d)
    ensures Fresh(cfg, s, e.request, d) && Next(cfg, s, e).state == Record(cfg, s, d)
  {
    var q := e.request;
    hide Decide, Record, ViewOf, ReservationsValid, Dedup, VenueFor, AdmissionFor;
    if VenueFor(s, q).Some? {
      var x := InputsFor(cfg, s, q, VenueFor(s, q).value);
      if Decide(cfg, x).Ok? && x.admission != [] && Decide(cfg, x).value.approved {
        RejectedWhenAdmonished(cfg, x);
        assert false;
      }
    }
  }

  /** Admission reasons always end in a rejection. */
  lemma RejectedWhenAdmonished(cfg: Settings, x: Inputs)
    requires x.admission != [] && Decide(cfg, x).Ok?
    ensures !Decide(cfg, x).value.approved
  {
    hide Decide, TermsOf, SizeAdmissible, VenueAdmissible, AccountAdmissible, CapitalAdmissible, GeometryAdmissible, CapitalGate;
    ApprovedExactly(cfg, x);
  }

  /** A fresh approval fits under the limit that was still open. */
  lemma FreshFits(cfg: Settings, s: State, q: Request, d: Decision)
    requires WellFormed(s) && Fresh(cfg, s, q, d) && d.approved
    ensures s.account.Some?
    ensures Exposure(s) < RiskLimit(cfg, s.account.value)
    ensures Exposure(s) + d.worstCaseLossUsd <= RiskLimit(cfg, s.account.value) + 0.000001
    ensures d.worstCaseLossUsd <= s.account.value.equityUsd * cfg.perTradeRiskFraction + 0.000001
  {
    hide Decide, Approves, ViewOf, TotalLoss, Recoverable, InputsFor, VenueFor, AdmissionFor;
    var x := InputsFor(cfg, s, q, VenueFor(s, q).value);
    FreshlyApproved(cfg, s, q, d);
    ReadsLedger(cfg, s, q, VenueFor(s, q).value);
    ApprovalKeepsRiskLimit(cfg, x, d);
  }

  /** An evaluation reads the current account and the risk of the whole ledger. */
  lemma ReadsLedger(cfg: Settings, s: State, q: Request, v: Venue)
    requires s.reservations.Valid()
    ensures var x := InputsFor(cfg, s, q, v);
      x.account == s.account && x.reservations.openRiskUsd == TotalLoss(LedgerOf(s.reservations))
  {
    hide TotalLoss, SymbolsOf, TotalNotional, TotalsOf, CanaryIdeas, AdmissionFor;
  }

  /** Recording it is the ledger's only change. */
  lemma ApprovalExposure(cfg: Settings, s: State, q: Request, d: Decision)
    requires Base(cfg, s) && Fresh(cfg, s, q, d) && d.approved
    ensures s.account.Some? && Record(cfg, s, d).account == s.account
    ensures WellFormed(Record(cfg, s, d))
    ensures LedgerOf(Record(cfg, s, d).reservations) == LedgerOf(s.reservations) + [d]
    ensures Exposure(s) < RiskLimit(cfg, s.account.value)
    ensures Exposure(Record(cfg, s, d)) == Exposure(s) + d.worstCaseLossUsd <= RiskLimit(cfg, s.account.value) + 0.000001
  {
    hide Record, Fresh, TotalLoss, LedgerInv, CacheInv, VenueInv, GateInv, ReservedReviews, OrderedMap.Valid;
    RecordWellFormed(cfg, s, d);
    RecordEffect(cfg, s, d);
    NewTrade(cfg, s, q, d);
    FreshFits(cfg, s, q, d);
    var seqNow := if s.latestSeq.Some? then s.latestSeq.value else 0;
    LedgerAppend(s.reservations, d.Trade(), Reservation(d, seqNow));
    TotalsAppend(LedgerOf(s.reservations), d);
  }

  lemma NewTrade(cfg: Settings, s: State, q: Request, d: Decision)
    requires Base(cfg, s) && Fresh(cfg, s, q, d) && d.approved
    ensures d.Trade() !in s.reservations.items
  {
    FreshlyApproved(cfg, s, q, d);
    hide Fresh, VenueInv, GateInv, CacheInv, OrderedMap.Valid;
    assert d.Trade() in s.reservations.items ==> EntryInv(cfg, s.latestSeq, d.Trade(), s.reservations.items[d.Trade()]);
  }

  /** The event replaces the reconciled picture: an applied snapshot, or the one durable recovery. */
  ghost predicate Rebases(cfg: Settings, s: State, e: Event)
    requires s.reservations.Valid()
  {
    (e.AccountEvent? && Next(cfg, s, e).outcome == Applied) || (e.RestoreEvent? && !s.durableLoaded)
  }

  /** `n` shows the same account and ledger, or one more approval that still fitted. */
  ghost predicate ExposureKept(cfg: Settings, s: State, n: State)
    requires WellFormed(s) && WellFormed(n)
  {
    n.account.Some? ==>
      && s.account == n.account
      && (|| n.reservations == s.reservations
          || (&& Exposure(s) < RiskLimit(cfg, s.account.value)
              && Exposure(n) <= RiskLimit(cfg, s.account.value) + 0.000001))
  }

  lemma EvaluationExposure(cfg: Settings, s: State, q: Request)
    requires Base(cfg, s)
    ensures WellFormed(EvaluateStep(cfg, s, q).state) && ExposureKept(cfg, s, EvaluateStep(cfg, s, q).state)
  {
    hide EvaluateStep, Fresh, Record, LedgerInv, CacheInv, VenueInv, GateInv, OrderedMap.Valid, Exposure, AdmissionFor,
         ReservedReviews;
    EvaluateShape(cfg, s, q);
    EvaluateWellFormed(cfg, s, q);
    forall d | Fresh(cfg, s, q, d)
      ensures WellFormed(Record(cfg, s, d)) && ExposureKept(cfg, s, Record(cfg, s, d))
    {
      RecordWellFormed(cfg, s, d);
      RecordEffect(cfg, s, d);
      if d.approved { ApprovalExposure(cfg, s, q, d); }
    }
  }

  /** Between rebases an evaluation may add one approval that fits; nothing else moves the exposure. */
  lemma ExposureStep(cfg: Settings, s: State, e: Event)
    requires Base(cfg, s) && !Rebases(cfg, s, e)
    ensures WellFormed(Next(cfg, s, e).state) && ExposureKept(cfg, s, Next(cfg, s, e).state)
  {
    NextWellFormed(cfg, s, e);
    hide Exposure, ExposureKept, LedgerInv, CacheInv, VenueInv, GateInv, OrderedMap.Valid, ApplyAccount, ApplyVenue, ApplyRegime,
         Restore, EvaluateStep;
    var n := Next(cfg, s, e).state;
    match e {
      case AccountEvent(a) =>
        RefusedAccount(cfg, s, a);
        SameExposure(cfg, s, n);
      case VenueEvent(v) =>
        VenueKeeps(s, v);
        SameExposure(cfg, s, n);
      case RegimeEvent(b, receivedAtMs) =>
        RegimeKeeps(cfg, s, b, receivedAtMs);
        SameExposure(cfg, s, n);
      case RestoreEvent(ds) =>
        RestoreKeeps(cfg, s, ds);
        SameExposure(cfg, s, n);
      case EvaluateEvent(q) => EvaluationExposure(cfg, s, q);
    }
  }

  lemma SameExposure(cfg: Settings, s: State, n: State)
    requires WellFormed(s) && WellFormed(n) && n.reservations == s.reservations
    requires n.account == None || n.account == s.account
    ensures ExposureKept(cfg, s, n)
  {
    hide Exposure;
  }

  /** A snapshot that is not applied changes no reservation and adopts no account. */
  lemma RefusedAccount(cfg: Settings, s: State, a: Account)
    requires !ApplyAccount(cfg, s, a).outcome.Applied?
    ensures var n := ApplyAccount(cfg, s, a).state;
      n.reservations == s.reservations && (n.account == None || n.account == s.account)
  {
    hide AccountStanding, AnyConflict, ReleasedTrades;
  }

  /** Exposure right after the last rebase of a run. */
  ghost function RebasedExposure(cfg: Settings, s: State, es: seq<Event>): real
    requires WellFormed(s)
  {
    if es == [] then (if s.account.Some? then Exposure(s) else 0.0)
    else
      var before, e := Run(cfg, s, es[..|es| - 1]), es[|es| - 1];
      var now := Run(cfg, s, es);
      if !Rebases(cfg, before, e) then RebasedExposure(cfg, s, es[..|es| - 1])
      else if now.account.Some? then Exposure(now) else 0.0
  }

  /** The exposure a run may reach from `rebased`: that, or the current limit with one tolerance. */
  ghost predicate Bounded(cfg: Settings, rebased: real, n: State)
    requires WellFormed(n)
  {
    n.account.Some? ==> Exposure(n) <= Max(rebased, RiskLimit(cfg, n.account.value) + 0.000001)
  }

  lemma StillBounded(cfg: Settings, rebased: real, s: State, n: State)
    requires WellFormed(s) && WellFormed(n) && Bounded(cfg, rebased, s) && ExposureKept(cfg, s, n)
    ensures Bounded(cfg, rebased, n)
  {
  }

  /** In every run, under every interleaving, exposure never passes both the limit (with one
      tolerance, never accumulated) and what the last snapshot itself showed. */
  lemma {:induction false} AggregateRisk(cfg: Settings, s: State, es: seq<Event>)
    requires Base(cfg, s)
    ensures Bounded(cfg, RebasedExposure(cfg, s, es), Run(cfg, s, es))
  {
    if es != [] {
      var front, e := es[..|es| - 1], es[|es| - 1];
      AggregateRisk(cfg, s, front);
      RunBase(cfg, s, front);
      var before := Run(cfg, s, front);
      hide Next, Exposure, RiskLimit, LedgerInv, CacheInv, VenueInv, GateInv, Rebases;
      if !Rebases(cfg, before, e) {
        hide Bounded;
        ExposureStep(cfg, before, e);
        StillBounded(cfg, RebasedExposure(cfg, s, es), before, Run(cfg, s, es));
      }
    }
  }

  /** A ledger at or over its limit admits nothing more. */
  lemma NoApprovalOverLimit(cfg: Settings, s: State, e: Event, d: Decision)
    requires Base(cfg, s) && NewlyApproves(cfg, s, e, d)
    ensures s.account.Some? && Exposure(s) < RiskLimit(cfg, s.account.value)
    ensures d.worstCaseLossUsd <= s.account.value.equityUsd * cfg.perTradeRiskFraction + 0.000001
  {
    NewApprovalIsFresh(cfg, s, e, d);
    hide NewlyApproves, Fresh, Exposure;
    FreshFits(cfg, s, e.request, d);
  }

  // ----- one idea per symbol between authoritative snapshots -----

  /** An applied authoritative snapshot that shows the trade with its exact lineage, or was
      captured after the idea's entry window closed. */
  ghost predicate HandsOff(cfg: Settings, a: Account, d: Decision) {
    && AccountStanding(cfg, a)
    && (|| (Owned(d.Trade(), a)
            && (forall p :: p in a.positions && p.lineage.trade == d.Trade() ==> PositionMatches(d, p))
            && (forall o :: o in a.openOrders && o.lineage.trade == d.Trade() ==> LineageMatches(d, o.lineage)))
        || (!Represented(d.Trade(), a) && a.capturedAtMs > d.review.intent.entryExpiresTsMs))
  }

  ghost predicate Reserves(s: State, d: Decision) {
    d.Trade() in s.reservations.items && s.reservations.items[d.Trade()].decision == d
  }

  lemma AccountRelease(cfg: Settings, s: State, a: Account, d: Decision)
    requires Reserves(s, d) && !Reserves(ApplyAccount(cfg, s, a).state, d)
    ensures HandsOff(cfg, a, d) && ApplyAccount(cfg, s, a).outcome == Applied
  {
    var t := d.Trade();
    hide Owned, Represented, PositionMatches, LineageMatches, AccountStanding;
    assert t in ReleasedTrades(s.reservations, a);
    assert !AnyConflict(s.reservations, a);
    assert !Conflicts(t, s.reservations.items[t], a);
  }

  lemma EvaluationReserves(cfg: Settings, s: State, q: Request, d: Decision)
    requires Base(cfg, s) && s.durableLoaded && Reserves(s, d)
    ensures EvaluateStep(cfg, s, q).state.durableLoaded && Reserves(EvaluateStep(cfg, s, q).state, d)
  {
    hide EvaluateStep, Fresh, Record, LedgerInv, CacheInv, VenueInv, GateInv, AdmissionFor, ReservedReviews;
    EvaluateShape(cfg, s, q);
    forall x | Fresh(cfg, s, q, x)
      ensures Record(cfg, s, x).durableLoaded && Reserves(Record(cfg, s, x), d)
    {
      RecordEffect(cfg, s, x);
      if x.approved { NewTrade(cfg, s, q, x); }
    }
  }

  /** A reservation leaves the ledger only when an applied snapshot takes the idea over. */
  lemma ReservationPersists(cfg: Settings, s: State, e: Event, d: Decision)
    requires Base(cfg, s) && s.durableLoaded && Reserves(s, d)
    ensures var n := Next(cfg, s, e);
      && n.state.durableLoaded
      && (Reserves(n.state, d) ||
          (e.AccountEvent? && n.outcome == Applied && HandsOff(cfg, e.account, d)))
  {
    hide LedgerInv, CacheInv, VenueInv, GateInv, OrderedMap.Valid, HandsOff;
    match e {
      case AccountEvent(a) =>
        AccountKeeps(cfg, s, a);
        if !Reserves(ApplyAccount(cfg, s, a).state, d) { AccountRelease(cfg, s, a, d); }
        hide ApplyAccount;
      case VenueEvent(v) =>
        VenueKeeps(s, v);
        hide ApplyVenue;
      case RegimeEvent(b, receivedAtMs) =>
        RegimeKeeps(cfg, s, b, receivedAtMs);
        hide ApplyRegime;
      case RestoreEvent(ds) =>
      case EvaluateEvent(q) =>
        EvaluationReserves(cfg, s, q, d);
        hide EvaluateStep, Reserves;
    }
  }

  lemma ApprovalReserves(cfg: Settings, s: State, e: Event, d: Decision)
    requires Base(cfg, s) && NewlyApproves(cfg, s, e, d)
    ensures Next(cfg, s, e).state.durableLoaded && Reserves(Next(cfg, s, e).state, d)
  {
    NewApprovalIsFresh(cfg, s, e, d);
    LoadedWhenFresh(cfg, s, e.request, d);
    hide NewlyApproves, Fresh, Record, Next, ReservedReviews;
    RecordEffect(cfg, s, d);
  }

  /** While an idea is reserved nothing else is approved on its symbol. */
  lemma ReservedBlocks(cfg: Settings, s: State, e: Event, d: Decision, x: Decision)
    requires Base(cfg, s) && Reserves(s, d) && NewlyApproves(cfg, s, e, x)
    ensures x.venueSymbol != d.venueSymbol
    ensures !(x.review.intent.strategyId == CANARY_STRATEGY && d.review.intent.strategyId == CANARY_STRATEGY)
  {
    NewApprovalIsFresh(cfg, s, e, x);
    FreshlyApproved(cfg, s, e.request, x);
    hide Fresh, NewlyApproves, VenueInv, GateInv, CacheInv, OrderedMap.Valid;
    assert EntryInv(cfg, s.latestSeq, d.Trade(), s.reservations.items[d.Trade()]);
  }

  /** Some snapshot applied from event `i` on, before event `j`, takes the idea over. */
  ghost predicate HandedOff(cfg: Settings, s: State, es: seq<Event>, i: nat, j: nat, d: Decision)
    requires WellFormed(s) && j <= |es|
  {
    exists k :: i <= k < j && es[k].AccountEvent? && OutcomeAt(cfg, s, es, k) == Applied && HandsOff(cfg, es[k].account, d)
  }

  lemma HandedOffOn(cfg: Settings, s: State, es: seq<Event>, i: nat, j: nat, d: Decision)
    requires WellFormed(s) && i <= j < |es|
    requires || HandedOff(cfg, s, es, i, j, d)
             || (es[j].AccountEvent? && OutcomeAt(cfg, s, es, j) == Applied && HandsOff(cfg, es[j].account, d))
    ensures HandedOff(cfg, s, es, i, j + 1, d)
  {
    hide OutcomeAt, HandsOff, OrderedMap.Valid;
  }

  /** If an idea was reserved at `i` and is gone at `j`, a snapshot in between took it over. */
  lemma {:induction false} ReleasedInBetween(cfg: Settings, s: State, es: seq<Event>, i: nat, j: nat, d: Decision)
    requires Base(cfg, s) && i <= j <= |es|
    requires Run(cfg, s, es[..i]).durableLoaded && Reserves(Run(cfg, s, es[..i]), d)
    ensures HandedOff(cfg, s, es, i, j, d) || (Run(cfg, s, es[..j]).durableLoaded && Reserves(Run(cfg, s, es[..j]), d))
  {
    hide Next, HandsOff, Reserves, LedgerInv, CacheInv, VenueInv, GateInv, OutcomeAt, HandedOff, OrderedMap.Valid;
    if i < j {
      ReleasedInBetween(cfg, s, es, i, j - 1, d);
      RunBase(cfg, s, es[..j - 1]);
      RunStep(cfg, s, es, j - 1);
      StepOutcome(cfg, s, es, j - 1);
      var before := Run(cfg, s, es[..j - 1]);
      if HandedOff(cfg, s, es, i, j - 1, d) {
        HandedOffOn(cfg, s, es, i, j - 1, d);
      } else {
        ReservationPersists(cfg, before, es[j - 1], d);
        if !Reserves(Run(cfg, s, es[..j]), d) { HandedOffOn(cfg, s, es, i, j - 1, d); }
      }
    }
  }

  lemma StepOutcome(cfg: Settings, s: State, es: seq<Event>, i: nat)
    requires WellFormed(s) && i < |es|
    ensures OutcomeAt(cfg, s, es, i) == Next(cfg, Run(cfg, s, es[..i]), es[i]).outcome
  {
  }

  /** Two new approvals on one venue symbol, in any run, are separated by an applied authoritative
      snapshot that shows the first trade or was captured after its entry expired. */
  lemma ApprovalsSeparated(cfg: Settings, s: State, es: seq<Event>, i: nat, j: nat, d: Decision, x: Decision)
    requires Base(cfg, s) && i < j < |es|
    requires NewlyApproves(cfg, Run(cfg, s, es[..i]), es[i], d)
    requires NewlyApproves(cfg, Run(cfg, s, es[..j]), es[j], x)
    requires || d.venueSymbol == x.venueSymbol
             || (d.review.intent.strategyId == CANARY_STRATEGY && x.review.intent.strategyId == CANARY_STRATEGY)
    ensures HandedOff(cfg, s, es, i + 1, j, d)
  {
    hide Next, HandsOff, HandedOff, Reserves, OutcomeAt, NewlyApproves, LedgerInv, CacheInv, VenueInv, GateInv;
    RunBase(cfg, s, es[..i]);
    RunBase(cfg, s, es[..j]);
    RunStep(cfg, s, es, i);
    ApprovalReserves(cfg, Run(cfg, s, es[..i]), es[i], d);
    ReleasedInBetween(cfg, s, es, i + 1, j, d);
    if Reserves(Run(cfg, s, es[..j]), d) {
      ReservedBlocks(cfg, Run(cfg, s, es[..j]), es[j], d, x);
    }
  }

  lemma {:induction false} AtMostOneCanary(ds: seq<Decision>)
    requires forall i, j :: 0 <= i < j < |ds| ==> !(CanaryCount(ds[i]) == 1 && CanaryCount(ds[j]) == 1)
    ensures CanaryIdeas(ds) <= 1
    ensures CanaryIdeas(ds) == 1 ==> exists i :: 0 <= i < |ds| && CanaryCount(ds[i]) == 1
  {
    if ds != [] {
      var front := ds[..|ds| - 1];
      AtMostOneCanary(front);
      if CanaryIdeas(front) == 1 {
        var i :| 0 <= i < |front| && CanaryCount(front[i]) == 1;
        assert CanaryCount(ds[i]) == 1;
      }
    }
  }

  lemma OneCanary(m: OrderedMap<TradeId, Reservation>)
    requires m.Valid() && Apart(m.items)
    ensures CanaryIdeas(LedgerOf(m)) <= 1
  {
    var ds := LedgerOf(m);
    forall i, j | 0 <= i < j < |ds| ensures !(CanaryCount(ds[i]) == 1 && CanaryCount(ds[j]) == 1) {
      assert m.keys[i] in m.keys && m.keys[j] in m.keys;
      assert SideBySide(m.items[m.keys[i]].decision, m.items[m.keys[j]].decision);
    }
    AtMostOneCanary(ds);
  }

  lemma {:induction false} TotalsNonNegative(ds: seq<Decision>)
    ensures TotalLoss(ds) >= 0.0 && TotalNotional(ds) >= 0.0
    ensures forall k :: StrategyTotal(ds, k) >= 0.0
  {
    if ds != [] { TotalsNonNegative(ds[..|ds| - 1]); }
  }

  /** Every strategy with a reserved idea has a normalised name. */
  predicate StrategiesTrimmed(ds: seq<Decision>) {
    forall d :: d in ds ==> IsTrimmed(d.review.intent.strategyId)
  }

  lemma NamesAreStrategies(ds: seq<Decision>)
    requires forall d :: d in ds ==> d.approved
    ensures NamesValid(ViewOf(ds).strategyNotionalUsd.keys) <==> StrategiesTrimmed(ds)
  {
    TotalsHold(ds);
    hide IsTrimmed, TotalLoss, TotalNotional, StrategyTotal, CanaryIdeas, TotalsOf, Sum;
    forall k ensures k in TotalsOf(ds).keys <==> exists d :: d in ds && d.review.intent.strategyId == k {
      TotalsName(ds, k);
    }
  }

  lemma ReservedDecisions(cfg: Settings, s: State)
    requires Base(cfg, s)
    ensures forall d :: d in LedgerOf(s.reservations) ==> d.approved && d.venueSymbol in DEV_UNIVERSE
  {
    hide VenueInv, GateInv, CacheInv;
    LedgerMembers(s.reservations);
    forall d | d in LedgerOf(s.reservations) ensures d.approved && d.venueSymbol in DEV_UNIVERSE {
      var t :| t in s.reservations.items && s.reservations.items[t].decision == d;
      assert EntryInv(cfg, s.latestSeq, t, s.reservations.items[t]);
    }
  }

  /** The aggregate that an evaluation reads always adds up: it is refused exactly when an idea is reserved
      whose strategy name is not normalised. */
  lemma ViewIsValid(cfg: Settings, s: State)
    requires Base(cfg, s)
    ensures ReservationsValid(ViewOf(LedgerOf(s.reservations))) <==> StrategiesTrimmed(LedgerOf(s.reservations))
  {
    var ds := LedgerOf(s.reservations);
    var v := ViewOf(ds);
    ViewAggregates(ds);
    TotalsNonNegative(ds);
    ReservedDecisions(cfg, s);
    NamesAreStrategies(ds);
    assert v.symbols == SymbolsOf(ds) && Aggregates(v, ds);
    hide ViewOf, TotalLoss, TotalNotional, StrategyTotal, CanaryIdeas, LedgerOf, VenueInv, GateInv, Sum, TotalsOf, LedgerInv,
         NamesValid, StrategiesTrimmed;
    forall k | k in v.strategyNotionalUsd.items ensures v.strategyNotionalUsd.items[k] >= 0.0 {
      assert At(v.strategyNotionalUsd, k) == StrategyTotal(ds, k);
    }
  }

  /** Once an idea with such a name is reserved, nothing that is not a replay is decided. */
  lemma UntrimmedBlocks(cfg: Settings, s: State, q: Request)
    requires Base(cfg, s) && !StrategiesTrimmed(LedgerOf(s.reservations))
    requires q.review !in s.decisions.items || AdmissionFor(cfg, s, q) != []
    ensures EvaluateStep(cfg, s, q) ==
      Step(s, if s.RecoveryComplete() && VenueFor(s, q).Some? then Refused else Unavailable)
  {
    hide ViewOf, LedgerOf, StrategiesTrimmed, ReservationsValid, Decide, AdmissionFor, VenueFor, Record, LedgerInv, CacheInv,
         VenueInv, GateInv;
    ViewIsValid(cfg, s);
  }

  // ----- replay protection -----

  /** Every approval given anywhere is on the symbol its intent maps to and can be recovered there. */
  lemma ApprovedOnOwnSymbol(cfg: Settings, s: State, e: Event, d: Decision)
    requires WellFormed(s) && NewlyApproves(cfg, s, e, d)
    ensures OnOwnSymbol(d) && Recoverable(cfg, d)
  {
    NewApprovalIsFresh(cfg, s, e, d);
    FreshlyApproved(cfg, s, e.request, d);
    hide NewlyApproves, Fresh, DevSymbol, Recoverable;
  }

  /** Some coordinator once gave this approval. */
  ghost predicate ApprovedSomewhere(d: Decision) {
    exists cfg, s, e :: WellFormed(s) && NewlyApproves(cfg, s, e, d)
  }

  /** In every run from a fresh coordinator every reserved decision stays replayable, if no review was durably
      approved on two symbols; the aggregate adds up and only a reserved strategy name can make it refused. */
  lemma ReplayDiscipline(cfg: Settings, durable: set<Decision>, es: seq<Event>)
    requires OneSymbolPerReview(durable) && RestoresFrom(es, durable)
    ensures var n := Run(cfg, FRESH, es);
      && Replayable(n.reservations.items, n.decisions.items)
      && (ReservationsValid(ViewOf(LedgerOf(n.reservations))) <==> StrategiesTrimmed(LedgerOf(n.reservations)))
  {
    FreshStateRetained(cfg, durable);
    RunRetained(cfg, durable, FRESH, es);
    hide Run, ViewOf, ReservationsValid, LedgerOf, StrategiesTrimmed;
    ViewIsValid(cfg, Run(cfg, FRESH, es));
  }

  /** Whatever approvals given earlier are recovered, however many of them share a symbol, nothing that is
      reserved is ever forgotten. */
  lemma OwnApprovalsReplay(cfg: Settings, durable: set<Decision>, es: seq<Event>)
    requires RestoresFrom(es, durable) && forall d :: d in durable ==> ApprovedSomewhere(d)
    ensures OneSymbolPerReview(durable)
    ensures var n := Run(cfg, FRESH, es); Replayable(n.reservations.items, n.decisions.items)
  {
    hide NewlyApproves, OrderedMap.Valid, Run, OnOwnSymbol, OneSymbolPerReview;
    forall d | d in durable ensures OnOwnSymbol(d) {
      var c, s, e :| WellFormed(s) && NewlyApproves(c, s, e, d);
      ApprovedOnOwnSymbol(c, s, e, d);
    }
    OwnSymbolsAgree(durable);
    ReplayDiscipline(cfg, durable, es);
  }

  /** The memory bound: the cache never holds more than its size, the durable approvals, or the largest
      ledger of the run, whichever is most. */
  lemma {:induction false} CacheWithinBound(cfg: Settings, durable: set<Decision>, es: seq<Event>, most: nat)
    requires OneSymbolPerReview(durable) && RestoresFrom(es, durable)
    requires forall i :: 0 <= i <= |es| ==> |Run(cfg, FRESH, es[..i]).reservations.keys| <= most
    ensures |Run(cfg, FRESH, es).decisions.keys| <= CacheLimit(cfg, durable, most)
  {
    if es != [] {
      var front, e := es[..|es| - 1], es[|es| - 1];
      forall i | 0 <= i <= |front| ensures |Run(cfg, FRESH, front[..i]).reservations.keys| <= most {
        assert front[..i] == es[..i];
      }
      assert es[..|es|] == es;
      FreshStateRetained(cfg, durable);
      CacheWithinBound(cfg, durable, front, most);
      RunRetained(cfg, durable, FRESH, front);
      hide Next, OneSymbolPerReview, LedgerInv, CacheInv, VenueInv, GateInv, Replayable, OnlyDurable, CacheLimit;
      NextWithinBound(cfg, durable, Run(cfg, FRESH, front), e, most);
    }
  }

  /** From a fresh coordinator, with durable approvals that may stand side by side, reserved symbols
      stay pairwise distinct, reserved canaries stay at most one, and the cache stays within its size or
      the five symbols. */
  lemma LedgerDiscipline(cfg: Settings, durable: set<Decision>, es: seq<Event>)
    requires Compatible(durable) && RestoresFrom(es, durable)
    ensures var n := Run(cfg, FRESH, es);
      && Apart(n.reservations.items)
      && |n.decisions.keys| <= CacheBound(cfg)
      && CanaryIdeas(LedgerOf(n.reservations)) <= 1
  {
    FreshStateGuarded(cfg, durable);
    RunGuarded(cfg, durable, FRESH, es);
    var n := Run(cfg, FRESH, es);
    assert Guarded(cfg, durable, n);
    hide Run, SideBySide, Recoverable;
    OneCanary(n.reservations);
  }
}
