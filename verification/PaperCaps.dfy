/** Caps, once a new approval is part of the re-aggregated ledger. */
module PaperCaps {
  import opened Contracts
  import opened PaperPipeline
  import opened PaperPolicy
  import opened PaperState
  import opened PaperInvariants
  import opened PaperRuns
  import opened CanaryInstrument

  /** The ledger aggregated `after` an approval of `notional` fits the caps the approval was sized against. */
  ghost predicate LedgerWithinCaps(cfg: Settings, x: Inputs, after: Reservations, notional: real, slack: real)
    requires x.account.Some? && x.Capital(cfg).metrics.Some?
  {
    var m, al, leverage := x.Measured().value, x.Capital(cfg).metrics.value, TermsOf(cfg, x).leverage;
    && notional <= cfg.maxPositionNotionalUsd + slack
    && notional <= x.venue.assessedNotionalUsd + slack
    && notional <= x.venue.depthUsd + slack
    && after.notionalUsd <= MarginCap(m, al, leverage) + slack
    && m.grossNotionalUsd + after.notionalUsd <= GrossCap(m, al) + slack
    && m.strategyNotionalUsd + At(after.strategyNotionalUsd, al.strategyId) <= StrategyCap(m, al) + slack
  }

  /** Aggregating one more approval moves the ledger by exactly its notional. */
  lemma Reaggregated(cfg: Settings, x: Inputs, ds: seq<Decision>, d: Decision, slack: real)
    requires x.account.Some? && x.Capital(cfg).metrics.Some?
    requires x.reservations == ViewOf(ds) && d.approved && d.review == x.review
    ensures LedgerWithinCaps(cfg, x, ViewOf(ds + [d]), d.notionalUsd, slack) <==> WithinCaps(cfg, x, d.notionalUsd - slack)
  {
    hide ViewOf, TotalLoss, TotalNotional, StrategyTotal, TermsOf, CapitalGate, MarginCap, GrossCap, StrategyCap, At,
         Inputs.Capital, Inputs.Measured;
    var strategy := d.review.intent.strategyId;
    CapitalStrategy(cfg, x);
    TotalsAppend(ds, d);
    StrategyTotalAppend(ds, d);
    ViewTotals(ds, strategy);
    ViewTotals(ds + [d], strategy);
  }

  /** The ledger that includes a new approval fits every cap if and only if the approval was within the remaining
      room: always outside the canary, and up to the canary's slack as long as there was computed capacity. */
  lemma ApprovalReaggregates(cfg: Settings, s: State, q: Request, d: Decision)
    requires Base(cfg, s) && Fresh(cfg, s, q, d) && d.approved
    ensures WellFormed(Record(cfg, s, d))
    ensures var x := InputsFor(cfg, s, q, VenueFor(s, q).value);
      && x.account.Some? && x.Capital(cfg).metrics.Some?
      && var after := ViewOf(LedgerOf(Record(cfg, s, d).reservations));
      && (LedgerWithinCaps(cfg, x, after, d.notionalUsd, 0.0) <==> d.notionalUsd <= Room(cfg, x))
      && (d.review.intent.strategyId != CANARY_STRATEGY ==> LedgerWithinCaps(cfg, x, after, d.notionalUsd, 0.0))
      && (CapacityOf(cfg, x) > 0.0 ==> LedgerWithinCaps(cfg, x, after, d.notionalUsd, SlackUsd(x)))
  {
    hide Decide, Approves, Record, ViewOf, Recoverable, VenueFor, AdmissionFor, LedgerInv, CacheInv, VenueInv, GateInv, TermsOf,
         CapacityOf, CapitalGate, LedgerOf, InputsFor, SlackUsd, Room, WithinCaps, LedgerWithinCaps, BoundQuantity,
         Inputs.Capital, Inputs.Entry, Inputs.Measured;
    var v := VenueFor(s, q).value;
    var x := InputsFor(cfg, s, q, v);
    FreshlyApproved(cfg, s, q, d);
    ApprovalWithinCaps(cfg, x, d);
    ApprovalExposure(cfg, s, q, d);
    ReadsNotional(cfg, s, q, v);
    Reaggregated(cfg, x, LedgerOf(s.reservations), d, 0.0);
    Reaggregated(cfg, x, LedgerOf(s.reservations), d, SlackUsd(x));
  }

  lemma ReadsNotional(cfg: Settings, s: State, q: Request, v: Venue)
    requires s.reservations.Valid()
    ensures InputsFor(cfg, s, q, v).reservations == ViewOf(LedgerOf(s.reservations)) && InputsFor(cfg, s, q, v).review == q.review
  {
    hide ViewOf, AdmissionFor;
  }

  lemma ViewTotals(ds: seq<Decision>, strategy: string)
    ensures ViewOf(ds).notionalUsd == TotalNotional(ds)
    ensures At(ViewOf(ds).strategyNotionalUsd, strategy) == StrategyTotal(ds, strategy)
  {
    hide TotalNotional, StrategyTotal, TotalLoss, CanaryIdeas, At;
    ViewAggregates(ds);
  }

  lemma CapitalStrategy(cfg: Settings, x: Inputs)
    ensures x.Capital(cfg).metrics.Some? ==> x.Capital(cfg).metrics.value.strategyId == x.review.intent.strategyId
  {
    hide BindingValid, AllocationReasons;
  }
}
