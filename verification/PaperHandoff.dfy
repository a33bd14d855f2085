/** Hand-off of reservations, replay, recovery order, regime poison and the account gate. */
module PaperHandoff {
  import opened Common
  import opened Contracts
  import opened PaperPipeline
  import opened PaperState
  import opened PaperInvariants
  import opened PaperReplay
  import opened PaperRuns

  // ----- hand-off to reconciliation -----

  /** The snapshot advances the sequence without moving capture time backwards. */
  predicate Advances(s: State, a: Account) {
    && (s.latestSeq.Some? ==> a.reconciliationSeq > s.latestSeq.value)
    && (s.latestCapturedAtMs.Some? ==> a.capturedAtMs >= s.latestCapturedAtMs.value)
  }

  function OwnedTrades(s: State, a: Account): set<TradeId> {
    set t | t in s.reservations.items && Owned(t, a)
  }

  function ExpiredTrades(s: State, a: Account): set<TradeId> {
    set t | t in s.reservations.items && ExpiredUnseen(t, s.reservations.items[t], a)
  }

  /** An accepted authoritative snapshot splits the ledger into kept, owned and expired, or, on any
      lineage conflict, removes nothing and revokes authority. */
  lemma HandoffPartition(cfg: Settings, s: State, a: Account)
    requires s.reservations.Valid() && AccountStanding(cfg, a) && Advances(s, a)
    ensures var n := ApplyAccount(cfg, s, a);
      var owned, expired, kept := OwnedTrades(s, a), ExpiredTrades(s, a), n.state.reservations.items.Keys;
      if AnyConflict(s.reservations, a) then
        n.outcome == Refused && n.state.reservations == s.reservations && n.state.account == None && !n.state.RecoveryComplete()
      else
        && n.outcome == Applied && n.state.account == Some(a) && n.state.accountReady
        && kept + owned + expired == s.reservations.items.Keys
        && owned !! expired && kept !! owned && kept !! expired
        && (forall t :: t in kept ==> n.state.reservations.items[t] == s.reservations.items[t])
        && n.state.reservations.keys == Without(s.reservations.keys, owned + expired)
        && (forall p :: p in a.positions && p.lineage.trade in s.reservations.items ==>
              PositionMatches(s.reservations.items[p.lineage.trade].decision, p))
  {
    hide PositionMatches, LineageMatches, AccountStanding, OrderedMap.Valid, Represented, Owned;
    var released := ReleasedTrades(s.reservations, a);
    assert released == OwnedTrades(s, a) + ExpiredTrades(s, a);
    OwnedIsRepresented(a);
    if !AnyConflict(s.reservations, a) {
      forall p | p in a.positions && p.lineage.trade in s.reservations.items
        ensures PositionMatches(s.reservations.items[p.lineage.trade].decision, p)
      {
        assert !Conflicts(p.lineage.trade, s.reservations.items[p.lineage.trade], a);
      }
    }
  }

  lemma OwnedIsRepresented(a: Account)
    ensures forall t :: Owned(t, a) ==> Represented(t, a)
  {
  }

  /** Every reservation an authoritative snapshot reconciles was made under a smaller sequence. */
  lemma ReconcilesLaterOnly(cfg: Settings, s: State, a: Account, t: TradeId)
    requires Base(cfg, s) && AccountStanding(cfg, a) && Advances(s, a) && t in s.reservations.items
    ensures s.reservations.items[t].reconciliationSeq < a.reconciliationSeq
  {
    assert EntryInv(cfg, s.latestSeq, t, s.reservations.items[t]);
    hide Recoverable, OrderedMap.Valid, VenueInv, CacheInv;
  }

  /** Until recovery completes, every reservation is a recovered one and carries no sequence. */
  ghost predicate Unnumbered(s: State) {
    !s.durableLoaded ==> forall t :: t in s.reservations.items ==> s.reservations.items[t].reconciliationSeq == 0
  }

  lemma {:induction false} RememberAllUnnumbered(cfg: Settings, s: State, ds: seq<Decision>)
    requires Unnumbered(s) && !s.durableLoaded
    ensures !RememberAll(cfg, s, ds).state.durableLoaded && Unnumbered(RememberAll(cfg, s, ds).state)
  {
    if ds != [] {
      hide RememberAll, Recoverable, ClashesWith;
      RememberAllUnnumbered(cfg, s, ds[..|ds| - 1]);
      RememberAllStep(cfg, s, ds);
      Remembered(RememberAll(cfg, s, ds[..|ds| - 1]).state, ds[|ds| - 1]);
    }
  }

  lemma NextUnnumbered(cfg: Settings, s: State, e: Event)
    requires WellFormed(s) && Unnumbered(s)
    ensures Unnumbered(Next(cfg, s, e).state)
  {
    hide ApplyAccount, ApplyVenue, ApplyRegime, Restore, EvaluateStep, OrderedMap.Valid;
    match e {
      case AccountEvent(a) => AccountKeeps(cfg, s, a);
      case VenueEvent(v) => VenueKeeps(s, v);
      case RegimeEvent(b, receivedAtMs) => RegimeKeeps(cfg, s, b, receivedAtMs);
      case RestoreEvent(ds) =>
        RestoreKeeps(cfg, s, ds);
        if !s.durableLoaded { RememberAllUnnumbered(cfg, s, ds); }
      case EvaluateEvent(q) => EvaluationKeeps(cfg, s, q);
    }
  }

  lemma {:induction false} RunUnnumbered(cfg: Settings, es: seq<Event>)
    ensures Unnumbered(Run(cfg, FRESH, es))
  {
    if es != [] {
      RunUnnumbered(cfg, es[..|es| - 1]);
      hide Next, OrderedMap.Valid;
      NextUnnumbered(cfg, Run(cfg, FRESH, es[..|es| - 1]), es[|es| - 1]);
    }
  }

  /** The same for the reconciliation that recovery itself triggers when an authoritative account is already
      there: whatever preceded it, each reservation it reconciles has a smaller sequence than that account. */
  lemma RecoveryReconcilesLater(cfg: Settings, es: seq<Event>, ds: seq<Decision>, t: TradeId)
    requires var s := Run(cfg, FRESH, es);
      && !s.durableLoaded && s.account.Some? && AccountStanding(cfg, s.account.value)
      && t in RememberAll(cfg, s, ds).state.reservations.items
    ensures var s := Run(cfg, FRESH, es);
      RememberAll(cfg, s, ds).state.reservations.items[t].reconciliationSeq < s.account.value.reconciliationSeq
  {
    RunUnnumbered(cfg, es);
    hide Run, RememberAll;
    RememberAllUnnumbered(cfg, Run(cfg, FRESH, es), ds);
  }

  // ----- the account gate over runs -----

  predicate NotBehind(before: Option<int>, after: Option<int>) {
    before.Some? ==> after.Some? && before.value <= after.value
  }

  /** What a step may do to the account: keep it, drop it, or adopt one that advances. */
  ghost predicate GateMoves(s: State, e: Event, n: State) {
    && NotBehind(s.latestSeq, n.latestSeq) && NotBehind(s.latestCapturedAtMs, n.latestCapturedAtMs)
    && (n.account.Some? && n.account != s.account ==> e.AccountEvent? && n.account == Some(e.account) && Advances(s, e.account))
  }

  lemma AccountMoves(cfg: Settings, s: State, a: Account)
    ensures GateMoves(s, AccountEvent(a), ApplyAccount(cfg, s, a).state)
  {
    hide AccountStanding, Reconcile;
    var adopted := s.(latestSeq := Some(a.reconciliationSeq), latestCapturedAtMs := Some(a.capturedAtMs),
                      account := Some(a), accountReady := AccountStanding(cfg, a));
    ReconcileKeeps(adopted, a);
  }

  lemma StillGate(s: State, e: Event, n: State)
    requires n.latestSeq == s.latestSeq && n.latestCapturedAtMs == s.latestCapturedAtMs
    requires n.account == None || n.account == s.account
    ensures GateMoves(s, e, n)
  {
  }

  lemma GateStep(cfg: Settings, s: State, e: Event)
    requires WellFormed(s)
    ensures GateMoves(s, e, Next(cfg, s, e).state)
  {
    hide OrderedMap.Valid, ApplyAccount, ApplyVenue, ApplyRegime, Restore, EvaluateStep, GateMoves;
    match e {
      case AccountEvent(a) => AccountMoves(cfg, s, a);
      case VenueEvent(v) => VenueKeeps(s, v);
      case RegimeEvent(b, receivedAtMs) => RegimeKeeps(cfg, s, b, receivedAtMs);
      case RestoreEvent(ds) => RestoreFrame(cfg, s, ds);
      case EvaluateEvent(q) => EvaluationKeeps(cfg, s, q);
    }
    if !e.AccountEvent? { StillGate(s, e, Next(cfg, s, e).state); }
  }

  /** In every run the gate is open exactly for a current authoritative account, which carries the
      newest sequence and capture time; neither ever decreases. */
  lemma {:induction false} GateDiscipline(cfg: Settings, es: seq<Event>, i: nat)
    requires i <= |es|
    ensures Base(cfg, FRESH)
    ensures var early, late := Run(cfg, FRESH, es[..i]), Run(cfg, FRESH, es);
      && GateInv(cfg, late)
      && NotBehind(early.latestSeq, late.latestSeq) && NotBehind(early.latestCapturedAtMs, late.latestCapturedAtMs)
  {
    FreshStateRetained(cfg, {});
    RunBase(cfg, FRESH, es);
    hide Next, LedgerInv, CacheInv, VenueInv, GateInv, OrderedMap.Valid;
    if i < |es| {
      var front := es[..|es| - 1];
      assert front[..i] == es[..i];
      GateDiscipline(cfg, front, i);
      RunBase(cfg, FRESH, front);
      GateStep(cfg, Run(cfg, FRESH, front), es[|es| - 1]);
    } else {
      assert es[..i] == es;
    }
  }

  /** Once authority is lost at a sequence, only a greater one brings it back: until then the account
      stays absent and every evaluation is unavailable. */
  lemma {:induction false} PoisonedSequenceStaysShut(cfg: Settings, s: State, es: seq<Event>)
    requires Base(cfg, s) && s.account.None? && s.latestSeq.Some?
    requires forall i :: 0 <= i < |es| && es[i].AccountEvent? ==> es[i].account.reconciliationSeq <= s.latestSeq.value
    ensures var n := Run(cfg, s, es);
      && n.account.None? && !n.RecoveryComplete()
      && forall q :: EvaluateStep(cfg, n, q) == Step(n, Unavailable)
  {
    RunBase(cfg, s, es);
    if es != [] {
      var front, e := es[..|es| - 1], es[|es| - 1];
      forall i | 0 <= i < |front| && front[i].AccountEvent?
        ensures front[i].account.reconciliationSeq <= s.latestSeq.value
      {
        assert front[i] == es[i];
      }
      PoisonedSequenceStaysShut(cfg, s, front);
      RunBase(cfg, s, front);
      SequenceAlong(cfg, s, front);
      hide Next, LedgerInv, CacheInv, VenueInv, OrderedMap.Valid, EvaluateStep, AccountStanding;
      GateStep(cfg, Run(cfg, s, front), e);
      ShutEvaluation(cfg, Run(cfg, s, es));
    } else {
      ShutEvaluation(cfg, s);
    }
  }

  lemma ShutEvaluation(cfg: Settings, s: State)
    requires Base(cfg, s)
    ensures s.account.None? ==> !s.RecoveryComplete() && forall q :: EvaluateStep(cfg, s, q) == Step(s, Unavailable)
  {
    hide LedgerInv, CacheInv, VenueInv, OrderedMap.Valid, Decide, AdmissionFor;
  }

  lemma {:induction false} SequenceAlong(cfg: Settings, s: State, es: seq<Event>)
    requires Base(cfg, s)
    ensures NotBehind(s.latestSeq, Run(cfg, s, es).latestSeq)
  {
    if es != [] {
      hide Next, LedgerInv, CacheInv, VenueInv, GateInv, OrderedMap.Valid;
      SequenceAlong(cfg, s, es[..|es| - 1]);
      RunBase(cfg, s, es[..|es| - 1]);
      GateStep(cfg, Run(cfg, s, es[..|es| - 1]), es[|es| - 1]);
    }
  }

  // ----- replay -----

  /** Re-evaluating a reserved review returns its decision or finds authority missing. */
  lemma ReservedReplays(cfg: Settings, durable: set<Decision>, s: State, q: Request, d: Decision)
    requires Retained(cfg, durable, s) && Reserves(s, d)
    requires q.review == d.review && AdmissionFor(cfg, s, q) == []
    ensures EvaluateStep(cfg, s, q).outcome == (if s.RecoveryComplete() then Decided(d) else Unavailable)
    ensures EvaluateStep(cfg, s, q).state.reservations == s.reservations
  {
    hide Base, Decide, AdmissionFor;
  }

  /** Whatever happened since it was reserved, approved in this run or recovered, a decision is replayed
      unchanged until an applied snapshot takes the idea over. */
  lemma ReplayAcrossRuns(
    cfg: Settings, durable: set<Decision>, es: seq<Event>, i: nat, j: nat, d: Decision, q: Request)
    requires OneSymbolPerReview(durable) && RestoresFrom(es, durable) && i <= j <= |es|
    requires Run(cfg, FRESH, es[..i]).durableLoaded && Reserves(Run(cfg, FRESH, es[..i]), d)
    requires !HandedOff(cfg, FRESH, es, i, j, d)
    requires q.review == d.review && q.admission == [] && !RegimePoisoned(Run(cfg, FRESH, es[..j]), d.review.intent)
    ensures var n := Run(cfg, FRESH, es[..j]);
      EvaluateStep(cfg, n, q).outcome == (if n.RecoveryComplete() then Decided(d) else Unavailable)
  {
    FreshStateRetained(cfg, durable);
    hide Next, HandedOff, Reserves, LedgerInv, CacheInv, VenueInv, GateInv, EvaluateStep, OneSymbolPerReview,
         Replayable, OnlyDurable;
    assert RestoresFrom(es[..j], durable);
    RunRetained(cfg, durable, FRESH, es[..j]);
    ReleasedInBetween(cfg, FRESH, es, i, j, d);
    ReservedReplays(cfg, durable, Run(cfg, FRESH, es[..j]), q, d);
  }

  /** In particular every approval is replayed from the step that gave it. */
  lemma ApprovalReplays(
    cfg: Settings, durable: set<Decision>, es: seq<Event>, i: nat, j: nat, d: Decision, q: Request)
    requires OneSymbolPerReview(durable) && RestoresFrom(es, durable) && i < j <= |es|
    requires NewlyApproves(cfg, Run(cfg, FRESH, es[..i]), es[i], d)
    requires !HandedOff(cfg, FRESH, es, i + 1, j, d)
    requires q.review == d.review && q.admission == [] && !RegimePoisoned(Run(cfg, FRESH, es[..j]), d.review.intent)
    ensures var n := Run(cfg, FRESH, es[..j]);
      EvaluateStep(cfg, n, q).outcome == (if n.RecoveryComplete() then Decided(d) else Unavailable)
  {
    FreshStateRetained(cfg, durable);
    hide Next, HandedOff, Reserves, NewlyApproves, LedgerInv, CacheInv, VenueInv, GateInv, EvaluateStep, OneSymbolPerReview;
    RunBase(cfg, FRESH, es[..i]);
    RunStep(cfg, FRESH, es, i);
    ApprovalReserves(cfg, Run(cfg, FRESH, es[..i]), es[i], d);
    ReplayAcrossRuns(cfg, durable, es, i + 1, j, d, q);
  }
}
