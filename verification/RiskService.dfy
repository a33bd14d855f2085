/** The service object: message handlers that update its authorities in place, and the review handler. */
module RiskServices {
  import opened Common
  import opened Contracts
  import opened PaperState
  import opened PaperInvariants
  import opened PaperRuntime
  import opened LegacyAuthority
  import opened HealthMode
  import opened ServiceState

  class RiskService {
    const cfg: Settings
    const scoped: bool
    const paper: PaperRiskCoordinator
    const breakers: CircuitBreakerRegistry

    var accountSnapshot: Option<LegacySnapshot>
    var latestAccountCapturedAt: Option<int>
    var strategicAllocation: Option<StrategicAllocation>
    var latestAllocationProducedAt: Option<int>

    ghost function Repr(): set<object>
      reads this, paper, breakers, breakers.Repr()
    {
      {this, paper} + breakers.Repr()
    }

    ghost predicate Valid()
      reads Repr()
    {
      && this !in breakers.Repr() && (paper as object) !in breakers.Repr()
      && breakers.Valid()
      && paper.cfg == cfg && paper.Valid()
    }

    ghost function View(): Service
      reads Repr()
    {
      Service(paper.View(), AccountAuthority(accountSnapshot, latestAccountCapturedAt),
              CapitalAuthority(strategicAllocation, latestAllocationProducedAt), breakers.View())
    }

    /** `scoped` says whether the operator scope could be loaded. */
    constructor (cfg: Settings, scoped: bool, maxFailures: nat, cooldownS: real)
      ensures Valid() && fresh(Repr()) && this.cfg == cfg && this.scoped == scoped
      ensures View() == Service(FRESH, AccountAuthority(None, None), CapitalAuthority(None, None),
                                HandleAll(maxFailures, cooldownS, []))
    {
      hide HandleAll, WellFormed, CircuitBreakerRegistry.Valid, CircuitBreakerRegistry.View;
      this.cfg, this.scoped := cfg, scoped;
      paper := new PaperRiskCoordinator(cfg);
      breakers := new CircuitBreakerRegistry(maxFailures, cooldownS);
      accountSnapshot, latestAccountCapturedAt := None, None;
      strategicAllocation, latestAllocationProducedAt := None, None;
    }

    // ----- legacy account snapshots and strategic allocations -----

    function Accounts(): AccountAuthority
      reads this
    {
      AccountAuthority(accountSnapshot, latestAccountCapturedAt)
    }

    function Capital(): CapitalAuthority
      reads this
    {
      CapitalAuthority(strategicAllocation, latestAllocationProducedAt)
    }

    /** Applies one full snapshot; what was changed before a raise stays changed. */
    method ApplySnapshot(snapshot: LegacySnapshot) returns (raised: bool)
      modifies this`accountSnapshot, this`latestAccountCapturedAt
      ensures Handled(Accounts(), raised) == HandleAccount(old(Accounts()), snapshot)
    {
      hide AccountStateValid, ForeignPosition;
      var content := snapshot.content;
      if content.capturedAt.None? || exists i | 0 <= i < |content.positions| :: !content.positions[i].capturedAware {
        return true;
      }
      var latest := latestAccountCapturedAt;
      if latest.Some? && content.capturedAt.value < latest.value {
        return false;
      }
      if latest == content.capturedAt {
        if !content.reconciled && accountSnapshot.Some? {
          accountSnapshot := None;
        } else if content.reconciled && accountSnapshot.Some? {
          if content != accountSnapshot.value.content {
            accountSnapshot := None;
          }
        }
        return false;
      }
      if !content.reconciled {
        latestAccountCapturedAt := content.capturedAt;
        accountSnapshot := None;
        return false;
      }
      if exists i | 0 <= i < |content.positions| :: ForeignPosition(content, content.positions[i]) {
        latestAccountCapturedAt := content.capturedAt;
        accountSnapshot := None;
        return true;
      }
      if !AccountStateValid(content) {
        latestAccountCapturedAt := content.capturedAt;
        accountSnapshot := None;
        return true;
      }
      latestAccountCapturedAt := content.capturedAt;
      accountSnapshot := Some(snapshot);
      raised := false;
    }

    /** The consumer drops authority whenever handling raises. */
    method ConsumeSnapshot(snapshot: LegacySnapshot)
      modifies this`accountSnapshot, this`latestAccountCapturedAt
      ensures Accounts() == ConsumeAccount(old(Accounts()), snapshot)
    {
      hide HandleAccount;
      var raised := ApplySnapshot(snapshot);
      if raised {
        accountSnapshot := None;
      }
    }

    method ApplyAllocation(allocation: StrategicAllocation) returns (raised: bool)
      modifies this`strategicAllocation, this`latestAllocationProducedAt
      ensures Handled(Capital(), raised) == HandleAllocation(old(Capital()), allocation)
    {
      hide AllocationInvalid, PolicyOf;
      if allocation.producedAtMs.None? {
        strategicAllocation := None;
        return true;
      }
      var latest := latestAllocationProducedAt;
      if latest.Some? && allocation.producedAtMs.value < latest.value {
        return false;
      }
      if AllocationInvalid(allocation) {
        if latest.None? || allocation.producedAtMs.value > latest.value {
          latestAllocationProducedAt := allocation.producedAtMs;
        }
        strategicAllocation := None;
        return true;
      }
      if latest == allocation.producedAtMs {
        if strategicAllocation.None? {
          return false;
        }
        if PolicyOf(allocation) != PolicyOf(strategicAllocation.value) {
          strategicAllocation := None;
        }
        return false;
      }
      latestAllocationProducedAt := allocation.producedAtMs;
      strategicAllocation := Some(allocation);
      raised := false;
    }

    method TakeAllocation(allocation: StrategicAllocation)
      modifies this`strategicAllocation, this`latestAllocationProducedAt
      ensures Capital() == ConsumeAllocation(old(Capital()), allocation)
    {
      hide HandleAllocation;
      var raised := ApplyAllocation(allocation);
      if raised {
        strategicAllocation := None;
      }
    }

    // ----- health signals -----

    /** Recovers a model and, when the success speaks for it, its provider. */
    method RecordLlmSuccess(e: HealthEvent)
      requires Valid()
      modifies breakers.Repr()
      ensures Valid() && fresh(Repr() - old(Repr()))
      ensures View() == old(View()).(health := Success(old(View()).health, e))
    {
      hide NormalizeProvider, InferProvider, Registry.PassModel, Registry.PassProvider, CircuitBreakerRegistry.Valid,
           CircuitBreakerRegistry.View, WellFormed;
      var resolved := Resolved(e);
      if e.model in KNOWN_MODELS && resolved.Some? && Some(NormalizeProvider(resolved.value)) != InferProvider(e.model) {
        return;
      }
      breakers.RecordSuccess(e.model);
      if resolved.Some? && resolved.value != "" && e.model in CURRENT_MODELS {
        breakers.RecordProviderSuccess(resolved.value);
      }
    }

    /** Feeds one signal into the breakers and reads the resulting mode. */
    method ApplyHealthEvent(e: HealthEvent) returns (mode: SystemMode)
      requires Valid()
      modifies breakers.Repr()
      ensures Valid() && fresh(Repr() - old(Repr()))
      ensures View() == old(View()).(health := Handle(old(View()).health, e))
      ensures mode == ModeOf(View().health)
    {
      hide NormalizeProvider, InferProvider, Registry.FailModel, Registry.FailProvider, CircuitBreakerRegistry.Valid,
           CircuitBreakerRegistry.View, WellFormed, Success, ReadRegistry, ModeOf;
      if e.ok {
        RecordLlmSuccess(e);
      } else {
        if e.kind in MODEL_OUTAGE_KINDS {
          breakers.RecordFailure(e.model, e.failureAt);
        }
        var resolved := Resolved(e);
        if resolved.Some? && NormalizeProvider(resolved.value) == OPENAI && e.kind in PROVIDER_OUTAGE_KINDS {
          breakers.RecordProviderFailure(resolved.value, e.providerAt);
        }
      }
      ReadKeepsMode(if e.ok then Success(old(View()).health, e) else Outage(old(View()).health, e), e.readAt);
      mode := breakers.SystemModeAt(e.readAt);
    }

    // ----- deliveries by the other consumers -----

    method ApplyPaperEvent(e: Event) returns (r: Outcome)
      requires Valid()
      modifies paper
      ensures Valid() && Repr() == old(Repr())
      ensures Step(paper.View(), r) == Next(cfg, old(paper.View()), e)
      ensures View() == old(View()).(paper := paper.View())
    {
      hide ApplyAccount, ApplyVenue, ApplyRegime, Restore, EvaluateStep, CircuitBreakerRegistry.Valid,
           CircuitBreakerRegistry.View, WellFormed;
      match e
      case AccountEvent(a) => r := paper.ApplyAccountSnapshot(a);
      case VenueEvent(v) => r := paper.ApplyVenueQuality(v);
      case RegimeEvent(b, receivedAtMs) => r := paper.ApplyRegimeAllocation(b, receivedAtMs);
      case RestoreEvent(ds) => r := paper.RestoreReservations(ds);
      case EvaluateEvent(q) => r := paper.Evaluate(q);
    }

    method Receive(m: Message)
      requires Valid()
      modifies Repr()
      ensures Valid() && fresh(Repr() - old(Repr()))
      ensures View() == Deliver(cfg, old(View()), m)
    {
      hide Next, ConsumeAccount, ConsumeAllocation, Handle, CircuitBreakerRegistry.Valid, CircuitBreakerRegistry.View,
           WellFormed, ModeOf;
      match m
      case PaperDelivery(e) => var r := ApplyPaperEvent(e);
      case AccountDelivery(a) => ConsumeSnapshot(a);
      case AllocationDelivery(a) => TakeAllocation(a);
      case HealthDelivery(e) => var mode := ApplyHealthEvent(e);
    }

    method ReceiveAll(ms: seq<Message>)
      requires Valid()
      modifies Repr()
      ensures Valid() && fresh(Repr() - old(Repr()))
      ensures View() == DeliverAll(cfg, old(View()), ms)
    {
      hide Deliver, WellFormed, CircuitBreakerRegistry.Valid, CircuitBreakerRegistry.View;
      for i := 0 to |ms|
        invariant Valid() && fresh(Repr() - old(Repr()))
        invariant View() == DeliverAll(cfg, old(View()), ms[..i])
      {
        assert ms[..i + 1][..i] == ms[..i];
        Receive(ms[i]);
      }
      assert ms[..|ms|] == ms;
    }

    // ----- reviews -----

    /** Reads the operator's control and, for a canary, consumes its durable arm at most once. */
    method ReadAuthority(review: Review, t: Turn, p: Progress)
      returns (q: Progress, operator: Option<int>, decidedAtMs: int, arm: Option<ArmAnswer>)
      requires Valid()
      modifies Repr()
      ensures Valid() && fresh(Repr() - old(Repr()))
      ensures Stage(View(), q, operator, decidedAtMs, arm) == Admit(cfg, scoped, review, old(View()), p, t)
    {
      hide DeliverAll, WellFormed, CircuitBreakerRegistry.Valid, CircuitBreakerRegistry.View, SortedSet, IsCanary;
      var allocation, rejections, armChecked := p.allocation, p.rejections, p.armChecked;
      decidedAtMs, operator, arm := t.observedNowMs, None, None;
      if scoped {
        ReceiveAll(t.asking);
        operator := t.operator;
      }
      if operator.None? {
        rejections := SortedSet(rejections + ["operator_control_unavailable"]);
      }
      if IsCanary(review) && !armChecked && operator.Some? {
        ReceiveAll(t.consuming);
        arm := Some(t.arm);
        if !t.arm.ArmFails? {
          armChecked := true;
        }
        match t.arm
        case ArmMissing => rejections := ["technical_canary_arm_missing"];
        case ArmInvalid => rejections := ["technical_canary_arm_invalid"];
        case ArmValid(a, at) => allocation, decidedAtMs := Some(a), at;
        case ArmFails =>
      }
      q := Progress(allocation, rejections, armChecked);
    }

    /** Reads the system mode and asks the coordinator. */
    method Ask(review: Review, p: Progress, decidedAtMs: int, rejections: seq<string>, readAt: real)
      returns (q: Request, r: Outcome)
      requires Valid()
      modifies Repr()
      ensures Valid() && fresh(Repr() - old(Repr()))
      ensures q == RequestFor(review, old(View()), p, decidedAtMs, rejections)
      ensures Judged(View(), r) == Judge(cfg, old(View()), q, readAt)
    {
      hide EvaluateStep, WellFormed, CircuitBreakerRegistry.Valid, CircuitBreakerRegistry.View, ModeOf, ReadRegistry, IsCanary;
      var mode := breakers.SystemModeAt(readAt);
      q := Request(review, if IsCanary(review) then p.allocation else strategicAllocation, decidedAtMs, mode, rejections);
      r := paper.Evaluate(q);
    }

    /** Evaluates and binds; an approval that cannot be bound is evaluated again with a rejection reason. */
    method EvaluateAndBind(
      review: Review, t: Turn, p: Progress, operator: Option<int>, decidedAtMs: int, arm: Option<ArmAnswer>)
      returns (ending: Option<Ending>, attempt: Attempt)
      requires Valid()
      modifies Repr()
      ensures Valid() && fresh(Repr() - old(Repr()))
      ensures Turned(View(), p, ending, [attempt]) == Conclude(cfg, review, Stage(old(View()), p, operator, decidedAtMs, arm), t)
    {
      hide DeliverAll, WellFormed, CircuitBreakerRegistry.Valid, CircuitBreakerRegistry.View, EvaluateStep, RequestFor;
      var before := paper.View();
      var q, r := Ask(review, p, decidedAtMs, p.rejections, t.modeReadAt);
      attempt := Attempt(operator, arm, Some(Evaluation(before, q, r)), None, None);
      if r.Decided? && r.decision.approved {
        if operator.Some? {
          ReceiveAll(t.binding);
          attempt := attempt.(binding := Some(Binding(r.decision, operator.value, t.bound)));
        }
        if operator.None? || !t.bound {
          before := paper.View();
          q, r := Ask(review, p, decidedAtMs, ["operator_control_changed"], t.againReadAt);
          attempt := attempt.(revision := Some(Evaluation(before, q, r)));
        }
      }
      ending := EndingOf(r);
    }

    /** One pass of the retry loop. */
    method Pass(review: Review, t: Turn, p: Progress) returns (q: Progress, ending: Option<Ending>, attempts: seq<Attempt>)
      requires Valid()
      modifies Repr()
      ensures Valid() && fresh(Repr() - old(Repr()))
      ensures Turned(View(), q, ending, attempts) == TakeTurn(cfg, scoped, review, old(View()), p, t)
    {
      hide DeliverAll, WellFormed, CircuitBreakerRegistry.Valid, CircuitBreakerRegistry.View, Admit, Conclude, InputsReady;
      ReceiveAll(t.waiting);
      if !InputsReady(cfg, paper.View(), review) {
        return p, Some(DeadlinePassed), [];
      }
      var operator, decidedAtMs, arm;
      q, operator, decidedAtMs, arm := ReadAuthority(review, t, p);
      if arm == Some(ArmFails) {
        return q, Some(Failed), [Attempt(operator, arm, None, None, None)];
      }
      var attempt;
      ending, attempt := EvaluateAndBind(review, t, q, operator, decidedAtMs, arm);
      attempts := [attempt];
    }

    /** Handles one review: retries while inputs lapse, and publishes at most one decision. */
    method HandlePaperReview(review: Review, turns: seq<Turn>) returns (ending: Ending, attempts: seq<Attempt>)
      requires Valid()
      modifies Repr()
      ensures Valid() && fresh(Repr() - old(Repr()))
      ensures Report(View(), ending, attempts) == HandleReview(cfg, scoped, review, old(View()), UNSTARTED, turns)
    {
      hide WellFormed, CircuitBreakerRegistry.Valid, CircuitBreakerRegistry.View, TakeTurn;
      var p := UNSTARTED;
      attempts := [];
      for i := 0 to |turns|
        invariant Valid() && fresh(Repr() - old(Repr()))
        invariant var rest := HandleReview(cfg, scoped, review, View(), p, turns[i..]);
          HandleReview(cfg, scoped, review, old(View()), UNSTARTED, turns) == rest.(attempts := attempts + rest.attempts)
      {
        assert turns[i..][0] == turns[i] && turns[i..][1..] == turns[i + 1..];
        var end, asked;
        p, end, asked := Pass(review, turns[i], p);
        attempts := attempts + asked;
        if end.Some? {
          return end.value, attempts;
        }
      }
      ending := Pending;
    }
  }
}
