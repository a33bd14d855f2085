/** What reaches the bus: across every retry, and whatever the repositories and other consumers do. */
module PublicationGuard {
  import opened Common
  import opened Contracts
  import opened PaperPipeline
  import opened PaperPolicy
  import opened PaperState
  import opened PaperInvariants
  import opened PaperReplay
  import opened PaperLedger
  import opened PaperRuns
  import opened ServiceState

  // ----- evaluations that carry rejection reasons -----

  /** The coordinator cannot evaluate at all: recovery is incomplete or the symbol's measurement is gone. */
  predicate InputsGone(s: State, q: Request) { !s.RecoveryComplete() || VenueFor(s, q).None? }

  /** The decision is a rejection that names each of the reasons. */
  predicate RejectsWith(d: Decision, reasons: seq<string>) {
    !d.approved && forall text :: text in reasons ==> Admission(text) in d.rejectionReasons
  }

  lemma AdmissionKept(cfg: Settings, s: State, q: Request)
    ensures forall text :: text in q.admission ==> text in AdmissionFor(cfg, s, q)
  {
    hide Dedup;
    forall text | text in q.admission ensures text in AdmissionFor(cfg, s, q) {
      DedupKeeps(q.admission + ["regime_bound_allocation_conflict"], text);
    }
  }

  /** An evaluation told of a rejection never approves, leaves the coordinator exactly as it was, and names what it
      was told; it answers whenever there are inputs. */
  lemma AdmonishedEvaluation(cfg: Settings, s: State, q: Request)
    requires WellFormed(s) && q.admission != []
    ensures EvaluateStep(cfg, s, q).state == s
    ensures EvaluateStep(cfg, s, q).outcome.Decided? ==> RejectsWith(EvaluateStep(cfg, s, q).outcome.decision, q.admission)
    ensures EvaluateStep(cfg, s, q).outcome.Unavailable? <==> InputsGone(s, q)
  {
    hide Decide, Record, ViewOf, ReservationsValid, Dedup, VenueFor;
    DedupEmpty(q.admission + ["regime_bound_allocation_conflict"]);
    assert AdmissionFor(cfg, s, q) != [];
    if VenueFor(s, q).Some? {
      var x := InputsFor(cfg, s, q, VenueFor(s, q).value);
      AdmissionKept(cfg, s, q);
      if Decide(cfg, x).Ok? {
        forall text | text in x.admission ensures !Decide(cfg, x).value.approved
          && Admission(text) in Decide(cfg, x).value.rejectionReasons {
          AdmissionReported(cfg, x, text);
        }
        assert x.admission[0] in x.admission;
      }
    }
  }

  // ----- one pass -----

  /** The attempt evaluated with these reasons. */
  predicate EvaluatedWith(a: Attempt, rejections: seq<string>) {
    a.evaluation.Some? ==> a.evaluation.value.request.admission == rejections
  }

  /** The recorded outcome is what the coordinator answered to the recorded request. */
  ghost predicate Genuine(cfg: Settings, a: Attempt) {
    a.evaluation.Some? ==>
      && WellFormed(a.evaluation.value.before)
      && EvaluateStep(cfg, a.evaluation.value.before, a.evaluation.value.request).outcome == a.evaluation.value.outcome
  }

  /** The binding offers the approval just evaluated, at the version just read. */
  predicate BoundAtItsVersion(a: Attempt) {
    a.binding.Some? ==>
      && a.operator == Some(a.binding.value.version)
      && a.evaluation.Some? && a.evaluation.value.outcome == Decided(a.binding.value.decision)
      && a.binding.value.decision.approved && a.evaluation.value.request.admission == []
  }

  predicate Accepted(a: Attempt) { a.binding.Some? && a.binding.value.accepted }

  predicate PublishesApproval(e: Option<Ending>) { e.Some? && e.value.Published? && e.value.decision.approved }

  /** What one pass leaves behind. */
  ghost predicate SoundTurn(cfg: Settings, p: Progress, u: Turned) {
    && (u.attempts == [] ==> u.progress == p && u.ending == Some(DeadlinePassed))
    && (u.attempts != [] ==>
        var a := u.attempts[0];
        && |u.attempts| == 1 && Genuine(cfg, a) && BoundAtItsVersion(a)
        && (p.rejections != [] ==> u.progress.rejections != [])
        && EvaluatedWith(a, u.progress.rejections)
        && (PublishesApproval(u.ending) <==> Accepted(a))
        && (Accepted(a) ==> u.ending == Some(Published(a.binding.value.decision))))
  }

  lemma AdmitReasons(cfg: Settings, scoped: bool, review: Review, s: Service, p: Progress, t: Turn)
    requires WellFormed(s.paper)
    ensures var st := Admit(cfg, scoped, review, s, p, t);
      && (p.rejections != [] ==> st.progress.rejections != [])
      && (st.operator.None? ==> st.progress.rejections != [])
  {
    SomeReason(p.rejections, "operator_control_unavailable");
    hide DeliverAll, WellFormed, SortedSet, IsCanary;
  }

  lemma SomeReason(told: seq<string>, reason: string)
    ensures SortedSet(told + [reason]) != []
  {
    hide SortedSet;
    var all := told + [reason];
    assert all[|all| - 1] in SortedSet(all);
  }

  lemma ReviseRejects(cfg: Settings, review: Review, st: Stage, s: Service, attempt: Attempt, t: Turn)
    requires WellFormed(s.paper)
    ensures var u := Revise(cfg, review, st, s, attempt, t);
      && |u.attempts| == 1 && u.attempts[0].(revision := attempt.revision) == attempt
      && u.progress == st.progress && !PublishesApproval(u.ending) && u.service.paper == s.paper
  {
    hide EvaluateStep, WellFormed;
    AdmonishedEvaluation(cfg, s.paper, RequestFor(review, s, st.progress, st.decidedAtMs, ["operator_control_changed"]));
  }

  lemma ConcludeRecords(cfg: Settings, review: Review, st: Stage, t: Turn)
    requires WellFormed(st.service.paper)
    ensures var u := Conclude(cfg, review, st, t);
      u.progress == st.progress && |u.attempts| == 1 &&
      var a := u.attempts[0];
      && a.arm == st.arm && a.operator == st.operator && Genuine(cfg, a) && a.evaluation.Some?
      && a.evaluation.value.request == RequestFor(review, st.service, st.progress, st.decidedAtMs, st.progress.rejections)
  {
    hide EvaluateStep, WellFormed, DeliverAll, RequestFor, EndingOf;
  }

  /** The pass binds what it evaluated, and an approval comes out exactly when the binding was accepted. */
  predicate BindsSoundly(u: Turned) {
    && |u.attempts| == 1 && BoundAtItsVersion(u.attempts[0])
    && (PublishesApproval(u.ending) <==> Accepted(u.attempts[0]))
    && (Accepted(u.attempts[0]) ==> u.ending == Some(Published(u.attempts[0].binding.value.decision)))
  }

  /** Nothing approved, nothing bound. */
  lemma UnapprovedBinds(s: Service, p: Progress, r: Outcome, a: Attempt)
    requires a.binding.None? && !(r.Decided? && r.decision.approved)
    ensures BindsSoundly(Turned(s, p, EndingOf(r), [a]))
  {
  }

  lemma AcceptedBinds(s: Service, p: Progress, d: Decision, a: Attempt)
    requires BoundAtItsVersion(a) && d.approved && a.binding.Some? && a.binding.value.accepted && a.binding.value.decision == d
    ensures BindsSoundly(Turned(s, p, Some(Published(d)), [a]))
  {
  }

  lemma RefusedBinds(u: Turned, a: Attempt)
    requires |u.attempts| == 1 && u.attempts[0].(revision := a.revision) == a
    requires !PublishesApproval(u.ending) && BoundAtItsVersion(a) && !Accepted(a)
    ensures BindsSoundly(u)
  {
    hide PublishesApproval;
  }

  /** An approval comes from an evaluation without reasons, so the operator's version is known. */
  lemma ApprovedUnadmonished(cfg: Settings, s: State, q: Request, d: Decision)
    requires WellFormed(s) && EvaluateStep(cfg, s, q).outcome == Decided(d) && d.approved
    ensures q.admission == []
  {
    hide EvaluateStep;
    if q.admission != [] { AdmonishedEvaluation(cfg, s, q); }
  }

  lemma ConcludeBinds(cfg: Settings, review: Review, st: Stage, t: Turn)
    requires WellFormed(st.service.paper) && (st.operator.None? ==> st.progress.rejections != [])
    ensures BindsSoundly(Conclude(cfg, review, st, t))
  {
    hide EvaluateStep, WellFormed, DeliverAll, Revise, BindsSoundly, EndingOf;
    var q := RequestFor(review, st.service, st.progress, st.decidedAtMs, st.progress.rejections);
    var j := Judge(cfg, st.service, q, t.modeReadAt);
    var attempt := Attempt(st.operator, st.arm, Some(Evaluation(st.service.paper, q, j.outcome)), None, None);
    if !(j.outcome.Decided? && j.outcome.decision.approved) {
      UnapprovedBinds(j.service, st.progress, j.outcome, attempt);
    } else {
      ApprovedUnadmonished(cfg, st.service.paper, q, j.outcome.decision);
      BindingBinds(cfg, review, st, t, q);
    }
  }

  lemma BindingBinds(cfg: Settings, review: Review, st: Stage, t: Turn, q: Request)
    requires WellFormed(st.service.paper) && st.operator.Some? && q.admission == []
    requires q == RequestFor(review, st.service, st.progress, st.decidedAtMs, st.progress.rejections)
    requires var j := Judge(cfg, st.service, q, t.modeReadAt); j.outcome.Decided? && j.outcome.decision.approved
    ensures BindsSoundly(Conclude(cfg, review, st, t))
  {
    hide WellFormed, DeliverAll, Revise, BindsSoundly, Judge, RequestFor;
    var j := Judge(cfg, st.service, q, t.modeReadAt);
    var s := DeliverAll(cfg, j.service, t.binding);
    var noted := Attempt(st.operator, st.arm, Some(Evaluation(st.service.paper, q, j.outcome)),
                         Some(Binding(j.outcome.decision, st.operator.value, t.bound)), None);
    if t.bound {
      AcceptedBinds(s, st.progress, j.outcome.decision, noted);
    } else {
      ReviseRejects(cfg, review, st, s, noted, t);
      RefusedBinds(Revise(cfg, review, st, s, noted, t), noted);
    }
  }

  lemma ConcludeSound(cfg: Settings, review: Review, st: Stage, t: Turn, p: Progress)
    requires WellFormed(st.service.paper)
    requires (p.rejections != [] || st.operator.None?) ==> st.progress.rejections != []
    ensures SoundTurn(cfg, p, Conclude(cfg, review, st, t))
  {
    ConcludeRecords(cfg, review, st, t);
    ConcludeBinds(cfg, review, st, t);
    hide WellFormed, Conclude, Genuine, BoundAtItsVersion, Accepted, PublishesApproval;
  }

  lemma TurnSound(cfg: Settings, scoped: bool, review: Review, s: Service, p: Progress, t: Turn)
    requires WellFormed(s.paper)
    ensures SoundTurn(cfg, p, TakeTurn(cfg, scoped, review, s, p, t))
  {
    hide WellFormed, DeliverAll, Conclude, SoundTurn, Admit, InputsReady;
    var ready := DeliverAll(cfg, s, t.waiting);
    if InputsReady(cfg, ready.paper, review) {
      var st := Admit(cfg, scoped, review, ready, p, t);
      AdmitReasons(cfg, scoped, review, ready, p, t);
      if st.arm == Some(ArmFails) {
        FailingTurn(cfg, p, st);
      } else {
        ConcludeSound(cfg, review, st, t, p);
      }
    } else {
      LateTurn(cfg, ready, p);
    }
  }

  lemma FailingTurn(cfg: Settings, p: Progress, st: Stage)
    requires p.rejections != [] ==> st.progress.rejections != []
    ensures SoundTurn(cfg, p, Turned(st.service, st.progress, Some(Failed), [Attempt(st.operator, st.arm, None, None, None)]))
  {
  }

  lemma LateTurn(cfg: Settings, ready: Service, p: Progress)
    ensures SoundTurn(cfg, p, Turned(ready, p, Some(DeadlinePassed), []))
  {
  }

  // ----- the whole handling -----

  /** The pass began by evaluating with rejection reasons. */
  predicate Told(a: Attempt) { a.evaluation.Some? && a.evaluation.value.request.admission != [] }

  /** Once a pass began with rejection reasons every later pass does. */
  ghost predicate RejectionsStick(attempts: seq<Attempt>) {
    forall i, j :: 0 <= i < j < |attempts| && Told(attempts[i]) && attempts[j].evaluation.Some? ==> Told(attempts[j])
  }

  /** Every binding offered the approval just evaluated without reasons, at the version just read. */
  ghost predicate BindingsExact(cfg: Settings, attempts: seq<Attempt>) {
    forall i :: 0 <= i < |attempts| ==> Genuine(cfg, attempts[i]) && BoundAtItsVersion(attempts[i])
  }

  /** An approval is published exactly when the last pass had a binding accepted, no other pass ever had, and
      what is published is what was bound. */
  ghost predicate PublishesWhatIsBound(r: Report) {
    && (forall i :: 0 <= i < |r.attempts| && Accepted(r.attempts[i]) ==>
          i == |r.attempts| - 1 && r.ending == Published(r.attempts[i].binding.value.decision))
    && (PublishesApproval(Some(r.ending)) ==> r.attempts != [] && Accepted(r.attempts[|r.attempts| - 1]))
  }

  ghost predicate AllRejected(attempts: seq<Attempt>) {
    forall i :: 0 <= i < |attempts| && attempts[i].evaluation.Some? ==> Told(attempts[i])
  }

  lemma GuardStep(cfg: Settings, p: Progress, u: Turned, rest: Report)
    requires SoundTurn(cfg, p, u) && u.ending.None?
    requires RejectionsStick(rest.attempts) && BindingsExact(cfg, rest.attempts) && PublishesWhatIsBound(rest)
    requires u.progress.rejections != [] ==> AllRejected(rest.attempts)
    ensures var r := rest.(attempts := u.attempts + rest.attempts);
      && RejectionsStick(r.attempts) && BindingsExact(cfg, r.attempts) && PublishesWhatIsBound(r)
      && (p.rejections != [] ==> AllRejected(r.attempts))
  {
    hide Genuine, BoundAtItsVersion;
    var r, a := rest.(attempts := u.attempts + rest.attempts), u.attempts[0];
    assert r.attempts[0] == a && r.attempts[1..] == rest.attempts;
    assert forall i :: 1 <= i < |r.attempts| ==> r.attempts[i] == rest.attempts[i - 1];
  }

  /** Across all retries and whatever the world does: reasons noted before a pass evaluates never lapse, every
      binding is exact, and an approval is published exactly when it was bound in that very pass. */
  lemma {:induction false} GuardHolds(
    cfg: Settings, scoped: bool, review: Review, s: Service, p: Progress, turns: seq<Turn>)
    requires WellFormed(s.paper)
    ensures var r := HandleReview(cfg, scoped, review, s, p, turns);
      && RejectionsStick(r.attempts) && BindingsExact(cfg, r.attempts) && PublishesWhatIsBound(r)
      && (p.rejections != [] ==> AllRejected(r.attempts))
    decreases |turns|
  {
    hide TakeTurn, WellFormed, SoundTurn, RejectionsStick, BindingsExact, PublishesWhatIsBound, AllRejected;
    if turns == [] {
      NothingPublished(cfg, s);
    } else {
      var u := TakeTurn(cfg, scoped, review, s, p, turns[0]);
      TurnSound(cfg, scoped, review, s, p, turns[0]);
      if u.ending.Some? {
        LastTurn(cfg, p, u);
      } else {
        GuardHolds(cfg, scoped, review, u.service, u.progress, turns[1..]);
        GuardStep(cfg, p, u, HandleReview(cfg, scoped, review, u.service, u.progress, turns[1..]));
      }
    }
  }

  lemma NothingPublished(cfg: Settings, s: Service)
    ensures RejectionsStick([]) && BindingsExact(cfg, []) && PublishesWhatIsBound(Report(s, Pending, [])) && AllRejected([])
  {
  }

  lemma LastTurn(cfg: Settings, p: Progress, u: Turned)
    requires SoundTurn(cfg, p, u) && u.ending.Some?
    ensures RejectionsStick(u.attempts) && BindingsExact(cfg, u.attempts)
    ensures PublishesWhatIsBound(Report(u.service, u.ending.value, u.attempts))
    ensures p.rejections != [] ==> AllRejected(u.attempts)
  {
    hide Genuine, BoundAtItsVersion;
  }

  // ----- refused bindings -----

  predicate BindingRefused(a: Attempt) { a.binding.Some? && !a.binding.value.accepted }

  /** A refused binding, and nothing else, leads to a second evaluation of the same request with that one reason. */
  ghost predicate RevisedExactly(cfg: Settings, a: Attempt) {
    && (a.revision.Some? <==> BindingRefused(a))
    && (BindingRefused(a) ==>
        && a.evaluation.Some?
        && var v, q := a.revision.value, a.evaluation.value.request;
        && WellFormed(v.before) && v.outcome == EvaluateStep(cfg, v.before, v.request).outcome
        && v.request.admission == ["operator_control_changed"]
        && v.request.review == q.review && v.request.decidedAtMs == q.decidedAtMs
        && (v.outcome.Decided? ==> RejectsWith(v.outcome.decision, ["operator_control_changed"])))
  }

  predicate RevisionUnavailable(a: Attempt) {
    a.revision.Some? && InputsGone(a.revision.value.before, a.revision.value.request)
  }

  /** Neither the deadline passing nor anything yet to come. */
  predicate Concluded(e: Ending) { e.Published? || e.Failed? }

  /** What a pass with a refused binding ends in. */
  ghost predicate RefusalTurn(cfg: Settings, u: Turned) {
    && |u.attempts| <= 1
    && (u.attempts == [] ==> u.ending == Some(DeadlinePassed))
    && (u.attempts != [] ==>
        var a := u.attempts[0];
        && RevisedExactly(cfg, a)
        && (u.ending.Some? ==> Concluded(u.ending.value))
        && (BindingRefused(a) ==> u.ending == EndingOf(a.revision.value.outcome) && (u.ending.None? <==> RevisionUnavailable(a))))
  }

  lemma ReviseRefuses(cfg: Settings, review: Review, st: Stage, s: Service, a: Attempt, t: Turn)
    requires WellFormed(s.paper) && BindingRefused(a) && a.evaluation.Some?
    requires a.evaluation.value.request.review == review && a.evaluation.value.request.decidedAtMs == st.decidedAtMs
    ensures RefusalTurn(cfg, Revise(cfg, review, st, s, a, t))
  {
    hide EvaluateStep, WellFormed, InputsGone;
    var q := RequestFor(review, s, st.progress, st.decidedAtMs, ["operator_control_changed"]);
    AdmonishedEvaluation(cfg, s.paper, q);
    AdmonishedCases(cfg, s.paper, q);
  }

  lemma AdmonishedCases(cfg: Settings, s: State, q: Request)
    requires WellFormed(s) && q.admission != []
    ensures var e := EndingOf(EvaluateStep(cfg, s, q).outcome);
      (e.Some? ==> Concluded(e.value)) && (e.None? <==> EvaluateStep(cfg, s, q).outcome.Unavailable?)
  {
    hide EvaluateStep, WellFormed;
  }

  lemma ConcludeRefuses(cfg: Settings, review: Review, st: Stage, t: Turn)
    requires WellFormed(st.service.paper) && (st.operator.None? ==> st.progress.rejections != [])
    ensures RefusalTurn(cfg, Conclude(cfg, review, st, t))
  {
    hide EvaluateStep, WellFormed, DeliverAll, Revise, InputsGone;
    var q := RequestFor(review, st.service, st.progress, st.decidedAtMs, st.progress.rejections);
    var j := Judge(cfg, st.service, q, t.modeReadAt);
    if j.outcome.Decided? && j.outcome.decision.approved {
      ApprovedUnadmonished(cfg, st.service.paper, q, j.outcome.decision);
      var s := DeliverAll(cfg, j.service, t.binding);
      var noted := Attempt(st.operator, st.arm, Some(Evaluation(st.service.paper, q, j.outcome)),
                           Some(Binding(j.outcome.decision, st.operator.value, t.bound)), None);
      if !t.bound {
        ReviseRefuses(cfg, review, st, s, noted, t);
        hide RefusalTurn;
      }
    }
  }

  lemma TurnRefuses(cfg: Settings, scoped: bool, review: Review, s: Service, p: Progress, t: Turn)
    requires WellFormed(s.paper)
    ensures RefusalTurn(cfg, TakeTurn(cfg, scoped, review, s, p, t))
  {
    hide WellFormed, DeliverAll, Conclude, Admit, InputsReady;
    var ready := DeliverAll(cfg, s, t.waiting);
    if InputsReady(cfg, ready.paper, review) {
      var st := Admit(cfg, scoped, review, ready, p, t);
      AdmitReasons(cfg, scoped, review, ready, p, t);
      if st.arm != Some(ArmFails) {
        ConcludeRefuses(cfg, review, st, t);
        hide RefusalTurn;
      }
    }
  }

  /** The handling did not end with attempt `i`. */
  predicate WentOn(r: Report, i: nat) { i + 1 < |r.attempts| || !Concluded(r.ending) }

  /** A refused binding ends the handling with the rejection it asked for, unless inputs were gone at that moment. */
  ghost predicate RefusalsEnd(cfg: Settings, r: Report) {
    forall i :: 0 <= i < |r.attempts| ==>
      && RevisedExactly(cfg, r.attempts[i])
      && (BindingRefused(r.attempts[i]) ==>
            && (WentOn(r, i) <==> RevisionUnavailable(r.attempts[i]))
            && (!WentOn(r, i) ==> Some(r.ending) == EndingOf(r.attempts[i].revision.value.outcome)))
  }

  lemma RefusalLast(cfg: Settings, u: Turned)
    requires RefusalTurn(cfg, u) && u.ending.Some?
    ensures RefusalsEnd(cfg, Report(u.service, u.ending.value, u.attempts))
  {
    hide RevisedExactly, Concluded, RevisionUnavailable;
  }

  lemma RefusalStep(cfg: Settings, u: Turned, rest: Report)
    requires RefusalTurn(cfg, u) && u.ending.None? && RefusalsEnd(cfg, rest) && (rest.attempts == [] ==> !Concluded(rest.ending))
    ensures RefusalsEnd(cfg, rest.(attempts := u.attempts + rest.attempts))
  {
    hide RevisedExactly, Concluded, RevisionUnavailable, BindingRefused;
    var r := rest.(attempts := u.attempts + rest.attempts);
    assert r.attempts[0] == u.attempts[0];
    forall i | 1 <= i < |r.attempts|
      ensures r.attempts[i] == rest.attempts[i - 1] && (WentOn(r, i) <==> WentOn(rest, i - 1)) {
    }
  }

  /** When a binding is refused, the reason given to the second evaluation is the last word exactly when that
      evaluation had inputs: the handling then ends with the rejection, or fails.  Otherwise it goes on, and only
      then can a later pass still publish an approval. */
  lemma {:induction false} RefusalIsFinal(
    cfg: Settings, scoped: bool, review: Review, s: Service, p: Progress, turns: seq<Turn>)
    requires WellFormed(s.paper)
    ensures var r := HandleReview(cfg, scoped, review, s, p, turns);
      RefusalsEnd(cfg, r) && (r.attempts == [] ==> !Concluded(r.ending))
    decreases |turns|
  {
    hide TakeTurn, WellFormed, RefusalsEnd, RevisedExactly, RevisionUnavailable;
    if turns == [] {
      assert RefusalsEnd(cfg, Report(s, Pending, [])) by { NothingRefused(cfg, s); }
    } else {
      var u := TakeTurn(cfg, scoped, review, s, p, turns[0]);
      TurnRefuses(cfg, scoped, review, s, p, turns[0]);
      if u.ending.Some? {
        RefusalLast(cfg, u);
      } else {
        RefusalIsFinal(cfg, scoped, review, u.service, u.progress, turns[1..]);
        RefusalStep(cfg, u, HandleReview(cfg, scoped, review, u.service, u.progress, turns[1..]));
      }
    }
  }

  lemma NothingRefused(cfg: Settings, s: Service)
    ensures RefusalsEnd(cfg, Report(s, Pending, []))
  {
  }

  // ----- the canary's arm -----

  /** A checked arm left an allocation or a reason; only a checked arm leaves an allocation. */
  predicate ArmConsistent(p: Progress) {
    && (p.armChecked && p.allocation.None? ==> p.rejections != [])
    && (p.allocation.Some? ==> p.armChecked)
  }

  function ArmedAllocation(a: Attempt): Option<StrategicAllocation> {
    if a.arm.Some? && a.arm.value.ArmValid? then Some(a.arm.value.allocation) else None
  }

  /** What one pass over a canary does with the arm. */
  predicate ArmTurn(p: Progress, u: Turned) {
    u.attempts != [] ==>
      var a := u.attempts[0];
      && ArmConsistent(u.progress)
      && (a.arm.Some? ==> !p.armChecked && (a.arm.value.ArmFails? || u.progress.armChecked))
      && (p.armChecked ==> u.progress.armChecked)
      && (a.arm == Some(ArmFails) ==> u.ending == Some(Failed))
      && u.progress.allocation == (if ArmedAllocation(a).Some? then ArmedAllocation(a) else p.allocation)
      && (a.evaluation.Some? ==>
            a.evaluation.value.request.allocation == u.progress.allocation && (a.operator.Some? ==> u.progress.armChecked))
  }

  lemma AdmitArm(cfg: Settings, scoped: bool, review: Review, s: Service, p: Progress, t: Turn)
    requires WellFormed(s.paper) && IsCanary(review) && ArmConsistent(p)
    ensures var st := Admit(cfg, scoped, review, s, p, t);
      && ArmConsistent(st.progress)
      && (st.arm.Some? ==> !p.armChecked && (st.arm.value.ArmFails? || st.progress.armChecked))
      && (p.armChecked ==> st.progress.armChecked)
      && st.progress.allocation ==
           (if st.arm.Some? && st.arm.value.ArmValid? then Some(st.arm.value.allocation) else p.allocation)
      && (st.operator.Some? && st.arm != Some(ArmFails) ==> st.progress.armChecked)
  {
    SomeReason(p.rejections, "operator_control_unavailable");
    hide DeliverAll, WellFormed, SortedSet;
  }

  lemma TurnArm(cfg: Settings, scoped: bool, review: Review, s: Service, p: Progress, t: Turn)
    requires WellFormed(s.paper) && IsCanary(review) && ArmConsistent(p)
    ensures ArmTurn(p, TakeTurn(cfg, scoped, review, s, p, t))
  {
    hide WellFormed, DeliverAll, Conclude, Admit, InputsReady, ArmConsistent;
    var ready := DeliverAll(cfg, s, t.waiting);
    if InputsReady(cfg, ready.paper, review) {
      var st := Admit(cfg, scoped, review, ready, p, t);
      AdmitArm(cfg, scoped, review, ready, p, t);
      if st.arm != Some(ArmFails) { ConcludeRecords(cfg, review, st, t); }
    }
  }

  lemma AdmitRecords(cfg: Settings, scoped: bool, review: Review, s: Service, p: Progress, t: Turn)
    requires WellFormed(s.paper)
    ensures var st := Admit(cfg, scoped, review, s, p, t);
      && (st.arm.Some? ==> IsCanary(review) && scoped && st.operator == t.operator && st.operator.Some? && st.arm == Some(t.arm))
      && st.decidedAtMs == (if st.arm.Some? && st.arm.value.ArmValid? then st.arm.value.decidedAtMs else t.observedNowMs)
  {
    hide WellFormed, DeliverAll, SortedSet, IsCanary;
  }

  /** Every pass evaluates the review it was given: at the arm's own decision time in the pass that
      validated it, else at the time just observed; only a canary's pass touches an arm. */
  lemma TurnRequest(cfg: Settings, scoped: bool, review: Review, s: Service, p: Progress, t: Turn)
    requires WellFormed(s.paper)
    ensures var u := TakeTurn(cfg, scoped, review, s, p, t);
      u.attempts != [] ==>
        var a := u.attempts[0];
        && (a.arm.Some? ==> IsCanary(review) && scoped && a.operator == t.operator && a.operator.Some? && a.arm == Some(t.arm))
        && (a.evaluation.Some? ==>
              && a.evaluation.value.request.review == review
              && a.evaluation.value.request.decidedAtMs ==
                   (if ArmedAllocation(a).Some? then a.arm.value.decidedAtMs else t.observedNowMs))
  {
    var ready := DeliverAll(cfg, s, t.waiting);
    hide WellFormed, DeliverAll, Conclude, InputsReady, Admit, IsCanary;
    if InputsReady(cfg, ready.paper, review) {
      var st := Admit(cfg, scoped, review, ready, p, t);
      AdmitRecords(cfg, scoped, review, ready, p, t);
      if st.arm != Some(ArmFails) { ConcludeRecords(cfg, review, st, t); }
    }
  }

  /** The arm is consumed at most once, and never again once it was checked before. */
  ghost predicate ConsumedOnce(checked: bool, attempts: seq<Attempt>) {
    && (forall i, j :: 0 <= i < j < |attempts| ==> attempts[i].arm.None? || attempts[j].arm.None?)
    && (checked ==> forall i :: 0 <= i < |attempts| ==> attempts[i].arm.None?)
  }

  /** An approval was evaluated under the allocation of a validated arm: one consumed in these passes, or before. */
  ghost predicate PublishesArmed(p: Progress, r: Report) {
    PublishesApproval(Some(r.ending)) ==>
      r.attempts != [] &&
      var last := r.attempts[|r.attempts| - 1];
      last.evaluation.Some? &&
      var used := last.evaluation.value.request.allocation;
      used.Some? && (used == p.allocation || exists i :: 0 <= i < |r.attempts| && ArmedAllocation(r.attempts[i]) == used)
  }

  lemma ArmLast(cfg: Settings, p: Progress, u: Turned)
    requires ArmTurn(p, u) && SoundTurn(cfg, p, u) && u.ending.Some?
    ensures ConsumedOnce(p.armChecked, u.attempts) && PublishesArmed(p, Report(u.service, u.ending.value, u.attempts))
  {
    hide Genuine, ArmedAllocation;
    if u.attempts != [] { assert ArmedAllocation(u.attempts[0]).Some? ==> u.progress.allocation == ArmedAllocation(u.attempts[0]); }
  }

  lemma ConsumedStep(cfg: Settings, p: Progress, u: Turned, rest: seq<Attempt>)
    requires ArmTurn(p, u) && |u.attempts| == 1 && u.ending.None? && ConsumedOnce(u.progress.armChecked, rest)
    ensures ConsumedOnce(p.armChecked, u.attempts + rest)
  {
    hide ArmedAllocation, ArmConsistent;
    var all, a := u.attempts + rest, u.attempts[0];
    assert all[0] == a;
    assert forall i :: 1 <= i < |all| ==> all[i] == rest[i - 1];
  }

  lemma ArmedStep(p: Progress, u: Turned, rest: Report)
    requires ArmTurn(p, u) && |u.attempts| == 1 && PublishesArmed(u.progress, rest)
    ensures PublishesArmed(p, rest.(attempts := u.attempts + rest.attempts))
  {
    hide ArmedAllocation, ArmConsistent;
    var r, a := rest.(attempts := u.attempts + rest.attempts), u.attempts[0];
    assert r.attempts[0] == a;
    assert forall i :: 0 <= i < |rest.attempts| ==> r.attempts[i + 1] == rest.attempts[i];
  }

  /** A canary's durable arm is consumed at most once however often the handling retries, and an approval
      comes out only under the allocation of the one arm that was consumed and validated. */
  lemma {:induction false} CanaryConsumesOnce(
    cfg: Settings, scoped: bool, review: Review, s: Service, p: Progress, turns: seq<Turn>)
    requires WellFormed(s.paper) && IsCanary(review) && ArmConsistent(p)
    ensures var r := HandleReview(cfg, scoped, review, s, p, turns);
      ConsumedOnce(p.armChecked, r.attempts) && PublishesArmed(p, r)
    decreases |turns|
  {
    hide TakeTurn, WellFormed, SoundTurn, ConsumedOnce, ArmConsistent, PublishesArmed;
    if turns == [] {
      NothingConsumed(p, s);
    } else {
      var u := TakeTurn(cfg, scoped, review, s, p, turns[0]);
      TurnSound(cfg, scoped, review, s, p, turns[0]);
      TurnArm(cfg, scoped, review, s, p, turns[0]);
      if u.ending.Some? {
        ArmLast(cfg, p, u);
      } else {
        PassTaken(cfg, p, u);
        CanaryConsumesOnce(cfg, scoped, review, u.service, u.progress, turns[1..]);
        var rest := HandleReview(cfg, scoped, review, u.service, u.progress, turns[1..]);
        ConsumedStep(cfg, p, u, rest.attempts);
        ArmedStep(p, u, rest);
      }
    }
  }

  lemma PassTaken(cfg: Settings, p: Progress, u: Turned)
    requires ArmTurn(p, u) && SoundTurn(cfg, p, u) && u.ending.None?
    ensures ArmConsistent(u.progress) && |u.attempts| == 1
  {
    hide Genuine;
  }

  lemma NothingConsumed(p: Progress, s: Service)
    ensures ConsumedOnce(p.armChecked, []) && PublishesArmed(p, Report(s, Pending, []))
  {
  }

  // ----- the handling among all other steps -----

  /** Deliveries recover durable approvals only. */
  predicate DeliversFrom(ms: seq<Message>, durable: set<Decision>) {
    forall m :: m in ms && m.PaperDelivery? && m.event.RestoreEvent? ==> forall d :: d in m.event.decisions ==> d in durable
  }

  predicate TurnDeliversFrom(t: Turn, durable: set<Decision>) {
    && DeliversFrom(t.waiting, durable) && DeliversFrom(t.asking, durable)
    && DeliversFrom(t.consuming, durable) && DeliversFrom(t.binding, durable)
  }

  /** A run that recovers durable approvals only leads from one coordinator state to the other. */
  ghost predicate Reaches(cfg: Settings, durable: set<Decision>, s: State, n: State)
    requires WellFormed(s)
  {
    exists es :: RestoresFrom(es, durable) && Run(cfg, s, es) == n
  }

  lemma ReachesSelf(cfg: Settings, durable: set<Decision>, s: State)
    requires WellFormed(s)
    ensures Reaches(cfg, durable, s, s)
  {
    assert RestoresFrom([], durable) && Run(cfg, s, []) == s;
  }

  lemma ReachesNext(cfg: Settings, durable: set<Decision>, s: State, n: State, e: Event)
    requires WellFormed(s) && WellFormed(n) && Reaches(cfg, durable, s, n)
    requires e.RestoreEvent? ==> forall d :: d in e.decisions ==> d in durable
    ensures Reaches(cfg, durable, s, Next(cfg, n, e).state)
  {
    hide Next, OrderedMap.Valid;
    var es :| RestoresFrom(es, durable) && Run(cfg, s, es) == n;
    assert (es + [e])[..|es|] == es;
    assert RestoresFrom(es + [e], durable) && Run(cfg, s, es + [e]) == Next(cfg, n, e).state;
  }

  lemma {:induction false} DeliveriesReach(cfg: Settings, durable: set<Decision>, o: State, s: Service, ms: seq<Message>)
    requires WellFormed(o) && WellFormed(s.paper) && Reaches(cfg, durable, o, s.paper) && DeliversFrom(ms, durable)
    ensures Reaches(cfg, durable, o, DeliverAll(cfg, s, ms).paper)
    decreases |ms|
  {
    hide Next, WellFormed, Reaches;
    if ms != [] {
      var front, m := ms[..|ms| - 1], ms[|ms| - 1];
      DeliveriesReach(cfg, durable, o, s, front);
      assert m in ms;
      if m.PaperDelivery? { ReachesNext(cfg, durable, o, DeliverAll(cfg, s, front).paper, m.event); }
    }
  }

  lemma JudgeReaches(cfg: Settings, durable: set<Decision>, o: State, s: Service, q: Request, readAt: real)
    requires WellFormed(o) && WellFormed(s.paper) && Reaches(cfg, durable, o, s.paper)
    ensures Reaches(cfg, durable, o, Judge(cfg, s, q, readAt).service.paper)
  {
    hide EvaluateStep, WellFormed, Reaches;
    ReachesNext(cfg, durable, o, s.paper, EvaluateEvent(q));
  }

  lemma AdmitReaches(cfg: Settings, durable: set<Decision>, o: State, scoped: bool, review: Review, s: Service, p: Progress, t: Turn)
    requires WellFormed(o) && WellFormed(s.paper) && Reaches(cfg, durable, o, s.paper) && TurnDeliversFrom(t, durable)
    ensures Reaches(cfg, durable, o, Admit(cfg, scoped, review, s, p, t).service.paper)
  {
    hide DeliverAll, WellFormed, Reaches, DeliversFrom;
    var asked := if scoped then DeliverAll(cfg, s, t.asking) else s;
    DeliveriesReach(cfg, durable, o, s, t.asking);
    DeliveriesReach(cfg, durable, o, asked, t.consuming);
  }

  lemma ConcludeReaches(cfg: Settings, durable: set<Decision>, o: State, review: Review, st: Stage, t: Turn)
    requires WellFormed(o) && WellFormed(st.service.paper) && Reaches(cfg, durable, o, st.service.paper)
    requires TurnDeliversFrom(t, durable)
    ensures Reaches(cfg, durable, o, Conclude(cfg, review, st, t).service.paper)
  {
    hide WellFormed, Reaches, DeliversFrom, DeliverAll, Judge;
    var q := RequestFor(review, st.service, st.progress, st.decidedAtMs, st.progress.rejections);
    var j := Judge(cfg, st.service, q, t.modeReadAt);
    JudgeReaches(cfg, durable, o, st.service, q, t.modeReadAt);
    var s := DeliverAll(cfg, j.service, t.binding);
    DeliveriesReach(cfg, durable, o, j.service, t.binding);
    JudgeReaches(cfg, durable, o, j.service,
                 RequestFor(review, j.service, st.progress, st.decidedAtMs, ["operator_control_changed"]), t.againReadAt);
    JudgeReaches(cfg, durable, o, s,
                 RequestFor(review, s, st.progress, st.decidedAtMs, ["operator_control_changed"]), t.againReadAt);
  }

  lemma TurnReaches(cfg: Settings, durable: set<Decision>, o: State, scoped: bool, review: Review, s: Service, p: Progress, t: Turn)
    requires WellFormed(o) && WellFormed(s.paper) && Reaches(cfg, durable, o, s.paper) && TurnDeliversFrom(t, durable)
    ensures Reaches(cfg, durable, o, TakeTurn(cfg, scoped, review, s, p, t).service.paper)
  {
    hide WellFormed, Reaches, DeliversFrom, DeliverAll, Conclude, Admit, InputsReady;
    var ready := DeliverAll(cfg, s, t.waiting);
    DeliveriesReach(cfg, durable, o, s, t.waiting);
    var st := Admit(cfg, scoped, review, ready, p, t);
    AdmitReaches(cfg, durable, o, scoped, review, ready, p, t);
    ConcludeReaches(cfg, durable, o, review, st, t);
  }

  /** However the handling interleaves with other consumers, what it does to the coordinator is one of the
      coordinator's runs: every theorem about runs covers the service. */
  lemma {:induction false} HandlingIsRun(
    cfg: Settings, durable: set<Decision>, o: State, scoped: bool, review: Review, s: Service, p: Progress, turns: seq<Turn>)
    requires WellFormed(o) && WellFormed(s.paper) && Reaches(cfg, durable, o, s.paper)
    requires forall t :: t in turns ==> TurnDeliversFrom(t, durable)
    ensures Reaches(cfg, durable, o, HandleReview(cfg, scoped, review, s, p, turns).service.paper)
    decreases |turns|
  {
    hide WellFormed, Reaches, TurnDeliversFrom, TakeTurn;
    if turns != [] {
      var u := TakeTurn(cfg, scoped, review, s, p, turns[0]);
      TurnReaches(cfg, durable, o, scoped, review, s, p, turns[0]);
      if u.ending.None? {
        HandlingIsRun(cfg, durable, o, scoped, review, u.service, u.progress, turns[1..]);
      }
    }
  }

  /** So handling a review keeps every reserved decision replayable. */
  lemma HandlingRetained(
    cfg: Settings, durable: set<Decision>, scoped: bool, review: Review, s: Service, p: Progress, turns: seq<Turn>)
    requires OneSymbolPerReview(durable) && Retained(cfg, durable, s.paper)
    requires forall t :: t in turns ==> TurnDeliversFrom(t, durable)
    ensures Retained(cfg, durable, HandleReview(cfg, scoped, review, s, p, turns).service.paper)
  {
    ReachesSelf(cfg, durable, s.paper);
    HandlingIsRun(cfg, durable, s.paper, scoped, review, s, p, turns);
    hide HandleReview, Run, TurnDeliversFrom, OneSymbolPerReview, Retained;
    var n := HandleReview(cfg, scoped, review, s, p, turns).service.paper;
    var es :| RestoresFrom(es, durable) && Run(cfg, s.paper, es) == n;
    RunRetained(cfg, durable, s.paper, es);
  }

  /** And, with durable approvals that may stand side by side, symbols distinct and the cache within its bound. */
  lemma HandlingGuarded(
    cfg: Settings, durable: set<Decision>, scoped: bool, review: Review, s: Service, p: Progress, turns: seq<Turn>)
    requires Compatible(durable) && Guarded(cfg, durable, s.paper)
    requires forall t :: t in turns ==> TurnDeliversFrom(t, durable)
    ensures Guarded(cfg, durable, HandleReview(cfg, scoped, review, s, p, turns).service.paper)
  {
    ReachesSelf(cfg, durable, s.paper);
    HandlingIsRun(cfg, durable, s.paper, scoped, review, s, p, turns);
    hide HandleReview, Run, TurnDeliversFrom, Compatible, Guarded;
    var n := HandleReview(cfg, scoped, review, s, p, turns).service.paper;
    var es :| RestoresFrom(es, durable) && Run(cfg, s.paper, es) == n;
    RunGuarded(cfg, durable, s.paper, es);
  }
}
