/** Health signals and PAPER approvals: what the trace of signals says about anything newly approved. */
module ServiceHealth {
  import opened Common
  import opened Contracts
  import opened PaperPipeline
  import opened PaperPolicy
  import opened PaperState
  import opened PaperInvariants
  import opened PaperRuns
  import opened HealthMode
  import opened ServiceState
  import opened PublicationGuard

  /** The health signals among some deliveries. */
  function Signals(ms: seq<Message>): seq<HealthEvent> {
    if ms == [] then []
    else Signals(ms[..|ms| - 1]) + (if ms[|ms| - 1].HealthDelivery? then [ms[|ms| - 1].signal] else [])
  }

  lemma HandleFollows(r: Registry, maxFailures: nat, es: seq<HealthEvent>, e: HealthEvent)
    requires Follows(r, maxFailures, es)
    ensures Follows(Handle(r, e), maxFailures, es + [e])
  {
    hide Follows, ReadRegistry, Success, Outage;
    if e.ok { SuccessTracks(r, maxFailures, es, e); } else { OutageTracks(r, maxFailures, es, e); }
    ReadTracks(if e.ok then Success(r, e) else Outage(r, e), maxFailures, es + [e], e.readAt);
  }

  /** The breakers keep following the trace, whatever else is delivered. */
  lemma {:induction false} DeliveriesFollow(cfg: Settings, s: Service, ms: seq<Message>, maxFailures: nat, es: seq<HealthEvent>)
    requires WellFormed(s.paper) && Follows(s.health, maxFailures, es)
    ensures Follows(DeliverAll(cfg, s, ms).health, maxFailures, es + Signals(ms))
    decreases |ms|
  {
    hide WellFormed, Follows, Next, Handle;
    if ms == [] {
      assert es + Signals(ms) == es;
    } else {
      var front, m := ms[..|ms| - 1], ms[|ms| - 1];
      DeliveriesFollow(cfg, s, front, maxFailures, es);
      var before := DeliverAll(cfg, s, front);
      if m.HealthDelivery? {
        HandleFollows(before.health, maxFailures, es + Signals(front), m.signal);
        assert es + Signals(ms) == (es + Signals(front)) + [m.signal];
      } else {
        SameHealth(cfg, before, m);
        assert es + Signals(ms) == es + Signals(front);
      }
    }
  }

  lemma SameHealth(cfg: Settings, s: Service, m: Message)
    requires WellFormed(s.paper) && !m.HealthDelivery?
    ensures Deliver(cfg, s, m).health == s.health
  {
    hide Next, WellFormed;
  }

  lemma NewApprovalIsNormal(cfg: Settings, s: State, q: Request, d: Decision)
    requires WellFormed(s) && NewlyApproves(cfg, s, EvaluateEvent(q), d)
    ensures q.mode == Normal
  {
    NewApprovalIsFresh(cfg, s, EvaluateEvent(q), d);
    FreshlyApproved(cfg, s, q, d);
    hide NewlyApproves, Fresh, VenueFor, AdmissionFor, Decide, ViewOf, AccountAdmissible, VenueAdmissible, CapitalAdmissible,
         GeometryAdmissible;
    ApprovalRecords(cfg, InputsFor(cfg, s, q, VenueFor(s, q).value), d);
  }

  /** Nothing is newly approved while the trace of health signals declares an outage: neither the provider nor
      any model may have failed more often than the maximum since its last attributable success. */
  lemma ApprovalNeedsHealthyTrace(
    cfg: Settings, s: Service, ms: seq<Message>, maxFailures: nat, es: seq<HealthEvent>,
    review: Review, p: Progress, decidedAtMs: int, rejections: seq<string>, d: Decision)
    requires WellFormed(s.paper) && Follows(s.health, maxFailures, es)
    requires var n := DeliverAll(cfg, s, ms);
      NewlyApproves(cfg, n.paper, EvaluateEvent(RequestFor(review, n, p, decidedAtMs, rejections)), d)
    ensures var trace := es + Signals(ms);
      ProviderStreak(trace) <= maxFailures && forall k :: ModelStreak(trace, k) <= maxFailures
  {
    var n, trace := DeliverAll(cfg, s, ms), es + Signals(ms);
    DeliveriesFollow(cfg, s, ms, maxFailures, es);
    ModeIsDeclared(n.health, maxFailures, trace);
    assert RequestFor(review, n, p, decidedAtMs, rejections).mode == ModeOf(n.health);
    hide WellFormed, Follows, NewlyApproves, DeliverAll, ModelStreak, ProviderStreak, ModeOf, RequestFor, Signals;
    NewApprovalIsNormal(cfg, n.paper, RequestFor(review, n, p, decidedAtMs, rejections), d);
    assert DeclaredMode(maxFailures, trace) == Normal;
  }

  // ----- while a review is handled -----

  /** What a pass hears until it evaluates: as far as it got in waiting, asking and consuming. */
  function HeardBefore(scoped: bool, t: Turn, u: Turned): seq<HealthEvent> {
    Signals(t.waiting) +
    (if u.attempts != [] && scoped then Signals(t.asking) else []) +
    (if u.attempts != [] && u.attempts[0].arm.Some? then Signals(t.consuming) else [])
  }

  /** And while it binds. */
  function HeardIn(scoped: bool, t: Turn, u: Turned): seq<HealthEvent> {
    HeardBefore(scoped, t, u) + (if u.attempts != [] && u.attempts[0].binding.Some? then Signals(t.binding) else [])
  }

  /** The health signals that arrive while the review is handled. */
  function Heard(cfg: Settings, scoped: bool, review: Review, s: Service, p: Progress, turns: seq<Turn>): seq<HealthEvent>
    requires WellFormed(s.paper)
    decreases |turns|
  {
    hide *;
    if turns == [] then []
    else
      var u := TakeTurn(cfg, scoped, review, s, p, turns[0]);
      HeardIn(scoped, turns[0], u) +
      (if u.ending.Some? then [] else Heard(cfg, scoped, review, u.service, u.progress, turns[1..]))
  }

  lemma JudgeFollows(cfg: Settings, s: Service, q: Request, readAt: real, maxFailures: nat, es: seq<HealthEvent>)
    requires WellFormed(s.paper) && Follows(s.health, maxFailures, es)
    ensures Follows(Judge(cfg, s, q, readAt).service.health, maxFailures, es)
  {
    hide EvaluateStep, WellFormed, Follows, ReadRegistry;
    ReadTracks(s.health, maxFailures, es, readAt);
  }

  lemma AdmitFollows(
    cfg: Settings, scoped: bool, review: Review, s: Service, p: Progress, t: Turn, maxFailures: nat, es: seq<HealthEvent>)
    requires WellFormed(s.paper) && Follows(s.health, maxFailures, es)
    ensures var st := Admit(cfg, scoped, review, s, p, t);
      Follows(st.service.health, maxFailures,
        es + (if scoped then Signals(t.asking) else []) + (if st.arm.Some? then Signals(t.consuming) else []))
  {
    hide DeliverAll, WellFormed, Follows, Signals, SortedSet, IsCanary;
    var asked := if scoped then DeliverAll(cfg, s, t.asking) else s;
    var trace := es + (if scoped then Signals(t.asking) else []);
    assert es + [] == es && trace + [] == trace;
    if scoped { DeliveriesFollow(cfg, s, t.asking, maxFailures, es); }
    DeliveriesFollow(cfg, asked, t.consuming, maxFailures, trace);
  }

  lemma ReviseFollows(
    cfg: Settings, review: Review, st: Stage, s: Service, a: Attempt, t: Turn, maxFailures: nat, es: seq<HealthEvent>)
    requires WellFormed(s.paper) && Follows(s.health, maxFailures, es)
    ensures var u := Revise(cfg, review, st, s, a, t);
      Follows(u.service.health, maxFailures, es) && |u.attempts| == 1 && u.attempts[0].(revision := a.revision) == a
  {
    hide WellFormed, Follows, Judge, RequestFor, EndingOf;
    JudgeFollows(cfg, s, RequestFor(review, s, st.progress, st.decidedAtMs, ["operator_control_changed"]), t.againReadAt,
                 maxFailures, es);
  }

  lemma ConcludeFollows(cfg: Settings, review: Review, st: Stage, t: Turn, maxFailures: nat, es: seq<HealthEvent>)
    requires WellFormed(st.service.paper) && Follows(st.service.health, maxFailures, es)
    ensures var u := Conclude(cfg, review, st, t);
      |u.attempts| == 1 &&
      Follows(u.service.health, maxFailures, es + (if u.attempts[0].binding.Some? then Signals(t.binding) else []))
  {
    hide WellFormed, Follows, Judge, RequestFor, EndingOf, Revise, DeliverAll, Signals;
    var q := RequestFor(review, st.service, st.progress, st.decidedAtMs, st.progress.rejections);
    var j := Judge(cfg, st.service, q, t.modeReadAt);
    JudgeFollows(cfg, st.service, q, t.modeReadAt, maxFailures, es);
    assert es + [] == es;
    if j.outcome.Decided? && j.outcome.decision.approved {
      var attempt := Attempt(st.operator, st.arm, Some(Evaluation(st.service.paper, q, j.outcome)), None, None);
      if st.operator.None? {
        ReviseFollows(cfg, review, st, j.service, attempt, t, maxFailures, es);
      } else {
        var noted := attempt.(binding := Some(Binding(j.outcome.decision, st.operator.value, t.bound)));
        DeliveriesFollow(cfg, j.service, t.binding, maxFailures, es);
        ReviseFollows(cfg, review, st, DeliverAll(cfg, j.service, t.binding), noted, t, maxFailures, es + Signals(t.binding));
      }
    }
  }

  /** The pass evaluated in the mode that this trace declares. */
  ghost predicate EvaluatedUnder(a: Attempt, maxFailures: nat, trace: seq<HealthEvent>) {
    a.evaluation.Some? ==> a.evaluation.value.request.mode == DeclaredMode(maxFailures, trace)
  }

  /** A pass that got past the wait, told apart by how it ends. */
  lemma PassFollows(
    cfg: Settings, scoped: bool, review: Review, st: Stage, t: Turn, maxFailures: nat, es: seq<HealthEvent>, heard: seq<HealthEvent>)
    requires WellFormed(st.service.paper) && Follows(st.service.health, maxFailures, es + heard)
    requires heard == Signals(t.waiting) + (if scoped then Signals(t.asking) else []) + (if st.arm.Some? then Signals(t.consuming) else [])
    ensures var u := Conclude(cfg, review, st, t);
      && |u.attempts| == 1 && HeardBefore(scoped, t, u) == heard
      && Follows(u.service.health, maxFailures, es + HeardIn(scoped, t, u))
      && EvaluatedUnder(u.attempts[0], maxFailures, es + heard)
  {
    hide WellFormed, Follows, Signals, Conclude, DeclaredMode, ModeOf, Genuine;
    var u := Conclude(cfg, review, st, t);
    ConcludeRecords(cfg, review, st, t);
    ConcludeFollows(cfg, review, st, t, maxFailures, es + heard);
    ModeIsDeclared(st.service.health, maxFailures, es + heard);
    var last := if u.attempts[0].binding.Some? then Signals(t.binding) else [];
    assert es + heard + last == es + (heard + last);
  }

  lemma TurnFollows(
    cfg: Settings, scoped: bool, review: Review, s: Service, p: Progress, t: Turn, maxFailures: nat, es: seq<HealthEvent>)
    requires WellFormed(s.paper) && Follows(s.health, maxFailures, es)
    ensures var u := TakeTurn(cfg, scoped, review, s, p, t);
      && Follows(u.service.health, maxFailures, es + HeardIn(scoped, t, u))
      && (u.attempts != [] ==> EvaluatedUnder(u.attempts[0], maxFailures, es + HeardBefore(scoped, t, u)))
  {
    hide WellFormed, Follows, DeliverAll, Signals, Conclude, Admit, InputsReady, DeclaredMode;
    var ready := DeliverAll(cfg, s, t.waiting);
    DeliveriesFollow(cfg, s, t.waiting, maxFailures, es);
    var u := TakeTurn(cfg, scoped, review, s, p, t);
    if InputsReady(cfg, ready.paper, review) {
      var st := Admit(cfg, scoped, review, ready, p, t);
      AdmitFollows(cfg, scoped, review, ready, p, t, maxFailures, es + Signals(t.waiting));
      var asking, consuming := if scoped then Signals(t.asking) else [], if st.arm.Some? then Signals(t.consuming) else [];
      var heard := Signals(t.waiting) + asking + consuming;
      assert es + Signals(t.waiting) + asking + consuming == es + heard;
      if st.arm == Some(ArmFails) {
        assert heard + [] == heard;
        hide EvaluatedUnder;
      } else {
        PassFollows(cfg, scoped, review, st, t, maxFailures, es, heard);
        hide HeardBefore, HeardIn, EvaluatedUnder;
      }
    } else {
      assert HeardIn(scoped, t, u) == Signals(t.waiting);
      hide HeardIn;
    }
  }

  /** Every pass evaluates in the mode declared by all that was heard up to then. */
  ghost predicate ModesDeclared(
    cfg: Settings, scoped: bool, review: Review, s: Service, p: Progress, turns: seq<Turn>, maxFailures: nat, es: seq<HealthEvent>)
    requires WellFormed(s.paper)
    decreases |turns|
  {
    hide *;
    turns != [] ==>
      var u := TakeTurn(cfg, scoped, review, s, p, turns[0]);
      && (u.attempts != [] ==> EvaluatedUnder(u.attempts[0], maxFailures, es + HeardBefore(scoped, turns[0], u)))
      && (u.ending.None? ==>
            ModesDeclared(cfg, scoped, review, u.service, u.progress, turns[1..], maxFailures, es + HeardIn(scoped, turns[0], u)))
  }

  /** Handling a review, the breakers keep following the trace, extended by what is heard meanwhile, and every pass
      evaluates in the mode that the trace declares at that moment. */
  lemma {:induction false} HandlingFollows(
    cfg: Settings, scoped: bool, review: Review, s: Service, p: Progress, turns: seq<Turn>, maxFailures: nat, es: seq<HealthEvent>)
    requires WellFormed(s.paper) && Follows(s.health, maxFailures, es)
    ensures Follows(HandleReview(cfg, scoped, review, s, p, turns).service.health, maxFailures,
                    es + Heard(cfg, scoped, review, s, p, turns))
    ensures ModesDeclared(cfg, scoped, review, s, p, turns, maxFailures, es)
    decreases |turns|
  {
    hide TakeTurn, WellFormed, Follows, HeardBefore, HeardIn, EvaluatedUnder;
    if turns == [] {
      assert es + [] == es;
    } else {
      var u := TakeTurn(cfg, scoped, review, s, p, turns[0]);
      var first := HeardIn(scoped, turns[0], u);
      TurnFollows(cfg, scoped, review, s, p, turns[0], maxFailures, es);
      assert first + [] == first;
      if u.ending.None? {
        HandlingFollows(cfg, scoped, review, u.service, u.progress, turns[1..], maxFailures, es + first);
        var heard := Heard(cfg, scoped, review, u.service, u.progress, turns[1..]);
        assert es + (first + heard) == es + first + heard;
      }
    }
  }
}
