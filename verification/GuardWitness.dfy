/** A reason that lapses: an approval whose binding is refused, and which a later pass still publishes. */
module GuardWitness {
  import opened Common
  import opened Contracts
  import opened PaperPipeline
  import opened PaperState
  import opened PaperInvariants
  import opened PaperRuns
  import opened LegacyAuthority
  import opened HealthMode
  import opened ServiceState
  import opened PublicationGuard
  import Past = PaperWitness

  // ----- passes over an ordinary idea -----

  lemma OneDelivery(cfg: Settings, s: Service, e: Event)
    requires WellFormed(s.paper)
    ensures DeliverAll(cfg, s, []) == s
    ensures DeliverAll(cfg, s, [PaperDelivery(e)]) == s.(paper := Next(cfg, s.paper, e).state)
  {
    hide Next, OrderedMap.Valid;
    assert [PaperDelivery(e)][..0] == [];
  }

  lemma OrdinaryStage(cfg: Settings, review: Review, s: Service, t: Turn)
    requires WellFormed(s.paper) && !IsCanary(review) && t.asking == [] && t.operator.Some?
    ensures Admit(cfg, true, review, s, UNSTARTED, t) == Stage(s, UNSTARTED, t.operator, t.observedNowMs, None)
  {
    hide WellFormed, IsCanary;
    assert DeliverAll(cfg, s, []) == s;
  }

  /** The pass approves, is refused the binding, and finds its inputs gone. */
  lemma RefusedPass(cfg: Settings, review: Review, s: Service, t: Turn, e: Event, n: State, d: Decision)
    requires WellFormed(s.paper) && WellFormed(n) && !IsCanary(review) && InputsReady(cfg, s.paper, review)
    requires t.waiting == [] && t.asking == [] && t.operator.Some? && t.binding == [PaperDelivery(e)] && !t.bound
    requires EvaluateStep(cfg, s.paper, RequestFor(review, s, UNSTARTED, t.observedNowMs, [])) == Step(n, Decided(d)) && d.approved
    requires !Next(cfg, n, e).state.RecoveryComplete()
    ensures var u := TakeTurn(cfg, true, review, s, UNSTARTED, t);
      && u.service == s.(paper := Next(cfg, n, e).state, health := ReadRegistry(ReadRegistry(s.health, t.modeReadAt), t.againReadAt))
      && u.progress == UNSTARTED && u.ending == None && |u.attempts| == 1
      && BindingRefused(u.attempts[0]) && u.attempts[0].binding.value.decision == d && RevisionUnavailable(u.attempts[0])
  {
    hide EvaluateStep, OrderedMap.Valid, IsCanary, Next, InputsReady, DeliverAll, Admit, ReadRegistry;
    OneDelivery(cfg, s, e);
    OrdinaryStage(cfg, review, s, t);
    NextWellFormed(cfg, n, e);
    var read := s.(paper := n, health := ReadRegistry(s.health, t.modeReadAt));
    OneDelivery(cfg, read, e);
    var gone := Next(cfg, n, e).state;
    Incomplete(cfg, gone, RequestFor(review, read.(paper := gone), UNSTARTED, t.observedNowMs, ["operator_control_changed"]));
    hide RequestFor;
  }

  lemma Incomplete(cfg: Settings, s: State, q: Request)
    requires WellFormed(s) && !s.RecoveryComplete()
    ensures EvaluateStep(cfg, s, q) == Step(s, Unavailable)
  {
  }

  /** The pass waits for one delivery, then evaluates and binds. */
  lemma BoundPass(cfg: Settings, review: Review, s: Service, t: Turn, e: Event, n: State, d: Decision)
    requires WellFormed(s.paper) && WellFormed(n) && !IsCanary(review) && n == Next(cfg, s.paper, e).state
    requires InputsReady(cfg, n, review)
    requires t.waiting == [PaperDelivery(e)] && t.asking == [] && t.operator.Some? && t.binding == [] && t.bound
    requires EvaluateStep(cfg, n, RequestFor(review, s.(paper := n), UNSTARTED, t.observedNowMs, [])).outcome == Decided(d)
    requires d.approved
    ensures var u := TakeTurn(cfg, true, review, s, UNSTARTED, t);
      && u.ending == Some(Published(d)) && |u.attempts| == 1
      && Accepted(u.attempts[0]) && u.attempts[0].evaluation.Some? && u.attempts[0].evaluation.value.request.admission == []
  {
    hide EvaluateStep, WellFormed, IsCanary, Next, InputsReady, DeliverAll, Admit, ReadRegistry;
    OneDelivery(cfg, s, e);
    OrdinaryStage(cfg, review, s.(paper := n), t);
    assert RequestFor(review, s.(paper := n), UNSTARTED, t.observedNowMs, []).admission == [];
    hide RequestFor;
  }

  // ----- the two passes -----

  const CALM := Registry(2, 300.0, map[], map[])

  /** The service knows the state before the approval, a strategic allocation, and no outage. */
  function Start(n: Past.Size): Service {
    Service(Past.Settled(n), AccountAuthority(None, None), CapitalAuthority(Some(Past.CAPITAL), Some(20)), CALM)
  }

  /** Under the same sequence number, another capture time: a conflict that revokes authority. */
  function Conflicting(n: Past.Size): Account { Past.Book(n).(capturedAtMs := 21) }

  function Newer(n: Past.Size): Account { Past.Book(n).(capturedAtMs := 21, reconciliationSeq := 2) }

  function First(n: Past.Size): Turn {
    Turn([], 30, [], Some(1), [], ArmMissing, 0.0, [PaperDelivery(AccountEvent(Conflicting(n)))], false, 0.0)
  }

  function Second(n: Past.Size): Turn {
    Turn([PaperDelivery(AccountEvent(Newer(n)))], 30, [], Some(2), [], ArmMissing, 0.0, [], true, 0.0)
  }

  /** The state after the approval is recorded. */
  function Reserved(n: Past.Size): State {
    var d := Past.Answer(n);
    Past.Settled(n).(decisions := OrderedMap([d.review], map[d.review := d]),
                     reservations := OrderedMap([d.Trade()], map[d.Trade() := Reservation(d, 1)]))
  }

  function Restored(n: Past.Size): State {
    Reserved(n).(account := Some(Newer(n)), latestSeq := Some(2), latestCapturedAtMs := Some(21))
  }

  lemma CalmIsNormal()
    ensures ModeOf(CALM) == Normal
  {
  }

  lemma AnswerOf(n: Past.Size)
    ensures var d := Past.Answer(n);
      && d.approved && d.review == Past.Reviewed(n) && !IsCanary(Past.Reviewed(n)) && Recoverable(Past.Cfg(n), d)
  {
    Past.ApprovalReachable(n);
    ApprovedOnOwnSymbol(Past.Cfg(n), Past.Settled(n), EvaluateEvent(Past.Asked(n)), Past.Answer(n));
    NewApprovalIsFresh(Past.Cfg(n), Past.Settled(n), EvaluateEvent(Past.Asked(n)), Past.Answer(n));
    hide Past.Answer, NewlyApproves, Run, Decide, ViewOf, Past.Distance, Recoverable;
  }

  lemma Recorded(cfg: Settings, s: State, d: Decision)
    requires s.decisions == OrderedMap([], map[]) && s.reservations == OrderedMap([], map[]) && s.latestSeq == Some(1)
    requires d.approved && cfg.decisionCacheSize >= 1
    ensures Record(cfg, s, d) ==
      s.(decisions := OrderedMap([d.review], map[d.review := d]),
         reservations := OrderedMap([d.Trade()], map[d.Trade() := Reservation(d, 1)]))
  {
    var cached := OrderedMap([d.review], map[d.review := d]);
    WithoutOne(cached.keys, 0);
    assert s.decisions.Put(d.review, d) == cached && cached.MoveToEnd(d.review) == cached;
    assert s.reservations.Put(d.Trade(), Reservation(d, 1)) == OrderedMap([d.Trade()], map[d.Trade() := Reservation(d, 1)]);
  }

  lemma Asks(n: Past.Size)
    ensures RequestFor(Past.Reviewed(n), Start(n), UNSTARTED, 30, []) == Past.Asked(n)
  {
    hide Past.Answer, Past.Distance, ModeOf;
    CalmIsNormal();
  }

  lemma Approves(n: Past.Size)
    ensures WellFormed(Past.Settled(n))
    ensures EvaluateStep(Past.Cfg(n), Past.Settled(n), Past.Asked(n)) == Step(Reserved(n), Decided(Past.Answer(n)))
  {
    hide Past.Answer, Run, EvaluateStep, Past.Distance, Record, Fresh;
    AnswerOf(n);
    Past.ApprovalReachable(n);
    var cfg, s, e := Past.Cfg(n), Past.Settled(n), EvaluateEvent(Past.Asked(n));
    NewApprovalIsFresh(cfg, s, e, Past.Answer(n));
    Recorded(cfg, s, Past.Answer(n));
  }

  lemma Revokes(n: Past.Size)
    ensures ApplyAccount(Past.Cfg(n), Reserved(n), Conflicting(n)) == Step(Reserved(n).Revoked(), Refused)
  {
    hide Past.Answer, Past.Distance;
  }

  lemma Restores(n: Past.Size)
    ensures ApplyAccount(Past.Cfg(n), Reserved(n).Revoked(), Newer(n)) == Step(Restored(n), Applied)
  {
    hide Past.Answer, Past.Distance;
    AnswerOf(n);
    var s := Restored(n);
    assert Newer(n).positions == [] && Newer(n).openOrders == [];
    assert ReleasedTrades(s.reservations, Newer(n)) == {};
    WithoutNone(s.reservations.keys, {});
    assert s.reservations.Drop({}) == s.reservations;
    assert !AnyConflict(s.reservations, Newer(n));
    hide ReleasedTrades, AnyConflict;
  }

  lemma Replays(n: Past.Size, q: Request)
    requires q.review == Past.Reviewed(n) && q.admission == []
    ensures WellFormed(Restored(n)) && EvaluateStep(Past.Cfg(n), Restored(n), q).outcome == Decided(Past.Answer(n))
  {
    hide Past.Answer, Past.Distance, Decide, ViewOf, Record, VenueFor;
    AnswerOf(n);
  }

  lemma Ready(n: Past.Size)
    ensures InputsReady(Past.Cfg(n), Past.Settled(n), Past.Reviewed(n)) && InputsReady(Past.Cfg(n), Restored(n), Past.Reviewed(n))
  {
    hide Past.Answer, Past.Distance;
  }

  /** The service after the first pass. */
  function After(n: Past.Size): Service {
    Start(n).(paper := Reserved(n).Revoked(), health := ReadRegistry(ReadRegistry(CALM, 0.0), 0.0))
  }

  lemma FirstPass(n: Past.Size)
    ensures WellFormed(Start(n).paper)
    ensures var u := TakeTurn(Past.Cfg(n), true, Past.Reviewed(n), Start(n), UNSTARTED, First(n));
      && u.service == After(n) && u.progress == UNSTARTED && u.ending == None && |u.attempts| == 1
      && BindingRefused(u.attempts[0]) && u.attempts[0].binding.value.decision == Past.Answer(n)
      && RevisionUnavailable(u.attempts[0])
  {
    hide Past.Answer, Past.Distance, EvaluateStep, ApplyAccount, IsCanary, InputsReady, TakeTurn, ReadRegistry, RequestFor,
         Past.Settled, Reserved, Past.Asked;
    AnswerOf(n);
    Asks(n);
    Approves(n);
    Revokes(n);
    Ready(n);
    hide WellFormed;
    assert WellFormed(Reserved(n)) by { EvaluateWellFormed(Past.Cfg(n), Past.Settled(n), Past.Asked(n)); }
    RefusedPass(Past.Cfg(n), Past.Reviewed(n), Start(n), First(n), AccountEvent(Conflicting(n)), Reserved(n), Past.Answer(n));
  }

  lemma SecondPass(n: Past.Size)
    ensures WellFormed(After(n).paper)
    ensures var u := TakeTurn(Past.Cfg(n), true, Past.Reviewed(n), After(n), UNSTARTED, Second(n));
      && u.ending == Some(Published(Past.Answer(n))) && |u.attempts| == 1
      && Accepted(u.attempts[0]) && u.attempts[0].evaluation.Some? && u.attempts[0].evaluation.value.request.admission == []
  {
    hide Past.Answer, Past.Distance, EvaluateStep, ApplyAccount, IsCanary, InputsReady, TakeTurn, ReadRegistry,
         Past.Settled, Past.Asked;
    AnswerOf(n);
    Restores(n);
    Ready(n);
    Replays(n, RequestFor(Past.Reviewed(n), After(n).(paper := Restored(n)), UNSTARTED, 30, []));
    BoundPass(Past.Cfg(n), Past.Reviewed(n), After(n), Second(n), AccountEvent(Newer(n)), Restored(n), Past.Answer(n));
  }

  /** An approval is evaluated, its binding refused while a conflicting snapshot revokes authority, and the second
      evaluation finds no inputs; after a newer snapshot the next pass evaluates without reasons, binds the very
      same decision at a newer operator version and publishes it. */
  lemma ReasonCanLapse(n: Past.Size)
    ensures WellFormed(Start(n).paper)
    ensures var r := HandleReview(Past.Cfg(n), true, Past.Reviewed(n), Start(n), UNSTARTED, [First(n), Second(n)]);
      && |r.attempts| == 2 && r.ending == Published(Past.Answer(n)) && Past.Answer(n).approved
      && BindingRefused(r.attempts[0]) && r.attempts[0].binding.value.decision == Past.Answer(n)
      && RevisionUnavailable(r.attempts[0])
      && Accepted(r.attempts[1]) && r.attempts[1].evaluation.Some? && r.attempts[1].evaluation.value.request.admission == []
  {
    hide Past.Answer, Past.Distance, TakeTurn, WellFormed, After, Start, First, Second, Past.Reviewed, Past.Cfg, BindingRefused,
         RevisionUnavailable, Accepted;
    var turns := [First(n), Second(n)];
    AnswerOf(n);
    FirstPass(n);
    SecondPass(n);
    assert turns[1..] == [Second(n)] && turns[1..][1..] == [];
  }
}
