/** What the service's message handlers change, and the guard around publishing a PAPER decision. */
module ServiceState {
  import opened Common
  import opened Contracts
  import opened PaperPipeline
  import opened PaperState
  import opened PaperInvariants
  import opened LegacyAuthority
  import opened HealthMode

  datatype Service = Service(paper: State, account: AccountAuthority, capital: CapitalAuthority, health: Registry)

  /** One delivery by another consumer while the review handler is waiting for something. */
  datatype Message =
    | PaperDelivery(event: Event)
    | AccountDelivery(snapshot: LegacySnapshot)
    | AllocationDelivery(allocation: StrategicAllocation)
    | HealthDelivery(signal: HealthEvent)

  function Deliver(cfg: Settings, s: Service, m: Message): (n: Service)
    requires WellFormed(s.paper)
    ensures WellFormed(n.paper)
  {
    hide Next, OrderedMap.Valid, ConsumeAccount, ConsumeAllocation, Handle;
    match m
    case PaperDelivery(e) =>
      NextWellFormed(cfg, s.paper, e);
      s.(paper := Next(cfg, s.paper, e).state)
    case AccountDelivery(a) => s.(account := ConsumeAccount(s.account, a))
    case AllocationDelivery(a) => s.(capital := ConsumeAllocation(s.capital, a))
    case HealthDelivery(e) => s.(health := Handle(s.health, e))
  }

  function DeliverAll(cfg: Settings, s: Service, ms: seq<Message>): (n: Service)
    requires WellFormed(s.paper)
    ensures WellFormed(n.paper)
    decreases |ms|
  {
    hide *;
    if ms == [] then s else Deliver(cfg, DeliverAll(cfg, s, ms[..|ms| - 1]), ms[|ms| - 1])
  }

  // ----- the world during one handled review -----

  /** What consuming the durable canary arm answers; a repository that fails ends the handling. */
  datatype ArmAnswer = ArmMissing | ArmInvalid | ArmValid(allocation: StrategicAllocation, decidedAtMs: int) | ArmFails

  /** One pass of the retry loop as the world plays it: what is delivered while the handler waits,
      asks for the operator snapshot, consumes the arm and binds; what those calls answer; what the
      clocks show.  A failed snapshot has no version. */
  datatype Turn = Turn(
    waiting: seq<Message>, observedNowMs: int,
    asking: seq<Message>, operator: Option<int>,
    consuming: seq<Message>, arm: ArmAnswer, modeReadAt: real,
    binding: seq<Message>, bound: bool, againReadAt: real)

  /** The handler's local variables that outlive a pass. */
  datatype Progress = Progress(allocation: Option<StrategicAllocation>, rejections: seq<string>, armChecked: bool)

  const UNSTARTED := Progress(None, [], false)

  datatype Ending = Published(decision: Decision) | DeadlinePassed | Failed | Pending

  /** What one pass asked of the world and of the coordinator; `revision` is the evaluation that follows when the
      approval just evaluated cannot be bound. */
  datatype Evaluation = Evaluation(before: State, request: Request, outcome: Outcome)
  datatype Binding = Binding(decision: Decision, version: int, accepted: bool)
  datatype Attempt = Attempt(
    operator: Option<int>, arm: Option<ArmAnswer>, evaluation: Option<Evaluation>, binding: Option<Binding>,
    revision: Option<Evaluation>)

  predicate IsCanary(review: Review) { review.intent.strategyId == CANARY_STRATEGY }

  /** The inputs the wait is for. */
  predicate InputsReady(cfg: Settings, s: State, review: Review) {
    var expected := DevSymbol(review.intent.symbol);
    && s.RecoveryComplete()
    && expected.Some? && expected.value in s.venue
    && (!Adaptive(cfg, review.intent) || review.intent in s.regime.items)
  }

  // ----- sorted sets of reasons -----

  predicate LexLess(a: string, b: string) {
    b != "" && (a == "" || a[0] < b[0] || (a[0] == b[0] && LexLess(a[1..], b[1..])))
  }

  function Insert(x: string, xs: seq<string>): (r: seq<string>)
    ensures forall y :: y in r ==> y == x || y in xs
    ensures x in r && forall y :: y in xs ==> y in r
  {
    if xs == [] || LexLess(x, xs[0]) then [x] + xs
    else if x == xs[0] then xs
    else [xs[0]] + Insert(x, xs[1..])
  }

  function SortedSet(xs: seq<string>): (r: seq<string>)
    ensures forall y :: y in r ==> y in xs
    ensures forall y :: y in xs ==> y in r
  {
    if xs == [] then [] else Insert(xs[0], SortedSet(xs[1..]))
  }

  // ----- one pass -----

  datatype Stage = Stage(
    service: Service, progress: Progress, operator: Option<int>, decidedAtMs: int, arm: Option<ArmAnswer>)

  /** Reads the operator's control, then consumes the arm of a canary at most once. */
  function Admit(cfg: Settings, scoped: bool, review: Review, s: Service, p: Progress, t: Turn): (r: Stage)
    requires WellFormed(s.paper)
    ensures WellFormed(r.service.paper)
  {
    hide *;
    var asked := if scoped then DeliverAll(cfg, s, t.asking) else s;
    var operator := if scoped then t.operator else None;
    var told := if operator.None? then p.(rejections := SortedSet(p.rejections + ["operator_control_unavailable"])) else p;
    if !IsCanary(review) || p.armChecked || operator.None? then Stage(asked, told, operator, t.observedNowMs, None)
    else
      var consumed, checked := DeliverAll(cfg, asked, t.consuming), told.(armChecked := true);
      match t.arm
      case ArmFails => Stage(consumed, told, operator, t.observedNowMs, Some(t.arm))
      case ArmMissing =>
        Stage(consumed, checked.(rejections := ["technical_canary_arm_missing"]), operator, t.observedNowMs, Some(t.arm))
      case ArmInvalid =>
        Stage(consumed, checked.(rejections := ["technical_canary_arm_invalid"]), operator, t.observedNowMs, Some(t.arm))
      case ArmValid(a, at) => Stage(consumed, checked.(allocation := Some(a)), operator, at, Some(t.arm))
  }

  function RequestFor(review: Review, s: Service, p: Progress, decidedAtMs: int, rejections: seq<string>): Request {
    Request(review, if IsCanary(review) then p.allocation else s.capital.allocation, decidedAtMs, ModeOf(s.health), rejections)
  }

  datatype Judged = Judged(service: Service, outcome: Outcome)

  /** Reads the system mode and evaluates. */
  function Judge(cfg: Settings, s: Service, q: Request, readAt: real): (r: Judged)
    requires WellFormed(s.paper)
    ensures WellFormed(r.service.paper)
  {
    hide EvaluateStep;
    EvaluateWellFormed(cfg, s.paper, q);
    var e := EvaluateStep(cfg, s.paper, q);
    Judged(s.(health := ReadRegistry(s.health, readAt), paper := e.state), e.outcome)
  }

  datatype Turned = Turned(service: Service, progress: Progress, ending: Option<Ending>, attempts: seq<Attempt>)

  /** Authority outside the coordinator refused the approval: evaluate again with that reason. */
  function Revise(cfg: Settings, review: Review, st: Stage, s: Service, attempt: Attempt, t: Turn): (r: Turned)
    requires WellFormed(s.paper)
    ensures WellFormed(r.service.paper)
  {
    hide *;
    var q := RequestFor(review, s, st.progress, st.decidedAtMs, ["operator_control_changed"]);
    var j := Judge(cfg, s, q, t.againReadAt);
    Turned(j.service, st.progress, EndingOf(j.outcome), [attempt.(revision := Some(Evaluation(s.paper, q, j.outcome)))])
  }

  function EndingOf(r: Outcome): Option<Ending> {
    match r
    case Decided(d) => Some(Published(d))
    case Unavailable => None
    case _ => Some(Failed)
  }

  /** Evaluates, and lets an approval out only once it is bound to the operator version just read. */
  function Conclude(cfg: Settings, review: Review, st: Stage, t: Turn): (r: Turned)
    requires WellFormed(st.service.paper)
    ensures WellFormed(r.service.paper)
  {
    hide *;
    var q := RequestFor(review, st.service, st.progress, st.decidedAtMs, st.progress.rejections);
    var j := Judge(cfg, st.service, q, t.modeReadAt);
    var attempt := Attempt(st.operator, st.arm, Some(Evaluation(st.service.paper, q, j.outcome)), None, None);
    if !(j.outcome.Decided? && j.outcome.decision.approved) then
      Turned(j.service, st.progress, EndingOf(j.outcome), [attempt])
    else if st.operator.None? then Revise(cfg, review, st, j.service, attempt, t)
    else
      var s := DeliverAll(cfg, j.service, t.binding);
      var noted := attempt.(binding := Some(Binding(j.outcome.decision, st.operator.value, t.bound)));
      if t.bound then Turned(s, st.progress, Some(Published(j.outcome.decision)), [noted])
      else Revise(cfg, review, st, s, noted, t)
  }

  function TakeTurn(cfg: Settings, scoped: bool, review: Review, s: Service, p: Progress, t: Turn): (r: Turned)
    requires WellFormed(s.paper)
    ensures WellFormed(r.service.paper)
  {
    hide *;
    var ready := DeliverAll(cfg, s, t.waiting);
    if !InputsReady(cfg, ready.paper, review) then Turned(ready, p, Some(DeadlinePassed), [])
    else
      var st := Admit(cfg, scoped, review, ready, p, t);
      if st.arm == Some(ArmFails)
      then Turned(st.service, st.progress, Some(Failed), [Attempt(st.operator, st.arm, None, None, None)])
      else Conclude(cfg, review, st, t)
  }

  // ----- the retry loop -----

  datatype Report = Report(service: Service, ending: Ending, attempts: seq<Attempt>)

  /** Passes until one ends the handling, or the given part of the world's behaviour is used up. */
  function HandleReview(cfg: Settings, scoped: bool, review: Review, s: Service, p: Progress, turns: seq<Turn>): (r: Report)
    requires WellFormed(s.paper)
    ensures WellFormed(r.service.paper)
    decreases |turns|
  {
    hide *;
    if turns == [] then Report(s, Pending, [])
    else
      var u := TakeTurn(cfg, scoped, review, s, p, turns[0]);
      if u.ending.Some? then Report(u.service, u.ending.value, u.attempts)
      else
        var rest := HandleReview(cfg, scoped, review, u.service, u.progress, turns[1..]);
        rest.(attempts := u.attempts + rest.attempts)
  }
}
