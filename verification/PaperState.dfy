/** The PAPER coordinator as a state machine: its state, and the effect of each atomic step. */
module PaperState {
  import opened Common
  import opened Contracts
  import opened PaperPipeline

  datatype Reservation = Reservation(decision: Decision, reconciliationSeq: int)

  /** The newest observation time of a symbol, and its measurement unless that time is poisoned. */
  datatype VenueVersion = VenueVersion(observedAtMs: int, measurement: Option<Venue>)

  datatype State = State(
    account: Option<Account>, latestSeq: Option<int>, latestCapturedAtMs: Option<int>,
    venue: map<string, Venue>, venueVersions: map<string, VenueVersion>,
    decisions: OrderedMap<Review, Decision>, reservations: OrderedMap<TradeId, Reservation>,
    durableLoaded: bool, accountReady: bool,
    regime: OrderedMap<Intent, Option<RegimeBinding>>)
  {
    predicate RecoveryComplete() { durableLoaded && accountReady }

    function Revoked(): State { this.(account := None, accountReady := false) }
  }

  const FRESH := State(None, None, None, map[], map[], OrderedMap([], map[]), OrderedMap([], map[]), false, false,
                       OrderedMap([], map[]))

  /** What a call returns or raises. */
  datatype Outcome = Applied | Ignored | Decided(decision: Decision) | Unavailable | Refused | AlreadyRestored

  datatype Step = Step(state: State, outcome: Outcome)

  // ----- account snapshots and reconciliation -----

  function PositionsOf(ps: seq<Position>, t: TradeId): seq<Position> {
    if ps == [] then []
    else PositionsOf(ps[..|ps| - 1], t) + (if ps[|ps| - 1].lineage.trade == t then [ps[|ps| - 1]] else [])
  }

  function OrdersOf(os: seq<OpenOrder>, t: TradeId): seq<OpenOrder> {
    if os == [] then []
    else OrdersOf(os[..|os| - 1], t) + (if os[|os| - 1].lineage.trade == t then [os[|os| - 1]] else [])
  }

  predicate LineageMatches(d: Decision, l: Lineage) {
    l == Lineage(d.venueSymbol, d.review.intent.strategyId, d.review.intent.strategyRevision, d.review.intent, d, d.Trade())
  }

  predicate PositionMatches(d: Decision, p: Position) {
    LineageMatches(d, p.lineage) && p.side == d.review.intent.side && p.exitPlan == d.exitPlan
  }

  /** The snapshot shows the trade as a position or an open entry. */
  predicate Owned(t: TradeId, a: Account) {
    || (exists p :: p in a.positions && p.lineage.trade == t)
    || (exists o :: o in a.openOrders && o.lineage.trade == t && o.role.EntryOrder?)
  }

  predicate Represented(t: TradeId, a: Account) {
    || (exists p :: p in a.positions && p.lineage.trade == t)
    || (exists o :: o in a.openOrders && o.lineage.trade == t)
  }

  /** Some representation of the trade contradicts its durable lineage, or only protective orders remain. */
  predicate Conflicts(t: TradeId, r: Reservation, a: Account) {
    || (exists p :: p in a.positions && p.lineage.trade == t && !PositionMatches(r.decision, p))
    || (exists o :: o in a.openOrders && o.lineage.trade == t && !LineageMatches(r.decision, o.lineage))
    || (Represented(t, a) && !Owned(t, a))
  }

  /** A newer snapshot taken after the entry window shows nothing of the trade. */
  predicate ExpiredUnseen(t: TradeId, r: Reservation, a: Account) {
    && !Represented(t, a)
    && a.reconciliationSeq > r.reconciliationSeq
    && a.capturedAtMs > r.decision.review.intent.entryExpiresTsMs
  }

  predicate Released(t: TradeId, r: Reservation, a: Account) {
    Owned(t, a) || ExpiredUnseen(t, r, a)
  }

  function ReleasedTrades(m: OrderedMap<TradeId, Reservation>, a: Account): set<TradeId> {
    set t | t in m.items && Released(t, m.items[t], a)
  }

  predicate AnyConflict(m: OrderedMap<TradeId, Reservation>, a: Account) {
    exists t :: t in m.items && Conflicts(t, m.items[t], a)
  }

  /** All or nothing: a conflict revokes authority and keeps every reservation. */
  function Reconcile(s: State, a: Account): Step {
    if AnyConflict(s.reservations, a) then Step(s.Revoked(), Refused)
    else Step(s.(reservations := s.reservations.Drop(ReleasedTrades(s.reservations, a))), Applied)
  }

  function ApplyAccount(cfg: Settings, s: State, a: Account): Step {
    if s.latestSeq.Some? && a.reconciliationSeq < s.latestSeq.value then Step(s, Ignored)
    else if s.latestSeq.Some? && a.reconciliationSeq == s.latestSeq.value then
      if s.account == Some(a) then Step(s, Ignored) else Step(s.Revoked(), Refused)
    else if s.latestCapturedAtMs.Some? && a.capturedAtMs < s.latestCapturedAtMs.value then
      Step(s.Revoked().(latestSeq := Some(a.reconciliationSeq)), Refused)
    else
      var adopted := s.(latestSeq := Some(a.reconciliationSeq), latestCapturedAtMs := Some(a.capturedAtMs),
                        account := Some(a), accountReady := AccountStanding(cfg, a));
      if adopted.accountReady then Reconcile(adopted, a) else Step(adopted, Applied)
  }

  // ----- venue measurements and regime bindings -----

  function ApplyVenue(s: State, v: Venue): Step {
    if !v.profile.Dev? || v.symbol !in DEV_UNIVERSE then Step(s, Refused)
    else if v.symbol in s.venueVersions && v.observedAtMs < s.venueVersions[v.symbol].observedAtMs then Step(s, Ignored)
    else if v.symbol in s.venueVersions && v.observedAtMs == s.venueVersions[v.symbol].observedAtMs then
      if s.venueVersions[v.symbol].measurement == Some(v) then Step(s, Ignored)
      else Step(s.(venue := s.venue - {v.symbol},
                   venueVersions := s.venueVersions[v.symbol := VenueVersion(v.observedAtMs, None)]), Refused)
    else Step(s.(venue := s.venue[v.symbol := v],
                 venueVersions := s.venueVersions[v.symbol := VenueVersion(v.observedAtMs, Some(v))]), Applied)
  }

  /** Intents of decisions that could still be replayed. */
  function RetainedIntents(s: State): set<Intent> {
    (set k | k in s.decisions.items :: s.decisions.items[k].review.intent) +
    (set t | t in s.reservations.items :: s.reservations.items[t].decision.review.intent)
  }

  function ApplyRegime(cfg: Settings, s: State, b: RegimeBinding, receivedAtMs: int): Step {
    if cfg.regimePolicy.None? || !b.wellFormed || b.boundAtMs > receivedAtMs then Step(s, Refused)
    else if b.intent in s.regime.items then
      if s.regime.items[b.intent] == Some(b) then Step(s, Ignored)
      else Step(s.(regime := s.regime.Put(b.intent, None)), Refused)
    else Step(s.(regime := Evict(s.regime.Put(b.intent, Some(b)), RetainedIntents(s), cfg.decisionCacheSize)), Applied)
  }

  // ----- durable recovery -----

  predicate Recoverable(cfg: Settings, d: Decision) {
    && d.approved && d.tradingMode.PaperMode? && d.profile.Dev?
    && d.accountId == cfg.accountId && d.venueSymbol in DEV_UNIVERSE
  }

  predicate ClashesWith(s: State, d: Decision) {
    d.Trade() in s.reservations.items && s.reservations.items[d.Trade()].decision != d
  }

  function Remember(s: State, d: Decision): State {
    s.(reservations := s.reservations.Put(d.Trade(), Reservation(d, 0)), decisions := s.decisions.Put(d.review, d))
  }

  /** The reservations entered before the list ends or a decision is refused. */
  function RememberAll(cfg: Settings, s: State, ds: seq<Decision>): Step {
    if ds == [] then Step(s, Applied)
    else
      var before := RememberAll(cfg, s, ds[..|ds| - 1]);
      var d := ds[|ds| - 1];
      if !before.outcome.Applied? then before
      else if !Recoverable(cfg, d) || ClashesWith(before.state, d) then Step(before.state, Refused)
      else Step(Remember(before.state, d), Applied)
  }

  function ReservedReviews(m: OrderedMap<TradeId, Reservation>): set<Review> {
    set t | t in m.items :: m.items[t].decision.review
  }

  function TrimCache(cfg: Settings, s: State): State {
    s.(decisions := Evict(s.decisions, ReservedReviews(s.reservations), cfg.decisionCacheSize))
  }

  function Restore(cfg: Settings, s: State, ds: seq<Decision>): Step {
    if s.durableLoaded then Step(s, AlreadyRestored)
    else
      var loaded := RememberAll(cfg, s, ds);
      if !loaded.outcome.Applied? then loaded
      else
        var s1 := TrimCache(cfg, loaded.state).(durableLoaded := true);
        if s1.account.None? then Step(s1, Applied)
        else
          var s2 := s1.(accountReady := AccountStanding(cfg, s1.account.value));
          if s2.accountReady then Reconcile(s2, s1.account.value) else Step(s2, Applied)
  }

  // ----- evaluation -----

  datatype Request = Request(
    review: Review, allocation: Option<StrategicAllocation>, decidedAtMs: int, mode: SystemMode, admission: seq<string>)

  predicate RegimePoisoned(s: State, i: Intent) {
    i in s.regime.items && s.regime.items[i].None?
  }

  /** The reasons an evaluation is told, with the poison of its own binding added. */
  function AdmissionFor(cfg: Settings, s: State, q: Request): seq<string> {
    if Adaptive(cfg, q.review.intent) && RegimePoisoned(s, q.review.intent)
    then Dedup(q.admission + ["regime_bound_allocation_conflict"])
    else q.admission
  }

  function LedgerOf(m: OrderedMap<TradeId, Reservation>): seq<Decision>
    requires m.Valid()
  {
    seq(|m.keys|, i requires 0 <= i < |m.keys| => m.items[m.keys[i]].decision)
  }

  function VenueFor(s: State, q: Request): Option<Venue> {
    var expected := DevSymbol(q.review.intent.symbol);
    if expected.Some? && expected.value in s.venue then Some(s.venue[expected.value]) else None
  }

  function InputsFor(cfg: Settings, s: State, q: Request, v: Venue): Inputs
    requires s.reservations.Valid()
  {
    Inputs(q.review, v, s.account, q.allocation, q.decidedAtMs, q.mode, ViewOf(LedgerOf(s.reservations)),
           AdmissionFor(cfg, s, q),
           if q.review.intent in s.regime.items then s.regime.items[q.review.intent] else None)
  }

  /** Caches a fresh decision and reserves it when approved. */
  function Record(cfg: Settings, s: State, d: Decision): State {
    var cached := s.(decisions := s.decisions.Put(d.review, d).MoveToEnd(d.review));
    var seqNow := if s.latestSeq.Some? then s.latestSeq.value else 0;
    TrimCache(cfg, if d.approved then cached.(reservations := s.reservations.Put(d.Trade(), Reservation(d, seqNow))) else cached)
  }

  function EvaluateStep(cfg: Settings, s: State, q: Request): Step
    requires s.reservations.Valid()
  {
    if !s.RecoveryComplete() then Step(s, Unavailable)
    else if q.review in s.decisions.items && AdmissionFor(cfg, s, q) == [] then
      Step(s.(decisions := s.decisions.MoveToEnd(q.review)), Decided(s.decisions.items[q.review]))
    else if VenueFor(s, q).None? then Step(s, Unavailable)
    else
      var x := InputsFor(cfg, s, q, VenueFor(s, q).value);
      if !ReservationsValid(x.reservations) || Decide(cfg, x).Raised? then Step(s, Refused)
      else if x.admission != [] then Step(s, Decided(Decide(cfg, x).value))
      else Step(Record(cfg, s, Decide(cfg, x).value), Decided(Decide(cfg, x).value))
  }

  // ----- runs -----

  datatype Event =
    | AccountEvent(account: Account)
    | VenueEvent(venue: Venue)
    | RegimeEvent(binding: RegimeBinding, receivedAtMs: int)
    | RestoreEvent(decisions: seq<Decision>)
    | EvaluateEvent(request: Request)

  function Next(cfg: Settings, s: State, e: Event): Step
    requires s.reservations.Valid()
  {
    match e
    case AccountEvent(a) => ApplyAccount(cfg, s, a)
    case VenueEvent(v) => ApplyVenue(s, v)
    case RegimeEvent(b, receivedAtMs) => ApplyRegime(cfg, s, b, receivedAtMs)
    case RestoreEvent(ds) => Restore(cfg, s, ds)
    case EvaluateEvent(q) => EvaluateStep(cfg, s, q)
  }
}
