/** The coordinator's venue measurements, symbol by symbol, as authority registers. */
module VenueAuthority {
  import opened Common
  import opened Contracts
  import opened PaperState
  import opened PaperInvariants
  import opened PaperReplay
  import opened PaperRuns
  import opened Registers

  function VenueRegister(s: State, symbol: string): Register<Venue> {
    if symbol in s.venueVersions
    then At(s.venueVersions[symbol].observedAtMs, s.venueVersions[symbol].measurement)
    else Unset
  }

  /** What an event says about a symbol; a measurement for another profile or symbol says nothing. */
  function VenueMessage(e: Event, symbol: string): Register<Venue> {
    if e.VenueEvent? && e.venue.profile.Dev? && e.venue.symbol == symbol && symbol in DEV_UNIVERSE
    then At(e.venue.observedAtMs, Some(e.venue))
    else Unset
  }

  function VenueMessages(es: seq<Event>, symbol: string): (ms: seq<Register<Venue>>)
    ensures |ms| == |es|
  {
    seq(|es|, i requires 0 <= i < |es| => VenueMessage(es[i], symbol))
  }

  lemma VenueStep(cfg: Settings, s: State, e: Event, symbol: string)
    requires WellFormed(s)
    ensures VenueRegister(Next(cfg, s, e).state, symbol) == Join(VenueRegister(s, symbol), VenueMessage(e, symbol))
  {
    hide ApplyAccount, ApplyRegime, Restore, EvaluateStep, OrderedMap.Valid;
    match e {
      case AccountEvent(a) => AccountKeeps(cfg, s, a);
      case VenueEvent(v) =>
      case RegimeEvent(b, receivedAtMs) => RegimeKeeps(cfg, s, b, receivedAtMs);
      case RestoreEvent(ds) => RestoreFrame(cfg, s, ds);
      case EvaluateEvent(q) => EvaluationKeeps(cfg, s, q);
    }
  }

  /** After any run a symbol's register folds the measurements received for it, and the measurement an
      evaluation would use is that register's trusted content. */
  lemma {:induction false} VenueFollowsMessages(cfg: Settings, es: seq<Event>, symbol: string)
    ensures Base(cfg, Run(cfg, FRESH, es))
    ensures VenueRegister(Run(cfg, FRESH, es), symbol) == Fold(VenueMessages(es, symbol))
    ensures var n := Run(cfg, FRESH, es);
      (if symbol in n.venue then Some(n.venue[symbol]) else None)
      == (match Fold(VenueMessages(es, symbol)) case Unset => None case At(_, trusted) => trusted)
  {
    FreshStateRetained(cfg, {});
    RunBase(cfg, FRESH, es);
    if es != [] {
      var front, e := es[..|es| - 1], es[|es| - 1];
      VenueFollowsMessages(cfg, front, symbol);
      hide Next, LedgerInv, CacheInv, VenueInv, GateInv, OrderedMap.Valid, VenueRegister;
      VenueStep(cfg, Run(cfg, FRESH, front), e, symbol);
      assert VenueMessages(es, symbol)[..|es| - 1] == VenueMessages(front, symbol);
    }
    UsableIsTrusted(cfg, Run(cfg, FRESH, es), symbol);
  }

  lemma UsableIsTrusted(cfg: Settings, s: State, symbol: string)
    requires Base(cfg, s)
    ensures (if symbol in s.venue then Some(s.venue[symbol]) else None)
      == (match VenueRegister(s, symbol) case Unset => None case At(_, trusted) => trusted)
  {
    hide LedgerInv, CacheInv, GateInv, OrderedMap.Valid;
  }

  /** Two runs that received the same measurements of a symbol, in any order, any number of times and
      among any other events, trust the same measurement of it. */
  lemma VenueOrderIndependent(cfg: Settings, es: seq<Event>, fs: seq<Event>, symbol: string)
    requires forall m :: m in VenueMessages(es, symbol) ==> m in VenueMessages(fs, symbol)
    requires forall m :: m in VenueMessages(fs, symbol) ==> m in VenueMessages(es, symbol)
    ensures var n, m := Run(cfg, FRESH, es), Run(cfg, FRESH, fs);
      && VenueRegister(n, symbol) == VenueRegister(m, symbol)
      && (symbol in n.venue <==> symbol in m.venue)
      && (symbol in n.venue ==> n.venue[symbol] == m.venue[symbol])
  {
    hide Run, VenueMessages, VenueRegister, Fold;
    VenueFollowsMessages(cfg, es, symbol);
    VenueFollowsMessages(cfg, fs, symbol);
    OrderIndependent(VenueMessages(es, symbol), VenueMessages(fs, symbol));
  }
}
