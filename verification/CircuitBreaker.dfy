/** Circuit breakers: the objects, and what their state means in terms of the event history. */
module CircuitBreaker {
  import opened Common

  datatype BreakerState = Closed | Open | HalfOpen

  /** The fields of a breaker; times are seconds on a clock that need not behave. */
  datatype Breaker = Breaker(maxFailures: nat, cooldownS: real, state: BreakerState, failures: nat, openedAt: Option<real>)

  function NewBreaker(maxFailures: nat, cooldownS: real): Breaker {
    Breaker(maxFailures, cooldownS, Closed, 0, None)
  }

  function Probe(b: Breaker, now: real): Breaker {
    if b.state.Open? && b.openedAt.Some? && now - b.openedAt.value >= b.cooldownS then b.(state := HalfOpen) else b
  }

  function Trip(b: Breaker, now: real): Breaker { b.(state := Open, openedAt := Some(now)) }

  function Fail(b: Breaker, now: real): Breaker {
    var p := Probe(b, now);
    if p.state.HalfOpen? then Trip(p, now)
    else
      var counted := p.(failures := p.failures + 1);
      if counted.failures > b.maxFailures then Trip(counted, now) else counted
  }

  function Succeed(b: Breaker): Breaker { b.(failures := 0, state := Closed, openedAt := None) }

  // ----- the history of one breaker -----

  datatype Signal = Failure(at: real) | Success | Read(at: real)

  function Apply(b: Breaker, x: Signal): Breaker {
    match x
    case Failure(at) => Fail(b, at)
    case Success => Succeed(b)
    case Read(at) => Probe(b, at)
  }

  function After(b: Breaker, xs: seq<Signal>): Breaker {
    if xs == [] then b else Apply(After(b, xs[..|xs| - 1]), xs[|xs| - 1])
  }

  /** Failures since the last success. */
  function Streak(xs: seq<Signal>): nat {
    if xs == [] then 0
    else
      match xs[|xs| - 1]
      case Failure(_) => Streak(xs[..|xs| - 1]) + 1
      case Success => 0
      case Read(_) => Streak(xs[..|xs| - 1])
  }

  /** A breaker is closed exactly while its streak is within the maximum: times never matter. */
  lemma {:induction false} BreakerIsStreak(maxFailures: nat, cooldownS: real, xs: seq<Signal>)
    ensures var b := After(NewBreaker(maxFailures, cooldownS), xs);
      && b.maxFailures == maxFailures && b.cooldownS == cooldownS
      && (b.state.Closed? <==> Streak(xs) <= maxFailures)
      && (b.state.Closed? ==> b.failures == Streak(xs))
      && (!b.state.Closed? ==> b.failures > maxFailures && b.openedAt.Some?)
  {
    if xs != [] {
      BreakerIsStreak(maxFailures, cooldownS, xs[..|xs| - 1]);
    }
  }

  class CircuitBreaker {
    const maxFailures: nat
    const cooldownS: real
    var state: BreakerState
    var failures: nat
    var openedAt: Option<real>

    function View(): Breaker
      reads this
    {
      Breaker(maxFailures, cooldownS, state, failures, openedAt)
    }

    constructor (maxFailures: nat, cooldownS: real)
      ensures View() == NewBreaker(maxFailures, cooldownS)
    {
      this.maxFailures, this.cooldownS := maxFailures, cooldownS;
      state, failures, openedAt := Closed, 0, None;
    }

    method MaybeHalfOpen(now: real)
      modifies this`state
      ensures View() == Probe(old(View()), now)
    {
      if state.Open? && openedAt.Some? {
        if now - openedAt.value >= cooldownS {
          state := HalfOpen;
        }
      }
    }

    method TripNow(now: real)
      modifies this`state, this`openedAt
      ensures View() == Trip(old(View()), now)
    {
      state := Open;
      openedAt := Some(now);
    }

    method RecordFailure(now: real) returns (r: BreakerState)
      modifies this
      ensures View() == Fail(old(View()), now) && r == state
    {
      MaybeHalfOpen(now);
      if state.HalfOpen? {
        TripNow(now);
        return state;
      }
      failures := failures + 1;
      if failures > maxFailures {
        TripNow(now);
      }
      r := state;
    }

    method RecordSuccess() returns (r: BreakerState)
      modifies this
      ensures View() == Succeed(old(View())) && r == Closed
    {
      failures := 0;
      state := Closed;
      openedAt := None;
      r := state;
    }

    /** Reading the state may move an open breaker to its probing state. */
    method LlmAllowed(now: real) returns (allowed: bool)
      modifies this`state
      ensures View() == Probe(old(View()), now)
      ensures allowed == old(View()).state.Closed?
    {
      MaybeHalfOpen(now);
      allowed := state.Closed?;
    }
  }
}
