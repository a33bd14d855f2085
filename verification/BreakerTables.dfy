/** A dictionary of breaker objects, created closed on first use. */
module BreakerTables {
  import opened CircuitBreaker

  function Lookup(m: map<string, Breaker>, k: string, maxFailures: nat, cooldownS: real): Breaker {
    if k in m then m[k] else NewBreaker(maxFailures, cooldownS)
  }

  /** Breaker objects are never shared between keys. */
  ghost predicate Owns(items: map<string, CircuitBreaker>, owner: map<CircuitBreaker, string>) {
    forall k :: k in items ==> items[k] in owner && owner[items[k]] == k
  }

  lemma Alone(items: map<string, CircuitBreaker>, owner: map<CircuitBreaker, string>, k: string)
    requires Owns(items, owner) && k in items
    ensures items[k] in owner && forall j :: j in items && j != k ==> items[j] != items[k]
  {
    assert forall j :: j in items && j != k ==> owner[items[j]] == j;
  }

  class BreakerTable {
    const maxFailures: nat
    const cooldownS: real
    var items: map<string, CircuitBreaker>
    ghost var objects: set<CircuitBreaker>
    ghost var owner: map<CircuitBreaker, string>

    ghost predicate Valid()
      reads this
    {
      Owns(items, owner) && objects == owner.Keys
    }

    /** What the breakers show. */
    ghost function Contents(): map<string, Breaker>
      reads this, objects
    {
      map k | k in items && items[k] in objects :: items[k].View()
    }

    constructor (maxFailures: nat, cooldownS: real)
      ensures Valid() && objects == {} && Contents() == map[]
      ensures this.maxFailures == maxFailures && this.cooldownS == cooldownS
    {
      this.maxFailures, this.cooldownS := maxFailures, cooldownS;
      items, objects, owner := map[], {}, map[];
    }

    method Obtain(k: string) returns (b: CircuitBreaker)
      requires Valid()
      modifies this
      ensures Valid() && fresh(objects - old(objects)) && old(objects) <= objects
      ensures k in items && items[k] == b && b in objects
      ensures Contents() == old(Contents())[k := Lookup(old(Contents()), k, maxFailures, cooldownS)]
    {
      if k in items {
        b := items[k];
      } else {
        b := new CircuitBreaker(maxFailures, cooldownS);
        items := items[k := b];
        objects := objects + {b};
        owner := owner[b := k];
      }
    }

    method RecordFailure(k: string, now: real)
      requires Valid()
      modifies this, objects
      ensures Valid() && fresh(objects - old(objects)) && old(objects) <= objects
      ensures Contents() == old(Contents())[k := Fail(Lookup(old(Contents()), k, maxFailures, cooldownS), now)]
    {
      hide Fail, Lookup, CircuitBreaker.View, Owns;
      var b := Obtain(k);
      Alone(items, owner, k);
      var r := b.RecordFailure(now);
    }

    method RecordSuccess(k: string)
      requires Valid()
      modifies this, objects
      ensures Valid() && fresh(objects - old(objects)) && old(objects) <= objects
      ensures Contents() == old(Contents())[k := Succeed(Lookup(old(Contents()), k, maxFailures, cooldownS))]
    {
      hide Succeed, Lookup, CircuitBreaker.View, Owns;
      var b := Obtain(k);
      Alone(items, owner, k);
      var r := b.RecordSuccess();
    }

    method Allowed(k: string, now: real) returns (allowed: bool)
      requires Valid()
      modifies this, objects
      ensures Valid() && fresh(objects - old(objects)) && old(objects) <= objects
      ensures Contents() == old(Contents())[k := Probe(Lookup(old(Contents()), k, maxFailures, cooldownS), now)]
      ensures allowed == Lookup(old(Contents()), k, maxFailures, cooldownS).state.Closed?
    {
      hide Probe, Lookup, CircuitBreaker.View, Owns;
      var b := Obtain(k);
      Alone(items, owner, k);
      assert Contents()[k] == b.View();
      allowed := b.LlmAllowed(now);
    }

    /** The keys whose breaker does not allow use; every breaker is read once. */
    method DownKeys(now: real) returns (down: set<string>)
      requires Valid()
      modifies this, objects
      ensures Valid() && fresh(objects - old(objects)) && old(objects) <= objects
      ensures Contents() == map k | k in old(Contents()) :: Probe(old(Contents())[k], now)
      ensures down == set k | k in old(Contents()) && !old(Contents())[k].state.Closed?
    {
      assert forall k :: k in items ==> items[k] in objects;
      hide Probe, CircuitBreaker.View, Owns;
      down := {};
      var rest := items.Keys;
      ghost var start := Contents();
      while rest != {}
        invariant Valid() && objects == old(objects) && items == old(items) && rest <= items.Keys
        invariant forall k :: k in items ==> items[k] in objects
        invariant forall k :: k in start ==> items[k].View() == if k in rest then start[k] else Probe(start[k], now)
        invariant down == set k | k in start && k !in rest && !start[k].state.Closed?
        decreases rest
      {
        var k :| k in rest;
        Alone(items, owner, k);
        var b := items[k];
        var allowed := b.LlmAllowed(now);
        if !allowed {
          down := down + {k};
        }
        rest := rest - {k};
      }
    }
  }
}
