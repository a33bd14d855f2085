/** Small vocabulary shared by every module: options, results, and an insertion-ordered dictionary. */
module Common {

  datatype Option<+T> = None | Some(value: T)

  /** A value, or the exception that the source raises instead. */
  datatype Result<+T> = Ok(value: T) | Raised

  function Min(a: real, b: real): real { if a <= b then a else b }

  function Max(a: real, b: real): real { if a <= b then b else a }

  function Abs(a: real): real { if a < 0.0 then -a else a }

  /** ASCII white space, as stripping a string removes it. */
  predicate IsSpace(c: char) { c == ' ' || '\t' <= c <= '\r' || '\U{1C}' <= c <= '\U{1F}' }

  /** The list, with `item` appended when `condition` holds. */
  function Note<T>(list: seq<T>, condition: bool, item: T): seq<T> {
    if condition then list + [item] else list
  }

  /** The list with every member of `gone` dropped, order kept. */
  function Without<K(==)>(keys: seq<K>, gone: set<K>): seq<K> {
    if keys == [] then []
    else if keys[0] in gone then Without(keys[1..], gone)
    else [keys[0]] + Without(keys[1..], gone)
  }

  ghost predicate Distinct<K>(keys: seq<K>) {
    forall i, j :: 0 <= i < j < |keys| ==> keys[i] != keys[j]
  }

  /** A Python dictionary: `keys` is the insertion order. */
  datatype OrderedMap<K(==), +V> = OrderedMap(keys: seq<K>, items: map<K, V>) {

    ghost predicate Valid() {
      && Distinct(keys)
      && (forall k :: k in keys ==> k in items)
      && (forall k :: k in items ==> k in keys)
    }

    /** Assignment: a known key keeps its place, a new one goes to the end. */
    function Put(k: K, v: V): OrderedMap<K, V> {
      OrderedMap(if k in items then keys else keys + [k], items[k := v])
    }

    function Drop(gone: set<K>): OrderedMap<K, V> {
      OrderedMap(Without(keys, gone), items - gone)
    }

    function MoveToEnd(k: K): OrderedMap<K, V> {
      OrderedMap(Without(keys, {k}) + [k], items)
    }
  }

  lemma {:induction false} WithoutMembers<K>(keys: seq<K>, gone: set<K>)
    ensures forall k :: k in Without(keys, gone) ==> k in keys && k !in gone
    ensures forall k :: k in keys && k !in gone ==> k in Without(keys, gone)
    ensures Distinct(keys) ==> Distinct(Without(keys, gone))
  {
    if keys != [] {
      WithoutMembers(keys[1..], gone);
      var rest := Without(keys[1..], gone);
      assert forall k :: k in keys <==> k == keys[0] || k in keys[1..];
      if Distinct(keys) {
        assert Distinct(keys[1..]);
        assert keys[0] !in keys[1..];
        assert keys[0] !in rest;
      }
    }
  }

  lemma PutValid<K, V>(m: OrderedMap<K, V>, k: K, v: V)
    requires m.Valid()
    ensures m.Put(k, v).Valid()
  {
  }

  lemma DropValid<K, V>(m: OrderedMap<K, V>, gone: set<K>)
    requires m.Valid()
    ensures m.Drop(gone).Valid()
  {
    WithoutMembers(m.keys, gone);
  }

  lemma MoveToEndValid<K, V>(m: OrderedMap<K, V>, k: K)
    requires m.Valid() && k in m.items
    ensures m.MoveToEnd(k).Valid()
    ensures |m.MoveToEnd(k).keys| == |m.keys|
  {
    WithoutMembers(m.keys, {k});
    var i :| 0 <= i < |m.keys| && m.keys[i] == k;
    WithoutOne(m.keys, i);
  }

  lemma {:induction false} WithoutOne<K>(keys: seq<K>, i: nat)
    requires Distinct(keys) && i < |keys|
    ensures Without(keys, {keys[i]}) == keys[..i] + keys[i + 1..]
  {
    if i == 0 {
      WithoutNone(keys[1..], {keys[0]});
    } else {
      assert keys[i] == keys[1..][i - 1];
      WithoutOne(keys[1..], i - 1);
    }
  }

  lemma {:induction false} WithoutNone<K>(keys: seq<K>, gone: set<K>)
    requires forall k :: k in keys ==> k !in gone
    ensures Without(keys, gone) == keys
  {
    if keys != [] {
      WithoutNone(keys[1..], gone);
    }
  }

  /** Distinct entries drawn from a finite set cannot outnumber it. */
  lemma {:induction false} Pigeonhole<K>(keys: seq<K>, universe: set<K>)
    requires Distinct(keys)
    requires forall k :: k in keys ==> k in universe
    ensures |keys| <= |universe|
  {
    if keys != [] {
      Pigeonhole(keys[1..], universe - {keys[0]});
    }
  }

  // ----- bounded dictionaries -----

  /** The oldest key that nothing protects. */
  function FirstOutside<K(==)>(keys: seq<K>, kept: set<K>): (r: Option<K>)
    ensures r.Some? ==> r.value in keys && r.value !in kept
    ensures r.None? ==> forall k :: k in keys ==> k in kept
  {
    if keys == [] then None
    else if keys[0] !in kept then Some(keys[0])
    else FirstOutside(keys[1..], kept)
  }

  lemma {:induction false} WithoutShrinks<K>(keys: seq<K>, k: K)
    ensures |Without(keys, {k})| <= |keys|
    ensures k in keys ==> |Without(keys, {k})| < |keys|
  {
    if keys != [] { WithoutShrinks(keys[1..], k); }
  }

  /** Drops the oldest unprotected entries until at most `size` are left, or only protected ones. */
  function Evict<K(==), V>(m: OrderedMap<K, V>, kept: set<K>, size: nat): OrderedMap<K, V>
    decreases |m.keys|
  {
    var oldest := FirstOutside(m.keys, kept);
    if |m.keys| <= size || oldest.None? then m
    else
      WithoutShrinks(m.keys, oldest.value);
      Evict(m.Drop({oldest.value}), kept, size)
  }

  /** Eviction spares every protected entry, invents nothing, and meets its bound unless all that is left is protected. */
  lemma {:induction false} EvictSpares<K, V>(m: OrderedMap<K, V>, kept: set<K>, size: nat)
    requires m.Valid()
    ensures Evict(m, kept, size).Valid()
    ensures forall k :: k in Evict(m, kept, size).items ==> k in m.items && Evict(m, kept, size).items[k] == m.items[k]
    ensures forall k :: k in m.items && k in kept ==> k in Evict(m, kept, size).items
    ensures |Evict(m, kept, size).keys| <= size || forall k :: k in Evict(m, kept, size).keys ==> k in kept
    decreases |m.keys|
  {
    var oldest := FirstOutside(m.keys, kept);
    if |m.keys| > size && oldest.Some? {
      DropValid(m, {oldest.value});
      WithoutShrinks(m.keys, oldest.value);
      EvictSpares(m.Drop({oldest.value}), kept, size);
    }
  }

  lemma {:induction false} FirstOutsideAt<K>(keys: seq<K>, kept: set<K>) returns (p: nat)
    requires FirstOutside(keys, kept).Some?
    ensures p < |keys| && FirstOutside(keys, kept) == Some(keys[p])
    ensures forall q :: 0 <= q < p ==> keys[q] in kept
  {
    if keys[0] !in kept {
      p := 0;
    } else {
      var rest := FirstOutsideAt(keys[1..], kept);
      p := rest + 1;
    }
  }

  /** Nothing younger than a surviving unprotected key was dropped. */
  ghost predicate OldestGone<K, V>(keys: seq<K>, kept: set<K>, items: map<K, V>) {
    forall i, j :: 0 <= i < j < |keys| && keys[i] !in kept && keys[i] in items ==> keys[j] in items
  }

  /** Eviction takes the oldest unprotected entries, and no more of them than the size demands. */
  lemma {:induction false} EvictsOldest<K, V>(m: OrderedMap<K, V>, kept: set<K>, size: nat)
    requires m.Valid()
    ensures OldestGone(m.keys, kept, Evict(m, kept, size).items)
    ensures |m.keys| >= size ==> |Evict(m, kept, size).keys| >= size
    ensures |m.keys| <= size ==> Evict(m, kept, size) == m
    decreases |m.keys|
  {
    if |m.keys| > size && FirstOutside(m.keys, kept).Some? {
      var p := FirstOutsideAt(m.keys, kept);
      var smaller := m.Drop({m.keys[p]});
      DropValid(m, {m.keys[p]});
      WithoutOne(m.keys, p);
      EvictsOldest(smaller, kept, size);
      EvictSpares(smaller, kept, size);
      hide OldestGone, OrderedMap.Valid, FirstOutside;
      assert |smaller.keys| == |m.keys| - 1;
      assert Evict(m, kept, size) == Evict(smaller, kept, size);
      OldestStep(m.keys, smaller.keys, kept, Evict(smaller, kept, size).items, p);
    }
  }

  lemma OldestStep<K, V>(keys: seq<K>, fewer: seq<K>, kept: set<K>, items: map<K, V>, p: nat)
    requires p < |keys| && fewer == keys[..p] + keys[p + 1..] && (forall q :: 0 <= q < p ==> keys[q] in kept)
    requires OldestGone(fewer, kept, items) && keys[p] !in items
    ensures OldestGone(keys, kept, items)
  {
    forall i, j | 0 <= i < j < |keys| && keys[i] !in kept && keys[i] in items ensures keys[j] in items {
      assert i > p;
      assert fewer[i - 1] == keys[i] && fewer[j - 1] == keys[j];
    }
  }

  /** The eviction loop: pop the first evictable key while the dictionary is too long. */
  method EvictLoop<K(==), V>(m: OrderedMap<K, V>, kept: set<K>, size: nat) returns (r: OrderedMap<K, V>)
    ensures r == Evict(m, kept, size)
  {
    r := m;
    while |r.keys| > size
      invariant Evict(r, kept, size) == Evict(m, kept, size)
      decreases |r.keys|
    {
      var evictable := FirstOutside(r.keys, kept);
      if evictable.None? {
        break;
      }
      WithoutShrinks(r.keys, evictable.value);
      r := r.Drop({evictable.value});
    }
  }
}
