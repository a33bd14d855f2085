/** Authority registers: the newest version wins, and disagreement at one version poisons it. */
module Registers {
  import opened Common

  /** No message yet, or the newest version with its content unless that version is untrusted. */
  datatype Register<C> = Unset | At(version: int, trusted: Option<C>)

  function Join<C(==)>(a: Register<C>, b: Register<C>): Register<C> {
    if a.Unset? then b
    else if b.Unset? then a
    else if a.version != b.version then (if a.version < b.version then b else a)
    else if a.trusted == b.trusted then a
    else At(a.version, None)
  }

  /** Joins form a semilattice. */
  lemma JoinLaws<C>(a: Register<C>, b: Register<C>, c: Register<C>)
    ensures Join(a, b) == Join(b, a)
    ensures Join(a, Join(b, c)) == Join(Join(a, b), c)
    ensures Join(a, a) == a
  {
  }

  /** Messages applied one after another. */
  function Fold<C(==)>(ms: seq<Register<C>>): Register<C> {
    if ms == [] then Unset else Join(Fold(ms[..|ms| - 1]), ms[|ms| - 1])
  }

  /** `r` is the newest version of `ms`, trusted exactly when all its messages agree on one valid content. */
  ghost predicate IsNewest<C(!new)>(ms: seq<Register<C>>, r: Register<C>) {
    if r.Unset? then forall m :: m in ms ==> m.Unset?
    else
      && (exists m :: m in ms && m.At? && m.version == r.version)
      && (forall m :: m in ms && m.At? ==> m.version <= r.version)
      && (r.trusted.Some? ==> forall m :: m in ms && m.At? && m.version == r.version ==> m.trusted == r.trusted)
      && (r.trusted.None? ==> forall c :: exists m :: m in ms && m.At? && m.version == r.version && m.trusted != Some(c))
  }

  lemma {:induction false} FoldIsNewest<C(!new)>(ms: seq<Register<C>>)
    ensures IsNewest(ms, Fold(ms))
  {
    if ms != [] {
      var front, last := ms[..|ms| - 1], ms[|ms| - 1];
      FoldIsNewest(front);
      assert ms == front + [last];
      NewestJoin(front, last);
    }
  }

  lemma NewestJoin<C(!new)>(front: seq<Register<C>>, last: Register<C>)
    requires IsNewest(front, Fold(front))
    ensures IsNewest(front + [last], Join(Fold(front), last))
  {
    var before, ms, r := Fold(front), front + [last], Join(Fold(front), last);
    assert forall m :: m in ms ==> m in front || m == last;
    assert forall m :: m in front ==> m in ms;
    assert last in ms;
    if r.At? && r.trusted.None? {
      forall c: C ensures exists m :: m in ms && m.At? && m.version == r.version && m.trusted != Some(c) {
        if last.At? && last.version == r.version && last.trusted != Some(c) {
          assert last in ms;
        } else {
          var m :| m in front && m.At? && m.version == r.version && m.trusted != Some(c);
          assert m in ms;
        }
      }
    }
  }

  /** There is only one newest verdict on a set of messages. */
  lemma NewestUnique<C(!new)>(ms: seq<Register<C>>, ns: seq<Register<C>>, r: Register<C>, q: Register<C>)
    requires IsNewest(ms, r) && IsNewest(ns, q)
    requires forall m :: m in ms ==> m in ns
    requires forall m :: m in ns ==> m in ms
    ensures r == q
  {
    if r.At? && q.At? {
      if r.trusted.Some? && q.trusted.Some? {
        var m :| m in ms && m.At? && m.version == r.version;
        assert m in ns;
      }
    }
  }

  /** The register depends on the set of messages only: order and repetition do not matter. */
  lemma OrderIndependent<C(!new)>(ms: seq<Register<C>>, ns: seq<Register<C>>)
    requires forall m :: m in ms ==> m in ns
    requires forall m :: m in ns ==> m in ms
    ensures Fold(ms) == Fold(ns)
  {
    FoldIsNewest(ms);
    FoldIsNewest(ns);
    NewestUnique(ms, ns, Fold(ms), Fold(ns));
  }

  // ----- messages that carry no version -----

  /** What a message without a version leaves: the same version, no longer trusted. */
  function Revoke<C>(r: Register<C>): Register<C> {
    if r.Unset? then r else At(r.version, None)
  }

  /** Messages applied one after another; `said` is None for one that carries no version. */
  function Consume<M, C(==)>(ms: seq<M>, said: M -> Option<Register<C>>): Register<C> {
    if ms == [] then Unset
    else
      var before, now := Consume(ms[..|ms| - 1], said), said(ms[|ms| - 1]);
      if now.None? then Revoke(before) else Join(before, now.value)
  }

  /** What the messages that carry a version say. */
  function Versioned<M, C>(ms: seq<M>, said: M -> Option<Register<C>>): seq<Register<C>> {
    if ms == [] then []
    else
      var now := said(ms[|ms| - 1]);
      Versioned(ms[..|ms| - 1], said) + (if now.Some? then [now.value] else [])
  }

  function Newest<M, C(==)>(ms: seq<M>, said: M -> Option<Register<C>>): Register<C> { Fold(Versioned(ms, said)) }

  /** Message `m` is of version `v`. */
  predicate Says<M, C>(said: M -> Option<Register<C>>, m: M, v: int) {
    said(m).Some? && said(m).value.At? && said(m).value.version == v
  }

  /** A message without a version arrived after the version was first seen. */
  ghost predicate RevokedSince<M, C>(ms: seq<M>, said: M -> Option<Register<C>>, v: int) {
    exists i, j :: 0 <= i < j < |ms| && Says(said, ms[i], v) && said(ms[j]).None?
  }

  ghost predicate RevokedLate<M, C>(ms: seq<M>, said: M -> Option<Register<C>>) {
    Newest(ms, said).At? && RevokedSince(ms, said, Newest(ms, said).version)
  }

  lemma {:induction false} VersionedMembers<M(!new), C>(ms: seq<M>, said: M -> Option<Register<C>>)
    ensures forall i :: 0 <= i < |ms| && said(ms[i]).Some? ==> said(ms[i]).value in Versioned(ms, said)
    ensures forall r :: r in Versioned(ms, said) ==> exists i :: 0 <= i < |ms| && said(ms[i]) == Some(r)
  {
    if ms != [] {
      var front := ms[..|ms| - 1];
      VersionedMembers(front, said);
      forall r | r in Versioned(ms, said) ensures exists i :: 0 <= i < |ms| && said(ms[i]) == Some(r) {
        if r in Versioned(front, said) {
          var i :| 0 <= i < |front| && said(front[i]) == Some(r);
          assert said(ms[i]) == Some(r);
        } else {
          assert said(ms[|ms| - 1]) == Some(r);
        }
      }
    }
  }

  /** The newest version was said by some message, and none says a newer one. */
  lemma NewestSaid<M(!new), C(!new)>(ms: seq<M>, said: M -> Option<Register<C>>)
    ensures Newest(ms, said).At? ==> exists i :: 0 <= i < |ms| && Says(said, ms[i], Newest(ms, said).version)
    ensures forall i, v :: 0 <= i < |ms| && Says(said, ms[i], v) ==> Newest(ms, said).At? && v <= Newest(ms, said).version
  {
    VersionedMembers(ms, said);
    FoldIsNewest(Versioned(ms, said));
    hide Versioned, Fold;
    if Newest(ms, said).At? {
      var m :| m in Versioned(ms, said) && m.At? && m.version == Newest(ms, said).version;
      var i :| 0 <= i < |ms| && said(ms[i]) == Some(m);
      assert Says(said, ms[i], Newest(ms, said).version);
    }
  }

  /** A versioned last message revokes nothing. */
  lemma SameRevocation<M, C>(ms: seq<M>, said: M -> Option<Register<C>>, v: int)
    requires ms != [] && said(ms[|ms| - 1]).Some?
    ensures RevokedSince(ms, said, v) <==> RevokedSince(ms[..|ms| - 1], said, v)
  {
    var front := ms[..|ms| - 1];
    if RevokedSince(front, said, v) {
      var i, j :| 0 <= i < j < |front| && Says(said, front[i], v) && said(front[j]).None?;
      assert Says(said, ms[i], v) && said(ms[j]).None?;
    }
    if RevokedSince(ms, said, v) {
      var i, j :| 0 <= i < j < |ms| && Says(said, ms[i], v) && said(ms[j]).None?;
      assert Says(said, front[i], v) && said(front[j]).None?;
    }
  }

  /** After any messages the register is at their newest version, and trusted exactly when the versioned messages
      agree on it and no message without a version arrived since it was first seen. */
  lemma {:induction false} ConsumeExact<M(!new), C(!new)>(ms: seq<M>, said: M -> Option<Register<C>>)
    ensures Consume(ms, said) == if RevokedLate(ms, said) then At(Newest(ms, said).version, None) else Newest(ms, said)
  {
    if ms != [] {
      var front, last := ms[..|ms| - 1], ms[|ms| - 1];
      ConsumeExact(front, said);
      NewestSaid(front, said);
      if said(last).Some? {
        assert Newest(ms, said) == Join(Newest(front, said), said(last).value) by {
          assert Versioned(ms, said)[..|Versioned(ms, said)| - 1] == Versioned(front, said);
        }
        if Newest(front, said).At? { SameRevocation(ms, said, Newest(front, said).version); }
        if Newest(ms, said).At? { SameRevocation(ms, said, Newest(ms, said).version); }
      } else {
        assert Versioned(ms, said) == Versioned(front, said);
        if Newest(front, said).At? {
          var i :| 0 <= i < |front| && Says(said, front[i], Newest(front, said).version);
          assert Says(said, ms[i], Newest(ms, said).version) && said(ms[|ms| - 1]).None?;
        }
      }
    }
  }

  // ----- exactly when the order matters -----

  ghost predicate AllVersioned<M, C>(ms: seq<M>, said: M -> Option<Register<C>>) {
    forall i :: 0 <= i < |ms| ==> said(ms[i]).Some?
  }

  predicate Trusts<C>(r: Register<C>) { r.At? && r.trusted.Some? }

  ghost predicate SameMembers<M>(ms: seq<M>, ns: seq<M>) {
    (forall m :: m in ms ==> m in ns) && (forall m :: m in ns ==> m in ms)
  }

  lemma SameNewest<M(!new), C(!new)>(ms: seq<M>, ns: seq<M>, said: M -> Option<Register<C>>)
    requires SameMembers(ms, ns)
    ensures Newest(ms, said) == Newest(ns, said)
  {
    VersionedMembers(ms, said);
    VersionedMembers(ns, said);
    hide Versioned, Fold;
    forall r | r in Versioned(ms, said) ensures r in Versioned(ns, said) {
      var i :| 0 <= i < |ms| && said(ms[i]) == Some(r);
      assert ms[i] in ms;
      var j :| 0 <= j < |ns| && ns[j] == ms[i];
    }
    forall r | r in Versioned(ns, said) ensures r in Versioned(ms, said) {
      var i :| 0 <= i < |ns| && said(ns[i]) == Some(r);
      assert ns[i] in ns;
      var j :| 0 <= j < |ms| && ms[j] == ns[i];
    }
    OrderIndependent(Versioned(ms, said), Versioned(ns, said));
  }

  /** Without unversioned messages, or without a trusted newest version, order and repetition do not matter. */
  lemma OrderIrrelevant<M(!new), C(!new)>(ms: seq<M>, ns: seq<M>, said: M -> Option<Register<C>>)
    requires SameMembers(ms, ns) && (AllVersioned(ms, said) || !Trusts(Newest(ms, said)))
    ensures Consume(ns, said) == Consume(ms, said)
  {
    ConsumeExact(ms, said);
    ConsumeExact(ns, said);
    SameNewest(ms, ns, said);
    hide Consume, Newest;
    if AllVersioned(ms, said) {
      forall j | 0 <= j < |ns| ensures said(ns[j]).Some? {
        assert ns[j] in ns;
      }
    }
  }

  /** The messages that carry a version, or those that do not, in order. */
  function Sorted<M, C>(ms: seq<M>, said: M -> Option<Register<C>>, versioned: bool): seq<M> {
    if ms == [] then []
    else Sorted(ms[..|ms| - 1], said, versioned) + (if said(ms[|ms| - 1]).Some? == versioned then [ms[|ms| - 1]] else [])
  }

  lemma {:induction false} SortedKind<M(!new), C>(ms: seq<M>, said: M -> Option<Register<C>>, versioned: bool)
    ensures forall m :: m in Sorted(ms, said, versioned) ==> said(m).Some? == versioned
  {
    if ms != [] { SortedKind(ms[..|ms| - 1], said, versioned); }
  }

  lemma {:induction false} SortedParts<M, C>(ms: seq<M>, said: M -> Option<Register<C>>)
    ensures multiset(Sorted(ms, said, true)) + multiset(Sorted(ms, said, false)) == multiset(ms)
  {
    if ms != [] {
      var front, last := ms[..|ms| - 1], ms[|ms| - 1];
      SortedParts(front, said);
      assert ms == front + [last];
      assert multiset(Sorted(ms, said, true)) + multiset(Sorted(ms, said, false))
        == multiset(Sorted(front, said, true)) + multiset(Sorted(front, said, false)) + multiset{last};
    }
  }

  lemma Rearranged<M>(ms: seq<M>, ns: seq<M>)
    requires multiset(ms) == multiset(ns)
    ensures SameMembers(ms, ns)
  {
    forall m | m in ms ensures m in ns {
      assert m in multiset(ms);
    }
    forall m | m in ns ensures m in ms {
      assert m in multiset(ns);
    }
  }

  /** With every unversioned message first, the newest version stays trusted. */
  lemma BareFirst<M(!new), C(!new)>(ms: seq<M>, bare: seq<M>, dated: seq<M>, said: M -> Option<Register<C>>)
    requires (forall m :: m in bare ==> said(m).None?) && (forall m :: m in dated ==> said(m).Some?)
    requires SameMembers(ms, bare + dated)
    ensures Consume(bare + dated, said) == Newest(ms, said)
  {
    var all := bare + dated;
    SameNewest(ms, all, said);
    ConsumeExact(all, said);
    hide Consume, Newest;
    assert forall k :: 0 <= k < |bare| ==> bare[k] in bare && all[k] == bare[k];
    assert forall k :: |bare| <= k < |all| ==> all[k] in dated;
  }

  /** With an unversioned message last, a trusted newest version is revoked. */
  lemma BareLast<M(!new), C(!new)>(ms: seq<M>, dated: seq<M>, bare: seq<M>, said: M -> Option<Register<C>>)
    requires (forall m :: m in bare ==> said(m).None?) && bare != [] && SameMembers(ms, dated + bare)
    requires Newest(ms, said).At?
    ensures Consume(dated + bare, said) == At(Newest(ms, said).version, None)
  {
    var all := dated + bare;
    SameNewest(ms, all, said);
    ConsumeExact(all, said);
    NewestSaid(all, said);
    hide Consume, Newest;
    assert forall k :: |dated| <= k < |all| ==> all[k] in bare;
    var i :| 0 <= i < |all| && Says(said, all[i], Newest(all, said).version);
    var j := |all| - 1;
    assert i < j && said(all[j]).None?;
  }

  lemma TwoOrders<M(!new), C(!new)>(ms: seq<M>, said: M -> Option<Register<C>>)
    requires !AllVersioned(ms, said) && Trusts(Newest(ms, said))
    ensures var dated, bare := Sorted(ms, said, true), Sorted(ms, said, false);
      && multiset(bare + dated) == multiset(ms) == multiset(dated + bare)
      && Consume(bare + dated, said) != Consume(dated + bare, said)
  {
    SortedParts(ms, said);
    SortedKind(ms, said, true);
    SortedKind(ms, said, false);
    hide Consume, Newest, Sorted, SameMembers;
    var dated, bare := Sorted(ms, said, true), Sorted(ms, said, false);
    assert multiset(bare + dated) == multiset(ms) && multiset(dated + bare) == multiset(ms);
    Rearranged(ms, bare + dated);
    Rearranged(ms, dated + bare);
    var j :| 0 <= j < |ms| && said(ms[j]).None?;
    assert ms[j] in multiset(ms);
    assert ms[j] in bare;
    BareFirst(ms, bare, dated, said);
    BareLast(ms, dated, bare, said);
  }

  /** Every arrangement of the messages leaves the same register. */
  ghost predicate OrderFree<M(!new), C>(ms: seq<M>, said: M -> Option<Register<C>>) {
    forall ns :: multiset(ns) == multiset(ms) ==> Consume(ns, said) == Consume(ms, said)
  }

  /** All arrangements of the messages agree if and only if each carries a version, or the versioned ones leave
      their newest version untrusted. */
  lemma OrderMattersIff<M(!new), C(!new)>(ms: seq<M>, said: M -> Option<Register<C>>)
    ensures OrderFree(ms, said) <==> AllVersioned(ms, said) || !Trusts(Newest(ms, said))
  {
    hide Consume, Newest, Sorted, AllVersioned;
    if AllVersioned(ms, said) || !Trusts(Newest(ms, said)) {
      forall ns | multiset(ns) == multiset(ms) ensures Consume(ns, said) == Consume(ms, said) {
        Rearranged(ms, ns);
        OrderIrrelevant(ms, ns, said);
      }
    } else {
      TwoOrders(ms, said);
    }
  }
}
