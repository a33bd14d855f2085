/** The service's own authorities: the legacy account snapshot and the strategic allocation. */
module LegacyAuthority {
  import opened Common
  import opened Contracts
  import opened Registers

  // ----- account snapshots -----

  datatype LegacyPosition = LegacyPosition(
    exchange: string, accountId: string, symbol: string, capturedAware: bool,
    signedQuantity: real, markPrice: Option<real>, entryPrice: Option<real>)

  /** The part of a snapshot that two deliveries of one version must agree on; a capture time
      without a time zone is None. */
  datatype LegacyContent = LegacyContent(
    exchange: string, accountId: string, capturedAt: Option<int>, reconciled: bool,
    equityUsd: real, peakEquityUsd: real, dailyPnlPct: real, positions: seq<LegacyPosition>)

  datatype LegacySnapshot = LegacySnapshot(messageId: string, detail: string, content: LegacyContent)

  datatype AccountAuthority = AccountAuthority(snapshot: Option<LegacySnapshot>, latestCapturedAt: Option<int>)

  predicate ForeignPosition(c: LegacyContent, p: LegacyPosition) {
    p.exchange != c.exchange || p.accountId != c.accountId
  }

  /** The first price that is present and not zero, else the entry price. */
  function PriceOf(p: LegacyPosition): Option<real> {
    if p.markPrice.Some? && p.markPrice.value != 0.0 then p.markPrice else p.entryPrice
  }

  function GrossExposure(ps: seq<LegacyPosition>): real {
    if ps == [] then 0.0
    else
      var p := ps[|ps| - 1];
      GrossExposure(ps[..|ps| - 1]) +
      (if p.signedQuantity != 0.0 && PriceOf(p).Some? then Abs(p.signedQuantity) * PriceOf(p).value else 0.0)
  }

  /** What deriving an account state from the snapshot accepts. */
  predicate AccountStateValid(c: LegacyContent) {
    && (forall i, j :: 0 <= i < j < |c.positions| ==> c.positions[i].symbol != c.positions[j].symbol)
    && 0.0 < c.equityUsd <= c.peakEquityUsd
    && GrossExposure(c.positions) >= 0.0
  }

  predicate Aware(c: LegacyContent) {
    c.capturedAt.Some? && forall i :: 0 <= i < |c.positions| ==> c.positions[i].capturedAware
  }

  predicate Trustworthy(c: LegacyContent) {
    && c.reconciled
    && (forall i :: 0 <= i < |c.positions| ==> !ForeignPosition(c, c.positions[i]))
    && AccountStateValid(c)
  }

  datatype Handled<S> = Handled(state: S, raised: bool)

  function HandleAccount(s: AccountAuthority, m: LegacySnapshot): Handled<AccountAuthority> {
    var c := m.content;
    if !Aware(c) then Handled(s, true)
    else
      var at := c.capturedAt.value;
      if s.latestCapturedAt.Some? && at < s.latestCapturedAt.value then Handled(s, false)
      else if s.latestCapturedAt == Some(at) then
        if s.snapshot.Some? && (!c.reconciled || s.snapshot.value.content != c)
        then Handled(s.(snapshot := None), false)
        else Handled(s, false)
      else if !Trustworthy(c) then Handled(AccountAuthority(None, Some(at)), c.reconciled)
      else Handled(AccountAuthority(Some(m), Some(at)), false)
  }

  /** The consumer drops authority whenever handling raises. */
  function ConsumeAccount(s: AccountAuthority, m: LegacySnapshot): AccountAuthority {
    var h := HandleAccount(s, m);
    if h.raised then h.state.(snapshot := None) else h.state
  }

  function AccountRegister(s: AccountAuthority): Register<LegacyContent> {
    match s.latestCapturedAt
    case None => Unset
    case Some(at) => At(at, if s.snapshot.Some? then Some(s.snapshot.value.content) else None)
  }

  /** What a snapshot says: its version with its content if that is trustworthy; nothing without a time zone. */
  function AccountSaid(m: LegacySnapshot): Option<Register<LegacyContent>> {
    if !Aware(m.content) then None
    else Some(At(m.content.capturedAt.value, if Trustworthy(m.content) then Some(m.content) else None))
  }

  ghost predicate AccountAuthorityInv(s: AccountAuthority) {
    s.snapshot.Some? ==>
      && Aware(s.snapshot.value.content) && Trustworthy(s.snapshot.value.content)
      && s.latestCapturedAt == s.snapshot.value.content.capturedAt
  }

  lemma AccountStep(s: AccountAuthority, m: LegacySnapshot)
    requires AccountAuthorityInv(s)
    ensures AccountAuthorityInv(ConsumeAccount(s, m))
    ensures AccountRegister(ConsumeAccount(s, m)) ==
      if AccountSaid(m).None? then Revoke(AccountRegister(s)) else Join(AccountRegister(s), AccountSaid(m).value)
  {
    hide AccountStateValid;
  }

  function ConsumeAccounts(ms: seq<LegacySnapshot>): AccountAuthority {
    if ms == [] then AccountAuthority(None, None) else ConsumeAccount(ConsumeAccounts(ms[..|ms| - 1]), ms[|ms| - 1])
  }

  lemma {:induction false} AccountFollowsMessages(ms: seq<LegacySnapshot>)
    ensures AccountAuthorityInv(ConsumeAccounts(ms))
    ensures AccountRegister(ConsumeAccounts(ms)) == Consume(ms, AccountSaid)
  {
    if ms != [] {
      AccountFollowsMessages(ms[..|ms| - 1]);
      AccountStep(ConsumeAccounts(ms[..|ms| - 1]), ms[|ms| - 1]);
      hide AccountSaid, AccountRegister, ConsumeAccount, AccountAuthorityInv;
    }
  }

  /** After any snapshots: the latest capture time is the newest version, and there is authority exactly when the
      aware snapshots agree on trustworthy content for it and none without a time zone came since it was first seen. */
  lemma AccountExact(ms: seq<LegacySnapshot>)
    ensures var s, newest := ConsumeAccounts(ms), Newest(ms, AccountSaid);
      && s.latestCapturedAt == (if newest.At? then Some(newest.version) else None)
      && (s.snapshot.Some? <==> Trusts(newest) && !RevokedSince(ms, AccountSaid, newest.version))
      && (s.snapshot.Some? ==> newest.trusted == Some(s.snapshot.value.content))
  {
    AccountFollowsMessages(ms);
    ConsumeExact(ms, AccountSaid);
    hide Newest, ConsumeAccounts, AccountSaid, RevokedSince, Consume;
  }

  /** Every arrangement of the snapshots ends in the same verdict. */
  ghost predicate AccountOrderFree(ms: seq<LegacySnapshot>) {
    forall ns :: multiset(ns) == multiset(ms) ==>
      AccountRegister(ConsumeAccounts(ns)) == AccountRegister(ConsumeAccounts(ms))
  }

  lemma AccountOrderFreeIff(ms: seq<LegacySnapshot>)
    ensures AccountOrderFree(ms) <==> OrderFree(ms, AccountSaid)
  {
    hide ConsumeAccounts, AccountSaid, Consume, AccountRegister, AccountAuthorityInv;
    AccountFollowsMessages(ms);
    if AccountOrderFree(ms) {
      forall ns | multiset(ns) == multiset(ms) ensures Consume(ns, AccountSaid) == Consume(ms, AccountSaid) {
        AccountFollowsMessages(ns);
      }
    }
    if OrderFree(ms, AccountSaid) {
      forall ns | multiset(ns) == multiset(ms)
        ensures AccountRegister(ConsumeAccounts(ns)) == AccountRegister(ConsumeAccounts(ms))
      {
        AccountFollowsMessages(ns);
      }
    }
  }

  /** All arrangements of the snapshots end in one verdict if and only if all have time zones, or the aware ones
      leave their newest version untrusted. */
  lemma AccountOrderMattersIff(ms: seq<LegacySnapshot>)
    ensures AccountOrderFree(ms)
      <==> (forall i :: 0 <= i < |ms| ==> Aware(ms[i].content)) || !Trusts(Newest(ms, AccountSaid))
  {
    hide Newest, AccountOrderFree, OrderFree, Aware, Trustworthy;
    OrderMattersIff(ms, AccountSaid);
    AccountOrderFreeIff(ms);
    assert forall i :: 0 <= i < |ms| ==> (AccountSaid(ms[i]).Some? <==> Aware(ms[i].content));
  }

  /** In those cases repetition does not matter either. */
  lemma AccountOrderIndependent(ms: seq<LegacySnapshot>, ns: seq<LegacySnapshot>)
    requires SameMembers(ms, ns)
    requires (forall i :: 0 <= i < |ms| ==> Aware(ms[i].content)) || !Trusts(Newest(ms, AccountSaid))
    ensures AccountRegister(ConsumeAccounts(ms)) == AccountRegister(ConsumeAccounts(ns))
  {
    AccountFollowsMessages(ms);
    AccountFollowsMessages(ns);
    hide Newest, ConsumeAccounts, Consume, AccountRegister, AccountAuthorityInv, Aware, SameMembers;
    OrderIrrelevant(ms, ns, AccountSaid);
  }

  /** A snapshot without a time zone revokes authority without a version, so its place matters. */
  lemma NaiveSnapshotOrderMatters(good: LegacySnapshot, naive: LegacySnapshot)
    requires Aware(good.content) && Trustworthy(good.content) && !Aware(naive.content)
    ensures ConsumeAccounts([naive, good]).snapshot == Some(good)
    ensures ConsumeAccounts([good, naive]).snapshot == None
  {
    hide AccountStateValid;
    assert [naive, good][..1] == [naive] && [good, naive][..1] == [good];
    assert [naive][..0] == [] && [good][..0] == [];
    assert ConsumeAccounts([naive]) == AccountAuthority(None, None);
    assert ConsumeAccounts([good]) == AccountAuthority(Some(good), good.content.capturedAt);
  }

  // ----- strategic allocations -----

  /** The four figures that make two allocations of one version agree. */
  datatype Policy = Policy(
    regime: Regime, stableReservePct: real, weights: multiset<(string, real)>, maxGrossLeverage: real)

  function PolicyOf(a: StrategicAllocation): Policy {
    Policy(a.regime, a.stableReservePct, multiset(a.strategyWeights), a.maxGrossLeverage)
  }

  datatype CapitalAuthority = CapitalAuthority(allocation: Option<StrategicAllocation>, latestProducedAt: Option<int>)

  function HandleAllocation(s: CapitalAuthority, a: StrategicAllocation): Handled<CapitalAuthority> {
    if a.producedAtMs.None? then Handled(s.(allocation := None), true)
    else
      var at := a.producedAtMs.value;
      if s.latestProducedAt.Some? && at < s.latestProducedAt.value then Handled(s, false)
      else if AllocationInvalid(a) then Handled(CapitalAuthority(None, Some(at)), true)
      else if s.latestProducedAt == Some(at) then
        if s.allocation.Some? && PolicyOf(a) != PolicyOf(s.allocation.value)
        then Handled(s.(allocation := None), false)
        else Handled(s, false)
      else Handled(CapitalAuthority(Some(a), Some(at)), false)
  }

  function ConsumeAllocation(s: CapitalAuthority, a: StrategicAllocation): CapitalAuthority {
    var h := HandleAllocation(s, a);
    if h.raised then h.state.(allocation := None) else h.state
  }

  function CapitalRegister(s: CapitalAuthority): Register<Policy> {
    match s.latestProducedAt
    case None => Unset
    case Some(at) => At(at, if s.allocation.Some? then Some(PolicyOf(s.allocation.value)) else None)
  }

  function CapitalSaid(a: StrategicAllocation): Option<Register<Policy>> {
    if a.producedAtMs.None? then None
    else Some(At(a.producedAtMs.value, if AllocationInvalid(a) then None else Some(PolicyOf(a))))
  }

  lemma CapitalStep(s: CapitalAuthority, a: StrategicAllocation)
    requires s.allocation.Some? ==> s.latestProducedAt.Some?
    ensures ConsumeAllocation(s, a).allocation.Some? ==> ConsumeAllocation(s, a).latestProducedAt.Some?
    ensures CapitalRegister(ConsumeAllocation(s, a)) ==
      if CapitalSaid(a).None? then Revoke(CapitalRegister(s)) else Join(CapitalRegister(s), CapitalSaid(a).value)
  {
    hide AllocationInvalid, PolicyOf;
  }

  function ConsumeAllocations(ms: seq<StrategicAllocation>): CapitalAuthority {
    if ms == [] then CapitalAuthority(None, None)
    else ConsumeAllocation(ConsumeAllocations(ms[..|ms| - 1]), ms[|ms| - 1])
  }

  lemma {:induction false} CapitalFollowsMessages(ms: seq<StrategicAllocation>)
    ensures ConsumeAllocations(ms).allocation.Some? ==> ConsumeAllocations(ms).latestProducedAt.Some?
    ensures CapitalRegister(ConsumeAllocations(ms)) == Consume(ms, CapitalSaid)
  {
    if ms != [] {
      CapitalFollowsMessages(ms[..|ms| - 1]);
      CapitalStep(ConsumeAllocations(ms[..|ms| - 1]), ms[|ms| - 1]);
      hide CapitalSaid, ConsumeAllocation, CapitalRegister;
    }
  }

  /** After any allocations: the latest production time is the newest version, and an allocation is trusted exactly
      when the dated ones agree on a valid policy for it and no undated one came since it was first seen. */
  lemma CapitalExact(ms: seq<StrategicAllocation>)
    ensures var s, newest := ConsumeAllocations(ms), Newest(ms, CapitalSaid);
      && s.latestProducedAt == (if newest.At? then Some(newest.version) else None)
      && (s.allocation.Some? <==> Trusts(newest) && !RevokedSince(ms, CapitalSaid, newest.version))
      && (s.allocation.Some? ==> newest.trusted == Some(PolicyOf(s.allocation.value)))
  {
    CapitalFollowsMessages(ms);
    ConsumeExact(ms, CapitalSaid);
    hide Newest, ConsumeAllocations, CapitalSaid, RevokedSince, PolicyOf, Consume;
  }

  /** Every arrangement of the allocations ends in the same trusted policy. */
  ghost predicate CapitalOrderFree(ms: seq<StrategicAllocation>) {
    forall ns :: multiset(ns) == multiset(ms) ==>
      CapitalRegister(ConsumeAllocations(ns)) == CapitalRegister(ConsumeAllocations(ms))
  }

  lemma CapitalOrderFreeIff(ms: seq<StrategicAllocation>)
    ensures CapitalOrderFree(ms) <==> OrderFree(ms, CapitalSaid)
  {
    hide ConsumeAllocations, CapitalSaid, Consume, CapitalRegister;
    CapitalFollowsMessages(ms);
    if CapitalOrderFree(ms) {
      forall ns | multiset(ns) == multiset(ms) ensures Consume(ns, CapitalSaid) == Consume(ms, CapitalSaid) {
        CapitalFollowsMessages(ns);
      }
    }
    if OrderFree(ms, CapitalSaid) {
      forall ns | multiset(ns) == multiset(ms)
        ensures CapitalRegister(ConsumeAllocations(ns)) == CapitalRegister(ConsumeAllocations(ms))
      {
        CapitalFollowsMessages(ns);
      }
    }
  }

  /** All arrangements of the allocations end in one trusted policy if and only if all are dated, or the dated ones
      leave their newest version untrusted. */
  lemma CapitalOrderMattersIff(ms: seq<StrategicAllocation>)
    ensures CapitalOrderFree(ms)
      <==> (forall i :: 0 <= i < |ms| ==> ms[i].producedAtMs.Some?) || !Trusts(Newest(ms, CapitalSaid))
  {
    hide Newest, CapitalOrderFree, OrderFree, AllocationInvalid, PolicyOf;
    OrderMattersIff(ms, CapitalSaid);
    CapitalOrderFreeIff(ms);
    assert forall i :: 0 <= i < |ms| ==> (CapitalSaid(ms[i]).Some? <==> ms[i].producedAtMs.Some?);
  }

  /** In those cases repetition does not matter either. */
  lemma CapitalOrderIndependent(ms: seq<StrategicAllocation>, ns: seq<StrategicAllocation>)
    requires SameMembers(ms, ns)
    requires (forall i :: 0 <= i < |ms| ==> ms[i].producedAtMs.Some?) || !Trusts(Newest(ms, CapitalSaid))
    ensures CapitalRegister(ConsumeAllocations(ms)) == CapitalRegister(ConsumeAllocations(ns))
  {
    CapitalFollowsMessages(ms);
    CapitalFollowsMessages(ns);
    hide Newest, ConsumeAllocations, Consume, CapitalRegister, SameMembers;
    OrderIrrelevant(ms, ns, CapitalSaid);
  }

  /** An undated allocation revokes the policy without a version, so its place matters. */
  lemma UndatedAllocationOrderMatters(good: StrategicAllocation, undated: StrategicAllocation)
    requires good.producedAtMs.Some? && !AllocationInvalid(good) && undated.producedAtMs.None?
    ensures ConsumeAllocations([undated, good]).allocation == Some(good)
    ensures ConsumeAllocations([good, undated]).allocation == None
  {
    hide AllocationInvalid, PolicyOf;
    assert [undated, good][..1] == [undated] && [good, undated][..1] == [good];
    assert [undated][..0] == [] && [good][..0] == [];
    assert ConsumeAllocations([undated]) == CapitalAuthority(None, None);
    assert ConsumeAllocations([good]) == CapitalAuthority(Some(good), good.producedAtMs);
  }
}
