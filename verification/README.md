# A verified model of the Kairos risk manager

This project models the deterministic part of `kairos_risk`, the service that decides which trading
orders may be placed, and proves what its decisions guarantee. `dafny verify dfyconfig.toml` checks
everything.

## What is modelled

| part | files |
|---|---|
| PAPER decision pipeline: gates, sizing, economics, reservation aggregates | `PaperPipeline`, `PaperPolicy` |
| PAPER coordinator: account gate, venue registers, reservation ledger, replay cache, regime bindings | `PaperState`, `PaperRuntime`, `PaperInvariants`, `PaperReplay`, `PaperLedger`, `PaperRuns`, `PaperHandoff`, `PaperRecovery`, `PaperCaps`, `VenueAuthority`, `PaperWitness`, `CanaryWitness` |
| Authority registers of the service (account snapshots, strategic allocations) | `Registers`, `LegacyAuthority` |
| Circuit breakers, registry and health signals | `CircuitBreaker`, `BreakerTables`, `HealthMode`, `ServiceHealth` |
| Service object and the publication loop of a reviewed candidate | `ServiceState`, `RiskService`, `PublicationGuard`, `GuardWitness` |
| LIVE sizing, directed conversion and capital-budget proposals | `FloatGrid`, `LiveSizing`, `LiveEvaluation`, `CapitalBudget`, `LiveWitness` |
| Canary instrument binding and canonical decimals | `Decimals`, `CanaryInstrument` |
| Records of `kairos_core` and small tools | `Contracts`, `Common` |

Objects whose methods update fields are classes (`PaperRiskCoordinator`, `CircuitBreaker`,
`BreakerTable`, `CircuitBreakerRegistry`, `RiskService`). Each method is proved to perform exactly one
step of a specification function on the object's `View()`. Theorems about runs are lemmas on those
functions. Every coordinator method body of the source runs under one lock, so a call is one atomic
step, and a run is any sequence of steps in any order.

Conventions:

* A SHA-256 identity is the content that is hashed: two intents, reviews, decisions, snapshots or
  measurements share an identity exactly when they are equal. A trade is named by its intent, account and
  venue symbol. A metadata dictionary with exactly the canary's keys is a record; any other is opaque.
* Floats in `paper.py` and all decimals are reals; the tolerances 1e-6, 1e-9 and 1e-12 are kept. In
  `live.py` and `capital_budget_proposal.py` a float is an index on a grid of which only two facts are
  used: reading a decimal is monotone, and reading what a float spells gives that float back.
* An exception is an outcome. State changed before a `raise` stays changed.
* `RegimeBoundAllocationV1` validation and the policy's observation check are opaque fields of a binding; a
  regime policy is a number. Clock readings are arbitrary inputs and need not be monotone.
* Strings are stripped and lower-cased as ASCII. Integers are unbounded, as in the source language.

### Properties that hold under a condition

* `propose_capital_budget` on its own result: proposing again with the same facts need not change nothing. A
  policy fraction that no float spells (for instance 0.00249999999999999999999) is accepted once and then
  exceeds the fraction proposed for it. `CapitalBudget.ProposingTwiceCanFail` gives an instance and
  `CapitalBudget.ProposalSettlesIff` the exact condition, stated on the inputs and on the proposal: both fractions
  are spelled by floats and the caps are lowered to whole cents.
* Order independence of the legacy account and allocation handlers: a snapshot without a time zone, or an
  undated allocation, revokes authority without carrying a version, so where it arrives can matter
  (`LegacyAuthority.NaiveSnapshotOrderMatters`, `LegacyAuthority.UndatedAllocationOrderMatters`).
  `LegacyAuthority.AccountOrderMattersIff` and `LegacyAuthority.CapitalOrderMattersIff` say exactly when all
  orders agree: every message carries a version, or those that do leave the newest version untrusted.
* Replay of recovered approvals: approvals that the pipeline gave are on their intents' own symbols, and for
  those recovery forgets nothing (`PaperRecovery.OwnRecoveryReplays`, `PaperRuns.OwnApprovalsReplay`). Only a
  malformed record, whose venue symbol is not the one its intent maps to, can displace a genuine approval of
  the same review (`PaperRecovery.RecoveryCanForget`); recovery does not look at that symbol.
* One idea per symbol, at most one canary, and a cache of at most max(size, 5) hold in every run whose recovered
  approvals are on distinct symbols with at most one canary; a recovery that brings two approvals on one symbol
  reserves both (`PaperRecovery.RecoveredApartIff`).
* The caps that `_size_quantity` computes hold for every approval outside the canary. A canary may pass its
  computed capacity by 1e-12 units. While there is capacity the caps hold with that slack; once a cap is
  exhausted a canary of at most 1e-12 units is still approved and no slack bounds the excess:
  `CanaryWitness.CanaryBeyondCaps` recovers an approval of any notional from 10000 up that an earlier run gave, on
  an account whose equity is 10000 by then. `PaperPolicy.ApprovalWithinCaps` has the exact condition:
  bound quantity times entry is within the remaining room.
* The ledger's aggregate is refused by its own validation exactly when an idea is reserved whose strategy name has
  surrounding white space or is empty (`PaperRuns.ViewIsValid`); then nothing but replays is decided
  (`PaperRuns.UntrimmedBlocks`).
* Reasons that the review handler notes before it evaluates never lapse over its retries, but they are not a
  growing set: the outcome of a canary's arm replaces reasons noted earlier (`kairos_risk/service.py:344-364`).
  The reason of the second evaluation, after a refused binding, is not kept: it ends the handling with a published
  rejection, or a failure, if and only if the coordinator has its inputs at that moment (recovery complete and a
  measurement of the symbol). Only otherwise does the handling go on, and a later pass may publish the very decision whose binding
  was refused, newly bound (`PublicationGuard.RefusalIsFinal`, with an instance in `GuardWitness.ReasonCanLapse`).

## Model

| member | source | states |
|---|---|---|
| PaperPipeline.ReservationView | kairos_risk/paper.py:590-606 | The loop over the ledger computes the aggregate that every evaluation reads, strategy dictionary included. |
| PaperPipeline.ViewAggregates | kairos_risk/paper.py:44-82 | That aggregate's risk, notional, symbols, canary count and every per-strategy total are those of the approved decisions, and the strategy totals add up to the whole. |
| PaperPipeline.AccountGate | kairos_risk/paper.py:301-399 | Reasons and measured figures of the account gate, in order, for a present or missing account. |
| PaperPipeline.SumPositions | kairos_risk/paper.py:350-376 | The position loops compute stop risk, gross notional and own-strategy notional. |
| PaperPipeline.ScanOrders | kairos_risk/paper.py:377-391 | The pending-entry loop accumulates reasons and the notional still to be filled. |
| PaperPipeline.Evaluate | kairos_risk/paper.py:92-299 | The imperative pipeline produces exactly the specified decision or refusal. |
| PaperPipeline.EconomicsIsPerUnit | kairos_risk/paper.py:493-560 | The loss that `_economics` reports is the quantity times the per-unit loss that sizing divides by. |
| PaperPipeline.CapacityFits | kairos_risk/paper.py:512-545 | The computed capacity is positive if and only if per-unit loss, loss budget and notional cap all are; it then costs no more than the budget and buys no more than the cap. |
| PaperPolicy.ReviewGate | kairos_risk/paper.py:122-144 | Admission, intent, review, strategy, mode and clock raise nothing if and only if the review is admissible. |
| PaperPolicy.VenueGate | kairos_risk/paper.py:146-156 | The measurement adds nothing if and only if it is of the intent's own symbol, current, and allows entry. |
| PaperPolicy.StandingGate | kairos_risk/paper.py:313-325 | The account's standing raises nothing if and only if it is this PAPER/DEV account, reconciled, numbered and fresh. |
| PaperPolicy.ConflictGate | kairos_risk/paper.py:327-348 | No conflict is noted if and only if neither ledger nor account holds the symbol and a canary would be the only one. |
| PaperPolicy.GatesExact | kairos_risk/paper.py:122-193 | No reason is recorded before sizing if and only if a declared list of admission conditions holds. |
| PaperPolicy.ApprovedExactly | kairos_risk/paper.py:122-266 | An idea is approved if and only if every gate is open and its size, leverage, budget and minimum notional fit. |
| PaperPolicy.AdmissionReported | kairos_risk/paper.py:115-126 | Every rejection reason an evaluation is told is among the reasons of the rejection it decides. |
| PaperPolicy.ApprovalRecords | kairos_risk/paper.py:252-299 | What an approval records: identity, budget, quantity, notional, and a loss within budget plus 1e-6. |
| PaperPolicy.DecisionAddsUp | kairos_risk/paper.py:252-299 | Approved or not, a decision's notional, fees, slippage and loss follow from its own quantity and prices, a rejection has no quantity, and its clock never precedes the review. |
| PaperPolicy.ApprovalTerms | kairos_risk/paper.py:210-213 | An approval's leverage is what settings and allocation allow and at least one, and its cause is the binding exactly under the adaptive policy. |
| PaperPolicy.ApprovalKeepsRiskLimit | kairos_risk/paper.py:197-209 | Open plus reserved risk was below the portfolio limit before, and stays within it plus 1e-6 with the new loss. |
| PaperPolicy.NonCanaryNeverOverBudget | kairos_risk/paper.py:259-264 | Outside the canary the over-budget branch is unreachable in exact arithmetic. |
| PaperPolicy.ApprovalWithinCapacity | kairos_risk/paper.py:227-245 | An approved quantity is within the computed capacity (a canary: up to 1e-12) and a canary trades exactly its bound quantity. |
| PaperPolicy.WithinCapsIff | kairos_risk/paper.py:516-545 | A positive notional fits margin, gross, strategy, position, depth and assessed caps at once if and only if it is within the remaining room that sizing computes. |
| PaperPolicy.ApprovalWithinCaps | kairos_risk/paper.py:227-245 | An approval fits every cap if and only if its notional is within that room: always outside the canary; a canary's is its bound quantity times the entry, and while there is capacity it fits up to its slack. |
| PaperRuntime.PaperRiskCoordinator.constructor | kairos_risk/paper_runtime.py:51-64 | A new coordinator is in the fresh state. |
| PaperRuntime.PaperRiskCoordinator.ApplyRegimeAllocation | kairos_risk/paper_runtime.py:71-110 | Binds one intent's evidence, poisons it on contradiction, and evicts only bindings nothing could replay. |
| PaperRuntime.PaperRiskCoordinator.ApplyAccountSnapshot | kairos_risk/paper_runtime.py:161-198 | The monotone account register, its poison branches and the reconciliation it triggers. |
| PaperRuntime.PaperRiskCoordinator.ReconcileReservations | kairos_risk/paper_runtime.py:359-391 | The loop over the ledger removes exactly the released trades, or on any conflict removes nothing and revokes authority. |
| PaperRuntime.PaperRiskCoordinator.ReconcileOne | kairos_risk/paper_runtime.py:366-419 | One trade is in conflict exactly when a representation contradicts its lineage or only protective orders remain, and released exactly when owned or expired unseen. |
| PaperRuntime.PaperRiskCoordinator.ApplyVenueQuality | kairos_risk/paper_runtime.py:200-221 | The newest measurement per symbol wins and a contradiction at one time poisons it. |
| PaperRuntime.PaperRiskCoordinator.RestoreReservations | kairos_risk/paper_runtime.py:124-159 | One-time recovery; a refused decision leaves what was entered before it. |
| PaperRuntime.PaperRiskCoordinator.TrimDecisionCache | kairos_risk/paper_runtime.py:344-357 | The eviction loop ends and drops the oldest decisions that are not reserved until the cache fits. |
| PaperRuntime.PaperRiskCoordinator.Evaluate | kairos_risk/paper_runtime.py:252-322 | Availability, replay, poison, decision, cache and reservation in one atomic step. |
| Common.EvictSpares | kairos_risk/paper_runtime.py:344-357 | Eviction keeps every protected key, changes no value, and ends at the size or with only protected keys. |
| Common.EvictsOldest | kairos_risk/paper_runtime.py:344-357 | Eviction drops the oldest unprotected entries first and no more than the size demands. |
| Common.Pigeonhole | kairos_risk/paper_runtime.py:344-357 | Distinct keys from a finite universe are no more than its size: the reason five symbols bound the cache. |
| PaperInvariants.NextBase | kairos_risk/paper_runtime.py:124-391 | Every step keeps the gate, ledger, cache and venue invariants. |
| PaperReplay.NextRetained | kairos_risk/paper_runtime.py:124-391 | Every step keeps each reserved decision cached under its review, if no review was durably approved on two symbols. |
| PaperReplay.RecordWithinBound | kairos_risk/paper_runtime.py:293-357 | After a decision is recorded the cache holds no more than its size or the number of reservations. |
| PaperLedger.NextGuarded | kairos_risk/paper_runtime.py:124-391 | With durable approvals that may stand side by side, every step also keeps reserved symbols distinct, at most one canary, and the cache within its size or five. |
| PaperInvariants.EvaluateShape | kairos_risk/paper_runtime.py:269-322 | An evaluation leaves the state alone, only reorders the cache, or records one fresh decision. |
| PaperRuns.AggregateRisk | kairos_risk/paper_runtime.py:252-322 | In every run and interleaving, open plus reserved risk never exceeds both what the last snapshot itself showed and the limit plus one 1e-6; tolerances never add up. |
| PaperRuns.NoApprovalOverLimit | kairos_risk/paper.py:353-357 | A ledger at or over its limit admits nothing new. |
| PaperRuns.ReservationPersists | kairos_risk/paper_runtime.py:293-320 | A reservation leaves the ledger only when an applied authoritative snapshot shows it or was captured after its expiry. |
| PaperRuns.ReservedBlocks | kairos_risk/paper.py:327-348 | While an idea is reserved, nothing else is approved on its symbol, and no second canary anywhere. |
| PaperRuns.ApprovalsSeparated | kairos_risk/paper_runtime.py:359-391 | Two new approvals on one symbol (or two canaries) in any run are separated by an applied snapshot that shows the first trade with its exact lineage or was captured after its entry expired. |
| PaperRuns.ApprovedOnOwnSymbol | kairos_risk/paper.py:146-149 | Every approval is on the symbol its intent maps to, and can be recovered. |
| PaperRuns.ReplayDiscipline | kairos_risk/paper_runtime.py:293-357 | After any run from a fresh coordinator every reserved decision is replayable, if no review was durably approved on two symbols, and the aggregate is valid if and only if every reserved strategy name is normalised. |
| PaperRuns.OwnApprovalsReplay | kairos_risk/service.py:707-742 | Whatever approvals given earlier are recovered, however many share a symbol, nothing reserved is ever forgotten. |
| PaperRuns.CacheWithinBound | kairos_risk/paper_runtime.py:344-357 | The cache never holds more than its size, the durable approvals or the run's largest ledger, whichever is most. |
| PaperRuns.LedgerDiscipline | kairos_risk/paper_runtime.py:293-320 | After any run from a fresh coordinator whose recovered approvals may stand side by side: reserved symbols distinct, at most one canary, cache at most max(size, 5). |
| PaperRuns.ViewIsValid | kairos_risk/paper.py:54-76 | The ledger's aggregate always adds up and passes every check of its own validation if and only if every reserved strategy name is normalised. |
| PaperRuns.UntrimmedBlocks | kairos_risk/paper_runtime.py:284-310 | Once an idea with such a name is reserved, no request that is not a replay is decided: it is refused, or its inputs are unavailable. |
| PaperWitness.ApprovalReachable | kairos_risk/paper_runtime.py:252-322 | A concrete run (recovery, one snapshot, one measurement, one evaluation) ends in a new approval, for any equity from 10000 up: the whole equity as notional at a stop that loses one dollar, so the statements about approvals are not vacuous. |
| PaperHandoff.HandoffPartition | kairos_risk/paper_runtime.py:359-391 | An accepted snapshot splits the ledger exactly into kept, owned and expired; a lineage conflict removes nothing and revokes authority. |
| PaperHandoff.ReconcilesLaterOnly | kairos_risk/paper_runtime.py:317-320 | A reservation's sequence is below that of any applied snapshot that reconciles it. |
| PaperHandoff.RecoveryReconcilesLater | kairos_risk/paper_runtime.py:151-155 | The same for the reconciliation that recovery itself triggers against the account already present. |
| PaperHandoff.GateDiscipline | kairos_risk/paper_runtime.py:161-198 | In every reachable state the gate is open exactly for a current authoritative account carrying the newest sequence and time; neither ever decreases. |
| PaperHandoff.PoisonedSequenceStaysShut | kairos_risk/paper_runtime.py:169-182 | Once authority is lost, only a strictly greater sequence reopens admission; until then every evaluation is unavailable. |
| PaperHandoff.ReservedReplays | kairos_risk/paper_runtime.py:284-287 | Re-evaluating a reserved review without reasons returns its decision unchanged or finds authority missing. |
| PaperHandoff.ReplayAcrossRuns | kairos_risk/paper_runtime.py:252-357 | A decision once reserved, approved or recovered, is replayed unchanged at any later point of any run until an applied snapshot takes the idea over. |
| PaperHandoff.ApprovalReplays | kairos_risk/paper_runtime.py:284-310 | In particular from the step that approved it. |
| PaperRecovery.RecoveryCommutes | kairos_risk/paper_runtime.py:124-198 | Restoring then applying the first snapshot and the other order end in one state with one verdict: applied, not authoritative, or in conflict. |
| PaperRecovery.RecoveryReplaysIff | kairos_risk/paper_runtime.py:124-150 | Every recovered approval is replayable if and only if no two of them decide one review differently. |
| PaperRecovery.RecoveredReviewsIff | kairos_risk/paper_runtime.py:137-149 | A recovery that runs through saw two decisions on one review if and only if they were on two symbols. |
| PaperRecovery.OwnRecoveryReplays | kairos_risk/paper_runtime.py:124-150 | Recovering approvals on their own symbols, as every approval is, leaves each of them replayable. |
| PaperRecovery.RecoveryCanForget | kairos_risk/paper_runtime.py:137-149 | A malformed record on a symbol that is not its intent's is recovered beside the genuine approval, and only the later of the two can be replayed. |
| PaperRecovery.RecoveredApartIff | kairos_risk/paper_runtime.py:124-150 | Recovered reservations are on distinct symbols with at most one canary if and only if the recovered approvals are. |
| PaperRecovery.PoisonAbsorbs | kairos_risk/paper_runtime.py:88-110 | A binding in conflict stays in conflict in every run that retains its intent, and no evaluation of that intent approves or changes anything. |
| PaperRecovery.PoisonBlocks | kairos_risk/paper_runtime.py:269-310 | Evaluating an intent whose binding is poisoned never approves and leaves the state alone, cached approval or not. |
| PaperCaps.ApprovalReaggregates | kairos_risk/paper.py:590-606 | The re-aggregated ledger with the new approval fits every cap if and only if the approval was within the room: always outside the canary, and up to the canary's slack while there was capacity. |
| CanaryWitness.CanaryBeyondCaps | kairos_risk/paper.py:227-245 | However far an approval that an earlier run newly gave, and this run recovered, exceeds what is left of the margin, the run newly approves a canary of 1e-12 units on top: without capacity no slack bounds the excess. |
| Registers.JoinLaws | kairos_risk/paper_runtime.py:200-221 | "Newest wins, contradiction poisons" is associative, commutative and idempotent. |
| Registers.FoldIsNewest | kairos_risk/service.py:516-684 | Folding messages yields the newest version, trusted exactly when all its messages agree on one valid content. |
| Registers.ConsumeExact | kairos_risk/service.py:516-702 | With messages that carry no version: the register is at the newest version, trusted exactly when the versioned messages agree on it and no unversioned one came since it was first seen. |
| Registers.OrderMattersIff | kairos_risk/service.py:516-702 | All arrangements of the messages agree if and only if each carries a version or the versioned ones leave the newest untrusted. |
| VenueAuthority.VenueFollowsMessages | kairos_risk/paper_runtime.py:200-221 | After any run a symbol's register and usable measurement are the fold of the measurements received for it. |
| VenueAuthority.VenueOrderIndependent | kairos_risk/paper_runtime.py:200-221 | Runs with the same measurements, in any order and number and among any other events, trust the same one. |
| LegacyAuthority.AccountFollowsMessages | kairos_risk/service.py:516-629 | The legacy account authority is what consuming all snapshots, with or without time zone, leaves in the register. |
| LegacyAuthority.AccountExact | kairos_risk/service.py:516-629 | There is authority exactly when the aware snapshots agree on trustworthy content for the newest time and none without a time zone came since it was first seen. |
| LegacyAuthority.AccountOrderMattersIff | kairos_risk/service.py:516-629 | All arrangements end in one verdict if and only if all snapshots have time zones or the aware ones leave the newest untrusted. |
| LegacyAuthority.AccountOrderIndependent | kairos_risk/service.py:516-629 | In those cases duplication does not matter either. |
| LegacyAuthority.NaiveSnapshotOrderMatters | kairos_risk/service.py:519-522 | A snapshot without a time zone makes the result depend on the order. |
| LegacyAuthority.CapitalFollowsMessages | kairos_risk/service.py:631-702 | The strategic allocation is what consuming all allocations, dated or not, leaves in the register. |
| LegacyAuthority.CapitalExact | kairos_risk/service.py:631-702 | An allocation is trusted exactly when the dated ones agree on a valid policy for the newest time and no undated one came since it was first seen. |
| LegacyAuthority.CapitalOrderMattersIff | kairos_risk/service.py:631-702 | All arrangements end in one trusted policy if and only if all are dated or the dated ones leave the newest untrusted. |
| LegacyAuthority.CapitalOrderIndependent | kairos_risk/service.py:631-702 | In those cases duplication does not matter either. |
| LegacyAuthority.UndatedAllocationOrderMatters | kairos_risk/service.py:634-636 | An undated allocation makes the result depend on the order. |
| CircuitBreaker.CircuitBreaker.RecordFailure | kairos_risk/circuit_breaker.py:39-55 | Half-open failures trip, counted failures trip beyond the maximum. |
| CircuitBreaker.CircuitBreaker.RecordSuccess | kairos_risk/circuit_breaker.py:57-62 | A success closes the breaker and clears its count. |
| CircuitBreaker.CircuitBreaker.LlmAllowed | kairos_risk/circuit_breaker.py:69-72 | Reading may start probing but answers whether the breaker was closed. |
| CircuitBreaker.BreakerIsStreak | kairos_risk/circuit_breaker.py:22-72 | After any signals at any times a breaker is closed if and only if its failures since the last success are within the maximum. |
| BreakerTables.BreakerTable.Obtain | kairos_risk/circuit_breaker.py:112-121 | A key's breaker, created closed on first use and never shared. |
| BreakerTables.BreakerTable.DownKeys | kairos_risk/circuit_breaker.py:157-167 | Reads every breaker once and returns the keys whose breaker was not closed. |
| HealthMode.SystemModeIsHistory | kairos_risk/circuit_breaker.py:157-167 | The system mode is a declared function of the whole health trace, ignored and misattributed successes included; clocks and cooldowns play no part. |
| HealthMode.ReadKeepsMode | kairos_risk/circuit_breaker.py:157-167 | Reading the mode changes breakers but never the mode. |
| HealthMode.CircuitBreakerRegistry.constructor | kairos_risk/circuit_breaker.py:106-110 | A registry starts without breakers. |
| HealthMode.CircuitBreakerRegistry.RecordFailure | kairos_risk/circuit_breaker.py:134-135 | Only the named model's breaker sees the failure. |
| HealthMode.CircuitBreakerRegistry.RecordSuccess | kairos_risk/circuit_breaker.py:137-138 | Only the named model's breaker recovers. |
| HealthMode.CircuitBreakerRegistry.RecordProviderFailure | kairos_risk/circuit_breaker.py:140-146 | Only the normalised provider's breaker sees the failure. |
| HealthMode.CircuitBreakerRegistry.RecordProviderSuccess | kairos_risk/circuit_breaker.py:148-149 | Only the normalised provider's breaker recovers. |
| HealthMode.CircuitBreakerRegistry.SystemModeAt | kairos_risk/circuit_breaker.py:157-167 | The provider outage first, then any model but the flash model, then the flash model. |
| RiskServices.RiskService.constructor | kairos_risk/service.py:103-140 | A new service: fresh coordinator, empty authorities, closed breakers. |
| RiskServices.RiskService.ApplySnapshot | kairos_risk/service.py:516-610 | Every branch of the legacy account handler, with what stays changed when it raises. |
| RiskServices.RiskService.ConsumeSnapshot | kairos_risk/service.py:612-629 | A raise drops the account authority. |
| RiskServices.RiskService.ApplyAllocation | kairos_risk/service.py:631-684 | Every branch of the allocation handler. |
| RiskServices.RiskService.TakeAllocation | kairos_risk/service.py:686-702 | A raise drops the allocation. |
| RiskServices.RiskService.RecordLlmSuccess | kairos_risk/service.py:165-181 | A success counts for its model only when attributable, and for the provider only from a current model. |
| RiskServices.RiskService.ApplyHealthEvent | kairos_risk/service.py:183-211 | One signal updates the breakers it concerns and returns the mode they now show. |
| RiskServices.RiskService.HandlePaperReview | kairos_risk/service.py:328-401 | The retry loop, in place among deliveries by other consumers, ends as specified and made exactly the specified attempts. |
| RiskServices.RiskService.ReadAuthority | kairos_risk/service.py:336-368 | Reads the operator's control and consumes a canary's arm at most once. |
| RiskServices.RiskService.EvaluateAndBind | kairos_risk/service.py:369-399 | Evaluates, binds an approval at the version just read, and evaluates again with a reason when that fails. |
| RiskServices.RiskService.ReceiveAll | kairos_risk/service.py:412-702 | Deliveries by the other consumers change each authority as its own handler specifies. |
| PublicationGuard.AdmonishedEvaluation | kairos_risk/paper_runtime.py:252-310 | An evaluation that carries rejection reasons never approves, leaves the coordinator exactly as it was, names every one of them in its rejection, and is unavailable if and only if recovery is incomplete or the measurement is gone. |
| PublicationGuard.GuardHolds | kairos_risk/service.py:328-401 | Across all retries and any world: the reasons with which a pass begins its evaluation never lapse in later passes, each binding offers the approval just evaluated at the version read in that pass, and an approval is published if and only if the last pass had it bound. |
| PublicationGuard.RefusalIsFinal | kairos_risk/service.py:377-401 | A refused binding, and nothing else, leads to a second evaluation told only that control changed. The handling goes on if and only if that evaluation had no inputs; otherwise it ends there, with the rejection naming the reason or a failure. |
| GuardWitness.ReasonCanLapse | kairos_risk/service.py:386-401 | An instance of going on: an approval's binding is refused while a conflicting snapshot revokes authority, and after a newer snapshot the next pass binds and publishes the same decision. |
| PublicationGuard.TurnRequest | kairos_risk/service.py:336-376 | Each pass evaluates the given review at the arm's decision time when it validated one, else at the time observed; only a canary's pass, with an operator snapshot, touches the arm. |
| PublicationGuard.CanaryConsumesOnce | kairos_risk/service.py:347-368 | A canary's arm is consumed at most once, and an approval comes out only under the allocation of the one arm that was consumed and validated. |
| PublicationGuard.HandlingIsRun | kairos_risk/service.py:328-401 | However handling interleaves with other consumers, the coordinator goes through one of its runs, so the theorems about runs cover the service. |
| PublicationGuard.HandlingRetained | kairos_risk/service.py:328-401 | Handling a review keeps every reserved decision replayable. |
| PublicationGuard.HandlingGuarded | kairos_risk/service.py:328-401 | And, with durable approvals that may stand side by side, symbols distinct and the cache within its bound. |
| ServiceHealth.DeliveriesFollow | kairos_risk/service.py:489-505 | The breakers follow the trace of health signals through any other deliveries. |
| ServiceHealth.HandlingFollows | kairos_risk/service.py:328-401 | Handling a review, over all its passes, the breakers follow the trace extended by the signals heard meanwhile, and every pass evaluates in the mode which that trace declares at that moment. |
| ServiceHealth.ApprovalNeedsHealthyTrace | kairos_risk/service.py:370-376 | Nothing is newly approved while the health trace declares the provider or any model out. |
| FloatGrid.LowerIsGreatest | kairos_risk/live.py:863-870 | The lower conversion is the greatest float spelled at or below the value, at most one step from the nearest. |
| FloatGrid.UpperIsLeast | kairos_risk/live.py:873-880 | The upper conversion is the least float spelled at or above the value, or overflows. |
| FloatGrid.LowerMonotone | kairos_risk/live.py:863-870 | Lower conversion keeps order. |
| FloatGrid.SpelledIsExact | kairos_risk/live.py:859-880 | A decimal that a float spells is converted to that float in both directions. |
| LiveSizing.CorrectionLoop | kairos_risk/live.py:826-856 | The bounded loop returns the first candidate that fits, nothing, or an overflow. |
| LiveSizing.CorrectIsFirstFit | kairos_risk/live.py:826-856 | What it returns is the largest of its candidates that fits: every larger one was too much. |
| LiveSizing.CorrectStops | kairos_risk/live.py:826-856 | It comes back empty only when every positive candidate was too much, and fails exactly on the first candidate that was not too much but cannot be represented. |
| LiveSizing.FitsSafely | kairos_risk/live.py:830-852 | A candidate that fits is displayed with costs no smaller than its own, within budget and cap, and never larger than itself. |
| LiveSizing.CorrectedSafely | kairos_risk/live.py:826-856 | From any starting quantity the result covers its own costs and stays within budget and cap. |
| LiveEvaluation.Evaluate | kairos_risk/live.py:488-553 | Budget, sizing and their reasons in source order. |
| LiveEvaluation.ApprovalIsSafe | kairos_risk/live.py:488-553 | An approved LIVE order is a positive, safe display under the evaluation's own budget and cap. |
| LiveEvaluation.Headroom | kairos_risk/live.py:492-546 | In decimal spelling, an approved order keeps every loss ceiling and every notional ceiling at once. |
| LiveEvaluation.DisplayCoversLoss | kairos_risk/live.py:838-843 | The displayed worst loss covers stop loss plus displayed fees and slippage, and the true loss. |
| LiveEvaluation.ApprovedLotIsLegal | kairos_risk/live.py:539-544 | With instrument rules, the approved quantity is an exact lot within the venue's bounds and minimum. |
| LiveEvaluation.StartLotFits | kairos_risk/live.py:813-817 | Before conversion the first candidate already fits budget, cap and venue maximum. |
| LiveWitness.LiveApprovalReachable | kairos_risk/live.py:488-553 | On a concrete float grid a concrete LIVE order is approved for ten units. |
| CapitalBudget.ProposalDeflates | kairos_risk/capital_budget_proposal.py:237-296 | A proposal satisfies the limits' invariant and exceeds no current limit; the start ceiling is kept and only the minimum notional may rise. |
| CapitalBudget.ProposalFollows | kairos_risk/capital_budget_proposal.py:248-296 | Loosening any of the limits in force, the equity or the venues' demand keeps a proposal possible, lowers no proposed cap and does not raise the minimum. |
| CapitalBudget.ProposalFollowsEquity | kairos_risk/capital_budget_proposal.py:253-280 | More verified equity keeps a proposal possible, never lowers a proposed cap and changes nothing else. |
| CapitalBudget.ProposalSaturates | kairos_risk/capital_budget_proposal.py:238-241 | Equity above the recorded ceiling proposes what the ceiling proposes. |
| CapitalBudget.ProposalSettlesIff | kairos_risk/capital_budget_proposal.py:248-296 | Proposing again changes nothing if and only if some float spells each of the policy's fractions and the caps are lowered to whole cents, which can be read off the inputs before proposing or off the proposal. |
| CapitalBudget.ProposingTwiceCanFail | kairos_risk/capital_budget_proposal.py:248-288 | A concrete policy is accepted once and refused when proposed again. |
| Decimals.CanonicalRoundTrip | kairos_risk/canary_instrument.py:44-54 | The canonical text parses back to the same number. |
| Decimals.CanonicalDecidesEquality | kairos_risk/canary_instrument.py:44-54 | Two decimals print the same text if and only if they are numerically equal. |
| Decimals.StrictRoundTrip | kairos_risk/canary_instrument.py:57-66 | The strict reader accepts the canonical text of every positive decimal. |
| Decimals.ParseCanonicalSound | kairos_risk/canary_instrument.py:284-297 | Whatever the strict reader accepts is exactly what the printer writes for a positive number. |
| CanaryInstrument.BoundCanaryInstrument | kairos_risk/canary_instrument.py:249-323 | The field-by-field revalidation accepts exactly the specified metadata and evidence. |
| CanaryInstrument.BindingRoundTrip | kairos_risk/canary_instrument.py:160-215 | A rule's own metadata binds that rule and quantity again, numerically unchanged up to fetch time. |
| CanaryInstrument.AcceptedReprints | kairos_risk/canary_instrument.py:284-323 | Anything accepted is the printed metadata and evidence of the rule that was rebuilt. |
| CanaryInstrument.EffectiveMinIsLeast | kairos_risk/canary_instrument.py:182-194 | The effective minimum is the smallest grid quantity that meets the quantity and volume minimums. |
| CanaryInstrument.EffectiveMinExistsIff | kairos_risk/canary_instrument.py:182-194 | It exists if and only if the price is accepted and some legal quantity fits the maximum. |
| CanaryInstrument.BoundQuantityIsLeast | kairos_risk/canary_instrument.py:326-341 | The quantity a canary trades is the bound one, and it is the least legal quantity at the entry price. |

## Left out

- Bus, Redis, PostgreSQL, HTTP fetches, logging, task groups and the command line: I/O. The operator, canary-arm and binding repositories appear as arbitrary answers.
- `wait_for_inputs` timing: the wait is a guard on the inputs followed by any deliveries; a wait whose inputs are not there ends in the deadline.
- ServiceState.HandleReview: runs over a finite sequence of passes, since a review that never gets its inputs may retry for ever; `Pending` means the given passes are used up. Publishing the decision on the bus and acknowledging the message are not modelled.
- RiskServices.RiskService.ReceiveAll: does not model the tactical-command path (`_handle_command`), the mode broadcast, or the fallback `AccountState` of the development setup.
- RiskServices.RiskService.ApplySnapshot: deriving an `AccountState` is a predicate on the snapshot (distinct symbols, positive equity not above its peak, non-negative gross exposure).
- PaperPipeline.Evaluate: message identities, the source name and `correlation_id` are not fields of a decision; the strict output contract of `kairos_core` is not part of this model beyond sign constraints.
- LiveEvaluation.Evaluate: the LIVE admission gates, verifier authentication, scope hashing and freshness checks are one list of prior reasons; they are long conjunctions of single checks.
- CapitalBudget.ProposalDeflates: input revalidation, scope and account identity, freshness, venue coverage and the digests of a proposal are left out; the venue minimum is the largest of the supplied ones.
- Field equality of `canary_authorization.py`: an arm is missing, invalid, valid with its allocation and decision time, or its repository fails.
- Decimals.CanonicalRoundTrip: plain numerals only, without exponents, signs or special values, all of which the strict reader rejects; unbounded precision instead of the 28-digit context.
- IEEE-754 rounding in `paper.py`: the tolerances are kept but the sums are exact.
- `pipeline.py`, `strategy.limits_for`, `sizing.py`, `validators.py`, `simulation.py`, `evaluation.py`, `account.py`: simpler versions of the caps and grids proved above.
- `config.py` and `operator_control.py`: settings and file loading; of the numeric bounds only signs are needed, so every theorem holds for any positive fractions and caps.
