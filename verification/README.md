# Cashu fault lab: verified models of the lifecycle journal, the swap planner and the senders

This project models the parts of the repository where several processes, crashes and arithmetic
limits meet, and proves what they guarantee over every run.

- **Lifecycle journal** (CDK adapter). `Journal` gives each store method as a function on the tables;
  `LifecycleStore` is the store written in place and proved to compute those functions. The guards are
  the same predicates in both; what the in-place form adds is the order of its statements and the
  rollback of `CreateAndClaim`, `RenewClaim` and `Commit`. `StoreReplies` says of rows, leases and clock
  readings when each method succeeds and what it then leaves. `StoreRuns` and `StoreLeases` prove, for
  arbitrary sequences of calls by arbitrary clients, fencing, mutual exclusion of leases, the sticky
  wallet barrier, reset exclusion, the evidence log and the send outbox.
- **Lifecycle engine** (CDK adapter). `Engine` runs any number of workers on one journal, one program
  point per step, with a wallet that may answer anything. `EngineInvariant` holds the inductive
  invariant; `EngineSafety`, `EngineWallet`, `ResetStraddle` and `BlockedRun` the results over all
  interleavings. `SoloRun`, `SoloResults` and `SoloStarts` say what a worker, a renewal or a reset does
  from beginning to end when it is left alone. `ReconcileCycle` treats the dependency walk of reconcile
  operations and the nesting it admits while other processes add rows.
- **Fee-aware exact-amount planner** (CDK adapter). `SwapPlanner` has the loops of the source and a
  recursive form of the same search; `SwapPlannerProofs` relates it to the rule of NUT-02 (Fees): does
  some sub-collection of the proofs have gross equal to net plus the rounded-up fee? `SwapPlannerLimits`
  says exactly when it gives up, in terms of the values that sub-collections can have.
- **Senders**. `DeliveryLock` and `ReferenceSender` model the reference sender. `FundedSender` models the
  cashu-ts sender with crash points, resumes and resets, `FundedRaces` exactly when the latter two are
  safe, `FundedReplies` what single calls do. `CdkSender` models the CDK sender and `CdkReplies` what one
  send posts, takes and answers.
- **Relay history**. `RelayQuery` proves the per-filter top-`limit` query against membership by rank, and
  what a filter asks for.

A crashed or stalled process is one that no later step schedules, so "every run" covers every crash
point. Fencing and execution safety use no assumption about clocks. The lease-time results
(`ResetExcludesLiveLeases`, `LeaseExcludesOthers`, `RenewalLengthens`, `HolderCommitFreesBarrier`,
`EngineLeases`, `DefinitiveResultFreesWallet`, `FinishedFreesWalletIff`) assume clock readings that do not decrease in step order; the code
reads the clock before it takes the connection lock, so this is an assumption about the deployment.

Six promises do not hold of the code as it stands. The code is kept as it is, and for each the exact
condition and a failing run or input are proved:

- *At most one `execute_prepared` per operation between resets.* A worker that has persisted its
  right to execute and then stalls past its lease can call the wallet after a reset, next to the
  operation's new incarnation. The promise holds until the next reset if and only if no worker holds
  such an unused right when the reset commits (`AtMostOnceBetweenResets`, `AtMostOnceAfterReset`; the
  run is `StraddlingIsReachable`). Counted by generation it always holds.
- *The planner's fee is the NUT-02 fee, and "no plan" means there is none.* The saturating addition of
  999 makes the fee too small exactly above a total of 18446744073709551000 ppk (`FeeIsExactIff`,
  `CompleteIffUnderLimit`; the input is in `MissedAboveLimit`).
- *"No plan" for a net amount of zero.* Worthless selections, the empty one included, are exact and are
  never returned; "no plan" is reliable if and only if at least one unit is asked for
  (`NoPlanMeansNone`, `CompleteIffSomethingAsked`; the input is in `EmptySelectionIsMissed`).
- *Identical payloads across `resume`.* `resume`, and the first half of `reset`, clear the in-flight
  map under live calls. This is safe if and only if every live call's delivery already has its stored
  payload (`ClearIsSafeIff`; the run is `UnquietIsReachable`). At server start no call is live
  (adapters/cashu-ts/src/funded-server.ts, lines 75-77).
- *Identical payloads after `reset`.* The second half of `reset` empties the store under live calls. All
  payloads handed over since then are equal if and only if, when it commits, every live call owns its
  in-flight entry and none is about to hand its payload over; they carry the proofs of the stored
  reservation as well if and only if moreover no live call carries a payload (`ResetIsSafeIff`,
  `ResetKeepsReservationsIff`; the runs are in `UnsettledIsReachable`). The reset route waits for no
  call (adapters/cashu-ts/src/server.ts, lines 263-267).
- *A finished operation gives the wallet back.* The step that ends an operation frees the wallet if and
  only if the new phase is Succeeded or FailedDefinitive; a RecoveryBlocked operation keeps it until a
  reset (`FinishedFreesWalletIff`, `BlockedRecoveryParksWallet`; the run is `BlockedIsReachable`).

## Model

| member | source | states |
|---|---|---|
| `LifecycleStore.Store.constructor` | adapters/cdk/src/lifecycle_store.rs:54-176 | a new journal has no rows, no leases, token and generation zero |
| `LifecycleStore.Store.NextFencingToken` | adapters/cdk/src/lifecycle_store.rs:881-906 | issues the next token, or refuses without a change at the 64-bit limit |
| `LifecycleStore.Store.CreateAndClaim` | adapters/cdk/src/lifecycle_store.rs:253-307 | in place and with rollback it computes the table function: refused under a reset lease or for another intent, else inserts and claims if claimable |
| `LifecycleStore.Store.TryClaim` | adapters/cdk/src/lifecycle_store.rs:371-395 | computes the table function: claims an unowned or expired row under a new token, burns the token otherwise |
| `LifecycleStore.Store.Put` | adapters/cdk/src/lifecycle_store.rs:337-369 | computes the table function: writes only under the row's live claim and intent, keeping stored material unless new material is given |
| `LifecycleStore.Store.TryClaimWalletMutation` | adapters/cdk/src/lifecycle_store.rs:397-450 | computes the table function: grants a free barrier or re-grants the operation's own, never another's, even when expired |
| `LifecycleStore.Store.RenewClaim` | adapters/cdk/src/lifecycle_store.rs:527-570 | computes the table function: extends row and matching barrier together, or rolls both back |
| `LifecycleStore.Store.Release` | adapters/cdk/src/lifecycle_store.rs:572-588 | computes the table function: drops owner and lease but keeps the token |
| `LifecycleStore.Store.Commit` | adapters/cdk/src/lifecycle_store.rs:590-691 | computes the table function: row, evidence, hand-off and barrier change together, and no table changes on any conflict |
| `LifecycleStore.Store.TryClaimReset` | adapters/cdk/src/lifecycle_store.rs:452-491 | computes the table function: refused while a reset lease or any operation lease is live |
| `LifecycleStore.Store.RenewReset` | adapters/cdk/src/lifecycle_store.rs:493-505 | computes the table function: extends only a live reset lease of this owner and token |
| `LifecycleStore.Store.ReleaseReset` | adapters/cdk/src/lifecycle_store.rs:507-525 | computes the table function: frees only a live reset lease of this owner and token |
| `LifecycleStore.Store.NextGeneration` | adapters/cdk/src/lifecycle_store.rs:220-228 | answers one more than the active generation under a live reset lease, else the error |
| `LifecycleStore.Store.Reset` | adapters/cdk/src/lifecycle_store.rs:178-213 | computes the table function: under a live reset lease all operations, evidence, barrier and outbox rows go and the generation is set |
| `LifecycleStore.Store.ClaimHandoff` | adapters/cdk/src/lifecycle_store.rs:713-769 | computes the table function: claims the first claimable hand-off under a new token; a hash conflict is reported after the claim is stored |
| `LifecycleStore.Store.AcknowledgeHandoff` | adapters/cdk/src/lifecycle_store.rs:771-792 | computes the table function: only the live claimant with the right token and hash |
| `LifecycleStore.Store.ReleaseHandoff` | adapters/cdk/src/lifecycle_store.rs:794-815 | computes the table function: only the live claimant |
| `Journal.PickHandoff` | adapters/cdk/src/lifecycle_store.rs:713-769 | the smallest id among the rows this consumer may claim, and none only if there is no such row |
| `StoreReplies.TryClaimReply` | adapters/cdk/src/lifecycle_store.rs:371-395 | a claim is granted exactly if no reset runs, a token is left, the row exists and nobody holds it; it then has the next token and two minutes |
| `StoreReplies.CreateAndClaimReply` | adapters/cdk/src/lifecycle_store.rs:253-307 | granted exactly if no reset runs, the intent is the stored one, a token is left and nobody holds the row; a new row holds the request as given, a stored one keeps its contents |
| `StoreReplies.PutReply` | adapters/cdk/src/lifecycle_store.rs:337-369 | a write succeeds exactly under the live claim and the same intent, and replaces stored material only by new material |
| `StoreReplies.ReleaseReply` | adapters/cdk/src/lifecycle_store.rs:572-588 | a release succeeds exactly for the live holder, who then holds nothing; everything else stays |
| `StoreReplies.TryClaimWalletMutationReply` | adapters/cdk/src/lifecycle_store.rs:397-450 | the wallet is granted when free, again to the operation and owner that have it, to another owner of that operation after its lease, and never to another operation |
| `StoreReplies.RenewClaimReply` | adapters/cdk/src/lifecycle_store.rs:527-570 | a renewal succeeds exactly for the live holder whose wallet, if it has it, is live too, and moves both leases to two minutes from now |
| `StoreReplies.TryClaimResetReply` | adapters/cdk/src/lifecycle_store.rs:452-491 | a reset is granted exactly when no reset and no operation is running |
| `StoreReplies.ResetLeaseReplies` | adapters/cdk/src/lifecycle_store.rs:493-525 | renewal, release and next generation succeed exactly for the live reset holder, with what they then leave |
| `StoreReplies.ResetReply` | adapters/cdk/src/lifecycle_store.rs:178-213 | a reset commits exactly with a seed of 1 to 256 characters under the live reset lease, and empties every table |
| `StoreReplies.HashesTellApart` | adapters/cdk/src/lifecycle_store.rs:983-994 | different seeds and different tokens have different hashes |
| `StoreReplies.CommitReply` | adapters/cdk/src/lifecycle_store.rs:590-691 | a commit succeeds exactly if the write does and nothing conflicts, records the evidence once, and files a first hand-off with its recipient, its token and the hash of its token |
| `StoreReplies.HandoffIsFinal` | adapters/cdk/src/lifecycle_store.rs:652-674 | a commit with another recipient or token for a filed hand-off does not succeed |
| `StoreReplies.CommitBarrier` | adapters/cdk/src/lifecycle_store.rs:674-686 | the wallet is given back exactly by a definitive commit of its live holder |
| `StoreReplies.ClaimHandoffReply` | adapters/cdk/src/lifecycle_store.rs:713-769 | the hand-off of the smallest open id is returned as filed, and none exactly if no row is open |
| `StoreReplies.ClaimHandoffRefusals` | adapters/cdk/src/lifecycle_store.rs:713-769 | an unusable consumer name, or no token left for an open row, is an error that changes nothing |
| `StoreReplies.HandoffReplies` | adapters/cdk/src/lifecycle_store.rs:771-815 | acknowledging and releasing succeed exactly for the live claimant, with what they then leave |
| `StoreLeases.LeaseExcludesOthers` | adapters/cdk/src/lifecycle_store.rs:371-395 | with a nondecreasing clock no second claim on an operation is issued within two minutes of the first, unless the holder released it or a reset committed |
| `StoreLeases.ClaimsNeedUnheldRow` | adapters/cdk/src/lifecycle_store.rs:253-395 | a claim is issued only on a row that nobody holds, while no reset runs, under the next token |
| `StoreLeases.UnheldRowIsGranted` | adapters/cdk/src/lifecycle_store.rs:371-395 | the converse: such a row is granted to whoever asks |
| `StoreLeases.RenewalLengthens` | adapters/cdk/src/lifecycle_store.rs:527-570 | with a nondecreasing clock a renewal shortens neither lease |
| `StoreLeases.RowsAreFiled` | adapters/cdk/src/lifecycle_store.rs:652-674 | every outbox row goes back to a commit since the last reset and carries that commit's hand-off |
| `StoreLeases.ReceivedAsFiled` | adapters/cdk/src/lifecycle_store.rs:713-769 | a hand-off that a consumer receives has the recipient, token and token hash of the commit that filed it |
| `StoreLeases.HashesStayRight` | adapters/cdk/src/lifecycle_store.rs:745-765 | in every run the stored hash of a hand-off is that of its token |
| `StoreRuns.StaleTokensChangeNothing` | adapters/cdk/src/lifecycle_store.rs:253-395 | fencing over whole runs: after a claim with token t, every later put, commit, renew, release or wallet claim on that id under a smaller token leaves the whole journal as it was, across processes, expiries and resets |
| `StoreRuns.FencedStep` | adapters/cdk/src/lifecycle_store.rs:881-906 | no store call lets a row's token fall below an issued one, reset and re-creation included |
| `StoreRuns.ResetExcludesLiveLeases` | adapters/cdk/src/lifecycle_store.rs:452-525 | with a nondecreasing clock a live reset lease and a live operation lease never coexist, and a committed reset deletes no leased row |
| `StoreRuns.LeasesStayExclusive` | adapters/cdk/src/lifecycle_store.rs:854-867 | every store call keeps that exclusion |
| `StoreRuns.BarrierIsSticky` | adapters/cdk/src/lifecycle_store.rs:397-450 | between grants to two operations the first has committed Succeeded or FailedDefinitive, or the journal was reset |
| `StoreRuns.HolderCommitFreesBarrier` | adapters/cdk/src/lifecycle_store.rs:674-686 | with a nondecreasing clock a definitive commit by the barrier's holder frees it |
| `StoreRuns.BarrierStaysCovering` | adapters/cdk/src/lifecycle_store.rs:527-570 | every store call keeps the barrier lease at least as long as the operation lease under the same token |
| `StoreRuns.EffectsNameOneEvidence` | adapters/cdk/src/lifecycle_store.rs:629-651 | between resets two successful commits under one effect id carry the same evidence |
| `StoreRuns.EvidenceGrows` | adapters/cdk/src/lifecycle_store.rs:629-651 | between resets the evidence log is append-only |
| `StoreRuns.OutboxRowsPersist` | adapters/cdk/src/lifecycle_store.rs:652-674 | until a reset an outbox row stays, keeps recipient, token and hash, and is frozen once acknowledged |
| `StoreRuns.AcknowledgedOnce` | adapters/cdk/src/lifecycle_store.rs:771-792 | a hand-off is acknowledged at most once between resets |
| `StoreRuns.StaleHandoffsChangeNothing` | adapters/cdk/src/lifecycle_store.rs:771-815 | after a newer hand-off claim, acknowledging or releasing under an older token changes nothing |
| `EngineInvariant.StepIsStoreCall` | adapters/cdk/src/lifecycle.rs:376-599 | every engine step changes the journal exactly as one store call does, or not at all |
| `EngineInvariant.CallUnnoticed` | adapters/cdk/src/lifecycle_store.rs:337-369 | a store call under another token is invisible to a worker whose token is still the row's |
| `EngineInvariant.CallsAreLegal` | adapters/cdk/src/lifecycle.rs:531-694 | every write the engine issues follows a phase edge from the row it hits, only commits end an operation, and resets go to the next generation |
| `EngineInvariant.InvHolds` | adapters/cdk/src/lifecycle.rs:494-599 | in every reachable state a worker's copy agrees with its row while its token is current, and every right to execute is unique |
| `EngineInvariant.WhoIsArmed` | adapters/cdk/src/lifecycle.rs:531-599 | a right to execute arises only from the worker's own write out of a persisted Prepared |
| `EngineInvariant.WhatIsCalled` | adapters/cdk/src/lifecycle.rs:588-598 | the wallet is called exactly when a worker that holds such a right moves, with its material |
| `EngineSafety.CallsAreAuthorised` | adapters/cdk/src/lifecycle.rs:531-599 | every `execute_prepared` call has an earlier authorising write by the same worker and uses exactly the material the row held then |
| `EngineSafety.ExecutesAtMostOncePerGeneration` | adapters/cdk/src/lifecycle.rs:531-599 | over every interleaving two calls on one operation id belong to different generations |
| `EngineSafety.PhasesMoveLegally` | adapters/cdk/src/lifecycle.rs:273-289 | in every run a step follows a legal phase edge, creates a row as Created, or deletes all rows and raises the generation by one; the failing terminal phases come from Reconciling only |
| `EngineSafety.TerminalIsFinal` | adapters/cdk/src/lifecycle.rs:537-541 | a terminal result and its material are never overwritten within a generation |
| `EngineWallet.EngineLeases` | adapters/cdk/src/lifecycle.rs:507-529 | the lease invariants hold of every timed engine run |
| `EngineWallet.OnlyCommitsAreDefinitive` | adapters/cdk/src/lifecycle.rs:652-694 | an operation becomes definitive only by its claimant's commit |
| `EngineWallet.DefinitiveResultFreesWallet` | adapters/cdk/src/lifecycle_store.rs:674-686 | in every timed run a non-reconcile operation that becomes definitive held the wallet and frees it in the same step |
| `EngineWallet.FinishedFreesWalletIff` | adapters/cdk/src/lifecycle_store.rs:674-686 | in every timed run the step that ends a non-reconcile operation finds the wallet held by it and frees it if and only if the new phase is Succeeded or FailedDefinitive |
| `EngineWallet.BlockedRecoveryParksWallet` | adapters/cdk/src/lifecycle_store.rs:397-450 | a non-reconcile operation stored as RecoveryBlocked holds the wallet, and until a reset no other operation is granted it |
| `BlockedRun.BlockedIsReachable` | adapters/cdk/src/lifecycle.rs:548-565 | a timed run whose last step ends an operation RecoveryBlocked with the wallet held |
| `SoloRun.FinishPublishes` | adapters/cdk/src/lifecycle.rs:652-694 | the stored result: the answer's phase, except that a failure right after submission becomes Ambiguous; the answer's code, and its amount if given; its evidence and hand-off |
| `SoloRun.FinishStoresOrConflicts` | adapters/cdk/src/lifecycle.rs:652-694 | whatever was recorded before, the finishing step stores that result or leaves the journal as it was |
| `SoloRun.FinishGivesWalletBack` | adapters/cdk/src/lifecycle_store.rs:674-686 | the finishing step frees the wallet exactly for a definitive stored phase of its live holder |
| `SoloResults.FreshOperationExecutes` | adapters/cdk/src/lifecycle.rs:566-598 | a fresh operation goes through Prepared and Submitted, is executed once with the prepared material, and its answer is stored |
| `SoloResults.RefusedOperationExecutesNothing` | adapters/cdk/src/lifecycle.rs:571-578 | a refused preparation executes nothing and is stored as the answer to a submission |
| `SoloResults.RecoveryExecutesPrepared` | adapters/cdk/src/lifecycle.rs:548-560 | recovering a prepared operation executes it once with its stored material |
| `SoloResults.RecoveryOnlyAsks` | adapters/cdk/src/lifecycle.rs:548-565 | recovering any other unfinished operation executes nothing; the recovery answer is stored |
| `SoloResults.ReconcileLeavesWalletAlone` | adapters/cdk/src/lifecycle.rs:542-598 | a reconcile neither takes nor calls the wallet |
| `SoloResults.FinishedOperationIsLeftAlone` | adapters/cdk/src/lifecycle.rs:537-541 | a finished operation is only released |
| `SoloResults.BusyWalletIsWaitedFor` | adapters/cdk/src/lifecycle.rs:542-546 | while another operation has the wallet, this one is only released |
| `SoloStarts.StartMakesWorker` | adapters/cdk/src/lifecycle.rs:422-468 | starting makes a worker exactly if the claim is granted, and it recovers exactly if the stored operation has left Created |
| `SoloStarts.ResumeMakesWorker` | adapters/cdk/src/lifecycle.rs:470-505 | resuming makes a recovering worker exactly if the claim is granted |
| `SoloStarts.RenewalKeepsOrEndsWorker` | adapters/cdk/src/lifecycle.rs:513-522 | a waiting worker that still holds row and wallet gets two more minutes; one that has lost either ends without a write |
| `SoloStarts.OnlyWaitingWorkersRenew` | adapters/cdk/src/lifecycle.rs:513-522 | no other worker renews |
| `SoloStarts.ResetRuns` | adapters/cdk/src/lifecycle.rs:376-420 | a reset left alone empties every table and raises the generation by one if the wallet resets, loses nothing otherwise, and frees its lease |
| `SoloStarts.SuccessIsReachable` | adapters/cdk/src/lifecycle.rs:422-468 | a timed run from the empty journal that executes once and ends Succeeded with the wallet free |
| `EngineWallet.OutboxHoldsExactlySucceededSends` | adapters/cdk/src/lifecycle_store.rs:652-674 | with a wallet that hands off exactly on successful sends, an outbox row exists if and only if the send is stored as Succeeded |
| `ResetStraddle.AtMostOnceBetweenResets` | adapters/cdk/src/lifecycle.rs:376-420 | from a freshly reset journal, every run without a further reset calls at most once on an id if and only if no worker straddles the reset with an unused right |
| `ResetStraddle.AtMostOnceAfterReset` | adapters/cdk/src/lifecycle.rs:376-420 | the same after every run whose last step commits a reset |
| `ResetStraddle.StraddlingIsReachable` | adapters/cdk/src/lifecycle.rs:531-599 | a run that reaches the straddling state |
| `ResetStraddle.OneCallWhenNobodyStraddles` | adapters/cdk/src/lifecycle.rs:531-599 | without a straddling worker there is at most one call until the next reset |
| `ResetStraddle.TwoCallsWhenSomebodyStraddles` | adapters/cdk/src/lifecycle.rs:531-599 | with one, some run makes two calls |
| `ReconcileCycle.DependencyCycle` | adapters/cdk/src/lifecycle.rs:629-650 | true exactly if the chain repeats an id within 10000 links, false exactly if it ends there without a repeat, the bound error exactly otherwise |
| `ReconcileCycle.RepeatingNeverEnds` | adapters/cdk/src/lifecycle.rs:629-650 | a stored chain that repeats never ends |
| `ReconcileCycle.FalseMeansEnds` | adapters/cdk/src/lifecycle.rs:629-650 | for a stored operation, ending within the bound excludes a repeat |
| `ReconcileCycle.SmallJournalsDecide` | adapters/cdk/src/lifecycle.rs:629-650 | with fewer than 10000 stored operations the bound is never exceeded |
| `ReconcileCycle.JournalGrows` | adapters/cdk/src/lifecycle_store.rs:253-307 | until a reset no stored request is dropped or replaced, whoever writes |
| `ReconcileCycle.EndedAtTheStart` | adapters/cdk/src/lifecycle.rs:634-648 | a walk that reads while rows are added and sees the chain end has seen it end in the journal it began with |
| `ReconcileCycle.NestedRunsAreDistinct` | adapters/cdk/src/lifecycle.rs:601-627 | however rows are added between the levels of a nested reconcile, no operation is run inside itself and the next target is none of its ancestors |
| `ReconcileCycle.NestedRunsAreBounded` | adapters/cdk/src/lifecycle.rs:601-627 | there are never more levels than stored operations, and at most 10000 from the last change of the journal on |
| `SwapPlanner.FeeAwareExactAmountPlan` | adapters/cdk/src/lifecycle.rs:987-1065 | the looping planner answers as the recursive search does, errors included |
| `SwapPlanner.SearchAll` | adapters/cdk/src/lifecycle.rs:1012-1064 | the outer loop computes the recursive search from the empty selection |
| `SwapPlanner.ExtendStates` | adapters/cdk/src/lifecycle.rs:1016-1061 | the inner loop computes the fold over the earlier states; at every loop head back-pointers go to smaller proof indices, node count plus one is the state count and the states are strictly ordered by key |
| `SwapPlanner.ExtendState` | adapters/cdk/src/lifecycle.rs:1021-1061 | one iteration computes one search step and keeps those links |
| `SwapPlanner.Reconstruct` | adapters/cdk/src/lifecycle.rs:1042-1049 | following back-pointers and reversing terminates and yields the ids of the path |
| `SwapPlanner.TotalPpk` | adapters/cdk/src/lifecycle.rs:1002-1007 | the checked sum fails exactly if the total exceeds 64 bits |
| `SwapPlannerProofs.PlanIsSound` | adapters/cdk/src/lifecycle.rs:1012-1061 | a returned plan uses given proofs at most once, its gross is their sum and equals net plus fee, and the fee is the NUT-02 fee exactly up to the limit |
| `SwapPlannerProofs.NoPlanMeansNone` | adapters/cdk/src/lifecycle.rs:1012-1064 | after "no plan" a selection balances under the planner's fee if and only if net is zero and the selection is worth nothing and costs nothing |
| `SwapPlannerProofs.CompleteIffSomethingAsked` | adapters/cdk/src/lifecycle.rs:987-1064 | "no plan" means that no selection balances if and only if net is at least one |
| `SwapPlannerProofs.EmptySelectionIsMissed` | adapters/cdk/src/lifecycle.rs:1012-1064 | net zero and no proofs: "no plan", although the empty selection is exact |
| `SwapPlannerProofs.NoPlanUnderLimit` | adapters/cdk/src/lifecycle.rs:967-1064 | up to the fee limit and for net at least one, "no plan" means no selection satisfies NUT-02 |
| `SwapPlannerProofs.MissedAboveLimit` | adapters/cdk/src/lifecycle.rs:1008-1041 | above the limit there is always a wallet whose exact selection is missed |
| `SwapPlannerProofs.CompleteIffUnderLimit` | adapters/cdk/src/lifecycle.rs:987-1064 | completeness for NUT-02 holds for a total ppk if and only if it is within the limit |
| `SwapPlannerProofs.FeeIsExactIff` | adapters/cdk/src/lifecycle.rs:1040-1041 | the saturating fee is the NUT-02 fee if and only if the ppk is within the limit |
| `SwapPlannerProofs.OrderDoesNotMatter` | adapters/cdk/src/lifecycle.rs:993-1001 | for distinct ids every permutation of the proofs gives the same plan or the same error |
| `SwapPlannerLimits.ValuesAreSelections` | adapters/cdk/src/lifecycle.rs:1012-1062 | the counted values are exactly those of the affordable sub-collections |
| `SwapPlannerLimits.AnswersExplained` | adapters/cdk/src/lifecycle.rs:987-1065 | each error occurs only for what it names: too many proofs, overflow, more work or more values than the limit; and "no plan" only if the limits sufficed |
| `SwapPlannerLimits.DecidesWithinLimits` | adapters/cdk/src/lifecycle.rs:987-1065 | within the limits there is an answer, and it is a plan if and only if some sub-collection that is worth something balances |
| `SwapPlannerLimits.UnsolvableDecidedIffFits` | adapters/cdk/src/lifecycle.rs:987-1065 | where nothing balances the answer is "no plan" if and only if all values fit the limits |
| `SwapPlannerLimits.SearchStands` | adapters/cdk/src/lifecycle.rs:1016-1062 | after each proof the states are the values of the proofs so far, for one unit of work per proof and earlier value |
| `SwapPlannerLimits.SortIsLargestFirst` | adapters/cdk/src/lifecycle.rs:996-1001 | proofs are processed by falling amount, then by id |
| `SwapPlanner.InsertKeepsOrder` | adapters/cdk/src/lifecycle.rs:1057-1057 | a new key keeps the state list strictly ordered; `ExtendState` carries this through the search |
| `DeliveryLock.LockTable.Enter` | apps/reference-sender/src/state.ts:101-115 | the synchronous prefix links a caller behind the stored tail, or refuses a nested call without a change |
| `DeliveryLock.LockTable.Start` | apps/reference-sender/src/state.ts:117-119 | a caller begins once its predecessor's tail has resolved |
| `DeliveryLock.LockTable.Leave` | apps/reference-sender/src/state.ts:120-125 | the caller finishes and the entry is deleted only if its tail is still the stored one |
| `DeliveryLock.CallbacksRunInArrivalOrder` | apps/reference-sender/src/state.ts:96-126 | in every run a callback has begun only if all earlier arrivals of its delivery have finished, so at most one runs |
| `DeliveryLock.EntryIffSomebodyUnfinished` | apps/reference-sender/src/state.ts:120-125 | the map has an entry if and only if some caller of the delivery is unfinished |
| `DeliveryLock.FirstInLineIsReady` | apps/reference-sender/src/state.ts:109-117 | once the earlier callers have finished, promise reactions alone bring the next one to where it can begin |
| `DeliveryLock.TailResolves` | apps/reference-sender/src/state.ts:111-121 | the tail of a finished caller with finished predecessors resolves by such reactions, which change nothing else |
| `DeliveryLock.LoneCallerBeginsAtOnce` | apps/reference-sender/src/state.ts:109-117 | a caller that finds nobody unfinished on its delivery begins at once |
| `DeliveryLock.NestedCallIsRefused` | apps/reference-sender/src/state.ts:105-107 | a nested call changes nothing |
| `ReferenceSender.DelayIsBounded` | apps/reference-sender/src/retry.ts:10-26 | a delay lies between zero and its capped exponential bound, and the bound is reached at sample one |
| `ReferenceSender.AppendKeepsOrder` | apps/reference-sender/src/send-payment.ts:82-99 | appending keeps at most 20 diagnostics with strictly increasing attempt numbers |
| `ReferenceSender.AppendMeaning` | apps/reference-sender/src/send-payment.ts:82-99 | the newest diagnostic is of the present attempt and target, and before it stand the newest of the old ones |
| `ReferenceSender.DiagnosticsPassValidation` | apps/reference-sender/src/state.ts:47-76 | such diagnostics pass the store's check |
| `ReferenceSender.TerminalIsFrozen` | apps/reference-sender/src/send-payment.ts:101-229 | after a persisted terminal record nothing is persisted, sent or marked for recovery |
| `ReferenceSender.SettleOrReleaseNeverBoth` | apps/reference-sender/src/send-payment.ts:130-229 | over the whole life of a delivery the wallet sees only settlement or only release |
| `ReferenceSender.ReceiptFirst` | apps/reference-sender/src/send-payment.ts:130-229 | the matching receipt is persisted before the wallet is told |
| `ReferenceSender.AttemptsAreUsedOnce` | apps/reference-sender/src/send-payment.ts:140-155 | a later send has a larger attempt number and the same bytes; attempt k goes to transport min(k, n - 1) |
| `ReferenceSender.IdentityIsKept` | apps/reference-sender/src/send-payment.ts:140-219 | stored bytes and transports never change and attempts never decrease |
| `ReferenceSender.GivesUpOnlyWhenDone` | apps/reference-sender/src/send-payment.ts:217-223 | a run persists "recovery required" only after all its sends or after an answer that stops it, and never sends more often than allowed |
| `ReferenceSender.NothingSentAfterStop` | apps/reference-sender/src/send-payment.ts:191-217 | after a refusal, a conflict, a blocked or a final receipt the run neither sends nor sleeps again |
| `ReferenceSender.OneSleepBetweenSends` | apps/reference-sender/src/send-payment.ts:217-218 | between two consecutive sends of a run there is exactly one sleep, and the answer in between allowed the retry |
| `ReferenceSender.Delivery.Write` | apps/reference-sender/src/state.ts:128-143 | create and save refuse a wrong presence or invalid diagnostics, and a failing write may or may not have happened |
| `ReferenceSender.Delivery.Judge` | apps/reference-sender/src/send-payment.ts:146-214 | for each answer which diagnostic is appended, which sets the receipt and which allows a retry |
| `ReferenceSender.Delivery.Conclude` | apps/reference-sender/src/send-payment.ts:191-223 | the final record is persisted before the matching wallet call, and a finished outcome ends with that call |
| `ReferenceSender.Delivery.Attempt` | apps/reference-sender/src/send-payment.ts:141-215 | one attempt keeps the discipline, makes at most one send and exactly one unless a call failed, and saves the verdict on the answer |
| `ReferenceSender.Delivery.RunAttempts` | apps/reference-sender/src/send-payment.ts:130-229 | keeps the discipline of retries, makes at most `maxAttempts` sends, ends by telling the wallet the stored status, and fails only if refused at once or a call failed |
| `ReferenceSender.Delivery.Round` | apps/reference-sender/src/send-payment.ts:140-219 | one turn of the loop goes on exactly after a retryable answer with attempts left |
| `ReferenceSender.Delivery.RunOrMark` | apps/reference-sender/src/send-payment.ts:231-316 | if the attempts of a new delivery throw, marking it for recovery is tried unless its record is terminal |
| `ReferenceSender.Delivery.MarkRecoveryAfterNonterminalFailure` | apps/reference-sender/src/send-payment.ts:101-128 | keeps the discipline: recovery is never marked over a persisted terminal record |
| `ReferenceSender.Delivery.SendPayment` | apps/reference-sender/src/send-payment.ts:231-316 | keeps the discipline, refuses an unacceptable request without any effect and a stored delivery without a send, sends at most `maxAttempts` times |
| `ReferenceSender.Delivery.ResumePayment` | apps/reference-sender/src/send-payment.ts:318-336 | keeps the discipline and sends nothing for a terminal record |
| `FundedSender.PayloadsAreIdentical` | adapters/cashu-ts/src/funded-operations.ts:335-523 | over every crash, restart, resume, reset and interleaving, with the in-flight map cleared in quiet states and the store emptied in settled ones, all payloads handed over for a delivery since the store was last emptied are equal |
| `FundedSender.ProofsAreReserved` | adapters/cashu-ts/src/funded-operations.ts:335-523 | if moreover no live call carries a payload when the store is emptied, they carry the proofs of the one stored reservation |
| `FundedSender.WellFormedHolds` | adapters/cashu-ts/src/funded-operations.ts:369-383 | in every run an in-flight entry names a live call on its delivery |
| `FundedRaces.ClearIsSafeIff` | adapters/cashu-ts/src/funded-operations.ts:335-350 | after every careful run, clearing the in-flight map is safe for every continuation if and only if every live call's delivery has its stored payload |
| `FundedRaces.UnquietIsReachable` | adapters/cashu-ts/src/funded-operations.ts:376-377 | one started call is enough to make it unsafe |
| `FundedRaces.UnquietClearRaces` | adapters/cashu-ts/src/funded-operations.ts:335-350 | in the unsafe case some continuation hands over two different payloads |
| `FundedRaces.ResetIsSafeIff` | adapters/cashu-ts/src/funded-operations.ts:335-342 | after every run, emptying the store is safe for every continuation if and only if every live call owns its in-flight entry and none is about to hand its payload over |
| `FundedRaces.UnsettledResetRaces` | adapters/cashu-ts/src/funded-operations.ts:335-342 | otherwise some continuation hands over two different payloads after the reset |
| `FundedRaces.UnsettledIsReachable` | adapters/cashu-ts/src/funded-operations.ts:335-342 | runs that reach both unsafe cases: a call from before the reset, and one about to send |
| `FundedRaces.ResetKeepsReservationsIff` | adapters/cashu-ts/src/funded-operations.ts:335-342 | equal payloads with the proofs of the stored reservation hold for every continuation if and only if moreover no live call carries a payload |
| `FundedRaces.LadenResetSendsUnreserved` | adapters/cashu-ts/src/funded-operations.ts:474-521 | otherwise some continuation sends a payload without a stored reservation |
| `FundedSender.StepKeeps` | adapters/cashu-ts/src/funded-operations.ts:392-523 | every await-to-await step keeps the agreement of calls, records, reservations and sent payloads |
| `FundedReplies.HandedOverAsAsked` | adapters/cashu-ts/src/funded-operations.ts:398-492 | in every run a payload handed over by a call was built for that call's delivery and request |
| `FundedReplies.OtherRequestIsRefused` | adapters/cashu-ts/src/funded-operations.ts:398-409 | a delivery bound to another request by its record or reservation is refused without any effect |
| `FundedReplies.InFlightIsJoined` | adapters/cashu-ts/src/funded-operations.ts:369-375 | a call on a delivery in flight starts nothing |
| `FundedReplies.ReservationStays` | adapters/cashu-ts/src/postgres-sender-store.ts:469-507 | the first reservation of a delivery stays until the store is emptied |
| `FundedReplies.FirstSend` | adapters/cashu-ts/src/funded-operations.ts:402-492 | a first send left alone stores one reservation and one payload with its proofs and the clock, counts the attempt and hands it over once |
| `FundedReplies.RepeatedSend` | adapters/cashu-ts/src/funded-operations.ts:398-492 | a repeated send hands the stored payload over again and counts the attempt first |
| `CdkSender.Sender.SendOne` | adapters/cdk/src/funded.rs:144-256 | in place it computes the send function: stored bytes first, then post, receipt check and settlement mark |
| `CdkSender.Sender.ResetAll` | adapters/cdk/src/funded.rs:131-142 | clears records and ordinal only if seed and wallet reset are good |
| `CdkSender.ReceiptTakenIff` | adapters/cdk/src/funded.rs:432-461 | a matching receipt is taken if and only if it repeats the stored one or is newer than a non-terminal one |
| `CdkSender.ReceiptsOnlyAdvance` | adapters/cdk/src/funded.rs:144-256 | until a reset a stored delivery keeps its payload, its status version never falls, and a settled or rejected receipt never changes |
| `CdkSender.SettledMarkMatchesReceipt` | adapters/cdk/src/funded.rs:242-255 | after every run the settled mark is set if and only if the stored receipt is settled |
| `CdkSender.PostsAreIdentical` | adapters/cdk/src/funded.rs:144-256 | between resets all posts of a delivery carry the same bytes to the same target |
| `CdkReplies.SendReply` | adapters/cdk/src/funded.rs:144-256 | a send posts exactly once if it has a record of this request to go on with, else not at all; it answers Ok exactly for a valid receipt whose first settlement could be marked |
| `CdkReplies.SendIsDeliver` | adapters/cdk/src/funded.rs:174-235 | a new record exists exactly for a fresh, requested, valid and small enough payment, and has the target, id, unit, amount and mint of its request |
| `CdkReplies.DeliverReply` | adapters/cdk/src/funded.rs:237-255 | what one post leaves, for each answer |
| `CdkReplies.ReceiptValidIff` | adapters/cdk/src/funded.rs:432-461 | a receipt is valid if and only if it is about this payment and does not go back |
| `CdkReplies.ResetStartsOver` | adapters/cdk/src/funded.rs:131-142 | a reset starts over exactly with a seed and a wallet that resets, and otherwise changes nothing |
| `RelayQuery.QueryEvents` | apps/nostr-fault-relay/src/relay.ts:84-106 | an event is returned if and only if some filter matches it and fewer than that filter's limit of matching events are strictly newer; the result is strictly increasing |
| `RelayQuery.TakeIsSelection` | apps/nostr-fault-relay/src/relay.ts:84-106 | the prefix of the sorted matches is the selection by rank |
| `RelayQuery.OldestFirstIsUnique` | apps/nostr-fault-relay/src/relay.ts:103-105 | a strictly increasing list is determined by its members |
| `RelayQuery.AnswerIgnoresStorageOrder` | apps/nostr-fault-relay/src/relay.ts:84-106 | two answers over differently ordered stores are equal |
| `RelayQuery.MatchesIffWanted` | apps/nostr-fault-relay/src/relay.ts:45-75 | a filter matches exactly the events with a given prefix, kind, tag and time window; a malformed field matches nothing |
| `RelayQuery.ReturnedAreWanted` | apps/nostr-fault-relay/src/relay.ts:84-106 | whatever is returned is stored and wanted by one of the filters |
| `RelayQuery.LimitMeaning` | apps/nostr-fault-relay/src/relay.ts:89-96 | no limit means all wanted events, a malformed or negative one none, and a given one the newest that many |

## Left out

- SQL text, SQLCipher, AES-GCM, migrations and JSON encoding: rows are values, encryption is the identity, and a digest is represented by the data it hashes, so hashes do not collide.
- SQL integer width: tokens, leases and generations are bounded by 64-bit checks where the code checks them and are otherwise unbounded.
- ReconcileCycle.DependencyCycle: reads one journal; `EndedAtTheStart` relates a walk whose reads are spread over a growing one.
- LifecycleStore.Store.RenewReset: one atomic step, although the source makes its check and its update outside a transaction.
- EngineWallet.OutboxHoldsExactlySucceededSends: assumes a wallet that returns a hand-off exactly on successful sends, which the foreign wallet code is responsible for.
- Engine.Exec: a reconcile operation's nested run is replaced by an arbitrary answer without material or hand-off, the nested worker being an ordinary worker of its own; the process-local operation gate is ignored, which allows more interleavings.
- Calls into the CDK library, mint quotes and the Lightning probe: represented by a wallet that answers anything.
- `exact_nut07_input_state`, `send_recovery_disposition`, input validation and the fee and hash fields of an operation: single-step classifications that no guard of the store or the phase machine reads.
- Wallet database files, generations on disk and their cleanup: only the active generation number is modelled.
- Liveness of the waiting loops: the code states no fairness.
- ReferenceSender.Delivery.RunAttempts: `mergeObservedReceipt`, receipt parsing and the identity check are outcomes chosen by the environment; a write in flight when the process dies lands at once or never; deliveries are taken one at a time under their lock; and real arithmetic replaces floating point in `retryDelay`.
- FundedSender.PayloadsAreIdentical: holds for careful runs, the exact conditions being those of `FundedRaces`; one live process at a time, and writes of a dead process do not land after its successor has started; the concurrent calls are modelled on values because their interleaving is the point, and the memory store, transport selection and receipt merging are not part of this model.
- CdkSender.Sender.SendOne: parsing, proof validation, hashing and id generation are outcomes supplied with the call; the source serialises sends under its lock, and so does the model.
- `proofs` and `proof_set_hash` of the CDK sender: evidence listings that change no state.
- RelayQuery.QueryEvents: ids are compared lexicographically, which is what `localeCompare` does on lower-case hex; distinct ids are required because the relay stores events in a map by id; subscriptions, limits on stored events and fault rules are not part of this model.
- HTTP and Nostr transports, routes, command line, doctor checks, reports and the website: plumbing.
