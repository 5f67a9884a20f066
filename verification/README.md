# Verified models of the audit-trail contracts

This project models the stateful core of a set of Soroban smart contracts (an
on-chain audit log with data retention, a data lake, DAO governance, disputes and
treasury, a quota limiter, selective disclosure and CBDC settlement) and proves what
whole runs of those contracts keep.

## How the models are built

Each contract has three layers.

* A `datatype` of its storage and, per entry point, a specification function from a
  state and the call's arguments to a `Result`: the new state, or the error.
* A `class Contract` with the storage as fields and one method per entry point, in
  the order of reads, checks, writes and loops of the source. Every method ensures
  `Commits(spec(old state), old state, new state, error)`: it commits exactly the
  state of the specification, or aborts, reports the error and changes nothing.
* A module `...Runs` in which a run is a sequence of transactions of any callers, in
  any order, with any arguments, failing ones included; the main theorems quantify
  over all runs and all starting states that satisfy the stated invariant.

Conventions. A panic or an `Err` aborts the call and the storage is rolled back. The
release profile sets `overflow-checks` (`Cargo.toml`, line 64), so arithmetic that
leaves the machine width aborts with `Overflow`; `saturating_*` operations saturate.
The ledger's time and sequence number are arguments of every call; the theorems that
need a clock that never runs backwards say so (`Clocked`). SHA-256 is a function
parameter: statements that rest on it name the collision (`Collision`, `IdCollision`,
`Meet`), or assume only that no content shares its id with the same content without
metadata (`BindsEmpty`). The authenticated caller is
an argument, compared with the stored owner, administrators or signers.

`dafny verify dfyconfig.toml` checks everything.

| file | modules |
|---|---|
| `Common.dfy` | machine widths, `Result`, `Commits`; sums over finite maps |
| `CapacityPlanning.dfy` | daily quota limiter, floor billing, telemetry ring |
| `Disclosure.dfy` | Merkle trees over any combining function; the proof builder and inclusion check |
| `CbdcInterop.dfy` | multi-hop fixed-point conversion |
| `CbdcOffline.dfy` | little-endian preimages, transaction integrity, batch ids |
| `DataLake.dfy` | optimistic commits, snapshots, time travel, schema versions |
| `DaoGovernance.dfy` | delegation, proposals, votes, execution |
| `DaoDisputes.dfy` | evidence, jurors, votes, finalisation, slashing |
| `DaoTreasury.dfy` | funds, multi-signature allocations, fee distribution |
| `EventLog.dfy` | the hash-chained log: append, update with re-chaining, verification |
| `DataRetention.dfy`, `DataRetentionRuns.dfy` | holds, exceptions, erasure, retention report and sweep |

## Where the code and its documentation differ

The models follow the code. The theorems named give the exact behaviour, and for the
failures that take a history to reach, a run from the initial state that reaches them.

* `src/capacity_planning.rs:219` calls the quota window a sliding one. It is a fixed
  window: a sliding day sees at most twice the daily maximum (`IntervalBound`), and it
  can see more than the maximum if and only if a window opened before it still runs and
  is not used up (`SlidingDayIff`); `PotentialAttained` gives the exact amount for every
  tier, `IntervalBoundIsTight` a run. The throttled flag at lines 226-230 is set just
  before a panic and never survives (`NeverThrottled`).
* `src/dao_governance_tests.rs:108-114` outlines delegation as a transfer of voting
  power. The delegator keeps voting with its own power (`DelegateWeights`), and one who
  moves to another delegate without revoking first leaves power behind: the books
  balance if and only if nobody does that (`BooksBalanceIff`; run: `Redelegated`).
  Revoking never underflows. Moving delegations while voting goes on, even with balanced
  books, lets one base power count several times on one proposal (run: `CountedThrice`):
  the turnout is the base power behind the votes if and only if no vote stands on power
  counted before or left behind (`OnePowerOneCountIff`).
* `src/dao_governance_tests.rs:93` says an executed proposal cannot be cancelled.
  Neither execution nor cancellation looks at the status: it is the one that the last
  accepted execution or cancellation asked for (`StatusStep`, `StatusAfterRun`; runs of
  both orders: `StatusFlips`).
* An approved treasury allocation can be executed more than once: some run pays it n
  times if and only if the rest of the fund's budget covers n times its amount
  (`ExecutesTimesIff`; run: `PaidTwice`); conservation and the budget limit hold all the same.
* A decided dispute can be finalised again if and only if an assignment of jurors was
  accepted after the decision (`FinalizedAgainIff`), once per opening of the voting
  (`FinalizedOncePerOpening`). Its outcome and tallies do not change, but every
  finalisation charges the same penalty again (`OutcomeIsStable`,
  `EveryFinalizationCharges`; run: `ChargedTwice`). A dispute whose jurors are assigned
  before any evidence never gets a voting period: it is finalised a whole voting period
  after its evidence if and only if evidence came first, and else dismissed without a
  vote (`HeardIff`; run: `UnheardRun`).
* An erasure request for an event that is erased already can be approved, which
  replaces the recorded digest by that of what the event holds by then. The records are
  true if and only if for no event the last such approval saw another digest
  (`EvidenceIff`); without direct edits, if and only if no such approval meets content
  whose digest differs from that of nothing (`NeverOverwrittenIff`; run: `ApprovedTwice`).
* `update_event` and `rollback_event` are open to administrators whatever the category,
  the hold, the exception or the erasure of an event (`EditAccepted`, `EditStep`; run:
  `OperationalEdited`). So
  protection of operational, held and excepted events holds in runs in which no direct
  edit of the event is accepted, and an administrator can bring erased metadata
  back from the history (`HistoryStartsAsLogged`, `RollbackRestores`). The hash chain
  stays intact in all runs (`ChainStaysIntact`).
* Reusing a commit id in the data lake overwrites the index by id: the two commit
  indexes agree if and only if no id is reused (`IndexesAgreeIff`; run: `IdReused`).
* With byte-wise exclusive or as the combining function the Merkle root is the exclusive
  or of the leaves, whatever their order (`TreeRootIsXor`, `RootIgnoresOrder`), and the
  inclusion check binds nothing (`InclusionBindsNothing`). Completeness holds for every
  combining function; binding, up to a collision that the path itself shows, too
  (`PathReachesRoot`, `PathBindsLeaf`).
* A settlement path wants as many rates as pilots, one more than there are hops between
  them (`src/cbdc_interop.rs:263-277`); the model does the same.

## Model

| member | source | states |
|---|---|---|
| CapacityPlanning.Contract.ConsumeQuota | src/capacity_planning.rs:184-238 | commits the window reset, the count and the floor-priced bill of `Consume`, or aborts with nothing changed |
| CapacityPlanning.Contract.RecordTelemetry | src/capacity_planning.rs:123-143 | overwrites the slot of the counter modulo 1000 and counts on |
| CapacityPlanning.Contract.SetSubmitterQuota | src/capacity_planning.rs:157-181 | starts a new epoch for the submitter on a tier that exists, forgetting usage and bill |
| CapacityRuns.IntervalBound | src/capacity_planning.rs:184-238 | in every run on an unchanged tier, any interval of 86400 seconds, wherever it starts, gets at most twice the daily maximum accepted |
| CapacityRuns.PotentialBounds | src/capacity_planning.rs:184-238 | in every run from lo on, the events accepted in [lo, lo+86400) are at most: one maximum if the window has lapsed or there is none, what is left of a window opened at or after lo, and both together if a window opened before lo still runs |
| CapacityRuns.WindowBound | src/capacity_planning.rs:216-231 | inside one window the stored counter is the true number of accepted events and an acceptance never takes it past the maximum |
| CapacityRuns.PotentialAttained | src/capacity_planning.rs:184-238 | on every tier and from every state some run gets exactly that much accepted, so the bound is exact |
| CapacityRuns.SlidingDayIff | src/capacity_planning.rs:219-231 | a sliding day starting at lo can see more than the daily maximum if and only if a window opened before lo still runs at lo and is not used up |
| CapacityRuns.IntervalBoundIsTight | src/capacity_planning.rs:219-224 | a run from the empty state in which a sliding day sees exactly twice the default tier's maximum |
| CapacityRuns.BillingError | src/capacity_planning.rs:233-234 | over a run the bill never exceeds the exact price and falls short by less than one stroop per accepted call |
| CapacityRuns.NeverThrottled | src/capacity_planning.rs:226-230 | no reachable quota record carries the throttled flag |
| CapacityRuns.RingHoldsTail | src/capacity_planning.rs:123-143 | after n calls the ring holds exactly the last min(n, 1000) records, record k in slot k mod 1000, up to the counter's limit |
| MerkleTree.PathReachesRoot | src/disclosure.rs:136-173 | for every leaf list, leaf and combining function, folding the leaf's sibling path gives the level-by-level root |
| MerkleTree.ClimbsAgreeIff | src/disclosure.rs:192-214 | two climbs of one shape end alike if and only if they are the same or meet in a collision of the combining function |
| MerkleTree.PathBindsLeaf | src/disclosure.rs:192-214 | for every combining function a path of the right shape is accepted if and only if leaf and siblings are the tree's own or it shows two pairs that combine alike |
| MerkleTree.RootIsFold | src/disclosure.rs:136-173 | with an associative combining function the tree of levels refines a flat fold |
| Disclosure.CombineHashes | src/disclosure.rs:176-184 | the array loop computes the byte-wise exclusive or |
| Disclosure.CombineLevel | src/disclosure.rs:150-163 | the inner loop pairs neighbours and promotes an odd last hash |
| Disclosure.ProofBuilder.CalculateRoot | src/disclosure.rs:136-173 | terminates with the root of the tree over all field hashes, zero for no fields |
| Disclosure.VerifyFieldInclusion | src/disclosure.rs:192-214 | accepts exactly the proofs whose path climbs to the expected root; a missing position aborts |
| Disclosure.CreateDisclosureProof | src/disclosure.rs:217-246 | the disclosed root covers every field hash and so does not depend on which fields are disclosed |
| Disclosure.EveryFieldIsProvable | src/disclosure.rs:136-214 | the field proof read off the tree's levels passes the code's own check, for every field of every event |
| Disclosure.TreeRootIsXor | src/disclosure.rs:136-184 | the computed root is the exclusive or of all leaf hashes |
| Disclosure.RootIgnoresOrder | src/disclosure.rs:136-184 | any permutation of the leaves has the same root |
| Disclosure.ClimbIsXor | src/disclosure.rs:192-214 | with the code's combination the check only adds leaf and siblings up; positions play no part |
| Disclosure.InclusionBindsNothing | src/disclosure.rs:176-214 | for every leaf and root some one-step proof is accepted, and every path is accepted for exactly one leaf |
| Disclosure.DisclosureVerifies | src/disclosure.rs:217-258 | a created proof verifies if and only if something is disclosed and the field hashes do not cancel out |
| CbdcInterop.SettlementPath.ComputeFinalAmount | src/cbdc_interop.rs:263-277 | the loop computes the chain of floor conversions, with both error cases of the path |
| CbdcInterop.ChainError | src/cbdc_interop.rs:126-142 | F * S^k <= a * r1 ... rk <= F * S^k + slack, the slack being what floors can lose |
| CbdcInterop.StrictError | src/cbdc_interop.rs:263-277 | the error is strictly below the sum over hops i of S^i times the later rates |
| CbdcInterop.ChainMonotone | src/cbdc_interop.rs:263-277 | a larger amount never settles to less |
| CbdcInterop.SplittingNeverGains | src/cbdc_interop.rs:126-142 | two parts settled separately never yield more than their sum settled at once |
| CbdcInterop.ChainFailsIff | src/cbdc_interop.rs:126-142 | a settlement fails if and only if some hop is reached with a zero rate, a zero amount or a product beyond 128 bits |
| CbdcInterop.ChainAppend | src/cbdc_interop.rs:263-277 | settling along a joined path is settling along its parts in turn, errors included |
| LittleEndian.DecodeEncode | src/cbdc_offline.rs:128-139 | fixed-width little-endian encoding is undone by decoding, for every value of that width |
| CbdcOffline.ComputeOfflineTxHash | src/cbdc_offline.rs:123-144 | hashes the seven covered fields in their fixed-width layout |
| CbdcOffline.ParsePreimage | src/cbdc_offline.rs:123-144 | a decoder recovers every covered field from the 86-byte preimage |
| CbdcOffline.PreimageInjective | src/cbdc_offline.rs:123-144 | two preimages are equal if and only if all covered fields are |
| CbdcOffline.VerifyTransactionIntegrity | src/cbdc_offline.rs:278-288 | accepts exactly when the recomputed hash is the stored one |
| CbdcOffline.IntegrityIff | src/cbdc_offline.rs:93-144 | contents swapped under a kept hash pass if and only if every covered field is unchanged or the hash function collides |
| CbdcOffline.ComputeBatchId | src/cbdc_offline.rs:220-229 | hashes the concatenation of the ids |
| CbdcOffline.ChunksConcat | src/cbdc_offline.rs:220-229 | the concatenation determines the list of ids |
| CbdcOffline.BatchIdIff | src/cbdc_offline.rs:220-229 | two batches share an id if and only if they list the same ids in the same order or the hash function collides |
| DataLake.Contract.InitializeLake | src/data_lake.rs:156-190 | sets up an empty lake with schema 1 once, else aborts |
| DataLake.Contract.Submit | src/data_lake.rs:193-272 | appends the commit with the next sequence number and its snapshot under all four indexes, or aborts with nothing changed |
| DataLake.Contract.Evolve | src/data_lake.rs:275-325 | stores the next schema version when the caller expects the active one |
| DataLake.Contract.GetSnapshotAsOf | src/data_lake.rs:335-357 | the scan's loop computes the as-of answer |
| DataLake.Contract.VerifyTimeTravelProof | src/data_lake.rs:372-378 | accepts exactly the proofs naming a stored snapshot, its commit and a target not before it |
| DataLakeRuns.ReachableConsistent | src/data_lake.rs:156-325 | in every run commits and snapshots are numbered alike and matched, snapshots are in time and schema order, the time index holds the last snapshot of each instant |
| DataLakeRuns.AsOfIsLatest | src/data_lake.rs:335-357 | the answer is the snapshot of the largest id with timestamp <= t, none if and only if there is none |
| DataLakeRuns.ScanAgreesWithIndex | src/data_lake.rs:247-357 | the scan equals the timestamp index wherever the index has an entry |
| DataLakeRuns.AnswerStep | src/data_lake.rs:193-272 | a transaction changes the answer for t exactly when it commits at or before t, and then to its own snapshot |
| DataLakeRuns.PastIsStable | src/data_lake.rs:193-357 | no run that happens strictly after t changes the answer for t |
| DataLakeRuns.ProofsStayValid | src/data_lake.rs:372-378 | a time-travel proof that verifies keeps verifying in every run |
| DataLakeRuns.VerifiesIff | src/data_lake.rs:372-378 | a proof verifies if and only if it names the commit of a snapshot no later than the as-of answer of its target |
| DataLakeRuns.CommitsAreConsecutive | src/data_lake.rs:210-219 | the i-th commit a run gets accepted has the i-th next sequence number and stays stored under it |
| DataLakeRuns.CommitsStay | src/data_lake.rs:222-272 | no run overwrites a commit stored by sequence |
| DataLakeRuns.RunIdIndexed | src/data_lake.rs:222-272 | in every run the commit found under an id is the last one accepted with that id |
| DataLakeRuns.IndexesAgreeIff | src/data_lake.rs:222-272 | the index by id agrees with the one by sequence if and only if no id was reused |
| DataLakeRuns.IdReused | src/data_lake.rs:222-272 | a run from the empty lake in which two accepted commits share an id and the index by id loses the first |
| DaoGovernance.Contract.SubmitProposal | src/dao_governance.rs:294-350 | stores the next proposal with its voting and execution ledgers, or aborts |
| DaoGovernance.Contract.VoteOn | src/dao_governance.rs:353-421 | adds the voter's full weight to one tally once, inside the voting period only |
| DaoGovernance.Contract.DelegateTo | src/dao_governance.rs:424-459 | records the delegate and adds the base power to it, or aborts |
| DaoGovernance.Contract.RevokeDelegation | src/dao_governance.rs:462-489 | takes the base power back from the delegate and clears the record |
| DaoGovernance.Contract.ExecuteProposal | src/dao_governance.rs:496-549 | marks a won proposal executed after its timelock, else aborts |
| DaoGovernance.Contract.CancelProposal | src/dao_governance.rs:552-576 | lets the proposer or the owner cancel, else aborts |
| DaoGovernanceRuns.DelegationAccounting | src/dao_governance.rs:424-489 | over every run delegated power equals the base powers of the current delegators plus the initial excess plus what re-delegations stranded; nobody delegates to themselves |
| DaoGovernanceRuns.UndelegateNeverFails | src/dao_governance.rs:462-489 | the subtraction in `undelegate` underflows in no reachable state |
| DaoGovernanceRuns.BooksBalanceIff | src/dao_governance.rs:424-459 | delegated power equals the sum over current delegators at every address if and only if nobody with a delegate delegated again |
| DaoGovernanceRuns.Redelegated | src/dao_governance.rs:424-459 | a run in which a delegator who moves on leaves its power at the first delegate, who has no delegator left |
| DaoGovernanceRuns.DelegateWeights | src/dao_governance.rs:424-459 | delegating raises the delegate's voting weight and leaves the delegator's as it was |
| DaoGovernanceRuns.TurnoutAccounting | src/dao_governance.rs:353-489 | over any run the power voted on a proposal is the base power behind the votes, plus what was counted again, plus stranded power voted |
| DaoGovernanceRuns.OnePowerOneCountIff | src/dao_governance.rs:353-489 | the turnout is exactly the base power behind the votes if and only if no vote stands on base power counted before or on stranded power, and more otherwise |
| DaoGovernanceRuns.TurnoutWithinTotal | src/dao_governance.rs:353-489 | then it never exceeds the total base power |
| DaoGovernanceRuns.SettledCountsOnce | src/dao_governance.rs:353-489 | that is so when no delegation changes during the votes and no delegator with base power votes itself |
| DaoGovernanceRuns.CountedThrice | src/dao_governance.rs:353-489 | a run with balanced books in which a total base power of 10 ends as 30 votes for one proposal |
| DaoGovernanceRuns.RunTallied | src/dao_governance.rs:353-421 | in every run each tally is the sum of the recorded votes of that choice, one per address |
| DaoGovernanceRuns.TalliesFreeze | src/dao_governance.rs:353-421 | once the ledger passes the end, tallies and dates of a proposal never change and no recorded vote on it is added, altered or removed |
| DaoGovernanceRuns.ExecutedStaysFair | src/dao_governance.rs:496-549 | in every run whatever is marked executed is past its end with more votes for than against |
| DaoGovernanceRuns.ExecutedOnceWonForever | src/dao_governance.rs:515-549 | a proposal executed once has more votes for than against for ever, whatever its status becomes |
| DaoGovernanceRuns.StatusStep | src/dao_governance.rs:515-576 | the status of a proposal changes exactly by an accepted cancellation or execution, neither of which looks at the present status |
| DaoGovernanceRuns.StatusAfterRun | src/dao_governance.rs:515-576 | after any run the status is the one that the last accepted execution or cancellation asked for |
| DaoGovernanceRuns.StatusFlips | src/dao_governance.rs:515-576 | runs in which a proposal is executed and then cancelled, and cancelled and then executed |
| DaoDisputes.Contract.FileDispute | src/dao_dispute_resolution.rs:264-315 | stores the next dispute with its evidence deadline, or aborts |
| DaoDisputes.Contract.Submit | src/dao_dispute_resolution.rs:318-362 | the first submission by the named party closes evidence and fixes the voting deadline |
| DaoDisputes.Contract.Assign | src/dao_dispute_resolution.rs:369-410 | gives every listed juror a fresh record and opens voting |
| DaoDisputes.Contract.CastJurorVote | src/dao_dispute_resolution.rs:413-466 | counts an assigned juror's vote once, up to the deadline, and records it in both places |
| DaoDisputes.Contract.FinalizeDispute | src/dao_dispute_resolution.rs:469-538 | records the verdict after the deadline and charges the penalty when the plaintiff wins |
| DaoDisputes.Contract.AppealDecision | src/dao_dispute_resolution.rs:545-582 | files an appeal by a party to a decided dispute |
| DaoDisputeRuns.OutcomeIsStable | src/dao_dispute_resolution.rs:369-538 | no run after a first finalisation changes tallies or outcome, even with new jurors and further finalisations |
| DaoDisputeRuns.FinalizeRules | src/dao_dispute_resolution.rs:469-538 | a finalisation sets the outcome to the verdict of the tallies, after the deadline |
| DaoDisputeRuns.HearingIff | src/dao_dispute_resolution.rs:318-410 | evidence is ever accepted if and only if that comes before the first assignment, and the voting deadline is one period after it |
| DaoDisputeRuns.HeardIff | src/dao_dispute_resolution.rs:318-538 | a dispute is finalised a whole voting period after its evidence if and only if evidence was accepted before the first assignment; else no vote was cast and it is dismissed |
| DaoDisputeRuns.DecidedUnheard | src/dao_dispute_resolution.rs:369-538 | every filed dispute can be decided in one ledger by assigning and finalising |
| DaoDisputeRuns.UnheardRun | src/dao_dispute_resolution.rs:264-538 | a run from the empty court, all in one ledger, that dismisses a dispute unheard |
| DaoDisputeRuns.VotesAddUp | src/dao_dispute_resolution.rs:413-466 | in every run votes for, against and abstaining add up to the votes cast |
| DaoDisputeRuns.SlashingAccounting | src/dao_dispute_resolution.rs:497-509 | the recorded total of an address is the sum of the penalties of all accepted finalisations |
| DaoDisputeRuns.FinalizedOncePerOpening | src/dao_dispute_resolution.rs:369-538 | over any run the finalisations of a dispute are exactly the assignments that opened its voting, but for one still to come |
| DaoDisputeRuns.OpensIff | src/dao_dispute_resolution.rs:369-410 | outside voting, a run opens it if and only if it accepts an assignment |
| DaoDisputeRuns.FinalizedOncePerAssignment | src/dao_dispute_resolution.rs:369-538 | a dispute is finalised, and charged, at most once per juror assignment |
| DaoDisputeRuns.FinalizedAgainIff | src/dao_dispute_resolution.rs:369-538 | a decided dispute is finalised again, in a run ending with the owner's attempt, if and only if an assignment was accepted after the decision |
| DaoDisputeRuns.EveryFinalizationCharges | src/dao_dispute_resolution.rs:469-509 | what a run charges the defendant of a decided dispute is the number of further finalisations times the same penalty |
| DaoDisputeRuns.SecondCharge | src/dao_dispute_resolution.rs:369-509 | seating jurors again and finalising again is accepted and adds exactly the penalty once more |
| DaoDisputeRuns.ChargedTwice | src/dao_dispute_resolution.rs:264-538 | a run from the empty court in which one dispute costs its defendant the penalty twice |
| DaoDisputeRuns.JurorAccounting | src/dao_dispute_resolution.rs:369-466 | over every run a tally is the number of jurors on record for that side plus the voters whose record a reassignment erased |
| DaoDisputeRuns.OneAssignmentForgetsNothing | src/dao_dispute_resolution.rs:369-410 | with at most one assignment no voter's record is erased |
| DaoDisputeRuns.VotesCastCountsJurors | src/dao_dispute_resolution.rs:369-466 | with at most one assignment the votes cast equal the jurors marked as having voted |
| DaoTreasury.Contract.NewFund | src/dao_treasury.rs:207-255 | opens an empty fund with its limit, or aborts (a taken name with the error of a missing fund) |
| DaoTreasury.Contract.DepositTo | src/dao_treasury.rs:258-278 | adds a positive amount to an existing fund |
| DaoTreasury.Contract.RequestAllocation | src/dao_treasury.rs:285-325 | stores the next allocation, unapproved, for an amount within bounds |
| DaoTreasury.Contract.ApproveAllocation | src/dao_treasury.rs:328-377 | records one signature per configured signer and approves when the requirement is reached |
| DaoTreasury.Contract.ExecuteAllocation | src/dao_treasury.rs:380-423 | moves the amount from balance to budget used when approved, budgeted and covered |
| DaoTreasury.Contract.SetFeeDistribution | src/dao_treasury.rs:430-456 | accepts exactly the distributions whose saturating sum is 10000 basis points |
| DaoTreasury.Contract.Distribute | src/dao_treasury.rs:459-501 | credits every share's floor cut in order, to an account or to the placeholder fund, or nothing at all |
| DaoTreasury.Contract.CreditShare | src/dao_treasury.rs:462-483 | one turn of the loop: a deposit into the placeholder fund, or an account's share |
| DaoTreasuryRuns.FundsAreConserved | src/dao_treasury.rs:258-501 | for every fund in every run balance plus budget used grows by the deposits and fees paid in, and budget used by the payouts of all executions |
| DaoTreasuryRuns.BudgetsHold | src/dao_treasury.rs:380-423 | no run spends past a budget limit |
| DaoTreasuryRuns.RunSigned | src/dao_treasury.rs:285-377 | in every run an approval count is the number of distinct recorded signatures, all by configured signers, and approval means the requirement was reached |
| DaoTreasuryRuns.ExecutionIsSigned | src/dao_treasury.rs:328-423 | every execution is backed by at least the required number of distinct signatures |
| DaoTreasuryRuns.ExecutionsInBudget | src/dao_treasury.rs:380-423 | no run executes an approved allocation more often than the rest of the fund's budget covers |
| DaoTreasuryRuns.PayMany | src/dao_treasury.rs:258-423 | as often as the budget covers, some run of deposits and executions does execute it |
| DaoTreasuryRuns.ExecutesTimesIff | src/dao_treasury.rs:380-423 | some run executes an approved allocation n times if and only if the rest of the fund's budget covers n times the amount |
| DaoTreasuryRuns.ExecutesTwiceIff | src/dao_treasury.rs:380-423 | with nothing in between, two executions succeed if and only if budget and balance cover twice the amount |
| DaoTreasuryRuns.PaidTwice | src/dao_treasury.rs:207-423 | a run from the empty treasury in which one signed allocation is paid out twice |
| DaoTreasuryRuns.FeeSplit | src/dao_treasury.rs:430-501 | distributing T among n recipients credits accounts and the placeholder fund a total in [T - n + 1, T] |
| DaoTreasuryRuns.FeesNeverExceedCollected | src/dao_treasury.rs:430-501 | in every run accounts and the placeholder fund together receive no more than the fees collected |
| EventLog.UpdateEvent | src/lib.rs:3371-3516 | the re-chaining and re-parenting loops compute the functional update of the log |
| EventLog.RelinkLater | src/lib.rs:3478-3494 | the loop links every later entry anew, in order |
| EventLog.RestoreEvent | src/lib.rs:3572-3681 | computes the log with an earlier version in place, relinked; children are not re-pointed |
| EventLog.VerifyRange | src/lib.rs:5331-5367 | accepts exactly the ranges that exist and whose events are linked to their predecessors |
| EventLog.UpdateFrame | src/lib.rs:3371-3516 | an update keeps the count, submitter, type, category and timestamp of every event and the metadata and id of all others; earlier hashes stay |
| EventLog.RestoreFrame | src/lib.rs:3559-3691 | a rollback puts exactly the version's event in place and touches no other event's content or id, nor any earlier entry |
| EventLog.UpdateChainIff | src/lib.rs:3371-3516 | after an update the whole chain verifies if and only if it verified before the updated event |
| EventLog.UpdateKeepsChain | src/lib.rs:3721-3731 | an intact log stays intact under updates |
| EventLog.RestoreKeepsChain | src/lib.rs:3559-3691 | an intact log stays intact under rollbacks |
| EventLog.UpdateKeepsIds | src/lib.rs:5279-5301 | ids remain the digests of the content stored under them |
| EventLog.RestoreKeepsIds | src/lib.rs:3559-3691 | ids remain the digests of their content under rollbacks |
| EventLog.UpdateSetsMetadata | src/lib.rs:3371-3516 | the new metadata is in place if and only if its id does not collide with the one it replaces |
| EventLog.RechainShape | src/lib.rs:5306-5320 | re-chaining from i links every event from i on and touches no id, content or earlier entry |
| EventLog.AppendKeepsChain | src/lib.rs:2086-2415 | after an append the chain verifies if and only if it did before |
| EventLog.AppendKeepsIds | src/lib.rs:2086-2415 | after an append the ids match if and only if they did before |
| DataRetention.Contract.SetRetentionPolicy | src/data_retention.rs:142-162 | stores a non-zero period for a category |
| DataRetention.Contract.SetDefaultRetentionDays | src/data_retention.rs:172-181 | stores the fallback period |
| DataRetention.Contract.PlaceLegalHold | src/data_retention.rs:205-229 | puts an existing event on hold with a reason |
| DataRetention.Contract.ReleaseLegalHold | src/data_retention.rs:234-254 | ends an active hold and records who released it |
| DataRetention.Contract.GrantComplianceException | src/data_retention.rs:277-301 | stores an exception for an existing event |
| DataRetention.Contract.RevokeComplianceException | src/data_retention.rs:304-313 | removes the exception |
| DataRetention.Contract.SubmitErasureRequest | src/data_retention.rs:343-375 | files the next request for an existing business event not erased yet |
| DataRetention.Contract.ProcessErasureRequest | src/data_retention.rs:388-446 | decides a pending request once; an approval erases, or aborts on each guard with nothing changed |
| DataRetention.Contract.UpdateEventMetadata | src/lib.rs:3371-3523 | replaces metadata within limits and schema and records a version, keeps everything on an unchanged id, or aborts |
| DataRetention.Contract.RollbackEvent | src/lib.rs:3559-3691 | puts a recorded version back and records that as a version, or aborts |
| DataRetention.Contract.RedactEvent | src/data_retention.rs:417-430 | blanks the metadata through the log's update and records its digest, or fails on a schema that rejects empty metadata |
| DataRetention.Contract.ClassifyEvent | src/data_retention.rs:494-518 | the chain of checks sorts every event into exactly one class |
| DataRetention.Contract.VerifyRetentionCompliance | src/data_retention.rs:470-522 | the report counts each event of the batch once, in its own class |
| DataRetention.Contract.SweepOne | src/data_retention.rs:544-580 | one turn of the sweep redacts the event exactly when it is erasable |
| DataRetention.Contract.SweepRange | src/data_retention.rs:544-580 | the sweep's loop computes the specified state and count |
| DataRetention.Contract.RunRetentionSweep | src/data_retention.rs:528-588 | commits the sweep and returns the erasable count of the report beforehand, or aborts with nothing changed |
| DataRetention.SurveyAddsUp | src/data_retention.rs:470-522 | the five buckets add up to the number checked, which is the size of the batch |
| DataRetention.SurveyCounts | src/data_retention.rs:470-522 | each bucket counts the events of its class |
| DataRetention.SweepSucceedsIff | src/data_retention.rs:544-580 | a sweep succeeds if and only if every erasable event of its range has a type whose schema accepts empty metadata |
| DataRetention.SweepReturnsCount | src/data_retention.rs:528-588 | a sweep returns the number of erasable events found beforehand |
| DataRetention.SweepClass | src/data_retention.rs:528-588 | erasable events of the range become erased, every other event keeps its class |
| RetentionSweeps.SweepAgreesWithReport | src/data_retention.rs:470-588 | the sweep returns the reported erasable count, moves exactly it to the erased bucket, keeps the other buckets, and a second sweep returns 0 |
| RetentionSweeps.BatchesCompose | src/data_retention.rs:528-588 | sweeping two adjoining batches gives the state and summed count of one sweep of both, also past the last event and on failure |
| RetentionRuns.StepShape | src/data_retention.rs:388-588 | only sweeps, approvals, new events and direct edits reach the log |
| RetentionRuns.OperationalIsImmutable | src/data_retention.rs:343-588 | no run changes the metadata or erasure record of an operational event of which no direct edit is accepted |
| RetentionRuns.HoldProtects | src/data_retention.rs:205-254 | until an administrator releases a hold or a direct edit of the event is accepted, no run touches its metadata or erasure record |
| RetentionRuns.ExceptionProtects | src/data_retention.rs:277-328 | the same while a compliance exception is active, whatever attempts to revoke, replace or edit are rejected |
| RetentionRuns.EditAccepted | src/lib.rs:3371-3390 | exactly which calls of the two entry points are accepted: category, hold, exception and erasure play no part |
| RetentionRuns.EditStep | src/lib.rs:3371-3691 | an accepted edit puts its metadata in place unless it leaves the id as it is |
| RetentionRuns.OperationalEdited | src/lib.rs:3371-3523 | a run from the initial state in which an administrator replaces the metadata of an operational event under a legal hold |
| RetentionRuns.ChainStaysIntact | src/lib.rs:3371-3731 | logging, erasing, sweeping, updating and rolling back in any order keep the hash chain verifiable and the ids matching |
| RetentionRuns.EvidenceIff | src/data_retention.rs:388-446 | at the end of any run, edits included, every erasure record holds the digest of what was erased if and only if for no event the last repeated approval saw another digest |
| RetentionRuns.EvidenceIsKept | src/data_retention.rs:388-446 | so it does in every run that approves no request for an erased event |
| RetentionRuns.ContentIsAsLogged | src/data_retention.rs:388-446 | what was erased is the metadata as first logged, for events of which no direct edit is accepted |
| RetentionRuns.NeverOverwrittenIff | src/data_retention.rs:388-446 | without direct edits the records are true if and only if no approval hits an erased event whose content has another digest than nothing |
| RetentionRuns.LostStaysLost | src/data_retention.rs:388-588 | without direct edits a record overwritten by such an approval is never right again |
| RetentionRuns.ApprovedTwice | src/data_retention.rs:343-446 | a run from the initial state in which two requests for one event are approved and its record becomes wrong |
| RetentionRuns.ErasureIsPermanent | src/data_retention.rs:388-588 | in every run, edits included, an event marked erased stays marked |
| RetentionRuns.ErasedIsBlank | src/data_retention.rs:388-588 | in every run an erased event of which no direct edit is accepted has no metadata |
| RetentionRuns.HistoryStartsAsLogged | src/lib.rs:3408-3455 | in every run the history of each event starts with its metadata as logged, and all versions have the event's own submitter, type, category and time |
| RetentionRuns.RollbackRestores | src/lib.rs:3559-3650 | rolling back to the first version is always accepted and brings the logged metadata back, unless its id collides |
| RetentionRuns.DecisionsAreFinal | src/data_retention.rs:388-402 | a request leaves the pending state at most once and its decision never changes |

## Left out

- Authentication itself (`require_auth`), role tables, multi-signature admission of administrators, event publishing, logging and storage lifetimes: host services without an effect on the modelled state.
- SHA-256: an abstract function; the strkey and symbol encodings inside the event id preimage are part of it.
- Admission checks of `log_event` (pause, caps, deduplication, rate limits, timestamp drift): runs allow any append, so the retention theorems do not rest on them; entries with a parent are handled by the update but the runs append none.
- EventLog.UpdateEvent: works on a sequence of entries; the source rewrites one storage key per entry, and looking an entry up by id is not modelled, nor are sub-type and contract version of an event. Caller, limits, schema and history are in DataRetention.Contract.UpdateEventMetadata.
- EventLog.RestoreEvent: the same as for the update; caller, version number and history are in DataRetention.Contract.RollbackEvent.
- EventLog.RelinkLater: one method for a loop that the source writes out in both entry points.
- Metadata limits and schemas are fixed over a run; the entry points that configure them are not steps.
- DataRetention.Contract.Append: stands for the part of `log_event` and `log_operational_action` that reaches the log; the list of operations recorders is not modelled.
- DataRetention.Contract.SweepOne: the loop's body as a method of its own; the source has it inline.
- Disclosure.CombineLevel: the inner loop as a method of its own; the source nests it.
- `update_config` of the governance contract: appears as a step of the runs, without its own method; it cannot change the voting token. Token holdings (base power) are fixed by the outside world.
- Quorum, thresholds, proposal fees and the effects of an executed proposal: no code computes with them.
- DaoTreasury.Contract.CreditShare: the loop's body as a method of its own; the source has it inline.
- Budget period reset: a field without code.
- Juror stakes and rewards, and what happens to an appeal after it is filed: fields without code.
- Scaling recommendations, capacity policy and the unused fields of quota tiers (name, burst rate, storage quota, batch size).
- Settlement fees, rate staleness, status transitions and atomic swaps; offline reconciliation states, nonces and the queue: single-branch checks.
- `create_compliance_proof`: a placeholder.
- Compatibility of schema fields in the data lake: the code does not check it.
- Other contracts under `src/`: record keeping without invariants across calls.
