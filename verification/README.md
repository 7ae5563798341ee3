# Jito Tip Router: a verified model

Each epoch the tip router snapshots the stake behind its operators, lets the operators vote on a
Merkle root until a quorum of two thirds of that stake, and then routes lamports through two
resumable routers to operators, vaults and the DAO. This project models that program and the Merkle
trees its operators vote on, and proves what the parts promise each other. `dafny verify
dfyconfig.toml` checks all of it.

Every component exists twice. As a value: a datatype, and functions that say what one call does to it
or which error it returns. And, where the program overwrites accounts and tables in place, as a class
with arrays and loops whose methods are proved equal to those functions. The lemmas are about the
values, so they hold of the classes.

* `common`, `sums`, `stake_weight`: integer widths and errors, sums, floored shares, stake weights.
* `ballot_box_spec`, `ballot_box_proofs`, `ballot_box_refinement`, `consensus`, `ballot_box`:
  incremental tallies under re-votes, late votes and tie-breaks; the plain map they stand for; the
  safety of the winner; `ballot_box_capacity`: what a full box refuses.
* `fees`: the two-slot fee configuration.
* `epoch_snapshot`, `weight_table`, `epoch_state`: the accounts that feed the vote, and the account
  that shadows them all.
* `base_reward_router_*`, `ncn_reward_router_*`: the two routers; runs cut into calls, exact shares,
  dust, conservation.
* `instructions_spec`, `instructions_proofs`, `instructions`: what each instruction does to the accounts it
  is given, and what a delegation weighs.
* `epoch_run_*`: one epoch as a state machine over all accounts. An event is an instruction, a deposit
  or the passing of slots; an instruction that fails is rolled back. `epoch_run_invariants` says what
  holds between any two instructions, `epoch_run_closing` proves it for every run, and
  `epoch_run_theorems` and `epoch_run_end` draw the conclusions. `epoch_run_history` tells the
  accounts from the accepted events alone, `epoch_run_clock` and `epoch_run_counters` the slots and
  counters, and `epoch_run_payments` what a routing round pays; `epoch_run_acceptance` and
  `epoch_run_voting` say exactly what is accepted. `epoch_run_witness` gives the runs that show what
  goes wrong, and parameters for which there are any.
* `merkle_tree`, `meta_merkle_tree`, `generated_merkle_tree`: the flat tree, the tree of trees that is
  voted on, and the apportionment of tips that fills the leaves.

## Assumptions

* Products and quotients that the program computes with a fixed-point rational type and then floors
  are exact quotients of naturals here. All other 16-, 64- and 128-bit operations are checked as the
  program checks them, and their failures are modelled.
* The consensus fraction is a parameter strictly above one half; two thirds is an instance.
* Operator and vault keys are not the default key, which marks empty slots, and an operator's index in
  the network belongs to one operator key. A weight may be set for any key, as the program allows. The
  vault registry lists a mint once; only `WeightTableProofs.HonestForGoodExactly` uses that.
* Slots do not decrease and stay between 1 and 2^64-2, the schedule from slots to epochs is monotone,
  and the program's parameters do not change during an epoch. An operator's own fee is at most 10000
  basis points, which the restaking program enforces.
* Hashes are function parameters. Soundness assumes that no two different inputs among those that
  were actually hashed, building the tree and checking the proof, hash to the same value; leaf and
  inner hashes carry different prefixes, so they are different inputs.

## What the proofs brought to light

* Routing for an operator does not wait for the operator's snapshot to be final. If a delegation is
  registered while a run over that snapshot is interrupted, the rest of the run is computed on the
  new totals and can fail for good (`EpochRunWitness.GrownRouterStuckForGood`). The run model marks
  such routers: the others are never stuck (`EpochRunTheorems.NcnRoutingNeverStuck`), and when a marked
  one can still finish is exact (`EpochRunTheorems.GrownRunEndsExactly`).
* Closing forbids new accounts, yet the epoch state waits for a base router to be closed. A closing
  epoch can be closed to its end if and only if it has one (`EpochRunEnd.ClosingEndsExactly`), and one
  that has none can be reached (`EpochRunWitness.EpochWithoutEnd`).
* A vote is counted before the operator's old vote is taken out. With 256 ballots live, a re-vote for a
  new root is refused although it would free a slot (`BallotBoxCapacity.ReVoteIsRefusedForNothing`).
* A weight for the default mint key is accepted, and from then on the weight table never has a weight
  for every listed mint, though it can call itself final
  (`EpochRunTheorems.WeightTableIsHonestExactly`).
* Nothing checks the stated total of a validator's delegations, and claims stay within the tips exactly
  when it is not understated (`GeneratedMerkleTreeProofs.ClaimsFitTipsExactly`).
* A tree of one leaf has an empty path, and an empty path accepts anything
  (`MerkleTreeProofs.PathAcceptsExactly`).
* The initializer of the epoch state leaves its counters at zero, while the type's default marks them
  invalid. The model follows the initializer.

## Model

| member | source | states |
|---|---|---|
| `BallotBoxProofs.CastVoteKeeps` | core/src/ballot_box.rs:450-515 | A successful vote keeps the box valid: every live tally is the sum of the recorded votes for it under every measure (heads, total stake, each fee group), live tallies sit at their own index with distinct roots and at least one voter, votes fill a prefix with one per operator. Exactly one vote is replaced or appended; every other stays on its ballot. Stated for successes only, since the tally is bumped before the call can fail. |
| `BallotBoxProofs.IncrementOrCreateKeeps` | core/src/ballot_box.rs:417-448 | Between the two halves of a vote the tallies count it although it is not recorded yet, whether it lands on an existing ballot or in a slot left free by a wiped one. |
| `BallotBoxProofs.RetractVoteKeeps` | core/src/ballot_box.rs:477-491 | Taking an operator's old vote back can never underflow, and leaves the tallies counting everything but it, with the ballot wiped exactly when nobody is left on it. |
| `BallotBoxRefinement.CastVoteUpdatesMap` | core/src/ballot_box.rs:450-515 | The refinement step: on the plain map from operators to their latest root and weights, a vote is one map update, re-votes included. |
| `BallotBoxRefinement.TalliesAgree` | core/src/ballot_box.rs:90-170 | Each live tally holds the head count, total weight and every group weight summed over the operators whose latest choice is its root, wherever the holes in the table are. |
| `BallotBoxRefinement.CountersAgree` | core/src/ballot_box.rs:357-363 | `operators_voted` is the size of the map and `unique_ballots` the number of distinct roots in it. |
| `BallotBoxRefinement.TalliedIsCast` | core/src/ballot_box.rs:450-515 | Summing by ballot or by operator gives the same total: no weight is lost or counted twice. |
| `BallotBoxRefinement.BallotTallyFullExactly` | core/src/ballot_box.rs:433-447 | A new ballot is refused for want of a slot if and only if all 256 slots hold other live ballots. |
| `BallotBoxRefinement.CapacityExactly` | core/src/ballot_box.rs:433-513 | When exactly the two tables overflow: neither does before 256 operators have voted; then the vote table refuses exactly strangers, and a re-vote for a new root can still find the ballot table full. |
| `BallotBoxCapacity.FullBoxHasLoneVoters` | core/src/ballot_box.rs:433-447 | With a live ballot in every one of the 256 slots there is exactly one voter on each. |
| `BallotBoxCapacity.ReVoteIsRefusedForNothing` | core/src/ballot_box.rs:466-491 | An operator who voted and now names a root without a ballot is turned away if and only if every slot holds a live ballot; and whenever it is, counting the vote after taking the old one out, instead of before, would have worked. |
| `BallotBoxCapacity.FullBoxRefusesReVote` | core/src/ballot_box.rs:450-515 | Such a box exists: after 256 operators have voted for a root each, the first of them cannot change to a new root, with voting open. |
| `BallotBoxCapacity.ReVoteExactly` | core/src/ballot_box.rs:450-515 | An operator who has voted is heard again if and only if there is no consensus, the ballot is valid, and its weights fit the tally of the root, or for a new root there is a free slot; the recording half cannot fail. |
| `BallotBoxCapacity.OtherBallotHasRoom` | core/src/ballot_box.rs:466-491 | As long as all votes together fit 128 bits, an operator that turns to another ballot always fits its tally, although its old vote is still counted. |
| `Consensus.TallyVotesKeeps` | core/src/ballot_box.rs:517-555 | Tallying declares a ballot only with the consensus fraction, and leaves no ballot with the fraction undeclared. |
| `Consensus.LateVoteKeepsWinner` | core/src/ballot_box.rs:450-515 | After consensus a vote moves neither the winner, nor its slot, nor its weight downwards. |
| `Consensus.VoteKeeps` | program/src/cast_vote.rs:88-105 | The vote instruction on the box keeps validity and the winner, and is one update of the vote map. |
| `Consensus.TieBreakerKeeps` | core/src/ballot_box.rs:557-588 | The tie-break touches nothing but the winning ballot, and names a root that operators voted for. |
| `Consensus.TieBreakerExactly` | core/src/ballot_box.rs:557-588 | It is granted if and only if there is no consensus, the stall has passed, and some operator's latest vote is for that root. |
| `Consensus.WinningTallyFound` | core/src/ballot_box.rs:391-403 | The winning tally is found if and only if consensus was reached, by votes or by tie-break. |
| `Consensus.OthersStayBelow` | core/src/ballot_box.rs:517-555 | All other ballots together hold at most the rest of the snapshot, so none of them could have won. |
| `Consensus.TwoThirdsIsTwice` | core/src/constants.rs:18-28 | At the program's two thirds a winner holds at least twice what everybody else holds together. |
| `BallotBoxAccount.BallotBox.IncrementOrCreateBallotTally` | core/src/ballot_box.rs:417-448 | The two searches over the tally table in place, equal to the value-level step. |
| `BallotBoxAccount.BallotBox.CastVote` | core/src/ballot_box.rs:450-515 | The loop over the vote table in place: new state or error as in the value-level step, to which the lemmas above apply. |
| `BallotBoxAccount.BallotBox.TallyVotes` | core/src/ballot_box.rs:517-555 | The maximum search (last of equals) and the declaration, in place. |
| `BallotBoxAccount.BallotBox.SetTieBreakerBallot` | core/src/ballot_box.rs:557-588 | The tie-break in place. |
| `BallotBoxAccount.BallotBox.GetWinningBallotTally` | core/src/ballot_box.rs:391-403 | Search for the winner's tally. |
| `BallotBoxAccount.BallotBox.IsVotingValid` | core/src/ballot_box.rs:593-613 | The voting window. |
| `StakeWeight.Snapshot` | core/src/stake_weight.rs:35-50 | A delegation counts its stake once for voting and, scaled by the reward multiplier, in one fee group only; it fails exactly when the product leaves 128 bits. |
| `StakeWeight.Increment` | core/src/stake_weight.rs:65-102 | The loop of checked additions is the component-wise sum, or an error if any component overflows. |
| `StakeWeight.Decrement` | core/src/stake_weight.rs:104-140 | The same for subtraction. |
| `StakeWeight.AddThenSub` | core/src/stake_weight.rs:65-140 | Decrementing undoes incrementing on every component. |
| `FeesProofs.NewConfigIsConsistent` | core/src/fees.rs:32-63 | A new configuration has legal totals in both slots and equal activation epochs only because the slots are identical. |
| `FeesProofs.NewConfigExactly` | core/src/fees.rs:32-63 | A configuration is made if and only if there is a wallet, the block engine's fee is below the whole, and the two other fees are together between 1 and 10000. Then the DAO's fee is in the first group of the base table, the operators' in the first group of the other, every other group has none, both slots start at the given epoch, and every group pays the same wallet. |
| `FeesProofs.RequestWritesOneSlot` | core/src/fees.rs:287-330 | The requested entries, and no others, are replaced, and only in the slot that is not in force; the block engine fee and the wallet of the named group (or the first) change at once. |
| `FeesProofs.UpdateKeepsCurrentEpoch` | core/src/fees.rs:287-342 | A successful update at an epoch leaves the fees in force at that epoch unchanged and makes those of the next epoch their old values with exactly the requested entries replaced, group by group; the wallet and the block engine fee are the requested ones; both totals stay between 1 and 10000. |
| `FeesProofs.UpdateExactly` | core/src/fees.rs:287-344 | On a consistent configuration an update succeeds if and only if no requested fee exceeds 10000, the block engine's is below it, and the next epoch's entries with the requested ones replaced add up to between 1 and 10000. |
| `FeesProofs.RunOfUpdates` | core/src/fees.rs:65-107 | The two-slot invariant holds over any run of updates at non-decreasing epochs. |
| `FeesProofs.EpochOfUpdates` | core/src/fees.rs:65-107 | Any number of updates within one epoch leaves that epoch's fees alone and adds up for the next. |
| `FeesAccount.TotalFeesBps` | core/src/fees.rs:464-484 | The accumulating loop computes the sum of both tables. |
| `FeesAccount.FeeConfig.UpdateFeeConfig` | core/src/fees.rs:287-342 | The update in place, slot by slot. |
| `BaseRewardRouterChunks.RouteVotesIsDrain` | core/src/base_reward_router.rs:297-346 | The inner loop under an iteration limit does exactly the work its limit allows and leaves the rest of the unlimited loop to be done. |
| `BaseRewardRouterChunks.ChunkIndependence` | core/src/base_reward_router.rs:267-355 | For any sequence of limits (0 counts as 1) on a fixed ballot box: the calls end in exactly the state, or the error, of one call with the largest limit, and they end if and only if the limits allow for the pairs of a non-empty group and a winning vote still to be paid. |
| `BaseRewardRouterChunks.RunEndsInTime` | core/src/base_reward_router.rs:267-355 | So as many calls as there are such pairs (at least one) always end a run, whatever their limits. |
| `BaseRewardRouterProofs.PayVoteSucceeds` | core/src/base_reward_router.rs:297-346 | Paying a winning vote cannot underflow its group, divide by zero or find the route table full, because floored shares of backed votes fit into the group and distinct winners fit the table. |
| `BaseRewardRouterProofs.RouteGroupsSucceeds` | core/src/base_reward_router.rs:267-355 | From any point it can be resumed at, routing succeeds and stops at the end or at another such point. |
| `BaseRewardRouterProofs.DrainGroupsPays` | core/src/base_reward_router.rs:267-355 | The unlimited loop in closed form: each operator's route grows by the floored shares of its votes, every group is emptied, the DAO gets what flooring left. |
| `BaseRewardRouterTheorems.RouteRewardPoolSucceeds` | core/src/base_reward_router.rs:229-265 | The fee split never fails, empties the pool into exact floored fractions, and gives the DAO the remainder. |
| `BaseRewardRouterTheorems.BoxBacksWinner` | core/src/ballot_box.rs:391-403 | What the router relies on is what the ballot box guarantees: the winning tally is, per fee group, the sum of the winning votes. |
| `BaseRewardRouterTheorems.RouteBaseSucceeds` | program/src/route_base_rewards.rs:58-71 | The whole instruction succeeds if and only if it resumes a run or the lamports ever received still fit 64 bits; it conserves lamports and leaves the router resumable. |
| `BaseRewardRouterTheorems.CompletedRound` | core/src/base_reward_router.rs:229-432 | Exact shares: a round routed to its end adds exactly floor(R*w/W) per group to each winning operator and nothing to anybody else, leaves pool and group buckets at zero, and gives the DAO its fraction, the remainder of the split and the dust. |
| `BaseRewardRouterTheorems.CompletedInCalls` | program/src/route_base_rewards.rs:58-71 | The same outcome for a round cut into any calls; no call of it fails, and 2048 calls always end it. |
| `BaseRewardRouterTheorems.DustBound` | core/src/base_reward_router.rs:395-432 | The dust of a group is below one lamport per winning vote with weight in it; a group in which the winners have no weight goes to the DAO whole. |
| `BaseRewardRouterTheorems.DistributeBaseKeeps` | core/src/base_reward_router.rs:565-583 | Paying out a base group never underflows and takes exactly that bucket out of the processed amount. |
| `BaseRewardRouterTheorems.DistributeRouteKeeps` | core/src/base_reward_router.rs:684-701 | Moving a route on works if and only if the operator has one, and takes exactly that operator's amount of that group. |
| `BaseRewardRouterAccount.BaseRewardRouter.RouteIncomingRewards` | core/src/base_reward_router.rs:209-227 | Incoming lamports in place. |
| `BaseRewardRouterAccount.BaseRewardRouter.RouteRewardPool` | core/src/base_reward_router.rs:229-265 | The two loops of the split in place. |
| `BaseRewardRouterAccount.BaseRewardRouter.RouteNcnFeeGroupRewards` | core/src/base_reward_router.rs:267-355 | The resumable nested loops in place, with the cursor saved on a pause and reset at the end. |
| `BaseRewardRouterAccount.BaseRewardRouter.RouteToNcnFeeGroupRewardRoute` | core/src/base_reward_router.rs:657-682 | The two searches of the route table in place. |
| `BaseRewardRouterAccount.BaseRewardRouter.DistributeBaseFeeGroupRewards` | core/src/base_reward_router.rs:565-583 | Zeroing a bucket in place. |
| `BaseRewardRouterAccount.BaseRewardRouter.DistributeNcnFeeGroupRewardRoute` | core/src/base_reward_router.rs:684-701 | Zeroing a route in place. |
| `EpochSnapshotProofs.InitOperatorOk` | core/src/epoch_snapshot.rs:272-315 | A fresh operator snapshot is the (empty) sum of its delegations; an inactive operator expects none and charges nothing. |
| `EpochSnapshotProofs.InitOperatorExactly` | core/src/epoch_snapshot.rs:272-315 | A snapshot is made if and only if there are at most 64 vaults. It holds the operator, index and activity it was given; the fee, the number of vaults and no final slot if the operator is active, no fee, no vaults and the current slot as its final one if not. |
| `EpochSnapshotProofs.RegisterDelegationExactly` | core/src/epoch_snapshot.rs:437-498 | A delegation is registered if and only if another is expected, its vault has none yet, and every component of the sum fits 128 bits. It is written behind those before it, and the last one expected sets the final slot. |
| `InstructionsProofs.DelegationExactly` | program/src/snapshot_vault_operator_delegation.rs:95-160 | What a delegation weighs: the security times the weight of the mint's entry while the tickets are active and nothing otherwise, for voting; the multiplier times that in the mint's fee group and nothing in every other. It is weighed if and only if the mint is in the table, the vault index is registered, and both products fit 128 bits. |
| `InstructionsProofs.StakeIsRegistered` | program/src/snapshot_vault_operator_delegation.rs:161-176 | An accepted instruction appends exactly that stake, under the vault and index it was given, behind the operator's delegations and leaves the others alone. |
| `EpochSnapshotProofs.RegisterDelegationKeeps` | core/src/epoch_snapshot.rs:437-498 | Registering a delegation keeps the snapshot's stake, every group weight and both counters equal to the sums over its delegations, which stay a prefix of distinct vaults. |
| `EpochSnapshotAccounts.OperatorSnapshot.Initialize` | core/src/epoch_snapshot.rs:272-315 | Initialization field by field. |
| `EpochSnapshotAccounts.OperatorSnapshot.IncrementVaultOperatorDelegationRegistration` | core/src/epoch_snapshot.rs:463-498 | Registration in place, with the search for a duplicate vault. |
| `EpochSnapshotAccounts.EpochSnapshot.IncrementOperatorRegistration` | core/src/epoch_snapshot.rs:167-196 | Registering an operator in place. |
| `NcnRewardRouterChunks.CallProgress` | core/src/ncn_reward_router.rs:284-362 | An unfinished call advances the saved index by exactly max(1, limit); a call finishes if and only if the slots ahead fit its limit. |
| `NcnRewardRouterChunks.ChunkIndependence` | core/src/ncn_reward_router.rs:284-362 | On a fixed operator snapshot, calls with any limits end in the state, or error, of one call with the largest limit. |
| `NcnRewardRouterProofs.PayVaultExactly` | core/src/ncn_reward_router.rs:331-352 | Paying a vault succeeds if and only if the pool still covers its floored share, on whatever snapshot. |
| `NcnRewardRouterProofs.RouteNcnSucceeds` | program/src/route_ncn_rewards.rs:64-82 | On a fixed snapshot the instruction succeeds if and only if it resumes a run or the lamports ever received fit 64 bits; no share underflows the pool. |
| `NcnRewardRouterProofs.CompletedRound` | core/src/ncn_reward_router.rs:265-437 | A completed round: the operator's fee, exact floored shares to the vaults, the remainder to the operator, nothing left in the pool. |
| `NcnRewardRouterProofs.RemainderBound` | core/src/ncn_reward_router.rs:401-437 | The remainder is below one lamport per delegation with weight in the group, or everything if there is none. |
| `NcnRewardRouterProofs.InterruptedRunEndsExactly` | core/src/ncn_reward_router.rs:284-362 | Nothing stops an operator snapshot from growing while a run over it is interrupted. Then the run can be carried to its end if and only if the pool covers the floored shares of the slots to come, on the new totals. |
| `NcnRewardRouterProofs.GrowingSnapshotGetsStuck` | core/src/ncn_reward_router.rs:284-362 | An input for which it cannot, for any operator, rent and slot: one vault takes the whole pool, the run is interrupted, a second vault is registered; every later call fails, whatever its limit and whatever is deposited. |
| `NcnRewardRouterProofs.DistributeOperatorKeeps` | core/src/ncn_reward_router.rs:551-564 | Operator payout never underflows and takes exactly the operator's bucket. |
| `NcnRewardRouterProofs.DistributeVaultKeeps` | core/src/ncn_reward_router.rs:601-616 | Vault payout works if and only if the vault has a route, and takes exactly its amount. |
| `NcnRewardRouterAccount.NcnRewardRouter.RouteOperatorRewards` | core/src/ncn_reward_router.rs:265-282 | The operator's fee in place. |
| `NcnRewardRouterAccount.NcnRewardRouter.RouteRewardPool` | core/src/ncn_reward_router.rs:284-362 | The resumable loop over the delegations in place. |
| `NcnRewardRouterAccount.NcnRewardRouter.DistributeVaultRewardRoute` | core/src/ncn_reward_router.rs:601-616 | Zeroing a vault route in place. |
| `WeightTableProofs.FinalizedExactly` | core/src/weight_table.rs:239-243 | The table is final if and only if every listed mint has a weight, although the code only compares two counts. |
| `WeightTableProofs.InitializeExactly` | core/src/weight_table.rs:84-142 | The table is made if and only if the vault count is the number of registered vaults and not zero and some mint is listed. It holds those vaults, every listed mint with its fee group and multiplier at its index, and no weight. |
| `WeightTableProofs.SetWeightExactly` | core/src/weight_table.rs:144-157 | A weight can be set if and only if the table has an entry for the key. |
| `WeightTableProofs.RunRemembers` | core/src/weight_table.rs:144-157 | Over every run of weights from a new table: an entry is found if and only if the key was listed, is the first that was listed with it, group and multiplier included, and carries the weight that was accepted last and the slots of the first and the last. |
| `WeightTableProofs.SetWeightKeeps` | core/src/weight_table.rs:144-157 | A weight that is set, under any key, is read back with its slot, the mint and the slot of the first weight stay, no other key's entry changes, and an entry is counted once however often it is set. |
| `WeightTableProofs.DefaultMintExactly` | program/src/admin_set_weight.rs:41-48 | The default key is no mint, but the instruction does not refuse it and finds the first empty entry. A weight that is accepted leaves weights on listed mints only if and only if it is not for that key. |
| `WeightTableProofs.HonestExactly` | core/src/weight_table.rs:239-243 | At every point of every run of weights: as long as no default key was accepted, the table is final if and only if every listed mint has a weight; from the first one accepted on it never has all weights, so it is honest only while it is not final. |
| `WeightTableProofs.HonestForGoodExactly` | core/src/weight_table.rs:239-243 | With distinct mints, as the vault registry keeps them (core/src/vault_registry.rs:246-249), the table stays honest over every continuation that sets weights for mints if and only if no default key was accepted before. |
| `WeightTableProofs.DefaultMintFinalizesEarly` | program/src/admin_set_weight.rs:41-48 | A shortest example: two mints, a weight for the default key, a weight for the first mint, and the table is final with the second mint unset. |
| `WeightTableAccount.WeightTable.Initialize` | core/src/weight_table.rs:84-142 | The two copying loops and their checks in place. |
| `WeightTableAccount.WeightTable.SetWeight` | core/src/weight_table.rs:144-157 | The search and the write in place. |
| `WeightTableAccount.WeightTable.Finalized` | core/src/weight_table.rs:224-243 | The three counts. |
| `EpochStateSpec.IndexIsInvertible` | core/src/epoch_state.rs:447-458 | The flat router index stands for exactly one pair of operator and group. |
| `EpochStateAccount.EpochState.constructor` | core/src/epoch_state.rs:354-362 | A new epoch state: its counters are zero, not the invalid marker of the constructor that the program does not call. |
| `EpochStateAccount.EpochState.UpdateReallocOperatorSnapshot` | core/src/epoch_state.rs:590-608 | Progress of an operator, and of the snapshot when the operator is inactive. |
| `EpochStateAccount.EpochState.UpdateSnapshotVaultOperatorDelegation` | core/src/epoch_state.rs:610-621 | Progress of a delegation. |
| `EpochStateAccount.EpochState.UpdateCastVote` | core/src/epoch_state.rs:630-643 | The consensus slot is written once. |
| `EpochStateAccount.EpochState.UpdateSetTieBreaker` | core/src/epoch_state.rs:645-656 | The same for the tie-break. |
| `EpochStateAccount.EpochState.UpdateDistributeNcnRewards` | core/src/epoch_state.rs:718-730 | Both payout counters. |
| `EpochStateAccount.EpochState.AreAllClosed` | core/src/epoch_state.rs:140-188 | The loops that decide whether the epoch state may go. |
| `EpochStateAccount.EpochState.MarkClosed` | core/src/epoch_state.rs:737-771 | The closers. |
| `Instructions.ProcessAdminSetWeight` | program/src/admin_set_weight.rs:41-61 | Accounts written in sequence; equal to the value-level instruction the runs are made of. |
| `Instructions.ProcessReallocOperatorSnapshot` | program/src/realloc_operator_snapshot.rs:76-154 | The operator snapshot, then the epoch snapshot for an inactive operator, then the epoch state. |
| `Instructions.ProcessSnapshotVaultOperatorDelegation` | program/src/snapshot_vault_operator_delegation.rs:134-202 | The delegation, then the operator's registration when it was the last, then the epoch state. |
| `Instructions.ProcessCastVote` | program/src/cast_vote.rs:63-119 | The finalized check, the cast, the tally, then the epoch state. |
| `Instructions.ProcessAdminSetTieBreaker` | program/src/admin_set_tie_breaker.rs:37-58 | The tie-break, then the epoch state. |
| `Instructions.ProcessRouteBaseRewards` | program/src/route_base_rewards.rs:37-80 | The voting-over check, fresh start or resumption, then the epoch state. |
| `Instructions.ProcessRouteNcnRewards` | program/src/route_ncn_rewards.rs:58-90 | The same for one operator and group. |
| `Instructions.ProcessDistributeBaseRewards` | program/src/distribute_base_rewards.rs:55-117 | The still-routing check, the payout, then the counters. |
| `Instructions.ProcessDistributeBaseNcnRewardRoute` | program/src/distribute_base_ncn_reward_route.rs:58-102 | The route leaves one receiver and enters the other. |
| `Instructions.ProcessDistributeNcnOperatorRewards` | program/src/distribute_ncn_operator_rewards.rs:76-148 | Operator payout. |
| `Instructions.ProcessDistributeNcnVaultRewards` | program/src/distribute_ncn_vault_rewards.rs:78-152 | Vault payout. |
| `Instructions.ProcessCloseEpochAccount` | program/src/close_epoch_account.rs:70-197 | The epoch check, the closing flag, then the status; the epoch state only when all others are closed. |
| `Instructions.CloseReceiver` | core/src/base_reward_router.rs:914-944 | The receiver ends empty: rent to the payer, the rest to the DAO. |
| `EpochRunSnapshots.FinalMeansAllFinal` | core/src/epoch_snapshot.rs:163-196 | Registrations never exceed the operator count, and reach it only when every operator below the count has a final snapshot. |
| `EpochRunOperators.ReallocOperatorKeeps` | program/src/realloc_operator_snapshot.rs:20-157 | Every invariant survives the creation of an operator snapshot. |
| `EpochRunOperators.SnapshotDelegationKeeps` | program/src/snapshot_vault_operator_delegation.rs:23-202 | Every invariant survives a delegation; runs interrupted at that moment are marked. |
| `EpochRunVotes.CastVoteKeeps` | program/src/cast_vote.rs:16-119 | Every invariant survives a vote. |
| `EpochRunVotes.SetTieBreakerKeeps` | program/src/admin_set_tie_breaker.rs:13-58 | Every invariant survives the tie-break. |
| `EpochRunRewards.RouteBaseKeeps` | program/src/route_base_rewards.rs:17-80 | Every invariant survives base routing. |
| `EpochRunRewards.DistributeBaseNcnKeeps` | program/src/distribute_base_ncn_reward_route.rs:18-102 | Every invariant, the ledger among them, survives moving lamports between receivers. |
| `EpochRunRewards.RouteNcnKeeps` | program/src/route_ncn_rewards.rs:15-90 | Every invariant survives routing for an operator, also on a snapshot that grew. |
| `EpochRunClosing.CloseNcnRouterKeeps` | program/src/close_epoch_account.rs:153-191 | Every invariant survives closing a router with its receiver. |
| `EpochRunClosing.StepKeeps` | program/src/lib.rs:97-389 | Every instruction, deposit or passing of time keeps all invariants; a failed instruction changes nothing. |
| `EpochRunClosing.ReachableInv` | program/src/lib.rs:97-389 | All invariants hold in every state an epoch can reach. |
| `EpochRunProgress.RunLater` | core/src/epoch_state.rs:733-771 | Over any run accounts only move forward, nothing new appears once closing has begun, final tables and snapshots stay as they are, and a winner stays the winner. |
| `EpochRunTheorems.SnapshotChain` | core/src/epoch_snapshot.rs:167-196 | In every reachable state the epoch's weights are, per measure, the sum over finalized operators of the sums of their registered delegations; the snapshot is final if and only if no operator below the count is missing. |
| `EpochRunTheorems.WeightTableIsHonestExactly` | program/src/admin_set_weight.rs:41-61 | In every run: without a weight accepted for the default key the table is final if and only if every listed mint has a weight; with one it never has all weights, final or not. |
| `EpochRunTheorems.CastWithinSnapshot` | program/src/cast_vote.rs:63-95 | The weight cast never exceeds the snapshot, in total or in any fee group. |
| `EpochRunTheorems.WinnerIsSafe` | core/src/ballot_box.rs:517-555 | In every reachable state a winner by votes holds at least the fraction of the snapshot, the others together at most the rest, none of them enough, and the winner's tally is found. |
| `EpochRunTheorems.WinnerNeverChanges` | core/src/ballot_box.rs:471-611 | Over every continuation the winning root, its consensus slot and the slot the epoch state reports stay, the winner's weight never drops, and its tally is always found, after a tie-break too. |
| `EpochRunTheorems.ConsensusAgrees` | core/src/epoch_state.rs:630-656 | The epoch state reports consensus if and only if the ballot box has it, and only with a final weight table and a final snapshot. |
| `EpochRunTheorems.VotingMeetsRouting` | core/src/epoch_state.rs:774-789 | The two clocks overlap at exactly one slot after a winner by votes, and do not meet after a tie-break. |
| `EpochRunTheorems.BoxIsVotesCast` | core/src/ballot_box.rs:417-514 | At every point of every run the ballot box stands for exactly the map of the votes that were accepted. |
| `EpochRunTheorems.TalliesAreVotesCast` | core/src/ballot_box.rs:417-514 | So after every run each live tally is the sum of the accepted votes for its root, and the counters count them. |
| `EpochRunTheorems.FirstVoteIsHeard` | program/src/cast_vote.rs:63-119 | An operator who has not voted is heard if and only if votes are still accepted, the root is not zero, and there is snapshot weight or already consensus: tables and sums never refuse a first vote. |
| `EpochRunTheorems.BaseRoutingNeverStuck` | program/src/route_base_rewards.rs:17-80 | In every state an epoch can be in, base routing succeeds if and only if voting is over and the lamports ever received fit 64 bits. |
| `EpochRunTheorems.NcnRoutingNeverStuck` | program/src/route_ncn_rewards.rs:15-90 | The same for operators' routers whose snapshot did not grow under an interrupted run. |
| `EpochRunTheorems.GrownRunEndsExactly` | program/src/route_ncn_rewards.rs:15-90 | And exactly when a run over a snapshot that did grow can be finished. |
| `EpochRunTheorems.MarkedMeansRouting` | program/src/route_ncn_rewards.rs:15-90 | In every run a router is marked only while its run is under way. |
| `EpochRunTheorems.FinalSnapshotsStayCalm` | program/src/snapshot_vault_operator_delegation.rs:175-202 | From a final snapshot on, no run is ever caught by growth. |
| `EpochRunTheorems.PayoutsNeverStuck` | program/src/distribute_base_rewards.rs:55-117 | A base bucket can be paid out if and only if no run is under way and the payout counter does not overflow. |
| `EpochRunTheorems.RoutesNeverStuck` | program/src/distribute_base_ncn_reward_route.rs:58-102 | A route can be moved on if and only if no run is under way, the operator has a route, and the receiver's balance fits 64 bits. |
| `EpochRunTheorems.OperatorPayoutsNeverStuck` | program/src/distribute_ncn_operator_rewards.rs:72-148 | An operator can be paid if and only if its router is not routing and the payout counter does not overflow. |
| `EpochRunTheorems.VaultPayoutsNeverStuck` | program/src/distribute_ncn_vault_rewards.rs:74-152 | A vault can be paid if and only if the router is not routing, the vault has a route, and the payout counter does not overflow. |
| `EpochRunTheorems.LamportsAreConserved` | core/src/epoch_state.rs:687-730 | Every lamport ever deposited was paid out, swept to the DAO or is held above rent; in every live router the processed amount is the sum of its buckets, the receiver covers rent, pool and what is not yet paid, and the epoch state's counters equal the books. |
| `EpochRunTheorems.PhaseMeansFinal` | core/src/epoch_state.rs:804-822 | The counters decide the first two phases exactly as the accounts they shadow would. |
| `EpochRunTheorems.PhaseExactly` | core/src/epoch_state.rs:777-840 | The phase is the one read off the accounts and the clock: weight table, snapshot, consensus, the slots votes are still accepted for, the epochs to wait; there is none only if the end of the vote has no slot. |
| `EpochRunTheorems.PhasesNeverGoBack` | core/src/epoch_state.rs:804-840 | Over any run the phase never moves backwards. |
| `EpochRunTheorems.EpochStateClosesLast` | core/src/epoch_state.rs:404-426 | When the epoch state is closed every other account is, and nothing but deposits and time can happen any more. |
| `EpochRunHistory.RunIsTold` | program/src/snapshot_vault_operator_delegation.rs:95-190 | Over every run, from the accepted events alone: the weight table holds the vaults and mints it was made from and for each key the weight accepted last with its slots; the epoch snapshot the fees and the operator count it was made with; each operator's snapshot the activity and fee of the event that made it (no fee while inactive) and exactly the accepted delegations, in order, each weighing security times the last weight of its mint, in that mint's fee group only. |
| `EpochRunClock.ConsensusSlotIsFirst` | core/src/epoch_state.rs:630-655 | Over every run the epoch state reports the slot of the event that first reached consensus, a vote or the tie-break, and none before; once the epoch is closing, at least the required epochs have passed since that slot. |
| `EpochRunClock.FinalSlotsAreFirst` | core/src/epoch_snapshot.rs:167-196 | A final snapshot, an operator's or the epoch's, records the slot of the event that made it final. |
| `EpochRunCounters.RunCounts` | core/src/epoch_state.rs:588-720 | Over every run the epoch state knows whether it is closed, how many operators the epoch snapshot has and what the base router took in, and expects the votes of the operators there were when the ballot box was made. |
| `EpochRunPayments.BaseRoundAsTold` | program/src/route_base_rewards.rs:15-81 | A round of the base router in any run pays by the history of the run: every operator whose latest accepted vote is for the winning root gets, in every fee group, the floored share of its group weight in the group's part of what came in, by the fees the epoch snapshot was made with; nobody else anything; every base group its fraction; and nothing is left over but for the DAO. |
| `EpochRunPayments.NcnRoundAsTold` | program/src/route_ncn_rewards.rs:15-90 | A round of an operator's router in any run: the operator takes the fee of the event its snapshot was made by, none if it was inactive, every vault the floored shares of the stakes that were delegated, and the operator what flooring leaves. |
| `EpochRunAcceptance.WeightIsAccepted` | program/src/admin_set_weight.rs:15-62 | In every state an epoch can be in: a weight is accepted if and only if the table is not final and has an entry for the key. |
| `EpochRunAcceptance.OperatorIsAccepted` | program/src/realloc_operator_snapshot.rs:60-158 | An operator's snapshot can always be made once its account is allocated and while there is an epoch snapshot. |
| `EpochRunAcceptance.DelegationIsAccepted` | program/src/snapshot_vault_operator_delegation.rs:95-200 | A delegation is snapshotted if and only if its mint is in the table, its vault registered, the operator's snapshot still open for that vault, and stake, operator sum and, with the last one, epoch sum fit 128 bits. |
| `EpochRunAcceptance.ClosingIsAccepted` | program/src/close_epoch_account.rs:70-228 | A close goes through if and only if its account is live, the epoch state is not closed, and the required epochs have passed since consensus; for the epoch state itself, only if nothing else is open. |
| `EpochRunVoting.ReVoteIsHeard` | program/src/cast_vote.rs:60-110 | An operator who has voted is heard again if and only if there is no consensus, the root is not all zero, the snapshot holds stake, and there is room: a free slot for a new root; for the operator's own ballot, that its weights can be counted twice; for another one always. |
| `EpochRunVoting.TieBreakIsGranted` | program/src/admin_set_tie_breaker.rs:15-59 | Over every run: the tie-break is granted if and only if there is no consensus, the epoch has stalled, and the root is the latest accepted vote of some operator. |
| `EpochRunVoting.ConsensusIsTwoThirds` | core/src/ballot_box.rs:517-555 | Over every run without a tie-break, at the program's fraction: there is a winner if and only if some root holds at least two thirds of the snapshot's stake in the latest accepted votes, and the winner is such a root. |
| `EpochRunEnd.ClosingEndsExactly` | program/src/close_epoch_account.rs:70-197 | How a closing epoch ends, exactly: some run closes its state if and only if the account of its base router was created, initialized or not. The close of every other account is always granted. |
| `EpochRunEnd.NoBaseRouterNoEnd` | core/src/epoch_state.rs:140-188 | If closing begins without a base router, no run whatever closes the epoch state. |
| `EpochRunEnd.ClosingCanEnd` | program/src/close_epoch_account.rs:70-197 | With one, a run that closes everything, the epoch state last, is given. |
| `EpochRunWitness.EpochWithoutEnd` | program/src/close_epoch_account.rs:70-107 | The trap is real: for all parameters under which an epoch with consensus in its first slot may be closed at all, a run from the start leads to a closing epoch without a base router, which can never be closed. |
| `EpochRunWitness.SomeEpochWithoutEnd` | program/src/close_epoch_account.rs:70-107 | In particular within the limits the program sets its parameters, which also shows that the statements about runs are not empty. |
| `EpochRunWitness.SomeParamsOk` | core/src/constants.rs:8-20 | What the statements about runs require of the parameters can be met within the program's limits. |
| `EpochRunWitness.GrownRouterStuckForGood` | program/src/route_ncn_rewards.rs:15-90 | So is a stuck router: whatever the parameters, some run marks a live router as grown, and over every continuation no call for it ever succeeds. |
| `MerkleTreeProofs.EveryItemVerifies` | meta_merkle_tree/src/merkle_tree.rs:112-203 | Completeness with sorted hashing, for every non-empty list and every index. |
| `MerkleTreeProofs.EveryPathVerifies` | meta_merkle_tree/src/merkle_tree.rs:59-72 | Completeness with unsorted hashing. |
| `MerkleTreeProofs.PathAcceptsExactly` | meta_merkle_tree/src/merkle_tree.rs:59-72 | A path accepts exactly its own entry, except in a tree of one leaf, where the empty path accepts anything. |
| `MerkleTreeProofs.AcceptedItemIsInTree` | meta_merkle_tree/src/verify.rs:10-23 | Soundness: a proof of any length that is accepted against the root of a sorted tree is of an item in it, unless two of the inputs actually hashed collide. |
| `MerkleTreeProofs.LevelAbove` | meta_merkle_tree/src/merkle_tree.rs:112-162 | The level above, hash by hash: pairs in order, an odd last entry with itself, and with sorted hashing the smaller hash first. |
| `MerkleTreeProofs.ClimbOrders` | meta_merkle_tree/src/verify.rs:10-23 | The check hashes a sibling the same way, the smaller first. |
| `MerkleTreeLoops.New` | meta_merkle_tree/src/merkle_tree.rs:112-162 | The level-by-level construction on one vector with running indices builds the recursive tree. |
| `MerkleTreeLoops.FindPath` | meta_merkle_tree/src/merkle_tree.rs:168-203 | The walk with running start, length and index collects the path to the root, or nothing for an index that is no leaf. |
| `MerkleTreeLoops.GetProof` | meta_merkle_tree/src/utils.rs:3-17 | The loop that keeps the siblings. |
| `MerkleTreeLoops.Verify` | meta_merkle_tree/src/verify.rs:10-23 | The loop with one running hash. |
| `MetaMerkleTreeProofs.SortSorts` | meta_merkle_tree/src/meta_merkle_tree.rs:42-46 | Sorting gives the same nodes in ascending order of hash. |
| `MetaMerkleTreeProofs.VerifyProofExactly` | meta_merkle_tree/src/meta_merkle_tree.rs:154-183 | `verify_proof` succeeds if and only if there is a node and the stored root is the root of the nodes. |
| `MetaMerkleTreeProofs.ValidateExactly` | meta_merkle_tree/src/meta_merkle_tree.rs:109-151 | A stored tree is valid if and only if it counts its nodes, between 1 and 2^32-1 of them, no account is listed twice, and the stored root is the root of its nodes. |
| `MetaMerkleTreeProofs.NewTreeExactly` | meta_merkle_tree/src/meta_merkle_tree.rs:42-151 | A tree is built if and only if there are between 1 and 2^32-1 nodes with distinct accounts; then its own checks pass and every node carries its proof. |
| `MetaMerkleTreeProofs.RootIsOrderFree` | meta_merkle_tree/src/meta_merkle_tree.rs:42-69 | Every permutation of the nodes gives the same root, or no tree either. |
| `MetaMerkleTreeProofs.ListedRecordIsAccepted` | core/src/ballot_box.rs:615-641 | Every node that went into the tree is accepted on chain with the proof the tree gave it. |
| `MetaMerkleTreeProofs.AcceptedRecordIsListed` | core/src/ballot_box.rs:615-641 | And nothing else is, up to collisions among the inputs actually hashed. |
| `MetaMerkleTreeLoops.VerifyProof` | meta_merkle_tree/src/meta_merkle_tree.rs:154-183 | Rebuild, compare, check leaf by leaf. |
| `MetaMerkleTreeLoops.Validate` | meta_merkle_tree/src/meta_merkle_tree.rs:109-151 | The four checks. |
| `MetaMerkleTreeLoops.New` | meta_merkle_tree/src/meta_merkle_tree.rs:42-69 | Sort, build, one proof per node in a loop, validate. |
| `GeneratedMerkleTreeProofs.SplitConserves` | meta_merkle_tree/src/generated_merkle_tree.rs:160-199 | Protocol fee, validator fee and remainder add up to the tips; the protocol fee is never cut, the validator's only with nothing left; it fails exactly when the protocol fee exceeds the tips or the fees leave 64 bits. |
| `GeneratedMerkleTreeProofs.ApportionmentExactly` | meta_merkle_tree/src/generated_merkle_tree.rs:151-315 | With delegations within the stated total, the apportionment succeeds if and only if the fees do, the target epoch exists, and delegators come with a positive total. |
| `GeneratedMerkleTreeProofs.ClaimsFitTips` | meta_merkle_tree/src/generated_merkle_tree.rs:151-315 | Then the claims never exceed the tips, and when the delegations add up to the total exactly, the dust is below their number. |
| `GeneratedMerkleTreeProofs.ClaimsAreSpelledOut` | meta_merkle_tree/src/generated_merkle_tree.rs:151-315 | Who may claim what: the receiver the protocol fee, the validator its own, and delegator i the floored share of the rest, with its stake account from epoch 737 on and with the staker before. |
| `GeneratedMerkleTreeProofs.SharesAlwaysFitExactly` | meta_merkle_tree/src/generated_merkle_tree.rs:262-275 | For a positive stated total: the floored shares fit into every amount that may be left to share if and only if the delegations add up to no more than the total. |
| `GeneratedMerkleTreeProofs.UnderstatedTotalOverpays` | meta_merkle_tree/src/generated_merkle_tree.rs:262-275 | For every total that is too small there are tips for which the tree promises more than them, by exactly what the total misses. |
| `GeneratedMerkleTreeProofs.ClaimsFitTipsExactly` | meta_merkle_tree/src/generated_merkle_tree.rs:151-315 | The boundary of the whole apportionment: whatever tips and fees, the claims stay within the tips if and only if the delegations fit the stated total (or there is none to divide by). |
| `GeneratedMerkleTreeProofs.CollectionIsComplete` | meta_merkle_tree/src/generated_merkle_tree.rs:56-112 | The collection holds one tree per validator with tips, in order; its claims are the receiver's, the validator's and each delegator's as spelled out above, and every one is accepted against its root. |
| `GeneratedMerkleTreeProofs.CollectionExactly` | meta_merkle_tree/src/generated_merkle_tree.rs:56-112 | It fails if and only if one of the apportionments does. |
| `GeneratedMerkleTreeLoops.VecFromStakeMeta` | meta_merkle_tree/src/generated_merkle_tree.rs:151-315 | The claims, extended by the delegators' up to the first error. |
| `GeneratedMerkleTreeLoops.GenerateTrees` | meta_merkle_tree/src/generated_merkle_tree.rs:56-112 | The loop over the validators. |
| `FlooredShares.SharesFit` | core/src/base_reward_router.rs:395-432 | Floored shares of weights that fit the total never exceed the amount: the arithmetic behind every split. |
| `FlooredShares.ShareDust` | core/src/base_reward_router.rs:395-432 | When the weights add up to the total, flooring loses less than one unit per positive weight. |

## Left out

- Fixed-point rounding: the rational type behind fee splits, shares, stake weights and the consensus test is exact here.
- Accounts and runtime: addresses, discriminators, rent calculation, sizes and reallocation in steps, serialization and signers. Creating an account and initializing it are two events of a run; the reallocations in between are one.
- Operator indices from 256 on: the program aborts when it indexes its tables with them, so such an operator never gets a snapshot; the runs have events for the first 256 only.
- Instructions.ProcessCloseEpochAccount: models the epoch state only; which account goes with it and that it is emptied is part of the runs.
- Instructions.ProcessCastVote: like the other instructions in place, promises nothing about the accounts after an error, because the runtime discards them.
- EpochRunTheorems.NcnRoutingNeverStuck: excludes routers whose snapshot grew under an interrupted run, for which the exact condition is `EpochRunTheorems.GrownRunEndsExactly`.
- BaseRewardRouterTheorems.CompletedRound: speaks of a round on a ballot box that no longer changes, which the instruction enforces by waiting until votes are over.
- Uploading Merkle roots to tip distribution accounts, so the upload and validation counters of the epoch state stay where they start.
- The variant of the current phase that takes the mint count from outside, and fees adjusted for the block engine, each settled by reading one expression.
- Registration of vaults and mints, administration of parameters, conversion of fee group numbers: one branch each.
- Payout through the stake pool, price feeds and claims of tips: exact movements of lamports, or arbitrary weights.
- Fees for epochs before the surviving slot's activation: the two-slot buffer does not keep them.
- The capacity estimate of the tree's vector, JSON files, logging, and the command line client.
