# Octopus pallets: a verified model

Four pallets form a bridge between an appchain and its mainchain. Validators watch the mainchain and vote on what
they saw (`appchain`), a quorum makes the bridge move tokens or installs a validator set (`bridge`), eras and
sessions decide whose stake counts (`lpos`), and messages travel back in numbered, committed batches
(`upward-messages`). This project models the four pallets in Dafny and proves what holds on every run.

## How it is organised

Every pallet appears twice. A datatype (`VotingState`, `LposState`, `BridgeState`, `Queue`) gives the meaning of each
call as a function from state to state, and a class (`AppchainPallet.Pallet`, `LposPallet.Pallet`,
`BridgePallet.Pallet`, `UpwardMessages.MessagePallet`) updates its storage in place, in the order the Rust code does,
with early returns, loops and rollback. Each method is proved to produce exactly the state the function says. Whole
runs and the theorems about them are stated over the functions.

| file | about |
|---|---|
| `Base`, `Sums`, `Division` | integer widths, containers, sums of stakes, rounded quotients |
| `Fee` | the relayer fee: closed form, cap, monotonicity, distance to the exact ratio |
| `Payloads`, `UpwardMessages` | the bounded queue of numbered messages and its commitments |
| `Ledger`, `Bridge`, `BridgePallet`, `Escrow`, `Reports`, `Registry` | transfers, the escrow's books, messages against events, what root and oracle store |
| `Observations`, `Voting`, `AppchainPallet` | votes, quorums, execution |
| `VotingRuns`, `QuorumSafety`, `Replay`, `Progress`, `SetProgress` | any submitters; no conflicting executions; in-order delivery of the mainchain's log, and that it goes on; that a quorum installs a validator set |
| `Lpos`, `LposPallet`, `StakeFacts` | sessions, eras, stored stakes, points, payouts |
| `EraRuns`, `EraTheorems`, `EraHistory`, `EraAccounts`, `EraWitnesses` | the era machine under the session driver, root calls and rewards; what points, offenders and payout stand for; short runs that go wrong |
| `SessionMessages`, `MainchainStream` | what sessions tell the mainchain, and the whole stream of messages as the operations of a run |
| `SendThrottle` | concurrent off-chain workers and the last-send cell |
| `Deliveries`, `System`, `SystemTheorems`, `EraSafety` | all pallets as one chain over one ledger and one queue; safety and progress inside an era |
| `SetIds`, `SetIdWitness` | which validator set an era runs with and which one it reports |

Integer widths are explicit where they matter. A 32-bit window end, the 64-bit product of the fee and the 128-bit
quorum products wrap as in a release build; a build with overflow checks would abort instead. Stored totals saturate,
counters are checked. The Substrate branch the pallets build on (polkadot-v0.9.40) runs every dispatchable in a storage
transaction, so a failing call leaves no trace; the explicit `#[transactional]` attributes do the same for
`submit_observation`. Genesis of a run is the state the genesis builders leave, or any state with nothing voted for,
sent or planned yet. A run of the staking pallet may be given a floor below which the history depth is never set; with
floor 0 every depth is allowed.

## What turned out not to hold

- **History of depth 0.** The documentation of `HistoryDepth` asks for an active era inside the history but nothing
  enforces it. `EraHistory.ActiveStakesKeptIff` says in every reachable state whether the active era's stakes are still
  there: they are lost exactly if the depth was 0 at some time since the next era was planned, and then every stake and
  the total read as zero, so no quorum can be reached. `EraHistory.StakesLostOnlyBy` names the two actions that do it,
  and `EraWitnesses.StakesLostForAMoment` is a run that sets the depth to 0 and straight back. `EraHistory.BootsIff`
  shows when era 0 starts at all, `EraHistory.StalledForever` that otherwise none ever does, and
  `EraWitnesses.NeverStarts` is a chain that never starts one. `EraHistory.StraysWhen` says when points and rewards end
  up outside the history.
- **Ending an era can divide by zero.** `get_exclude_validators` takes an average over the era's stakers.
  `EraHistory.EndAbortsIff` says exactly when a session cannot end because there are none: a payout is owed, points
  were earned, and the stakes were dropped or the era was planned with an empty set. Session rotation is not a call that
  can fail by itself, so the block fails. `EraWitnesses.AbortingRun` is a run for either cause, and
  `EraHistory.EndsNeverAbort` shows that a depth of at least 1 and non-empty sets exclude it.
- **`BondedEras` is never pruned.** Its documentation promises the last `BondingDuration` eras; the code only counts
  what it could prune. `EraTheorems.BondedPromiseIff` shows that the promise holds exactly while no era is
  older than the duration, `EraTheorems.EraSchedule` what the list holds instead, and `EraTheorems.OffencesNeverExpire`
  the consequence: no offence is ever too old.
- **One notification can be executed more than once.** The index window admits votes ahead of the counter, and a
  repeated vote reaches the quorum test again. `VotingRuns.NoIndexBeyondLimit` bounds the repetitions and
  `VotingRuns.LimitIsReached` shows the bound is met. `Replay.LateStartSkips` shows that a payload starting past the
  counter can make the chain skip an entry for good. `Replay.DeliversTheLog` shows neither happens when payloads start
  no later than the counter, which is how the off-chain workers build them (`Replay.StalePayloadsFollow`), and
  `Progress.CounterPasses` that the counter then moves on.
- **The counter has an end.** Within one window of the 32-bit bound no notification is accepted any more
  (`VotingRuns.AcceptedIff`); the overflow error of the counter is never reached.
- **The reported set id can run ahead.** `ActiveEra.set_id` is read when an era starts, its validators when it is
  planned. `SetIds.SetIdGap` shows that the id is ahead by exactly the sets installed in between, and right if and only
  if there were none; `SetIdWitness.SetIdRunsAhead` is a run where it is ahead by one.
- **The fee can wrap.** The product of integer price ratio and coefficient is taken in 64 bits. `Fee.ChargedIff` gives
  the exact condition on the prices under which the intended quantity is charged: the product fits, or what is left of
  it after wrapping still reaches the cap. Otherwise less is charged, and the fee no longer follows the price:
  `Fee.FeeWrapsToNothing` gives a ratio that costs the cap and its double that costs nothing. `Fee.FeeMonotone` needs
  the condition of the higher fee only; `Fee.FeeDependsOnRatioOnly` and `Fee.FeeNeverAboveCap` need none.
- **Saturated totals.** The stored total covers the stored stakes exactly when those fit 128 bits
  (`StakeFacts.TotalCoversStakers`).

## Model

| member | source | states |
|---|---|---|
| Replay.DeliversTheLog | appchain/src/lib.rs:709-976 | with at most MaxValidators distinct voters, if every payload is a slice of one mainchain log starting at or below the counter, then for any interleaving and any stakes that fit the 128-bit test the executed notifications are the log between the counters, in order, each once |
| Replay.RunKeepsReplay | appchain/src/lib.rs:786-833 | the invariant behind it: whoever voted for a later entry voted for every earlier one still to come |
| Replay.EntryKeepsReplay | appchain/src/lib.rs:786-976 | one entry of a payload keeps that invariant, and is executed only if it is the entry at the counter |
| Replay.VotedEntry | appchain/src/lib.rs:805-833 | an entry of the window is never refused, and only the one at the counter can reach its quorum |
| Replay.QuorumMonotone | appchain/src/lib.rs:815-833 | fewer voters have no quorum where more have none, in 128-bit arithmetic |
| Replay.StalePayloadsFollow | appchain/src/lib.rs:606-686 | payloads fetched from any earlier counter, delayed, reordered or repeated, satisfy the condition |
| Replay.LateStartSkips | appchain/src/lib.rs:726-739 | a slice that starts anywhere in the window past the counter can have its first entry executed first, after which the entry at the counter is refused on every continuation |
| Progress.CounterPasses | appchain/src/lib.rs:786-976 | at any time of a run that follows the log: once voters above two thirds have, under one stake map, each submitted a slice through an entry of the window of that moment, the counter has passed it |
| Progress.RunWaits | appchain/src/lib.rs:805-833 | while the stakes stay the same, the entry at the counter does not get its quorum between payloads if it had none |
| Progress.FreshRunWaits | appchain/src/lib.rs:805-833 | and it had none where nothing was voted for yet |
| SetProgress.SetUpdateOutcome | appchain/src/lib.rs:805-851 | a votable set update with the next id is installed iff three times the stake of recorded voters and submitter exceeds twice the total: then its content is planned, the id advances and nothing else changes; otherwise only the vote is recorded |
| SetProgress.NotificationOutcome | appchain/src/lib.rs:805-969 | the same for a notification: carried out iff voters and submitter exceed two thirds, with counter, history and delivery |
| SetProgress.VoteOutcome | appchain/src/lib.rs:787-814 | an impossible vote changes nothing, a possible one adds the submitter to this observation's voters and to no other's |
| SetProgress.SetIdPasses | appchain/src/lib.rs:786-851 | at any time of a run: once voters above two thirds have, under one stake map, each reported the set with the next id, that id is passed, whatever else is reported, as long as voters and contents under the id fit their lists |
| EraSafety.SetIdPassesInEra | appchain/src/lib.rs:427-461 | the same inside one era of the whole chain whose stakes are kept |
| SystemTheorems.ChainDeliversTheLog | appchain/src/lib.rs:427-461 | in-order delivery inside the whole chain, with stakes that change with the eras |
| VotingRuns.RunIsSound | appchain/src/lib.rs:709-976 | for arbitrary submitters: the counter counts executions, each index lies in the window of its moment, the history shows each index's last outcome, validator sets come consecutively and once, storage stays coherent |
| VotingRuns.AllAreSound | appchain/src/lib.rs:457-461 | the same for a payload, observation by observation |
| VotingRuns.VoteKeepsCoherent | appchain/src/lib.rs:793-814 | lists and voter lists stay duplicate-free and bounded, and an observation is listed iff it has voters |
| VotingRuns.InstallIsSound | appchain/src/lib.rs:835-851 | an installed set carries the next id, becomes the planned set and advances the id |
| VotingRuns.DeliverIsSound | appchain/src/lib.rs:852-969 | an executed notification advances counter, history and delivery list together |
| VotingRuns.AcceptedIff | appchain/src/lib.rs:726-739 | an index passes the check iff it lies in a window that ends within 32 bits; the counter never overflows |
| VotingRuns.NoIndexBeyondLimit | appchain/src/lib.rs:726-739 | no index is executed more than RequestEventLimit times over a whole run |
| VotingRuns.LimitIsReached | appchain/src/lib.rs:786-833 | for every limit a payload repeating the window's last index reaches that many executions |
| QuorumSafety.QuorumMeans | appchain/src/lib.rs:815-833 | the machine test over a duplicate-free list is `3*stake > 2*total` over the set of voters |
| QuorumSafety.RunIsBacked | appchain/src/lib.rs:805-833 | in any part of a run under one stake map, or none, everything executed keeps more than two thirds behind it |
| QuorumSafety.NoConflictingExecutions | appchain/src/lib.rs:815-833 | any two observations executed in such a part share voters holding more than a third of the total |
| QuorumSafety.OneContentPerIndex | appchain/src/lib.rs:815-833 | if double voters hold at most a third, one index never executes two different contents in such a part |
| EraSafety.OneContentPerIndexInEra | appchain/src/lib.rs:815-833 | the same for any part of one era of the whole chain, whatever came before |
| EraSafety.NoConflictInEra | appchain/src/lib.rs:815-833 | any two observations executed in one era of the chain share more than a third of the era's total |
| EraSafety.CounterPassesInEra | appchain/src/lib.rs:427-461 | in an era whose stakes are kept, slices of voters above two thirds move the counter past every entry they cover |
| EraSafety.EraIsSteady | lpos/src/lib.rs:167-175 | during an era payloads are weighed by the stakes it was planned with, or by none |
| StakeFacts.QuorumsIntersect | appchain/src/lib.rs:833 | two sets above two thirds of a covering total meet in more than one third |
| StakeFacts.TotalCoversStakers | lpos/src/lib.rs:781-806 | the stored total covers the stored stakes iff these fit 128 bits; equal for distinct accounts |
| StakeFacts.TotalIsCappedSum | lpos/src/lib.rs:787-794 | the saturating loop yields the sum of weights capped at 128 bits |
| StakeFacts.StakersSum | lpos/src/lib.rs:787-791 | exactly the listed accounts are stored, with at most the listed weight |
| StakeFacts.StakeAsReported | appchain/src/lib.rs:836-841 | the stake a vote weighs is the one in the account's last entry of the installed set |
| StakeFacts.AddPointsAddsUp | lpos/src/lib.rs:823-832 | rewarding keeps the total equal to the sum of individual points, duplicates included |
| StakeFacts.AddPointsCredits | lpos/src/lib.rs:826-829 | every account gains the sum of its own entries, and has an entry iff it had one or is listed |
| StakeFacts.StakersWeigh | lpos/src/lib.rs:787-794 | an account's stored stake is that of its last entry, or nothing without one |
| EraAccounts.RewardOutcome | lpos/src/lib.rs:823-832 | a reward changes the points of the active era only: account by account, total and entries |
| EraAccounts.PointsAreRewards | lpos/src/lib.rs:823-832 | on every run an account's points in a stored era are the sum of what it was rewarded while that era was active |
| EraAccounts.OffenceOutcome | lpos/src/lib.rs:949-975 | a report counts each occurrence once if an era is active, and not at all before |
| EraAccounts.OffendersAreReports | lpos/src/lib.rs:949-975 | on every run the offender table counts the reports since it was last drained by a payout |
| EraAccounts.StateShowsLastCalls | lpos/src/lib.rs:430-497 | on every run the payout is what root set last, the planned session the last one planned, and an era's start the first time a block was finalized in it |
| SessionMessages.NewSessionTells | lpos/src/lib.rs:507-549 | planning a session sends the next set id iff the chain is activated, the session is the last of a full era and the queue takes it; otherwise balances and queue are left alone |
| SessionMessages.EndSessionTells | lpos/src/lib.rs:572-741 | ending a session credits the payout and sends one report iff an era ends that is due a payout that fits: under the set id the era reports, with the stakers left out and the offenders before the end |
| SessionMessages.ExcludedAreLeftOut | lpos/src/lib.rs:622-662 | left out are all stakers if nobody earned a point, else those without entry or below the 32-bit threshold over points and staker count |
| StakeFacts.ExcludedMeans | lpos/src/lib.rs:622-662 | excluded are exactly stakers without entry or at least a point below a hundredth of 80 times the average in 32 bits; unless that wraps, four fifths of the average |
| StakeFacts.ExclusionSparesSomeone | lpos/src/lib.rs:622-662 | if only stakers earned points, at least one staker is not excluded |
| StakeFacts.OffencesAddUp | lpos/src/lib.rs:966-969 | each reported account is counted once per report, other counters are untouched |
| EraHistory.PayoutSparesSomeone | lpos/src/lib.rs:622-662 | the same for the active era of every run |
| AppchainPallet.Pallet.constructor | appchain/src/lib.rs:271-278 | set 0 is in force at genesis, set 1 is expected, nothing is voted for |
| AppchainPallet.Pallet.SubmitObservations | appchain/src/lib.rs:427-462 | a payload applies its observations in order, skips failing ones, and fails only for a non-validator |
| AppchainPallet.Pallet.SubmitObservation | appchain/src/lib.rs:786-976 | one observation takes full effect or none |
| AppchainPallet.Pallet.TrySubmitObservation | appchain/src/lib.rs:787-833 | vote, stake sum, quorum and execution in the code's order |
| AppchainPallet.Pallet.ExecuteObservation | appchain/src/lib.rs:834-972 | set installation or counter, bridge call and history |
| AppchainPallet.Pallet.RecordVote | appchain/src/lib.rs:791-814 | the vote is added, or the reason it is refused |
| AppchainPallet.Pallet.CheckObservation | appchain/src/lib.rs:709-743 | only the next set id, or an index of the window |
| AppchainPallet.Pallet.StakeOf | appchain/src/lib.rs:817-820 | the loop adds up the voters' stakes in 128 bits |
| AppchainPallet.Pallet.IncreaseNextNotificationId | appchain/src/lib.rs:688-697 | a checked increment that changes nothing when it fails |
| AppchainPallet.Pallet.IncreaseNextSetId | appchain/src/lib.rs:699-707 | a checked increment that changes nothing when it fails |
| Deliveries.BurnOutcome | bridge/src/token.rs:48-65 | for every receiver, a burn pays its amount out of the escrow and is a success iff amount and balances allow it, else the bridge is unchanged; counter and history advance either way |
| Deliveries.MintOutcome | bridge/src/nep141.rs:52-77 | the same for wrapped tokens |
| Deliveries.NftOutcome | bridge/src/nonfungible.rs:64-88 | the same for collectibles |
| Deliveries.DeliveryRecorded | appchain/src/lib.rs:852-969 | success is recorded iff the bridge call succeeded |
| EraRuns.StepKeepsInv | lpos/src/lib.rs:507-619 | every session action, root call and reward keeps the closed form of planning, activation and ending, at any depth and era length |
| EraRuns.EndKeepsEnded | lpos/src/lib.rs:572-584 | ending sessions ends eras in order and pays each at most once |
| EraTheorems.EraSchedule | lpos/src/lib.rs:507-619 | era e starts at session e times the era length, current minus active is 0 or 1, bonded eras are all eras up to the active one |
| EraTheorems.FallbacksAreDead | lpos/src/lib.rs:509-516 | missing start index, skipped session and already-paid branches are unreachable |
| EraTheorems.EraEndsBeforeSuccessorStarts | lpos/src/lib.rs:552-619 | when an era starts exactly its predecessors have ended, each once; one starts with every multiple of the era length unless era 0 was dropped |
| EraTheorems.PaidWhenDue | lpos/src/lib.rs:665-717 | an ending era is paid iff activated, a payout is set and its start was recorded; only then are offenders drained |
| EraTheorems.Announcements | lpos/src/lib.rs:519-540 | eras are announced at most once and in order; while activated, exactly those whose last session was planned |
| EraTheorems.OffencesNeverExpire | lpos/src/lib.rs:949-975 | once an era is active every reported offence is counted |
| EraTheorems.BondedPromiseIff | lpos/src/lib.rs:298-305 | bonded eras cover the documented range and are exactly it iff the active era is not older than the duration |
| EraHistory.HistoryWindow | lpos/src/lib.rs:471-488 | at any depth the stored eras are exactly the current one and a tracked number before it, bounded by depth and floor; rewards are the recorded payouts; points add up; with depth at least 1 the active era is stored and nothing is kept outside |
| EraHistory.ActiveStakesKeptIff | lpos/src/lib.rs:229-240 | in every reachable state the active era's stakes are stored iff the depth was not 0 since a later era was planned |
| EraHistory.StakesLostOnlyBy | lpos/src/lib.rs:471-488 | they are lost exactly by planning the next era at depth 0 or setting depth 0 while it is planned |
| EraWitnesses.StakesLostForAMoment | lpos/src/lib.rs:471-488 | a run that sets depth 0 and back loses them |
| EraHistory.StraysWhen | lpos/src/lib.rs:809-832 | points or a reward leave the history exactly when written for an active era whose stakes are gone |
| EraHistory.EndAbortsIff | lpos/src/lib.rs:622-678 | a session that is due to end fails exactly when a payout is owed, points exist and the era has no stakers, and why it has none |
| EraHistory.EndsNeverAbort | lpos/src/lib.rs:665-678 | with depth at least 1 and non-empty sets no session fails to end |
| EraWitnesses.AbortingRun | lpos/src/lib.rs:638-641 | a run after which ending the session divides by zero iff the depth was set to 0 or the set is empty |
| EraHistory.BootsIff | lpos/src/lib.rs:747-766 | session 0 starts era 0 iff eras have two sessions or the depth was never 0 since era 1 was planned |
| EraHistory.StalledForever | lpos/src/lib.rs:552-569 | without era 0's start index no era ever starts |
| EraHistory.LostStaysLost | lpos/src/lib.rs:809-815 | stakes that are gone stay so until the next era starts |
| EraWitnesses.NeverStarts | lpos/src/lib.rs:747-766 | with one session per era and depth 0 from genesis no era ever becomes active |
| EraHistory.PaidAtMostOnce | lpos/src/lib.rs:672-685 | paid eras are ended eras in increasing order |
| LposPallet.Pallet.TriggerNewEra | lpos/src/lib.rs:747-766 | next era, start index, dropped history and stored stakes; returns the planned accounts |
| LposPallet.Pallet.StoreStakersInfo | lpos/src/lib.rs:781-806 | the loop stores each listed account and the saturated total |
| LposPallet.Pallet.ClearEraInformation | lpos/src/lib.rs:809-815 | all five maps lose the era |
| LposPallet.Pallet.SetHistoryDepth | lpos/src/lib.rs:471-488 | the loop clears exactly the eras between the two history starts |
| LposPallet.Pallet.NewSession | lpos/src/lib.rs:507-549 | announces the last session of an era, or plans the next era and returns its accounts |
| LposPallet.Pallet.StartSession | lpos/src/lib.rs:552-569 | starts the next era when its session has come |
| LposPallet.Pallet.StartEra | lpos/src/lib.rs:589-619 | activates the era with the current set id and bonds it |
| LposPallet.Pallet.EndSession | lpos/src/lib.rs:572-584 | ends the active era in the session before its successor's; fails iff a payout is due that exceeds the balance type |
| LposPallet.Pallet.EndEra | lpos/src/lib.rs:665-741 | reward noted and offenders drained before amount and message can fail; an excessive amount is reported |
| LposPallet.Pallet.GetExcludeValidators | lpos/src/lib.rs:622-662 | the filtering loop keeps exactly the excluded stakers, each once |
| LposPallet.Pallet.RewardByIds | lpos/src/lib.rs:823-832 | the loop credits each entry to account and total |
| LposPallet.Pallet.ReportOffence | lpos/src/lib.rs:949-975 | the loop counts each offender unless the offence is too old |
| LposPallet.Pallet.ActiveStakeOf | lpos/src/lib.rs:167-171 | the active era's stake of an account, or zero |
| LposPallet.Pallet.ActiveTotalStake | lpos/src/lib.rs:173-175 | the active era's total, if an era is active |
| Fee.ClosedForm | bridge/src/lib.rs:580-608 | while nothing wraps, the charged quantity over quotient and remainder: least of cap, saturation step and scaled ratio |
| Fee.CalculateQuantity | bridge/src/lib.rs:580-608 | the pallet's branches compute the charged quantity for all prices, wrapping included |
| Fee.ChargedIff | bridge/src/lib.rs:591-596 | the intended quantity is charged iff the product fits 64 bits or its wrapped rest still reaches the cap, and never more |
| Fee.ChargedIsFee | bridge/src/lib.rs:591-617 | without wrapping the charged fee is the intended one |
| Fee.FeeWrapsToNothing | bridge/src/lib.rs:591-596 | a price ratio that costs the cap, and its double that should and costs nothing |
| Fee.CalculateFee | bridge/src/lib.rs:610-617 | integer and fractional parts add up to one rounded product |
| Fee.FeeMonotone | bridge/src/lib.rs:580-617 | the charged fee is monotone in the real price ratio and in the coefficient wherever the higher one is exact |
| Fee.FeeDependsOnRatioOnly | bridge/src/lib.rs:580-617 | equal ratios give equal charged fees, wrapping or not |
| Fee.WithinTwoBillionths | bridge/src/lib.rs:580-608 | below cap and saturation and unless it wraps, the charged quantity is less than two billionths below the exact ratio |
| Fee.FeeNeverAboveCap | bridge/src/lib.rs:598-617 | the charged fee is never above threshold times decimals, whatever wraps |
| Fee.ChargedFeeInPrices | bridge/src/lib.rs:580-617 | unless the product wraps, the fee is the cap where the ratio reaches it, a whole token more where fractions saturate, else decimals*coef*near/(100*native) up to a unit and two billionths of a token |
| Registry.SetPriceOutcome | bridge/src/lib.rs:336-359 | a report is accepted iff it comes from the oracle account, both prices are nonzero and the fee is a balance; both prices and both fees are stored, nothing else changes |
| Registry.StoredFeeFollowsPrices | bridge/src/lib.rs:580-624 | unless the product wraps, the fee stored by an accepted report is the one its two prices stand for |
| Registry.HigherRatioNeverCheaper | bridge/src/lib.rs:580-624 | of two accepted reports an exact one with the higher ratio of near to native price never stores the lower fee |
| Registry.SetCoefOutcome | bridge/src/lib.rs:362-369 | a coefficient is stored iff root gives one from 1 to 100; fees, prices and everything else stay |
| Registry.SetOracleOutcome | bridge/src/lib.rs:321-332 | root alone replaces the oracle account, and only that |
| Registry.SetTokenIdOutcome | bridge/src/lib.rs:231-252 | root registers a token iff the chain is activated and neither token nor asset is in use; all other entries stay |
| Registry.DeleteTokenIdOutcome | bridge/src/lib.rs:254-266 | root deletes a token iff it is registered; all other entries stay |
| Registry.SetAndDeleteUndoEachOther | bridge/src/lib.rs:231-266 | registering and deleting a token restore each other's state |
| Bridge.LookupsAreInverse | bridge/src/lib.rs:556-569 | lookup by token and search by asset undo each other on an injective table |
| Bridge.CallsKeepValid | bridge/src/lib.rs:231-266 | after any calls the table is injective, the coefficient in range and every stored fee below the cap |
| BridgePallet.Pallet.TryGetTokenId | bridge/src/lib.rs:563-568 | the search finds a token of the asset whenever there is one, on an injective table the one |
| BridgePallet.Pallet.TryGetAssetId | bridge/src/lib.rs:559-561 | the registered asset, or an error |
| BridgePallet.Pallet.SetTokenId | bridge/src/lib.rs:231-252 | registers only unused tokens and assets and keeps the table injective |
| BridgePallet.Pallet.SetTokenPrice | bridge/src/lib.rs:336-359 | prices and fee change together or not at all |
| BridgePallet.Pallet.SetCoef | bridge/src/lib.rs:362-369 | changes the coefficient within 1 to 100 and nothing else, the stored fee included |
| BridgePallet.Pallet.Lock | bridge/src/lib.rs:185-196 | fee, amount, message and event together, or nothing |
| BridgePallet.Pallet.BurnNep141 | bridge/src/lib.rs:200-212 | fee, burn, message and event together for the token found, or nothing |
| BridgePallet.Pallet.LockNonfungible | bridge/src/lib.rs:216-228 | fee, custody, message and event together, or nothing |
| BridgePallet.Pallet.Unlock | bridge/src/token.rs:48-65 | pays from the escrow while it stays alive |
| BridgePallet.Pallet.ForceUnlock | bridge/src/lib.rs:269-282 | root pays from the escrow while it stays alive |
| Escrow.LockOutcome | bridge/src/token.rs:7-45 | exactly when a lock goes through and every balance afterwards, dust included |
| Escrow.BurnOutcome | bridge/src/nep141.rs:6-49 | exactly when a burn goes through and every balance afterwards |
| Escrow.LockNftOutcome | bridge/src/nonfungible.rs:9-61 | exactly when a collectible is locked, its owner and every balance afterwards |
| Escrow.ForceUnlockOutcome | bridge/src/lib.rs:269-282 | succeeds iff ordered by root and escrow and receiver stay alive; the payment and its event are the only change |
| Escrow.CallIsExplained | bridge/src/lib.rs:183-282 | no call changes the part of the escrow that messages and unlocks do not explain |
| Reports.CallKeepsReports | bridge/src/token.rs:26-42 | messages and events tell of the same departures after any call |
| Reports.MainchainCallTells | bridge/src/impls.rs:260-290 | a mainchain call tells of exactly one arrival, or fails |
| SystemTheorems.EscrowIsConserved | bridge/src/lib.rs:183-282 | on every run: escrow = initial + amounts and fees of accepted messages + payouts minted - burns delivered as success - forced unlocks |
| SystemTheorems.BothSidesAgree | upward-messages/src/lib.rs:194-228 | on every run messages match departure events, successful deliveries match arrival events, and the stream has no gap |
| MainchainStream.StreamIsMessages | upward-messages/src/lib.rs:194-228 | on every run the stream is, in order, the messages of successful user calls, of eras' last sessions and of payouts, as far as the queue took them, each with the content of its moment |
| MainchainStream.AnyStepTells | upward-messages/src/lib.rs:194-228 | every action of the chain adds its own message to the stream, or nothing |
| MainchainStream.SessionTellsWhatItLogs | lpos/src/lib.rs:519-741 | a session tells of an era exactly when it announces one, and of a payout exactly when it mints one |
| MainchainStream.LockAnnounces | bridge/src/token.rs:7-45 | a lock sends sender, receiver, amount and stored fee under the next nonce, and its event names them too |
| MainchainStream.BurnAnnounces | bridge/src/nep141.rs:6-49 | the same for a burn, with the token found |
| MainchainStream.LockNftAnnounces | bridge/src/nonfungible.rs:9-61 | the same for a collectible, with its metadata |
| SystemTheorems.StakeAnswers | lpos/src/lib.rs:167-175 | on every run the stake answered for an account is its weight in the set the active era was planned with, or 0 without an era or once the stakes are lost |
| System.EndMoves | lpos/src/lib.rs:715-717 | ending an era adds to the escrow exactly what it mints |
| SystemTheorems.StakesComeFromASet | lpos/src/lib.rs:589-600 | on every run votes are weighed by the set the active era was planned with, or by nothing iff the depth was 0 since its successor was planned; the era reports the set id before the next one at its start |
| SetIds.SetIdGap | lpos/src/lib.rs:589-600 | on every run the reported set id is ahead of the planned set by the number of sets installed between planning and start, and names it iff there were none |
| SetIds.MomentsExist | lpos/src/lib.rs:747-751 | every planned era was planned, and every started one started, by one action of the run |
| SetIdWitness.SetIdRunsAhead | lpos/src/lib.rs:589-600 | a run on which the reported set id is one ahead |
| SystemTheorems.QuorumIsTwoThirds | appchain/src/lib.rs:815-833 | on every run the test is a two-thirds majority of a total that covers all stakes, and out of reach without stakes |
| SystemTheorems.RunKeepsChain | lpos/src/lib.rs:770-776 | voting, eras, books and planned sets stay right together on every run |
| SystemTheorems.ChainRunsVoting | appchain/src/lib.rs:427-461 | the voting pallet's part of a chain run is one of the voting runs above |
| SystemTheorems.ChainRunsEras | lpos/src/lib.rs:849-874 | the staking pallet's part of a chain run is one of the era runs above |
| UpwardMessages.StreamIsWhatWasAccepted | upward-messages/src/lib.rs:139-183 | committed batches and queue are the accepted payloads in submission order under consecutive nonces |
| UpwardMessages.RunKeepsGapless | upward-messages/src/lib.rs:194-228 | nonces are consecutive and queue, batch and payload bounds hold on every run |
| UpwardMessages.SubmitExtendsStream | upward-messages/src/lib.rs:194-228 | a payload is accepted iff queue, size and nonce allow it, and is then the end of the stream |
| UpwardMessages.CommitKeepsStream | upward-messages/src/lib.rs:154-183 | committing loses and repeats nothing |
| UpwardMessages.CommittedUpToLastInterval | upward-messages/src/lib.rs:138-183 | at any time exactly the messages accepted up to the last block divisible by the interval are committed |
| UpwardMessages.BlockOutcome | upward-messages/src/lib.rs:138-165 | a block divisible by the interval makes one batch of all that is pending; any other block changes nothing |
| UpwardMessages.MessagePallet.Submit | upward-messages/src/lib.rs:194-228 | a failed submit changes neither nonce nor queue |
| UpwardMessages.MessagePallet.OnInitialize | upward-messages/src/lib.rs:138-145 | commits every interval |
| SendThrottle.SendsAreApart | appchain/src/lib.rs:537-578 | in every interleaving of workers, send j comes at least j-i grace periods after send i |
| SendThrottle.RunKeepsSpaced | appchain/src/lib.rs:549-562 | consecutive sends are a grace period apart, counted from the cell's first content |
| SendThrottle.DueWorkersLeadToASend | appchain/src/lib.rs:537-578 | however others interleave, a worker that saw no recent send finishes with somebody having sent since it started, itself unless the cell changed; one that saw a recent send never sends |
| SendThrottle.LastSend.Finish | appchain/src/lib.rs:548-577 | decide, compare and set as one worker does it |

## Left out

- HTTP requests, JSON, keys, signatures, transaction-pool checks and priorities: payloads arrive with an authenticated validator or none.
- The `force_set_*` calls of the appchain pallet, except activation: they reset what the theorems count from.
- `force_mint_nep141` and `force_unlock_nonfungible`: one ledger call each, touching neither escrow balance nor queue.
- Ledger internals: transfers, wrapped assets and collectibles are an abstract ledger with existential deposit and dust; freezes, locks, reserves and account references are not modelled, and a payout deposit is always credited.
- Exact wrapped supply: the amount `burn_from` really burned is ignored by the pallet and may exceed what the message says.
- Message encoding and hashing: a payload is a record, its encoded length a parameter, a commitment the batch itself.
- Order inside an era payout message: excluded validators are a set and offenders a table, since both come from hashed storage.
- Conversions that cannot fail for the configured types (collection, item, asset balance and fee to 128 bits).
- Token decimals times threshold beyond 128 bits: left to the configuration.
- Era, session and block numbers, reward points and offence counters are unbounded; the payout threshold keeps its 32-bit product.
- Era duration from the clock, which the code computes and drops.
- Offence reports the inner reporter refuses: `ReportOffence` models those it accepts.
- What a chain does after a block that failed to end its session: a run takes session actions again only once that end no longer fails.
- A history depth of 2^32-1, at which planning the next era overflows.
- `BondingDuration` with `prune_historical_up_to`, weights, migrations, genesis configuration checks, logging, and events other than those of the bridge's transfers.
- NFT metadata: what the convertor yields is a parameter of the call.
- QuorumSafety.NoConflictingExecutions: is stated for payloads weighed by the same stakes, as within one era; votes are kept when stakes change, so two contents may each be backed by the stakes of a different era.
