# DataHaven pallets in Dafny

This project models the two state machines at the heart of the DataHaven operator and proves
what they guarantee over whole runs.

**The beacon light client** (`ethereum-client`) follows Ethereum's finalized chain by checking
updates signed by sync committees, and accepts execution headers under what it stored.

**The era machine** (`external-validators`) turns session rotations into eras. Its hooks drive
the **rewards** pallet (`external-validators-rewards`), which awards points, mints, and sends one
message per era, and the **slashes** pallet (`external-validator-slashes`), which keeps a ledger of
deferred slashes. Both send through a 64-slot ring buffer of unsent batches that is retried block
by block.

## How it is built

| files | content |
|---|---|
| `Participation`, `LightClient` | votes and keys; the client as functions on its store |
| `BeaconChain`, `HonestWorld` | what is assumed about cryptography and chain; a world that meets it |
| `ClientRuns`, `ClientAcceptance`, `ClientProofs`, `ClientPallet` | what every run of the client guarantees; which updates, execution headers and checkpoints it accepts; the store updated in place |
| `RetryQueue`, `RingQueue` | the retry queue as a sequence, and as a ring buffer updated in place |
| `Points`, `PointsLaw`, `Rewards`, `RewardMessages`, `RewardsPallet` | points, the session formula and its law; the pallet on values, what its messages say, and the pallet in place |
| `Eras`, `EraRuns`, `EraCalls`, `ErasPallet` | the era machine, its reachable states, what its calls come to, and the pallet in place |
| `Slashes`, `SlashRuns`, `SlashReports`, `SlashFractions`, `SlashFates`, `SlashMessages`, `SlashesPallet` | the slash ledger and its runs; whom a call charges, which slashes are made, which are sent, and what the messages say; the pallet in place |
| `RewardChain`, `RewardRuns`, `SlashChain` | rewards and slashes driven by the era machine, as the runtime wires them |

Each pallet is a class whose methods update storage in place. Each method is proved equal to a
function on a `State` value, and the run theorems are about those functions: they hold for every
sequence of calls, in any order. A `State` also keeps history that storage does not have (hooks
fired, plans made, awards, events, charges, slash records, messages, imported headers); in the classes that
history is ghost.
The classes also carry invariants of their own: the client stays sound and its imports climb, the
era machine keeps its order and its driver the planned sets, and the totals of all eras agree.

The environment enters as parameters:

- **Session driver.** Genesis plans sessions 0 and 1 and starts session 0. Then, for each session i,
  it ends session i, starts i + 1 and plans i + 2, as in the trace at
  `operator/pallets/external-validators/src/tests.rs:320-346`. A set that planning returns is queued,
  and the queued set runs the next session.
- **Offences pallet.** It rejects a report or hands on a list of offenders of its own.
- **Message sending and minting** answer with a flag or an amount that each call takes.
- **Hashing, Merkle branches and BLS** are function values. Soundness assumes `BeaconChain.Honest`:
  roots and branches are binding, canonical states hold the fields the protocol puts there, votes are
  not forged, and at most a third of a sync committee is not faithful, where a faithful member signs
  canonical headers only. A checkpoint is trusted for its header and validators root alone.
  `HonestWorld.AssumptionsHold` shows that the assumptions can be met together, and
  `HonestWorld.ClientFollows` that a client makes progress in that world.
- **The ring map of finalized states** may give up any entries on an insertion; only the inserted
  key is known to be there.
- **A call that returns an error** leaves storage as it was.

The configuration is general, except that `HistoryDepth` of `external-validators` is at least 1 and
the genesis whitelist has no duplicates. In `operator/pallets/external-validators/src/lib.rs`, lines
117-127 ask for the first and genesis asserts the second at lines 253-263.

## Where the code and its promises differ

- **Era 1 of a chain with one session per era loses its whitelist.** With `SessionsPerEra` of 1, which
  `operator/runtime/common/src/constants.rs:33` sets for fast builds, genesis plans era 1 before era 0
  takes the pending snapshot, so era 1 starts with nobody exempt from rewards. The snapshots agree in
  every run exactly when eras last at least two sessions or genesis whitelists nobody
  (`EraRuns.SnapshotsAgreeIff`).
- **Excess weights are not rescaled.** The documentation at
  `operator/pallets/external-validators-rewards/src/lib.rs:653-657` promises that weights above 100% are
  scaled down. The sum saturates at 100% before it is compared with 100%, so that branch is never
  taken. The session pool is respected for every session and base-point setting exactly when the
  weights sum to at most 100% (`Points.PoolBoundedIffWeights`).
- **Fair share counts whitelisted validators**, although lines 659-662 of the same file say that they
  are excluded from it. The two shares agree for every number of blocks exactly when no validator of
  the session is exempt (`Points.FairShareIff`); two blocks and two validators, one of them exempt,
  tell them apart (`Points.FairShareDiffers`).
- **Slashes can be lost.** A slash that is put into a bucket whose era has already started is never
  queued. Whether a slash is sent is decided by the call that makes it: it is on time exactly when it
  comes from a report and nothing is deferred, or when the charged era lies at most the defer period
  back (`SlashFates.SlashFate`). The runtimes defer nothing
  (`operator/runtime/mainnet/src/configs/mod.rs:1742`), so reports are on time there and every injection
  for a past era is lost (`SlashFates.InjectionLost`).

- **A history depth of 0 removes nothing.** An era start then prunes the era that starts, so points and
  block counts of earlier eras stay for good (`RewardRuns.PrunedInTimeIff`). The runtimes keep 64 eras.

## Model

| member | source | states |
|---|---|---|
| Participation.FindPubkeys | operator/pallets/ethereum-client/src/lib.rs:680-695 | the collection loop returns the keys whose bit says they took part, or did not, in committee order |
| Participation.AbsentComplementsSigners | operator/pallets/ethereum-client/src/lib.rs:680-695 | there are as many signers as bits set, and absent and signing keys weave back into the committee: the absent ones are the order-preserving complement |
| Participation.SupermajorityIff | operator/pallets/ethereum-client/src/lib.rs:633-643 | a vote passes the two-thirds check if and only if at most a third of the committee is absent |
| Participation.QuorumIntersection | operator/pallets/ethereum-client/src/lib.rs:633-643 | two votes of one committee that pass the two-thirds check share at least a third of its members |
| BeaconChain.SignedIsCanonical | operator/pallets/ethereum-client/src/lib.rs:633-643 | where at most a third of the committee is not faithful, a header signed by two thirds is canonical |
| ClientRuns.VerifiedInOrder | operator/pallets/ethereum-client/src/lib.rs:318-471 | what an accepted update satisfies: slot order, the signature in the store's period or the next when its committee is known, relevance, the bounded gap, and all proofs |
| ClientRuns.KnownCommitteeStays | operator/pallets/ethereum-client/src/lib.rs:418-424 | with no assumption: while the next committee is known, an accepted update attested in the store's period brings that committee or none |
| ClientRuns.PeriodLength | operator/pallets/ethereum-client/src/functions.rs:19-27 | a sync committee period is as long as the block root vector, and an epoch has 32 slots |
| ClientRuns.IndicesAreFields | operator/pallets/ethereum-client/src/lib.rs:743-788 | before and since Electra, the generalized indices are the positions of the block roots, the finalized root, the committees and the execution payload in state and body |
| ClientRuns.AttestedSigned | operator/pallets/ethereum-client/src/lib.rs:446-470 | the committee chosen for the signature is the true one of the signature slot's period |
| ClientRuns.UpdateTrue | operator/pallets/ethereum-client/src/lib.rs:371-444 | from a sound store, an accepted update carries canonical headers, the true block roots and the true next committee of the attested period |
| ClientRuns.RotatedFor | operator/pallets/ethereum-client/src/lib.rs:489-515 | rotation keeps current and next committee those of the latest finalized period and the one after it |
| ClientRuns.SubmitSound | operator/pallets/ethereum-client/src/lib.rs:309-526 | a successful submit leaves the store sound |
| ClientRuns.CheckpointSound | operator/pallets/ethereum-client/src/lib.rs:252-307 | a checkpoint with a canonical header leaves the store sound, its committee and block roots being proven and not trusted |
| ClientRuns.LightClientSound | operator/pallets/ethereum-client/src/lib.rs:252-526 | after every run, each stored state is that of a canonical header and both committees are the true ones for the latest finalized period and the next |
| ClientRuns.SubmitMoves | operator/pallets/ethereum-client/src/lib.rs:474-526 | with no assumption: after an accepted update the latest slot is the larger of the old one and the finalized header's; if it rose, that header with its root and block roots is the latest one and the only one added and imported; the period rises by at most one and then promotes the next committee; and the update's committee is the next one exactly when none was known or the period rose |
| ClientRuns.CommitteeRotation | operator/pallets/ethereum-client/src/lib.rs:325-346 | in every reachable store an accepted update was signed by the committee of its signature slot's period; the latest slot does not fall and no period is skipped |
| ClientRuns.CheckpointStarts | operator/pallets/ethereum-client/src/lib.rs:252-307 | an accepted checkpoint becomes the latest header and the only import, with its committee as the current one, no next one and its validators root |
| ClientRuns.HaltedRejects | operator/pallets/ethereum-client/src/lib.rs:227-231 | a halted client takes no update, and switching the mode touches nothing else |
| ClientRuns.NoAncestryHole | operator/pallets/ethereum-client/src/lib.rs:363-369 | after any run every slot from the last checkpoint to the latest finalized slot lies in the block root window of an imported header, where its leaf index names no other slot |
| ClientRuns.AncestrySound | operator/pallets/ethereum-client/src/impls.rs:136-163 | a header accepted by an ancestry proof is canonical |
| ClientRuns.ExecutionSound | operator/pallets/ethereum-client/src/impls.rs:76-131 | an accepted execution header is the one in the body of a canonical header not later than the latest finalized one; the converse is ClientProofs.ExecutionIffRight |
| ClientRuns.AncestryComplete | operator/pallets/ethereum-client/src/impls.rs:136-163 | every canonical header between the last checkpoint and the latest finalized header has an accepted ancestry proof while the imported header that covers it is stored |
| ClientAcceptance.AcceptedIsGenuine | operator/pallets/ethereum-client/src/lib.rs:318-526 | an accepted update is signed, in order, and carries the finalized header, block roots and next committee of the chain |
| ClientAcceptance.AcceptedIffGenuine | operator/pallets/ethereum-client/src/lib.rs:318-526 | in every reachable store that is not halted, there are branches with which an update is accepted if and only if it is genuine |
| ClientAcceptance.RejectionReason | operator/pallets/ethereum-client/src/lib.rs:318-471 | a rejected update changes nothing, and the error names a check that the update fails |
| ClientProofs.ExecutionIffRight | operator/pallets/ethereum-client/src/impls.rs:76-163 | in every reachable store there are branches with which an execution proof is accepted if and only if its header is canonical and not later than the latest, carries that execution header, and is stored itself or recorded by the stored header it names |
| ClientProofs.ExecutionAnchored | operator/pallets/ethereum-client/src/impls.rs:76-163 | with no assumption: what an accepted proof hangs on is stored, either the header itself at its own slot or a later one |
| ClientProofs.CoveredIsRecorded | operator/pallets/ethereum-client/src/impls.rs:136-163 | every canonical header in the window of an imported header that is still stored is recorded by it, so it can be proved |
| ClientProofs.CheckpointIffGenuine | operator/pallets/ethereum-client/src/lib.rs:252-307 | for a canonical header there are branches with which a checkpoint is accepted, halted or not, if and only if it brings that header's committee and block roots |
| ClientPallet.ClientPallet.ForceCheckpointUpdate | operator/pallets/ethereum-client/src/lib.rs:208-307 | an accepted checkpoint starts the store anew as in ClientRuns.CheckpointStarts; the client stays sound if header and validators root are the chain's; an error changes nothing |
| ClientPallet.ClientPallet.VerifySignature | operator/pallets/ethereum-client/src/lib.rs:452-470 | the aggregate signature is verified against the absent keys of the chosen committee |
| ClientPallet.ClientPallet.VerifyUpdate | operator/pallets/ethereum-client/src/lib.rs:318-471 | verification reads the store alone and returns the first failing check; the next committee exists whenever it is used |
| ClientPallet.ClientPallet.SubmitUpdate | operator/pallets/ethereum-client/src/lib.rs:227-231 | the client stays sound and without a gap in its imports; an accepted update advances headers and committees exactly as in ClientRuns.SubmitMoves; an error changes nothing |
| RingQueue.RingQueue.Len | operator/pallets/external-validators-rewards/src/lib.rs:426-430 | the wrapping modular difference of tail and head is the number of queued entries, at most 63 |
| RingQueue.RingQueue.Push | operator/pallets/external-validators-rewards/src/lib.rs:434-445 | appends, and fails exactly at 63 entries |
| RingQueue.RingQueue.RemoveSlot | operator/pallets/external-validators-rewards/src/lib.rs:449-487 | deletes exactly that entry and keeps the order of the others across the wrap-around |
| RingQueue.RingQueue.ShiftBack | operator/pallets/external-validators-rewards/src/lib.rs:452-463 | the shifting loop moves every later entry one slot back and ends on the last one |
| RingQueue.RingQueue.PopHead | operator/pallets/external-validators-rewards/src/lib.rs:511-538 | a sent or expired head entry leaves the queue |
| RingQueue.RingQueue.RotateHead | operator/pallets/external-validators-rewards/src/lib.rs:539-553 | a failed head entry moves behind the last one |
| RingQueue.RingQueue.Find | operator/pallets/external-validators-rewards/src/lib.rs:201-215 | the search returns the first queued entry of the era, and nothing exactly when there is none |
| RingQueue.RingQueue.PruneSlot | operator/pallets/external-validators-rewards/src/lib.rs:879-889 | one pass removes an expired entry and stays, or moves on |
| RingQueue.RingQueue.PruneThrough | operator/pallets/external-validators-rewards/src/lib.rs:874-890 | the clean-up loop terminates and leaves the order-preserving filter of the entries after the pruned era |
| RetryQueue.PrunePartitions | operator/pallets/external-validators-rewards/src/lib.rs:874-890 | pruning loses and duplicates nothing and divides entries by their era alone |
| RetryQueue.IndexOfEra | operator/pallets/external-validators-rewards/src/lib.rs:201-215 | the found position is the first one of the era |
| RetryQueue.RunKeepsBound | operator/pallets/external-validators-rewards/src/lib.rs:434-445 | no sequence of calls brings the queue above 63 entries |
| RetryQueue.StepMovesForward | operator/pallets/external-validators-rewards/src/lib.rs:494-555 | no call moves an entry away from the head, and a block call brings it one nearer |
| RetryQueue.FailuresRotate | operator/pallets/external-validators-rewards/src/lib.rs:539-553 | k failing blocks rotate the queue by k |
| RetryQueue.FullRoundRestoresOrder | operator/pallets/external-validators-rewards/src/lib.rs:494-555 | a full round of failures alone returns the queue to its original order |
| Points.AccrueCredits | operator/pallets/external-validators-rewards/src/lib.rs:375-385 | crediting changes one account's counter, saturating, and no other |
| Points.TotalIsCappedSum | operator/pallets/external-validators-rewards/src/lib.rs:375-385 | after any awards an era's total is the sum of individual points capped at u32::MAX, even where entries saturate |
| Points.AwardsCredit | operator/pallets/external-validators-rewards/src/lib.rs:375-385 | after any awards each account has what it had plus the sum of its awards, capped at u32::MAX |
| Points.PointsMonotone | operator/pallets/external-validators-rewards/src/lib.rs:781-836 | a validator's points never fall when its blocks or the session's blocks rise |
| PointsLaw.PointsLaw | operator/pallets/external-validators-rewards/src/lib.rs:781-836 | two-sided law from the configuration alone: the points are the exact value of the weighted formula, over blocks up to the soft cap, liveness and base, but for less than two points |
| PointsLaw.SessionReaches | operator/pallets/external-validators-rewards/src/lib.rs:781-862 | a session awards every validator that is not exempt its points, and nobody else anything |
| PointsLaw.FullSessionPays | operator/pallets/external-validators-rewards/src/lib.rs:663-862 | a session in which every validator authors its fair share pays out the whole pool but for less than two points per validator |
| PointsLaw.MainnetSession | operator/runtime/mainnet/src/configs/mod.rs:1591-1596 | with the weights of the mainnet, 60%, 30% and a cap of 50%, the author of both blocks of two validators gets 320 points and the other one 32 |
| Points.FairShareIff | operator/pallets/external-validators-rewards/src/lib.rs:698-703 | the code's fair share is the documented one for every number of blocks if and only if no validator of the session is exempt |
| Points.FairShareDiffers | operator/pallets/external-validators-rewards/src/lib.rs:698-703 | the session that tells the two shares apart |
| Points.PoolBoundHolds | operator/pallets/external-validators-rewards/src/lib.rs:663-862 | with weights summing to at most 100%, a session awards at most base points times the larger of blocks and validators, despite floors, caps and saturation |
| Points.ExcessWeightsBreakPool | operator/pallets/external-validators-rewards/src/lib.rs:709-737 | the session that exceeds the pool as soon as the weights exceed 100% |
| Points.PoolBoundedIffWeights | operator/pallets/external-validators-rewards/src/lib.rs:709-737 | the pool is respected for all sessions and settings if and only if the weights sum to at most 100% |
| Rewards.LedgerBalances | operator/pallets/external-validators-rewards/src/lib.rs:494-555 | over any calls, minted rewards equal sent plus retried plus queued plus expired plus dropped |
| Rewards.EraEndKeepsNet | operator/pallets/external-validators-rewards/src/lib.rs:895-990 | ending an era mints nothing that is not sent, queued or reported as dropped; the branch without a message after minting is not taken |
| Rewards.EraStartKeepsNet | operator/pallets/external-validators-rewards/src/lib.rs:866-891 | starting an era reports exactly the queued amounts it removes as expired |
| Rewards.EraEndKeepsFrozen | operator/pallets/external-validators-rewards/src/lib.rs:895-990 | the message queued at era end is rebuilt from points that are final from then on |
| Rewards.EraStartKeepsFrozen | operator/pallets/external-validators-rewards/src/lib.rs:866-891 | points and queue entries leave together: no entry outlives its points |
| Rewards.BlockKeepsFrozen | operator/pallets/external-validators-rewards/src/lib.rs:494-555 | a block call never finds the head entry expired |
| Rewards.RetryKeepsFrozen | operator/pallets/external-validators-rewards/src/lib.rs:195-235 | a manual retry never finds the points pruned |
| Rewards.RetryOutcome | operator/pallets/external-validators-rewards/src/lib.rs:195-235 | a manual retry attempts the message of the era if it is queued, leaves the queue without it exactly when it was sent, and else finds nothing |
| Rewards.AuthorCounts | operator/pallets/external-validators-rewards/src/lib.rs:558-569 | a block counts once for its author and once for the active era, and for nothing else |
| Rewards.CallIsQueueOp | operator/pallets/external-validators-rewards/src/lib.rs:494-555 | every call of the pallet is one step on the queue, and only block calls try the head |
| Rewards.RetriedWithinDistance | operator/pallets/external-validators-rewards/src/lib.rs:494-555 | a queued era at distance i is attempted or gone within i + 1 blocks, whatever falls in between |
| RewardMessages.EndsWithMessage | operator/pallets/external-validators-rewards/src/lib.rs:895-990 | an era ends with a mint and a first attempt, if minting works, exactly when somebody was awarded points in it; what is not sent is queued, or dropped before a full queue |
| RewardChain.RetryStability | operator/pallets/external-validators-rewards/src/lib.rs:494-555 | in every run driven by session rotations, each queued era rebuilds exactly the message whose first attempt failed, no retry finds its points pruned, and no era was sent two different messages |
| RewardChain.RetryFairness | operator/pallets/external-validators-rewards/src/lib.rs:494-555 | in every state such a run reaches, the era queued at distance i is attempted or gone within i + 1 further blocks |
| RewardChain.RewardLedger | operator/pallets/external-validators-rewards/src/lib.rs:895-990 | the ledger balances in every state such a run reaches |
| RewardChain.RotationPool | operator/pallets/external-validators-rewards/src/lib.rs:1023-1031 | in every state such a run reaches, the next rotation awards the distinct validators that ran the session at most their pool |
| RewardRuns.RotationAwards | operator/pallets/external-validators-rewards/src/lib.rs:1023-1031 | in every run the next rotation awards each validator planned for the active era, and not exempt by its plan, the points for the blocks it authored since the last rotation, and nobody else anything |
| RewardRuns.MessagesTruthful | operator/pallets/external-validators-rewards/src/lib.rs:895-990 | in every run every attempt, first or repeated, carries for each account the capped sum of what it was awarded in that era, their sum as the total, the amount minted for the era, and the time of the first block finalized in it |
| RewardRuns.HistoryKept | operator/pallets/external-validators-rewards/src/lib.rs:866-891 | in every run the points of each era within the history depth are what was awarded in it |
| RewardRuns.PrunedInTimeIff | operator/pallets/external-validators-rewards/src/lib.rs:866-891 | in every run no points or block counts outlive the history depth, if and only if that depth is at least one era; with none, a block noted before a forced era shows it |
| RewardRuns.ExpiresInTime | operator/pallets/external-validators-rewards/src/lib.rs:874-890 | starting an era expires exactly the queued eras that leave the history depth |
| RewardsPallet.RewardsPallet.NoteBlockAuthor | operator/pallets/external-validators-rewards/src/lib.rs:558-569 | the author's counter rises by one, saturating, no other counter changes, and the counters stay well formed |
| RewardsPallet.RewardsPallet.RewardByIds | operator/pallets/external-validators-rewards/src/lib.rs:375-385 | the award loop leaves the era's points as after all awards, with every era's total the capped sum of its points |
| RewardsPallet.RewardsPallet.AwardSessionPoints | operator/pallets/external-validators-rewards/src/lib.rs:663-862 | the award loops in place: the points of PointsLaw.SessionReaches are credited to the active era and recorded, the session's block counts are cleared, and every era's total stays the capped sum |
| RewardsPallet.RewardsPallet.ProcessUnsentRewardEras | operator/pallets/external-validators-rewards/src/lib.rs:494-555 | the block hook in place: the head is dropped, sent or rotated |
| RewardsPallet.RewardsPallet.RetryUnsentRewardEra | operator/pallets/external-validators-rewards/src/lib.rs:195-235 | the manual retry in place, with its three errors |
| RewardsPallet.RewardsPallet.EraStarted | operator/pallets/external-validators-rewards/src/lib.rs:866-891 | the clean-up in place, with an expiry reported for each removed entry |
| RewardsPallet.RewardsPallet.EraEnded | operator/pallets/external-validators-rewards/src/lib.rs:895-990 | mint, send, and queue or drop, in place, as in RewardMessages.EndsWithMessage |
| EraRuns.EraMachine | operator/pallets/external-validators/src/lib.rs:502-642 | in every reachable state the planned era is the active one or the next and due at the next session; stored starts cover exactly the last planned eras in increasing order; the hooks are Start(0), End(0), Start(1), ... with none skipped; a start is never overtaken |
| EraRuns.RotationActivates | operator/pallets/external-validators/src/lib.rs:546-581 | a rotation activates the planned era exactly when it is due, and the arm for a skipped session is not taken |
| EraRuns.TraceAt | operator/pallets/external-validators/src/lib.rs:584-617 | the hook trace position by position: era k starts at 2k with its planned session and index and ends right after |
| EraRuns.PlannedSet | operator/pallets/external-validators/src/lib.rs:491-499 | a planned set has no duplicates, holds exactly both lists, and is the whole whitelist followed by the new external validators in order |
| EraRuns.RunningSet | operator/pallets/external-validators/src/lib.rs:620-642 | in every run, forced or not, the validators that run the active era are its planned whitelist followed by its planned external set, without duplicates |
| EraRuns.RotationMoved | operator/pallets/external-validators/src/lib.rs:546-605 | a rotation changes the era exactly when one is due, with one End and one Start hook of the planned session and index, and the planned set runs |
| EraRuns.ExternalIndices | operator/pallets/external-validators/src/lib.rs:425-463 | the external index given with an era is at most the era number and never falls; at most one external set is accepted per active era |
| EraRuns.AcceptedIff | operator/pallets/external-validators/src/lib.rs:444-463 | a set is accepted if and only if it is for the era after the active one and none was accepted in the active era |
| EraRuns.EarlyEraLosesWhitelist | operator/pallets/external-validators/src/lib.rs:584-605 | with eras of at most one session the first rotation starts era 1 with an empty whitelist |
| EraRuns.SnapshotsAgreeIff | operator/pallets/external-validators/src/lib.rs:584-642 | in every run the active era has the validator set, the whitelist and the index it was planned with, if and only if eras last at least two sessions or genesis whitelists nobody |
| EraRuns.ErasStartOnSchedule | operator/pallets/external-validators/src/lib.rs:502-542 | without forcing, every era lasts exactly the configured number of sessions |
| EraCalls.NextPlan | operator/pallets/external-validators/src/lib.rs:502-642 | for every run of calls the next rotation plans an era at once under ForceNew and ForceAlways, never under ForceNone, and else when the last one has run its length; it plans it with the whitelist the calls left, the external set accepted last, cut to the limit, unless skipped, and that set's index |
| EraCalls.RotateNoted | operator/pallets/external-validators/src/lib.rs:502-542 | a rotation takes back ForceNew and no other mode, so ForceNew plans one era |
| EraCalls.ForceNonePlansNothing | operator/pallets/external-validators/src/lib.rs:512-530 | under ForceNone no calls but a new forcing bring a plan |
| EraCalls.SetOutcome | operator/pallets/external-validators/src/lib.rs:425-463 | the four answers to a new external set, each if and only if; any but Ok changes nothing |
| EraCalls.WhitelistOutcome | operator/pallets/external-validators/src/lib.rs:343-400 | the answers of the two whitelist calls, each if and only if; adding appends, removing takes out that account alone |
| ErasPallet.RemoveDuplicates | operator/pallets/external-validators/src/lib.rs:689-700 | the loop keeps the first instance of each element, in order |
| ErasPallet.ErasPallet.CurrentValidators | operator/pallets/external-validators/src/lib.rs:491-499 | whitelist, then external validators unless skipped, without duplicates |
| ErasPallet.ErasPallet.PlanSession | operator/pallets/external-validators/src/lib.rs:502-542 | plans an era when none is current, when forced, or when the current one has run its length |
| ErasPallet.ErasPallet.constructor | operator/pallets/external-validators/src/lib.rs:251-281 | genesis leaves the machine in order, with the set of era 0 running |
| ErasPallet.ErasPallet.RotateSession | operator/pallets/external-validators/src/lib.rs:502-605 | a rotation keeps the machine in order and the driver's sets the planned ones, and extends the hooks by exactly the era change that was due |
| ErasPallet.ErasPallet.SetExternalValidatorsInner | operator/pallets/external-validators/src/lib.rs:425-463 | keeps the machine in order and accepts a set if and only if it is for the next era and the active era has accepted none |
| Slashes.CountBeforeStops | operator/pallets/external-validator-slashes/src/lib.rs:697-701 | the count of eras to prune stops at the first era that is kept |
| SlashRuns.EnqueuedKeepsAll | operator/pallets/external-validator-slashes/src/lib.rs:727-755 | queueing in batches keeps every slash once and in order, and leaves some out only in front of a full queue |
| SlashRuns.QueueingKeepsInv | operator/pallets/external-validator-slashes/src/lib.rs:727-755 | when an era starts each slash of its bucket becomes queued or reported as left out, exactly once |
| SlashRuns.EraStartExtends | operator/pallets/external-validator-slashes/src/lib.rs:727-755 | an era start appends batches of its era, none empty and all but the last of the configured size, or of one where that is 0 |
| SlashRuns.BatchesWithinLimits | operator/pallets/external-validator-slashes/src/lib.rs:727-755 | over every run each queued batch holds between one slash and the configured size, or one where that is 0 |
| SlashReports.EraStartQueues | operator/pallets/external-validator-slashes/src/lib.rs:727-755 | an era start queues its bucket in order, leaves out a tail only in front of a full queue, and reports a full queue exactly then |
| SlashReports.BondPrunes | operator/pallets/external-validator-slashes/src/lib.rs:684-723 | an era start drops exactly the bonded eras older than the bonding period, with their buckets and fractions, and keeps all of the others |
| SlashReports.ReportCharges | operator/pallets/external-validator-slashes/src/lib.rs:529-677 | for every report: the charges it adds are exactly, in order, the handed offenders that are tagged at their turn and not invulnerable, each with the era in force at the session and its own fraction, reporters and kind, when slashing is enabled and the report passes the filter, and none otherwise; and which tags are left |
| SlashReports.EarlyOffenceIgnored | operator/pallets/external-validator-slashes/src/lib.rs:565-579 | the handler ignores an offence from before all bonded eras |
| SlashReports.InjectOutcome | operator/pallets/external-validator-slashes/src/lib.rs:399-448 | an injection succeeds if and only if its era is known and not to come and its fraction exceeds all charged; it then charges once and makes one slash; otherwise nothing changes |
| SlashReports.CancelOutcome | operator/pallets/external-validator-slashes/src/lib.rs:357-395 | each answer of a cancellation if and only if: era within the deferral, positions given, strictly rising, and in the bucket |
| SlashReports.CancelRemoves | operator/pallets/external-validator-slashes/src/lib.rs:357-395 | a successful cancellation cancels and removes exactly the slashes at the given positions |
| SlashReports.RetryOutcome | operator/pallets/external-validator-slashes/src/lib.rs:452-486 | a manual retry succeeds if and only if a batch of the era is queued and the message goes out; the first such batch leaves the queue, delivered |
| SlashFates.SlashDelivery | operator/pallets/external-validator-slashes/src/lib.rs:684-755 | over every run each id given out is delivered, queued or left out, once in all, if and only if it was not cancelled, its bucket's era has started and its call was on time; it is left out only with a queue-full event, and no other id is sent |
| SlashFates.CallRecords | operator/pallets/external-validator-slashes/src/lib.rs:399-448 | a call makes slashes of one era and one origin only, in the bucket of that era, of the active era and of the kind of call |
| SlashFates.SlashFate | operator/pallets/external-validator-slashes/src/lib.rs:649-665 | from the call to the end of any run: a report's or injection's slash is sent if and only if the call was on time |
| SlashFates.LateSlashLost | operator/pallets/external-validator-slashes/src/lib.rs:727-755 | a slash that was not on time is not sent, whatever calls follow |
| SlashFates.InjectionLost | operator/pallets/external-validator-slashes/src/lib.rs:399-448 | the lost slash: nothing deferred, one era later, an injection for era 0 |
| SlashRuns.RetriedWithinDistance | operator/pallets/external-validator-slashes/src/lib.rs:865-907 | a batch that is queued once, at distance i, is attempted or gone within i + 1 blocks, whatever falls in between |
| SlashRuns.RetryFairness | operator/pallets/external-validator-slashes/src/lib.rs:865-907 | in every reachable state no batch is queued twice, and the one at distance i is attempted or gone within i + 1 further blocks |
| SlashFractions.MaxChargedIsMax | operator/pallets/external-validator-slashes/src/lib.rs:939-973 | the reference maximum bounds every charged fraction and is one of them |
| SlashFractions.MaxInEra | operator/pallets/external-validator-slashes/src/lib.rs:939-973 | until an era is pruned the stored fraction is the maximum charged by reports and injections; the slashes made are those of the charges above all earlier ones, in order, with strictly rising percentages; and every stored or queued slash has the validator, percentage, reporters, kind and confirmation of its charge, under the era it is due in |
| SlashMessages.WadIffShare | operator/pallets/external-validator-slashes/src/lib.rs:757-772 | the amount sent is the fraction of the maximum, rounded down, if and only if the product stays within 128 bits; it never exceeds the maximum |
| SlashMessages.MessagesTruthful | operator/pallets/external-validator-slashes/src/lib.rs:757-804 | over every run the delivered slashes are those of the messages, in order, and each message gives for each of its slashes the validator, the amount and the description of the charge it was made for, under the era it was due in |
| SlashChain.OffenceAttribution | operator/pallets/external-validator-slashes/src/lib.rs:549-579 | in every reachable state the bonded eras are exactly the last ones up to the active era; a report behind the filter is charged to the one era in force at its session, by fast path and search alike, and the search never comes up empty |
| SlashChain.ReportAttribution | operator/pallets/external-validator-slashes/src/lib.rs:529-677 | in every reachable state a report charges, in the one era in force at its session, exactly the handed offenders that are tagged at their turn and not whitelisted, while slashing is enabled and the era is bonded |
| SlashChain.InjectableEras | operator/pallets/external-validator-slashes/src/lib.rs:399-415 | in every reachable state an injection finds the start of exactly the eras planned within the history depth |
| SlashChain.SlashAccounting | operator/pallets/external-validator-slashes/src/lib.rs:684-755 | where the eras come from the session driver, every id given out is sent if and only if it was not cancelled, its bucket's era has started and its call was on time |
| SlashesPallet.RemoveIndices | operator/pallets/external-validator-slashes/src/lib.rs:374-393 | for every strictly increasing in-range list, removal from the highest index down stays in bounds and leaves exactly the slashes at unnamed positions, in order |
| SlashesPallet.SlashesPallet.CancelDeferredSlash | operator/pallets/external-validator-slashes/src/lib.rs:357-395 | cancelling in place, with its four errors in order |
| SlashesPallet.SlashesPallet.ComputeAndPlace | operator/pallets/external-validator-slashes/src/lib.rs:939-973 | a slash is made if and only if the fraction exceeds the stored one, which it then replaces |
| SlashesPallet.SlashesPallet.FindSlashEra | operator/pallets/external-validator-slashes/src/lib.rs:549-579 | the reverse search returns the latest bonded era that had started |
| SlashesPallet.SlashesPallet.HandleOffence | operator/pallets/external-validator-slashes/src/lib.rs:529-677 | the offender loop in place; the charges are those of SlashReports.ReportCharges |
| SlashesPallet.SlashesPallet.ReportOffence | operator/pallets/external-validator-slashes/src/lib.rs:1016-1049 | discards reports from before the bonded eras, tags the named accounts of the others, and untags them when the report is rejected; the handler gets the list the offences pallet passes |
| SlashesPallet.SlashesPallet.PruneEras | operator/pallets/external-validator-slashes/src/lib.rs:704-714 | clears the fractions and the bucket of each era that leaves the bonding period |
| SlashesPallet.SlashesPallet.BondEra | operator/pallets/external-validator-slashes/src/lib.rs:691-720 | enters the era as bonded and prunes those that leave the bonding period |
| SlashesPallet.SlashesPallet.QueueEraSlashes | operator/pallets/external-validator-slashes/src/lib.rs:727-755 | the batch loop in place, until all is queued or the queue is full |
| SlashesPallet.SlashesPallet.EraStarted | operator/pallets/external-validator-slashes/src/lib.rs:684-723 | the era hook in place |
| SlashesPallet.SlashesPallet.ProcessSlashesQueue | operator/pallets/external-validator-slashes/src/lib.rs:865-907 | the block hook in place: the head batch is sent, with its message recorded, or rotated |
| SlashesPallet.SlashesPallet.RetryUnsentSlashEra | operator/pallets/external-validator-slashes/src/lib.rs:452-486 | the manual retry in place, with its two errors |

## Left out

- Integer limits of era, session and slash-id counters: they are natural numbers, so saturation at the end of u32 is not modelled; points, counters and slots keep their width.
- The sum of a session's block counts is exact; a sum above u32::MAX, which overflows in the code, is not modelled.
- Clearing an era's fractions with a limit: what may stay behind is a parameter, and pruned eras are outside the max-in-era claim.
- Hash functions, SSZ, Merkle branch arithmetic, BLS and fork versions: function values with stated assumptions.
- The ring map of finalized states beyond the presence of a key right after its insertion.
- Fee refunds of the light client (`check_refundable`).
- Receipt and log verification of the light client, and its bit decompression.
- `calculate_scaled_inflation` and the mint itself: the minted amount is a parameter.
- The slashing check of the award loop, which the code has disabled.
- Encoding of Snowbridge messages: a message is the data it is built from. The text of a custom offence is taken as valid UTF-8.
- Parameters that governance can change (weights, caps, `MaxSlashWad`) are fixed within a run.
- Weights, logging, benchmarks, origins and events that carry no state.
- `datahaven-native-transfer`, `inbound-queue-v2`, `outbound-queue-v2`, the node and the runtime configuration.
