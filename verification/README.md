# The settlement runtime, modelled and proved

The off-chain runtime of a cover protocol settles incidents. A job service admits settlement jobs,
launches workers for them and keeps their results; workers read the chain, score claimants, allocate
payouts and commit to them. This project models that runtime and proves what it promises. `dafny
verify dfyconfig.toml` checks all of it.

The modules follow the components.

- **Jobs** (`JobTypes`, `AdmissionLedger`, `JobMachine`, `JobInvariant`, `JobSteps`, `JobDenial`,
  `JobSafety`, `JobProgress`, `JobResumption`, `JobPublication`). Invocations are program counters
  over a versioned store that changes only by compare-and-swap; one step of any invocation happens at
  a time. `JobSafety` states the safety results over whole runs. The last three modules state what
  one undisturbed call brings about from any reachable state. The results about completion, evidence
  and the hourly limit hold for any clock readings; the result about denials assumes one monotone
  64-bit clock and invocations of at most 900 s. A compare-and-swap may be refused without
  contention, or be reported as refused although it took effect (`ConditionalStore`, also for the
  advisory cache).
- **Score** (`ScoreCore`, `ScoreMeaning`, `ScoreLedger`, `FlowMerge`, `ScoreRaw`, `Benchmark`,
  `BenchmarkReader`, `ScoreReplay`, `ScoreSources`, `ScoreUnits`, `ScorePersist`, `ScoreResume`,
  `Decimals`). The specification is a sum over blocks, rounded down once per rate segment. The raw,
  bulk, checkpointed and resumed routes and the benchmark's closed form are proved equal to it on
  every valid ledger, and `ScoreUnits` says what it is worth in whole units of the token.
- **Chain reads** (`LogReader`, `ChainReads`, `Twap`). The provider is an arbitrary function of the
  request number and range; completeness below the cap is a hypothesis.
- **Settlement kernel** (`FloorMath`, `Allocation`, `AllocationMeaning`, `Allocator`,
  `AllocationLaws`, `AllocationOrder`, `Sorting`, `Merkle`, `MerkleBinding`, `ClaimSet`, `Settlement`,
  `SettlementRun`, `CommitmentFormat`). `AllocationMeaning` says in exact arithmetic what a claim is
  entitled to, and `CommitmentFormat` what the hashes commit to. The hash is a parameter;
  collision-freedom is a hypothesis of the binding results only, and `CollisionFreeHashExists`
  shows that it can be met.
- **Incident opening** (`IncidentOpen`), **recipient envelopes** (`Asn1`, `RecipientCms`,
  `EnvelopeParser`), **advisory cache** (`AdvisoryCache`, `AdvisorySafety`, `AdvisoryProgress`),
  **accepted settlements** (`AbiCall`, `TraceWalk`) and **released instances** (`InstanceInventory`).

Big integers are `nat`; 64-bit limits are written out where the code checks or saturates. Each method
is proved against a specification function, and the lemmas are about that function. Identifiers that
the job service derives with SHA-256 and HMAC are constructors, that is, collision-free.

Three results are worth knowing beyond the promises themselves.

- The advisory cache's 60 s spacing of refreshes rests on a saturating addition. Two refreshes are
  60 s apart exactly when the earlier attempt's clock reading plus 60 fits 64 bits
  (`AdvisorySafety.RefreshesSpaced`); after any later reading a second refresh can start at the
  clock's last second (`AdvisorySafety.SaturationClosesTheGap`).
- The log reader's request and bisection budgets cannot trip for chunks of up to 1,024 blocks, and one
  of them does beyond that when a provider refuses every range; the settlement uses 1,000. Its time
  and transport-attempt budgets depend on the provider.
- A row's amounts, re-priced, may exceed its payout, because pool USD is itself rounded down
  (`AllocationLaws.RowMayExceedPayout`). The excess is less than one per pool, and no split exceeds
  its payout exactly when every pool's balance is worth a whole number (`SplitsAreCovered`).

## Model

| member | source | states |
|---|---|---|
| JobSafety.DeniedWasNeverLaunched | offchain-rust/job-api/src/lib.rs:1340-1395 | in every interleaving of invocations that read one monotone clock and live at most 900 s, an attempt that any version of its record marks as denied was never launched |
| JobSafety.LaunchIsReserved | offchain-rust/job-api/src/lib.rs:1340-1386 | every launch has a committed reservation whose deadline is that of a stored attempt, and the slot stays until 900 s after that deadline |
| JobSafety.CompletionIsFinal | offchain-rust/job-api/src/lib.rs:1578-1614 | once a work record is sealed as completed no later step of any run changes it |
| JobSafety.OneAttemptIsSealed | offchain-rust/job-api/src/lib.rs:1242-1268 | at most one attempt of a work id is ever sealed, over any run and continuation |
| JobSafety.SealedHasEvidence | offchain-rust/job-api/src/lib.rs:1638-1662 | a sealed attempt has both retained objects, the request as stored and bytes that verified: for a settlement, the completed terminal of that job which locates the requested incident on the configured contracts |
| JobSafety.SettlementKeyIsSealedEvidence | offchain-rust/job-api/src/lib.rs:1664-1706 | what stands under a shared settlement key locates that key, settles the request of the one sealed attempt it names, is that attempt's retained evidence, and never changes |
| JobSafety.AdmissionIsBounded | offchain-rust/job-api/src/lib.rs:1053-1152 | for any clock readings, every closed 3600 s window over the whole charge history holds at most the policy's starts; slots are distinct by job and within the worker limit |
| JobSafety.LaunchesArePaid | offchain-rust/job-api/src/lib.rs:1119-1152 | in every run a launched job was reserved and a reserved one charged, so there are at most as many launches as reservations ever made and as many of those as charges; of the jobs charged within one hour at most the policy's starts are launched |
| JobSafety.ChargedOnce | offchain-rust/job-api/src/lib.rs:1076-1152 | in timely runs no job is charged twice: every reserved job, and so every launched one, owns a charge of its own |
| JobSafety.ReachableIsSafe | offchain-rust/job-api/src/lib.rs:1190-1400 | every state of every run satisfies the joint invariant of records, evidence, settlements and ledger |
| JobSafety.TimelyReachable | offchain-rust/job-api/src/lib.rs:1340-1395 | every state of every timely run also satisfies the clock fence |
| JobSafety.ApplyTimed | offchain-rust/job-api/src/lib.rs:1190-1400 | one step of any invocation, a clock tick or an arrival keeps the clock fence |
| JobProgress.SubmitLaunches | offchain-rust/job-api/src/lib.rs:1190-1400 | from any reachable state, an undisturbed submission whose work has no attempt, or a denied, expired or failed one, makes the next attempt; with room (fewer charges in the last hour and fewer slots that still count than the policy allows) it is reserved with its deadline, charged once, launched and marked so, without room it is marked denied and nothing is launched |
| JobProgress.NewJobIsNew | offchain-rust/job-api/src/lib.rs:1269-1310 | the next attempt's job is known to no request, reservation, slot or launch |
| JobProgress.RoomDecides | offchain-rust/job-api/src/lib.rs:1087-1131 | the ledger's reading denies a job exactly when the history leaves no room |
| JobResumption.SubmitResumes | offchain-rust/job-api/src/lib.rs:1203-1400 | an attempt that stalled before its launch is launched by the next undisturbed submission: on the slot it holds without another charge, or else as there is room |
| JobResumption.SubmitLeavesAlone | offchain-rust/job-api/src/lib.rs:1203-1292 | a submission whose newest attempt is going on, or whose completion cannot be judged or is no good before it expires, changes nothing |
| JobResumption.SubmitRefusesUnreadable | offchain-rust/job-api/src/lib.rs:1203-1230 | a record that the service cannot read is left as it is |
| JobPublication.SubmitPublishes | offchain-rust/job-api/src/lib.rs:1231-1268 | from any reachable state, an undisturbed submission of a settlement whose newest attempt has an accepted completion retains both objects, seals the record and publishes the bytes under the shared key, and writes nothing else |
| JobPublication.PollPublishes | offchain-rust/job-api/src/lib.rs:1404-1478 | so does an undisturbed poll of that job |
| JobPublication.SubmitRepublishes | offchain-rust/job-api/src/lib.rs:1231-1268 | a submission of a sealed settlement publishes it if that is still missing |
| JobPublication.PollRepublishes | offchain-rust/job-api/src/lib.rs:1404-1478 | so does a poll |
| JobPublication.SubmitSealsOpen | offchain-rust/job-api/src/lib.rs:1231-1268 | an undisturbed submission of an opening request whose newest attempt has its completion retains both objects and seals the record, and publishes nothing |
| JobPublication.PollRetainsOpen | offchain-rust/job-api/src/lib.rs:1404-1478 | a poll of such a job retains both objects and no more |
| JobSteps.NextKeeps | offchain-rust/job-api/src/lib.rs:1190-1706 | a step of submit, poll, retain, seal or publish keeps every invariant and only extends what other invocations rely on |
| JobSteps.ApplyKeeps | offchain-rust/job-api/src/lib.rs:1190-1706 | every action keeps the invariant and the facts of all other invocations |
| JobSteps.RunKeeps | offchain-rust/job-api/src/lib.rs:1190-1706 | whole runs keep the invariant; records, evidence, settlement keys and charges only grow |
| JobSteps.InitialIsSafe | offchain-rust/job-api/src/lib.rs:974-995 | the empty store satisfies the invariant |
| JobSteps.SealKeeps | offchain-rust/job-api/src/lib.rs:1578-1614 | sealing by compare-and-swap keeps one sealed attempt per work id, whose evidence exists |
| JobSteps.PublishKeeps | offchain-rust/job-api/src/lib.rs:1664-1706 | creating a settlement key publishes only a sealed attempt's verified bytes |
| JobSteps.CommitKeeps | offchain-rust/job-api/src/lib.rs:1119-1152 | the ledger's compare-and-swap keeps the ledger accounted for by the committed charges, or records the denial |
| JobSteps.JudgeKeeps | offchain-rust/job-api/src/lib.rs:1203-1292 | reading a work record and deciding to resume, retry, seal or start keeps the invariant |
| JobSteps.VerifyKeeps | offchain-rust/job-api/src/lib.rs:1242-1248 | only bytes that pass the verification right before retention go on to be retained |
| JobSteps.PollKeeps | offchain-rust/job-api/src/lib.rs:1404-1478 | polling keeps the invariant and leads only to sealing what verified |
| JobDenial.NextTimed | offchain-rust/job-api/src/lib.rs:1190-1400 | a timely step of any kind keeps reservations fenced, cleared jobs reserved, and denied jobs never cleared |
| JobDenial.CommitTimed | offchain-rust/job-api/src/lib.rs:1119-1152 | committing a ledger keeps every live reservation fenced |
| JobDenial.MarkTimed | offchain-rust/job-api/src/lib.rs:1348-1392 | recording a denial or a launch keeps the clock fence |
| JobDenial.DeniesUncleared | offchain-rust/job-api/src/lib.rs:1348-1367 | a denial that takes effect marks a job that no invocation ever cleared for launch |
| JobDenial.LaunchTimed | offchain-rust/job-api/src/lib.rs:1371-1386 | a launch happens only for a job cleared at its record's newest version |
| JobDenial.LiveJobIsHeld | offchain-rust/job-api/src/lib.rs:1076-1086 | an invocation that can still act on a reserved job finds its slot in the ledger |
| JobDenial.PruneRespectsFence | offchain-rust/job-api/src/lib.rs:1087-1114 | pruning removes no slot before its launch deadline plus 900 s |
| JobInvariant.ContentsIdentifyRevision | offchain-rust/job-api/src/lib.rs:1338-1378 | equal contents of a work record mean the same version, so comparing bytes and using the revision read with them is sound |
| JobInvariant.AppendKeeps | offchain-rust/job-api/src/lib.rs:735-752 | a compare-and-swap on the newest revision keeps the record orderly |
| AdmissionLedger.LedgerDraft.Reserve | offchain-rust/job-api/src/lib.rs:1054-1131 | the loops over reservations and starts compute exactly the admission decision and the ledger it proposes |
| AdmissionLedger.AdmitKeepsAccounts | offchain-rust/job-api/src/lib.rs:1053-1152 | a proposed ledger is accounted for by the history its compare-and-swap would commit |
| AdmissionLedger.AdmitKeepsSlots | offchain-rust/job-api/src/lib.rs:1087-1131 | a proposal keeps slots distinct by job and within the limits |
| AdmissionLedger.PruneKeepsHistory | offchain-rust/job-api/src/lib.rs:1115-1118 | the pruned list of starts still decides every window of the whole history |
| AdmissionLedger.RecentIsSuffix | offchain-rust/job-api/src/lib.rs:1115-1118 | the starts that survive pruning are the most recent ones |
| AdmissionLedger.HourlyLimit | offchain-rust/job-api/src/lib.rs:1115-1131 | any closed window over the history holds at most the permitted starts |
| ScoreMeaning.AdvanceKeepsSnapshot | offchain-rust/score-core/src/lib.rs:74-109 | advancing over blocks of constant balance turns the state of a replay into the state of the longer one: no rate segment is rounded early |
| ScoreMeaning.SegmentStep | offchain-rust/score-core/src/lib.rs:87-107 | one pass of the loop over rates finishes or extends exactly one segment |
| ScoreMeaning.ProjectionIsNumerator | offchain-rust/score-core/src/lib.rs:132-146 | projecting a replay's state to a later block gives the per-block sum, scaled and floored once per rate segment |
| ScoreMeaning.NumeratorSplits | offchain-rust/score-core/src/lib.rs:59-72 | completed segments and the active one together are the specified numerator |
| ScoreMeaning.RateForIsIndexed | offchain-rust/score-core/src/lib.rs:51-57 | looking a segment up by its first block finds that segment's rate |
| ScoreMeaning.AppendedRatesAreInvisible | offchain-rust/score-api/src/lib.rs:325-360 | rates that start after the cursor leave the state at the cursor as it is |
| ScoreMeaning.StartMayBeLate | offchain-rust/src/checkpoint.rs:225-234 | starting at the first contributing segment loses nothing |
| ScoreCore.TimesIsProduct | offchain-rust/score-core/src/lib.rs:43-49 | the product used in the proofs is the arithmetic one |
| ScoreCore.AccountScore.AdvanceAccount | offchain-rust/score-core/src/lib.rs:74-109 | the loop over rates in place, with its three errors |
| ScoreLedger.BalanceBetween | offchain-rust/src/chain.rs:1719-1808 | the balance between two transfers is the holdings after the earlier one |
| ScoreLedger.FollowsTransfer | offchain-rust/src/checkpoint.rs:583-622 | applying a transfer, in one leg or two, moves a faithful state to the next faithful state |
| ScoreLedger.FollowsSkips | offchain-rust/score-api/src/lib.rs:412-425 | a transfer that moves nothing of the account may be skipped |
| ScoreLedger.LegsAgree | offchain-rust/src/checkpoint.rs:670-690 | both legs in turn equal the net flow at once |
| FlowMerge.MergeFlows | offchain-rust/src/chain.rs:1462-1474 | the queries for sent and for received transfers, merged, hold one entry for each position that touches the account, in order; a self-transfer flows both ways |
| ScoreRaw.TokenBlockIntegral | offchain-rust/src/chain.rs:1719-1808 | the raw replay of the merged queries: its area, its underflow and its closing-balance check |
| ScoreRaw.RawIsPerBlockSum | offchain-rust/src/chain.rs:1719-1808 | on a valid ledger the raw replay is the per-block balance sum and its check passes |
| ScoreRaw.WindowIsExact | offchain-rust/src/chain.rs:1906-1975 | a window holds exactly the transfers of its blocks |
| ScoreRaw.SegmentScore | offchain-rust/src/chain.rs:1821-1846 | one segment's contribution; segments without a rate or blocks contribute nothing |
| ScoreRaw.EarnedNumerator | offchain-rust/src/chain.rs:1810-1853 | the raw route gives the specified numerator |
| ScoreUnits.ScaledIs | offchain-rust/score-core/src/lib.rs:43-49 | an integral in base units times 10^18, divided by the token's unit: exact up to 18 decimals, rounded down beyond |
| ScoreUnits.NumeratorIs | offchain-rust/src/chain.rs:1810-1853 | the numerator of every route is the sum over blocks of balance times rate, moved to 18 decimals: exactly up to 18, beyond with less than one rate lost per segment |
| ScoreUnits.GrossScoreIs | offchain-rust/src/chain.rs:1810-1853 | over tokens of up to 18 decimals the gross score is that sum in whole units of each token, rounded down once |
| ScoreUnits.GrossScoreOfOne | offchain-rust/src/chain.rs:1810-1853 | for one token: balance times rate over blocks, divided by the token's unit |
| ScoreUnits.SameUnitsSameScore | offchain-rust/score-core/src/lib.rs:43-49 | equal holdings in whole units earn the same, whatever the decimals |
| ScoreLedger.TransferMoves | offchain-rust/src/checkpoint.rs:583-622 | a transfer moves its value from one account to another and touches no third |
| Benchmark.TokenHistory.ApplyLogs | offchain-rust/bench/real_history.py:52-95 | all six accumulators after the logs, deduplicated by transaction and index and put in order; a log outside the blocks ends it after the ones before |
| Benchmark.OnceIsWindow | offchain-rust/bench/real_history.py:60-72 | whatever the order and the repetitions of a complete report, what is applied is the window's logs, each once and in order |
| Benchmark.ClosedFormIsPerBlockSum | offchain-rust/bench/real_history.py:36-37 | the closed form of start balance and weighted deltas is the same per-block sum |
| Benchmark.BenchmarkIntegral | offchain-rust/bench/real_history.py:20-95 | from any complete report the benchmark's integral, closing balance, transfer count and flows are the chain's |
| BenchmarkReader.FetchIsComplete | offchain-rust/bench/real_history.py:129-173 | bisecting ranges and then filter alternatives, a successful read holds exactly the wanted logs, each once if no alternative is listed twice |
| BenchmarkReader.FetchSucceeds | offchain-rust/bench/real_history.py:129-173 | it succeeds if no failure forbids splitting and every query that cannot be narrowed is answered below the cap |
| BenchmarkReader.HalvesPartition | offchain-rust/bench/real_history.py:98-126 | each log that a filter wants is wanted by exactly one half of it |
| ScoreReplay.TokenState.ApplyTransfers | offchain-rust/src/checkpoint.rs:670-692 | the loop over a slice's transfers, stopping at the first failure |
| ScoreReplay.TokenState.AdvanceSlices | offchain-rust/src/checkpoint.rs:651-697 | the loop over slices is the replay of the whole range, however it is sliced |
| ScoreReplay.TokenState.AdvanceToken | offchain-rust/src/checkpoint.rs:625-704 | the token's new accounts, cursor and rates, and its refusals |
| ScoreReplay.ReplaySlices | offchain-rust/src/checkpoint.rs:651-697 | any slicing of a range replays the same transfers in the same order |
| ScoreReplay.FilterChangesNothing | offchain-rust/src/checkpoint.rs:653-668 | reading only the tracked accounts' transfers gives the same accounts |
| ScoreSources.BlocksKeep | offchain-rust/src/checkpoint.rs:625-704 | on a valid ledger no leg fails and every tracked account stays the replay of its balances |
| ScoreSources.StopsAreInvisible | offchain-rust/src/checkpoint.rs:717-815 | stopping at any cursor and resuming under rates that start after it gives exactly the accounts of one uninterrupted replay |
| ScoreSources.ValidateStored | offchain-rust/src/checkpoint.rs:537-572 | a stored token is accepted exactly when decimals match and the current rates extend the stored ones after the cursor |
| ScoreSources.OpenToken | offchain-rust/src/checkpoint.rs:717-815 | a token opens exactly when it is resumable (matching decimals, an extended history, a block hash that the chain still has, a cursor not ahead), and then indexes the ledger to the requested block and can be resumed again |
| ScoreSources.CheckpointNumerator | offchain-rust/src/checkpoint.rs:831-858 | the balance check passes and the projection is the specified numerator |
| ScoreSources.FirstContributingSuffices | offchain-rust/src/checkpoint.rs:225-238 | a replay from the first contributing block, or none when there is none, gives the full numerator |
| ScoreSources.FirstsAgree | offchain-rust/score-api/src/lib.rs:463-469 | the two ways of finding the first contributing block agree on ascending rates |
| ScoreSources.BulkNumerator | offchain-rust/src/checkpoint.rs:869-990 | the bulk replay succeeds exactly for a tracked claimant, no zero address, ascending rates and a nonzero range, and gives the specified numerator |
| ScoreSources.RawScore | offchain-rust/src/chain.rs:1810-1853 | the raw gross score over all tokens |
| ScoreSources.BulkScore | offchain-rust/src/checkpoint.rs:994-1014 | the bulk gross score, exactly for tracked claimants: the same one |
| ScoreSources.CheckpointScore | offchain-rust/src/checkpoint.rs:831-858 | the checkpoint gross score, from checkpoints stored at any time under any earlier rates: the same one, whenever every contributing token is resumable, and only then |
| Decimals.PrintIsCanonical | offchain-rust/src/checkpoint.rs:196-213 | printed numbers are canonical and read back |
| Decimals.PrintIsDecimal | offchain-rust/src/checkpoint.rs:196-213 | the text of a number is that of its tens followed by its last digit |
| Decimals.CanonicalIsPrinted | offchain-rust/src/checkpoint.rs:196-207 | each number has one accepted text |
| ScorePersist.AccountRoundTrip | offchain-rust/score-api/src/lib.rs:299-323 | printing and parsing an account are inverse in both directions, within 64-bit block numbers |
| ScorePersist.RatesRoundTrip | offchain-rust/score-api/src/lib.rs:275-297 | printing and parsing a rate history are inverse in both directions, for ascending histories |
| ScorePersist.SavedTokenReadsBack | offchain-rust/src/checkpoint.rs:240-395 | a saved token reads back as itself exactly when it is well formed |
| ScorePersist.AcceptedTokenIsSaved | offchain-rust/src/checkpoint.rs:281-395 | whatever the file parser accepts is the text of a well-formed token |
| ScorePersist.IndexedTokenReadsBack | offchain-rust/src/checkpoint.rs:240-395 | every token that indexes the ledger survives a save and a load |
| ScoreResume.AcceptedExactly | offchain-rust/score-api/src/lib.rs:325-359 | the service accepts exactly the text of a state at its own cursor under a history that the current one extends after it |
| ScoreResume.CheckpointCell.AdvanceTokenCheckpoint | offchain-rust/score-api/src/lib.rs:382-435 | the stored record after an advance, or the first error and no change |
| ScoreResume.OwnReplayIs | offchain-rust/score-api/src/lib.rs:399-430 | replaying the chain's transfers moves from one uninterrupted replay to a later one |
| ScoreResume.ResumeIsUninterrupted | offchain-rust/score-api/src/lib.rs:382-435 | stopping anywhere, printing, re-parsing, appending later rates and resuming gives the record of one uninterrupted replay, for any decimals |
| ScoreResume.ResumingTwice | offchain-rust/score-api/src/lib.rs:382-435 | stopping once more on the way, under a history that grew in between, changes nothing |
| ScoreResume.ScoreToken | offchain-rust/score-api/src/lib.rs:495-591 | one token of the service: it answers exactly when the stored cursor is not ahead, with the specified numerator and a faithful record |
| ScoreResume.ScoreToBlock | offchain-rust/score-api/src/lib.rs:495-591 | all tokens of a user: it answers exactly when no needed record is ahead of the target, with the numerator of the raw, bulk and checkpoint sources and one resumable record for each contributing token |
| ScoreResume.AnswersFeedCalls | offchain-rust/score-api/src/lib.rs:495-591 | the records of an answer meet the demands of any later call under histories that grew after its block |
| ScoreResume.StartIsStable | offchain-rust/score-api/src/lib.rs:463-469 | a stored record started where a cold replay of the longer history would |
| ScoreResume.AllocateTokenScores | offchain-rust/score-api/src/lib.rs:139-151 | per-token scores are the floors, the last takes what flooring lost (less than one per token), and they add up to the gross score |
| ScoreResume.FloorsFallShort | offchain-rust/score-api/src/lib.rs:139-151 | flooring each token loses less than one unit per token |
| ChainReads.BlockAtOrBefore | offchain-rust/src/chain.rs:181-206 | bisection finds the last block whose timestamp is not after the given one, or block 1 |
| ChainReads.ApplyDeltas | offchain-rust/src/chain.rs:1476-1501 | the running balance and minimum, with underflow |
| ChainReads.MinBalanceOver | offchain-rust/src/chain.rs:1504-1571 | the minimum is the least the account held after any transfer of the window, so no block's balance is below it |
| ChainReads.TransfersForAccounts | offchain-rust/src/chain.rs:1906-1975 | two queries per batch, merged by position: exactly the transfers that touch an account, once each, in order |
| Twap.TwapRatioBefore | offchain-rust/src/chain.rs:1855-1893 | the mean of the ratios every step blocks from the start of the lookback to the reference; the sample count cannot overflow |
| Twap.TwapIsBaseline | offchain-rust/src/chain.rs:1855-1893 | over a discovered incident's window its samples are the discovery's baseline samples and the reference block |
| Twap.MeanWithin | offchain-rust/src/chain.rs:1888-1892 | the mean lies between any bounds on the sampled ratios |
| LogReader.Ask | offchain-rust/src/rpc.rs:875-969 | one range: its query, the receipts of a single block, and the looks at time and transport attempts around them |
| LogReader.ReadChunk | offchain-rust/src/rpc.rs:867-976 | a chunk of n blocks is read completely with at most 4n-1 requests and n-1 bisections, so up to 1,024 blocks neither the request nor the bisection budget can trip; a provider that refuses every range costs exactly that much, so beyond 1,024 blocks one of them does; a deadline or transport error needs a reading at or past its limit, and attempts within the permitted retries never reach theirs |
| LogReader.GetLogsChunked | offchain-rust/src/rpc.rs:843-995 | a successful read is exactly the ledger's logs of the range, each once and in order, whatever was refused or capped; with chunks of up to 1,024 blocks there is no request or bisection error, and a reliable provider that spares time and attempts gives success |
| LogReader.HasDuplicate | offchain-rust/src/rpc.rs:982-992 | the duplicate check over positions |
| LogReader.SortedRange | offchain-rust/src/rpc.rs:980-992 | sorted and duplicate-free, the collected logs are the ledger's range |
| Allocator.Allocate | offchain-rust/src/lib.rs:454-565 | the three loops give the specified rows and pool totals, exactly for valid policies; every row is what its claim is entitled to (Fair) and every pool total what the rows take from the pool, grossed up (PaidInFull) |
| Allocator.SetPayouts | offchain-rust/src/lib.rs:535-544 | payouts by relative boosted score, capped by covered loss |
| Allocator.SplitOverPools | offchain-rust/src/lib.rs:546-565 | amounts by pool value, pool totals grossed up |
| Allocator.RecheckTotals | offchain-rust/src/artifact.rs:99-127 | the independent recheck accepts exactly full-width rows whose grossed sums are the pool totals |
| Allocator.AllocateAndRecheck | offchain-rust/src/artifact.rs:99-127 | every allocation passes the recheck |
| AllocationMeaning.RowsAreFair | offchain-rust/src/lib.rs:495-561 | a claim spends at most what it asks for and what is left of its earned score, and reaches one of the two if anything is eligible; boost, loss, payout and split are each bounded on both sides in exact arithmetic: the payout is within the covered loss and the claim's share of the budget and less than one short of one of them |
| AllocationMeaning.TotalsArePaid | offchain-rust/src/lib.rs:546-565 | a pool pays what its rows take and the protocol's share on top, less than one base unit per row short |
| AllocationLaws.PoolUsdIsWorth | offchain-rust/src/lib.rs:531-533 | pool USD undercounts the balances by less than one per pool |
| AllocationLaws.PoolCeiling | offchain-rust/src/lib.rs:531-565 | for every pool, the total paid times 10000 is at most its balance times the payout limit, through all six floors and any number of claims |
| AllocationLaws.PayoutsWithinBudget | offchain-rust/src/lib.rs:531-544 | the payouts together stay within the users' budget |
| AllocationLaws.RepricingBounds | offchain-rust/src/lib.rs:546-561 | re-pricing a split exceeds the payout by less than one per pool and falls short by at most one base unit per pool (rounded down: less than one more per pool) |
| AllocationLaws.RowRepricing | offchain-rust/src/lib.rs:531-561 | the same for every allocated row |
| AllocationLaws.SplitsAreCovered | offchain-rust/src/lib.rs:531-561 | no payout's split is worth more than the payout exactly when every pool's balance is worth a whole number |
| AllocationLaws.RowMayExceedPayout | offchain-rust/src/lib.rs:531-561 | an allocation whose row is worth more than its payout |
| AllocationOrder.SpendingMoreScore | offchain-rust/src/lib.rs:495-565 | raising one claim's spent score never lowers its own payout or amounts and never raises another's |
| AllocationOrder.IneligibleIsNeutral | offchain-rust/src/lib.rs:482-500 | a claim with nothing eligible, added anywhere, changes no other row and no pool total and pays nothing |
| Merkle.FoldReachesRoot | offchain-rust/src/lib.rs:418-428 | folding a proof over its node with the sorted hash gives the root, from any cell of the flat array |
| Merkle.FillTree | offchain-rust/src/lib.rs:404-413 | the two filling loops put every node in its cell |
| Merkle.WalkUp | offchain-rust/src/lib.rs:416-423 | the walk collects the sibling path |
| Merkle.BuildTree | offchain-rust/src/lib.rs:390-428 | building succeeds exactly on nonempty, distinct, 256-bit rows; every claim has one proof and it folds to the root |
| MerkleBinding.RootIgnoresOrder | offchain-rust/src/lib.rs:402-413 | the root does not depend on the order of the rows |
| MerkleBinding.ProofsIgnoreOrder | offchain-rust/src/lib.rs:402-424 | nor do the proofs, unless two leaves collide |
| MerkleBinding.BindingProofsIgnoreOrder | offchain-rust/src/lib.rs:402-424 | under a collision-free hash the proofs never depend on the order of the rows |
| MerkleBinding.EqualRootsEqualRows | offchain-rust/src/lib.rs:345-428 | under a collision-free hash equal roots mean the same incident and the same rows |
| MerkleBinding.LeafBinds | offchain-rust/src/lib.rs:345-365 | a leaf hash determines every field of its row |
| ClaimSet.ClaimSetHash | offchain-rust/src/lib.rs:273-291 | the rolling hash, or overflow exactly when a word does not fit |
| ClaimSet.EqualHashesEqualStreams | offchain-rust/src/lib.rs:273-291 | equal rolling hashes mean equal streams in every hashed field |
| ClaimSet.CollisionFreeHashExists | offchain-rust/src/lib.rs:234-238 | the hypotheses on the hash can be met |
| ClaimSet.ReplayClaimSet | offchain-rust/src/lib.rs:300-343 | exactly the well-ordered streams of 256-bit words are accepted, with the live claims in registration order; an error is the first event's fault |
| Settlement.SecondPass | offchain-rust/src/lib.rs:631-657 | after a successful replay the second pass's register and cancel errors cannot occur |
| Settlement.OrderedInput | offchain-rust/src/lib.rs:622-688 | allocation is reached exactly when the stream is well ordered and the resolved claims are its live registrations, field for field |
| Settlement.InputOrderIsIrrelevant | offchain-rust/src/lib.rs:666-688 | claims come in registration order whatever the input order |
| SettlementRun.SettlementInputHash | offchain-rust/src/lib.rs:244-271 | succeeds exactly without repeated users and with 256-bit scores |
| SettlementRun.InputHashIgnoresOrder | offchain-rust/src/lib.rs:244-271 | the input hash does not depend on the order of the rows |
| SettlementRun.EqualInputHashesEqualRows | offchain-rust/src/lib.rs:244-271 | equal input hashes mean the same users with the same scores |
| SettlementRun.OrderedClaimsFit | offchain-rust/src/lib.rs:567-582 | the allocator's own claim-set words always fit |
| SettlementRun.Settle | offchain-rust/src/lib.rs:622-691 | the whole settlement succeeds exactly on the stated conditions, and its rows, totals, hashes, root and proofs are those of the live claims in registration order |
| CommitmentFormat.FoldLeads | offchain-rust/src/lib.rs:367-373 | a proof folds to the root exactly when hashing in its elements, the lesser of each pair first, leads there |
| CommitmentFormat.LeafIsEncoding | offchain-rust/src/lib.rs:345-365 | a leaf is the hash of the hash of the row's ABI-encoded arguments |
| CommitmentFormat.RootIsOfTree | offchain-rust/src/lib.rs:402-413 | the root is the first cell of the only tree over the rows' leaves in ascending order: leaves from the last cell backwards, every other cell the hash of the two below it |
| CommitmentFormat.RowIsProvable | offchain-rust/src/lib.rs:583-608 | every row of a settlement, encoded for the contract, leads to the committed root by its claim's proof |
| CommitmentFormat.InputIsEncoding | offchain-rust/src/lib.rs:244-271 | the input hash is that of two array arguments: the users in ascending order and their gross earned scores |
| CommitmentFormat.RollingIsChain | offchain-rust/src/lib.rs:273-291 | each event adds its words to the hash so far |
| IncidentOpen.Choose | offchain-rust/src/incident_open.rs:183-213 | the running sums are the windows' sums with no underflow, and the first candidate of the last qualifying run is chosen, exactly when one qualifies |
| IncidentOpen.SamplePoints | offchain-rust/src/incident_open.rs:169-181 | the sampled grid, with its overflow stop |
| IncidentOpen.WindowSums | offchain-rust/src/incident_open.rs:183-193 | a candidate's sums are the prices before and after it on the chain |
| IncidentOpen.CandidatesAreSound | offchain-rust/src/incident_open.rs:142-152 | every candidate is on the grid, within the age limit, and it and its samples are finalized |
| IncidentOpen.CandidatesAreAll | offchain-rust/src/incident_open.rs:140-153 | every block that may be the reference is a candidate |
| IncidentOpen.WindowIsSearchable | offchain-rust/src/incident_open.rs:140-171 | no window error exactly when the window can be searched, and no finalized candidate only when no block may be the reference |
| IncidentOpen.SteadyPriceNeverFell | offchain-rust/src/incident_open.rs:193-203 | a flat or rising price is never found to have fallen |
| IncidentOpen.SteepFallIsFound | offchain-rust/src/incident_open.rs:193-203 | a fall of all later prices below that part of all earlier ones is always found |
| IncidentOpen.Discover | offchain-rust/src/incident_open.rs:126-213 | for every valid configuration: a selected reference is a block around which the price fell by more than the part asked for and the candidate before it, if any, is not, the last such; insufficient drop is returned exactly when the window can be searched and the price fell so at no candidate |
| Asn1.ParseAt | offchain-rust/job-api/src/kms_recipient_cms.rs:96-169 | a successful read takes at least two bytes and stays in bounds |
| Asn1.ParseTlvAt | offchain-rust/job-api/src/kms_recipient_cms.rs:96-169 | the loops of the reader compute the specified parse of the input from its offset |
| Asn1.TreeReadsBack | offchain-rust/job-api/src/kms_recipient_cms.rs:96-169 | every valid encoding, definite or indefinite, short or long, reads back as its tag, content and size |
| Asn1.KidsReadBack | offchain-rust/job-api/src/kms_recipient_cms.rs:113-127 | the end of an indefinite value is found past all nested values |
| Asn1.LengthReadsBack | offchain-rust/job-api/src/kms_recipient_cms.rs:129-152 | every definite length written is read back |
| Asn1.ItemsReadBack | offchain-rust/job-api/src/kms_recipient_cms.rs:68-94 | the values of a content are the encoded ones in order |
| Asn1.Reader.Read | offchain-rust/job-api/src/kms_recipient_cms.rs:81-85 | a read moves past one value and stays in the input; a failed read does not move |
| Asn1.Reader.Expect | offchain-rust/job-api/src/kms_recipient_cms.rs:87-93 | a read of one tag, and what its failure says about the content |
| RecipientCms.IdentifiersAre | offchain-rust/job-api/src/kms_recipient_cms.rs:4-10 | the seven object identifiers are the encodings of their arcs |
| RecipientCms.IsOaepParameters | offchain-rust/job-api/src/kms_recipient_cms.rs:218-266 | the OAEP parameters are accepted exactly in the specified form |
| RecipientCms.CollectOctetStrings | offchain-rust/job-api/src/kms_recipient_cms.rs:186-207 | nested octet strings are joined in order within the depth limit |
| RecipientCms.ReadChunks | offchain-rust/job-api/src/kms_recipient_cms.rs:323-331 | the chunks of the encrypted content are joined in order |
| EnvelopeParser.ReadRecipient | offchain-rust/job-api/src/kms_recipient_cms.rs:297-309 | the one recipient's key, or no key fits |
| EnvelopeParser.ReadEnvelopedData | offchain-rust/job-api/src/kms_recipient_cms.rs:285-322 | the enveloped data, or none fits |
| EnvelopeParser.ParseRecipientCms | offchain-rust/job-api/src/kms_recipient_cms.rs:268-346 | an envelope is returned exactly for the messages that hold one |
| EnvelopeParser.EncodingsDecode | offchain-rust/job-api/src/kms_recipient_cms.rs:268-346 | every valid encoding of an envelope, in any length forms and any chunking, is a message that holds it |
| EnvelopeParser.ChunksReadBack | offchain-rust/job-api/src/kms_recipient_cms.rs:186-207 | any chunking of octet strings gives back the bytes |
| AdvisorySafety.RefreshesSpaced | offchain-rust/job-api/src/open_advisory_cache.rs:179-205 | in every run two refreshes are started under attempts at least 60 s apart exactly when the earlier attempt's reading plus 60 fits 64 bits; otherwise the later one reads the clock's last second |
| AdvisorySafety.SaturationClosesTheGap | offchain-rust/job-api/src/open_advisory_cache.rs:179-205 | after any attempt of the clock's last minute there is a run that starts a second refresh at the last second |
| AdvisorySafety.OnlyTheOwnerPublishes | offchain-rust/job-api/src/open_advisory_cache.rs:196-269 | a publication is written under its writer's own reservation, and nobody reserved since |
| AdvisorySafety.SnapshotsOnlyPublished | offchain-rust/job-api/src/open_advisory_cache.rs:213-262 | a snapshot is replaced only by a refreshed and checked result of the current attempt |
| AdvisorySafety.FreshMeans | offchain-rust/job-api/src/open_advisory_cache.rs:100-131 | a fresh answer is a stored result for the configuration just read, supported by its thresholds, unexpired and under 60 s old at return |
| AdvisoryProgress.RecentIsServed | offchain-rust/job-api/src/open_advisory_cache.rs:100-182 | in any run, a stored result under 60 s old for the configuration just read and supported by it is returned as fresh, and nothing is written |
| AdvisoryProgress.AttemptHoldsBack | offchain-rust/job-api/src/open_advisory_cache.rs:156-191 | within 60 s of an attempt and without such a result the stored one is shown as not fresh, if it still may be, and nothing is written |
| AdvisoryProgress.AnswersAtOnce | offchain-rust/job-api/src/open_advisory_cache.rs:100-191 | both at once: what an answer without a refresh shows, and exactly when it is fresh |
| AdvisoryProgress.RefreshIsPublished | offchain-rust/job-api/src/open_advisory_cache.rs:192-269 | otherwise an undisturbed check reserves the attempt, refreshes, publishes the supported result and returns it as fresh |
| AdvisorySafety.StepKeeps | offchain-rust/job-api/src/open_advisory_cache.rs:133-269 | every step of a check keeps the history's chain |
| AdvisorySafety.RunsAreSafe | offchain-rust/job-api/src/open_advisory_cache.rs:100-269 | so does every run of any number of checks |
| AbiCall.CallMatches | offchain-rust/job-api/src/settlement_verifier.rs:576-612 | the matcher accepts exactly the calldata that decodes to the candidate's root, payouts and signature |
| AbiCall.EncodedIsDecoded | offchain-rust/job-api/src/settlement_verifier.rs:576-612 | every canonical encoding, whatever follows it, decodes to its call |
| AbiCall.ReadSize | offchain-rust/job-api/src/settlement_verifier.rs:580-584 | a word as a machine size, with overflow |
| TraceWalk.Walk | offchain-rust/job-api/src/settlement_verifier.rs:533-569 | found only if a settlement was executed and not undone, absent only if the tree is well formed without one, an error only if it is malformed |
| TraceWalk.AcceptedIffReached | offchain-rust/job-api/src/settlement_verifier.rs:548-566 | a settlement is accepted exactly when some path of unfailed frames leads to it |
| InstanceInventory.NoActiveInstances | offchain-rust/job-api/src/admission_reconciliation.rs:23-83 | the positive answer is given exactly after the release fence on a complete inventory in which every instance is terminated, the negative one exactly before the fence or when a page shows an instance that is not; all else is unavailable |

## Left out

- HTTP transport, retries, timeouts and response parsing: a provider answers, caps, refuses or fails.
- Keccak, SHA-256, HMAC, ECDSA, RSA, AES and attestation checks: hashes are parameters or constructors, and verification is a verdict that the environment gives.
- Storage, instance launching, presigned URLs and enclave start-up: the store is a versioned map and a launch is recorded.
- File locks, atomic renames, JSON and size limits, and the text form of addresses and block hashes: the values are modelled, and their decimal texts.
- The sixteen-retry bounds of the job service: more retries are allowed than the code makes, so the results hold for any number.
- A step that fails or crashes is an invocation that takes no further step; the launcher's own deadline check is not relied on; the lookup of a settlement by its key only reads and is not modelled.
- A token configured twice is replayed once per entry; the code shares one replay after comparing the entries.
- The score service's parallel replay of tokens: they are replayed in turn, which gives the same sum and the same first failure or another one.
- ERC-1155 minimum balances combine the queries, entries and running minimum modelled here with the decoding of batch logs, and score-per-second values are for display; neither they nor the other decoders of chain data are modelled.
- The job service's terminal-envelope parser, and the checks of a settlement candidate other than the trace walk, the calldata and the recheck of row widths and totals.
- The benchmark's ranking, claim amounts and settlement fixture, and the parsing of log fields.
- ChainReads.MinBalanceOver: the minimum is over all transfer positions, as in the code, so it can be below the least end-of-block balance.
- ScoreCore.AccountScore.AdvanceAccount: decimals are unbounded, where the code takes an 8-bit number.
- Asn1.ParseTlvAt: offsets are unbounded, where the code checks a machine size that its one-mebibyte input cannot reach.
- AllocationLaws.RowRepricing: stated for positive pool USD; with none every amount is zero.
- Solidity contracts, deployment and release scripts, argument parsing and error-code mapping.
