# Verified models of pgshard's control-plane protocols

pgshard shards PostgreSQL behind a controller, per-member agents and a catalog
database. This project models the protocols on which its safety rests, and proves
properties of every run, every input or every reachable state of the models.

| file | what it models |
|---|---|
| `BarrierCut.dfy` | the certified barrier as a consistent-cut protocol: pause, two drains, watermark, restore points, verification, with clients, coordinator and resolver acting between any two steps |
| `BarrierProgress.dfy` | that a barrier can be certified and a coordinator can commit, from every state |
| `WriteFence.dfy` | the cluster write fence row and the statements on it |
| `BarrierFence.dfy` | barrier runs and recoveries sharing the fence, the advisory lock and the shards' pauses, crashing anywhere |
| `BarrierNames.dfy` | barrier names, reservations and restore-point names |
| `WalArchive.dfy` | WAL segment names and the wait until restore points are archived |
| `Migrations.dfy` | a DDL migration row, the applier passes that drive it and the leader term that fences them |
| `MigrationProgress.dfy` | that the next leader can bring any migration to an end |
| `Leadership.dfy` | controllers campaigning for the lock, the terms they take and publish, and what one process sees of them |
| `StepRetries.dfy` | one step on one shard, retried with backoff |
| `ApplierPass.dfy` | one applier pass: key order, the entries, leadership and terms, the verdict, multistep shards |
| `MigrationQueue.dfy` | the deduplicating enqueue and the dedup key |
| `AgentServer.dfy` | an agent's startup, Promote, Demote and shutdown against its lease and PostgreSQL |
| `Lease.dfy` | the primary lease object under optimistic concurrency, and the renewal loop |
| `EpochStore.dfy` | the durable epoch fence, its two files and the terms of admitted operations |
| `Rejoin.dfy` | how a former primary rejoins: pg_rewind, rebuilds and the rewind marker |
| `KeyRanges.dfy` | ranges of the int64 key space, their checks and their three written forms |
| `CopyProgress.dfy` | the progress of a copy folded from its subscriptions |
| `SchemaLedger.dfy` | the catalog's own schema migrations |

Protocols are state machines: a datatype of states, a datatype of actions with
`Enabled` and `Do`, and `IsRun` for the sequences of states they allow. A crash, a lost
reply and a failed write are actions or parameters of actions. Safety theorems are about
every run; progress theorems extend an arbitrary run to one in which the work is done, so
that no guard of the model makes the safety theorems hold for want of anything happening.
Objects the source updates in place are classes: the methods of `FenceRow`, `EpochStore`,
`Instance`, `MigrationTable` and `Catalog` are proved against functions on values, those of
`AgentServer.Server` to be sequences of the state machine's own steps, and the theorems
are about those functions and steps. Clocks, the network, SQL, the file system and
PostgreSQL answer through parameters.

Where a property the code or its comments suggest turned out false, the model keeps the
code's behaviour, a lemma exhibits a run in which it fails, and a theorem gives the
condition under which it holds:

- `BarrierCut`: the final verification cannot see a pause that was lost and put back by a
  workflow, or by another barrier that raises the fence only after the verification has
  read it, before the shard itself is looked at (`RepausedShardsEvadeVerification`); without
  that a certified barrier is one
  instant of the cluster.
- `Migrations`: a pass whose latched term is 0 is not fenced, and the desired state can be
  mirrored twice (`UnstampedPassMirrorsAgain`).
- `ApplierPass`: the end of a pass counts an entry its driver gave up on as success
  (`AbandonedLastShardIsComplete`, exact condition in `CompleteUnfinishedIff`); a multistep
  shard is recorded applied between its steps (`AppliedOnRecordTooEarly`).
- `StepRetries`: a backoff cap below its minimum allows more attempts than the minimum
  suggests (`SmallCapAllowsMoreAttempts`).
- `AgentServer`: undoing a startup whose PostgreSQL was launched but never reported ready,
  or could not be stopped, hands the lease back under a running primary
  (`SlowPrimaryLosesItsLease`, `UnstoppedPrimaryLosesItsLease`); without those two steps
  every primary is covered (`CoveredWithoutHazards`), and each of them uncovers one
  wherever it falls (`HazardUncovers`).
- `Lease`: a duration with a fraction of a second is recorded short, and the lease is
  taken before its holder's own deadline (`FractionsAreTakenEarly`).
- `EpochStore`: an epoch accepted by an older binary is lost when the data directory is
  replaced before the configured file caught up (`RolledBackEpochIsLost`,
  `OlderEpochSurvivesReplacement`).
- `Rejoin`: the marker is documented to say that nothing has run on the directory since the
  rewind; a server that came up and whose marker could not be removed, or that was never
  reported ready, leaves it in place (`StartedDirectoryIsTrusted`), and so does a failed
  rewind or rebuild that does not get as far as removing it (`DamagedDirectoryIsTrusted`);
  `StepSpoilsIff` says exactly which steps do.
- `KeyRanges`: a catalog row whose upper bound is the bottom of the key space holds
  nothing and reads back as everything (`ReadBackIff`).
- `SchemaLedger`: migrators of two different lines that both passed their check apply
  migrations out of order (`TwoLinesRunOutOfOrder`).

Assumptions about what lies outside the models: SHA-256 has no collisions; sessions keep
the read-only default a paused shard gives them; the transaction coordinator writes its
decision row before any participant prepares, a decision row's number and the row itself
become visible together (a sequence hands the number out before the insert commits, so this
is stronger than what the catalog enforces), participants prepare only while the row says
preparing, finishes participants only by the decision, and deletes a row only when no
participant holds it; a promotion or failover always yields a system identifier and
timeline not seen before; all agents read one clock; writes of small files are atomic; a
catalog write whose error has come back has taken effect by then or never will.

## Model

| member | source | states |
|---|---|---|
| `BarrierCut.QuietAfterSecondDrain` | internal/controller/barrier.go:376-403 | in every run, once the second drain is over, a shard whose pause was never lost has no transaction that can still write and no prepared one that wrote |
| `BarrierCut.WritersGoneMeansNone` | internal/controller/barrier.go:1308-1319 | counting transactions that began by the pause, and holders of transaction ids, misses no transaction that can write while the pause holds |
| `BarrierCut.QuietCommitsNothing` | internal/controller/barrier.go:539-566 | a shard without writers and prepared writers commits nothing in any step |
| `BarrierCut.NoCommitInTheWindow` | internal/controller/barrier.go:404-421 | no shard whose pause was never lost commits between the first and the last restore point |
| `BarrierCut.CertifiedPointIsOneInstant` | internal/controller/barrier.go:376-436 | a certified barrier's restore points all hold what their shards had committed at one single moment of the run, unless a lost pause was put back, before its shard was looked at, by an actor whose raise of the fence the verification could not have seen |
| `BarrierCut.CertifiedPointIsAtomic` | internal/controller/barrier.go:386-421 | at a certified barrier every coordinated transaction is in the restore point of each participant or in none |
| `BarrierCut.OneDrainIsNotEnough` | internal/controller/barrier.go:388-403 | with one drain only, a writer that prepares between the two polls of its shard passes both |
| `BarrierCut.RepausedShardsEvadeVerification` | internal/controller/barrier.go:485-513 | runs certified although their restore points match no moment: pauses were lost and put back by a workflow, or by a barrier that raised the fence between the verification's reads |
| `BarrierCut.RivalIsDetected` | internal/controller/barrier.go:485-492 | if another barrier raises the fence before the verification has read it, this one is never certified |
| `BarrierCut.RunKeepsInv` | internal/controller/barrier.go:683-738 | what each polling pass has established stays true under every step of anybody |
| `BarrierCut.VerifyPassesIff` | internal/controller/barrier.go:485-513 | the verification passes a shard exactly when it is paused and no open transaction on it has written, or began by the confirmed pause and is not the placement copy |
| `BarrierCut.DrainPassesIff` | internal/controller/barrier.go:539-566 | a writer drain passes a shard exactly when there is no such transaction |
| `BarrierCut.VerifiedHasNoWriter` | internal/controller/barrier.go:1308-1319 | in every run, when a shard becomes verified it is paused and no transaction that wrote is open on it, whatever happened to its pause before |
| `BarrierCut.LaterReadersHoldNothingUp` | internal/controller/barrier.go:1308-1319 | a transaction begun on a paused shard after the confirmation can only read and holds no drain up |
| `BarrierCut.CertifiedUnlessPutBack` | internal/controller/barrier.go:376-436 | a certified point is one instant of every run in which no lost pause was put back before its shard was looked at, told from the states alone |
| `BarrierCut.ClearedFenceIsDetected` | internal/controller/barrier.go:485-492 | a fence cleared before the verification has read it keeps the barrier from ever being certified |
| `BarrierCut.RereadPassesIff` | internal/controller/barrier.go:404-421 | the second watermark reading passes exactly when no decision was inserted since the first, made between the drains |
| `BarrierCut.CatalogIsNeverPaused` | internal/controller/barrier.go:448-477 | the barrier neither pauses the catalog group nor waits for its writers |
| `BarrierProgress.BarrierCanCertify` | internal/controller/barrier.go:376-436 | from every consistent cluster, whatever is open, prepared or undecided, there is a run in which the barrier is certified over all its groups |
| `BarrierProgress.CoordinatorCanCommit` | internal/router/txn.go:658-800 | a coordinator whose participants have all written, prepared or not, can prepare the rest and commit, in any state of a barrier |
| `WriteFence.RaisedUntilReleased` | internal/catalog/read.go:463-519 | a raised fence carries its reason, owner and time, is its owner's alone to release, no other release and no unowned set changes it, a recovery clears it exactly if it is younger than the postmaster, and after its release anybody can raise and lower it |
| `WriteFence.FenceRow.ReleaseWriteFence` | internal/catalog/read.go:510-519 | only the owner's token lowers the fence, and the answer says whether it did |
| `WriteFence.FenceRow.SetWriteFence` | internal/catalog/read.go:484-496 | an owned fence is refused and unchanged, an unowned one is set |
| `WriteFence.FenceRow.ClearStaleBarrierFence` | internal/catalog/read.go:463-473 | an owned fence is cleared exactly when it was raised after this postmaster started |
| `WriteFence.FenceRow.FenceOwnedBy` | internal/controller/barrier.go:907-911 | true exactly when the fence is up under the token |
| `BarrierFence.OwnedFenceIsItsOwners` | internal/catalog/read.go:484-519 | no step but a new run, the owner's release, a recovery of a stale fence or a restore changes an owned fence |
| `BarrierFence.RunKeepsTokens` | internal/catalog/read.go:463-519 | in every state an owner means a raised fence with a raise time, and tokens belong to one run |
| `BarrierFence.OwnedWithoutAGap` | internal/controller/barrier.go:485-492 | a run that finds its token in the fence has owned the same fence at every moment since it raised it |
| `BarrierFence.RestoredFenceSurvives` | internal/controller/barrier.go:593-650 | a fence older than the postmaster survives every recovery, restart and refused write |
| `BarrierFence.StrandedPauseIsFenced` | internal/controller/barrier.go:301-373 | while the lock was exclusive, a shard that a barrier paused, that no workflow or retirement took over and that is still paused means the fence is up, whatever crashed; told from the actions and the pauses alone |
| `BarrierFence.FenceFallsAfterTheResumes` | internal/controller/barrier.go:517-534 | when a run releases the fence, or a recovery clears it, no such shard is paused |
| `BarrierFence.RunKeepsStrand` | internal/controller/barrier.go:593-650 | what the lock's holder knows of the stranded pauses at each stage, over all runs |
| `BarrierFence.ResumeLifts` | internal/controller/barrier.go:1146-1207 | a resume that takes effect lifts the pause unless the shard is claimed, or retired with nothing live on it; one that does not changes nothing, and only an answered one leaves the pass in order |
| `BarrierFence.PauseLands` | internal/controller/barrier.go:448-477 | a pause lands answered or not; an unanswered one sends the run to resume everything it listed, that shard included |
| `BarrierFence.ClaimedStaysPaused` | internal/controller/barrier.go:1146-1207 | over any runs and recoveries a claimed shard stays paused until its workflow resumes it or the server loses the pause |
| `BarrierFence.RetiredStaysPaused` | internal/controller/barrier.go:1146-1207 | and a retired one as long as no resume finds something live on it |
| `BarrierFence.TakenOverAndGivenBack` | internal/controller/barrier.go:1146-1207 | claiming or retiring takes a pause out of the barriers' hands, giving the shard back returns it to them |
| `BarrierFence.StillPausedIsStranded` | internal/controller/barrier.go:593-650 | a shard a barrier paused, that nobody took over and that is still paused, is one a recovery has still to find |
| `BarrierFence.PausesBehindItsFence` | internal/controller/barrier.go:301-345 | whenever a run pauses a shard it had listed it as active, and was since told that the fence is up under its own token |
| `BarrierFence.RecoveryWaitsOut` | internal/controller/barrier.go:593-625 | a recovery at any stage began at a fence that had stood for the time it was told to wait |
| `BarrierFence.RestartKeepsTheFence` | internal/catalog/read.go:463-473 | a catalog restart takes the standing fence out of every recovery's reach; a completed restore lowers it |
| `BarrierFence.RunCanFinish` | internal/controller/barrier.go:346-373 | from every state a run that raised its fence can finish: fence down, lock free, none of those shards paused |
| `BarrierFence.InterruptedRunCanBeRecovered` | internal/controller/barrier.go:593-650 | from every reachable state with a stale fence that is old enough, a recovery can reach fence down, lock free and none of those shards paused |
| `BarrierNames.WalNamesDiffer` | internal/controller/barrier.go:204 | different barrier names give different restore-point names |
| `BarrierNames.PointCreatedOnce` | internal/controller/barrier.go:404-411 | over any history of overlapping and failing runs, a restore point of one WAL name is created at most once on a group |
| `BarrierNames.ReservedForGood` | internal/controller/barrier.go:953-980 | a name once reserved keeps its run, and only that run certifies it |
| `BarrierNames.RunKeepsInv` | internal/controller/barrier.go:267-298 | reservations, certificates and created points belong to one attempt each, in every run |
| `BarrierNames.TakenNameIsRefused` | internal/controller/barrier.go:267-298 | a name somebody holds is refused before anything is touched |
| `BarrierNames.SpentNameStays` | internal/controller/barrier.go:953-980 | a name whose attempt is over keeps its points and its certificate, or the lack of them, for good |
| `BarrierNames.UnansweredNameIsBurnt` | internal/controller/barrier.go:267-298 | a reservation whose reply was lost leaves a name that is claimed, has no restore point on any group and is never certified |
| `BarrierNames.FreshNameCanBeCertified` | internal/controller/barrier.go:267-298 | from every state an unclaimed name can be certified with exactly one restore point on each listed group |
| `WalArchive.LexIsNumeric` | internal/controller/barrier.go:756-776 | on upper-case hex of one length, string order is numeric order |
| `WalArchive.TestIsExact` | internal/controller/barrier.go:756-776 | the archive test accepts exactly a segment or backup label on the same timeline numerically at or past the restore point |
| `WalArchive.HistoryFileNeverCounts` | internal/controller/barrier.go:778-781 | a timeline history file never satisfies the test |
| `WalArchive.AwaitArchived` | internal/controller/barrier.go:783-807 | success only if every group reported a covering segment; a deadline only if one had not and was still on its timeline; after the deadline each group is asked at most once |
| `Migrations.PendingWasNeverSent` | internal/controller/applier.go:581-679 | an entry stored as pending was never sent its statement, in any run with crashes, lost replies, replans and leader changes |
| `Migrations.SentToThePinnedSet` | internal/controller/applier.go:782-792 | every statement ever sent went to the shard set the row is pinned to, and is on record |
| `Migrations.MirroredExactlyWhenComplete` | internal/controller/applier.go:240-255 | the desired-state statements are committed once when the row is complete and never otherwise |
| `Migrations.FinalForGood` | internal/catalog/migrations.go:444-450 | a row once complete or failed is never written again |
| `Migrations.EarlierTermWritesNothing` | internal/catalog/migrations.go:592-686 | after a later term is taken, a pass of an earlier one changes neither the row nor the desired state |
| `Migrations.CompleteMeansApplied` | internal/controller/applier.go:680-713 | in every run with crashes, lost replies and leader changes a complete row has no failed entry and one applied, and every entry applied or skipped unless a pass gave one up |
| `Migrations.UnstampedPassMirrorsAgain` | internal/controller/applier.go:354-360 | a pass with the term 0 is admitted beside the leader's; both send the statement of one target and both commit the desired state |
| `Leadership.LeadersSeeTimelines` | internal/controller/leader.go:104-132 | in every run of campaigning controllers, from a moment it leads under a term a process sees terms only grow, leads under none before its own, and never under its own again once it stopped |
| `Leadership.TermsGrow` | internal/catalog/migrations.go:653-659 | the term on record only grows |
| `Leadership.LeadsOrIsPast` | internal/controller/leader.go:104-132 | a controller leads under its term without a break, or whatever it has is later |
| `Leadership.RegainedIsSuperseded` | internal/controller/applier.go:341-360 | a process seen not leading leads again only with a later term on record |
| `Leadership.HolderHasTheCurrentTerm` | internal/controller/leader.go:104-132 | in every run, a controller that holds the lock and took a term has the term on record |
| `Leadership.AnyoneCanTakeOver` | internal/controller/leader.go:104-132 | from every state any controller can come to lead under a term above every one taken |
| `Migrations.RunKeepsInv` | internal/controller/applier.go:860-898 | everything sent or announced is on record in the stored row and in the copy of the pass in force |
| `Migrations.GivenUpSaysWhatHappened` | internal/controller/applier.go:680-713 | a migration ended otherwise than done is given up with each entry as the pass knew it, or with all failed when none failed and none applied |
| `Migrations.CompletedSaysWhatHappened` | internal/controller/applier.go:705-713 | one ended done is complete with each entry as the pass knew it, and its desired state committed once |
| `Migrations.SentToTheServingSet` | internal/controller/applier.go:581-655 | a pass under way is pinned to the set it found serving when it planned the migration or took it up |
| `Migrations.CatalogSentWithNoneFailed` | internal/controller/applier.go:662-666 | the catalog's own statement is sent only by a pass that knows of no failed entry |
| `Migrations.RefusedMarkChangesNothing` | internal/controller/applier.go:868-898 | a pass refused for its term leaves the entry it was about to send as it was |
| `MigrationProgress.MigrationCanBeEnded` | internal/controller/applier.go:581-713 | in every reachable state of an unfinished migration the next leader can end it whichever set serves; one not begun on that set is completed on exactly its targets |
| `MigrationProgress.UnstartedCanBeCalledOff` | internal/controller/applier.go:600-638 | one that has not begun can be given up, and then has reached no shard |
| `MigrationProgress.DrivesToTheEnd` | internal/controller/applier.go:657-713 | a pass in force ends the migration: complete, if no entry failed and one is left or applied |
| `MigrationProgress.UnledPassCompletes` | internal/controller/applier.go:937-941 | a pass that stops leading with one entry retrying completes the migration with it |
| `ApplierPass.DriveEntries` | internal/controller/applier.go:657-679 | the loop over the entries, with the retry loop inside, is the function the theorems are about |
| `ApplierPass.EntriesAfter` | internal/controller/applier.go:657-679 | final entries are left alone, a driven entry holds what driving returned, a catalog entry behind a failure is failed |
| `ApplierPass.WhereItStops` | internal/controller/applier.go:657-679 | a pass that stops does so at one unfinished entry: not driven if it was asked and did not lead, otherwise the last one driven, whose result is kept unless the pass was cancelled |
| `ApplierPass.Tally` | internal/controller/applier.go:680-692 | a failure and an application among the entries are found exactly |
| `ApplierPass.FailAll` | internal/controller/applier.go:693-703 | every entry, and no other, is failed |
| `ApplierPass.Finish` | internal/controller/applier.go:680-703 | complete exactly when nothing failed and something applied or there was nothing; some failed exactly when an entry did; the entries are kept, or all failed when none failed and none applied |
| `ApplierPass.LedPassFinishes` | internal/controller/applier.go:657-703 | a pass that keeps the leadership is not stopped, leaves every entry final, and recorded complete has every entry applied or skipped and one applied |
| `ApplierPass.CompleteUnfinishedIff` | internal/controller/applier.go:680-703 | a migration is recorded complete with an unfinished entry exactly when a driven shard's last attempt found that the process no longer leads and its entry was saved |
| `ApplierPass.UnfinishedMeansUnled` | internal/controller/applier.go:868-941 | an entry saved unfinished was given up for want of the leadership and for no other reason |
| `ApplierPass.CatalogDrivenLast` | internal/controller/applier.go:754-780 | when the catalog entry is driven every other entry is final and not failed, or was driven before it and saved unfinished |
| `ApplierPass.CatalogGoesLast` | internal/controller/applier.go:657-679 | the catalog's own statement is sent only when every shard has applied or been skipped, also when the leadership is lost at one shard and regained at the next |
| `ApplierPass.CatalogIsReached` | internal/controller/applier.go:657-679 | a pass that drives a shard and then sends the catalog's statement |
| `ApplierPass.AbandonedLastShardIsComplete` | internal/controller/applier.go:937-941 | a pass whose last shard finds, after its wait, that the process no longer leads, with no new term taken: the entry is saved retrying and the migration recorded complete |
| `ApplierPass.ApplySteps` | internal/controller/applier.go:829-845 | the steps of a multistep shard and every row saved on the way |
| `ApplierPass.AppliedMeansEveryStep` | internal/controller/applier.go:829-845 | the shard ends applied exactly when every remaining step did |
| `ApplierPass.StepsOneByOne` | internal/controller/applier.go:829-845 | the steps run in order up to the first that does not apply, each saved as running before it runs and as behind the entry once applied |
| `ApplierPass.AppliedOnRecordTooEarly` | internal/controller/applier.go:836-838 | a saved row says applied with steps left exactly when a step that is not the last one applied |
| `StepRetries.RunWithRetries` | internal/controller/applier.go:860-946 | the loop is the function the theorems are about, makes at most ceil(total/shortest wait)+1 attempts, and never loses or invents the ran flag |
| `StepRetries.HowItEnds` | internal/controller/applier.go:868-941 | applied and skipped exactly by the last attempt's result, failed only by a hard error or for want of time, unfinished only by another term, which leaves it as found, a cancellation, which leaves it running, or lost leadership; every earlier attempt was worth another |
| `StepRetries.WaitsAtLeast` | internal/controller/applier.go:942-945 | every wait is at least the smaller of minimum and cap |
| `StepRetries.WaitsDoubleUpToTheCap` | internal/controller/applier.go:942-945 | wait n is the minimum times two to the n, up to the cap |
| `StepRetries.DefaultWaits` | internal/controller/applier.go:395-407 | with no bounds given: half a second doubling to 16, then 30 seconds, within five minutes |
| `StepRetries.SmallCapAllowsMoreAttempts` | internal/controller/applier.go:258-265 | for every cap below the minimum there is a total for which the loop makes more than ceil(total/min)+1 attempts |
| `StepRetries.Bounded` | internal/controller/applier.go:395-407 | the bounds are positive, and given ones are kept |
| `MigrationQueue.EncodeInjective` | internal/catalog/queue.go:117-125 | length-prefixed parts encode injectively |
| `MigrationQueue.KeyIdentifies` | internal/catalog/queue.go:103-126 | one dedup key means one database, statement, kind, strategy, scope and metadata |
| `MigrationQueue.Latest` | internal/catalog/queue.go:163-168 | the latest row that can stand for the request, and none later can |
| `MigrationQueue.MigrationTable.EnqueueOnce` | internal/catalog/queue.go:151-191 | a request attaches to a row nothing different of its scope has followed, or is inserted last |
| `MigrationQueue.AttachesExactly` | internal/catalog/queue.go:145-181 | a request attaches to a row exactly when it is the latest identical one that is live, or completed within the window and not repeatable, and nothing different of its scope came later |
| `MigrationQueue.WhatACompletedRowAnswers` | internal/catalog/queue.go:145-170 | REINDEX, VACUUM and ALTER SEQUENCE never attach to a completed row; every other kind does within the window |
| `MigrationQueue.WhatOvertakes` | internal/catalog/queue.go:172-181 | a different statement for the request's database, also by its metadata, or about a role or a database, gives the request a row of its own |
| `MigrationQueue.AttachedIsTheLast` | internal/catalog/queue.go:172-181 | a request that attaches repeats the last key of every database it concerns |
| `MigrationQueue.OnlyAdjacentRepeatsCollapse` | internal/catalog/queue.go:145-191 | for every history and database the inserted migrations are the requested ones up to adjacent repeats of one key |
| `MigrationQueue.LiveTwinsAreSeparated` | internal/catalog/queue.go:145-191 | two live rows with one key have a different migration of their scope between them |
| `AgentServer.PrimaryIsCovered` | internal/agent/server.go:162-211 | in every run a running primary has its lease acquired and renewing, or the agent is fatal, or its startup was undone |
| `AgentServer.LeasedBeforeWritable` | internal/agent/server.go:188-206 | the lease is acquired and its hold begun before PostgreSQL becomes writable |
| `AgentServer.SignalSaysTheRole` | internal/agent/instance.go:743-753 | in every run the signal file says what a running PostgreSQL runs as, so a killed standby boots without the lease and a killed primary only by acquiring it |
| `AgentServer.AcquiredForReal` | internal/agent/lease.go:93-136 | a process that goes by a lease was given it, and has not handed it back since |
| `AgentServer.FatalUntilKilled` | internal/agent/server.go:242-256 | an agent whose PostgreSQL exited or whose lease was lost is fatal until it is killed |
| `AgentServer.LostUntilGivenUp` | internal/agent/server.go:242-275 | a lost lease is not renewed again before it was given up |
| `AgentServer.EpochOnlyGrows` | internal/agent/server.go:97-117 | the epoch only grows, over restarts too, and every promotion is under a later one than any before |
| `AgentServer.CanServeAgain` | internal/agent/run.go:100-200 | wherever the process is killed the next one can serve, as a standby or as a primary under a lease it renews, by the signal file |
| `AgentServer.CanShutDown` | internal/agent/run.go:287-297 | a serving agent can shut down in order: PostgreSQL stopped, lease handed back |
| `AgentServer.GivenUpOnlyWhenStopped` | internal/agent/server.go:277-317 | Demote gives the lease up only while PostgreSQL is down, the shutdown only after it stopped |
| `AgentServer.CoveredWithoutHazards` | internal/agent/run.go:145-166 | in a run without a primary's launch that was not reported ready and without a failed undoing stop, every running primary is covered, with no exception |
| `AgentServer.HazardUncovers` | internal/agent/startuprollback.go:18-31 | wherever one of those steps falls, undoing the lease comes next and hands it back under the running primary |
| `AgentServer.UnstoppedPrimaryLosesItsLease` | internal/agent/run.go:161-165 | a startup that fails late, and whose undoing stop fails, loses its lease under the running primary |
| `AgentServer.SlowPrimaryLosesItsLease` | internal/agent/run.go:145-166 | a primary slow to become ready loses its lease while it runs |
| `AgentServer.RunKeepsInv` | internal/agent/run.go:287-297 | the invariant of handlers, process and lease over every run |
| `AgentServer.Server.Promote` | internal/agent/server.go:162-211 | the handler is a sequence of the model's steps; refused for an old epoch, another's lease or a held one without effect but the epoch; a failed setup keeps lease and hold |
| `AgentServer.Server.BeginTerm` | internal/agent/server.go:165-206 | which refusal, and that the lease is acquired and its hold begun before anything is promoted |
| `AgentServer.Server.PromoteWithRetry` | internal/agent/server.go:217-233 | at most three tries, each a step of the model, stopping at the first success; a promotion that happened is kept |
| `AgentServer.Server.Demote` | internal/agent/server.go:277-317 | the handler is a sequence of the model's steps; admitted for a later epoch or as a retry with PostgreSQL down; the lease is kept until the stop succeeds and handed back whatever the rejoin does; success is a running standby with its signal file, and a rejoin that got as far as its configuration leaves the file |
| `Lease.PassesOnOnlyWhenGivenUp` | internal/agent/lease.go:93-148 | the lease passes on only through a step at which its holder's own release was accepted, or at which it was taken strictly after its recorded renewal plus duration |
| `Lease.MayTakeIff` | internal/agent/lease.go:138-148 | in every run an agent may go on to take the lease it read exactly when nobody or itself holds it, or its recorded renewal plus duration is over |
| `Lease.TakesIt` | internal/agent/lease.go:116-170 | an undisturbed acquire makes the agent the holder, at the time it stamped, with its own duration, and counts a transition exactly if it was not the holder |
| `Lease.ReleasesIt` | internal/agent/lease.go:239-253 | an undisturbed release by the holder leaves nobody holding the lease |
| `Lease.IncompleteLeases` | internal/agent/lease.go:138-148 | an object without a duration is judged by the agent's own, one never renewed is free for anybody |
| `Lease.WriteAfterATouchFails` | internal/agent/lease.go:116-136 | after any other write to the object a call's own write is refused |
| `Lease.TransitionsCountTakeovers` | internal/agent/lease.go:150-170 | the transition count is the number of takeovers in every run |
| `Lease.WritesWhatItIs` | internal/agent/lease.go:116-170 | an accepted acquire records its agent, its own duration and a time between its read and its write; a release only empties the holder |
| `Lease.WholeSecondsAreKept` | internal/agent/lease.go:138-148 | with whole-second durations no takeover is before the holder's own deadline |
| `Lease.FractionsAreTakenEarly` | internal/agent/lease.go:150-170 | for every duration with a fraction of a second there is a run with an early takeover |
| `Lease.StepHandsOver` | internal/agent/lease.go:239-253 | one step takes the lease from its holder only by its release or after its recorded term |
| `Lease.RunKeepsInv` | internal/agent/lease.go:116-136 | an object read with the stored version is the stored object, and what a call may write follows from what it read |
| `Lease.Hold` | internal/agent/lease.go:212-236 | a loss is reported in the first round in which another holds the lease or a renewal fails past the deadline, and in no earlier one |
| `EpochStore.EpochStore.OpenAt` | internal/agent/epoch.go:66-94 | opens exactly on two readable files of which the configured one is not behind or is certainly brought up to date, with the higher of the two |
| `EpochStore.EpochStore.Accept` | internal/agent/epoch.go:168-202 | only a later epoch, on disk before it is current; a failed write changes neither epoch nor term |
| `EpochStore.EpochStore.Term` | internal/agent/epoch.go:143-164 | admits exactly the current epoch, under the current term |
| `EpochStore.ReopenedAtOrAbove` | internal/agent/epoch.go:66-94 | over any history a reopened store is at or above every epoch accepted, an older binary's included unless a lower legacy file replaced it first |
| `EpochStore.LiveWhileCurrent` | internal/agent/epoch.go:143-202 | an admitted operation's term is live exactly while its epoch is current |
| `EpochStore.OlderBinaryFindsTheEpoch` | internal/agent/epoch.go:181-193 | a rolled-back binary finds the accepted epoch exactly when it was copied into an initialised data directory or was there already |
| `EpochStore.OlderEpochSurvivesReplacement` | internal/agent/epoch.go:44-62 | after a replaced data directory an older binary's epoch holds exactly if the configured or the new legacy file is as high |
| `EpochStore.RolledBackEpochIsLost` | internal/agent/epoch.go:44-62 | a run in which an epoch accepted by a rolled-back binary is forgotten |
| `EpochStore.RunKeepsInv` | internal/agent/epoch.go:168-202 | the files bound what was accepted, and terms match epochs, in every run |
| `Rejoin.Instance.Follow` | internal/agent/instance.go:682-753 | the rewind is skipped exactly when identity and marker were read and agree; otherwise the directory ends rewound, rebuilt or the attempt fails, as it does when slot, signal or configuration cannot be written |
| `Rejoin.Instance.Rebuild` | internal/agent/instance.go:758-767 | done exactly when the repository or the clone succeeded, and then the marker is gone |
| `Rejoin.SkipsOnlyAfterARewind` | internal/agent/instance.go:682-753 | whenever the rewind is skipped, one completed against that very identity and the directory was not emptied, replaced or promoted since |
| `Rejoin.FailoverDuringRewindIsRedone` | internal/agent/instance.go:682-741 | after a failover between reading the identity and pg_rewind no retry takes the rewind as done |
| `Rejoin.MarkerIsGone` | internal/agent/instance.go:420-603 | a copy, a start reported ready and a promotion that removes the marker leave none for any later attempt |
| `Rejoin.SkipsOnlyOnAnUntouchedDirectory` | internal/agent/instance.go:537-603 | nor started, run or damaged, as far as no step of the history spoiled it |
| `Rejoin.StepSpoilsIff` | internal/agent/instance.go:420-753 | for every step after which the marker names the source, the directory is as the marker says exactly when the step was no start that left the marker, no start not reported ready, and no rewind or rebuild that failed with the marker in place |
| `Rejoin.StartedDirectoryIsTrusted` | internal/agent/instance.go:420-431 | runs in which a server ran on the rewound directory, its marker stayed, and the next attempt skips the rewind |
| `Rejoin.DamagedDirectoryIsTrusted` | internal/agent/instance.go:710-741 | an attempt that could not read identity or marker, and whose rewind and rebuild fail short of the marker, leaves it for the next attempt to trust |
| `Rejoin.DamagedDirectoryIsReachable` | internal/agent/instance.go:208-222 | such a history exists |
| `Rejoin.RunKeepsInv` | internal/agent/instance.go:454-603 | a marker that names the source has its rewind in the log with nothing bad since, over every history without a spoiling step |
| `KeyRanges.Validate` | internal/placement/ranges.go:29-50 | accepts exactly proper ranges that join from the bottom to the top |
| `KeyRanges.ValidIffPartition` | internal/placement/ranges.go:29-50 | that is exactly a partition of the key space in order |
| `KeyRanges.Locate` | internal/placement/ranges.go:53-55 | the binary search finds the one range that holds the key |
| `KeyRanges.HomeTarget` | internal/controller/copysql.go:331-333 | the range that holds key 0 |
| `KeyRanges.Split` | internal/placement/ranges.go:58-81 | a partition into n ranges whose sizes differ by at most one, in wrapping 64-bit arithmetic |
| `KeyRanges.Cut` | internal/placement/ranges.go:69-80 | the loop of the split, each range of its size at its offset |
| `KeyRanges.WrappedTurn` | internal/placement/ranges.go:69-80 | the wrapping arithmetic of one turn gives the true bounds |
| `KeyRanges.MergeKeepsTheRest` | internal/placement/ranges.go:84-96 | a merge keeps the partition, the other ranges, and the union of what it replaces |
| `KeyRanges.ExactlyOneFilter` | internal/controller/copysql.go:114-126 | every key passes the row filter of exactly one range |
| `KeyRanges.FilterDenotes` | internal/controller/copysql.go:114-126 | a row filter passes exactly the keys of its range |
| `KeyRanges.LiteralRoundTrip` | internal/catalog/reshard.go:61-70 | the int8range literal parses to the row it stands for |
| `KeyRanges.DecimalRoundTrip` | internal/catalog/reshard.go:63-68 | every int64 in decimal parses back |
| `KeyRanges.OneMeaning` | internal/catalog/reshard.go:61-101 | filter, literal and the range read back denote the same keys, without overflow |
| `KeyRanges.ReadBackIff` | internal/catalog/reshard.go:88-101 | a row reads back as the keys it holds exactly unless its upper bound is the bottom of the key space |
| `KeyRanges.RangeSet` | internal/catalog/reshard.go:88-101 | each row's range, in order |
| `KeyRanges.ValidateShardRanges` | internal/catalog/reshard.go:75-85 | accepts exactly a partition whose shard ids are their positions |
| `KeyRanges.MaterializeShardSet` | internal/catalog/reshard.go:113-135 | a valid set is written so that it reads back as itself with ids 0..n-1, an invalid one is refused |
| `CopyProgress.Aggregate` | internal/controller/copysql.go:272-308 | the loop is the fold the theorem is about |
| `CopyProgress.SampleBlockers` | internal/controller/copysql.go:276-284 | the sample grows by exactly the report's first blockers, as many as there is room for |
| `CopyProgress.CountTables` | internal/controller/copysql.go:285-292 | all tables and the ready ones are counted |
| `CopyProgress.CaughtUpIff` | internal/controller/copysql.go:311-314 | the record is caught up exactly when there is a subscription and each has tables, all ready, and a known lag under the threshold |
| `CopyProgress.FoldedPaused` | internal/controller/copysql.go:272-308 | the paused count is the number of disabled subscriptions |
| `CopyProgress.LagHasAnOwner` | internal/controller/copysql.go:293-303 | the lag is the largest, or unknown if one is, and is named after a subscription that reported it |
| `CopyProgress.BlockersAreReported` | internal/controller/copysql.go:276-284 | at most three blockers are sampled, each a reported one under its subscription's name |
| `SchemaLedger.CheckCompatible` | internal/catalog/catalog.go:194-241 | accepts exactly a ledger whose versions are known and have nothing pending below them |
| `SchemaLedger.CompatibleIsPrefix` | internal/catalog/catalog.go:194-241 | an accepted ledger is numbered as the beginning of the list |
| `SchemaLedger.PrefixIsCompatible` | internal/catalog/catalog.go:194-241 | and such a ledger is accepted |
| `SchemaLedger.Numbered` | internal/catalog/catalog.go:146-155 | sorted files are accepted exactly when no number occurs twice |
| `SchemaLedger.Catalog.Migrate` | internal/catalog/catalog.go:162-185 | what was applied stays, what is added continues it along the list, success is the whole list, a changed checksum applies nothing |
| `SchemaLedger.Apply` | internal/catalog/catalog.go:243-274 | one migration verified or run keeps ledger and list in step, a changed checksum changes nothing, a failure leaves a beginning of the list |
| `SchemaLedger.NextAt` | internal/catalog/catalog.go:243-274 | at each place the ledger holds the version with its text, or running it continues ledger and list in step |
| `SchemaLedger.AppliedIsAPrefix` | internal/catalog/catalog.go:162-274 | with binaries of one line, concurrent and crashing, ledger and schema are always the beginning of that line |
| `SchemaLedger.AppliedInVersionOrder` | internal/catalog/catalog.go:162-274 | whenever concurrent lists number alike, migrations were applied in version order and match each migrator's list so far |
| `SchemaLedger.AppliedByItsCommit` | internal/catalog/catalog.go:243-274 | a migration is applied exactly by a migrator that finds its version missing and commits, answered or not; one that finds another text goes no further |
| `SchemaLedger.CanBeBroughtUpToDate` | internal/catalog/catalog.go:162-185 | wherever migrators of one line were interrupted, a binary of the line that knows what was applied can bring the catalog to its list |
| `SchemaLedger.EqualLedgersEqualSchemas` | internal/catalog/catalog.go:223-240 | equal ledgers, from any two histories, mean the same texts in the same order |
| `SchemaLedger.TwoLinesRunOutOfOrder` | internal/catalog/catalog.go:162-185 | for any two lists that part at different numbers there is a run that applies the lower number last |

## Left out

- ApplierPass: a pass over a direct or concurrent migration; a multistep shard's steps are modelled one shard at a time.
- Rewrite and repack strategies, role and grant mirroring, resume checks of single statements: the migration model has a statement that is sent or not.
- Migrations.RunKeepsInv: says nothing about entries that are running or retrying beyond that they are not pending, because the ran flag of a reloaded entry can be lost.
- Migrations: one migration; the rows of several meet only in the leader term.
- SaveQueuedMigrationProgress and the operation blockers that hold a migration back: a held save is a save that was not written.
- MigrationQueue: the search for a password in the statement and the trimming of its text; a request says whether it carries a secret.
- BarrierFence: that a run is over within the time a recovery waits; recovery rests on the lock.
- BarrierCut.CertifiedPointIsOneInstant: not for a lost pause put back by a workflow, by a barrier that lost its lock earlier, or by one that raised the fence after the verification read it; see the counterexamples beside it.
- The router's two-phase coordinator and the resolver: only what they promise the barrier.
- AgentServer: the Rewind, Reclone and Restart handlers, which release the lease early or do not touch it.
- Lease.Hold: the timer between rounds; Acquire's one retry after a conflict is another call; the operator's writes only move the version; seconds beyond 32 bits.
- Lease: the claim that there is one writable primary by lease timing alone, since stopping PostgreSQL takes time after a lease is lost; Stale and the liveness probe.
- EpochStore: epochs beyond 64 bits, and the text form of the files.
- Rejoin: what pg_rewind, pg_basebackup and pgBackRest do inside the directory beyond completing, failing or emptying it; slots and configuration files.
- KeyRanges: the text of a row filter and its hash expression; filters are their conjuncts.
- SchemaLedger: sorting the embedded files and their names; versions beyond 32 bits.
- CopyProgress: the throttle, a pure comparison of three numbers, and the description text.
- The SQL text, gRPC, Kubernetes clients, TLS, metrics, probes, the admin UI, the operator's reconcilers, the router's planner, cutover and copy workflows.
