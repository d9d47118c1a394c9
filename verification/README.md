# Verified models of the OCFP command line

Dafny models of five parts of the OCFP CLI, each with the properties that part
exists for.

**Resuming a bastion initialisation.** About thirty phases run in order, or as a
batch, a worker pool and a second batch, with retries and a checkpoint file that
lets a later run skip what is done.  `PhaseErrors`, `Checkpoints`,
`SequentialRunner`, `SequentialResume`, `PhasePool`, `ParallelRun`, `ParallelMarks`,
`DryParallel`, `ResumeSafety` and `PhaseLists` model both drivers over chains of processes
that fail, die at any point and resume: nothing undone is skipped, and nothing done is
repeated.  In the pool every goroutine move is one event, and taking a snapshot of
the progress, truncating the file and writing it are three of them, so an older
snapshot can overwrite a newer one.

**Replacing the bastion without losing its data disk.** `Recycle` is the engine
and its cluster adapter as functions over a small world (guests, volumes, the
state file in memory and on disk) and a script of provider answers, `RecycleEngine`
the same as the methods that change that world.  `RecycleWorld`, `RecycleSafety`,
`RecycleCompletion`, `RecycleHandOver`, `RecycleProgress`, `RecycleResume` and
`RecycleAbort` prove what survives, what a success means, exactly when one is reached and
what a crash leaves.

**IPv4 prefixes.** `Cidr` carves blocks in 32-bit words that wrap, and relates
them to what a prefix means.

**Converging on cloud resources.** `KeyPair`, `DataVolume`, `PublicIp` and
`PublicIpSharing` model repeated runs in which any provider, file or state call may fail.

**Printers and first-match tables.** `ShellQuote`, `EtcEnvironment` and `Ingress`
check what is printed against a reader of it: a POSIX shell, a line reader, and
first-match routing.

Things outside the process are arguments.  A phase function, a provider call or a
file write is a reply that says whether it took effect and what the caller is
told; a run that uses up its replies has died there.  Times are integers.

## What the models found

- A dry parallel run marks pool phases it did not perform, so its memory is right only
  if they had all returned before (`DryParallel.DryProcessIsHonestExactlyWhen`), and a
  later run skips them (`ParallelRun.DryPoolRunIsSkippedLater`); a dry sequential run
  deletes the checkpoint (`SequentialRunner.DryRunDropsTheCheckpoint`).
- Parallel checkpoints can be refused on resume.  Without a reporter this happens
  exactly when more batch phases were started than the sequential list has
  (`ParallelRun.CheckpointAcceptedExactlyWhen`); with one, the pool sets the total
  to 0 and of the last batch only the checkpoint of the first phase is accepted
  (`ParallelRun.OnlyFirstPostCheckpointIsAccepted`).
- The data disk survives if the state file is never lost, or if the disk is never
  left without its serial (`RecycleSafety.TheDataDiskSurvives`); losing both can
  destroy it (`RecycleAbort.LosingBothLosesTheDisk`).
- A handover that dies between moving the disk and giving its serial back leaves it on
  the replacement where nothing recognises it: from there every run and every abort
  fails (`RecycleResume.DeathBeforeTheSerialStrands`, `RecycleResume.StrandedStays`).
- A handover that failed with the disk still on the original cannot be aborted, though
  nothing has moved (`RecycleAbort.FailedHandOverCannotBeAborted`); when an abort can
  finish is `RecycleAbort.AbortFinishesExactlyWhen`.
- An adoption that dies right after the rename is reported as finished by the next
  run with the bastion stopped (`RecycleResume.AdoptionIsNotResumed`), and an abort
  that does not get from deleting the replacement to clearing the journal leaves one
  with which every further run and abort fails (`RecycleAbort.AbortWedgesExactlyWhen`,
  `RecycleAbort.WedgedStays`).  An abort without a journal undoes what it finds and then
  always reports failure (`RecycleCompletion.SuccessfulAbortRestores`).
- With everything working a recycle finishes exactly when there is a safety copy or a
  storage for one, the provider can rename guests, and the disk keeps a name it can be
  known by when it is reassigned (`RecycleProgress.RecycleFinishesExactlyWhen`); one that
  cannot rename never completes (`RecycleCompletion.SuccessfulRunHandsOver`).
- A wrong `.pub` file is never noticed: the key it holds is recorded by every
  registration (`KeyPair.RecordOpensOverRunsExactlyWhen`,
  `KeyPair.OrphanedPublicKeyMisleads`).
- Without a record the data disk of a rebuilt bastion is not found and a second one is
  made (`DataVolume.RebuiltBastionGetsASecond`); on PVE no disk is ever found by name
  (`DataVolume.PrefixedNamesAreUnknown`).  A stale record is never replaced
  (`DataVolume.ConvergesExactlyWhen`).
- The labels by which a public address is matched do not name the bloc, and one address
  can match two slots (`PublicIpSharing.ForeignAddressIsAdoptedExactlyWhen`,
  `PublicIpSharing.SlotsShareExactlyWhen`).
- Phase scripts export their variables between quotes without escaping them, which
  is right exactly for values without a single quote
  (`ShellQuote.RawQuoteReadsBackExactlyWhen`).
- An SSH hostname without an SSH origin is reported without an origin while a
  wildcard serves it (`Ingress.ReportIsRightExactlyWhen`), and a service without a
  hostname takes all traffic (`Ingress.NamelessServiceTakesAll`).

`internal/recycle/engine.go` says, at lines 188-189 and 212, that every phase is safe
to re-enter; the adoption above is the exception, and the model follows the code.

## Model

| member | source | states |
|---|---|---|
| PhaseErrors.ClassifyError | internal/bastion/errors.go:73-103 | the error record gets the class and the retry flag of the first classifier that accepts the lower-cased message |
| PhaseErrors.MissingCommandIsRetried | internal/bastion/errors.go:267-310 | a missing command is never classed as a configuration error, so it stays retryable unless a permission phrase is present |
| PhaseErrors.RetryingStopsExactlyWhen | internal/bastion/errors.go:224-330 | retrying stops exactly for a message without a network phrase that has a permission phrase or, missing commands aside, a configuration one |
| PhaseErrors.DenialEndsThePhase | internal/bastion/errors.go:106-167 | such a message ends the phase at its first call |
| PhaseErrors.OthersAreTriedToTheEnd | internal/bastion/errors.go:106-167 | any other failures are answered with all three tries before the phase fails |
| PhaseErrors.SucceedsExactlyWhen | internal/bastion/errors.go:106-167 | the loop succeeds if and only if one of its at most three calls returns nil and every earlier one failed in a way worth another try |
| PhaseErrors.ExecuteWithRetry | internal/bastion/errors.go:106-167 | the retry loop: at most three calls, success exactly when one of them returns nil after failures worth another try |
| Checkpoints.CheckpointManager.Save | internal/bastion/checkpoint.go:95-153 | the file holds the record of the progress, or what an interrupted or refused write leaves |
| Checkpoints.CheckpointManager.Load | internal/bastion/checkpoint.go:156-196 | only a whole record of this bloc and provider, at most a day old and with no more steps completed than there are, is loaded |
| Checkpoints.RoundTripExactlyWhen | internal/bastion/checkpoint.go:95-238 | saving, loading and restoring gives back the very progress exactly within a day and with consistent steps, and a fresh start otherwise |
| SequentialRunner.StepKeepsSound | internal/bastion/init.go:813-909 | one phase, skipped, tried or checkpointed, keeps the order of calls and the honesty of memory and file |
| SequentialRunner.EveryChainIsOrdered | internal/bastion/init.go:798-909 | over every chain of failing, dying, dry and resumed sequential runs a phase is called only after every earlier one returned nil, and the file only names phases that did |
| SequentialRunner.RunKeepsSound | internal/bastion/init.go:416-435 | a run keeps that, whatever had returned nil before it and however; one that reports success and is not a dry one leaves every listed phase done; what it would skip is done |
| SequentialRunner.RunCallsAtMostThreeTimes | internal/bastion/init.go:853-865 | one run calls each phase at most three times |
| SequentialRunner.EverySaveIsResumable | internal/bastion/init.go:839-909 | every checkpoint a sequential run saves, from whatever start, says at which phase it stands, passes validation at any time up to a day later and restores to the progress it was made from |
| SequentialRunner.DryPhasesTouchNothing | internal/bastion/init.go:829-833 | a dry run calls no phase, saves nothing and marks nothing |
| SequentialRunner.DryRunDropsTheCheckpoint | internal/bastion/init.go:912-923 | yet a dry run that completes removes the checkpoint |
| SequentialRunner.SuccessIsForgotten | internal/bastion/checkpoint.go:199-215 | once a completed run could remove its checkpoint, the next run starts afresh, whenever it comes |
| SequentialRunner.Manager.constructor | internal/bastion/init.go:90-122 | a manager starts from the loaded checkpoint when resuming, and afresh otherwise |
| SequentialRunner.Manager.Save | internal/bastion/init.go:878-900 | the save in either handler records the current progress and drops the error |
| SequentialRunner.Manager.ExecutePhase | internal/bastion/init.go:813-909 | the method's whole effect on progress, file and calls is the specified phase step |
| SequentialRunner.Manager.ExecuteSequentialPhases | internal/bastion/init.go:798-810 | the loop over the phases, stopped by the first error or death |
| SequentialRunner.Manager.ExecuteInitializationPhases | internal/bastion/init.go:416-435 | totals and start time, then the phases, then the final count and the removal of the checkpoint |
| SequentialRunner.Initialize | internal/bastion/init.go:416-435 | one process from loading the checkpoint to its end keeps the order of calls and the honesty of the file, saves only what can be resumed from, and succeeds only with every phase done |
| SequentialResume.MarkedPhaseIsNotCalled | internal/bastion/init.go:817-825 | a phase that the loaded checkpoint names is not called by a resumed run, whatever happens in it |
| SequentialResume.SavedPhaseIsNotRepeated | internal/bastion/init.go:890-909 | a phase that returned nil, and whose save reached the file, is named by the file of a run that fails or dies, unless a later write was cut, and the next run that resumes within a day does not call it |
| SequentialResume.SavedPhaseIsNeverRepeated | internal/bastion/checkpoint.go:95-196 | nor does any chain of such runs |
| SequentialResume.RunCompletesExactlyWhen | internal/bastion/init.go:798-909 | a run that is not a dry one reports success exactly when each phase is one its checkpoint names, or returns nil within its tries with the process alive after the save |
| PhasePool.NewPool | internal/bastion/init.go:1369-1385 | a worker setting that is not positive means three workers, and the pool starts with its accounting in order |
| PhasePool.StepKeepsInv | internal/bastion/init.go:1369-1450 | every step of every interleaving keeps each task with exactly one holder or report, and uses up some of a measure |
| PhasePool.NeverStuck | internal/bastion/init.go:1369-1450 | until the collector has returned and every worker has left, some goroutine can move: no deadlock |
| PhasePool.PoolTerminates | internal/bastion/init.go:1369-1450 | a pool takes at most eleven steps a task, one a worker and one more |
| PhasePool.PoolHandlesEachTaskOnce | internal/bastion/init.go:1369-1450 | for any tasks, workers and interleaving, when the collector returns each task has been reported exactly once and the error is nil exactly when all were skipped, announced or performed |
| ParallelMarks.EveryInterleavingMarks | internal/bastion/init.go:1320-1436 | outside a dry run, in every reachable state each task that a handler is past without an error is marked, in both batches and in the pool, with everything the driver has left behind, and a checkpoint being written names its task |
| ParallelMarks.WholeWriteNamesTheTask | internal/bastion/init.go:1416-1420 | a whole write leaves a file that names the phase it was written for |
| ParallelMarks.CollectedAreMarked | internal/bastion/init.go:1439-1450 | when the collector returns, each task is marked or was reported with an error, and all are marked if it returns nil |
| ParallelMarks.SuccessMarksExactlyItsPhases | internal/bastion/init.go:783-795 | a parallel run that succeeds, from any honest file and in any interleaving, has marked every listed phase and none that has not returned nil |
| ParallelMarks.MarkedPhaseIsNeverCalled | internal/bastion/init.go:1398-1408 | a phase that the loaded checkpoint names is called in no interleaving of a resumed run |
| ParallelMarks.TriesAreTheRetryLoop | internal/bastion/errors.go:106-167 | what a handler comes to, given how each call ends, is what the retry loop comes to |
| ParallelMarks.OnlyErrorsFail | internal/bastion/init.go:1394-1450 | a run whose functions return no error fails in no interleaving, whatever becomes of its saves |
| ParallelRun.StepKeepsSound | internal/bastion/init.go:1320-1450 | any move of any goroutine outside a dry run keeps memory, file, and snapshots in flight free of phases that have not returned nil |
| ParallelRun.EveryInterleavingIsSound | internal/bastion/init.go:783-795 | in every reachable state, crashed or not, no phase of the last batch is under way before every earlier phase has returned nil |
| ParallelRun.OnlyFirstPostCheckpointIsAccepted | internal/bastion/init.go:1335-1340 | from then on, of the checkpoints the last batch saves only that of its first phase passes validation |
| ParallelRun.StartsAreCounted | internal/bastion/init.go:1320-1366 | without a reporter the step count is the loaded one plus the number of batch phases started, restarts included |
| ParallelRun.CheckpointAcceptedExactlyWhen | internal/bastion/checkpoint.go:391-395 | so a parallel checkpoint is accepted within a day exactly when those are at most the phases of the sequential list |
| DryParallel.DryProcessIsHonestExactlyWhen | internal/bastion/init.go:1416-1426 | for any dry process from any honest file, in any interleaving: once the pool is done with, its memory names only phases that returned nil exactly when every pool phase already had |
| ResumeSafety.TheFileNeverOverclaims | internal/bastion/checkpoint.go:95-153 | over every chain of sequential and parallel processes, crashes and out-of-order writes included, each phase the file names returned nil in some process |
| ResumeSafety.ResumeNeverSkipsUndoneWork | internal/bastion/init.go:1502-1508 | wherever a process of either kind has got to after any chain of both kinds, a phase it would skip has returned nil |
| ResumeSafety.SuccessMeansEveryPhaseReturned | internal/bastion/init.go:783-810 | a process of either kind that reports success after any such chain has seen every one of its phases return nil |
| ResumeSafety.MixedChainsAreOrdered | internal/bastion/init.go:798-909 | in a sequential process after any such chain each phase is called only when every phase listed before it has returned nil, in this process or an earlier one |
| PhaseLists.SequentialListIsDistinct | internal/bastion/init.go:604-683 | no phase is listed twice |
| PhaseLists.ListsAgree | internal/bastion/init.go:697-780 | the parallel lists are two more phases and then the sequential list, with the order of three left to the pool |
| PhaseLists.TeardownIsLast | internal/bastion/init.go:676-681 | over every chain of sequential and parallel processes, a sequential one tears the local vault down only when every other phase has returned nil |
| PhaseLists.LastBatchFindsTheRestDone | internal/bastion/init.go:745-780 | while a phase of the last batch is under way every phase before it has returned nil, for the lists as they are |
| Recycle.FindGuest | internal/bootstrap/recycle_cluster.go:93-110 | the guest found carries the name, and none is found exactly when none does |
| Recycle.FindBySerial | internal/bootstrap/recycle_cluster.go:170-178 | a volume the guest holds under the data serial, if there is one |
| Recycle.FindPreserved | internal/bootstrap/recycle_cluster.go:180-193 | a volume the guest holds that the recorded id or, without one, the name identifies |
| Recycle.Purged | internal/recycle/engine.go:259-261 | deleting a guest removes exactly the volumes it holds |
| RecycleEngine.Engine.RecordVolumeOwner | internal/bootstrap/recycle_cluster.go:423-442 | the record names the volume and its holder in memory and, if saved, on file; without a record nothing happens |
| RecycleEngine.Engine.MoveDisk | internal/bootstrap/recycle_cluster.go:362-419 | resolve, reassign, read the new id back, or detach and attach, then record: every branch as specified |
| RecycleEngine.Engine.HandOverDisk | internal/bootstrap/recycle_cluster.go:337-353 | a volume already on the replacement is only recorded, any other is moved |
| RecycleEngine.Engine.AdoptReplacement | internal/bootstrap/recycle_cluster.go:480-530 | rename, record, start unless running; nothing when there is no replacement |
| RecycleEngine.Engine.RunPhase | internal/recycle/engine.go:238-281 | what each phase does, the refusal to retire a guest that holds the disk included |
| RecycleEngine.Engine.Step | internal/recycle/engine.go:154-174 | the journal is saved before the phase runs |
| RecycleEngine.Engine.Parks | internal/recycle/engine.go:143-152 | a run asked to stop before retirement ends there, successfully and with the journal left |
| RecycleEngine.Engine.RunFrom | internal/recycle/engine.go:143-181 | the loop over the phases, parked before retirement when asked, ends by clearing the journal |
| RecycleEngine.Engine.Run | internal/recycle/engine.go:132-231 | a run starts at the journalled phase or at the one the cluster implies |
| RecycleEngine.Engine.Abort | internal/recycle/engine.go:289-324 | the compensations in reverse order, refused from retirement on |
| RecycleEngine.Execute | internal/recycle/engine.go:132-324 | one process of either command, however it ends, leaves the data volume safe if it was |
| RecycleWorld.OwnedIsData | internal/bootstrap/recycle_cluster.go:152-214 | what either of the two guests is found to own is the data volume, and is found whenever it can be recognised; other guests may own what they like |
| RecycleWorld.DeleteView | internal/bootstrap/recycle_cluster.go:446-455 | deleting a guest that does not hold the data volume leaves the volume as it was |
| RecycleSafety.FreshBlocIsSafe | internal/recycle/engine.go:191-231 | a bastion that holds its recorded data volume, beside any other guests with any data disks of their own, is a safe place to begin, and a run begins there at the first phase |
| RecycleSafety.ReassignEffect | internal/bootstrap/recycle_cluster.go:391-404 | a reassignment does nothing or hands the data volume over, renamed to a free name, with its serial unless the caller was not told of success |
| RecycleSafety.MoveDiskOutcome | internal/bootstrap/recycle_cluster.go:362-419 | a move that returns nil leaves the data volume on its target; any other end leaves it with its holder, its target or nobody |
| RecycleSafety.HandOverSafe | internal/bootstrap/recycle_cluster.go:337-353 | a handover that returns nil has the replacement own the data volume |
| RecycleSafety.RetireSafe | internal/recycle/engine.go:258-271 | the original is deleted only when it does not hold the data volume |
| RecycleSafety.AdoptSafe | internal/bootstrap/recycle_cluster.go:480-530 | adoption, interrupted anywhere, keeps what the journal implies true |
| RecycleSafety.StartIsTrue | internal/recycle/engine.go:191-231 | the phase a run starts at, journalled or reconstructed, is one whose entry is true of the cluster |
| RecycleSafety.RunSafe | internal/recycle/engine.go:132-181 | a run, however its calls end and wherever it dies, keeps the volume and the journal's meaning |
| RecycleSafety.AbortSafe | internal/recycle/phase.go:172-192 | so does an abort: no compensation deletes the guest that holds the data volume |
| RecycleSafety.TheDataDiskSurvives | internal/bootstrap/recycle_cluster.go:152-455 | over every session of runs and aborts the data volume survives, if the state file is never lost or the serial never dropped |
| RecycleCompletion.PhaseCarries | internal/recycle/engine.go:238-281 | each phase that returns nil brings the data volume on: to the replacement, past the original's end, under the final name |
| RecycleCompletion.SuccessfulRunHandsOver | internal/recycle/engine.go:132-181 | a run that starts where the data volume is on its way and returns nil ends with the new bastion under the final name, recorded, running and holding the data volume, or parked with the volume handed over; without rename only the second can be reached |
| RecycleCompletion.SuccessfulAbortRestores | internal/recycle/engine.go:289-324 | an abort that returns nil had a journal, has cleared it, and has the original back: running if it was stopped, alone if a replacement was built, with the data volume if that was handed over |
| RecycleHandOver.HandOverFinishesExactlyWhen | internal/bootstrap/recycle_cluster.go:337-442 | with the provider cooperating, a handover returns nil exactly when one of the two guests can be seen to hold the data volume; then the replacement holds it, and the file names its new id exactly when it can be recognised under that |
| RecycleHandOver.UnseenIsNotRetired | internal/recycle/engine.go:258-271 | a volume on the replacement that cannot be recognised keeps the original from being retired |
| RecycleHandOver.ReRunFinishesExactlyWhen | internal/bootstrap/recycle_cluster.go:337-442 | after any number of handovers with any refusals and deaths, lost serials included, one that is let through returns nil exactly when they left the volume where it can be seen |
| RecycleHandOver.ReRunConvergesExactlyWhen | internal/cpi/pve/storage.go:764-820 | after any number of handovers that died anywhere, one that is let through ends with the volume on the replacement exactly when the first reassignment that took effect did not leave it without a name or serial to know it by; with its serial it is recorded by its new id |
| RecycleProgress.RecycleFinishesExactlyWhen | internal/recycle/engine.go:132-181 | from a bastion with its recorded volume in sight, with every call working and no pause asked for, a run returns nil exactly when there is a safety copy or a storage for one, the provider renames guests and the volume is recognisable as it is handed over; it then ends with the new bastion under the final name, recorded, running and holding the volume |
| RecycleProgress.StoppedAndCopiedFirst | internal/recycle/engine.go:238-271 | whatever fails: in a run from the beginning the original is stopped when it is copied, its replacement is built or the volume is moved, and a safety copy was taken or vouched for before the original is destroyed |
| RecycleProgress.BuildWorks | internal/bootstrap/recycle_cluster.go:291-321 | a working build leaves a guest under the transient name and the volume where it was |
| RecycleProgress.HandOverWorks | internal/bootstrap/recycle_cluster.go:362-419 | a working handover, reassigned or reattached, leaves the volume on the replacement, and in sight exactly when it was recognisable as handed |
| RecycleProgress.ReattachCompletes | internal/bootstrap/recycle_cluster.go:397-419 | the fallback detaches, attaches and records the volume for its new holder under the id it had |
| RecycleResume.DeathBeforeTheSerialStrands | internal/cpi/pve/storage.go:764-820 | the crash that does: the volume is moved and renamed, and the process dies before the serial is back |
| RecycleResume.StrandedStays | internal/bootstrap/recycle_cluster.go:362-419 | from there every run and every abort fails and changes nothing |
| RecycleResume.AdoptionCompletes | internal/bootstrap/recycle_cluster.go:480-530 | uninterrupted, the replacement ends under the final name, recorded and running |
| RecycleResume.AdoptionResumesExactlyWhen | internal/bootstrap/recycle_cluster.go:480-530 | run again after any interruption, adoption always returns nil, and finishes the job exactly when the rename had not happened yet or nothing was left to do |
| RecycleResume.AdoptionIsNotResumed | internal/bootstrap/recycle_cluster.go:480-486 | after a death right behind the rename the next run reports success with the bastion stopped and not recorded |
| RecycleAbort.AbortFinishesExactlyWhen | internal/recycle/engine.go:289-324 | with the provider cooperating, the abort of a journalled run returns nil exactly when no handover was begun, or the original is there and the replacement can be seen to hold the volume |
| RecycleAbort.FailedHandOverCannotBeAborted | internal/recycle/phase.go:172-192 | a handover that failed with the volume still on the original can never be aborted, whatever the provider answers |
| RecycleAbort.WedgedStays | internal/recycle/engine.go:191-218 | with the handover journalled and the replacement gone, every further command fails and changes neither |
| RecycleAbort.AbortWedgesExactlyWhen | internal/recycle/engine.go:312-323 | an abort that has moved the volume back ends there exactly when the deletion takes effect and one of the two calls after it keeps it from clearing the journal |
| RecycleAbort.UnjournalledAbortKeepsExactlyWhen | internal/recycle/engine.go:298-324 | with the state file gone, an abort keeps the volume exactly when it can be recognised without a record |
| RecycleAbort.LosingBothLosesTheDisk | internal/cpi/pve/storage.go:764-860 | a reassignment that dies before it restores the serial, and then a save that loses the file, let an abort destroy the volume |
| Cidr.WordRoundTrip | internal/bootstrap/network.go:625-633 | a word becomes four octets and back |
| Cidr.IpRoundTrip | internal/bootstrap/network.go:625-633 | four octets become a word and back |
| Cidr.BlockIsInterval | internal/bootstrap/network.go:583-594 | the addresses that share a prefix are an interval from the masked base, and it never passes the end of the space |
| Cidr.LastIsRight | internal/bootstrap/network.go:586-594 | base + size - 1 in wrapping words is the last address of every block, /0 included |
| Cidr.ContainmentExactlyWhen | internal/bootstrap/network.go:572-601 | containment holds exactly when every address of the child is one of the parent |
| Cidr.NoWrap | internal/bootstrap/network.go:484-523 | no product or sum of a carve wraps and the check of each block against the parent never fails |
| Cidr.ChildrenAreCarved | internal/bootstrap/network.go:400-406 | consecutive children are aligned, inside the parent, adjacent and disjoint |
| Cidr.TilesExactlyWhen | internal/bootstrap/network.go:432-437 | they cover the parent exactly when there are as many as fit |
| Cidr.CalculateNewPrefix | internal/bootstrap/network.go:467-482 | the shortest prefix above the parent's, up to /30, that gives the count; none when there is none |
| Cidr.NewPrefixExistsExactlyWhen | internal/bootstrap/network.go:467-482 | there is one exactly when /30 blocks are enough |
| Cidr.GenerateSubnets | internal/bootstrap/network.go:484-517 | the loop in 32-bit words fills in the children of unbounded arithmetic |
| Cidr.SplitIntoN | internal/bootstrap/network.go:380-397 | nil exactly when /30 blocks are not enough; otherwise a carve, which covers the parent exactly for counts that are a power of two above 1 |
| Cidr.SplitToTargetPrefix | internal/bootstrap/network.go:407-452 | nil exactly when the prefix or the count does not fit; otherwise a carve of blocks of that prefix |
| Cidr.SplitParentIntoTwo | internal/bootstrap/network.go:353-376 | two halves that cover the parent, exactly for parents shorter than /30 |
| Cidr.CarvePve | internal/bootstrap/network.go:671-680 | four disjoint subnets exactly for parents up to /28: blocks of /22 wherever four of them fit, and an even split in four otherwise |
| Cidr.PlacementIsInsideExactlyWhen | internal/bootstrap/network.go:1292-1311 | the address at an offset is in its block exactly when the offset is below the block's size |
| Cidr.PlacementsNeverCollide | internal/bootstrap/network.go:1292-1311 | over the blocks of a carve, different placements are different addresses |
| Cidr.GatewayIsInsideExactlyWhen | internal/bootstrap/network.go:557-566 | the gateway is the placement at 1, inside its block exactly up to /31 |
| Cidr.LastUsableExactlyWhen | internal/bootstrap/network.go:538-553 | there is a last usable address exactly from /1 to /31, and it is the one before the block's last |
| KeyPair.PrivateKeyIsNeverRewritten | internal/bootstrap/compute.go:1533-1609 | over any runs with any failures a private key on disk stays as it is |
| KeyPair.PrivateKeyIsRewrittenExactlyWhen | internal/bootstrap/compute.go:1694-1732 | the one way to lose it: stat fails on the file each time, a new pair is minted and registered, and the write goes through |
| KeyPair.RegistrationAgreesExactlyWhen | internal/bootstrap/compute.go:1644-1845 | a successful registration records the key it used; the provider holds another one exactly when an old one was not deleted and then reported as a conflict |
| KeyPair.MintedPairIsOnDisk | internal/bootstrap/compute.go:2059-2099 | a newly minted pair is on disk, both halves, and on record |
| KeyPair.RecordOpensWithTheKeyOnDisk | internal/bootstrap/compute.go:1533-1609 | over any runs the record and the .pub file belong to the private key on disk, and a run that succeeds has a record |
| KeyPair.SuccessIsStable | internal/bootstrap/compute.go:1556-1590 | after a success any further run succeeds and changes nothing |
| KeyPair.WorkingRunSucceedsExactlyWhen | internal/bootstrap/compute.go:1694-1732 | with all calls working a run succeeds exactly when the public key can be read or derived, or a pair minted; a missing .pub is restored |
| KeyPair.OrphanedPublicKeyMisleads | internal/bootstrap/compute.go:1702-1730 | how a wrong .pub comes to be recorded: it was there without its private key, and the second write of a new pair failed |
| KeyPair.RecordOpensExactlyWhen | internal/bootstrap/compute.go:1702-1730 | a registration on a private key that is there records a key that belongs to it exactly when the .pub file is missing, unreadable or right |
| KeyPair.RecordOpensOverRunsExactlyWhen | internal/bootstrap/compute.go:1533-1609 | over any runs, whichever of them registers, exactly when the .pub file was missing or right at the start: a wrong one is never noticed |
| KeyPair.MintedSidecarIsRightExactlyWhen | internal/bootstrap/compute.go:2059-2099 | a minted private key has a right .pub beside it, or none, exactly when the second write goes through or leaves none or the right one |
| KeyPair.KeyManager.VerifyExistingKeypair | internal/bootstrap/compute.go:1556-1590 | a recorded pair is skipped when its private key is there, and its record dropped otherwise |
| KeyPair.KeyManager.GenerateLocalSSHKeyPair | internal/bootstrap/compute.go:1694-1766 | a key on disk is used, its public half read or derived and written back; only without one is a pair minted |
| KeyPair.KeyManager.CheckExistingLocalKeyPair | internal/bootstrap/compute.go:1772-1819 | whether the provider's key is this one; another one is deleted |
| KeyPair.KeyManager.SavePrivateKey | internal/bootstrap/compute.go:2059-2099 | both files after every way the writes can end |
| KeyPair.KeyManager.CreateKeyPair | internal/bootstrap/compute.go:1533-1554 | one run, with its whole effect on files, provider and record |
| KeyPair.CreateKeyPairs | internal/bootstrap/compute.go:1533-1554 | runs one after another, whatever fails in them, leave a private key that was there as it was |
| DataVolume.NoEarlierVolumeIsDeleted | internal/bootstrap/compute_data_volume.go:92-107 | whatever fails in whatever runs, a volume that was there before is there after |
| DataVolume.CountGrowsExactlyWhen | internal/bootstrap/compute_data_volume.go:77-107 | a run adds one data volume exactly when there is no record, no listed name is the state's or the present bastion's, and a creation takes effect and is not undone |
| DataVolume.NeverASecondExactlyWhen | internal/bootstrap/compute_data_volume.go:151-186 | over any runs, rebuilt bastions and unlisted pools included, there is a second data volume exactly when some run found neither record nor known name while there was one, and made one that stayed |
| DataVolume.RecordKeepsItSingle | internal/bootstrap/compute_data_volume.go:154-163 | while there is a record no run makes a volume, whatever the bastion and the listing |
| DataVolume.ListingKeepsItSingle | internal/bootstrap/compute_data_volume.go:165-197 | without one, listings keep it single for a bastion that never changes where they show volumes by the expected names |
| DataVolume.RebuiltBastionGetsASecond | internal/bootstrap/compute_data_volume.go:191-197 | without a record a rebuilt bastion does not know its predecessor's volume and gets a second one |
| DataVolume.PrefixedNamesAreUnknown | internal/cpi/pve/storage.go:324-383 | listed by pool-prefixed ids, as PVE does, no volume is ever known by name |
| DataVolume.SuccessSettles | internal/bootstrap/compute_data_volume.go:109-127 | a success leaves the recorded volume existing and attached to the bastion |
| DataVolume.SettledStays | internal/bootstrap/compute_data_volume.go:50-127 | from there no run, whatever fails in it, changes anything |
| DataVolume.RebuiltBastionGetsTheRecorded | internal/bootstrap/compute_data_volume.go:43-49 | with a record a rebuilt bastion is given that volume and no other |
| DataVolume.ConvergesExactlyWhen | internal/bootstrap/compute_data_volume.go:154-163 | with all calls working a run succeeds exactly when a record, if any, names a volume that exists |
| DataVolume.ListedVolumeIsAdopted | internal/bootstrap/compute_data_volume.go:165-187 | a success without a record attaches and records the first volume listed by a name the run knows |
| DataVolume.RecordedVolumeIsAttached | internal/bootstrap/compute_data_volume.go:154-163 | with a record exactly the volumes of that id are attached to the bastion and the others stay as they were |
| DataVolume.OthersStayAttached | internal/bootstrap/compute_data_volume.go:50-127 | over any runs, whatever fails, a volume that is neither recorded nor known by name to any of them stays as it is and where it is attached |
| DataVolume.Manager.EnsureBastionDataVolume | internal/bootstrap/compute_data_volume.go:50-127 | the method's whole effect on volumes and record |
| DataVolume.Manager.Attach | internal/bootstrap/compute_data_volume.go:89-127 | attach, record, and clean up only a volume of this run |
| DataVolume.EnsureAll | internal/bootstrap/compute_data_volume.go:50-127 | runs one after another, the record kept or lost and the bastion rebuilt in between, delete no earlier volume and make a second data volume exactly under that condition |
| PublicIp.DecimalIsInjective | internal/bootstrap/publicip.go:401-402 | different slots have different numerals |
| PublicIp.EverySlotRecordedOrFailed | internal/bootstrap/publicip.go:317-367 | each slot is recorded under its own index, in its own output and record, or named in the error, whatever its siblings do; the error is nil exactly when all are recorded |
| PublicIp.EverySlotGetsItsOwn | internal/bootstrap/publicip.go:369-417 | every address obtained matches its own slot by name or labels, or is the one on record for it |
| PublicIp.AtMostThreeCreations | internal/bootstrap/publicip.go:330-361 | at most three creations are asked for a slot and none for other slots |
| PublicIp.SlotFailsExactlyWhen | internal/bootstrap/publicip.go:330-361 | a slot without a record is given up exactly when none of its three tries is told it made an address or finds in a listing one that was there or that an earlier try had made |
| PublicIp.RerunCreatesNothingForRecorded | internal/bootstrap/publicip.go:369-387 | a rerun asks for no address for a recorded slot and gets it again |
| PublicIpSharing.DifferentSlotsDifferentAddresses | internal/bootstrap/publicip.go:401-417 | where no listed address matches two slots and records are distinct, different slots get different addresses, whatever fails |
| PublicIpSharing.SlotsShareExactlyWhen | internal/bootstrap/publicip.go:401-417 | where listings work and nothing is on record, two slots get one address exactly when the same one comes first for both |
| PublicIpSharing.ListingGivesOwnExactlyWhen | internal/bootstrap/publicip.go:401-417 | a listing gives a slot an address of its own name exactly when one such comes before everything else that matches |
| PublicIpSharing.ForeignAddressIsAdoptedExactlyWhen | internal/bootstrap/publicip.go:369-417 | and otherwise the slot takes one that only carries the labels, of whatever bloc |
| PublicIp.Manager.GetOrCreatePublicIP | internal/bootstrap/publicip.go:369-450 | the cloud first, then the state, then a creation, with every way it can end |
| PublicIp.Manager.SavePublicIPsToState | internal/bootstrap/publicip.go:261-294 | the loop that writes records and outputs |
| PublicIp.Manager.EnsureAndRecordPublicIPs | internal/bootstrap/publicip.go:317-367 | the nested loops leave each slot recorded or failed, and the error nil exactly when all are recorded |
| ShellQuote.EscapedScriptIsOneWord | internal/bastion/phases.go:1019-1024 | a whole script, whatever is in it, reaches bash as one argument |
| ShellQuote.QuoteReadsBack | internal/commands/artifacts_provision.go:443-446 | for every text, what either escaper prints is read by a POSIX shell as that one word |
| ShellQuote.RawQuoteReadsBackExactlyWhen | internal/bastion/phases.go:997-1005 | without escaping this holds exactly for values without a single quote |
| ShellQuote.SourceRecoversExactlyWhen | internal/commands/artifacts_provision.go:431-449 | sourcing the rendered environment recovers the map, with any values in any order, exactly when every key is a shell name |
| ShellQuote.RenderEnvAssignments | internal/commands/artifacts_provision.go:434-449 | the loop prints those lines, so the shell reads the map back under that condition |
| ShellQuote.AppendEnvVar | internal/commands/bastion.go:545-560 | the operator's value before the configuration's, and no line without a value |
| ShellQuote.OperatorComesFirst | internal/commands/bastion.go:545-556 | a name is forwarded with the operator's value where there is one, else with the configuration's, and not at all without either |
| ShellQuote.ForwardVariables | internal/commands/bastion.go:531-535 | sourcing the lines sets exactly the named variables that have a value |
| ShellQuote.BuildEnvironmentVariables | internal/commands/bastion.go:501-536 | for the twelve names that are forwarded |
| EtcEnvironment.OtherLinesStay | internal/bastion/init.go:2802-2849 | every line that is not blank and sets no desired key stays, in order, for every map iteration order |
| EtcEnvironment.EachKeyIsSetOnce | internal/bastion/init.go:2838-2849 | each desired key is set by exactly one line, to its desired value |
| EtcEnvironment.MergingTwiceIsMergingOnce | internal/bastion/init.go:2800-2849 | merging again, in any order, is merging once in that order |
| EtcEnvironment.ReadsBackExactlyWhenWritable | internal/bastion/init.go:2824-2846 | a variable alone reads back exactly when its key is not empty and has no '=' or newline and its value no newline |
| EtcEnvironment.EmptyKeyAccumulates | internal/bastion/init.go:2824-2829 | an empty key is never recognised: every merge adds a line |
| EtcEnvironment.BuildProposedEnvironment | internal/bastion/init.go:2802-2849 | the loops produce a text in which the other lines stay and each desired key is set exactly once |
| Ingress.BuildServiceIngress | internal/bootstrap/cloudflare.go:116-131 | one rule a service, in order, with TLS verification off only where configured |
| Ingress.RoutedTo | internal/cloudflare/tunnel.go:101-130 | where the first matching rule sends a hostname: its first service, the SSH origin, a wildcard's origin, or the 404 |
| Ingress.CfExactHostnameOrigins | internal/commands/endpoints_cloudflare.go:42-66 | the map holds exactly the configured hostnames, each with the origin of its first service or of SSH |
| Ingress.ReportIsRightExactlyWhen | internal/commands/endpoints_collect.go:257-282 | for every hostname, the reported origin of an ocf-tier name is where its traffic goes exactly when it is no half-configured SSH hostname |
| Ingress.ExactMapIsRightExactlyWhen | internal/commands/endpoints_cloudflare.go:27-66 | the map alone agrees with first-match routing under the same condition |
| Ingress.NamelessServiceTakesAll | internal/cloudflare/tunnel.go:101-113 | a first service without a hostname takes every hostname's traffic and is not reported |

## Left out

- Locking: the progress record is not locked in the source.  Each mark, snapshot and
  half of a file write is atomic in the model, so a torn read of the map, the Go
  runtime's abort on concurrent map writes, and the bytes of two interleaved writes
  to one file are not captured.
- `PhasePool` and `ParallelRun` are state machines on values, since the source is a
  set of goroutines over channels; pointers between them are not modelled.
- ResumeSafety.TheFileNeverOverclaims: excludes dry parallel runs, which do
  overclaim (see above).
- RecycleSafety.TheDataDiskSurvives: assumes that listings and other reads answer
  truthfully, that at most one guest has each of the two names, that neither of these
  guests holds another volume with the data serial or a `-data` name, and that no other
  volume goes by the recorded id; a listing that fails is read as absence by the source.
- A provider's own refusal to move the disk of a running guest is just a refused call.
- A safety copy or archive in a recycle is a call that works or fails and is counted;
  what is in it, image and network resolution, and OS disks are not tracked.
- Cidr.IsSubnetWithinParent: IPv6 arguments, for which the source panics, are excluded by
  its precondition; an IPv4 address in IPv6 notation is not told apart from IPv6.
- The text of CIDRs and addresses: printing and net.ParseCIDR are taken to be inverse.
- The /24 siblings used when a split fails, which may lie outside the parent.
- KeyPair.CreateKeyPair: AWS, where the cloud mints the key, and the copy of the
  private key in the bloc's configuration; a state change that is never saved.
- PublicIp.Manager.EnsureAndRecordPublicIPs: the STACKIT jumpbox addresses, which have
  no retries.
- `sort.Strings` in the rendering of environments: `keys` is given in order, and the
  result holds for any order.
- NUL characters in texts handed to a shell, and word expansion: the reader has no
  value for a word that would be expanded.
- URL parsing: the host of a URL is a function that is only known to map "" to "".
- Progress rendering, logging, backoff delays, cleanup of old checkpoints, the failed
  phases and metadata in a checkpoint, and JSON, which is taken to be lossless.
- SSH, HTTP, DNS, TLS, Vault and S3, script bodies, flags and tables.
