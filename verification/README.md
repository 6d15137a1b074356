# Verified model of Navigatorr's crash-safe file replacement

Navigatorr replaces a media file with a smaller, verified transcode of it (a *promotion*). It moves the original
aside, or copies it when the file system refuses the rename; publishes the candidate under the final name; removes
the original; and at last removes the recovery file. Every side effect is bracketed by a durable intent, because the
process can die between any save and any call. This project models that protocol, and what drives it, in Dafny, and
proves what it keeps over whole runs.

## How the model is built

- `Volume.dfy` is the file system: names pointing at inodes, so hard links are several names of one file; a clock
  stamps mtimes and ctimes. A SHA-256 digest is identified with the bytes it was computed from.
- `Protocol.dfy` holds the durable record and its agreement with the disk (`Agrees`), and what more holds while only
  the promotion itself touched the disk (`Interrupted`). It also says where an undisturbed run leads from any such
  state (`Ending`, by `Stops` and `Doomed`), and what of that no own step can change any more (`Sealed`).
  `Effects.dfy` proves that each disk effect keeps all this, `Records.dfy` that each change of the record does.
- `Machine.dfy` is the machine: a volume, the stored record, the running step's record, and an oracle that says
  before every system call whether a stranger creates a file at an empty library path, whether the call fails, with or
  without its effect, whether the file system refuses to move the original aside, whether the run is cancelled, and
  whether the process dies there. Its clock counts the calls, so a contract that says how many of them a success took
  also says that no read or pause among them was left out.
- `Recovery.dfy`, `MoveAside.dfy`, `Publish.dfy`, `Finish.dfy` and `Backups.dfy` are the Go functions, step by step,
  as methods on that machine. `Lives.dfy` puts them together: checkpoints, restarts and the user's choices in any
  order. `Pitfalls.dfy` holds runs that reach the states a promotion does not recover from by itself.
- The other files are one component each: `EngineRuns` (the engine's execute, resume, retry and cancel),
  `Fingerprints` (the verified-file cache), `CopyOffload` (clone, kernel copy, stream), `Disposables` (truncate before
  unlink), `Commands` (library commands), `OldFiles` (the DELETE of the old file, on the same machine), `ReadAhead` (the read-ahead
  pipeline), `Dispatcher` (dispatcher and hash slots), `Admission` (parent and child admission), `Claims` (who may
  replace a file), `Attempts` (a batch's encoding attempts), `FanOut` (how many children a batch may start).

Concurrent parts (`ReadAhead`, `Dispatcher`, `Admission`, `Claims`) are state machines whose every interleaving is
considered: `After(steps)` is the state after any sequence of enabled steps, and the theorems quantify over all of
them. Sequential parts are classes with methods that change fields, driven by an oracle; their `Live` method takes any
sequence of calls, and its `ensures` clauses are the theorems over whole runs.

## What the proofs found

- **Convergence has three exceptions, and no others.** `Wander`, `Converge` and `Execute`: from whatever the promotion's
  own steps, crashes and failures left, an undisturbed run finishes if and only if that state does not stop it
  (`Stops`), and ends on the replaced disk if and only if it is not doomed (`Doomed`). Both are conditions on the disk,
  the stored record and whether the original has a stable identity, before the run; the next three points are the ways
  to meet them. None is met when the two files differ or have different names, and the original never lost its identity.
  An undisturbed run is one in which nothing fails; the file system may still refuse the move aside, which turns the
  promotion to a copy for good and changes nothing about where it ends (`PreserveForRemoval`).
- **A recorded move aside needs the original's identity.** When that is gone for good, the move is refused each time;
  gone before the preserve step, the original is copied and the promotion ends as any other (`IdentityGone`).
- **A preserve retry can leave a partial that blocks its own mode** (`Blocked`). When a retry in move-aside mode finds
  that the original has lost its stable identity, it switches to copying, in memory (action/promote_files.go:610-642).
  A copy that then stops leaves a partial while the stored mode is still move-aside, and the move refuses to start
  beside a partial. Nothing is lost, but a person has to remove the partial. `LeavePartial` reaches this state from
  every plan, and `PartialBlocks` shows the undisturbed run after it that does not end.
- **An equal candidate under the original's name can be taken for published** (`Mistaken`). A crash between the saved
  publish intent and the rename is taken for a finished publication (action/promote_filesystem.go:86-91): the promotion
  goes on, and the candidate stays at its temporary path. `LeaveIntent` reaches the state from every such plan, and
  `TwinsAreMistaken` shows the undisturbed run after it: completed, but not replaced, or in move-aside mode never
  completed.
- **The move back after a failed publish is not deferred on every failure.** The comment at
  action/promote_filesystem.go:65-68 says "every failure, including any later retry that stops early", but the defer
  comes after the step's own admission (lines 61-64). `Publish`: without other faults, a failed same-name publish leaves
  the library path empty if and only if it was turned away at that admission and had found the path empty.
  `PathStaysEmpty` is such a run, for every same-name plan.
- **DELETE acts on its last look.** The comment at action/promote_workflow.go:220-221 says that DELETE is sent only when
  nothing is at the old path any more. After a move aside the path is empty when DELETE leaves if and only if no file
  came there in the two calls since the `Lstat`, the save of the intent and the request itself (`Justified`);
  `DeleteMeetsAnother` is a run in which one does.
- **Half a settings change can be stored.** A schedule run supersedes the marked attempts that ended, in the
  coordinator's state; when it then stops at an item or its commit fails, nothing is committed, but the failing step's
  checkpoint stores that state (action/engine.go:1064-1085). `ApplyPending`: every item's account still holds afterwards
  if and only if no marked item the run had handled had ended. `HalfARevision` is such a run from a new batch: the
  attempt is in the history and still the one its row names, and `RecordedTwice` shows what a later revision makes of
  it. Only ended attempts are superseded and no key is used again even then (`Attempts.Live`).
- **A plan whose save failed may still take effect.** The failing step keeps it in memory and its checkpoint stores it,
  outside the replacement lock (action/transcode_batch_promotion.go:170-172, action/engine.go:1082-1084).
  `OneClaimantAlways`: no file is both in the live plan and replaced on its own exactly while no member of such a plan
  was submitted by someone who had found it free before the plan was stored. `TwoClaimants` shows both orders: submitted
  before the plan is stored, and between its check and its submission.
- **A discard can be fooled.** `promotionRecoveryIsOnlyOriginal` (action/promote_move_aside.go:454-468) takes any file of
  the candidate's size at a library path for the replacement. With nobody else on the disk a discard never removes the
  only original (`DiscardLeaves`); with a stranger's file of that size it can (`DiscardFooled`).
- **A kernel copy may be believed too early.** `copy_file_range` answering 0 is the end of the source when anything
  was copied, or when the size could not be read (`total` is 0). `CopyData`: a successful copy differs from the source
  if and only if the clone is refused and the kernel's answers end early (`EndsEarly`, on the source and the answers
  alone); `ShortCopySucceeds` is such a copy. The caller's read-back refuses it.
- **A carried fingerprint is exact unless that file's mtime was set back** (`CarryRenamed`, `BackdatedCarryIsWrong`):
  the carry after an own rename accepts a new ctime.
- **An approval can be used twice.** `UseReplacementApproval` accepts a used approval, so a promotion whose process
  died between using it and storing its own approval uses it again (`UsedAgainAfterCrash`). `OneClaimantAlways` counts
  exactly, too: every use stands in a promotion that is approved or about to be, or was lost, by a save that never happened
  or because a replacement that failed early went back to its plan.
- **Admission rests on the lease.** A lease that expires between `parentLeaseHeld` and the submit lets that one submit
  follow a durable cancellation (`ExpiryLetsOneThrough`); `NoSubmitAfterCancel` proves that nothing else can.

## Model

| member | source | states |
|---|---|---|
| Lives.Live | action/engine.go:989-1285 | Over any sequence of runs, restores, discards of a duplicate copy and restarts, each with any failures, crashes and strangers: the original's bytes are at its library or recovery path, or cleanup durably started and the candidate is in place; in move-aside mode the durable flags say where the original is; and every file a stranger put at a library path is still there, unchanged, unless it was empty or equal to the original or the candidate. Left to itself, a promotion of two files that can be told apart is never blocked by a leftover while the original keeps its identity |
| Lives.Wander | action/promote_filesystem.go:60-331 | From an approved plan on an untouched disk, however often the promotion crashes, fails and restarts, at whatever call, only its own steps have touched the disk; and nothing dooms it unless the two files are equal under one name or the original once lost its identity |
| Lives.Converge | action/promote_filesystem.go:60-331 | From any state such a past leaves, one undisturbed run finishes if and only if the disk and record it starts from do not stop it, and ends with the candidate under its name, no separate original, no recovery file and no partial if and only if they are not doomed |
| Lives.Execute | action/engine.go:989-1285 | From any state the promotion's own steps and crashes can leave, an undisturbed run completes every step if and only if that state does not stop it, and ends on the replaced disk if and only if the state is not doomed, whether the original then has a stable identity or not and whether or not the file system refuses to move it aside; any run only moves the checkpoint forward, and success means it reached the end |
| Lives.RunStep | action/promote_template.go:26-35 | Each filesystem step, from its checkpoint, in any environment: keeps the stored record in agreement with the disk, and when it succeeds leaves what the next step starts from; undisturbed, it succeeds unless the promotion is stuck for good, and neither mends nor adds what dooms it |
| Lives.Advance | action/engine.go:1001-1257 | The checkpoint moves only past a step that succeeded, and by one; when the run goes on it has moved; undisturbed, where the promotion will end stays the same from step to step |
| Lives.Checkpoint | action/engine.go:1229-1256 | The checkpoint moves only past a completed step, and by one; what is stored is the record as it was or the step's result, which is stored when the save is reported; either agrees with the disk |
| Lives.Restart | action/promote_fingerprint.go:36-52 | A new process, even under a new device number, starts from the stored record alone, which agrees with the disk |
| Lives.Take | action/backup_restore.go:48-91 | Any one call on a promotion, by the engine or the user, keeps the agreement; with nobody else on the disk the engine's calls leave only the promotion's own files, and block it only after the original lost its identity |
| Pitfalls.LeavePartial | action/promote_files.go:607-653 | From every plan: preserve records a move aside, the process dies before the checkpoint, and a retry that finds the identity lost dies while it copies instead; the stored mode is move-aside, and a partial is left |
| Pitfalls.PartialBlocks | action/promote_move_aside.go:136-146 | After that, a run in which nothing fails does not end, and the file is not replaced |
| Pitfalls.IdentityGone | action/promote_move_aside.go:172-187 | From every plan of files that can be told apart: when the original loses its identity for good after a move aside was recorded, a run in which nothing fails does not end; when it loses it before, the run copies it and ends on the replaced disk |
| Pitfalls.LeaveIntent | action/promote_filesystem.go:86-114 | From every plan of equal files under one name: the publish intent is saved and the process dies before the rename |
| Pitfalls.TwinsAreMistaken | action/promote_filesystem.go:86-91 | After that, a run in which nothing fails leaves the candidate at its temporary path: it completes when the original was copied, and does not end when it was to be moved aside |
| Pitfalls.PathStaysEmpty | action/promote_filesystem.go:61-81 | From every same-name plan: the original is moved aside, the process dies, the approval is withdrawn; the next run is turned away and leaves the library path empty, with the original at its recovery path |
| Pitfalls.DiscardFooled | action/promote_move_aside.go:450-468 | From every same-name plan: the original is aside, a stranger's file of the candidate's size comes to its path, and a discard that nothing refuses leaves neither the original nor the candidate |
| Pitfalls.DeleteMeetsAnother | action/promote_workflow.go:220-232 | From every plan with a new name: the original is moved aside, its path is seen empty, another file comes there while the intent is saved, and DELETE is sent all the same |
| Protocol.PlannedIsGood | action/promote_files.go:269-485 | An approved plan on an untouched disk satisfies the agreement, and what holds of any interruption by the promotion's own steps |
| Protocol.Seal | action/promote_filesystem.go:60-331 | What the stored record and the disk decide of the ending can be sealed, by a leftover partial, by a lost identity, or by everything once published: from then on every own step, failed or not, keeps it |
| Protocol.SealedMeans | action/promote_filesystem.go:60-331 | A sealed ending is where an undisturbed run leads; a stuck or pinned promotion is never at its end, and neither they nor a spoiled one are ever on the replaced disk |
| Effects.StrangerKeeps | action/promote_move_aside.go:333-417 | A stranger's file appearing at an empty library path breaks none of the agreement, whatever it holds |
| Effects.MoveAsideKeeps | action/promote_move_aside.go:125-248 | Under the saved intent, the rename aside keeps the agreement and every foreign file, and leaves the original at the recovery path only |
| Effects.MoveBackKeeps | action/promote_move_aside.go:354-382 | Under the saved intent and onto an empty path, the rename back keeps the agreement, touches no library file and puts the original back in place |
| Effects.PublishKeeps | action/promote_filesystem.go:125-144 | Once the original is safe and the intent saved, the candidate's rename keeps the agreement and every foreign file, over the verified original in copy mode and onto a free name otherwise |
| Effects.EmptyOriginalKeeps | action/promote_original_truncate.go:88-106 | Emptying the verified original, under its last name and with its copy kept, keeps the agreement and the copy's bytes |
| Effects.EmptyingIsSafe | action/promote_original_truncate.go:33-66 | Whenever the original is emptied, a different file at the recovery path holds its bytes, the verified candidate is in place and stays whole, and no other name's contents change |
| Effects.RemoveOriginalKeeps | action/promote_filesystem.go:203-227 | Unlinking the original, whole or emptied, under the saved removal intent keeps the agreement and the copy |
| Effects.EmptyRecoveryKeeps | action/promote_recovery_truncate.go:15-49 | Emptying the recovery file under its last name after cleanup durably started keeps the agreement |
| Effects.RemoveRecoveryKeeps | action/promote_filesystem.go:292-304 | Unlinking the recovery file after cleanup durably started keeps the agreement |
| Effects.FillPartialKeeps | action/promote_files.go:828-874 | Any partial copy, cut off anywhere, keeps the agreement |
| Effects.PublishPartialKeeps | action/promote_files.go:876-909 | Renaming a whole partial to the empty recovery path keeps the agreement |
| Effects.DiscardKeeps | action/backup_duplicate.go:119-148 | With the verified original in its place and nothing moved or cleaned up, emptying or unlinking the duplicate copy loses nothing |
| Records.ChosenKeeps | action/promote_files.go:607-639 | Recording a recovery mode agrees with the disk; move-aside mode records the identity of the file just read whole |
| Records.CopiedKeeps | action/promote_files.go:806-813 | A copy is recorded as verified only while the recovery path holds the original's bytes |
| Records.IntendedKeeps | action/promote_move_aside.go:158-187 | The move intent is recorded only while the verified original is in place and the recovery path empty |
| Records.MovedKeeps | action/promote_move_aside.go:238-247 | The move is recorded only when the recovery path holds the very file that was in place |
| Records.FallenBackKeeps | action/promote_move_aside.go:292-308 | A refused move becomes copy mode for good only while the original is still in its place |
| Records.Whereabouts | action/promote_move_aside.go:147-228 | In move-aside mode before cleanup, an empty recovery path means the original is in place, an occupied one means a durable intent and the original there |
| Records.MayMoveBack | action/promote_move_aside.go:333-353 | An empty library path after a move aside started means publish has not finished and the recovery path holds the original |
| Records.BackWhereabouts | action/promote_move_aside.go:399-417 | An unfinished move back means exactly one of the two paths holds the original, as the recovery path shows |
| Records.BackIntendedKeeps | action/promote_move_aside.go:354-357 | The move-back intent is recorded only while the original is aside |
| Records.RestoredKeeps | action/promote_move_aside.go:419-448 | Clearing every intent is recorded only while the original is back in place and the recovery path empty |
| Records.PublishIntendedKeeps | action/promote_filesystem.go:111-114 | The publish intent may be saved as soon as the recovery is settled |
| Records.PublishedKeeps | action/promote_filesystem.go:160-164 | The publication is recorded only while the candidate's bytes are under its name |
| Records.PublishResumes | action/promote_filesystem.go:76-144 | Wherever an interrupted publish stopped, a retry finds its recovery provable, and either its result or everything it needs |
| Records.ConfirmedMeans | action/promote_filesystem.go:86-91 | A publication that a rerun confirms is a mistake if and only if the candidate is still at its temporary path |
| Records.RemovalIntendedKeeps | action/promote_filesystem.go:203-207 | The removal intent is recorded only while a verified copy is at the recovery path |
| Records.DeletionIntendedKeeps | action/promote_workflow.go:228-231 | The library may be told to delete the old file only while the recovery path holds the original's bytes, moved there or copied |
| Records.OldGoneKeeps | action/promote_filesystem.go:235-238 | The original is recorded as removed only when nothing keeps it at its path any more |
| Records.RemoveResumes | action/promote_filesystem.go:174-234 | Wherever an interrupted removal stopped, a retry finds the replacement in place, the recovery provable, and the original whole, emptied or gone under its intent |
| Records.FinalizeResumes | action/promote_filesystem.go:242-331 | Wherever an interrupted finalization stopped, a retry finds the replacement final, and the recovery file whole, emptied or gone only as its intents say |
| Records.CleanupIntendedKeeps | action/promote_filesystem.go:281-285 | The cleanup intent is recorded only once the replacement is final and its recovery verified, or cleanup had started before |
| Records.CleanedUpKeeps | action/promote_filesystem.go:315-318 | Completion is recorded only under the cleanup intent and with the recovery file gone |
| Records.AdvancedKeeps | action/engine.go:1229-1256 | The checkpoint may move exactly past a completed step |
| Records.EndingKept | action/engine.go:1229-1256 | A step that keeps what may doom the promotion, and its checkpoint, keep where an undisturbed run leads |
| Records.EndingMeans | action/promote_filesystem.go:261-331 | A doomed promotion is nowhere on the replaced disk, and one at its end is there if and only if it is not doomed |
| Records.DoneIsReplaced | action/promote_filesystem.go:261-331 | A record at its end means the fully replaced disk if and only if it is not doomed, and nothing that stops a promotion lets it get there |
| Records.GoodMeans | action/promote_filesystem.go:60-331 | The agreement kept by every call implies no loss and that the flags tell where the original is |
| Records.EmptyingPlannedKeeps | action/backup_duplicate.go:119-125 | The intent to empty a duplicate copy changes none of what makes it a duplicate |
| Records.DiscardedKeeps | action/backup_duplicate.go:144-148 | A discarded duplicate is recorded as no longer verified, and nothing else changes |
| Machines.Machine.Save | action/promote_template.go:179-185 | A save that reports success stored exactly the running record; one that fails stored it or left the old one; a crash there is safe either way |
| Machines.Machine.Report | action/promote_files.go:495-506 | A progress report in the middle of a read or a copy stores nothing but the record the step shares with the engine, and that is safe at any time |
| Machines.Machine.Enter | action/promote_template.go:242-273 | A step is admitted only while the run is neither cancelled nor unapproved; a refusal changes nothing |
| Machines.Machine.Admit | action/promote_filesystem.go:35-56 | A mutation is admitted only when, besides, no coordinator is busy; moving the original aside, publishing, emptying and unlinking all demand such an admission made after their own intent was saved, and only the move back does without |
| Machines.Machine.Identify | action/promote_move_aside.go:70-88 | Whether the original has a stable identity is asked anew before each use of it, and asking changes nothing |
| Machines.Machine.RenameAside | action/promote_move_aside.go:281-290 | The rename aside, failing or refused at any point, leaves the original in place or aside, and success or refusal says which |
| Machines.Machine.RenameBack | action/promote_move_aside.go:354-371 | The rename back never replaces a file, whoever created it a moment before, and the original is at one of its two paths whatever happens |
| Machines.Machine.Publish | action/promote_filesystem.go:137-143 | The candidate takes its name over the verified original in copy mode and never over any other file, and then is at its temporary path no longer |
| Machines.Machine.EmptyOriginal | action/promote_original_truncate.go:88-106 | Emptying, wherever it stops, leaves the original whole or empty, its recovery copy as it was and the replacement whole, and never fails the removal; undisturbed, a last link is emptied |
| Machines.Machine.UnlinkOriginal | action/promote_original_truncate.go:88-106 | The original is unlinked only under the saved intent, and its copy is whole afterwards |
| Machines.Machine.UnlinkRecovery | action/promote_recovery_truncate.go:34-49 | The recovery file is unlinked only after cleanup durably started or as a duplicate of the original in place; neither promotion file is touched |
| Machines.Machine.CopyToPartial | action/promote_files.go:828-874 | A copy that succeeds holds the source's bytes, one that stops leaves a prefix or nothing, and neither touches the recovery path or the files; a process that dies in it after some effect leaves a partial |
| Recoveries.VerifyRecovered | action/promote_files.go:940-985 | Success proves the original's bytes at one of its two paths, and at the recovery path once it was copied or moved; undisturbed, it succeeds if and only if they are where the record puts them |
| Recoveries.FindLeftover | action/promote_files.go:683-687 | A leftover is denied only when both paths were seen empty; undisturbed, exactly then |
| Recoveries.RemovePartial | action/promote_files.go:911-938 | A leftover partial is removed only after it proved to be a whole copy, any other is kept as it is; undisturbed, success means exactly that there was none or a whole one |
| Recoveries.PublishPartial | action/promote_files.go:876-909 | Success leaves the original's bytes at the recovery path, whether the partial or an earlier copy is there |
| Recoveries.RecordBackup | action/promote_files.go:806-813 | Only the copy's own fields of the record change, and success means the verified copy is on record |
| Recoveries.FinishCopy | action/promote_files.go:739-800 | A whole partial of an earlier attempt is published, any other replaced by a new copy that is read back before it is published |
| Recoveries.MakeRecoveryCopy | action/promote_files.go:723-801 | Success leaves a verified copy on record at the recovery path; undisturbed, it succeeds after any interrupted attempt |
| Recoveries.ChooseRecovery | action/promote_files.go:674-721 | Move-aside is chosen only for an original with a stable identity, when copying is not forced and both the recovery path and the partial's path are empty; undisturbed, exactly then; every doubt chooses a copy |
| Recoveries.SettleMode | action/promote_files.go:607-630 | A retry keeps the mode it recorded unless the original lost its identity, then and only then a recorded move aside becomes a copy, and copy mode is never left again; a first run chooses, and moving aside needs the identity once more |
| Recoveries.Preserve | action/promote_files.go:537-653 | Success leaves a verified copy, or the verified original in place with an empty recovery path; undisturbed, it succeeds from any interrupted preserve, in the recorded mode or, the first time, moving aside exactly when nothing rules that out, and always by a copy without a stable identity; and with one it neither adds nor removes what blocks a move aside; a retry that loses the identity and dies while copying leaves a partial beside the recorded move aside |
| MovesAside.ResumeFallbackCopy | action/promote_move_aside.go:315-326 | Finishes, after any crash, the copy a refused move switched to, and changes nothing otherwise |
| MovesAside.ConfirmMoved | action/promote_move_aside.go:238-248 | The move is confirmed only for the file recorded before it |
| MovesAside.RenameOriginal | action/promote_move_aside.go:172-205 | The original is read whole and its intent saved before it is renamed; a refusal proves it still in place; undisturbed, it is renamed if it has a stable identity, and refused exactly when the file system then refuses |
| MovesAside.MoveOrFindMoved | action/promote_move_aside.go:147-228 | The original moves now, or a restart finds it moved before that was recorded and reads it whole; any other layout stops; undisturbed, one that had moved is found, and any other moves, is refused by the file system, or stops for want of an identity, exactly as these say |
| MovesAside.MoveAside | action/promote_move_aside.go:125-248 | Success puts the original's bytes safely at the recovery path on record; a refusal leaves it in place; undisturbed, it stops exactly when a leftover partial or a lost identity bars it, is refused exactly when the file system refuses the rename, and otherwise succeeds after any crash |
| MovesAside.PreserveForRemoval | action/promote_move_aside.go:292-308 | Success makes the original safe to lose from its path in either mode; undisturbed and not barred, it always succeeds: by the move, or, exactly when the file system refuses that, in copy mode for good with a verified copy at the recovery path |
| MovesAside.FallBack | action/promote_move_aside.go:297-308 | A refused move becomes copy mode for good, and success means that the verified copy is at the recovery path and on record; undisturbed, it always succeeds |
| MovesAside.RenameVerifiedBack | action/promote_move_aside.go:354-382 | No file at a library path is touched, and success means the original is back, the recovery path empty and every intent cleared; undisturbed but with another file at the path, it stops with its intent dropped |
| MovesAside.DropLostIntent | action/promote_move_aside.go:358-394 | Undisturbed, a failed move back drops its intent if and only if the original is still aside and a different file is at its path |
| MovesAside.FinishMoveBack | action/promote_move_aside.go:419-448 | Intents are cleared only for the very file that was moved, once it is back in place |
| MovesAside.MoveBack | action/promote_move_aside.go:333-382 | Runs whether or not the promotion is still approved or cancelled; touches no library file; onto an empty path and without faults it always succeeds |
| MovesAside.ResumeMoveBack | action/promote_move_aside.go:399-417 | Finishes or forgets a move back that a crash interrupted, and does nothing without one |
| Publishing.InspectAdopted | action/promote_files.go:1023-1050 | Success proves the candidate's bytes under its final name |
| Publishing.SettleRecovery | action/promote_filesystem.go:77-85 | What an earlier run left unsettled is finished and the recovery proved before anything is published; undisturbed this always succeeds, and neither mends nor adds what dooms the promotion |
| Publishing.ConfirmEarlier | action/promote_filesystem.go:86-91 | A quiet run takes the publication for done exactly when its intent was saved and the candidate's bytes are under its name |
| Publishing.AnnouncePublish | action/promote_filesystem.go:92-114 | The publish intent is saved only after both files were read again and a new name found free; a name that is taken leaves the record as it was |
| Publishing.Ready | action/promote_filesystem.go:77-114 | Undisturbed, everything before the mutation succeeds: it finds an earlier publication exactly as its record and disk say, mistaken if the candidate is still at its temporary path, or ends with both files whole, the intent saved and the name free |
| Publishing.Vacate | action/promote_filesystem.go:125-136 | Success means the candidate may take its name; undisturbed and not barred by a leftover or a lost identity, the name is then free or holds the verified copied original: a same-name original in move-aside mode has left, or, exactly when the file system refused its move, was copied |
| Publishing.TakeName | action/promote_filesystem.go:125-144 | Once verified under the intent, success means the candidate has its name and is at its temporary path no longer; undisturbed and not barred by a leftover or a lost identity, it always gets it |
| Publishing.PublishNow | action/promote_filesystem.go:115-166 | Both files are verified again after the intent is saved, and only a confirmed publication is recorded |
| Publishing.MoveBackAfterFailedPublish | action/promote_filesystem.go:336-347 | After a same-name publish failed, the library path is not left empty, unless a call fails |
| Publishing.PublishAdmitted | action/promote_filesystem.go:69-166 | Whatever stops an admitted same-name publish in move-aside mode, a cancellation included, the library path holds a file afterwards |
| Publishing.Publish | action/promote_filesystem.go:60-166 | The whole step: success completes it; undisturbed and not barred by a leftover or a lost identity, it succeeds from any interrupted state, and moves the candidate off its temporary path unless the state is mistaken for a finished publication; and when it fails under one name without faults, the library path is empty if and only if the run was turned away before it was admitted and had found the path empty |
| Finishing.MayEmpty | action/promote_original_truncate.go:33-66 | Undisturbed, emptying is allowed if and only if the copy was verified before the replacement, both copies have the original's size, the replacement the candidate's, and the original shares its file with neither |
| Finishing.EmptyAndUnlink | action/promote_original_truncate.go:88-106 | The original is emptied only when announced and still allowed, and the copy is whole whatever stops it; undisturbed, what is left of the removed file is empty exactly when that was announced, provably safe and its last link, and else its bytes |
| Finishing.AnnounceRemoval | action/promote_filesystem.go:203-210 | The intents to remove and to empty are durable before either happens, and nothing on the disk moves |
| Finishing.RemovePresent | action/promote_filesystem.go:193-227 | A present original is removed only after it was read whole, unless an announced emptying left it empty, and one that is not whole is not even announced; undisturbed, it succeeds from either, and a whole original is emptied first exactly when the setting is on, that is provably safe and it is the last link |
| Finishing.Depart | action/promote_filesystem.go:186-234 | The original leaves its path moved aside, or removed under a verified copy, or not at all when the candidate has its name; undisturbed, unless a leftover or a lost identity bars the move |
| Finishing.RemoveOriginal | action/promote_filesystem.go:169-240 | The whole step: success leaves no original to remove; undisturbed, it succeeds from any interrupted removal unless a leftover or a lost identity bars the move aside |
| Finishing.VerifyFinal | action/promote_filesystem.go:242-259 | Success proves the candidate under its name, the original removed, and its old path empty when the names differ |
| Finishing.ClearPartial | action/promote_filesystem.go:261-271 | Success means that no partial is left; undisturbed and without one, nothing on the disk changes before the cleanup |
| Finishing.AnnounceCleanup | action/promote_filesystem.go:281-295 | The intents to clean up and to empty the recovery are durable before either happens |
| Finishing.RemoveKept | action/promote_filesystem.go:272-304 | The recovery file is verified whole before its removal is announced, unless an announced emptying left it empty; otherwise the record stays as it was |
| Finishing.RemoveRecoveryFile | action/promote_recovery_truncate.go:15-49 | Success leaves nothing at the recovery path; undisturbed, what is left of the removed file is empty exactly when the setting is on and it was the last link |
| Finishing.Finalize | action/promote_filesystem.go:261-331 | The whole step: success means the recovery is gone under its intent; undisturbed, it succeeds from any interrupted cleanup unless the promotion is stuck for good |
| Backups.CheckRestorable | action/backup_restore.go:12-46 | A quiet check passes exactly the states that can be restored |
| Backups.Restore | action/backup_restore.go:48-91 | No file at a library path is ever touched, whatever appears when; success means the original is back, the recovery path empty and every intent cleared; undisturbed, it succeeds if and only if the state is restorable |
| Backups.CheckDuplicate | action/backup_duplicate.go:13-111 | A copy counts as a duplicate only before any replacement started and after both files were read whole; undisturbed, exactly then |
| Backups.DiscardDuplicate | action/backup_duplicate.go:42-153 | The copy changes only when it was a duplicate and the original is still in its place; undisturbed, the discard succeeds if and only if both copies are there |
| Backups.DiscardLeaves | action/promote_move_aside.go:450-468 | While nobody else touched the disk, giving up the recovery is refused unless the original is in its place or the candidate that replaced it under its name |
| EngineRuns.InOrderBetween | action/engine.go:1001-1257 | Among the steps before the checkpoint, the last passes are in the template's order, however far apart |
| EngineRuns.Appended | action/engine.go:1229-1256 | Passing the step at the checkpoint extends the ordered prefix by one, and nothing else shortens it |
| EngineRuns.Rewound | action/engine.go:1229-1238 | A rewind gives up only the steps after its target |
| EngineRuns.Engine.PlanStep | action/promote_files.go:269-485 | A completed plan is stored and not approved, whatever was approved before; nothing but its own work, its settings and its save decide whether it completes |
| EngineRuns.Engine.ApproveStep | action/promote_template.go:289-335 | Passing means exactly that somebody answers for the stored plan (its batch, a person who reviewed this very plan, an approval ahead, or an earlier approval) and that this was stored; it waits for a person exactly when the plan is not a batch's, nobody answers and nobody rejects, is waited for outside exactly when its batch is busy, and fails in every other case; and exactly the answer that was given is recorded |
| EngineRuns.Engine.MutationStep | action/promote_template.go:242-273 | A mutating step passes only with the stored plan approved, and is never refused for want of it |
| EngineRuns.Engine.Pass | action/engine.go:1001-1257 | One pass of the loop, ending at any save, keeps the checkpoint sound and never records completion; its stored row and whether the loop goes on are exactly those of its events: moved by one or to a rewind's target past a step that passed, or stored as just the failure, wait or cancellation the step, or its caller's absence, made of it |
| EngineRuns.Engine.Execute | action/engine.go:989-1285 | Any run, with rewinds, waits and failures, keeps the checkpoint sound, and a person's approval in it names the plan that was reviewed; the stored row is exactly that of its passes one after another, and a run that nothing stops completes the action |
| EngineRuns.WaitsForReview | action/promote_template.go:316-331 | A new promotion that no batch and no approval ahead answers for makes its plan and is then stored as waiting for a person's decision, at the approval step, with that plan not approved |
| EngineRuns.NobodyAnswers | action/promote_template.go:299-331 | A run that reaches the approval of an unlinked plan and finds nobody to answer is stored as waiting for a decision with plan and step unchanged, and as failed when it was rejected |
| EngineRuns.Engine.Resume | action/engine.go:613-706 | Goes on exactly when the action is unfinished, the resume is due, and a waiting decision is answered by a person for the plan under review; then the stored row is that of the run, otherwise nothing changes |
| EngineRuns.Engine.Retry | action/engine.go:455-575 | Only a failed action is retried, from its checkpoint, or from the import when a library promotion may import again, and the stored row is that of this run; otherwise nothing changes |
| EngineRuns.Engine.Replan | action/replace_when_done.go:737-752 | A replacement that failed before its approval goes back to its plan, and nothing else does |
| EngineRuns.Engine.Cancel | action/engine.go:777-820 | A completed action is never cancelled; any other becomes cancelled when the save succeeds |
| EngineRuns.Engine.Live | action/engine.go:455-1285 | Over any calls: a step ran only after every step before it passed in order, a mutation passed only for an approved plan, and completed and cancelled actions never change |
| EngineRuns.CompletedMeans | action/engine.go:1259-1285 | A completed promotion passed every step, each after the one before, all for one plan that was approved before any mutation passed |
| Fingerprints.OperationsMove | action/promote_fingerprint.go:16-35 | Creating, writing, renaming and unlinking move ctimes, and writes mtimes, as the fingerprints assume |
| Fingerprints.SoundStays | action/promote_fingerprint.go:173-196 | A fingerprint that vouched for a file's bytes keeps vouching for them whatever happens to the volume |
| Fingerprints.CarriedIsSound | action/promote_fingerprint.go:198-218 | A file whose own mtime was not set back, and which kept inode, size and mtime through a rename, kept its bytes |
| Fingerprints.BackdatedCarryIsWrong | action/promote_fingerprint.go:198-218 | A run of the cache: a file is read whole and renamed, rewritten with its mtime set back before the carry looks at it, and then verified with bytes it does not hold |
| Fingerprints.Verifier.StatIdentity | action/promote_fingerprint.go:143-160 | An identity is returned only for the file that is under the name now |
| Fingerprints.Verifier.Remember | action/promote_fingerprint.go:119-141 | A digest is kept only when the file showed one identity before and after its read |
| Fingerprints.Verifier.ReadOpen | action/promote_files.go:104-166 | A whole read that another writer tore is refused; an accepted one is what the name holds, unless that file's mtime was set back |
| Fingerprints.Verifier.Hash | action/promote_files.go:93-166 | Undisturbed, a hash is exactly the file's bytes or its absence |
| Fingerprints.Verifier.HashStable | action/promote_files.go:214-242 | At most five whole reads while the file moves, never fewer before giving up, never accept what the name does not hold |
| Fingerprints.Verifier.StillVerified | action/promote_fingerprint.go:173-196 | A cached yes is what a full read now would say, unless this very file was carried with its mtime set back; it is given exactly when the name still shows what a full read of these bytes saw; any doubt answers no |
| Fingerprints.Verifier.VerifyHashStable | action/promote_files.go:255-267 | With the cache in front of it, the check still answers, undisturbed, exactly whether the file holds these bytes |
| Fingerprints.Verifier.RenameOwn | action/promote_files.go:876-909 | An own rename keeps every fingerprint's promise |
| Fingerprints.Verifier.CarryRenamed | action/promote_fingerprint.go:198-218 | The carry moves at most the renamed file's entry to its new name, loses trust in that file alone and only after its mtime was set back, and undisturbed always carries |
| Fingerprints.Verifier.Persist | action/promote_move_aside.go:58-68 | Only this execution's full hash of these very bytes is persisted, stamped with this process |
| Fingerprints.Verifier.StillAsSaved | action/promote_move_aside.go:90-112 | This process's own fingerprint answers alone exactly when the name still shows it, ctime included, and then rightly, and is this execution's again |
| Fingerprints.Verifier.VerifyByIdentity | action/promote_move_aside.go:90-112 | After a wait, the answer is the full read's; a fingerprint from an earlier process is never accepted on its own |
| Fingerprints.Live | action/promote_fingerprint.go:61-218 | Over any sequence of hashes, checks, own renames, forgets, waits and restarts, whatever others write meanwhile: unless the very file's mtime was set back every yes is what a full read would say, and a persisted fingerprint answers alone only in the process that took it |
| Fingerprints.Verifier.Restart | action/promote_fingerprint.go:36-52 | After a restart nothing is cached and every persisted fingerprint belongs to an earlier process |
| CopyOffload.StreamRest | action/promote_copy.go:122-136 | Streaming goes on from where the kernel stopped and succeeds exactly when everything was streamed; a digest is recorded only when it covers the whole file |
| CopyOffload.CopyData | action/promote_copy.go:57-136 | For any mix of clone, kernel calls and stream: a successful copy equals the source if and only if what the system answers does not end it early, and none of its calls was cancelled, broken or unreported; it streams only what the kernel declined, fails only when one of these stopped it, leaves a refused clone's bytes alone, and records a digest only of the whole source |
| CopyOffload.ShortCopySucceeds | action/promote_copy.go:99-121 | A kernel that moves one byte of two and then claims the end is believed: the copy succeeds without the second byte |
| Disposables.Disk.Empty | action/disposable_truncate_unix.go:16-33 | The file is emptied if and only if it is the very file that was looked at, writable and under its last name; otherwise the reason is told and nothing changes; no other name's contents ever change |
| Disposables.Disk.Remove | action/disposable_remove.go:41-62 | Whatever changed since the file was looked at, no other name's contents change; emptying happens exactly when it is on and still safe, and never fails the removal |
| Disposables.CandidateRemoval.Add | action/disposable_remove.go:26-35 | Bytes add up, and the first skip wins over anything later |
| Disposables.OverallMeans | action/disposable_remove.go:12-35 | Folding any removals: untried means none was tried, emptied means some were and none skipped, and otherwise the first reason to skip is told |
| Commands.FoldMeans | action/promote_sonarr.go:248-256 | Two names are equal but for case exactly when each pair of characters is the same or the two cases of one ASCII letter |
| Commands.GetsOwn | action/promote_sonarr.go:221-258 | Looking up a decoded object's own key finds its own value |
| Commands.SubsetReflexive | action/promote_sonarr.go:221-258 | A command that echoes its payload matches it |
| Commands.SubsetTransitive | action/promote_sonarr.go:221-258 | A command that extends a matching one matches too |
| Commands.SubsetMeans | action/promote_sonarr.go:221-258 | A command matches a payload if and only if every path the payload has leads, in the command, to a value of the same kind: an equal one, one equal but for case under name and importMode, an object, or a list of the same length |
| Commands.FindCommand | action/promote_sonarr.go:260-281 | Finds the one listed command that matches, none exactly when none does, and fails exactly when two do |
| Commands.Sender.SendNew | action/promote_sonarr.go:317-339 | A new intent leaves as one POST exactly when it was stored first, and how the step then ends is exactly what the reply says of the command, once its id and that state are stored |
| Commands.Sender.Submit | action/promote_sonarr.go:322-339 | A reply that names no command leaves the stored intent as it is; one that does is recorded, and the step completes exactly when it says completed, fails when it says failed, and waits otherwise, unless a save fails |
| Commands.Sender.Identify | action/promote_sonarr.go:335-383 | A state is acted on only once the id it was learnt with is stored, and recorded before it decides |
| Commands.Sender.Reconcile | action/promote_sonarr.go:340-384 | A sent command is only looked up, never sent again: with the library's answer about this very command, by its id or as the only one its payload matches, and the saves stored, the step completes exactly when it says completed, fails exactly when it says failed and waits otherwise, and just that is recorded; without such an answer nothing is recorded, and it waits, after a while for a person |
| Commands.Sender.Send | action/promote_sonarr.go:299-384 | A POST leaves if and only if the key has no sent intent, or a stored failure its caller may repeat, which an import's may not, and the new intent was stored; any other sent command is only looked up, and a step ends as that lookup or that POST's reply does |
| Commands.Sender.NoteAdopted | action/promote_workflow.go:17-60 | An adopted import is recorded as done, and nothing else changes, without another POST, exactly when it was sent and the save succeeded |
| Commands.Sender.PrepareRestoredOriginalRetry | action/promote_retry.go:90-187 | The import intent is dropped if and only if the record and the library both say that this very command completed, the other proofs held and the save succeeded |
| Commands.Live | action/promote_sonarr.go:291-384 | Over any steps, crashes, lost replies, resumes and retries: each intent is sent at most once, and a second one under its key follows only a confirmed import or a stored failure; a command is on record as done only if the library has answered of it that it completed, or was seen to use the imported file, and as failed only if it has answered that it failed |
| OldFiles.NoOldReferences | action/promote_workflow.go:323-345 | The counting check passes exactly when every approved episode uses the new file and none the old one |
| OldFiles.AllSeen | action/promote_workflow.go:323-345 | As many approved episodes seen as approved means all were seen |
| OldFiles.Remover.ProveOld | action/promote_workflow.go:155-199 | Success means the library answered with exactly the approved old file at the original's path, which is not the adopted one, and in copy mode that its verified copy is at the recovery path and whatever is at its own path is the original; undisturbed, the step waits exactly when the library no longer knows the file, and fails on any other answer |
| OldFiles.Remover.AskForOld | action/promote_workflow.go:155-186 | The lookup succeeds only on exactly that answer and fails only on a wrong one; an unanswered lookup, or a file the library no longer knows, is waited for |
| OldFiles.Remover.StillListed | action/promote_workflow.go:129-149 | Success means the library uses the adopted candidate and no episode the old file, and says whether it still lists that; it waits exactly when the snapshot is not answered |
| OldFiles.Remover.MoveAway | action/promote_workflow.go:207-227 | Success means the original's bytes are at the recovery path, and after a move aside that its old path was seen empty; undisturbed and not barred by a leftover or a lost identity, it moves the original aside, or copies it exactly when the file system refuses that |
| OldFiles.Remover.Prepare | action/promote_workflow.go:118-227 | Ready means that no DELETE was announced before, that the library gave every answer a removal needs, in order and since this run began, that the original is safe at the recovery path and, after a move aside, its path empty; undisturbed and not barred, it is ready exactly on those answers |
| OldFiles.Remover.Send | action/promote_workflow.go:228-236 | DELETE leaves only once its intent is stored, on that evidence, and its reply sends no other; when neither call fails it is sent, and the step waits only once it was |
| OldFiles.Remover.RemoveOld | action/promote_workflow.go:118-236 | A run sends DELETE only when none was announced before; undisturbed and not barred by a leftover or a lost identity, it does so if and only if the library answers that it uses the candidate for every approved episode and the old file for none, still lists that file, and has exactly it at the original's path; and then, as on every other answer, the step ends as the library's answers alone say |
| OldFiles.Live | action/promote_workflow.go:118-237 | Over any runs, crashes, strangers and lost replies: DELETE is sent at most once, in a run in which the library said that it uses the candidate, listed the old file, gave exactly that file at the original's path, and showed every approved episode with the new file and none with the old one; with the original's bytes at the recovery path, where they stay; and after a move aside, with nothing at the old path if and only if no file came there since the last look |
| ReadAhead.WriterRefines | action/reconcile.go:507-547 | Each writer step keeps what was written, with what io.Copy still would write, equal to io.Copy's result |
| ReadAhead.StepKeeps | action/reconcile.go:476-547 | Every step of either goroutine keeps order, buffer ownership and that refinement |
| ReadAhead.Conserved | action/reconcile.go:467-547 | Written, in hand and queued bytes are always exactly the prefix read |
| ReadAhead.StepsEnd | action/reconcile.go:476-547 | Every step of either goroutine uses up work, so no interleaving goes on for ever |
| ReadAhead.SomeStep | action/reconcile.go:476-547 | Until the copy returned, some goroutine can go on: no deadlock |
| ReadAhead.CopyMeans | action/reconcile.go:507-547 | io.Copy succeeds if and only if every write took all it was given without an error and the last read ended the source, fails as its last read when only that failed, and otherwise at the first short or failed write; its bytes are all that was read, or all before that write and what that write claims to have taken |
| ReadAhead.AnyInterleaving | action/reconcile.go:467-547 | Under every interleaving the copy returns io.Copy's bytes and outcome, and those the reads and writes themselves call for, with its reader stopped and every pooled buffer back |
| ReadAhead.Completes | action/reconcile.go:467-547 | From every reachable state some further steps end the copy: none of these theorems speaks of no run |
| Dispatcher.CountUpdated | action/reconcile.go:95-115 | Counting slot holders follows one continuation's change |
| Dispatcher.YieldKeepsSlots | action/reconcile.go:95-107 | A slot goes back once, however often it is yielded |
| Dispatcher.OneEachKept | action/reconcile.go:116-156 | An action id never has two continuations in flight |
| Dispatcher.StepKeeps | action/reconcile.go:70-156 | Every step keeps both slot counts and one continuation an id |
| Dispatcher.SomeHolder | action/reconcile.go:70-156 | A full dispatcher has a holder |
| Dispatcher.AnyInterleaving | action/reconcile.go:70-156 | In every reachable state: held tokens are the unyielded continuations, at most 8; hash slots in use are at most 3; every token is released exactly once; none blocked on a hash slot holds a token; and a full dispatcher has a holder that waits for nobody |
| Admission.StepKeeps | action/parent_admission.go:174-243 | Whoever read an allowing policy under a lease still its own can rely on it, after every step of anyone |
| Admission.CancelledForGood | action/engine.go:777-835 | A durable cancellation is never undone, not even by a stale scheduler's save |
| Admission.NoSubmitAfterCancel | action/parent_admission.go:174-243 | Once the cancellation is durable no submit follows, unless the lease ended after the check right before it |
| Admission.ExpiryLetsOneThrough | action/parent_admission.go:234-243 | A lease that expires there does let one submit follow the cancellation |
| Claims.OutsideKeeps | action/transcode_batch_promotion.go:158-174 | Nothing done outside the replacement lock takes what its holder relies on |
| Claims.HolderKeeps | action/replace_when_done.go:274-331 | Each store operation of the lock's holder keeps one claimant a file |
| Claims.StepKeeps | action/replace_when_done.go:118-163 | So does every step of anyone |
| Claims.OneClaimantAlways | action/replace_when_done.go:607-815 | Under every interleaving no file is both in the live plan and replaced on its own exactly while no member of a plan kept by a failed save was submitted by someone who found it free before that plan was stored; an automatic approval lets a promotion go ahead only while the switch is on; and the uses of a file's approvals are exactly those that were lost, by a save that never happened or by a new plan, and one that stands if its promotion is approved or about to store that |
| Claims.OneClaimantWithoutFailure | action/transcode_batch_promotion.go:158-174 | As long as no plan's save fails unstored, no file is ever both in the live plan and replaced on its own |
| Claims.TwoClaimants | action/transcode_batch_promotion.go:158-197 | Two runs in which a plan's save fails, a person replaces its member, and the failing step stores the plan before or after the submission: the file has two claimants |
| Claims.UsedAgainAfterCrash | action/replace_when_done.go:772-795 | After such a crash it is used again, by the same promotion |
| Attempts.RecordedKeeps | action/batch_revision.go:82-95 | Superseding keeps every attempt on record and gives the item a child key never used before |
| Attempts.RecordedMuddles | action/batch_revision.go:82-95 | Stored without its row, it leaves the attempt both current and in the history, and what survives any failure holds all the same |
| Attempts.Batch.Start | action/transcode_batch.go:1222-1274 | The child the row names goes on, or one is adopted or created under the item's current key, never made twice, even when its relation was not saved; only when the named child cannot be read, and the row names an older attempt, is one made that strays |
| Attempts.Batch.Supersede | action/batch_revision.go:256-311 | An active attempt is only marked, an ended one superseded under a fresh key, and it is refused exactly when the child cannot be read or a waiting decision cannot be retired |
| Attempts.Batch.Reconfigure | action/batch_revision.go:125-336 | Settings mark or supersede every selected item's attempt, as it stood, or store nothing, and leave the others alone; it succeeds exactly when no mark was left, every selected item could be handled and the commit succeeded |
| Attempts.Batch.ApplyPending | action/batch_revision.go:338-385 | A run goes through the list up to the first marked item it cannot handle. Committed, exactly the marked items that had ended are superseded; failed and not stored, nothing is; failed and stored, exactly those it had handled are superseded without their rows, and every item's account still holds if and only if there were none |
| Attempts.Batch.NoteState | action/engine.go:1064-1085 | The failing step's checkpoint stores the coordinator's new state and no row: exactly the items the run had superseded are muddled |
| Attempts.Batch.AccountedUnlessMuddled | action/batch_revision.go:338-385 | In every reachable state an item's account holds if and only if no failed run was stored after it had superseded it |
| Attempts.OnRecordOnce | action/batch_revision.go:73-95 | While an item's account holds, every attempt ever made for it is the current one or in the history, never both, and there exactly once |
| Attempts.Live | action/batch_revision.go:73-385 | Over any starts, outcomes, revisions, lost commits and failed runs: every attempt in a history had ended when it was superseded, generations never fall and no key is used again, every attempt is current, in the history or strayed, and an item's account holds exactly until a failed run is stored after it had superseded that item; without such a run all accounts hold, and without an unread child nothing strays |
| Attempts.HalfARevision | action/batch_revision.go:338-365 | Two marked files, the first's attempt ended, the second's waiting for a decision that cannot be retired: the run fails, its state is stored, and the first file's account no longer holds while the second's does |
| Attempts.RecordedTwice | action/batch_revision.go:82-95 | After that a new setting records the first file's attempt a second time; and if its child could not be read in between, another attempt was made that is then nowhere on record |
| FanOut.AvailableSlots | action/batch_fanout.go:39-92 | The counting loops return the room on the counted workers minus the unassigned items, within the limit |
| FanOut.LoadUpdated | action/batch_fanout.go:62-79 | One item's change moves each worker's load by that item alone |
| FanOut.RoomShrinksByOne | action/batch_fanout.go:80-87 | However loads change, if one worker gains at most one item the room shrinks by at most one |
| FanOut.EventsKeepSpare | action/transcode_batch.go:849-967 | A child that gets its worker, or ends, takes no room |
| FanOut.StartUsesOne | action/transcode_batch.go:849-967 | A started child, wherever it lands, takes at most one place |
| FanOut.StartSome | action/transcode_batch.go:892-945 | Exactly the first waiting items in the queue's order are started: as many as there are slots, or all |
| FanOut.Dispatch | action/transcode_batch.go:849-967 | However the workers change between the turns of the dispatch loop, it starts, turn by turn until there is no room or nothing waits, exactly the first waiting items the room allows; each turn that starts children leaves the unassigned items fitting into the room it counted and the batch within its limit; with the same workers throughout, they fit at the end too |

## Left out

- The helper and metadata proof modes, the mount probe and sampled digests (`promote_helper*.go`, `promote_mount_*.go`, `promote_cheap.go`): foreign calls and probabilistic evidence; only promotions that read the original whole are modelled.
- HTTP, SQLite and JSON storage: replies are oracle values, the store is a set of atomic, lease-fenced saves.
- Path resolution, confinement, private-directory creation and removal, and directory fsync: paths are distinct and clean, and a rename that returned is durable.
- Strangers: they only create files at empty library paths; a stranger that alters or removes an existing promotion file is outside the model.
- Full reads in the protocol files are exact; that the cached checks answer the same is what `Fingerprints.dfy` proves, apart from the protocol.
- The stream probe of the candidate is a pause that may fail; what it checks is not modelled.
- Upload of a candidate retained on its worker, and deferred publication: worker plumbing.
- DiscardTranscodeBackup (`backup_discard.go`) beyond its guard: what it removes and that the guard keeps the only original is stated of the disk, not as calls that fail or crash.
- The library variants of import, rename, rescan and finalize, and the orphan clean-up branch of `stepPromoteRemoveOld`, taken when the library no longer lists the old file. The machine's published flag stands for the adoption of the candidate.
- What the library's DELETE does to the disk: the model ends with the request. In copy mode the old path may hold the original, which the recovery copy outlives.
- The order in which real lease expiry happens: a lease is held until it is released or lost, as an explicit step.
- Other reservations (series and original claims in the store), and the parallel members of an approved batch promotion: their outcomes are oracle values.
- `slotFairPending` and `queueOrderPending`: the dispatch loop starts waiting items in any order; running items are counted in one pass by resolved worker name.
- Nested pause states of the admission policy are one reversible block.
- What progress reports say (that they store the shared record is modelled), costs, status texts and the summary counts of a batch.
- EngineRuns.Engine.Retry: guards of other action kinds and of batch members are one oracle value that may refuse the retry.
- Lives.Live: a stranger's file that is empty, or has the bytes of the original or the candidate, is not tracked, because the program cannot tell it from its own: an empty file at the old path after an announced emptying is unlinked as the emptied original.
- Lives.Execute: what an undisturbed run makes of a disk that strangers touched before is not stated, only that nothing is lost; nor of an identity that comes and goes within that one run.
- Commands.FindCommand: names are compared without regard to case for the ASCII letters only, where the program folds all of Unicode.
- Disposables.CandidateRemoval.Add: the truncate outcome is an enumeration, not the stored text.
