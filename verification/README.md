# Fly on the Wall: a verified model of its protocols

This project models the parts of the application that must not go wrong while
other things happen at the same time, and proves what they promise.

- **Recordings** (`Recordings`, `Manifests`, `CompressionPlan`, `CompressionProgress`,
  `CompressionOutcome`, `Compression`): a meeting's WAVs are re-stored as verified FLACs. A folder is a map from file names to
  contents, a recording four roles that may each name a file, and every write, rename,
  removal, manifest write and row write is one durable step, kept in a trace. The
  encoder may write anything; only the decode-and-compare check and a deterministic
  rebuild of the derived mixes are trusted. A crash may strike between any two steps.
  Whatever the outside world does wrong (a refused removal, an unreadable size, a
  request to stop) is asked for where the code meets it and logged, so that a contract
  can say what a run owes to a mishap and what not.
- **The hand-off of a folder** (`FolderLease`): the job and whoever must stop it, as
  an interleaving of lock operations and flag reads and writes.
- **The AI pass queue** (`AiQueue`, `AiQueueRuns`, `AiQueueLedger`): the class with
  its waiting, running and held passes, whole runs of it, and a ledger that keeps the
  history a run leaves behind and erases to the queue itself.
- **Approvals** (`Library`, `Approvals`, `ApprovalRuns`): a bounded, expiring map of
  what may be written once.
- **The confirm card** (`ConfirmCard`, `ProposalList`): calls, clicks, one dialog at
  a time, the timeout and a cancelled turn, interleaved step by step.
- **The embedding index** (`Embeddings`, `Pacing`): re-chunking, the pending queue, a
  batch embedded with no lock held, and the worker's rests.
- **The forms and hooks of the window**: the command-line tokenizer and printer
  (`CommandLine`), the shared asynchronous listener (`AskListener`), deleting behind
  an Undo toast (`NoteDeletion`), the progress of an import (`ImportProgress`).

Objects whose methods change their fields are classes whose methods are proved equal
to functions on values; the runs and interleavings are proved about those functions.
`Runs` has the runs of any such machine, `Texts` trimming and lower-casing.
`dafny verify dfyconfig.toml` checks everything.

## Where the code is weaker than it reads

Each of these is shown by a concrete run, or by a lemma that names all the inputs that
fail; and a lemma says exactly when the stronger statement holds, or what holds instead.

- A stored vector need not embed its row's current text. A polish may carry a vector
  over to the polished text, as intended, but then a later edit of the raw text with
  the same segments keeps it too and is never embedded (`PolishHidesAnEdit`;
  `SyncKeepsCurrent` gives the condition).
- A deleted note can come back on screen: a list refresh that fails after a delete
  that went through is treated as a failed delete (`DeletedNoteReappears`;
  `ReappearsExactlyWhen` gives the condition).
- A printed command with a double quote in its program or an argument does not read back
  (`RoundTrip`, `PreviewPastesBack` say exactly when it does).
- Approving an id can evict that very id (`FullMapForgets` is a run, `MayForget` says
  exactly when), and an id that was forgotten is written again
  (`ForgottenIsWrittenAgain`).
- A card can be told twice that it is settled (`ClickCanLoseToTheTimeout` is a run,
  `SettledTwice` says exactly when), and
  a second dialog can open for a card whose first dialog was allowed
  (`SecondDialogAfterAnAllow`); neither leads to a second decision.
- `stop_meeting`'s promise lapses when the next pass clears the cancellations
  (`StopMeetingLapses`).
- A start is given back exactly only below the maximum count
  (`GivingBackUndoesAStart`).
- A size that can't be read after a rename leaves a FLAC behind on a hard failure
  (`SizeUnreadLeavesAFlac`); it does match its WAV, and it is the only one besides
  those whose removal was refused (`FailureLeavesFlacs`).
- A manifest that a torn commit left ahead of the row can lose its audio: a later run
  that verifies its FLACs again and then fails hard removes them as its own
  (`TornThenUnreadable`). `LosesTheManifestExactlyWhen` says for every error which
  FLACs those are, `DisturbedLosesTheManifestExactlyWhen` which disturbances of a run
  in which nothing else goes wrong do it, and `ManifestGivesExactlyWhen` what it costs;
  the row's audio is safe throughout.
- A quit gives back the wrong pass's start, or none, when the running pass changes
  between the two times its snapshot takes the mutex (`QuitCanMissTheStart` is a run,
  `QuitGivesBackExactlyWhen` says exactly when).

## Model

| member | source | states |
|---|---|---|
| Recordings.ConversionKeepsAudio | src-tauri/src/audio_store.rs:749-784 | Replacing a WAV by a FLAC that matches it, in every role that names it, leaves every role's audio as it was and the record well-formed, the shared mic/playback file of a mic-only capture included. |
| Recordings.DroppingKeepsAudio | src-tauri/src/audio_store.rs:785-845 | A derived file that regenerates to what it holds can leave the record without any role losing its audio. |
| Recordings.HeardFrame | src-tauri/src/audio_store.rs:30-33 | What a recording sounds like, role by role, depends only on the files it names. |
| Recordings.RegeneratedIs | crates/fly-audio/src/derive.rs:408-440 | A rebuild takes what there is of the two channels: one may be missing, not both, and neither may be damaged. |
| Recordings.CaptureLayoutsAreWellFormed | src-tauri/src/audio_store.rs:7-12 | The layouts capture and import store meet the sharing condition the protocol relies on. |
| Recordings.SharedPlaybackInTwoChannelsIsUnsafe | src-tauri/src/audio_store.rs:785-845 | Why playback may be the mic file only in mic-only captures: a concrete two-channel recording meets the condition for dropping playback, and deleting its file takes the mic's audio. |
| Manifests.ManifestGivesExactlyWhen | crates/fly-storage/src/recording_store.rs:152-157 | A manifest a commit left ahead of the row gives every role the row's audio if and only if every FLAC it is ahead with is still in the folder. |
| Manifests.FollowsStays | src-tauri/src/audio_store.rs:492-557 | Such a manifest goes on following the row while other files come and go, as long as no FLAC appears that doesn't match its WAV. |
| CompressionPlan.NeedsWorkSkipping | src-tauri/src/audio_store.rs:612-655 | The planner's scan finds work exactly when the folder is contained, its manifest isn't newer, every path is inside and some role has a convertible WAV or a leftover that isn't skipped; and its bytes and kept counts, each file once. |
| CompressionPlan.HasWorkExactlyWhen | src-tauri/src/audio_store.rs:575-655 | In disk and record alone: the scan finds work exactly for a contained record that names a WAV capture could have written, or whose folder has one of capture's own WAVs, unnamed and not skipped, for a role that is stored as that WAV's FLAC, or that is derived, not stored, and has a FLAC source to be rebuilt from. |
| CompressionPlan.CrashLeavesWork | src-tauri/src/audio_store.rs:575-602 | With both sources stored under capture's names, any one of capture's four WAVs left in the folder is work. |
| CompressionPlan.StoredElsewhereIsNoWork | src-tauri/src/audio_store.rs:597-601 | A WAV of capture's whose role is stored under another name is no work, whatever it holds. |
| CompressionPlan.EachFileCountsOnce | src-tauri/src/audio_store.rs:630-652 | The bytes to process are the sizes of the WAVs that can be converted, each named file counted once. |
| CompressionPlan.KeptCountsRoles | src-tauri/src/audio_store.rs:630-652 | And as many WAVs are said to stay as roles are first to name one that can't be converted, or have a leftover that is skipped. |
| CompressionProgress.DroppableAsPlanned | src-tauri/src/audio_store.rs:785-845 | Whether a derived WAV regenerates from the sources as they will be stored is settled by what the run found: exactly when a source is FLAC or can be, the sources of the planned record rebuild it, and it is no source's file too. |
| CompressionProgress.ConvertedTallies | src-tauri/src/audio_store.rs:768-784 | With each role that is converted, the FLACs the run has put in place are exactly those of the WAVs it has come to and not dropped, and no other FLAC has changed. |
| CompressionProgress.FailedAt | src-tauri/src/audio_store.rs:749-784 | A conversion that fails does so with the FLACs of exactly the earlier roles in place, whatever the reason it fails for. |
| CompressionProgress.FlacsLastAfter | src-tauri/src/audio_store.rs:492-557 | A FLAC that matched its WAV at some step of a run, and no comparison failed on, still does after any further file is converted or fails to be. |
| CompressionOutcome.DoomedIsExpendable | src-tauri/src/audio_store.rs:749-845 | The audio of every WAV a run will delete is given by some role of the record it commits. |
| CompressionOutcome.CommittedRunIsFinished | src-tauri/src/audio_store.rs:895-951 | After commit and deletes: every role gives its audio, every deleted WAV's audio is still given, no convertible WAV is named, and nothing but WAVs and the run's own FLAC and temp names changed. |
| CompressionOutcome.CommittedWell | src-tauri/src/audio_store.rs:895-951 | The same with what a run makes of each role and reports: unless a comparison of it failed, a role is dropped if it is derived and regenerates, else a FLAC if its WAV can be converted, else as it was; every source that could be converted is; the files the roles gave up are gone unless refused; a FLAC no role took is as it was and no temp file is left; no leftover is forgotten (`NothingIsForgotten`), what is reported unproven did not match or could not be compared, and if no removal was refused the planner finds no work. |
| CompressionOutcome.NothingLeft | src-tauri/src/audio_store.rs:612-655 | Planner and worker agree: a committed, swept run with its unproven leftovers recorded leaves no work for the planner. |
| CompressionOutcome.NothingIsForgotten | src-tauri/src/audio_store.rs:847-893 | After a successful run every unnamed WAV of capture's whose role the new record gives, by its FLAC or a rebuild, is gone, skipped, reported, or couldn't be removed; it is reported only if it can't be compared, holds something else, or there was a fault. |
| CompressionOutcome.FailureLeavesFlacs | src-tauri/src/audio_store.rs:658-675 | After an error every FLAC that is new matches its WAV; after a hard failure or a deleted meeting none is left but one whose removal was refused and the one whose size couldn't be read. |
| CompressionOutcome.FailureReclaims | src-tauri/src/audio_store.rs:658-675 | Of a run that failed hard or found its meeting gone, the FLACs of the roles it was done with (by the file it failed at, all of them at the commit) are gone unless refused, and every other FLAC but the one it failed at is as it was; after any other error every FLAC that was there and matched stays. |
| CompressionOutcome.FailureIsWell | src-tauri/src/audio_store.rs:658-675 | What any failed run leaves: only its own FLAC and temp names changed, no temp file stays, the FLACs as just said; row and manifest are as they were, what a disturbance made them, or, if the commit itself failed, one or both name the record the run was to commit. |
| CompressionOutcome.LaterFlacsAreUntouched | src-tauri/src/audio_store.rs:658-675 | A run that fails hard or finds its meeting gone leaves the FLAC of every WAV it never came to as it found it; if it failed for lack of room at the start, or was turned away, that is every FLAC. |
| CompressionOutcome.EarlierFlacsAreTakenBack | src-tauri/src/audio_store.rs:658-675 | After any hard failure but one of the commit's own writes, and after finding the meeting gone, the FLAC of every convertible source before the one it failed at is gone, unless its removal was refused. |
| CompressionOutcome.OwesLess | src-tauri/src/audio_store.rs:19-33 | A run that keeps everything its planned record gave keeps everything that was first captured. |
| CompressionOutcome.NextFollowsPlanned | src-tauri/src/audio_store.rs:920-926 | The manifest a commit writes follows the planned record, with every FLAC it is ahead with in the folder. |
| CompressionOutcome.CleanUpIsGood | src-tauri/src/audio_store.rs:658-675 | Every durable state of a failed run's removals gives every role its audio, and its manifest still follows the row. |
| CompressionOutcome.LosesTheManifestExactlyWhen | src-tauri/src/audio_store.rs:658-675 | A failed run loses a manifest that was ahead of the row if and only if its error makes it clean up and the manifest is ahead with the FLAC of a role it was done with and didn't drop; which roles those are is a function of the error and of what the run found. |
| CompressionOutcome.DisturbedLosesTheManifestExactlyWhen | src-tauri/src/audio_store.rs:895-922 | If nothing goes wrong but a disturbance found at the commit, such a manifest is lost if and only if the meeting can't be read, is deleted or had its audio deleted, and the manifest is ahead at a role that isn't dropped; a meeting in use or changed loses nothing. |
| CompressionOutcome.DisturbedAnswers | src-tauri/src/audio_store.rs:895-918 | What a run in which nothing else goes wrong answers: failed if the meeting can't be read, gone if it or its audio was deleted, busy if it is in use or was changed; undisturbed it succeeds. |
| CompressionOutcome.ReplacedIsGood | crates/fly-storage/src/recording_store.rs:163-214 | Whichever step of replacing the record fails, every durable state it passed through gives every role its audio, and so does its manifest. |
| Compression.MeetingStore.RemoveFile | src-tauri/src/audio_store.rs:658-675 | A file is gone afterwards, unless it wasn't there or its removal was refused, which is logged. |
| Compression.MeetingStore.Verify | crates/fly-audio/src/flac.rs:350-375 | Decode-and-compare tells whether a FLAC holds exactly the WAV's samples, unless it is stopped or fails to read them, which is logged. |
| Compression.MeetingStore.MatchesStored | crates/fly-audio/src/derive.rs:408-440 | Tells whether the rebuilt derived audio is sample for sample what is stored, unless it is stopped or fails. |
| Compression.MeetingStore.ConvertOne | src-tauri/src/audio_store.rs:492-557 | On success the FLAC matches its WAV, whatever the encoder wrote; a FLAC that matched and was compared without a fault is reused as it is; on failure the FLAC name holds what it held, or a matching FLAC whose size couldn't be read; no temp file stays unless refused; no other file changed; every error has its mishap and names the file. |
| Compression.MeetingStore.ConvertRole | src-tauri/src/audio_store.rs:748-784 | The record follows the converted WAV in every role that named it, the WAV is marked for deletion, and every invariant of an uncommitted run holds, one role further after success, and as far as it was after failure. |
| Compression.MeetingStore.SettleOne | src-tauri/src/audio_store.rs:785-845 | A derived role that regenerates to what it holds is dropped, unless the comparison failed; else it is converted; the run is then done with one role more: each has the file destined for it, and exactly the FLACs they took are the run's own. |
| Compression.MeetingStore.RemoveStrays | src-tauri/src/audio_store.rs:725-731 | No temp file under a name of capture's is left, unless its removal was refused, and no FLAC is touched. |
| Compression.MeetingStore.ProveLeftovers | src-tauri/src/audio_store.rs:847-893 | Every leftover chosen for deletion has its audio given by some role of the record; every one reported did not match, or its comparison failed or was interrupted; every other is skipped or goes anyway. |
| Compression.MeetingStore.Prepare | src-tauri/src/audio_store.rs:718-893 | Everything before the commit only touches the run's own FLAC and temp names; on success every role has the file destined for it and every leftover is chosen, skipped or reported; a failure has its mishap and happens with exactly the FLACs of the roles done by then in place. |
| Compression.MeetingStore.ReplaceRecording | crates/fly-storage/src/recording_store.rs:163-214 | Manifest first, then row, then the row is read back: each can fail, and it then leaves neither, the manifest alone or both written; it reports success only if all three went well, or there was nothing to replace. |
| Compression.MeetingStore.DeleteAll | src-tauri/src/audio_store.rs:928-945 | Nothing but the listed files goes, one at a time, and each is gone afterwards unless its removal was refused. |
| Compression.MeetingStore.Commit | src-tauri/src/audio_store.rs:895-951 | Every durable state of the manifest write, row write and deletes gives every role its audio, and so does the manifest; on success the row is the new record and what it replaced is gone unless refused; a refusal or failure changes no file. |
| Compression.MeetingStore.CompressInner | src-tauri/src/audio_store.rs:692-951 | From plan to deletes: safe at every step; success is as finished as `CommittedWell` says; after failure only the run's own FLAC and temp names changed and each new FLAC is accounted for. |
| Compression.MeetingStore.Compress | src-tauri/src/audio_store.rs:658-675 | Every durable state a run passes through gives every role exactly the audio it captured, and its manifest follows the row; a run fails only for a reason, and leaves then what `FailureIsWell` says; a stop or a refused or failed commit takes back no FLAC that matched at any step; it succeeds only if nothing fatal happened, always without a mishap or a refusal, and leaves then what `CommittedWell` says, a fixed point of the planner if no removal of a WAV was refused. |
| Compression.MeetingStore.RunsAndCrashes | src-tauri/src/audio_store.rs:19-33 | Over any number of runs, each crashing between any two durable steps and restarted from what is left, the committed record gives every role exactly the audio first captured, and the manifest gives it if and only if the FLACs it is ahead with are there. |
| Compression.SizeUnreadLeavesAFlac | src-tauri/src/audio_store.rs:526-535 | A concrete run in which nothing goes wrong but the reading of a size: a hard failure that leaves a FLAC behind. |
| Compression.TornThenUnreadable | src-tauri/src/audio_store.rs:895-921 | A concrete run torn between manifest and row, and a second that can't read the row at its commit: the manifest's FLAC is removed; the row still gives the audio. |
| FolderLease.HaltHolds | src-tauri/src/audio_store.rs:236-290 | In every interleaving, once `halt` has returned true and until `resume`, no folder lease is held or taken by the job. |
| FolderLease.StopMeetingHolds | src-tauri/src/audio_store.rs:236-262 | The same for `stop_meeting` and its meeting, until a pass clears the cancellations. |
| FolderLease.StopMeetingLapses | src-tauri/src/audio_store.rs:1059 | After that clear the job can lease the meeting again although `stop_meeting` returned true: a concrete run. |
| FolderLease.StopperStepKeepsStopperInv | src-tauri/src/audio_store.rs:241-290 | Passing the storage-lock barrier means the job is announced or hasn't passed the check the flag controls. |
| FolderLease.OtherStepKeepsStopperInv | src-tauri/src/audio_store.rs:1230-1254 | No step of the job, checking, leasing and announcing under one hold of the lock, takes it past a flag that is still up. |
| FolderLease.ReachableIsSound | src-tauri/src/audio_store.rs:1201-1254 | The invariant over every interleaving. |
| FolderLease.FlagsFollowTheRun | src-tauri/src/audio_store.rs:198-285 | In every run `halted` is up exactly if a halt was asked for since the last resume, a meeting is cancelled exactly if it was stopped or played since the last pass began, and a stopper is in force exactly if nothing undid it since. |
| FolderLease.HaltedExactlyWhile | src-tauri/src/audio_store.rs:264-285 | In every reachable state the job is halted exactly while some halt is in force. |
| FolderLease.JobTakesATurn | src-tauri/src/audio_store.rs:1230-1240 | After a resume the idle job, the lock free, can lease and announce any meeting that isn't cancelled or leased elsewhere, and then works with the lock free: a run from any such state. |
| FolderLease.JobEndsItsTurn | src-tauri/src/audio_store.rs:1241-1254 | When it is done it lets go of the lease, of `current` and of the lock. |
| FolderLease.JobGivesUp | src-tauri/src/audio_store.rs:1230-1238 | At any point before the lease the job can give up: idle again, the lock free, nothing taken. |
| FolderLease.StopperTakesATurn | src-tauri/src/audio_store.rs:241-279 | A caller of `halt` or `stop_meeting` whose flag is up returns true if the job works on no meeting (or, for the second, on another), false if the deadline passed first, and polls on otherwise. |
| FolderLease.LeaseIsExclusive | src-tauri/src/audio_store.rs:1234-1240 | In every reachable state the job's lease is on no folder other work has leased. |
| FolderLease.OthersComeAndGo | src-tauri/src/audio_store.rs:1234-1240 | Other work can lease any folder but the job's; playing a meeting cancels it exactly if the job works on it. |
| FolderLease.OthersKeepThemWaiting | src-tauri/src/audio_store.rs:233-237 | While other work holds the storage lock neither the job nor a stopper takes it. |
| AiQueue.Queue.Push | src-tauri/src/ai_queue.rs:126-143 | One waiting entry per meeting, keeping its place and the fuller kind; refused while halted. |
| AiQueue.Queue.Next | src-tauri/src/ai_queue.rs:148-164 | Takes the oldest, counts the attempt (saturating) and marks it running. |
| AiQueue.Queue.Finish | src-tauri/src/ai_queue.rs:166-170 | Ends the running pass and nothing else. |
| AiQueue.Queue.RemovePending | src-tauri/src/ai_queue.rs:173-179 | Removes only a waiting pass, and says whether it did. |
| AiQueue.Queue.CancelRunning | src-tauri/src/ai_queue.rs:184-197 | True exactly when the running pass is this meeting's; then that pass is told to stop, and nothing else changes. |
| AiQueue.Queue.Halt | src-tauri/src/ai_queue.rs:201-216 | Holds the running pass, its attempt given back, and then the waiting ones; a second halt holds nothing new. |
| AiQueue.Queue.Resume | src-tauri/src/ai_queue.rs:220-231 | Puts the held passes back ahead of the queue, a meeting already there keeping its entry. |
| AiQueue.Queue.DiscardHeld | src-tauri/src/ai_queue.rs:234-236 | Forgets what a halt held, and nothing else. |
| AiQueue.Queue.Snapshot | src-tauri/src/ai_queue.rs:263-275 | Every unfinished pass, once per meeting, the running one first. |
| AiQueue.Queue.SnapshotForQuit | src-tauri/src/ai_queue.rs:281-296 | The snapshot, with a start given back to the meeting whose pass ran when the mutex was taken first. |
| AiQueueRuns.RunKeepsInv | src-tauri/src/ai_queue.rs:126-231 | Over every operation sequence: waiting meetings are distinct, halted implies nothing waiting, not halted implies nothing held. |
| AiQueueRuns.AheadKeepsLast | src-tauri/src/ai_queue.rs:220-231 | Putting held passes back one by one keeps each meeting's last entry, in order. |
| AiQueueRuns.HaltThenResume | src-tauri/src/ai_queue.rs:201-231 | Halt, anything in between, then resume: the waiting list is the held list keeping each meeting's last entry; if the running meeting wasn't waiting too, that is the running pass put back followed by the old queue. |
| AiQueueRuns.HaltHolds | src-tauri/src/ai_queue.rs:126-216 | Whatever happens while halted, nothing waits, what is held stays, and nothing runs but the pass that ran at the halt. |
| AiQueueRuns.ToldExactlyWhen | src-tauri/src/ai_queue.rs:176-220 | Over every run, the running pass has been told to stop exactly if its meeting was cancelled or the queue halted since that pass started. |
| AiQueueRuns.PushUpgrades | src-tauri/src/ai_queue.rs:30-140 | A push for a waiting meeting changes its kind alone: to the whole pass, or from an extraction to the pass after a consent. |
| AiQueueRuns.PushQueues | src-tauri/src/ai_queue.rs:126-143 | A meeting that doesn't wait joins at the end. |
| AiQueueRuns.SnapshotCovers | src-tauri/src/ai_queue.rs:263-275 | No meeting twice, the running one first, and exactly the running, waiting and held meetings, each with its first entry. |
| AiQueueRuns.QuitGivesBackOnlyTheRunning | src-tauri/src/ai_queue.rs:281-296 | If nothing changes between its two steps, the quit snapshot differs from the snapshot in the running pass's attempt count alone. |
| AiQueueRuns.QuitGivesBackExactlyWhen | src-tauri/src/ai_queue.rs:281-296 | If the queue may change between them, it gives back exactly the interrupted start if and only if the same meeting's pass runs at both, or neither meeting has an attempt to give back. |
| AiQueueRuns.QuitCanMissTheStart | src-tauri/src/ai_queue.rs:281-296 | A concrete run: one pass ends and the next begins between the two steps, and the saved count keeps the start the quit interrupts. |
| AiQueueRuns.GivingBackUndoesAStart | src-tauri/src/ai_queue.rs:148-164 | Giving an attempt back undoes a start if and only if the count was below the u32 maximum. |
| AiQueueRuns.Recover | src-tauri/src/scheduler.rs:333-377 | A launch pushes the saved passes that may start again, of meetings still there, one by one; a meeting saved twice is queued once. |
| AiQueueRuns.SnapshotIsQueued | src-tauri/src/scheduler.rs:333-377 | What a snapshot saved comes back as it was, in order, but for what is given up on. |
| AiQueueRuns.CrashLoopEnds | src-tauri/src/scheduler.rs:308-333 | A pass whose every start crashes the app is run a bounded number of times across launches, for any saved queue. |
| AiQueueRuns.CrashingPassStartsTwice | src-tauri/src/scheduler.rs:308-333 | Alone in the queue, such a pass is started by two launches and dropped by the third. |
| AiQueueLedger.EraseRun | src-tauri/src/ai_queue.rs:126-231 | Every run of the queue is the erasure of a run of the ledger that keeps its history. |
| AiQueueLedger.RunKeepsLedger | src-tauri/src/ai_queue.rs:126-231 | Tickets, kinds and attempt accounts stay right over every run. |
| AiQueueLedger.WholeRunAccounting | src-tauri/src/ai_queue.rs:44-164 | Passes start in the order their meetings were first queued; a waiting entry's kind is the highest-ranked pushed since it was queued; below saturation its attempts are those it came with plus starts minus give-backs. |
| Library.Distinct | src-tauri/src/ask_approvals.rs:340-351 | The id filter keeps each accepted id once, in order of first appearance. |
| Library.Storage.ApplyInsert | src-tauri/src/ask_approvals.rs:318-356 | Writes if and only if the text, the note and every cited line are acceptable (all the note's own, none Keep-local unless the note is) and the write goes through: one cleaned block citing each line once; else changes nothing. |
| Library.Storage.ApplyItem | src-tauri/src/ask_approvals.rs:362-418 | Writes if and only if the text is acceptable, some cited line is the meeting's, the owner is blank or one of its people (trimmed, in any case) and the write goes through: one item citing the meeting's lines; else changes nothing. |
| Library.WritingKeepsSourced | src-tauri/src/ask_approvals.rs:318-418 | Every approved write keeps the library sourced: no empty or overlong text, citations of the note's or meeting's own segments only, no Keep-local meeting cited in a note that isn't, an item cited at least once and owned by nobody or one of its people. |
| Library.SourcedIsAccepted | src-tauri/src/ask_approvals.rs:318-418 | And nothing that would hold up is turned down. |
| Approvals.Approvals.Prune | src-tauri/src/ask_approvals.rs:244-257 | Ends with fewer than 500 entries, all inside their keep window; each evicted for space expires no later than any survivor; no more are evicted than it takes. |
| Approvals.Approvals.Hold | src-tauri/src/ask_approvals.rs:158-170 | Registers a new id, or extends an unapplied one, after pruning; nothing else changes. |
| Approvals.Approvals.Approve | src-tauri/src/ask_approvals.rs:174-240 | The outcome, the result and the new map for every case, with storage written exactly in the applied case. |
| ApprovalRuns.RunIsBounded | src-tauri/src/ask_approvals.rs:158-257 | No run from an empty map ever holds more than 500 entries. |
| ApprovalRuns.WritesAtMostOnce | src-tauri/src/ask_approvals.rs:158-240 | While an id stays in the map, over any mix of calls: written at most once, never past its expiry, and every later approval of its kind returns that first result. |
| ApprovalRuns.ExpiryGrowsUntilTheWrite | src-tauri/src/ask_approvals.rs:158-240 | What is approved never changes, the expiry only grows, and not after the write; an applied entry was written by a call of the run. |
| ApprovalRuns.RegisteredLivesOn | src-tauri/src/ask_approvals.rs:158-170 | While an id stays in the map, no approval up to any expiry it was registered with is turned down as unknown or expired. |
| ApprovalRuns.MayForget | src-tauri/src/ask_approvals.rs:192-257 | Pruning can take the id being approved if and only if its window is over, or the map is full of live entries and none expires before it. |
| ApprovalRuns.KeptForAnHour | src-tauri/src/ask_approvals.rs:24-28 | While there is room an entry outlives its expiry by an hour exactly, unchanged. |
| Approvals.WrongCommand | src-tauri/src/ask_approvals.rs:175-235 | An insert is refused to the command for action items as the wrong kind, and the other way round, and neither to its own. |
| ApprovalRuns.FullMapForgets | src-tauri/src/ask_approvals.rs:175-257 | A concrete run: after 500 live registrations, approving the one that expires the soonest, in time, finds it evicted. |
| ApprovalRuns.ForgottenIsWrittenAgain | src-tauri/src/ask_approvals.rs:158-257 | A forgotten id that is registered again is written again: a concrete run. |
| ConfirmCard.StepKeepsInv | src-tauri/src/connectors.rs:522-726 | The invariant every step of calls, clicks, dialogs, timeouts and withdrawals keeps. |
| ConfirmCard.ClickOpens | src-tauri/src/connectors.rs:625-655 | A click on a pending card carries the arguments left in it, or the proposal's own. |
| ConfirmCard.DenyDeclines | src-tauri/src/connectors.rs:651-654 | From every reachable state, saying no to a pending card declines the call at once: the decision is sent, the card told so once, and gone. |
| ConfirmCard.ReadRunsAtOnce | src-tauri/src/connectors.rs:655-728 | Allowing a tool that only reads, then and now, with arguments that fit sends them and settles the card. |
| ConfirmCard.DialogOpens | src-tauri/src/connectors.rs:664-722 | Allowing a tool that can change data, then or now, opens the dialog with the arguments it would send; asking to allow a reading tool always opens the one for that; nothing is decided before. |
| ConfirmCard.AllowedIsSent | src-tauri/src/connectors.rs:685-728 | Allowed there, the call gets the click's arguments, the card is settled, and the dialog lock is free. |
| ConfirmCard.RefusedStaysOpen | src-tauri/src/connectors.rs:685-722 | Refused there, or the permission couldn't be set: the click is over, the lock free, and the card as it was. |
| ConfirmCard.UnfitStaysOpen | src-tauri/src/connectors.rs:655-711 | Arguments that don't fit or can't be shown whole, and "Always allow" for a tool that can change data, decide nothing and leave the card open. |
| ConfirmCard.TooLateSendsNothing | src-tauri/src/connectors.rs:632-649 | A click that comes after its card is gone sends nothing and tells nothing. |
| ConfirmCard.GoneIsNotFound | src-tauri/src/connectors.rs:625-631 | Once the card is gone no click finds it. |
| ConfirmCard.QuietEndsTheClick | src-tauri/src/connectors.rs:706-722 | A dialog that may not be shown just now ends its click and frees the lock. |
| ConfirmCard.OtherDialogsKeepThemWaiting | src-tauri/src/connectors.rs:712-713 | While another native dialog is open no click opens one. |
| ConfirmCard.ProposedIsPending | src-tauri/src/connectors.rs:534-551 | A proposed call waits with its card pending, nothing sent and nothing told. |
| ConfirmCard.DecidedComesBack | src-tauri/src/connectors.rs:558-560 | A decision sent wakes its call, which comes back with it and can no longer time out. |
| ConfirmCard.UndecidedTimesOut | src-tauri/src/connectors.rs:552-575 | Ten minutes without a decision end the call as timed out, its card taken back and told so. |
| ConfirmCard.AbandonedIsWithdrawn | src-tauri/src/connectors.rs:510-528 | A cancelled turn withdraws the card, and tells it so exactly if it was still pending. |
| ConfirmCard.SentIsFinal | src-tauri/src/connectors.rs:633-648 | At most one decision is ever sent to a proposal, and no later step changes it. |
| ConfirmCard.ReturnsWhatWasSent | src-tauri/src/connectors.rs:543-580 | A call returns the one decision that was sent to it, or that it timed out, and its card is gone by then. |
| ConfirmCard.OneDialogAtATime | src-tauri/src/connectors.rs:223-262 | In every interleaving at most one such dialog is open, and its click holds the lock. |
| ConfirmCard.DialogArgsAreWhole | src-tauri/src/connectors.rs:471-485 | A dialog shows one rendering of the arguments whole: the pretty one up to 40 lines, else the compact one; only one over 3000 characters is refused. |
| ConfirmCard.LinesAre | src-tauri/src/connectors.rs:468-485 | Lines are counted as the text is read: each newline ends one, and what follows the last is one if it is anything. |
| ConfirmCard.NoDialogOnceGone | src-tauri/src/connectors.rs:705-714 | Once a card is settled, timed out or withdrawn, no click that waited for the lock opens a dialog for it any more. |
| ConfirmCard.ChangesNeedAnAllowedDialog | src-tauri/src/connectors.rs:616-725 | A call that waited for the user reaches a tool that can change data (when proposed, clicked or sent) only after an Allow on a dialog showing in full the schema-valid arguments that are sent; "Always allow" only after its own dialog. |
| ConfirmCard.SendsExactlyWhen | crates/fly-mcp-client/src/hub.rs:1232-1258 | Only a decision to run sends anything, its own arguments, and it does unless the turn is Keep local by now, the tool is gone or of another kind than when it was proposed, or doesn't take them. |
| ConfirmCard.SettledTwice | src-tauri/src/connectors.rs:522-580 | A card gets two "settled" events exactly when a decision was sent and the call had already timed out; none exactly while it is pending, or its call has timed out, taken the card back undecided and not said so yet; never more than two. |
| ConfirmCard.ClickCanLoseToTheTimeout | src-tauri/src/connectors.rs:563-578 | It happens: "ran" and then "timed out", a concrete run. |
| ConfirmCard.SecondDialogAfterAnAllow | src-tauri/src/connectors.rs:705-724 | The lock is free before the allowed click settles, so a second click opens a second dialog: a concrete run. |
| ProposalList.MergeProposals | frontend/src/connectorsModel.ts:761-773 | Appends the new cards of a listing, in order. |
| ProposalList.AddedAreNew | frontend/src/connectorsModel.ts:759-773 | Of the incoming cards exactly those not shown and not settled are added, each once. |
| ProposalList.StaleListingAddsNothing | frontend/src/connectorsModel.ts:759-773 | Merging a listing again, whatever has settled since, changes nothing. |
| Embeddings.StoredRow | crates/fly-storage/src/embeddings.rs:579-599 | Storing a batch changes a row only by giving it a vector made from its own current title and text, and gives one to every row of the batch that still holds what was embedded. |
| Embeddings.StoredRowIs | crates/fly-storage/src/embeddings.rs:579-599 | A row that is still what was embedded gets the vector computed from it; every other row is as it was. |
| Embeddings.PendingExactly | crates/fly-storage/src/embeddings.rs:507-530 | A row waits exactly while it has no vector of the current model, and for another machine only if its owner isn't Keep local. |
| Embeddings.SyncKeepsCurrent | crates/fly-storage/src/embeddings.rs:400-502 | A re-chunk keeps every vector made from its row's text if and only if no new text takes a vector over through a polish. |
| Embeddings.SyncedRow | crates/fly-storage/src/embeddings.rs:440-505 | On rows and chunks alone: in a re-chunk that changes something, a chunk whose text had a vector under its title keeps the last such; one whose text had none takes over the last one of its segments if and only if that row or the chunk is polished; any other waits. |
| Embeddings.EditIsPending | crates/fly-storage/src/embeddings.rs:458-493 | An ordinary edit, raw to raw, leaves its row waiting for a vector. |
| Embeddings.SyncKeepsTitles | crates/fly-storage/src/embeddings.rs:400-502 | A re-chunk never carries a vector to another title. |
| Embeddings.SyncKeepsVectors | crates/fly-storage/src/embeddings.rs:453-488 | When a re-chunk changes something, content that had a vector isn't embedded again, wherever its chunk moved; when it changes nothing the rows stay as they are, pending copies of such content included. |
| Embeddings.SyncIsIdempotent | crates/fly-storage/src/embeddings.rs:442-451 | Re-chunking the same content again changes nothing, whatever row ids the database would give. |
| Embeddings.Reusable | crates/fly-storage/src/embeddings.rs:453-471 | The two lookup maps hold, for every key, what the last matching row has to offer, and nothing else. |
| Embeddings.Index.SyncChunks | crates/fly-storage/src/embeddings.rs:400-502 | The loops over rows and chunks compute exactly the specified rows: unchanged, reused by content, reused through a polish, or pending. |
| Embeddings.Index.StorePendingEmbeddings | crates/fly-storage/src/embeddings.rs:579-599 | The update loop stores exactly the specified vectors. |
| Embeddings.NewestRowsGoFirst | crates/fly-storage/src/embeddings.rs:510-530 | Rows newer than the rest of the backlog, and no more than a batch, are all in the next batch. |
| Embeddings.BatchExists | crates/fly-storage/src/embeddings.rs:515-530 | The pending query always has an answer of the specified shape. |
| Embeddings.StoredBatchShrinks | src-tauri/src/embeddings.rs:240-274 | With no writer in between, a stored batch leaves none of its rows pending, makes no other pending, and makes progress whenever anything is. |
| Embeddings.DrainEmpties | src-tauri/src/embeddings.rs:240-274 | Without writers the drain empties the backlog (the shareable one for another machine), within as many batches as rows. |
| Embeddings.RemoteBatchIsShareable | src-tauri/src/embeddings.rs:246-253 | A batch for another machine holds only text of owners that may leave this one when it is read. |
| Embeddings.RoundEnds | src-tauri/src/embeddings.rs:410-450 | With no writer in between, a batch that is read is stored, or dropped with nothing changed, and the worker is free for the next. |
| Embeddings.WritersLeaveTheBatch | src-tauri/src/embeddings.rs:246-253 | Forgetting an owner takes its rows alone, and changing what is Keep local nothing else; a batch in flight is left as it is. |
| Embeddings.StoredVectorsAreCurrent | src-tauri/src/embeddings.rs:240-302 | Whatever writers do between read, embed and store, and whatever is abandoned: if no re-chunk carries a vector to another text, every stored vector embeds its row's current text. |
| Embeddings.TitlesAreCurrent | src-tauri/src/embeddings.rs:240-302 | In every run a stored vector was made under its row's current title. |
| Embeddings.PolishHidesAnEdit | crates/fly-storage/src/embeddings.rs:447-488 | Raw text, polished, then edited: the vector of the first text stays on the third, and the row isn't pending. |
| Pacing.Settle | src-tauri/src/embeddings.rs:171-187 | Takes exactly until the burst of writes has been quiet long enough, or the cap, whichever is first. |
| Pacing.RestBetweenBatches | src-tauri/src/embeddings.rs:189-214 | Rests in full unless it may be cut and a write comes in time; then until writes settle; only a full rest lets the next be cut. |
| Pacing.RunWorker | src-tauri/src/embeddings.rs:359-447 | The worker's loop rests after stored batches only, carrying the flag from rest to rest. |
| Pacing.RestsLast | src-tauri/src/embeddings.rs:149-189 | In milliseconds: a rest lasts as long as its batch and 250 at least; a write in that time cuts it if it may be cut, and it then ends after 2000 without a write, or 20000 after that first one. |
| Pacing.NeverTwoCutsInARow | src-tauri/src/embeddings.rs:189-214 | In any run no two successive rests are cut, and an uncut one is at least the batch's time and the minimum. |
| Pacing.RestsCoverTheWork | src-tauri/src/embeddings.rs:359-447 | Cut rests outnumber full ones by at most one, and total rest is at least the total time of the fully rested batches. |
| CommandLine.SplitArgs | frontend/src/connectorsModel.ts:449-475 | The tokenizer's loop computes the specified words or the open-quote error. |
| CommandLine.FailsOnOddQuotes | frontend/src/connectorsModel.ts:449-475 | Tokenizing fails exactly on an odd number of quotes. |
| CommandLine.NothingIsLost | frontend/src/connectorsModel.ts:449-475 | The words' characters are, in order, those of the input but for quotes and for white space after an even number of quotes. |
| CommandLine.SpacesCollapse | frontend/src/connectorsModel.ts:451-476 | Outside quotes any run of white space counts as one space, and none before the first word or after the last counts at all. |
| CommandLine.RoundTrip | frontend/src/connectorsModel.ts:433-475 | Printing then tokenizing is the identity, empty and white-space arguments included, if and only if no argument has a double quote. |
| CommandLine.QuotedExactlyWhen | frontend/src/connectorsModel.ts:432-435 | An argument is printed in quotes exactly if it is empty or has white space or a quote in it. |
| CommandLine.EscapedAppend | frontend/src/connectorsModel.ts:434 | Quotes are escaped one by one, wherever they stand. |
| CommandLine.ParseCommand | frontend/src/connectorsModel.ts:479-511 | Trim, tokenize, take leading NAME=value words, tell the program by its base name. |
| CommandLine.ProgramIsItsBaseName | frontend/src/connectorsModel.ts:502-504 | A path is npx or uvx exactly when what follows its last separator is that name, in any case, with or without .cmd or .exe. |
| CommandLine.BaseNameIs | frontend/src/connectorsModel.ts:505-507 | The base name has no slash or backslash, and comes right after the last one, if there is any. |
| CommandLine.SettingSplits | frontend/src/connectorsModel.ts:488-500 | A setting's name and value are the word split at its first equals sign. |
| CommandLine.IsSettingExactly | frontend/src/connectorsModel.ts:493-502 | A word is a setting exactly if it is a name of letters, digits and underscores, no digit first, then an equals sign and any text; it is read as those two. |
| Texts.TrimTakesSpace | frontend/src/connectorsModel.ts:485 | Trimming takes all the white space at both ends and nothing else. |
| CommandLine.PreviewPastesBack | frontend/src/connectorsModel.ts:438-511 | Pasting a form's preview gives the form back if and only if the program is chosen and named, is not a NAME= word nor another program's name, and neither it nor an argument has a double quote. |
| CommandLine.PreviewSays | frontend/src/connectorsModel.ts:438-447 | Tokenized, the preview is the program (an ellipsis without one) and the arguments that aren't empty, if and only if none has a double quote. |
| CommandLine.FilledSkipsEmpty | frontend/src/connectorsModel.ts:440 | The arguments printed are all but the empty ones, in order. |
| CommandLine.CommandIs | frontend/src/connectorsModel.ts:396-444 | The program is printed by its own name, a file by its path without white space around it. |
| AskListener.AskChatStore.Retain | frontend/src/askStore.ts:168-178 | Counts a holder and registers only for the first. |
| AskListener.AskChatStore.Release | frontend/src/askStore.ts:179-190 | Counts once per handle; the last one closes the kept listener and outdates a late registration. |
| AskListener.AskChatStore.Resolve | frontend/src/askStore.ts:172-177 | Keeps a registration of the current generation while someone holds on, else closes it. |
| AskListener.RegistrationsFollowTheRun | frontend/src/askStore.ts:168-190 | In every run a handle is released exactly if it was asked to be, and a registration waits until it comes through or is refused, and is failed exactly if refused. |
| AskListener.ResolvedIsKeptOrClosed | frontend/src/askStore.ts:172-177 | A registration that comes through is kept and live if it is the current one and a view holds on, and closed otherwise; no other changes. |
| AskListener.ListenersAreAccountedFor | frontend/src/askStore.ts:168-190 | In every interleaving: holders are the unreleased handles, a listener that came through is the one kept or closed, none is live without a holder, and with one the current registration is live unless waiting or refused. |
| AskListener.RefusedStaysRefused | frontend/src/askStore.ts:168-190 | A refused registration isn't tried again until every holder has let go. |
| NoteDeletion.Hooks.RequestDelete | frontend/src/noteDeletion.ts:89-95 | Hides the note, adds it behind the toast and restarts the timer. |
| NoteDeletion.Hooks.UndoAll | frontend/src/noteDeletion.ts:97-104 | Takes back and shows again every waiting note. |
| NoteDeletion.Hooks.RunWaiting | frontend/src/deferredDelete.ts:43-53 | Begins the waiting deletes, oldest first, once each. |
| NoteDeletion.Hooks.SettleCommit | frontend/src/noteDeletion.ts:67-84 | What each promise of a delete command does to the hidden notes. |
| NoteDeletion.OneFateEach | frontend/src/deferredDelete.ts:43-64 | In every run a delete asked for once waits, was begun, or was undone: exactly one of them. |
| NoteDeletion.DeletionsFollowTheRun | frontend/src/deferredDelete.ts:43-66 | In every run, what waits is what was asked for since the last undo, close or timeout, and what was undone or begun is what waited then, in order. |
| NoteDeletion.StagesFollowTheRun | frontend/src/noteDeletion.ts:67-84 | A delete command is failed exactly if one of its promises was, else as far as those that went through. |
| NoteDeletion.DeletedExactlyWhen | frontend/src/noteDeletion.ts:67-76 | A note is removed exactly when a command of its was begun whose first promise went through. |
| NoteDeletion.TimerWaitsForEach | frontend/src/deferredDelete.ts:51-63 | The timer begins a delete no sooner than the full delay after it was asked for, begins all that wait, only while the window is there, and as soon as the full delay since the last request is over. |
| NoteDeletion.ClosingBeginsNothing | frontend/src/deferredDelete.ts:65-69 | After the window closes no delete is begun or undone. |
| NoteDeletion.ReappearsExactlyWhen | frontend/src/noteDeletion.ts:52-104 | A hidden note reappears in a step if and only if its waiting delete is undone or its command fails, in the removal or in what follows. |
| NoteDeletion.HiddenUntilBroughtBack | frontend/src/noteDeletion.ts:46-104 | In every run a hidden note that is visible later was brought back by such a step. |
| NoteDeletion.HiddenExactlyWhile | frontend/src/noteDeletion.ts:46-104 | In every run a note asked to be deleted at most once is hidden exactly while its delete waits, or was begun and has not failed. |
| NoteDeletion.DeletedNoteReappears | frontend/src/noteDeletion.ts:67-84 | A note removed from storage reappears when the refresh fails: a concrete run. |
| ImportProgress.MapProgress | frontend/src/importProgress.ts:18-50 | Every file's status and the active file's percentage, and the fallback without a usable timeline. |
| ImportProgress.UsableExactlyWhen | frontend/src/importProgress.ts:24-29 | The timeline can be used exactly when it has an end for each file and the last is after its start. |
| ImportProgress.StatusExactly | frontend/src/importProgress.ts:33-50 | A file is done once the percentage of the whole timeline is at its end, or within half a percent; the first that isn't is being transcribed, the others wait. |
| ImportProgress.InOrderExactlyWhen | frontend/src/importProgress.ts:18-50 | The statuses read done, at most one transcribing, waiting, at every percentage, if and only if the boundaries never fall. |
| ImportProgress.ProgressOnlyGrows | frontend/src/importProgress.ts:18-50 | A higher percentage moves no file backwards and lowers no position. |
| ImportProgress.FilePctOnlyGrows | frontend/src/importProgress.ts:41-44 | The active file's percentage never falls and stays within 0 to 99. |
| ImportProgress.FilePctIsNearest | frontend/src/importProgress.ts:40-44 | The active file's percentage is its own share of the timeline so far, to the nearest percent below 100. |
| ImportProgress.FilePctAtTheEnds | frontend/src/importProgress.ts:40-44 | Before its share begins, or without one, a file reads 0; near its end 99. |
| ImportProgress.AllDoneExactlyWhen | frontend/src/importProgress.ts:35-37 | Every file is done exactly from 99.5 percent on. |
| ImportProgress.RollingPosition | frontend/src/importProgress.ts:80-94 | The header's "k of n" is the file being transcribed, or the last. |
| ImportProgress.PositionCounts | frontend/src/importProgress.ts:88-90 | It counts the files done and the one being transcribed. |

## Left out

- File names are a stem and a kind: extensions in other cases, and paths that differ only in spelling, are not modelled.
- The counters of a finished run, progress events, modified times, fsync and free-space numbers: an arbitrary yes or no where the code branches on them.
- Whether the folder is there and its manifest isn't from a newer build is an arbitrary refusal at a run's start.
- Compression.MeetingStore.Compress: another writer is considered at the commit, where the code looks for one, and keeping that writer's record safe is that writer's part.
- `merged_manifest`: of the manifest only the recording it names is modelled; a missing manifest is not.
- The player: `prepare_playback`, its cache and the playback plan.
- The FLAC codec and the mixing arithmetic: trusted through their checks only.
- FolderLease: why a meeting may be blocked besides the flags (recently played, being transcribed) is one arbitrary step.
- AiQueue: `wait_for_pass_end`, the wake-ups, and the text of the settings row a snapshot is saved in.
- Approvals: link and address removal is an arbitrary function, and whether an accepted write goes through a given; audit rows and the id hash are left out.
- ConfirmCard: arguments are known by their two JSON renderings and the set a schema accepts; the pacing of refused dialogs is an arbitrary "not now"; the permission tables behind "Always allow", and tools that were set to it before, are left out.
- Embeddings: vectors carry what they were made from and an arbitrary value; row ids are arbitrary; the folders and flags that make an owner Keep local are one set; chunking itself is left out.
- Pacing: whole milliseconds, and timers that never oversleep.
- CommandLine: the fresh row ids, the settings half of the preview, and cases of letters outside ASCII, none of which is a letter of a known program's name.
- AskListener: the stream events and the chats they update.
- NoteDeletion: calls made after the window closed, and an `onDeleted` that throws, which the code treats like a failing refresh.
- ImportProgress: percentages are real numbers, not floating point; the text of the detail line is not parsed.
- HTTP, OAuth, keychain, native dialogs, file pickers and the React views.
