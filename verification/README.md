# Stacklab backup and session safety

Stacklab runs Docker stacks, backs them up with restic and restores them. This project models
the parts of it that have to survive crashes, concurrency and bounded memory, and proves what
they promise over every run:

- **Stop journals** (`StopJournals.dfy`): a capture or a restore stops containers. The model
  records every durable write and every Docker call as one instant of a history, and lets the
  process die at any of them. If journal saves return no error, a container that ran at the start
  and is down at any later instant is named by a journal on disk that will bring it back, unless a
  restore of it was applied or acknowledged before; and a restore that began to write stays held,
  with none of its writers started, until all of it was applied or an operator acknowledged it.
  Every failed call is logged, so that progress can be stated too: recovery brings back every writer
  of every readable journal without a hold, but those that Docker refused.
- **Prepared restores** (`PreparedRestores.dfy`): the privileged helper moves the children of a
  target aside, extracts, and rolls back on failure. From the instant a replacement begins, each
  child it found is in the target or in the rollback directory, until all of them are back, the
  whole archive is in their place, or another token begins there. A token changes its target at
  most once, and an interrupted record is never expired, released or applied again. A completed
  restore has the archive in the target, alone or over what was there.
- **Sessions** (`SessionHubs.dfy`, `Sessions.dfy`): signed-in websockets are told when their
  session ends. Whenever the transition mutex is free, every tracked session is unrevoked and at
  the current password version; sends under the hub's mutex never block; every subscriber gets at
  most one event and one close; and no channel of a revoked session stays open unless its own
  subscriber left.
- **Retention** (`RetentionPolicies.dfy`, `Retentions.dfy`): which recovery points a policy keeps,
  the cyclic, budgeted classification pass in front of it, and what a pass may delete.
- **Check evidence** (`CheckRecords.dfy`): what failed and inconclusive repository checks block, and
  for how long: exactly while some attempt of the history is unresolved.
- **Repository leases** (`RepositoryLeases.dfy`): readers, jobs and configuration changes exclude
  each other, and every release finds the key it reserved.
- **Diagnostics** (`DiagnosticStreams.dfy`, `RetryTrackers.dfy`, `CheckWatchdogs.dfy`): restic's
  output arrives in arbitrary chunks, is interpreted with bounded memory, and may stop a check.
- **Schedules** (`Schedules.dfy`) and **archive validation** (`ArchiveValidation.dfy`).

Code that updates state is modelled by classes and methods, specified by functions on values.
Clocks, Docker, restic, tar, the file system and SQLite appear as arbitrary answers: a result that
the code cannot predict is any value, and every call can fail or, where a crash matters, not return.

## Where a promise needs a condition

- *Nothing is stopped without a durable intent.* This fails when saving the intent reports an error
  and the file was not replaced: the deferred resume then fences the writer, a stop, under a journal
  that still says `planned`. `StopJournals.ForgottenWriter` is the run that ends with the writer down
  and no journal, and `ResumeIsSafeExactlyWhen` the exact condition before the fence: the journal on
  disk names the writer, or its stop is recorded as complete so that no stop is issued. The theorem
  over lifetimes is for saves that succeed or never return; holds are proved for all saves.
- *A retry stops a check when its operation failed over the whole budget.* Reports of an operation at
  0, 300 and 540 seconds, and of another one at 600, stop the check although no operation's own
  reports span ten minutes (`CheckWatchdogs.StopWithoutSpan`). What always holds is in
  `RetryStopIsSustained`, and `FirstRetryStop` says exactly when the span holds too.
- *A snapshot known to be complete takes part in retention.* The cache is bounded, and an answer of
  the pass itself can evict older evidence before its snapshot's turn; with all checks spent the
  snapshot is then passed over, and kept. `Retentions.EvictedExactlyWhen` says when an entry goes, and
  as long as the cache has room for every answer the verdicts are exact
  (`Retentions.Retention.Gather`, `UnevictedVerdictIsExact`).
- *The newest complete recovery point always survives.* It does exactly when some count is positive
  (`Retentions.NewestGoesExactlyWhen`). A policy with a negative count gets past the keep-all test;
  only plan validation keeps such policies out.
- *The idle deadline never exceeds the absolute one.* In the hub alone a second subscription with a
  later creation time breaks it (`SessionHubs.MergeCanExceed`, `MergeIsBoundedExactlyWhen`). The
  service never does that, because a session keeps its creation time.
- *An interval schedule is due at the latest multiple of its interval.* Before 1970 the division
  truncates towards zero and the due time can lie in the future (`IntervalDueCanLieAhead`);
  `IntervalDueIsLatestExactly` and `LatestDue` say exactly when it is right.
- *A recorded data failure blocks maintenance until a full check succeeds.* A stored failure of
  unknown extent with a transient message is dropped when the record is read
  (`CheckRecords.TransientFailureIsDropped`, `DataFailureStaysExactlyWhen`); failures that the service
  records itself never are.
- *Reading a record back changes nothing.* It does exactly unless the last attempt failed with the
  historical wording of an inconclusive check, no hold is present and no later check resolved it
  (`CheckRecords.ReadingBackChangesNothing`; `OldWordingChangesRecord` is such a record). For the same
  reason maintenance can be blocked with nothing unresolved; for all other histories it is not
  (`BlockedExactlyWhileUnresolved`).
- *Nothing lies below a link.* That holds for symlinks in both directions. For hard links the
  validator looks back only: a member below a hard link's name is accepted if it comes first
  (`ArchiveValidation.HardLinkOverDirectory`), and only then (`NothingBelowLinksExactlyWhen`).

## Model

| member | source | states |
|---|---|---|
| StopJournals.NeverForgotten | internal/backup/capture.go:44-184 | in every good history a container that ran at its start and is down at some instant is named by a journal on disk there as a writer to bring back, or a journal named it before whose run was applied or acknowledged by then |
| StopJournals.HeldUntilInspected | internal/backup/capture_restore.go:579-627 | between any two instants, a restore that began to write and is neither applied nor acknowledged keeps its held journal with the same writers, and none of these goes from stopped to running |
| StopJournals.ResumeIsSafeExactlyWhen | internal/backup/capture.go:76-108 | on any host, every instant of resuming an owed writer is safe whatever its calls do, if and only if its journal on disk names it before the fence or no stop is issued |
| StopJournals.ForgottenWriter | internal/backup/capture.go:52-184 | the run that loses a writer: the save of the intent fails, the deferred resume fences it, the process dies, and recovery finds nothing unfinished |
| StopJournals.OwedUntilReleased | internal/backup/capture_restore.go:586-627 | a container stays owed until a journal that names it belongs to an applied or acknowledged run |
| StopJournals.FinishedWritersAreUp | internal/backup/capture.go:76-108 | when no writer of a journal is unfinished, every owed one runs with no stop outstanding |
| StopJournals.Host.Save | internal/backup/capture.go:64-74 | a save replaces one journal or leaves the disk as it was; success means it was replaced, an error or a crash may come before or after |
| StopJournals.Host.Remove | internal/backup/capture.go:110-121 | removing a journal is allowed only when no owed writer needs it, and keeps the history good |
| StopJournals.Host.DockerStop | internal/backup/capture.go:222-247 | a stop is issued only under a durable intent; success means stopped with nothing outstanding, an error says nothing and is logged against the container |
| StopJournals.Host.DockerStart | internal/backup/capture.go:92-95 | a start touches no writer of a half-written restore and leaves other containers alone |
| StopJournals.Host.StopJournalWriter | internal/backup/capture.go:52-62 | intent, stop and completion in that order: on success the phase is `Stopped` and the container is down with no stop outstanding; on any outcome the journal in memory names the writer, no other writer's phase changes, and anything but success is one failed call |
| StopJournals.Host.ResumeWriter | internal/backup/capture.go:78-103 | the instants it adds are a fence unless the stop is recorded as complete, a start and a mark, each only after the one before succeeded; if it is marked, it runs unless a recorded stop was outstanding on a host with failing saves |
| StopJournals.Host.ResumeAll | internal/backup/capture.go:78-104 | a writer that cannot be fenced or started does not keep the others from it: every writer still named afterwards was refused by Docker in this call |
| StopJournals.Host.Resume | internal/backup/capture.go:76-108 | each writer the journal names is up, or fencing or starting that very writer failed; the journal goes only with all of them up and stays only if a call for its run failed; every failed call is one of its own; nothing that was up is lost but by a refused fence or start; other journals are untouched. After failed saves a recorded stop that was outstanding is the one exception |
| StopJournals.Host.Recover | internal/backup/capture.go:147-184 | every journal that can be read, is valid and not held is recovered: its writers are up and it is gone, or a call for its run failed, and each writer that is not up was refused by Docker; held journals are never changed; anything but success has a held, invalid or unreadable journal or a failed call as its cause, and success means no journal is left |
| StopJournals.RecoveredStays | internal/backup/capture.go:158-183 | recovering the journal of another run undoes nothing |
| StopJournals.ResumedIsRecovered | internal/backup/capture.go:76-108 | what the loop over the writers leaves is a recovery of the journal, for any outcome of its calls |
| StopJournals.Host.StopAll | internal/backup/capture.go:311-315 | on success every writer has phase `Stopped`; whatever fails, a container that was up still is or the journal in memory names it, and no recorded stop is outstanding |
| StopJournals.Host.CaptureStopped | internal/backup/capture.go:290-360 | success means the journal is gone and every writer runs; whatever else happens short of a crash, nothing that was up at the start is down unless Docker refused to fence or start it, and the journal stays only if a call failed |
| StopJournals.Host.ResumeAfter | internal/backup/capture.go:290-360 | the resume after stops of the same run needs no reliable saves: whatever was stopped runs, or was refused |
| StopJournals.Host.Prepare | internal/backup/capture.go:249-391 | a capture keeps the history good whatever fails or crashes; success leaves no journal and all writers running, on any host; otherwise nothing that was up is lost but what Docker refused, and the failure has a cause: the admission, the capture, the index, a blocked recovery or a failed call |
| StopJournals.Host.SaveHold | internal/backup/capture_restore.go:609-613 | the hold becomes durable or the journal is unchanged |
| StopJournals.Host.WriteTargets | internal/backup/capture_restore.go:614-625 | target writes start only under a durable hold, and count as applied only if all of them and the validation succeed |
| StopJournals.Host.Finish | internal/backup/capture_restore.go:586-627 | writers resume if nothing was written, or if everything was and resuming was asked for, so that nothing is lost but what Docker refused; otherwise the hold stays |
| StopJournals.Host.ApplyRestore | internal/backup/capture_restore.go:539-627 | a restore that began to write and did not complete leaves its held journal on disk; success with resuming leaves all writers running; a restore that wrote nothing, or everything with resuming, loses no container but what Docker refused; failure has a cause |
| StopJournals.Host.ResolveRecovery | internal/backup/capture_journals.go:156-232 | a held journal changes under no action but the acknowledgement of its hold; success removes the journal with every unfinished owed writer running; an action that applies to the journal fails only if a call or the record of it did |
| StopJournals.Host.Lifetime | internal/backup/capture.go:147-391 | any sequence of recoveries, captures, restores and operator actions, each failing or crashing anywhere, extends a good history, in which milestones are backed by held journals and containers stop being owed only by applied or acknowledged runs |
| PreparedRestores.NoChildIsLost | cmd/stacklab-backup-helper/restore_filesystem.go:57-131 | from the instant a replacement begins, at every later one each child it found is unchanged in the target or in the token's rollback directory, unless the children were given up in between |
| PreparedRestores.GuardLasts | cmd/stacklab-backup-helper/restore_filesystem.go:85-131 | children are given up only when they are all back, the whole archive is in their place, or another token begins on the same target |
| PreparedRestores.ChangesFollowBeginning | cmd/stacklab-backup-helper/restore_filesystem.go:40-63 | every change of an existing target is under an interrupted record of a token that began before |
| PreparedRestores.NeverAppliedAgain | cmd/stacklab-backup-helper/restore.go:324-369 | once a token has begun to change its target, no later instant shows its record as prepared |
| PreparedRestores.BeginsAtMostOnce | cmd/stacklab-backup-helper/restore.go:345-369 | no token begins twice in a whole lifetime |
| PreparedRestores.MoveBack | cmd/stacklab-backup-helper/restore_filesystem.go:146-156 | moving a child back undoes moving it aside |
| PreparedRestores.MoveOut | cmd/stacklab-backup-helper/restore_filesystem.go:64-68 | moving one more child aside reaches the state with that child aside |
| PreparedRestores.Helper.SavePrepared | cmd/stacklab-backup-helper/restore.go:117-123 | a save replaces the record or leaves it; it never makes a begun token prepared again |
| PreparedRestores.Helper.Expire | cmd/stacklab-backup-helper/restore.go:66-105 | records of interrupted restores and directories younger than a day are kept as they are; if no call fails, every other directory is gone |
| PreparedRestores.Helper.Prepare | cmd/stacklab-backup-helper/restore.go:187-269 | success leaves a prepared record and touches no target |
| PreparedRestores.Helper.Release | cmd/stacklab-backup-helper/restore.go:339-344 | releasing an interrupted restore fails and changes nothing of it; any other one is gone unless a call fails |
| PreparedRestores.Helper.MoveAside | cmd/stacklab-backup-helper/restore_filesystem.go:64-68 | success leaves every child in the rollback directory and none in the target |
| PreparedRestores.Helper.ClearRoot | cmd/stacklab-backup-helper/restore_filesystem.go:139-145 | success empties the target and leaves every rollback directory |
| PreparedRestores.Helper.RollBack | cmd/stacklab-backup-helper/restore_filesystem.go:133-164 | success restores the original children exactly and drops the rollback directory |
| PreparedRestores.Helper.SetAside | cmd/stacklab-backup-helper/restore_filesystem.go:57-84 | success leaves the target empty with all children in the rollback directory and the writing phase durable |
| PreparedRestores.Helper.Extract | cmd/stacklab-backup-helper/restore_filesystem.go:85 | success leaves exactly the archive over what was there, and the rollback directories as they were |
| PreparedRestores.OverlayHasArchive | cmd/stacklab-backup-helper/restore_filesystem.go:166-171 | every file of the archive is there with its content, at any depth |
| PreparedRestores.OverlayKeepsOthers | cmd/stacklab-backup-helper/restore_filesystem.go:166-171 | every old file whose path the archive does not touch is unchanged |
| PreparedRestores.OverlayAddsNothing | cmd/stacklab-backup-helper/restore_filesystem.go:166-171 | every file there is one of the archive, or an old one that it does not touch |
| PreparedRestores.Helper.Compensate | cmd/stacklab-backup-helper/restore_filesystem.go:85-96 | a record says rolled back only if the target has its original children again, and does if no call of the rollback fails |
| PreparedRestores.Helper.Conclude | cmd/stacklab-backup-helper/restore_filesystem.go:97-130 | success drops the rollback directory and records completion; the new content is never touched |
| PreparedRestores.Helper.ApplyChecked | cmd/stacklab-backup-helper/restore_filesystem.go:20-131 | rolled back means the target is what it was; success means completed, with the archive alone in replace mode and the archive over the old content in merge mode; without a failing call it succeeds |
| PreparedRestores.Helper.Apply | cmd/stacklab-backup-helper/restore.go:324-369 | a token that is not prepared, or a replacement over leftover rollback directories, changes no target; a rolled back one ends as it began, and a replacement whose extraction is the only call to fail is rolled back; a successful one has the archive in place of the old content or over it; a young prepared token fails only if a call does |
| PreparedRestores.Helper.Lifetime | cmd/stacklab-backup-helper/restore.go:271-369 | any sequence of preparations, applications, releases and crashes extends a good history |
| SessionHubs.EndingKeepsWired | internal/auth/session_lifecycle.go:326-339 | ending a session leaves every other registered channel open and empty, and every channel of it closed or given up |
| SessionHubs.NobodyWaits | internal/auth/session_lifecycle.go:326-339 | a session that is not tracked has no channel that is neither closed nor given up by its subscriber |
| SessionHubs.EverybodyIsTold | internal/auth/session_lifecycle.go:326-339 | while the hub is not shutting down, every listener of an untracked session was told why or left |
| SessionHubs.RegisteringKeepsWired | internal/auth/session_lifecycle.go:115-119 | a new subscription keeps each channel with exactly one subscriber and each tracked session attended |
| SessionHubs.UnlisteningKeepsWired | internal/auth/session_lifecycle.go:223-238 | unsubscribing drops a session exactly with its last subscriber and keeps the others registered |
| SessionHubs.MergeIsBoundedExactlyWhen | internal/auth/session_lifecycle.go:106-113 | merging a subscription keeps the idle deadline within the absolute one if and only if the new deadline is within it |
| SessionHubs.MergeCanExceed | internal/auth/session_lifecycle.go:106-113 | a subscription with a later creation time that breaks the order of the deadlines |
| SessionHubs.Hub.EndEach | internal/auth/session_lifecycle.go:335-338 | every listener gets the event and the close, no other channel changes, and no send can block |
| SessionHubs.Hub.Terminate | internal/auth/session_lifecycle.go:326-339 | the session goes and exactly its listeners are told and closed |
| SessionHubs.Hub.TerminateAll | internal/auth/session_lifecycle.go:215-221 | no session stays tracked; every registered listener is sent its session and the reason and closed, and no other channel changes |
| SessionHubs.Hub.Subscribe | internal/auth/session_lifecycle.go:70-128 | an expired session or a closing hub gives a closed channel with the right event or none, anything else registers a new open one; the deadlines stay in order exactly under the stated condition |
| SessionHubs.Hub.Unsubscribe | internal/auth/session_lifecycle.go:223-238 | exactly that subscriber is gone, and the session with its last one |
| SessionHubs.Hub.Touch | internal/auth/session_lifecycle.go:133-160 | active exactly when the session is tracked and neither deadline has passed; then the lease runs to the earlier of idle timeout and absolute deadline, otherwise the session is gone and its listeners are told which deadline it was |
| SessionHubs.Hub.TouchLease | internal/auth/session_lifecycle.go:164-178 | the lease never shortens and never passes the absolute deadline |
| SessionHubs.Hub.TouchPersisted | internal/auth/session_lifecycle.go:182-199 | as a lease touch, and the persisted activity never goes back |
| SessionHubs.Hub.Expire | internal/auth/session_lifecycle.go:268-286 | a session is ended exactly when its idle or its absolute deadline has passed, and its listeners are told which |
| SessionHubs.Hub.Shutdown | internal/auth/session_lifecycle.go:294-307 | every channel is closed or given up, none is sent an event, and the hub tracks nothing from then on |
| Sessions.NothingOutlivesRevocation | internal/auth/service.go:321-376 | a session that is revoked or from an older password is not tracked, and every channel ever handed out for it is closed or was given up |
| Sessions.InterferenceKeepsBacked | internal/auth/session_lifecycle.go:133-286 | whatever transports, timers and sign-ins do while a transition holds the mutex, the tracked sessions it is not ending stay live |
| Sessions.RowChangeKeepsBacked | internal/store/store.go:547-594 | changing one row leaves every other tracked session live, and its own too unless it was revoked |
| Sessions.SubscribedIsBacked | internal/auth/service.go:366-376 | subscribing an authenticated session keeps all tracked sessions live |
| Sessions.Service.Login | internal/auth/service.go:198-214 | a row is made if and only if the password version is the one that was verified and the identifier is new, and is live |
| Sessions.Service.TouchSession | internal/store/store.go:543-572 | activity is written exactly to a live row with the expected last activity |
| Sessions.Service.Logout | internal/auth/service.go:321-335 | success leaves the row revoked and the session untracked, and every listener that did not leave was told: logged out, or a deadline that passed meanwhile; refusal means no unrevoked row, failure a failed store call; the invariant holds on every path |
| Sessions.Service.UpdatePassword | internal/auth/service.go:355-364 | success moves the version on, revokes every earlier row, leaves nothing tracked and has told every listener; failure changes nothing and is due to the old password or the store |
| Sessions.Service.RecordRequest | internal/auth/service.go:450-462 | under the mutex the compare-and-swap never loses, and activity is written exactly when the interval has passed |
| Sessions.Service.Attempt | internal/auth/service.go:433-476 | an accepted request read an unrevoked row of the current version before its idle expiry and its lifetime, is live, and gets the deadline and last activity that row and time call for; a refused one read a row that was revoked or past one of them, or none, and is not tracked; any other error is a failed store call |
| Sessions.Service.Authenticate | internal/auth/service.go:427-480 | as one attempt: accepted, refused or failed for the same causes; the second is never needed, for no conflict occurs under the mutex |
| Sessions.Service.AuthenticateWebSocket | internal/auth/service.go:366-376 | a session that is not live is refused; an accepted one gets a channel that is registered or already closed |
| Sessions.Service.PersistActivity | internal/auth/service.go:391-418 | refusal means untracked, acceptance means live |
| Sessions.Service.Reload | internal/auth/service.go:395-410 | a conflict ends the session exactly when the row read again is missing, of another version, revoked, or past its idle expiry or lifetime, unless the store fails |
| Sessions.Service.ExpireSession | internal/auth/service.go:495-505 | the session is untracked and, unless the store fails, revoked afterwards, even if it was authenticated again between the timer and the revocation |
| Sessions.Service.Lifetime | internal/auth/service.go:321-505 | over any interleaving a revoked session is never tracked again and all its channels are closed or given up |
| RetentionPolicies.RetentionIsIdempotent | internal/backup/retention.go:175-212 | applying the policy to what it kept keeps all of it |
| RetentionPolicies.FewerSnapshotsKeepMore | internal/backup/retention.go:192-209 | removing other snapshots never makes a rule give up one it kept |
| RetentionPolicies.RetentionIsMonotone | internal/backup/retention.go:184-211 | raising any count never drops a snapshot |
| RetentionPolicies.LeadersCount | internal/backup/retention.go:195-206 | each rule keeps the newest snapshot of as many periods as it asks for, or of all there are |
| RetentionPolicies.NewestSurvivesExactlyWhen | internal/backup/retention.go:184-211 | the newest snapshot is kept if and only if some count is positive |
| RetentionPolicies.WalkBucket | internal/backup/retention.go:195-206 | the newest-first walk finds exactly the leaders of the set definition, and knows whether periods were short |
| RetentionPolicies.KeepBucket | internal/backup/retention.go:192-209 | one rule keeps exactly the leaders, and the oldest snapshot when there are fewer periods than asked for |
| RetentionPolicies.RetainedSnapshotIds | internal/backup/retention.go:175-212 | whatever the order of the list, the result is exactly the set the order-free definition keeps |
| Retentions.OldestEntry | internal/backup/snapshot_evidence.go:39-45 | the entry that goes first: oldest classification, then smallest key |
| Retentions.Trim | internal/backup/snapshot_evidence.go:38-47 | the cache never exceeds its bound, loses no more than it must, and every dropped entry precedes every kept one |
| Retentions.EvictedExactlyWhen | internal/backup/snapshot_evidence.go:33-48 | remembering one more classification drops another if and only if the cache is full, the key is new and the other entry is the oldest |
| Retentions.CursorAdvances | internal/backup/retention.go:80-108 | a pass that stopped at some offset brings every later position nearer by exactly that much |
| Retentions.Retention.Classify | internal/backup/retention.go:110-135 | a check is spent exactly on an unknown snapshot with budget left and moves the cursor to it, a check without an answer is reported as unavailable, and only evidence makes a snapshot complete |
| Retentions.Retention.Walk | internal/backup/retention.go:80-136 | the pass is available exactly if every check it made was answered; then each snapshot has its verdict, verified exactly if it is eligible and its answer, or else the evidence from before, says complete, evidence evicted by the pass itself aside; what was not looked at lies at least a full budget beyond the new cursor, with every check spent |
| Retentions.UnevictedVerdictIsExact | internal/backup/retention.go:107-136 | while nothing is evicted, a snapshot is verified if and only if it is eligible and was asked about and answered complete, or was not asked about and was known complete before the pass |
| Retentions.Retention.Gather | internal/backup/retention.go:71-136 | the verdicts hold of the whole inventory, in whatever order it is listed; with room in the cache for every answer nothing is evicted; an eligible snapshot is passed over only once all checks are spent |
| Retentions.EverySnapshotIsLookedAt | internal/backup/retention.go:80-136 | over any consecutive passes on a fixed list, as many as full budgets cover it, each eligible snapshot is looked at, that is known before the pass or asked about and answered |
| Retentions.Retention.Passes | internal/backup/retention.go:80-136 | passes with every check answered are faithful and consecutive whatever happens to the cache between them, so every eligible snapshot is looked at in time |
| Retentions.Forget | internal/backup/retention.go:156-165 | non-empty batches of at most 128 that together are a prefix of the deletion list, and all of it unless one fails |
| Retentions.RemovalsMean | internal/backup/retention.go:150-155 | the deletion list has each verified snapshot that is not kept exactly once |
| Retentions.NewestIsNeverDeleted | internal/backup/retention.go:137-165 | with truthful evidence and a positive count the newest complete snapshot is never deleted |
| Retentions.NewestGoesExactlyWhen | internal/backup/retention.go:63-165 | the newest verified snapshot is given up if and only if it is no checkpoint and no count is positive |
| Retentions.NegativeCountGivesUpNewest | internal/backup/retention.go:12-14 | a policy with one negative count that deletes the only snapshot |
| Retentions.Retention.Retain | internal/backup/retention.go:63-170 | deletions are unique, verified, unkept and no checkpoint, and on success all such snapshots are deleted, the verified ones being those of the verdicts over the whole inventory; any deletion means that no check of the pass went unanswered; a block or a keep-all policy checks and deletes nothing; each error has its cause |
| CheckRecords.StandingUntilFullCheck | internal/backup/check_evidence.go:171-211 | over any attempts without a successful full check, a data failure or full hold stays and keeps the gate shut |
| CheckRecords.MaintenanceStaysBlocked | internal/backup/operations.go:24-36 | meanwhile scheduled pruning is refused and deleting retention blocked |
| CheckRecords.FullCheckClears | internal/backup/check_evidence.go:198-210 | a successful full check opens the gate, whatever was recorded |
| CheckRecords.BlockedExactlyWhileUnresolved | internal/backup/check_evidence.go:171-211 | over any attempts on a fresh destination, scheduled pruning is refused if some attempt's damage or open check has no later attempt that resolves it: a successful full check for the data, any successful one for the metadata; and only if so, unless some failure had the historical wording |
| CheckRecords.ReplayMirrors | internal/backup/check_evidence.go:171-211 | the recorded data failure, metadata failure, full hold and metadata hold are each the unresolved attempts of their kind |
| CheckRecords.InconclusiveHolds | internal/backup/check_evidence.go:189-197 | for every record an inconclusive attempt leaves a hold and blocks, of full extent if and only if more than metadata was to be checked or a full hold was there, and leaves the evidence alone |
| CheckRecords.DamageStands | internal/backup/check_evidence.go:182-188 | for every record damage blocks and is recorded where it was found, the data or the metadata, and nowhere else |
| CheckRecords.PartialSuccessSettles | internal/backup/check_evidence.go:198-210 | for every record a successful check that is not full clears a metadata failure and a metadata hold, and neither a data failure nor a full hold |
| CheckRecords.DataFailureStaysExactlyWhen | internal/backup/check_evidence.go:29-44 | reading a record keeps a data failure if and only if it is not a transient message of unknown extent, or another message stands for it |
| CheckRecords.TransientFailureIsDropped | internal/backup/check_evidence.go:29-44 | every transient message of unknown extent as the only evidence: blocked as stored, open once read |
| CheckRecords.NoOpExactlyWhen | internal/backup/check_evidence.go:29-87 | normalising a tidy record changes nothing if and only if no old inconclusive attempt lacks its hold |
| CheckRecords.ReplayIsTidy | internal/backup/check_evidence.go:171-211 | every record reachable from a fresh destination is tidy |
| CheckRecords.ReadingBackChangesNothing | internal/backup/check_evidence.go:29-107 | after any history normalising is a no-op if and only if it finds no failed attempt with the historical wording that has no hold and no later check resolving it |
| CheckRecords.OldWordingChangesRecord | internal/backup/check_evidence.go:52-60 | a first attempt with that wording: open as recorded, blocked once read back |
| CheckRecords.OtherFailureKeepsToken | internal/backup/check_evidence.go:130-169 | a failure that is neither damage nor inconclusive leaves the review fingerprint unchanged, for every record |
| CheckRecords.VerdictFollowsToken | internal/backup/operations.go:24-36 | the prune decision depends on nothing but the reviewed condition |
| CheckRecords.AcknowledgementOutlivesOtherFailure | internal/backup/operations.go:24-36 | an acknowledgement stays as good as it was across such failures |
| CheckRecords.NewDamageNeedsReview | internal/backup/operations.go:24-36 | after new damage every earlier acknowledgement is refused |
| CheckRecords.Destination.UpdateAggregate | internal/backup/check_evidence.go:89-107 | the overall status, error and token are those of the specification |
| CheckRecords.Destination.Normalize | internal/backup/check_evidence.go:29-87 | the record becomes its normal form |
| CheckRecords.Destination.RecordAttempt | internal/backup/check_evidence.go:171-211 | the record becomes what the specification of an attempt says, of which the four rows above and the replay say what it means |
| RepositoryLeases.ReadersAddUp | internal/backup/repository.go:411-424 | the active reader count is the sum of the per-repository counts, all positive, and no repository has both a reader and a job |
| RepositoryLeases.UnreadUndoesRead | internal/backup/repository.go:411-424 | releasing a read lease restores exactly the state before it |
| RepositoryLeases.ReleaseUndoesReserve | internal/backup/leases.go:73-81 | the final release of a new job restores exactly the state before it |
| RepositoryLeases.SumCountsLeases | internal/backup/repository.go:411-424 | reader counts add up to the number of leases held |
| RepositoryLeases.NeededOnly | internal/backup/leases.go:62-71 | only keys of copies with pending work are reserved |
| RepositoryLeases.NeededHas | internal/backup/leases.go:62-71 | the key of every copy with pending work is reserved |
| RepositoryLeases.MarkPending | internal/backup/leases.go:62-71 | the reservation loop marks exactly the needed keys |
| RepositoryLeases.ShrinkKeepsConsistent | internal/backup/leases.go:107-132 | giving up one of several keys leaves the job with another |
| RepositoryLeases.Service.BeginRead | internal/backup/repository.go:392-427 | a read lease is taken exactly on a configured repository without a job, otherwise nothing changes |
| RepositoryLeases.Service.EndRead | internal/backup/repository.go:416-425 | a lease is released once, under the key it was taken for |
| RepositoryLeases.Service.RepositoryResources | internal/backup/leases.go:38-60 | success means every pending destination exists, none is named twice and all their keys are free; each error has its cause |
| RepositoryLeases.Service.ReleaseRepositories | internal/backup/leases.go:73-81 | exactly the keys of the job go |
| RepositoryLeases.Service.StartRun | internal/backup/service.go:594-735 | all needed keys are reserved together or the leases are exactly as before, also when persisting fails |
| RepositoryLeases.Service.StartRepositoryJob | internal/backup/operations.go:38-70 | the one key is reserved from free, or nothing changes |
| RepositoryLeases.Service.ReleaseCompleted | internal/backup/leases.go:107-132 | an accepted release gives up the finished key unless it is the last one of the job, and nothing else |
| RepositoryLeases.Service.ConfigurationBusy | internal/backup/service.go:235-245 | busy exactly when some lease or other work is outstanding |
| RepositoryLeases.Service.SaveDestination | internal/backup/service.go:246-288 | saved if and only if nothing is leased or busy, no other destination has the key and an existing one keeps its own |
| RepositoryLeases.Service.DeleteDestination | internal/backup/service.go:354-370 | a destination goes if and only if it exists, no plan uses it and nothing is leased or busy |
| RepositoryLeases.DestinationsArePinned | internal/backup/service.go:235-264 | between any two states of a run with a lease in all states between, the destinations are the same |
| RepositoryLeases.ReadReleaseMeetsItsKey | internal/backup/repository.go:411-425 | as long as a read lease is out it stays on its key, which stays counted |
| RepositoryLeases.JobReleaseMeetsItsKey | internal/backup/leases.go:107-132 | as long as a job holds a key, the destination it was reserved for keeps it and no reader gets in |
| RepositoryLeases.Service.Lifetime | internal/backup/leases.go:38-132 | the states of any run are consistent, and each step keeps destinations into and out of leased states and leases on their keys |
| DiagnosticStreams.FeedMatchesLines | internal/backup/diagnostic_stream.go:19-71 | the byte automaton emits exactly one event per line of the whole output, an overflow for each line over the bound |
| DiagnosticStreams.FeedSplit | internal/backup/diagnostic_stream.go:19-54 | feeding in pieces is feeding at once |
| DiagnosticStreams.Stream.Write | internal/backup/diagnostic_stream.go:19-54 | a chunk moves the stream as its bytes would one by one, within the memory bound |
| DiagnosticStreams.Stream.Close | internal/backup/diagnostic_stream.go:66-71 | the unterminated rest is emitted once |
| DiagnosticStreams.Interpret | internal/backup/diagnostic_stream.go:19-71 | the events depend on the concatenated output only, not on the chunks |
| RetryTrackers.NeverSurer | internal/backup/diagnostic_operations.go:59-178 | after any lines the bounded tracker is uncertain about packs or indexes wherever an unlimited one is |
| RetryTrackers.ExactWhileItFits | internal/backup/diagnostic_operations.go:59-178 | and exactly there while no more operations are open than fit |
| RetryTrackers.InDoubtExactlyWhen | internal/backup/diagnostic_operations.go:95-203 | in terms of the output alone: packs are in doubt if and only if listing them failed for good, or was retried with no later recovery and no later phase that makes it irrelevant; indexes likewise for listing or loading them |
| RetryTrackers.VictimIsUnique | internal/backup/diagnostic_operations.go:67-78 | the operation to evict is determined |
| RetryTrackers.Diagnostics.Oldest | internal/backup/diagnostic_operations.go:67-78 | the eviction loop finds it |
| RetryTrackers.Diagnostics.RetainRetry | internal/backup/diagnostic_operations.go:59-81 | a retry is tracked, evicting at most the victim, or noted as untracked inventory |
| RetryTrackers.Diagnostics.Add | internal/backup/diagnostic_operations.go:95-178 | one line moves the evidence as specified and keeps sequence numbers distinct |
| RetryTrackers.Diagnostics.UncertainInventory | internal/backup/diagnostic_operations.go:193-203 | the verdict over all pending operations and flags |
| RetryTrackers.Diagnose | internal/backup/diagnostic_operations.go:59-203 | the verdict on any output is at least as cautious as the unlimited one, and equal while it fits |
| CheckWatchdogs.RetryStopIsSustained | internal/backup/check_watchdog.go:43-66 | a retry that stops a check is backed by an operation that first failed a budget ago, reported recently and never recovered or paused in between |
| CheckWatchdogs.FirstRetryStop | internal/backup/check_watchdog.go:28-78 | for the first stop of any history that is certain, and its own reports span the budget if and only if the reporting operation's window is due |
| CheckWatchdogs.SpanExactlyWhenOwnWindowDue | internal/backup/check_watchdog.go:43-66 | the same condition for one step |
| CheckWatchdogs.StopWithoutSpan | internal/backup/check_watchdog.go:43-66 | a history that stops a check without any operation's reports spanning the budget |
| CheckWatchdogs.PersistentFailureStops | internal/backup/check_watchdog.go:43-66 | an admitted operation that fails on without recovering or pausing stops the check with the first retry of any operation after the budget, whatever the others report |
| CheckWatchdogs.UnstoppedSawNoFailure | internal/backup/check_watchdog.go:67-76 | a check that was never stopped saw no uncancelled read failure and no failure in the older wording |
| CheckWatchdogs.StepJustified | internal/backup/check_watchdog.go:28-78 | every open window stays backed by an unbroken run of reports |
| CheckWatchdogs.ReplaySound | internal/backup/check_watchdog.go:28-78 | so it is after any history |
| CheckWatchdogs.Tracker.Deadline | internal/backup/check_watchdog.go:80-88 | the least deadline of the open windows |
| CheckWatchdogs.Tracker.ObserveRetry | internal/backup/check_watchdog.go:43-66 | quiet windows go, the reporting one is opened or kept, and the check stops exactly if a deadline has passed |
| CheckWatchdogs.Tracker.ObserveLine | internal/backup/check_watchdog.go:28-78 | one line has the specified effect and verdict |
| CheckWatchdogs.Tracker.Observe | internal/backup/check_watchdog.go:28-78 | the lines of a record are read up to the first that stops the check and all of them if none does, and then none was a terminal failure; a stop by a retry is sustained |
| Schedules.IntervalDueIsLatest | internal/backup/schedule.go:73-76 | since the epoch the due time is the greatest multiple of the interval not after now |
| Schedules.IntervalDueIsLatestExactly | internal/backup/schedule.go:73-76 | it is so if and only if now is not before the epoch or lies on a whole interval |
| Schedules.IntervalDueCanLieAhead | internal/backup/schedule.go:73-76 | an instant before the epoch whose due time is still to come |
| Schedules.LatestDue | internal/backup/schedule.go:69-85 | the latest occurrence, or none on the dates looked back at, exactly under that condition |
| Schedules.IntervalsFollow | internal/backup/schedule.go:100-107 | the interval preview lists the next occurrences without a gap |
| Schedules.ScanDates | internal/backup/schedule.go:108-115 | the calendar preview lists the next occurrences without a gap, and all within the dates scanned if fewer than asked |
| Schedules.PreviewSchedule | internal/backup/schedule.go:89-116 | an error exactly for invalid input, otherwise the next occurrences in order |
| Schedules.Scheduler.DueOccurrence | internal/backup/operations.go:513-522 | a due occurrence is the latest one at an instant up to now and newer than everything started |
| Schedules.Scheduler.DueSlots | internal/backup/operations.go:511-522 | every slot of the plan that has a new due occurrence, and no other: one left out had none at some instant of the call |
| Schedules.OwedIsNotPassedOver | internal/backup/operations.go:511-522 | a slot with an occurrence that has passed, is in sight and is newer than its watermark, or has no watermark, is not left out |
| Schedules.Scheduler.Mark | internal/backup/operations.go:538-545 | the watermark of a started slot becomes its occurrence, no other slot changes |
| Schedules.Scheduler.RunPlan | internal/backup/operations.go:504-548 | every enabled slot that was owed an occurrence is due; a run starts exactly if the plan is enabled, something is due and it is admitted; then each due slot starts exactly its due occurrence and its watermark follows, and nothing else changes |
| Schedules.Scheduler.Run | internal/backup/operations.go:493-567 | over any number of ticks the occurrences each slot starts strictly increase, so none is started twice |
| Schedules.FirstOutstandingDue | internal/backup/schedule.go:146-170 | the first occurrence after the capture or activation that is due, or none |
| Schedules.MissedDeadlineStays | internal/backup/schedule.go:146-170 | as time passes the first missed deadline of an unreplaced copy stays the same |
| Schedules.LegacyDeadlineMoves | internal/backup/schedule.go:159-164 | without capture and activation times the reported deadline moves with the clock |
| ArchiveValidation.ValidateArchive | internal/backup/capture_restore.go:23-128 | accepts exactly the archives whose every member is acceptable after those before it, by the rules on cleaned names and targets that the next rows give a meaning |
| ArchiveValidation.NothingEscapes | internal/backup/capture_restore.go:36-95 | in an accepted archive no name, no hard link target and no symlink target from its directory is absolute or has a prefix with more parent references than components |
| ArchiveValidation.InsideExactlyWhen | internal/backup/capture_restore.go:36-60 | a cleaned path stays inside if and only if the path is relative and no prefix of it has more parent references than components |
| ArchiveValidation.CleanCancels | internal/backup/capture_restore.go:36-60 | a component followed by a parent reference makes no difference to the cleaned path |
| ArchiveValidation.CleanSkips | internal/backup/capture_restore.go:36-60 | nor does an empty component or a reference to the directory itself |
| ArchiveValidation.CheckMember | internal/backup/capture_restore.go:36-126 | one header passes exactly under the rules, and updates the notes as specified |
| ArchiveValidation.PassingIsAcceptable | internal/backup/capture_restore.go:65-98 | the rules on remembered names are the pairwise rules between members |
| ArchiveValidation.NothingBelowSymlinks | internal/backup/capture_restore.go:65-84 | in an accepted archive no member lies below a symlink, whichever comes first |
| ArchiveValidation.NothingBelowLinksExactlyWhen | internal/backup/capture_restore.go:65-95 | in an accepted archive nothing lies below any link if and only if no hard link takes the name of a directory an earlier member lies in |
| ArchiveValidation.BelowHardLinkComesBefore | internal/backup/capture_restore.go:65-95 | a member below a hard link's name comes before the link |
| ArchiveValidation.HardLinkOverDirectory | internal/backup/capture_restore.go:85-95 | an accepted archive, for any names, with a member below a later hard link |
| ArchiveValidation.HardLinksNameEarlierMembers | internal/backup/capture_restore.go:85-95 | each hard link names an earlier member that is no link and is reached through none |
| ArchiveValidation.NotesMean | internal/backup/capture_restore.go:65-126 | the three remembered sets are exactly the links, members and ancestors so far |
| ArchiveValidation.CleanIdempotent | internal/backup/capture_restore.go:23-60 | cleaning a cleaned path changes nothing |
| ArchiveValidation.Ancestors | internal/backup/capture_restore.go:65-70 | the walk finds exactly the strict ancestors and whether one is a link |
| ArchiveValidation.CheckTarget | internal/backup/capture_restore.go:99-125 | merging fits exactly when every existing entry on the way allows the member |

## Left out

- Everything outside backup, restore, sessions and the helper: stacks, Docker management, Git, web terminal, audit and the HTTP layer.
- Byte formats, tar and restic invocations, ownership and metadata of files, path pinning and mount checks of the helper: they answer the model with arbitrary results.
- Login throttling and password hashing: they only add easy members.
- Removal of old session rows by housekeeping: it deletes rows outside the transition mutex, and rows are only ever added or changed in the model.
- Sessions.Service.UpdatePassword: a transaction that reports an error is taken to have changed nothing.
- Sessions.Service.PersistActivity: takes any result of a hub touch, not just the latest one, because other transitions may run between the touch and the mutex.
- Session timers: an expiry may come at any instant, so that the delay of a timer is not modelled.
- RepositoryLeases.Service.SaveDestination: the repository location is represented by its key, and validation of the other fields is left out.
- Repository keys: the normalisation of addresses before the digest, which is taken to be free of collisions.
- Retentions.Retention.Retain: the clock is read once a pass, the listed identifiers are distinct, and the closing prune is left out.
- Removal of stale cursor entries of deleted plans and destinations: it does not touch the cursor in use.
- Period keys of days, weeks and months are arbitrary functions of time.
- CheckRecords.Transient: white space at the end of a message is ASCII only.
- CheckRecords.NewDamageNeedsReview: the digest is represented by the reviewed condition itself, so collisions of the hash are left out.
- RetryTrackers.NeverSurer: matching an old failure message to a retry by its cause, which depends on entries that may have been evicted.
- Calendar arithmetic and time zones: a calendar is any function from dates to occurrences whose dates do not go back as time passes.
- Schedules.Scheduler.Run: one process without a crash between the start of a run and its watermarks, after which the occurrence would be due again; the clock never goes back and never shows a time before the epoch.
- StopJournals.Host.Recover: a container that is removed meanwhile counts as brought back, for there is nothing to start.
- PreparedRestores.Helper.Extract: names and contents of files only, and a link counts as a file.
- StopJournals.Host.Lifetime: the lifetime safety of stops is for journal saves that return no error; holds are proved for all saves.
- ArchiveValidation.ValidateArchive: size limits and member contents are one flag of a header.
