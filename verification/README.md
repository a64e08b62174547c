# Arrarr, verified in Dafny

Arrarr takes NZBs, torrents and magnet links from Sonarr and Radarr, lets TorBox download them and
pulls the finished files to disk. Four loops (submitter, poller, puller, reaper), the webhook notifier
and any number of HTTP clients move one table of jobs through

    NEW -> SUBMITTED -> DOWNLOADING -> COMPLETED_TORBOX -> READY      (or FAILED, CANCELED)

without a common lock: each statement is atomic, state changes are compare-and-set, and everybody
works on the copy of a row it once read. This project models that pipeline and the algorithms around
it, and proves what the program relies on.

`dafny verify dfyconfig.toml` checks the whole project.

## How the model is built

| file | content |
|---|---|
| `Text.dfy`, `Job.dfy` | bytes and ASCII text; the job record, its states and the life cycle |
| `StoreSpec.dfy`, `Store.dfy` | every SQL statement as a function of the table and the clock, what any sequence of them keeps, and the store as a class whose methods are proved against those functions |
| `PollerSpec.dfy`, `Matching.dfy`, `Poller.dfy`, `PollPass.dfy`, `VisitFate.dfy` | a poll visit step by step, which entry belongs to a job, the poller as a class, what a pass does to each row, and what a visit makes of a job in terms of TorBox's entry |
| `SubmitterSpec.dfy`, `Submitter.dfy`, `Client.dfy` | how a submission ends, and how a client ends a job |
| `PullerSpec.dfy`, `PullerSafety.dfy`, `Puller.dfy`, `PullerRefill.dfy`, `FileList.dfy` | the puller's critical sections as a state machine, its guarantees over all interleavings, the puller as a class, how its pool refills while others go on, and the choice of files |
| `Pipeline.dfy`, `PipelineSafety.dfy`, `PipelineTheorems.dfy`, `PipelineDeadline.dfy` | all actors and crashes interleaved one statement at a time; the invariant; the guarantees for every run; how long a job can stay in flight |
| `PullFate.dfy`, `Causes.dfy` | how a pull ends for everything it can meet; the one cause of every committed change, and where the files of a READY job come from |
| `PipelineRuns.dfy`, `CutVisits.dfy`, `JobDrives.dfy` | runs built action by action: why crashes inside overdue visits must be counted, and how any unfinished job can come to be pulled |
| `LatePulls.dfy`, `SharedDirs.dfy` | when a discarded job is pulled again, and when its directory is written to again |
| `Bencode.dfy`, `Decoder.dfy` | the bencode walker: what it computes, the language it accepts, the BEP 3 encoder, and the cursor class |
| `Paths.dfy`, `Confinement.dfy`, `Disk.dfy`, `Discard.dfy` | lexical paths, where files may be written and which directories may be deleted |
| `Downloader.dfy`, `FanOut.dfy`, `Collisions.dfy` | one file fetched and published atomically; many at once; files that get each other's names |
| `InfoHash.dfy`, `EventQueue.dfy` | info-hash spellings; the drop-oldest event queue |

Three ideas recur. Code that changes things in steps is a class or method whose contract ties the new
state to a specification function, and the lemmas are about that function. Concurrent code is a state
machine whose actions are the critical sections (one SQL statement, one locked region, one channel
operation), and a theorem speaks of every run of it. What cannot be computed (TorBox's lists, ids and
errors, the clock, random jitter, what the disk and the network do) is an input.

Where the code does not keep the obvious promise, the model keeps the code and says when the promise
holds:

- The comment above `Enqueue` (internal/events/emitter.go:81-83) says that the oldest pending event is
  dropped. `EventQueue.SerialProducersLoseNothing`: so it is, as long as no producer hands over an event
  while another is doing so. `EventQueue.OneOverlapLoses`: one overlap on a full channel can lose the newest.
- The partial file lies under the base like its destination, except for some destinations that are the base
  itself: `Confinement.PartialIsConfinedExactly`.
- The comment above `Discard` (internal/worker/discard.go:16-17) says that nothing writes into the directory
  of a stopped pull afterwards. Two things can. A new pull of the same job starts exactly if the Tick at work
  still has the job in its listing (`LatePulls.PulledAgainExactly`, with the run in
  `LatePulls.AbortCanComeTooSoon`). Otherwise the directory is written to again exactly if another job that is
  unfinished, listed or being pulled has the same directory, or one above or below it, that is, such a
  category and release (`SharedDirs.DiscardedIsWrittenExactly`, `Confinement.MeetsBySubdir`, with the run of
  two jobs in `SharedDirs.AnotherJobWrites`). A discard deletes what such a job has there already
  (`Discard.DiscardAndOthers`).
- Only directories strictly below DOWNLOAD_DIR/<category> are said to be deleted (internal/worker/discard.go:22,
  60-61). So it is exactly if the release, made safe for the file system, is not "." or "..":
  `Confinement.JobDirIsBelowCategory`.
- `Run` reports success when every file was fetched, also when two of them were fetched to one name and one is
  missing: `Collisions.SeparateExactly` says when, `Collisions.CollisionLosesAFile` what is left.
- No job stays in flight forever: `PipelineDeadline.BoundedTimeInFlight`, as long as visits of the overdue job
  itself are not cut off by crashes again and again; each costs a bounded delay, and without a bound on their
  number there is none: `CutVisits.OverdueCutsHaveNoBound`.
- The bounds test on a bencode length is exact except for lengths near 2^63, where the sum wraps:
  `Decoder.LengthTestIsExact`.

In three more places a comment says other than the code, and the model follows the code: `safeJoin` does not
reject backslashes (internal/downloader/downloader.go:234-235), the list of files holds everything that is
neither noise nor an archive, not only videos (internal/worker/puller.go:399-403), and the info-hash is
lowercase (internal/qbit/bencode.go:11-12).

## Model

| member | source | states |
|---|---|---|
| Jobs.TerminalHasNoSuccessor | internal/job/state.go:15-42 | the terminal states are exactly those with no legal next state |
| Jobs.NextStates | internal/job/state.go:27-42 | the legal changes: one stage on, DOWNLOADING may be skipped, and any unfinished job may fail or be canceled |
| Jobs.PathIsShort | internal/job/state.go:27-42 | a chain of legal changes has at most four, and none after a terminal state |
| StoreSpec.StateSafety | internal/store/jobs.go:190-250 | for any sequence of statements with any, however stale, arguments: a row's committed changes form a legal path from NEW to its present state, at most four, each starting where the last ended |
| StoreSpec.StampsAreOrdered | internal/store/jobs.go:33-38 | `updated_at` never runs back and is never older than the last change of the byte count, whichever statement runs |
| Store.Store.BuildUpdate | internal/store/jobs.go:194-236 | the assignments appended one optional column after the other amount to the intended change of the row |
| Store.Store.Transition | internal/store/jobs.go:190-250 | compare and set: applied, and reported to the hooks, exactly if the change is legal and the row is still in the state the caller read; the row afterwards column by column, and no other row changes |
| Store.Store.MarkLocalReady | internal/store/jobs.go:42-69 | on a COMPLETED_TORBOX row, and on no other: READY with the path given, both byte counts the size given, completed now, without error, next attempt, payload or claim, and one report to the hooks; otherwise no change at all |
| Store.Store.Insert | internal/store/jobs.go:16-29 | a new row in the state given with these columns and all others empty, refused if the id exists |
| Store.Store.Claim | internal/store/jobs.go:145-169 | stamps exactly the oldest claimable rows up to the limit: NEW, due, and unclaimed for 300 seconds; the caller gets them in any order, and no other row changes |
| Store.Store.AttemptFailure | internal/store/jobs.go:255-264 | counts an attempt, in whatever state the row is, and changes no state |
| Store.Store.Reschedule | internal/store/jobs.go:269-277 | postpones without counting an attempt |
| Store.Store.Release | internal/store/jobs.go:171-175 | drops the claim and nothing else |
| Store.Store.SetLocalProgress | internal/store/jobs.go:33-38 | writes the byte counts, in whatever state the row is |
| Store.Store.SetTorboxIDs | internal/store/jobs.go:279-297 | writes the ids given and nothing when none is |
| Store.Store.MarkPushoverSent | internal/store/jobs.go:394-408 | stamps a row once, and reports whether it did |
| Store.Store.Delete | internal/store/jobs.go:425-435 | removes the row, or reports that there is none |
| Store.Store.Reap | internal/store/jobs.go:437-445 | removes exactly the READY, FAILED and CANCELED rows completed before the cutoff, counts them and keeps the others as they are |
| Store.Store.Select | internal/store/jobs.go:83-102 | all rows that qualify, oldest first, cut off at the limit (1000 if none is given), and no other |
| Store.Store.ListByStates | internal/store/jobs.go:83-102 | the same for rows in some states, with copies of them; below the limit none is missing |
| Store.Store.ListDueByStates | internal/store/jobs.go:107-128 | the same for rows without a next attempt or with one not after now |
| PipelineTheorems.StateSafety | internal/job/state.go:27-42 | in every run of all actors, crashes included, each row's history is a legal path from NEW to its present state |
| PipelineTheorems.TerminalIsForever | internal/store/jobs.go:190-250 | in every run a row once READY, FAILED or CANCELED keeps that state while it exists, and its id never returns |
| PipelineTheorems.RetryBudget | internal/worker/puller.go:466-482 | in every run `attempts` never exceeds the larger of the two retry limits, although pulls and submissions work on stale copies |
| Causes.ReadyIsTrustworthy | internal/store/jobs.go:42-69 | in every reachable state a row has a local path exactly if it is READY; then its byte counts agree, its payload is gone, and path and size are those which a finished, unaborted download of a pull of this very job has returned |
| Causes.ReadyWasFetched | internal/worker/puller.go:292-306 | in every run a job becomes READY only by a pull of it whose own download returned before, and with exactly the directory and size it returned |
| Causes.EveryChangeHasItsCause | internal/worker/poller.go:107-181 | in every run each step commits one change at most, for its proper cause: SUBMITTED because TorBox took a payload, DOWNLOADING and COMPLETED_TORBOX because an entry in a visit says begun or done and not failed, READY because a pull has the files, CANCELED because a client asked, FAILED for a submission without payload or refused five times, an entry that says failed, a job stalled, overdue or missing, a pull out of attempts or of patience with archives |
| Causes.SubmissionIsSteps | internal/worker/submitter.go:53-108 | the pipeline's one or two steps of a submission do what the submitter's method does |
| PipelineTheorems.StaleLocalPathIsUnreachable | internal/worker/puller.go:163-171 | Tick never meets a listed row that already has a local path |
| PipelineTheorems.StallVerdictIsSound | internal/worker/poller.go:142-170 | a committed stall failure means: listed as DOWNLOADING, over 30 minutes in flight, no recorded byte change committed for over 30 minutes and, where TorBox gives a size, the same count read now |
| PipelineTheorems.OnlyPollerMovesInFlight | internal/worker/poller.go:107-181 | apart from the poller and the notifier's stamp, all anyone can do to a SUBMITTED or DOWNLOADING row is cancel or remove it |
| PipelineSafety.InvStays | internal/worker/puller.go:142-189 | every statement of every actor keeps the pipeline's invariant: a pull's copy lags its row by at most one attempt, no job is with submitter and puller at once, stall verdicts rest on committed progress |
| PipelineSafety.DbStays | internal/store/jobs.go:42-69 | every action of the pipeline keeps the change log chained and the stamps ordered |
| PipelineDeadline.BoundedTimeInFlight | internal/worker/poller.go:107-220 | in every run: if at any time some completed pass began at most `gap` ago, no job stays in flight beyond 24h + 2 * (15min + gap), or 24h + 3 * (15min + gap) if the notifier has stamped it, however its entry comes and goes in TorBox's list, whoever interleaves and whatever crashes; each crash inside a visit of this job when it is overdue already adds one 15min + gap |
| PipelineDeadline.BoundedTimeDownloading | internal/worker/poller.go:107-220 | one window of 15min + gap less for a job that was DOWNLOADING before its 24 hours were up, unless a visit begun when it was SUBMITTED was still at work on it |
| PipelineDeadline.CrashStaysOnTime | internal/worker/poller.go:26-91 | a crash keeps the measure, and costs one window if it cuts off a visit of this row, past its first step, after the row's 24 hours |
| PipelineDeadline.NotifyStaysOnTime | internal/store/jobs.go:394-406 | the notifier's only stamp of a row costs it one window at most, at any moment of any visit |
| CutVisits.OverdueCutsHaveNoBound | internal/worker/poller.go:107-140 | without counting those crashes there is no bound: for any gap and horizon some run meets the conditions and ends beyond the horizon with a job in flight since time 0 |
| PipelineDeadline.StepStaysOnTime | internal/worker/poller.go:26-91 | every action of every actor keeps the measure of how overdue a row can be, also in the middle of a visit whose copy has gone stale |
| PipelineDeadline.VisitStepsOn | internal/worker/poller.go:107-220 | the same for each statement of a visit, with its own reading of the clock |
| PipelineDeadline.ListingIsComplete | internal/worker/poller.go:27-28 | with at most 1000 rows in flight a pass lists them all |
| PollPass.PassVisitsEach | internal/worker/poller.go:55-89 | an undisturbed pass visits every listed row once and touches no other; a row it leaves in flight was neither lost nor, unless it was just moved to DOWNLOADING, overdue |
| VisitFate.EntryDecides | internal/worker/poller.go:107-181 | what a visit makes of any row in flight, in the entry's own words and in seconds: FAILED with TorBox's state as the reason exactly if that begins with failed, error, missing_files or expired in any case; else COMPLETED_TORBOX exactly if finished or beginning with completed, cached or uploading; else failed only if stalled for 1800 seconds or with TorBox for 86400, and not just begun; in every other case ids, folder, beginning and bytes are recorded, and no other row changes |
| VisitFate.MissingDecides | internal/worker/poller.go:204-220 | a row whose entry is missing is failed exactly after 300 seconds with TorBox and 900 without a change, and untouched otherwise |
| VisitFate.PassDecides | internal/worker/poller.go:55-89 | an undisturbed pass visits each listed job with the entry that belongs to it in the list for its source, torrents or usenet, whatever the other jobs of the pass find |
| VisitFate.ReleasedExactly | internal/worker/poller.go:142-180 | a visit deletes the job's own TorBox entry exactly if it fails the job as stalled or overdue and the job has an id |
| Poller.IndexByID | internal/worker/poller.go:93-105 | a key is indexed exactly if it is no zero and some entry carries it as id or queue id, and then with the last such entry |
| Poller.Match | internal/worker/poller.go:65-83 | the last entry with the active id if any has it; else the last with the queue id; else the first whose name is the file name without ".nzb"; none exactly if there is none of these |
| Matching.FindForPollIs | internal/worker/poller.go:65-83 | the same of the search the pass is specified by |
| Matching.FindForPullIs | internal/worker/puller.go:313-359 | the puller's search of the full list: the first entry with the active id, else the queue id, if it is no zero; else the first with the folder recorded; none exactly if there is neither |
| Matching.FindItemIs | internal/worker/puller.go:313-359 | TorBox's answer by id is taken exactly if it carries the id asked for, and the list searched otherwise |
| Poller.PollerAgreesWithPuller | internal/worker/puller.go:313-359 | with ids unique across entries, once an entry with an id has been applied, the puller's lookup on the re-read row, by id or in the list, finds that same entry |
| Poller.VisitKeepsActiveID | internal/worker/poller.go:107-122 | the active id a visit learned survives the rest of the visit |
| Poller.Poller.RecordRemoteProgress | internal/worker/poller.go:185-202 | writes progress only when the byte count changed, and keeps the copy in step |
| Poller.Poller.EnforceCeilings | internal/worker/poller.go:154-180 | stall window first, then the 24 hours; the TorBox slot is released while the table is still unchanged, and then the job is failed |
| Poller.Poller.ApplyMyListItem | internal/worker/poller.go:107-181 | the method does what the visit's steps do, whose outcome is `VisitFate.EntryDecides`, and releases the slots `VisitFate.ReleasedExactly` says |
| Poller.Poller.HandlePollMissing | internal/worker/poller.go:204-220 | the method does what a visit without an entry does, whose outcome is `VisitFate.MissingDecides` |
| Poller.Poller.ReleaseTorboxSlot | internal/worker/slots.go:26-43 | deletes the job's own TorBox entry, if it has an id |
| Poller.Poller.PollOnce | internal/worker/poller.go:26-91 | one pass over at most 1000 rows equals visiting each listed row in order, and releases slots for its stalled and overdue jobs only; without the usenet list nothing changes |
| Submitter.SubmitOne | internal/worker/submitter.go:53-108 | the one statement a submission ends with, and the release of the claim when its move to SUBMITTED lost the race; on a row still as claimed, its new columns as `SubmissionOutcome` has them |
| Submitter.HandleSubmitFailure | internal/worker/submitter.go:110-149 | back-pressure reschedules, the last attempt fails the job, any other failure is counted and backs off |
| Submitter.SubmissionOutcome | internal/worker/submitter.go:53-210 | a claimed job is SUBMITTED exactly if there are payload bytes, or a magnet for a torrent, and TorBox took it, with id, else torrent id, else usenet id as active id; FAILED exactly if there is nothing to send or the fifth attempt is refused for another reason than status 429 or ACTIVE_LIMIT; otherwise NEW with its exact next attempt, counted unless TorBox was busy; the claim is gone, and no other row changes |
| Submitter.BackoffIsHonoured | internal/worker/submitter.go:114-148 | a refused job is not claimable before its drawn delay is over, 300 seconds more if TorBox was busy, nor before TorBox's Retry-After |
| Submitter.LateSubmissionIsHarmless | internal/worker/submitter.go:102-106 | a submission that returns after its job was canceled or removed changes no state and fires no hook; if TorBox took it, only the claim is dropped |
| Client.CancelRead | internal/sab/queue.go:175-196 | on the copy the client read: an active job becomes CANCELED with reason and completion stamp, a finished one is dropped, and a lost race changes nothing and is reported |
| Client.Cancel | internal/sab/queue.go:175-196 | undisturbed, a cancel always succeeds and touches no other job |
| Client.HistoryDelete | internal/sab/queue.go:148-171 | afterwards the row is gone and all others are as before |
| PullerSafety.ExclusionAndCapacity | internal/worker/puller.go:142-189 | in every reachable state the executing pulls are exactly the in-flight entries, at most one per job and `limit` in all, also between a Tick's listing and its starts |
| PullerSafety.AbortHandshake | internal/worker/puller.go:194-243 | when Abort returns because the pull ended, that pull has no entry, never takes a step again, and the directory returned is the one it was writing |
| PullerSafety.AbortedPullWritesNothing | internal/worker/puller.go:245-308 | a pull flagged before a checkpoint never issues a statement after it |
| LatePulls.NeverPulledAgain | internal/worker/puller.go:194-216 | once a job has ended and no pull of it is in flight, none is ever started or at work again in any run, unless the Tick at work has it in its listing |
| LatePulls.PulledAgainExactly | internal/worker/puller.go:142-216 | a continuation with a new pull of it exists exactly if the Tick at work has it in its listing |
| LatePulls.AbortCanComeTooSoon | internal/worker/puller.go:142-216 | a run from the beginning: listed, canceled, aborted with no pull to wait for, and pulled after all |
| SharedDirs.OnlyOthersWrite | internal/worker/discard.go:16-17 | once a job has ended, with no pull in flight and not listed, every pull that ever downloads belongs to another job and writes to the directory of that job's own category and release |
| SharedDirs.DiscardedIsWrittenExactly | internal/worker/discard.go:16-17 | some continuation writes into the job's directory again exactly if another job with the same directory, or one above or below, is unfinished with something to send, listed, or being pulled and not past its checkpoints, as long as no such job is added |
| SharedDirs.WrittenExactly | internal/worker/puller.go:245-308 | the same for any directory and any run |
| SharedDirs.AnotherJobWrites | internal/worker/puller.go:451-464 | a run from the beginning for any base, category and release: two jobs with different contents; the first is downloaded, canceled, aborted and awaited, and then the second downloads into the directory Abort returned |
| JobDrives.UnfinishedCanBeListed | internal/worker/puller.go:142-161 | from any state every unfinished job with something to send can come to be the next one a Tick considers |
| JobDrives.ListedCanStart | internal/worker/puller.go:163-187 | every listed job that is not being pulled can be |
| PullerSafety.ArchiveWaitIsExact | internal/worker/puller.go:365-397 | a job fails as archives-only exactly if its unbroken run of archives-only sightings began at least the configured wait ago; otherwise it waits without spending an attempt |
| PullFate.FetchedBecomesReady | internal/worker/puller.go:292-306 | from any run: an unaborted pull of a COMPLETED_TORBOX job whose download returns a directory and a size makes the job READY with exactly these in its next two steps, and tells the hooks once; if the job is no longer COMPLETED_TORBOX nothing changes |
| PullFate.PullSucceeds | internal/worker/puller.go:245-308 | from its start an undisturbed pull does so in four steps, and a wait for extraction is forgotten |
| PullFate.FailureIsCounted | internal/worker/puller.go:245-303 | whatever fails in a pull (lookup, no files, links, download, each with its reason): one more attempt and 120 seconds' wait, or FAILED if the copy's attempts reach the limit |
| PullFate.ArchivesAreAwaited | internal/worker/puller.go:365-397 | a pull that finds archives only costs no attempt: next look in 60 seconds, or FAILED once the remembered wait is as long as configured, and then forgotten |
| PullFate.ConsiderDecides | internal/worker/puller.go:163-187 | the next row of Tick's listing: one with a local path is published with it; any other starts a pull exactly if it has none and the pool has room |
| PullerSafety.SoundStays | internal/worker/puller.go:142-308 | every critical section of puller and aborting clients keeps entries, pulls, waiters and directories consistent |
| PullerSafety.MemoryStays | internal/worker/puller.go:365-397 | every critical section keeps the remembered start of a wait equal to that of the present run of sightings |
| Puller.Puller.Consider | internal/worker/puller.go:163-187 | one row of Tick's loop: publish a path left by an earlier run, else start a pull if the job is idle and a slot free |
| PullerRefill.RefillThroughout | internal/worker/puller.go:142-189 | in every interleaving of Tick, pulls and aborts: from the listing until the Tick rests, while no pull finishes, the pool gains exactly the first (limit - busy) idle due jobs in creation order, of all there were, and every pull in it stays |
| PullerRefill.PipelineRefill | internal/worker/puller.go:142-189 | the same in every run of the whole pipeline, with the store's own listing, while clients cancel jobs and the poller completes more |
| Puller.Puller.Tick | internal/worker/puller.go:142-189 | a Tick nobody disturbs: the pool afterwards is what it was plus exactly the first (limit - busy) idle due jobs in creation order, of all there are |
| Puller.RefillIsFair | internal/worker/puller.go:142-188 | the loop over a listing of limit + busy rows starves no free slot |
| Puller.ListingFillsPool | internal/worker/puller.go:151-188 | the same for the set of busy jobs and any longer listing |
| Puller.BusiedIsFirstIdle | internal/worker/puller.go:163-187 | the loop starts exactly the first idle jobs that fit |
| Puller.FewAreBusy | internal/worker/puller.go:156 | at most as many listed jobs are busy as there are pulls |
| Puller.ListingExtends | internal/store/jobs.go:107-128 | every cut-off listing is the beginning of a complete one |
| Puller.Puller.Finish | internal/worker/puller.go:233-243 | first the entry goes, then `done` is closed |
| Puller.Puller.BeginAbort | internal/worker/puller.go:197-206 | flags the pull in flight for the job, if any, and remembers which to wait for |
| Puller.Puller.IsAborted | internal/worker/puller.go:218-223 | the flag as a checkpoint reads it: through the in-flight entry |
| Puller.Puller.RecordDir | internal/worker/puller.go:225-231 | the directory goes to the pull in flight for the job |
| Puller.Puller.ScheduleRetry | internal/worker/puller.go:466-482 | counts the attempt and backs off two minutes, or fails the job when the copy says the budget is spent |
| Puller.Puller.AwaitExtraction | internal/worker/puller.go:365-397 | two steps of the state machine: note the sighting, then wait on or fail |
| FileList.BuildFileList | internal/worker/puller.go:404-449 | archives without a video give up the list; otherwise every wanted file in order, each with its own id, link, size and name, and their total, or the first file without a link |
| FileList.WantedIsExact | internal/worker/puller.go:423-426 | the list holds exactly the files that are neither noise nor archives |
| FileList.WantedInOrder | internal/worker/puller.go:421-445 | wanted are the files that are neither noise nor archives, in their order and as often as they come, and the total is the sum of their sizes |
| FileList.NamesAreJudged | internal/worker/puller.go:484-527 | what counts as video, noise and archive, in any case of letters: the endings, a sample by folder or name, numbered parts |
| FileList.VideosAreKept | internal/worker/puller.go:411-426 | no video is ever left out, because no name counts as both video and archive |
| FileList.ReleaseFolderIsStripped | internal/worker/puller.go:529-542 | a file below the release folder loses exactly that folder |
| FileList.ReleaseFilesLand | internal/worker/puller.go:529-542 | a file below the release folder, or named from the root, lands below the job's directory exactly where it was, and is refused exactly if what is left of its name is absolute, climbs out or holds a null byte |
| FileList.OtherFilesLandFlat | internal/worker/puller.go:529-542 | any other file lands under its short name, or its last path element: directly in the job's directory unless the short name holds a slash; refused exactly if that name is absolute, climbs out or holds a null byte |
| Collisions.SeparateExactly | internal/downloader/downloader.go:134-152 | the files of a job have destinations and partial files of their own exactly if no two of their names come to the same elements, or one to the other's with ".partial" |
| Collisions.ShortNamesCollide | internal/worker/puller.go:529-542 | files outside the release folder collide if their short names agree |
| Collisions.CollisionLosesAFile | internal/downloader/downloader.go:87-132 | two files with one destination, fetched one after the other: Run succeeds, and one body is there, the second's unless the first has its announced size |
| Bencode.SkipIsExact | internal/qbit/bencode.go:96-145 | the walker stops at a position exactly if the bytes up to it are one value of its language; no value has two ends |
| Bencode.ValuesArePrefixFree | internal/qbit/bencode.go:96-145 | no value is a proper beginning of another |
| Bencode.EncodedValueIsSkipped | internal/qbit/bencode.go:96-145 | for every BEP 3 value and whatever surrounds its encoding, the walker stops exactly behind it |
| Bencode.InfoSpanIsExact | internal/qbit/bencode.go:44-67 | the span is exactly the bytes of the first "info" value, with the string under its first "name", whatever follows |
| Bencode.MetainfoIsRead | internal/qbit/bencode.go:44-67 | for every metainfo dictionary: that span, or the report that there is none |
| Bencode.InfoSpanWasThere | internal/qbit/bencode.go:44-67 | a reported span is always preceded by well-formed entries none of which is "info", and filled by one value |
| Bencode.NameIsRetrieved | internal/qbit/bencode.go:149-171 | the string under the first such key of an encoded dictionary, empty if there is none, and an error for any other value there and for anything but a dictionary |
| Bencode.DecimalRoundTrip | internal/qbit/bencode.go:84 | a length written in decimal is read back |
| Decoder.BDecoder.ReadString | internal/qbit/bencode.go:69-94 | reads a length, a colon and that many bytes, or fails without moving |
| Decoder.LengthTestIsExact | internal/qbit/bencode.go:84-90 | in 64-bit arithmetic a length is refused exactly if its text would end behind the buffer, except for lengths whose end lies beyond 2^63 - 1, which pass the test |
| Decoder.BDecoder.SkipValue | internal/qbit/bencode.go:96-145 | the cursor ends where the specification says the value ends; the recursion terminates because the rest shrinks |
| Decoder.BDecoder.FindInfoSpan | internal/qbit/bencode.go:44-67 | the loop finds what the specification finds, with the same errors |
| Decoder.ReadDictString | internal/qbit/bencode.go:149-171 | the name lookup on a span of its own, with an error told from a missing key |
| Confinement.SafeJoinIsExact | internal/downloader/downloader.go:236-269 | succeeds exactly for names that are not absolute, hold no null byte and do not climb out once cleaned; the result is the base extended by the cleaned name |
| Confinement.PartialIsConfined | internal/downloader/downloader.go:152 | with a non-empty cleaned name the partial file lies under the base too, beside its destination |
| Confinement.PartialIsConfinedExactly | internal/downloader/downloader.go:135-152 | for every name accepted: the partial file lies under the base exactly if an element is left of the name, or the base has no last name of its own; for no name at all, if the base's text does not end in one |
| Confinement.JobDirIsExact | internal/worker/discard.go:62-71 | true exactly for absolute directories at least two elements below an absolute base |
| Confinement.TargetIsJobDir | internal/worker/puller.go:451-464 | for every category and release: the directory is accepted exactly if the category is not absolute and the two do not climb out or hold a null byte; it is the two joined below the base, relative or not, and one Discard may delete exactly if the base is absolute and they come to two elements or more |
| Confinement.JobDirIsBelowCategory | internal/worker/discard.go:60-71 | the directory lies strictly below the category's folder exactly if the release, made safe, is not "." or ".." |
| Confinement.MeetsBySubdir | internal/worker/puller.go:451-464 | the directories of two jobs lie one in the other exactly if the elements of their categories and releases do |
| Confinement.CanLandExactly | internal/downloader/downloader.go:134-152 | a download can put a file into a directory exactly if one of its target and that directory lies in the other |
| Confinement.SanitizedIsName | internal/worker/puller.go:547-554 | every release name becomes one path element |
| Confinement.SanitizedExactly | internal/worker/puller.go:547-554 | the element is the release without the spaces around it and with "_" for each slash, or "untitled" if nothing is left |
| Paths.PartsOfJoin | internal/downloader/downloader.go:252 | joining appends the second path's elements and reduces what is left of ".." |
| Paths.CleanKeepsParts | internal/downloader/downloader.go:246 | cleaning is idempotent |
| Paths.CleanByRules | internal/downloader/downloader.go:246 | cleaning drops doubled slashes, ".", a name before "..", and ".." at the root |
| Paths.CleanIsClean | internal/downloader/downloader.go:246 | ... and leaves ordinary names between single slashes alone |
| Paths.RelToPrefix | internal/downloader/downloader.go:261-266 | the relative path is the remainder exactly if the base is a prefix, and starts with ".." otherwise |
| Discard.Discard | internal/worker/discard.go:23-58 | frees the slot only of a SUBMITTED or DOWNLOADING job with an active or queue id; every file not spared is gone exactly if it lies below the aborted directory or the row's local path, where that is a job directory; all others stay as they are; exactly the directories that are none are refused |
| Discard.DiscardAndOthers | internal/worker/discard.go:41-57 | the files of another job are all spared if no directory removed lies in that job's or the other way round, and all taken if one is that job's or above it |
| Discard.RemoveDirs | internal/worker/discard.go:41-57 | the loop with its set of directories already seen removes what one look at each would |
| Downloader.CopyWithProgress | internal/downloader/downloader.go:204-232 | the file gains exactly what the disk took before the copy ended, and the end is reported as it was |
| Downloader.CopyIsWhole | internal/downloader/downloader.go:204-232 | the copy succeeds exactly if the body came to its end undisturbed, and then nothing of it is missing |
| Downloader.BodyIsAll | internal/downloader/downloader.go:204-232 | a body has arrived exactly if some round was its end, and it is the data of all rounds up to there, in order |
| Downloader.DownloadFile | internal/downloader/downloader.go:134-202 | skipped exactly if a file of the announced size is there; fetched exactly if the status is below 400, the whole body arrives undisturbed in its announced size and the system refuses nothing, and then the destination holds this body; on error it is unchanged; at no instant is it anything else |
| Downloader.FetchAndPublish | internal/downloader/downloader.go:143-202 | the same once the destination is known |
| Downloader.FetchPartial | internal/downloader/downloader.go:156-193 | everything up to the rename touches only the partial file, which is gone after an error unless its removal is refused; the exact disk it leaves |
| Paths.SuffixedIsOther | internal/downloader/downloader.go:152 | no path names the same file as the path with a suffix, so a partial file is never its own destination |
| FanOut.AtomicAtEveryInstant | internal/downloader/downloader.go:87-132 | in every interleaving, at every instant: at most `limit` files at work, each destination old or the whole response of its server with the announced size, all other files untouched |
| FanOut.RunIsAllOrError | internal/downloader/downloader.go:87-132 | when Run returns all goroutines have ended; it succeeds exactly if every file did, and then each destination holds its whole response, or held a file of the announced size and was left alone; failed files left their destinations alone, and nothing new behind unless a removal was refused |
| FanOut.FilesStay | internal/downloader/downloader.go:134-202 | every step of every goroutine keeps each file's stage and the disk in agreement |
| FanOut.DownloadIsSteps | internal/downloader/downloader.go:134-202 | whatever downloadFile does alone, the interleaved machine does in the steps of that outcome, for every kind of failure and refused removals too, with the same disk at the end, finishing exactly if downloadFile does |
| InfoHash.HashNormalForm | internal/qbit/handlers.go:304-319 | both spellings of a 20-byte hash, in any mixture of cases, become its lowercase hex |
| InfoHash.AcceptsExactlyTheSpellings | internal/qbit/handlers.go:304-319 | accepted are exactly the 40-digit hex and 32-character base32 spellings of 20-byte hashes |
| InfoHash.NormalFormIsStable | internal/qbit/handlers.go:304-319 | a result is 40 lowercase hex digits and its own normal form |
| InfoHash.NormalFormIsFaithful | internal/qbit/handlers.go:304-319 | different hashes never share a normal form |
| InfoHash.Base32Encoded | internal/qbit/handlers.go:313 | RFC 4648 base32 is read back as written |
| EventQueue.QueueIsSound | internal/events/emitter.go:69-99 | in every interleaving of producers and consumer, removed events followed by waiting ones are the sent ones in order, at most 256 waiting |
| EventQueue.SerialProducersLoseNothing | internal/events/emitter.go:84-99 | with any number of producers every event handed over is sent, whatever the consumer does, if no Enqueue begins while another is under way; only older events are evicted |
| EventQueue.SingleProducerIsSerial | internal/events/emitter.go:84-99 | one producer alone never overlaps with itself |
| EventQueue.UndisturbedEnqueueIsSent | internal/events/emitter.go:84-99 | in any run, the event is sent if nobody else sends between the eviction and the second attempt |
| EventQueue.OneOverlapLoses | internal/events/emitter.go:84-99 | from every full channel a run can reach, one Enqueue begun during another can take the place the other has just made, and the other's event is never sent |
| EventQueue.OverlapCanLose | internal/events/emitter.go:84-99 | such a run from the very beginning, serial but for that one overlap |
| EventQueue.Emitter.Enqueue | internal/events/emitter.go:84-99 | undisturbed, the event is queued last, at the cost of the oldest if the queue is full |

## Left out

- HTTP routing, SAB and qBit documents, status page, configuration, logging, CLI: plumbing around the modelled operations.
- The TorBox client, its rate limiter and JSON: TorBox answers with arbitrary lists, ids, links and errors.
- SQL text, migrations and text timestamps: an abstract table, and one integer clock in seconds that never runs back; a `completed_at` or `next_attempt_at` computed in Go and one stamped by SQLite read the same clock.
- Store errors: statements always execute; a failing database is not modelled.
- The columns `size_bytes` and `priority`, which nothing modelled here reads.
- The exact texts of `last_error`, which are abbreviated, and the `qbit` client's pause, which is a cancel with another text and no deletion of finished rows.
- Add-time deduplication (internal/sab/addfile.go:117-135, internal/qbit/handlers.go:321-355): a check before an insert, with no guarantee unless adds are serialised.
- Floating point: the byte count `Progress * Size` and whether `Progress` is positive are inputs.
- Random jitter of `Backoff`: an input, assumed not negative only where a lower bound is claimed.
- Unicode: case folding and trimming work on ASCII; names are sequences of characters.
- Multipart building, webhook signatures, Pushover delivery, event delivery with its retries, qBit sessions.
- `Puller.Wait` and process shutdown; a crash in the pipeline model forgets everything but the table.
- A puller without a base directory, which records no directory for aborts.
- qBit's `tryRemoveLocal`: a direct deletion with no algorithm in it.
- SHA-1 over the info span: a library function applied to the span whose exactness is proved.
- Symbolic links and the difference between files and directories: paths are lexical and the disk maps paths to contents.
- PipelineDeadline.BoundedTimeInFlight: assumes that passes keep completing and that at most 1000 rows are in flight when one begins, because a pass lists no more.
- Poller.Poller.PollOnce: reads one clock for the whole pass and runs undisturbed; the interleaved visit with a moving clock is the one in `Pipeline`.
- Puller.Puller.Tick: the method runs undisturbed; the refill while pulls, aborts, clients and the poller go on is in `PullerRefill`.
- Puller.RefillIsFair: speaks of one table and one pool, as `Puller.Puller.Tick` sees them; `PullerRefill.RefillThroughout` does not.
- Decoder.BDecoder.ReadString: lengths are unbounded integers; `Decoder.LengthTestIsExact` says for which lengths 64-bit arithmetic makes a difference.
- Client.HistoryDelete: nobody acts between its read, its cancel and its delete; in the pipeline a client's cancel and delete are separate actions.
- SharedDirs.DiscardedIsWrittenExactly: a job's release name is taken not to change between two looks at its TorBox entry, and a directory the downloader refuses counts as written to.
- InfoHash.AcceptsExactlyTheSpellings: the base32 decoder is modelled without padding and line breaks; with 32 characters neither can leave 20 bytes.
- FanOut.AtomicAtEveryInstant: the files have names of their own (`Collisions.SeparateExactly` says when); several goroutines writing one partial file at once, each through its own handle, are not modelled.
- FanOut.FilesStay: the same.
- FanOut.RunIsAllOrError: the same; `Collisions.CollisionLosesAFile` has the files of one name fetched one after the other. A reader that fails because its context was cancelled shows as the loop stopping before the next chunk, with the same effect on the disk.
- Discard.Discard: takes the directory Abort returned as an input; its guarantee is `PullerSafety.AbortHandshake`.
