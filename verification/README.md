# Verified models of the macSFTP core

macSFTP is a desktop SFTP client. This project models the parts of it that keep
state under events nobody can order, and the fast forms of simple algorithms:

* **The transfer store** (`crates/core/src/core.rs`): plans, jobs and pending
  conflicts under runtime events that may be replayed, late or interleaved. The
  store searches, appends, slices and exits early. `NaiveTransfers` is the same
  reducer on maps and sets, with scans only. `TransferStores.TransferStore` is
  the in-place store, proved to act as the naive one over every well-formed run.
  What the reducer promises is proved about the naive one (`TransferTheorems`).
* **The remote-edit lifecycle** (`crates/core/src/remote_edit.rs`, the session
  store in `core.rs`, the executor in `crates/app/src/edit_effects.rs`): five
  phases, check ids, epochs, rollbacks and cleanup. `EditSpec` says what each
  intent does; `EditWorld` plays whole runs in which any intent may arrive at any
  time and any dispatch may fail; the `Edit*` modules prove safety of those runs.
  `EditLifecycles` holds the mutable object and the executor.
* **The edit-watcher debouncer** (`crates/platform/src/platform.rs`): callback,
  worker and `Drop` as atomic steps over a lock, a condition variable and a
  generation counter.
* **The pipelined uploader** (`crates/sftp/src/pipelined_writer.rs`): a window of
  SSH_FXP_WRITE requests (sections 6.1 and 6.4 of draft-ietf-secsh-filexfer-02)
  completing in any order.
* **Glob matcher, entry order, tab guard** (`crates/core/src/core.rs`).

`dafny verify dfyconfig.toml` checks everything.

## Reading guide

| file | content |
|---|---|
| `Common`, `IdMatcher`, `Transfers` | shared values; binary search and the four-way matcher; plans, jobs, events |
| `NaiveTransfers`, `TransferTheorems` | the naive reducer, its invariant, what it promises over events and runs |
| `TransferMeanings` | what every event does to plans, jobs and conflicts, field by field |
| `TransferVectors`, `TransferStore` | how vectors read as maps; the fast store as a class |
| `EditTypes`, `EditSpec`, `EditInvariant`, `EditWorld` | sessions, intents, invariant, runs with failing dispatches |
| `EditMeanings` | what every intent does to sessions and asks for, field by field |
| `EditChannel` | what enters the runtime channel, delivery by delivery |
| `EditUploads`, `EditUnique`, `EditLedger`, `EditDelivery` | who may upload; one session per file; temp-path accounting; delivery and rollback |
| `EditLifecycle` | the lifecycle object, the effect executor, and runs of the two together |
| `TabGuard`, `TabStore` | why stale events stay stale; tabs, their store and the modals as objects |
| `PipelinedUpload`, `Debounce`, `Glob`, `EntryOrder` | the other components |

## Where the code does not do what one would expect

The first three promises fail in some runs. Each of them has its exact condition
and a witness run.

* *A plan is reported finished at most once* holds for plans with children
  (`NamedAtMostOnce`). A job event that named a plan names it again, when it is
  delivered again, exactly if the plan has no children
  (`ReplayNamesChildlessPlans`); `ChildlessPlanNamedTwice` is a well-formed run
  from the empty store in which that happens.
* *No temp path is forgotten* fails when `begin` reaps the dead tab of a
  re-pointed link and then answers `Handled`: the collected cleanup is dropped.
  `LosesExactlyWhenDropped` shows that nothing else loses a path; in the run of
  `DropHappens` from the empty lifecycle a path is lost for good.
* *One session per file* needs `begin` and `start_download` in one step. While two
  windows wait for their large-file question, both are told to start:
  `LateStartsClash`. `StartUniqueIff` gives the exact condition of a late start.
* `revert_check` is documented for `CheckingRemote` sessions but has no phase
  guard. The invariants are proved with it callable in any phase.
* An upload check whose command was not delivered leaves the session as it was, except
  for the epoch, which stays the new one (`FailedCheckReverts`).

## Assumptions

* A well-formed run (`NaiveTransfers.WellFormed`) is what the planner guarantees:
  a plan starts without children under an unused root id; a progress batch is
  strictly ascending, each id being a known child or a fresh one above the last
  child. The store's methods have no such precondition: outside it they still
  promise that plans only rise.
* Unicode lower-casing is a parameter. The glob matcher needs that only `/` lowers
  to what `/` lowers to; the entry order needs that ASCII lowers by the ASCII rule.
* A read returns between one byte and the space left in the chunk, or nothing at
  the end of the source; a success status means the whole write was applied.
* What the upload's environment answers (cancellation, reads, write statuses, crashed
  tasks, a closed progress channel) is arbitrary, and its adverse answers are recorded.
* Tab ids are never reused (`TabGuard.FreshIds`).

## Model

| member | source | states |
|---|---|---|
| `IdMatching.BinarySearch` | crates/core/src/core.rs:998-1000 | on any list a hit is a real hit; on an ordered one a miss gives the insertion point and proves absence |
| `IdMatching.ConsecutiveMeans` | crates/core/src/core.rs:920-923 | the adjacent-pair test from any position means the ids are consecutive; that its `+ 1` on 64-bit ids cannot overflow is checked with the definition |
| `IdMatching.MatcherIsMembership` | crates/core/src/core.rs:912-941 | for every list, ordered or not, with or without repeats, the four-way matcher is membership |
| `IdMatching.HasChild` | crates/core/src/core.rs:959-974 | range test, binary search and fallback scan together are membership |
| `TransferTheorems.ApplyKeepsValid` | crates/core/src/core.rs:1033-1235 | a well-formed event keeps: every root and child has a job, no id belongs to two plans, conflict ids distinct |
| `TransferTheorems.RunKeepsValid` | crates/core/src/core.rs:1033-1235 | the same over every well-formed run |
| `TransferTheorems.ApplyRaisesPlans` | crates/core/src/core.rs:1033-1235 | any event in any state moves a plan only up Planning, Queued, Completed, Cancelled, Failed; terminal plans keep children, count and bytes |
| `TransferTheorems.RunRaisesPlans` | crates/core/src/core.rs:1033-1573 | the same between any two points of any run |
| `TransferTheorems.LastChildEndsPlan` | crates/core/src/core.rs:1480-1573 | a job event on a child of an unfinished plan ends the plan iff every published child has ended, as Failed iff one failed; the root follows; the plan is named iff it ended here |
| `TransferTheorems.SettleOwned` | crates/core/src/core.rs:1481-1509 | whichever plan a scan meets first, it is the one owner of the job, so settling is determined |
| `TransferTheorems.SettleChildlessRoot` | crates/core/src/core.rs:1486-1499 | the root of a childless plan changes the report and nothing else |
| `TransferTheorems.NamedAtMostOnce` | crates/core/src/core.rs:980-990 | over any run, job events name a plan that has children at most once |
| `TransferTheorems.ReplayNamesChildlessPlans` | crates/core/src/core.rs:1486-1499 | a job event that named a plan names it again on replay iff the plan has no children |
| `TransferTheorems.ChildlessPlanNamedTwice` | crates/core/src/core.rs:1486-1499 | from the empty store, a childless plan started and its root completed twice is a well-formed run whose two completions both name the plan |
| `TransferTheorems.ReplayChangesNothing` | crates/core/src/core.rs:1028-1033 | the reducer is idempotent: the same event at the same clock changes no plan, job or conflict the second time |
| `TransferTheorems.ReplayStaysWellFormed` | crates/core/src/core.rs:1028-1033 | an event that was well-formed may be delivered again |
| `TransferTheorems.CancelSkipsUnfinished` | crates/core/src/core.rs:1387-1464 | cancelling skips exactly the unfinished jobs of that plan, touches no other job or plan, and the plan becomes Cancelled iff there was one |
| `TransferTheorems.UpsertMeans` | crates/core/src/core.rs:1297-1313 | upserting a conflict replaces the one with its id or adds it, keeps ids distinct, and is idempotent |
| `TransferMeanings.ProgressMeans` | crates/core/src/core.rs:1179-1208 | progress leaves a job alone that is absent, completed, skipped, failed or being cancelled; any other runs with these bytes, from its old start or now; nothing else moves |
| `TransferMeanings.WarningMeans` | crates/core/src/core.rs:1209-1220 | a warning is added to its job at the end if the job exists and does not have it; nothing else moves |
| `TransferMeanings.ConflictMeans` | crates/core/src/core.rs:1160-1178 | the job waits for the request, which takes the place of the one with its id or joins at the end |
| `TransferMeanings.StartMeans` | crates/core/src/core.rs:1036-1038 | a new plan and a new root job are stored as they come; known ones stay |
| `TransferMeanings.ExtendMeans` | crates/core/src/core.rs:1039-1109 | a terminal plan takes nothing; any other takes the batch as children and a larger count with its size; unknown jobs are stored as they come |
| `TransferMeanings.EndPlanningMeans` | crates/core/src/core.rs:1110-1147 | without children plan and root are completed, with children both are queued; a terminal plan stays; nothing else moves |
| `TransferMeanings.CancelMeans` | crates/core/src/core.rs:1397-1449 | exactly the open jobs of the plan are skipped and it is cancelled and reported; with none, or a plan cancelled or failed, nothing moves |
| `TransferMeanings.FailMeans` | crates/core/src/core.rs:1347-1386 | plan, root and every child take the error, whatever they were, and the plan is reported iff something moved |
| `TransferMeanings.FinishMeans` | crates/core/src/core.rs:1466-1573 | the job takes its end state and loses exactly its conflicts; a plan it ends takes its children's outcome with its root, with the stated error; nothing else moves |
| `TransferMeanings.ApplyMeans` | crates/core/src/core.rs:1033-1235 | every event does exactly this to every field |
| `TransferVectors.FindJobIndex` | crates/core/src/core.rs:997-1002 | finds a job with the id iff there is one, on ordered and unordered vectors |
| `TransferVectors.SliceRange` | crates/core/src/core.rs:1328-1345 | a range lies inside the vector and is as long as the child list |
| `TransferVectors.SliceIsChildren` | crates/core/src/core.rs:1328-1345 | on ascending jobs and children, every child having a job, the slice holds exactly the children's jobs |
| `TransferVectors.InsertAt` | crates/core/src/core.rs:1269-1277 | inserting where the search missed keeps the order and adds that one job to the map |
| `TransferVectors.ReplaceAt` | crates/core/src/core.rs:1279-1290 | replacing a job in place keeps the order and updates that one id of the map |
| `TransferVectors.AppendBatch` | crates/core/src/core.rs:1089-1102 | the append shortcut for a batch above the last job equals adding each absent job |
| `TransferVectors.GrownByAppend` | crates/core/src/core.rs:1062-1073 | the append shortcut for children keeps them ascending, adds exactly the batch ids, and is a change |
| `TransferVectors.GrownBySearch` | crates/core/src/core.rs:1074-1087 | the matcher path gives the same: ascending, old and new ids, changed iff some id was new |
| `TransferVectors.GrownPlan` | crates/core/src/core.rs:1057-1088 | a plan grown in the vector is the naive plan grown, with the change flag iff it differs, and it only rises |
| `TransferVectors.PaintedMap` | crates/core/src/core.rs:1362-1380 | repainting some jobs in the vector is repainting those ids of the map, and one changes iff the other does |
| `TransferVectors.EndPlanningRefines` | crates/core/src/core.rs:1110-1147 | the in-place end of planning is the naive one, with the right change flag |
| `TransferVectors.FailPlanRefines` | crates/core/src/core.rs:1347-1386 | failing a plan by root, slice or scan is the naive failure of root and children |
| `TransferVectors.CancelPlanRefines` | crates/core/src/core.rs:1397-1449 | cancelling by root, slice or scan is the naive cancel |
| `TransferVectors.ExtendRefines` | crates/core/src/core.rs:1039-1109 | growing plan and jobs by either path is the naive growth |
| `TransferVectors.FinalizeRefines` | crates/core/src/core.rs:1499-1573 | the early-exit survey and closing step are the naive settling |
| `TransferVectors.ClosePlanRefines` | crates/core/src/core.rs:1547-1573 | writing plan and root states in place is the naive closing |
| `TransferVectors.SameConflictsKept` | crates/core/src/core.rs:1466-1478 | dropping a job's conflicts one request id at a time drops exactly that job's conflicts |
| `TransferStores.TransferStore.constructor` | crates/core/src/core.rs:976-990 | an empty store is good and reads as the empty naive state |
| `TransferStores.TransferStore.InsertJob` | crates/core/src/core.rs:1269-1277 | adds the job to the map iff its id is absent; order kept |
| `TransferStores.TransferStore.UpsertJob` | crates/core/src/core.rs:1279-1295 | sets the id in the map; true iff the map changed |
| `TransferStores.TransferStore.PaintJob` | crates/core/src/core.rs:1315-1326 | repaints exactly that job; true iff the vector changed |
| `TransferStores.TransferStore.PaintPlanJobs` | crates/core/src/core.rs:1361-1380 | all three branches repaint exactly root and children |
| `TransferStores.TransferStore.PaintSlice` | crates/core/src/core.rs:1364-1371 | the loop repaints exactly the range |
| `TransferStores.TransferStore.PaintScan` | crates/core/src/core.rs:1372-1380 | the loop repaints exactly root and children |
| `TransferStores.TransferStore.InsertPlan` | crates/core/src/core.rs:1260-1267 | appends the plan iff its id is new |
| `TransferStores.TransferStore.StartPlan` | crates/core/src/core.rs:1036-1038 | refines the naive start of a plan |
| `TransferStores.TransferStore.GrowPlanAt` | crates/core/src/core.rs:1057-1088 | count, size and children together give the naive plan and the right change flag; the plan only rises |
| `TransferStores.TransferStore.GrowChildren` | crates/core/src/core.rs:1062-1088 | append and matcher branch give one result: ascending, the old and the new ids, flag iff an id is new |
| `TransferStores.TransferStore.AddJobs` | crates/core/src/core.rs:1089-1107 | both insertion paths give the naive job map and the right change flag |
| `TransferStores.TransferStore.ExtendPlan` | crates/core/src/core.rs:1039-1109 | refines the naive growth; a terminal plan is left alone |
| `TransferStores.TransferStore.EndPlanning` | crates/core/src/core.rs:1110-1147 | refines the naive end of planning |
| `TransferStores.TransferStore.FailPlan` | crates/core/src/core.rs:1347-1386 | refines the naive failure |
| `TransferStores.TransferStore.CancelPlan` | crates/core/src/core.rs:1397-1449 | refines the naive cancel |
| `TransferStores.TransferStore.SurveySlice` | crates/core/src/core.rs:1514-1524 | the backward early-exit loop finds an open job iff there is one, else whether one failed and how many there are |
| `TransferStores.TransferStore.SurveyScan` | crates/core/src/core.rs:1525-1540 | the same over all jobs filtered by the matcher, counting every child once |
| `TransferStores.TransferStore.SurveyChildren` | crates/core/src/core.rs:1510-1540 | slice and scan agree on the children's jobs |
| `TransferStores.TransferStore.ClosePlanAt` | crates/core/src/core.rs:1547-1573 | plan, root and report take the outcome; nothing else moves |
| `TransferStores.TransferStore.FinalizePlanForJob` | crates/core/src/core.rs:1480-1573 | refines the naive settling, early exits included |
| `TransferStores.TransferStore.RemoveConflictsOf` | crates/core/src/core.rs:1466-1477 | drops exactly that job's conflicts; true iff one was dropped |
| `TransferStores.TransferStore.SetTransferTerminal` | crates/core/src/core.rs:1466-1478 | refines the naive end of a job |
| `TransferStores.TransferStore.TakeSnapshot` | crates/core/src/core.rs:1159-1159 | a running job's snapshot refines setting that job in the naive map |
| `TransferStores.TransferStore.UpsertConflict` | crates/core/src/core.rs:1297-1313 | equals the naive upsert; true iff the list changed |
| `TransferStores.TransferStore.RaiseConflict` | crates/core/src/core.rs:1160-1178 | refines the naive conflict event |
| `TransferStores.TransferStore.ReportProgress` | crates/core/src/core.rs:1179-1208 | on any vector: a finished or cancelling job is left alone and the answer is false, any other runs from its old start or now; refines naive progress |
| `TransferStores.TransferStore.AddWarning` | crates/core/src/core.rs:1209-1220 | refines the naive warning; a known warning is not repeated |
| `TransferStores.TransferStore.ApplyPlanEvent` | crates/core/src/core.rs:1036-1158 | the five plan events refine the naive reducer, and plans only rise in any state |
| `TransferStores.TransferStore.ApplyJobEvent` | crates/core/src/core.rs:1159-1220 | the other four events refine it and move jobs and conflicts only |
| `TransferStores.TransferStore.FinishTransfer` | crates/core/src/core.rs:1221-1234 | the three finishing events refine it, and plans only rise in any state |
| `TransferStores.TransferStore.ApplyEvent` | crates/core/src/core.rs:1033-1235 | from any store plans only rise; from a good store a well-formed event acts as the naive reducer, does to every field what `TransferMeanings.Means` says, leaves a good store, and returns true iff plans, jobs or conflicts changed |
| `TransferStores.TransferStore.ApplyAll` | crates/core/src/core.rs:1033-1235 | a whole well-formed run ends where the naive run ends |
| `TransferStores.TransferStore.ApplyTwice` | crates/core/src/core.rs:1028-1033 | the same event applied again at the same clock returns false, and the store reads as after the first |
| `EditTypes.TempPathsDiffer` | crates/core/src/remote_edit.rs:286-295 | equal temp paths belong to equal session ids, whatever the file names |
| `EditTypes.DecimalReads` | crates/core/src/remote_edit.rs:289-295 | the session component of a temp path is the session id in decimal |
| `EditMeanings.SafeNameMeans` | crates/core/src/remote_edit.rs:884-889 | a file name that goes to disk is the last real component of the path, without control or direction characters, and one with such a character is refused |
| `EditMeanings.PlainNameFound` | crates/core/src/remote_edit.rs:884-889 | a plain name after a slash is found |
| `EditInvariant.StepKeepsInv` | crates/core/src/remote_edit.rs:213-771 | every intent keeps: check id and captured mtime present exactly in CheckingRemote, ids fresh and unshared, temp path the session's own |
| `EditWorld.RunKeepsInv` | crates/core/src/core.rs:3029-3043 | the same in every reachable state, under every pattern of failed dispatches |
| `EditInvariant.ListingsKeepBaselines` | crates/core/src/remote_edit.rs:718-749 | any number of listings changes only baselines, and none at whole-second granularity |
| `EditUploads.UploadsAreAuthorized` | crates/core/src/remote_edit.rs:395-607 | every upload asked for sends the session's temp file to its write-through path in its tab, epoch and profile, overwriting, and comes from the live check (tab, epoch, path, check id, local mtime, equal snapshot) or from Overwrite on a conflict |
| `EditUploads.LiveCheckUploads` | crates/core/src/remote_edit.rs:424-446 | and the live check that finds the remote unchanged asks for exactly one such upload |
| `EditChannel.ExecuteSends` | crates/app/src/edit_effects.rs:43-74 | executing sends exactly the commands the channel admits, each once, in order; rollbacks send nothing |
| `EditChannel.StepDispatchesOnce` | crates/core/src/remote_edit.rs:213-771 | no intent asks for more than one command |
| `EditChannel.PlaySends` | crates/app/src/edit_effects.rs:43-74 | so a turn adds at most one delivery, and it is one its effects asked for |
| `EditChannel.EveryDeliverySent` | crates/app/src/edit_effects.rs:43-74 | over every run each position of the delivery history is what exactly one turn sent |
| `EditUploads.TurnUploadsJustified` | crates/core/src/remote_edit.rs:395-607 | the upload a turn sends is one its own intent entitles the session to |
| `EditUploads.RunUploadsJustified` | crates/core/src/remote_edit.rs:352-607 | over every run, each upload in the channel, equal ones counted apart, was sent by a turn of its own whose intent was the live check of that session or its overwrite |
| `EditUploads.OneUploadPerCheck` | crates/core/src/core.rs:3035-3043 | over every run with any duplicated, late or reordered results, a check id makes the lifecycle ask for at most one upload |
| `EditUploads.OneDeliveryPerCheck` | crates/core/src/core.rs:3035-3043 | and at most one upload that it brought about is ever delivered |
| `EditUnique.BeginClears` | crates/core/src/remote_edit.rs:213-283 | when `begin` allows a download, no session left shares its write-through or opened path on that connection |
| `EditUnique.RunUnique` | crates/core/src/core.rs:3086-3116 | with `begin` and download in one step, no reachable state has two sessions for one file, for every liveness predicate and with DiscardLocal |
| `EditUnique.StartUniqueIff` | crates/core/src/remote_edit.rs:286-335 | a download started on its own keeps that iff the name is refused or no session holds the file |
| `EditUnique.LateStartsClash` | crates/app/src/workspace/remote_edit.rs:273-353 | two windows ask for one file before either confirms: both are told to start, both downloads enter the channel, and the two sessions clash |
| `EditLedger.RunBalances` | crates/core/src/remote_edit.rs:213-771 | over every run temp paths are distinct and each is live, handed out for deletion exactly once, or lost |
| `EditLedger.FreshBalances` | crates/core/src/remote_edit.rs:201-207 | a new lifecycle starts balanced |
| `EditLedger.LosesExactlyWhenDropped` | crates/core/src/remote_edit.rs:213-283 | a turn loses a path iff it is a `begin` that reaps a dead tab for a re-pointed link and then finds the new target held by a live tab |
| `EditLedger.DropHappens` | crates/core/src/remote_edit.rs:219-283 | in a run from the empty lifecycle (link opened, file opened, link's tab gone, link re-pointed at the file and opened) the link's temp path is lost: issued, not live, never handed out |
| `EditMeanings.BeginMeans` | crates/core/src/remote_edit.rs:213-283 | of the sessions' own fields and the effects: a live holder of the file reopens its copy or says why not, a dead one is reaped with its tab; a live link that writes elsewhere blocks; otherwise the edit starts; nothing else changes |
| `EditMeanings.StartMeans` | crates/core/src/remote_edit.rs:286-335 | of the sessions' own fields and the effects: an unsafe name is refused; otherwise a new session with these fields and its fetching command; nothing else changes |
| `EditMeanings.AbortMeans` | crates/core/src/remote_edit.rs:338-348 | of the sessions' own fields and the effects: a downloading session goes with its temp directory; any other stays; nothing else changes |
| `EditMeanings.RequestMeans` | crates/core/src/remote_edit.rs:352-380 | of the sessions' own fields and the effects: an editing session of this connection goes to check with epoch, mtime and a new check id, used up even by a refusal; each refusal has its reason; nothing else changes |
| `EditMeanings.RevertMeans` | crates/core/src/remote_edit.rs:383-389 | of the sessions' own fields and the effects: the session is editing and waits for no check, whatever it did; nothing else changes |
| `EditMeanings.CheckMeans` | crates/core/src/remote_edit.rs:395-463 | of the sessions' own fields and the effects: an answer nobody waits for is dropped; the others send the session back to editing, to upload, or into conflict, with the matching effect; nothing else changes |
| `EditMeanings.FinishedMeans` | crates/core/src/remote_edit.rs:468-573 | of the sessions' own fields and the effects: a finished download leaves its session editing on its baseline, or gone with its temp directory; an upload leaves it editing, and on success unmodified on the new baseline; any other report changes nothing; nothing else changes |
| `EditMeanings.ResolveMeans` | crates/core/src/remote_edit.rs:577-641 | of the sessions' own fields and the effects: a conflict uploads over the file, goes on editing, or starts afresh with a new session and the old temp directory deleted; others stay; nothing else changes |
| `EditMeanings.DispatchFailedMeans` | crates/core/src/remote_edit.rs:667-687 | of the sessions' own fields and the effects: each rollback undoes what its command prepared and nothing else; nothing else changes |
| `EditMeanings.ModifiedMeans` | crates/core/src/remote_edit.rs:694-716 | of the sessions' own fields and the effects: a change marks an editing session modified unless it equals the baseline we wrote; nothing else changes |
| `EditMeanings.ListingMeans` | crates/core/src/remote_edit.rs:723-749 | an editing session of the tab takes over the first listed entry of its path iff size and second agree; nothing else changes |
| `EditMeanings.ReconnectMeans` | crates/core/src/core.rs:3148-3162 | sessions of the tab take the epoch, and a checking one goes back to editing; nothing else changes |
| `EditMeanings.ReapMeans` | crates/core/src/core.rs:3130-3141 | exactly the tab's sessions go, the others stay in order, and each gone one's temp directory is deleted |
| `EditWorld.FollowUpNeverDispatches` | crates/app/src/edit_effects.rs:36-74 | what a rollback asks for contains no dispatch, so executing terminates |
| `EditDelivery.TurnCovers` | crates/app/src/edit_effects.rs:36-74 | after any turn a session in flight was in flight before, or this very turn delivered the exact command it waits for, epoch included |
| `EditDelivery.RunCovers` | crates/app/src/edit_effects.rs:36-74 | over every run a session in flight was put there by a turn that itself delivered its command and has been in flight ever since, if it was not so from the start |
| `EditDelivery.FreshRunCovers` | crates/app/src/edit_effects.rs:36-74 | from the empty lifecycle there is always such a turn |
| `EditDelivery.FinishedTransferLands` | crates/core/src/remote_edit.rs:468-573 | a finished transfer, reported by the command's own source and destination, takes the session that waits for it out of flight |
| `EditDelivery.FailedOverwriteRestores` | crates/core/src/remote_edit.rs:577-687 | an Overwrite that was not delivered restores the lifecycle exactly |
| `EditDelivery.FailedDownloadRestores` | crates/core/src/remote_edit.rs:286-348 | a first download that was not delivered restores the session list exactly |
| `EditDelivery.FailedCheckReverts` | crates/app/src/workspace/remote_edit.rs:170-183 | a check that was not delivered leaves the session as it was but for its epoch |
| `EditLifecycles.EditLifecycle.constructor` | crates/core/src/remote_edit.rs:201-207 | the empty lifecycle satisfies the invariant |
| `EditLifecycles.EditLifecycle.RemoveForTab` | crates/core/src/core.rs:3130-3141 | the index walk keeps the other tabs' sessions and returns this tab's, both in order |
| `EditLifecycles.EditLifecycle.UpdateEpochForTab` | crates/core/src/core.rs:3148-3162 | the loop does this on the object; the invariant is kept |
| `EditLifecycles.EditLifecycle.AdoptListingBaselines` | crates/core/src/remote_edit.rs:723-749 | collecting by id and applying by lookup adopts exactly where a listing is to be adopted; the invariant is kept |
| `EditLifecycles.EditLifecycle.ReapTab` | crates/core/src/remote_edit.rs:763-771 | removes exactly the tab's sessions and asks for the deletion of each temp directory; the invariant is kept |
| `EditLifecycles.EditLifecycle.Begin` | crates/core/src/remote_edit.rs:213-283 | on the object, as the functions do: a live holder of the file reopens its copy or says why not, a dead one is reaped with its tab; a live link that writes elsewhere blocks; otherwise the edit starts; the invariant is kept |
| `EditLifecycles.EditLifecycle.StartDownload` | crates/core/src/remote_edit.rs:286-335 | on the object, as the functions do: an unsafe name is refused; otherwise a new session with these fields and its fetching command; the invariant is kept |
| `EditLifecycles.EditLifecycle.AbortDownload` | crates/core/src/remote_edit.rs:338-348 | on the object, as the functions do: a downloading session goes with its temp directory; any other stays; the invariant is kept |
| `EditLifecycles.EditLifecycle.RequestUpload` | crates/core/src/remote_edit.rs:352-380 | on the object, as the functions do: an editing session of this connection goes to check with epoch, mtime and a new check id, used up even by a refusal; each refusal has its reason; the invariant is kept |
| `EditLifecycles.EditLifecycle.RevertCheck` | crates/core/src/remote_edit.rs:383-389 | on the object, as the functions do: the session is editing and waits for no check, whatever it did; the invariant is kept |
| `EditLifecycles.EditLifecycle.OnCheckResult` | crates/core/src/remote_edit.rs:395-463 | on the object, as the functions do: an answer nobody waits for is dropped; the others send the session back to editing, to upload, or into conflict, with the matching effect; the invariant is kept |
| `EditLifecycles.EditLifecycle.OnTransferFinished` | crates/core/src/remote_edit.rs:468-573 | on the object, as the functions do: a finished download leaves its session editing on its baseline, or gone with its temp directory; an upload leaves it editing, and on success unmodified on the new baseline; any other report changes nothing; the invariant is kept |
| `EditLifecycles.EditLifecycle.ResolveConflict` | crates/core/src/remote_edit.rs:577-641 | on the object, as the functions do: a conflict uploads over the file, goes on editing, or starts afresh with a new session and the old temp directory deleted; others stay; the invariant is kept |
| `EditLifecycles.EditLifecycle.DispatchFailed` | crates/core/src/remote_edit.rs:667-687 | on the object, as the functions do: each rollback undoes what its command prepared and nothing else; the invariant is kept |
| `EditLifecycles.EditLifecycle.RecordLocalModified` | crates/core/src/remote_edit.rs:694-716 | on the object, as the functions do: a change marks an editing session modified unless it equals the baseline we wrote; the invariant is kept |
| `EditLifecycles.EditLifecycle.OpenEdit` | crates/app/src/workspace/remote_edit.rs:273-323 | asking and at once starting the download it allows is the `Open` step of the runs |
| `EditLifecycles.EditLifecycle.ApplyIntent` | crates/core/src/remote_edit.rs:213-771 | every intent leaves the state and the effects of its step |
| `EditLifecycles.EffectHost.ExecuteEffects` | crates/app/src/edit_effects.rs:43-106 | the recursive loop leaves the lifecycle and the history as `EditWorld.Execute` does, for every pattern of refused commands |
| `EditLifecycles.EffectHost.PlayTurn` | crates/app/src/edit_effects.rs:43-106 | an intent and its effects, played on the objects, are a turn of the run; the invariant is kept |
| `EditLifecycles.EffectHost.PlayAll` | crates/app/src/edit_effects.rs:43-106 | any turns played on the objects end where the run ends, so the run theorems hold of them; the temp-path ledger stays balanced |
| `EditLifecycles.ExecuteAppend` | crates/app/src/edit_effects.rs:62-74 | running follow-ups by recursion and running them inline before the rest are the same |
| `PipelinedUpload.OptimalWindowCapacity` | crates/sftp/src/pipelined_writer.rs:20-26 | between 16 and 128, 32 for an unset chunk size; one chunk more would overfill the 8 MiB window, and above 16 it does not overfill |
| `PipelinedUpload.NextChunkLen` | crates/sftp/src/pipelined_writer.rs:28-30 | the smaller of what remains and the chunk size |
| `PipelinedUpload.IssueSafe` | crates/sftp/src/pipelined_writer.rs:167-180 | issuing the next chunk keeps tiling, accounting, window and content |
| `PipelinedUpload.AcknowledgeSafe` | crates/sftp/src/pipelined_writer.rs:258-283 | acknowledging any outstanding chunk keeps them |
| `PipelinedUpload.ServerSafe` | crates/sftp/src/pipelined_writer.rs:176-202 | whatever the server applies of outstanding writes keeps them |
| `PipelinedUpload.DrainedIsCopied` | crates/sftp/src/pipelined_writer.rs:247-316 | nothing in flight and end reached: remote bytes are the source's, and it was all there was to copy |
| `PipelinedUpload.PipelinedUploadWriter.constructor` | crates/sftp/src/pipelined_writer.rs:101-123 | chunk size and window are at least one; the state is safe |
| `PipelinedUpload.PipelinedUploadWriter.FillBuffer` | crates/sftp/src/pipelined_writer.rs:148-165 | short reads add up to the next source bytes, full or ended |
| `PipelinedUpload.PipelinedUploadWriter.ReadChunk` | crates/sftp/src/pipelined_writer.rs:137-170 | never past the stated length, full chunks before the end, the end flag only at the end |
| `PipelinedUpload.PipelinedUploadWriter.SpawnOne` | crates/sftp/src/pipelined_writer.rs:136-204 | one turn issues one chunk or notices the end |
| `PipelinedUpload.PipelinedUploadWriter.SpawnWriteRequests` | crates/sftp/src/pipelined_writer.rs:125-205 | without an adverse answer the window is full afterwards or the end is reached |
| `PipelinedUpload.PipelinedUploadWriter.Issue` | crates/sftp/src/pipelined_writer.rs:172-180 | the chunk goes in flight at the current offset |
| `PipelinedUpload.PipelinedUploadWriter.JoinNext` | crates/sftp/src/pipelined_writer.rs:250-283 | whichever write ends and however, safety is kept and the answer is what the environment gave |
| `PipelinedUpload.PipelinedUploadWriter.JoinAndRefill` | crates/sftp/src/pipelined_writer.rs:250-295 | an acknowledged write is followed by refilling; any other ending fails with its own error |
| `PipelinedUpload.PipelinedUploadWriter.Round` | crates/sftp/src/pipelined_writer.rs:237-296 | one round fails only with an adverse answer of the environment, and otherwise gets nearer to the end or has drained |
| `PipelinedUpload.PipelinedUploadWriter.Pump` | crates/sftp/src/pipelined_writer.rs:231-300 | the loop ends; it fails only with an adverse answer, at once if it was cancelled before; otherwise nothing is in flight at the end of what there was to send |
| `PipelinedUpload.PipelinedUploadWriter.UploadFrom` | crates/sftp/src/pipelined_writer.rs:207-317 | always: chunks tile, acknowledged plus in-flight bytes are the offset, window holds, no byte corrupted; the first adverse answer (cancelled, read failed, write refused, task crashed, receiver gone) ends it with that error; without any it is Ok(n), n the stated total or the whole source, remote [0,n) the source's and the rest untouched, or Incomplete iff the source is shorter; cancelled before the start it sends nothing; it terminates |
| `Debounce.NextKeepsInv` | crates/platform/src/platform.rs:713-824 | every step of callback, worker, drop or clock keeps the invariant |
| `Debounce.RunKeepsInv` | crates/platform/src/platform.rs:705-824 | it holds in every state of every interleaving |
| `Debounce.NoLostWakeup` | crates/platform/src/platform.rs:654-662 | an un-notified worker in an untimed wait has no pending save and is not stopped; in a timed one it sleeps exactly until the earliest deadline plus what it spent emitting |
| `Debounce.EverySaveCovered` | crates/platform/src/platform.rs:722-733 | every save, or a later one of its session, is pending, being emitted or emitted |
| `Debounce.EmissionsAreDebounced` | crates/platform/src/platform.rs:757-783 | an emission is a real save, not before its deadline, never twice, and its session was quiet for the whole debounce |
| `Debounce.CollectTakesDue` | crates/platform/src/platform.rs:747-778 | collecting takes exactly the due saves, each session once, and leaves exactly the others; a stopped worker takes none and exits |
| `Debounce.DecideMeans` | crates/platform/src/platform.rs:784-808 | then it exits if stopped, starts over if a save came in, sleeps for good if nothing is pending, and else until the earliest deadline |
| `Debounce.SaveIsNoticed` | crates/platform/src/platform.rs:654-662 | a save that arrives while the worker emits changes the generation it will compare |
| `Debounce.StoppedWorkerEnds` | crates/platform/src/platform.rs:747-824 | after drop the worker is notified if asleep and each of its steps brings it nearer to exit |
| `Debounce.WorkerNeverStuck` | crates/platform/src/platform.rs:747-808 | a stopped worker that has not exited can take a step |
| `Debounce.EditWatcher.constructor` | crates/platform/src/platform.rs:701-708 | starts in the initial state |
| `Debounce.EditWatcher.OnEvent` | crates/platform/src/platform.rs:722-732 | is the save step, and keeps the invariant |
| `Debounce.EditWatcher.TakeDue` | crates/platform/src/platform.rs:757-769 | removes exactly the due entries and lists each once |
| `Debounce.EditWatcher.EarliestWait` | crates/platform/src/platform.rs:771-776 | the wait to the earliest deadline left, none if nothing is pending |
| `Debounce.EditWatcher.Collect` | crates/platform/src/platform.rs:747-778 | is the collecting step, and keeps the invariant |
| `Debounce.EditWatcher.EmitOne` | crates/platform/src/platform.rs:780-782 | is the emitting step, and keeps the invariant |
| `Debounce.EditWatcher.Decide` | crates/platform/src/platform.rs:784-808 | is the deciding step, and keeps the invariant |
| `Debounce.EditWatcher.Wake` | crates/platform/src/platform.rs:796-808 | is the waking step, and keeps the invariant |
| `Debounce.EditWatcher.DropWatcher` | crates/platform/src/platform.rs:819-824 | is the stopping step, and keeps the invariant |
| `Glob.NoSlashBehind` | crates/core/src/core.rs:3229-3275 | a segment aligned at two places joined without a slash covers no slash in between |
| `Glob.NewestStarSuffices` | crates/core/src/core.rs:3240-3262 | once a later star is reached, an older star offers no match the later one does not |
| `Glob.SolvedIsLawful` | crates/core/src/core.rs:3225-3275 | the positions from which the rest matches obey the laws of plain character, star and end, and the start is one iff the pattern matches |
| `Glob.Advance` | crates/core/src/core.rs:3235-3268 | one turn keeps the question open with progress, or fails only when the text does not match |
| `Glob.MatchGlob` | crates/core/src/core.rs:3225-3275 | true iff the pattern matches under the declarative meaning, in at most (text+1)(pattern+1) turns |
| `EntryOrder.AsciiShortcut` | crates/core/src/core.rs:2060-2075 | on ASCII names both ways of lowering agree |
| `EntryOrder.NamesOnePath` | crates/core/src/core.rs:2060-2075 | so the name comparison is the Unicode one on all names |
| `EntryOrder.NamesLawful` | crates/core/src/core.rs:2060-2075 | and it is reflexive, antisymmetric in direction and transitive |
| `EntryOrder.FieldLawful` | crates/core/src/core.rs:2036-2050 | each field comparison is a total preorder |
| `EntryOrder.EntriesLawful` | crates/core/src/core.rs:2023-2058 | for every sort setting the entry comparison is a total order whose only ties are equal paths |
| `EntryOrder.StringsMean` | crates/core/src/core.rs:2065-2075 | string comparison is dictionary order, and ties only on equal strings |
| `EntryOrder.NamesMean` | crates/core/src/core.rs:2065-2075 | names go by lower-cased form, then by themselves |
| `EntryOrder.FieldsMean` | crates/core/src/core.rs:2036-2050 | kind by its rank, size and time by value with unknown first, each tie by name |
| `EntryOrder.EntriesMean` | crates/core/src/core.rs:2023-2058 | less and greater are exactly: directories lead if asked; in a group the chosen field, the other way round when descending; ties by path in either direction |
| `EntryOrder.SortedOneWay` | crates/core/src/core.rs:2019-2021 | entries with distinct paths have one sorted order, whatever order they came in |
| `TabGuard.RunTabs` | crates/core/src/core.rs:858-901 | tab ids stay distinct over every run |
| `TabGuard.StaleForever` | crates/core/src/core.rs:1658-1720 | once a tab reconnects or closes, no event of an earlier session is accepted at any later time |
| `TabGuard.OtherTabsStay` | crates/core/src/core.rs:849-902 | an operation on one tab leaves every other tab as it is, and heard as it was |
| `TabStores.TabState.AcceptsRemoteEvent` | crates/core/src/core.rs:1658-1664 | field by field, the guard is acceptance of the scope by tab, epoch and session |
| `TabStores.TabState.BeginConnect` | crates/core/src/core.rs:1672-1678 | the epoch rises by one and exactly the new session at the new epoch is heard |
| `TabStores.TabState.AwaitHostKey` | crates/core/src/core.rs:1683-1689 | exactly that session at the current epoch is heard |
| `TabStores.TabState.CompleteConnect` | crates/core/src/core.rs:1693-1699 | exactly that session at the current epoch is heard |
| `TabStores.TabState.BeginReconnect` | crates/core/src/core.rs:1706-1718 | the epoch rises by one, exactly the new session is heard, the replaced one is kept only if it was connected |
| `TabStores.TabState.Disconnect` | crates/core/src/core.rs:1722-1724 | no event of any session is heard |
| `TabStores.TabState.Fail` | crates/core/src/core.rs:1728-1730 | no event of any session is heard |
| `TabStores.TabStore.AcceptsRemoteEvent` | crates/core/src/core.rs:849-854 | the guard over the store is the guard of the run |
| `TabStores.TabStore.ApplyOp` | crates/core/src/core.rs:858-901 | over the tab objects: epochs never fall, an operation that ends a session leaves all its events stale, every other tab stays and is heard as before, and the tabs read as in the run |
| `TabStores.TabStore.ApplyAll` | crates/core/src/core.rs:858-900 | any operations from an empty store end where the run ends |
| `TabStores.AppState.DrainExpiredModals` | crates/core/src/core.rs:778-800 | keeps exactly the modals of current sessions and hands back the others, both in order |

## Left out

- `clear_terminal` and `mark_cancelling`: the first may drop a child job and keep its plan, after which the slice shortcut is not justified, so neither is an event of the modelled run.
- `plan_id_for_job`, `find_for_tab_path`, `plan_conflict_compare`, `conflict_remote_path` and other lookups: easy members.
- Notices, editor launching and listing updates by the effect executor: the executed world keeps sessions, deliveries and deletions only.
- Progress throttling, error texts of the uploader, mutex poisoning and the wrap-around of the debouncer's generation counter.
- Integer widths of counters, offsets, epochs and session ids: they are unbounded numbers; transfer ids are 64-bit with overflow checked.
- EditTypes.FileName: a path is a sequence of characters split at `/`; other platform rules of `Path::file_name` are not part of this model.
- EntryOrder.CompareStr: byte order of UTF-8 is taken as code-point order; the library sort itself is not modelled, only that its result is unique.
- ConnectionKey: the identity of a saved connection is an opaque fingerprint.
- TabStores.TabStore.ApplyOp: active tab, recent order, titles and pane state of tabs are not modelled; the reasons of disconnects and failures are dropped.
- Debouncer: mapping file events to session ids, and that a waiting worker does wake at its timeout (time may pass while it sleeps).
- Uploader: what tasks do after an abort beyond applying bytes of writes that were outstanding, which `ServerSafe` allows.
- Windows, menus, palette, assets, storage, Keychain, known hosts, keyboard-interactive prompts, rate sampling, navigation history, event routing, and the runtime, planner, pool and session actor: user interface, I/O or not part of this model.
