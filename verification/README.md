# Sandboxd teleport: verified model

A Dafny model of the parts of this repository where a mistake loses a workload's state: the session and worker table and
the protocol of the clients that work on it, the snapshot byte formats and their way through object storage, the sweeps
that reap what has been abandoned, and the console relay. `dafny verify dfyconfig.toml` checks all of it.

The parts, and the modules that hold them:

- **The table** (`Records`, `Assign`, `Store`, `Deadlines`). Sessions and workers, the idle and all sets and the two
  deadline indexes. Each script that the control plane runs in the store is a function on the table; `Store` is the same
  table updated in place, with the due sweeps as loops. The indexes are proved exact over every history of scripts.
- **The compare-and-set loop** (`Mutations`, `CasLoop`). The read, mutate and write loop under arbitrary interference.
- **The protocol** (`Protocol`, `Lineage`, `Attempts`, `Copies`, `Writers`, `Workflows`, `Durability`, `Binding`,
  `Hazards`). Any number of clients, each with a program counter and a possibly stale copy of an entry: resume, suspend,
  terminate, checkpoint, heal, delete, reclaim, fork seeding and rebuild, interleaved one script at a time with
  registrations, removals and activity stamps. Store errors, worker replies and the drawn worker are free choices.
  `Lineage` and `Copies` hold for every run. `Attempts` ties the clients' reads and writes to the compare-and-set loop,
  `Writers` says field by field what each writer leaves, `Workflows` what each workflow sets out on and owes, `Durability`
  what a rebuild can bring back. `Binding` holds for every run under its hypotheses, and `Hazards` gives, for each of
  them, a run without it that breaks binding safety.
- **Failed restores** (`FailedRestores`, `Restore`). What any number of failed restores leaves, over the runs of the
  protocol, and the restore workflow as methods over `Store` with other clients' scripts and failures between its calls.
- **Snapshot bytes** (`Bytes`, `Sparse`, `Merge`). The sparse-extent codec and the merge of a memory delta onto its base.
- **Archives** (`Paths`, `Folds`, `Archive`, `Extract`, `TarRoundTrip`). A directory tree with inodes, hard links, modes,
  owners, times and attributes, written as tar entries and extracted again.
- **Objects** (`Keys`, `Bucket`, `Snapshots`, `Gc`). A bucket with paged listings in key order; upload, promote,
  download, reclaim and garbage collection over it.
- **Gates** (`Gates`, `Sweeps`, `Reclaim`, `Healer`, `Reaper`). The persistence gate the sweeps share is a small machine
  per key. It is proved equal to a reference read off the log of looks: unbroken streaks. The three sweeps are proved
  against that reference.
- **The console** (`Console`). The line splitter, sanitiser and byte cap, for any cut of the stream.

`Collections` holds small facts about maps and sequences that several parts share.

## How to read it

A script takes effect whole. `DeleteSession`, the due sweep, `PoolWorkers` and `CountWorkers`, each several commands in
the repository, are taken as one step. A store error means the script did not take effect. A pod keeps its pool and its
address, `/suspend` and `/checkpoint` answer with a non-empty snapshot, a base that forks are seeded from has one too, and
a session id is not empty: these are what the repository's own callers and handlers guarantee.

Binding safety is stated under these hypotheses, which `Binding.Allowed` spells out: operations on one session do not
overlap, a removed pod name is not registered again, and the delete-time release, the healer and the durable rebuild are
not taken. Each is needed: for each of the five, `Hazards` has a run that meets the other four and breaks binding safety.
Even with all five, a failed read of the worker sends a resume past a live one: `Binding.FenceIsExact` says exactly when,
and `Hazards.FailedReadClaimsASecondWorker` is such a run. Everything in `Copies` is free of these hypotheses. Versions
restart after a delete, so its lemmas about a winning write ask that the winner's copy is of the stored incarnation of the
key; `CasLoop.DeleteLetsAStaleCopyWin` shows why, and `Copies.UndeletedRunIsCurrent` that nothing else is needed.

The runs of `FailedRestores` are spelled out by `FailedRestores.Failing`. Restores of the session under study come one at
a time, as the resume handler's single flight arranges, and each of them fails; its first read of the entry, its release
and its rollback are answered by the store; and no other client writes or deletes that session. Suspend, terminate,
checkpoint and reclaim requests for it, creations of it, activity stamps, and everything about other sessions and about
workers, are free.

Times are integers in the source's unit. Strings are sequences of characters, compared by code point. Bytes are integers
below 256. Sizes in the codec are 64-bit where the source's are, with the reader's range checks as written.

Where the code and its documentation differ, the model follows the code:

- The base reaper's comment says a missed count never frees a base early. A lost write of the cleared condition can:
  `Gates.FiresEarlyExactly` says exactly when, `Gates.LostClearFiresEarly` that it happens.
- The base reaper stores its clock cut to a whole second, so the window it waits may be up to one second short of the
  grace. The model keeps the cut: the grace is measured from the stored mark.
- The fence's comment takes a worker that cannot be read for a worker that is gone; see `Binding.FenceIsExact`.
- The collector's notes give base snapshots a lifetime of their own. A fork that has run and was rolled back before any
  checkpoint still names the base's snapshot, and collecting it deletes the base's objects: `Gc.SweepTakesTheBase`. A fork
  that has never run is kept. `Gc.AccountedSurvives` gives the exact condition for an object outside the session
  directories or in an accounted one.
- The console cap is read from the environment and may be negative; then nothing is relayed but the note.

## Model

| member | source | states |
|---|---|---|
| `Binding.BindingIsSafe` | checkpoint-restore/controlplane/internal/resume/resume.go:252-385 | over every run of interleaved resumes, suspends, checkpoints, registrations, removals and reclaim under the hypotheses above, a Running session whose recorded worker exists is exactly the session that worker is busy with, and no two Running sessions share an existing worker |
| `Binding.FenceIsExact` | checkpoint-restore/controlplane/internal/resume/resume.go:238-275 | in the same runs a resume at the fence of a Running session takes the fast path exactly when it could read the recorded worker and its entry exists; when the entry is gone, and also when the read fails, it goes on to restore or cold start with the stale copy |
| `Binding.StepKeepsBindInv` | checkpoint-restore/controlplane/internal/resume/resume.go:464-519 | every allowed step, of any client, keeps the ownership invariant: what each client counts on about its worker, from claim to release |
| `Binding.StepKeepsOwns` | checkpoint-restore/controlplane/internal/assign/assign.go:415-475 | a claimed worker stays its session's through every step except that session's own release |
| `Binding.StepSoftens` | checkpoint-restore/controlplane/internal/resume/suspend.go:195-247 | a step leaves another session's entry alone up to its activity stamp, deletes it, or leaves it Suspended and unbound |
| `Hazards.DeleteBreaksBinding` | checkpoint-restore/controlplane/internal/resume/suspend.go:319-350 | a run that meets every hypothesis of binding safety but the one on the delete-time release leaves a Running session on an idle worker: the release frees the pod a failed cold start left in a Resuming entry |
| `Hazards.ReregistrationBreaksBinding` | checkpoint-restore/controlplane/internal/controller/worker_discovery.go:97-184 | the same with only re-registration of a removed pod name allowed |
| `Hazards.OverlapBreaksBinding` | checkpoint-restore/controlplane/internal/resume/resume.go:464-519 | the same with only overlapping operations allowed: two resumes each claim a worker, the first marks the session Running while it names the second's worker, and the second fails and releases that worker |
| `Hazards.HealerBreaksBinding` | checkpoint-restore/controlplane/internal/resume/selfheal.go:101-246 | the same with only the healer allowed |
| `Hazards.RebuildBreaksBinding` | checkpoint-restore/controlplane/internal/controller/session_durability.go:267-298 | the same with only the durable rebuild allowed |
| `Hazards.FailedReadClaimsASecondWorker` | checkpoint-restore/controlplane/internal/resume/resume.go:238-275 | a run that meets every hypothesis, in which one failed read of the worker lets a resume claim a second worker while the session is Running on the first and both are busy with it |
| `Copies.ReachableInv` | checkpoint-restore/controlplane/internal/resume/resume.go:538-564 | every step of every run, with no hypothesis on overlap, keeps the table, entry and copy invariants: a copy a client holds is the stored entry up to its stamp, or its version has been passed or its key deleted |
| `Copies.StepKeepsInv` | checkpoint-restore/controlplane/internal/resume/resume.go:252-385 | the inductive step of the above over all actions of all clients |
| `Copies.SuspendedIsRestorable` | checkpoint-restore/controlplane/internal/resume/resume.go:427-434 | in every reachable state a Suspended entry has a snapshot and no worker binding |
| `Copies.SuspendedNeverColdStarts` | checkpoint-restore/controlplane/internal/resume/resume.go:296-299 | hence a resume that reads Suspended asks for a restore of the recorded, non-empty snapshot, with runtime, engine, image, ports, probe, role, caps and timeouts as recorded, on the recorded pool, or claims nothing when there is no pool; it never cold-starts |
| `Copies.SnapshotNeverLost` | checkpoint-restore/controlplane/internal/resume/suspend.go:228-238 | no step makes a recorded snapshot empty, a winning write being of the stored incarnation; only a deletion takes it away |
| `Copies.SnapshotSurvivesRun` | checkpoint-restore/controlplane/internal/resume/suspend.go:228-238 | the same from any state to any later one, over every run that leaves the key in place and writes it from copies of its current incarnation |
| `Copies.UndeletedRunIsCurrent` | checkpoint-restore/controlplane/internal/assign/assign.go:179-186 | while a key has never been deleted every run does so: no stale copy of it can win |
| `Writers.HealerWrites` | checkpoint-restore/controlplane/internal/resume/selfheal.go:200-246 | a healer write that wins turns a stored Resuming entry into Running on the probed address, or into Suspended with no worker and its own snapshot, and changes nothing else but version and stamp |
| `Writers.CheckpointerWrites` | checkpoint-restore/controlplane/internal/resume/checkpoint.go:108-155 | a checkpointer write that wins finds Running on the pod it checkpointed, records the answered snapshot, runtime and engine and the time, and changes nothing else but version and stamp |
| `Writers.CheckpointStoresTheAnswer` | checkpoint-restore/controlplane/internal/resume/checkpoint.go:108-155 | from a worker's answer to a checkpoint, through any steps of others and any retries, to the write that wins: what is stored is what the worker answered |
| `Writers.SuspendMarks` | checkpoint-restore/controlplane/internal/resume/suspend.go:195-212 | a suspend's first write changes the state to Suspending and nothing else |
| `Writers.SuspenderWrites` | checkpoint-restore/controlplane/internal/resume/suspend.go:213-300 | a suspend write that wins stores the worker's snapshot, runtime and engine, its image if it named one, Suspended and no worker, and leaves every other field; next the worker is released, or removed on a terminate |
| `Writers.SuspendStoresTheAnswer` | checkpoint-restore/controlplane/internal/resume/suspend.go:195-300 | from a worker's answer to a suspend, through any steps of others and any retries, to the write that wins: what is stored is what the worker answered |
| `Writers.ReleaseGivesBack` | checkpoint-restore/controlplane/internal/resume/suspend.go:240-247 | a release the store takes leaves the worker idle in its own pool, unless its entry was removed, and touches no session |
| `Writers.ResumerMarks` | checkpoint-restore/controlplane/internal/resume/resume.go:464-490 | a resume's first write binds the claimed worker and records image, ports, caps and timeouts, keeps probe and role where none is given, and keeps snapshot, engine and checkpoint time |
| `Writers.ResumerRuns` | checkpoint-restore/controlplane/internal/resume/resume.go:510-519 | its second write changes state and address and nothing else |
| `Writers.RollbackWrites` | checkpoint-restore/controlplane/internal/resume/resume.go:427-434 | a rollback turns a Resuming entry with a snapshot to Suspended with no worker and leaves any other entry but for its version |
| `Writers.CreatorsNeverOverwrite` | checkpoint-restore/controlplane/internal/controller/forkset_controller.go:274-294 | a version-0 write by fork seeding or by the rebuild wins only when no entry is stored |
| `Lineage.StepIsOneScript` | checkpoint-restore/controlplane/internal/assign/assign.go:117-176 | every step of the protocol touches the table through at most one script, or not at all |
| `Lineage.StepKeepsShape` | checkpoint-restore/controlplane/internal/resume/resume.go:464-519 | every step keeps the table's invariant and the well-formedness of stored entries, mirrored entries and clients |
| `Lineage.EditKeepsEntryOk` | checkpoint-restore/controlplane/internal/resume/resume.go:427-434 | every mutation a loop applies keeps an entry well formed: Suspended means restorable and unbound |
| `Attempts.ReadThenWriteIsAnAttempt` | checkpoint-restore/controlplane/internal/resume/resume.go:538-564 | a client's read step, any steps of other clients, and its write step are one attempt of the compare-and-set loop with those clients' scripts in between, and its outcome is the loop's |
| `Attempts.ReadThatStops` | checkpoint-restore/controlplane/internal/resume/resume.go:538-564 | a read step that does not go on to write is an attempt that failed, found no entry or was declined, and changed nothing |
| `Attempts.RunAppliesScripts` | checkpoint-restore/controlplane/internal/assign/assign.go:117-176 | the table after any run is the table before it with the run's scripts applied in order |
| `Attempts.LostWritesRetry` | checkpoint-restore/controlplane/internal/resume/resume.go:538-564 | a write that lost on the version is tried again from a new read, five times in all, and then the loop fails |
| `Attempts.ReadOfMissing` | checkpoint-restore/controlplane/internal/resume/resume.go:545-549 | over a missing key a resume or rollback goes on from the empty entry, every other loop fails |
| `Workflows.WorkflowsBeginRight` | checkpoint-restore/controlplane/internal/resume/suspend.go:168-320 | in every reachable state each suspend, checkpoint and fence under way set out on a session read Running with an address, each terminate on one read Running on the very pod it takes out, each heal on one read Resuming with an address |
| `Workflows.WorkflowsStart` | checkpoint-restore/controlplane/internal/resume/suspend.go:168-320 | and each goes on exactly when it reads that; a terminate suspends first exactly then and else goes to the removal; seeding and rebuild stop at an entry that is there |
| `Workflows.ResumeChooses` | checkpoint-restore/controlplane/internal/resume/resume.go:252-330 | a resume fences a session read Running with an address, restores a Suspended one with a snapshot on its own pool with everything as recorded, and cold-starts everything else from the plan |
| `Workflows.PastFenceRestores` | checkpoint-restore/controlplane/internal/resume/resume.go:266-299 | past the fence a session with a snapshot is restored from it, and only one without is cold-started |
| `Workflows.DutiesAreDischarged` | checkpoint-restore/controlplane/internal/resume/suspend.go:195-350 | whatever worker a client has undertaken to release or remove, or entry to delete, it has done so by the time it is gone, through any steps of the others, unless the store refused it |
| `Workflows.DutiesAreTaken` | checkpoint-restore/controlplane/internal/resume/suspend.go:195-350 | who undertakes what: a terminate to remove its worker, a suspend that won, a failed resume and a reclaim to release theirs, an answered reset and a delete to release and delete |
| `Durability.SuspendedCanBeRebuilt` | checkpoint-restore/controlplane/internal/controller/session_durability.go:167-208 | in every reachable state a Suspended session that was written since its creation has been handed to the mirror, and the rebuild may re-create it Suspended on the same snapshot with the same engine, pool, image, ports, probe and role |
| `Assign.RunKeepsTableInv` | checkpoint-restore/controlplane/internal/assign/assign.go:346-475 | after any mix of scripts in any order the idle sets, all sets and both deadline indexes are exact |
| `Assign.ApplyKeepsSessionInv` | checkpoint-restore/controlplane/internal/assign/assign.go:117-155 | each session script keeps the suspend index equal to the deadlines of the auto-suspending Running sessions, and the checkpoint index's membership and, once a checkpoint is recorded, its scores |
| `Assign.ApplyKeepsWorkerInv` | checkpoint-restore/controlplane/internal/assign/assign.go:346-388 | each worker script keeps every pool's idle set equal to the pods of that pool whose entry is idle: a registration never demotes a busy worker, and a release never resurrects a removed one |
| `Assign.IdleWithinAll` | checkpoint-restore/controlplane/internal/assign/assign.go:535-545 | the idle set is contained in the all set, so total minus idle is never negative |
| `Assign.ClaimsAreExclusive` | checkpoint-restore/controlplane/internal/assign/assign.go:415-431 | between two successful claims of one pod, in any history of scripts, there is a release of it, or a removal followed by an idle registration |
| `Assign.BecomesIdleOnlyBy` | checkpoint-restore/controlplane/internal/assign/assign.go:346-363 | without a release, a pod that is not idle becomes idle only through an idle registration, preceded by its removal unless it was absent |
| `Store.Store.PutSessionCAS` | checkpoint-restore/controlplane/internal/assign/assign.go:160-176 | the in-place store writes exactly when the stored version, or 0, is the one given; the new entry, both deadlines, first checkpoint included, and what else changes, on its fields |
| `Store.Store.Stamp` | checkpoint-restore/controlplane/internal/assign/assign.go:195-215 | sets the activity stamp of a present entry and nothing else of it, and slides the suspend deadline of a Running session to the stamp plus its timeout |
| `Store.Store.Delete` | checkpoint-restore/controlplane/internal/assign/assign.go:179-186 | the in-place store deletes an entry and its index members |
| `Store.Store.Upsert` | checkpoint-restore/controlplane/internal/assign/assign.go:346-378 | the in-place store performs the registration script |
| `Store.Store.Remove` | checkpoint-restore/controlplane/internal/assign/assign.go:383-394 | the in-place store performs the removal script |
| `Store.Store.Claim` | checkpoint-restore/controlplane/internal/assign/assign.go:415-449 | a claim takes some idle member and marks its worker busy with the session; under the invariant it fails exactly when the pool has none |
| `Store.Store.Release` | checkpoint-restore/controlplane/internal/assign/assign.go:462-482 | the in-place store performs the release script |
| `Store.Store.CountWorkers` | checkpoint-restore/controlplane/internal/assign/assign.go:535-545 | idle and total counts, idle at most total |
| `Store.RangeByScore` | checkpoint-restore/controlplane/internal/assign/assign.go:233-250 | the members due by now, each once, in score order |
| `Store.Store.LoadDue` | checkpoint-restore/controlplane/internal/assign/assign.go:250-273 | loads the due entries and collects the members whose entry is gone |
| `Store.Store.SuspendDue` | checkpoint-restore/controlplane/internal/assign/assign.go:221-273 | returns exactly the Running sessions whose positive stamp plus positive timeout has passed, each once: the indexed sweep equals the scan |
| `Store.Store.CheckpointDue` | checkpoint-restore/controlplane/internal/assign/assign.go:227-273 | returns exactly the Running sessions with a positive interval whose index score has passed, each once; once a checkpoint is recorded that is its time plus the interval |
| `Store.SuspendIndexIsScan` | checkpoint-restore/controlplane/internal/assign/assign.go:195-207 | a member of the suspend index is due exactly when its session's own fields say so |
| `Store.CheckpointIndexIsScan` | checkpoint-restore/controlplane/internal/assign/assign.go:117-155 | the same for the checkpoint index, exact once a checkpoint is recorded |
| `Store.Store.EnsurePoolMember` | checkpoint-restore/controlplane/internal/assign/assign.go:404-406 | adds the pod to the pool's all set |
| `Store.Store.PoolWorkers` | checkpoint-restore/controlplane/internal/assign/assign.go:512-531 | returns the entries of the pool's members, all workers of the pool among them, and drops exactly the members without an entry |
| `Deadlines.ActivityPutsOffSuspension` | checkpoint-restore/controlplane/internal/assign/assign.go:195-215 | from a stamp on, through any scripts but a write or deletion of the session, it is not due before the stamp plus its timeout |
| `Deadlines.FirstCheckpointDue` | checkpoint-restore/controlplane/internal/assign/assign.go:117-155 | before its first checkpoint a session is due an interval after its last activity, or after the write when it has none, and stamps do not move that |
| `Assign.SameVersionSameBinding` | checkpoint-restore/controlplane/internal/assign/assign.go:415-475 | claims and releases move a worker's version on, so a version seen again with no registration or removal between is the same binding, never given up |
| `CasLoop.CasSession` | checkpoint-restore/controlplane/internal/resume/resume.go:538-564 | under any interference between its reads and writes, deletes included, and with store errors at any call: it retries only attempts under which another writer moved the version; a write stores the edited copy over an entry of the copy's version, which without a delete in between is one atomic application of the mutation to the entry stored at that instant, only the activity stamp being the one read; every other outcome wrote nothing |
| `CasLoop.Attempt` | checkpoint-restore/controlplane/internal/resume/suspend.go:356-376 | one read, mutate and write of the loop: written, declined, missing, failed or in conflict, and what each means for the table |
| `CasLoop.WinPinsEntry` | checkpoint-restore/controlplane/internal/assign/assign.go:117-155 | if the version read is still stored after any scripts but a delete, so is the entry read, up to its stamp |
| `CasLoop.RunFollows` | checkpoint-restore/controlplane/internal/assign/assign.go:117-215 | every script moves an entry's version on or leaves the entry, up to its stamp |
| `CasLoop.SeedPins` | checkpoint-restore/controlplane/internal/resume/resume.go:538-564 | a seeded first attempt that wins was seeded with the stored entry, up to its stamp and the edits made in memory |
| `CasLoop.SeedIsTransparent` | checkpoint-restore/controlplane/internal/resume/resume.go:271-274 | seeding with the copy edited in memory writes what the unedited copy would |
| `CasLoop.DeleteLetsAStaleCopyWin` | checkpoint-restore/controlplane/internal/assign/assign.go:179-186 | versions restart after a delete: a copy read before it can win afterwards, and the write drops the new entry's snapshot |
| `Mutations.SeedWritesTheSame` | checkpoint-restore/controlplane/internal/resume/resume.go:467-487 | marking a session Resuming overwrites every field the in-memory edit of a stale Running entry touched |
| `FailedRestores.FailedRestoresChangeNothing` | checkpoint-restore/controlplane/internal/resume/resume.go:390-434 | over every run of the protocol in which the restores of a suspended session come one at a time and each fails, at its claim, its Resuming write, its worker or its Running write, with anything else interleaved between any two of their scripts: when none is under way the entry is identical up to its version and activity stamp, and the next resume asks for the same restore from the same pool |
| `FailedRestores.ClaimedWorkersComeBack` | checkpoint-restore/controlplane/internal/resume/resume.go:390-421 | in those runs every worker such a restore claims is released later in the run, and right after that release it is idle in its pool unless its entry was removed meanwhile |
| `FailedRestores.StepKeepsAccounted` | checkpoint-restore/controlplane/internal/resume/resume.go:464-519 | each step keeps the stored entry in the phase of the restore under way: at rest before the Resuming write, marked after it, either while it is being undone |
| `FailedRestores.RestorerLands` | checkpoint-restore/controlplane/internal/resume/resume.go:464-519 | each action of such a restore takes the entry to the phase of its next step, and to rest when it ends |
| `Restore.ResumeFromSnapshot` | checkpoint-restore/controlplane/internal/resume/resume.go:390-421 | the workflow over the in-place store with other clients' scripts and failures at every call: no pool, no capacity, failed or bound; bound exactly when no call of the binding fails, and then the session is Running on the claimed worker, which still holds it if nobody took it away; on failure the worker is idle in its pool right after its release unless removed, and the entry is as it was up to version and stamp unless the rollback itself was refused |
| `Restore.StartAndBind` | checkpoint-restore/controlplane/internal/resume/resume.go:464-519 | marks the session Resuming and then Running on the worker, or stops where a call fails, with the entry as it was when the Resuming write was refused and else marked Resuming on that worker |
| `Restore.Undo` | checkpoint-restore/controlplane/internal/resume/resume.go:404-434 | releases the worker, idle in its pool right after unless removed, and rolls the entry back to what it was; a refused rollback leaves the entry untouched |
| `Restore.CasAlone` | checkpoint-restore/controlplane/internal/resume/resume.go:538-564 | when no other client writes the session the first attempt decides: the edit is applied exactly once, or the store refused it and the entry stands |
| `Sparse.RoundTrip` | checkpoint-restore/sandboxd/sparse_linux.go:74-145 | decoding the payload of any file, with any hole map whose holes read as zero, gives its bytes and its size, with nothing left over |
| `Sparse.ObjectRoundTrip` | checkpoint-restore/sandboxd/sparse_linux.go:151-213 | every encoded object carries the magic and decodes to the file, even a file that itself begins with the magic |
| `Sparse.PrefixRejected` | checkpoint-restore/sandboxd/sparse_linux.go:151-205 | every proper prefix of a valid payload is rejected |
| `Sparse.ObjectPrefixRejected` | checkpoint-restore/sandboxd/sparse_linux.go:151-205 | so is every proper prefix of an object that still has its magic |
| `Sparse.ObjectLayout` | checkpoint-restore/sandboxd/sparse_linux.go:45-100 | an object starts with the letters SBXDSPRS, version 1 and the file's size, little-endian, and ends with -1 |
| `Sparse.UnknownVersionRefused` | checkpoint-restore/sandboxd/sparse_linux.go:151-165 | an object with the magic but another version is refused |
| `Sparse.Write` | checkpoint-restore/sandboxd/sparse_linux.go:74-145 | the extent walk ends, emits the object, and its data and hole bytes add up to the logical size |
| `Sparse.Read` | checkpoint-restore/sandboxd/sparse_linux.go:151-205 | on any bytes the reader ends and either fails or leaves a file of exactly the declared size with the decoded contents, every write in range |
| `Sparse.ReadFrame` | checkpoint-restore/sandboxd/sparse_linux.go:177-203 | one frame: end marker, error, or bytes written in range, with offset and length checked without overflow |
| `Sparse.Seek` | checkpoint-restore/sandboxd/sparse_linux.go:107-120 | the next data or hole boundary, as SEEK_DATA and SEEK_HOLE give it |
| `Merge.CopySparseRegions` | checkpoint-restore/sandboxd/ch/merge.go:177-226 | in place, one buffer at a time, every populated byte of the source lands at its offset and no other byte changes; the count is the populated bytes |
| `Merge.Disk.MergeSparseOverlay` | checkpoint-restore/sandboxd/ch/merge.go:45-99 | leaves at the output path the delta's bytes where it has data and the base's elsewhere; fails exactly on a missing file or a size mismatch, and then leaves both inputs |
| `Merge.Disk.MergeDeltaIntoBase` | checkpoint-restore/sandboxd/ch/merge.go:116-171 | the renaming form and its fallback across a mount boundary leave the same bytes at the delta's path; the renaming form consumes the base, the fallback leaves it; every failure leaves the files as they were |
| `Merge.ChainReproducesMemory` | checkpoint-restore/sandboxd/ch/merge.go:31-45 | a chain of merges of any length reproduces guest memory when each delta has data wherever memory changed since its base |
| `TarRoundTrip.ArchiveRoundTrip` | checkpoint-restore/sandboxd/tarutil/tarutil.go:159-448 | extracting the archive of any tree into an empty directory succeeds and reproduces every unskipped node that is not a socket: kind, contents or target, owner, mode with set-id and sticky bits, exactly the attributes under user. and trusted.overlay. with their values, the nearest whole second of its time, and exactly the hard links between regular files |
| `TarRoundTrip.ArchiveAndExtract` | checkpoint-restore/sandboxd/tarutil/tarutil.go:109-337 | writing and extracting, composed |
| `Archive.WriteTree` | checkpoint-restore/sandboxd/tarutil/tarutil.go:159-267 | one entry per unskipped path in walk order, none below a skipped directory, none for sockets, a file's contents once and its later links naming the first |
| `Archive.Link` | checkpoint-restore/sandboxd/tarutil/tarutil.go:238-249 | a file's earlier link is found exactly when one was written |
| `Extract.Extract` | checkpoint-restore/sandboxd/tarutil/tarutil.go:290-337 | extraction is its entries in order, stopping at the first error, then the directories' metadata |
| `Extract.RestoreDirMeta` | checkpoint-restore/sandboxd/tarutil/tarutil.go:436-448 | every directory once, none before one with a longer name |
| `TarRoundTrip.AboveIsLater` | checkpoint-restore/sandboxd/tarutil/tarutil.go:436-448 | in that order no directory comes after one above it |
| `TarRoundTrip.StillReachable` | checkpoint-restore/sandboxd/tarutil/tarutil.go:436-448 | so each directory can still be entered when its turn comes |
| `TarRoundTrip.RestoredIsSame` | checkpoint-restore/sandboxd/tarutil/tarutil.go:467-520 | owner, then mode, then time, then attributes leave a new node with the source's owner, mode with set-id bits, carried attributes and rounded time |
| `TarRoundTrip.EntryMade` | checkpoint-restore/sandboxd/tarutil/tarutil.go:340-414 | each entry of an archive makes its path, with the inode it must share or not share |
| `Extract.FileReplaces` | checkpoint-restore/sandboxd/tarutil/tarutil.go:340-430 | where its directories are there and open, extracting a file succeeds, replaces whatever was at its path with all below it, and leaves every other name alone |
| `Extract.LinkRefused` | checkpoint-restore/sandboxd/tarutil/tarutil.go:380-414 | a hard link is made only to an existing target inside the destination that is no directory, and is then one more name of it |
| `Extract.OwnerLastLosesSetId` | checkpoint-restore/sandboxd/tarutil/tarutil.go:467-480 | why the owner goes first: changed last it would lose set-id bits just restored |
| `Paths.NameRoundTrip` | checkpoint-restore/sandboxd/tarutil/tarutil.go:577-590 | a written name, with or without a directory's slash, is read back as the path |
| `Paths.CleanedStaysInside` | checkpoint-restore/sandboxd/tarutil/tarutil.go:577-590 | a name accepted from any archive has only proper components: it cannot lead outside the destination |
| `Paths.RefusedExactlyWhenEscaping` | checkpoint-restore/sandboxd/tarutil/tarutil.go:577-590 | a name is refused exactly when it is not rooted and leads, some way in, above where it began |
| `Paths.CleanSteps` | checkpoint-restore/sandboxd/tarutil/tarutil.go:577-590 | two dots undo the piece before them, a dot or nothing adds nothing, a root has nothing above it |
| `Paths.SiblingsInOrder` | checkpoint-restore/sandboxd/tarutil/tarutil.go:155-159 | the walk takes siblings, and all below them, in the order of their names |
| `Paths.DeeperIsLonger` | checkpoint-restore/sandboxd/tarutil/tarutil.go:432-436 | a path is spelled longer than any path above it |
| `Paths.ParentsFirst` | checkpoint-restore/sandboxd/tarutil/tarutil.go:155-159 | the walk enters a directory before what it holds |
| `Snapshots.SnapshotRoundTrip` | checkpoint-restore/controlplane/internal/snapshot/snapshot.go:69-101 | uploading a directory, promoting it into an empty base prefix and downloading the base gives the directory's files back, for any page size |
| `Snapshots.ShipAndRestore` | checkpoint-restore/sandboxd/s3.go:95-172 | the three operations composed |
| `Snapshots.UploadDir` | checkpoint-restore/sandboxd/s3.go:95-149 | every file of the directory, and no subdirectory, becomes its encoded object under the prefix; all other keys keep their objects |
| `Snapshots.Promote` | checkpoint-restore/controlplane/internal/snapshot/snapshot.go:69-101 | fails without change on an empty source name or an empty source; otherwise copies every listed key under its last component, in key order |
| `Snapshots.Reclaim` | checkpoint-restore/controlplane/internal/snapshot/snapshot.go:105-118 | removes exactly the keys under the base's own prefix, or some of them and no others when a call fails |
| `Snapshots.ReclaimSparesOtherBases` | checkpoint-restore/controlplane/internal/snapshot/snapshot.go:105-118 | for slash-free ids those are no other base's keys |
| `Snapshots.ReclaimUndoesPromote` | checkpoint-restore/controlplane/internal/snapshot/snapshot.go:69-118 | a promoted base lies under bases/ and its id, and reclaiming the id leaves what was there before the promotion apart from the base |
| `Snapshots.Local.DownloadPrefix` | checkpoint-restore/sandboxd/s3.go:152-172 | page by page it has the outcome of fetching the whole listing in order |
| `Snapshots.Local.DownloadOne` | checkpoint-restore/sandboxd/s3.go:190-239 | succeeds exactly for a named key whose object decodes, leaves the decoded file under the name, and touches no file but that and its temporary one |
| `Snapshots.TemporaryIsFree` | checkpoint-restore/sandboxd/s3.go:190-194 | a temporary name never hits a file already fetched, since a key comes before its own extensions |
| `Bucket.Bucket.ListKeys` | checkpoint-restore/controlplane/internal/snapshot/snapshot.go:121-142 | all keys under a prefix, each once and in order, whatever the page size |
| `Bucket.Bucket.DeletePrefix` | checkpoint-restore/controlplane/internal/gc/gc.go:379-399 | deleting page by page while listing removes exactly the keys under the prefix, or some of them and no others when a call fails |
| `Keys.DirectoriesDisjoint` | checkpoint-restore/controlplane/internal/gc/gc.go:342-348 | directories with different slash-free names hold no key in common |
| `Keys.FirstDifferenceDecides` | checkpoint-restore/controlplane/internal/snapshot/snapshot.go:121-142 | keys are ordered by the first character in which they differ |
| `Keys.NameOfOne` | checkpoint-restore/controlplane/internal/snapshot/snapshot.go:69-101 | a key without a slash is its own name |
| `Gates.FiresExactlyWhenPersisted` | checkpoint-restore/controlplane/internal/controller/worker_discovery.go:292-308 | the gate shared by the in-memory sweeps, whose clears are never lost, opens exactly when the anomaly seen now has been seen, unbroken and at one version, in every sweep of a window at least the grace long, and was not acted on in it |
| `Gates.GateTracks` | checkpoint-restore/controlplane/internal/controller/worker_discovery.go:292-330 | after any sequence of looks the mark held is the start of the current streak, and there is none when there is no streak |
| `Gates.FiresExactlyWhenHeld` | checkpoint-restore/controlplane/internal/controller/basereaper.go:104-144 | on any log of looks, lost clears included, the gate opens exactly when the current streak, taken to run on through healthy looks whose clearing was lost, is the grace old |
| `Gates.FiresEarlyExactly` | checkpoint-restore/controlplane/internal/controller/basereaper.go:169-180 | it opens for an anomaly that has not persisted exactly when such a streak holds a lost clear and no unbroken streak is that old |
| `Gates.LostClearFiresEarly` | checkpoint-restore/controlplane/internal/controller/basereaper.go:169-180 | and that happens: a log in which one healthy look's clearing is lost and a later anomaly fires early |
| `Reclaim.Reclaimer.Reclaim` | checkpoint-restore/controlplane/internal/controller/worker_discovery.go:277-330 | over any run of sweeps, with duplicates in the pod list, a release is attempted exactly for the pods whose anomaly has persisted, and only on a busy worker whose session is missing, gone, Suspended or bound to another pod at this look; a grace of zero or less turns it off |
| `Reclaim.Reclaimer.Visited` | checkpoint-restore/controlplane/internal/controller/worker_discovery.go:286-322 | one pod of a sweep: ignored, disarmed, armed, waited for or released |
| `Reclaim.SightIsOrphaned` | checkpoint-restore/controlplane/internal/controller/worker_discovery.go:235-256 | a look is anomalous exactly when the worker is busy and names no session, or one that is gone, Suspended or bound to another pod; a session that could not be read proves nothing |
| `Reclaim.ReclaimRuleIsTheSame` | checkpoint-restore/controlplane/internal/controller/worker_discovery.go:235-256 | on what is read from a table that is the protocol's reclaim rule |
| `Healer.ResumingHealer.SweepOnce` | checkpoint-restore/controlplane/internal/resume/selfheal.go:101-194 | a session is probed and healed exactly when every successful sweep for the grace has seen it Resuming; a failed listing counts for nothing |
| `Healer.ResumingHealer.Visited` | checkpoint-restore/controlplane/internal/resume/selfheal.go:115-185 | one entry of a sweep: recorded, waited for, probed, healed or left |
| `Healer.LooksRight` | checkpoint-restore/controlplane/internal/resume/selfheal.go:115-185 | an entry is stuck exactly when Resuming with an address, and healed by adopting a running sandbox or rolling back a restorable session |
| `Sweeps.Forget` | checkpoint-restore/controlplane/internal/controller/worker_discovery.go:323-328 | marks of keys the sweep did not see are dropped and no others |
| `Reaper.BaseReaper.Reconcile` | checkpoint-restore/controlplane/internal/controller/basereaper.go:95-145 | deletion of a base is attempted exactly when its stored clock has been held for the grace, and before the base has been seen unpinned and unreferenced in every counted pass that long exactly when a clearing of the clock was lost in between |
| `Reaper.ReconcileBase` | checkpoint-restore/controlplane/internal/controller/basereaper.go:104-144 | one base of a pass, for any grace: what its stored clock becomes and when it is due |
| `Reaper.RefCount` | checkpoint-restore/controlplane/internal/controller/basereaper.go:67-92 | the number of forks not past their first restore, -1 without a table, nothing when a read fails |
| `Reaper.NoneWaiting` | checkpoint-restore/controlplane/internal/controller/basereaper.go:67-92 | the count is zero exactly when no fork is missing, Suspended or Resuming |
| `Reaper.SetCondition` | checkpoint-restore/controlplane/internal/controller/basereaper.go:183-191 | replaces the first condition of the kind, or appends |
| `Reaper.SettingMovesTheClock` | checkpoint-restore/controlplane/internal/controller/basereaper.go:149-180 | so setting the condition sets the one grace clock |
| `Gc.Collector.SweepOnce` | checkpoint-restore/controlplane/internal/gc/gc.go:138-200 | a dry run changes nothing; whichever calls fail, an armed sweep removes only objects in an expired session's directory or in a session directory nothing accounts for, and an entry only if a listed entry of it is not Suspended, held by no worker and idle for the grace, or is Suspended with a snapshot past its retention, then only once its directory is empty; when no call fails it removes all of them; the counts in both modes |
| `Gc.JudgedRightly` | checkpoint-restore/controlplane/internal/gc/gc.go:202-260 | expired is exactly past a positive retention since the last checkpoint, or the last activity when none was recorded; abandoned is exactly not Suspended, held by no busy worker bound to it, and idle for a positive grace |
| `Gc.HeldSessionStays` | checkpoint-restore/controlplane/internal/gc/gc.go:232-260 | so a session its worker holds keeps its entry through any sweep, whatever its age |
| `Gc.Collector.ReapListed` | checkpoint-restore/controlplane/internal/gc/gc.go:152-174 | the session pass: who is expired, abandoned or kept, what that deletes and accounts for, and what it spares when calls fail |
| `Gc.Collector.ReapOrphans` | checkpoint-restore/controlplane/internal/gc/gc.go:175-193 | the orphan pass over the listed directories; with failures it still touches no accounted one |
| `Gc.Collector.ReapSession` | checkpoint-restore/controlplane/internal/gc/gc.go:261-286 | snapshot directory first, then the entry, which stays when the directory could not be emptied; nothing in a dry run |
| `Gc.Collector.ListDirs` | checkpoint-restore/controlplane/internal/gc/gc.go:352-376 | the session directories, each once, for any page size |
| `Gc.AccountedSurvives` | checkpoint-restore/controlplane/internal/gc/gc.go:152-193 | an object outside the session directories, or in an accounted one, goes exactly when an expired session's directory covers it |
| `Gc.KeptSnapshotSurvives` | checkpoint-restore/controlplane/internal/gc/gc.go:152-174 | so does every object in the directory of a kept session whose snapshot lies there |
| `Gc.NoKeptObjectIsLost` | checkpoint-restore/controlplane/internal/gc/gc.go:138-200 | with expired snapshots in their own sessions' directories, no object in a kept session's directory goes |
| `Gc.RolledBackForkExpires` | checkpoint-restore/controlplane/internal/gc/gc.go:202-223 | a fork never run is kept whatever its age; one that ran, lost its worker before a checkpoint and was rolled back still names the base's snapshot and expires exactly once its retention has passed since its last stamp |
| `Gc.SweepTakesTheBase` | checkpoint-restore/controlplane/internal/gc/gc.go:152-174 | so with two forks of one base a sweep that expires the first and keeps the second deletes the base's objects |
| `Gc.ExpiredForkTakesTheBase` | checkpoint-restore/controlplane/internal/gc/gc.go:342-348 | in any sweep an expired session takes every object of the snapshot it shares with a kept one |
| `Gc.DryRunPredicts` | checkpoint-restore/controlplane/internal/gc/gc.go:138-200 | unless an expired directory cuts across the listed ones, both modes report the same orphan count |
| `Gc.SnapDirOfSession` | checkpoint-restore/controlplane/internal/gc/gc.go:342-348 | the directory of a session's own snapshot is its session directory |
| `Gc.SnapDirTrims` | checkpoint-restore/controlplane/internal/gc/gc.go:342-348 | a trailing slash makes no difference to a snapshot's directory |
| `Console.PumpStream` | checkpoint-restore/sandboxd/ch_driver.go:318-353 | however its input is cut, the relay prints what the whole stream prints |
| `Console.TailConsole` | checkpoint-restore/sandboxd/runsc.go:206-268 | the same for the polling relay, which keeps reading past the cap |
| `Console.RelaysTheLinesThatFit` | checkpoint-restore/sandboxd/ch_driver.go:333-347 | the output is the longest run of complete lines within the cap, sanitised, with one note exactly when a line was dropped; so the bytes relayed never exceed the cap |
| `Console.RelaysOnlyPrintable` | checkpoint-restore/sandboxd/runsc.go:169-187 | no relayed line holds byte 127 or a byte below 32 other than 9 and 13 |
| `Console.SanitizeConsole` | checkpoint-restore/sandboxd/runsc.go:175-187 | the bytes of the line that are printable, in order |
| `Console.SanitizedKeeps` | checkpoint-restore/sandboxd/runsc.go:169-187 | a line is unchanged exactly when it holds no such byte |
| `Console.SanitizedBytewise` | checkpoint-restore/sandboxd/runsc.go:175-187 | sanitising drops exactly those bytes, one by one, and keeps all others in order |
| `Console.TakesInUpToItsEnd` | checkpoint-restore/sandboxd/ch_driver.go:318-353 | a relay takes in every byte of its reads up to and including the one at which it ends |
| `Console.SplittingIsExact` | checkpoint-restore/sandboxd/ch_driver.go:333-339 | the complete lines and the partial one make up the stream |
| `Console.NoNewlineInside` | checkpoint-restore/sandboxd/ch_driver.go:333-339 | no line split off, and no partial line held, contains a newline |
| `Console.LinesConcat` | checkpoint-restore/sandboxd/ch_driver.go:329-339 | splitting a longer stream continues from the partial line held |

## Left out

- Kubernetes clients, reconcilers and their wiring, the router, the broker, credentials, networking, mounts and the
  sandbox runtimes: plumbing or foreign calls. Only the decisions named above are kept.
- zstd and the tar byte format: taken as lossless. Payloads are modelled before compression, archives as entries, and
  extended attributes by their own names rather than under their record prefix.
- Extraction of archives not written by this code: modelled, but only confinement (`Paths.CleanedStaysInside`) and what
  one entry replaces are claimed.
- Extract.Extract: the file system is a value threaded through the entries, not an object changed in place; process
  umask, quotas and input or output errors are not modelled. A path is taken to need every directory above it to be open
  to its owner.
- TarRoundTrip.ArchiveRoundTrip: hard links between nodes that are not regular files become separate nodes, and a
  symbolic link keeps owner and target only, as in the source. A time that rounds to the zero time is not restored.
- Merge.Disk.MergeDeltaIntoBase: base and delta are taken to be different files whose names do not clash with the
  temporary ones, as the two directories of the caller guarantee; errors of the disk are not modelled.
- Snapshots.Promote: errors of single copies, after which some copies remain, are not modelled; nor are upload and
  download errors of the object store. Errors of deletions are.
- Gc.Collector.SweepOnce: the custom resources, both a reaped session's and the pass over orphaned ones, are not
  modelled; a listing of the sessions that fails ends the sweep before it starts. The orphan count is stated for sweeps
  without failures only.
- Gc.Collector.ReapSession: the reaped session's custom resource is not modelled.
- Reaper.BaseReaper.Reconcile: asks for a positive grace and a clock that does not run backwards within a pass;
  `Reaper.ReconcileBase` does not. The reported reference count is not modelled, and a deleted base is gone at once.
- FailedRestores.FailedRestoresChangeNothing: restores of one session that overlap, and a rollback that the store
  refuses, which leaves the entry Resuming for the healer, are outside its runs; `Restore.Undo` covers the latter.
- The durable mirror: a growing set of the entries handed to it, any of which the rebuild may write back with version 0,
  rather than the latest status of each session; that a handed-over entry arrives is not modelled.
- Discovery's refresh of a busy worker's address: its branch never fires on a stored busy worker.
- Number precision of the scripting language and of JSON, and 64-bit wrap-around of times and counters outside the codec.
- Liveness: nothing is claimed about when a sweep, a retry or a resume is scheduled.
