# The host updater of BASSWIESN, verified

The host updater replaces a live installation (files, data, container, enrollment) by a new
release, or puts the original back. It runs on a single machine, keeps a journal, and has to be right for
every failure and every crash. This project is a model of that updater in Dafny, and a proof of what
it promises; `dafny verify dfyconfig.toml` checks all of it.

The model follows the layers of the program:

- **Journal** (`History`, `JournalFile`, `JournalLaws`). The transition relation as the module
  builds it, the whole-history validator, and the class that reads and atomically replaces the file
  under a process lock and a failure latch. A replace that reports an error may have happened.
- **Transaction** (`Transaction`, `TransactionLaws`, `Runner`). The runner as a machine whose moves
  are requests, host answers, disk operations, lock failures, kills and restarts. All freedom of
  the outside world is in the sequence of moves, so a lemma about every sequence is about every
  placement of failures and crashes. `Runner` is the straight-line code with its exception path; it
  carries a ghost copy of the machine and is proved to follow it.
- **Cutover** (`Trees`, `Cutover`, `CutoverLaws`). Two generations of files exchanged entry by entry,
  interruptible, resumable and reversible from any point, with a candidate that changes its own
  files in between.
- **Host executor** (`HostExecutor`). Containers, the enrollment file, the files and the memory of
  the adapter. Every outside step works, fails before, or fails after it took effect; a crash is a
  failure that nobody handles. The methods are proved against the contract of the executor
  protocol for every such sequence, and against the exact steps that must work for them to succeed.
- **System** puts the machine, the host and an installation that keeps writing its own data
  together, and proves that the journal never lies about the host: what COMPLETE, RESTORED and
  FAILED mean on the machine, that the originals survive every moment down to the last byte of data
  that the original wrote, that every restore can succeed, and that two generations never run at once.
- **Snapshots** (`Inventory`, `InventoryLaws`, `FileSystem`, `Snapshot`, `ManifestText`, `Copies`,
  `Preparation`). The recursive walk with its limits and object numbers, the manifest validator, the
  kernel operations on a new directory, and the round trip from an installation to a manifest and back.
  `SnapshotCases` has the inputs at the edges of the format; `Copies` and `Preparation` lead from a
  snapshot and a staged release to the generation that a cutover installs.
- **Staging** (`Staging`), **locations** (`Locations`), **service** (`Service`, `Listener`) and the
  **flight recorder** (`Recorder`) are smaller cores of their own.

A few conventions. A hash is an injective constructor over the bytes it was computed from. Paths
are lists of components; `Locations` proves that the text tests of the program agree with that. A
directory is a sorted list of named trees, and a directory of entries with identities is a map from
names to inodes. Clocks are arbitrary inputs. In `System` a restart makes the adapter forget which plan
it was working on, and every action compares that first, so the rest of its memory is out of use. The
ghost fields `base`, `enrolled` and `prepared` of the host only record what was found, and `start` and
`own` of the system record the host at the request and the files as the original itself has left them
since: `own` takes over what the original writes while it is up, and nothing else.

Where the program does something a reader might not expect, the model does it too:

- A whole-tree check of a staged release looks at nothing when the index has no entry at all
  (`Staging.FlatIsWhole`); an archive with any member names the top directory, or the check fails.
- A capture does not look at modification times, but the validator refuses negative ones, so a
  capture of files from before 1970 is refused by its own verification (`Snapshot.CapturedIsValid`
  has the exact condition, `SnapshotCases.OldTimesAreRefused` the files).
- A capture within all limits of the walk is still refused when the text of its manifest is longer
  than 16 MiB (`Snapshot.CapturedIsValid` has the exact condition, `SnapshotCases.LongNamesAreRefused`
  the installations).
- A manifest is trusted with any one-to-one numbering of its copies, but its rebuilt tree is refused
  unless the numbers follow the walk (`Snapshot.Materialize` has the exact condition,
  `SnapshotCases.RenumberedIsRefused` the manifests).
- A forward exchange that was interrupted after its marker was written cannot be completed again
  (`Cutover.Installation.Exchange` has the exact condition, `CutoverLaws.AppliedIsFinal` the states).
- A recorder limit below one segment keeps no archive (`Recorder.Archive.Append`), and a rotation
  fails when an archive of the same microsecond exists (`Recorder.Archive.Rotate`).

## Model

| member | source | states |
|---|---|---|
| Protocol.NewerMeans | basswiesn/update_helper/protocol.py:78-81 | for versions that can be requested, the comparison part by part is the comparison of the numbers they spell |
| Protocol.VersionMeans | basswiesn/update_helper/protocol.py:60-63 | the parts of a version are exactly the numbers of at most four digits |
| Protocol.DigestMeans | basswiesn/update_helper/protocol.py:66-69 | a digest is exactly a text of 64 lower-case hexadecimal digits |
| Protocol.RequestIdMeans | basswiesn/update_helper/protocol.py:72-75 | a request identifier is exactly five hyphenated groups of hexadecimal digits of 8, 4, 4, 4 and 12, with the version and variant of a random UUID |
| History.BuildNext | basswiesn/update_helper/journal.py:33-38 | the table assembled by the module-level loops, read with an empty default, is exactly the transition relation, state by state |
| History.RankFalls | basswiesn/update_helper/journal.py:33-38 | along any history that follows the relation a rank falls strictly from event to event |
| History.HistoryIsShort | basswiesn/update_helper/journal.py:77-94 | hence no state is entered twice and a history has at most 13 events: the bound of 32 never decides |
| History.NoFailureAfterStop | basswiesn/update_helper/journal.py:30-38 | once a history has left the states before the stop it can never reach FAILED or return to them |
| History.ValidateJob | basswiesn/update_helper/journal.py:57-100 | the loop over the events, with its early rejections, accepts a job exactly when it is well formed (both directions) |
| History.Validate | basswiesn/update_helper/journal.py:50-102 | the loop over all jobs accepts exactly the valid journals: distinct identifiers, at most one active job, and that one last |
| History.ValidFits | basswiesn/update_helper/journal.py:238-240 | the text of every valid journal of up to 128 jobs is shorter than the size limit, so the size can never refuse a write in mid-transaction |
| JournalFile.Journal.Acquire | basswiesn/update_helper/journal.py:186-204 | who gets in, with which refusal, for every state of the two locks and of the failure latch; a refusal leaves the holder alone |
| JournalFile.Journal.Read | basswiesn/update_helper/journal.py:214-230 | returns the file only if it is readable, small enough and valid |
| JournalFile.Journal.Save | basswiesn/update_helper/journal.py:232-257 | refuses everybody but the owner of the lock; otherwise an atomic replace that, when it reports an error, may have happened or not, and latches the failure |
| JournalFile.Journal.Begin | basswiesn/update_helper/journal.py:259-277 | the two loops and the capacity test do what the step function of the laws below says, for every behaviour of the disk |
| JournalFile.Journal.Transition | basswiesn/update_helper/journal.py:279-298 | the same for one transition, including the digests that only two transitions may carry |
| JournalFile.Journal.RecoverInterrupted | basswiesn/update_helper/journal.py:300-308 | the loop over all jobs comes down to at most one transition of the last job, and releases the lock on every path; without the process lock, for whatever reason it is refused, nothing is read or written |
| JournalLaws.NewJobKeepsValid | basswiesn/update_helper/journal.py:267-276 | a new job is accepted by the validator if and only if the clock is in range |
| JournalLaws.MovedKeepsValid | basswiesn/update_helper/journal.py:279-297 | an allowed transition of a valid journal is one of the last job, and the result is valid if and only if the clock is in range |
| JournalLaws.BeginOutcome | basswiesn/update_helper/journal.py:259-277 | for every disk behaviour the file stays valid and only grows; a job is reported created only when it is on disk, was unknown, and nothing was active |
| JournalLaws.BeginReadsOnly | basswiesn/update_helper/journal.py:261-268 | a known identifier, or an active job, lets it write nothing |
| JournalLaws.BeginCodes | basswiesn/update_helper/journal.py:214-277 | every answer of a reservation, each if and only if its condition on the file, the request, the clock and the disk holds: in particular a new request is reserved exactly when the file can be read, nothing has its identifier, every earlier job is COMPLETE, RESTORED or FAILED, there is room, and the write goes well |
| JournalLaws.TransitionOutcome | basswiesn/update_helper/journal.py:279-298 | the file stays valid and only grows; the capacity error is impossible and the validator refuses only for the clock |
| JournalLaws.TransitionGoes | basswiesn/update_helper/journal.py:279-298 | on a healthy disk an allowed transition is never refused |
| JournalLaws.TransitionCodes | basswiesn/update_helper/journal.py:279-298 | every answer of a transition in the same way; a successful one changes the last job in its state, in the one digest that the state records, and by one event that says when and why |
| JournalLaws.RecoveryOutcome | basswiesn/update_helper/journal.py:300-308 | recovery keeps the file valid and append-only, makes every job terminal when it reports success, and is never refused by the transition relation |
| JournalLaws.RecoveryRecords | basswiesn/update_helper/journal.py:300-308 | what recovery writes: FAILED with INTERRUPTED_BEFORE_CUTOVER for a job in one of the four states before the stop, MANUAL_ACTION_REQUIRED with RECOVERY_REQUIRED for any other |
| JournalLaws.RecoveryIdempotent | basswiesn/update_helper/journal.py:300-308 | it always succeeds on a healthy disk, and repeating it changes nothing |
| TransactionLaws.StepKeeps | basswiesn/update_helper/transaction.py:117-185 | one move of the service (request, host answer, disk operation, lock failure, kill, restart) keeps the invariant and only extends the journal |
| TransactionLaws.Reachable | basswiesn/update_helper/transaction.py:97-185 | the invariant holds after every sequence of moves |
| TransactionLaws.WriteAhead | basswiesn/update_helper/transaction.py:143-170 | whenever a host action is invoked, the journal on disk ends with this request in exactly the state that announces it, and the action was never invoked for this request before |
| TransactionLaws.AtMostOnce | basswiesn/update_helper/transaction.py:97-115 | no host action is repeated for a request over any mixture of duplicates, failures, crashes and restarts |
| TransactionLaws.FailedMeansUntouched | basswiesn/update_helper/transaction.py:171-174 | a request reported as FAILED never had its installation stopped, started or restored |
| TransactionLaws.RestartReconciles | basswiesn/update_helper/journal.py:300-308 | after a restart every request that touched the installation is COMPLETE, RESTORED or waiting for an operator; an interrupted one waits |
| TransactionLaws.ManualIsFinal | basswiesn/update_helper/journal.py:267-268 | once a request waits for an operator nothing is written or invoked any more, whatever happens |
| TransactionLaws.JournalOnlyGrows | basswiesn/update_helper/journal.py:259-298 | no job, event or digest is ever lost or rewritten, over any history |
| TransactionLaws.RestoreHasBackup | basswiesn/update_helper/transaction.py:154-177 | at every restore a candidate may have started exactly when there is a receipt, its digest is the journalled one, and without one no candidate was started |
| TransactionLaws.DuplicateIsIdempotent | basswiesn/update_helper/transaction.py:106-114 | a repeated identifier executes nothing and writes nothing; it is acknowledged again exactly when it names the recorded versions and the service can read its journal, so a reused one is neither acknowledged nor accepted |
| TransactionLaws.AcknowledgedIsDurable | basswiesn/update_helper/transaction.py:106-112 | an acknowledged request is in the journal forever after |
| TransactionLaws.RunnerNeverRefused | basswiesn/update_helper/transaction.py:134-182 | on a healthy disk the journal never refuses the runner: it advances in program order or leaves a finished job |
| TransactionLaws.ComplaintIsReported | basswiesn/update_helper/transaction.py:83-89 | a run goes on exactly when nothing is wrong with the answer of the host; otherwise, from any reachable point, a healthy disk soon has the request FAILED (before the stop) or ROLLING_BACK (after it) under the code of that very action or receipt, and a rollback that goes wrong is left to an operator |
| TransactionLaws.UndisturbedFinishes | basswiesn/update_helper/transaction.py:117-182 | from any point, a run that nothing disturbs any more finishes within 27 moves: COMPLETE on the way forward, otherwise FAILED or RESTORED, decided by whether it had passed the stop; only a run whose restore has already failed ends in MANUAL_ACTION_REQUIRED |
| Runner.TransactionRunner.Replace | basswiesn/update_helper/transaction.py:149-168 | the downtime (stop, backup, start, verify) follows the machine and keeps the receipt and the started flag for the exception path |
| Runner.TransactionRunner.Ask | basswiesn/update_helper/transaction.py:83-89 | a host action moves the code exactly as it moves the machine |
| Runner.TransactionRunner.Record | basswiesn/update_helper/transaction.py:122-123 | the code goes on only if the state is durable, a healthy disk always takes it, and what is handed out is what the journal holds, with the reason in its last event |
| Runner.TransactionRunner.Forward | basswiesn/update_helper/transaction.py:142-170 | the guarded straight-line part follows the machine, asks the host exactly about an upgrade, and hands the exception path the two local variables it reads |
| Runner.TransactionRunner.Unwind | basswiesn/update_helper/transaction.py:171-182 | the exception path follows the machine and ends in FAILED, RESTORED or MANUAL_ACTION_REQUIRED, each with its reason; a request that was only reserved is failed without a question to the host |
| Runner.TransactionRunner.Execute | basswiesn/update_helper/transaction.py:97-115 | who is turned away, with which code and without any effect; everyone else has a reservation attempted and is answered as it is found; a new one is run exactly as host and disk have it, and is reported as done if and only if its final state is on disk and its write was seen to succeed; the host is called for it if and only if the target is the greater version, by number, and any other one ends FAILED with NOT_AN_UPGRADE |
| Service.UpdateService.Handle | basswiesn/update_helper/service.py:21-36 | an unknown peer or an untrusted credential reaches neither the journal nor the host; every reply that does not depend on a run is given exactly, the one to a status query included; a new trusted update is run, and accepted if and only if it is done |
| Service.UpdateService.Serve | basswiesn/update_helper/service.py:53-96 | exactly one message is attempted unless the process dies: the rejection of what cannot be read, or the acknowledgement of a job that is in the journal, or else the reply |
| Listener.SlotsAreConserved | basswiesn/update_helper/daemon.py:39-68 | under any interleaving free slots and handlers in flight add up to the workers |
| Listener.OneReplyEach | basswiesn/update_helper/service.py:62-96 | every finished handler sent exactly one reply, none sends two, a turned-away client gets none |
| Listener.OnlyOwnerWrites | basswiesn/update_helper/journal.py:186-234 | at most one handler is inside the journal lock, only that one changes the journal, and it acknowledges only after its reservation is written |
| Listener.ArrivalIsServed | basswiesn/update_helper/daemon.py:49-68 | a new client is served exactly if fewer handlers are in flight than there are workers and the pool takes one more; one that is turned away changes nothing for the others |
| Listener.LockIsTaken | basswiesn/update_helper/journal.py:186-204 | the lock goes to whoever asks while nobody is inside; anybody else is answered at once and has written nothing |
| Listener.HandlerRunsThrough | basswiesn/update_helper/daemon.py:49-68 | with a free slot and a free lock a client is served to the end: its job written, told once, slot and lock free again |
| Trees.ListIsWalk | basswiesn/update_helper/installation_snapshot.py:147-198 | a flat listing has exactly the paths that can be walked, each with the metadata, size and hash at the end of the walk |
| Trees.ListDetermines | basswiesn/update_helper/installation_snapshot.py:143-218 | equal listings come from equal trees: names, structure, metadata and bytes |
| Cutover.Installation.Rename | basswiesn/update_helper/installation_cutover.py:58-72 | an exchange, or a rename that never replaces, exactly when the kernel can do it; a failing flush reports an error after it took effect |
| Cutover.Installation.RenameAll | basswiesn/update_helper/installation_cutover.py:301-311 | from any partial exchange the loop moves the boundary between the generations one name at a time and never disturbs another name; each rename follows at once on a look that found nobody writing, and only a failing step stops it |
| Cutover.Installation.Exchange | basswiesn/update_helper/installation_cutover.py:264-319 | conservation of the entry pairs, the prefix of exchanged names, no rename after a refused check or a finished rollback, installed contents on success; each rename directly, and the marker after the last of them, behind a look that found nobody writing, and nothing at all happens if the first look finds a writer; no step of a call that completes has failed; when no step fails the answer, with its reason, is decided by the checks and the markers alone |
| CutoverLaws.PerNameIsWhole | basswiesn/update_helper/installation_cutover.py:257-261 | comparing every top-level name with its part of the plan accepts exactly when the whole directory equals the plan |
| CutoverLaws.StepIsSafe | basswiesn/update_helper/installation_cutover.py:276-319 | safety is kept by every interrupted, resumed or reversed exchange and by every change the candidate makes to its own generation |
| CutoverLaws.AlwaysSafe | basswiesn/update_helper/installation_cutover.py:276-319 | over any run the candidate holds a prefix of the sorted names, no entry is lost or duplicated, and every original content is as it was |
| CutoverLaws.MarkerIsFinal | basswiesn/update_helper/installation_cutover.py:275-277 | once the marker of a finished rollback exists no entry is ever renamed |
| CutoverLaws.RollbackIsExact | basswiesn/update_helper/installation_cutover.py:278-319 | a rollback that reports success, after any run, puts back the original entries and contents and keeps the changed candidate generation aside |
| CutoverLaws.AppliedIsFinal | basswiesn/update_helper/installation_cutover.py:277-316 | once the marker of a forward exchange took effect every check would pass again, and yet the exchange can never complete a second time |
| CutoverLaws.AppliedIsRefused | basswiesn/update_helper/installation_cutover.py:314-316 | one exchanged entry with its marker written: admissible, not to be completed forward, and still to be rolled back |
| HostExecutor.PreparedIsSound | basswiesn/update_helper/installation_cutover.py:203-231 | for whatever was copied (`Preparation.CopiesAreOffered`), a recorded plan has both generations in their places, touches nothing live, records the originals as they are, has as its new entries exactly the release and the live data and environment, and its exchange can be completed |
| HostExecutor.ContentsSelected | basswiesn/update_helper/installation_cutover.py:203-222 | the part of a plan under one name is the listing of that name alone |
| HostExecutor.RolledBackFiles | basswiesn/update_helper/installation_cutover.py:302-319 | when every name is back, the live directory is the one found at the beginning, with its contents |
| HostExecutor.FilesOkKeepsOriginals | basswiesn/update_helper/installation_cutover.py:264-319 | in every state that exchanges can reach, each original entry is live or set aside, unchanged |
| HostExecutor.OriginalIsChecked | basswiesn/update_helper/installation_cutover.py:279-291 | wherever exchanges and a writing candidate have left it, each planned name still passes the check of a rollback |
| HostExecutor.ReadyCanRestore | basswiesn/update_helper/host_executor.py:274-302 | from every state in which an update can fail, a rollback has all that it needs; the credentials count exactly when the live data is the candidate's |
| HostExecutor.ProductionExecutor.CurrentVersion | basswiesn/update_helper/host_executor.py:62-66 | the enrolled version, exactly when its container runs the enrolled image and can be inspected |
| HostExecutor.ProductionExecutor.Health | basswiesn/update_helper/host_executor.py:205-235 | accepts exactly when the container runs the image and, of the polls there is time for, the first whose probe comes back is answered; every poll is inspected first |
| HostExecutor.ProductionExecutor.Preflight | basswiesn/update_helper/host_executor.py:68-93 | changes nothing but the memory of the adapter, roots a new update in what it found, and succeeds exactly when the expected installation runs, is still the one found first, and no step fails |
| HostExecutor.ProductionExecutor.PrepareCandidate | basswiesn/update_helper/host_executor.py:104-110 | the receipt names the archive that was built, and is given exactly when no step fails; what was built is remembered before the receipt can fail |
| HostExecutor.ProductionExecutor.StopOriginal | basswiesn/update_helper/host_executor.py:112-118 | stops the original container exactly when the installation was found as expected once more, also if the command then reports a failure; returns exactly when all of it went well, and then the original is down |
| HostExecutor.ProductionExecutor.BackupOriginal | basswiesn/update_helper/host_executor.py:120-127 | a capture that fails leaves no backup and gives no receipt; one that works is remembered, and its receipt, given exactly when nothing fails, names its manifest |
| HostExecutor.ProductionExecutor.Create | basswiesn/update_helper/host_executor.py:129-176 | at most one labelled, stopped container more, also when the reply is lost; which steps must work for it to be used, and for its identity to be remembered, exactly |
| HostExecutor.ProductionExecutor.Enroll | basswiesn/update_helper/host_executor.py:237-248 | replaces the enrollment exactly from the expected policy and behind a written temporary file, and may have done so when it fails |
| HostExecutor.ProductionExecutor.StartCandidate | basswiesn/update_helper/host_executor.py:186-203 | however it ends the original can be put back, and a candidate that runs has found the release and the data and environment of the original; with a foreign receipt, a failed validation or a failed preparation nothing live and no container changes; on success the exchange is complete, the candidate of the named archive runs, and no step has failed but the reply to its creation; it succeeds when the receipts match and no step fails |
| HostExecutor.ProductionExecutor.VerifyCandidate | basswiesn/update_helper/host_executor.py:250-265 | on success every entry is the candidate, it is enrolled and runs, and the original container is gone; otherwise the original can be put back; it succeeds exactly when the candidate runs, its probe is answered in time, enrollment and removal go well, and the probe is answered again; a candidate that never answers is not enrolled and the original container stays |
| HostExecutor.ProductionExecutor.RestoreOriginal | basswiesn/update_helper/host_executor.py:274-302 | on success files, enrollment and container are the original again, it has been started, no candidate runs, and no step has failed but the reply to a creation; on failure every original entry is preserved; it succeeds whenever the outside world, the originals and the credentials allow |
| HostExecutor.ProductionExecutor.VerifyOriginal | basswiesn/update_helper/host_executor.py:304-311 | succeeds exactly when the probe of the restored original is answered in time and the container of the candidate, if there is one, is looked at and removed; an original that never answers does not count as restored, and nothing is removed |
| HostExecutor.ProductionExecutor.Perform | basswiesn/update_helper/transaction.py:41-74 | every action, in the situation in which the runner invokes it, meets the contract of the executor protocol for every placement of failures; without failures the two actions of a rollback return |
| System.ActionEntered | basswiesn/update_helper/transaction.py:142-177 | the runner invokes an action only in the situation its contract is written for |
| System.StepInv | basswiesn/update_helper/transaction.py:117-185 | one step of runner, journal, host or installation keeps the agreement between journal and host |
| System.AlwaysStands | basswiesn/update_helper/transaction.py:97-185 | the agreement holds at every moment of every behaviour |
| System.CompleteMeansUpdated | basswiesn/update_helper/host_executor.py:250-265 | COMPLETE in the journal: the planned entries are those of the release that the journalled archive was staged and built as, the data and the environment; each holds the candidate with the original set aside, and the live entries of the release are exactly the release; the enrollment names a running container of the target version with the image built from that archive; the original container is gone |
| System.RestoredMeansOriginal | basswiesn/update_helper/host_executor.py:274-311 | RESTORED in the journal: the live entries are those of the start, each with the content in which the original itself left it, the data included; the enrollment is the one of the start up to the identity of its container; it runs, and no candidate does |
| System.FailedMeansUnchanged | basswiesn/update_helper/transaction.py:171-174 | FAILED in the journal: containers, enrollment and entries are as they were, with the contents in which the original itself left them |
| System.OriginalsSurvive | basswiesn/update_helper/transaction.py:53-54 | at every moment, also after any crash, each original entry is live or set aside, and everything, the data included, has the content in which the original itself left it |
| System.OnlyOriginalWrites | basswiesn/update_helper/transaction.py:53-59 | what counts as left by the original changes only while the original is up, only in its data, and only to what it then has |
| System.StoppedDataSurvives | basswiesn/update_helper/transaction.py:53-59 | while the original is not up, over any steps of updater, host and candidate, everything it left stays exactly as it is |
| System.CandidateStartsFromOriginal | basswiesn/update_helper/host_executor.py:186-203 | however the start ended, a candidate that runs afterwards has as its live files the release, and the data and environment of the stopped original |
| System.NeverTwoWriters | basswiesn/update_helper/transaction.py:57-59 | from the stop request on the original and the candidate are never up together |
| System.RestoreIsNeverRejected | basswiesn/update_helper/host_executor.py:275-288 | the rejections of a foreign plan, of a mismatched receipt and of a missing anchor are unreachable |
| System.RestoreSucceeds | basswiesn/update_helper/host_executor.py:274-302 | every restore that the runner reaches can be performed, whatever failed before it; only changed credentials can refuse it, exactly when the live data is the candidate's |
| System.RestoreEndsRestored | basswiesn/update_helper/transaction.py:176-182 | every restore that the runner reaches, when no step outside fails and the credentials are unchanged, goes through both of its actions, whatever the original writes in between, and leaves the original back and running |
| Inventory.HashFile | basswiesn/update_helper/installation_snapshot.py:122-140 | succeeds exactly up to the limit, with the hash, length and a complete copy, and never copies more than the limit |
| Inventory.Walk.Visit | basswiesn/update_helper/installation_snapshot.py:147-198 | succeeds exactly when the whole subtree fits, whatever the order in which the limits are noticed, and adds exactly its entries, copies and totals |
| Inventory.Walk.VisitAll | basswiesn/update_helper/installation_snapshot.py:162-171 | counting the names first refuses nothing that would have fitted |
| Inventory.Walk.Take | basswiesn/update_helper/installation_snapshot.py:200-218 | the inventory of several places is all or nothing and fits exactly when they fit together |
| Inventory.NumberedIsListed | basswiesn/update_helper/installation_cutover.py:75-77 | apart from the object numbers an inventory is the flat listing of the tree |
| Inventory.NumbersInOrder | basswiesn/update_helper/installation_snapshot.py:170-176 | the object numbers follow the order of the paths |
| InventoryLaws.PlacesSealed | basswiesn/update_helper/installation_snapshot.py:173-187 | a capture numbers its files 0 to n - 1, once each, and has the intact copy of every one |
| InventoryLaws.FitPlacesMeans | basswiesn/update_helper/installation_snapshot.py:151-174 | the limits met along the way are the limits met by the whole |
| InventoryLaws.PlacesAllowed | basswiesn/update_helper/installation_snapshot.py:84-120 | places are taken exactly if every entry at and below them has an allowed path (by its text), owner, mode (bit by bit) and size, and the totals are within the limits |
| InventoryLaws.PlacesWalk | basswiesn/update_helper/installation_snapshot.py:209-218 | an inventory of several places has exactly the paths that can be walked at or below them |
| InventoryLaws.PlacesInOrder | basswiesn/update_helper/installation_snapshot.py:209-218 | over several places the numbers follow the places, and the order of the paths within each |
| InventoryLaws.OrderDetermines | basswiesn/update_helper/installation_snapshot.py:173-187 | the same entries can be numbered densely in the order of the walk in one way only |
| FileSystem.PutNode | basswiesn/update_helper/installation_snapshot.py:404-415 | what every path finds after an entry was created: the entry, its touched parent, and everything else unchanged |
| FileSystem.Output.MakeAll | basswiesn/update_helper/installation_snapshot.py:404-408 | creating directories in the order of their depth succeeds exactly when no parent is missing |
| Snapshot.Validate | basswiesn/update_helper/installation_snapshot.py:298-340 | the loop over the entries accepts exactly the trusted manifests |
| Snapshot.ManifestHouses | basswiesn/update_helper/installation_snapshot.py:309-325 | a trusted manifest describes a real tree: every entry hangs at a directory and nothing hangs at a file |
| Snapshot.CapturedIsValid | basswiesn/update_helper/installation_snapshot.py:242-285 | every capture within the limits is trusted again if and only if its configuration is what was enrolled, its times and groups can be restored, and the text of its manifest is not too long |
| Snapshot.TrustedMeans | basswiesn/update_helper/installation_snapshot.py:242-340 | the same entry by entry and in numbers: an installation is captured and its capture trusted exactly if every entry of the five configuration files and the data directory can be recorded, each configuration file is a file with its enrolled hash and the data a directory, and there is not too much of it |
| ManifestText.LengthOfText | basswiesn/update_helper/installation_snapshot.py:268-272 | the text of a manifest, with its escapes and digits and in whatever order of its entries, has the length that the limit is about |
| Snapshot.VerifyObjects | basswiesn/update_helper/installation_snapshot.py:343-366 | the stored copies are exactly those the manifest names, each with its length and hash |
| Snapshot.CopyFiles | basswiesn/update_helper/installation_snapshot.py:411-429 | every file finds its directory and is new there |
| Snapshot.FinishDirectories | basswiesn/update_helper/installation_snapshot.py:430-440 | directories get their final metadata only after the last creation below them |
| Snapshot.Readback | basswiesn/update_helper/installation_snapshot.py:441-444 | the readback of a rebuilt tree stays within the limits and can differ from the manifest only in the numbers |
| Snapshot.Materialize | basswiesn/update_helper/installation_snapshot.py:383-451 | a trusted manifest is always realised, entry for entry; the readback then accepts if and only if its numbers follow the order of the walk |
| Snapshot.RoundTrip | basswiesn/update_helper/installation_snapshot.py:242-451 | capture then materialize gives at every place the same tree, with bytes and metadata, and the same inventory, number for number, in the order of the walk; for every capture whose manifest can be written and trusted |
| SnapshotCases.OldTimesAreRefused | basswiesn/update_helper/installation_snapshot.py:318-321 | the smallest installation, with any time on its environment file, fits and its manifest can be written; it is trusted again if and only if that time is not before 1970 |
| SnapshotCases.LongNamesAreRefused | basswiesn/update_helper/installation_snapshot.py:268-272 | installations with some 19990 small files with long names fit the default limits, with times and configuration in order, and are refused for the length of their manifest |
| SnapshotCases.SampleIsTrusted | basswiesn/update_helper/installation_snapshot.py:242-285 | the capture of that installation, with time 0, is a trusted manifest in walk order |
| SnapshotCases.RenumberedIsRefused | basswiesn/update_helper/installation_snapshot.py:327-340 | for every trusted manifest in walk order there is another one for the same installation that is trusted and cannot be rebuilt |
| Copies.Copy | basswiesn/update_helper/installation_cutover.py:98-137 | the copy is exactly the entries, with preserved or normalised metadata, and fails exactly when a source changed |
| Copies.CopyPrivate | basswiesn/update_helper/installation_cutover.py:183-202 | the private part of a snapshot is copied as it is, exactly when the snapshot is trusted |
| Copies.PrivateCopyIsOriginal | basswiesn/update_helper/installation_cutover.py:199-202 | the candidate starts from exactly the data and environment of the original: the same trees |
| Copies.CopyRelease | basswiesn/update_helper/installation_cutover.py:175-198 | the staged release is copied exactly when it fits; at and below every name the copy has the bytes and times of the release, the owner of the installation, mode 0755 for directories and whatever its owner may execute and 0644 for other files, and there is nothing else in it |
| Copies.ReleaseCopyIsNormal | basswiesn/update_helper/installation_cutover.py:98-137 | a complete copy of an inventory of the release is the release itself, normalised, name by name and tree by tree |
| Preparation.CopiesAreOffered | basswiesn/update_helper/installation_cutover.py:184-231 | the copy of the release and the private copy of the snapshot, put side by side under new identities, are exactly what the exchange is prepared from: the release, and the live data and environment |
| Staging.FlatIsWhole | basswiesn/update_helper/artifact_staging.py:226-250 | the directory-by-directory check accepts exactly the trees that equal the index at every depth; the one exception is an index without any entry |
| Staging.Gather | basswiesn/update_helper/artifact_staging.py:227-230 | the table of expected names is complete, and a name without a known parent is an error |
| Staging.VerifyTree | basswiesn/update_helper/artifact_staging.py:226-251 | the three loops accept exactly what the flat check describes |
| Staging.Scan | basswiesn/update_helper/artifact_staging.py:218-223 | the index of the archive, unless a member belongs to a running installation |
| Staging.PolicyMeans | basswiesn/update_helper/artifact_staging.py:148-160 | the tests on names and prefixes reject exactly the members of a running installation: its private directories, environment, caches, databases and logs, and overrides of the compose file |
| Staging.Extract | basswiesn/update_helper/artifact_staging.py:254-278 | an archive is extracted if and only if it has no member that belongs to a running installation and all parent directories; then the tree is the archive, with private modes, its bytes, and nothing else |
| Locations.OverlappingMeans | basswiesn/update_helper/installation_snapshot.py:228-231 | the text tests hold exactly when one location is the other or contains it |
| Locations.SpansMeans | basswiesn/update_helper/local_docker.py:254-258 | the same for mounts, with any trailing separators and for the root of the file system |
| Locations.SelectionMeans | basswiesn/update_helper/installation_cutover.py:259 | selecting entries by text selects exactly those whose first component is the name |
| Locations.ConfirmStopped | basswiesn/update_helper/local_docker.py:215-263 | accepts exactly when the original has exited and its whole inspection stays the same, the running containers are stable, none has a writable mount that spans the installation, and all of it was seen in time |
| Locations.QuiescentMeans | basswiesn/update_helper/local_docker.py:215-263 | what is accepted, spelled out: the exit state field by field, the same running containers, and no writable mount whose location contains the installation or lies in it |
| Recorder.KeptMeans | tools/pi_observer.py:141-148 | an archive survives if and only if it is less than fourteen days old and it and all newer ones fit together |
| Recorder.Archive.Rotate | tools/pi_observer.py:125-148 | a due segment moves whole into a new archive, and the loop with its running total keeps exactly the survivors of the closed form |
| Recorder.Archive.Append | tools/pi_observer.py:111-123 | each of the four outcomes exactly when its condition holds; a new segment is begun when the current one has 8 MiB or is an hour old; after every stored record the archives are those that retention keeps, they fit beside one segment, everything together is below the limit plus one segment, and every archive is young, whatever the directory held before |
| Recorder.Observer.TailFiles | tools/pi_observer.py:160-176 | the loop over at most sixteen files advances every mark and emits every chunk as the step function says, one sample after the other |
| Recorder.FilesAreSeparate | tools/pi_observer.py:166-175 | a sample advances each file by itself |
| Recorder.EmittedIsContiguous | tools/pi_observer.py:168-175 | over any run of a growing log the chunks are one contiguous piece from the first offset to the mark; a sample short of the end has taken a full chunk |
| Recorder.SamplesAreContiguous | tools/pi_observer.py:160-176 | over all samples of an observer, with any other files beside it and the cut after sixteen: the chunks of a log that only grows are one contiguous piece of it, in order, without gap or overlap, up to its mark |
| Recorder.RotatedIsContiguous | tools/pi_observer.py:160-176 | when another file takes the place of a log, or it is cut off behind the mark, the chunks go on with one contiguous piece of the new one from its very beginning |

## Left out

- The JSON codec and its type checks: the journal, plans and manifests are values. The lengths of the journal's and a manifest's text are modelled, their parsing is not.
- Versions are triples of numbers and error codes are constructors; their spelling is only modelled where its length matters.
- Ownership, permission, symbolic-link, link-count and extended-attribute checks of opened files: "the opened file is the named regular file" is an assumption about the file system. Owners and modes that are recorded and restored are modelled.
- A tree does not change while it is walked; the identity checks that notice a concurrent writer are not modelled. The guard that nobody writes is (`Locations.ConfirmStopped`).
- The eight-digit spelling of object numbers is taken to be one-to-one.
- Time limits and deadlines of walks, hashing and commands: running out of time is one of the failures an outside step can have.
- Power loss after a failed directory flush: whether the replace survives is decided when the flush fails.
- HostExecutor.ProductionExecutor.PrepareCandidate: which release was staged and built from is an input of the host; that staging extracts an archive, that copying normalises it and that the copies are what is installed is proved on its own (`Staging.Extract`, `Copies.CopyRelease`, `Preparation.CopiesAreOffered`).
- HostExecutor.ProductionExecutor.Health: how many polls there is time for is an input; what the probe and the inspection look at beyond the running image is left to them.
- HostExecutor.ProductionExecutor.StartCandidate: the validation run of the candidate image is one step that works or fails.
- HostExecutor.ProductionExecutor.RestoreOriginal: credential continuity is an input; the queries behind it are not modelled.
- Retained directories of earlier updates are not part of the host, except through the failure of a step that would have to create one again.
- Reservations, receipts and other files that are written once and never read by the modelled code.
- Staging.Extract: takes from the archive reader that no path occurs twice; reading tar and gzip, checksums and release metadata is not modelled.
- Listener.SlotsAreConserved: threads interleave at the granularity of the listed events.
- Recorder.Archive.Rotate: a failure in the middle of writing an archive is not modelled; the bound after the next stored record does not depend on what such a failure leaves behind.
- Redaction of log lines, host samples and container statistics of the recorder.
- Docker commands, sockets, TLS, GitHub, deployment, onboarding, the web application and the AirPlay bridge.
