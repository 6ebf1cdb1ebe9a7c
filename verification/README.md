# Verified model of the service and its ComfyUI control plane

The repository is a service skeleton with a versioned item store, to which a control plane for
ComfyUI installations was added: a command line tool installs, starts and stops instances on a
host, a service keeps the records of hosts, model roots, instances and command runs, and shell
scripts prepare and push releases. This project models the parts of it in which order, failure
and concurrency matter, and proves what they promise. `dafny verify dfyconfig.toml` checks it.

Code that works by changing things is a class or a method with loops. What a main operation promises
stands in its contract in terms of fields, places and texts; the same promise is proved of a
specification function of the old state, over which steps and whole runs are told. What comes from outside (the database engine, git, uv, sockets,
`/proc`, clocks, uuids, the command client) is handed in: which steps fail, what probes and commands
answer, what other clients do in between. What the models take for granted about it is listed under
"Assumptions".

| file | what it models |
|---|---|
| `Closure.dfy`, `SchemaRefs.dfy` | the reference closure over cyclic JSON schemas, with the shared `seen` set that is not shared while it is empty |
| `Lifecycle.dfy` | provider startup with unwinding, shutdown, health check registration |
| `Items.dfy`, `ItemOrder.dfy`, `ItemListing.dfy`, `ItemService.dfy` | the item table, compare-and-swap histories, keyset pages over a changing table, unit of work, repository, service |
| `Paths.dfy`, `Install.dfy` | instance paths, staged installation with backups and promotion, histories of installations |
| `Processes.dfy` | start, stop and status over a pid file while the environment kills, forks and reuses pids |
| `ControlPlane.dfy`, `ControlRuns.dfy`, `ControlDisks.dfy` | the records of the control plane, all interleavings of their transactions, and how the records agree with the manifests on disk |
| `ReleaseFlow.dfy` | prepare and push of a release while others move the branches |
| `Text.dfy`, `Versions.dfy`, `Catalog.dfy`, `Ports.dfy`, `Requirements.dfy` | version order, catalog validation and recommendation, port lists, the torch split of a requirements file |
| `Wrappers.dfy` | `Option` and `Result` |

## Where the code does not keep the promise

Some properties that one would expect do not hold of the code. The code is modelled as it is; each
time a lemma gives the exact condition under which the property holds, and another a concrete
input on which it fails.

- A prepare is meant never to discard a pending merge (the message at `deploy/lib/release-flow.sh:393`
  says so). `git -C <clone> rev-parse --git-path MERGE_HEAD` prints a path relative to the clone, and the
  test resolves it in the main repository. So a pending merge survives every prepare if and only if the
  main repository itself has a merge state or the clone is not marked as owned
  (`ReleaseFlow.PrepareKeepsPendingIff`, `ReleaseFlow.SecondPrepareDiscards`).
- The currentness check of a push compares remote-tracking refs after a fetch that does not prune, so a
  branch that was deleted passes for current, and a deleted target is made anew
  (`ReleaseFlow.AcceptedPushMergesRecorded`, `ReleaseFlow.DeletedTargetIsMadeAnew`).
- The check is made at the fetch of the push, not when the push arrives. In between the target may be moved
  to any commit at or below the recorded target or source, and the push is accepted all the same
  (`ReleaseFlow.PushIsFastForwardIff`, `ReleaseFlow.RacedSourceIsAccepted`).
- An instance is meant to have at most one live managed process, named by its pid file and listening on
  the stored port. Over a run this holds in every state if and only if no command of the run loses track
  (`Processes.RunKeepsTracked`), which happens in exactly five ways: the port probe raises after the spawn
  (`Processes.OrphanLeadsToTwo`); the pid file cannot be written (`Processes.UnwrittenPidFileLeadsToTwo`);
  a start takes the pid file from the live process of another instance with the same data root and slug
  (`Processes.SharedDirLosesFirst`); a port change (`Processes.UnreadableLeadsToTwo`) or an install
  (`Processes.UnreadableInstallStrands`) passes because working directory or command line of the live
  process could not be read.
- The stored ref and commit of an instance are meant to agree with its manifest after a completed install.
  From the moment an install has written the manifest, through any run, to its storing: they agree if and
  only if no install command changed the manifest of that directory on the way, or the one that changed it
  last wrote the same ref and commit (`ControlDisks.StoredInstallAgreesIff`,
  `ControlDisks.OvertakenInstallDisagrees`). Where no install is begun while another one of the directory is
  not stored yet, they always agree (`ControlDisks.SeparateInstallsAgree`). From then on the agreement ends
  only when an install command changes that manifest or another install of the instance is stored
  (`ControlDisks.AgreementOutlastsRuns`).
- Files go by data root and slug, but slugs are unique per host only, and every host that is created
  without a data root gets the default one. Instances then share a directory, and an install of one changes
  the manifest of the other (`ControlDisks.SharedDirDisagrees`). Hosts with data roots of their own are
  enough to keep directories apart (`ControlDisks.OwnRootsKeepDirsApart`).
- Catalog validation compares ids as JSON values, the lookups compare them with `str(id)`, and a rule need
  not have an id. So on a validated catalog a matching rule raises a lookup error if and only if it has no
  key `id` or names a numeric id whose printed form is not listed (`Catalog.RuleRaisesIff`,
  `Catalog.NumericIdRaises`). The shipped catalog has textual ids only, for which
  `Catalog.TextIdsNeverRaise` applies.

Smaller ones: the staging directory of an install is gone in every case only if its removal works, since
that error is ignored, and a lock whose own write or removal failed refuses every later install
(`Install.FileSystem.Install`, `Install.LeftLockRefuses`); when no line of a requirements file is kept, the
written file holds one empty line (`Requirements.WrittenReadsBack`); a name conflict that arises after the
pre-check is found by the index and leaves the table as the others made it
(`ItemService.Service.UpdateItem`).

## Assumptions

- Each SQL statement of the item table sees what is committed when it runs, and each committed transaction
  of the control plane is one step. The partial unique index is a check that rejects.
- Encoding and decoding a cursor is an exact round trip; ids are ordered character by character.
- The query for the model roots of a host answers the oldest first; which that is, is handed in.
- Start, stop, install and port change of module `Processes` run one at a time, with the environment
  between them; a port change is read transaction, status and write transaction in one. Module
  `ControlRuns` lets them overlap as far as the records and the manifest are concerned.
- The test of the install lock and its writing are one step; moving or writing a file happens as a whole
  or not at all, save that a failed write of the manifest, the lock or the pid file may leave any content.
  Installs of one directory run one after the other, as the lock has it.
- Paths that differ are different files: symbolic links are not followed, data roots do not nest, letter
  case counts. The data root of a host stands for the path it resolves to.
- A managed process that listens does so until it dies; during a start no foreign process takes the port;
  a process that was sent SIGKILL dies; the pid file holds a number or nothing. A process that can be read
  is read correctly.
- An install command prints its success after it has written the manifest, and prints that commit.
- Exceptions are those that `except Exception` catches; nothing is cancelled from outside.
- A git command is one step. A repository holds the parents of its commits, and the remote takes a push to
  an existing branch only as a fast-forward. The operator of a release only resolves conflicts and leaves
  files about.
- White space, digits and letter case are those of ASCII.

## Model

| member | source | states |
|---|---|---|
| `SchemaRefs.AllRefNames` | app/core/registry_checks.py:11-27 | a call without `seen` returns exactly the names to which a chain of references leads, for every schema and every component map, cyclic or incomplete; a reference is a `$ref` text in a dict, anywhere inside dicts and lists |
| `SchemaRefs.DirectMeans` | app/core/registry_checks.py:13-26 | what the walk collects from a value itself are exactly the names that it mentions at any depth of dicts and lists |
| `SchemaRefs.OwnRefIsRead` | app/core/registry_checks.py:14-17 | a dict refers to a name exactly when its first `$ref` is a text with the prefix whose part after the last slash is that name |
| `SchemaRefs.ReachesMeans` | app/core/registry_checks.py:18-21 | reachability over the collected names is a chain of mentions, each in the component before it |
| `SchemaRefs.SchemaRefNames` | app/core/registry_checks.py:11-27 | terminates on the unseen components and the schema; with an absent set the result is the whole closure, an empty set stays empty, a non-empty one absorbs what the walk newly sees |
| `SchemaRefs.FollowOwnRef` | app/core/registry_checks.py:15-21 | the own reference is in the result, the set holds it afterwards, and its component is expanded unless it was seen |
| `SchemaRefs.SchemaRefNamesOfChildren` | app/core/registry_checks.py:22-26 | the loop over values or items walks all of them in turn, through the shared set or, when that is empty, each on its own |
| `SchemaRefs.WalkedNode` | app/core/registry_checks.py:12-27 | own reference and children together give the closure of the node, also when the set stopped being shared |
| `SchemaRefs.WalkedNext` | app/core/registry_checks.py:22-26 | one more child extends the walked part of the list |
| `SchemaRefs.DirectAllExtend` | app/core/registry_checks.py:22-26 | the names that occur in a list are those of its items |
| `Closure.ClosedIsClosure` | app/core/registry_checks.py:19-21 | reached names that hold the start and are closed under references are exactly the reachable ones |
| `Closure.AbsorbedFollow` | app/core/registry_checks.py:19-21 | marking a name and then walking its component accounts for everything the name leads to |
| `Closure.AbsorbedUnion` | app/core/registry_checks.py:22-26 | two walks one after the other through one shared set account for both starts |
| `Closure.ClosureOfUnion` | app/core/registry_checks.py:12 | two walks with sets of their own give the closure of both starts |
| `Closure.AbsorbedFromNothing` | app/core/registry_checks.py:12 | a walk whose set was private from the start has found the whole closure |
| `Lifecycle.LifecycleProviderRegistry.Startup` | app/core/lifecycle.py:137-154 | succeeds exactly when every provider starts, its health check is made and is not taken or refused by a frozen registry; otherwise the error of the first provider that fails is raised, all entries on the list are closed in reverse order, the list ends empty, and a failing cleanup is only noted |
| `Lifecycle.LifecycleProviderRegistry.StartAll` | app/core/lifecycle.py:139-145 | the loop puts providers on the list in registration order up to the first failure, which it answers |
| `Lifecycle.LifecycleProviderRegistry.StartOne` | app/core/lifecycle.py:141-145 | a provider is on the list once its own startup went through, whatever its health check does |
| `Lifecycle.AddCheck` | app/core/lifecycle.py:143-145 | the check is registered unless creating or registering it fails, and that failure is answered |
| `Lifecycle.LifecycleProviderRegistry.Unwind` | app/core/lifecycle.py:146-153 | everything on the list is closed in reverse order and the original error is kept, with a note of cleanup errors |
| `Lifecycle.LifecycleProviderRegistry.Shutdown` | app/core/lifecycle.py:156-165 | every entry is closed once in reverse order whatever the others raise, the list ends empty, all errors are collected in call order |
| `Lifecycle.ShutdownTwice` | app/core/lifecycle.py:156-165 | a further shutdown closes nothing and raises nothing; every entry ever entered was closed exactly as often |
| `Lifecycle.ClosedExactlyOnce` | app/core/lifecycle.py:156-165 | in a trace read as a stack, entries are closed exactly as often as entered, save for those still open |
| `Lifecycle.DrainedNext` | app/core/lifecycle.py:158-161 | popping the last entry and closing it keeps the trace a stack and the closing order the reverse of the list |
| `Lifecycle.EnteringNext` | app/core/lifecycle.py:141-142 | appending the started provider extends the trace by its entry |
| `Lifecycle.FineUpToMeans` | app/core/lifecycle.py:140-145 | the loop went through up to n if and only if none of the first n providers brings up an error |
| `Lifecycle.FailureIsNotFine` | app/core/lifecycle.py:140-146 | after a first failure no longer prefix went through |
| `Lifecycle.StepMeans` | app/core/lifecycle.py:140-145 | a provider goes through, or brings up the error of its start, of making its check or of registering it, exactly as the environment answers |
| `Lifecycle.ChecksMean` | app/core/lifecycle.py:143-145 | the checks registered so far are those of the providers before |
| `Lifecycle.LifecycleProviderRegistry.GetResource` | app/core/lifecycle.py:124-128 | the first started entry of that name, an error exactly when there is none |
| `Lifecycle.LifecycleProviderRegistry.Register` | app/core/lifecycle.py:114-119 | refused exactly when frozen or when the name is taken, else appended |
| `Lifecycle.HealthCheckRegistry.Register` | app/core/lifecycle.py:50-55 | refused exactly when frozen or when the name is taken, else appended |
| `Items.RunEvolves` | app/repositories/item_repository.py:72-137 | over any interleaving rows stay, keep `created_at`, id and owner, and a deleted row never changes |
| `Items.CreateStep` | app/repositories/item_repository.py:17-29 | answer and table of an insert, read off the fields: rejected by a taken id or name, else the new row is version 1 with the fields given |
| `Items.MutateStep` | app/repositories/item_repository.py:72-137 | answer and table of a mutation, read off the fields: done exactly when owner, version, an undeleted row and, for an update, a free name are met; then the given fields are new, the version is one up, all else is kept |
| `Items.StepKeepsNamesUnique` | app/models/item.py:17-24 | one statement keeps the active names of every owner unique |
| `Items.RunKeepsNamesUnique` | app/models/item.py:17-24 | every table that any clients can reach has unique active names per owner |
| `Items.WinnersExpectConsecutiveVersions` | app/repositories/item_repository.py:89-106 | the mutations of an item that succeed expect consecutive versions, so at most one succeeds per expected version |
| `Items.ItemIsFoldOfWinners` | app/repositories/item_repository.py:72-137 | the item is the fold of the winning patches in version order and its version counts them |
| `Items.DeletionWinsLast` | app/repositories/item_repository.py:115-137 | nothing wins on a deleted item; a winner is a deletion exactly when it is the last one and the item ends deleted |
| `Items.VersionCountsWins` | app/repositories/item_repository.py:82 | at any later time the version of a created item is 1 plus its successful mutations |
| `Items.StepOnItem` | app/repositories/item_repository.py:89-106 | a statement changes an item only by winning on it, and then expected its version, owner and an active row |
| `ItemListing.TraversalIsExact` | app/repositories/item_repository.py:43-70 | following the cursor while any statements run in between: what comes back is undeleted, of the owner and status asked for, newest first with ids falling among equal times; no row comes back twice; each row that could be listed at every fetch comes back exactly once |
| `ItemListing.PageMeans` | app/repositories/item_repository.py:51-70 | a page read off the fields: newest first, only wanted rows, short only when none is left, those left listed after its last one, and a next key, the time and id of that last one, exactly when some are left |
| `ItemListing.SelectionMeans` | app/repositories/item_repository.py:51-63 | a sequence is the selection if and only if it lists exactly the wanted rows, newest first |
| `ItemListing.WalkDescends` | app/repositories/item_repository.py:54-63 | over a walk the returned keys descend below the cursor |
| `ItemListing.WalkCovers` | app/repositories/item_repository.py:58-69 | a row accepted at every fetch of a finished walk is returned |
| `ItemListing.WalkEvolves` | app/repositories/item_repository.py:72-137 | between fetches rows keep their keys |
| `ItemListing.ReturnedKeys` | app/repositories/item_repository.py:58-65 | a returned row still is in the table with the key it was returned under |
| `ItemListing.PageBounds` | app/repositories/item_repository.py:51-69 | a page lies below its cursor and on or above the cursor it hands out |
| `ItemListing.SelectionAfter` | app/repositories/item_repository.py:54-63 | the rows below the n-th row of a selection are the rest of that selection |
| `ItemListing.SelectionUnique` | app/repositories/item_repository.py:58-63 | the matching rows in descending key order are one sequence only |
| `ItemListing.StillTableIsCut` | app/repositories/item_repository.py:58-70 | on a table that stands still the pages of any walk, finished or not, cut up the selection from the front |
| `ItemListing.StillTableFinishes` | app/repositories/item_repository.py:65-70 | such a walk is finished exactly when it took max(1, ceil(n / limit)) fetches |
| `ItemListing.StillTableWalk` | app/repositories/item_repository.py:58-70 | on a table that stands still every walk ends: it never takes more than max(1, ceil(n / limit)) fetches and is finished exactly when it took that many; the pages are full but for the last and make up a front part of the matching rows in order, all of them exactly when finished |
| `ItemListing.UnfinishedWalkGoesOn` | app/repositories/item_repository.py:66-69 | a walk that is not finished has a next fetch |
| `ItemOrder.BelowTrichotomy` | app/repositories/item_repository.py:56-61 | the list order `(created_at, id)` is a strict total order: of two keys exactly one is below or they are equal |
| `ItemOrder.BelowTransitive` | app/repositories/item_repository.py:56-61 | the list order is transitive |
| `ItemOrder.BelowMeans` | app/repositories/item_repository.py:56-61 | a key lies below another if and only if its time is earlier, or equal and its id comes before the other at the first difference |
| `ItemOrder.IdLessMeans` | app/repositories/item_repository.py:56 | the order of ids is that of the first differing character, a prefix coming first |
| `ItemService.WireWalkIsWalk` | app/db/pagination.py:21-34 | with an exact codec a walk by wire cursors is a walk by keys, so the traversal theorems hold of it |
| `ItemService.UnitOfWork.Commit` | app/db/unit_of_work.py:37-40 | the committed table becomes the session's; an error exactly when not entered |
| `ItemService.UnitOfWork.Rollback` | app/db/unit_of_work.py:42-45 | the session falls back to the committed table, which stays |
| `ItemService.ItemRepository.Create` | app/repositories/item_repository.py:17-29 | inserts version 1, or is rejected by primary key or name index and changes nothing |
| `ItemService.ItemRepository.GetActiveByName` | app/repositories/item_repository.py:37-41 | the one active row of that name, nothing exactly when there is none, and never two rows under unique names |
| `ItemService.ItemRepository.SelectDescending` | app/repositories/item_repository.py:58-64 | the first wanted rows, newest first, those left out being listed after them |
| `ItemService.ItemRepository.ListActive` | app/repositories/item_repository.py:43-70 | the first rows after the decoded cursor, newest first, undeleted, of the owner and status asked for; the cursor of the last one exactly when rows are left; a bad cursor is a request error |
| `ItemService.ItemRepository.UpdateCas` | app/repositories/item_repository.py:72-106 | outcome and table of the compare-and-swap statement, the fields left out being kept; after a miss the lookup sees what others did in between |
| `ItemService.ItemRepository.SoftDeleteCas` | app/repositories/item_repository.py:108-137 | outcome and table of the compare-and-swap deletion; after a miss the lookup sees what others did in between |
| `ItemService.MissedIsOutcome` | app/repositories/item_repository.py:103-106 | when nobody gets in between, the lookup after a miss tells what the statement met |
| `ItemService.StaleClientLearnsLaterVersion` | app/repositories/item_repository.py:103-106 | a client that is behind is told a version ahead of its own, or that the item is gone |
| `ItemService.OnlyOneActiveName` | app/repositories/item_repository.py:37-41 | under unique names the name lookup never sees two rows |
| `ItemService.PreChecksSuffice` | app/services/item_service.py:40-42 | after the pre-checks of create and update the unique index rejects nothing when calls do not overlap |
| `ItemService.Service.CreateItem` | app/services/item_service.py:37-54 | with any statements of others between check and insert: succeeds exactly when the name is free at both and the id new; each error exactly in its case and without a change of its own |
| `ItemService.Service.ListItems` | app/services/item_service.py:64-81 | refused exactly for a limit outside 1..100 or a bad cursor; else the first rows after the cursor, newest first, undeleted, of the owner and status asked for, and the cursor of the last one exactly when rows are left |
| `ItemService.Service.UpdateItem` | app/services/item_service.py:83-108 | with any statements of others between check, statement and lookup: name conflict, not found, version conflict and success exactly in their cases; success writes the fields given, keeps those left out and moves the version by one; no error changes anything, names stay unique, and without others the index rejects nothing |
| `ItemService.Service.DeleteItem` | app/services/item_service.py:110-125 | not found, version conflict and success exactly in their cases with others before the lookup; success marks the row and keeps its other fields but version and time; no error changes anything, names stay unique |
| `ItemService.Service.Settle` | app/services/item_service.py:99-108 | only a done mutation is committed, every other outcome becomes its error |
| `Paths.SlugIsOneSegment` | comfyctl/paths.py:37-40 | a valid slug names a child: no separator, neither `.` nor `..` |
| `Paths.PlacesApart` | comfyctl/paths.py:83-96 | different places of any instances are different paths |
| `Paths.TreesDisjoint` | comfyctl/paths.py:76-96 | each place lies under its own instance root and under no other |
| `Install.FileSystem.Install` | comfyctl/cli.py:421-543 | success and every error exactly for the steps that fail, step by step; all or nothing up to the promotion; a success has the new trio active and the old one in the backup, and in every case each old artefact is active or in the backup; staging gone if it can be removed, the lock exactly as its steps leave it; no earlier backup and nothing outside this instance touched |
| `Install.InstallMeans` | comfyctl/cli.py:421-543 | the promise of an install, read off places and steps: where every artefact lies afterwards, and success exactly when each step works and the names are new |
| `Install.FileSystem.StageAndPromote` | comfyctl/cli.py:433-539 | the body of the `try` block: untouched active trio before the promotion, from then on the contents of active places and backup exactly as far as the steps got, success exactly when all did |
| `Install.FileSystem.Stage` | comfyctl/cli.py:434-515 | touches the fresh staging directory only and succeeds exactly when no step of it fails, each failing step with its own error |
| `Install.FileSystem.CloneCheckout` | comfyctl/cli.py:308-334 | fails exactly when the shallow clone fails and then the full clone or the checkout does |
| `Install.FileSystem.Promote` | comfyctl/cli.py:337-344 | three backups into a fresh directory, then two moves: the active places and the backup hold exactly what the steps that worked put there |
| `Install.FileSystem.BackUpAll` | comfyctl/cli.py:340-342 | fails exactly when an existing artefact cannot be moved; those before it are in the backup and no longer active, it and those after it untouched |
| `Install.FileSystem.MoveIn` | comfyctl/cli.py:343-344 | the two moves into the cleared places, each as far as it works |
| `Install.FileSystem.WriteManifestFile` | comfyctl/cli.py:517-529 | the manifest is written, or whatever a failed write leaves |
| `Install.InExactlyOnePlace` | comfyctl/cli.py:337-344 | however far the promotion got, each old artefact is still active and not in the backup, or in the backup while its active place holds nothing or what the run put there |
| `Install.FileSystem.BackUpOne` | comfyctl/cli.py:340-342 | moves the artefact if there is one, or changes nothing |
| `Install.FileSystem.CleanUp` | comfyctl/cli.py:540-543 | removes staging and lock and nothing else, each if its removal works |
| `Install.LockedRun` | comfyctl/cli.py:429-543 | lock, body and clean-up make up the promise of an install |
| `Install.LeftLockRefuses` | comfyctl/cli.py:429-431 | a lock that stayed behind refuses every later install, which changes nothing |
| `Install.ExistingBackupIsFrozen` | comfyctl/cli.py:338-339 | no attempt writes into a backup directory that exists |
| `Install.BackupStaysFrozen` | comfyctl/cli.py:338-339 | a backup directory keeps its contents over any run of attempts |
| `Install.RecordsStay` | comfyctl/cli.py:337-344 | from a completed install on its backup holds the replaced trio after every later attempt |
| `Install.BackupsRecordReplacements` | comfyctl/cli.py:337-344 | after any run of attempts the backup of each completed install holds the trio that was active just before it |
| `Install.BackupsAreDistinct` | comfyctl/cli.py:338-339 | completed installs of one instance have distinct backups |
| `Install.NothingIsLost` | comfyctl/cli.py:337-344 | what was active once is active or in a backup ever after, whichever attempts fail |
| `Processes.Machine.Start` | comfyctl/cli.py:554-615 | answers a pid exactly when checkout, probe, port, config, venv and spawn let it, the first poll that sees anything sees the port open, and the pid file is written; that process then lives, listens on the stored port and is named by the file; a start that is refused, exits or times out leaves processes and files as they were; each error in its own case |
| `Processes.StartMeans` | comfyctl/cli.py:554-615 | that promise fixes answer and state: it holds of exactly what the specification of a start yields, over which the runs are told |
| `Processes.DecisiveMeans` | comfyctl/cli.py:578-602 | the poll that ends the loop is the first one that is not undecided, if there is one |
| `Processes.Machine.Stop` | comfyctl/cli.py:618-640 | true exactly when the process in the pid file is found to be the own one and exits, and then process and pid file are gone; a pid file of no process is removed; a process that is foreign or cannot be read is left alone; each answer in its own case |
| `Processes.StartKeepsTrackedIff` | comfyctl/cli.py:576-615 | a start keeps every managed process tracked if and only if it leaves no orphan and takes no pid file from another instance |
| `Processes.InstallKeepsTrackedIff` | app/services/comfy_service.py:469-474 | an install does if and only if it does not replace the checkout of a live process that could not be read |
| `Processes.SetPortKeepsTrackedIff` | app/services/comfy_service.py:349-352 | a port change does if and only if it does not change the port of a live process that could not be read |
| `Processes.StopKeepsTracked` | comfyctl/cli.py:618-640 | a stop always does |
| `Processes.ActionKeepsTracked` | comfyctl/cli.py:554-672 | any command or event of the environment keeps every managed process tracked if and only if it is none of the commands that lose track |
| `Processes.RunKeepsTracked` | comfyctl/cli.py:554-672 | over every run: in every state each live managed process is the one in the pid file, owned, on the stored port, if and only if no command of the run loses track |
| `Processes.CarefulRunKeepsTracked` | app/models/comfy.py:60 | where instances have directories of their own, runs whose starts leave no orphan and whose statuses can read the process never lose track |
| `Processes.AtMostOneManaged` | comfyctl/cli.py:643-672 | then an instance has at most one live managed process, its port is open, and status reports it exactly when it can read it |
| `Processes.ManagedMeansPortOpen` | comfyctl/cli.py:229-231 | where the port is free, or a status that can read processes reports nothing alive, there is no managed process |
| `Processes.LiveIsReported` | comfyctl/cli.py:275-287 | a live managed process of a directory is the one in its pid file and is reported for every instance of that directory exactly when it can be read |
| `Processes.StopSparesOthers` | comfyctl/cli.py:618-640 | a stop takes down at most the owned process in the pid file, and after a stop that succeeds none is left |
| `Processes.OrphanLeadsToTwo` | comfyctl/cli.py:590-591 | a probe error after the spawn and a second start give two managed processes |
| `Processes.UnwrittenPidFileLeadsToTwo` | comfyctl/cli.py:591 | a pid file that cannot be written, a port change and a second start give two managed processes |
| `Processes.UnreadableLeadsToTwo` | comfyctl/cli.py:278-281 | a status that cannot read the process lets a port change pass, and a second start gives two managed processes |
| `Processes.UnreadableInstallStrands` | comfyctl/cli.py:278-287 | a status that cannot read the process lets an install pass, after which even a stop that can read it takes the process for a foreign one |
| `Processes.SharedDirLosesFirst` | comfyctl/cli.py:591 | two instances with one directory: the second start takes the pid file from the live process of the first |
| `ControlPlane.Service.SetModelRoots` | app/repositories/comfy_repository.py:132-136 | deleting and adding one by one leaves exactly the given roots, other instances untouched |
| `ControlPlane.Service.CreateInstance` | app/services/comfy_service.py:280-316 | the new row holds what the request gives, the oldest root of the host when it names none, and the first root as primary when it names none; each error exactly in its case and without a change; keeps the relations between the tables |
| `ControlPlane.Service.UpdateLaunchConfig` | app/services/comfy_service.py:340-383 | with any transactions of others between read and write: port, gpus and roots are the requested ones or those that were read, the primary root follows value, null and omission, everything else is as the others left it; each refusal exactly in its case; keeps the relations between the tables, never while the process is alive |
| `ControlPlane.LateWriteKeepsFits` | app/services/comfy_service.py:364-382 | what was checked against an earlier state keeps the relations in every state that grew from it |
| `ControlPlane.CheckedLaunchFits` | app/services/comfy_service.py:354-362 | what passes the checks has its primary root absent or among its roots |
| `ControlPlane.WriteKeepsFits` | app/services/comfy_service.py:364-382 | the write transaction keeps primary root, roots and host of every instance in relation, and stores exactly the given roots |
| `ControlPlane.InsertKeepsFits` | app/services/comfy_service.py:303-315 | the insert keeps the relations and the slugs of a host unique |
| `ControlPlane.Service.RunRecorded` | app/services/comfy_service.py:449-467 | the run ends completed without an error exactly for an ok payload, else failed with the code of the answer; no other run changes |
| `ControlPlane.Service.StartInstance` | app/services/comfy_service.py:531-560 | a completed start sets the launch time of that instance to now; the run is stored completed, or failed with the code; nothing else changes |
| `ControlPlane.Service.InstallInstance` | app/services/comfy_service.py:469-501 | refused while running; a completed install stores ref and commit whatever becomes of the restart, whose own run and launch time follow its answer; a failed one stores its run only; other instances untouched |
| `ControlPlane.StepsStore` | app/services/comfy_service.py:434-501 | the transactions in which a start or an install stores its run and its columns, read off the rows |
| `ControlPlane.LaunchMeans` | app/services/comfy_service.py:340-383 | check and write of a launch config together do what the request and the rows say |
| `ControlPlane.CreateMeans` | app/services/comfy_service.py:280-316 | checks and insert of an instance together do what the request and the rows say |
| `ControlRuns.RunKeepsWorldFits` | app/services/comfy_service.py:280-383 | over every interleaving of read and write transactions of any calls: primary root absent or among the roots, roots on the own host, slugs unique, every running run has its command, finished runs never change |
| `ControlRuns.WriteKeepsWorldFits` | app/services/comfy_service.py:364-382 | a write that was checked against an older state still keeps the relations |
| `ControlRuns.ReturnKeepsWorldFits` | app/services/comfy_service.py:434-447 | finishing a run keeps the relations and takes the run from its command |
| `ControlRuns.LandKeepsWorldFits` | comfyctl/cli.py:516-529 | writing the manifest, which the command does on its own before the service sees its answer, touches no table |
| `ControlRuns.StoreKeepsWorldFits` | app/services/comfy_service.py:491-498 | storing a completed command keeps the relations |
| `ControlRuns.RestartKeepsWorldFits` | app/services/comfy_service.py:531-533 | a restart begins in a transaction of its own, with others in between, and keeps the relations |
| `ControlRuns.BeginKeepsWorldFits` | app/services/comfy_service.py:422-432 | beginning a call keeps the relations and gives a new run its one command |
| `ControlRuns.RunFinishesWithItsAnswer` | app/services/comfy_service.py:434-467 | in one step a run changes only from running, only when its own command comes back, to what that answer makes of it |
| `ControlRuns.RunsFinishOnce` | app/services/comfy_service.py:434-467 | over any run of the world a running command run gets at most one answer, stays running without one, is completed with an ok payload and failed with any other answer; a finished one gets none and stays |
| `ControlRuns.LaunchTimeMovesWithStart` | app/repositories/comfy_repository.py:176-180 | in one step the launch time moves only when a completed start of that instance is stored, and then it is the time of that step |
| `ControlRuns.LaunchTimeMovesOverRuns` | app/services/comfy_service.py:553-559 | over any run of the world it moves only if some step stores a completed start of that instance |
| `ControlRuns.WriteKeepsStored` | app/repositories/comfy_repository.py:157-174 | creates and launch-config updates leave stored ref, commit and launch time |
| `ControlDisks.StepKeepsDiskFits` | comfyctl/cli.py:516-529 | in any step the manifest an install wrote stays the active one, or another install command changes it |
| `ControlDisks.RunKeepsDiskFits` | comfyctl/cli.py:516-529 | so it does over whole runs |
| `ControlDisks.LandingsCome` | comfyctl/cli.py:517-529 | an install has written its manifest exactly from its landing on, which is then the last change of the directory |
| `ControlDisks.StoredInstallAgreesIff` | app/services/comfy_service.py:481-498 | from the landing of an install through any run to its storing: ref and commit then agree with the manifest if and only if nothing changed the manifest of the directory on the way, or what changed it last wrote the same ref and commit |
| `ControlDisks.ManifestIsLastChange` | comfyctl/cli.py:516-529 | the manifest after a run is what the last install command that changed it has written, or the one from before |
| `ControlDisks.UnchangedInstallAgrees` | app/services/comfy_service.py:491-500 | an install whose manifest nothing changed since agrees with it once stored |
| `ControlDisks.SeparateInstallsAgree` | app/services/comfy_service.py:469-501 | where no install is begun while another one of the directory is not stored yet, every completed install agrees with the manifest once stored |
| `ControlDisks.RunCarries` | app/services/comfy_service.py:480-497 | over any run, a command run shows up only in the call that carries its ref and landing |
| `ControlDisks.OvertakenInstallDisagrees` | app/services/comfy_service.py:481-498 | a run in which two installs land in order, the answer of the second is processed and stored first, and storing the first then takes the agreement away |
| `ControlDisks.AgreementLasts` | app/services/comfy_service.py:491-500 | agreement outlasts every step but an install command changing the manifest of the directory and the storing of an install, so a failed restart does not end it |
| `ControlDisks.AgreementOutlastsRuns` | app/services/comfy_service.py:491-500 | so it does over whole runs |
| `ControlDisks.OnlyOwnInstallsDisturb` | app/models/comfy.py:60 | where no two instances share a directory, only installs of the instance itself end its agreement |
| `ControlDisks.OwnRootsKeepDirsApart` | app/services/comfy_service.py:205-217 | hosts with data roots of their own keep the directories of all instances apart |
| `ControlDisks.SharedDirDisagrees` | app/services/comfy_service.py:209 | two hosts with one data root: an install of one instance takes the agreement of another away |
| `ReleaseFlow.Release.Prepare` | deploy/lib/release-flow.sh:373-417 | a fresh clone of both branches with both recorded, a merge state exactly when the merge began, the protected files of the target as it has them and every other index entry as the merge left it; each stop exactly in its case, the guards leaving the old clone |
| `ReleaseFlow.Release.Push` | deploy/lib/release-flow.sh:651-730 | goes through exactly when a marked clone on the target branch holds a merge without conflicts, both branches stand where recorded, nothing is untracked, white space and message pass, and commit and push work; then the merge commit has the two heads and the index for its tree; each stop exactly in its case |
| `ReleaseFlow.Release.RestoreProtected` | deploy/lib/release-flow.sh:437-451 | the loop restores exactly the protected files |
| `ReleaseFlow.RestoredMeans` | deploy/lib/release-flow.sh:437-451 | a protected file that HEAD has comes back as HEAD has it, every other index entry stays |
| `ReleaseFlow.PrepareKeepsMergeFits` | deploy/lib/release-flow.sh:663-703 | a merge that a prepare leaves pending is the merge of the recorded commits with the protected files kept |
| `ReleaseFlow.StepKeepsMergeFits` | deploy/lib/release-flow.sh:562-591 | so it stays, whatever the operator and others do |
| `ReleaseFlow.RunKeepsMergeFits` | deploy/lib/release-flow.sh:562-591 | over every run a pending merge is the merge of the recorded commits |
| `ReleaseFlow.AcceptedPushMergesRecorded` | deploy/lib/release-flow.sh:651-730 | an accepted push after any run makes the target one merge commit of the recorded target and source, each still current at the own fetch of the push if and only if its branch still existed; protected files kept; what the target held on arrival is at or below the recorded target or source; onto a target that stands where it was recorded it brings in exactly the merge commit and the commits of the recorded source that the target did not have |
| `ReleaseFlow.PushedTreeIsMerge` | deploy/lib/release-flow.sh:663-730 | the commit that a push makes after any run joins the branches as the last prepare saw them, and its tree is that merge: protected files as the target has them, all others as the merge left them, conflicts as the operator resolved them since, none left |
| `ReleaseFlow.PendingMergeStays` | deploy/lib/release-flow.sh:602-619 | while a merge pends nothing but the resolution of a file in conflict changes an index entry, over any run |
| `ReleaseFlow.PrepareThenStays` | deploy/lib/release-flow.sh:663-703 | from a prepare through any run without another one that gets past the guards, every file of the pending index is that of the prepared merge |
| `ReleaseFlow.FindLastPrepare` | deploy/lib/release-flow.sh:387-417 | a run in which some prepare gets past the guards has a last such one |
| `ReleaseFlow.PrepareMeans` | deploy/lib/release-flow.sh:373-451 | the specification of a prepare, over which the runs are told, keeps the promise file by file |
| `ReleaseFlow.PushMeans` | deploy/lib/release-flow.sh:621-730 | the specification of a push keeps the promise check by check |
| `ReleaseFlow.PushBringsIn` | deploy/lib/release-flow.sh:729-730 | wherever the target stands on arrival, the push brings in exactly the merge commit and what lies below a recorded commit and not below the target |
| `ReleaseFlow.OnlyMergeIsNewIff` | deploy/lib/release-flow.sh:729-730 | the merge commit is all that is new if and only if both recorded commits already lie below the target on arrival |
| `ReleaseFlow.PushIsFastForwardIff` | deploy/lib/release-flow.sh:730 | the remote can take the push if and only if the target is gone or at or below the recorded target or source, so a race with any other commit is refused |
| `ReleaseFlow.BelowNewCommit` | deploy/lib/release-flow.sh:729 | below a new commit lie the commit itself and what lies below its parents |
| `ReleaseFlow.BelowOldCommit` | deploy/lib/release-flow.sh:729 | a new commit changes nothing about what lies below the commits that were there |
| `ReleaseFlow.OnlyAcceptedPushMovesRemote` | deploy/lib/release-flow.sh:718-730 | over any run in which nobody else moves a branch and no push is accepted, the remote stays as it is |
| `ReleaseFlow.NoPushWithoutPrepare` | deploy/lib/release-flow.sh:602-607 | between two pushes that go through lies a prepare that got past its guards, whatever else happens |
| `ReleaseFlow.PrepareKeepsPendingIff` | deploy/lib/release-flow.sh:390-398 | a pending merge survives every prepare if and only if the main repository has a merge state or the clone is not owned |
| `ReleaseFlow.SecondPrepareDiscards` | deploy/lib/release-flow.sh:390-398 | two prepares in a row discard the merge of the first, even when the second fails to clone |
| `ReleaseFlow.DeletedTargetIsMadeAnew` | deploy/lib/release-flow.sh:583-591 | a target deleted after the prepare passes for current and is made anew |
| `ReleaseFlow.RacedSourceIsAccepted` | deploy/lib/release-flow.sh:583-591 | a target moved to the source after the fetch does not stop the push, which then brings in the merge commit alone |
| `Versions.PartsAtLeastMeans` | comfyctl/catalog.py:25-28 | the padded tuple comparison means: never smaller at the first differing part, missing parts being zero |
| `Versions.VersionAtLeastMeans` | comfyctl/catalog.py:20-28 | a version is at least a minimum if and only if both have a number and the version is not the smaller one at their first difference |
| `Versions.DottedAtLeast` | comfyctl/catalog.py:14-28 | dotted versions compare number by number |
| `Versions.VersionsTotal` | comfyctl/catalog.py:20-28 | two texts are comparable in some direction if and only if both have a number; a text is at least itself exactly when it has one |
| `Versions.VersionsTransitive` | comfyctl/catalog.py:20-28 | the comparison is transitive, a missing text included |
| `Versions.TrailingZeroIgnored` | comfyctl/catalog.py:25-28 | a trailing `.0` on either side changes no comparison |
| `Versions.PartsOfDotted` | comfyctl/catalog.py:14-17 | the parts of two texts joined by a dot are the parts of both |
| `Versions.PartsRoundTrip` | comfyctl/catalog.py:14-17 | reading a dotted text gives back the numbers it was written from |
| `Catalog.ValidateCatalog` | comfyctl/catalog.py:39-98 | accepts exactly the valid catalogs |
| `Catalog.ValidateVersions` | comfyctl/catalog.py:51-67 | accepts exactly complete versions with distinct ids, one of them not advanced, and collects their ids |
| `Catalog.ValidateProfiles` | comfyctl/catalog.py:68-91 | accepts exactly complete profiles with distinct ids and torch profiles, torch pinned unless they follow the requirements file, one not advanced |
| `Catalog.VersionById` | comfyctl/catalog.py:109-113 | the first version with that id |
| `Catalog.FirstVersion` | comfyctl/catalog.py:109-113 | found exactly when the text is a listed id, and then an entry with that id |
| `Catalog.ProfileById` | comfyctl/catalog.py:116-120 | the first profile with that id |
| `Catalog.FirstMatch` | comfyctl/catalog.py:162-168 | no rule before the position matches, the one there does unless it is past the end |
| `Catalog.Recommend` | comfyctl/catalog.py:159-187 | the first rule for this kind of host whose CUDA minimum is met or missing decides; the answer names the rule, the listed version and profile with the printed ids, and the first device if the rule wants one; it raises when the rule has no id or one of the two is not listed; no match exactly when no rule fits |
| `Catalog.RaisingNeverMovesLater` | comfyctl/catalog.py:162-168 | raising the CUDA version never moves the recommendation to a later rule nor from a match to none |
| `Catalog.RuleRaisesIff` | comfyctl/catalog.py:169-173 | on a validated catalog a matching rule raises if and only if it has no key `id` or names an id that a lookup by text cannot find; an id that is null does not raise |
| `Catalog.TextIdsNeverRaise` | comfyctl/catalog.py:169-173 | with textual ids a rule raises exactly when it has no key `id`, and otherwise the answer holds its id and the very entries it names |
| `Catalog.NumericIdRaises` | comfyctl/catalog.py:63-65 | a validated catalog with a numeric id whose recommendation raises |
| `Ports.ParsePorts` | scripts/dev/check_ports.py:44-68 | the default list for no arguments; else refused exactly when some piece between commas is neither a port nor a range, and the listed ports once each in order of first occurrence |
| `Ports.ParseIntMeans` | scripts/dev/check_ports.py:35-38 | a text is read as a number if and only if it is a numeral, with a sign or without and white space around, for that number |
| `Ports.ParsePortMeans` | scripts/dev/check_ports.py:34-41 | it is read as a port if and only if that number is in 1..65535 |
| `Ports.TokenMeans` | scripts/dev/check_ports.py:53-61 | a token stands for a port, or for the range between the two ports around its first dash, and for nothing else |
| `Ports.TokensMean` | scripts/dev/check_ports.py:48-52 | the tokens are the stripped pieces between the commas of the arguments that are not empty |
| `Ports.ResultMembers` | scripts/dev/check_ports.py:47-68 | the result is the union of the listed ports and ranges, without repetitions, all in 1..65535 |
| `Ports.ListedMeans` | scripts/dev/check_ports.py:48-61 | the list is refused exactly when some token is, and holds exactly the ports of the tokens |
| `Ports.ParseValue` | scripts/dev/check_ports.py:49-61 | one argument adds the ports of its tokens in order, or refuses |
| `Ports.Condense` | scripts/dev/check_ports.py:62-68 | every member once, in the order of the first occurrences |
| `Ports.TokenPorts` | scripts/dev/check_ports.py:53-61 | what a token stands for lies in 1..65535 |
| `Ports.PortRoundTrip` | scripts/dev/check_ports.py:34-41 | a printed port is read back as that port |
| `Ports.RangeRoundTrip` | scripts/dev/check_ports.py:53-59 | a printed range is read back as that range, and refused when reversed |
| `Ports.JoinedLists` | scripts/dev/check_ports.py:48-61 | ports joined by commas list exactly those ports in order |
| `Requirements.NormalizedFixesNormal` | comfyctl/cli.py:105-106 | exactly the normal names of the section "Normalized Names" of PEP 503 stay as they are, so normalizing is idempotent |
| `Requirements.NormalizedIsNormal` | comfyctl/cli.py:105-106 | every result is in normal form |
| `Requirements.CollapseJoinsPieces` | comfyctl/cli.py:106 | collapsing keeps every piece between separators in order, joined by one dash |
| `Requirements.CleanedTwice` | comfyctl/cli.py:109-121 | cleaning a line is idempotent and changes no answer of `is_torch_requirement` |
| `Requirements.SplitConserves` | comfyctl/cli.py:124-131 | removed and kept lines weave back into the file; the removed are those whose text starts with a torch package name, the kept are not |
| `Requirements.TorchTextMeans` | comfyctl/cli.py:109-121 | a line is a torch requirement if and only if after white space it starts with one of the three names, in any case, and no name character follows |
| `Requirements.CleanedMeans` | comfyctl/cli.py:110 | a line is its cleaned text with white space around it and a comment behind |
| `Requirements.WrittenReadsBack` | comfyctl/cli.py:124-126 | the written file reads back as the kept lines, or as one empty line when none is kept |
| `Requirements.FromFileIsRemoved` | comfyctl/cli.py:129-135 | without a profile exactly the removed lines without comments, or the default trio when none is removed |
| `Requirements.TorchRequirements` | comfyctl/cli.py:129-137 | with a profile its three pins in order, or the lookup error |
| `Requirements.TorchProfilePackages` | comfyctl/catalog.py:139-146 | the packages of the first profile with that torch profile, or the error |
| `Requirements.BackendMeansPins` | comfyctl/cli.py:457-465 | on a validated catalog a profile with a backend pins all three packages, so asking for them does not fail |
| `Text.SplitJoin` | scripts/dev/check_ports.py:49 | splitting a joined list gives the list back |

## Left out

- `slugify_text`: a chain of string transformations, it would only add an easy member.
- Routes, middleware, schemas, settings, the console, OpenAPI generation: wiring and user interface.
- The route drift checks around the reference closure, health status aggregation, frozen registries, the health validation of the application's lifespan.
- `_resolve_comfy_ref`, `_resolve_runtime`, the response builders, `ensure_default_host` beyond adding a host, deletion of control-plane rows (no operation does it).
- Instance readiness, logs, host probe, extra model paths, directory creation and what the environment variables of a process are.
- Release status and decision output, risk file warnings, build modes beyond "the message is valid".
- Crashes in the middle of a file move, and the race between lock test and lock write.
- A pid file whose text is no number; a stop or status then fails without a change.
- Overlapping commands on one directory in module `Processes`, such as a start while an install runs.
- Catalog ids that are neither texts nor integers, fractional `cuda_min` values, and `when` values that are no objects.
- Port texts of more than 4300 digits, which Python refuses as well; digits and white space outside ASCII.
- Line boundaries other than the line feed in the written requirements file.
- Nothing was executed: all claims are those of the verifier about the model.
