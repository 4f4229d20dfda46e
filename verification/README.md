# Ofan in Dafny

Ofan is a small operator for Valheim game servers on Kubernetes. API handlers write the wanted state
of each server into a `servers` table; one reconcile loop makes the cluster agree; informer callbacks
keep a registry of what the cluster shows, which the loop and the port allocator read. This project
models those parts together and proves what they guarantee when calls fail half-way, replies get
lost, handlers run during a pass and the process restarts.

Run `dafny verify dfyconfig.toml` to check everything.

## How the model is built

- **Values** (`Types`, `Builder`, `Cluster`, `Store`, `Registry`). A server's objects form one slot:
  volume, Secret, ConfigMap, Service, Deployment. A volume carries a serial number, so "the same
  volume" means the very same one. Every call ends `Clean`, `Dropped` (error, no effect) or `Lost`
  (error, but it took effect). A configuration column is `Encoded(cfg)` or `Corrupt`.
- **Objects** (`Database`, `ServerRegistry`, `InformerManager`, `Clientset`, `ServerManager`,
  `Controller`, `Trigger`, `ApiConfig`). The classes mirror the Go types, statement by statement and
  loop by loop. Each method is proved equal to a function of the old state (`Manager`, `Store`,
  `Registry`, `Converge`, `Ports`, `Api`); the properties are proved about those functions.
- **One pass** (`Converge`, `PassProofs`, `PassTheorems`, `Convergence`, `Schedules`). A pass takes a
  listing order of rows and of registry entries, and a `Weather`: the faults of every call, fixed per
  server and call.
- **One event, one row** (`RowProofs`, `UserProofs`). What any event can do to any row and to any user is
  stated once, in values (`RowProofs.StepFate`, `UserProofs.UserStepFate`); the invariants about rows
  follow from it.
- **Answers** (`HandlerProofs`). Every status a handler gives, by an exact condition on the request and
  the tables, and what it then has written.
- **All runs** (`Machine`). A state machine whose events are handlers, informer changes, the
  disappearance of a terminating Deployment, restarts, and the single calls of the reconcile loop. The
  handlers that delete, start, stop, hand over or purge check in one event and write in another, so
  anything may happen in between. A run is any sequence of events; whatever is not possible in a state
  leaves it unchanged, so a theorem about all sequences is about all interleavings. `RefinementProofs`
  shows that the pass the `Controller` class executes is one of these runs, call by call. The registry
  is adversarial there: it may show anything at any time.

The callers of deletions, starts, stops, hand-overs, updates and purges are users in good standing with
the flags of that moment, as the authentication middleware reads them from the users table in every
request (`Api.Authentic`); creations and the user operations may come from anyone, which allows more
runs. The history fields of the machine (`History`) are only written, but for the set of pokes that are
still owed.

## What came out

Most promises hold as they stand. These hold under a condition, which is stated exactly:

- *Names.* The manager names objects after the configured server name, the row is keyed by its own.
  Create and update both accept a configuration with another name. Then objects without a row appear
  (`TeardownProofs.MisnamedRowMakesStrays`); with names kept they never do.
- *Wake-ups.* One is lost exactly if some poked write has not been listed and either the listing at
  the start of a pass fails with no token left, or the process restarts: the token is in its memory,
  and the loop does not poke itself at startup (`RunProofs.WakeUpLostIff`). The write then waits for
  the next listing that succeeds, which a later tick brings, and no longer
  (`RunProofs.ListingRestores`, `RunProofs.LostUntilListing`). A handler that dies between its write
  and its poke never announces the write; the next listing finds it all the same.
- *Hash marker.* A soft pass makes ConfigMap, Secret and marker agree exactly when the marker was
  honest before (`SlotProofs.SoftPassAgreesIffHonest`). It is not after a hard reset that was cut off
  once the Deployment was gone (`SlotProofs.InterruptedResetFreezesOldConfig`), nor after an apply that
  was cut off and a return to the old configuration (`SlotProofs.RevertedConfigIsDishonest`), nor after
  a creation that was cut off once the ConfigMap was there and an update to another configuration
  (`SlotProofs.InterruptedCreationFreezesConfig`). The wrong ConfigMap then stays until the
  configuration changes again or a hard reset rebuilds everything. In a run the marker loses its worth
  exactly in two kinds of steps (`HonestyProofs.TrustLostIff`): a server gets another target, by an
  update or by a start that takes it back from deletion, while the loop does not hold it listed; or the
  loop lets go of a server (a failing call, a restart) with a hard reset half done, with a row listed
  as deleting, or with an outdated configuration it has not put through on a Deployment that stands.
  An update in mid-pass whose turn runs to its end is none of these. Such a step does harm exactly
  if the server is wanted afterwards and its objects are not `Truthful` for what it is wanted to be:
  there is no Deployment (or one on its way out, or one marked with that very configuration), and the
  ConfigMap or the Secret that is there holds something else. Without such a step markers are honest
  (`HonestyProofs.MarkersAreHonest`), and then every server converges
  (`InstallationProofs.ReachableServerConverges`).
- *Registry in sync.* Convergence asks that the registry knows a server's Deployment. Delivery of the
  present Deployment by the informer is enough (`SyncProofs.DeliverySyncs`); start-up replay of
  up-to-date caches does it exactly if there is a Deployment, or neither an entry from before nor a
  Service (`SyncProofs.ReplaySyncsIff`).
- *Starting a server under deletion.* An accepted start or stop can be lost exactly if the loop has
  already listed the row as deleting and is not done with it: the teardown ends by dropping the row
  that is now wanted (`StartProofs.AcceptedStartIsLostIff`).
- *Ghost entries.* A registry entry with no Deployment behind it is never done with: tombstones come
  and go with period 4 (`Schedules.GhostEntryCycles`), and creating a server of that name is refused
  all the while.
- *Resets.* A database reset that fails between deleting the users and creating the root user leaves
  nobody (`OwnershipProofs.ResetLeavesRootIff`); a restart repairs that exactly if the users table is
  still empty by then, since a user created in between, by a request already past the middleware,
  keeps the root user from being created (`OwnershipProofs.RestartRepairsIff`).
- *Order of rows.* It does not matter as long as ports are disjoint; with a shared port the first
  listed row wins (`PassTheorems.SharedPortsDependOnOrder`). Rows have disjoint ports in every run
  (`PortProofs.PortsStayApart`), and Services those of their rows in every run that keeps the names and
  never resets the database (`PortProofs.EveryRunIsTidy`), provided allocation and insertion, or the
  check and the write of an update, are not torn apart (`PortProofs.RacingCreatesCollide`,
  `PortProofs.TornUpdateMovesPort`).
- *Volumes.* The purge handler checks for a row and deletes the volume in two steps; a server created
  in between loses the volume it was to start from, although its row exists
  (`WorldProofs.PurgeRacesCreate`).
- *Undecodable rows.* A deletion is accepted but never completes, since the teardown starts with
  decoding; nothing but a database reset removes such a row (`CorruptProofs.UndecodableForGood`).
- *Root user.* The root user is only created in an empty table. After a restart under another
  configured root name, tombstones are accepted exactly if a user of that name exists, until such a
  user is created or deleted (`OwnershipProofs.RenamedRootIff`).

## Model

| member | source | states |
|---|---|---|
| `InstallationProofs.EveryReachableStateIsInOrder` | internal/controller/controller.go:49-201 | from a new installation, every run that keeps names and never resets the database ends with: no live object without a row, every Service on its own row's ports, ports disjoint, drift counts backed by passes, one root user, owners existing, and the hypotheses of the pass theorems |
| `InstallationProofs.ReachableServerConverges` | internal/controller/controller.go:73-178 | after any run from a new installation in which no risky step left a server with objects that do not fit its target, three passes calm for it bring it to what its row wants, with one replica if it is to run and none if it is stopped, and keep it there, whatever the other servers do |
| `InstallationProofs.InstalledInOrder` | internal/db/store.go:36-81 | a new installation satisfies every run invariant, so the theorems about runs apply from the start |
| `RefinementProofs.PassIsARun` | internal/controller/controller.go:73-95 | a woken loop can, by its own calls alone, end a pass with exactly the tables, objects and drift counts of the whole-pass function, for every listing order and every fault assignment |
| `RefinementProofs.TurnRun` | internal/controller/controller.go:97-163 | one row's turn, with all its early returns and the failure count, is a sequence of single calls of the machine |
| `RefinementProofs.PollRun` | internal/k8s/manager.go:128-148 | the waiting loop of a hard reset is a sequence of polls between which the Deployment may disappear, ended by absence, an error or the deadline |
| `TeardownProofs.ObjectsHaveRows` | internal/controller/controller.go:117-121 | in every interleaving of handlers, calls, faults and restarts, a Service, ConfigMap, Secret or non-terminating Deployment exists only while its server has a row |
| `TeardownProofs.StepIsOk` | internal/k8s/manager.go:86-117 | a single call of the loop touches only its own server's objects and drops the row only when nothing live is left of it |
| `TeardownProofs.MisnamedRowMakesStrays` | internal/controller/controller.go:103-105 | a running row whose configured name differs from its own leads to a Secret without a row |
| `WorldProofs.VolumeLossWasCleared` | internal/k8s/manager.go:109-120 | in every run, through hard resets, tombstones, teardowns, start and stop, re-creation, faults, restarts and database resets, a server keeps the very same volume until in that run its owner or a root user, in good standing, is cleared to purge it, or the purge handler finds no row for a root user |
| `WorldProofs.WorldSurvives` | internal/k8s/manager.go:109-120 | if nobody even asks to purge a server, it keeps the very same volume; a purge flag left over from a withdrawn deletion does no harm |
| `WorldProofs.VolumeLossIsAPurge` | internal/db/servers.go:52-56 | a step that takes a volume is a purge handler that had found no row, or the teardown of a row listed as deleting with the purge flag |
| `WorldProofs.WithdrawsPurge` | internal/db/servers.go:52-56 | an accepted deletion without purge, start or stop withdraws an earlier purge, unless the loop holds that very row listed |
| `PermissionProofs.OnlyOwnerOrRootPurges` | internal/api/api.go:185-192 | in every run, a row that gets the purge flag was cleared for it in that run by the user who owned it or by the one root user of that moment |
| `PermissionProofs.PurgeWasApproved` | internal/auth/middleware.go:93-110 | the caller who cleared it was then in the users table with the flags the check went by, neither suspended nor due to change the password |
| `PermissionProofs.DeletionWasApproved` | internal/api/api.go:157-175 | in every run, a row that turns deleting was cleared for deletion in that run by a user, not suspended, who was then its owner or, by the users table, an admin |
| `PermissionProofs.StateWasApproved` | internal/api/api.go:387-398 | in every run, a row that turns running was started, and one that turns stopped was stopped, by such a user |
| `PermissionProofs.TransferWasApproved` | internal/api/api.go:336-340 | in every run, a row that ends up with another owner was handed over to that very owner by such a user |
| `PermissionProofs.UpdateWasAllowed` | internal/api/api.go:545-549 | in every run, a row that ends up with another configuration was updated to that very configuration by such a user |
| `PermissionProofs.CheckApprovesIff` | internal/api/api.go:157-194 | a check approves a request exactly if its caller is in good standing, owns the server or is an admin, owns it or is root if it is to be purged, and the request makes sense |
| `PermissionProofs.ApprovalIsChecked` | internal/auth/middleware.go:52-110 | nothing else approves a request |
| `StartProofs.AcceptedStartIsLostIff` | internal/api/api.go:393-402 | an accepted start leaves the row running and an accepted stop stopped, and exactly when the loop alone can still drop it |
| `StartProofs.StartSticks` | internal/api/api.go:369-470 | otherwise the row stays in every run without a new deletion of it |
| `StartProofs.AcceptedStartLasts` | internal/api/api.go:393-449 | and it is still running, or still stopped, at the end of every run without another deletion, start or stop of it |
| `RowProofs.StepFate` | internal/db/servers.go:52-309 | for every event and every row: what may change in it and to which value, by whose right, how it can appear, and what can make it disappear |
| `WorldProofs.PurgeRacesCreate` | internal/api/api.go:478-504 | check, create, delete: the new server has its row, and the volume it was to start from is gone |
| `CorruptProofs.UndecodableForGood` | internal/controller/controller.go:97-101 | in every run without a database reset, whatever the names, a row that cannot be decoded stays so: no update repairs it and no deletion completes |
| `CorruptProofs.UndecodableTurnFails` | internal/controller/controller.go:84-101 | its turn touches no object and counts a failure |
| `RunProofs.NoLostWakeUp` | internal/controller/controller.go:42-63 | in every run without a failed listing and without a restart, each poked write has been listed, or a token waits, or the loop is woken and has not listed; never more than one token |
| `RunProofs.WakeUpLostIff` | internal/controller/controller.go:49-77 | exactly which step loses a wake-up: a listing that fails with no token left, or a restart, while some poked write is not listed |
| `RunProofs.LostUntilListing` | internal/controller/controller.go:49-77 | whenever a poked write is uncovered, such a step has lost it, and no listing has succeeded since |
| `RunProofs.ListingRestores` | internal/controller/controller.go:73-82 | whatever was lost, the next listing that succeeds covers every poked write again |
| `RunProofs.PokeOwedIff` | internal/api/api.go:130-132 | a handler that writes to the servers table owes a poke exactly if it answers with success and is not a hand-over |
| `RunProofs.TokenComesAndGoes` | internal/controller/controller.go:42-63 | a poke leaves exactly one token, which the idle loop takes to wake |
| `DriftProofs.TombstoneAfterThreeMisses` | internal/controller/controller.go:180-201 | in every run, when the drift pass adds a row for a server, this pass and two earlier ones since its count was last reset listed the rows without it |
| `DriftProofs.TombstoneIff` | internal/controller/controller.go:186-199 | exactly when a turn of the drift loop leaves a row in the table |
| `DriftProofs.CountAfterTurn` | internal/controller/controller.go:186-199 | the count of misses after a turn: none for a listed server or once a tombstone is in, else one more |
| `DriftProofs.DriftLeavesRows` | internal/db/servers.go:281-290 | the drift loop never alters or removes a row, even one created in mid-pass, and adds only tombstones that keep the storage |
| `DriftProofs.OnlyDeletionMarks` | internal/db/servers.go:52-69 | of all events only the write of an approved deletion turns a running or stopped row into a deleting one |
| `PortProofs.PortsStayApart` | internal/api/api.go:36-73 | in every run of all events, whatever the registry shows, rows hold pairwise disjoint aligned pairs in 30100 to 32767 |
| `RowProofs.IdentityForLife` | internal/api/api.go:563-570 | a row's port and world name never change while it lives |
| `PortProofs.EveryRunIsTidy` | internal/api/api.go:103-119 | every Service carries its own row's port pair, shared with no other row or Service, in every reachable state |
| `PortProofs.AllocatedIsApart` | internal/api/api.go:45-54 | an allocated pair is aligned, in range and shares no port with any row |
| `PortProofs.RacingCreatesCollide` | internal/api/api.go:103-119 | two creates that both allocate before either inserts give two rows the same pair |
| `PortProofs.TornUpdateMovesPort` | internal/api/api.go:563-579 | an update whose row is dropped and created anew between check and write gives the new row the old port |
| `OwnershipProofs.OwnershipHolds` | internal/db/users.go:42-186 | after every run, restarts and resets that are not cut in half included, there is exactly one root user, an admin and not suspended, and every row's owner is an existing user |
| `OwnershipProofs.TombstonesAreOwned` | internal/db/servers.go:281-285 | as long as restarts keep the configured name, inserting a tombstone under a free name never violates the foreign key |
| `OwnershipProofs.RenamedRootIff` | internal/db/servers.go:281-285 | in every run that leaves the configured name alone, tombstones under free names are accepted exactly if the configured name was a user at the start |
| `OwnershipProofs.RestartRenames` | internal/db/store.go:71-79 | a restart under another name keeps the old root user and only changes the configured name |
| `OwnershipProofs.ResetLeavesRootIff` | cmd/server/handlers.go:39-57 | a reset leaves a root user exactly if it is not cut off between deleting the users and creating him |
| `OwnershipProofs.RestartRepairsIff` | internal/db/store.go:71-79 | after such a cut and any further events, a restart brings a root user back exactly if the users table is still empty |
| `OwnershipProofs.SetUserKeepsOwnership` | internal/db/users.go:28-40 | an update behind the root check keeps the one root user and all owners |
| `UserProofs.UserStepFate` | internal/db/users.go:42-186 | for every event but a reset and every user: each column changes only by the operation on that user that is named after it; who can appear, with which flags, and who can be deleted |
| `UserProofs.UserOperationsWork` | internal/db/users.go:42-186 | each operation does what its name says to a user who is not root, and a deletion succeeds exactly if he owns nothing |
| `UserProofs.GuardedReplies` | internal/db/users.go:28-40 | a missing user and a root user are told apart and left alone |
| `UserProofs.AdminWasPromoted` | internal/db/users.go:119-136 | in every run without a reset, whoever is an admin and was none has been promoted |
| `UserProofs.SuspensionWasLifted` | internal/db/users.go:100-117 | in every run without a reset, a suspension ends only by lifting it |
| `PassTheorems.PassOrderIndependent` | internal/controller/controller.go:84-92 | with faults fixed per server and call, every permutation of the rows and of the registry entries gives the same tables, objects and drift counts |
| `PassTheorems.PassAt` | internal/controller/controller.go:84-92 | what a whole pass does to a listed server depends on that server's own row, objects, registry entry and faults only |
| `PassTheorems.PassElsewhere` | internal/controller/controller.go:84-92 | a server without a row keeps its objects in a pass and gets at most a tombstone |
| `PassTheorems.SharedPortsDependOnOrder` | internal/k8s/manager.go:66-72 | of two new rows with a common port the one listed first gets its Service and the other fails |
| `PassProofs.PassRowIsLocal` | internal/controller/controller.go:97-163 | a turn changes only its own server's slot and row, and agrees with a function of that slot and row |
| `PassProofs.PassRowsPointwise` | internal/controller/controller.go:84-91 | the row loop acts on every server as if it were alone, and makes the namespace exactly if some turn does |
| `PassProofs.DriftPassPointwise` | internal/controller/controller.go:180-201 | the drift loop acts on every entry as if it were alone |
| `PassProofs.ServiceAfterConverge` | internal/k8s/manager.go:61-72 | a turn leaves a Service alone, removes it, or gives it the ports its row asks for |
| `Convergence.ConvergesAlone` | internal/controller/controller.go:73-178 | two passes calm for one server, its registry entry in sync before the second, leave its row with no failures and all five objects with matching configuration and hash, one replica for a running and none for a stopped server; a third changes neither; what happens to the other servers does not matter |
| `Convergence.DeletionAlone` | internal/controller/controller.go:117-121 | a decodable deleting row is gone after one pass calm for it, with at most a terminating Deployment left, and the volume unless purged |
| `Convergence.TwoPassesConverge` | internal/controller/controller.go:73-178 | where no server is in the way, exactly the wanted rows remain, all settled with one replica or none, deleted servers are cleared, and a third pass changes nothing anywhere |
| `Convergence.StoppedNeedsSecondPass` | internal/controller/controller.go:165-169 | the first pass leaves every new server with one replica, so it settles exactly the running ones |
| `Convergence.PassKeepsTidy` | internal/controller/controller.go:73-95 | names and ports stay in order through any pass, whatever fails |
| `Convergence.FirstPassAt` | internal/controller/controller.go:126-163 | a pass calm for a ready server provisions it and zeroes its counter |
| `Convergence.NextPassAt` | internal/controller/controller.go:108-116 | a further pass that knows its Deployment changes the replica count only, to one for a running and to none for a stopped server |
| `Schedules.SelfRepairSchedule` | internal/controller/controller.go:126-135 | a row that keeps failing from counter 0 gets exactly (m-1)/5 hard resets in its first m passes |
| `Schedules.CalmPassResetsCounter` | internal/db/servers.go:243-260 | one pass calm for the server takes the failure counter back to 0 from any value |
| `Schedules.TurnKeepsOtherRows` | internal/db/servers.go:224-241 | a turn, failing or not, never changes another server's row |
| `Schedules.OrphanCleanedUp` | internal/controller/controller.go:186-197 | from any drift count a registry-visible orphan is torn down within four passes calm for it, its volume kept and its tombstone gone |
| `Schedules.GhostEntryCycles` | internal/controller/controller.go:186-199 | while a registry entry stays with nothing behind it, a tombstone exists exactly in the last of four recurring phases |
| `Schedules.PhaseIsModulo` | internal/controller/controller.go:186-199 | the phase i passes after phase c is c + i modulo 4 |
| `SlotProofs.RecreateStabilises` | internal/k8s/manager.go:119-150 | from any objects, a hard reset that returns nil saw the Deployment absent and built everything from the configuration, volume kept; on a calm API it returns nil exactly when the ports are free and the old Deployment goes in time |
| `SlotProofs.PollStops` | internal/k8s/manager.go:128-148 | the loop stops for every sleep, zero and negative included, and after at most deadline / sleep + 1 polls for a positive one |
| `SlotProofs.PollObserves` | internal/k8s/manager.go:132-147 | the loop reports absence only of an absent Deployment and touches nothing else |
| `SlotProofs.PollWaits` | internal/k8s/manager.go:132-147 | on a calm API the wait succeeds exactly if the Deployment goes within the deadline |
| `SlotProofs.WaitsThirtyPolls` | internal/k8s/manager.go:119-150 | in numbers: at most 31 polls, and with replies of at most 166 ms the wait succeeds exactly for a Deployment that is gone by the thirtieth |
| `SlotProofs.DeleteAllClears` | internal/k8s/manager.go:86-117 | after a nil return at most a terminating Deployment is left; the volume goes only when purging |
| `SlotProofs.LostReplyStillPurges` | internal/k8s/manager.go:109-115 | a purge reported as failed may have taken the volume all the same, and the next try then succeeds |
| `SlotProofs.CreateAllAdds` | internal/k8s/manager.go:29-84 | however it ends, creation only adds objects built from the configuration, the Deployment last |
| `SlotProofs.CreateAllFills` | internal/k8s/manager.go:29-84 | a nil return means all five objects exist; on a calm API it is nil exactly if a Service exists or its ports are free |
| `SlotProofs.CreateFromNothing` | internal/k8s/manager.go:29-84 | after an absence, a nil return means every object is the one built from the configuration |
| `SlotProofs.MarkerWrittenLast` | internal/k8s/manager.go:152-194 | with a failure after any call, the new hash is on the Deployment only if ConfigMap and Secret hold the new configuration |
| `SlotProofs.SoftPassKeepsHonest` | internal/controller/controller.go:136-157 | however a soft pass ends, an honest marker stays honest, so an interrupted apply is redone |
| `SlotProofs.SoftPassAgreesIffHonest` | internal/controller/controller.go:136-157 | on a calm API a soft pass makes ConfigMap, Secret and marker agree exactly if the marker was honest |
| `SlotProofs.InterruptedResetFreezesOldConfig` | internal/k8s/manager.go:50-59 | after an interrupted hard reset the next soft pass stamps the new hash over the old ConfigMap, and no later one notices |
| `SlotProofs.RevertedConfigIsDishonest` | internal/k8s/manager.go:152-194 | an apply cut off after the ConfigMap and a return to the old configuration leave the old hash over the new ConfigMap, and no soft pass notices |
| `SlotProofs.InterruptedCreationFreezesConfig` | internal/k8s/manager.go:29-84 | a creation cut off after the ConfigMap and an update leave the new hash over the first ConfigMap, and no soft pass notices |
| `HonestyProofs.TrustLostIff` | internal/controller/controller.go:126-157 | for every event: trust in a server's marker is lost exactly if it gets another target between passes, or the loop gives it up half-way, and its objects do not fit what it is wanted to be then |
| `HonestyProofs.MarkersAreHonest` | internal/controller/controller.go:136-157 | in every run without such a step, configuration updates in mid-pass included, its marker is honest whenever the loop is not in a turn for it and no outdated row of it is listed |
| `HonestyProofs.ReadyToConverge` | internal/controller/controller.go:136-163 | such a server is ready for the convergence theorem when the loop wakes |
| `HonestyProofs.CallKeepsTruth` | internal/k8s/manager.go:152-194 | every single call of a turn, with any fault that does not cut a hard reset off, keeps what the next call relies on, and ends with the right mark on a standing Deployment once past the hash test |
| `Ports.AllocateServerPort` | internal/api/api.go:36-73 | the two marking loops and the strided scan return the least even port from 30100 to 32766 such that no row and no registry entry has a port in the pair, or nothing when the listing fails or every pair is met |
| `Ports.AllocationIff` | internal/api/api.go:45-72 | of all answers exactly the allocator's is that one |
| `Ports.Scan` | internal/api/api.go:66-72 | the loop finds the least free aligned pair, or nothing exactly if all 1334 are blocked |
| `Ports.MarkRows` | internal/api/api.go:45-54 | the first loop collects the ports p and p+1 of the decodable rows, with 32-bit wrap-around |
| `Ports.MarkEntries` | internal/api/api.go:55-64 | the second loop collects the non-zero ports of the registry entries |
| `Ports.LeastFreePairIsUnique` | internal/api/api.go:66-72 | the allocator's promise determines its answer |
| `Ports.AllocatesBelowCapacity` | internal/api/api.go:66-72 | it succeeds whenever fewer than 1334 ports of the range are taken |
| `Ports.AllocatesForFewRows` | internal/api/api.go:45-72 | with aligned row ports and a registry that adds none, it succeeds whenever there are fewer than 1334 rows |
| `Informer.EntryIsProductOfFolds` | internal/k8s/informer.go:245-380 | while an entry exists and no Deployment delete arrives, any interleaving leaves the product of one fold per informer over that informer's own stream |
| `Informer.InterleavingsAgree` | internal/k8s/informer.go:245-380 | two interleavings of the same per-server streams leave the same entry |
| `Informer.ReplayProjects` | internal/k8s/informer.go:87-107 | from any registry, replay makes a listed server's entry the projection of its cached objects; parts without an object keep their value |
| `Informer.ReplayEntry` | internal/k8s/informer.go:87-107 | after replay a server has an entry exactly if it had one or is listed; pods alone make none |
| `Informer.ReplayTwiceIsOnce` | internal/k8s/informer.go:87-107 | replaying twice equals replaying once, for any caches, several pods of one server included |
| `SyncProofs.ReplaySyncsIff` | internal/k8s/informer.go:87-107 | replay of up-to-date caches over any registry puts a server in sync exactly if it has a Deployment, or neither an old entry nor a Service |
| `SyncProofs.DeliverySyncs` | internal/k8s/informer.go:245-257 | after the present Deployment has been delivered, no interleaving of the other informers' and servers' events puts the server out of sync |
| `Informer.ServiceNameRoundTrip` | internal/k8s/informer.go:303 | the Service's name leads back to its server |
| `Informer.TrimsSuffixOnly` | internal/k8s/informer.go:303 | nothing but the suffix is trimmed, and only where it is |
| `Informer.StatusMeans` | internal/k8s/registry.go:93-111 | which status a Deployment gets, each by an exact condition |
| `Informer.DeploymentWrites` | internal/k8s/informer.go:245-272 | the fields a Deployment event writes, and that its deletion needs no label |
| `Informer.ServiceWrites` | internal/k8s/informer.go:299-317 | the last port of either name becomes the game port or the query port |
| `Informer.PodWrites` | internal/k8s/informer.go:319-349 | the node, and of the first container its restarts, start time or reason to wait |
| `Informer.InformerManager.UpsertDeployment` | internal/k8s/informer.go:245-257 | the registry after a Deployment event |
| `Informer.InformerManager.DeleteDeployment` | internal/k8s/informer.go:259-272 | the registry after a Deployment delete, which checks no label |
| `Informer.InformerManager.UpsertService` | internal/k8s/informer.go:299-317 | the port loop takes the last port of each name; the registry after a Service event |
| `Informer.InformerManager.DeleteService` | internal/k8s/informer.go:274-297 | ports are zeroed only in an existing entry |
| `Informer.InformerManager.UpsertPod` | internal/k8s/informer.go:319-349 | pod fields change only in an existing entry; an empty container list keeps them |
| `Informer.InformerManager.DeletePod` | internal/k8s/informer.go:351-380 | pod fields are zeroed only in an existing entry |
| `Informer.InformerManager.Replay` | internal/k8s/informer.go:87-107 | the three loops apply all Deployments, then Services, then Pods |
| `Registry.ServerRegistry.List` | internal/k8s/registry.go:48-56 | every entry exactly once, in no particular order |
| `Registry.ServerRegistry.Upsert` | internal/k8s/registry.go:58-69 | changes the entry, made fresh if there was none, and no other |
| `Registry.ServerRegistry.Delete` | internal/k8s/registry.go:71-79 | removes the entry and no other |
| `Registry.ServerRegistry.UpdateIfExists` | internal/k8s/registry.go:81-91 | changes an existing entry and says whether there was one |
| `Builder.PublishedRoundTrip` | internal/k8s/builder.go:108-166 | reading each setting back under its own name, numbers as decimals and booleans as words, gives exactly the configuration, for every configuration |
| `Builder.PublishedDeterminesConfig` | internal/k8s/builder.go:108-166 | so the 21 ConfigMap strings and the Secret password determine every field of the configuration |
| `Builder.HashTestIsExact` | internal/controller/controller.go:143-157 | with an injective hash, the controller's comparison differs exactly if some published value differs |
| `Builder.CfgMapper` | internal/k8s/builder.go:108-132 | the assignments set every variable, and what they set reads back as the configuration |
| `Builder.ItoaRoundTrip` | internal/k8s/builder.go:113 | the signed decimal printer can be read back |
| `Builder.FormatBoolInjective` | internal/k8s/builder.go:112 | the boolean printer is injective |
| `Manager.ServerManager.CreateAll` | internal/k8s/manager.go:29-84 | the calls in order, the first error returned, an existing object accepted |
| `Manager.ServerManager.DeleteAll` | internal/k8s/manager.go:86-117 | the calls in order, the first error returned, a missing object accepted |
| `Manager.ServerManager.RecreateAll` | internal/k8s/manager.go:119-150 | teardown, the waiting loop with its deadline, creation |
| `Manager.ServerManager.ApplyConfig` | internal/k8s/manager.go:152-194 | ConfigMap, Secret, then the hash on the Deployment read back |
| `Controller.Controller.Reconcile` | internal/controller/controller.go:73-95 | a failed listing changes nothing; otherwise the whole pass over the rows as listed and the registry as iterated |
| `Controller.Controller.ConvergeRows` | internal/controller/controller.go:84-91 | the row loop goes on after a failing row and counts it |
| `Controller.Controller.ConvergeRow` | internal/controller/controller.go:97-124 | one row's turn, corrupt configurations included |
| `Controller.Controller.StateActions` | internal/controller/controller.go:126-163 | hard reset or soft pass, hash test, scaling, counter reset |
| `Controller.Controller.EnsureReplicas` | internal/controller/controller.go:165-178 | scaling, skipped when the registry has no entry or already the wanted count |
| `Controller.Controller.DriftPass` | internal/controller/controller.go:180-201 | the drift loop over the registry in some order |
| `Controller.Trigger.Poke` | internal/controller/controller.go:42-47 | afterwards exactly one token waits in the channel of capacity one |
| `Database.Database.constructor` | internal/db/store.go:16-81 | the root user is created only in an empty users table |
| `Database.Database.ListServerConfigs` | internal/db/servers.go:191-222 | every row exactly once, in no particular order |
| `Database.Database.MarkDeleting` | internal/db/servers.go:52-69 | state and purge flag of an existing row, nothing else |
| `Database.Database.CreateServer` | internal/db/servers.go:86-111 | a new running row, refused on a taken name or an unknown owner |
| `Database.Database.DeleteServer` | internal/db/servers.go:113-129 | removes the row or reports it missing |
| `Database.Database.TransferServer` | internal/db/servers.go:172-189 | a new owner who must be a user |
| `Database.Database.IncrementFailure` | internal/db/servers.go:224-241 | adds one to the counter of an existing row |
| `Database.Database.ResetFailures` | internal/db/servers.go:243-260 | zeroes the counter of an existing row |
| `Database.Database.UpdateState` | internal/db/servers.go:262-279 | the wanted state of an existing row; the purge flag stays |
| `Database.Database.InsertOrphanTombstone` | internal/db/servers.go:281-290 | a deleting row without purge, owned by the configured root user |
| `Database.Database.UpdateServerConfig` | internal/db/servers.go:292-309 | the configuration of an existing row |
| `Database.Database.UpdateUser` | internal/db/users.go:81-98 | an update that never touches a root user |
| `Database.Database.CreateUser` | internal/db/users.go:42-61 | a new user who is not root |
| `Database.Database.DeleteUser` | internal/db/users.go:63-79 | neither root nor an owner can be deleted |
| `Database.Database.SuspendUser` | internal/db/users.go:81-98 | suspends a user who is not root |
| `Database.Database.UnsuspendUser` | internal/db/users.go:100-117 | lifts the suspension of a user who is not root |
| `Database.Database.PromoteUser` | internal/db/users.go:119-136 | makes a user who is not root an admin |
| `Database.Database.DemoteUser` | internal/db/users.go:138-155 | makes a user who is not root no admin |
| `Database.Database.ResetPassword` | internal/db/users.go:169-186 | a new password that must be changed, not for root |
| `Database.Database.UpdatePassword` | internal/db/users.go:157-167 | a new password for any user, without root check or affected-rows test |
| `Database.Database.ResetDatabase` | internal/db/store.go:115-129 | rows, then users; an error in between leaves the rest |
| `Database.Database.BootstrapAdmin` | internal/db/store.go:92-113 | the configured root user, refused if the name is taken |
| `Api.ApiConfig.CreateGameServer` | internal/api/api.go:75-140 | conflict on a registry entry or a row, else a row with a freshly allocated pair, a provisional entry and a poke |
| `Api.ApiConfig.DeleteGameServer` | internal/api/api.go:150-224 | who may delete, who may purge, the mark, the registry status and the poke |
| `Api.ApiConfig.SetGameServerState` | internal/api/api.go:369-470 | start and stop refuse only the state already wanted, so they take a deleting row back |
| `Api.ApiConfig.UpdateGameServerConfig` | internal/api/api.go:525-602 | port and world must stay, everything else may change |
| `Api.ApiConfig.TransferGameServer` | internal/api/api.go:305-367 | the new owner must exist; no poke |
| `Api.ApiConfig.DeletePVC` | internal/api/api.go:472-523 | refused while a row exists or without confirmation, otherwise the volume goes |
| `Api.ApiConfig.ResetAll` | cmd/server/handlers.go:39-57 | the three statements of a reset, the first error returned, and the poke |
| `HandlerProofs.RequestAnswers` | internal/api/api.go:150-470 | strangers get 403, an admin who is neither owner nor root gets 403 for a purge, a start of a running and a stop of a stopped server 409, a missing server or new owner 404, each exactly then and changing nothing |
| `HandlerProofs.RequestWrites` | internal/api/api.go:150-470 | otherwise exactly the row asked for is as asked for, unless the statement fails |
| `HandlerProofs.LateWriteFindsNothing` | internal/api/api.go:194-202 | a write whose row is gone by then changes nothing and answers 404, a hand-over 500 |
| `HandlerProofs.UpdateAnswers` | internal/api/api.go:525-602 | 404, 403, 400 and 200, each by an exact condition: entitled caller, password and mods acceptable, port and world kept |
| `HandlerProofs.CreateAnswers` | internal/api/api.go:98-128 | 409 exactly if the registry or the table knows the name, 202 exactly if nothing stands in the way |
| `HandlerProofs.CreateWrites` | internal/api/api.go:103-119 | a new row is running, not purging, without failures, and has the least port pair that rows and registry leave free |
| `HandlerProofs.ResetAnswers` | cmd/server/handlers.go:39-57 | 200 exactly if all three statements succeed, and then nothing is left but the root user, an admin who must change the password |

## Left out

- HTTP, JSON, templates, login, request validation and read-only handlers: decoding is taken to undo encoding, and a corrupt column is a case of the data.
- User-management handlers in internal/api/user_management.go: only the store operations behind them.
- Node and endpoint informers and `NetworkHealth`.
- Timestamps, logging, uptime and the health shown to users (`deriveHealth`): single branches that nothing else depends on.
- Real SHA-256: the hash is an ideal one, its digest standing for the configuration itself.
- Data races on the shared `ServerState` pointers: registry operations are atomic.
- The session token and its expiry: a request carries the user the middleware found. That look-up and the handler's own check are one step.
- Interleavings inside the create and update handlers: their reads and their one write are one step. That is the serial case of the port and identity theorems; `PortProofs.RacingCreatesCollide` and `PortProofs.TornUpdateMovesPort` show what goes wrong otherwise. The three statements of a reset are one step too, though each may fail.
- A desired state other than the three the handlers write: the controller then does nothing with the row.
- A cancelled context, and failures of the reads inside handlers.
- The API server is reduced to the calls the manager makes. A new Service is refused when its pair leaves 30000 to 32767 (the default node port range) or meets another managed Service; foreign Services are not there.
- The namespace is a flag, and no other tenant creates or deletes objects.
- TeardownProofs.ObjectsHaveRows: does not count a Deployment that is already terminating, because Kubernetes keeps it visible after the row may be gone; database resets are excluded because they drop rows and keep objects.
- Schedules.SelfRepairSchedule: a counter reset that took effect but was reported as failed is excluded, because it moves the counter.
- Convergence.ConvergesAlone: starts from a ready server: honest marker (or a hard reset that is due and can finish), a port that exists, no Deployment on its way out. In the other cases more passes are needed or the server never converges.
- Convergence.TwoPassesConverge: is about clusters in which nothing stands in the way of any server: all calls calm, rows decodable and ready, deletions prompt, no Deployment or registry entry without a row. `Convergence.ConvergesAlone` and `Convergence.DeletionAlone` say the same for one server without asking anything of the others.
