# CentralCloud node agent: a verified model

The node agent runs one panel deployment per customer on a node. HTTP calls put operations into a queue in SQLite; a pool
of workers takes them out and runs long procedures (create, start, stop, restart, upgrade, soft delete, purge, admin
reset) against Docker, PostgreSQL and the disk, moving each deployment through a thirteen-state lifecycle. When the
process restarts, every operation that was running goes back into the queue and its procedure starts again from the top.
This project models that machinery and proves what holds across all interleavings, failures and crashes.

`dafny verify dfyconfig.toml` checks everything.

## How the model is built

Two layers describe the queue and the lifecycle.

* **The queue, call by call** (`Store`, `Sqlite`, `Queue`, `PurgeTokens`, `Idempotency`, `Service`). `Store` says what
  each SQLite statement or transaction does to the tables, including the partial unique index on active operations;
  `Sqlite.Repository` is the repository class, proved to do exactly that. `Queue` is a machine in which any number of
  HTTP clients and workers make these calls in any order, and the process may die between any two. `Service.Calls` holds
  the service's submit methods as straight-line code, proved to be uninterrupted runs of the machine's clients.
* **The procedures, step by step** (`Host`, `Programs`, `Procedures`, `Agent`). Each procedure is a program with a
  program counter; one step is one call to the database, to Docker, to PostgreSQL or to the disk, with an outcome chosen
  by the environment: it works, it fails, it takes effect but reports an error, it stops halfway, or it stops between
  making something and marking it as the deployment's. `Procedures.Worker` is the same code as straight-line methods
  with early returns, proved to return what the programs return and leave what they leave. `Agent` puts queue, workers
  and programs together; `AgentRefinesQueue` shows that every run of it is a run of the queue machine, so the first
  layer's results carry over.

`Duties` tells, without the programs, what the call at each program point is for, what it may change and whether its
report counts, and `Decisions` likewise what each API call is to answer; programs and calls are proved to keep to them.
`Journeys` follows a worker from its claim to its return, and `Requests` an operation from the call that asked for it.

`Invariant`, `Preservation`, `Submission` and `Soundness` hold the inductive invariant and its proof; `Guarantees`,
`Destruction`, `Progress`, `Convergence`, `Outcomes`, `Upgrades`, `Strays` and `Capacity` draw the conclusions. Where a
promise needs a condition, a concrete run shows what happens without it: `Leftovers`, `Refusals`, `Overlaps`, `Renewals`
and parts of `Strays` and `Capacity`; `Runs` tells such runs of the agent event by event.

The outside components are modelled once more on their own, at the granularity of their own calls, and each is proved to
refine the one call the procedures make: `DirectoryStore` (owned directories with marker and quarantine, on a tree of
paths), `Postgres` (roles, databases, session role and membership, statement by statement), `Docker` (networks,
containers found by label, and the backup utility's containers, which carry the same labels). `SecretFiles` holds the
files written before a container is made. In these modules a list of fates says which numbered call fails; a crash
between two calls leaves what a failure of the later call leaves. `TextTime`, `RequestHash`, `Names`, `Hostnames`,
`Validation` and `Retention` treat timestamps as text, the hashed request encoding, derived names, hostnames and router
rules, request validation, and backup pruning.

## Assumptions

* Each SQLite call is atomic (the pool has one connection). Inside `Agent` an API call is one step, but it may stop
  after any of its database calls. `Idempotency`, `Capacity` and `Renewals` say at the granularity of single calls what
  this costs: an overtaken create can take an active deployment back to pending (`RenewalLosesActive`), and nothing of
  the kind happens while nothing else touches a row between a create's look at it and its rewriting of it
  (`RenewalsLoseNothing`). The two writes that close a failed operation (its status, then the deployment's
  state) are one step: with a crash between them a deployment can keep a transient state without an owner
  (`CrashWhileClosingOrphans`).
* Repository writes whose errors the code drops (`FailOperation`, `CompleteOperation` and `CompletePurge` in `process`,
  the save and the last transition of an upgrade's rollback) succeed.
* In `Agent` an entry of another kind in the place of a directory or its marker, and networks or containers of others
  under the agent's names, are failures of the call that meets them. `DirectoryStore` and `Docker` say exactly when
  there are such.
* Building a container's specification with its router rule, and writing its secret files, are part of the call that makes
  the container, or takes the backup; a rule that does not render or a refusal to rewrite a file is a failure of that
  call. Every result allows for such failures; the results about runs of successful calls presuppose that there are
  none, and `AcceptedRenders` and `SecretFiles` say exactly when there are.
* A utility container that outlives its call changes nothing more in its database, and whether a command or a health
  check succeeds in it is left open.
* Deployments and operations are numbers in the machines; their UUID texts are treated in `Names`. Row content that the
  procedures only pass on is one field. SHA-256 is injective.
* `installed`, `issued`, `serials`, `grants`, `origin`, `found`, `stale`, `kept`, `halted`, `migrated` and `grown` are
  history: they record what happened and never influence it (a token is looked up in `serials`, and every token has its
  entry there).
* A database's `content` is its tables and other objects by name, as the agent's own commands (install, migrate, admin
  reset, restore) leave them. A restore drops and recreates the objects that are in the dump and touches no others.

## Where the code and its documentation disagree

* The documentation says that after a restart every external step is replayed idempotently. The code's reruns of a start
  from `healthchecking` and of an upgrade from `updating` are refused and leave the deployment failed
  (`RejectionEndsFailed`), a role or database that was created but not yet marked is refused for ever
  (`StrandedStays`), and a directory's marker that was cut short within its id by a crash or a failed write blocks every
  later create and purge (`SpoiltBlocks`, reached in `CutMarker`); one that lacks only its line end is accepted
  (`CutMarkerText`).
* The containers that run `pg_dump` and `pg_restore` carry the two labels by which the panel is found, are removed by one
  call whose error is dropped, and are not looked for after a restart. One that is left beside the panel makes every later
  operation on its deployment but the stop of a stopped one fail for ever (`SeveralBlocks`, reached in
  `DyingBackupBlocks`); one that is left alone is taken for the panel, which is then never made (`FoundIsKept`, reached in
  `DyingRestoreDisplaces`). `CreateCompletes` and `DeleteCompletes` say exactly when a create or delete gets through.
* Secret files are created with mode 0400 and written in place. The shipped unit and image run the agent as an
  unprivileged user, for whom a file that is there cannot be opened for writing: there an upgrade, or a create that is
  asked for again, fails until the files are removed by a delete or with the runtime directory (`WrittenTwiceIff`).
* The documentation says that a purge removes the deployment's PostgreSQL database. It removes the one its row names: a
  deployment created anew under another name after a failed create still owns the first one (`OrphanedDatabase`), and
  `DeleteConverges` says exactly when nothing is left. When both were made under one user name, the purge cannot even
  end: the server does not drop a role that owns a database, so that the purge drops the database it names, fails at the
  role, and fails there again each time (`SharedRoleBlocks`, reached in `OneRoleTwoDatabases`).
* The documentation promises upgrades with backup and rollback. The rollback's restore replaces what is in the dump, and
  tables that the failed migration added stay (`UpgradeOutcome`, `OverlaidIsDump`).
* A directory that is made again while the quarantined copy of an interrupted purge is still there can never be purged
  (`EnsuredIsPurgeable`).
* A create that is overtaken between its look at a failed deployment and its rewriting of the row writes back what it saw,
  so that a deployment that another create has made active meanwhile becomes pending (`RenewalLosesActive`).
* Creates that overlap can exceed the node's limit on deployments, by at most one less than their number, and calls under
  one idempotency key that overlap can make two operations (`OverlappingCreatesExceedCapacity`, `OverlapsBoundTheExcess`,
  `OverlappingCallsShareAKey`); calls that do not overlap cannot (`CapacityHolds`, `OneOperationPerKey`), nor can calls
  that overlap only under different keys (`KeysApartSuffice`).
* A purge token can be accepted after its expiry, though never as late as a second after, because fractions lose their
  trailing zeros in the compared texts (`TokenAcceptedIff`).

## Model
| member | source | states |
|---|---|---|
| Guarantees.TransientStatesAreOwned | internal/deployment/service.go:365-541 | In every reachable state, across crashes and restarts, a deployment in a transient state has exactly one queued or running operation, of the kind that owns that state: create on the creation path, create, start or restart while starting and healthchecking, upgrade while updating, a delete while deleting |
| Guarantees.MemoryMatchesStore | internal/deployment/service.go:446-530 | While a create or an upgrade runs, past its first read, its in-memory row is the stored row in every reachable state |
| Guarantees.SavesChangeOneColumn | internal/storage/sqlite.go:114-131 | Hence each whole-row save changes exactly the column it is for: the bootstrap secret after installation, the image in an upgrade and its rollback; no update of another party is lost |
| Guarantees.StatesMoveAlongEdges | internal/storage/sqlite.go:182-208 | Every step of every run moves the stored state of every surviving deployment along an edge of the transition table or not at all |
| Guarantees.InstalledBeforeUsable | internal/deployment/service.go:521-540 | A deployment that is healthchecking, active, stopped or updating holds no bootstrap secret, and its install command has succeeded since its last accepted create |
| Destruction.DestructionIsAuthorised | internal/deployment/service.go:784-820 | A step after which a deployment has lost a database, a role, panel storage or backups is a step of a worker that runs a purge of it, for which a token of that deployment had been issued; no two purges share an issuance |
| PurgeTokens.PurgesArePaidFor | internal/deployment/service.go:276-324 | At call granularity, in every run, all purges ever queued map injectively to token issuances for the same deployment: a token is spent at most once and no purge exists without one |
| Convergence.CreateConverges | internal/deployment/service.go:459-541 | From any reachable state in which a worker is anywhere in a create, however many crashes and reruns came before, eighteen of its steps whose calls succeed and are not refused end active, with database, role, networks, directory and a running container that carries the labels; it is the panel of the stored request exactly when none was found, or that very panel |
| Convergence.HistoryLeavesNoTrace | internal/deployment/service.go:459-541 | Two creates of equal requests that found equal containers end with equal rows up to the sealed secret and the same set of networks, directory and container, whatever crashes each has behind it |
| Convergence.DeleteConverges | internal/deployment/service.go:784-820 | A delete interrupted anywhere and run again with calls that succeed and are not refused ends within nine steps from every state it can meet, with nothing left of what it is for; after a purge the deployment owns no database and no role exactly when before it owned none beside the ones the purge names |
| Convergence.CreateCompletes | internal/deployment/service.go:459-541 | A create left alone for eighteen successful steps returns nil exactly when no call still ahead of it is refused: its names are free or its own, the marker of its directory was not cut short, and at most one container carries the deployment's labels; it has made no panel exactly when the container it found was the backup utility's |
| Convergence.DeleteCompletes | internal/deployment/service.go:784-820 | A delete left alone for nine successful steps returns nil exactly when no call still ahead of it is refused; a soft delete exactly when at most one container carries the labels, a purge also only when what exists in PostgreSQL is marked for it, its role owns no other database, and of each directory there is nothing or one marked copy |
| Refusals.SharedRoleBlocks | internal/postgres/postgres.go:171-245 | While the role named in a deployment's row owns another database of that deployment, no purge of it returns nil in any continuation of the run in which its names stay, whatever else is asked for or fails: role, database and row stay |
| Refusals.OneRoleTwoDatabases | internal/deployment/service.go:178-208 | There is a run to such a deployment: two creates under one user name and two database names that both fail once their database is made |
| Refusals.SpoiltBlocks | internal/localstorage/storage.go:181-229 | Once the marker of a deployment's panel directory was cut short it is so for ever, and no create and no purge of the deployment returns nil again |
| Refusals.CutMarker | internal/localstorage/storage.go:181-206 | There is a run to such a deployment: a create that stops while it writes the marker |
| Strays.SeveralBlocks | internal/docker/client.go:259-300 | Once two containers carry a deployment's labels they do for ever, whatever the agent is asked to do: no operation on it ever ends without an error again, except the stop of a deployment that is stopped, and its row stays |
| Strays.DyingBackupBlocks | internal/backup/docker.go:108-160 | There is a run to such a deployment: one create, one upgrade, and a process that dies while the backup utility's container runs |
| Strays.FoundIsKept | internal/docker/client.go:208-214 | At every point of a create the container it found is the one that is there, so that a create which found the utility's container makes no panel |
| Strays.DyingRestoreDisplaces | internal/backup/docker.go:81-130 | There is a run to such a create: the process dies while a rollback restores the backup, and the deployment is created anew |
| Outcomes.PurgeIsAtomic | internal/storage/sqlite.go:276-299 | In every run a deployment's row disappears in exactly the steps in which a purge of it becomes succeeded; its tokens go in the same step, and its container, networks, database, role, panel storage and backups are gone by then |
| Leftovers.OrphanedDatabase | internal/deployment/service.go:178-208 | There is a run in which a purge of a deployment succeeds and a database and a role marked for it remain, because it was created anew under other names after a create that failed |
| Upgrades.UpgradeOutcome | internal/deployment/service.go:679-783 | An upgrade of an active or stopped deployment, with any other work beside it, returns nil only after migration and health check of the running new image have reported success, with the new image in row and container and the starting state restored, running unless it was stopped again; or rolls back after exactly one failed call on trial, with the health of the old panel checked, to the old image and the active state; or ends failed. After a rollback the database holds what it held before over what was there at the restore: exactly what it held before if and only if that added nothing, as when no migration ran. Stated exactly are also a container that outlives the rollback's removal and the restore's utility container found in the panel's place |
| Host.OverlaidIsDump | internal/backup/docker.go:81-107 | A restore, which drops and recreates what is in the dump, gives back exactly the dump if and only if there is nothing beside it |
| Outcomes.RejectionEndsFailed | internal/deployment/service.go:365-390 | An operation whose procedure does not accept the stored state returns an error whatever happens and leaves the deployment failed, unless it was deleted: a start of an active one, an upgrade to the same image, and the rerun of a start from healthchecking or of an upgrade from updating |
| Outcomes.ErrorEndsFailed | internal/deployment/service.go:365-390 | Every other error of a procedure also closes its operation as failed and leaves the deployment failed, with the error in its row and nothing else of the row changed, unless it was deleted or failed already |
| Outcomes.FinishEffect | internal/deployment/service.go:365-390 | What closing an operation does to all tables: success, success of a purge, failure with the deployment's move, and failure after a rollback without one |
| Duties.StepsDoTheirPart | internal/deployment/service.go:446-820 | Every step of every procedure, at whatever point: one that goes on has done what its point is for, on a good report wherever reports count, and remembers what it should; a bad report that counts ends in the error, on an upgrade's trial in the rollback, and leaves the row as it was or as the call was to write it; and nothing but what the call is about has changed |
| Journeys.ReturnsAreEarned | internal/deployment/service.go:391-415 | In every run that does not interrupt it, a worker that returns nil from an operation it has claimed has made every call of that kind's procedure, in order, each with a good report where reports count, and each has done its part; an upgrade that was rolled back has failed in exactly one call on trial and has then made every call of the rollback |
| Journeys.CreateIsChecked | internal/deployment/service.go:503-541 | A create that returned nil has pulled the image, waited for the runtime and installed in a running panel, and has checked a running panel's health while healthchecking, and each of these calls has reported success |
| Journeys.StopStops | internal/deployment/service.go:663-678 | A stop that returned nil on a deployment it did not find stopped has made its stop call with success, and no container of the deployment runs as long as the worker is there |
| Journeys.RestartStopsAndStarts | internal/deployment/service.go:398-402 | A start or restart that returned nil has started the container and checked a running panel's health with success; a restart that did not find its deployment stopped has stopped the container before, and between the two it does not run |
| Journeys.ResetWasRun | internal/deployment/service.go:417-437 | An admin reset that returned nil has run its command in the running panel, which reported success |
| Journeys.FailedCallFails | internal/deployment/service.go:365-390 | A bad report that counts, at any point of any procedure, ends its operation in failure and leaves the deployment failed, except on an upgrade's trial, which is rolled back |
| Queue.WorkerExclusion | internal/storage/sqlite.go:49 | In every run at most one operation of a deployment is queued or running, and no two workers hold the same operation or operations of the same deployment |
| Queue.FinalStatusesAreFinal | internal/storage/sqlite.go:266-307 | Succeeded and failed are absorbing, and a stored response is never replaced, in every continuation of every run |
| Queue.RunKeepsExclusive | internal/storage/sqlite.go:68 | The index holds exactly the queued and running operations and every claim is of a running one, after any events including requeues |
| Queue.RebootRequeues | internal/storage/sqlite.go:68 | A restart leaves nothing running and no claim: the queued operations are then exactly those that were queued or running, otherwise unchanged |
| Queue.CloseEffect | internal/storage/sqlite.go:266-303 | Closing an operation changes its own status and the index, and for a purge drops the payloads, tokens and row of its deployment, and nothing else of any operation |
| Queue.PerformEffect | internal/deployment/service.go:128-324 | A client's database call touches operations only by queuing the one operation it asks for, told by its own fields, whose number it answers, and is refused when the deployment has an active one; it touches stored responses only by adding its own under its key |
| Agent.AgentRefinesQueue | internal/deployment/service.go:332-415 | The database calls of every run of the agent are a run of the queue machine |
| Submission.SubmitEffect | internal/deployment/service.go:128-324 | A submission with nothing beside it, complete or stopped after any of its calls, writes at most one row, pending and with the request and bootstrap secret of the call and the sealed secret it had or the call's, and queues at most one operation, which is what the call asks for |
| Requests.OperationsWereAsked | internal/deployment/service.go:210-241 | In every run every operation was asked for by a call that has arrived on a route, with its deployment, kind and payload, a purge's forgetting of payloads aside |
| Requests.ProceduresWereAsked | internal/deployment/service.go:391-415 | So was every procedure a worker runs: no worker ever deletes, purges, upgrades or restarts what nobody asked it to |
| Requests.AcceptedCreateIsMade | internal/deployment/service.go:128-220 | A create that was accepted makes what was sent: whatever happens between, when a worker returns nil from its operation, the row is active with the request of the call, and the one running container is the panel of that very request, or the one container that was there already |
| Decisions.CreateIsDecided | internal/deployment/service.go:128-220 | What a create answers and changes, with nothing beside it: a known key decides alone, then room on the node for an unknown deployment, then the state of a known one; it is accepted exactly when all allow it and no operation is active, and then row, operation and stored response are those of the call |
| Decisions.ActionIsDecided | internal/deployment/service.go:222-241 | Likewise for starts, stops, restarts, upgrades, soft deletes and resets: accepted exactly when the key is new, the deployment known and no operation of it active; the row is not touched |
| Decisions.TokenIsDecided | internal/deployment/service.go:276-299 | A token is issued exactly when the key is new and the deployment known; its text is answered, its digest and expiry stored |
| Decisions.PurgeIsDecided | internal/deployment/service.go:300-324 | A purge is accepted exactly when the key is new, its token is one of the deployment's, unspent and as a text not expired, and no operation is active; the token is spent before that is known |
| Soundness.RunKeeps | internal/deployment/service.go:340-415 | The invariant that ties rows, operations, claims, stack frames, Docker objects and cluster together holds after every run |
| Soundness.AdvanceKeeps | internal/deployment/service.go:391-415 | One step of any procedure keeps its deployment's invariant, moves the state along the table, and leaves what other deployments own in PostgreSQL alone |
| Preservation.ProvisionKeeps | internal/deployment/service.go:459-541 | Each of the eighteen steps of a create keeps what the steps before it have built, whatever its call does |
| Preservation.StopKeeps | internal/deployment/service.go:663-678 | Each step of a stop keeps the invariant of its deployment |
| Preservation.StartKeeps | internal/deployment/service.go:639-662 | Each step of a start keeps the invariant of its deployment |
| Preservation.UpgradeKeeps | internal/deployment/service.go:679-783 | Each step of an upgrade and of its rollback keeps image, container and backup as the outcome needs them |
| Preservation.RemoveKeeps | internal/deployment/service.go:784-820 | Each step of a delete keeps what the steps before it have removed gone |
| Preservation.ResetKeeps | internal/deployment/service.go:417-437 | An admin reset keeps its deployment's row, state and objects |
| Preservation.MovesTogether | internal/deployment/service.go:446-458 | A transition made from a row equal to the stored one moves both alike, skips what is no edge, or returns an error |
| Destruction.OnlyPurgeDestroys | internal/deployment/service.go:459-820 | No step of any procedure but a purge takes a database, a role or a directory, panel or backups, from its deployment |
| Progress.StepsShrink | internal/deployment/service.go:459-820 | Every procedure returns within a fixed number of its own steps, whatever its calls report |
| Progress.StaysOnCourse | internal/deployment/service.go:459-820 | A step whose call succeeds and is not refused never leads to an error or to the rollback |
| Lifecycle.EdgesByTarget | internal/domain/state.go:23-37 | The transition table read by target: what may fail, be deleted, become active, stopped or updating, and that each state of the creation path is entered only from the one before it |
| Idempotency.StoredKeysReplay | internal/deployment/service.go:104-113 | Once a response is stored, every later call with its key is answered with that very response when the hash matches and refused otherwise, under any interleaving and after any crash, and changes nothing in the database |
| Idempotency.OneOperationPerKey | internal/deployment/service.go:222-241 | In runs whose calls do not overlap and are served to their answer, with workers, failures and crashes between them, at most one operation is made under a key, and its response is stored |
| Idempotency.KeysApartSuffice | internal/deployment/service.go:104-241 | At call granularity too, with calls interleaved in any way, as long as no two under one key are served at a time and none is taken away between its operation and its stored response |
| Overlaps.OverlappingCallsShareAKey | internal/deployment/service.go:128-220 | Without such a condition it fails: there is a run in which two overlapping calls under one key make an operation each |
| Overlaps.CrashWhileClosingOrphans | internal/deployment/service.go:371-379 | There is a run of the queue, with a crash between the two writes that close a failed operation, after which a deployment is on the creation path without a queued or running operation |
| Renewals.RenewalLosesActive | internal/deployment/service.go:178-208 | There is a run in which a create looks at a failed deployment, another create makes it active, and the first then writes it back as pending, which is no edge of the table |
| Renewals.RenewalsLoseNothing | internal/deployment/service.go:178-208 | At call granularity, as long as nothing else touches a row while a create is between its look at it and its rewriting of it, every create rewrites exactly what it saw, and every call of a client moves states along edges of the table or leaves them |
| Capacity.CapacityHolds | internal/deployment/service.go:139-153 | When API calls do not overlap, no run ever holds more deployments than the limit its creates are judged by |
| Capacity.AllCounted | internal/deployment/service.go:172-188 | Every deployment keeps the credentials reference it was made with, so that the count behind the limit misses none |
| Capacity.OverlappingCreatesExceedCapacity | internal/deployment/service.go:139-175 | When they overlap it can: there is a run in which two creates pass the count of a node with room for one and both add their row |
| Capacity.OverlapsBoundTheExcess | internal/deployment/service.go:139-175 | At call granularity, while at most n creates are served at a time, the node never has more than n - 1 deployments beyond its limit; one at a time keeps it |
| RequestHash.HashIsInjective | internal/deployment/service.go:100-103 | Two requests whose methods and paths hold no newline have the same hash exactly when they are the same |
| RequestHash.NewlinesCollide | internal/deployment/service.go:100-103 | With a newline in the path two different requests share a hash |
| Sqlite.Repository.constructor | internal/storage/sqlite.go:23-71 | Opening the database puts every running operation back into the queue and changes nothing else |
| Sqlite.Repository.CreateDeployment | internal/storage/sqlite.go:94-113 | Inserts a row, or reports a conflict and changes nothing |
| Sqlite.Repository.SaveDeployment | internal/storage/sqlite.go:114-131 | Writes the whole row, or reports that there is none |
| Sqlite.Repository.CountDeployments | internal/storage/sqlite.go:213-217 | Counts the deployments whose credentials reference is set, row by row; Capacity.AllCounted shows that in the agent these are all |
| Sqlite.Repository.UpdateState | internal/storage/sqlite.go:182-208 | Moves the state and sets the failed step when the state stays or the table has the edge, and changes nothing otherwise |
| Sqlite.Repository.CreateOperation | internal/storage/sqlite.go:219-229 | Queues an operation unless its id is taken or its deployment has an active one |
| Sqlite.Repository.ClaimOperation | internal/storage/sqlite.go:244-265 | Marks running a queued operation with the least creation text, or finds that nothing is queued; the search loop passes over every operation |
| Sqlite.Repository.CompleteOperation | internal/storage/sqlite.go:266-275 | Gives an operation its final status and takes it out of the index |
| Sqlite.Repository.CompletePurge | internal/storage/sqlite.go:276-299 | Forgets payloads, tokens and row and succeeds, all or nothing |
| Sqlite.Repository.FailOperation | internal/storage/sqlite.go:300-303 | Fails an operation if there is one |
| Sqlite.Repository.PutIdempotency | internal/storage/sqlite.go:317-323 | Stores a response under a new key only |
| Sqlite.Repository.CreatePurgeToken | internal/storage/sqlite.go:324-327 | Adds an unconsumed token |
| Sqlite.Repository.ConsumePurgeToken | internal/storage/sqlite.go:328-335 | Consumes a token that is unconsumed and whose expiry text is greater than the present's, once |
| Service.Calls.ExistingIdempotency | internal/deployment/service.go:104-113 | Answers from the store, refuses a changed request, or finds the key unused |
| Service.Calls.SubmitCreate | internal/deployment/service.go:128-220 | Does to the tables and answers what the machine's client does when served to its end: capacity, new or renewed row, operation, response |
| Service.Calls.Submit | internal/deployment/service.go:222-275 | The same for the generic submissions |
| Service.Calls.IssuePurgeToken | internal/deployment/service.go:276-299 | The same for issuing a token |
| Service.Calls.SubmitPurge | internal/deployment/service.go:300-324 | The same for a purge: the token is spent before the operation is made |
| Service.MethodsAreSubmissions | internal/deployment/service.go:128-324 | What these methods do to the tables is what a submission of the agent does, and six calls complete it |
| Procedures.Worker.Transition | internal/deployment/service.go:446-458 | The straight-line transition does what the program's step does: nothing for the same state or a missing edge |
| Procedures.Worker.ProvisionDeployment | internal/deployment/service.go:459-541 | The straight-line procedure returns what the program run from its entry returns and leaves what it leaves, for every pattern of outcomes |
| Procedures.Worker.StopPanel | internal/deployment/service.go:663-678 | The same for stop |
| Procedures.Worker.StartPanel | internal/deployment/service.go:639-662 | The same for start |
| Procedures.Worker.Power | internal/deployment/service.go:391-403 | The same for the start, stop and restart branches; a restart that finds its deployment stopped goes straight on to the start |
| Procedures.Worker.UpgradeDeployment | internal/deployment/service.go:679-778 | The same for upgrade, with its trial, its rollback and its settling |
| Procedures.Worker.RollBack | internal/deployment/service.go:746-769 | The rollback returns the rollback error or another, never nil |
| Procedures.Worker.RemoveDeployment | internal/deployment/service.go:784-820 | The same for soft delete and purge |
| Procedures.Worker.ResetAdmin | internal/deployment/service.go:417-437 | The same for the admin reset |
| Names.NetworkNamesInjective | internal/docker/client.go:63-69 | Frontend and backend network names tell deployments apart up to the case of their UUIDs, and never coincide |
| Names.RouterIdsInjective | internal/deployment/service.go:631 | Router ids tell deployments apart and are never network names |
| Hostnames.RenderRule | internal/deployment/service.go:618-632 | A rule is rendered exactly when every host is valid, and is then the disjunction of their matchers in order |
| Hostnames.ParseIsExact | internal/deployment/service.go:629-632 | A text is read as a non-empty list of hosts exactly when it is that list's printed rule |
| Hostnames.RulesAreInjective | internal/deployment/service.go:618-632 | Distinct non-empty lists of valid hostnames print differently |
| Hostnames.LabelsAlphabet | internal/domain/validate.go:139-152 | A hostname of valid labels consists of lower-case letters, digits, hyphens and dots, so it cannot end a quoted literal |
| Hostnames.JoinSplit | internal/domain/validate.go:146 | Splitting a hostname at its dots loses nothing, and no label holds a dot |
| Hostnames.OctetIff | internal/domain/validate.go:143-145 | A field of an address in dotted decimal is accepted exactly when it is a number up to 255 in decimal, without leading zeros |
| Validation.CreateRequest.Validate | internal/domain/validate.go:34-134 | The request is rewritten to its normal form, and no problem is reported exactly when that form is acceptable |
| Validation.CreateRequest.ValidateAliases | internal/domain/validate.go:48-69 | The aliases are rewritten in order and accepted exactly when there is at most one, valid and different from the hostname |
| Validation.CreateRequest.ValidateEnvironment | internal/domain/validate.go:100-133 | The environment is accepted exactly when every variable is and there are at most 128 |
| Validation.NormalizeAgain | internal/domain/validate.go:34-98 | Normalising twice is normalising once exactly when no host still ends with a dot |
| Validation.AcceptedIsNormal | internal/domain/validate.go:34-134 | An accepted request is accepted again, unchanged |
| Validation.AcceptedRenders | internal/deployment/service.go:618-632 | An accepted request's rule renders exactly when its hostname has at most 253 characters and is no IPv4 address |
| Validation.SensitiveIff | internal/domain/validate.go:175-185 | A variable's name is sensitive exactly when it is one of three, or one of eight words stands in it on its own between underscores or its ends |
| Validation.InDomainIff | internal/domain/validate.go:45-47 | A hostname is in the configured domain exactly when it has at least two labels and its last ones are the domain's: whole labels count, not characters |
| Validation.BuildEnvironment | internal/deployment/service.go:577-599 | The container's environment is the user's variables overlaid with the managed ones |
| Validation.PanelIsTold | internal/deployment/service.go:577-599 | Whatever the user's variables are, the panel finds its own database, user, host, name and secret files in its environment |
| Validation.EnvironmentIsDisjoint | internal/deployment/service.go:577-599 | For an accepted request that is a disjoint union in which every variable keeps its own value |
| Validation.VariablesAreInjective | internal/docker/client.go:215-218 | Variables with accepted keys stay distinct in the printed form Docker takes |
| Paths.StrictChildIff | internal/localstorage/storage.go:231-234 | The check on relative paths accepts exactly the paths below the root |
| Paths.DeploymentPathIs | internal/localstorage/storage.go:152-162 | Every valid id, and no other, gets the directory of its lower-case form: the escape checks never refuse one |
| Paths.OneOwner | internal/localstorage/storage.go:110-111 | A path under a root belongs to at most one deployment's directory, quarantine and marker |
| Paths.RootsApart | internal/localstorage/storage.go:20-33 | With roots New accepts, nothing of any deployment under one root equals, contains or lies in anything under the other |
| DirectoryStore.Manager.PurgeOwnedDirectory | internal/localstorage/storage.go:105-150 | Whatever fails: others' entries are intact, success leaves neither directory nor quarantine nor marker, a state that is not the deployment's own is refused unchanged, its own state stays its own, and without failures it succeeds exactly from its own state |
| DirectoryStore.Manager.RemoveQuarantined | internal/localstorage/storage.go:139-149 | The end of a purge: a partial removal keeps the quarantine and its marker |
| DirectoryStore.Manager.EnsureOwnedDirectory | internal/localstorage/storage.go:76-103 | Whatever fails: no entry is changed or removed, success makes the directory the deployment's own, without failures it succeeds exactly when each entry is absent or right, and only a marker cut short within the id spoils an adoptable state |
| DirectoryStore.Manager.EnsureMarker | internal/localstorage/storage.go:181-206 | The same for the marker, which is created exclusively and then written, any number of characters of it by a write that fails |
| DirectoryStore.CutMarkerText | internal/localstorage/storage.go:221-223 | A marker cut short is still accepted exactly when nothing but its line end is missing |
| DirectoryStore.PurgeIsCrashSafe | internal/localstorage/storage.go:105-150 | From the deployment's own state, any number of interrupted purges followed by one whose calls work leaves nothing, and nothing of anyone else has changed |
| DirectoryStore.PurgeRefuses | internal/localstorage/storage.go:114-124 | No purge changes anything while both copies exist, or when the marker of an existing directory is missing or another's |
| DirectoryStore.EnsuredIsPurgeable | internal/localstorage/storage.go:122-124 | An ensured directory can be purged exactly when no quarantined copy was left |
| DirectoryStore.PurgeIsIsolated | internal/localstorage/storage.go:43-49 | A purge leaves every other deployment's entries, and all entries under the other root, as they are |
| DirectoryStore.EnsureIsIsolated | internal/localstorage/storage.go:35-41 | So does an ensure |
| DirectoryStore.PurgeRefinesHost | internal/localstorage/storage.go:105-150 | Every run of a purge has an outcome of the one call the procedures make, on directory, quarantined copy and marker |
| DirectoryStore.EnsureRefinesHost | internal/localstorage/storage.go:76-103 | So has every run of an ensure, one that leaves the marker cut short included |
| Postgres.Provisioner.EnsureRoleAndDatabase | internal/postgres/postgres.go:32-156 | For every pattern of failing statements: invalid names and foreign roles are refused unchanged, foreign databases untouched, nil means both exist, marked and owned, a working cleanup leaves the session role reset and the membership withdrawn, a SET ROLE or GRANT that works but reports an error leaves them as they are, without failures it succeeds exactly when nothing is foreign, and only an unmarked role or database spoils an acceptable state |
| Postgres.Provisioner.EnsureRole | internal/postgres/postgres.go:44-84 | The role is created or adopted by its marker, and refused when foreign or privileged |
| Postgres.Provisioner.EnsureBase | internal/postgres/postgres.go:106-155 | The database is created or adopted, and the session role is set only while the deferred cleanup knows of it, unless setting it failed after taking effect |
| Postgres.Provisioner.EnsureAsMember | internal/postgres/postgres.go:92-156 | With the membership raised, every exit whose cleanup works has reset the role and withdrawn the membership |
| Postgres.Provisioner.SetRoleOption | internal/postgres/postgres.go:158-169 | Raises or withdraws the membership of an existing role |
| Postgres.Provisioner.DropRoleAndDatabase | internal/postgres/postgres.go:171-245 | For every pattern of failing statements: a refusal changes nothing, nil means both are gone, the database goes first, a role that owns another database stays and is an error, without failures it succeeds exactly when role and database are marked for the deployment or absent and the role owns no other database, a working cleanup leaves the membership withdrawn or gone with its role, and a GRANT that works but reports an error leaves it raised |
| Postgres.Provisioner.DropRole | internal/postgres/postgres.go:236-241 | The server lets a role go exactly when it owns no database |
| Postgres.UnmarkedStaySame | internal/postgres/postgres.go:32-245 | Neither procedure changes a role or database that is not marked for the deployment |
| Postgres.StrandedStays | internal/postgres/postgres.go:52-84 | What was created and not marked stays so: no later ensure or drop succeeds |
| Postgres.EnsureRetries | internal/postgres/postgres.go:32-156 | After any number of failed ensures, one whose statements work succeeds exactly when none stopped between making and marking |
| Postgres.DropRetries | internal/postgres/postgres.go:171-245 | After any number of failed drops, one whose statements work leaves no database, and it succeeds and leaves no role exactly when the role owned no other database to begin with |
| Postgres.EnsureRefinesHost | internal/postgres/postgres.go:32-156 | Every ensure has an outcome of the one call the procedures make, refusals of invalid names and of foreign roles and databases included, and those that leave a role or database made and not marked |
| Postgres.DropRefinesHost | internal/postgres/postgres.go:171-245 | Every drop has an outcome of the one call the procedures make |
| Docker.Client.EnsureNetworks | internal/docker/client.go:71-140 | Whatever fails: networks of other names are untouched, existing ones only gain containers, a name taken by a foreign network is refused, and success means both networks are there and labelled, with the proxy attached and a gateway; without failures it succeeds exactly when nothing is foreign, the proxy is configured and the backend, old or new, has a gateway |
| Docker.Client.RemoveNetworks | internal/docker/client.go:142-177 | Both networks are looked at first, so that a refusal changes nothing; success means both are gone |
| Docker.Client.Find | internal/docker/client.go:259-271 | Finds a container with the deployment's labels, whatever it was made for, and tells whether there is more than one |
| Docker.Client.CreateContainer | internal/docker/client.go:208-248 | A container that is found is kept as it is, and several are refused; a panel is made only when none is found, and without failures exactly when then its name is free too |
| Docker.Client.StartContainer | internal/docker/client.go:272-279 | Runs the one container that is found; none and several are errors |
| Docker.Client.StopContainer | internal/docker/client.go:280-290 | Stops the one container that is found; without failures it succeeds exactly when at most one is |
| Docker.Client.RemoveContainer | internal/docker/client.go:291-300 | Success means no container with the labels is left; without failures it succeeds exactly when there was at most one, and others' are untouched |
| Docker.Client.RunUtility | internal/backup/docker.go:108-160 | The backup utility's container is made under the panel's two labels; the run reports success exactly when it was made, started and waited for, and leaves its container exactly when the making took effect without saying so, or the removal did not |
| Docker.NetworksAreIsolated | internal/docker/client.go:63-69 | A call for one deployment's networks leaves every other deployment's as they are |
| Docker.EnsureRefinesHost | internal/docker/client.go:71-97 | Every run of the ensure has an outcome of the one call the procedures make |
| Docker.RemoveRefinesHost | internal/docker/client.go:142-177 | Every run of the removal has an outcome of the one call the procedures make |
| Docker.CreateRefinesHost | internal/docker/client.go:208-248 | Every run of the container's creation has an outcome of the one call the procedures make |
| Docker.StartRefinesHost | internal/docker/client.go:272-279 | So has every start |
| Docker.StopRefinesHost | internal/docker/client.go:280-290 | So has every stop |
| Docker.DropRefinesHost | internal/docker/client.go:291-300 | So has every removal |
| Docker.UtilityRefinesHost | internal/backup/docker.go:108-160 | What a run of the utility leaves is what the procedures' backup and restore steps may leave: found in the panel's place when it is alone, too many beside another |
| SecretFiles.SecretStore.MaterializeNamed | internal/auth/secrets.go:76-92 | A file that is there is rewritten only by a process that may override its mode, and refused unchanged otherwise; other deployments' files are untouched |
| SecretFiles.SecretStore.MaterializeSecrets | internal/deployment/service.go:542-575 | Without failures all secrets of a create are written exactly when each of their files is new or the process may override its mode |
| SecretFiles.WrittenTwiceIff | internal/auth/secrets.go:76-92 | What one create has written the next can write, with no removal between them, exactly when the process may override file modes or there is nothing to write |
| TextTime.SecondsOrder | internal/storage/sqlite.go:224 | The fields of two instants order them as elapsed seconds do, across months and leap years |
| TextTime.TextOrder | internal/storage/sqlite.go:224 | Of two instants the earlier one's text sorts first, except when they share the second and the earlier one's trimmed fraction is a proper prefix of the later one's |
| TextTime.TextLessIff | internal/storage/sqlite.go:329 | The order of two texts told from the instants, in both directions |
| TextTime.WholeSecondsInvert | internal/storage/sqlite.go:224 | A whole second's text sorts after every other text of that second |
| TextTime.TokenAcceptedIff | internal/storage/sqlite.go:328-335 | Exactly when a purge token is accepted, and that it never is one second or more after its expiry |
| TextTime.ClaimedSecondIsMinimal | internal/storage/sqlite.go:250 | A claimed operation was created in the earliest second of all queued ones, and out of order within it only by an inversion |
| Retention.FilterInPlace | internal/backup/docker.go:193-198 | The in-place filter leaves exactly the encrypted backups, in order, at the front of the same array |
| Retention.SortDescending | internal/backup/docker.go:199 | The front of the array is permuted into descending order of names, the rest untouched |
| Retention.Backups.Prune | internal/backup/docker.go:181-210 | No file is removed that is among the greatest names and young enough, even when a removal fails midway; success leaves no other encrypted file |
| Retention.IndexIsRank | internal/backup/docker.go:201-203 | An entry's index in the sorted list is the number of encrypted files with greater names |
| Retention.GreaterNameIsNewer | internal/backup/docker.go:52 | For the fixed-width names of backups the greater name is the later instant |
| Retention.NewerIsLater | internal/backup/docker.go:199-203 | So what counts against a backup is how many were made after it |

## Left out
- HTTP routing, TLS, rate limiting, bearer checks and the mapping of errors to status codes: plumbing around the submit methods.
- AES-GCM sealing, key generation, Ed25519 release signing: sealed values are opaque texts, drawn values are parameters.
- JSON encoding of requests, responses and payloads: they are datatypes.
- Configuration, metrics, logging and its redaction, health polling, memory statistics, log paging: input and output only.
- Image reference parsing (`ValidatePanelImage`): it depends on a library that is not part of this model; its verdict is a parameter.
- The audit and step tables, error codes and messages, node identity: written and never read back by the modelled code.
- The text of a credentials reference: it is read back only to be counted when it is not empty, and the model's holds no deployment id.
- Docker's bind mounts and resource limits, and the backup utility's password file, which is written like a secret file and removed after each run.
- Wall-clock liveness: the wake channel, the two-second poll and operation timeouts are scheduling; a timeout is a failing call.
- Containers that stop by themselves, and operators changing Docker objects, databases or directories by hand while the agent runs.
- Characters beyond ASCII: lower-casing and trimming are modelled on ASCII, and lengths count characters.
- Local time zones: the agent's clock is in UTC, and so are the modelled instants; leap seconds do not exist.
- Upgrades.UpgradeOutcome: writes of the running panel between the backup and its stop are not modelled, because only the agent's own commands change a database's content. Nor is what the backup utility's image does when it is started in the panel's place: its commands and health checks may succeed or fail.
- Agent.AgentRefinesQueue: the closing writes of a failed operation are one step of the agent, though two calls of the queue.
- DirectoryStore.Manager.PurgeOwnedDirectory: symbolic links in the middle of a path are not resolved; a link at the end of one is refused as in the code.
- Postgres.Provisioner.EnsureRoleAndDatabase: passwords and login attributes are not modelled, and a statement may fail for any reason, a missing privilege among them.
- Docker.Client.CreateContainer: the container's environment, mounts and labels beyond the two it is found by are not modelled here; the environment is treated in Validation.BuildEnvironment.
- Docker.Client.StartContainer: a foreign container that is called by a deployment's bare UUID, which the daemon would be asked for when none is found, is not modelled.
- Validation.CreateRequest.Validate: the reported problems name the field, not the message, and problems of the bootstrap fields are one.
