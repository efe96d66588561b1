# Docklane: a Dafny model of its maintenance, operation and capacity logic

Docklane is a control plane for Docker Swarm. This project models the parts of it
whose correctness depends on more than one function, and proves what they promise.

**Cluster maintenance** (`MaintenanceDb`, `Protocol*`, `Repositories`, `Orchestration*`,
`AgentContract`). Control planes, the shared database, the manager Agents, the requests
between them and the Docker resources are one step system. A run is any sequence of
events: transactions, barrier messages that arrive late or twice, lost replies, lost
database acknowledgements, crashes and restarts of Agents and callbacks, outside Docker
writers. `ProtocolInvariants` states the invariant, `ProtocolSteps` shows that every event
keeps it, `ProtocolTheorems`, `ProtocolFinality`, `ProtocolAdmissions` and `ProtocolLeases`
draw the results about whole runs, and `ProtocolWitness` exhibits runs in which the situations they speak of
occur. `Repositories` has the transactions as the methods of a mutable database, each
proved to commit exactly when the corresponding transaction is possible. `Orchestration`
has mutations under an admission, `blockAll`, `openAll`, the manual recovery and the
closing and reopening of a cluster as programs. They run their statements on that
database, with arbitrary interference between any two of them. Two switches of the program
state, `alone` and `reliable`, turn the interference and the faults off; what each program
must then achieve is part of its contract.

**The Agent barrier** (`BarrierDisk`, `BarrierRuns`, `BarrierFile`, `BarrierRefinement`,
`BarrierLock`). The barrier write is a script of system calls on a directory whose live and
durable contents differ; a crash or a power loss may strike between any two calls.
`BarrierRefinement` shows that this machine behaves like the Agent of the protocol.
`BarrierLock` has the threads of one Agent around its read/write lock, and shows that the
lock makes the protocol's atomic guard and its drained transitions hold.

**The whole cluster** (`Concrete*`). The protocol's Agents are replaced by machines with a
disk, a process and threads. Every run of that system is a run of the protocol
(`ConcreteRefinement`), so the protocol's results are about the real threads and processes.
`ConcreteAbilities`, `ConcreteCycle` and `ConcreteRequest` show what it can do from any state
of the right kind: a set of states that no step leaves, and that holds the first state, holds
the last one too. `ConcreteWitness` has runs from the initial state.

**Operations and deployments** (`Work*`, `DeploymentOutcomes`, `RecoveryLinks`, `Locks`,
`Callbacks`, `Convergence`, `ServiceEvolution`, `Verification`). Database sessions take
sorted advisory locks, look for unfinished work, create rows and move them. `WorkOutcomes`
and `DeploymentOutcomes` say what the status of a deployment tells about the run and about the
service that was observed, `RecoveryLinks` ties the rows to the manual recovery,
`WorkAbilities` shows that abandoned work can be settled. `Locks` is one callback under its locks,
`Callbacks` the locked parts of the services, `Convergence` the snapshot classifiers,
`ServiceEvolution` what their verdicts say about the history of the service, `Verification`
the polling loops.

**Capacity, placement and mutations** (`Capacity`, `Placement`, `Labels`, `LabelImpact`,
`ServiceMutations`). The capacity verdict against the existence of an assignment, the
label-impact analysis against the constraint evaluator, and planned mutations against
other writers.

## Assumptions

- Each SQL statement or transaction is atomic; database time never goes back.
- No Docker call outlives the handler that made it or the process of its Agent: when a handler returns or the process ends, its update has happened or never will.
- A Docker update is one atomic step that needs the matching version and raises it; a version names one spec for good; reads see the latest state.
- Maintenance enforcement is on, and the configured set of managers is fixed.
- An HTTP mutation request is delivered at most once; a barrier transition may be delivered any number of times.
- A change of a Swarm service raises its version, and a written spec clears its update status; an automatic rollback goes back to the spec before the update. A requested rollback puts that spec back at once and shows as a rollback from the start.
- Random identifiers are fresh; spec fingerprints are injective where a result says so.
- A failed or interrupted file operation may have had no effect, all of it, or (for a directory sync and a write) part of it. Content that was not synced may be anything after a power loss. An operator who clears the pending marker has stopped the Agent and synced the directory.
- Lock names come from an arbitrary digest, which may map two resources to one name.
- A resource ID resolves to itself.
- The clock a polling loop reads eventually passes any given time.
- Faults are not restricted: the three lemmas named `FaultsCanStrike` (in `ProtocolWitness`, `BarrierRuns` and `WorkAbilities`) say which ones can strike in every state.

## Where the code does less than its text says

- A callback can still be running when CLOSED commits, if an operator resolved its admission by hand (`ProtocolWitness.LiveCallbackAtClosed`). `ProtocolAdmissions.AdmissionQuiescence` gives the exact condition on the events of the run: the admission was resolved while that callback was running, and nothing has ended it since. In a run without such a resolution nothing is running (`ProtocolAdmissions.QuietWithoutResolutions`), and an operator can tell from the tables (`ProtocolAdmissions.QuietByTheTables`).
- "Only FAILED deployments can be rolled back" is checked before the lock is taken; a rollback can be recorded for a deployment that is already rolled back, if Swarm still shows that rollback as completed (`WorkWitness.RolledBackTwice`). `WorkTheorems.RollbackStartsFrom` gives the exact condition: a rollback recorded since the deployment was read has succeeded.
- The retries of a health check do not cover its first endpoint check: a URL the policy refuses, or one failed name lookup, fails the deployment or rollback at once, before any probe (`Verification.RefusedEndpoint`). `Verification.RetriesCoverProbes` gives the exact condition: a health failure rests on too many failed probes or on the deadline exactly when the endpoint passed that check.
- A session can go back to the pool still holding a lock (`Locks.LeakExample`), exactly when GET_LOCK failed at the client although it was granted and every release succeeded (`Locks.WithResourceLocks`). A statement error means not granted, and a lost connection frees its locks; what would leave the connection alive is a client-side time limit on the statement. The pool sets none (`apps/api/src/db/database.ts:18-23`), so no such error is known with the client in use, but `operation-lock.ts` does not exclude it: it treats every error as not granted.
- Sorted acquisition does not exclude a deadlock after such a leak (`WorkWitness.DeadlockAfterLeak`); every cycle passes through a session that waits for a leaked name (`WorkTheorems.CyclesAwaitLeaks`).
- A reconciliation that finds the update missing waits for it, but not when the last update of the service was paused or rolled back: then that old outcome is taken for the deploy's (`ServiceEvolution.UnsentExample`). `ServiceEvolution.UnsentIsAwaited` gives the exact condition.
- A scale or restart that Swarm itself rolls back is reported as an external conflict, although nobody else wrote (`ServiceEvolution.MutationVerdicts`, which says exactly when).
- A service constrained on the label with the empty key is left out of the label-impact analysis (`LabelImpact.EmptyKeyExample`); `LabelImpact.SoundExactlyWhen` gives the exact condition. The API refuses empty keys (`apps/api/src/operations/node-mutation.dto.ts:12`), so only a request made directly to an Agent can change one.

## Model

| member | source | states |
|---|---|---|
| `AgentContract.RejectionTestAgreesWithAgent` | apps/api/src/agent/agent-client.ts:162-188 | an answer the client calls a deterministic rejection comes only from Agent paths that changed nothing, and from all of them except a missing resource and an unclassified Docker error; 200 comes only from the path that did the update; and the barrier guard lets a request through exactly when it is open at the request's generation and the cluster agrees |
| `AgentContract.UnrecognisedErrorsAreAmbiguous` | agent/internal/httpserver/server.go:603-636 | every other error answer except 404 is also given by an Agent path with the opposite outcome, so the client cannot decide more |
| `ProtocolSteps.NextKeepsInv` | apps/api/src/clusters/cluster-maintenance.repository.ts:75-403 | every event of the protocol keeps the whole invariant about rows, leases, barriers, handlers, journal and evidence |
| `ProtocolRuns.RunIsLater` | apps/api/src/clusters/maintenance-dispatch-journal.ts:169-184 | no run undoes a journal row, a settled phase, an operation's target, a terminal status, a resolution, an answer or an issued lease, and the generation never falls |
| `ProtocolTheorems.GenerationDeterminesState` | apps/api/src/clusters/cluster-maintenance.repository.ts:75-199 | the state is a function of the generation modulo four, the audit trail lists exactly the generations reached, no Agent is ahead of the database or OPEN at a generation that was not committed OPEN, and a current acknowledgement means that Agent is blocked there or invalid |
| `ProtocolTheorems.BlockedUntilReopened` | apps/api/src/clusters/maintenance-manager-barrier.ts:65-122 | while CLOSED or RECONCILING every manager is blocked or invalid, whatever delayed transitions and restarts did |
| `ProtocolTheorems.ClosedMeansQuiet` | apps/api/src/clusters/cluster-maintenance.repository.ts:242-309 | from the commit of CLOSED until the next OPEN no manager has a mutation handler past its guard |
| `ProtocolTheorems.HandlersMatchBarrier` | agent/internal/httpserver/maintenance_barrier.go:104-155 | every handler past the guard was admitted under exactly the barrier now held |
| `BarrierLock.TransitionExcludesHandlers` | agent/internal/httpserver/maintenance_barrier.go:202-254 | in every run of the threads, while a transition holds the lock no request is at the guard or in its handler |
| `BarrierLock.EarlierHandlersReturned` | agent/internal/httpserver/maintenance_barrier.go:101-113 | a transition is answered only after every handler that ran at any earlier point has returned |
| `BarrierLock.GateRefinesProtocol` | agent/internal/httpserver/maintenance_barrier.go:104-254 | every step of the threads under the lock is at most one event of the protocol: the separate checks of the guard are one decision, and a transition meets a drained Agent |
| `ProtocolTheorems.OldRequestsNeverRun` | agent/internal/httpserver/maintenance_barrier.go:147-155 | once an Agent has reported a generation, no request of a lower generation ever runs there |
| `ProtocolTheorems.JournalTellsTruth` | apps/api/src/clusters/maintenance-dispatch-journal.ts:115-184 | PREPARED means never sent, REJECTED not updated and not on its way, ACKNOWLEDGED updated once, and anything travelling or running has a SENDING or UNCERTAIN row |
| `ProtocolTheorems.VerdictsAreFinal` | apps/api/src/clusters/maintenance-dispatch-journal.ts:146-184 | a REJECTED operation is never updated later and an ACKNOWLEDGED one is updated exactly once, by the request already sent |
| `ProtocolTheorems.SentWasPromoted` | apps/api/src/clusters/maintenance-dispatch-journal.ts:71-104 | every request handed to transport was promoted earlier in the run, acknowledged, while maintenance was OPEN at exactly its generation |
| `ProtocolTheorems.AtMostOneSend` | apps/api/src/db/maintenance-dispatch-uniqueness.migration.ts:9-39 | for any number of control planes, retries and lost acknowledgements each operation is handed to transport at most once and updates Docker at most once |
| `ProtocolTheorems.UpdatesReplaceThePlanned` | agent/internal/dockerengine/mutator.go:14-289 | whatever was written meanwhile, the update of a request replaces exactly the version and fingerprint that its operation row was planned on, with a newer version of that resource and of no other |
| `ProtocolTheorems.LeaseFencing` | apps/api/src/clusters/maintenance-control-lease.ts:50-65 | when a guarded transaction commits, its lease is the newest one and no other lease ever issued owns the cluster |
| `ProtocolTheorems.TokensRiseByOne` | apps/api/src/clusters/maintenance-control-lease.ts:15-49 | the first token is 1, every later acquisition issues the largest token so far plus one, and no lease issued before it owns the cluster again |
| `ProtocolLeases.TakenExactlyWhenFree` | apps/api/src/clusters/maintenance-control-lease.ts:15-49 | in every reachable state a lease can be taken exactly when the requested time is within 5 to 300 and no lease ever issued still owns the cluster |
| `ProtocolLeases.LeaseLasts` | apps/api/src/clusters/maintenance-control-lease.ts:15-65 | over every continuation: until exactly its time is up, and unless it is released, a lease owns the cluster and nobody else is given one; from then on it never owns it again |
| `ProtocolLeases.ReleasedIsGone` | apps/api/src/clusters/maintenance-control-lease.ts:58-65 | a released lease never owns the cluster again, and the next one can be taken at once |
| `ProtocolTheorems.NotObservedIsFinal` | apps/api/src/clusters/maintenance-evidence-recovery.ts:203-276 | once an operation is resolved as not observed, its Docker update has not happened and never happens in any continuation, even if its request is still travelling |
| `ProtocolAdmissions.ResolvedCallbacks` | apps/api/src/clusters/maintenance-evidence-recovery.ts:154-172 | in every reachable state a callback runs under a resolved admission exactly when the resolution was committed while it was running and nothing has ended it since |
| `ProtocolAdmissions.AdmissionQuiescence` | apps/api/src/clusters/registered-operation-lock.ts:75-115 | while CLOSED or RECONCILING the running callbacks are exactly those whose admission was resolved by hand while they ran and which have not ended |
| `ProtocolAdmissions.QuietWithoutResolutions` | apps/api/src/clusters/cluster-maintenance.repository.ts:263-277 | in a run without a manual admission resolution no callback is running while CLOSED or RECONCILING |
| `ProtocolAdmissions.QuietByTheTables` | apps/api/src/clusters/cluster-maintenance.repository.ts:263-277 | when the tables hold no resolved admission row, no callback is running while CLOSED or RECONCILING |
| `ProtocolAdmissions.AdmittedWhileOpen` | apps/api/src/clusters/registered-operation-lock.ts:16-42 | a mutation callback is admitted only while maintenance is OPEN; its work begins after the insert has returned |
| `ProtocolFinality.RejectionIsFinal` | apps/api/src/operations/mutation.service.ts:195-206 | a deterministic rejection answered to an operation's request means that no request of it updates Docker, now or in any continuation, whether or not the journal recorded it |
| `ProtocolFinality.OrphansAreNeverSent` | apps/api/src/clusters/maintenance-dispatch-journal.ts:124-144 | a journal row abandoned before transport is never sent, even if its promotion committed and only the acknowledgement was lost |
| `ProtocolWitness.ResolvedWhileTravelling` | apps/api/src/clusters/maintenance-evidence.controller.ts:75-116 | a reachable state in which an operation is resolved as not observed while its request is in transit |
| `ProtocolWitness.LiveCallbackAtClosed` | apps/api/src/clusters/maintenance-evidence-recovery.ts:140-172 | a reachable CLOSED state with a running callback |
| `BarrierRuns.NextKeepsNodeInv` | agent/internal/httpserver/maintenance_barrier.go:259-319 | every system call, failure, crash, power loss and restart keeps: if a power loss could change the barrier file, the pending marker is durable |
| `BarrierRuns.BarrierNeverRegresses` | agent/internal/httpserver/maintenance_barrier.go:236-253 | over any run the barriers an Agent reports are of one cluster and never go back, and the barrier a usable Agent holds is never behind one it has reported |
| `BarrierRuns.AnswersSurviveCrashes` | agent/internal/httpserver/maintenance_barrier.go:44-70 | an Agent that may answer holds exactly the same barrier after a process crash, and after a power loss either the same one or, just when the marker came back, none |
| `BarrierRuns.InterruptedWriteFailsClosed` | agent/internal/httpserver/maintenance_barrier.go:256-283 | a write interrupted after its first directory sync leaves an Agent that never answers again until an operator reconciles, whatever happens in between |
| `BarrierRuns.InterruptedWriteIsAtomic` | agent/internal/httpserver/maintenance_barrier.go:281-319 | interrupted at any call, a write leaves a disk from which every later restart holds the old barrier, the new one, or none |
| `BarrierRuns.ReconcilingRestoresService` | agent/internal/httpserver/maintenance_barrier.go:44-70 | an operator who clears the marker ends every fail-closed state: the next start holds the barrier of the file, and is unusable exactly when the file cannot be read |
| `BarrierRefinement.StepRefines` | agent/internal/httpserver/maintenance_barrier.go:186-254 | every step of the crashing machine is at most one transition, read or restart of the protocol's Agent, a transition only if it was sent, and it answers 200 exactly when the Agent's step does |
| `BarrierRefinement.RunRefines` | agent/internal/httpserver/maintenance_barrier.go:44-319 | any run of the machine is matched by a run of the protocol's Agent that takes only sent transitions and gives the same answers in the same order |
| `BarrierRefinement.StepInProtocol` | agent/internal/httpserver/maintenance_barrier.go:186-319 | inside any state of the whole protocol, a step of the machine is at most one protocol event at that manager, and what it answers is what the protocol has served |
| `BarrierRefinement.TransitionCanBeServed` | agent/internal/httpserver/maintenance_barrier.go:186-319 | the converse: every sent transition of its own cluster that the protocol's Agent may take, an idle machine can write to disk and report, whatever generations lie in between |
| `BarrierRefinement.ReadCanBeServed` | agent/internal/httpserver/maintenance_barrier.go:158-184 | a read that the protocol's Agent may answer, an idle machine answers its own cluster |
| `ConcreteRefinement.SystemRefines` | agent/internal/httpserver/maintenance_barrier.go:44-319 | every run of the cluster whose Agents are machines with disks, processes and lock threads is a run of the protocol that ends in a matching state |
| `ConcreteRefinement.ClosedMachinesAreQuiet` | agent/internal/httpserver/maintenance_barrier.go:101-254 | in every run of that cluster, while CLOSED or RECONCILING no thread of any manager runs a mutation handler and every running process is invalid or holds a barrier that is not open |
| `ConcreteRefinement.NotObservedOnMachines` | apps/api/src/clusters/maintenance-evidence-recovery.ts:203-276 | once an operation is resolved as not observed, no request of it has updated Docker or ever does, and no thread ever handles one, whatever crashes and restarts |
| `ConcreteAbilities.Transit` | agent/internal/httpserver/maintenance_barrier.go:186-319 | in that cluster an idle manager takes any newer barrier of its cluster that was sent, through its lock, its disk and its threads, and is idle again |
| `ConcreteCycle.CloseAndReopen` | apps/api/src/clusters/maintenance-close.controller.ts:56-77 | a cluster of any number of idle managers whose work is done can be closed and opened again from OPEN at any generation, through exactly the four audited transitions, and all managers then hold the new open barrier |
| `ConcreteRequest.MutationCanSucceed` | apps/api/src/clusters/maintenance-dispatch-journal.ts:33-167 | in an OPEN cluster an operation that was never dispatched can be admitted to the manager, journalled, handled by a thread, and acknowledged, with Docker updated exactly once to any newer version |
| `ConcreteWitness.OpensClosesReopens` | agent/internal/httpserver/maintenance_barrier.go:236-253 | a run from the initial state in which a manager takes the barriers of generations 1, 2, 4 and 5 |
| `ConcreteWitness.MutationSucceeds` | apps/api/src/clusters/maintenance-dispatch-journal.ts:115-167 | a run from the initial state in which a mutation is acknowledged and the service has its new version |
| `ConcreteWitness.HandlerRuns` | agent/internal/httpserver/maintenance_barrier.go:104-319 | a run of that cluster in which the manager starts, writes and reports its first barrier, and a mutation request passes the guard |
| `BarrierFile.MutationBarrier.constructor` | agent/internal/httpserver/maintenance_barrier.go:44-70 | a start is unusable exactly when the marker is there or the file cannot be read, and otherwise holds what was saved; it is OPEN only when a valid OPEN barrier was saved |
| `BarrierFile.MutationBarrier.Persist` | agent/internal/httpserver/maintenance_barrier.go:259-319 | the write is the machine's script, one event per system call, ending in the new barrier or in an invalid blocked one; on a disk that never fails it succeeds |
| `BarrierFile.MutationBarrier.Set` | agent/internal/httpserver/maintenance_barrier.go:186-254 | asked by its own cluster, a usable barrier takes every newer generation unless the write fails, repeats its answer for the barrier it holds, and refuses the rest with 409, which means a lower generation or another state of the same one; only a failed write changes state on refusal, and the whole request is a run of the machine |
| `BarrierFile.MutationBarrier.Read` | agent/internal/httpserver/maintenance_barrier.go:158-184 | a barrier is reported exactly when it is usable and of the manager's own current cluster |
| `Repositories.SortedUnique` | apps/api/src/clusters/cluster-maintenance.repository.ts:282-287 | comparing sorted lists position by position decides equality of the sets |
| `Repositories.Database.InitializeOpen` | apps/api/src/clusters/cluster-maintenance.repository.ts:75-119 | commits exactly when registered and not failed by its audit row; a duplicate changes nothing |
| `Repositories.Database.Advance` | apps/api/src/clusters/cluster-maintenance.repository.ts:380-394 | the compare-and-swap with its audit row commits exactly when state and generation match and the audit is written, else nothing changes |
| `Repositories.Database.RequestClosing` | apps/api/src/clusters/cluster-maintenance.repository.ts:159-199 | commits exactly the OPEN to CLOSING transition |
| `Repositories.Database.Quiet` | apps/api/src/clusters/cluster-maintenance.repository.ts:263-277 | the three counts are zero exactly when no admission, operation or dispatch is unresolved |
| `Repositories.Database.AcksComplete` | apps/api/src/clusters/cluster-maintenance.repository.ts:278-287 | the row-by-row comparison holds exactly when precisely the expected managers acknowledged precisely this generation |
| `Repositories.Database.CommitClosed` | apps/api/src/clusters/cluster-maintenance.repository.ts:242-309 | commits CLOSED exactly when lease, generation, quiet work and acknowledgements allow it, otherwise leaves every table alone |
| `Repositories.Database.CommitRecovery` | apps/api/src/clusters/cluster-maintenance.repository.ts:318-403 | the same for RECONCILING and OPEN |
| `Repositories.Database.Acquire` | apps/api/src/clusters/maintenance-control-lease.ts:15-49 | hands out the next token exactly when the time asked for is within 5 to 300 and no lease owns the cluster, and the holder then owns it until exactly that much later |
| `Repositories.Database.Release` | apps/api/src/clusters/maintenance-control-lease.ts:58-65 | ends exactly this lease, keeps its token, and never another's |
| `Repositories.Database.ResolveDispatch` | apps/api/src/clusters/maintenance-evidence-recovery.ts:148-338 | resolves a dispatch exactly when the caller holds lease and generation and its operation is finished, or awaits a manual verdict (a rollback while VERIFYING, anything else once it NEEDS_ATTENTION) with its resource observed unchanged and its deployment still where the operation left it; the one linked deployment fails with it, and anything else undoes the whole transaction |
| `RecoveryLinks.RecoverableIsInTable` | apps/api/src/clusters/maintenance-evidence-recovery.ts:190-276 | a deploy or rollback that recovery accepts, together with the linked deployment it demands, is a pair of statuses that the services write |
| `RecoveryLinks.RecoveryIsLinked` | apps/api/src/clusters/maintenance-evidence-recovery.ts:226-262 | in every reachable state the link to the deployment holds for each deploy and rollback that awaits a manual verdict |
| `RecoveryLinks.ByHandExactlyWhen` | apps/api/src/clusters/maintenance-evidence-recovery.ts:190-276 | in every reachable state a deploy can be resolved by hand exactly when it needs attention, a rollback exactly when it is being verified |
| `Orchestration.Cluster.RunUnderAdmission` | apps/api/src/clusters/registered-operation-lock.ts:16-115 | under any interference, also before the deletion: the callback runs only if the admission was inserted, a result is true of the request, without one or with "not sent" no request was handed to transport, and the admission row is left exactly when its deletion failed; undisturbed, an admission that is possible is made, and a ready operation gets a result |
| `OrchestrationFacts.TruthStays` | apps/api/src/clusters/maintenance-dispatch-journal.ts:115-167 | what a result says of the request stays true in every continuation |
| `Orchestration.Cluster.Execute` | apps/api/src/clusters/maintenance-dispatch-journal.ts:115-167 | under any interference: the result is the one that the answer to the request and the journal write give, accepted exactly for 200 and refused exactly for a recognised rejection; accepted means acknowledged and updated once, refused means answered and not updated, not sent means nothing was handed to transport and an own row left behind is orphaned, and without a database fault it means maintenance has moved on |
| `Orchestration.Cluster.Prepare` | apps/api/src/clusters/maintenance-dispatch-journal.ts:33-62 | a row inserted although the statement seemed to fail is orphaned; a duplicate is reported as one; without a fault the row is there or was before |
| `Orchestration.Cluster.BeginSend` | apps/api/src/clusters/maintenance-dispatch-journal.ts:71-104 | only an acknowledged promotion lets the callback send, and without a database fault it fails only because maintenance has moved on |
| `Orchestration.Cluster.Abandon` | apps/api/src/clusters/maintenance-dispatch-journal.ts:132-144 | leaves an orphaned row, whether or not the rejection was written; without a fault it is no longer PREPARED |
| `Orchestration.Cluster.Record` | apps/api/src/clusters/maintenance-dispatch-journal.ts:146-167 | the reported outcome is accepted exactly when the answer was 200 and refused exactly when it was a recognised rejection, is true of the request whatever the journal write did, and the phase written is the one of that answer |
| `Orchestration.Cluster.BlockAll` | apps/api/src/clusters/maintenance-manager-barrier.ts:65-122 | succeeds only when every manager has answered BLOCKED at this generation and is recorded to have, and undisturbed it does succeed |
| `Orchestration.Cluster.OpenAll` | apps/api/src/clusters/maintenance-manager-barrier.ts:27-63 | succeeds only when every manager has answered OPEN at a generation that is still the committed one, and undisturbed it does succeed |
| `Orchestration.Cluster.ResolveByHand` | apps/api/src/clusters/maintenance-evidence.controller.ts:75-122 | when it commits "not observed" the operation's request has not updated Docker; otherwise the operation had finished; undisturbed, a dispatch that can be resolved is |
| `Orchestration.Cluster.ResolveAdmissionByHand` | apps/api/src/clusters/maintenance-evidence-recovery.ts:140-172 | an admission is resolved only under the lease and generation and after every manager has answered BLOCKED at it; undisturbed, an unresolved one is |
| `Orchestration.Cluster.ConfirmClosed` | apps/api/src/clusters/maintenance-close.controller.ts:56-77 | when it succeeds the cluster is CLOSED at the next generation, nothing is unfinished and no handler runs in any manager; undisturbed, a cluster in CLOSING with nothing unfinished is closed |
| `Orchestration.Cluster.CompleteReconciliation` | apps/api/src/clusters/maintenance-recovery.controller.ts:79-101 | opens managers only after OPEN was committed, and succeeds only when all have answered OPEN; undisturbed, a cluster in RECONCILING with nothing unfinished is opened |
| `WorkSteps.NextKeepsInv` | apps/api/src/operations/operation.repository.ts:140-215 | every lock step, read and write keeps lock ownership, what each callback knows, exclusion and the deployment table |
| `WorkTheorems.UnfinishedWorkExcludes` | apps/api/src/operations/mutation.service.ts:120-181 | each service is worked on by at most one unfinished operation, counting node operations that list it, and each node by at most one |
| `WorkTheorems.FinishedStays` | apps/api/src/operations/operation.repository.ts:175-215 | SUCCESS and FAILED are absorbing in every run |
| `WorkTheorems.CallbacksExclude` | apps/api/src/operations/operation-lock.ts:57-80 | two callbacks that need a common resource are never both inside their locks, whatever digest names them |
| `WorkTheorems.CyclesAwaitLeaks` | apps/api/src/operations/operation-lock.ts:62-78 | a chain of waiting sessions closes into a cycle only through a session that waits for a leaked name |
| `WorkTheorems.DeploymentMatchesDriver` | apps/api/src/deployments/deployment.service.ts:874-1055 | the statuses of a deployment and of its deciding operation are always in the table, the deployment is finished exactly when that operation is, and no other unfinished operation works on it |
| `WorkOutcomes.StatusIsLastStep` | apps/api/src/deployments/deployment.service.ts:874-1055 | in every run the status of a deployment is exactly the one that its deciding operation has last recorded, or the one it was created with |
| `WorkOutcomes.StatusTellsHistory` | apps/api/src/deployments/deployment.service.ts:2057-2279 | a deployment is SUCCESS, ROLLED_BACK, FAILED or ROLLBACK_FAILED exactly by the recorded steps of its operations: some event of the run recorded just that |
| `DeploymentOutcomes.DeployIsRecorded` | apps/api/src/deployments/deployment.service.ts:1210-1321 | each outcome of the observation loop of a deploy is recorded, and gives deployment and operation exactly the statuses of that outcome |
| `DeploymentOutcomes.RollbackIsRecorded` | apps/api/src/deployments/deployment.service.ts:1682-1890 | the same for a rollback |
| `DeploymentOutcomes.SuccessWasObserved` | apps/api/src/deployments/deployment.service.ts:1210-1295 | if every success is recorded from an observation loop, a deployment with status SUCCESS rests on a log whose last snapshot reached the target with its placement confirmed, after a stable run of probes |
| `DeploymentOutcomes.RollbackWasObserved` | apps/api/src/deployments/deployment.service.ts:1682-1848 | the same for ROLLED_BACK and the previous release |
| `WorkAbilities.AbandonedWorkCanBeSettled` | apps/api/src/deployments/deployment.service.ts:1057-1321 | an unfinished deploy or rollback whose lock is free is never stuck: for every outcome of its observation a new session can take it over and record exactly that outcome |
| `WorkAbilities.LocksAreGivenBack` | apps/api/src/operations/operation-lock.ts:81-95 | in every reachable state a session that dies leaves no lock behind, and one that returns leaves exactly those that had leaked |
| `WorkTheorems.RollbackStartsFrom` | apps/api/src/deployments/deployment.service.ts:362-489 | when a rollback is recorded its deployment is FAILED or ROLLED_BACK: FAILED if its latest operation is the one of the read before the lock, ROLLED_BACK exactly when a rollback recorded since that read has succeeded; and the service shows one of the two specs of that deployment |
| `WorkTheorems.RequestHasRead` | apps/api/src/deployments/deployment.service.ts:344-366 | a deployment that counts as seen FAILED, which recording a rollback needs, was read as FAILED at some earlier point of the run |
| `WorkSteps.PairKeepsTables` | apps/api/src/deployments/deployment.service.ts:2057-2279 | a guarded operation update paired with an unguarded deployment update stays in the table because the operation is the deployment's driver |
| `WorkWitness.RolledBackTwice` | apps/api/src/deployments/deployment.service.ts:447-500 | a reachable state in which a rollback passes the observed-state guards and can be recorded for a deployment that is already rolled back |
| `WorkWitness.DeadlockAfterLeak` | apps/api/src/operations/operation-lock.ts:62-94 | a reachable state in which two sessions wait for each other after a lock has leaked |
| `Locks.AcquireAll` | apps/api/src/operations/operation-lock.ts:66-78 | takes the names in order up to the first one not granted, and what the server holds is that plus a lock granted unnoticed |
| `Locks.ReleaseAll` | apps/api/src/operations/operation-lock.ts:81-94 | gives back every known lock, or destroys the connection exactly when some release failed |
| `Locks.WithResourceLocks` | apps/api/src/operations/operation-lock.ts:57-95 | the callback runs exactly when every name is granted and then holds all of them; a lock is still held afterwards exactly when one was granted unnoticed and every release succeeded |
| `Locks.LeakExample` | apps/api/src/operations/operation-lock.ts:66-94 | one lock granted although the client saw an error stays with the connection handed back to the pool |
| `Callbacks.Tables.StartServiceOperation` | apps/api/src/operations/mutation.service.ts:120-181 | a recorded scale, restart, deploy or rollback is the requested one and shares no resource with any other unfinished operation, a refusal means one was in the way, and a lost write means its keys were taken or the rollback was no longer allowed; undisturbed, it is recorded whenever nothing is in the way |
| `Callbacks.Tables.StartNodeOperation` | apps/api/src/operations/node-mutation.service.ts:182-306 | the same for a node operation and every service it lists |
| `Callbacks.Tables.ResolvePrior` | apps/api/src/operations/mutation.service.ts:355-381 | the service counts as free only if no operation was found, or the one found is finished now; otherwise an unfinished one is still there; undisturbed, an earlier scale or restart that reconciling finds finished is settled |
| `Convergence.ConvergedTasks` | apps/api/src/deployments/deployment.service.ts:2532-2550 | filtering, counting and the set of slots together decide that exactly one matching running task sits in each of the desired distinct positive slots |
| `Convergence.DeploySuccess` | apps/api/src/deployments/deployment.service.ts:2493-2552 | a snapshot is a deploy success exactly when the target is really reached and the plan has a runtime fingerprint |
| `ServiceEvolution.ConflictsAreForeign` | apps/api/src/deployments/deployment.service.ts:2493-2525 | over every history of the service: a foreign spec is always a conflict, the spec before is one unless a halted or rolled-back update explains it, the target never is, and a conflict always has another writer behind it |
| `ServiceEvolution.VerdictsFollowSwarm` | apps/api/src/deployments/deployment.service.ts:2493-2552 | without other writers a deploy is given up exactly when Swarm paused it or finished rolling it back, halted exactly when Swarm paused the rollback, and never a success before Swarm completed it |
| `ServiceEvolution.RollbackConflictsAreForeign` | apps/api/src/deployments/deployment.service.ts:2554-2565 | over every history of a service rolled back by this operation or found rolling back: any spec but the target is a conflict unless it is being rolled back, and a conflict always has another writer behind it |
| `ServiceEvolution.RollbackVerdictsFollowSwarm` | apps/api/src/deployments/deployment.service.ts:2554-2600 | without other writers a rollback is given up exactly when Swarm paused it, is never a success before Swarm completed it, and is waited for while it runs |
| `ServiceEvolution.ReconciliationFollowsSwarm` | apps/api/src/deployments/deployment.service.ts:2445-2484 | without other writers the reconciliation of a deploy that reached the service names the state Swarm is in, and never waits for it or blames somebody else |
| `ServiceEvolution.DivergenceIsForeign` | apps/api/src/deployments/deployment.service.ts:2445-2484 | over every history: exactly when the reconciliation sees a divergence or the target, and that a divergence has another writer behind it |
| `ServiceEvolution.UnsentIsAwaited` | apps/api/src/deployments/deployment.service.ts:2467-2484 | a service the update has not reached is waited for exactly when its last update was not itself halted or rolled back |
| `ServiceEvolution.UnsentExample` | apps/api/src/deployments/deployment.service.ts:2467-2472 | a deploy that was never sent and is taken for a failed one |
| `ServiceEvolution.MutationVerdicts` | apps/api/src/operations/mutation-verification.ts:10-42 | over every history of an accepted scale or restart: a conflict is exactly another spec and a failure exactly the target in a state Swarm has given up, so without other writers a conflict is Swarm's own rollback |
| `ServiceEvolution.OldSnapshotsDecideNothing` | apps/api/src/operations/mutation-verification.ts:14-22 | a snapshot of the service from before the accepted version is pending |
| `Convergence.RollbackSuccess` | apps/api/src/deployments/deployment.service.ts:2554-2600 | the same for a rollback success |
| `Convergence.ClassifiersAgree` | apps/api/src/deployments/deployment.service.ts:2445-2484 | the deploy, rollback and reconciliation classifiers do not contradict each other on one snapshot |
| `Convergence.MutationSuccess` | apps/api/src/operations/mutation-verification.ts:10-78 | a scale or restart snapshot is a success exactly when the accepted version or a later one shows the target with all replicas running, every one of them new after a restart |
| `Verification.Watch.VerifyMutation` | apps/api/src/operations/mutation.service.ts:520-565 | the loop ends with the verdict on the last snapshot seen, every one before it was pending, or with the clock at least 30 seconds past its start |
| `Verification.Watch.Verify` | apps/api/src/deployments/health-verifier.ts:12-58 | unhealthy at once when the first endpoint check refuses, else only by too many failed probes or the deadline; stable only after an unbroken run of good probes spanning the window with at most the allowed failures and every snapshot around them converged; stopped by the first failed, conflicting or halted snapshot, and by no later one; never stopped in a world where all is well |
| `Verification.RetriesCoverProbes` | apps/api/src/deployments/health-verifier.ts:16-52 | a health failure rests on too many failed probes or the deadline exactly when the endpoint passed its first check; otherwise no probe failed |
| `Verification.RefusedEndpoint` | apps/api/src/deployments/health-verifier.ts:16-17 | whatever the number of retries, a refused endpoint fails the verification before the first probe |
| `Verification.Watch.Observe` | apps/api/src/deployments/deployment.service.ts:2383-2405 | a success needs a converged snapshot and its confirmed placement; unavailable exactly when the one look failed |
| `Verification.Watch.VerifyAndComplete` | apps/api/src/deployments/deployment.service.ts:1057-1321 | each recorded outcome rests on what was observed: success on a stable health run directly followed by a converged snapshot, a health failure on a refused endpoint, too many failed probes or the deadline, failure, conflict and pause on the last snapshot, a timeout on the clock; the first decisive snapshot is always the last; a refused endpoint is always recorded as a health failure, and a timeout counts as unavailable exactly when the last look failed; where all is well the outcome is success, unless a deadline passes first |
| `Verification.DeploySuccessContract` | apps/api/src/deployments/deployment.service.ts:1210-1295 | a deploy is recorded as SUCCESS only if the final snapshot reached the target with one matching running task per distinct positive slot and confirmed placement, after a stable run of probes during which every snapshot had reached it |
| `Verification.RollbackSuccessContract` | apps/api/src/deployments/deployment.service.ts:1682-1848 | the same for a rollback and the previous release |
| `Capacity.CapacityUsage` | agent/internal/dockerengine/capacity.go:246-269 | the usage map holds, for every node, the true sums cut off at the largest 64-bit value and the exact task count |
| `Capacity.SlotsForExact` | agent/internal/dockerengine/capacity.go:429-441 | counting slots by division admits exactly the numbers of replicas that fit, despite the cut-off |
| `Capacity.NodeSlotsExact` | agent/internal/dockerengine/capacity.go:141-153 | a node's slots are exactly the largest number of replicas within CPU, memory and per-node limit, up to the required one |
| `Capacity.AdditionalIsLeast` | agent/internal/dockerengine/capacity.go:92-100 | the additional replicas are the fewest that bring the service to its target |
| `Capacity.OverlapIsPeak` | agent/internal/dockerengine/capacity.go:230-244 | the overlap is the largest number of tasks above the target at any moment of a batch-by-batch start-first update, and zero for any other |
| `Capacity.EvaluateNodes` | agent/internal/dockerengine/capacity.go:132-170 | one exact slot count per eligible node, and the schedulable number is the smaller of the required number and their true sum |
| `Capacity.Evaluate` | agent/internal/dockerengine/capacity.go:72-228 | schedulable plus unplaced is the required number on every path, and when each status is given |
| `Placement.UnplacedIsExact` | agent/internal/dockerengine/capacity.go:155-170 | all required replicas can be assigned to eligible nodes exactly when the slots add up to at least that number |
| `Placement.VerdictIsExact` | agent/internal/dockerengine/capacity.go:172-228 | SUFFICIENT means an assignment exists, INSUFFICIENT that none does, and the required number is exact exactly when it does not overflow |
| `Labels.PlacementReferences` | agent/internal/dockerengine/node_labels.go:240-274 | true exactly when some constraint or spread preference names a changed key |
| `Labels.AffectedServices` | agent/internal/dockerengine/node_labels.go:218-238 | lists exactly the referencing services, one entry each, in order |
| `Labels.ChangedKeys` | agent/internal/dockerengine/node_labels.go:297-322 | exactly the keys added, removed or given another value |
| `Labels.PlanLabels` | agent/internal/dockerengine/node_labels.go:37-45 | the target labels are the old ones overridden by the patch, without the removed keys |
| `Labels.SplitMeaning` | agent/internal/dockerengine/capacity.go:288-302 | a constraint is an equality wherever "==" occurs and else an inequality wherever "!=" does, cut at the first place, and anything else is not understood |
| `Labels.OperatorsAreOpposite` | agent/internal/dockerengine/capacity.go:325-358 | a node meets exactly one of a constraint and its negation, unless the value is no address and the node has one; then it meets neither |
| `Labels.EqualityReadsLabel` | agent/internal/dockerengine/capacity.go:325-358 | an equality on a node or engine label key compares that label, empty when missing, ignoring case |
| `Labels.EqualityReadsAttribute` | agent/internal/dockerengine/capacity.go:325-358 | an equality on one of the five named keys, in any case, compares that attribute |
| `LabelImpact.ConstraintKeepsVerdict` | agent/internal/dockerengine/capacity.go:325-358 | a constraint the analysis does not count keeps its verdict for the node |
| `LabelImpact.AnalysisSeesKey` | agent/internal/dockerengine/node_labels.go:276-295 | the analysis reads the same label key out of a constraint as the evaluator, except the empty one |
| `LabelImpact.SoundExactlyWhen` | agent/internal/dockerengine/node_labels.go:218-322 | every service left out keeps its placement verdict exactly when the change does not alter what can be matched under the empty key; a change over non-empty keys never does |
| `LabelImpact.EmptyKeyExample` | agent/internal/dockerengine/node_labels.go:287-295 | a change of the empty key that moves the verdict of a service the analysis leaves out |
| `ServiceMutations.Docker.MakePlan` | agent/internal/dockerengine/planner.go:11-219 | a plan describes exactly what the mutation makes of the version it names; undisturbed, an allowed mutation of the named version is planned |
| `ServiceMutations.Docker.Mutate` | agent/internal/dockerengine/mutator.go:14-289 | under any interleaving an applied mutation directly follows the version it names and holds that version's edited spec; a conflict or validation answer means nothing was applied; undisturbed, a request that still fits is accepted and applied |
| `ServiceMutations.PlannedIsApplied` | agent/internal/dockerengine/mutator.go:121-140 | an applied request that carries a plan's version and fingerprints was applied to exactly the planned spec and produced exactly the planned target |
| `ServiceMutations.TargetEdits` | agent/internal/dockerengine/planner.go:11-219 | a mutation is possible exactly when the service allows it, and then changes the one field it is about and nothing else, or goes back to the previous spec |
| `ServiceMutations.RestartsAreNew` | agent/internal/dockerengine/planner.go:55-90 | no run of restarts shorter than the 64-bit counter comes back to an earlier spec |
| `ServiceMutations.RollbackUndoes` | agent/internal/dockerengine/planner.go:152-219 | after any mutation a rollback gives back exactly the spec from before, exactly when that is a replicated container service |
| `ServiceMutations.PlansAreExpected` | agent/internal/dockerengine/mutator.go:121-140 | a plan is what applying it expects, for as long as nobody else has written |

## Left out

- HTTP, TLS, JSON and schema decoding, framework wiring, logging, authentication and scopes: plumbing around the modelled decisions.
- SQL text and InnoDB locking: tables are maps with atomic guarded updates; unique keys are kept.
- `compareAndSetState`: it has no caller and writes no audit row.
- Actor, reason and observation texts and their length limits.
- Discovery of the live manager roster, Agent failover and cool-down: the set of managers is fixed.
- The IP, subnet and platform parts of a constraint: a node carries their verdict.
- Unicode case folding and white space: only ASCII is modelled.
- The spelling of a generation in a barrier file (leading zeros): generations are numbers.
- Capacity.Evaluate: assumes non-negative reservations and node resources and distinct node IDs, without which the sums mean nothing; reason codes are left out.
- ServiceEvolution.VerdictsFollowSwarm: the history begins after the deploy's own update; a deploy that changes nothing has none.
- Orchestration.Cluster.RunUnderAdmission: an identifier whose admission was resolved earlier is not admitted again; the resource locks around the callback are in `Locks` and `Work`.
- BarrierLock.GateRefinesProtocol: the arrival of a request is `BarrierLock.ArrivalIsInTransit`; restarts are in `ConcreteSystem`.
- ConcreteRefinement.SystemRefines: a request that dies with its process before passing the guard may arrive again, which allows more runs than the code has; a barrier read reaches whoever asked when it is answered.
- Verification.Watch.VerifyAndComplete: an Agent error with an empty message, which the source takes for no error, counts as one; the redirects of a probe, and the policy checks made for each of them, are part of its answer.
- ServiceMutations.Docker.Mutate: treats the four service mutations; node mutations follow the same version check.
- The node convergence classifier and its polling loop, and the reconciliation loops: smaller instances of the loops modelled.
- Legacy operations without fingerprints, historical redeploys, idempotent replays of finished requests.
- Bootstrap tokens, cluster registration, schema migrations, releases, the registry client and the web application.
