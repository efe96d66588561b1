/**
 The Control Plane's durable tables and the atomic transactions on them.
 A transaction is a function from the tables to `Some(new tables)` when it
 commits and to `None` when it rolls back or matches no row.
 */
module MaintenanceDb {
  import opened Basics

  // Identifiers are only ever compared.
  type AgentId = nat
  type OperationId = nat
  type AdmissionId = nat
  type HolderId = nat
  type ResourceId = nat
  type SpecHash = nat
  type DeploymentId = nat

  datatype MaintenanceState = Open | Closing | Closed | Reconciling
  datatype MaintenanceRow = MaintenanceRow(state: MaintenanceState, generation: nat)

  datatype Lease = Lease(holder: HolderId, token: nat)
  datatype LeaseRow = LeaseRow(lease: Lease, expiresAt: nat)

  datatype Phase = Prepared | Sending | Acknowledged | Rejected | Uncertain
  datatype Dispatch = Dispatch(generation: nat, agent: AgentId, phase: Phase)

  datatype Kind = Scale | Restart | Deploy | Rollback | NodeChange
  datatype Status = Pending | Running | Verifying | NeedsAttention | Success | Failed
  datatype DeploymentStatus =
    | Deploying | Checking | Succeeded | DeployFailed | Attention
    | RollingBack | RollbackChecking | RolledBack | RollbackFailed
  datatype ErrorCode = NoError | MutationNotObserved | RollbackStillInProgress | ManuallyNotObserved | OtherError

  /** A row of `operations` or `node_operations`. */
  datatype OperationRow = OperationRow(
    kind: Kind, resource: ResourceId, expectedVersion: nat, beforeHash: SpecHash,
    status: Status, code: ErrorCode)

  /** An evidence resolution of a dispatch, with the generation stored in its evidence. */
  datatype Resolution = Resolution(generation: nat, notObserved: bool)

  datatype Db = Db(
    maintenance: Option<MaintenanceRow>,
    audit: seq<MaintenanceRow>,             // one event per audited state transition
    now: nat,
    lease: Option<LeaseRow>,
    acks: map<AgentId, nat>,                // maintenance_agent_barriers: generation acknowledged
    admissions: map<AdmissionId, nat>,      // maintenance_active_admissions: generation admitted under
    dispatches: map<OperationId, Dispatch>, // unique on the operation
    operations: map<OperationId, OperationRow>,
    nodeOperations: map<OperationId, OperationRow>,
    resolvedAdmissions: set<AdmissionId>,
    resolvedDispatches: map<OperationId, Resolution>)

  const EmptyDb := Db(None, [], 0, None, map[], map[], map[], map[], map[], {}, map[])

  function Generation(db: Db): nat {
    if db.maintenance.Some? then db.maintenance.value.generation else 0
  }

  predicate InState(db: Db, state: MaintenanceState) {
    db.maintenance.Some? && db.maintenance.value.state == state
  }

  predicate At(db: Db, state: MaintenanceState, generation: nat) {
    db.maintenance == Some(MaintenanceRow(state, generation))
  }

  predicate Terminal(status: Status) {
    status == Success || status == Failed
  }

  predicate Unresolved(phase: Phase) {
    phase == Prepared || phase == Sending || phase == Uncertain
  }

  // ----- maintenance state -----

  function MoveTo(db: Db, row: MaintenanceRow): Db {
    db.(maintenance := Some(row), audit := db.audit + [row])
  }

  /** A duplicate initialization keeps whatever row exists. */
  function InitializeOpen(db: Db): Db {
    if db.maintenance.Some? then db else MoveTo(db, MaintenanceRow(Open, 1))
  }

  function RequestClosing(db: Db, generation: nat): Option<Db> {
    if generation >= 1 && At(db, Open, generation)
    then Some(MoveTo(db, MaintenanceRow(Closing, generation + 1)))
    else None
  }

  predicate NoUnresolvedWork(db: Db) {
    && (forall a :: a in db.admissions ==> a in db.resolvedAdmissions)
    && (forall o :: o in db.operations ==> Terminal(db.operations[o].status))
    && (forall o :: o in db.nodeOperations ==> Terminal(db.nodeOperations[o].status))
    && (forall o :: o in db.dispatches && Unresolved(db.dispatches[o].phase) ==> o in db.resolvedDispatches)
  }

  /** Exactly the expected managers have acknowledged exactly this generation. */
  predicate AllAcknowledged(db: Db, managers: set<AgentId>, generation: nat) {
    && managers != {}
    && db.acks.Keys == managers
    && (forall m :: m in db.acks ==> db.acks[m] == generation)
  }

  function CommitClosed(db: Db, managers: set<AgentId>, generation: nat, lease: Lease): Option<Db> {
    if generation >= 1 && OwnsLease(db, lease) && At(db, Closing, generation) && NoUnresolvedWork(db) &&
       AllAcknowledged(db, managers, generation)
    then Some(MoveTo(db, MaintenanceRow(Closed, generation + 1)))
    else None
  }

  function BeginReconciliation(db: Db, generation: nat, lease: Lease): Option<Db> {
    if generation >= 1 && OwnsLease(db, lease) && At(db, Closed, generation)
    then Some(MoveTo(db, MaintenanceRow(Reconciling, generation + 1)))
    else None
  }

  function CommitOpen(db: Db, managers: set<AgentId>, generation: nat, lease: Lease): Option<Db> {
    if generation >= 1 && OwnsLease(db, lease) && At(db, Reconciling, generation) && NoUnresolvedWork(db) &&
       AllAcknowledged(db, managers, generation)
    then Some(MoveTo(db, MaintenanceRow(Open, generation + 1)))
    else None
  }

  // ----- control lease -----

  predicate OwnsLease(db: Db, lease: Lease) {
    db.lease.Some? && db.lease.value.lease == lease && db.now < db.lease.value.expiresAt
  }

  /** The lease the next acquisition hands out, whoever asks. */
  function NextLease(db: Db, holder: HolderId): Lease {
    Lease(holder, if db.lease.Some? then db.lease.value.lease.token + 1 else 1)
  }

  function AcquireLease(db: Db, holder: HolderId, ttl: nat): Option<Db> {
    if 5 <= ttl <= 300 && (db.lease.Some? ==> db.lease.value.expiresAt <= db.now)
    then Some(db.(lease := Some(LeaseRow(NextLease(db, holder), db.now + ttl))))
    else None
  }

  function ReleaseLease(db: Db, lease: Lease): Option<Db> {
    if db.lease.Some? && db.lease.value.lease == lease
    then Some(db.(lease := Some(LeaseRow(lease, db.now))))
    else None
  }

  // ----- admissions and dispatch journal -----

  function InsertAdmission(db: Db, id: AdmissionId, generation: nat): Option<Db> {
    if id !in db.admissions && generation >= 1 && At(db, Open, generation)
    then Some(db.(admissions := db.admissions[id := generation]))
    else None
  }

  function DeleteAdmission(db: Db, id: AdmissionId): Db {
    db.(admissions := db.admissions - {id})
  }

  function PrepareDispatch(db: Db, op: OperationId, generation: nat, agent: AgentId): Option<Db> {
    if op in db.dispatches then None
    else Some(db.(dispatches := db.dispatches[op := Dispatch(generation, agent, Prepared)]))
  }

  function PromoteDispatch(db: Db, op: OperationId, generation: nat, agent: AgentId): Option<Db> {
    if op in db.dispatches && db.dispatches[op] == Dispatch(generation, agent, Prepared) && At(db, Open, generation)
    then Some(db.(dispatches := db.dispatches[op := Dispatch(generation, agent, Sending)]))
    else None
  }

  predicate PhaseStep(before: Phase, after: Phase) {
    match before
    case Prepared => after == Sending || after == Rejected
    case Sending => after == Acknowledged || after == Rejected || after == Uncertain
    case _ => false
  }

  function MoveDispatch(db: Db, op: OperationId, before: Phase, after: Phase): Option<Db> {
    if PhaseStep(before, after) && op in db.dispatches && db.dispatches[op].phase == before
    then Some(db.(dispatches := db.dispatches[op := db.dispatches[op].(phase := after)]))
    else None
  }

  function RecordAck(db: Db, agent: AgentId, generation: nat): Db {
    db.(acks := db.acks[agent := generation])
  }

  // ----- operations and evidence resolution -----

  /** The row an operation ID names, when it names exactly one across both tables. */
  function Lookup(db: Db, op: OperationId): Option<OperationRow> {
    if op in db.operations && op !in db.nodeOperations then Some(db.operations[op])
    else if op in db.nodeOperations && op !in db.operations then Some(db.nodeOperations[op])
    else None
  }

  /** Guarded status update: terminal rows never change again. */
  function UpdateStatus(rows: map<OperationId, OperationRow>, op: OperationId, status: Status,
      code: ErrorCode): map<OperationId, OperationRow> {
    if op in rows && !Terminal(rows[op].status)
    then rows[op := rows[op].(status := status, code := code)]
    else rows
  }

  predicate ManuallyRecoverable(row: OperationRow) {
    match row.kind
    case NodeChange => row.status == NeedsAttention && row.code == MutationNotObserved
    case Scale => row.status == NeedsAttention && row.code == MutationNotObserved
    case Restart => row.status == NeedsAttention && row.code == MutationNotObserved
    case Deploy => row.status == NeedsAttention && row.code == MutationNotObserved
    case Rollback => row.status == Verifying && row.code == RollbackStillInProgress
  }

  predicate RecoveryAuthorised(db: Db, generation: nat, lease: Lease) {
    OwnsLease(db, lease) && (At(db, Closing, generation) || At(db, Reconciling, generation))
  }

  /** The manual outcome "the mutation was not observed": operation FAILED and its dispatch resolved, together. */
  function ResolveNotObserved(db: Db, generation: nat, lease: Lease, op: OperationId, version: nat,
      hash: SpecHash): Option<Db> {
    if RecoveryAuthorised(db, generation, lease) && op in db.dispatches && op !in db.resolvedDispatches &&
       Lookup(db, op).Some? && ManuallyRecoverable(Lookup(db, op).value) &&
       version == Lookup(db, op).value.expectedVersion && hash == Lookup(db, op).value.beforeHash
    then Some(db.(
      operations := UpdateStatus(db.operations, op, Failed, ManuallyNotObserved),
      nodeOperations := UpdateStatus(db.nodeOperations, op, Failed, ManuallyNotObserved),
      resolvedDispatches := db.resolvedDispatches[op := Resolution(generation, true)]))
    else None
  }

  function ResolveTerminal(db: Db, generation: nat, lease: Lease, op: OperationId): Option<Db> {
    if RecoveryAuthorised(db, generation, lease) && op in db.dispatches && op !in db.resolvedDispatches &&
       Lookup(db, op).Some? && Terminal(Lookup(db, op).value.status)
    then Some(db.(resolvedDispatches := db.resolvedDispatches[op := Resolution(generation, false)]))
    else None
  }

  function ResolveAdmission(db: Db, generation: nat, lease: Lease, id: AdmissionId): Option<Db> {
    if RecoveryAuthorised(db, generation, lease) && id in db.admissions && id !in db.resolvedAdmissions
    then Some(db.(resolvedAdmissions := db.resolvedAdmissions + {id}))
    else None
  }
}
