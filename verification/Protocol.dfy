/**
 The cluster maintenance protocol as one step system: any number of Control
 Plane callbacks and recovery controllers, the shared database, the manager
 Agents, the network between them and the Docker resources.

 `Next(s, e)` is the state after event `e`, or `None` when `e` cannot happen in
 `s`. Crashes, lost replies, delayed and repeated barrier messages, lost
 database acknowledgements and outside Docker writers are events like any other.
 */
module Protocol {
  import opened Basics
  import opened AgentContract
  import opened MaintenanceDb

  type CallbackId = nat
  type ResolverId = nat

  /** A manager barrier value: the generation and whether mutations may pass. */
  datatype Barrier = Barrier(generation: nat, open: bool)

  /**
   A manager Agent. `saved` holds every barrier a restart may load: exactly the
   current one after an acknowledged write, more after a write that failed.
   */
  datatype Agent = Agent(barrier: Barrier, invalid: bool, saved: set<Barrier>)

  const FreshAgent := Agent(Barrier(0, false), false, {Barrier(0, false)})

  datatype Place = InTransit | InHandler | Replied(response: Response) | Lost

  /** One mutation request handed to transport, and how often it updated Docker. */
  datatype Flight = Flight(
    op: OperationId, generation: nat, agent: AgentId,
    resource: ResourceId, expectedVersion: nat, beforeHash: SpecHash,
    place: Place, updates: nat)

  /** Where a callback stands inside one journalled mutation. */
  datatype Stage =
    | Idle
    | Admitted(op: OperationId, node: bool, generation: nat)
    | Probed(op: OperationId, node: bool, generation: nat, agent: AgentId)
    | RowPrepared(op: OperationId, node: bool, generation: nat, agent: AgentId)
    | RowSending(op: OperationId, node: bool, generation: nat, agent: AgentId)
    | Abandoning(op: OperationId)
    | Waiting(op: OperationId, flight: nat)
    | Answered(op: OperationId, flight: nat, error: Option<SendError>)

  /** A mutation callback running under a durable admission. */
  datatype Callback = Callback(admission: AdmissionId, stage: Stage)

  /** A recovery controller between taking its lease and committing a resolution. */
  datatype Resolver =
    | Blocking(lease: Lease, generation: nat, reread: set<AgentId>)
    | Blocked(lease: Lease, generation: nat)
    | Observed(lease: Lease, generation: nat, op: OperationId, version: nat, hash: SpecHash)

  datatype DockerResource = DockerResource(version: nat, hash: SpecHash)

  datatype State = State(
    db: Db,
    agents: map<AgentId, Agent>,
    flights: seq<Flight>,
    callbacks: map<CallbackId, Callback>,
    resolvers: map<ResolverId, Resolver>,
    docker: map<ResourceId, DockerResource>,
    puts: set<Barrier>,              // barrier transitions ever sent; each may be delivered any number of times
    served: set<(AgentId, Barrier)>, // barriers an Agent has reported in a 200 answer
    issued: set<Lease>)              // leases handed out so far

  predicate Initial(s: State) {
    && s.db == EmptyDb && s.agents != map[]
    && (forall a :: a in s.agents ==> s.agents[a] == FreshAgent)
    && s.flights == [] && s.callbacks == map[] && s.resolvers == map[]
    && s.puts == {} && s.served == {} && s.issued == {}
  }

  /** The audited transitions of the maintenance row. */
  datatype Transition =
    | Initialize
    | CloseRequested(generation: nat)
    | Close(lease: Lease, generation: nat)
    | Reconcile(lease: Lease, generation: nat)
    | Reopen(lease: Lease, generation: nat)

  /** Database time, the control lease and operation rows. */
  datatype ControlEvent =
    | Tick(elapsed: nat)
    | TakeLease(holder: HolderId, ttl: nat)
    | DropLease(lease: Lease)
    | CreateOperation(op: OperationId, node: bool, row: OperationRow)
    | ChangeStatus(op: OperationId, node: bool, status: Status, code: ErrorCode)

  /** Barrier transitions, barrier reads, Agent restarts and acknowledgement rows. */
  datatype ManagerEvent =
    | SendPut
    | HandlePut(agent: AgentId, barrier: Barrier, persisted: bool)
    | ReadBarrier(agent: AgentId)
    | RestartAgent(agent: AgentId, loaded: Option<Barrier>)
    | WriteAck(agent: AgentId, generation: nat)

  /** A step of one mutation callback; `acknowledged` and `committed` say what a faulty database did. */
  datatype WorkStep =
    | Admit(admission: AdmissionId)
    | EndCallback(deleted: bool)
    | CrashCallback
    | ReadMaintenance(op: OperationId, node: bool)
    | ProbeAgent(agent: AgentId)
    | GiveUpUnprepared
    | PrepareRow(acknowledged: bool)
    | PromoteRow(acknowledged: bool)
    | PromoteFailed
    | AbandonRow(committed: bool)
    | Send
    | Receive
    | TimeOut
    | RecordOutcome(committed: bool)

  /** What happens to a request on the wire and in an Agent, and outside Docker writers. */
  datatype WireEvent =
    | LoseRequest(flight: nat)
    | Deliver(flight: nat, check: ClusterCheck)
    | UpdateDocker(flight: nat, version: nat, hash: SpecHash)
    | FinishHandler(flight: nat, path: HandlerPath)
    | OutsideWrite(resource: ResourceId, version: nat, hash: SpecHash)

  /** A step of one recovery controller. */
  datatype RecoveryStep =
    | BeginResolve(lease: Lease, generation: nat)
    | RereadBlocked(agent: AgentId)
    | FinishBlocking
    | Observe(op: OperationId)
    | CommitNotObserved
    | CommitTerminal(op: OperationId)
    | CommitAdmission(admission: AdmissionId)
    | DropResolver

  datatype Event =
    | Maintain(transition: Transition)
    | Control(control: ControlEvent)
    | Manager(manager: ManagerEvent)
    | Work(callback: CallbackId, work: WorkStep)
    | Wire(wire: WireEvent)
    | Recovery(resolver: ResolverId, recovery: RecoveryStep)

  function Next(s: State, e: Event): Option<State> {
    match e
    case Maintain(transition) => WithDb(s, NextMaintain(s.db, s.agents.Keys, transition))
    case Control(control) => NextControl(s, control)
    case Manager(manager) => NextManager(s, manager)
    case Work(c, work) => NextWork(s, c, work)
    case Wire(wire) => NextWire(s, wire)
    case Recovery(r, recovery) => NextRecovery(s, r, recovery)
  }

  function NextMaintain(db: Db, managers: set<AgentId>, e: Transition): Option<Db> {
    match e
    case Initialize => Some(InitializeOpen(db))
    case CloseRequested(g) => RequestClosing(db, g)
    case Close(lease, g) => CommitClosed(db, managers, g, lease)
    case Reconcile(lease, g) => BeginReconciliation(db, g, lease)
    case Reopen(lease, g) => CommitOpen(db, managers, g, lease)
  }

  function NextControl(s: State, e: ControlEvent): Option<State> {
    match e
    case Tick(d) => Some(s.(db := s.db.(now := s.db.now + d)))
    case TakeLease(holder, ttl) => NextTakeLease(s, holder, ttl)
    case DropLease(lease) => WithDb(s, ReleaseLease(s.db, lease))
    case CreateOperation(op, node, row) => NextCreate(s, op, node, row)
    case ChangeStatus(op, node, status, code) => NextChangeStatus(s, op, node, status, code)
  }

  function NextManager(s: State, e: ManagerEvent): Option<State> {
    match e
    case SendPut => NextSendPut(s)
    case HandlePut(a, b, persisted) => NextHandlePut(s, a, b, persisted)
    case ReadBarrier(a) => NextReadBarrier(s, a)
    case RestartAgent(a, loaded) => NextRestart(s, a, loaded)
    case WriteAck(a, g) => NextWriteAck(s, a, g)
  }

  function NextWork(s: State, c: CallbackId, e: WorkStep): Option<State> {
    match e
    case Admit(id) => NextAdmit(s, c, id)
    case EndCallback(deleted) => NextEndCallback(s, c, deleted)
    case CrashCallback => if c in s.callbacks then Some(s.(callbacks := s.callbacks - {c})) else None
    case ReadMaintenance(op, node) => NextReadMaintenance(s, c, op, node)
    case ProbeAgent(a) => NextProbe(s, c, a)
    case GiveUpUnprepared => NextGiveUp(s, c)
    case PrepareRow(acknowledged) => NextPrepare(s, c, acknowledged)
    case PromoteRow(acknowledged) => NextPromote(s, c, acknowledged)
    case PromoteFailed => NextPromoteFailed(s, c)
    case AbandonRow(committed) => NextAbandon(s, c, committed)
    case Send => NextSend(s, c)
    case Receive => NextReceive(s, c)
    case TimeOut => NextTimeOut(s, c)
    case RecordOutcome(committed) => NextRecord(s, c, committed)
  }

  function NextWire(s: State, e: WireEvent): Option<State> {
    match e
    case LoseRequest(i) => NextLose(s, i)
    case Deliver(i, check) => NextDeliver(s, i, check)
    case UpdateDocker(i, v, h) => NextUpdateDocker(s, i, v, h)
    case FinishHandler(i, path) => NextFinish(s, i, path)
    case OutsideWrite(r, v, h) => NextOutsideWrite(s, r, v, h)
  }

  function NextRecovery(s: State, r: ResolverId, e: RecoveryStep): Option<State> {
    match e
    case BeginResolve(lease, g) => NextBeginResolve(s, r, lease, g)
    case RereadBlocked(a) => NextReread(s, r, a)
    case FinishBlocking => NextFinishBlocking(s, r)
    case Observe(op) => NextObserve(s, r, op)
    case CommitNotObserved => NextCommitNotObserved(s, r)
    case CommitTerminal(op) => NextCommitTerminal(s, r, op)
    case CommitAdmission(id) => NextCommitAdmission(s, r, id)
    case DropResolver => if r in s.resolvers then Some(s.(resolvers := s.resolvers - {r})) else None
  }

  /** The state after a whole run, or `None` when some event of it could not happen. */
  function Run(s: State, events: seq<Event>): Option<State>
    decreases |events|
  {
    if events == [] then Some(s)
    else match Next(s, events[0])
      case None => None
      case Some(t) => Run(t, events[1..])
  }

  function WithDb(s: State, db: Option<Db>): Option<State> {
    if db.Some? then Some(s.(db := db.value)) else None
  }

  function NextTakeLease(s: State, holder: HolderId, ttl: nat): Option<State> {
    if AcquireLease(s.db, holder, ttl).None? then None
    else Some(s.(db := AcquireLease(s.db, holder, ttl).value, issued := s.issued + {NextLease(s.db, holder)}))
  }

  // ----- manager barriers -----

  /** `blockAll` and `openAll` read the maintenance row first; the message may travel for any time after that. */
  function NextSendPut(s: State): Option<State> {
    if s.db.maintenance.None? || s.db.maintenance.value.state == Closed then None
    else Some(s.(puts := s.puts + {Barrier(s.db.maintenance.value.generation, s.db.maintenance.value.state == Open)}))
  }

  /** The write lock is granted only when no mutation handler holds the read lock. */
  predicate Drained(s: State, a: AgentId) {
    forall i :: 0 <= i < |s.flights| && s.flights[i].agent == a ==> s.flights[i].place != InHandler
  }

  predicate Stale(held: Barrier, wanted: Barrier) {
    wanted.generation < held.generation || (wanted.generation == held.generation && wanted.open != held.open)
  }

  function AfterPut(g: Agent, b: Barrier, persisted: bool): Agent {
    if b.generation == g.barrier.generation then g
    else if persisted then Agent(b, false, {b})
    else Agent(Barrier(g.barrier.generation, false), true, g.saved + {b})
  }

  function AfterRestart(g: Agent, loaded: Option<Barrier>): Agent {
    if loaded.Some? then Agent(loaded.value, false, {loaded.value})
    else Agent(Barrier(0, false), true, g.saved)
  }

  function NextHandlePut(s: State, a: AgentId, b: Barrier, persisted: bool): Option<State> {
    if a !in s.agents || b !in s.puts || !Drained(s, a) || s.agents[a].invalid || Stale(s.agents[a].barrier, b) then
      None
    else
      var g := AfterPut(s.agents[a], b, persisted);
      Some(s.(agents := s.agents[a := g], served := if g.invalid then s.served else s.served + {(a, g.barrier)}))
  }

  function NextReadBarrier(s: State, a: AgentId): Option<State> {
    if a !in s.agents || s.agents[a].invalid || s.agents[a].barrier.generation == 0 then None
    else Some(s.(served := s.served + {(a, s.agents[a].barrier)}))
  }

  function AbortHandlers(flights: seq<Flight>, a: AgentId): (r: seq<Flight>)
    ensures |r| == |flights|
    ensures forall i :: 0 <= i < |flights| ==>
              r[i] == if flights[i].agent == a && flights[i].place == InHandler then flights[i].(place := Lost)
                else flights[i]
  {
    seq(|flights|, i requires 0 <= i < |flights| =>
      if flights[i].agent == a && flights[i].place == InHandler then flights[i].(place := Lost) else flights[i])
  }

  function NextRestart(s: State, a: AgentId, loaded: Option<Barrier>): Option<State> {
    if a !in s.agents || (loaded.Some? && loaded.value !in s.agents[a].saved) then None
    else Some(s.(agents := s.agents[a := AfterRestart(s.agents[a], loaded)], flights := AbortHandlers(s.flights, a)))
  }

  /** An acknowledgement row is written by whoever saw the Agent answer BLOCKED, however late. */
  function NextWriteAck(s: State, a: AgentId, g: nat): Option<State> {
    if (a, Barrier(g, false)) !in s.served then None
    else Some(s.(db := RecordAck(s.db, a, g)))
  }

  // ----- operation rows -----

  function NextCreate(s: State, op: OperationId, node: bool, row: OperationRow): Option<State> {
    if node then
      if op in s.db.nodeOperations || row.kind != NodeChange then None
      else Some(s.(db := s.db.(nodeOperations := s.db.nodeOperations[op := row])))
    else
      if op in s.db.operations || row.kind == NodeChange then None
      else Some(s.(db := s.db.(operations := s.db.operations[op := row])))
  }

  function NextChangeStatus(s: State, op: OperationId, node: bool, status: Status, code: ErrorCode): Option<State> {
    if node then Some(s.(db := s.db.(nodeOperations := UpdateStatus(s.db.nodeOperations, op, status, code))))
    else Some(s.(db := s.db.(operations := UpdateStatus(s.db.operations, op, status, code))))
  }

  // ----- mutation callbacks -----

  function NextAdmit(s: State, c: CallbackId, id: AdmissionId): Option<State> {
    if c in s.callbacks || InsertAdmission(s.db, id, Generation(s.db)).None? || id in s.db.resolvedAdmissions then None
    else Some(s.(db := InsertAdmission(s.db, id, Generation(s.db)).value,
      callbacks := s.callbacks[c := Callback(id, Idle)]))
  }

  function NextEndCallback(s: State, c: CallbackId, deleted: bool): Option<State> {
    if c !in s.callbacks || s.callbacks[c].stage != Idle then None
    else Some(s.(db := if deleted then DeleteAdmission(s.db, s.callbacks[c].admission) else s.db,
                 callbacks := s.callbacks - {c}))
  }

  function MoveCallback(s: State, c: CallbackId, stage: Stage): State
    requires c in s.callbacks
  {
    s.(callbacks := s.callbacks[c := s.callbacks[c].(stage := stage)])
  }

  function Rows(db: Db, node: bool): map<OperationId, OperationRow> {
    if node then db.nodeOperations else db.operations
  }

  function NextReadMaintenance(s: State, c: CallbackId, op: OperationId, node: bool): Option<State> {
    if c !in s.callbacks || s.callbacks[c].stage != Idle || op !in Rows(s.db, node) || !InState(s.db, Open) then None
    else Some(MoveCallback(s, c, Admitted(op, node, Generation(s.db))))
  }

  function NextProbe(s: State, c: CallbackId, a: AgentId): Option<State> {
    if c !in s.callbacks || !s.callbacks[c].stage.Admitted? || a !in s.agents then None
    else
      var stage := s.callbacks[c].stage;
      if s.agents[a].invalid || s.agents[a].barrier != Barrier(stage.generation, true) then None
      else Some(MoveCallback(s, c, Probed(stage.op, stage.node, stage.generation, a)))
  }

  function NextGiveUp(s: State, c: CallbackId): Option<State> {
    if c !in s.callbacks || !(s.callbacks[c].stage.Admitted? || s.callbacks[c].stage.Probed?) then None
    else Some(MoveCallback(s, c, Idle))
  }

  /** INSERT of the PREPARED row; without the acknowledgement the caller never learns the row is there. */
  function NextPrepare(s: State, c: CallbackId, acknowledged: bool): Option<State> {
    if c !in s.callbacks || !s.callbacks[c].stage.Probed? then None
    else
      var p := s.callbacks[c].stage;
      var db := PrepareDispatch(s.db, p.op, p.generation, p.agent);
      if db.None? then None
      else Some(MoveCallback(s.(db := db.value), c,
                             if acknowledged then RowPrepared(p.op, p.node, p.generation, p.agent) else Idle))
  }

  function NextPromote(s: State, c: CallbackId, acknowledged: bool): Option<State> {
    if c !in s.callbacks || !s.callbacks[c].stage.RowPrepared? then None
    else
      var p := s.callbacks[c].stage;
      var db := PromoteDispatch(s.db, p.op, p.generation, p.agent);
      if db.None? then None
      else Some(MoveCallback(s.(db := db.value), c,
                             if acknowledged then RowSending(p.op, p.node, p.generation, p.agent)
                             else Abandoning(p.op)))
  }

  function NextPromoteFailed(s: State, c: CallbackId): Option<State> {
    if c !in s.callbacks || !s.callbacks[c].stage.RowPrepared? then None
    else Some(MoveCallback(s, c, Abandoning(s.callbacks[c].stage.op)))
  }

  /**
   PREPARED -> REJECTED for a row that was not sent; it matches nothing when the promotion had
   committed after all.
   */
  function NextAbandon(s: State, c: CallbackId, committed: bool): Option<State> {
    if c !in s.callbacks || !s.callbacks[c].stage.Abandoning? then None
    else
      var moved := MoveDispatch(s.db, s.callbacks[c].stage.op, Prepared, Rejected);
      Some(MoveCallback(if committed && moved.Some? then s.(db := moved.value) else s, c, Idle))
  }

  function NextSend(s: State, c: CallbackId): Option<State> {
    if c !in s.callbacks || !s.callbacks[c].stage.RowSending? then None
    else
      var p := s.callbacks[c].stage;
      if p.op !in Rows(s.db, p.node) then None
      else
        var row := Rows(s.db, p.node)[p.op];
        var f := Flight(p.op, p.generation, p.agent, row.resource, row.expectedVersion, row.beforeHash, InTransit, 0);
        Some(MoveCallback(s.(flights := s.flights + [f]), c, Waiting(p.op, |s.flights|)))
  }

  function NextReceive(s: State, c: CallbackId): Option<State> {
    if c !in s.callbacks || !s.callbacks[c].stage.Waiting? then None
    else
      var w := s.callbacks[c].stage;
      if w.flight >= |s.flights| || !s.flights[w.flight].place.Replied? then None
      else
        var r := s.flights[w.flight].place.response;
        Some(MoveCallback(s, c, Answered(w.op, w.flight, if r.status == 200 then None else Some(AgentError(r)))))
  }

  function NextTimeOut(s: State, c: CallbackId): Option<State> {
    if c !in s.callbacks || !s.callbacks[c].stage.Waiting? then None
    else Some(MoveCallback(s, c, Answered(s.callbacks[c].stage.op, s.callbacks[c].stage.flight, Some(TransportError))))
  }

  function OutcomePhase(error: Option<SendError>): Phase {
    if error.None? then Acknowledged
    else if IsDeterministicRejection(error.value) then Rejected
    else Uncertain
  }

  function NextRecord(s: State, c: CallbackId, committed: bool): Option<State> {
    if c !in s.callbacks || !s.callbacks[c].stage.Answered? then None
    else
      var answer := s.callbacks[c].stage;
      var moved := MoveDispatch(s.db, answer.op, Sending, OutcomePhase(answer.error));
      Some(MoveCallback(if committed && moved.Some? then s.(db := moved.value) else s, c, Idle))
  }

  // ----- network, Agents and Docker -----

  function MoveFlight(s: State, i: nat, place: Place): State
    requires i < |s.flights|
  {
    s.(flights := s.flights[i := s.flights[i].(place := place)])
  }

  function NextLose(s: State, i: nat): Option<State> {
    if i >= |s.flights| || s.flights[i].place != InTransit then None
    else Some(MoveFlight(s, i, Lost))
  }

  function NextDeliver(s: State, i: nat, check: ClusterCheck): Option<State> {
    if i >= |s.flights| || s.flights[i].place != InTransit || s.flights[i].agent !in s.agents then None
    else
      var g := s.agents[s.flights[i].agent];
      var verdict := GuardVerdict(g.invalid, g.barrier.open, g.barrier.generation, s.flights[i].generation, check);
      Some(MoveFlight(s, i, if verdict.Some? then Replied(verdict.value) else InHandler))
  }

  /** The single version-checked Docker update of a handler; Docker's version strictly increases. */
  function NextUpdateDocker(s: State, i: nat, v: nat, h: SpecHash): Option<State> {
    if i >= |s.flights| || s.flights[i].place != InHandler || s.flights[i].updates != 0 ||
        s.flights[i].resource !in s.docker then None
    else
      var f := s.flights[i];
      if s.docker[f.resource].version != f.expectedVersion || s.docker[f.resource].hash != f.beforeHash ||
          v <= f.expectedVersion then None
      else Some(s.(docker := s.docker[f.resource := DockerResource(v, h)],
                   flights := s.flights[i := f.(updates := f.updates + 1)]))
  }

  function NextFinish(s: State, i: nat, path: HandlerPath): Option<State> {
    if i >= |s.flights| || s.flights[i].place != InHandler || Updated(path) != (s.flights[i].updates > 0) then None
    else Some(MoveFlight(s, i, Replied(HandlerResponse(path))))
  }

  function NextOutsideWrite(s: State, r: ResourceId, v: nat, h: SpecHash): Option<State> {
    if r in s.docker && v <= s.docker[r].version then None
    else Some(s.(docker := s.docker[r := DockerResource(v, h)]))
  }

  // ----- manual recovery -----

  function NextBeginResolve(s: State, r: ResolverId, lease: Lease, g: nat): Option<State> {
    if r in s.resolvers || lease !in s.issued || !(At(s.db, Closing, g) || At(s.db, Reconciling, g)) then None
    else Some(s.(resolvers := s.resolvers[r := Blocking(lease, g, {})]))
  }

  /** `inspectManagerBarrier`: a fresh 200 answer saying BLOCKED at exactly this generation. */
  function NextReread(s: State, r: ResolverId, a: AgentId): Option<State> {
    if r !in s.resolvers || !s.resolvers[r].Blocking? || a !in s.agents then None
    else
      var p := s.resolvers[r];
      if s.agents[a].invalid || s.agents[a].barrier != Barrier(p.generation, false) then None
      else Some(s.(served := s.served + {(a, s.agents[a].barrier)},
                   resolvers := s.resolvers[r := p.(reread := p.reread + {a})]))
  }

  function NextFinishBlocking(s: State, r: ResolverId): Option<State> {
    if r !in s.resolvers || !s.resolvers[r].Blocking? then None
    else
      var p := s.resolvers[r];
      if p.reread != s.agents.Keys || !AllAcknowledged(s.db, s.agents.Keys, p.generation) ||
         !(At(s.db, Closing, p.generation) || At(s.db, Reconciling, p.generation)) then None
      else Some(s.(resolvers := s.resolvers[r := Blocked(p.lease, p.generation)]))
  }

  /** The inspection inside the resource lock, of the resource the dispatched operation names. */
  function NextObserve(s: State, r: ResolverId, op: OperationId): Option<State> {
    if r !in s.resolvers || !s.resolvers[r].Blocked? || op !in s.db.dispatches || Lookup(s.db, op).None? then None
    else
      var p := s.resolvers[r];
      var resource := Lookup(s.db, op).value.resource;
      if resource !in s.docker then None
      else
        var seen := s.docker[resource];
        Some(s.(resolvers := s.resolvers[r := Observed(p.lease, p.generation, op, seen.version, seen.hash)]))
  }

  function NextCommitNotObserved(s: State, r: ResolverId): Option<State> {
    if r !in s.resolvers || !s.resolvers[r].Observed? then None
    else
      var p := s.resolvers[r];
      var db := ResolveNotObserved(s.db, p.generation, p.lease, p.op, p.version, p.hash);
      if db.None? then None
      else Some(s.(db := db.value, resolvers := s.resolvers - {r}))
  }

  function NextCommitTerminal(s: State, r: ResolverId, op: OperationId): Option<State> {
    if r !in s.resolvers || s.resolvers[r].Blocking? then None
    else
      var db := ResolveTerminal(s.db, s.resolvers[r].generation, s.resolvers[r].lease, op);
      if db.None? then None
      else Some(s.(db := db.value, resolvers := s.resolvers - {r}))
  }

  function NextCommitAdmission(s: State, r: ResolverId, id: AdmissionId): Option<State> {
    if r !in s.resolvers || s.resolvers[r].Blocking? then None
    else
      var db := ResolveAdmission(s.db, s.resolvers[r].generation, s.resolvers[r].lease, id);
      if db.None? then None
      else Some(s.(db := db.value, resolvers := s.resolvers - {r}))
  }
}
