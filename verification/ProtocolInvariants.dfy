/**
 What every reachable state of the maintenance protocol satisfies. Each
 predicate takes only the parts of the state it speaks about, so an event that
 leaves those parts alone keeps it for free.
 */
module ProtocolInvariants {
  import opened Basics
  import opened AgentContract
  import opened MaintenanceDb
  import opened Protocol

  // ----- maintenance row, audit and lease -----

  /** The state that a generation determines. */
  function StateAt(generation: nat): MaintenanceState {
    match generation % 4
    case 1 => Open
    case 2 => Closing
    case 3 => Closed
    case _ => Reconciling
  }

  ghost predicate RowOk(maintenance: Option<MaintenanceRow>, audit: seq<MaintenanceRow>) {
    && (maintenance.None? ==> audit == [])
    && (maintenance.Some? ==> maintenance.value.generation == |audit| >= 1 &&
                              maintenance.value.state == StateAt(|audit|))
    && (forall i :: 0 <= i < |audit| ==> audit[i] == MaintenanceRow(StateAt(i + 1), i + 1))
  }

  ghost predicate LeasesOk(lease: Option<LeaseRow>, issued: set<Lease>) {
    && (lease.None? ==> issued == {})
    && (lease.Some? ==> lease.value.lease in issued)
    && (forall l :: l in issued ==> 1 <= l.token <= lease.value.lease.token)
    && (forall l, m :: l in issued && m in issued && l.token == m.token ==> l == m)
  }

  // ----- barriers -----

  /** A barrier some Control Plane could have sent by now: OPEN only at generations committed as OPEN. */
  predicate Sendable(b: Barrier, generation: nat) {
    1 <= b.generation <= generation && if b.open then b.generation % 4 == 1 else b.generation % 2 == 0
  }

  ghost predicate PutsOk(puts: set<Barrier>, generation: nat) {
    forall b :: b in puts ==> Sendable(b, generation)
  }

  ghost predicate AgentOk(g: Agent, generation: nat) {
    && g.saved != {}
    && (forall b :: b in g.saved ==> b == Barrier(0, false) || Sendable(b, generation))
    && (if g.invalid then !g.barrier.open else g.saved == {g.barrier})
  }

  ghost predicate AgentsOk(agents: map<AgentId, Agent>, generation: nat) {
    forall a :: a in agents ==> AgentOk(agents[a], generation)
  }

  /** `b` bounds from below what Agent `g` can hold now or load after any restart. */
  ghost predicate Floor(g: Agent, b: Barrier) {
    forall x :: x in g.saved ==> x.generation >= b.generation && (x.generation == b.generation ==> x == b)
  }

  ghost predicate ServedOk(served: set<(AgentId, Barrier)>, agents: map<AgentId, Agent>, generation: nat) {
    forall a, b :: (a, b) in served ==> a in agents && b.generation <= generation && Floor(agents[a], b)
  }

  ghost predicate AcksOk(acks: map<AgentId, nat>, served: set<(AgentId, Barrier)>) {
    forall a :: a in acks ==> (a, Barrier(acks[a], false)) in served
  }

  /** Every manager has answered BLOCKED at this generation. */
  ghost predicate AllBlocked(managers: set<AgentId>, served: set<(AgentId, Barrier)>, generation: nat) {
    forall a :: a in managers ==> (a, Barrier(generation, false)) in served
  }

  ghost predicate ClosedOk(maintenance: Option<MaintenanceRow>, managers: set<AgentId>,
      served: set<(AgentId, Barrier)>) {
    maintenance.Some? ==>
      var MaintenanceRow(state, generation) := maintenance.value;
      && (state == Closed ==> generation >= 1 && AllBlocked(managers, served, generation - 1))
      && (state == Reconciling ==> generation >= 2 && AllBlocked(managers, served, generation - 2))
  }

  ghost predicate HandlersOk(flights: seq<Flight>, agents: map<AgentId, Agent>) {
    forall i :: 0 <= i < |flights| && flights[i].place == InHandler ==>
      && flights[i].agent in agents
      && !agents[flights[i].agent].invalid
      && agents[flights[i].agent].barrier == Barrier(flights[i].generation, true)
  }

  // ----- admissions -----

  ghost predicate CallbacksOk(callbacks: map<CallbackId, Callback>, admissions: map<AdmissionId, nat>) {
    && (forall c :: c in callbacks ==> callbacks[c].admission in admissions)
    && (forall c, d :: c in callbacks && d in callbacks && c != d ==> callbacks[c].admission != callbacks[d].admission)
  }

  ghost predicate QuietOk(db: Db) {
    InState(db, Closed) || InState(db, Reconciling) ==>
      forall a :: a in db.admissions ==> a in db.resolvedAdmissions
  }

  // ----- dispatch journal -----

  /** The stages in which a callback owns the operation's journal row. */
  predicate Owns(stage: Stage) {
    stage.RowPrepared? || stage.RowSending? || stage.Abandoning? || stage.Waiting? || stage.Answered?
  }

  predicate Unsent(stage: Stage) {
    stage.RowPrepared? || stage.RowSending? || stage.Abandoning?
  }

  ghost predicate NoFlight(flights: seq<Flight>, op: OperationId) {
    forall i :: 0 <= i < |flights| ==> flights[i].op != op
  }

  /** What a callback may rely on about the row of the operation it is working on. */
  ghost predicate StageOk(stage: Stage, db: Db) {
    && (stage.Admitted? || stage.Probed? || stage.RowPrepared? || stage.RowSending? ==>
          stage.op in Rows(db, stage.node) && stage.generation % 4 == 1 && stage.generation <= Generation(db))
    && (Owns(stage) ==> stage.op in db.dispatches)
    && (stage.RowPrepared? ==> db.dispatches[stage.op] == Dispatch(stage.generation, stage.agent, Prepared))
    && (stage.RowSending? ==> db.dispatches[stage.op] == Dispatch(stage.generation, stage.agent, Sending))
    && (stage.Waiting? || stage.Answered? ==> db.dispatches[stage.op].phase == Sending)
  }

  /** The answer a callback got is the one its request was given; only a time-out says nothing. */
  predicate IsReply(error: Option<SendError>, place: Place) {
    && (error.None? ==> place.Replied? && place.response.status == 200)
    && (error.Some? && error.value.AgentError? ==> place == Replied(error.value.response))
  }

  /** What a callback may rely on about the request it has handed to transport, if any. */
  ghost predicate AnswerOk(stage: Stage, flights: seq<Flight>) {
    && (Unsent(stage) ==> NoFlight(flights, stage.op))
    && (stage.Waiting? || stage.Answered? ==> stage.flight < |flights| && flights[stage.flight].op == stage.op)
    && (stage.Answered? ==> stage.error != Some(PreDispatchRejection))
    && (stage.Answered? ==> IsReply(stage.error, flights[stage.flight].place))
    && (stage.Answered? && OutcomePhase(stage.error) == Acknowledged ==> flights[stage.flight].updates == 1)
    && (stage.Answered? && OutcomePhase(stage.error) == Rejected ==> flights[stage.flight].updates == 0)
  }

  ghost predicate StagesOk(callbacks: map<CallbackId, Callback>, db: Db) {
    forall c :: c in callbacks ==> StageOk(callbacks[c].stage, db)
  }

  ghost predicate AnswersOk(callbacks: map<CallbackId, Callback>, flights: seq<Flight>) {
    forall c :: c in callbacks ==> AnswerOk(callbacks[c].stage, flights)
  }

  ghost predicate OwnersOk(callbacks: map<CallbackId, Callback>) {
    forall c, d ::
      c in callbacks && d in callbacks && c != d && Owns(callbacks[c].stage) && Owns(callbacks[d].stage) ==>
      callbacks[c].stage.op != callbacks[d].stage.op
  }

  ghost predicate DispatchesOk(dispatches: map<OperationId, Dispatch>, generation: nat) {
    forall op :: op in dispatches ==> dispatches[op].generation % 4 == 1 && dispatches[op].generation <= generation
  }

  ghost predicate AcknowledgedOk(dispatches: map<OperationId, Dispatch>, flights: seq<Flight>) {
    forall op :: op in dispatches && dispatches[op].phase == Acknowledged ==> !NoFlight(flights, op)
  }

  predicate PlaceOk(f: Flight) {
    && f.updates <= 1
    && (f.place == InTransit ==> f.updates == 0)
    && (f.place.Replied? && f.place.response.status == 200 ==> f.updates == 1)
    && (f.place.Replied? && IsDeterministicRejection(AgentError(f.place.response)) ==> f.updates == 0)
  }

  predicate PhaseOk(f: Flight, phase: Phase) {
    && phase != Prepared
    && (f.place == InTransit || f.place == InHandler ==> phase == Sending || phase == Uncertain)
    && (phase == Acknowledged ==> f.updates == 1)
    && (phase == Rejected ==> f.updates == 0)
  }

  ghost predicate FlightOk(f: Flight, dispatches: map<OperationId, Dispatch>) {
    && f.op in dispatches
    && dispatches[f.op].generation == f.generation
    && dispatches[f.op].agent == f.agent
    && PlaceOk(f)
    && PhaseOk(f, dispatches[f.op].phase)
  }

  ghost predicate FlightsOk(flights: seq<Flight>, dispatches: map<OperationId, Dispatch>) {
    forall i :: 0 <= i < |flights| ==> FlightOk(flights[i], dispatches)
  }

  /** No operation is handed to transport twice. */
  ghost predicate SentOnce(flights: seq<Flight>) {
    forall i, j :: 0 <= i < j < |flights| ==> flights[i].op != flights[j].op
  }

  // ----- Docker and manual recovery -----

  predicate Targets(f: Flight, rows: map<OperationId, OperationRow>) {
    && f.op in rows && rows[f.op].resource == f.resource
    && rows[f.op].expectedVersion == f.expectedVersion && rows[f.op].beforeHash == f.beforeHash
  }

  ghost predicate TargetsOk(flights: seq<Flight>, operations: map<OperationId, OperationRow>,
      nodeOperations: map<OperationId, OperationRow>) {
    forall i :: 0 <= i < |flights| ==> Targets(flights[i], operations) || Targets(flights[i], nodeOperations)
  }

  ghost predicate DockerOk(flights: seq<Flight>, docker: map<ResourceId, DockerResource>) {
    forall i :: 0 <= i < |flights| && flights[i].updates > 0 ==>
      flights[i].resource in docker && docker[flights[i].resource].version > flights[i].expectedVersion
  }

  /** Every update this operation made so far was made on a version older than `version`. */
  ghost predicate UpdatesBefore(flights: seq<Flight>, op: OperationId, version: nat) {
    forall i :: 0 <= i < |flights| && flights[i].op == op && flights[i].updates > 0 ==>
      flights[i].expectedVersion < version
  }

  ghost predicate ResolverOk(p: Resolver, generation: nat, managers: set<AgentId>, served: set<(AgentId, Barrier)>) {
    && p.generation <= generation
    && if p.Blocking? then AllBlocked(p.reread, served, p.generation) else AllBlocked(managers, served, p.generation)
  }

  ghost predicate ResolversOk(resolvers: map<ResolverId, Resolver>, generation: nat, managers: set<AgentId>,
      served: set<(AgentId, Barrier)>) {
    forall r :: r in resolvers ==> ResolverOk(resolvers[r], generation, managers, served)
  }

  ghost predicate ObservationsOk(resolvers: map<ResolverId, Resolver>, generation: nat, flights: seq<Flight>) {
    forall r :: r in resolvers && resolvers[r].Observed? && resolvers[r].generation == generation ==>
      UpdatesBefore(flights, resolvers[r].op, resolvers[r].version)
  }

  /** The operation's request, if any was sent, never updated Docker. */
  ghost predicate NeverUpdated(flights: seq<Flight>, op: OperationId) {
    forall i :: 0 <= i < |flights| && flights[i].op == op ==> flights[i].updates == 0
  }

  /** A committed "not observed": the Agents are past the request's generation and it changed nothing. */
  ghost predicate NotObservedOk(op: OperationId, generation: nat, dispatches: map<OperationId, Dispatch>,
                                managers: set<AgentId>, served: set<(AgentId, Barrier)>, flights: seq<Flight>) {
    && op in dispatches
    && dispatches[op].generation < generation
    && AllBlocked(managers, served, generation)
    && NeverUpdated(flights, op)
  }

  ghost predicate ResolutionsOk(resolved: map<OperationId, Resolution>, dispatches: map<OperationId, Dispatch>,
                                managers: set<AgentId>, served: set<(AgentId, Barrier)>, flights: seq<Flight>) {
    forall op :: op in resolved && resolved[op].notObserved ==>
      NotObservedOk(op, resolved[op].generation, dispatches, managers, served, flights)
  }

  // ----- the whole invariant -----

  ghost predicate BarrierInv(s: State) {
    && RowOk(s.db.maintenance, s.db.audit)
    && LeasesOk(s.db.lease, s.issued)
    && PutsOk(s.puts, Generation(s.db))
    && AgentsOk(s.agents, Generation(s.db))
    && ServedOk(s.served, s.agents, Generation(s.db))
    && AcksOk(s.db.acks, s.served)
    && ClosedOk(s.db.maintenance, s.agents.Keys, s.served)
    && HandlersOk(s.flights, s.agents)
  }

  ghost predicate JournalInv(s: State) {
    && CallbacksOk(s.callbacks, s.db.admissions)
    && QuietOk(s.db)
    && StagesOk(s.callbacks, s.db)
    && AnswersOk(s.callbacks, s.flights)
    && OwnersOk(s.callbacks)
    && DispatchesOk(s.db.dispatches, Generation(s.db))
    && AcknowledgedOk(s.db.dispatches, s.flights)
    && FlightsOk(s.flights, s.db.dispatches)
    && SentOnce(s.flights)
  }

  ghost predicate RecoveryInv(s: State) {
    && TargetsOk(s.flights, s.db.operations, s.db.nodeOperations)
    && DockerOk(s.flights, s.docker)
    && ResolversOk(s.resolvers, Generation(s.db), s.agents.Keys, s.served)
    && ObservationsOk(s.resolvers, Generation(s.db), s.flights)
    && ResolutionsOk(s.db.resolvedDispatches, s.db.dispatches, s.agents.Keys, s.served, s.flights)
  }

  ghost predicate Inv(s: State) {
    BarrierInv(s) && JournalInv(s) && RecoveryInv(s)
  }

  lemma InitialInv(s: State)
    requires Initial(s)
    ensures Inv(s)
  {
  }
}
