/**
 Every event of the maintenance protocol keeps the invariant. For each family of
 events an effect predicate says what the family may change; the invariant is
 then kept by every change of that kind.
 */
module ProtocolSteps {
  import opened Basics
  import opened MaintenanceDb
  import opened Protocol
  import opened ProtocolInvariants

  // ----- maintenance transitions -----

  lemma MaintainShape(db: Db, managers: set<AgentId>, e: Transition, after: Db)
    requires RowOk(db.maintenance, db.audit) && NextMaintain(db, managers, e) == Some(after)
    ensures after == db || after == MoveTo(db, MaintenanceRow(StateAt(Generation(db) + 1), Generation(db) + 1))
    ensures after != db && StateAt(Generation(after)) == Closed ==>
              NoUnresolvedWork(db) && AllAcknowledged(db, managers, Generation(db))
  {
    match e
    case Initialize =>
    case CloseRequested(_) =>
    case Close(_, _) =>
    case Reconcile(_, _) =>
    case Reopen(_, _) =>
  }

  /** A transition of the maintenance row to the next generation, justified when it reaches CLOSED. */
  ghost predicate MaintainEffect(s: State, t: State) {
    && t == s.(db := MoveTo(s.db, MaintenanceRow(StateAt(Generation(s.db) + 1), Generation(s.db) + 1)))
    && (StateAt(Generation(s.db) + 1) == Closed ==>
          NoUnresolvedWork(s.db) && AllAcknowledged(s.db, s.agents.Keys, Generation(s.db)))
  }

  lemma MaintainKeepsBarrier(s: State, t: State)
    requires BarrierInv(s) && MaintainEffect(s, t)
    ensures BarrierInv(t)
  {
    RowMoves(s.db, t.db);
    GenerationGrows(s.puts, s.agents, s.served, Generation(s.db));
    ClosedMoves(s, t);
  }

  lemma RowMoves(db: Db, after: Db)
    requires RowOk(db.maintenance, db.audit)
    requires after == MoveTo(db, MaintenanceRow(StateAt(Generation(db) + 1), Generation(db) + 1))
    ensures RowOk(after.maintenance, after.audit) && Generation(after) == Generation(db) + 1
  {
  }

  lemma GenerationGrows(puts: set<Barrier>, agents: map<AgentId, Agent>, served: set<(AgentId, Barrier)>, g: nat)
    requires PutsOk(puts, g) && AgentsOk(agents, g) && ServedOk(served, agents, g)
    ensures PutsOk(puts, g + 1) && AgentsOk(agents, g + 1) && ServedOk(served, agents, g + 1)
  {
    forall a | a in agents ensures AgentOk(agents[a], g + 1) {
      assert AgentOk(agents[a], g);
    }
  }

  lemma ClosedMoves(s: State, t: State)
    requires RowOk(s.db.maintenance, s.db.audit) && AcksOk(s.db.acks, s.served) && MaintainEffect(s, t)
    requires ClosedOk(s.db.maintenance, s.agents.Keys, s.served)
    ensures ClosedOk(t.db.maintenance, t.agents.Keys, t.served)
  {
    var g := Generation(s.db);
    if StateAt(g + 1) == Closed {
      assert AllBlocked(s.agents.Keys, s.served, g);
    }
  }

  lemma MaintainKeepsJournal(s: State, t: State)
    requires BarrierInv(s) && JournalInv(s) && MaintainEffect(s, t)
    ensures JournalInv(t)
  {
  }

  lemma MaintainKeepsRecovery(s: State, t: State)
    requires RecoveryInv(s) && MaintainEffect(s, t)
    ensures RecoveryInv(t)
  {
  }

  // ----- control events -----

  /** Operation rows are never deleted, never change what they target, and terminal ones never change. */
  ghost predicate RowsKept(before: map<OperationId, OperationRow>, after: map<OperationId, OperationRow>) {
    forall op :: op in before ==>
      op in after && after[op].resource == before[op].resource &&
        after[op].expectedVersion == before[op].expectedVersion &&
      after[op].beforeHash == before[op].beforeHash && (Terminal(before[op].status) ==> after[op] == before[op])
  }

  ghost predicate ControlEffect(s: State, t: State) {
    && t == s.(db := s.db.(now := t.db.now, lease := t.db.lease, operations := t.db.operations,
         nodeOperations := t.db.nodeOperations),
               issued := t.issued)
    && RowsKept(s.db.operations, t.db.operations)
    && RowsKept(s.db.nodeOperations, t.db.nodeOperations)
  }

  lemma UpdateStatusKeepsRows(rows: map<OperationId, OperationRow>, op: OperationId, status: Status, code: ErrorCode)
    ensures RowsKept(rows, UpdateStatus(rows, op, status, code))
  {
  }

  lemma CreateHasEffect(s: State, op: OperationId, node: bool, row: OperationRow, t: State)
    requires NextCreate(s, op, node, row) == Some(t)
    ensures ControlEffect(s, t) && t.db.lease == s.db.lease && t.issued == s.issued
  {
  }

  lemma ChangeHasEffect(s: State, op: OperationId, node: bool, status: Status, code: ErrorCode, t: State)
    requires NextChangeStatus(s, op, node, status, code) == Some(t)
    ensures ControlEffect(s, t) && t.db.lease == s.db.lease && t.issued == s.issued
  {
    UpdateStatusKeepsRows(s.db.operations, op, status, code);
    UpdateStatusKeepsRows(s.db.nodeOperations, op, status, code);
  }

  lemma TakeLeaseHasEffect(s: State, holder: HolderId, ttl: nat, t: State)
    requires LeasesOk(s.db.lease, s.issued) && NextTakeLease(s, holder, ttl) == Some(t)
    ensures ControlEffect(s, t) && LeasesOk(t.db.lease, t.issued)
  {
  }

  lemma DropLeaseHasEffect(s: State, lease: Lease, t: State)
    requires LeasesOk(s.db.lease, s.issued) && WithDb(s, ReleaseLease(s.db, lease)) == Some(t)
    ensures ControlEffect(s, t) && LeasesOk(t.db.lease, t.issued)
  {
  }

  lemma ControlHasEffect(s: State, e: ControlEvent, t: State)
    requires LeasesOk(s.db.lease, s.issued) && NextControl(s, e) == Some(t)
    ensures ControlEffect(s, t) && LeasesOk(t.db.lease, t.issued)
  {
    match e
    case Tick(_) =>
    case TakeLease(holder, ttl) => TakeLeaseHasEffect(s, holder, ttl, t);
    case DropLease(lease) => DropLeaseHasEffect(s, lease, t);
    case CreateOperation(op, node, row) => CreateHasEffect(s, op, node, row, t);
    case ChangeStatus(op, node, status, code) => ChangeHasEffect(s, op, node, status, code, t);
  }

  lemma ControlKeepsInv(s: State, t: State)
    requires Inv(s) && ControlEffect(s, t) && LeasesOk(t.db.lease, t.issued)
    ensures Inv(t)
  {
  }

  // ----- manager events -----

  ghost predicate ManagerEffect(s: State, t: State) {
    && t == s.(db := s.db.(acks := t.db.acks), agents := t.agents, flights := t.flights, puts := t.puts,
         served := t.served)
    && t.agents.Keys == s.agents.Keys
    && s.served <= t.served
    && |t.flights| == |s.flights|
    && forall i :: 0 <= i < |s.flights| ==>
         t.flights[i] == s.flights[i] ||
           (s.flights[i].place == InHandler && t.flights[i] == s.flights[i].(place := Lost))
  }

  lemma ManagerHasEffect(s: State, e: ManagerEvent, t: State)
    requires NextManager(s, e) == Some(t)
    ensures ManagerEffect(s, t)
  {
    match e
    case SendPut =>
    case HandlePut(_, _, _) =>
    case ReadBarrier(_) =>
    case RestartAgent(_, _) =>
    case WriteAck(_, _) =>
  }

  lemma PutKeepsAgents(s: State, a: AgentId, b: Barrier, persisted: bool, t: State)
    requires BarrierInv(s) && NextHandlePut(s, a, b, persisted) == Some(t)
    ensures AgentsOk(t.agents, Generation(t.db)) && ServedOk(t.served, t.agents, Generation(t.db))
    ensures HandlersOk(t.flights, t.agents)
  {
    assert AgentOk(s.agents[a], Generation(s.db)) && Sendable(b, Generation(s.db));
  }

  lemma RestartKeepsAgents(s: State, a: AgentId, loaded: Option<Barrier>, t: State)
    requires BarrierInv(s) && NextRestart(s, a, loaded) == Some(t)
    ensures AgentsOk(t.agents, Generation(t.db)) && ServedOk(t.served, t.agents, Generation(t.db))
    ensures HandlersOk(t.flights, t.agents)
  {
    assert AgentOk(s.agents[a], Generation(s.db));
  }

  lemma ReadKeepsServed(s: State, a: AgentId)
    requires BarrierInv(s) && a in s.agents && !s.agents[a].invalid
    ensures ServedOk(s.served + {(a, s.agents[a].barrier)}, s.agents, Generation(s.db))
  {
    assert AgentOk(s.agents[a], Generation(s.db));
  }

  lemma ManagerKeepsBarrier(s: State, e: ManagerEvent, t: State)
    requires BarrierInv(s) && NextManager(s, e) == Some(t)
    ensures BarrierInv(t)
  {
    ManagerHasEffect(s, e, t);
    match e
    case SendPut => SendKeepsPuts(s, t);
    case HandlePut(a, b, persisted) => PutKeepsAgents(s, a, b, persisted, t);
    case ReadBarrier(a) => ReadKeepsServed(s, a);
    case RestartAgent(a, loaded) => RestartKeepsAgents(s, a, loaded, t);
    case WriteAck(a, g) => AckKeepsAcks(s, a, g, t);
  }

  lemma SendKeepsPuts(s: State, t: State)
    requires RowOk(s.db.maintenance, s.db.audit) && PutsOk(s.puts, Generation(s.db)) && NextSendPut(s) == Some(t)
    ensures PutsOk(t.puts, Generation(s.db))
  {
  }

  lemma AckKeepsAcks(s: State, a: AgentId, g: nat, t: State)
    requires AcksOk(s.db.acks, s.served) && NextWriteAck(s, a, g) == Some(t)
    ensures AcksOk(t.db.acks, t.served)
  {
  }

  lemma ManagerKeepsJournal(s: State, t: State)
    requires JournalInv(s) && ManagerEffect(s, t)
    ensures JournalInv(t)
  {
  }

  lemma ManagerKeepsRecovery(s: State, t: State)
    requires RecoveryInv(s) && ManagerEffect(s, t)
    ensures RecoveryInv(t)
  {
  }

  // ----- mutation callbacks -----

  predicate Settled(phase: Phase) {
    phase == Acknowledged || phase == Rejected || phase == Uncertain
  }

  /** Journal rows are never deleted or moved to another generation or Agent, and settled phases are final. */
  ghost predicate JournalGrows(before: map<OperationId, Dispatch>, after: map<OperationId, Dispatch>) {
    forall o :: o in before ==>
      && o in after && after[o].generation == before[o].generation && after[o].agent == before[o].agent
      && (Settled(before[o].phase) ==> after[o].phase == before[o].phase)
  }

  /** What a callback leaves alone, and how it may extend the journal and the network. */
  ghost predicate WorkEffect(s: State, t: State) {
    && t == s.(db := s.db.(admissions := t.db.admissions, dispatches := t.db.dispatches), callbacks := t.callbacks,
         flights := t.flights)
    && JournalGrows(s.db.dispatches, t.db.dispatches)
    && (t.flights == s.flights ||
          (exists f: Flight :: t.flights == s.flights + [f] && f.place == InTransit && f.updates == 0 &&
                                     (Targets(f, s.db.operations) || Targets(f, s.db.nodeOperations))))
  }

  lemma SendHasEffect(s: State, c: CallbackId, t: State)
    requires NextSend(s, c) == Some(t)
    ensures WorkEffect(s, t)
  {
    assert t.flights == s.flights + [t.flights[|s.flights|]];
  }

  lemma PrepareHasEffect(s: State, c: CallbackId, acknowledged: bool, t: State)
    requires NextPrepare(s, c, acknowledged) == Some(t)
    ensures WorkEffect(s, t)
  {
  }

  lemma PromoteHasEffect(s: State, c: CallbackId, acknowledged: bool, t: State)
    requires NextPromote(s, c, acknowledged) == Some(t)
    ensures WorkEffect(s, t)
  {
  }

  lemma AbandonHasEffect(s: State, c: CallbackId, committed: bool, t: State)
    requires NextAbandon(s, c, committed) == Some(t)
    ensures WorkEffect(s, t)
  {
  }

  lemma RecordHasEffect(s: State, c: CallbackId, committed: bool, t: State)
    requires NextRecord(s, c, committed) == Some(t)
    ensures WorkEffect(s, t)
  {
  }

  lemma WorkHasEffect(s: State, c: CallbackId, e: WorkStep, t: State)
    requires NextWork(s, c, e) == Some(t)
    ensures WorkEffect(s, t)
  {
    match e
    case Admit(_) =>
    case EndCallback(_) =>
    case CrashCallback =>
    case ReadMaintenance(_, _) =>
    case ProbeAgent(_) =>
    case GiveUpUnprepared =>
    case PrepareRow(acknowledged) => PrepareHasEffect(s, c, acknowledged, t);
    case PromoteRow(acknowledged) => PromoteHasEffect(s, c, acknowledged, t);
    case PromoteFailed =>
    case AbandonRow(committed) => AbandonHasEffect(s, c, committed, t);
    case Send => SendHasEffect(s, c, t);
    case Receive =>
    case TimeOut =>
    case RecordOutcome(committed) => RecordHasEffect(s, c, committed, t);
  }

  /** Only the callback's own operation may change in the journal or be sent, and nobody else owns it. */
  ghost predicate OwnWork(s: State, c: CallbackId, op: OperationId, stage: Stage, t: State) {
    && c in s.callbacks
    && t == s.(db := s.db.(dispatches := t.db.dispatches), flights := t.flights,
               callbacks := s.callbacks[c := s.callbacks[c].(stage := stage)])
    && (Owns(stage) ==> stage.op == op)
    && (Owns(stage) || t.db.dispatches != s.db.dispatches || t.flights != s.flights ==>
          op !in s.db.dispatches || (Owns(s.callbacks[c].stage) && s.callbacks[c].stage.op == op))
    && (forall o :: o in s.db.dispatches ==> o in t.db.dispatches)
    && (forall o :: o in t.db.dispatches && o != op ==>
          o in s.db.dispatches && t.db.dispatches[o] == s.db.dispatches[o])
    && (t.flights == s.flights ||
          (exists f: Flight :: f.op == op && f.place == InTransit && f.updates == 0 && t.flights == s.flights + [f]))
  }

  lemma OwnWorkKeepsOthers(s: State, c: CallbackId, op: OperationId, stage: Stage, t: State)
    requires JournalInv(s) && OwnWork(s, c, op, stage, t)
    requires StageOk(stage, t.db) && AnswerOk(stage, t.flights)
    ensures CallbacksOk(t.callbacks, t.db.admissions) && StagesOk(t.callbacks, t.db)
    ensures AnswersOk(t.callbacks, t.flights) && OwnersOk(t.callbacks)
  {
    forall d | d in t.callbacks && d != c
      ensures StageOk(t.callbacks[d].stage, t.db) && AnswerOk(t.callbacks[d].stage, t.flights)
      ensures Owns(t.callbacks[d].stage) && Owns(stage) ==> t.callbacks[d].stage.op != stage.op
    {
      assert StageOk(s.callbacks[d].stage, s.db) && AnswerOk(s.callbacks[d].stage, s.flights);
    }
  }

  /** Steps that only move the callback from one stage to the next. */
  lemma StageMoveKeepsJournal(s: State, c: CallbackId, stage: Stage)
    requires JournalInv(s) && c in s.callbacks && StageOk(stage, s.db) && AnswerOk(stage, s.flights)
    requires Owns(stage) ==> Owns(s.callbacks[c].stage) && s.callbacks[c].stage.op == stage.op
    ensures JournalInv(MoveCallback(s, c, stage))
  {
    OwnWorkKeepsOthers(s, c, if Owns(stage) then stage.op else 0, stage, MoveCallback(s, c, stage));
  }

  lemma AdmitKeepsJournal(s: State, c: CallbackId, id: AdmissionId, t: State)
    requires JournalInv(s) && NextAdmit(s, c, id) == Some(t)
    ensures JournalInv(t)
  {
    forall d | d in t.callbacks
      ensures StageOk(t.callbacks[d].stage, t.db) && AnswerOk(t.callbacks[d].stage, t.flights)
    {
      assert d != c ==> StageOk(s.callbacks[d].stage, s.db) && AnswerOk(s.callbacks[d].stage, s.flights);
    }
  }

  lemma LeaveKeepsJournal(s: State, c: CallbackId, deleted: bool, t: State)
    requires JournalInv(s) && c in s.callbacks
    requires t == s.(
               db := if deleted then DeleteAdmission(s.db, s.callbacks[c].admission) else s.db,
               callbacks := s.callbacks - {c})
    ensures JournalInv(t)
  {
    forall d | d in t.callbacks
      ensures StageOk(t.callbacks[d].stage, t.db) && AnswerOk(t.callbacks[d].stage, t.flights)
    {
      assert StageOk(s.callbacks[d].stage, s.db) && AnswerOk(s.callbacks[d].stage, s.flights);
    }
  }

  lemma PrepareKeepsJournal(s: State, c: CallbackId, acknowledged: bool, t: State)
    requires JournalInv(s) && NextPrepare(s, c, acknowledged) == Some(t)
    ensures JournalInv(t)
  {
    var p := s.callbacks[c].stage;
    var stage := t.callbacks[c].stage;
    assert StageOk(p, s.db);
    assert NoFlight(s.flights, p.op) by {
      assert forall i :: 0 <= i < |s.flights| ==> FlightOk(s.flights[i], s.db.dispatches);
    }
    assert OwnWork(s, c, p.op, stage, t);
    OwnWorkKeepsOthers(s, c, p.op, stage, t);
    JournalRowsKept(s, p.op, t);
  }

  /**
   The journal rows stay consistent with the requests when a row without any request changes to a
   phase other than ACKNOWLEDGED.
   */
  lemma JournalRowsKept(s: State, op: OperationId, t: State)
    requires JournalInv(s) && t.flights == s.flights && NoFlight(s.flights, op) && Generation(t.db) == Generation(s.db)
    requires forall o :: o in s.db.dispatches ==> o in t.db.dispatches
    requires forall o :: o in t.db.dispatches && o != op ==>
               o in s.db.dispatches && t.db.dispatches[o] == s.db.dispatches[o]
    requires op in t.db.dispatches ==> t.db.dispatches[op].phase != Acknowledged
    requires op in t.db.dispatches ==>
               t.db.dispatches[op].generation % 4 == 1 && t.db.dispatches[op].generation <= Generation(s.db)
    ensures DispatchesOk(t.db.dispatches, Generation(t.db)) && AcknowledgedOk(t.db.dispatches, t.flights)
    ensures FlightsOk(t.flights, t.db.dispatches) && SentOnce(t.flights)
  {
    forall i | 0 <= i < |t.flights| ensures FlightOk(t.flights[i], t.db.dispatches) {
      assert FlightOk(s.flights[i], s.db.dispatches);
    }
  }

  lemma PromoteKeepsJournal(s: State, c: CallbackId, acknowledged: bool, t: State)
    requires JournalInv(s) && NextPromote(s, c, acknowledged) == Some(t)
    ensures JournalInv(t)
  {
    var p := s.callbacks[c].stage;
    var stage := t.callbacks[c].stage;
    assert StageOk(p, s.db) && AnswerOk(p, s.flights);
    assert OwnWork(s, c, p.op, stage, t);
    OwnWorkKeepsOthers(s, c, p.op, stage, t);
    JournalRowsKept(s, p.op, t);
  }

  lemma AbandonKeepsJournal(s: State, c: CallbackId, committed: bool, t: State)
    requires JournalInv(s) && NextAbandon(s, c, committed) == Some(t)
    ensures JournalInv(t)
  {
    var p := s.callbacks[c].stage;
    assert StageOk(p, s.db) && AnswerOk(p, s.flights);
    if t.db.dispatches == s.db.dispatches {
      StageMoveKeepsJournal(s, c, Idle);
    } else {
      assert OwnWork(s, c, p.op, Idle, t);
      OwnWorkKeepsOthers(s, c, p.op, Idle, t);
      JournalRowsKept(s, p.op, t);
    }
  }

  lemma SendKeepsJournal(s: State, c: CallbackId, t: State)
    requires JournalInv(s) && NextSend(s, c) == Some(t)
    ensures JournalInv(t)
  {
    var p := s.callbacks[c].stage;
    var stage := t.callbacks[c].stage;
    var f := t.flights[|s.flights|];
    assert StageOk(p, s.db) && AnswerOk(p, s.flights);
    assert t.flights == s.flights + [f];
    assert OwnWork(s, c, p.op, stage, t);
    OwnWorkKeepsOthers(s, c, p.op, stage, t);
    forall o | o in t.db.dispatches && t.db.dispatches[o].phase == Acknowledged ensures !NoFlight(t.flights, o) {
      var i :| 0 <= i < |s.flights| && s.flights[i].op == o;
      assert t.flights[i].op == o;
    }
  }

  lemma RecordKeepsJournal(s: State, c: CallbackId, committed: bool, t: State)
    requires JournalInv(s) && NextRecord(s, c, committed) == Some(t)
    ensures JournalInv(t)
  {
    var p := s.callbacks[c].stage;
    assert StageOk(p, s.db) && AnswerOk(p, s.flights);
    if t.db.dispatches == s.db.dispatches {
      StageMoveKeepsJournal(s, c, Idle);
    } else {
      assert OwnWork(s, c, p.op, Idle, t);
      OwnWorkKeepsOthers(s, c, p.op, Idle, t);
      forall i | 0 <= i < |t.flights| ensures FlightOk(t.flights[i], t.db.dispatches) {
        assert FlightOk(s.flights[i], s.db.dispatches);
        assert i != p.flight ==> s.flights[i].op != p.op;
      }
    }
  }

  lemma ReceiveKeepsJournal(s: State, c: CallbackId, t: State)
    requires JournalInv(s) && NextReceive(s, c) == Some(t)
    ensures JournalInv(t)
  {
    var p := s.callbacks[c].stage;
    assert StageOk(p, s.db) && AnswerOk(p, s.flights) && FlightOk(s.flights[p.flight], s.db.dispatches);
    StageMoveKeepsJournal(s, c, t.callbacks[c].stage);
  }

  lemma TimeOutKeepsJournal(s: State, c: CallbackId, t: State)
    requires JournalInv(s) && NextTimeOut(s, c) == Some(t)
    ensures JournalInv(t)
  {
    assert StageOk(s.callbacks[c].stage, s.db) && AnswerOk(s.callbacks[c].stage, s.flights);
    StageMoveKeepsJournal(s, c, t.callbacks[c].stage);
  }

  lemma ProbeKeepsJournal(s: State, c: CallbackId, a: AgentId, t: State)
    requires JournalInv(s) && NextProbe(s, c, a) == Some(t)
    ensures JournalInv(t)
  {
    assert StageOk(s.callbacks[c].stage, s.db) && AnswerOk(s.callbacks[c].stage, s.flights);
    StageMoveKeepsJournal(s, c, t.callbacks[c].stage);
  }

  lemma WorkKeepsJournal(s: State, c: CallbackId, e: WorkStep, t: State)
    requires BarrierInv(s) && JournalInv(s) && NextWork(s, c, e) == Some(t)
    ensures JournalInv(t)
  {
    assert c in s.callbacks ==> StageOk(s.callbacks[c].stage, s.db) && AnswerOk(s.callbacks[c].stage, s.flights);
    match e
    case Admit(id) => AdmitKeepsJournal(s, c, id, t);
    case EndCallback(deleted) => LeaveKeepsJournal(s, c, deleted, t);
    case CrashCallback => LeaveKeepsJournal(s, c, false, t);
    case ReadMaintenance(op, node) => StageMoveKeepsJournal(s, c, Admitted(op, node, Generation(s.db)));
    case ProbeAgent(a) => ProbeKeepsJournal(s, c, a, t);
    case GiveUpUnprepared => StageMoveKeepsJournal(s, c, Idle);
    case PrepareRow(acknowledged) => PrepareKeepsJournal(s, c, acknowledged, t);
    case PromoteRow(acknowledged) => PromoteKeepsJournal(s, c, acknowledged, t);
    case PromoteFailed => StageMoveKeepsJournal(s, c, Abandoning(s.callbacks[c].stage.op));
    case AbandonRow(committed) => AbandonKeepsJournal(s, c, committed, t);
    case Send => SendKeepsJournal(s, c, t);
    case Receive => ReceiveKeepsJournal(s, c, t);
    case TimeOut => TimeOutKeepsJournal(s, c, t);
    case RecordOutcome(committed) => RecordKeepsJournal(s, c, committed, t);
  }

  lemma WorkKeepsBarrier(s: State, t: State)
    requires BarrierInv(s) && WorkEffect(s, t)
    ensures BarrierInv(t)
  {
  }

  lemma WorkKeepsRecovery(s: State, t: State)
    requires RecoveryInv(s) && WorkEffect(s, t)
    ensures RecoveryInv(t)
  {
    assert ResolutionsOk(t.db.resolvedDispatches, t.db.dispatches, t.agents.Keys, t.served, t.flights);
  }

  // ----- requests, Agents and Docker -----

  /** What may become of a request: its identity is fixed and an answered or lost one stays as it is. */
  ghost predicate Advances(f: Flight, g: Flight) {
    && g == f.(place := g.place, updates := g.updates)
    && (f.place.Replied? || f.place.Lost? ==> g == f)
    && (f.updates <= g.updates)
    && (f.place == InHandler || g.updates == f.updates)
    && (g.place == InTransit ==> f.place == InTransit)
  }

  ghost predicate WireEffect(s: State, t: State) {
    && t == s.(flights := t.flights, docker := t.docker)
    && |t.flights| == |s.flights|
    && (forall i :: 0 <= i < |s.flights| ==> Advances(s.flights[i], t.flights[i]))
  }

  lemma WireHasEffect(s: State, e: WireEvent, t: State)
    requires NextWire(s, e) == Some(t)
    ensures WireEffect(s, t)
  {
    match e
    case LoseRequest(_) =>
    case Deliver(_, _) =>
    case UpdateDocker(_, _, _) =>
    case FinishHandler(_, _) =>
    case OutsideWrite(_, _, _) =>
  }

  lemma WireKeepsBarrier(s: State, e: WireEvent, t: State)
    requires BarrierInv(s) && NextWire(s, e) == Some(t)
    ensures BarrierInv(t)
  {
    match e
    case LoseRequest(_) =>
    case Deliver(_, _) =>
    case UpdateDocker(_, _, _) =>
    case FinishHandler(_, _) =>
    case OutsideWrite(_, _, _) =>
  }

  lemma WireKeepsFlights(s: State, e: WireEvent, t: State)
    requires FlightsOk(s.flights, s.db.dispatches) && NextWire(s, e) == Some(t)
    ensures FlightsOk(t.flights, t.db.dispatches)
  {
    match e
    case LoseRequest(_) =>
    case Deliver(_, _) =>
    case UpdateDocker(_, _, _) =>
    case FinishHandler(_, path) =>
    case OutsideWrite(_, _, _) =>
  }

  lemma WireKeepsJournal(s: State, t: State)
    requires JournalInv(s) && WireEffect(s, t) && FlightsOk(t.flights, t.db.dispatches)
    ensures JournalInv(t)
  {
    forall c | c in t.callbacks ensures AnswerOk(t.callbacks[c].stage, t.flights) {
      assert AnswerOk(s.callbacks[c].stage, s.flights);
    }
    forall o | o in t.db.dispatches && t.db.dispatches[o].phase == Acknowledged ensures !NoFlight(t.flights, o) {
      var i :| 0 <= i < |s.flights| && s.flights[i].op == o;
      assert t.flights[i].op == o;
    }
  }

  lemma WireKeepsDocker(s: State, e: WireEvent, t: State)
    requires DockerOk(s.flights, s.docker) && NextWire(s, e) == Some(t)
    ensures DockerOk(t.flights, t.docker)
  {
    match e
    case LoseRequest(_) =>
    case Deliver(_, _) =>
    case UpdateDocker(_, _, _) =>
    case FinishHandler(_, path) =>
    case OutsideWrite(_, _, _) =>
  }

  /** No request can update Docker once every manager has answered BLOCKED at a later generation. */
  lemma BlockedManagersStopUpdates(s: State, i: nat, generation: nat)
    requires BarrierInv(s) && i < |s.flights| && AllBlocked(s.agents.Keys, s.served, generation)
    ensures s.flights[i].place == InHandler ==> s.flights[i].generation > generation
  {
    if s.flights[i].place == InHandler {
      var a := s.flights[i].agent;
      assert AgentOk(s.agents[a], Generation(s.db));
      assert (a, Barrier(generation, false)) in s.served;
      assert s.agents[a].barrier in s.agents[a].saved;
    }
  }

  /** While a handler runs, no observation made at the current generation exists. */
  lemma UpdateKeepsObservations(s: State, i: nat, v: nat, h: SpecHash, t: State)
    requires Inv(s) && NextUpdateDocker(s, i, v, h) == Some(t)
    ensures ObservationsOk(t.resolvers, Generation(t.db), t.flights)
  {
    assert AgentOk(s.agents[s.flights[i].agent], Generation(s.db));
    forall r | r in s.resolvers && s.resolvers[r].Observed? ensures s.resolvers[r].generation < Generation(s.db) {
      assert ResolverOk(s.resolvers[r], Generation(s.db), s.agents.Keys, s.served);
      BlockedManagersStopUpdates(s, i, s.resolvers[r].generation);
    }
  }

  lemma UpdateKeepsResolutions(s: State, i: nat, v: nat, h: SpecHash, t: State)
    requires Inv(s) && NextUpdateDocker(s, i, v, h) == Some(t)
    ensures ResolutionsOk(t.db.resolvedDispatches, t.db.dispatches, t.agents.Keys, t.served, t.flights)
  {
    forall op | op in t.db.resolvedDispatches && t.db.resolvedDispatches[op].notObserved
      ensures NeverUpdated(t.flights, op)
    {
      var g := s.db.resolvedDispatches[op].generation;
      assert NotObservedOk(op, g, s.db.dispatches, s.agents.Keys, s.served, s.flights);
      BlockedManagersStopUpdates(s, i, g);
      assert FlightOk(s.flights[i], s.db.dispatches);
    }
  }

  /** The requests are the same ones, updated as often as before. */
  ghost predicate SameUpdates(before: seq<Flight>, after: seq<Flight>) {
    |after| == |before| && forall i :: 0 <= i < |before| ==> after[i] == before[i].(place := after[i].place)
  }

  lemma OtherWireEventsUpdateNothing(s: State, e: WireEvent, t: State)
    requires NextWire(s, e) == Some(t) && !e.UpdateDocker?
    ensures SameUpdates(s.flights, t.flights)
  {
    match e
    case LoseRequest(_) =>
    case Deliver(_, _) =>
    case FinishHandler(_, _) =>
    case OutsideWrite(_, _, _) =>
  }

  lemma SameUpdatesKeepEvidence(s: State, t: State)
    requires ObservationsOk(s.resolvers, Generation(s.db), s.flights)
    requires ResolutionsOk(s.db.resolvedDispatches, s.db.dispatches, s.agents.Keys, s.served, s.flights)
    requires t == s.(flights := t.flights, docker := t.docker) && SameUpdates(s.flights, t.flights)
    ensures ObservationsOk(t.resolvers, Generation(t.db), t.flights)
    ensures ResolutionsOk(t.db.resolvedDispatches, t.db.dispatches, t.agents.Keys, t.served, t.flights)
  {
    forall op | op in t.db.resolvedDispatches && t.db.resolvedDispatches[op].notObserved
      ensures NotObservedOk(op, t.db.resolvedDispatches[op].generation, t.db.dispatches, t.agents.Keys, t.served,
                t.flights)
    {
      assert NotObservedOk(op, s.db.resolvedDispatches[op].generation, s.db.dispatches, s.agents.Keys, s.served,
          s.flights);
    }
  }

  lemma WireKeepsRecovery(s: State, e: WireEvent, t: State)
    requires Inv(s) && NextWire(s, e) == Some(t)
    ensures RecoveryInv(t)
  {
    WireHasEffect(s, e, t);
    WireKeepsDocker(s, e, t);
    if e.UpdateDocker? {
      UpdateKeepsObservations(s, e.flight, e.version, e.hash, t);
      UpdateKeepsResolutions(s, e.flight, e.version, e.hash, t);
    } else {
      OtherWireEventsUpdateNothing(s, e, t);
      SameUpdatesKeepEvidence(s, t);
    }
  }

  // ----- manual recovery -----

  ghost predicate RecoveryEffect(s: State, t: State) {
    && t == s.(db := s.db.(operations := t.db.operations, nodeOperations := t.db.nodeOperations,
                           resolvedAdmissions := t.db.resolvedAdmissions,
                             resolvedDispatches := t.db.resolvedDispatches),
               resolvers := t.resolvers, served := t.served)
    && s.served <= t.served
    && s.db.resolvedAdmissions <= t.db.resolvedAdmissions
    && RowsKept(s.db.operations, t.db.operations)
    && RowsKept(s.db.nodeOperations, t.db.nodeOperations)
    && (forall o :: o in s.db.resolvedDispatches ==>
          o in t.db.resolvedDispatches && t.db.resolvedDispatches[o] == s.db.resolvedDispatches[o])
  }

  lemma NotObservedHasEffect(s: State, r: ResolverId, t: State)
    requires NextCommitNotObserved(s, r) == Some(t)
    ensures RecoveryEffect(s, t)
  {
    UpdateStatusKeepsRows(s.db.operations, s.resolvers[r].op, Failed, ManuallyNotObserved);
    UpdateStatusKeepsRows(s.db.nodeOperations, s.resolvers[r].op, Failed, ManuallyNotObserved);
  }

  lemma RecoveryHasEffect(s: State, r: ResolverId, e: RecoveryStep, t: State)
    requires NextRecovery(s, r, e) == Some(t)
    ensures RecoveryEffect(s, t)
  {
    match e
    case BeginResolve(_, _) =>
    case RereadBlocked(_) =>
    case FinishBlocking =>
    case Observe(_) =>
    case CommitNotObserved => NotObservedHasEffect(s, r, t);
    case CommitTerminal(_) =>
    case CommitAdmission(_) =>
    case DropResolver =>
  }

  lemma RecoveryKeepsBarrier(s: State, r: ResolverId, e: RecoveryStep, t: State)
    requires BarrierInv(s) && NextRecovery(s, r, e) == Some(t)
    ensures BarrierInv(t)
  {
    RecoveryHasEffect(s, r, e, t);
    if e.RereadBlocked? {
      ReadKeepsServed(s, e.agent);
    } else {
      RecoveryServesNothingElse(s, r, e, t);
    }
  }

  lemma RecoveryServesNothingElse(s: State, r: ResolverId, e: RecoveryStep, t: State)
    requires NextRecovery(s, r, e) == Some(t) && !e.RereadBlocked?
    ensures t.served == s.served
  {
    match e
    case BeginResolve(_, _) =>
    case FinishBlocking =>
    case Observe(_) =>
    case CommitNotObserved =>
    case CommitTerminal(_) =>
    case CommitAdmission(_) =>
    case DropResolver =>
  }

  lemma RecoveryKeepsJournal(s: State, t: State)
    requires JournalInv(s) && RecoveryEffect(s, t)
    ensures JournalInv(t)
  {
    forall c | c in t.callbacks ensures StageOk(t.callbacks[c].stage, t.db) {
      assert StageOk(s.callbacks[c].stage, s.db);
    }
  }

  lemma RecoveryKeepsTargets(s: State, t: State)
    requires RecoveryInv(s) && RecoveryEffect(s, t)
    ensures TargetsOk(t.flights, t.db.operations, t.db.nodeOperations) && DockerOk(t.flights, t.docker)
  {
  }

  /** At the observation, every update of the operation is already visible in the observed version. */
  lemma ObserveKeepsObservations(s: State, r: ResolverId, op: OperationId, t: State)
    requires RecoveryInv(s) && NextObserve(s, r, op) == Some(t)
    ensures ResolversOk(t.resolvers, Generation(t.db), t.agents.Keys, t.served)
    ensures ObservationsOk(t.resolvers, Generation(t.db), t.flights)
  {
    assert ResolverOk(s.resolvers[r], Generation(s.db), s.agents.Keys, s.served);
    var row := Lookup(s.db, op).value;
    forall i | 0 <= i < |s.flights| && s.flights[i].op == op && s.flights[i].updates > 0
      ensures s.flights[i].expectedVersion < s.docker[row.resource].version
    {
      assert Targets(s.flights[i], s.db.operations) || Targets(s.flights[i], s.db.nodeOperations);
    }
  }

  /** The commit of "not observed": the unchanged version means that no request of the operation ever updated Docker. */
  lemma NotObservedIsTrue(s: State, r: ResolverId, t: State)
    requires Inv(s) && NextCommitNotObserved(s, r) == Some(t)
    ensures NotObservedOk(s.resolvers[r].op, s.resolvers[r].generation, t.db.dispatches, t.agents.Keys, t.served,
              t.flights)
  {
    var p := s.resolvers[r];
    assert ResolverOk(p, Generation(s.db), s.agents.Keys, s.served);
    assert UpdatesBefore(s.flights, p.op, p.version);
    forall i | 0 <= i < |s.flights| && s.flights[i].op == p.op ensures s.flights[i].updates == 0 {
      assert Targets(s.flights[i], s.db.operations) || Targets(s.flights[i], s.db.nodeOperations);
    }
    assert DispatchesOk(s.db.dispatches, Generation(s.db));
    assert StateAt(p.generation) != Open;
  }

  lemma NotObservedKeepsRecovery(s: State, r: ResolverId, t: State)
    requires Inv(s) && NextCommitNotObserved(s, r) == Some(t)
    ensures RecoveryInv(t)
  {
    NotObservedHasEffect(s, r, t);
    RecoveryKeepsTargets(s, t);
    NotObservedIsTrue(s, r, t);
  }

  lemma FinishBlockingKeepsResolvers(s: State, r: ResolverId, t: State)
    requires RecoveryInv(s) && NextFinishBlocking(s, r) == Some(t)
    ensures RecoveryInv(t)
  {
    assert ResolverOk(s.resolvers[r], Generation(s.db), s.agents.Keys, s.served);
  }

  lemma RereadKeepsResolvers(s: State, r: ResolverId, a: AgentId, t: State)
    requires RecoveryInv(s) && NextReread(s, r, a) == Some(t)
    ensures RecoveryInv(t)
  {
    assert ResolverOk(s.resolvers[r], Generation(s.db), s.agents.Keys, s.served);
  }

  lemma RecoveryKeepsRecovery(s: State, r: ResolverId, e: RecoveryStep, t: State)
    requires Inv(s) && NextRecovery(s, r, e) == Some(t)
    ensures RecoveryInv(t)
  {
    match e
    case BeginResolve(_, _) =>
    case RereadBlocked(a) => RereadKeepsResolvers(s, r, a, t);
    case FinishBlocking => FinishBlockingKeepsResolvers(s, r, t);
    case Observe(op) => ObserveKeepsObservations(s, r, op, t);
    case CommitNotObserved => NotObservedKeepsRecovery(s, r, t);
    case CommitTerminal(_) =>
    case CommitAdmission(_) =>
    case DropResolver =>
  }

  // ----- every event -----

  lemma NextKeepsInv(s: State, e: Event, t: State)
    requires Inv(s) && Next(s, e) == Some(t)
    ensures Inv(t)
  {
    match e
    case Maintain(transition) =>
      MaintainShape(s.db, s.agents.Keys, transition, t.db);
      if t.db != s.db {
        assert MaintainEffect(s, t);
        MaintainKeepsBarrier(s, t);
        MaintainKeepsJournal(s, t);
        MaintainKeepsRecovery(s, t);
      }
    case Control(control) =>
      ControlHasEffect(s, control, t);
      ControlKeepsInv(s, t);
    case Manager(manager) =>
      ManagerHasEffect(s, manager, t);
      ManagerKeepsBarrier(s, manager, t);
      ManagerKeepsJournal(s, t);
      ManagerKeepsRecovery(s, t);
    case Work(c, work) =>
      WorkHasEffect(s, c, work, t);
      WorkKeepsBarrier(s, t);
      WorkKeepsJournal(s, c, work, t);
      WorkKeepsRecovery(s, t);
    case Wire(wire) =>
      WireHasEffect(s, wire, t);
      WireKeepsBarrier(s, wire, t);
      WireKeepsFlights(s, wire, t);
      WireKeepsJournal(s, t);
      WireKeepsRecovery(s, wire, t);
    case Recovery(r, recovery) =>
      RecoveryHasEffect(s, r, recovery, t);
      RecoveryKeepsBarrier(s, r, recovery, t);
      RecoveryKeepsJournal(s, t);
      RecoveryKeepsRecovery(s, r, recovery, t);
  }
}
