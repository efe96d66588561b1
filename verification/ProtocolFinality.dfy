/**
 What a sender may conclude for good: an answered request stays as it was
 answered, and an operation whose journal row was abandoned is never sent.
 */
module ProtocolFinality {
  import opened Basics
  import opened AgentContract
  import opened MaintenanceDb
  import opened Protocol
  import opened ProtocolInvariants
  import opened ProtocolSteps
  import opened ProtocolRuns

  // ----- what each kind of event leaves alone -----

  lemma ControlKeepsOwn(s: State, e: ControlEvent, t: State)
    requires NextControl(s, e) == Some(t)
    ensures t.callbacks == s.callbacks && t.resolvers == s.resolvers && t.puts == s.puts
    ensures t.flights == s.flights && t.db.dispatches == s.db.dispatches
  {
    match e
    case Tick(_) =>
    case TakeLease(_, _) =>
    case DropLease(_) =>
    case CreateOperation(_, _, _) =>
    case ChangeStatus(_, _, _, _) =>
  }

  lemma ManagerKeepsOwn(s: State, e: ManagerEvent, t: State)
    requires NextManager(s, e) == Some(t)
    ensures t.callbacks == s.callbacks && t.resolvers == s.resolvers && s.puts <= t.puts
  {
    match e
    case SendPut =>
    case HandlePut(_, _, _) =>
    case ReadBarrier(_) =>
    case RestartAgent(_, _) =>
    case WriteAck(_, _) =>
  }

  lemma WorkKeepsOwn(s: State, d: CallbackId, e: WorkStep, t: State, c: CallbackId)
    requires NextWork(s, d, e) == Some(t) && c != d
    ensures c in t.callbacks <==> c in s.callbacks
    ensures c in s.callbacks ==> t.callbacks[c] == s.callbacks[c]
    ensures t.resolvers == s.resolvers && t.puts == s.puts
  {
    match e
    case Admit(_) =>
    case EndCallback(_) =>
    case CrashCallback =>
    case ReadMaintenance(_, _) =>
    case ProbeAgent(_) =>
    case GiveUpUnprepared =>
    case PrepareRow(_) =>
    case PromoteRow(_) =>
    case PromoteFailed =>
    case AbandonRow(_) =>
    case Send =>
    case Receive =>
    case TimeOut =>
    case RecordOutcome(_) =>
  }

  lemma WireKeepsOwn(s: State, e: WireEvent, t: State)
    requires NextWire(s, e) == Some(t)
    ensures t.callbacks == s.callbacks && t.resolvers == s.resolvers && t.puts == s.puts
  {
    match e
    case LoseRequest(_) =>
    case Deliver(_, _) =>
    case UpdateDocker(_, _, _) =>
    case FinishHandler(_, _) =>
    case OutsideWrite(_, _, _) =>
  }

  lemma RecoveryKeepsOwn(s: State, q: ResolverId, e: RecoveryStep, t: State, r: ResolverId)
    requires NextRecovery(s, q, e) == Some(t) && q != r
    ensures t.callbacks == s.callbacks && t.puts == s.puts
    ensures r in t.resolvers <==> r in s.resolvers
    ensures r in s.resolvers ==> t.resolvers[r] == s.resolvers[r]
  {
    match e
    case BeginResolve(_, _) =>
    case RereadBlocked(_) =>
    case FinishBlocking =>
    case Observe(_) =>
    case CommitNotObserved =>
    case CommitTerminal(_) =>
    case CommitAdmission(_) =>
    case DropResolver =>
  }

  // ----- answers -----

  lemma AnsweredStaysOneStep(s: State, e: Event, t: State, i: nat)
    requires Next(s, e) == Some(t) && i < |s.flights| && s.flights[i].place.Replied?
    ensures i < |t.flights| && t.flights[i] == s.flights[i]
  {
    match e
    case Maintain(_) =>
    case Control(control) => ControlKeepsOwn(s, control, t);
    case Manager(manager) => ManagerHasEffect(s, manager, t);
    case Work(c, work) => WorkHasEffect(s, c, work, t);
    case Wire(wire) => WireHasEffect(s, wire, t);
    case Recovery(r, recovery) => RecoveryHasEffect(s, r, recovery, t);
  }

  lemma AnsweredStays(s: State, run: seq<Event>, t: State, i: nat)
    requires Run(s, run) == Some(t) && i < |s.flights| && s.flights[i].place.Replied?
    ensures i < |t.flights| && t.flights[i] == s.flights[i]
    decreases |run|
  {
    if run == [] {
    } else {
      var u := Next(s, run[0]).value;
      AnsweredStaysOneStep(s, run[0], u, i);
      AnsweredStays(u, run[1..], t, i);
    }
  }

  /**
   A deterministic rejection is final whether or not the journal recorded it: once the Agent has
   answered an operation's request with one, no request of that operation ever updates Docker.
   */
  lemma RejectionIsFinal(start: State, run: seq<Event>, s: State, i: nat, rest: seq<Event>, t: State)
    requires Reaches(start, run, s) && i < |s.flights| && s.flights[i].place.Replied?
    requires IsDeterministicRejection(AgentError(s.flights[i].place.response))
    requires Run(s, rest) == Some(t)
    ensures NeverUpdated(s.flights, s.flights[i].op) && NeverUpdated(t.flights, s.flights[i].op)
  {
    ReachableInv(start, run, s);
    RunKeepsInv(s, rest, t);
    AnsweredStays(s, rest, t, i);
    assert FlightOk(s.flights[i], s.db.dispatches) && FlightOk(t.flights[i], t.db.dispatches);
  }

  /** The operation is journalled, was never sent, and no callback is about to send it. */
  ghost predicate Orphaned(s: State, op: OperationId) {
    && op in s.db.dispatches
    && NoFlight(s.flights, op)
    && (forall c :: c in s.callbacks && Owns(s.callbacks[c].stage) ==> s.callbacks[c].stage.op != op)
  }

  lemma WorkKeepsOrphans(s: State, c: CallbackId, e: WorkStep, t: State, op: OperationId)
    requires NextWork(s, c, e) == Some(t) && Orphaned(s, op)
    ensures Orphaned(t, op)
  {
    WorkHasEffect(s, c, e, t);
    match e
    case Admit(_) =>
    case EndCallback(_) =>
    case CrashCallback =>
    case ReadMaintenance(_, _) =>
    case ProbeAgent(_) =>
    case GiveUpUnprepared =>
    case PrepareRow(_) =>
    case PromoteRow(_) =>
    case PromoteFailed =>
    case AbandonRow(_) =>
    case Send =>
    case Receive =>
    case TimeOut =>
    case RecordOutcome(_) =>
  }

  lemma SameWorkKeepsOrphans(s: State, t: State, op: OperationId)
    requires Orphaned(s, op) && t.callbacks == s.callbacks && t.db.dispatches == s.db.dispatches
    requires |t.flights| == |s.flights| && forall i :: 0 <= i < |s.flights| ==> t.flights[i].op == s.flights[i].op
    ensures Orphaned(t, op)
  {
  }

  lemma NextKeepsOrphans(s: State, e: Event, t: State, op: OperationId)
    requires Next(s, e) == Some(t) && Orphaned(s, op)
    ensures Orphaned(t, op)
  {
    if e.Work? {
      WorkKeepsOrphans(s, e.callback, e.work, t, op);
    } else {
      OtherEventsKeepWork(s, e, t);
      SameWorkKeepsOrphans(s, t, op);
    }
  }

  lemma MaintainKeepsRest(db: Db, managers: set<AgentId>, e: Transition, after: Db)
    requires NextMaintain(db, managers, e) == Some(after)
    ensures after == db.(maintenance := after.maintenance, audit := after.audit)
  {
    match e
    case Initialize =>
    case CloseRequested(_) =>
    case Close(_, _) =>
    case Reconcile(_, _) =>
    case Reopen(_, _) =>
  }

  lemma OtherEventsKeepWork(s: State, e: Event, t: State)
    requires Next(s, e) == Some(t) && !e.Work?
    ensures t.callbacks == s.callbacks && t.db.dispatches == s.db.dispatches
    ensures |t.flights| == |s.flights| && forall i :: 0 <= i < |s.flights| ==> t.flights[i].op == s.flights[i].op
  {
    match e
    case Maintain(transition) => MaintainKeepsRest(s.db, s.agents.Keys, transition, t.db);
    case Control(control) => ControlKeepsOwn(s, control, t);
    case Manager(manager) => ManagerHasEffect(s, manager, t);
    case Wire(wire) => WireHasEffect(s, wire, t);
    case Recovery(r, recovery) => RecoveryHasEffect(s, r, recovery, t);
  }

  /**
   An abandoned journal row is never sent, now or later, even when it reads SENDING because its
   promotion's acknowledgement was lost.
   */
  lemma OrphansAreNeverSent(s: State, op: OperationId, run: seq<Event>, t: State)
    requires Orphaned(s, op) && Run(s, run) == Some(t)
    ensures Orphaned(t, op)
    decreases |run|
  {
    if run == [] {
    } else {
      var u := Next(s, run[0]).value;
      NextKeepsOrphans(s, run[0], u, op);
      OrphansAreNeverSent(u, op, run[1..], t);
    }
  }
}
