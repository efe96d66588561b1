/**
 What a Control Plane process can rely on while others act: what no other party
 changes, what its own statements and answers mean for the cluster, and what it
 meets when nothing is in its way.
 */
module OrchestrationFacts {
  import opened Basics
  import opened AgentContract
  import opened MaintenanceDb
  import opened Protocol
  import opened ProtocolInvariants
  import opened ProtocolRuns
  import opened ProtocolTheorems
  import opened ProtocolFinality
  import Repositories

  /** The party whose program runs: a mutation callback or a recovery controller. */
  datatype Party = Sender(c: CallbackId) | Controller(r: ResolverId)

  // ----- what other parties cannot change -----

  predicate Foreign(e: Event, who: Party) {
    match who
    case Sender(c) => !(e.Work? && e.callback == c)
    case Controller(r) => !(e.Recovery? && e.resolver == r)
  }

  ghost predicate SameCallback(s: State, t: State, c: CallbackId) {
    (c in t.callbacks <==> c in s.callbacks) && (c in s.callbacks ==> t.callbacks[c] == s.callbacks[c])
  }

  ghost predicate SameResolver(s: State, t: State, r: ResolverId) {
    (r in t.resolvers <==> r in s.resolvers) && (r in s.resolvers ==> t.resolvers[r] == s.resolvers[r])
  }

  ghost predicate Same(s: State, t: State, who: Party) {
    match who
    case Sender(c) => SameCallback(s, t, c)
    case Controller(r) => SameResolver(s, t, r)
  }

  lemma ForeignKeepsOwn(s: State, e: Event, t: State, who: Party)
    requires Next(s, e) == Some(t) && Foreign(e, who)
    ensures Same(s, t, who) && s.puts <= t.puts
  {
    match e
    case Maintain(transition) =>
    case Control(control) => ControlKeepsOwn(s, control, t);
    case Manager(manager) => ManagerKeepsOwn(s, manager, t);
    case Work(d, work) => WorkKeepsOwn(s, d, work, t, if who.Sender? then who.c else d + 1);
    case Wire(wire) => WireKeepsOwn(s, wire, t);
    case Recovery(q, recovery) => RecoveryKeepsOwn(s, q, recovery, t, if who.Controller? then who.r else q + 1);
  }

  /** Time has passed: the managers are the same, no answer or request was forgotten, and `who` is where it was. */
  ghost predicate Meanwhile(s: State, t: State, who: Party) {
    && t.agents.Keys == s.agents.Keys && s.served <= t.served && s.puts <= t.puts
    && Generation(s.db) <= Generation(t.db) && Same(s, t, who)
  }

  lemma ForeignIsMeanwhile(start: State, run: seq<Event>, s: State, e: Event, t: State, who: Party)
    requires Reaches(start, run, s) && Next(s, e) == Some(t) && Foreign(e, who)
    ensures Meanwhile(s, t, who)
  {
    ReachableInv(start, run, s);
    NextIsLater(s, e, t);
    ForeignKeepsOwn(s, e, t, who);
  }

  lemma Extended(start: State, run: seq<Event>, s: State, e: Event, t: State)
    requires Reaches(start, run, s) && Next(s, e) == Some(t)
    ensures Reaches(start, run + [e], t)
  {
    RunSplits(start, run, [e]);
    assert [e][1..] == [] && Run(t, []) == Some(t);
    assert Run(s, [e]) == Run(t, []);
  }

  /** The steps callback `c` has taken in a run, in order. */
  ghost function Steps(run: seq<Event>, c: CallbackId): seq<WorkStep>
    decreases |run|
  {
    if run == [] then []
    else
      var last := run[|run| - 1];
      Steps(run[..|run| - 1], c) + if last.Work? && last.callback == c then [last.work] else []
  }

  lemma StepsSnoc(run: seq<Event>, e: Event, c: CallbackId)
    ensures Steps(run + [e], c) == Steps(run, c) + if e.Work? && e.callback == c then [e.work] else []
  {
    assert (run + [e])[..|run|] == run;
  }

  /** The run has grown, and in the new part callback `c` has taken exactly the steps in `trace`. */
  ghost predicate Traced(past: seq<Event>, run: seq<Event>, c: CallbackId, trace: seq<WorkStep>) {
    past <= run && Steps(run, c) == Steps(past, c) + trace
  }

  datatype SendResult =
    | Accepted                     // the Agent answered 200 and the journal says so
    | Refused(response: Response)  // the Agent answered with a deterministic rejection
    | Ambiguous                    // anything may have happened
    | NotSent                      // a deterministic rejection raised before transport
    | AlreadyDispatched            // another attempt owns the journal row

  /** How a database statement looked to its caller. */
  datatype Statement = Done | Duplicate | Faulted

  /** The request's one flight, and what the result says about it. */
  ghost predicate TellsTruth(s: State, op: OperationId, result: SendResult) {
    match result
    case Accepted =>
      op in s.db.dispatches && s.db.dispatches[op].phase == Acknowledged &&
      exists i :: 0 <= i < |s.flights| && AnsweredAs(s.flights[i], op, 1, 200)
    case Refused(response) =>
      IsDeterministicRejection(AgentError(response)) &&
      exists i :: 0 <= i < |s.flights| && AnsweredAs(s.flights[i], op, 0, response.status) &&
                  s.flights[i].place.response == response
    case Ambiguous => op in s.db.dispatches && !NoFlight(s.flights, op)
    case NotSent => true
    case AlreadyDispatched => op in s.db.dispatches
  }

  predicate AnsweredAs(f: Flight, op: OperationId, updates: nat, status: nat) {
    f.op == op && f.place.Replied? && f.place.response.status == status && f.updates == updates
  }

  /** What a result says of the request stays true in every continuation. */
  lemma TruthStays(start: State, past: seq<Event>, s: State, run: seq<Event>, t: State, op: OperationId,
      result: SendResult)
    requires Reaches(start, past, s) && Reaches(start, run, t) && past <= run && TellsTruth(s, op, result)
    ensures TellsTruth(t, op, result)
  {
    ReachableInv(start, past, s);
    RunSplits(start, past, run[|past|..]);
    assert run == past + run[|past|..];
    RunIsLater(s, run[|past|..], t);
    if result.Accepted? {
      var i: nat :| i < |s.flights| && AnsweredAs(s.flights[i], op, 1, 200);
      AnsweredStays(s, run[|past|..], t, i);
    } else if result.Refused? {
      var i: nat :| i < |s.flights| && AnsweredAs(s.flights[i], op, 0, result.response.status) &&
          s.flights[i].place.response == result.response;
      AnsweredStays(s, run[|past|..], t, i);
    } else if result.Ambiguous? {
      var i :| 0 <= i < |s.flights| && s.flights[i].op == op;
      assert t.flights[i].op == op;
    }
  }

  lemma PreparedFacts(start: State, run: seq<Event>, s: State, c: CallbackId, op: OperationId, node: bool,
      generation: nat, agent: AgentId, acknowledged: bool, t: State)
    requires Reaches(start, run, s) && c in s.callbacks && s.callbacks[c].stage == Probed(op, node, generation, agent)
    requires NextWork(s, c, PrepareRow(acknowledged)) == Some(t)
    ensures c in t.callbacks && t.callbacks[c].stage == if acknowledged then RowPrepared(op, node, generation, agent)
              else Idle
    ensures !acknowledged ==> Orphaned(t, op)
  {
    ReachableInv(start, run, s);
    assert op !in s.db.dispatches;
    assert forall i :: 0 <= i < |s.flights| ==> FlightOk(s.flights[i], s.db.dispatches);
    assert forall d :: d in s.callbacks ==> StageOk(s.callbacks[d].stage, s.db);
  }

  lemma SendPossible(start: State, run: seq<Event>, s: State, c: CallbackId)
    requires Reaches(start, run, s) && c in s.callbacks && s.callbacks[c].stage.RowSending?
    ensures NextSend(s, c).Some?
  {
    ReachableInv(start, run, s);
    assert StageOk(s.callbacks[c].stage, s.db);
  }

  /** A promotion matches nothing only because the maintenance generation has moved on. */
  lemma MovedOn(start: State, run: seq<Event>, s: State, c: CallbackId)
    requires Reaches(start, run, s) && c in s.callbacks && s.callbacks[c].stage.RowPrepared?
    ensures NextPromote(s, c, true).None? ==> Generation(s.db) > s.callbacks[c].stage.generation
    ensures NextPromote(s, c, true).None? <==> NextPromote(s, c, false).None?
  {
    ReachableInv(start, run, s);
    assert StageOk(s.callbacks[c].stage, s.db);
  }

  lemma AbandonedFacts(start: State, run: seq<Event>, s: State, c: CallbackId, op: OperationId, committed: bool,
      t: State)
    requires Reaches(start, run, s) && c in s.callbacks && s.callbacks[c].stage == Abandoning(op)
    requires NextWork(s, c, AbandonRow(committed)) == Some(t)
    ensures c in t.callbacks && t.callbacks[c].stage == Idle && Orphaned(t, op)
    ensures committed ==> t.db.dispatches[op].phase != Prepared
  {
    ReachableInv(start, run, s);
    assert StageOk(s.callbacks[c].stage, s.db) && AnswerOk(s.callbacks[c].stage, s.flights);
  }

  /** Where each journalled result leaves the row. */
  function PhaseAfter(result: SendResult): Phase {
    match result
    case Accepted => Acknowledged
    case Refused(_) => Rejected
    case _ => Uncertain
  }

  /** The result of a request that was sent, from the answer and from whether the journal write was made. */
  ghost predicate Reports(db: Db, op: OperationId, error: Option<SendError>, written: bool, result: SendResult) {
    && op in db.dispatches && !result.NotSent? && !result.AlreadyDispatched?
    && (result == Accepted <==> db.dispatches[op].phase == Acknowledged)
    && (forall r :: result == Refused(r) <==> error == Some(AgentError(r)) && IsDeterministicRejection(AgentError(r)))
    && db.dispatches[op].phase == if written then PhaseAfter(result) else Sending
  }

  /** What `Record` makes of an answer. */
  function ResultOf(error: Option<SendError>, committed: bool): SendResult {
    if error.None? && committed then Accepted
    else if error.Some? && error.value.AgentError? && IsDeterministicRejection(error.value) then
      Refused(error.value.response)
    else Ambiguous
  }

  lemma AnsweredFacts(start: State, run: seq<Event>, s: State, c: CallbackId)
    requires Reaches(start, run, s) && c in s.callbacks && s.callbacks[c].stage.Answered?
    ensures StageOk(s.callbacks[c].stage, s.db) && AnswerOk(s.callbacks[c].stage, s.flights)
  {
    ReachableInv(start, run, s);
  }

  lemma RecordedTruth(s: State, c: CallbackId, op: OperationId, flight: nat, error: Option<SendError>, committed: bool,
      t: State)
    requires c in s.callbacks && s.callbacks[c].stage == Answered(op, flight, error)
    requires StageOk(s.callbacks[c].stage, s.db) && AnswerOk(s.callbacks[c].stage, s.flights)
    requires NextRecord(s, c, committed) == Some(t)
    ensures TellsTruth(t, op, ResultOf(error, committed))
  {
    assert t.flights == s.flights && t.flights[flight].op == op;
    assert error.None? ==> AnsweredAs(t.flights[flight], op, 1, 200);
  }

  lemma RecordedReport(s: State, c: CallbackId, op: OperationId, flight: nat, error: Option<SendError>, committed: bool,
      t: State)
    requires c in s.callbacks && s.callbacks[c].stage == Answered(op, flight, error)
    requires StageOk(s.callbacks[c].stage, s.db)
    requires NextRecord(s, c, committed) == Some(t) && error != Some(PreDispatchRejection)
    ensures Reports(t.db, op, error, committed, ResultOf(error, committed))
  {
  }

  lemma BlockedFacts(start: State, run: seq<Event>, s: State, r: ResolverId)
    requires Reaches(start, run, s)
    ensures r in s.resolvers && s.resolvers[r].Blocked? ==>
              AllBlocked(s.agents.Keys, s.served, s.resolvers[r].generation)
  {
    ReachableInv(start, run, s);
    assert r in s.resolvers ==> ResolverOk(s.resolvers[r], Generation(s.db), s.agents.Keys, s.served);
  }

  lemma EndFacts(start: State, run: seq<Event>, s: State, c: CallbackId, deleted: bool)
    requires Reaches(start, run, s) && c in s.callbacks && s.callbacks[c].stage == Idle
    ensures NextEndCallback(s, c, deleted).Some?
    ensures s.callbacks[c].admission in NextEndCallback(s, c, deleted).value.db.admissions <==> !deleted
  {
    ReachableInv(start, run, s);
  }

  lemma ResolvedFacts(start: State, run: seq<Event>, s: State, op: OperationId)
    requires Reaches(start, run, s) && op in s.db.resolvedDispatches && s.db.resolvedDispatches[op].notObserved
    ensures NeverUpdated(s.flights, op)
  {
    NotObservedIsFinal(start, run, s, op, [], s);
  }

  // ----- what a process meets when nothing is in its way -----

  /** Every manager is usable, and none has a mutation under way. */
  ghost predicate Usable(agents: map<AgentId, Agent>, flights: seq<Flight>) {
    && (forall a :: a in agents ==> !agents[a].invalid)
    && (forall i :: 0 <= i < |flights| && flights[i].place == InHandler ==> flights[i].agent !in agents)
  }

  ghost predicate Responsive(s: State) {
    Usable(s.agents, s.flights)
  }

  predicate Maintained(db: Db, generation: nat) {
    MaintenanceDb.At(db, Closing, generation) || MaintenanceDb.At(db, Reconciling, generation)
  }

  predicate Unleased(db: Db) {
    db.lease.Some? ==> db.lease.value.expiresAt <= db.now
  }

  /** Nothing is unfinished: admissions and journal rows are settled, and so is every operation. */
  ghost predicate NothingUnfinished(db: Db) {
    && (forall a :: a in db.admissions ==> a in db.resolvedAdmissions)
    && (forall o :: o in db.operations ==> db.operations[o].status in {Success, Failed})
    && (forall o :: o in db.nodeOperations ==> db.nodeOperations[o].status in {Success, Failed})
    && (forall o :: o in db.dispatches ==>
          db.dispatches[o].phase in {Acknowledged, Rejected} || o in db.resolvedDispatches)
  }

  /** Manager `a` now holds `b` and has said so; nothing else has changed. */
  ghost predicate Took(s: State, t: State, a: AgentId, b: Barrier) {
    && a in s.agents && a in t.agents && t.agents[a].barrier == b && !t.agents[a].invalid
    && t == s.(agents := s.agents[a := t.agents[a]], served := s.served + {(a, b)})
  }

  lemma PutTaken(s: State, a: AgentId, b: Barrier, t: State)
    requires a in s.agents && b in s.puts && MayTake(s.agents, b) && Responsive(s)
    ensures NextHandlePut(s, a, b, true).Some?
    ensures NextHandlePut(s, a, b, true) == Some(t) ==> Took(s, t, a, b)
  {
    assert Drained(s, a);
  }

  lemma PutAnswered(s: State, a: AgentId, b: Barrier, persisted: bool, t: State)
    requires NextHandlePut(s, a, b, persisted) == Some(t)
    ensures a in t.agents && (!t.agents[a].invalid ==> (a, b) in t.served)
  {
  }

  /** The managers in `done` hold `b`, the others are as they were. */
  ghost predicate Holding(agents: map<AgentId, Agent>, after: map<AgentId, Agent>, done: set<AgentId>, b: Barrier) {
    && after.Keys == agents.Keys
    && (forall a :: a in agents && a in done ==> after[a].barrier == b && !after[a].invalid)
    && (forall a :: a in agents && a !in done ==> after[a] == agents[a])
  }

  ghost predicate MayTake(agents: map<AgentId, Agent>, b: Barrier) {
    forall a :: a in agents ==> !agents[a].invalid && !Stale(agents[a].barrier, b)
  }

  lemma HoldingSnoc(agents: map<AgentId, Agent>, before: map<AgentId, Agent>, done: set<AgentId>, b: Barrier,
      a: AgentId, g: Agent)
    requires Holding(agents, before, done, b) && a in agents && g.barrier == b && !g.invalid
    ensures Holding(agents, before[a := g], done + {a}, b)
  {
  }

  lemma HoldingMayTake(agents: map<AgentId, Agent>, after: map<AgentId, Agent>, done: set<AgentId>, b: Barrier)
    requires Holding(agents, after, done, b) && MayTake(agents, b)
    ensures MayTake(after, b)
  {
  }

  /** During maintenance no usable manager is ahead of the row, and every acknowledgement is a manager's. */
  lemma MaintainedFacts(start: State, run: seq<Event>, s: State, generation: nat)
    requires Reaches(start, run, s) && Maintained(s.db, generation)
    ensures Responsive(s) ==> MayTake(s.agents, Barrier(generation, false))
    ensures s.db.acks.Keys <= s.agents.Keys && s.agents.Keys != {} && generation >= 1
  {
    ReachableInv(start, run, s);
    ManagersStay(start, run, s);
    forall a | a in s.agents && !s.agents[a].invalid ensures !Stale(s.agents[a].barrier, Barrier(generation, false)) {
      assert AgentOk(s.agents[a], Generation(s.db));
    }
    forall a | a in s.db.acks ensures a in s.agents {
      assert (a, Barrier(s.db.acks[a], false)) in s.served;
    }
  }

  lemma OpenFacts(start: State, run: seq<Event>, s: State, generation: nat)
    requires Reaches(start, run, s) && MaintenanceDb.At(s.db, Open, generation)
    ensures Responsive(s) ==> MayTake(s.agents, Barrier(generation, true))
    ensures generation >= 1
  {
    ReachableInv(start, run, s);
    forall a | a in s.agents && !s.agents[a].invalid ensures !Stale(s.agents[a].barrier, Barrier(generation, true)) {
      assert AgentOk(s.agents[a], Generation(s.db));
    }
  }

  lemma ManagersStay(start: State, run: seq<Event>, s: State)
    requires Reaches(start, run, s)
    ensures s.agents.Keys == start.agents.Keys != {}
  {
    InitialInv(start);
    RunIsLater(start, run, s);
    assert start.agents != map[];
  }

  /** Every manager in `done` is blocked at the generation and has its acknowledgement stored. */
  ghost predicate BlockedSoFar(s: State, t: State, done: set<AgentId>, generation: nat) {
    && t == s.(agents := t.agents, served := t.served, db := s.db.(acks := t.db.acks))
    && Holding(s.agents, t.agents, done, Barrier(generation, false))
    && t.db.acks.Keys == s.db.acks.Keys + done && (forall a :: a in done ==> t.db.acks[a] == generation)
  }

  lemma BlockingStarts(s: State, generation: nat)
    ensures BlockedSoFar(s, s, Repositories.SetOf([]), generation)
  {
    assert s.agents == s.agents;
  }

  lemma BlockingMayTake(s: State, t: State, done: set<AgentId>, generation: nat)
    requires BlockedSoFar(s, t, done, generation) && MayTake(s.agents, Barrier(generation, false)) && Responsive(s)
    ensures MayTake(t.agents, Barrier(generation, false)) && Responsive(t)
  {
    HoldingMayTake(s.agents, t.agents, done, Barrier(generation, false));
  }

  lemma BlockingSnoc(s: State, t: State, u: State, done: seq<AgentId>, generation: nat, a: AgentId)
    requires BlockedSoFar(s, t, Repositories.SetOf(done), generation) && a in t.agents && a in u.agents
    requires u.agents[a].barrier == Barrier(generation, false) && !u.agents[a].invalid
    requires u == t.(agents := t.agents[a := u.agents[a]], served := u.served,
                     db := t.db.(acks := t.db.acks[a := generation]))
    ensures BlockedSoFar(s, u, Repositories.SetOf(done + [a]), generation)
  {
    Repositories.SetOfSnoc(done, a);
    HoldingSnoc(s.agents, t.agents, Repositories.SetOf(done), Barrier(generation, false), a, u.agents[a]);
  }

  /** Every manager in `done` holds `b`. */
  ghost predicate OpenedSoFar(s: State, t: State, done: set<AgentId>, b: Barrier) {
    t == s.(agents := t.agents, served := t.served) && Holding(s.agents, t.agents, done, b)
  }

  lemma OpeningMayTake(s: State, t: State, done: set<AgentId>, b: Barrier)
    requires OpenedSoFar(s, t, done, b) && MayTake(s.agents, b) && Responsive(s)
    ensures MayTake(t.agents, b) && Responsive(t)
  {
    HoldingMayTake(s.agents, t.agents, done, b);
  }

  lemma OpeningSnoc(s: State, t: State, u: State, done: seq<AgentId>, b: Barrier, a: AgentId)
    requires OpenedSoFar(s, t, Repositories.SetOf(done), b) && Took(t, u, a, b)
    ensures OpenedSoFar(s, u, Repositories.SetOf(done + [a]), b)
  {
    Repositories.SetOfSnoc(done, a);
    HoldingSnoc(s.agents, t.agents, Repositories.SetOf(done), b, a, u.agents[a]);
  }

  /** All managers are blocked and acknowledged; nothing but barriers and the controller has changed. */
  ghost predicate Blocks(s: State, t: State, generation: nat) {
    && t == s.(agents := t.agents, served := t.served, puts := t.puts, resolvers := t.resolvers,
               db := s.db.(acks := t.db.acks))
    && Holding(s.agents, t.agents, s.agents.Keys, Barrier(generation, false))
  }

  lemma BlockedEach(s: State, put: State, t: State, generation: nat)
    requires BlockedSoFar(s, put, put.agents.Keys, generation) && put.agents.Keys == s.agents.Keys
    requires s.db.acks.Keys <= s.agents.Keys && s.agents.Keys != {}
    requires t == put.(served := t.served, resolvers := t.resolvers)
    ensures Blocks(s, t, generation) && AllAcknowledged(t.db, t.agents.Keys, generation)
  {
  }

  lemma BlocksAll(s: State, begun: State, blocked: State, t: State, generation: nat)
    requires begun == s.(puts := begun.puts, resolvers := begun.resolvers) && Blocks(begun, blocked, generation)
    requires t == blocked.(resolvers := t.resolvers)
    ensures Blocks(s, t, generation)
  {
  }

  lemma StaysResponsive(s: State, t: State, generation: nat)
    requires Blocks(s, t, generation) && Responsive(s)
    ensures Responsive(t)
  {
  }

  ghost predicate Resolvable(s: State, deployments: map<DeploymentId, Repositories.DeploymentRow>,
      attempts: map<OperationId, DeploymentId>, op: OperationId) {
    && Lookup(s.db, op).Some? && Lookup(s.db, op).value.resource in s.docker
    && var found := s.docker[Lookup(s.db, op).value.resource];
       Repositories.Settles(s.db, deployments, attempts, op, Some((found.version, found.hash)))
  }

  lemma LeaseIsIssued(start: State, run: seq<Event>, s: State, lease: Lease)
    requires Reaches(start, run, s) && OwnsLease(s.db, lease)
    ensures lease in s.issued
  {
    ReachableInv(start, run, s);
  }

  /** The steps of a callback that has sent its request. */
  function SentTrace(error: Option<SendError>, written: bool): seq<WorkStep> {
    [PrepareRow(true), PromoteRow(true), WorkStep.Send, if error == Some(TransportError) then TimeOut else Receive,
     RecordOutcome(written)]
  }

  /** A fresh identifier is admitted exactly while maintenance is OPEN. */
  predicate CanAdmit(s: State, id: AdmissionId) {
    InState(s.db, Open) && id !in s.db.admissions && id !in s.db.resolvedAdmissions
  }

  predicate IsReady(s: State, op: OperationId, node: bool, agent: AgentId) {
    && InState(s.db, Open) && op in Rows(s.db, node)
    && agent in s.agents && !s.agents[agent].invalid && s.agents[agent].barrier == Barrier(Generation(s.db), true)
  }

  lemma EnterFacts(start: State, run: seq<Event>, s: State, c: CallbackId, id: AdmissionId)
    requires Reaches(start, run, s) && c !in s.callbacks
    ensures NextAdmit(s, c, id).Some? <==> CanAdmit(s, id)
  {
    ReachableInv(start, run, s);
  }
}
