/**
 Every run of the cluster with its real Agents is a run of the maintenance
 protocol; two of the protocol's results, said of the real threads and processes.
 */
module ConcreteRefinement {
  import opened Basics
  import opened MaintenanceDb
  import opened BarrierDisk
  import opened BarrierRefinement
  import opened ConcreteSystem
  import opened ConcreteMachines
  import L = BarrierLock
  import P = Protocol
  import ProtocolInvariants
  import ProtocolFinality
  import ProtocolRuns
  import ProtocolSteps
  import ProtocolTheorems

  // ----- the coupling -----

  ghost predicate AllDisks(machines: map<AgentId, Machine>, agents: map<AgentId, P.Agent>, puts: set<P.Barrier>)
    requires agents.Keys == machines.Keys
  {
    forall a :: a in machines ==> DiskMatches(machines[a].node, agents[a], puts)
  }

  ghost predicate AllLocks(machines: map<AgentId, Machine>, agents: map<AgentId, P.Agent>)
    requires agents.Keys == machines.Keys
  {
    forall a :: a in machines ==> LockMatches(machines[a], agents[a])
  }

  ghost predicate AllThreads(machines: map<AgentId, Machine>, flights: seq<P.Flight>) {
    forall a :: a in machines ==> ThreadsMatch(machines[a], a, flights)
  }

  ghost predicate AllTransitions(machines: map<AgentId, Machine>, puts: set<P.Barrier>) {
    forall a :: a in machines ==> TransitionsMatch(machines[a], puts) && DownOk(machines[a])
  }

  ghost predicate AllOk(machines: map<AgentId, Machine>, agents: map<AgentId, P.Agent>, flights: seq<P.Flight>,
      puts: set<P.Barrier>) {
    && agents.Keys == machines.Keys
    && AllDisks(machines, agents, puts) && AllLocks(machines, agents)
    && AllThreads(machines, flights) && AllTransitions(machines, puts)
  }

  ghost predicate Coupled(y: System, s: P.State) {
    && s == y.net.(agents := s.agents) && s.agents.Keys == y.net.agents.Keys
    && AllOk(y.machines, s.agents, s.flights, s.puts)
  }

  lemma InitiallyCoupled(y: System)
    requires InitialSystem(y)
    ensures Coupled(y, y.net)
  {
    FirstAgent();
    assert L.Readers(map[]) == {};
  }

  // ----- what other machines do not notice -----

  lemma OthersUnmoved(m: Machine, b: AgentId, flights: seq<P.Flight>, after: seq<P.Flight>)
    requires ThreadsMatch(m, b, flights) && SameFor(b, flights, after)
    ensures ThreadsMatch(m, b, after)
  {
    forall r | r in m.threads && m.threads[r].Mutation?
      ensures r in m.flightOf && m.flightOf[r] < |after| && L.ThreadMatches(m.threads[r], b, after[m.flightOf[r]])
    {
      assert L.ThreadMatches(m.threads[r], b, flights[m.flightOf[r]]);
    }
    forall i: nat | i < |after| && after[i].agent == b && after[i].place == P.InHandler
      ensures L.HandledHere(m.threads, m.flightOf, i)
    {
      assert flights[i].place == P.InHandler;
    }
  }

  lemma SentOrSame(flights: seq<P.Flight>, after: seq<P.Flight>)
    requires after == flights || exists f: P.Flight :: f.place == P.InTransit && after == flights + [f]
    ensures forall b :: SameFor(b, flights, after)
  {
  }

  lemma AllUnmoved(machines: map<AgentId, Machine>, flights: seq<P.Flight>, after: seq<P.Flight>)
    requires AllThreads(machines, flights) && forall b :: b in machines ==> SameFor(b, flights, after)
    ensures AllThreads(machines, after)
  {
    forall b | b in machines ensures ThreadsMatch(machines[b], b, after) {
      OthersUnmoved(machines[b], b, flights, after);
    }
  }

  lemma OneMoved(machines: map<AgentId, Machine>, flights: seq<P.Flight>, a: AgentId, m: Machine,
      after: seq<P.Flight>)
    requires AllThreads(machines, flights) && forall b :: b in machines && b != a ==> SameFor(b, flights, after)
    requires ThreadsMatch(m, a, after)
    ensures AllThreads(machines[a := m], after)
  {
    forall b | b in machines && b != a ensures ThreadsMatch(machines[b], b, after) {
      OthersUnmoved(machines[b], b, flights, after);
    }
  }

  lemma OneDisk(machines: map<AgentId, Machine>, agents: map<AgentId, P.Agent>, puts: set<P.Barrier>, a: AgentId,
      m: Machine, agent: P.Agent)
    requires agents.Keys == machines.Keys && AllDisks(machines, agents, puts) && DiskMatches(m.node, agent, puts)
    ensures AllDisks(machines[a := m], agents[a := agent], puts)
  {
  }

  lemma OneLock(machines: map<AgentId, Machine>, agents: map<AgentId, P.Agent>, a: AgentId, m: Machine, agent: P.Agent)
    requires agents.Keys == machines.Keys && AllLocks(machines, agents) && LockMatches(m, agent)
    ensures AllLocks(machines[a := m], agents[a := agent])
  {
  }

  lemma OneTransition(machines: map<AgentId, Machine>, puts: set<P.Barrier>, a: AgentId, m: Machine)
    requires AllTransitions(machines, puts) && TransitionsMatch(m, puts) && DownOk(m)
    ensures AllTransitions(machines[a := m], puts)
  {
  }

  lemma MorePuts(machines: map<AgentId, Machine>, agents: map<AgentId, P.Agent>, puts: set<P.Barrier>,
      more: set<P.Barrier>)
    requires agents.Keys == machines.Keys && AllDisks(machines, agents, puts) && AllTransitions(machines, puts)
    requires puts <= more
    ensures AllDisks(machines, agents, more) && AllTransitions(machines, more)
  {
  }

  // ----- events in which no Agent takes part -----

  /** The same event in the same place, whatever the Agents are. */
  ghost predicate Blind(s: P.State, e: P.Event, agents: map<AgentId, P.Agent>) {
    match P.Next(s, e)
    case None => P.Next(s.(agents := agents), e).None?
    case Some(t) => P.Next(s.(agents := agents), e) == Some(t.(agents := agents)) && t.agents == s.agents
  }

  lemma WorkIsBlind(s: P.State, c: P.CallbackId, e: P.WorkStep, agents: map<AgentId, P.Agent>)
    requires !e.ProbeAgent?
    ensures Blind(s, P.Work(c, e), agents)
  {
    match e
    case Admit(_) =>
    case EndCallback(_) =>
    case CrashCallback =>
    case ReadMaintenance(_, _) =>
    case GiveUpUnprepared =>
    case PrepareRow(_) =>
    case PromoteRow(_) =>
    case PromoteFailed =>
    case AbandonRow(_) =>
    case Send =>
    case Receive =>
    case TimeOut =>
    case RecordOutcome(_) =>
  }

  lemma TakeLeaseIsBlind(s: P.State, holder: HolderId, ttl: nat, agents: map<AgentId, P.Agent>)
    ensures Blind(s, P.Control(P.TakeLease(holder, ttl)), agents)
  {
  }

  lemma ControlIsBlind(s: P.State, e: P.ControlEvent, agents: map<AgentId, P.Agent>)
    ensures Blind(s, P.Control(e), agents)
  {
    match e
    case Tick(_) =>
    case TakeLease(holder, ttl) => TakeLeaseIsBlind(s, holder, ttl, agents);
    case DropLease(_) =>
    case CreateOperation(op, node, row) => CreateIsBlind(s, op, node, row, agents);
    case ChangeStatus(_, _, _, _) =>
  }

  lemma CreateIsBlind(s: P.State, op: OperationId, node: bool, row: OperationRow, agents: map<AgentId, P.Agent>)
    ensures Blind(s, P.Control(P.CreateOperation(op, node, row)), agents)
  {
  }

  lemma RecoveryIsBlind(s: P.State, r: P.ResolverId, e: P.RecoveryStep, agents: map<AgentId, P.Agent>)
    requires !e.RereadBlocked? && agents.Keys == s.agents.Keys
    ensures Blind(s, P.Recovery(r, e), agents)
  {
    match e
    case BeginResolve(_, _) =>
    case FinishBlocking =>
    case Observe(_) =>
    case CommitNotObserved =>
    case CommitTerminal(_) =>
    case CommitAdmission(_) =>
    case DropResolver =>
  }

  lemma OutsideIsBlind(s: P.State, e: P.Event, agents: map<AgentId, P.Agent>)
    requires OutsideAgents(e) && agents.Keys == s.agents.Keys
    ensures Blind(s, e, agents)
  {
    match e
    case Maintain(_) =>
    case Control(control) => ControlIsBlind(s, control, agents);
    case Manager(_) =>
    case Work(c, work) => WorkIsBlind(s, c, work, agents);
    case Wire(_) =>
    case Recovery(r, recovery) => RecoveryIsBlind(s, r, recovery, agents);
  }

  /** Outside the Agents a request is only sent or lost, and no transition is taken back. */
  lemma OutsideMoves(s: P.State, e: P.Event, t: P.State)
    requires OutsideAgents(e) && P.Next(s, e) == Some(t)
    ensures s.puts <= t.puts
    ensures if e.Wire? && e.wire.LoseRequest?
            then e.wire.flight < |s.flights| && t == P.MoveFlight(s, e.wire.flight, P.Lost)
            else t.flights == s.flights || exists f: P.Flight :: f.place == P.InTransit && t.flights == s.flights + [f]
  {
    match e
    case Maintain(_) =>
    case Control(control) => ProtocolFinality.ControlKeepsOwn(s, control, t);
    case Manager(_) =>
    case Work(c, work) => ProtocolSteps.WorkHasEffect(s, c, work, t);
    case Wire(_) =>
    case Recovery(r, recovery) => ProtocolSteps.RecoveryHasEffect(s, r, recovery, t);
  }

  /** A request no thread serves may be lost. */
  lemma LostOnTheWire(m: Machine, b: AgentId, flights: seq<P.Flight>, i: nat)
    requires ThreadsMatch(m, b, flights) && i < |flights| && i !in m.flightOf.Values
    ensures ThreadsMatch(m, b, flights[i := flights[i].(place := P.Lost)])
  {
    var after := flights[i := flights[i].(place := P.Lost)];
    forall r | r in m.threads && m.threads[r].Mutation?
      ensures r in m.flightOf && m.flightOf[r] < |after| && L.ThreadMatches(m.threads[r], b, after[m.flightOf[r]])
    {
      assert m.flightOf[r] in m.flightOf.Values;
    }
    forall j: nat | j < |after| && after[j].agent == b && after[j].place == P.InHandler
      ensures L.HandledHere(m.threads, m.flightOf, j)
    {
      assert flights[j].place == P.InHandler;
    }
  }

  lemma AllLostOnTheWire(machines: map<AgentId, Machine>, flights: seq<P.Flight>, i: nat)
    requires AllThreads(machines, flights) && i < |flights|
    requires forall b :: b in machines ==> i !in machines[b].flightOf.Values
    ensures AllThreads(machines, flights[i := flights[i].(place := P.Lost)])
  {
    forall b | b in machines ensures ThreadsMatch(machines[b], b, flights[i := flights[i].(place := P.Lost)]) {
      LostOnTheWire(machines[b], b, flights, i);
    }
  }

  lemma ElsewhereKeeps(machines: map<AgentId, Machine>, s: P.State, e: P.Event, t: P.State)
    requires AllThreads(machines, s.flights) && OutsideAgents(e) && P.Next(s, e) == Some(t)
    requires OnTheWire(System(s, machines), e)
    ensures AllThreads(machines, t.flights) && s.puts <= t.puts
  {
    OutsideMoves(s, e, t);
    if e.Wire? && e.wire.LoseRequest? {
      AllLostOnTheWire(machines, s.flights, e.wire.flight);
    } else {
      SentOrSame(s.flights, t.flights);
      AllUnmoved(machines, s.flights, t.flights);
    }
  }

  lemma ElsewhereRefines(y: System, e: P.Event, z: System, s: P.State) returns (t: P.State)
    requires Coupled(y, s) && NextElsewhere(y, e) == Some(z)
    ensures P.Run(s, [e]) == Some(t) && Coupled(z, t)
  {
    OutsideIsBlind(y.net, e, s.agents);
    ElsewhereKeeps(y.machines, y.net, e, z.net);
    MorePuts(y.machines, s.agents, s.puts, z.net.puts);
    t := z.net.(agents := s.agents);
    OneEvent(s, e, t);
  }

  // ----- machines -----

  /** Only manager `a` has moved. */
  lemma OneOk(machines: map<AgentId, Machine>, agents: map<AgentId, P.Agent>, flights: seq<P.Flight>,
      puts: set<P.Barrier>, a: AgentId, m: Machine, agent: P.Agent, after: seq<P.Flight>)
    requires AllOk(machines, agents, flights, puts) && MachineOk(m, a, agent, after, puts)
    requires forall b :: b in machines && b != a ==> SameFor(b, flights, after)
    ensures AllOk(machines[a := m], agents[a := agent], after, puts)
  {
    OneMoved(machines, flights, a, m, after);
    OneDisk(machines, agents, puts, a, m, agent);
    OneLock(machines, agents, a, m, agent);
    OneTransition(machines, puts, a, m);
  }

  lemma Assembled(y: System, s: P.State, a: AgentId, m: Machine, z: System, t: P.State)
    requires s == y.net.(agents := s.agents) && s.agents.Keys == y.net.agents.Keys && NetAfter(y, s, a, m, z, t)
    requires AllOk(y.machines[a := m], s.agents[a := t.agents[a]], t.flights, s.puts)
    ensures Coupled(z, t)
  {
  }

  lemma Joined(y: System, s: P.State, a: AgentId, m: Machine, z: System, t: P.State)
    requires Coupled(y, s) && Advanced(y, s, a, m, z, t)
    ensures Coupled(z, t)
  {
    OneOk(y.machines, s.agents, s.flights, s.puts, a, m, t.agents[a], t.flights);
    Assembled(y, s, a, m, z, t);
  }

  lemma MachineAt(y: System, s: P.State, a: AgentId)
    requires Coupled(y, s) && a in y.machines
    ensures MachineOk(y.machines[a], a, s.agents[a], s.flights, s.puts)
  {
  }


  lemma PowerRefines(y: System, a: AgentId, e: NodeEvent, z: System, s: P.State)
    returns (events: seq<P.Event>, m: Machine, t: P.State)
    requires Ready(y, a, s) && NextPower(y, a, y.machines[a], e) == Some(z)
    ensures P.Run(s, events) == Some(t) && Advanced(y, s, a, m, z, t)
  {
    match e {
      case Boot => events, m, t := BootAdvances(y, a, z, s);
      case Reconcile =>
        m := ReconcileAdvances(y, a, z, s);
        events, t := [], s;
      case _ => events, m, t := DeathAdvances(y, a, e, z, s);
    }
  }

  lemma ReadRefines(y: System, a: AgentId, e: MachineEvent, z: System, s: P.State)
    returns (events: seq<P.Event>, m: Machine, t: P.State)
    requires Ready(y, a, s) && e.Report? && NextMachine(y, a, y.machines[a], e) == Some(z)
    ensures P.Run(s, events) == Some(t) && Advanced(y, s, a, m, z, t)
  {
    if NextNode(y.machines[a].node, Get(e.swarm)).value.served == y.machines[a].node.served {
      m := SilentReportAdvances(y, a, e.id, e.swarm, e.reader, z, s);
      events, t := [], s;
    } else {
      events, m, t := ReportAdvances(y, a, e.id, e.swarm, e.reader, z, s);
    }
  }

  lemma BeginRefines(y: System, a: AgentId, e: MachineEvent, z: System, s: P.State)
    returns (events: seq<P.Event>, m: Machine, t: P.State)
    requires Ready(y, a, s) && e.Begin? && NextMachine(y, a, y.machines[a], e) == Some(z)
    ensures P.Run(s, events) == Some(t) && Advanced(y, s, a, m, z, t)
  {
    var node := NextNode(y.machines[a].node, Put(e.state, e.swarm)).value;
    if node.process.Some? && node.process.value.job.Some? {
      m := BeginWritesAdvances(y, a, e.id, e.state, e.swarm, z, s);
      events, t := [], s;
    } else if node.served == y.machines[a].node.served {
      m := BeginRefusesAdvances(y, a, e.id, e.state, e.swarm, z, s);
      events, t := [], s;
    } else {
      events, m, t := BeginRepeatsAdvances(y, a, e.id, e.state, e.swarm, z, s);
    }
  }

  lemma WriteRefines(y: System, a: AgentId, e: MachineEvent, z: System, s: P.State)
    returns (events: seq<P.Event>, m: Machine, t: P.State)
    requires Ready(y, a, s) && e.Write? && NextMachine(y, a, y.machines[a], e) == Some(z)
    ensures P.Run(s, events) == Some(t) && Advanced(y, s, a, m, z, t)
  {
    var node := NextNode(y.machines[a].node, Call(e.ok, e.disk)).value;
    if node.process.Some? && node.process.value.job.Some? {
      m := WriteGoesOnAdvances(y, a, e.id, e.ok, e.disk, z, s);
      events, t := [], s;
    } else {
      events, m, t := WriteEndsAdvances(y, a, e.id, e.ok, e.disk, z, s);
    }
  }

  lemma GateStepRefines(y: System, a: AgentId, e: L.GateEvent, z: System, s: P.State)
    returns (events: seq<P.Event>, m: Machine, t: P.State)
    requires Ready(y, a, s) && NextStep(y, a, y.machines[a], e) == Some(z)
    ensures P.Run(s, events) == Some(t) && Advanced(y, s, a, m, z, t)
  {
    if OfLock(e) {
      m := LockAdvances(y, a, e, z, s);
      events, t := [], s;
    } else {
      events, m, t := RequestAdvances(y, a, e, z, s);
    }
  }

  lemma MachineAdvances(y: System, a: AgentId, e: MachineEvent, z: System, s: P.State)
    returns (events: seq<P.Event>, m: Machine, t: P.State)
    requires Ready(y, a, s) && NextMachine(y, a, y.machines[a], e) == Some(z)
    ensures P.Run(s, events) == Some(t) && Advanced(y, s, a, m, z, t)
  {
    match e {
      case Power(node) => events, m, t := PowerRefines(y, a, node, z, s);
      case Step(gate) => events, m, t := GateStepRefines(y, a, gate, z, s);
      case Update(id, version, hash) =>
        m := y.machines[a];
        events, t := UpdateAdvances(y, a, id, version, hash, z, s);
      case Report(_, _, _) => events, m, t := ReadRefines(y, a, e, z, s);
      case Begin(_, _, _) => events, m, t := BeginRefines(y, a, e, z, s);
      case Write(_, _, _) => events, m, t := WriteRefines(y, a, e, z, s);
      case _ =>
        m := ArrivalAdvances(y, a, e, z, s);
        events, t := [], s;
    }
  }

  // ----- main results -----

  /** Every step of the system is a run of the protocol. */
  lemma SystemStepRefines(y: System, e: SystemEvent, z: System, s: P.State) returns (events: seq<P.Event>, t: P.State)
    requires Coupled(y, s) && NextSystem(y, e) == Some(z)
    ensures P.Run(s, events) == Some(t) && Coupled(z, t)
  {
    match e {
      case Elsewhere(event) =>
        events := [event];
        t := ElsewhereRefines(y, event, z, s);
      case OnAgent(a, machine) =>
        MachineAt(y, s, a);
        var m;
        events, m, t := MachineAdvances(y, a, machine, z, s);
        Joined(y, s, a, m, z, t);
    }
  }

  /** Every run of the cluster with its real Agents is a run of the protocol that ends in a matching state. */
  lemma {:induction false} SystemRefines(y: System, run: seq<SystemEvent>, z: System, s: P.State)
    returns (events: seq<P.Event>, t: P.State)
    requires Coupled(y, s) && RunSystem(y, run) == Some(z)
    ensures P.Run(s, events) == Some(t) && Coupled(z, t)
    decreases |run|
  {
    if run == [] {
      events, t := [], s;
    } else {
      var x := NextSystem(y, run[0]).value;
      var first, u := SystemStepRefines(y, run[0], x, s);
      var rest;
      rest, t := SystemRefines(x, run[1..], z, u);
      events := first + rest;
      ProtocolRuns.RunSplits(s, first, rest);
    }
  }

  /** The thread runs a mutation handler, past its guard. */
  predicate Runs(m: Machine, r: L.ThreadId) {
    r in m.threads && m.threads[r].stage == L.Handling
  }

  lemma RunsInHandler(y: System, s: P.State, a: AgentId, r: L.ThreadId)
    requires Coupled(y, s) && a in y.machines && Runs(y.machines[a], r)
    ensures r in y.machines[a].flightOf && y.machines[a].flightOf[r] < |s.flights|
    ensures s.flights[y.machines[a].flightOf[r]].place == P.InHandler
  {
    MachineAt(y, s, a);
    var m := y.machines[a];
    assert L.ThreadOk(s.agents[a], m.threads[r]);
    assert L.ThreadMatches(m.threads[r], a, s.flights[m.flightOf[r]]);
  }

  /**
   While the cluster is CLOSED or RECONCILING no thread of any manager runs a mutation handler, and
   every running process is invalid or holds a barrier that is not open.
   */
  lemma ClosedMachinesAreQuiet(y: System, run: seq<SystemEvent>, z: System, a: AgentId, r: L.ThreadId)
    requires InitialSystem(y) && RunSystem(y, run) == Some(z) && a in z.machines
    requires InState(z.net.db, Closed) || InState(z.net.db, Reconciling)
    ensures !Runs(z.machines[a], r)
    ensures z.machines[a].node.process.Some? ==>
              z.machines[a].node.process.value.invalid || !z.machines[a].node.process.value.held.open
  {
    InitiallyCoupled(y);
    var events, s := SystemRefines(y, run, z, y.net);
    ProtocolTheorems.ClosedMeansQuiet(y.net, events, s);
    MachineAt(z, s, a);
    if Runs(z.machines[a], r) {
      RunsInHandler(z, s, a, r);
    }
  }

  /**
   Once an operation is resolved as not observed, no request of it has updated Docker or ever does,
   and no thread of any manager ever handles one, whatever crashes and restarts.
   */
  lemma NotObservedOnMachines(y: System, run: seq<SystemEvent>, z: System, op: OperationId, rest: seq<SystemEvent>,
      last: System, a: AgentId, r: L.ThreadId)
    requires InitialSystem(y) && RunSystem(y, run) == Some(z) && RunSystem(z, rest) == Some(last)
    requires op in z.net.db.resolvedDispatches && z.net.db.resolvedDispatches[op].notObserved
    ensures ProtocolInvariants.NeverUpdated(z.net.flights, op) && ProtocolInvariants.NeverUpdated(last.net.flights, op)
    ensures a in last.machines && Runs(last.machines[a], r) ==>
              r in last.machines[a].flightOf && last.machines[a].flightOf[r] < |last.net.flights| &&
              last.net.flights[last.machines[a].flightOf[r]].op != op
  {
    InitiallyCoupled(y);
    var events, s := SystemRefines(y, run, z, y.net);
    var more, t := SystemRefines(z, rest, last, s);
    ProtocolTheorems.NotObservedIsFinal(y.net, events, s, op, more, t);
    if a in last.machines && Runs(last.machines[a], r) {
      RunsInHandler(last, t, a, r);
    }
  }
}
