/**
 The whole cluster with its real Agents: every manager is a machine with a disk,
 a process that may die at any system call, and request threads around the read/write
 lock. Its runs are runs of the maintenance protocol, so what is proved of the
 protocol holds of this system.
 */
module ConcreteSystem {
  import opened Basics
  import opened AgentContract
  import opened MaintenanceDb
  import opened BarrierDisk
  import opened BarrierRefinement
  import L = BarrierLock
  import P = Protocol

  /** A manager's node, its lock and its threads; `flightOf` says which request a mutation thread serves. */
  datatype Machine = Machine(
    node: Node, readers: nat, writer: bool, threads: map<L.ThreadId, L.Thread>, flightOf: map<L.ThreadId, nat>)

  const NewMachine := Machine(NewNode, 0, false, map[], map[])

  /** Everything but the Agents is as in the protocol; `net.agents` only lists the managers. */
  datatype System = System(net: P.State, machines: map<AgentId, Machine>)

  ghost predicate InitialSystem(y: System) {
    && P.Initial(y.net) && y.machines.Keys == y.net.agents.Keys
    && (forall a :: a in y.machines ==> y.machines[a] == NewMachine)
  }

  /** Who asked for a barrier read. */
  datatype Reader = Nobody | Sender(c: P.CallbackId) | Resolver(r: P.ResolverId)

  datatype MachineEvent =
    | Power(node: NodeEvent)                    // a start, a crash, a power loss or an operator's reconciliation
    | Receive(id: L.ThreadId, flight: nat)      // a mutation request arrives
    | Arrive(id: L.ThreadId, thread: L.Thread)  // a barrier transition or a barrier read arrives
    | Step(gate: L.GateEvent)                   // a thread takes or leaves the lock, checks, or returns
    | Update(id: L.ThreadId, version: nat, hash: SpecHash)              // a handler updates Docker
    | Report(id: L.ThreadId, swarm: Option<string>, reader: Reader)     // a barrier read is answered
    | Begin(id: L.ThreadId, state: BarrierState, swarm: Option<string>) // a transition, under the write lock
    | Write(id: L.ThreadId, ok: bool, disk: Disk)                       // the next system call of its write

  datatype SystemEvent = Elsewhere(event: P.Event) | OnAgent(agent: AgentId, machine: MachineEvent)

  /** What the threads of a process see of its barrier. */
  function View(p: Process): P.Agent {
    P.Agent(Strip(p.held), p.invalid, {})
  }

  function GateOf(m: Machine, agent: P.Agent): L.Gate {
    L.Gate(agent, m.readers, m.writer, m.threads)
  }

  function WithGate(m: Machine, g: L.Gate): Machine {
    m.(readers := g.readers, writer := g.writer, threads := g.threads)
  }

  function MoveThread(m: Machine, id: L.ThreadId, stage: L.Stage): Machine
    requires id in m.threads
  {
    m.(threads := m.threads[id := m.threads[id].(stage := stage)])
  }

  predicate Has(m: Machine, id: L.ThreadId, stage: L.Stage) {
    m.node.process.Some? && id in m.threads && m.threads[id].stage == stage
  }

  /** The events in which no Agent takes part. */
  predicate OutsideAgents(e: P.Event) {
    match e
    case Maintain(_) => true
    case Control(_) => true
    case Manager(manager) => manager.SendPut? || manager.WriteAck?
    case Work(_, work) => !work.ProbeAgent?
    case Wire(wire) => wire.LoseRequest? || wire.OutsideWrite?
    case Recovery(_, recovery) => !recovery.RereadBlocked?
  }

  /** A request that a thread already serves is no longer on the wire. */
  predicate OnTheWire(y: System, e: P.Event) {
    e.Wire? && e.wire.LoseRequest? && e.wire.flight < |y.net.flights| ==>
      forall a :: a in y.machines ==> e.wire.flight !in y.machines[a].flightOf.Values
  }

  function NextSystem(y: System, e: SystemEvent): Option<System> {
    match e
    case Elsewhere(event) => NextElsewhere(y, event)
    case OnAgent(a, machine) => if a !in y.machines then None else NextMachine(y, a, y.machines[a], machine)
  }

  function NextElsewhere(y: System, e: P.Event): Option<System> {
    if !OutsideAgents(e) || !OnTheWire(y, e) || P.Next(y.net, e).None? then None
    else Some(y.(net := P.Next(y.net, e).value))
  }

  function NextMachine(y: System, a: AgentId, m: Machine, e: MachineEvent): Option<System> {
    match e
    case Power(event) => NextPower(y, a, m, event)
    case Receive(id, i) => NextReceive(y, a, m, id, i)
    case Arrive(id, thread) => NextArrive(y, a, m, id, thread)
    case Step(event) => NextStep(y, a, m, event)
    case Update(id, version, hash) => NextUpdate(y, m, id, version, hash)
    case Report(id, swarm, reader) => NextReport(y, a, m, id, swarm, reader)
    case Begin(id, state, swarm) => NextBegin(y, a, m, id, state, swarm)
    case Write(id, ok, disk) => NextWrite(y, a, m, id, ok, disk)
  }

  function RunSystem(y: System, events: seq<SystemEvent>): Option<System>
    decreases |events|
  {
    if events == [] then Some(y)
    else match NextSystem(y, events[0])
      case None => None
      case Some(z) => RunSystem(z, events[1..])
  }

  function Store(y: System, a: AgentId, net: P.State, m: Machine): System {
    System(net, y.machines[a := m])
  }

  /** With the process go its threads and its lock; the handlers' answers are lost. */
  function NextPower(y: System, a: AgentId, m: Machine, e: NodeEvent): Option<System> {
    if !(e.Boot? || e.Kill? || e.PowerLoss? || e.Reconcile?) || NextNode(m.node, e).None? then None
    else
      var node := NextNode(m.node, e).value;
      if e.Boot? || e.Reconcile? then Some(Store(y, a, y.net, m.(node := node)))
      else Some(Store(y, a, y.net.(flights := P.AbortHandlers(y.net.flights, a)), NewMachine.(node := node)))
  }

  function NextReceive(y: System, a: AgentId, m: Machine, id: L.ThreadId, i: nat): Option<System> {
    if m.node.process.None? || id in m.threads || i >= |y.net.flights| || i in m.flightOf.Values then None
    else
      var f := y.net.flights[i];
      if f.agent != a || f.place != P.InTransit then None
      else Some(Store(y, a, y.net, m.(threads := m.threads[id := L.Mutation(f.generation, L.Arrived)],
                                    flightOf := m.flightOf[id := i])))
  }

  function NextArrive(y: System, a: AgentId, m: Machine, id: L.ThreadId, thread: L.Thread): Option<System> {
    if m.node.process.None? || id in m.threads || thread.stage != L.Arrived || thread.Mutation? then None
    else if thread.Transition? && thread.target !in y.net.puts then None
    else Some(Store(y, a, y.net, m.(threads := m.threads[id := thread])))
  }

  /** What the sender of a request gets to see of a thread's step. */
  function Sent(net: P.State, i: nat, stage: L.Stage): P.State
    requires i < |net.flights|
  {
    match stage
    case Handling => P.MoveFlight(net, i, P.InHandler)
    case Returning(response) => P.MoveFlight(net, i, P.Replied(response))
    case _ => net
  }

  predicate OfRequest(e: L.GateEvent) {
    e.LookOpen? || e.Judge? || e.Return?
  }

  predicate OfLock(e: L.GateEvent) {
    e.RLock? || e.RUnlock? || e.Lock? || e.Unlock?
  }

  function NextStep(y: System, a: AgentId, m: Machine, e: L.GateEvent): Option<System> {
    if m.node.process.None? || !(OfRequest(e) || OfLock(e)) then None
    else match L.NextGate(GateOf(m, View(m.node.process.value)), e)
      case None => None
      case Some(g) =>
        if OfLock(e) then Some(Store(y, a, y.net, WithGate(m, g)))
        else if e.id !in m.flightOf || e.id !in g.threads || m.flightOf[e.id] >= |y.net.flights| then None
        else if e.Return? && Updated(e.path) != (y.net.flights[m.flightOf[e.id]].updates > 0) then None
        else Some(Store(y, a, Sent(y.net, m.flightOf[e.id], g.threads[e.id].stage), WithGate(m, g)))
  }

  function NextUpdate(y: System, m: Machine, id: L.ThreadId, version: nat, hash: SpecHash): Option<System> {
    if !Has(m, id, L.Handling) || id !in m.flightOf then None
    else match P.NextUpdateDocker(y.net, m.flightOf[id], version, hash)
      case None => None
      case Some(net) => Some(y.(net := net))
  }

  /** The answer of a barrier read reaches whoever asked for it. */
  function Informed(net: P.State, a: AgentId, seen: P.Agent, reader: Reader): Option<P.State>
    requires a in net.agents
  {
    var view := net.(agents := net.agents[a := seen], served := net.served + {(a, seen.barrier)});
    var told := match reader
      case Nobody => Some(view)
      case Sender(c) => P.NextProbe(view, c, a)
      case Resolver(r) => P.NextReread(view, r, a);
    if told.None? then None else Some(told.value.(agents := net.agents))
  }

  function NextReport(y: System, a: AgentId, m: Machine, id: L.ThreadId, swarm: Option<string>,
      reader: Reader): Option<System> {
    if !Has(m, id, L.Guarding) || !m.threads[id].Inspection? || a !in y.net.agents then None
    else match NextNode(m.node, Get(swarm))
      case None => None
      case Some(node) =>
        var after := MoveThread(m, id, L.Telling(node.served != m.node.served)).(node := node);
        if node.served == m.node.served then (if reader.Nobody? then Some(Store(y, a, y.net, after)) else None)
        else match Informed(y.net, a, View(m.node.process.value), reader)
          case None => None
          case Some(net) => Some(Store(y, a, net, after))
  }

  function Served(net: P.State, a: AgentId, node: Node, reported: bool): P.State {
    if reported && node.process.Some? then net.(served := net.served + {(a, Strip(node.process.value.held))}) else net
  }

  /** A transition is judged; it is answered at once unless a write has begun. */
  function NextBegin(y: System, a: AgentId, m: Machine, id: L.ThreadId, v: BarrierState,
      swarm: Option<string>): Option<System> {
    if !Has(m, id, L.Deciding) || !m.threads[id].Transition? || m.threads[id].target != Strip(v) then None
    else match NextNode(m.node, Put(v, swarm))
      case None => None
      case Some(node) =>
        if node.process.Some? && node.process.value.job.Some? then Some(Store(y, a, y.net, m.(node := node)))
        else
          var reported := node.served != m.node.served;
          Some(Store(y, a, Served(y.net, a, node, reported), MoveThread(m, id, L.Answering(reported)).(node := node)))
  }

  function NextWrite(y: System, a: AgentId, m: Machine, id: L.ThreadId, ok: bool, disk: Disk): Option<System> {
    if !Has(m, id, L.Deciding) then None
    else match NextNode(m.node, Call(ok, disk))
      case None => None
      case Some(node) =>
        if node.process.Some? && node.process.value.job.Some? then Some(Store(y, a, y.net, m.(node := node)))
        else Some(Store(y, a, Served(y.net, a, node, ok), MoveThread(m, id, L.Answering(ok)).(node := node)))
  }
}
