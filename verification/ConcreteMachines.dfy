/**
 One step of a manager's machine, threads and disk together, is at most two
 events of the maintenance protocol at that manager.
 */
module ConcreteMachines {
  import opened Basics
  import opened AgentContract
  import opened MaintenanceDb
  import opened BarrierDisk
  import opened BarrierRuns
  import opened BarrierRefinement
  import opened ConcreteSystem
  import L = BarrierLock
  import P = Protocol
  import ProtocolRuns

  // ----- a machine and its Agent -----

  /** The mutation threads of manager `a` are the requests the protocol has given to it. */
  ghost predicate ThreadsMatch(m: Machine, a: AgentId, flights: seq<P.Flight>) {
    && L.Injective(m.flightOf)
    && L.MatchesAll(m.threads, a, flights, m.flightOf) && L.CoversAll(m.threads, a, flights, m.flightOf)
  }

  ghost predicate LockMatches(m: Machine, agent: P.Agent) {
    L.LockOk(GateOf(m, agent)) && L.ThreadsOk(GateOf(m, agent))
  }

  ghost predicate DiskMatches(node: Node, agent: P.Agent, puts: set<P.Barrier>) {
    NodeInv(node) && Abstracts(node, agent) && JobSent(node, puts)
  }

  /** The transitions were sent, and a write in progress is the one of the thread that holds the write lock. */
  ghost predicate TransitionsMatch(m: Machine, puts: set<P.Barrier>) {
    && (forall r :: r in m.threads && m.threads[r].Transition? ==> m.threads[r].target in puts)
    && (m.node.process.Some? && m.node.process.value.job.Some? ==>
          exists p :: WritesFor(m, p, Strip(m.node.process.value.job.value.target)))
  }

  ghost predicate WritesFor(m: Machine, p: L.ThreadId, target: P.Barrier) {
    p in m.threads && m.threads[p] == L.Transition(target, L.Deciding)
  }

  /** A machine that is down has no threads. */
  ghost predicate DownOk(m: Machine) {
    m.node.process.None? ==> m == NewMachine.(node := m.node)
  }

  ghost predicate MachineOk(m: Machine, a: AgentId, agent: P.Agent, flights: seq<P.Flight>, puts: set<P.Barrier>) {
    && DiskMatches(m.node, agent, puts) && LockMatches(m, agent) && ThreadsMatch(m, a, flights)
    && TransitionsMatch(m, puts) && DownOk(m)
  }

  /** A machine and its Agent in state `s` of the protocol. */
  ghost predicate Stands(m: Machine, a: AgentId, s: P.State) {
    a in s.agents && MachineOk(m, a, s.agents[a], s.flights, s.puts)
  }

  // ----- what a step does to the rest -----

  /** For the threads of manager `b` the requests are as before; new ones are not handled yet. */
  ghost predicate SameFor(b: AgentId, flights: seq<P.Flight>, after: seq<P.Flight>) {
    && |flights| <= |after|
    && (forall i :: 0 <= i < |flights| ==> after[i].agent == flights[i].agent)
    && (forall i :: 0 <= i < |flights| && flights[i].agent == b ==>
          after[i].generation == flights[i].generation && after[i].place == flights[i].place)
    && (forall i :: |flights| <= i < |after| ==> after[i].place != P.InHandler)
  }

  /** The rest of the cluster after a step of manager `a`. */
  ghost predicate NetAfter(y: System, s: P.State, a: AgentId, m: Machine, z: System, t: P.State) {
    && a in s.agents && a in t.agents && z.machines == y.machines[a := m]
    && z.net == y.net.(flights := t.flights, served := t.served, callbacks := t.callbacks, resolvers := t.resolvers,
                       docker := t.docker)
    && t == z.net.(agents := s.agents[a := t.agents[a]])
  }

  /** Manager `a` has moved to machine `m`, and the protocol from `s` to `t`. */
  ghost predicate Advanced(y: System, s: P.State, a: AgentId, m: Machine, z: System, t: P.State) {
    && NetAfter(y, s, a, m, z, t) && MachineOk(m, a, t.agents[a], t.flights, s.puts)
    && (forall b :: b != a ==> SameFor(b, s.flights, t.flights))
  }

  /** Where a step of manager `a` begins. */
  ghost predicate Ready(y: System, a: AgentId, s: P.State) {
    a in y.machines && s == y.net.(agents := s.agents) && Stands(y.machines[a], a, s)
  }

  lemma OneEvent(s: P.State, e: P.Event, t: P.State)
    requires P.Next(s, e) == Some(t)
    ensures P.Run(s, [e]) == Some(t)
  {
    assert [e][1..] == [] && P.Run(t, []) == Some(t);
  }

  // ----- starts, crashes and power losses -----

  lemma EmptyMachine(node: Node, a: AgentId, agent: P.Agent, flights: seq<P.Flight>, puts: set<P.Barrier>)
    requires DiskMatches(node, agent, puts) && (node.process.Some? ==> node.process.value.job.None?)
    requires forall i :: 0 <= i < |flights| && flights[i].agent == a ==> flights[i].place != P.InHandler
    ensures MachineOk(NewMachine.(node := node), a, agent, flights, puts)
  {
    assert L.Readers(map[]) == {};
  }

  lemma NothingHandled(m: Machine, a: AgentId, flights: seq<P.Flight>)
    requires ThreadsMatch(m, a, flights) && m.threads == map[]
    ensures P.AbortHandlers(flights, a) == flights
    ensures forall i :: 0 <= i < |flights| && flights[i].agent == a ==> flights[i].place != P.InHandler
  {
    forall i: nat | i < |flights| && flights[i].agent == a ensures flights[i].place != P.InHandler {
      assert !L.HandledHere(m.threads, m.flightOf, i);
    }
  }

  lemma RestartKeepsSaved(node: Node, agent: P.Agent, puts: set<P.Barrier>)
    requires DiskMatches(node, agent, puts) && node.process.None?
    ensures DiskMatches(node, P.AfterRestart(agent, None), puts)
  {
  }

  lemma BootMoves(m: Machine, a: AgentId, node: Node, s: P.State) returns (loaded: Option<P.Barrier>)
    requires Stands(m, a, s) && NextNode(m.node, Boot) == Some(node)
    ensures m.(node := node) == NewMachine.(node := node)
    ensures var agent := P.AfterRestart(s.agents[a], loaded);
            && P.Next(s, P.Manager(P.RestartAgent(a, loaded))) == Some(s.(agents := s.agents[a := agent]))
            && MachineOk(m.(node := node), a, agent, s.flights, s.puts)
  {
    var move := StepMoves(m.node, s.agents[a], Boot, node, s.puts);
    loaded := move.loaded;
    NextKeepsNodeInv(m.node, Boot, node);
    NothingHandled(m, a, s.flights);
    EmptyMachine(node, a, P.AfterRestart(s.agents[a], loaded), s.flights, s.puts);
  }

  lemma ReconcileMoves(m: Machine, a: AgentId, node: Node, s: P.State)
    requires Stands(m, a, s) && NextNode(m.node, Reconcile) == Some(node)
    ensures MachineOk(m.(node := node), a, s.agents[a], s.flights, s.puts)
  {
    var move := StepMoves(m.node, s.agents[a], Reconcile, node, s.puts);
    NextKeepsNodeInv(m.node, Reconcile, node);
    NothingHandled(m, a, s.flights);
    EmptyMachine(node, a, s.agents[a], s.flights, s.puts);
  }

  lemma DrainedWhileWriting(m: Machine, a: AgentId, s: P.State)
    requires Stands(m, a, s) && m.node.process.Some? && m.node.process.value.job.Some?
    ensures P.Drained(s, a)
  {
    var p :| WritesFor(m, p, Strip(m.node.process.value.job.value.target));
    L.DrainedUnderLock(GateOf(m, s.agents[a]), s, a, m.flightOf, p);
  }

  /** A barrier write cut short by the death of its process is a transition that failed to persist. */
  lemma WriteCutShort(m: Machine, a: AgentId, e: NodeEvent, node: Node, s: P.State)
    returns (events: seq<P.Event>, t: P.State)
    requires Stands(m, a, s) && (e.Kill? || e.PowerLoss?) && NextNode(m.node, e) == Some(node)
    ensures P.Run(s, events) == Some(t)
    ensures a in t.agents && t == s.(agents := s.agents[a := t.agents[a]]) && DiskMatches(node, t.agents[a], s.puts)
  {
    var move := StepMoves(m.node, s.agents[a], e, node, s.puts);
    NextKeepsNodeInv(m.node, e, node);
    if move.TakePut? {
      DrainedWhileWriting(m, a, s);
      events := [P.Manager(P.HandlePut(a, move.barrier, false))];
      t := P.Next(s, events[0]).value;
      OneEvent(s, events[0], t);
    } else {
      events, t := [], s;
      assert s.agents[a := s.agents[a]] == s.agents;
    }
  }

  lemma DeathMoves(m: Machine, a: AgentId, e: NodeEvent, node: Node, s: P.State)
    returns (events: seq<P.Event>, agent: P.Agent)
    requires Stands(m, a, s) && (e.Kill? || e.PowerLoss?) && NextNode(m.node, e) == Some(node)
    ensures var flights := P.AbortHandlers(s.flights, a);
            && P.Run(s, events) == Some(s.(agents := s.agents[a := agent], flights := flights))
            && MachineOk(NewMachine.(node := node), a, agent, flights, s.puts)
  {
    var cut, u := WriteCutShort(m, a, e, node, s);
    RestartKeepsSaved(node, u.agents[a], s.puts);
    agent := P.AfterRestart(u.agents[a], None);
    var last, t := P.Manager(P.RestartAgent(a, None)), P.NextRestart(u, a, None).value;
    OneEvent(u, last, t);
    events := cut + [last];
    ProtocolRuns.RunSplits(s, cut, [last]);
    EmptyMachine(node, a, agent, t.flights, s.puts);
    assert u.agents[a := agent] == s.agents[a := agent];
  }

  lemma BootAdvances(y: System, a: AgentId, z: System, s: P.State)
    returns (events: seq<P.Event>, m: Machine, t: P.State)
    requires Ready(y, a, s) && NextPower(y, a, y.machines[a], Boot) == Some(z)
    ensures P.Run(s, events) == Some(t) && Advanced(y, s, a, m, z, t)
  {
    var node := NextNode(y.machines[a].node, Boot).value;
    m := y.machines[a].(node := node);
    var loaded := BootMoves(y.machines[a], a, node, s);
    events := [P.Manager(P.RestartAgent(a, loaded))];
    t := s.(agents := s.agents[a := P.AfterRestart(s.agents[a], loaded)]);
    OneEvent(s, events[0], t);
  }

  lemma ReconcileAdvances(y: System, a: AgentId, z: System, s: P.State) returns (m: Machine)
    requires Ready(y, a, s) && NextPower(y, a, y.machines[a], Reconcile) == Some(z)
    ensures Advanced(y, s, a, m, z, s)
  {
    var node := NextNode(y.machines[a].node, Reconcile).value;
    m := y.machines[a].(node := node);
    ReconcileMoves(y.machines[a], a, node, s);
    assert s.agents[a := s.agents[a]] == s.agents;
  }

  lemma DeathAdvances(y: System, a: AgentId, e: NodeEvent, z: System, s: P.State)
    returns (events: seq<P.Event>, m: Machine, t: P.State)
    requires Ready(y, a, s) && (e.Kill? || e.PowerLoss?) && NextPower(y, a, y.machines[a], e) == Some(z)
    ensures P.Run(s, events) == Some(t) && Advanced(y, s, a, m, z, t)
  {
    var node := NextNode(y.machines[a].node, e).value;
    m := NewMachine.(node := node);
    var agent;
    events, agent := DeathMoves(y.machines[a], a, e, node, s);
    t := s.(agents := s.agents[a := agent], flights := P.AbortHandlers(s.flights, a));
  }

  // ----- threads -----

  /** A thread moves; what the other transitions wait for stays. */
  lemma TransitionsStay(m: Machine, puts: set<P.Barrier>, id: L.ThreadId, stage: L.Stage)
    requires TransitionsMatch(m, puts) && id in m.threads && m.threads[id].stage != L.Deciding
    ensures TransitionsMatch(MoveThread(m, id, stage), puts)
  {
    if m.node.process.Some? && m.node.process.value.job.Some? {
      var target := Strip(m.node.process.value.job.value.target);
      var p :| WritesFor(m, p, target);
      assert WritesFor(MoveThread(m, id, stage), p, target);
    }
  }

  /** Step `e` of the gate moves one thread, which is not deciding, and nothing else of the machine. */
  ghost predicate MovesOne(m: Machine, e: L.GateEvent, g: L.Gate) {
    && e.id in m.threads && e.id in g.threads && m.threads[e.id].stage != L.Deciding
    && g.threads == MoveThread(m, e.id, g.threads[e.id].stage).threads
  }

  /** The threads see of the Agent what its process holds. */
  lemma SameView(m: Machine, agent: P.Agent, e: L.GateEvent)
    requires m.node.process.Some? && Abstracts(m.node, agent) && (OfRequest(e) || OfLock(e))
    ensures var seen := L.NextGate(GateOf(m, View(m.node.process.value)), e);
            && L.NextGate(GateOf(m, agent), e) == (if seen.None? then None else Some(seen.value.(agent := agent)))
            && (seen.Some? ==> MovesOne(m, e, seen.value))
  {
  }

  lemma LockStep(m: Machine, a: AgentId, e: L.GateEvent, g: L.Gate, s: P.State)
    requires Stands(m, a, s) && m.node.process.Some? && OfLock(e)
    requires L.NextGate(GateOf(m, View(m.node.process.value)), e) == Some(g)
    ensures MachineOk(WithGate(m, g), a, s.agents[a], s.flights, s.puts)
  {
    var before, after := GateOf(m, s.agents[a]), g.(agent := s.agents[a]);
    SameView(m, s.agents[a], e);
    L.StepKeepsLock(before, e, after);
    L.StepKeepsThreads(before, e, after);
    L.OthersAreQuiet(before, e, after, s, a, m.flightOf);
    TransitionsStay(m, s.puts, e.id, g.threads[e.id].stage);
  }

  /** The sender sees exactly the protocol's event. */
  lemma RequestEvent(m: Machine, a: AgentId, e: L.GateEvent, g: L.Gate, s: P.State)
    requires Stands(m, a, s) && OfRequest(e) && e.id in m.flightOf && m.flightOf[e.id] < |s.flights|
    requires L.NextGate(GateOf(m, s.agents[a]), e) == Some(g) && e.id in g.threads
    requires e.Return? ==> Updated(e.path) == (s.flights[m.flightOf[e.id]].updates > 0)
    ensures var t := Sent(s, m.flightOf[e.id], g.threads[e.id].stage);
            && s.flights[m.flightOf[e.id]].agent == a
            && match L.ProtocolEvent(GateOf(m, s.agents[a]), e, g, a, m.flightOf)
               case None => t == s
               case Some(event) => P.Next(s, event) == Some(t)
  {
    assert L.ThreadOk(s.agents[a], m.threads[e.id]);
    assert L.ThreadMatches(m.threads[e.id], a, s.flights[m.flightOf[e.id]]);
  }

  lemma RequestStep(m: Machine, a: AgentId, e: L.GateEvent, g: L.Gate, s: P.State)
    returns (events: seq<P.Event>, t: P.State)
    requires Stands(m, a, s) && m.node.process.Some? && OfRequest(e) && e.id in m.flightOf
    requires L.NextGate(GateOf(m, View(m.node.process.value)), e) == Some(g)
    requires e.id in g.threads && m.flightOf[e.id] < |s.flights|
    requires e.Return? ==> Updated(e.path) == (s.flights[m.flightOf[e.id]].updates > 0)
    ensures s.flights[m.flightOf[e.id]].agent == a && t == Sent(s, m.flightOf[e.id], g.threads[e.id].stage)
    ensures P.Run(s, events) == Some(t) && MachineOk(WithGate(m, g), a, s.agents[a], t.flights, s.puts)
  {
    var before, after := GateOf(m, s.agents[a]), g.(agent := s.agents[a]);
    SameView(m, s.agents[a], e);
    L.StepKeepsLock(before, e, after);
    L.StepKeepsThreads(before, e, after);
    L.GateRefinesProtocol(before, e, after, s, a, m.flightOf);
    RequestEvent(m, a, e, after, s);
    TransitionsStay(m, s.puts, e.id, g.threads[e.id].stage);
    t := Sent(s, m.flightOf[e.id], g.threads[e.id].stage);
    var event := L.ProtocolEvent(before, e, after, a, m.flightOf);
    if event.Some? {
      events := [event.value];
      OneEvent(s, event.value, t);
    } else {
      events := [];
    }
  }

  lemma LockAdvances(y: System, a: AgentId, e: L.GateEvent, z: System, s: P.State) returns (m: Machine)
    requires Ready(y, a, s) && OfLock(e) && NextStep(y, a, y.machines[a], e) == Some(z)
    ensures Advanced(y, s, a, m, z, s)
  {
    var before := y.machines[a];
    var g := L.NextGate(GateOf(before, View(before.node.process.value)), e).value;
    m := WithGate(before, g);
    LockStep(before, a, e, g, s);
    assert s.agents[a := s.agents[a]] == s.agents;
  }

  lemma SentElsewhere(s: P.State, i: nat, stage: L.Stage, b: AgentId)
    requires i < |s.flights| && s.flights[i].agent != b
    ensures SameFor(b, s.flights, Sent(s, i, stage).flights)
  {
  }

  lemma RequestAdvances(y: System, a: AgentId, e: L.GateEvent, z: System, s: P.State)
    returns (events: seq<P.Event>, m: Machine, t: P.State)
    requires Ready(y, a, s) && OfRequest(e) && NextStep(y, a, y.machines[a], e) == Some(z)
    ensures P.Run(s, events) == Some(t) && Advanced(y, s, a, m, z, t)
  {
    var before := y.machines[a];
    var g := L.NextGate(GateOf(before, View(before.node.process.value)), e).value;
    m := WithGate(before, g);
    events, t := RequestStep(before, a, e, g, s);
    forall b | b != a ensures SameFor(b, s.flights, t.flights) {
      SentElsewhere(s, before.flightOf[e.id], g.threads[e.id].stage, b);
    }
    SentNet(y, a, s, before.flightOf[e.id], g.threads[e.id].stage, m, z, t);
  }

  lemma SentNet(y: System, a: AgentId, s: P.State, i: nat, stage: L.Stage, m: Machine, z: System, t: P.State)
    requires a in s.agents && s == y.net.(agents := s.agents) && i < |s.flights|
    requires z == Store(y, a, Sent(y.net, i, stage), m) && t == Sent(s, i, stage)
    ensures NetAfter(y, s, a, m, z, t)
  {
    assert s.agents[a := s.agents[a]] == s.agents;
  }

  lemma ReceiveMoves(m: Machine, a: AgentId, id: L.ThreadId, i: nat, s: P.State)
    requires Stands(m, a, s) && m.node.process.Some? && id !in m.threads && i < |s.flights| && i !in m.flightOf.Values
    requires s.flights[i].agent == a && s.flights[i].place == P.InTransit
    ensures var thread := L.Mutation(s.flights[i].generation, L.Arrived);
            MachineOk(m.(threads := m.threads[id := thread], flightOf := m.flightOf[id := i]),
                      a, s.agents[a], s.flights, s.puts)
  {
    var thread := L.Mutation(s.flights[i].generation, L.Arrived);
    var before := GateOf(m, s.agents[a]);
    var after := before.(threads := before.threads[id := thread]);
    var e := L.Arrive(id, thread);
    L.StepKeepsLock(before, e, after);
    L.StepKeepsThreads(before, e, after);
    L.ArrivalIsInTransit(before, e, after, s, a, m.flightOf, i);
    NewThread(m, s.puts, id, thread, m.flightOf[id := i]);
  }

  lemma NewThread(m: Machine, puts: set<P.Barrier>, id: L.ThreadId, thread: L.Thread, flightOf: map<L.ThreadId, nat>)
    requires TransitionsMatch(m, puts) && id !in m.threads && (thread.Transition? ==> thread.target in puts)
    ensures TransitionsMatch(m.(threads := m.threads[id := thread], flightOf := flightOf), puts)
  {
    if m.node.process.Some? && m.node.process.value.job.Some? {
      var target := Strip(m.node.process.value.job.value.target);
      var p :| WritesFor(m, p, target);
      assert WritesFor(m.(threads := m.threads[id := thread], flightOf := flightOf), p, target);
    }
  }

  lemma ArriveMoves(m: Machine, a: AgentId, id: L.ThreadId, thread: L.Thread, s: P.State)
    requires Stands(m, a, s) && m.node.process.Some? && id !in m.threads
    requires thread.stage == L.Arrived && !thread.Mutation? && (thread.Transition? ==> thread.target in s.puts)
    ensures MachineOk(m.(threads := m.threads[id := thread]), a, s.agents[a], s.flights, s.puts)
  {
    var before := GateOf(m, s.agents[a]);
    var after := before.(threads := before.threads[id := thread]);
    L.StepKeepsLock(before, L.Arrive(id, thread), after);
    L.StepKeepsThreads(before, L.Arrive(id, thread), after);
    NewThread(m, s.puts, id, thread, m.flightOf);
    forall i: nat | i < |s.flights| && s.flights[i].agent == a && s.flights[i].place == P.InHandler
      ensures L.HandledHere(after.threads, m.flightOf, i)
    {
      assert L.HandledHere(m.threads, m.flightOf, i);
    }
  }

  lemma ArrivalAdvances(y: System, a: AgentId, e: MachineEvent, z: System, s: P.State) returns (m: Machine)
    requires Ready(y, a, s) && (e.Receive? || e.Arrive?) && NextMachine(y, a, y.machines[a], e) == Some(z)
    ensures Advanced(y, s, a, m, z, s)
  {
    var before := y.machines[a];
    if e.Receive? {
      ReceiveMoves(before, a, e.id, e.flight, s);
      var thread := L.Mutation(s.flights[e.flight].generation, L.Arrived);
      m := before.(threads := before.threads[e.id := thread], flightOf := before.flightOf[e.id := e.flight]);
    } else {
      ArriveMoves(before, a, e.id, e.thread, s);
      m := before.(threads := before.threads[e.id := e.thread]);
    }
    assert s.agents[a := s.agents[a]] == s.agents;
  }

  /** A request changes only the number of its updates. */
  lemma UpdatesUnnoticed(m: Machine, a: AgentId, flights: seq<P.Flight>, i: nat, updates: nat)
    requires ThreadsMatch(m, a, flights) && i < |flights|
    ensures ThreadsMatch(m, a, flights[i := flights[i].(updates := updates)])
  {
    var after := flights[i := flights[i].(updates := updates)];
    forall j: nat | j < |after| && after[j].agent == a && after[j].place == P.InHandler
      ensures L.HandledHere(m.threads, m.flightOf, j)
    {
      assert flights[j].place == P.InHandler;
    }
  }

  lemma UpdateAdvances(y: System, a: AgentId, id: L.ThreadId, version: nat, hash: SpecHash, z: System, s: P.State)
    returns (events: seq<P.Event>, t: P.State)
    requires Ready(y, a, s) && NextUpdate(y, y.machines[a], id, version, hash) == Some(z)
    ensures P.Run(s, events) == Some(t) && Advanced(y, s, a, y.machines[a], z, t)
  {
    var i := y.machines[a].flightOf[id];
    t := z.net.(agents := s.agents);
    events := [P.Wire(P.UpdateDocker(i, version, hash))];
    OneEvent(s, events[0], t);
    UpdatesUnnoticed(y.machines[a], a, s.flights, i, s.flights[i].updates + 1);
    assert s.agents[a := s.agents[a]] == s.agents && y.machines[a := y.machines[a]] == y.machines;
  }

  // ----- barrier reads -----

  lemma ReportMoves(m: Machine, a: AgentId, id: L.ThreadId, swarm: Option<string>, node: Node, s: P.State)
    requires Stands(m, a, s) && Has(m, id, L.Guarding) && m.threads[id].Inspection?
    requires NextNode(m.node, Get(swarm)) == Some(node)
    ensures var reported := node.served != m.node.served;
            && MachineOk(MoveThread(m, id, L.Telling(reported)).(node := node), a, s.agents[a], s.flights, s.puts)
            && (reported ==> P.NextReadBarrier(s, a) == Some(s.(served := s.served + {(a, s.agents[a].barrier)})))
  {
    var reported := node.served != m.node.served;
    var move := StepMoves(m.node, s.agents[a], Get(swarm), node, s.puts);
    NextKeepsNodeInv(m.node, Get(swarm), node);
    var before, e := GateOf(m, s.agents[a]), L.Tell(id, !reported);
    var after := L.Move(before, id, L.Telling(reported));
    assert L.NextGate(before, e) == Some(after);
    L.StepKeepsLock(before, e, after);
    L.StepKeepsThreads(before, e, after);
    L.OnlyThreadMoves(m.threads, a, s.flights, m.flightOf, id, L.Telling(reported));
    TransitionsStay(m, s.puts, id, L.Telling(reported));
  }

  /** Who asked for the read takes one more event of the protocol. */
  lemma ToldIsEvent(net: P.State, a: AgentId, seen: P.Agent, reader: Reader, after: P.State, s: P.State)
    returns (events: seq<P.Event>, t: P.State)
    requires a in net.agents && Informed(net, a, seen, reader) == Some(after)
    requires a in s.agents && s == net.(agents := s.agents, served := net.served + {(a, seen.barrier)})
    requires s.agents[a].barrier == seen.barrier && s.agents[a].invalid == seen.invalid
    ensures P.Run(s, events) == Some(t) && t == after.(agents := s.agents)
    ensures after == net.(served := after.served, callbacks := after.callbacks, resolvers := after.resolvers)
  {
    t := after.(agents := s.agents);
    match reader {
      case Nobody => events := [];
      case Sender(c) =>
        events := [P.Work(c, P.ProbeAgent(a))];
        OneEvent(s, events[0], t);
      case Resolver(r) =>
        events := [P.Recovery(r, P.RereadBlocked(a))];
        OneEvent(s, events[0], t);
    }
  }

  lemma ReadThenTold(s: P.State, a: AgentId, told: seq<P.Event>, t: P.State) returns (events: seq<P.Event>)
    requires a in s.agents && P.NextReadBarrier(s, a) == Some(s.(served := s.served + {(a, s.agents[a].barrier)}))
    requires P.Run(s.(served := s.served + {(a, s.agents[a].barrier)}), told) == Some(t)
    ensures P.Run(s, events) == Some(t)
  {
    events := [P.Manager(P.ReadBarrier(a))] + told;
    assert events[1..] == told;
  }

  lemma SilentReportAdvances(y: System, a: AgentId, id: L.ThreadId, swarm: Option<string>, reader: Reader, z: System,
      s: P.State) returns (m: Machine)
    requires Ready(y, a, s) && NextReport(y, a, y.machines[a], id, swarm, reader) == Some(z)
    requires NextNode(y.machines[a].node, Get(swarm)).value.served == y.machines[a].node.served
    ensures Advanced(y, s, a, m, z, s)
  {
    var node := NextNode(y.machines[a].node, Get(swarm)).value;
    m := MoveThread(y.machines[a], id, L.Telling(false)).(node := node);
    ReportMoves(y.machines[a], a, id, swarm, node, s);
    assert s.agents[a := s.agents[a]] == s.agents;
  }

  lemma ReportAdvances(y: System, a: AgentId, id: L.ThreadId, swarm: Option<string>, reader: Reader, z: System,
      s: P.State) returns (events: seq<P.Event>, m: Machine, t: P.State)
    requires Ready(y, a, s) && NextReport(y, a, y.machines[a], id, swarm, reader) == Some(z)
    requires NextNode(y.machines[a].node, Get(swarm)).value.served != y.machines[a].node.served
    ensures P.Run(s, events) == Some(t) && Advanced(y, s, a, m, z, t)
  {
    var before := y.machines[a];
    var node := NextNode(before.node, Get(swarm)).value;
    m := MoveThread(before, id, L.Telling(true)).(node := node);
    ReportMoves(before, a, id, swarm, node, s);
    var seen := View(before.node.process.value);
    assert s.agents[a].barrier == seen.barrier && s.agents[a].invalid == seen.invalid;
    var read := s.(served := s.served + {(a, s.agents[a].barrier)});
    var told;
    told, t := ToldIsEvent(y.net, a, seen, reader, z.net, read);
    events := ReadThenTold(s, a, told, t);
    assert s.agents[a := s.agents[a]] == s.agents;
  }

  // ----- barrier transitions -----

  /** Deciding under the write lock is the protocol's transition, with the disk's new Agent. */
  lemma DecideMoves(m: Machine, a: AgentId, id: L.ThreadId, refused: bool, persisted: bool, node: Node, g: L.Gate,
      s: P.State)
    requires Stands(m, a, s) && Has(m, id, L.Deciding) && m.threads[id].Transition?
    requires L.NextGate(GateOf(m, s.agents[a]), L.Decide(id, refused, persisted)) == Some(g)
    requires DiskMatches(node, g.agent, s.puts) && node.process.Some? && node.process.value.job.None?
    ensures MachineOk(MoveThread(m, id, g.threads[id].stage).(node := node), a, g.agent, s.flights, s.puts)
  {
    var before, e := GateOf(m, s.agents[a]), L.Decide(id, refused, persisted);
    L.StepKeepsLock(before, e, g);
    L.StepKeepsThreads(before, e, g);
    L.OnlyThreadMoves(m.threads, a, s.flights, m.flightOf, id, g.threads[id].stage);
  }

  lemma WritingBegins(m: Machine, a: AgentId, id: L.ThreadId, node: Node, s: P.State)
    requires Stands(m, a, s) && Has(m, id, L.Deciding) && m.threads[id].Transition?
    requires DiskMatches(node, s.agents[a], s.puts) && node.process.Some? && node.process.value.job.Some?
    requires m.threads[id].target == Strip(node.process.value.job.value.target)
    ensures MachineOk(m.(node := node), a, s.agents[a], s.flights, s.puts)
  {
    assert WritesFor(m.(node := node), id, m.threads[id].target);
  }

  lemma BeginMoves(m: Machine, a: AgentId, id: L.ThreadId, v: BarrierState, swarm: Option<string>, node: Node,
      s: P.State) returns (move: Move)
    requires Stands(m, a, s) && Has(m, id, L.Deciding) && m.threads[id].Transition? && m.threads[id].target == Strip(v)
    requires NextNode(m.node, Put(v, swarm)) == Some(node)
    ensures DiskMatches(node, s.agents[a], s.puts) && node.process.Some?
    ensures node.process.value.job.Some? ==> node.process.value.job.value.target == v && node.served == m.node.served
    ensures node.process.value.held == m.node.process.value.held
    ensures node.served != m.node.served ==> node.process.value.job.None? && Allowed(s.agents[a], move, s.puts)
    ensures node.served != m.node.served ==> move == TakePut(Strip(v), true) && After(s.agents[a], move) == s.agents[a]
  {
    move := StepMoves(m.node, s.agents[a], Put(v, swarm), node, s.puts);
    NextKeepsNodeInv(m.node, Put(v, swarm), node);
  }

  lemma BeginWritesAdvances(y: System, a: AgentId, id: L.ThreadId, v: BarrierState, swarm: Option<string>, z: System,
      s: P.State) returns (m: Machine)
    requires Ready(y, a, s) && NextBegin(y, a, y.machines[a], id, v, swarm) == Some(z)
    requires var node := NextNode(y.machines[a].node, Put(v, swarm)).value;
             node.process.Some? && node.process.value.job.Some?
    ensures Advanced(y, s, a, m, z, s)
  {
    var node := NextNode(y.machines[a].node, Put(v, swarm)).value;
    m := y.machines[a].(node := node);
    var move := BeginMoves(y.machines[a], a, id, v, swarm, node, s);
    WritingBegins(y.machines[a], a, id, node, s);
    assert s.agents[a := s.agents[a]] == s.agents;
  }

  lemma BeginRefusesAdvances(y: System, a: AgentId, id: L.ThreadId, v: BarrierState, swarm: Option<string>, z: System,
      s: P.State) returns (m: Machine)
    requires Ready(y, a, s) && NextBegin(y, a, y.machines[a], id, v, swarm) == Some(z)
    requires var node := NextNode(y.machines[a].node, Put(v, swarm)).value;
             node.served == y.machines[a].node.served && !(node.process.Some? && node.process.value.job.Some?)
    ensures Advanced(y, s, a, m, z, s)
  {
    var before := y.machines[a];
    var node := NextNode(before.node, Put(v, swarm)).value;
    m := MoveThread(before, id, L.Answering(false)).(node := node);
    var move := BeginMoves(before, a, id, v, swarm, node, s);
    var g := L.Move(GateOf(before, s.agents[a]), id, L.Answering(false));
    DecideMoves(before, a, id, true, false, node, g, s);
    assert s.agents[a := s.agents[a]] == s.agents;
  }

  /** A transition that may be taken, under the write lock, as the protocol takes it. */
  lemma TakenUnderLock(m: Machine, a: AgentId, id: L.ThreadId, persisted: bool, s: P.State)
    returns (g: L.Gate, t: P.State)
    requires Stands(m, a, s) && Has(m, id, L.Deciding) && m.threads[id].Transition?
    requires Allowed(s.agents[a], TakePut(m.threads[id].target, persisted), s.puts)
    ensures L.NextGate(GateOf(m, s.agents[a]), L.Decide(id, false, persisted)) == Some(g)
    ensures g.agent == After(s.agents[a], TakePut(m.threads[id].target, persisted))
    ensures id in g.threads && g.threads[id].stage == L.Answering(!g.agent.invalid)
    ensures P.Run(s, [P.Manager(P.HandlePut(a, m.threads[id].target, persisted))]) == Some(t)
    ensures t == s.(agents := s.agents[a := g.agent],
                    served := if g.agent.invalid then s.served else s.served + {(a, g.agent.barrier)})
  {
    L.DrainedUnderLock(GateOf(m, s.agents[a]), s, a, m.flightOf, id);
    g := L.NextGate(GateOf(m, s.agents[a]), L.Decide(id, false, persisted)).value;
    t := P.NextHandlePut(s, a, m.threads[id].target, persisted).value;
    OneEvent(s, P.Manager(P.HandlePut(a, m.threads[id].target, persisted)), t);
  }

  lemma BeginRepeatsAdvances(y: System, a: AgentId, id: L.ThreadId, v: BarrierState, swarm: Option<string>, z: System,
      s: P.State) returns (events: seq<P.Event>, m: Machine, t: P.State)
    requires Ready(y, a, s) && NextBegin(y, a, y.machines[a], id, v, swarm) == Some(z)
    requires NextNode(y.machines[a].node, Put(v, swarm)).value.served != y.machines[a].node.served
    ensures P.Run(s, events) == Some(t) && Advanced(y, s, a, m, z, t)
  {
    var before := y.machines[a];
    var node := NextNode(before.node, Put(v, swarm)).value;
    m := MoveThread(before, id, L.Answering(true)).(node := node);
    var move := BeginMoves(before, a, id, v, swarm, node, s);
    var g;
    g, t := TakenUnderLock(before, a, id, true, s);
    events := [P.Manager(P.HandlePut(a, before.threads[id].target, true))];
    DecideMoves(before, a, id, false, true, node, g, s);
  }

  lemma WriteMoves(m: Machine, a: AgentId, id: L.ThreadId, ok: bool, disk: Disk, node: Node, s: P.State)
    returns (move: Move)
    requires Stands(m, a, s) && Has(m, id, L.Deciding) && NextNode(m.node, Call(ok, disk)) == Some(node)
    ensures m.threads[id].Transition? && m.node.process.value.job.Some? && node.process.Some?
    ensures m.threads[id].target == Strip(m.node.process.value.job.value.target)
    ensures Allowed(s.agents[a], move, s.puts) && DiskMatches(node, After(s.agents[a], move), s.puts)
    ensures if node.process.value.job.Some?
            then move == Stay && node.process.value.job.value.target == m.node.process.value.job.value.target
            else move == TakePut(m.threads[id].target, ok) && After(s.agents[a], move).invalid == !ok
  {
    var p :| WritesFor(m, p, Strip(m.node.process.value.job.value.target));
    assert L.Writes(m.threads[p]) && L.Writes(m.threads[id]);
    move := StepMoves(m.node, s.agents[a], Call(ok, disk), node, s.puts);
    NextKeepsNodeInv(m.node, Call(ok, disk), node);
  }

  lemma WriteGoesOnAdvances(y: System, a: AgentId, id: L.ThreadId, ok: bool, disk: Disk, z: System, s: P.State)
    returns (m: Machine)
    requires Ready(y, a, s) && NextWrite(y, a, y.machines[a], id, ok, disk) == Some(z)
    requires var node := NextNode(y.machines[a].node, Call(ok, disk)).value;
             node.process.Some? && node.process.value.job.Some?
    ensures Advanced(y, s, a, m, z, s)
  {
    var node := NextNode(y.machines[a].node, Call(ok, disk)).value;
    m := y.machines[a].(node := node);
    var move := WriteMoves(y.machines[a], a, id, ok, disk, node, s);
    WritingBegins(y.machines[a], a, id, node, s);
    assert s.agents[a := s.agents[a]] == s.agents;
  }

  lemma WriteEndsAdvances(y: System, a: AgentId, id: L.ThreadId, ok: bool, disk: Disk, z: System, s: P.State)
    returns (events: seq<P.Event>, m: Machine, t: P.State)
    requires Ready(y, a, s) && NextWrite(y, a, y.machines[a], id, ok, disk) == Some(z)
    requires var node := NextNode(y.machines[a].node, Call(ok, disk)).value;
             !(node.process.Some? && node.process.value.job.Some?)
    ensures P.Run(s, events) == Some(t) && Advanced(y, s, a, m, z, t)
  {
    var before := y.machines[a];
    var node := NextNode(before.node, Call(ok, disk)).value;
    m := MoveThread(before, id, L.Answering(ok)).(node := node);
    var move := WriteMoves(before, a, id, ok, disk, node, s);
    var g;
    g, t := TakenUnderLock(before, a, id, ok, s);
    events := [P.Manager(P.HandlePut(a, before.threads[id].target, ok))];
    DecideMoves(before, a, id, false, ok, node, g, s);
  }
}
