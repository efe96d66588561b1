/**
 What the cluster with real Agents can do: a manager whose lock is free takes every newer
 barrier that is sent, and a quiet cluster can be closed and opened again. Each lemma
 prolongs any run that has got this far.
 */
module ConcreteAbilities {
  import opened Basics
  import opened MaintenanceDb
  import opened BarrierDisk
  import opened BarrierRefinement
  import opened BarrierRuns
  import opened ConcreteSystem
  import L = BarrierLock
  import P = Protocol

  /** A set of cluster states that no step leaves. */
  ghost predicate StepClosed(reach: iset<System>) {
    forall y, e :: y in reach && NextSystem(y, e).Some? ==> NextSystem(y, e).value in reach
  }

  lemma Extend(reach: iset<System>, y: System, e: SystemEvent, z: System)
    requires StepClosed(reach) && y in reach && NextSystem(y, e) == Some(z)
    ensures z in reach
  {
  }

  lemma ExtendNet(reach: iset<System>, y: System, e: P.Event, net: P.State)
    requires StepClosed(reach) && y in reach && OutsideAgents(e) && !e.Wire? && P.Next(y.net, e) == Some(net)
    ensures y.(net := net) in reach
  {
    Extend(reach, y, Elsewhere(e), y.(net := net));
  }

  /** A step of manager `a` to machine `m` that the rest of the cluster does not notice. */
  lemma ExtendQuiet(reach: iset<System>, y: System, a: AgentId, e: MachineEvent, m: Machine)
    requires StepClosed(reach) && y in reach && a in y.machines
    requires NextMachine(y, a, y.machines[a], e) == Some(Store(y, a, y.net, m))
    ensures Store(y, a, y.net, m) in reach
  {
    Extend(reach, y, OnAgent(a, e), Store(y, a, y.net, m));
  }

  lemma ExtendArrive(reach: iset<System>, y: System, a: AgentId, id: L.ThreadId, thread: L.Thread)
    requires StepClosed(reach) && y in reach && a in y.machines && y.machines[a].node.process.Some?
    requires id !in y.machines[a].threads
    requires thread.stage == L.Arrived && !thread.Mutation? && (thread.Transition? ==> thread.target in y.net.puts)
    ensures Store(y, a, y.net, y.machines[a].(threads := y.machines[a].threads[id := thread])) in reach
  {
    var m := y.machines[a].(threads := y.machines[a].threads[id := thread]);
    ExtendQuiet(reach, y, a, Arrive(id, thread), m);
  }

  lemma ExtendLock(reach: iset<System>, y: System, a: AgentId, e: L.GateEvent, g: L.Gate)
    requires StepClosed(reach) && y in reach && a in y.machines && y.machines[a].node.process.Some? && OfLock(e)
    requires L.NextGate(GateOf(y.machines[a], View(y.machines[a].node.process.value)), e) == Some(g)
    ensures Store(y, a, y.net, WithGate(y.machines[a], g)) in reach
  {
    ExtendQuiet(reach, y, a, Step(e), WithGate(y.machines[a], g));
  }

  // ----- a barrier transition -----

  /** The machine is up with an untouched barrier, and nobody is at its lock. */
  ghost predicate Idle(m: Machine, held: BarrierState) {
    && m.readers == 0 && !m.writer && m.flightOf == map[]
    && NodeInv(m.node) && m.node.process == Some(Process(held, false, None))
  }

  /** The machine while its thread `id` is answered as a transition to `v`. */
  function Handling(m: Machine, node: Node, id: L.ThreadId, v: BarrierState, stage: L.Stage): Machine {
    m.(node := node, writer := true, threads := m.threads[id := L.Transition(Strip(v), stage)])
  }

  lemma TakesLock(reach: iset<System>, y: System, a: AgentId, id: L.ThreadId, v: BarrierState)
    requires StepClosed(reach) && y in reach && a in y.machines && y.machines[a].node.process.Some?
    requires id !in y.machines[a].threads
    requires y.machines[a].readers == 0 && !y.machines[a].writer && Strip(v) in y.net.puts
    ensures var m := y.machines[a]; Store(y, a, y.net, Handling(m, m.node, id, v, L.Deciding)) in reach
  {
    var m := y.machines[a];
    ExtendArrive(reach, y, a, id, L.Transition(Strip(v), L.Arrived));
    var arrived := m.(threads := m.threads[id := L.Transition(Strip(v), L.Arrived)]);
    var z := Store(y, a, y.net, arrived);
    var g := L.Move(GateOf(arrived, View(m.node.process.value)), id, L.Deciding).(writer := true);
    ExtendLock(reach, z, a, L.Lock(id), g);
    assert WithGate(arrived, g) == Handling(m, m.node, id, v, L.Deciding);
    assert Store(z, a, y.net, WithGate(arrived, g)) == Store(y, a, y.net, WithGate(arrived, g));
  }

  lemma LeavesLock(reach: iset<System>, y: System, a: AgentId, m: Machine, id: L.ThreadId, v: BarrierState)
    returns (z: Machine)
    requires a in y.machines && y.machines[a] == Handling(m, y.machines[a].node, id, v, L.Answering(true))
    requires StepClosed(reach) && y in reach && y.machines[a].node.process.Some? && m.readers == 0
    requires m.flightOf == map[]
    ensures Store(y, a, y.net, z) in reach && z.node == y.machines[a].node
    ensures z.readers == 0 && !z.writer && z.flightOf == map[] && z.threads.Keys == m.threads.Keys + {id}
  {
    var h := y.machines[a];
    var g := L.Move(GateOf(h, View(h.node.process.value)), id, L.Left).(writer := false);
    z := WithGate(h, g);
    ExtendLock(reach, y, a, L.Unlock(id), g);
  }

  /** A node that writes `v`, with `pc` calls made. */
  ghost predicate WritingNode(n: Node, held: BarrierState, v: BarrierState, pc: nat) {
    NodeInv(n) && n.process == Some(Process(held, false, Some(Job(pc, v))))
  }

  lemma NodeCalls(n: Node, held: BarrierState, v: BarrierState, pc: nat) returns (disk: Disk, m: Node)
    requires pc < |Script| && WritingNode(n, held, v, pc)
    ensures NextNode(n, Call(true, disk)) == Some(m) && NodeInv(m)
    ensures pc + 1 < |Script| ==> WritingNode(m, held, v, pc + 1)
    ensures pc + 1 == |Script| ==> m.process == Some(Process(v, false, None))
  {
    assert ProcessOk(n.disk, n.process.value, n.served);
    disk := Done(n.disk, Script[pc], v);
    m := NextNode(n, Call(true, disk)).value;
    NextKeepsNodeInv(n, Call(true, disk), m);
  }

  /** The rest of the cluster, once manager `a` has answered with barrier `v`. */
  function Answered(net: P.State, a: AgentId, v: BarrierState): P.State {
    net.(served := net.served + {(a, Strip(v))})
  }

  lemma OneCall(y: System, a: AgentId, m: Machine, id: L.ThreadId, held: BarrierState, v: BarrierState, pc: nat)
    returns (disk: Disk, node: Node)
    requires pc < |Script| && a in y.machines && WritingNode(y.machines[a].node, held, v, pc)
    requires y.machines[a] == Handling(m, y.machines[a].node, id, v, L.Deciding)
    ensures pc + 1 < |Script| ==> WritingNode(node, held, v, pc + 1)
    ensures pc + 1 == |Script| ==> NodeInv(node) && node.process == Some(Process(v, false, None))
    ensures NextMachine(y, a, y.machines[a], MachineEvent.Write(id, true, disk)) ==
            Some(if pc + 1 < |Script| then Store(y, a, y.net, Handling(m, node, id, v, L.Deciding))
                 else Store(y, a, Answered(y.net, a, v), Handling(m, node, id, v, L.Answering(true))))
  {
    disk, node := NodeCalls(y.machines[a].node, held, v, pc);
    var h := y.machines[a];
    assert h.(node := node) == Handling(m, node, id, v, L.Deciding);
    assert MoveThread(h, id, L.Answering(true)).(node := node) == Handling(m, node, id, v, L.Answering(true));
  }

  lemma {:induction false} FinishWrite(reach: iset<System>, y: System, a: AgentId, m: Machine,
      id: L.ThreadId, held: BarrierState, v: BarrierState, pc: nat)
    returns (node: Node)
    requires pc < |Script| && a in y.machines && WritingNode(y.machines[a].node, held, v, pc)
    requires StepClosed(reach) && y in reach && y.machines[a] == Handling(m, y.machines[a].node, id, v, L.Deciding)
    ensures NodeInv(node) && node.process == Some(Process(v, false, None))
    ensures Store(y, a, Answered(y.net, a, v), Handling(m, node, id, v, L.Answering(true))) in reach
    decreases |Script| - pc
  {
    var disk;
    disk, node := OneCall(y, a, m, id, held, v, pc);
    if pc + 1 == |Script| {
      var z := Store(y, a, Answered(y.net, a, v), Handling(m, node, id, v, L.Answering(true)));
      Extend(reach, y, OnAgent(a, MachineEvent.Write(id, true, disk)), z);
    } else {
      var z := Store(y, a, y.net, Handling(m, node, id, v, L.Deciding));
      Extend(reach, y, OnAgent(a, MachineEvent.Write(id, true, disk)), z);
      node := FinishWrite(reach, z, a, m, id, held, v, pc + 1);
      var end := Handling(m, node, id, v, L.Answering(true));
      assert Store(z, a, Answered(y.net, a, v), end) == Store(y, a, Answered(y.net, a, v), end);
    }
  }

  lemma NodeBegins(n: Node, held: BarrierState, v: BarrierState) returns (m: Node)
    requires NodeInv(n) && n.process == Some(Process(held, false, None)) && Supersedes(v, held)
    ensures NextNode(n, Put(v, Some(v.cluster))) == Some(m) && WritingNode(m, held, v, 0)
  {
    m := NextNode(n, Put(v, Some(v.cluster))).value;
    NextKeepsNodeInv(n, Put(v, Some(v.cluster)), m);
  }

  /** An idle manager takes any newer barrier of its cluster that was sent, and is idle again. */
  lemma Transit(reach: iset<System>, y: System, a: AgentId, id: L.ThreadId, held: BarrierState,
      v: BarrierState)
    returns (m: Machine)
    requires StepClosed(reach) && y in reach && a in y.machines && Idle(y.machines[a], held)
    requires id !in y.machines[a].threads
    requires Strip(v) in y.net.puts && Supersedes(v, held)
    ensures Store(y, a, Answered(y.net, a, v), m) in reach
    ensures Idle(m, v) && m.threads.Keys == y.machines[a].threads.Keys + {id}
  {
    var h := y.machines[a];
    TakesLock(reach, y, a, id, v);
    var z := Store(y, a, y.net, Handling(h, h.node, id, v, L.Deciding));
    var node := NodeBegins(h.node, held, v);
    var begun := Handling(h, node, id, v, L.Deciding);
    assert z.machines[a].(node := node) == begun;
    ExtendQuiet(reach, z, a, Begin(id, v, Some(v.cluster)), begun);
    z := Store(z, a, y.net, begun);
    node := FinishWrite(reach, z, a, h, id, held, v, 0);
    z := Store(z, a, Answered(y.net, a, v), Handling(h, node, id, v, L.Answering(true)));
    m := LeavesLock(reach, z, a, h, id, v);
    assert Store(z, a, z.net, m) == Store(y, a, Answered(y.net, a, v), m);
  }
}
