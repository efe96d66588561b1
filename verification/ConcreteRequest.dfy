/**
 A mutation can succeed: in an OPEN cluster, a callback whose operation has no dispatch yet
 and whose manager holds the open barrier can read the barrier, journal the dispatch, have
 the request handled by a real thread of the manager, and record the acknowledgement.
 */
module ConcreteRequest {
  import opened Basics
  import opened AgentContract
  import opened MaintenanceDb
  import opened BarrierDisk
  import opened ConcreteSystem
  import opened ConcreteAbilities
  import ConcreteCycle
  import L = BarrierLock
  import P = Protocol

  /** The manager holds `v`, usable and open, and no transition is at its lock. */
  ghost predicate Serving(m: Machine, v: BarrierState) {
    && !m.writer && ValidState(v) && v.open
    && m.node.process == Some(Process(v, false, None))
  }

  /** Thread `id` of machine `m` at `stage`, holding the read lock. */
  function Reading(m: Machine, id: L.ThreadId, thread: L.Thread): Machine {
    m.(readers := m.readers + 1, threads := m.threads[id := thread])
  }

  lemma TakesReadLock(reach: iset<System>, y: System, a: AgentId, id: L.ThreadId, m: Machine, thread: L.Thread,
      guarding: L.Thread)
    requires StepClosed(reach) && a in y.machines && m.node.process.Some? && !m.writer
    requires y.machines[a] == m.(threads := m.threads[id := thread]) && y in reach
    requires (thread == L.Inspection(L.Arrived) && guarding == L.Inspection(L.Guarding)) ||
             (thread.Mutation? && thread.stage == L.Arrived && guarding == L.Mutation(thread.generation, L.Guarding))
    ensures Store(y, a, y.net, Reading(m, id, guarding)) in reach
  {
    var h := y.machines[a];
    var g := L.Move(GateOf(h, View(h.node.process.value)), id, L.Guarding).(readers := h.readers + 1);
    ExtendLock(reach, y, a, L.RLock(id), g);
    assert WithGate(h, g) == Reading(m, id, guarding);
  }

  // ----- the barrier read -----

  lemma Inspects(reach: iset<System>, y: System, a: AgentId, id: L.ThreadId)
    requires StepClosed(reach) && y in reach && a in y.machines && id !in y.machines[a].threads
    requires y.machines[a].node.process.Some? && !y.machines[a].writer
    ensures Store(y, a, y.net, Reading(y.machines[a], id, L.Inspection(L.Guarding))) in reach
  {
    var m := y.machines[a];
    var thread := L.Inspection(L.Arrived);
    ExtendArrive(reach, y, a, id, thread);
    var z := Store(y, a, y.net, m.(threads := m.threads[id := thread]));
    TakesReadLock(reach, z, a, id, m, thread, L.Inspection(L.Guarding));
    var end := Reading(m, id, L.Inspection(L.Guarding));
    assert Store(z, a, y.net, end) == Store(y, a, y.net, end);
  }

  lemma Reports(y: System, a: AgentId, id: L.ThreadId, v: BarrierState, c: P.CallbackId, op: OperationId, node: bool)
    returns (m: Machine)
    requires a in y.machines && a in y.net.agents && Serving(y.machines[a], v)
    requires id in y.machines[a].threads && y.machines[a].threads[id] == L.Inspection(L.Guarding)
    requires c in y.net.callbacks && y.net.callbacks[c].stage == P.Admitted(op, node, v.generation)
    ensures NextReport(y, a, y.machines[a], id, Some(v.cluster), Sender(c)) ==
            Some(Store(y, a, P.MoveCallback(Answered(y.net, a, v), c, P.Probed(op, node, v.generation, a)), m))
    ensures Serving(m, v) && m.flightOf == y.machines[a].flightOf
  {
    var h := y.machines[a];
    var told := NextNode(h.node, Get(Some(v.cluster))).value;
    assert told.served != h.node.served;
    m := MoveThread(h, id, L.Telling(true)).(node := told);
    var net := Informed(y.net, a, View(h.node.process.value), Sender(c)).value;
    assert net == P.MoveCallback(Answered(y.net, a, v), c, P.Probed(op, node, v.generation, a));
  }

  /** The callback's barrier read finds the open barrier of its generation. */
  lemma Probe(reach: iset<System>, y: System, a: AgentId, v: BarrierState, c: P.CallbackId, op: OperationId, node: bool)
    returns (m: Machine)
    requires StepClosed(reach) && y in reach && a in y.machines && a in y.net.agents && Serving(y.machines[a], v)
    requires c in y.net.callbacks && y.net.callbacks[c].stage == P.Admitted(op, node, v.generation)
    ensures Store(y, a, P.MoveCallback(Answered(y.net, a, v), c, P.Probed(op, node, v.generation, a)), m) in reach
    ensures Serving(m, v) && m.flightOf == y.machines[a].flightOf
  {
    var id := ConcreteCycle.SpareId(y.machines[a].threads.Keys);
    Inspects(reach, y, a, id);
    var z := Store(y, a, y.net, Reading(y.machines[a], id, L.Inspection(L.Guarding)));
    m := Reports(z, a, id, v, c, op, node);
    var net := P.MoveCallback(Answered(y.net, a, v), c, P.Probed(op, node, v.generation, a));
    Extend(reach, z, OnAgent(a, MachineEvent.Report(id, Some(v.cluster), Sender(c))), Store(z, a, net, m));
    assert Store(z, a, net, m) == Store(y, a, net, m);
  }

  // ----- the journal -----

  /** `net` with the dispatch of `op` written and its callback at `stage`. */
  function Journalled(net: P.State, c: P.CallbackId, op: OperationId, row: Dispatch, stage: P.Stage): P.State
    requires c in net.callbacks
  {
    P.MoveCallback(net.(db := net.db.(dispatches := net.db.dispatches[op := row])), c, stage)
  }

  lemma Prepares(reach: iset<System>, y: System, c: P.CallbackId, op: OperationId, node: bool, g: nat, a: AgentId)
    requires StepClosed(reach) && y in reach && c in y.net.callbacks
    requires y.net.callbacks[c].stage == P.Probed(op, node, g, a) && op !in y.net.db.dispatches
    ensures y.(net := Journalled(y.net, c, op, Dispatch(g, a, Prepared), P.RowPrepared(op, node, g, a))) in reach
  {
    var net := Journalled(y.net, c, op, Dispatch(g, a, Prepared), P.RowPrepared(op, node, g, a));
    ExtendNet(reach, y, P.Work(c, P.PrepareRow(true)), net);
  }

  lemma Promotes(reach: iset<System>, y: System, c: P.CallbackId, op: OperationId, node: bool, g: nat, a: AgentId)
    requires StepClosed(reach) && y in reach && c in y.net.callbacks && At(y.net.db, Open, g)
    requires y.net.callbacks[c].stage == P.RowPrepared(op, node, g, a)
    requires op in y.net.db.dispatches && y.net.db.dispatches[op] == Dispatch(g, a, Prepared)
    ensures y.(net := Journalled(y.net, c, op, Dispatch(g, a, Sending), P.RowSending(op, node, g, a))) in reach
  {
    var net := Journalled(y.net, c, op, Dispatch(g, a, Sending), P.RowSending(op, node, g, a));
    ExtendNet(reach, y, P.Work(c, P.PromoteRow(true)), net);
  }

  function Request(op: OperationId, g: nat, a: AgentId, row: OperationRow): P.Flight {
    P.Flight(op, g, a, row.resource, row.expectedVersion, row.beforeHash, P.InTransit, 0)
  }

  function Dispatched(net: P.State, c: P.CallbackId, op: OperationId, f: P.Flight): P.State
    requires c in net.callbacks
  {
    P.MoveCallback(net.(flights := net.flights + [f]), c, P.Waiting(op, |net.flights|))
  }

  lemma Sends(reach: iset<System>, y: System, c: P.CallbackId, op: OperationId, node: bool, g: nat, a: AgentId)
    requires StepClosed(reach) && y in reach && c in y.net.callbacks && op in P.Rows(y.net.db, node)
    requires y.net.callbacks[c].stage == P.RowSending(op, node, g, a)
    ensures y.(net := Dispatched(y.net, c, op, Request(op, g, a, P.Rows(y.net.db, node)[op]))) in reach
  {
    var net := Dispatched(y.net, c, op, Request(op, g, a, P.Rows(y.net.db, node)[op]));
    ExtendNet(reach, y, P.Work(c, P.WorkStep.Send), net);
  }

  /** From the barrier read to the request on the wire. */
  lemma Journals(reach: iset<System>, y: System, c: P.CallbackId, op: OperationId, node: bool, g: nat, a: AgentId)
    returns (net: P.State)
    requires StepClosed(reach) && y in reach && c in y.net.callbacks && At(y.net.db, Open, g)
    requires y.net.callbacks[c].stage == P.Probed(op, node, g, a) && op !in y.net.db.dispatches
    requires op in P.Rows(y.net.db, node)
    ensures y.(net := net) in reach && c in net.callbacks
    ensures net == y.net.(db := net.db, flights := net.flights, callbacks := net.callbacks)
    ensures net.db == y.net.db.(dispatches := y.net.db.dispatches[op := Dispatch(g, a, Sending)])
    ensures net.flights == y.net.flights + [Request(op, g, a, P.Rows(y.net.db, node)[op])]
    ensures net.callbacks == y.net.callbacks[c := y.net.callbacks[c].(stage := P.Waiting(op, |y.net.flights|))]
  {
    Prepares(reach, y, c, op, node, g, a);
    net := Journalled(y.net, c, op, Dispatch(g, a, Prepared), P.RowPrepared(op, node, g, a));
    Promotes(reach, y.(net := net), c, op, node, g, a);
    net := Journalled(net, c, op, Dispatch(g, a, Sending), P.RowSending(op, node, g, a));
    Sends(reach, y.(net := net), c, op, node, g, a);
    net := Dispatched(net, c, op, Request(op, g, a, P.Rows(net.db, node)[op]));
  }

  // ----- the handler -----

  lemma Arrives(reach: iset<System>, y: System, a: AgentId, id: L.ThreadId, i: nat)
    returns (m: Machine)
    requires StepClosed(reach) && y in reach && a in y.machines && id !in y.machines[a].threads
    requires y.machines[a].node.process.Some? && !y.machines[a].writer && i !in y.machines[a].flightOf.Values
    requires i < |y.net.flights| && y.net.flights[i].agent == a && y.net.flights[i].place == P.InTransit
    ensures Store(y, a, y.net, m) in reach && m.node == y.machines[a].node && !m.writer
    ensures id in m.threads && m.threads[id] == L.Mutation(y.net.flights[i].generation, L.Guarding)
    ensures id in m.flightOf && m.flightOf[id] == i
  {
    var h := y.machines[a];
    var thread := L.Mutation(y.net.flights[i].generation, L.Arrived);
    var base := h.(flightOf := h.flightOf[id := i]);
    var arrived := base.(threads := base.threads[id := thread]);
    ExtendQuiet(reach, y, a, MachineEvent.Receive(id, i), arrived);
    var guarding := L.Mutation(y.net.flights[i].generation, L.Guarding);
    var z := Store(y, a, y.net, arrived);
    TakesReadLock(reach, z, a, id, base, thread, guarding);
    m := Reading(base, id, guarding);
    assert Store(z, a, y.net, m) == Store(y, a, y.net, m);
  }

  /** One step of a mutation thread from `y.machines[a]` to the same with the thread at `stage`. */
  lemma ThreadSteps(reach: iset<System>, y: System, a: AgentId, id: L.ThreadId, e: L.GateEvent, stage: L.Stage)
    requires StepClosed(reach) && y in reach && a in y.machines && y.machines[a].node.process.Some?
    requires id in y.machines[a].threads && id in y.machines[a].flightOf && OfRequest(e) && e.id == id
    requires y.machines[a].flightOf[id] < |y.net.flights|
    requires var m := y.machines[a]; var g := GateOf(m, View(m.node.process.value));
             L.NextGate(g, e) == Some(L.Move(g, id, stage))
    requires e.Return? ==> Updated(e.path) == (y.net.flights[y.machines[a].flightOf[id]].updates > 0)
    ensures Store(y, a, Sent(y.net, y.machines[a].flightOf[id], stage), MoveThread(y.machines[a], id, stage)) in reach
  {
    var m := y.machines[a];
    var g := L.Move(GateOf(m, View(m.node.process.value)), id, stage);
    assert WithGate(m, g) == MoveThread(m, id, stage);
    var z := Store(y, a, Sent(y.net, m.flightOf[id], stage), MoveThread(m, id, stage));
    Extend(reach, y, OnAgent(a, Step(e)), z);
  }

  /** A manager with an open barrier of the request's generation lets it through to the handler. */
  lemma PassesGuard(reach: iset<System>, y: System, a: AgentId, id: L.ThreadId, v: BarrierState, i: nat)
    requires StepClosed(reach) && y in reach && a in y.machines && Serving(y.machines[a], v)
    requires id in y.machines[a].threads && y.machines[a].threads[id] == L.Mutation(v.generation, L.Guarding)
    requires id in y.machines[a].flightOf && y.machines[a].flightOf[id] == i < |y.net.flights|
    ensures Store(y, a, P.MoveFlight(y.net, i, P.InHandler), MoveThread(y.machines[a], id, L.Handling)) in reach
  {
    var m := y.machines[a];
    ThreadSteps(reach, y, a, id, L.LookOpen(id), L.FoundOpen);
    var found := MoveThread(m, id, L.FoundOpen);
    var z := Store(y, a, y.net, found);
    ThreadSteps(reach, z, a, id, L.Judge(id, SwarmAgrees), L.Handling);
    var end := MoveThread(m, id, L.Handling);
    assert MoveThread(found, id, L.Handling) == end;
    assert Store(z, a, P.MoveFlight(y.net, i, P.InHandler), end) ==
        Store(y, a, P.MoveFlight(y.net, i, P.InHandler), end);
  }

  /** The resource is still what the operation expects. */
  predicate Matches(net: P.State, f: P.Flight) {
    f.resource in net.docker && net.docker[f.resource] == P.DockerResource(f.expectedVersion, f.beforeHash)
  }

  /** `net` after the handler of flight `i` has updated Docker and answered 200. */
  function Handled(net: P.State, i: nat, version: nat, hash: SpecHash): P.State
    requires i < |net.flights|
  {
    var f := net.flights[i];
    net.(docker := net.docker[f.resource := P.DockerResource(version, hash)],
      flights := net.flights[i := f.(place := P.Replied(Response(200, NoCode)), updates := 1)])
  }

  lemma Completes(reach: iset<System>, y: System, a: AgentId, id: L.ThreadId, i: nat, version: nat, hash: SpecHash)
    requires StepClosed(reach) && y in reach && a in y.machines && Has(y.machines[a], id, L.Handling)
    requires id in y.machines[a].flightOf && y.machines[a].flightOf[id] == i < |y.net.flights|
    requires y.net.flights[i].place == P.InHandler && y.net.flights[i].updates == 0
    requires Matches(y.net, y.net.flights[i]) && version > y.net.flights[i].expectedVersion
    ensures exists m :: Store(y, a, Handled(y.net, i, version, hash), m) in reach
  {
    var m := y.machines[a];
    var net := P.NextUpdateDocker(y.net, i, version, hash).value;
    Extend(reach, y, OnAgent(a, MachineEvent.Update(id, version, hash)), y.(net := net));
    var response := HandlerResponse(Completed);
    ThreadSteps(reach, y.(net := net), a, id, L.Return(id, Completed), L.Returning(response));
    assert P.MoveFlight(net, i, P.Replied(response)) == Handled(y.net, i, version, hash);
    var end := MoveThread(m, id, L.Returning(response));
    assert Store(y, a, Handled(y.net, i, version, hash), end) in reach;
  }

  /** The manager's thread takes the request off the wire, updates Docker once and answers. */
  lemma Serves(reach: iset<System>, y: System, a: AgentId, v: BarrierState, i: nat, version: nat, hash: SpecHash)
    returns (m: Machine)
    requires StepClosed(reach) && y in reach && a in y.machines && Serving(y.machines[a], v)
    requires i < |y.net.flights| && i !in y.machines[a].flightOf.Values
    requires y.net.flights[i].agent == a && y.net.flights[i].place == P.InTransit && y.net.flights[i].updates == 0
    requires y.net.flights[i].generation == v.generation
    requires Matches(y.net, y.net.flights[i]) && version > y.net.flights[i].expectedVersion
    ensures Store(y, a, Handled(y.net, i, version, hash), m) in reach
  {
    var id := ConcreteCycle.SpareId(y.machines[a].threads.Keys);
    var guarding := Arrives(reach, y, a, id, i);
    var z := Store(y, a, y.net, guarding);
    PassesGuard(reach, z, a, id, v, i);
    z := Store(z, a, P.MoveFlight(y.net, i, P.InHandler), MoveThread(guarding, id, L.Handling));
    Completes(reach, z, a, id, i, version, hash);
    m :| Store(z, a, Handled(z.net, i, version, hash), m) in reach;
    assert Handled(z.net, i, version, hash) == Handled(y.net, i, version, hash);
    assert Store(z, a, Handled(y.net, i, version, hash), m) == Store(y, a, Handled(y.net, i, version, hash), m);
  }

  // ----- the outcome -----

  lemma Records(reach: iset<System>, y: System, c: P.CallbackId, op: OperationId, i: nat)
    returns (net: P.State)
    requires StepClosed(reach) && y in reach && c in y.net.callbacks
    requires y.net.callbacks[c].stage == P.Waiting(op, i) && i < |y.net.flights|
    requires y.net.flights[i].place == P.Replied(Response(200, NoCode))
    requires op in y.net.db.dispatches && y.net.db.dispatches[op].phase == Sending
    ensures y.(net := net) in reach
    ensures net == Journalled(y.net, c, op, y.net.db.dispatches[op].(phase := Acknowledged), P.Idle)
  {
    var told := P.MoveCallback(y.net, c, P.Answered(op, i, None));
    ExtendNet(reach, y, P.Work(c, P.WorkStep.Receive), told);
    net := Journalled(y.net, c, op, y.net.db.dispatches[op].(phase := Acknowledged), P.Idle);
    assert told.callbacks[c := told.callbacks[c].(stage := P.Idle)] == net.callbacks;
    ExtendNet(reach, y.(net := told), P.Work(c, P.RecordOutcome(true)), net);
  }

  /** From the idle callback to the request on the wire, its manager still open. */
  lemma Starts(reach: iset<System>, y: System, a: AgentId, v: BarrierState, c: P.CallbackId, op: OperationId,
      node: bool)
    returns (z: System)
    requires StepClosed(reach) && y in reach && a in y.machines && a in y.net.agents && Serving(y.machines[a], v)
    requires At(y.net.db, Open, v.generation) && c in y.net.callbacks && y.net.callbacks[c].stage == P.Idle
    requires op in P.Rows(y.net.db, node) && op !in y.net.db.dispatches
    ensures z in reach && a in z.machines && Serving(z.machines[a], v)
    ensures z.machines[a].flightOf == y.machines[a].flightOf && z.net.docker == y.net.docker
    ensures z.net.db == y.net.db.(dispatches := y.net.db.dispatches[op := Dispatch(v.generation, a, Sending)])
    ensures z.net.flights == y.net.flights + [Request(op, v.generation, a, P.Rows(y.net.db, node)[op])]
    ensures z.net.callbacks == y.net.callbacks[c := y.net.callbacks[c].(stage := P.Waiting(op, |y.net.flights|))]
  {
    var net := P.MoveCallback(y.net, c, P.Admitted(op, node, v.generation));
    ExtendNet(reach, y, P.Work(c, P.ReadMaintenance(op, node)), net);
    var m := Probe(reach, y.(net := net), a, v, c, op, node);
    net := P.MoveCallback(Answered(net, a, v), c, P.Probed(op, node, v.generation, a));
    var probed := Store(y, a, net, m);
    net := Journals(reach, probed, c, op, node, v.generation, a);
    z := probed.(net := net);
  }

  /**
   A manager that holds the open barrier of the current generation can take a journalled mutation
   to its end: Docker is updated once, to any newer version, and the dispatch is acknowledged.
   */
  lemma MutationCanSucceed(reach: iset<System>, y: System, a: AgentId, v: BarrierState, c: P.CallbackId,
      op: OperationId, node: bool, version: nat, hash: SpecHash)
    returns (z: System)
    requires StepClosed(reach) && y in reach && a in y.machines && a in y.net.agents && Serving(y.machines[a], v)
    requires At(y.net.db, Open, v.generation) && c in y.net.callbacks && y.net.callbacks[c].stage == P.Idle
    requires op in P.Rows(y.net.db, node) && op !in y.net.db.dispatches
    requires Matches(y.net, Request(op, v.generation, a, P.Rows(y.net.db, node)[op]))
    requires version > P.Rows(y.net.db, node)[op].expectedVersion && |y.net.flights| !in y.machines[a].flightOf.Values
    ensures z in reach && z.net.callbacks == y.net.callbacks
    ensures z.net.db == y.net.db.(dispatches := y.net.db.dispatches[op := Dispatch(v.generation, a, Acknowledged)])
    ensures z.net.docker == y.net.docker[P.Rows(y.net.db, node)[op].resource := P.DockerResource(version, hash)]
    ensures |z.net.flights| == |y.net.flights| + 1 && z.net.flights[|y.net.flights|].updates == 1
  {
    var sent := Starts(reach, y, a, v, c, op, node);
    var m := Serves(reach, sent, a, v, |y.net.flights|, version, hash);
    var served := Store(sent, a, Handled(sent.net, |y.net.flights|, version, hash), m);
    var net := Records(reach, served, c, op, |y.net.flights|);
    z := served.(net := net);
    assert z.net.db.dispatches == y.net.db.dispatches[op := Dispatch(v.generation, a, Acknowledged)];
  }
}
