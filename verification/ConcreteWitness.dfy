/**
 Two concrete runs of the cluster with a real Agent. The manager starts, writes its first
 barrier to disk and answers; then either a mutation request passes its guard, or the
 cluster is closed and opened again, through the barriers of generations 1, 2, 4 and 5.
 */
module ConcreteWitness {
  import opened Basics
  import opened MaintenanceDb
  import opened BarrierDisk
  import opened BarrierRuns
  import opened ConcreteSystem
  import opened ConcreteAbilities
  import ConcreteCycle
  import ConcreteRequest
  import ConcreteRefinement
  import L = BarrierLock
  import P = Protocol

  const Net := P.State(
    EmptyDb, map[0 := P.FreshAgent], [], map[], map[], map[7 := P.DockerResource(5, 11)], {}, {}, {})
  const First := System(Net, map[0 := NewMachine])
  const Row := OperationRow(Scale, 7, 5, 11, Running, NoError)
  const Opened := BarrierState("c", 1, true)

  ghost predicate Reaches(run: seq<SystemEvent>, y: System) {
    InitialSystem(First) && RunSystem(First, run) == Some(y)
  }

  lemma {:induction false} RunSnoc(x: System, run: seq<SystemEvent>, y: System, e: SystemEvent, z: System)
    requires RunSystem(x, run) == Some(y) && NextSystem(y, e) == Some(z)
    ensures RunSystem(x, run + [e]) == Some(z)
    decreases |run|
  {
    if run == [] {
      assert run + [e] == [e] && [e][1..] == [];
      assert RunSystem(z, []) == Some(z);
    } else {
      assert (run + [e])[1..] == run[1..] + [e];
      RunSnoc(NextSystem(x, run[0]).value, run[1..], y, e, z);
    }
  }

  ghost predicate IsReachable(y: System) {
    exists run :: Reaches(run, y)
  }

  ghost function Reachable(): iset<System> {
    iset y | IsReachable(y)
  }

  lemma FirstIsReachable()
    ensures First in Reachable()
  {
    assert 0 in First.machines && 0 in Net.agents;
    assert Reaches([], First);
  }

  lemma ReachableIsClosed()
    ensures StepClosed(Reachable())
  {
    forall y, e | y in Reachable() && NextSystem(y, e).Some? ensures NextSystem(y, e).value in Reachable() {
      var run :| Reaches(run, y);
      RunSnoc(First, run, y, e, NextSystem(y, e).value);
      assert Reaches(run + [e], NextSystem(y, e).value);
    }
  }

  // ----- the first barrier -----

  const OpenDb := InitializeOpen(EmptyDb)
  const SentNet := Net.(db := OpenDb, puts := {P.Barrier(1, true)})
  const OpenNet := SentNet.(served := {(0, P.Barrier(1, true))})
  const Up := NewMachine.(node := NewNode.(process := Some(Process(Fresh, false, None))))

  lemma Boots(reach: iset<System>)
    requires StepClosed(reach) && First in reach
    ensures System(SentNet, map[0 := Up]) in reach && Idle(Up, Fresh)
  {
    var initialized := First.(net := Net.(db := OpenDb));
    ExtendNet(reach, First, P.Maintain(P.Initialize), initialized.net);
    assert {} + {P.Barrier(1, true)} == {P.Barrier(1, true)};
    ExtendNet(reach, initialized, P.Manager(P.SendPut), SentNet);
    var sent := initialized.(net := SentNet);
    BootKeepsInv(NewNode);
    ExtendQuiet(reach, sent, 0, Power(Boot), Up);
    assert Store(sent, 0, SentNet, Up) == System(SentNet, map[0 := Up]);
  }

  lemma OpensFirst(reach: iset<System>) returns (m: Machine)
    requires StepClosed(reach) && First in reach
    ensures System(OpenNet, map[0 := m]) in reach && Idle(m, Opened) && m.threads.Keys == {0}
  {
    Boots(reach);
    var y := System(SentNet, map[0 := Up]);
    m := Transit(reach, y, 0, 0, Fresh, Opened);
    assert Store(y, 0, Answered(SentNet, 0, Opened), m) == System(OpenNet, map[0 := m]);
  }

  /** The generations a manager sees when the cluster opens, closes and opens again: 1, 2, 4 and 5. */
  lemma OpensClosesReopens() returns (run: seq<SystemEvent>, y: System)
    ensures Reaches(run, y) && At(y.net.db, Open, 5)
    ensures 0 in y.machines && Idle(y.machines[0], BarrierState("c", 5, true))
    ensures y.net.db.audit == [MaintenanceRow(Open, 1), MaintenanceRow(Closing, 2), MaintenanceRow(Closed, 3),
                               MaintenanceRow(Reconciling, 4), MaintenanceRow(Open, 5)]
  {
    FirstIsReachable();
    ReachableIsClosed();
    var m := OpensFirst(Reachable());
    var x := System(OpenNet, map[0 := m]);
    assert ConcreteCycle.IdleAt(x.machines, 0, Opened);
    y := ConcreteCycle.CloseAndReopen(Reachable(), x, {0}, "c", 1);
    assert ConcreteCycle.IdleAt(y.machines, 0, BarrierState("c", 5, true));
    run :| Reaches(run, y);
  }

  // ----- a request -----

  lemma Admits(reach: iset<System>) returns (m: Machine, net: P.State)
    requires StepClosed(reach) && First in reach
    ensures System(net, map[0 := m]) in reach && Idle(m, Opened) && m.threads.Keys == {0}
    ensures net == OpenNet.(db := net.db, callbacks := map[0 := P.Callback(0, P.Idle)])
    ensures net.db == OpenDb.(operations := map[9 := Row], admissions := net.db.admissions)
  {
    m := OpensFirst(reach);
    var y := System(OpenNet, map[0 := m]);
    var created := OpenNet.(db := OpenDb.(operations := map[9 := Row]));
    ExtendNet(reach, y, P.Control(P.CreateOperation(9, false, Row)), created);
    net := P.NextAdmit(created, 0, 0).value;
    ExtendNet(reach, y.(net := created), P.Work(0, P.Admit(0)), net);
  }

  lemma RequestSent(reach: iset<System>) returns (y: System)
    requires StepClosed(reach) && First in reach
    ensures y in reach && 0 in y.machines && ConcreteRequest.Serving(y.machines[0], Opened)
    ensures y.machines[0].flightOf == map[] && y.net.flights == [P.Flight(9, 1, 0, 7, 5, 11, P.InTransit, 0)]
  {
    var m, net := Admits(reach);
    y := ConcreteRequest.Starts(reach, System(net, map[0 := m]), 0, Opened, 0, 9, false);
  }

  /** A thread of the manager handles the request. */
  lemma HandlerRuns() returns (run: seq<SystemEvent>, y: System, id: L.ThreadId)
    ensures Reaches(run, y) && 0 in y.machines && ConcreteRefinement.Runs(y.machines[0], id)
  {
    FirstIsReachable();
    ReachableIsClosed();
    var sent := RequestSent(Reachable());
    assert sent.machines[0].flightOf.Values == {};
    id := ConcreteCycle.SpareId(sent.machines[0].threads.Keys);
    var m := ConcreteRequest.Arrives(Reachable(), sent, 0, id, 0);
    var z := Store(sent, 0, sent.net, m);
    ConcreteRequest.PassesGuard(Reachable(), z, 0, id, Opened, 0);
    y := Store(z, 0, P.MoveFlight(z.net, 0, P.InHandler), MoveThread(m, id, L.Handling));
    run :| Reaches(run, y);
  }

  /** The mutation succeeds: the service is at its new version and the dispatch is acknowledged. */
  lemma MutationSucceeds() returns (run: seq<SystemEvent>, y: System)
    ensures Reaches(run, y) && y.net.docker == map[7 := P.DockerResource(6, 12)]
    ensures y.net.db.dispatches == map[9 := Dispatch(1, 0, Acknowledged)]
  {
    FirstIsReachable();
    ReachableIsClosed();
    var m, net := Admits(Reachable());
    var x := System(net, map[0 := m]);
    y := ConcreteRequest.MutationCanSucceed(Reachable(), x, 0, Opened, 0, 9, false, 6, 12);
    run :| Reaches(run, y);
  }
}
