/**
 A quiet cluster of any number of real managers can be closed and opened again. The
 managers see the generations of CLOSING, RECONCILING and OPEN but not that of CLOSED.
 */
module ConcreteCycle {
  import opened Basics
  import opened MaintenanceDb
  import opened BarrierDisk
  import opened BarrierRefinement
  import opened ConcreteSystem
  import opened ConcreteAbilities
  import L = BarrierLock
  import P = Protocol

  lemma {:induction false} SpareId(ids: set<L.ThreadId>) returns (id: L.ThreadId)
    ensures forall i :: i in ids ==> i < id
  {
    if ids == {} {
      id := 0;
    } else {
      var one :| one in ids;
      id := SpareId(ids - {one});
      assert forall i :: i in ids ==> i == one || i in ids - {one};
      id := if id <= one then one + 1 else id;
    }
  }

  /** The manager can take barrier `v` at once. */
  ghost predicate Ready(m: Machine, v: BarrierState) {
    m.node.process.Some? && Idle(m, m.node.process.value.held) && Supersedes(v, m.node.process.value.held)
  }

  ghost predicate IdleAt(machines: map<AgentId, Machine>, a: AgentId, v: BarrierState) {
    a in machines && Idle(machines[a], v)
  }

  ghost predicate AllIdle(machines: map<AgentId, Machine>, todo: set<AgentId>, v: BarrierState) {
    forall a {:trigger IdleAt(machines, a, v)} :: a in todo ==> IdleAt(machines, a, v)
  }

  ghost predicate ReadyAt(machines: map<AgentId, Machine>, a: AgentId, v: BarrierState) {
    a in machines && Ready(machines[a], v)
  }

  ghost predicate AllReady(machines: map<AgentId, Machine>, todo: set<AgentId>, v: BarrierState) {
    forall a {:trigger ReadyAt(machines, a, v)} :: a in todo ==> ReadyAt(machines, a, v)
  }

  lemma OneMore(reach: iset<System>, y: System, a: AgentId, v: BarrierState) returns (m: Machine)
    requires StepClosed(reach) && y in reach && Strip(v) in y.net.puts && a in y.machines && Ready(y.machines[a], v)
    ensures Store(y, a, Answered(y.net, a, v), m) in reach && Idle(m, v)
  {
    var id := SpareId(y.machines[a].threads.Keys);
    m := Transit(reach, y, a, id, y.machines[a].node.process.value.held, v);
  }

  /** Every manager in `todo` takes the barrier, one after the other. */
  lemma {:induction false} AllTransit(reach: iset<System>, y: System, todo: set<AgentId>, v: BarrierState)
    returns (z: System)
    requires StepClosed(reach) && y in reach && Strip(v) in y.net.puts && AllReady(y.machines, todo, v)
    ensures z in reach && AllIdle(z.machines, todo, v)
    ensures z.net == y.net.(served := z.net.served) && forall a :: a in todo ==> (a, Strip(v)) in z.net.served
    ensures forall a :: a in y.machines && a !in todo ==> a in z.machines && z.machines[a] == y.machines[a]
    decreases todo
  {
    if todo == {} {
      z := y;
    } else {
      var a :| a in todo;
      z := AllTransit(reach, y, todo - {a}, v);
      assert ReadyAt(y.machines, a, v);
      var m := OneMore(reach, z, a, v);
      var done := Store(z, a, Answered(z.net, a, v), m);
      forall b | b in todo ensures IdleAt(done.machines, b, v) {
        assert b != a ==> IdleAt(z.machines, b, v);
      }
      z := done;
    }
  }

  /** Whoever was answered writes the acknowledgement rows. */
  lemma {:induction false} AllAcknowledge(reach: iset<System>, y: System, todo: set<AgentId>, g: nat)
    returns (acks: map<AgentId, nat>)
    requires StepClosed(reach) && y in reach && forall a :: a in todo ==> (a, P.Barrier(g, false)) in y.net.served
    ensures y.(net := y.net.(db := y.net.db.(acks := acks))) in reach
    ensures acks.Keys == y.net.db.acks.Keys + todo && forall a :: a in todo ==> acks[a] == g
    decreases todo
  {
    if todo == {} {
      acks := y.net.db.acks;
      assert y == y.(net := y.net.(db := y.net.db.(acks := acks)));
    } else {
      var a :| a in todo;
      acks := AllAcknowledge(reach, y, todo - {a}, g);
      var z := y.(net := y.net.(db := y.net.db.(acks := acks)));
      acks := acks[a := g];
      ExtendNet(reach, z, P.Manager(P.WriteAck(a, g)), z.net.(db := z.net.db.(acks := acks)));
    }
  }

  lemma ExtendMaintain(reach: iset<System>, y: System, e: P.Transition, db: Db)
    requires StepClosed(reach) && y in reach && P.NextMaintain(y.net.db, y.net.agents.Keys, e) == Some(db)
    ensures y.(net := y.net.(db := db)) in reach
  {
    ExtendNet(reach, y, P.Maintain(e), y.net.(db := db));
  }

  /** The cluster stands at `state`, and no work is left to wait for. */
  ghost predicate Quiet(y: System, managers: set<AgentId>, state: MaintenanceState, g: nat) {
    && At(y.net.db, state, g) && NoUnresolvedWork(y.net.db)
    && y.net.agents.Keys == managers && y.net.db.acks.Keys <= managers
  }

  predicate LeaseFree(db: Db) {
    db.lease.Some? ==> db.lease.value.expiresAt <= db.now
  }

  lemma IdleIsReady(machines: map<AgentId, Machine>, managers: set<AgentId>, held: BarrierState, v: BarrierState)
    requires AllIdle(machines, managers, held) && Supersedes(v, held)
    ensures AllReady(machines, managers, v)
  {
    forall a | a in managers ensures ReadyAt(machines, a, v) {
      assert IdleAt(machines, a, held);
    }
  }

  /** Every manager has answered with `v` and does nothing else. */
  ghost predicate Hold(y: System, managers: set<AgentId>, v: BarrierState) {
    && AllIdle(y.machines, managers, v)
    && (forall a :: a in managers ==> (a, Strip(v)) in y.net.served)
  }

  lemma SendBarrier(reach: iset<System>, y: System, state: MaintenanceState, v: BarrierState)
    requires StepClosed(reach) && y in reach && At(y.net.db, state, v.generation) && state != Closed
    requires v.open == (state == Open)
    ensures y.(net := y.net.(puts := y.net.puts + {Strip(v)})) in reach
  {
    ExtendNet(reach, y, P.Manager(P.SendPut), y.net.(puts := y.net.puts + {Strip(v)}));
  }

  /** The managers get the barrier of the current maintenance state. */
  lemma Announce(reach: iset<System>, y: System, managers: set<AgentId>, state: MaintenanceState, held: BarrierState,
      v: BarrierState)
    returns (z: System)
    requires StepClosed(reach) && y in reach && Quiet(y, managers, state, v.generation) && state != Closed
    requires AllIdle(y.machines, managers, held) && Supersedes(v, held) && v.open == (state == Open)
    ensures z in reach && Quiet(z, managers, state, v.generation) && z.net.db == y.net.db && Hold(z, managers, v)
  {
    IdleIsReady(y.machines, managers, held, v);
    SendBarrier(reach, y, state, v);
    z := AllTransit(reach, y.(net := y.net.(puts := y.net.puts + {Strip(v)})), managers, v);
  }

  /** Every manager's acknowledgement of generation `g` is recorded as well. */
  ghost predicate Acknowledged(y: System, managers: set<AgentId>, state: MaintenanceState, g: nat) {
    Quiet(y, managers, state, g) && AllAcknowledged(y.net.db, managers, g)
  }

  lemma Acknowledge(reach: iset<System>, y: System, managers: set<AgentId>, state: MaintenanceState, g: nat)
    returns (z: System)
    requires StepClosed(reach) && y in reach && Quiet(y, managers, state, g)
    requires managers != {} && forall a :: a in managers ==> (a, P.Barrier(g, false)) in y.net.served
    ensures z in reach && Acknowledged(z, managers, state, g)
    ensures z == y.(net := y.net.(db := y.net.db.(acks := z.net.db.acks)))
  {
    var acks := AllAcknowledge(reach, y, managers, g);
    z := y.(net := y.net.(db := y.net.db.(acks := acks)));
  }

  lemma Block(reach: iset<System>, y: System, managers: set<AgentId>, state: MaintenanceState, held: BarrierState,
      v: BarrierState)
    returns (z: System)
    requires StepClosed(reach) && y in reach && Quiet(y, managers, state, v.generation) && !v.open && managers != {}
    requires state == Closing || state == Reconciling
    requires AllIdle(y.machines, managers, held) && Supersedes(v, held)
    ensures z in reach && Acknowledged(z, managers, state, v.generation) && AllIdle(z.machines, managers, v)
    ensures z.net.db == y.net.db.(acks := z.net.db.acks)
  {
    var told := Announce(reach, y, managers, state, held, v);
    z := Acknowledge(reach, told, managers, state, v.generation);
  }

  // ----- the cycle -----

  lemma TakeLease(reach: iset<System>, y: System) returns (z: System, lease: Lease)
    requires StepClosed(reach) && y in reach && LeaseFree(y.net.db)
    ensures z in reach && OwnsLease(z.net.db, lease)
    ensures z == y.(net := y.net.(db := y.net.db.(lease := z.net.db.lease), issued := z.net.issued))
  {
    lease := NextLease(y.net.db, 0);
    z := y.(net := P.NextTakeLease(y.net, 0, 60).value);
    ExtendNet(reach, y, P.Control(P.TakeLease(0, 60)), z.net);
  }

  lemma MoveState(reach: iset<System>, y: System, managers: set<AgentId>, e: P.Transition, state: MaintenanceState,
      g: nat, row: MaintenanceRow)
    returns (z: System)
    requires StepClosed(reach) && y in reach && Quiet(y, managers, state, g)
    requires P.NextMaintain(y.net.db, y.net.agents.Keys, e) == Some(MoveTo(y.net.db, row))
    ensures z in reach && z == y.(net := y.net.(db := MoveTo(y.net.db, row)))
    ensures Quiet(z, managers, row.state, row.generation)
  {
    z := y.(net := y.net.(db := MoveTo(y.net.db, row)));
    ExtendMaintain(reach, y, e, z.net.db);
  }

  /** OPEN at `g`: all managers blocked and acknowledged at `g + 1`. */
  lemma Drain(reach: iset<System>, y: System, managers: set<AgentId>, cluster: string, g: nat) returns (z: System)
    requires StepClosed(reach) && y in reach && Quiet(y, managers, Open, g) && ValidCluster(cluster) && managers != {}
    requires 1 <= g < 0xFFFF_FFFF_FFFF_FFFF
    requires AllIdle(y.machines, managers, BarrierState(cluster, g, true))
    ensures z in reach && Acknowledged(z, managers, Closing, g + 1)
    ensures AllIdle(z.machines, managers, BarrierState(cluster, g + 1, false))
    ensures z.net.db == MoveTo(y.net.db, MaintenanceRow(Closing, g + 1)).(acks := z.net.db.acks)
  {
    z := MoveState(reach, y, managers, P.CloseRequested(g), Open, g, MaintenanceRow(Closing, g + 1));
    z := Block(reach, z, managers, Closing, BarrierState(cluster, g, true), BarrierState(cluster, g + 1, false));
  }

  /** The lease is taken and the drained cluster closed. */
  lemma CloseDrained(reach: iset<System>, y: System, managers: set<AgentId>, g: nat) returns (z: System, lease: Lease)
    requires StepClosed(reach) && y in reach && Acknowledged(y, managers, Closing, g) && g >= 1 && LeaseFree(y.net.db)
    ensures z in reach && Quiet(z, managers, Closed, g + 1) && OwnsLease(z.net.db, lease) && z.machines == y.machines
    ensures z.net.db.audit == y.net.db.audit + [MaintenanceRow(Closed, g + 1)]
  {
    var leased;
    leased, lease := TakeLease(reach, y);
    z := MoveState(reach, leased, managers, P.Close(lease, g), Closing, g, MaintenanceRow(Closed, g + 1));
  }

  /** CLOSED at `g + 2`, with the managers blocked at `g + 1` and the control lease held. */
  lemma Close(reach: iset<System>, y: System, managers: set<AgentId>, cluster: string, g: nat)
    returns (z: System, lease: Lease)
    requires StepClosed(reach) && y in reach && Quiet(y, managers, Open, g) && ValidCluster(cluster) && managers != {}
    requires 1 <= g < 0xFFFF_FFFF_FFFF_FFFF && LeaseFree(y.net.db)
    requires AllIdle(y.machines, managers, BarrierState(cluster, g, true))
    ensures z in reach && Quiet(z, managers, Closed, g + 2) && OwnsLease(z.net.db, lease)
    ensures AllIdle(z.machines, managers, BarrierState(cluster, g + 1, false))
    ensures z.net.db.audit == y.net.db.audit + [MaintenanceRow(Closing, g + 1)] + [MaintenanceRow(Closed, g + 2)]
  {
    var drained := Drain(reach, y, managers, cluster, g);
    z, lease := CloseDrained(reach, drained, managers, g + 1);
  }

  /** CLOSED at `g`: RECONCILING, with all managers blocked and acknowledged at `g + 1`. */
  lemma Reconcile(reach: iset<System>, y: System, managers: set<AgentId>, lease: Lease, cluster: string, g: nat)
    returns (z: System)
    requires StepClosed(reach) && y in reach && Quiet(y, managers, Closed, g) && OwnsLease(y.net.db, lease)
    requires 1 <= g < 0xFFFF_FFFF_FFFF_FFFF && ValidCluster(cluster) && managers != {}
    requires AllIdle(y.machines, managers, BarrierState(cluster, g - 1, false))
    ensures z in reach && Acknowledged(z, managers, Reconciling, g + 1)
    ensures AllIdle(z.machines, managers, BarrierState(cluster, g + 1, false))
    ensures z.net.db == MoveTo(y.net.db, MaintenanceRow(Reconciling, g + 1)).(acks := z.net.db.acks)
  {
    z := MoveState(reach, y, managers, P.Transition.Reconcile(lease, g), Closed, g, MaintenanceRow(Reconciling, g + 1));
    z := Block(reach, z, managers, Reconciling, BarrierState(cluster, g - 1, false),
      BarrierState(cluster, g + 1, false));
  }

  lemma OpenReconciled(reach: iset<System>, y: System, managers: set<AgentId>, lease: Lease, g: nat) returns (z: System)
    requires StepClosed(reach) && y in reach && Acknowledged(y, managers, Reconciling, g) && g >= 1
    requires OwnsLease(y.net.db, lease)
    ensures z in reach && Quiet(z, managers, Open, g + 1) && z.machines == y.machines
    ensures z.net.db.audit == y.net.db.audit + [MaintenanceRow(Open, g + 1)]
  {
    z := MoveState(reach, y, managers, P.Transition.Reopen(lease, g), Reconciling, g, MaintenanceRow(Open, g + 1));
  }

  /** CLOSED at `g`: OPEN at `g + 2`, with the managers still blocked, now at `g + 1`. */
  lemma Reopen(reach: iset<System>, y: System, managers: set<AgentId>, lease: Lease, cluster: string, g: nat)
    returns (z: System)
    requires StepClosed(reach) && y in reach && Quiet(y, managers, Closed, g) && OwnsLease(y.net.db, lease)
    requires 1 <= g < 0xFFFF_FFFF_FFFF_FFFF && ValidCluster(cluster) && managers != {}
    requires AllIdle(y.machines, managers, BarrierState(cluster, g - 1, false))
    ensures z in reach && Quiet(z, managers, Open, g + 2)
    ensures AllIdle(z.machines, managers, BarrierState(cluster, g + 1, false))
    ensures z.net.db.audit == y.net.db.audit + [MaintenanceRow(Reconciling, g + 1)] + [MaintenanceRow(Open, g + 2)]
  {
    var blocked := Reconcile(reach, y, managers, lease, cluster, g);
    z := OpenReconciled(reach, blocked, managers, lease, g + 1);
  }

  /**
   From OPEN at any generation, a cluster whose managers are idle and whose work is done can be
   closed and opened again, and its managers then hold the new generation, open.
   */
  lemma CloseAndReopen(reach: iset<System>, y: System, managers: set<AgentId>, cluster: string, g: nat)
    returns (z: System)
    requires StepClosed(reach) && y in reach && Quiet(y, managers, Open, g) && ValidCluster(cluster) && managers != {}
    requires 1 <= g <= 0xFFFF_FFFF_FFFF_FFFB && LeaseFree(y.net.db)
    requires AllIdle(y.machines, managers, BarrierState(cluster, g, true))
    ensures z in reach && Quiet(z, managers, Open, g + 4)
    ensures AllIdle(z.machines, managers, BarrierState(cluster, g + 4, true))
    ensures z.net.db.audit == y.net.db.audit + [MaintenanceRow(Closing, g + 1), MaintenanceRow(Closed, g + 2),
                                                MaintenanceRow(Reconciling, g + 3), MaintenanceRow(Open, g + 4)]
  {
    var lease;
    z, lease := Close(reach, y, managers, cluster, g);
    z := Reopen(reach, z, managers, lease, cluster, g + 2);
    z := Announce(reach, z, managers, Open, BarrierState(cluster, g + 3, false), BarrierState(cluster, g + 4, true));
  }
}
