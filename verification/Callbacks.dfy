/**
 The locked callbacks of the operation services, statement by statement, while
 every other session keeps working and this one may die at any moment: settle
 earlier work, check for conflicts, record the operation, record its outcome.
 Each is proved to be part of a run of `Work`, so the row it records is alone on
 its resources.
 */
module Callbacks {
  import opened Basics
  import opened MaintenanceDb
  import opened Work
  import opened WorkInvariants
  import opened WorkTheorems
  import W = WorkWitness

  /** An event of anybody but the callback on connection `c`, whose session the server may still end. */
  predicate Foreign(e: Event, c: Conn) {
    match e
    case Lock(d, lock) => d != c || lock == Die
    case Look(d, _) => d != c
    case Put(d, _) => d != c
    case MoveNode(_, _) => true
    case ReadFailed(_) => true
  }

  /** The session is gone, or it is exactly as it was. */
  ghost predicate SameOrGone(s: State, t: State, c: Conn) {
    c in t.sessions ==> c in s.sessions && t.sessions[c] == s.sessions[c]
  }

  lemma ForeignKeepsSession(s: State, e: Event, name: Resource -> Name, t: State, c: Conn)
    requires Next(s, e, name) == Some(t) && Foreign(e, c)
    ensures SameOrGone(s, t, c)
  {
    match e
    case Lock(d, lock) => LockKeepsOthers(s, d, lock, name, t, c);
    case Look(_, _) =>
    case Put(d, write) => WriteKeepsHoldings(s, d, write, t);
    case MoveNode(_, _) =>
    case ReadFailed(_) =>
  }

  lemma LockKeepsOthers(s: State, d: Conn, e: LockEvent, name: Resource -> Name, t: State, c: Conn)
    requires NextLock(s, d, e, name) == Some(t) && (d != c || e == Die)
    ensures SameOrGone(s, t, c)
  {
    match e
    case Begin(_, _) =>
    case GetLock =>
    case StopWaiting(_) =>
    case Finish =>
    case Die =>
  }

  /** No row is deleted or given another target. */
  ghost predicate RowsStay(s: State, t: State) {
    forall o :: o in s.rows ==> o in t.rows && t.rows[o].target == s.rows[o].target
  }

  lemma NextKeepsRows(s: State, e: Event, name: Resource -> Name, t: State)
    requires Next(s, e, name) == Some(t)
    ensures RowsStay(s, t)
  {
    match e
    case Lock(c, lock) => LockKeepsRows(s, c, lock, name, t);
    case Look(_, _) =>
    case Put(_, write) =>
    case MoveNode(_, _) =>
    case ReadFailed(_) =>
  }

  function Members(ids: seq<ServiceId>): set<ServiceId> {
    set x | x in ids
  }

  datatype Result = Recorded | AlreadyRecorded | Refused | Lost

  /** The operation is recorded for its target, and no other unfinished operation shares a resource with it. */
  ghost predicate AloneOn(s: State, op: OpId) {
    op in s.rows &&
    (Unfinished(s.rows[op]) ==> forall o :: o in s.rows && o != op && Unfinished(s.rows[o]) ==>
      !Overlap(s.rows[op].target, s.rows[o].target))
  }

  ghost predicate AllFree(rows: map<OpId, Row>, services: seq<ServiceId>) {
    forall x :: x in services ==> ServiceFree(rows, x) && NoNodeWorkOn(rows, x)
  }

  /** Whatever unfinished operation the service has is a scale or a restart. */
  ghost predicate OnlyPlain(rows: map<OpId, Row>, service: ServiceId) {
    forall o :: o in rows && Drives(rows, service, o) ==> rows[o].target.Plain?
  }

  /** Nothing happened but to the callback's own job, and its session is still there. */
  ghost predicate Steady(s: State, t: State, c: Conn) {
    t == s.(sessions := t.sessions) && (c in s.sessions ==> c in t.sessions)
  }

  /** The row may be written: its keys are new, and a rollback has a failed deployment to roll back. */
  ghost predicate Writable(s: State, service: ServiceId, write: Write) {
    match write
    case CreatePlain(op) => op !in s.rows
    case CreateDeploy(op, d, _, _) => op !in s.rows && d !in s.deployments
    case CreateRollback(op, d, view) =>
      && op !in s.rows && d in s.onceFailed && d in s.deployments
      && s.deployments[d].service == service && RollbackAllowed(view, s.deployments[d])
    case _ => false
  }

  /** The operation row, and the deployment it belongs to, as just written. */
  ghost predicate Written(s: State, service: ServiceId, write: Write) {
    match write
    case CreatePlain(op) => op in s.rows && s.rows[op].target == Plain(service)
    case CreateDeploy(op, d, before, target) =>
      && op in s.rows && s.rows[op].target == DeployOf(service, d) && d in s.deployments
      && s.deployments[d] ==
           Deployment(service, op, before, target, None, if before == target then Checking else Deploying)
    case CreateRollback(op, d, _) =>
      && op in s.rows && s.rows[op].target == RollbackOf(service, d)
      && d in s.deployments && s.deployments[d].rollback == Some(op) && s.deployments[d].status == RollingBack
    case _ => false
  }

  class Tables {
    var s: State
    const name: Resource -> Name
    const alone: bool   // nobody else takes a step
    ghost var run: seq<Event>

    ghost predicate Valid()
      reads this
    {
      Reaches(run, name, s)
    }

    constructor(n: Resource -> Name, alone: bool)
      ensures Valid() && s == Empty && name == n && this.alone == alone
    {
      s, name, run, this.alone := Empty, n, [], alone;
    }

    method Do(e: Event) returns (ok: bool)
      requires Valid()
      modifies this
      ensures Valid() && (ok <==> Next(old(s), e, name).Some?)
      ensures ok ==> Next(old(s), e, name) == Some(s)
      ensures !ok ==> s == old(s)
      ensures RowsStay(old(s), s)
    {
      match Next(s, e, name)
      case None => ok := false;
      case Some(t) =>
        W.RunSnoc(Empty, run, name, s, e);
        NextKeepsRows(s, e, name, t);
        s, run, ok := t, run + [e], true;
    }

    /** Everybody else takes any number of steps. */
    method Others(c: Conn)
      requires Valid()
      modifies this
      ensures Valid() && SameOrGone(old(s), s, c) && RowsStay(old(s), s)
      ensures alone ==> s == old(s)
    {
      var n: nat := *;
      if alone {
        n := 0;
      }
      while n > 0
        invariant Valid() && SameOrGone(old(s), s, c) && RowsStay(old(s), s)
        invariant alone ==> s == old(s) && n == 0
      {
        var e: Event := *;
        if Foreign(e, c) {
          ghost var before := s;
          var ok := Do(e);
          if ok {
            ForeignKeepsSession(before, e, name, s, c);
          }
        }
        n := n - 1;
      }
    }

    /** The callback is inside its locks with this job, unless its session is gone. */
    ghost predicate Has(c: Conn, job: Job)
      reads this
    {
      c in s.sessions ==> Inside(s.sessions[c]) && s.sessions[c].job == job
    }

    /** A read under the locks; `false` when the session is gone or the check does not hold. */
    method Check(c: Conn, check: Check, job: Job) returns (ok: bool, after: Job)
      requires Valid() && Has(c, job)
      modifies this
      ensures Valid() && Has(c, after)
      ensures ok ==> c in s.sessions && NextCheck(s.rows, job, check) == Some(after)
      ensures !ok ==> after == job && (c in s.sessions ==> NextCheck(s.rows, job, check).None?)
      ensures RowsStay(old(s), s) && (alone ==> Steady(old(s), s, c))
    {
      Others(c);
      ok := Do(Look(c, check));
      after := if ok then s.sessions[c].job else job;
    }

    /**
     Settles an earlier operation of the service: it must end up finished, and then nothing is
     looked up again. `reconciled` is the status that inspecting the service shows for it. `false`
     only when the service still has an unfinished operation.
     */
    method ResolvePrior(c: Conn, job: Job, reconciled: Status) returns (ok: bool, after: Job)
      requires Valid() && Has(c, job) && job.OnService?
      modifies this
      ensures Valid() && Has(c, after) && after.OnService? && after.service == job.service
      ensures ok ==> after.serviceClear
      ensures !ok && c in s.sessions ==> !ServiceFree(s.rows, job.service)
      ensures alone && ServiceFree(old(s).rows, job.service) ==> Steady(old(s), s, c)
      ensures alone && c in old(s).sessions && OnlyPlain(old(s).rows, job.service) && Terminal(reconciled) ==> ok
    {
      Others(c);
      var found := set o | o in s.rows && Drives(s.rows, job.service, o);
      if found == {} {
        ServiceIsFree(s.rows, job.service, found);
        ok := Do(Look(c, SeeServiceFree));
        after := if ok then s.sessions[c].job else job;
        return;
      }
      var prior :| prior in found;
      ok, after := SettlePrior(c, job, prior, reconciled);
    }

    /** Only a scale or restart is reconciled here, and it must then be finished. */
    method SettlePrior(c: Conn, job: Job, prior: OpId, reconciled: Status) returns (ok: bool, after: Job)
      requires Valid() && Has(c, job) && job.OnService? && Drives(s.rows, job.service, prior)
      modifies this
      ensures Valid() && Has(c, after) && after.OnService? && after.service == job.service
      ensures ok ==> after.serviceClear
      ensures !ok && c in s.sessions ==> !ServiceFree(s.rows, job.service)
      ensures alone && c in old(s).sessions && old(s).rows[prior].target.Plain? && Terminal(reconciled) ==> ok
    {
      ok := Do(Look(c, FindPrior(prior)));
      after := if ok then s.sessions[c].job else job;
      if !ok || !s.rows[prior].target.Plain? {
        return false, after;
      }
      after := Reconcile(c, after, prior, reconciled);
      ok, after := Check(c, PriorSettled, after);
    }

    /** Takes over an unfinished scale or restart and records what inspecting the service showed. */
    method Reconcile(c: Conn, job: Job, op: OpId, status: Status) returns (after: Job)
      requires Valid() && Has(c, job) && job.OnService?
      modifies this
      ensures Valid() && Has(c, after) && after.OnService?
      ensures after.service == job.service && after.prior == job.prior && RowsStay(old(s), s)
      ensures alone && c in old(s).sessions && Drives(old(s).rows, job.service, op) ==>
                old(s).rows[op].target.Plain? ==> c in s.sessions && s.rows[op].status == status
    {
      var ok;
      ok, after := Check(c, Adopt(op), job);
      if ok {
        Others(c);
        ok := Do(Put(c, PersistPlain(status)));
        after := if ok then s.sessions[c].job else after;
      }
    }

    /** Records a scale, restart, deploy or rollback after both conflict checks. */
    method StartServiceOperation(c: Conn, service: ServiceId, op: OpId, write: Write, reconciled: Status)
      returns (result: Result)
      requires Valid() && Has(c, OnService(service, None, false, false, None))
      requires write == CreatePlain(op) || (write.CreateDeploy? && write.op == op) ||
                 (write.CreateRollback? && write.op == op)
      modifies this
      ensures Valid()
      ensures result == Recorded ==> AloneOn(s, op) && s.rows[op] == Row(s.rows[op].target, Running) &&
                                     OnServiceTable(s.rows[op].target) && s.rows[op].target.service == service
      ensures result == AlreadyRecorded ==> op in s.rows
      ensures result == Refused && c in s.sessions ==> !ServiceFree(s.rows, service) || !NoNodeWorkOn(s.rows, service)
      ensures result == Lost && c in s.sessions ==> !Writable(s, service, write)
      ensures result == Recorded ==> Written(s, service, write)
      ensures alone && c in old(s).sessions && ServiceFree(old(s).rows, service) ==>
                NoNodeWorkOn(old(s).rows, service) && Writable(old(s), service, write) ==> result == Recorded
    {
      var job := OnService(service, None, false, false, None);
      Others(c);
      if op in s.rows {
        return AlreadyRecorded;
      }
      var ok;
      if write.CreatePlain? {
        ok, job := ResolvePrior(c, job, reconciled);
      } else {
        ok, job := Check(c, SeeServiceFree, job);
      }
      if !ok {
        return Refused;
      }
      ok, job := Check(c, SeeNoNodeWork, job);
      if !ok {
        return Refused;
      }
      Others(c);
      ok := Do(Put(c, write));
      if !ok {
        return Lost;
      }
      Alone(run, name, s, op);
      return Recorded;
    }

    /** Records a node operation after every affected service was found free, one after the other. */
    method StartNodeOperation(c: Conn, node: NodeId, affected: seq<ServiceId>, op: OpId, reconciled: Status)
      returns (result: Result)
      requires Valid() && Has(c, OnNode(node, Members(affected), None, false, {}))
      modifies this
      ensures Valid()
      ensures result == Recorded ==> AloneOn(s, op) && s.rows[op] == Row(NodeWork(node, Members(affected)), Running)
      ensures result == AlreadyRecorded ==> op in s.rows
      ensures result == Refused && c in s.sessions ==>
                !NodeFree(s.rows, node) ||
                  exists x :: x in affected && !(ServiceFree(s.rows, x) && NoNodeWorkOn(s.rows, x))
      ensures result == Lost && c in s.sessions ==> op in s.rows
      ensures alone && c in old(s).sessions && op !in old(s).rows && NodeFree(old(s).rows, node) ==>
                AllFree(old(s).rows, affected) ==> result == Recorded
    {
      var job := OnNode(node, Members(affected), None, false, {});
      Others(c);
      if op in s.rows {
        return AlreadyRecorded;
      }
      var ok;
      ok, job := ResolveNodePrior(c, job, reconciled);
      if !ok {
        return Refused;
      }
      ok, job := CheckAffected(c, job, affected);
      if !ok {
        return Refused;
      }
      Others(c);
      ok := Do(Put(c, CreateNode(op)));
      if !ok {
        return Lost;
      }
      Alone(run, name, s, op);
      return Recorded;
    }

    /** The node has no unfinished operation, or the one it has is settled now. */
    method ResolveNodePrior(c: Conn, job: Job, reconciled: Status) returns (ok: bool, after: Job)
      requires Valid() && Has(c, job) && job.OnNode?
      modifies this
      ensures Valid() && Has(c, after) && after.OnNode? && after.node == job.node && after.affected == job.affected
      ensures ok ==> after.nodeFree
      ensures !ok && c in s.sessions ==> !NodeFree(s.rows, job.node)
      ensures alone && NodeFree(old(s).rows, job.node) ==> Steady(old(s), s, c)
      ensures alone && c in old(s).sessions && Terminal(reconciled) ==> ok
    {
      Others(c);
      var found := set o | o in s.rows && Unfinished(s.rows[o]) && SameKind(s.rows[o].target, job);
      if found == {} {
        NodeIsFree(s.rows, job, found);
        ok := Do(Look(c, SeeNodeFree));
        after := if ok then s.sessions[c].job else job;
        return;
      }
      var prior :| prior in found;
      ok, after := SettleNodePrior(c, job, prior, reconciled);
    }

    /** The operation found is reconciled, and must then be finished. */
    method SettleNodePrior(c: Conn, job: Job, prior: OpId, reconciled: Status) returns (ok: bool, after: Job)
      requires Valid() && Has(c, job) && job.OnNode?
      requires prior in s.rows && Unfinished(s.rows[prior]) && SameKind(s.rows[prior].target, job)
      modifies this
      ensures Valid() && Has(c, after) && after.OnNode? && after.node == job.node && after.affected == job.affected
      ensures ok ==> after.nodeFree
      ensures !ok && c in s.sessions ==> !NodeFree(s.rows, job.node)
      ensures alone && c in old(s).sessions && Terminal(reconciled) ==> ok
    {
      ok := Do(Look(c, FindPrior(prior)));
      after := if ok then s.sessions[c].job else job;
      if !ok {
        return;
      }
      var moved := Do(MoveNode(prior, reconciled));
      ok, after := Check(c, PriorSettled, after);
    }

    method CheckAffected(c: Conn, job: Job, affected: seq<ServiceId>) returns (ok: bool, after: Job)
      requires Valid() && Has(c, job) && job.OnNode? && job.nodeFree && job.affected == Members(affected)
      modifies this
      ensures Valid() && Has(c, after) && after.OnNode? && after.node == job.node && after.affected == job.affected
      ensures ok ==> after.nodeFree && after.affected <= after.cleared
      ensures !ok && c in s.sessions ==>
                exists x :: x in affected && !(ServiceFree(s.rows, x) && NoNodeWorkOn(s.rows, x))
      ensures alone ==> Steady(old(s), s, c)
    {
      after := job;
      for i := 0 to |affected|
        invariant Valid() && Has(c, after) && after.OnNode? && after.node == job.node && after.affected == job.affected
        invariant after.nodeFree && (alone ==> Steady(old(s), s, c))
        invariant forall k :: 0 <= k < i ==> affected[k] in after.cleared
      {
        ok, after := Check(c, SeeAffectedFree(affected[i]), after);
        if !ok {
          return;
        }
      }
      return true, after;
    }
  }

  lemma ServiceIsFree(rows: map<OpId, Row>, service: ServiceId, found: set<OpId>)
    requires found == (set o | o in rows && Drives(rows, service, o)) == {}
    ensures ServiceFree(rows, service)
  {
    assert forall o :: o in rows && Drives(rows, service, o) ==> o in found;
  }

  lemma NodeIsFree(rows: map<OpId, Row>, job: Job, found: set<OpId>)
    requires job.OnNode? && found == (set o | o in rows && Unfinished(rows[o]) && SameKind(rows[o].target, job)) == {}
    ensures NodeFree(rows, job.node)
  {
    assert forall o :: o in rows && Unfinished(rows[o]) && SameKind(rows[o].target, job) ==> o in found;
  }

  lemma Alone(run: seq<Event>, name: Resource -> Name, s: State, op: OpId)
    requires Reaches(run, name, s) && op in s.rows
    ensures AloneOn(s, op)
  {
    ReachableInv(run, name, s);
  }
}
