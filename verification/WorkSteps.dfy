/** Every write of the operation and deployment system keeps its invariant. */
module WorkSteps {
  import opened Basics
  import opened MaintenanceDb
  import opened Work
  import opened WorkInvariants

  // ----- creating rows -----

  lemma NewRowKeepsDeployments(rows: map<OpId, Row>, deployments: map<DeploymentId, Deployment>, op: OpId, row: Row)
    requires DeploymentsOk(deployments, rows) && op !in rows
    ensures DeploymentsOk(deployments, rows[op := row])
  {
    forall d | d in deployments ensures DeploymentOk(d, deployments[d], rows[op := row]) {
      assert DeploymentOk(d, deployments[d], rows);
    }
  }

  /** What creating a service operation does to locks, knowledge and exclusion, whatever kind it is. */
  lemma CreateServiceRow(s: State, name: Resource -> Name, c: Conn, op: OpId, target: Target)
    requires LocksOk(s.sessions, s.locks) && CoversOk(s.sessions, name) && JobsOk(s.sessions, s.rows)
    requires ExclusionOk(s.rows)
    requires c in s.sessions && Inside(s.sessions[c]) && op !in s.rows && MayCreate(s.sessions[c].job)
    requires OnServiceTable(target) && target.service == s.sessions[c].job.service
    ensures var rows := s.rows[op := Row(target, Running)];
            var sessions := s.sessions[c := s.sessions[c].(job := Created(s.sessions[c].job, op))];
            LocksOk(sessions, s.locks) && CoversOk(sessions, name) && JobsOk(sessions, rows) && ExclusionOk(rows)
  {
    var job := s.sessions[c].job;
    assert JobOk(job, s.rows);
    ServiceUnclaimed(s.rows, target);
    NewRowKeepsExclusion(s.rows, op, Row(target, Running));
    NewJobKeepsSessions(s, c, Created(job, op), name);
    assert Resources(target) == Needs(job);
    CreateKeepsJobs(s, name, c, op, Row(target, Running), Created(job, op));
  }

  lemma CreatePlainKeepsInv(s: State, name: Resource -> Name, c: Conn, op: OpId, t: State)
    requires Inv(s, name) && c in s.sessions && Inside(s.sessions[c]) && NextWrite(s, c, CreatePlain(op)) == Some(t)
    ensures Inv(t, name)
  {
    CreateServiceRow(s, name, c, op, Plain(s.sessions[c].job.service));
    NewRowKeepsDeployments(s.rows, s.deployments, op, Row(Plain(s.sessions[c].job.service), Running));
  }

  lemma CreateDeployKeepsInv(s: State, name: Resource -> Name, c: Conn, op: OpId, d: DeploymentId,
      before: SpecHash, target: SpecHash, t: State)
    requires Inv(s, name) && c in s.sessions && Inside(s.sessions[c])
    requires NextWrite(s, c, CreateDeploy(op, d, before, target)) == Some(t)
    ensures Inv(t, name)
  {
    CreateServiceRow(s, name, c, op, DeployOf(s.sessions[c].job.service, d));
    DeployKeepsTables(s.rows, s.deployments, op, d, t.deployments[d]);
  }

  lemma DeployKeepsTables(rows: map<OpId, Row>, deployments: map<DeploymentId, Deployment>, op: OpId, d: DeploymentId,
      added: Deployment)
    requires DeploymentsOk(deployments, rows) && RowsOk(rows, deployments) && op !in rows && d !in deployments
    requires added.op == op && added.rollback.None? && added.status in {Deploying, Checking}
    ensures var rows2 := rows[op := Row(DeployOf(added.service, d), Running)];
            DeploymentsOk(deployments[d := added], rows2) && RowsOk(rows2, deployments[d := added])
  {
    var row := Row(DeployOf(added.service, d), Running);
    NewRowKeepsDeployments(rows, deployments, op, row);
    forall o | o in rows ensures RowOk(o, rows[o], deployments[d := added]) {
      assert RowOk(o, rows[o], deployments);
    }
  }

  /** With no unfinished operation on its service, a deployment's operations are all finished. */
  lemma IdleDeployment(s: State, name: Resource -> Name, d: DeploymentId)
    requires Inv(s, name) && d in s.deployments && ServiceFree(s.rows, s.deployments[d].service)
    ensures DeploymentOk(d, s.deployments[d], s.rows)
    ensures Terminal(s.rows[s.deployments[d].op].status) && Terminal(s.rows[Driver(s.deployments[d])].status)
    ensures s.deployments[d].status in {Succeeded, DeployFailed, RolledBack}
  {
    assert DeploymentOk(d, s.deployments[d], s.rows);
  }

  lemma CreateRollbackKeepsInv(s: State, name: Resource -> Name, c: Conn, op: OpId, d: DeploymentId, view: ServiceView,
      t: State)
    requires Inv(s, name) && c in s.sessions && Inside(s.sessions[c])
    requires NextWrite(s, c, CreateRollback(op, d, view)) == Some(t)
    ensures Inv(t, name)
  {
    var target := RollbackOf(s.sessions[c].job.service, d);
    CreateServiceRow(s, name, c, op, target);
    assert JobOk(s.sessions[c].job, s.rows);
    assert DeploymentOk(d, s.deployments[d], s.rows);
    RollbackKeepsTables(s.rows, s.deployments, op, d);
  }

  lemma RollbackKeepsTables(rows: map<OpId, Row>, deployments: map<DeploymentId, Deployment>, op: OpId, d: DeploymentId)
    requires DeploymentsOk(deployments, rows) && RowsOk(rows, deployments)
    requires op !in rows && d in deployments && ServiceFree(rows, deployments[d].service)
    requires deployments[d].op in rows && rows[deployments[d].op].status == Failed
    ensures var rows2 := rows[op := Row(RollbackOf(deployments[d].service, d), Running)];
            var deployments2 := deployments[d := deployments[d].(rollback := Some(op), status := RollingBack)];
            DeploymentsOk(deployments2, rows2) && RowsOk(rows2, deployments2)
  {
    var row := Row(RollbackOf(deployments[d].service, d), Running);
    var deployments2 := deployments[d := deployments[d].(rollback := Some(op), status := RollingBack)];
    NewRowKeepsDeployments(rows, deployments, op, row);
    assert DeploymentOk(d, deployments[d], rows);
    forall e | e in deployments2 ensures DeploymentOk(e, deployments2[e], rows[op := row]) {
      assert DeploymentOk(e, deployments[e], rows[op := row]);
    }
    forall o | o in rows ensures RowOk(o, rows[o], deployments2) {
      assert RowOk(o, rows[o], deployments);
    }
  }

  lemma CreateNodeKeepsInv(s: State, name: Resource -> Name, c: Conn, op: OpId, t: State)
    requires Inv(s, name) && c in s.sessions && Inside(s.sessions[c]) && NextWrite(s, c, CreateNode(op)) == Some(t)
    ensures Inv(t, name)
  {
    var job := s.sessions[c].job;
    var row := Row(NodeWork(job.node, job.affected), Running);
    var after := job.(nodePrior := None, nodeFree := false, cleared := {});
    assert JobOk(job, s.rows);
    NodeUnclaimed(s.rows, row.target);
    NewRowKeepsExclusion(s.rows, op, row);
    assert Needs(after) == Needs(job);
    NewJobKeepsSessions(s, c, after, name);
    CreateKeepsJobs(s, name, c, op, row, after);
    NewRowKeepsDeployments(s.rows, s.deployments, op, row);
  }

  // ----- moving rows -----

  /** The rows are the same operations on the same targets, and nothing finished was reopened. */
  ghost predicate Moved(rows: map<OpId, Row>, after: map<OpId, Row>) {
    && after.Keys == rows.Keys
    && (forall o :: o in rows ==> after[o].target == rows[o].target && (Unfinished(after[o]) ==> Unfinished(rows[o])))
  }

  lemma MovedKeepsExclusion(rows: map<OpId, Row>, after: map<OpId, Row>)
    requires ExclusionOk(rows) && Moved(rows, after)
    ensures ExclusionOk(after)
  {
  }

  lemma MovedKeepsJob(rows: map<OpId, Row>, after: map<OpId, Row>, job: Job)
    requires JobOk(job, rows) && Moved(rows, after)
    requires job.OnService? && job.driving.Some? ==> job.driving.value in after && Unfinished(after[job.driving.value])
    ensures JobOk(job, after)
  {
  }

  lemma SetStatusMoves(rows: map<OpId, Row>, op: OpId, status: Status)
    ensures Moved(rows, SetStatus(rows, op, status))
  {
  }

  lemma MoveNodeKeepsInv(s: State, name: Resource -> Name, op: OpId, status: Status, t: State)
    requires Inv(s, name) && Next(s, MoveNode(op, status), name) == Some(t)
    ensures Inv(t, name)
  {
    SetStatusMoves(s.rows, op, status);
    MovedKeepsExclusion(s.rows, t.rows);
    forall c | c in t.sessions
      ensures if Inside(t.sessions[c]) then JobOk(t.sessions[c].job, t.rows) else Blank(t.sessions[c].job)
    {
      if Inside(t.sessions[c]) { MovedKeepsJob(s.rows, t.rows, t.sessions[c].job); }
    }
    UnrelatedMoveKeepsTables(s.rows, s.deployments, op, status);
  }

  /** Moving a row that is no deploy and no rollback leaves the deployment table consistent. */
  lemma UnrelatedMoveKeepsTables(rows: map<OpId, Row>, deployments: map<DeploymentId, Deployment>, op: OpId,
      status: Status)
    requires DeploymentsOk(deployments, rows) && RowsOk(rows, deployments)
    requires op in rows ==> rows[op].target.NodeWork? || rows[op].target.Plain?
    ensures DeploymentsOk(deployments, SetStatus(rows, op, status)) && RowsOk(SetStatus(rows, op, status), deployments)
  {
    var after := SetStatus(rows, op, status);
    forall d | d in deployments ensures DeploymentOk(d, deployments[d], after) {
      assert DeploymentOk(d, deployments[d], rows);
    }
    forall o | o in after ensures RowOk(o, after[o], deployments) {
      assert RowOk(o, rows[o], deployments);
    }
  }

  /** What the driver of an operation may rely on, and what moving it leaves to everybody else. */
  lemma DriverMovesAlone(s: State, name: Resource -> Name, c: Conn, status: Status, after: Job)
    requires LocksOk(s.sessions, s.locks) && CoversOk(s.sessions, name) && JobsOk(s.sessions, s.rows)
    requires ExclusionOk(s.rows)
    requires c in s.sessions && Inside(s.sessions[c]) && s.sessions[c].job.OnService? && s.sessions[c].job.driving.Some?
    requires after == if Terminal(status) then s.sessions[c].job.(driving := None) else s.sessions[c].job
    ensures var op := s.sessions[c].job.driving.value;
            var rows := SetStatus(s.rows, op, status);
            var sessions := s.sessions[c := s.sessions[c].(job := after)];
            && Drives(s.rows, s.sessions[c].job.service, op)
            && LocksOk(sessions, s.locks) && CoversOk(sessions, name) && JobsOk(sessions, rows) && ExclusionOk(rows)
  {
    var job := s.sessions[c].job;
    var op := job.driving.value;
    var rows := SetStatus(s.rows, op, status);
    var sessions := s.sessions[c := s.sessions[c].(job := after)];
    assert JobOk(job, s.rows);
    SetStatusMoves(s.rows, op, status);
    MovedKeepsExclusion(s.rows, rows);
    NewJobKeepsSessions(s, c, after, name);
    forall d | d in sessions
      ensures if Inside(sessions[d]) then JobOk(sessions[d].job, rows) else Blank(sessions[d].job)
    {
      if d == c {
        JobWithoutDriver(s.rows, job);
        MovedKeepsJob(s.rows, rows, after);
      } else if Inside(sessions[d]) {
        assert JobOk(s.sessions[d].job, s.rows);
        Disjoint(s, name, c, d);
        OtherDriver(s.rows, job, s.sessions[d].job);
        MovedKeepsJob(s.rows, rows, s.sessions[d].job);
      }
    }
  }

  lemma JobWithoutDriver(rows: map<OpId, Row>, job: Job)
    requires JobOk(job, rows) && job.OnService?
    ensures JobOk(job.(driving := None), rows)
  {
    assert forall p :: OnlyUnresolved(rows, job, p) ==> OnlyUnresolved(rows, job.(driving := None), p);
  }

  /** Callbacks on different services drive different operations. */
  lemma OtherDriver(rows: map<OpId, Row>, job: Job, other: Job)
    requires JobOk(job, rows) && JobOk(other, rows) && Needs(job) !! Needs(other)
    ensures job.OnService? && other.OnService? && job.driving.Some? && other.driving.Some? ==>
              job.driving != other.driving
  {
    if job.OnService? && other.OnService? {
      assert ServiceLock(job.service) in Needs(job) && ServiceLock(other.service) in Needs(other);
    }
  }

  lemma PersistPlainKeepsInv(s: State, name: Resource -> Name, c: Conn, status: Status, t: State)
    requires Inv(s, name) && c in s.sessions && Inside(s.sessions[c])
    requires NextWrite(s, c, PersistPlain(status)) == Some(t)
    ensures Inv(t, name)
  {
    DriverMovesAlone(s, name, c, status, t.sessions[c].job);
    UnrelatedMoveKeepsTables(s.rows, s.deployments, s.sessions[c].job.driving.value, status);
  }

  // ----- the paired updates -----

  lemma PairsAreInTable(step: Step)
    ensures PairTable(false, DeployPair(step).0, DeployPair(step).1)
    ensures PairTable(true, RollbackPair(step).0, RollbackPair(step).1)
  {
  }

  /** The driven operation is its deployment's driver, so writing both rows keeps them in the table. */
  lemma PairKeepsTables(rows: map<OpId, Row>, deployments: map<DeploymentId, Deployment>, op: OpId, status: Status,
      written: DeploymentStatus)
    requires DeploymentsOk(deployments, rows) && RowsOk(rows, deployments) && op in rows && Unfinished(rows[op])
    requires rows[op].target.DeployOf? || rows[op].target.RollbackOf?
    requires PairTable(rows[op].target.RollbackOf?, written, status)
    ensures DeploymentsOk(SetDeployment(deployments, rows[op].target.deployment, written), SetStatus(rows, op, status))
    ensures RowsOk(SetStatus(rows, op, status), SetDeployment(deployments, rows[op].target.deployment, written))
  {
    var d := rows[op].target.deployment;
    var rows2, deployments2 := SetStatus(rows, op, status), SetDeployment(deployments, d, written);
    assert RowOk(op, rows[op], deployments);
    assert DeploymentOk(d, deployments[d], rows);
    assert Driver(deployments[d]) == op;
    forall e | e in deployments2 ensures DeploymentOk(e, deployments2[e], rows2) {
      assert DeploymentOk(e, deployments[e], rows);
    }
    forall o | o in rows2 ensures RowOk(o, rows2[o], deployments2) {
      assert RowOk(o, rows[o], deployments);
    }
  }

  lemma PersistKeepsSeen(s: State, name: Resource -> Name, c: Conn, step: Step, t: State)
    requires Inv(s, name) && c in s.sessions && Inside(s.sessions[c]) && NextPersist(s, c, step) == Some(t)
    requires Drives(s.rows, s.sessions[c].job.service, s.sessions[c].job.driving.value)
    ensures SeenOk(t.onceFailed, t.deployments)
  {
    var op := s.sessions[c].job.driving.value;
    var d := s.rows[op].target.deployment;
    assert RowOk(op, s.rows[op], s.deployments) && DeploymentOk(d, s.deployments[d], s.rows);
  }

  lemma PersistKeepsInv(s: State, name: Resource -> Name, c: Conn, step: Step, t: State)
    requires Inv(s, name) && c in s.sessions && Inside(s.sessions[c]) && NextPersist(s, c, step) == Some(t)
    ensures Inv(t, name)
  {
    var target := s.rows[s.sessions[c].job.driving.value].target;
    var pair := if target.DeployOf? then DeployPair(step) else RollbackPair(step);
    DriverMovesAlone(s, name, c, pair.1, t.sessions[c].job);
    PairsAreInTable(step);
    PairKeepsTables(s.rows, s.deployments, s.sessions[c].job.driving.value, pair.1, pair.0);
    PersistKeepsSeen(s, name, c, step, t);
  }

  lemma NextKeepsInv(s: State, e: Event, name: Resource -> Name, t: State)
    requires Inv(s, name) && Next(s, e, name) == Some(t)
    ensures Inv(t, name)
  {
    match e
    case Lock(c, lock) => LockKeepsInv(s, c, lock, name, t);
    case Look(c, check) => CheckKeepsInv(s, c, check, name, t);
    case Put(c, write) => WriteKeepsInv(s, name, c, write, t);
    case MoveNode(op, status) => MoveNodeKeepsInv(s, name, op, status, t);
    case ReadFailed(d) =>
  }

  lemma WriteKeepsInv(s: State, name: Resource -> Name, c: Conn, e: Write, t: State)
    requires Inv(s, name) && c in s.sessions && Inside(s.sessions[c]) && NextWrite(s, c, e) == Some(t)
    ensures Inv(t, name)
  {
    match e
    case CreatePlain(op) => CreatePlainKeepsInv(s, name, c, op, t);
    case CreateDeploy(op, d, before, target) => CreateDeployKeepsInv(s, name, c, op, d, before, target, t);
    case CreateRollback(op, d, view) => CreateRollbackKeepsInv(s, name, c, op, d, view, t);
    case CreateNode(op) => CreateNodeKeepsInv(s, name, c, op, t);
    case Persist(step) => PersistKeepsInv(s, name, c, step, t);
    case PersistPlain(status) => PersistPlainKeepsInv(s, name, c, status, t);
  }

  lemma RunKeepsInv(s: State, run: seq<Event>, name: Resource -> Name, t: State)
    requires Inv(s, name) && Run(s, run, name) == Some(t)
    ensures Inv(t, name)
    decreases |run|
  {
    if run == [] {
    } else {
      var u := Next(s, run[0], name).value;
      NextKeepsInv(s, run[0], name, u);
      RunKeepsInv(u, run[1..], name, t);
    }
  }
}
