/** What every step of the operation and deployment system keeps. */
module WorkInvariants {
  import opened Basics
  import opened MaintenanceDb
  import opened Repositories
  import opened Work

  // ----- locks -----

  ghost predicate SessionOk(c: Conn, x: Session, locks: map<Name, Conn>) {
    && x.got <= |x.wanted|
    && StrictlyIncreasing(x.wanted)
    && (forall i :: 0 <= i < x.got ==> x.wanted[i] in locks && locks[x.wanted[i]] == c)
  }

  ghost predicate LocksOk(sessions: map<Conn, Session>, locks: map<Name, Conn>) {
    forall c :: c in sessions ==> SessionOk(c, sessions[c], locks)
  }

  ghost predicate Covers(x: Session, name: Resource -> Name) {
    forall r :: r in Needs(x.job) ==> name(r) in SetOf(x.wanted)
  }

  ghost predicate CoversOk(sessions: map<Conn, Session>, name: Resource -> Name) {
    forall c :: c in sessions ==> Covers(sessions[c], name)
  }

  // ----- knowledge -----

  ghost predicate OnlyUnresolved(rows: map<OpId, Row>, job: Job, p: OpId) {
    forall o :: o in rows && Unfinished(rows[o]) && SameKind(rows[o].target, job) ==> o == p
  }

  /** The operations a callback's prior lookup ranges over. */
  predicate SameKind(t: Target, job: Job) {
    if job.OnService? then OnServiceTable(t) && t.service == job.service else t.NodeWork? && t.node == job.node
  }

  predicate Drives(rows: map<OpId, Row>, service: ServiceId, o: OpId) {
    o in rows && Unfinished(rows[o]) && OnServiceTable(rows[o].target) && rows[o].target.service == service
  }

  ghost predicate JobOk(job: Job, rows: map<OpId, Row>) {
    match job
    case OnService(service, prior, serviceClear, nodeClear, driving) =>
         && (prior.Some? ==> OnlyUnresolved(rows, job, prior.value))
         && (serviceClear ==> ServiceFree(rows, service))
         && (nodeClear ==> NoNodeWorkOn(rows, service))
         && (driving.Some? ==> Drives(rows, service, driving.value))
    case OnNode(node, affected, nodePrior, nodeFree, cleared) =>
         && (nodePrior.Some? ==> OnlyUnresolved(rows, job, nodePrior.value))
         && (nodeFree ==> NodeFree(rows, node))
         && (forall x :: x in cleared ==> ServiceFree(rows, x) && NoNodeWorkOn(rows, x))
         && cleared <= affected
  }

  ghost predicate JobsOk(sessions: map<Conn, Session>, rows: map<OpId, Row>) {
    forall c :: c in sessions ==> if Inside(sessions[c]) then JobOk(sessions[c].job, rows) else Blank(sessions[c].job)
  }

  // ----- exclusion -----

  /** Two rows work on a common service, or are operations of one node. */
  ghost predicate Overlap(t: Target, u: Target) {
    || (t.NodeWork? && u.NodeWork? && t.node == u.node)
    || (exists x :: Touches(t, x) && Touches(u, x))
  }

  ghost predicate ExclusionOk(rows: map<OpId, Row>) {
    forall o, p :: o in rows && p in rows && o != p && Unfinished(rows[o]) && Unfinished(rows[p]) ==>
      !Overlap(rows[o].target, rows[p].target)
  }

  // ----- deployments -----

  /** The operation that decides a deployment's status: its latest rollback, or else its deploy. */
  function Driver(d: Deployment): OpId {
    if d.rollback.Some? then d.rollback.value else d.op
  }

  predicate PairTable(rolledBack: bool, deployment: DeploymentStatus, operation: Status) {
    if rolledBack then
      match deployment
      case RollingBack => operation == Running
      case RollbackChecking => operation == Verifying
      case RolledBack => operation == Success
      case RollbackFailed => operation == NeedsAttention
      case Attention => operation == NeedsAttention
      case DeployFailed => operation == Failed
      case _ => false
    else
      match deployment
      case Deploying => operation == Running
      case Checking => operation == Running || operation == Verifying
      case Succeeded => operation == Success
      case DeployFailed => operation == Failed
      case Attention => operation == NeedsAttention
      case _ => false
  }

  ghost predicate DeploymentOk(id: DeploymentId, d: Deployment, rows: map<OpId, Row>) {
    && d.op in rows && rows[d.op].target == DeployOf(d.service, id)
    && (d.rollback.Some? ==>
          d.rollback.value in rows && rows[d.rollback.value].target == RollbackOf(d.service, id) &&
            rows[d.op].status == Failed)
    && PairTable(d.rollback.Some?, d.status, rows[Driver(d)].status)
  }

  ghost predicate RowOk(o: OpId, row: Row, deployments: map<DeploymentId, Deployment>) {
    match row.target
    case DeployOf(service, d) => d in deployments && deployments[d].op == o && deployments[d].service == service
    case RollbackOf(service, d) =>
      d in deployments && deployments[d].service == service && (Unfinished(row) ==> deployments[d].rollback == Some(o))
    case _ => true
  }

  ghost predicate DeploymentsOk(deployments: map<DeploymentId, Deployment>, rows: map<OpId, Row>) {
    forall d :: d in deployments ==> DeploymentOk(d, deployments[d], rows)
  }

  ghost predicate RowsOk(rows: map<OpId, Row>, deployments: map<DeploymentId, Deployment>) {
    forall o :: o in rows ==> RowOk(o, rows[o], deployments)
  }

  /** A deployment seen FAILED is still FAILED or has a rollback since. */
  ghost predicate SeenOk(onceFailed: set<DeploymentId>, deployments: map<DeploymentId, Deployment>) {
    forall d :: d in onceFailed ==>
      d in deployments && (deployments[d].rollback.Some? || deployments[d].status == DeployFailed)
  }

  ghost predicate Inv(s: State, name: Resource -> Name) {
    && LocksOk(s.sessions, s.locks) && CoversOk(s.sessions, name)
    && JobsOk(s.sessions, s.rows)
    && ExclusionOk(s.rows)
    && DeploymentsOk(s.deployments, s.rows) && RowsOk(s.rows, s.deployments)
    && SeenOk(s.onceFailed, s.deployments)
  }

  // ----- lock steps -----

  lemma FreedKeepsLocks(s: State, c: Conn)
    requires LocksOk(s.sessions, s.locks) && c in s.sessions
    ensures LocksOk(Freed(s, c, s.sessions[c]).sessions, Freed(s, c, s.sessions[c]).locks)
  {
    var x := s.sessions[c];
    var t := Freed(s, c, x);
    assert SessionOk(c, x, s.locks);
    forall d | d in t.sessions ensures SessionOk(d, t.sessions[d], t.locks) {
      assert SessionOk(d, s.sessions[d], s.locks);
      forall i | 0 <= i < t.sessions[d].got ensures t.sessions[d].wanted[i] !in Held(x) {
        HeldByOwner(c, x, s.locks, t.sessions[d].wanted[i]);
      }
    }
  }

  lemma HeldByOwner(c: Conn, x: Session, locks: map<Name, Conn>, n: Name)
    requires SessionOk(c, x, locks)
    ensures n in Held(x) ==> n in locks && locks[n] == c
  {
    if n in Held(x) {
      var i :| 0 <= i < x.got && x.wanted[..x.got][i] == n;
      assert x.wanted[i] == n;
    }
  }

  lemma LockKeepsLocks(s: State, c: Conn, e: LockEvent, name: Resource -> Name, t: State)
    requires LocksOk(s.sessions, s.locks) && NextLock(s, c, e, name) == Some(t)
    ensures LocksOk(t.sessions, t.locks)
  {
    match e
    case Begin(_, _) =>
    case GetLock =>
      assert SessionOk(c, s.sessions[c], s.locks);
    case StopWaiting(leaks) => FreedKeepsLocks(s, c);
    case Finish => FreedKeepsLocks(s, c);
    case Die =>
  }

  lemma LockKeepsRest(s: State, c: Conn, e: LockEvent, name: Resource -> Name, t: State)
    requires CoversOk(s.sessions, name) && JobsOk(s.sessions, s.rows) && NextLock(s, c, e, name) == Some(t)
    ensures t == s.(sessions := t.sessions, locks := t.locks, leaked := t.leaked)
    ensures CoversOk(t.sessions, name) && JobsOk(t.sessions, t.rows)
  {
    match e
    case Begin(job, wanted) =>
    case GetLock =>
    case StopWaiting(leaks) =>
    case Finish =>
    case Die =>
  }

  lemma LockKeepsInv(s: State, c: Conn, e: LockEvent, name: Resource -> Name, t: State)
    requires Inv(s, name) && NextLock(s, c, e, name) == Some(t)
    ensures Inv(t, name)
  {
    LockKeepsLocks(s, c, e, name, t);
    LockKeepsRest(s, c, e, name, t);
  }

  // ----- mutual exclusion -----

  lemma HoldsNeeds(s: State, name: Resource -> Name, c: Conn, r: Resource)
    requires LocksOk(s.sessions, s.locks) && CoversOk(s.sessions, name)
    requires c in s.sessions && Inside(s.sessions[c]) && r in Needs(s.sessions[c].job)
    ensures name(r) in s.locks && s.locks[name(r)] == c
  {
    var x := s.sessions[c];
    assert SessionOk(c, x, s.locks) && Covers(x, name);
    assert x.wanted[..x.got] == x.wanted;
    HeldByOwner(c, x, s.locks, name(r));
  }

  lemma Disjoint(s: State, name: Resource -> Name, c: Conn, d: Conn)
    requires LocksOk(s.sessions, s.locks) && CoversOk(s.sessions, name)
    requires c in s.sessions && d in s.sessions && c != d && Inside(s.sessions[c]) && Inside(s.sessions[d])
    ensures Needs(s.sessions[c].job) !! Needs(s.sessions[d].job)
  {
    forall r | r in Needs(s.sessions[c].job) ensures r !in Needs(s.sessions[d].job) {
      if r in Needs(s.sessions[d].job) {
        HoldsNeeds(s, name, c, r);
        HoldsNeeds(s, name, d, r);
      }
    }
  }

  // ----- reads -----

  lemma UniquePrior(rows: map<OpId, Row>, job: Job, p: OpId)
    requires ExclusionOk(rows) && p in rows && Unfinished(rows[p]) && SameKind(rows[p].target, job)
    ensures OnlyUnresolved(rows, job, p)
  {
    forall o | o in rows && Unfinished(rows[o]) && SameKind(rows[o].target, job) ensures o == p {
      if job.OnService? {
        assert Touches(rows[o].target, job.service) && Touches(rows[p].target, job.service);
      }
      if o != p {
        assert Overlap(rows[o].target, rows[p].target);
      }
    }
  }

  lemma CheckKeepsJob(rows: map<OpId, Row>, job: Job, e: Check, after: Job)
    requires ExclusionOk(rows) && JobOk(job, rows) && NextCheck(rows, job, e) == Some(after)
    ensures JobOk(after, rows) && Needs(after) == Needs(job)
  {
    match e
    case FindPrior(op) => UniquePrior(rows, job, op);
    case PriorSettled =>
    case SeeServiceFree =>
    case SeeNoNodeWork =>
    case SeeNodeFree =>
    case SeeAffectedFree(_) =>
    case Adopt(_) =>
  }

  lemma CheckKeepsInv(s: State, c: Conn, e: Check, name: Resource -> Name, t: State)
    requires Inv(s, name) && Next(s, Look(c, e), name) == Some(t)
    ensures Inv(t, name)
  {
    var x := s.sessions[c];
    var after := NextCheck(s.rows, x.job, e).value;
    CheckKeepsJob(s.rows, x.job, e, after);
    NewJobKeepsSessions(s, c, after, name);
  }

  /** Replacing what one inside session knows keeps locks and coverage. */
  lemma NewJobKeepsSessions(s: State, c: Conn, after: Job, name: Resource -> Name)
    requires LocksOk(s.sessions, s.locks) && CoversOk(s.sessions, name) && c in s.sessions
    requires Needs(after) == Needs(s.sessions[c].job)
    ensures LocksOk(s.sessions[c := s.sessions[c].(job := after)], s.locks)
    ensures CoversOk(s.sessions[c := s.sessions[c].(job := after)], name)
  {
    var x := s.sessions[c];
    assert SessionOk(c, x, s.locks) && Covers(x, name);
    var sessions := s.sessions[c := x.(job := after)];
    forall d | d in sessions ensures SessionOk(d, sessions[d], s.locks) && Covers(sessions[d], name) {
      if d != c {
        assert SessionOk(d, s.sessions[d], s.locks) && Covers(s.sessions[d], name);
      }
    }
  }

  // ----- creating rows -----

  /** The resources an operation row works on. */
  function Resources(t: Target): set<Resource> {
    match t
    case NodeWork(node, affected) => {NodeLock(node)} + (set x | x in affected :: ServiceLock(x))
    case Plain(service) => {ServiceLock(service)}
    case DeployOf(service, _) => {ServiceLock(service)}
    case RollbackOf(service, _) => {ServiceLock(service)}
  }

  /** A row on other resources changes nothing a callback knows. */
  lemma NewRowElsewhere(rows: map<OpId, Row>, op: OpId, row: Row, job: Job)
    requires JobOk(job, rows) && op !in rows && Resources(row.target) !! Needs(job)
    ensures JobOk(job, rows[op := row])
  {
    match job
    case OnService(service, _, _, _, _) =>
      assert ServiceLock(service) in Needs(job);
      TouchesByResource(row.target, service);
    case OnNode(node, affected, _, _, cleared) =>
      assert NodeLock(node) in Needs(job);
      forall x | x in cleared ensures !Touches(row.target, x) {
        assert ServiceLock(x) in Needs(job);
        TouchesByResource(row.target, x);
      }
  }

  lemma TouchesByResource(t: Target, x: ServiceId)
    ensures Touches(t, x) <==> ServiceLock(x) in Resources(t)
  {
  }

  /** A row is created on resources nothing unfinished works on. */
  ghost predicate Unclaimed(rows: map<OpId, Row>, t: Target) {
    forall o :: o in rows && Unfinished(rows[o]) ==> !Overlap(rows[o].target, t)
  }

  lemma NewRowKeepsExclusion(rows: map<OpId, Row>, op: OpId, row: Row)
    requires ExclusionOk(rows) && op !in rows && Unclaimed(rows, row.target)
    ensures ExclusionOk(rows[op := row])
  {
    forall o | o in rows && Unfinished(rows[o]) ensures !Overlap(row.target, rows[o].target) {
      assert !Overlap(rows[o].target, row.target);
    }
  }

  lemma ServiceUnclaimed(rows: map<OpId, Row>, t: Target)
    requires OnServiceTable(t) && ServiceFree(rows, t.service) && NoNodeWorkOn(rows, t.service)
    ensures Unclaimed(rows, t)
  {
  }

  lemma NodeUnclaimed(rows: map<OpId, Row>, t: Target)
    requires t.NodeWork? && NodeFree(rows, t.node) && forall x :: x in t.affected ==>
               ServiceFree(rows, x) && NoNodeWorkOn(rows, x)
    ensures Unclaimed(rows, t)
  {
    forall o | o in rows && Unfinished(rows[o]) ensures !Overlap(rows[o].target, t) {
      forall x | Touches(t, x) ensures !Touches(rows[o].target, x) {
        assert ServiceFree(rows, x) && NoNodeWorkOn(rows, x);
      }
    }
  }

  /** Creating a row under the creator's locks keeps what everybody else knows. */
  lemma CreateKeepsJobs(s: State, name: Resource -> Name, c: Conn, op: OpId, row: Row, after: Job)
    requires LocksOk(s.sessions, s.locks) && CoversOk(s.sessions, name) && JobsOk(s.sessions, s.rows)
    requires c in s.sessions && Inside(s.sessions[c]) && op !in s.rows
    requires Resources(row.target) == Needs(s.sessions[c].job) && JobOk(after, s.rows[op := row])
    ensures JobsOk(s.sessions[c := s.sessions[c].(job := after)], s.rows[op := row])
  {
    var sessions := s.sessions[c := s.sessions[c].(job := after)];
    forall d | d in sessions
      ensures if Inside(sessions[d]) then JobOk(sessions[d].job, s.rows[op := row]) else Blank(sessions[d].job)
    {
      if d != c && Inside(s.sessions[d]) {
        Disjoint(s, name, c, d);
        NewRowElsewhere(s.rows, op, row, s.sessions[d].job);
      }
    }
  }
}
