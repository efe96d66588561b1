/**
 Operations and deployments as a step system: any number of database sessions
 take advisory locks in sorted order, look for unresolved work, create operation
 and deployment rows and move them, while sessions die, waits time out and locks
 may leak. `name` is the digest that turns a resource into a lock name; it may
 map different resources to the same name.
 */
module Work {
  import opened Basics
  import opened MaintenanceDb
  import opened Repositories

  type Name = nat
  type Conn = nat
  type OpId = nat
  type ServiceId = nat
  type NodeId = nat

  datatype Resource = ServiceLock(service: ServiceId) | NodeLock(node: NodeId)

  /** What an operation row is about. A rollback row names its deployment through `rollback_attempts`. */
  datatype Target =
    | Plain(service: ServiceId)
    | DeployOf(service: ServiceId, deployment: DeploymentId)
    | RollbackOf(service: ServiceId, deployment: DeploymentId)
    | NodeWork(node: NodeId, affected: set<ServiceId>)

  datatype Row = Row(target: Target, status: Status)

  /** `before` and `target` are the fingerprints of the spec the deploy started from and the one it asked for. */
  datatype Deployment = Deployment(
    service: ServiceId, op: OpId, before: SpecHash, target: SpecHash, rollback: Option<OpId>, status: DeploymentStatus)

  /**
   What inspecting and planning showed before a rollback is recorded: the service's spec, whether Swarm
   is rolling it back or has done so, and whether image and fingerprints lead to the previous release.
   */
  datatype ServiceView = ServiceView(spec: SpecHash, rollbackSeen: bool, previousRelease: bool)

  /** A rollback of one's own, or one observed to be under way, but only between the deployment's own two specs. */
  predicate RollbackAllowed(view: ServiceView, d: Deployment) {
    view.previousRelease && view.spec == if view.rollbackSeen then d.before else d.target
  }

  /** What a callback has established since it holds its locks. */
  datatype Job =
    | OnService(service: ServiceId, prior: Option<OpId>, serviceClear: bool, nodeClear: bool, driving: Option<OpId>)
    | OnNode(node: NodeId, affected: set<ServiceId>, nodePrior: Option<OpId>, nodeFree: bool, cleared: set<ServiceId>)

  /** A session asks for `wanted` in this order and holds the first `got` of them. */
  datatype Session = Session(wanted: seq<Name>, got: nat, job: Job)

  datatype State = State(
    rows: map<OpId, Row>,
    deployments: map<DeploymentId, Deployment>,
    onceFailed: set<DeploymentId>,   // deployments some request has seen FAILED, without any lock
    sessions: map<Conn, Session>,
    locks: map<Name, Conn>,
    leaked: set<Name>)               // names granted to a connection that went back to the pool without releasing them

  const Empty := State(map[], map[], {}, map[], map[], {})

  // ----- locks -----

  predicate Blank(job: Job) {
    match job
    case OnService(_, prior, serviceClear, nodeClear, driving) =>
      prior.None? && !serviceClear && !nodeClear && driving.None?
    case OnNode(_, _, nodePrior, nodeFree, cleared) => nodePrior.None? && !nodeFree && cleared == {}
  }

  function Needs(job: Job): set<Resource> {
    match job
    case OnService(service, _, _, _, _) => {ServiceLock(service)}
    case OnNode(node, affected, _, _, _) => {NodeLock(node)} + (set x | x in affected :: ServiceLock(x))
  }

  predicate Inside(x: Session) {
    x.got == |x.wanted|
  }

  function Held(x: Session): set<Name>
    requires x.got <= |x.wanted|
  {
    SetOf(x.wanted[..x.got])
  }

  datatype LockEvent =
    | Begin(job: Job, wanted: seq<Name>)
    | GetLock
    | StopWaiting(leaks: bool)       // refused, or an error although the lock was granted
    | Finish                         // the callback returned or threw; every acquired lock is released
    | Die                            // the session is gone, and its locks with it

  function NextLock(s: State, c: Conn, e: LockEvent, name: Resource -> Name): Option<State> {
    match e
    case Begin(job, wanted) =>
      if c in s.sessions || !Blank(job) || !StrictlyIncreasing(wanted) ||
          !(forall x :: x in Needs(job) ==> name(x) in SetOf(wanted)) then None
      else Some(s.(sessions := s.sessions[c := Session(wanted, 0, job)]))
    case GetLock =>
      if c !in s.sessions || s.sessions[c].got >= |s.sessions[c].wanted| then None
      else
        var x := s.sessions[c];
        if x.wanted[x.got] in s.locks && s.locks[x.wanted[x.got]] != c then None
        else Some(s.(locks := s.locks[x.wanted[x.got] := c], sessions := s.sessions[c := x.(got := x.got + 1)]))
    case StopWaiting(leaks) =>
      if c !in s.sessions || s.sessions[c].got >= |s.sessions[c].wanted| then None
      else
        var x := s.sessions[c];
        if !leaks then Some(Freed(s, c, x))
        else if x.wanted[x.got] in s.locks then None
        else Some(Freed(s, c, x).(locks := Freed(s, c, x).locks[x.wanted[x.got] := c],
          leaked := s.leaked + {x.wanted[x.got]}))
    case Finish =>
      if c !in s.sessions || s.sessions[c].got > |s.sessions[c].wanted| then None else Some(Freed(s, c, s.sessions[c]))
    case Die =>
      Some(s.(sessions := s.sessions - {c}, locks := map n | n in s.locks && s.locks[n] != c :: s.locks[n],
              leaked := set n | n in s.leaked && n in s.locks && s.locks[n] != c))
  }

  function Freed(s: State, c: Conn, x: Session): State
    requires x.got <= |x.wanted|
  {
    s.(sessions := s.sessions - {c}, locks := s.locks - (Held(x) - s.leaked))
  }

  // ----- rows -----

  predicate Unfinished(row: Row) {
    !Terminal(row.status)
  }

  predicate OnServiceTable(t: Target) {
    !t.NodeWork?
  }

  /** A row works on the service: as its own target, or as a node operation that lists it. */
  predicate Touches(t: Target, x: ServiceId) {
    if t.NodeWork? then x in t.affected else t.service == x
  }

  predicate ServiceFree(rows: map<OpId, Row>, x: ServiceId) {
    forall o :: o in rows && OnServiceTable(rows[o].target) && rows[o].target.service == x ==> !Unfinished(rows[o])
  }

  predicate NoNodeWorkOn(rows: map<OpId, Row>, x: ServiceId) {
    forall o :: o in rows && rows[o].target.NodeWork? && x in rows[o].target.affected ==> !Unfinished(rows[o])
  }

  predicate NodeFree(rows: map<OpId, Row>, n: NodeId) {
    forall o :: o in rows && rows[o].target.NodeWork? && rows[o].target.node == n ==> !Unfinished(rows[o])
  }

  /** What a callback reads under its locks, and what it then takes for granted. */
  datatype Check =
    | FindPrior(op: OpId)            // some unresolved operation of the service or node, whichever the query returns
    | PriorSettled                   // that operation has become terminal; nothing is looked up again
    | SeeServiceFree
    | SeeNoNodeWork
    | SeeNodeFree
    | SeeAffectedFree(service: ServiceId)
    | Adopt(op: OpId)                // an unresolved service operation this callback goes on to reconcile

  function NextCheck(rows: map<OpId, Row>, job: Job, e: Check): Option<Job> {
    match e
    case FindPrior(op) =>
      if op !in rows || !Unfinished(rows[op]) then None
      else if job.OnService? then
        if OnServiceTable(rows[op].target) && rows[op].target.service == job.service then Some(job.(prior := Some(op)))
        else None
      else if rows[op].target.NodeWork? && rows[op].target.node == job.node then Some(job.(nodePrior := Some(op)))
      else None
    case PriorSettled =>
      var prior := if job.OnService? then job.prior else job.nodePrior;
      if prior.None? || prior.value !in rows || Unfinished(rows[prior.value]) then None
      else if job.OnService? then Some(job.(serviceClear := true))
      else Some(job.(nodeFree := true))
    case SeeServiceFree =>
      if job.OnService? && ServiceFree(rows, job.service) then Some(job.(serviceClear := true)) else None
    case SeeNoNodeWork =>
      if job.OnService? && NoNodeWorkOn(rows, job.service) then Some(job.(nodeClear := true)) else None
    case SeeNodeFree =>
      if job.OnNode? && NodeFree(rows, job.node) then Some(job.(nodeFree := true)) else None
    case SeeAffectedFree(x) =>
      if job.OnNode? && x in job.affected && ServiceFree(rows, x) && NoNodeWorkOn(rows, x)
      then Some(job.(cleared := job.cleared + {x}))
      else None
    case Adopt(op) =>
      if job.OnService? && op in rows && Unfinished(rows[op]) && OnServiceTable(rows[op].target) &&
          rows[op].target.service == job.service
      then Some(job.(driving := Some(op))) else None
  }

  // ----- writes -----

  /** The paired status updates of a deploy or rollback; `NotObserved` is the manual recovery. */
  datatype Step = Verify | Succeed | Fail | NeedAttention | GiveUp | NotObserved

  /** Deployment status and operation status written by one transaction for a deploy operation. */
  function DeployPair(step: Step): (DeploymentStatus, Status) {
    match step
    case Verify => (Checking, Verifying)
    case Succeed => (Succeeded, Success)
    case Fail => (DeployFailed, Failed)
    case NeedAttention => (Attention, NeedsAttention)
    case GiveUp => (Attention, NeedsAttention)
    case NotObserved => (DeployFailed, Failed)
  }

  /** The same for a rollback operation; a rejected rollback restores the failed deployment. */
  function RollbackPair(step: Step): (DeploymentStatus, Status) {
    match step
    case Verify => (RollbackChecking, Verifying)
    case Succeed => (RolledBack, Success)
    case Fail => (DeployFailed, Failed)
    case NeedAttention => (Attention, NeedsAttention)
    case GiveUp => (RollbackFailed, NeedsAttention)
    case NotObserved => (DeployFailed, Failed)
  }

  datatype Write =
    | CreatePlain(op: OpId)
    | CreateDeploy(op: OpId, deployment: DeploymentId, before: SpecHash, target: SpecHash)
    | CreateRollback(op: OpId, deployment: DeploymentId, view: ServiceView)
    | CreateNode(op: OpId)
    | Persist(step: Step)            // for the operation this callback drives
    | PersistPlain(status: Status)

  /** Guarded: a terminal operation row keeps its status. */
  function SetStatus(rows: map<OpId, Row>, op: OpId, status: Status): map<OpId, Row> {
    if op in rows && Unfinished(rows[op]) then rows[op := rows[op].(status := status)] else rows
  }

  /** Unguarded: the deployment row takes the status whatever it was. */
  function SetDeployment(deployments: map<DeploymentId, Deployment>, d: DeploymentId,
      status: DeploymentStatus): map<DeploymentId, Deployment> {
    if d in deployments then deployments[d := deployments[d].(status := status)] else deployments
  }

  /** The extra conditions manual recovery reads in its transaction. */
  predicate MayResolveByHand(s: State, op: OpId) {
    && op in s.rows && OnServiceTable(s.rows[op].target) && !s.rows[op].target.Plain?
    && s.rows[op].target.deployment in s.deployments
    && var d := s.deployments[s.rows[op].target.deployment];
       if s.rows[op].target.DeployOf? then
         s.rows[op].status == NeedsAttention && d.op == op && d.status == Attention && d.rollback.None?
       else s.rows[op].status == Verifying && d.rollback == Some(op) && d.status == RollbackChecking
  }

  /** A deploy that changes nothing is only verified. */
  function FirstStatus(before: SpecHash, target: SpecHash): DeploymentStatus {
    if before == target then Checking else Deploying
  }

  predicate MayCreate(job: Job) {
    job.OnService? && job.serviceClear && job.nodeClear
  }

  function Created(job: Job, op: OpId): Job
    requires job.OnService?
  {
    job.(prior := None, serviceClear := false, nodeClear := false, driving := Some(op))
  }

  function NextWrite(s: State, c: Conn, e: Write): Option<State>
    requires c in s.sessions
  {
    var x := s.sessions[c];
    match e
    case CreatePlain(op) =>
      if op in s.rows || !MayCreate(x.job) then None
      else Some(s.(rows := s.rows[op := Row(Plain(x.job.service), Running)],
        sessions := s.sessions[c := x.(job := Created(x.job, op))]))
    case CreateDeploy(op, d, before, target) =>
      if op in s.rows || d in s.deployments || !MayCreate(x.job) then None
      else Some(s.(rows := s.rows[op := Row(DeployOf(x.job.service, d), Running)],
                   deployments := s.deployments[d :=
                     Deployment(x.job.service, op, before, target, None, FirstStatus(before, target))],
                   sessions := s.sessions[c := x.(job := Created(x.job, op))]))
    case CreateRollback(op, d, view) =>
      if op in s.rows || d !in s.onceFailed || d !in s.deployments || !MayCreate(x.job) then None
      else if s.deployments[d].service != x.job.service || !RollbackAllowed(view, s.deployments[d]) then None
      else Some(s.(rows := s.rows[op := Row(RollbackOf(x.job.service, d), Running)],
                   deployments := s.deployments[d := s.deployments[d].(rollback := Some(op), status := RollingBack)],
                   sessions := s.sessions[c := x.(job := Created(x.job, op))]))
    case CreateNode(op) =>
      if op in s.rows || !x.job.OnNode? || !x.job.nodeFree || !(x.job.affected <= x.job.cleared) then None
      else Some(s.(rows := s.rows[op := Row(NodeWork(x.job.node, x.job.affected), Running)],
                   sessions := s.sessions[c := x.(job := x.job.(nodePrior := None, nodeFree := false, cleared := {}))]))
    case Persist(step) => NextPersist(s, c, step)
    case PersistPlain(status) =>
      if !x.job.OnService? || x.job.driving.None? || x.job.driving.value !in s.rows ||
          !s.rows[x.job.driving.value].target.Plain? then None
      else Some(s.(rows := SetStatus(s.rows, x.job.driving.value, status),
                   sessions := s.sessions[c := x.(job := if Terminal(status) then x.job.(driving := None) else x.job)]))
  }

  function NextPersist(s: State, c: Conn, step: Step): Option<State>
    requires c in s.sessions
  {
    var x := s.sessions[c];
    if !x.job.OnService? || x.job.driving.None? || x.job.driving.value !in s.rows then None
    else
      var op := x.job.driving.value;
      var target := s.rows[op].target;
      if !(target.DeployOf? || target.RollbackOf?) || (step == NotObserved && !MayResolveByHand(s, op)) then None
      else
        var pair := if target.DeployOf? then DeployPair(step) else RollbackPair(step);
        Some(s.(rows := SetStatus(s.rows, op, pair.1),
                deployments := SetDeployment(s.deployments, target.deployment, pair.0),
                sessions := s.sessions[c := x.(job := if Terminal(pair.1) then x.job.(driving := None) else x.job)]))
  }

  datatype Event =
    | Lock(c: Conn, lock: LockEvent)
    | Look(c: Conn, check: Check)
    | Put(c: Conn, write: Write)
    | MoveNode(op: OpId, status: Status)      // guarded status update of a node operation row
    | ReadFailed(deployment: DeploymentId)    // a request reads the deployment before it takes any lock

  function Next(s: State, e: Event, name: Resource -> Name): Option<State> {
    match e
    case Lock(c, lock) => NextLock(s, c, lock, name)
    case Look(c, check) =>
      if c !in s.sessions || !Inside(s.sessions[c]) || NextCheck(s.rows, s.sessions[c].job, check).None? then None
      else
        var job := NextCheck(s.rows, s.sessions[c].job, check).value;
        Some(s.(sessions := s.sessions[c := s.sessions[c].(job := job)]))
    case Put(c, write) => if c !in s.sessions || !Inside(s.sessions[c]) then None else NextWrite(s, c, write)
    case MoveNode(op, status) =>
      if op !in s.rows || !s.rows[op].target.NodeWork? then None else Some(s.(rows := SetStatus(s.rows, op, status)))
    case ReadFailed(d) =>
      if d !in s.deployments || s.deployments[d].status != DeployFailed then None
      else Some(s.(onceFailed := s.onceFailed + {d}))
  }

  function Run(s: State, events: seq<Event>, name: Resource -> Name): Option<State>
    decreases |events|
  {
    if events == [] then Some(s)
    else match Next(s, events[0], name)
      case None => None
      case Some(t) => Run(t, events[1..], name)
  }
}
