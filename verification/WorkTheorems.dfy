/** The main results about operations, deployments and advisory locks, over every run. */
module WorkTheorems {
  import opened Basics
  import opened MaintenanceDb
  import opened Work
  import opened WorkInvariants
  import opened WorkSteps

  ghost predicate Reaches(run: seq<Event>, name: Resource -> Name, s: State) {
    Run(Empty, run, name) == Some(s)
  }

  lemma ReachableInv(run: seq<Event>, name: Resource -> Name, s: State)
    requires Reaches(run, name, s)
    ensures Inv(s, name)
  {
    WorkSteps.RunKeepsInv(Empty, run, name, s);
  }

  /**
   In every reachable state each service is worked on by at most one unfinished operation, counting
   node operations that list it, and each node has at most one.
   */
  lemma UnfinishedWorkExcludes(run: seq<Event>, name: Resource -> Name, s: State, o: OpId, p: OpId)
    requires Reaches(run, name, s) && o in s.rows && p in s.rows && o != p && Unfinished(s.rows[o])
    requires Unfinished(s.rows[p])
    ensures forall x :: !(Touches(s.rows[o].target, x) && Touches(s.rows[p].target, x))
    ensures s.rows[o].target.NodeWork? && s.rows[p].target.NodeWork? ==> s.rows[o].target.node != s.rows[p].target.node
  {
    ReachableInv(run, name, s);
    assert !Overlap(s.rows[o].target, s.rows[p].target);
  }

  lemma FinishedStaysOneStep(s: State, e: Event, name: Resource -> Name, t: State, o: OpId)
    requires Next(s, e, name) == Some(t) && o in s.rows && Terminal(s.rows[o].status)
    ensures o in t.rows && t.rows[o] == s.rows[o]
  {
    match e
    case Lock(c, lock) => LockKeepsRows(s, c, lock, name, t);
    case Look(_, _) =>
    case Put(c, write) =>
    case MoveNode(_, _) =>
    case ReadFailed(_) =>
  }

  lemma LockKeepsRows(s: State, c: Conn, e: LockEvent, name: Resource -> Name, t: State)
    requires NextLock(s, c, e, name) == Some(t)
    ensures t.rows == s.rows
  {
    match e
    case Begin(_, _) =>
    case GetLock =>
    case StopWaiting(_) =>
    case Finish =>
    case Die =>
  }

  /** SUCCESS and FAILED are absorbing for every operation, whatever the run does next. */
  lemma FinishedStays(s: State, run: seq<Event>, name: Resource -> Name, t: State, o: OpId)
    requires Run(s, run, name) == Some(t) && o in s.rows && Terminal(s.rows[o].status)
    ensures o in t.rows && t.rows[o] == s.rows[o]
    decreases |run|
  {
    if run == [] {
    } else {
      var u := Next(s, run[0], name).value;
      FinishedStaysOneStep(s, run[0], name, u, o);
      FinishedStays(u, run[1..], name, t, o);
    }
  }

  // ----- locks -----

  /** Two callbacks that need a common resource are never both inside, whatever digest names the locks. */
  lemma CallbacksExclude(run: seq<Event>, name: Resource -> Name, s: State, c: Conn, d: Conn)
    requires Reaches(run, name, s) && c in s.sessions && d in s.sessions && c != d
    requires Inside(s.sessions[c]) && Inside(s.sessions[d])
    ensures Needs(s.sessions[c].job) !! Needs(s.sessions[d].job)
  {
    ReachableInv(run, name, s);
    Disjoint(s, name, c, d);
  }

  /** The name a session is waiting for. */
  ghost predicate WaitsFor(s: State, c: Conn, d: Conn) {
    && c in s.sessions && s.sessions[c].got < |s.sessions[c].wanted| && c != d
    && s.sessions[c].wanted[s.sessions[c].got] in s.locks
    && s.locks[s.sessions[c].wanted[s.sessions[c].got]] == d
  }

  ghost predicate WaitChain(s: State, chain: seq<Conn>) {
    |chain| >= 2 && forall i :: 0 <= i < |chain| - 1 ==> WaitsFor(s, chain[i], chain[i + 1])
  }

  /** Every lock is held by a session that asked for it, or has leaked. */
  ghost predicate Accounted(s: State) {
    forall n :: n in s.locks && n !in s.leaked ==> s.locks[n] in s.sessions && HoldsName(s.sessions[s.locks[n]], n)
  }

  ghost predicate HoldsName(x: Session, n: Name) {
    exists i :: 0 <= i < x.got && i < |x.wanted| && x.wanted[i] == n
  }

  lemma HoldsMore(x: Session, n: Name)
    requires x.got < |x.wanted| && HoldsName(x, n)
    ensures HoldsName(x.(got := x.got + 1), n)
  {
    var i :| 0 <= i < x.got && i < |x.wanted| && x.wanted[i] == n;
    assert x.(got := x.got + 1).wanted[i] == n;
  }

  lemma GetLockAccounts(s: State, c: Conn, name: Resource -> Name, t: State)
    requires LocksOk(s.sessions, s.locks) && Accounted(s) && NextLock(s, c, GetLock, name) == Some(t)
    ensures Accounted(t)
  {
    var x := s.sessions[c];
    var taken := x.wanted[x.got];
    forall n | n in t.locks && n !in t.leaked ensures t.locks[n] in t.sessions && HoldsName(t.sessions[t.locks[n]], n) {
      if n == taken {
        assert t.sessions[c].wanted[x.got] == n;
      } else if s.locks[n] == c {
        HoldsMore(x, n);
      }
    }
  }

  lemma FreedAccounts(s: State, c: Conn)
    requires LocksOk(s.sessions, s.locks) && Accounted(s) && c in s.sessions
    ensures Accounted(Freed(s, c, s.sessions[c]))
  {
    var x := s.sessions[c];
    var t := Freed(s, c, x);
    assert SessionOk(c, x, s.locks);
    forall n | n in t.locks && n !in t.leaked ensures t.locks[n] in t.sessions && HoldsName(t.sessions[t.locks[n]], n) {
      assert HoldsName(s.sessions[s.locks[n]], n);
      NamedIsHeld(x, n);
    }
  }

  lemma NamedIsHeld(x: Session, n: Name)
    requires x.got <= |x.wanted|
    ensures HoldsName(x, n) ==> n in Held(x)
  {
    if HoldsName(x, n) {
      var i :| 0 <= i < x.got && i < |x.wanted| && x.wanted[i] == n;
      assert x.wanted[..x.got][i] == n;
    }
  }

  lemma LockAccounts(s: State, c: Conn, e: LockEvent, name: Resource -> Name, t: State)
    requires LocksOk(s.sessions, s.locks) && Accounted(s) && NextLock(s, c, e, name) == Some(t)
    ensures Accounted(t)
  {
    match e
    case Begin(_, _) =>
      forall n | n in t.locks && n !in t.leaked
        ensures t.locks[n] in t.sessions && HoldsName(t.sessions[t.locks[n]], n)
      {
        assert HoldsName(s.sessions[s.locks[n]], n);
      }
    case GetLock => GetLockAccounts(s, c, name, t);
    case StopWaiting(leaks) => FreedAccounts(s, c);
    case Finish => FreedAccounts(s, c);
    case Die =>
  }

  lemma NextAccounts(s: State, e: Event, name: Resource -> Name, t: State)
    requires Inv(s, name) && Accounted(s) && Next(s, e, name) == Some(t)
    ensures Accounted(t)
  {
    match e
    case Lock(c, lock) => LockAccounts(s, c, lock, name, t);
    case Look(c, _) => SameHoldings(s, t, c);
    case Put(c, write) => WriteKeepsHoldings(s, c, write, t); SameHoldings(s, t, c);
    case MoveNode(_, _) =>
    case ReadFailed(_) =>
  }

  lemma WriteKeepsHoldings(s: State, c: Conn, e: Write, t: State)
    requires c in s.sessions && NextWrite(s, c, e) == Some(t)
    ensures t.locks == s.locks && t.leaked == s.leaked && c in t.sessions
    ensures t.sessions == s.sessions[c := s.sessions[c].(job := t.sessions[c].job)]
  {
    match e
    case CreatePlain(_) =>
    case CreateDeploy(_, _, _, _) =>
    case CreateRollback(_, _, _) =>
    case CreateNode(_) =>
    case Persist(_) =>
    case PersistPlain(_) =>
  }

  lemma SameHoldings(s: State, t: State, c: Conn)
    requires Accounted(s) && t.locks == s.locks && t.leaked == s.leaked && c in s.sessions && c in t.sessions
    requires t.sessions == s.sessions[c := s.sessions[c].(job := t.sessions[c].job)]
    ensures Accounted(t)
  {
    forall n | n in t.locks && n !in t.leaked ensures t.locks[n] in t.sessions && HoldsName(t.sessions[t.locks[n]], n) {
      assert HoldsName(s.sessions[s.locks[n]], n);
      var i :| 0 <= i < s.sessions[s.locks[n]].got && i < |s.sessions[s.locks[n]].wanted| &&
          s.sessions[s.locks[n]].wanted[i] == n;
      assert t.sessions[t.locks[n]].wanted[i] == n;
    }
  }

  lemma RunAccounts(s: State, run: seq<Event>, name: Resource -> Name, t: State)
    requires Inv(s, name) && Accounted(s) && Run(s, run, name) == Some(t)
    ensures Accounted(t)
    decreases |run|
  {
    if run == [] {
    } else {
      var u := Next(s, run[0], name).value;
      WorkSteps.NextKeepsInv(s, run[0], name, u);
      NextAccounts(s, run[0], name, u);
      RunAccounts(u, run[1..], name, t);
    }
  }

  function Awaited(s: State, c: Conn): Name
    requires c in s.sessions && s.sessions[c].got < |s.sessions[c].wanted|
  {
    s.sessions[c].wanted[s.sessions[c].got]
  }

  /** The session waits for a name that has leaked. */
  ghost predicate AwaitsLeaked(s: State, c: Conn) {
    c in s.sessions && s.sessions[c].got < |s.sessions[c].wanted| && Awaited(s, c) in s.leaked
  }

  /**
   Unless the awaited name has leaked, who is waited for holds it as a session and waits, if at all,
   for a larger one.
   */
  lemma WaitsGrow(s: State, name: Resource -> Name, c: Conn, d: Conn, e: Conn)
    requires Inv(s, name) && Accounted(s) && WaitsFor(s, c, d) && WaitsFor(s, d, e) && !AwaitsLeaked(s, c)
    ensures Awaited(s, c) < Awaited(s, d)
  {
    var n := Awaited(s, c);
    assert SessionOk(d, s.sessions[d], s.locks);
    assert HoldsName(s.sessions[d], n);
    var i :| 0 <= i < s.sessions[d].got && i < |s.sessions[d].wanted| && s.sessions[d].wanted[i] == n;
  }

  lemma {:induction false} ChainGrows(s: State, name: Resource -> Name, chain: seq<Conn>, k: nat)
    requires Inv(s, name) && Accounted(s) && WaitChain(s, chain) && 0 < k < |chain| - 1
    requires forall i :: 0 <= i < |chain| - 1 ==> !AwaitsLeaked(s, chain[i])
    ensures WaitsFor(s, chain[0], chain[1]) && WaitsFor(s, chain[k], chain[k + 1])
    ensures Awaited(s, chain[0]) < Awaited(s, chain[k])
    decreases k
  {
    assert WaitsFor(s, chain[0], chain[0 + 1]) && WaitsFor(s, chain[k - 1], chain[k - 1 + 1]);
    assert WaitsFor(s, chain[k], chain[k + 1]);
    WaitsGrow(s, name, chain[k - 1], chain[k], chain[k + 1]);
    if k == 1 {
    } else {
      ChainGrows(s, name, chain, k - 1);
    }
  }

  /**
   Sorted acquisition deadlocks only through a leaked lock: a chain of waiting sessions that closes
   into a cycle passes through a session that waits for a leaked name.
   */
  lemma CyclesAwaitLeaks(run: seq<Event>, name: Resource -> Name, s: State, chain: seq<Conn>)
    requires Reaches(run, name, s) && WaitChain(s, chain) && chain[0] == chain[|chain| - 1]
    ensures exists i :: 0 <= i < |chain| - 1 && AwaitsLeaked(s, chain[i])
  {
    ReachableInv(run, name, s);
    RunAccounts(Empty, run, name, s);
    var last := |chain| - 1;
    assert WaitsFor(s, chain[0], chain[0 + 1]) && WaitsFor(s, chain[last - 1], chain[last - 1 + 1]);
    if forall i :: 0 <= i < last ==> !AwaitsLeaked(s, chain[i]) {
      // The session before the last waits for the first one, which waits itself.
      WaitsGrow(s, name, chain[last - 1], chain[last], chain[1]);
      ChainGrows(s, name, chain, last - 1);
    }
  }

  // ----- deployments -----

  predicate WorksOn(t: Target, d: DeploymentId) {
    (t.DeployOf? || t.RollbackOf?) && t.deployment == d
  }

  /**
   A deployment and the operation that drives it never disagree: the pair of their statuses is
   always in the table, and the deployment is finished exactly when its driver is.
   */
  lemma DeploymentMatchesDriver(run: seq<Event>, name: Resource -> Name, s: State, d: DeploymentId)
    requires Reaches(run, name, s) && d in s.deployments
    ensures Driver(s.deployments[d]) in s.rows
    ensures PairTable(s.deployments[d].rollback.Some?, s.deployments[d].status, s.rows[Driver(s.deployments[d])].status)
    ensures s.deployments[d].status in {Succeeded, DeployFailed, RolledBack} <==>
              Terminal(s.rows[Driver(s.deployments[d])].status)
    ensures forall o :: o in s.rows && Unfinished(s.rows[o]) && WorksOn(s.rows[o].target, d) ==>
              o == Driver(s.deployments[d])
  {
    ReachableInv(run, name, s);
    assert DeploymentOk(d, s.deployments[d], s.rows);
    forall o | o in s.rows && Unfinished(s.rows[o]) && WorksOn(s.rows[o].target, d)
      ensures o == Driver(s.deployments[d])
    {
      assert RowOk(o, s.rows[o], s.deployments);
    }
  }

  // ----- rollbacks -----

  predicate SameOrNewDriver(before: Deployment, after: Deployment, rows: map<OpId, Row>) {
    && after.op == before.op
    && (after.rollback == before.rollback || (after.rollback.Some? && after.rollback.value !in rows))
  }

  /** Rows are never deleted, and a deployment's driver changes only to an operation that did not exist yet. */
  ghost predicate DriverKept(u: State, s: State, d: DeploymentId) {
    && u.rows.Keys <= s.rows.Keys
    && (d in u.deployments ==> d in s.deployments && SameOrNewDriver(u.deployments[d], s.deployments[d], u.rows))
  }

  lemma NextKeepsDriver(s: State, e: Event, name: Resource -> Name, t: State, d: DeploymentId)
    requires Next(s, e, name) == Some(t)
    ensures DriverKept(s, t, d)
  {
    match e
    case Lock(c, lock) => LockKeepsTables(s, c, lock, name, t);
    case Look(_, _) =>
    case Put(c, write) =>
    case MoveNode(_, _) =>
    case ReadFailed(_) =>
  }

  lemma LockKeepsTables(s: State, c: Conn, e: LockEvent, name: Resource -> Name, t: State)
    requires NextLock(s, c, e, name) == Some(t)
    ensures t.rows == s.rows && t.deployments == s.deployments
  {
    match e
    case Begin(_, _) =>
    case GetLock =>
    case StopWaiting(_) =>
    case Finish =>
    case Die =>
  }

  lemma {:induction false} RunKeepsDriver(s: State, run: seq<Event>, name: Resource -> Name, t: State, d: DeploymentId)
    requires Run(s, run, name) == Some(t)
    ensures DriverKept(s, t, d)
    decreases |run|
  {
    if run == [] {
      assert t == s;
    } else {
      var u := Next(s, run[0], name).value;
      NextKeepsDriver(s, run[0], name, u, d);
      RunKeepsDriver(u, run[1..], name, t, d);
    }
  }

  lemma {:induction false} RunSplits(s: State, run: seq<Event>, j: nat, name: Resource -> Name)
    requires j <= |run|
    ensures Run(s, run, name) == match Run(s, run[..j], name) case None => None case Some(u) => Run(u, run[j..], name)
    decreases |run|
  {
    if j == 0 {
      assert run[..0] == [] && run[0..] == run;
    } else {
      assert run[..j][1..] == run[1..][..j - 1] && run[j..] == run[1..][j - 1..];
      match Next(s, run[0], name)
      case None =>
      case Some(t) => RunSplits(t, run[1..], j - 1, name);
    }
  }

  /** The state in which event number `j` read the deployment as FAILED. */
  ghost predicate ReadAt(run: seq<Event>, name: Resource -> Name, j: nat, d: DeploymentId, u: State) {
    j < |run| && run[j] == ReadFailed(d) && Run(Empty, run[..j], name) == Some(u)
  }

  /** Nothing but a read of the FAILED deployment lets a rollback be recorded. */
  lemma {:induction false} RequestHasRead(run: seq<Event>, name: Resource -> Name, s: State, d: DeploymentId)
    requires Reaches(run, name, s) && d in s.onceFailed
    ensures exists j: nat, u :: ReadAt(run, name, j, d, u)
    decreases |run|
  {
    if run == [] {
    } else {
      var k := |run| - 1;
      RunSplits(Empty, run, k, name);
      var u := Run(Empty, run[..k], name).value;
      assert run[k..] == [run[k]] && [run[k]][1..] == [];
      assert Next(u, run[k], name) == Some(s);
      if d in u.onceFailed {
        RequestHasRead(run[..k], name, u, d);
        var j: nat, v :| ReadAt(run[..k], name, j, d, v);
        assert run[..k][..j] == run[..j];
        assert ReadAt(run, name, j, d, v);
      } else {
        OnlyReadsSee(u, run[k], name, s, d);
        assert ReadAt(run, name, k, d, u);
      }
    }
  }

  lemma OnlyReadsSee(s: State, e: Event, name: Resource -> Name, t: State, d: DeploymentId)
    requires Next(s, e, name) == Some(t) && d in t.onceFailed && d !in s.onceFailed
    ensures e == ReadFailed(d)
  {
    match e
    case Lock(c, lock) =>
      match lock {
        case Begin(_, _) =>
        case GetLock =>
        case StopWaiting(_) =>
        case Finish =>
        case Die =>
      }
    case Look(_, _) =>
    case Put(_, _) =>
    case MoveNode(_, _) =>
    case ReadFailed(_) =>
  }

  /**
   A rollback may only be requested of a FAILED deployment, but that is read, in state `u`, before the
   lock is taken. When the rollback is recorded the deployment is FAILED or ROLLED_BACK: still
   FAILED if its deciding operation is the one of the read, and ROLLED_BACK exactly when the latest
   operation is a rollback recorded since the read that has succeeded. In that case the
   service shows a rollback, or somebody has put the failed spec back.
   */
  lemma RollbackStartsFrom(run: seq<Event>, name: Resource -> Name, s: State, c: Conn, op: OpId, d: DeploymentId,
      view: ServiceView, t: State, j: nat, u: State)
    requires Reaches(run, name, s) && Next(s, Put(c, CreateRollback(op, d, view)), name) == Some(t)
    requires ReadAt(run, name, j, d, u)
    ensures d in s.deployments && d in u.deployments && Driver(s.deployments[d]) in s.rows
    ensures s.deployments[d].status in {DeployFailed, RolledBack}
    ensures Driver(s.deployments[d]) == Driver(u.deployments[d]) ==> s.deployments[d].status == DeployFailed
    ensures s.deployments[d].status == RolledBack <==>
              Driver(s.deployments[d]) !in u.rows &&
                s.rows[Driver(s.deployments[d])] == Row(RollbackOf(s.deployments[d].service, d), Success)
    ensures view.spec == if view.rollbackSeen then s.deployments[d].before else s.deployments[d].target
  {
    ReachableInv(run, name, s);
    RunSplits(Empty, run, j, name);
    ReachableInv(run[..j], name, u);
    assert run[j..][0] == ReadFailed(d);
    assert JobOk(s.sessions[c].job, s.rows);
    IdleDeployment(s, name, d);
    SinceTheRead(u, run[j..], name, s, d);
  }

  /** What has become of a deployment that was FAILED, once nothing unfinished works on it again. */
  lemma SinceTheRead(u: State, rest: seq<Event>, name: Resource -> Name, s: State, d: DeploymentId)
    requires Inv(u, name) && Inv(s, name) && Run(u, rest, name) == Some(s)
    requires d in u.deployments && u.deployments[d].status == DeployFailed
    ensures d in s.deployments && DeploymentOk(d, s.deployments[d], s.rows)
    ensures Driver(s.deployments[d]) == Driver(u.deployments[d]) ==> s.deployments[d].status == DeployFailed
    ensures Driver(s.deployments[d]) != Driver(u.deployments[d]) ==>
              Driver(s.deployments[d]) !in u.rows && s.deployments[d].rollback.Some?
  {
    assert DeploymentOk(d, u.deployments[d], u.rows);
    RunKeepsDriver(u, rest, name, s, d);
    assert DeploymentOk(d, s.deployments[d], s.rows);
    FinishedStays(u, rest, name, s, Driver(u.deployments[d]));
  }
}
