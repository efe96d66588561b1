/**
 Concrete runs of the operation system: a rollback recorded for a deployment that
 has already been rolled back, because the request saw it FAILED before taking
 the lock, and a deadlock through a leaked lock.
 */
module WorkWitness {
  import opened Basics
  import opened MaintenanceDb
  import opened Repositories
  import opened Work
  import opened WorkTheorems

  lemma RunSnoc(s: State, run: seq<Event>, name: Resource -> Name, t: State, e: Event)
    requires Run(s, run, name) == Some(t)
    ensures Run(s, run + [e], name) == Next(t, e, name)
    decreases |run|
  {
    if run == [] {
      assert [e][1..] == [];
    } else {
      assert (run + [e])[1..] == run[1..] + [e];
      RunSnoc(Next(s, run[0], name).value, run[1..], name, t, e);
    }
  }

  lemma Extend(run: seq<Event>, name: Resource -> Name, s: State, e: Event) returns (longer: seq<Event>, t: State)
    requires Reaches(run, name, s) && Next(s, e, name).Some?
    ensures Next(s, e, name) == Some(t) && Reaches(longer, name, t)
  {
    t := Next(s, e, name).value;
    longer := run + [e];
    RunSnoc(Empty, run, name, s, e);
  }

  const Fresh := OnService(0, None, false, false, None)

  /** A callback on service 0 that has taken its lock and found no unfinished work. */
  lemma Enter(run: seq<Event>, name: Resource -> Name, s: State) returns (longer: seq<Event>, t: State)
    requires Reaches(run, name, s) && s.sessions == map[] && s.locks == map[]
    requires forall o :: o in s.rows ==> !Unfinished(s.rows[o])
    ensures Reaches(longer, name, t) && t == s.(sessions := t.sessions, locks := t.locks)
    ensures t.sessions.Keys == {0} && Inside(t.sessions[0]) && t.sessions[0].job == OnService(0, None, true, true, None)
    ensures t.sessions[0].wanted == [name(ServiceLock(0))] && t.locks == map[name(ServiceLock(0)) := 0]
  {
    var n := name(ServiceLock(0));
    assert [n][0] in SetOf([n]);
    longer, t := Extend(run, name, s, Lock(0, Begin(Fresh, [n])));
    longer, t := Extend(longer, name, t, Lock(0, GetLock));
    longer, t := Extend(longer, name, t, Look(0, SeeServiceFree));
    longer, t := Extend(longer, name, t, Look(0, SeeNoNodeWork));
  }

  lemma Leave(run: seq<Event>, name: Resource -> Name, s: State) returns (longer: seq<Event>, t: State)
    requires Reaches(run, name, s) && s.sessions.Keys == {0} && Inside(s.sessions[0]) && s.leaked == {}
    requires s.sessions[0].wanted == [name(ServiceLock(0))] && s.locks == map[name(ServiceLock(0)) := 0]
    ensures Reaches(longer, name, t) && t == s.(sessions := map[], locks := map[])
  {
    var x := s.sessions[0];
    assert x.wanted[..1][0] == name(ServiceLock(0));
    assert name(ServiceLock(0)) in Held(x);
    longer, t := Extend(run, name, s, Lock(0, Finish));
    assert t.sessions == map[] && t.locks == map[];
  }

  lemma DeployAndFail(name: Resource -> Name) returns (run: seq<Event>, s: State)
    ensures Reaches(run, name, s) && s.leaked == {} && s.onceFailed == {}
    ensures s.sessions.Keys == {0} && Inside(s.sessions[0]) && s.sessions[0].wanted == [name(ServiceLock(0))]
    ensures s.locks == map[name(ServiceLock(0)) := 0]
    ensures s.rows.Keys == {1} && s.rows[1].status == Failed
    ensures 7 in s.deployments && s.deployments[7] == Deployment(0, 1, 10, 20, None, DeployFailed)
  {
    run, s := [], Empty;
    run, s := Enter(run, name, s);
    run, s := Extend(run, name, s, Put(0, CreateDeploy(1, 7, 10, 20)));
    run, s := Extend(run, name, s, Put(0, Persist(Fail)));
  }

  /** The deployment has failed, and a request has seen it. */
  lemma FailedDeployment(name: Resource -> Name) returns (run: seq<Event>, s: State)
    ensures Reaches(run, name, s) && s.sessions == map[] && s.locks == map[] && s.leaked == {}
    ensures s.rows.Keys == {1} && s.rows[1].status == Failed && s.onceFailed == {7}
    ensures 7 in s.deployments && s.deployments[7] == Deployment(0, 1, 10, 20, None, DeployFailed)
  {
    run, s := DeployAndFail(name);
    run, s := Extend(run, name, s, ReadFailed(7));
    run, s := Leave(run, name, s);
  }

  lemma FirstRollback(name: Resource -> Name) returns (run: seq<Event>, s: State)
    ensures Reaches(run, name, s) && s.sessions == map[] && s.locks == map[] && s.leaked == {}
    ensures s.rows.Keys == {1, 2} && s.rows[1].status == Failed && s.rows[2].status == Success && s.onceFailed == {7}
    ensures 7 in s.deployments && s.deployments[7] == Deployment(0, 1, 10, 20, Some(2), RolledBack)
  {
    run, s := FailedDeployment(name);
    run, s := Enter(run, name, s);
    run, s := Extend(run, name, s, Put(0, CreateRollback(2, 7, ServiceView(20, false, true))));
    run, s := Extend(run, name, s, Put(0, Persist(Verify)));
    run, s := Extend(run, name, s, Put(0, Persist(Succeed)));
    run, s := Leave(run, name, s);
  }

  /**
   "Only FAILED deployments can be rolled back" does not hold when the rollback is recorded: the
   request saw FAILED, another rollback has succeeded since, and Swarm still shows it as completed.
   */
  lemma RolledBackTwice(name: Resource -> Name) returns (run: seq<Event>, s: State)
    ensures Reaches(run, name, s)
    ensures 7 in s.deployments && s.deployments[7].status == RolledBack
    ensures Next(s, Put(0, CreateRollback(3, 7, ServiceView(10, true, true))), name).Some?
  {
    run, s := FirstRollback(name);
    run, s := Enter(run, name, s);
  }

  // ----- a deadlock through a leaked lock -----

  const OnFive := OnService(5, None, false, false, None)
  const OnBoth := OnNode(0, {5}, None, false, {})

  /** Two resources whose names come in this order. */
  ghost predicate InOrder(name: Resource -> Name) {
    name(NodeLock(0)) < name(ServiceLock(5))
  }

  lemma BothNames(name: Resource -> Name)
    requires InOrder(name)
    ensures StrictlyIncreasing([name(NodeLock(0)), name(ServiceLock(5))])
    ensures forall x :: x in Needs(OnBoth) ==> name(x) in SetOf([name(NodeLock(0)), name(ServiceLock(5))])
    ensures forall x :: x in Needs(OnFive) ==> name(x) in SetOf([name(ServiceLock(5))])
  {
    var both, one := [name(NodeLock(0)), name(ServiceLock(5))], [name(ServiceLock(5))];
    assert both[0] in SetOf(both) && both[1] in SetOf(both) && one[0] in SetOf(one);
  }

  /** The lock of service 5 has leaked with connection 0, which has gone back to the pool. */
  lemma Leaked(name: Resource -> Name) returns (run: seq<Event>, s: State)
    requires InOrder(name)
    ensures Reaches(run, name, s)
    ensures s == Empty.(locks := map[name(ServiceLock(5)) := 0], leaked := {name(ServiceLock(5))})
  {
    BothNames(name);
    run, s := [], Empty;
    run, s := Extend(run, name, s, Lock(0, Begin(OnFive, [name(ServiceLock(5))])));
    run, s := Extend(run, name, s, Lock(0, StopWaiting(true)));
    assert s.sessions == map[] && s.locks == map[name(ServiceLock(5)) := 0];
  }

  /**
   Connection 1 holds the node's lock and waits for the leaked one; connection 0, reused from the
   pool, waits for the node's lock. Sorted acquisition alone does not exclude this cycle.
   */
  lemma DeadlockAfterLeak(name: Resource -> Name) returns (run: seq<Event>, s: State)
    requires InOrder(name)
    ensures Reaches(run, name, s) && WaitChain(s, [0, 1, 0])
  {
    BothNames(name);
    var both := [name(NodeLock(0)), name(ServiceLock(5))];
    run, s := Leaked(name);
    run, s := Extend(run, name, s, Lock(1, Begin(OnBoth, both)));
    run, s := Extend(run, name, s, Lock(1, GetLock));
    run, s := Extend(run, name, s, Lock(0, Begin(OnBoth, both)));
    assert WaitsFor(s, 0, 1) && WaitsFor(s, 1, 0);
  }
}
