/**
 What the operation system can always do: an unfinished operation whose lock is free can be
 taken over by any new session and settled with every outcome, and faults can strike anywhere.
 */
module WorkAbilities {
  import opened Basics
  import opened MaintenanceDb
  import opened Repositories
  import opened Work
  import opened WorkInvariants
  import opened WorkTheorems
  import opened DeploymentOutcomes
  import V = Verification
  import W = WorkWitness

  /** A new session takes the lock of the operation's service and goes on to drive the operation. */
  lemma CanBeAdopted(run: seq<Event>, name: Resource -> Name, s: State, c: Conn, o: OpId)
    returns (longer: seq<Event>, t: State)
    requires Reaches(run, name, s) && c !in s.sessions && o in s.rows && Unfinished(s.rows[o])
    requires OnServiceTable(s.rows[o].target)
    requires name(ServiceLock(s.rows[o].target.service)) !in s.locks
    ensures Reaches(longer, name, t) && t == s.(sessions := t.sessions, locks := t.locks)
    ensures c in t.sessions && Inside(t.sessions[c])
    ensures t.sessions[c].job == OnService(s.rows[o].target.service, None, false, false, Some(o))
  {
    var service := s.rows[o].target.service;
    var n := name(ServiceLock(service));
    assert [n][0] in SetOf([n]);
    longer, t := W.Extend(run, name, s, Lock(c, Begin(OnService(service, None, false, false, None), [n])));
    longer, t := W.Extend(longer, name, t, Lock(c, GetLock));
    longer, t := W.Extend(longer, name, t, Look(c, Adopt(o)));
  }

  /** The operation that decides deployment `d` is unfinished, and nobody holds the lock it needs. */
  ghost predicate Abandoned(s: State, name: Resource -> Name, d: DeploymentId) {
    && d in s.deployments && Driver(s.deployments[d]) in s.rows && Unfinished(s.rows[Driver(s.deployments[d])])
    && name(ServiceLock(s.deployments[d].service)) !in s.locks
  }

  lemma DriverIsLinked(run: seq<Event>, name: Resource -> Name, s: State, d: DeploymentId)
    requires Reaches(run, name, s) && d in s.deployments && Driver(s.deployments[d]) in s.rows
    ensures var x := s.deployments[d];
            s.rows[Driver(x)].target == if x.rollback.Some? then RollbackOf(x.service, d) else DeployOf(x.service, d)
  {
    ReachableInv(run, name, s);
    assert DeploymentOk(d, s.deployments[d], s.rows);
  }

  lemma CanBeDriven(run: seq<Event>, name: Resource -> Name, s: State, d: DeploymentId, c: Conn)
    returns (longer: seq<Event>, t: State)
    requires Reaches(run, name, s) && Abandoned(s, name, d) && c !in s.sessions
    ensures Reaches(longer, name, t) && t == s.(sessions := t.sessions, locks := t.locks)
    ensures Decides(t, c, d, s.deployments[d].rollback.Some?)
  {
    DriverIsLinked(run, name, s, d);
    longer, t := CanBeAdopted(run, name, s, c, Driver(s.deployments[d]));
  }

  /**
   An abandoned deploy or rollback is never stuck: for every outcome of its observation there is a
   run in which a new session records exactly the status of that outcome.
   */
  lemma AbandonedWorkCanBeSettled(run: seq<Event>, name: Resource -> Name, s: State, d: DeploymentId, c: Conn,
      outcome: V.Outcome)
    returns (longer: seq<Event>, t: State)
    requires Reaches(run, name, s) && Abandoned(s, name, d) && c !in s.sessions
    ensures Reaches(longer, name, t) && d in t.deployments
    ensures var rollback, status := s.deployments[d].rollback.Some?, t.deployments[d].status;
            match outcome
            case Succeeded => status == if rollback then RolledBack else Succeeded
            case TimedOut(false) => status == if rollback then RollbackChecking else Checking
            case TimedOut(true) => status == Attention
            case Conflict => status == Attention
            case PausedRollback => status == Attention
            case _ => status == if rollback then RollbackFailed else DeployFailed
  {
    var rollback := s.deployments[d].rollback.Some?;
    longer, t := CanBeDriven(run, name, s, d, c);
    var step := StepOf(rollback, outcome);
    var u := Recording(longer, name, t, c, d, rollback, step);
    longer, t := W.Extend(longer, name, t, Put(c, Persist(step)));
  }

  /** However a session ends, it gives its locks back: none is left after its death, only leaked ones after a return. */
  lemma LocksAreGivenBack(run: seq<Event>, name: Resource -> Name, s: State, c: Conn, n: Name)
    requires Reaches(run, name, s) && c in s.sessions && n in s.locks && s.locks[n] == c
    ensures Next(s, Lock(c, Die), name).Some? && n !in Next(s, Lock(c, Die), name).value.locks
    ensures Next(s, Lock(c, Finish), name).Some?
    ensures n in Next(s, Lock(c, Finish), name).value.locks <==> n in s.leaked
  {
    ReachableInv(run, name, s);
    RunAccounts(Empty, run, name, s);
    var x := s.sessions[c];
    assert SessionOk(c, x, s.locks);
    if n !in s.leaked {
      assert HoldsName(x, n);
      NamedIsHeld(x, n);
    }
  }

  /** A session can die at any time, and a wait can end without the lock. */
  lemma FaultsCanStrike(s: State, name: Resource -> Name, c: Conn)
    ensures Next(s, Lock(c, Die), name).Some? && c !in Next(s, Lock(c, Die), name).value.sessions
    ensures c in s.sessions && s.sessions[c].got < |s.sessions[c].wanted| ==>
              && Next(s, Lock(c, StopWaiting(false)), name).Some?
              && (s.sessions[c].wanted[s.sessions[c].got] !in s.locks ==>
                    Next(s, Lock(c, StopWaiting(true)), name).Some?)
  {
  }
}
