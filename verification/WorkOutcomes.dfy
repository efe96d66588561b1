/**
 What the status of a deployment says about the run: which step its operations
 have recorded, and what was observed before that.
 */
module WorkOutcomes {
  import opened Basics
  import opened MaintenanceDb
  import opened Work
  import opened WorkInvariants
  import opened WorkTheorems

  // ----- recorded steps -----

  /** In state `u`, event `e` records a step of operation `o`: its session drives it. */
  ghost predicate Records(u: State, e: Event, o: OpId) {
    && e.Put? && e.write.Persist? && e.c in u.sessions
    && u.sessions[e.c].job.OnService? && u.sessions[e.c].job.driving == Some(o)
  }

  /** Event number `k` of the run records `step` for operation `o`. */
  ghost predicate RecordedAt(run: seq<Event>, name: Resource -> Name, k: nat, o: OpId, step: Step) {
    && k < |run| && Run(Empty, run[..k], name).Some?
    && Records(Run(Empty, run[..k], name).value, run[k], o) && run[k].write.step == step
  }

  ghost predicate Recorded(run: seq<Event>, name: Resource -> Name, o: OpId, step: Step) {
    exists k: nat :: RecordedAt(run, name, k, o, step)
  }

  /** The last step the run records for operation `o`. */
  ghost function LastStep(run: seq<Event>, name: Resource -> Name, o: OpId): Option<Step>
    decreases |run|
  {
    if run == [] then None
    else
      var k := |run| - 1;
      match Run(Empty, run[..k], name)
      case None => None
      case Some(u) => if Records(u, run[k], o) then Some(run[k].write.step) else LastStep(run[..k], name, o)
  }

  /** The status a deployment has when its deciding operation has last recorded `last`. */
  predicate StatusFits(d: Deployment, last: Option<Step>) {
    match d.status
    case Deploying => d.rollback.None? && last.None? && d.before != d.target
    case Checking => d.rollback.None? && (last == Some(Verify) || (last.None? && d.before == d.target))
    case Succeeded => d.rollback.None? && last == Some(Succeed)
    case DeployFailed => last == Some(Fail) || last == Some(NotObserved)
    case Attention => last == Some(NeedAttention) || (d.rollback.None? && last == Some(GiveUp))
    case RollingBack => d.rollback.Some? && last.None?
    case RollbackChecking => d.rollback.Some? && last == Some(Verify)
    case RolledBack => d.rollback.Some? && last == Some(Succeed)
    case RollbackFailed => d.rollback.Some? && last == Some(GiveUp)
  }

  // ----- the induction -----

  lemma LastEvent(run: seq<Event>, name: Resource -> Name, s: State) returns (u: State)
    requires run != [] && Reaches(run, name, s)
    ensures Reaches(run[..|run| - 1], name, u) && Next(u, run[|run| - 1], name) == Some(s)
  {
    var k := |run| - 1;
    RunSplits(Empty, run, k, name);
    u := Run(Empty, run[..k], name).value;
    assert run[k..] == [run[k]] && [run[k]][1..] == [];
    assert Run(s, [], name) == Some(s);
  }

  /** Only operations that exist have recorded anything. */
  lemma {:induction false} RecordedExists(run: seq<Event>, name: Resource -> Name, s: State, o: OpId)
    requires Reaches(run, name, s) && LastStep(run, name, o).Some?
    ensures o in s.rows
    decreases |run|
  {
    if run == [] {
    } else {
      var u := LastEvent(run, name, s);
      NextKeepsDriver(u, run[|run| - 1], name, s, 0);
      if !Records(u, run[|run| - 1], o) {
        RecordedExists(run[..|run| - 1], name, u, o);
      }
    }
  }

  /** A recorded step is one of the driven operation, which is its deployment's deciding one. */
  lemma RecordMoves(u: State, name: Resource -> Name, e: Event, s: State, o: OpId, d: DeploymentId)
    requires Inv(u, name) && Next(u, e, name) == Some(s) && Records(u, e, o) && d in u.deployments
    ensures d in s.deployments && s.deployments[d].(status := u.deployments[d].status) == u.deployments[d]
    ensures Driver(u.deployments[d]) == o ==> StatusFits(s.deployments[d], Some(e.write.step))
    ensures Driver(u.deployments[d]) != o ==> s.deployments[d] == u.deployments[d]
  {
    assert JobOk(u.sessions[e.c].job, u.rows);
    assert RowOk(o, u.rows[o], u.deployments);
    assert DeploymentOk(d, u.deployments[d], u.rows);
    var dd := u.rows[o].target.deployment;
    assert DeploymentOk(dd, u.deployments[dd], u.rows);
  }

  /** Every other event leaves a deployment alone, creates it, or gives it a new rollback. */
  lemma OtherMoves(u: State, name: Resource -> Name, e: Event, s: State, d: DeploymentId)
    requires Inv(u, name) && Next(u, e, name) == Some(s) && d in s.deployments
    requires forall o :: !Records(u, e, o)
    ensures || (d in u.deployments && s.deployments[d] == u.deployments[d])
            || (Driver(s.deployments[d]) !in u.rows && StatusFits(s.deployments[d], None))
  {
    match e
    case Lock(c, lock) => LockKeepsTables(u, c, lock, name, s);
    case Look(_, _) =>
    case Put(c, write) =>
      if write.Persist? {
        assert Records(u, e, u.sessions[c].job.driving.value);
      } else {
        OtherWrites(u, c, write, s, d);
      }
    case MoveNode(_, _) =>
    case ReadFailed(_) =>
  }

  lemma OtherWrites(u: State, c: Conn, e: Write, s: State, d: DeploymentId)
    requires c in u.sessions && NextWrite(u, c, e) == Some(s) && d in s.deployments && !e.Persist?
    ensures || (d in u.deployments && s.deployments[d] == u.deployments[d])
            || (Driver(s.deployments[d]) !in u.rows && StatusFits(s.deployments[d], None))
  {
    match e
    case CreatePlain(_) =>
    case CreateDeploy(_, _, _, _) =>
    case CreateRollback(_, _, _) =>
    case CreateNode(_) =>
    case PersistPlain(_) =>
  }

  /** In every reachable state a deployment has the status of the last step its deciding operation recorded. */
  lemma {:induction false} StatusIsLastStep(run: seq<Event>, name: Resource -> Name, s: State, d: DeploymentId)
    requires Reaches(run, name, s) && d in s.deployments
    ensures StatusFits(s.deployments[d], LastStep(run, name, Driver(s.deployments[d])))
    decreases |run|
  {
    if run == [] {
    } else {
      var k := |run| - 1;
      var u := LastEvent(run, name, s);
      ReachableInv(run[..k], name, u);
      if o :| Records(u, run[k], o) {
        RecordKeepsKeys(u, name, run[k], s, o);
        StatusIsLastStep(run[..k], name, u, d);
        RecordMoves(u, name, run[k], s, o, d);
      } else {
        OtherMoves(u, name, run[k], s, d);
        if d in u.deployments && s.deployments[d] == u.deployments[d] {
          StatusIsLastStep(run[..k], name, u, d);
        } else if LastStep(run[..k], name, Driver(s.deployments[d])).Some? {
          RecordedExists(run[..k], name, u, Driver(s.deployments[d]));
        }
      }
    }
  }

  lemma RecordKeepsKeys(u: State, name: Resource -> Name, e: Event, s: State, o: OpId)
    requires Next(u, e, name) == Some(s) && Records(u, e, o)
    ensures s.deployments.Keys == u.deployments.Keys
  {
  }

  // ----- in terms of events -----

  /** The last step is one that the run records, with no later one for the same operation. */
  lemma {:induction false} LastStepIsRecorded(run: seq<Event>, name: Resource -> Name, s: State, o: OpId)
    requires Reaches(run, name, s)
    ensures LastStep(run, name, o).Some? ==> Recorded(run, name, o, LastStep(run, name, o).value)
    ensures LastStep(run, name, o).None? ==> forall step :: !Recorded(run, name, o, step)
    decreases |run|
  {
    if run == [] {
    } else {
      var k := |run| - 1;
      var u := LastEvent(run, name, s);
      LastStepIsRecorded(run[..k], name, u, o);
      if Records(u, run[k], o) {
        assert RecordedAt(run, name, k, o, run[k].write.step);
      } else {
        forall step ensures Recorded(run[..k], name, o, step) <==> Recorded(run, name, o, step) {
          EarlierRecords(run, name, u, o, step);
        }
      }
    }
  }

  lemma EarlierRecords(run: seq<Event>, name: Resource -> Name, u: State, o: OpId, step: Step)
    requires run != [] && Reaches(run[..|run| - 1], name, u) && !Records(u, run[|run| - 1], o)
    ensures Recorded(run[..|run| - 1], name, o, step) <==> Recorded(run, name, o, step)
  {
    var past := run[..|run| - 1];
    forall j: nat | j < |past| ensures RecordedAt(past, name, j, o, step) <==> RecordedAt(run, name, j, o, step) {
      assert past[..j] == run[..j];
    }
    if Recorded(run, name, o, step) {
      var j: nat :| RecordedAt(run, name, j, o, step);
      assert j < |past|;
    }
  }

  /** A step that finishes the operation is the last one it ever records. */
  lemma {:induction false} FinalStepStays(run: seq<Event>, name: Resource -> Name, s: State, o: OpId, step: Step)
    requires Reaches(run, name, s) && step in {Succeed, Fail, NotObserved} && Recorded(run, name, o, step)
    ensures LastStep(run, name, o) == Some(step)
    ensures o in s.rows && s.rows[o].status == if step == Succeed then Success else Failed
    decreases |run|
  {
    if run == [] {
    } else {
      var k := |run| - 1;
      var u := LastEvent(run, name, s);
      ReachableInv(run[..k], name, u);
      var j: nat :| RecordedAt(run, name, j, o, step);
      if j == k {
        FinalRecord(u, name, run[k], s, o);
      } else {
        assert run[..k][..j] == run[..j];
        assert RecordedAt(run[..k], name, j, o, step);
        FinalStepStays(run[..k], name, u, o, step);
        FinishedStaysOneStep(u, run[k], name, s, o);
        FinishedRecordsNothing(u, name, run[k], s, o);
      }
    }
  }

  lemma FinishedRecordsNothing(u: State, name: Resource -> Name, e: Event, s: State, o: OpId)
    requires Inv(u, name) && Next(u, e, name) == Some(s) && o in u.rows && Terminal(u.rows[o].status)
    ensures !Records(u, e, o)
  {
    if e.Put? && e.c in u.sessions {
      assert JobOk(u.sessions[e.c].job, u.rows);
    }
  }

  lemma FinalRecord(u: State, name: Resource -> Name, e: Event, s: State, o: OpId)
    requires Inv(u, name) && Next(u, e, name) == Some(s) && Records(u, e, o)
    requires e.write.step in {Succeed, Fail, NotObserved}
    ensures o in s.rows && s.rows[o].status == if e.write.step == Succeed then Success else Failed
  {
    assert JobOk(u.sessions[e.c].job, u.rows);
  }

  // ----- main results -----

  /**
   What a deployment's status says, in every reachable state: SUCCESS exactly when its deploy has
   recorded success, ROLLED_BACK exactly when its latest rollback has, FAILED exactly when its
   deciding operation has recorded a failure, a rejection or a manual "not observed", and
   ROLLBACK_FAILED exactly when its latest rollback has last recorded that it gives up.
   */
  lemma StatusTellsHistory(run: seq<Event>, name: Resource -> Name, s: State, d: DeploymentId)
    requires Reaches(run, name, s) && d in s.deployments
    ensures var x := s.deployments[d];
            && (x.status == Succeeded <==> Recorded(run, name, x.op, Succeed))
            && (x.status == RolledBack <==> x.rollback.Some? && Recorded(run, name, x.rollback.value, Succeed))
            && (x.status == DeployFailed <==>
                  Recorded(run, name, Driver(x), Fail) || Recorded(run, name, Driver(x), NotObserved))
            && (x.status == RollbackFailed <==> x.rollback.Some? && LastStep(run, name, Driver(x)) == Some(GiveUp))
            && (x.status in {Deploying, RollingBack} ==> forall step :: !Recorded(run, name, Driver(x), step))
  {
    var x := s.deployments[d];
    ReachableInv(run, name, s);
    assert DeploymentOk(d, x, s.rows);
    StatusIsLastStep(run, name, s, d);
    LastStepIsRecorded(run, name, s, Driver(x));
    FinalsAreLast(run, name, s, Driver(x));
    if Recorded(run, name, x.op, Succeed) {
      FinalStepStays(run, name, s, x.op, Succeed);
    }
  }

  lemma FinalsAreLast(run: seq<Event>, name: Resource -> Name, s: State, o: OpId)
    requires Reaches(run, name, s)
    ensures forall step :: step in {Succeed, Fail, NotObserved} && Recorded(run, name, o, step) ==>
              LastStep(run, name, o) == Some(step)
  {
    forall step | step in {Succeed, Fail, NotObserved} && Recorded(run, name, o, step)
      ensures LastStep(run, name, o) == Some(step)
    {
      FinalStepStays(run, name, s, o, step);
    }
  }
}
