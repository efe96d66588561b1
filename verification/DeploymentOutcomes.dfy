/**
 How the result of an observation loop is recorded, and what the recorded status
 of a deployment therefore says about the service that was observed.
 */
module DeploymentOutcomes {
  import opened Basics
  import opened MaintenanceDb
  import opened Work
  import opened WorkInvariants
  import opened WorkTheorems
  import opened WorkOutcomes
  import C = Convergence
  import V = Verification

  /** The step that the loop of a deploy or of a rollback records for its outcome. */
  function StepOf(rollback: bool, outcome: V.Outcome): Step {
    match outcome
    case Succeeded => Succeed
    case ConvergenceFailed => if rollback then GiveUp else Fail
    case HealthFailed => if rollback then GiveUp else Fail
    case Conflict => NeedAttention
    case PausedRollback => NeedAttention
    case TimedOut(unavailable) => if unavailable then NeedAttention else Verify
  }

  /** Session `c` drives the operation that decides deployment `d`, a rollback or not. */
  ghost predicate Decides(s: State, c: Conn, d: DeploymentId, rollback: bool) {
    && c in s.sessions && Inside(s.sessions[c]) && s.sessions[c].job.OnService? && s.sessions[c].job.driving.Some?
    && s.sessions[c].job.driving.value in s.rows && d in s.deployments
    && s.rows[s.sessions[c].job.driving.value].target ==
         if rollback then RollbackOf(s.deployments[d].service, d) else DeployOf(s.deployments[d].service, d)
  }

  /** The recorded status of a deploy follows the outcome of its loop. */
  lemma DeployIsRecorded(run: seq<Event>, name: Resource -> Name, s: State, c: Conn, d: DeploymentId,
      outcome: V.Outcome) returns (t: State)
    requires Reaches(run, name, s) && Decides(s, c, d, false)
    ensures Next(s, Put(c, Persist(StepOf(false, outcome))), name) == Some(t)
    ensures d in t.deployments && t.deployments[d].op in t.rows
    ensures var status, row := t.deployments[d].status, t.rows[t.deployments[d].op].status;
            && (outcome == V.Succeeded <==> status == Succeeded && row == Success)
            && (outcome in {V.ConvergenceFailed, V.HealthFailed} <==> status == DeployFailed && row == Failed)
            && (outcome in {V.Conflict, V.PausedRollback, V.TimedOut(true)} <==>
                  status == Attention && row == NeedsAttention)
            && (outcome == V.TimedOut(false) <==> status == Checking && row == Verifying)
  {
    t := Recording(run, name, s, c, d, false, StepOf(false, outcome));
  }

  lemma RollbackIsRecorded(run: seq<Event>, name: Resource -> Name, s: State, c: Conn, d: DeploymentId,
      outcome: V.Outcome) returns (t: State)
    requires Reaches(run, name, s) && Decides(s, c, d, true)
    ensures Next(s, Put(c, Persist(StepOf(true, outcome))), name) == Some(t)
    ensures d in t.deployments && t.deployments[d].rollback.Some? && t.deployments[d].rollback.value in t.rows
    ensures var status, row := t.deployments[d].status, t.rows[t.deployments[d].rollback.value].status;
            && (outcome == V.Succeeded <==> status == RolledBack && row == Success)
            && (outcome in {V.ConvergenceFailed, V.HealthFailed} <==> status == RollbackFailed && row == NeedsAttention)
            && (outcome in {V.Conflict, V.PausedRollback, V.TimedOut(true)} <==>
                  status == Attention && row == NeedsAttention)
            && (outcome == V.TimedOut(false) <==> status == RollbackChecking && row == Verifying)
  {
    t := Recording(run, name, s, c, d, true, StepOf(true, outcome));
  }

  lemma Recording(run: seq<Event>, name: Resource -> Name, s: State, c: Conn, d: DeploymentId, rollback: bool,
      step: Step) returns (t: State)
    requires Reaches(run, name, s) && Decides(s, c, d, rollback) && step != NotObserved
    ensures Next(s, Put(c, Persist(step)), name) == Some(t)
    ensures var o := s.sessions[c].job.driving.value;
            && d in t.deployments && t.deployments[d].rollback.Some? == rollback && Driver(t.deployments[d]) == o
            && o in t.rows && StatusFits(t.deployments[d], Some(step))
            && t.rows[o].status == match step
                                   case Verify => Verifying
                                   case Succeed => Success
                                   case Fail => Failed
                                   case _ => NeedsAttention
  {
    var o := s.sessions[c].job.driving.value;
    ReachableInv(run, name, s);
    assert JobOk(s.sessions[c].job, s.rows);
    assert RowOk(o, s.rows[o], s.deployments) && DeploymentOk(d, s.deployments[d], s.rows);
    t := NextPersist(s, c, step).value;
    assert Records(s, Put(c, Persist(step)), o);
    RecordMoves(s, name, Put(c, Persist(step)), t, o, d);
  }

  // ----- what a recorded success rests on -----

  /** Event number `k`, if it records a success of operation `o`, was preceded by the observations in `log`. */
  ghost predicate Observed(run: seq<Event>, name: Resource -> Name, k: nat, o: OpId, log: V.Log,
      classify: C.Snapshot -> C.Decision, health: V.Health) {
    RecordedAt(run, name, k, o, Succeed) ==>
      exists outcome, rollback: bool ::
        StepOf(rollback, outcome) == Succeed && V.Justified(log, classify, health, outcome)
  }

  ghost predicate RestsOn(run: seq<Event>, name: Resource -> Name, k: nat, o: OpId, log: V.Log,
      reached: C.Snapshot -> bool, health: V.Health) {
    RecordedAt(run, name, k, o, Succeed) && V.SuccessRests(log, reached, health)
  }

  /**
   A deployment with status SUCCESS has been observed to be one: if every success is recorded from an
   observation loop, some record of its deploy rests on a log whose last snapshot reached the
   target with its placement confirmed, after a stable run of probes.
   */
  lemma SuccessWasObserved(run: seq<Event>, name: Resource -> Name, s: State, d: DeploymentId, logs: nat -> V.Log,
      classify: C.Snapshot -> C.Decision, plan: C.Plan, digest: string, noOp: bool, health: V.Health)
    requires Reaches(run, name, s) && d in s.deployments && s.deployments[d].status == Succeeded
    requires forall x :: classify(x) == C.ClassifyDeploy(x, plan, digest, noOp)
    requires forall k: nat :: Observed(run, name, k, s.deployments[d].op, logs(k), classify, health)
    ensures exists k: nat ::
              RestsOn(run, name, k, s.deployments[d].op, logs(k), x => C.DeployReached(x, plan, digest, noOp), health)
  {
    var o := s.deployments[d].op;
    StatusTellsHistory(run, name, s, d);
    var k: nat :| RecordedAt(run, name, k, o, Succeed);
    assert Observed(run, name, k, o, logs(k), classify, health);
    V.DeploySuccessContract(logs(k), classify, plan, digest, noOp, health);
    assert RestsOn(run, name, k, o, logs(k), x => C.DeployReached(x, plan, digest, noOp), health);
  }

  /** The same for ROLLED_BACK and the previous release. */
  lemma RollbackWasObserved(run: seq<Event>, name: Resource -> Name, s: State, d: DeploymentId, logs: nat -> V.Log,
      classify: C.Snapshot -> C.Decision, plan: C.Plan, digest: string, health: V.Health)
    requires Reaches(run, name, s) && d in s.deployments && s.deployments[d].status == RolledBack
    requires forall x :: classify(x) == C.ClassifyRollback(x, plan, digest)
    requires forall k: nat :: Observed(run, name, k, Driver(s.deployments[d]), logs(k), classify, health)
    ensures exists k: nat ::
              RestsOn(run, name, k, Driver(s.deployments[d]), logs(k), x => C.RollbackReached(x, plan, digest), health)
  {
    var o := Driver(s.deployments[d]);
    StatusTellsHistory(run, name, s, d);
    var k: nat :| RecordedAt(run, name, k, o, Succeed);
    assert Observed(run, name, k, o, logs(k), classify, health);
    V.RollbackSuccessContract(logs(k), classify, plan, digest, health);
    assert RestsOn(run, name, k, o, logs(k), x => C.RollbackReached(x, plan, digest), health);
  }
}
