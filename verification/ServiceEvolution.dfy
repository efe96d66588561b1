/**
 What the verdicts on a deploy or a rollback say about the service behind the
 snapshots: a Swarm service whose update and automatic rollback advance by themselves and that other
 writers may change at any time.
 */
module ServiceEvolution {
  import opened Basics
  import opened Convergence

  /** `previous` is the spec an automatic rollback goes back to. */
  datatype Service = Service(version: nat, spec: nat, previous: nat, state: UpdateState)

  datatype Change =
    | Start
    | Complete
    | Pause
    | RollBack
    | FinishRollback
    | PauseRollback
    | Write(spec: nat)   // somebody else updates the service

  /** Every change makes a newer version; a written spec starts without an update status. */
  function Changed(s: Service, c: Change): Option<Service> {
    match c
    case Start => if s.state != NoUpdate then None else Some(s.(version := s.version + 1, state := Updating))
    case Complete => if s.state != Updating then None else Some(s.(version := s.version + 1, state := Completed))
    case Pause => if s.state != Updating then None else Some(s.(version := s.version + 1, state := Paused))
    case RollBack =>
      if s.state != Updating then None
      else Some(s.(version := s.version + 1, spec := s.previous, state := RollbackStarted))
    case FinishRollback =>
      if s.state != RollbackStarted then None else Some(s.(version := s.version + 1, state := RollbackCompleted))
    case PauseRollback =>
      if s.state != RollbackStarted then None else Some(s.(version := s.version + 1, state := RollbackPaused))
    case Write(spec) => Some(Service(s.version + 1, spec, s.spec, NoUpdate))
  }

  function ChangedBy(s: Service, run: seq<Change>): Option<Service>
    decreases |run|
  {
    if run == [] then Some(s)
    else match Changed(s, run[0])
      case None => None
      case Some(t) => ChangedBy(t, run[1..])
  }

  /** The service right after the deploy's own version-checked update of the planned spec. */
  function Dispatched(plan: Plan): Service {
    Service(plan.version + 1, plan.target, plan.before, NoUpdate)
  }

  predicate Shows(snapshot: Snapshot, s: Service) {
    snapshot.version == s.version && snapshot.specHash == s.spec && snapshot.state == s.state
  }

  /** The deploy's own update under way, done, halted, or rolled back to where it started. */
  predicate Own(s: Service, plan: Plan) {
    && s.previous == plan.before
    && s.spec == if s.state in {RollbackStarted, RollbackPaused, RollbackCompleted} then plan.before else plan.target
  }

  ghost predicate Undisturbed(run: seq<Change>) {
    forall k :: 0 <= k < |run| ==> !run[k].Write?
  }

  lemma {:induction false} VersionsRise(s: Service, run: seq<Change>, t: Service)
    requires ChangedBy(s, run) == Some(t)
    ensures t.version >= s.version
    decreases |run|
  {
    if run == [] {
    } else {
      VersionsRise(Changed(s, run[0]).value, run[1..], t);
    }
  }

  lemma {:induction false} StaysOwn(s: Service, run: seq<Change>, t: Service, plan: Plan)
    requires Own(s, plan) && Undisturbed(run) && ChangedBy(s, run) == Some(t)
    ensures Own(t, plan)
    decreases |run|
  {
    if run == [] {
    } else {
      StaysOwn(Changed(s, run[0]).value, run[1..], t, plan);
    }
  }

  /**
   Conflicts over every history of the service: a spec that is neither the one before nor the
   target is always one, the one before is one unless a halted or rolled-back update explains
   it, the target never is. A conflict therefore always has somebody else behind it.
   */
  lemma ConflictsAreForeign(plan: Plan, run: seq<Change>, s: Service, snapshot: Snapshot, digest: string, noOp: bool)
    requires ChangedBy(Dispatched(plan), run) == Some(s) && Shows(snapshot, s)
    ensures ClassifyDeploy(snapshot, plan, digest, noOp) == ExternalConflict <==>
              s.spec != plan.target && (s.spec != plan.before || s.state in {NoUpdate, Updating, Completed})
    ensures ClassifyDeploy(snapshot, plan, digest, noOp) == ExternalConflict ==> !Undisturbed(run)
  {
    VersionsRise(Dispatched(plan), run, s);
    if Undisturbed(run) {
      StaysOwn(Dispatched(plan), run, s, plan);
    }
  }

  /**
   As long as nobody else writes, the verdict on an update follows Swarm's own: given up exactly
   when Swarm paused the update or finished rolling it back, halted exactly when it paused
   the rollback, and never a success before Swarm completed it.
   */
  lemma VerdictsFollowSwarm(plan: Plan, run: seq<Change>, s: Service, snapshot: Snapshot, digest: string)
    requires ChangedBy(Dispatched(plan), run) == Some(s) && Shows(snapshot, s) && Undisturbed(run)
    requires s.spec == plan.target ==> ContainsDigest(snapshot.image, digest)
    ensures var verdict := ClassifyDeploy(snapshot, plan, digest, false);
            && (verdict == Failed <==> s.state in {Paused, RollbackCompleted})
            && (verdict == RollbackIsPaused <==> s.state == RollbackPaused)
            && (verdict == Success ==> s.state == Completed && s.spec == plan.target)
            && verdict != ExternalConflict
  {
    StaysOwn(Dispatched(plan), run, s, plan);
    DeploySuccess(snapshot, plan, digest, false);
  }

  // ----- rollbacks -----

  /** The service right after the version-checked rollback of a plan, which Swarm shows as one from the start. */
  function RollbackSent(plan: Plan): Service {
    Service(plan.version + 1, plan.target, plan.before, RollbackStarted)
  }

  /**
   Where the history of a rollback begins: at the rollback this plan asked for, or at one that was
   found under way or completed, whose version the plan then names.
   */
  predicate RollbackBegins(s: Service, plan: Plan) {
    || s == RollbackSent(plan)
    || (s.version == plan.version && s.spec == plan.target && s.state in {RollbackStarted, RollbackCompleted})
  }

  predicate OwnRollback(s: Service, plan: Plan) {
    s.spec == plan.target && s.state in {RollbackStarted, RollbackPaused, RollbackCompleted}
  }

  lemma {:induction false} StaysOwnRollback(s: Service, run: seq<Change>, t: Service, plan: Plan)
    requires OwnRollback(s, plan) && Undisturbed(run) && ChangedBy(s, run) == Some(t)
    ensures OwnRollback(t, plan)
    decreases |run|
  {
    if run == [] {
    } else {
      StaysOwnRollback(Changed(s, run[0]).value, run[1..], t, plan);
    }
  }

  lemma ChangesAreNewer(s: Service, run: seq<Change>, t: Service)
    requires ChangedBy(s, run) == Some(t) && run != []
    ensures t.version > s.version
  {
    VersionsRise(Changed(s, run[0]).value, run[1..], t);
  }

  /**
   Conflicts of a rollback over every history: any spec but the target is one, except while it is
   being rolled back, and the target never is. The spec the rollback left behind is no excuse, as it
   is for a deploy. A conflict always has somebody else behind it.
   */
  lemma RollbackConflictsAreForeign(plan: Plan, first: Service, run: seq<Change>, s: Service, snapshot: Snapshot,
      digest: string)
    requires RollbackBegins(first, plan) && ChangedBy(first, run) == Some(s) && Shows(snapshot, s)
    ensures ClassifyRollback(snapshot, plan, digest) == ExternalConflict <==>
              s.spec != plan.target && s.state != RollbackStarted
    ensures ClassifyRollback(snapshot, plan, digest) == ExternalConflict ==> !Undisturbed(run)
  {
    if run == [] {
    } else {
      ChangesAreNewer(first, run, s);
    }
    if Undisturbed(run) {
      StaysOwnRollback(first, run, s, plan);
    }
  }

  /**
   As long as nobody else writes, a rollback is given up exactly when Swarm paused it, is never a
   success before Swarm completed it, and is waited for as long as it runs.
   */
  lemma RollbackVerdictsFollowSwarm(plan: Plan, first: Service, run: seq<Change>, s: Service, snapshot: Snapshot,
      digest: string)
    requires RollbackBegins(first, plan) && ChangedBy(first, run) == Some(s) && Shows(snapshot, s) && Undisturbed(run)
    requires ContainsDigest(snapshot.image, digest)
    ensures var verdict := ClassifyRollback(snapshot, plan, digest);
            && (verdict == Failed <==> s.state == RollbackPaused)
            && (verdict == Success ==> s.state == RollbackCompleted && s.spec == plan.target)
            && (s.state == RollbackStarted ==> verdict == Pending)
            && verdict != ExternalConflict
  {
    StaysOwnRollback(first, run, s, plan);
    RollbackSuccess(snapshot, plan, digest);
  }

  // ----- reconciliation after an interruption -----

  const RollingBack := {RollbackStarted, RollbackPaused, RollbackCompleted}

  /**
   What a restarted Control Plane makes of a deploy whose update did reach the service: as long as
   nobody else writes, the verdict names the state Swarm is in, and it is never taken for
   an update that has not arrived or for somebody else's.
   */
  lemma ReconciliationFollowsSwarm(plan: Plan, run: seq<Change>, s: Service, snapshot: Snapshot)
    requires ChangedBy(Dispatched(plan), run) == Some(s) && Shows(snapshot, s) && Undisturbed(run)
    ensures var verdict := ClassifyReconciliation(snapshot, plan);
            && (verdict == RollbackInProgress <==> s.state == RollbackStarted)
            && (verdict == RollbackHalted <==> s.state == RollbackPaused)
            && (verdict == ReconcileFailed <==> s.state == RollbackCompleted && plan.before != plan.target)
            && verdict != WaitingForMutation && verdict != Diverged
  {
    StaysOwn(Dispatched(plan), run, s, plan);
  }

  /**
   With other writers: a divergence is a spec that the deploy does not explain, an update that has
   arrived is never waited for, and the target is recognised whoever wrote it.
   */
  lemma DivergenceIsForeign(plan: Plan, run: seq<Change>, s: Service, snapshot: Snapshot)
    requires ChangedBy(Dispatched(plan), run) == Some(s) && Shows(snapshot, s)
    ensures var verdict := ClassifyReconciliation(snapshot, plan);
            && (verdict == Diverged <==>
                  s.spec != plan.target && (s.spec != plan.before || s.state in {NoUpdate, Updating, Completed}))
            && (verdict == TargetObserved <==> s.spec == plan.target && s.state !in {RollbackStarted, RollbackPaused})
            && verdict != WaitingForMutation
            && (verdict == Diverged ==> !Undisturbed(run))
  {
    VersionsRise(Dispatched(plan), run, s);
    if Undisturbed(run) {
      StaysOwn(Dispatched(plan), run, s, plan);
    }
  }

  /**
   A service that the update has not reached is waited for exactly when its last update was not
   itself halted or rolled back: then the old outcome is taken for that of the deploy.
   */
  lemma UnsentIsAwaited(plan: Plan, s: Service, snapshot: Snapshot)
    requires s.version == plan.version && s.spec == plan.before && plan.before != plan.target && Shows(snapshot, s)
    ensures ClassifyReconciliation(snapshot, plan) == WaitingForMutation <==> s.state !in RollingBack + {Paused}
    ensures ClassifyReconciliation(snapshot, plan) == ReconcileFailed <==> s.state in {RollbackCompleted, Paused}
  {
  }

  /** A deploy that was never sent, to a service whose last update was rolled back, is taken for a failed one. */
  lemma UnsentExample() returns (plan: Plan, s: Service, snapshot: Snapshot)
    ensures s.version == plan.version && s.spec == plan.before && plan.before != plan.target && Shows(snapshot, s)
    ensures ClassifyReconciliation(snapshot, plan) == ReconcileFailed
  {
    plan := Plan(4, 10, 20, 0, None);
    s := Service(4, 10, 9, RollbackCompleted);
    snapshot := Snapshot(4, 10, "", RollbackCompleted, 0, 0, 0, []);
  }

  // ----- scale and restart -----

  /** The service right after an accepted scale or restart of a service that had spec `before`. */
  function Mutated(op: Recorded, before: nat): Service
    requires op.resultVersion.Some?
  {
    Service(op.resultVersion.value, op.target, before, NoUpdate)
  }

  lemma {:induction false} StaysMutated(s: Service, run: seq<Change>, t: Service, before: nat, target: nat)
    requires s.previous == before && s.spec == if s.state in RollingBack then before else target
    requires Undisturbed(run) && ChangedBy(s, run) == Some(t)
    ensures t.previous == before && t.spec == if t.state in RollingBack then before else target
    decreases |run|
  {
    if run == [] {
    } else {
      StaysMutated(Changed(s, run[0]).value, run[1..], t, before, target);
    }
  }

  /**
   The verdicts on a scale or restart over every history: a conflict is any other spec, and a
   failure the target in a state that Swarm has given up. Without other writers a conflict is
   therefore Swarm's own rollback, whenever the mutation changed the spec at all.
   */
  lemma MutationVerdicts(op: Recorded, before: nat, run: seq<Change>, s: Service, snapshot: Snapshot)
    requires op.resultVersion.Some? && ChangedBy(Mutated(op, before), run) == Some(s) && Shows(snapshot, s)
    ensures var verdict := ClassifyMutation(snapshot, op);
            && (verdict == ExternalConflict <==> s.spec != op.target)
            && (verdict == Failed <==> s.spec == op.target && s.state in {Paused, RollbackStarted, RollbackCompleted})
            && verdict != RollbackIsPaused
            && (Undisturbed(run) && before != op.target ==>
                  && (verdict == ExternalConflict <==> s.state in RollingBack)
                  && (verdict == Failed <==> s.state == Paused))
  {
    VersionsRise(Mutated(op, before), run, s);
    if Undisturbed(run) {
      StaysMutated(Mutated(op, before), run, s, before, op.target);
    }
  }

  /** A snapshot from before the accepted version decides nothing. */
  lemma OldSnapshotsDecideNothing(op: Recorded, s: Service, run: seq<Change>, before: nat, snapshot: Snapshot)
    requires op.resultVersion.Some? && ChangedBy(s, run) == Some(Mutated(op, before)) && run != [] && Shows(snapshot, s)
    ensures ClassifyMutation(snapshot, op) == Pending
  {
    ChangesAreNewer(s, run, Mutated(op, before));
  }
}
