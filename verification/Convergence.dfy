/**
 How a service snapshot is judged: whether a deploy, a rollback or a scale has
 converged, has failed, was overtaken by somebody else, or is still under way.
 */
module Convergence {
  import opened Basics
  import opened Text

  datatype UpdateState = NoUpdate | Updating | Paused | Completed | RollbackStarted | RollbackPaused | RollbackCompleted

  datatype Task = Task(slot: int, running: bool, wantedRunning: bool, image: string, forceUpdate: nat, runtimeHash: nat)

  datatype Snapshot = Snapshot(
    version: nat, specHash: nat, image: string, state: UpdateState,
    desired: nat, running: nat, forceUpdate: nat, tasks: seq<Task>)

  datatype Plan = Plan(version: nat, before: nat, target: nat, forceUpdate: nat, runtimeHash: Option<nat>)

  datatype Decision = Pending | Success | RollbackIsPaused | Failed | ExternalConflict

  /** The image reference is pinned to the digest, ignoring case. */
  predicate ContainsDigest(image: string, digest: string) {
    image != "" && exists i :: 0 <= i < |image| && OccursAt("@" + LowerAll(digest), LowerAll(image), i)
  }

  /** The tasks worth keeping, in order. */
  function Kept(tasks: seq<Task>, keep: Task -> bool): seq<Task> {
    if tasks == [] then []
    else
      var rest := Kept(tasks[..|tasks| - 1], keep);
      if keep(tasks[|tasks| - 1]) then rest + [tasks[|tasks| - 1]] else rest
  }

  /** Runs and is meant to run. */
  predicate IsRunning(t: Task) {
    t.running && t.wantedRunning
  }

  predicate HasStarted(t: Task) {
    t.running
  }

  predicate Matches(t: Task, plan: Plan, digest: string) {
    t.slot > 0 && ContainsDigest(t.image, digest) && t.forceUpdate == plan.forceUpdate &&
      Some(t.runtimeHash) == plan.runtimeHash
  }

  function Slots(tasks: seq<Task>): (r: seq<int>)
    ensures |r| == |tasks| && forall i :: 0 <= i < |tasks| ==> r[i] == tasks[i].slot
  {
    seq(|tasks|, i requires 0 <= i < |tasks| => tasks[i].slot)
  }

  function Elements(xs: seq<int>): set<int> {
    set i | 0 <= i < |xs| :: xs[i]
  }

  predicate TasksConverged(s: Snapshot, plan: Plan, digest: string) {
    var running := Kept(s.tasks, IsRunning);
    && |running| == s.desired
    && |Elements(Slots(running))| == s.desired
    && (forall i :: 0 <= i < |running| ==> Matches(running[i], plan, digest))
  }

  function ClassifyDeploy(s: Snapshot, plan: Plan, digest: string, noOp: bool): Decision {
    var isTarget, isBefore := s.specHash == plan.target, s.specHash == plan.before;
    if s.state == RollbackStarted then
      if !isTarget && !isBefore then ExternalConflict else Pending
    else if s.state == RollbackPaused then
      if !isTarget && !isBefore then ExternalConflict else RollbackIsPaused
    else if !isTarget then
      if s.state == RollbackCompleted || s.state == Paused then
        if isBefore then Failed else ExternalConflict
      else if s.version > plan.version then ExternalConflict
      else Pending
    else if !ContainsDigest(s.image, digest) then Pending
    else if s.state == Paused then Failed
    else if !noOp && s.state == RollbackCompleted then Failed
    else if !noOp && s.state != Completed then Pending
    else if s.desired != s.running then Pending
    else if plan.runtimeHash.None? then Pending
    else if !TasksConverged(s, plan, digest) then Pending
    else Success
  }

  function ClassifyRollback(s: Snapshot, plan: Plan, digest: string): Decision {
    if s.specHash != plan.target then
      if s.state == RollbackStarted then Pending
      else if s.version > plan.version then ExternalConflict
      else Pending
    else if !ContainsDigest(s.image, digest) then Pending
    else if s.state == Paused || s.state == RollbackPaused then Failed
    else if s.state == RollbackStarted then Pending
    else if plan.runtimeHash.None? then Pending
    else if s.desired != s.running then Pending
    else if !TasksConverged(s, plan, digest) then Pending
    else Success
  }

  datatype Reconciliation =
    | TargetObserved | WaitingForMutation | RollbackInProgress | RollbackHalted | ReconcileFailed | Diverged

  function ClassifyReconciliation(s: Snapshot, plan: Plan): Reconciliation {
    var isTarget, isBefore := s.specHash == plan.target, s.specHash == plan.before;
    if s.state == RollbackStarted then
      if isTarget || isBefore then RollbackInProgress else Diverged
    else if s.state == RollbackPaused then
      if isTarget || isBefore then RollbackHalted else Diverged
    else if isTarget then TargetObserved
    else if s.state == RollbackCompleted || s.state == Paused then
      if isBefore then ReconcileFailed else Diverged
    else if s.version < plan.version || (s.version == plan.version && isBefore) then WaitingForMutation
    else Diverged
  }

  // ----- what the verdicts mean -----

  /** Exactly one matching running task in each of `desired` distinct positive slots, and no other running task. */
  ghost predicate OneTaskPerReplica(s: Snapshot, plan: Plan, digest: string) {
    && |Indexes(s.tasks, IsRunning)| == s.desired
    && (forall i :: 0 <= i < |s.tasks| && IsRunning(s.tasks[i]) ==> Matches(s.tasks[i], plan, digest))
    && (forall i, j :: 0 <= i < j < |s.tasks| && IsRunning(s.tasks[i]) && IsRunning(s.tasks[j]) ==>
          s.tasks[i].slot != s.tasks[j].slot)
  }

  ghost function Indexes(tasks: seq<Task>, keep: Task -> bool): set<int> {
    set i | 0 <= i < |tasks| && keep(tasks[i])
  }

  ghost predicate DistinctInts(xs: seq<int>) {
    forall i, j :: 0 <= i < j < |xs| ==> xs[i] != xs[j]
  }

  /** A list has as many different elements as positions exactly when no element repeats. */
  lemma {:induction false} SizeIsDistinctness(xs: seq<int>)
    ensures |Elements(xs)| <= |xs|
    ensures |Elements(xs)| == |xs| <==> DistinctInts(xs)
    decreases |xs|
  {
    if xs == [] {
      assert Elements(xs) == {};
    } else {
      var k := |xs| - 1;
      var front := xs[..k];
      SizeIsDistinctness(front);
      ElementsSnoc(front, xs[k]);
      assert xs == front + [xs[k]];
      if xs[k] in Elements(front) {
        assert Elements(xs) == Elements(front);
        var i :| 0 <= i < |front| && front[i] == xs[k];
        assert xs[i] == xs[k];
      } else {
        assert |Elements(xs)| == |Elements(front)| + 1;
        LastIsNew(front, xs[k]);
      }
    }
  }

  lemma ElementsSnoc(xs: seq<int>, x: int)
    ensures Elements(xs + [x]) == Elements(xs) + {x}
  {
    forall y ensures y in Elements(xs + [x]) <==> y in Elements(xs) + {x} {
      if y in Elements(xs) {
        var i :| 0 <= i < |xs| && xs[i] == y;
        assert (xs + [x])[i] == y;
      } else if y == x {
        assert (xs + [x])[|xs|] == y;
      }
    }
  }

  lemma LastIsNew(front: seq<int>, x: int)
    requires x !in Elements(front)
    ensures DistinctInts(front + [x]) <==> DistinctInts(front)
  {
    assert forall i :: 0 <= i < |front| ==> front[i] in Elements(front);
    if DistinctInts(front + [x]) {
      forall i, j | 0 <= i < j < |front| ensures front[i] != front[j] {
        assert (front + [x])[i] == front[i] && (front + [x])[j] == front[j];
      }
    }
  }

  /** `at` lists the positions of the kept tasks, in order. */
  ghost predicate Lists(tasks: seq<Task>, keep: Task -> bool, at: seq<int>) {
    && (forall k :: 0 <= k < |at| ==> 0 <= at[k] < |tasks| && keep(tasks[at[k]]))
    && (forall k, l :: 0 <= k < l < |at| ==> at[k] < at[l])
    && (forall i :: 0 <= i < |tasks| && keep(tasks[i]) ==> i in at)
  }

  ghost predicate Picks(tasks: seq<Task>, at: seq<int>, picked: seq<Task>) {
    |at| == |picked| && forall k :: 0 <= k < |at| ==> 0 <= at[k] < |tasks| && picked[k] == tasks[at[k]]
  }

  lemma {:induction false} Positions(tasks: seq<Task>, keep: Task -> bool) returns (at: seq<int>)
    ensures Lists(tasks, keep, at) && Picks(tasks, at, Kept(tasks, keep))
    decreases |tasks|
  {
    if tasks == [] {
      at := [];
    } else {
      var k := |tasks| - 1;
      var before := Positions(tasks[..k], keep);
      at := if keep(tasks[k]) then before + [k] else before;
      OneMoreListed(tasks, keep, before, at);
    }
  }

  lemma OneMoreListed(tasks: seq<Task>, keep: Task -> bool, before: seq<int>, at: seq<int>)
    requires tasks != [] && Lists(tasks[..|tasks| - 1], keep, before)
    requires at == if keep(tasks[|tasks| - 1]) then before + [|tasks| - 1] else before
    ensures Lists(tasks, keep, at)
  {
    var k := |tasks| - 1;
    forall i | 0 <= i < |tasks| && keep(tasks[i]) ensures i in at {
      if i < k {
        assert tasks[..k][i] == tasks[i];
        assert i in before;
      }
    }
  }

  lemma CountKept(tasks: seq<Task>, keep: Task -> bool, at: seq<int>)
    requires Lists(tasks, keep, at)
    ensures |Indexes(tasks, keep)| == |at|
  {
    SizeIsDistinctness(at);
    assert Indexes(tasks, keep) == Elements(at);
  }

  lemma ConvergedTasks(s: Snapshot, plan: Plan, digest: string)
    ensures TasksConverged(s, plan, digest) <==> OneTaskPerReplica(s, plan, digest)
  {
    var running := Kept(s.tasks, IsRunning);
    var at := Positions(s.tasks, IsRunning);
    CountKept(s.tasks, IsRunning, at);
    SizeIsDistinctness(Slots(running));
    SlotsMatch(s.tasks, at, Slots(running));
    if OneTaskPerReplica(s, plan, digest) {
      assert forall i :: 0 <= i < |running| ==> Matches(s.tasks[at[i]], plan, digest);
    }
    if TasksConverged(s, plan, digest) {
      forall i | 0 <= i < |s.tasks| && IsRunning(s.tasks[i]) ensures Matches(s.tasks[i], plan, digest) {
        var k :| 0 <= k < |at| && at[k] == i;
        assert Matches(running[k], plan, digest);
      }
    }
  }

  /** No slot repeats in the filtered list exactly when none repeats among the running tasks. */
  lemma SlotsMatch(tasks: seq<Task>, at: seq<int>, slots: seq<int>)
    requires Lists(tasks, IsRunning, at) && |at| == |slots|
    requires forall k :: 0 <= k < |at| ==> slots[k] == tasks[at[k]].slot
    ensures DistinctInts(slots) <==>
            forall i, j :: 0 <= i < j < |tasks| && IsRunning(tasks[i]) && IsRunning(tasks[j]) ==>
              tasks[i].slot != tasks[j].slot
  {
    if DistinctInts(slots) {
      forall i, j | 0 <= i < j < |tasks| && IsRunning(tasks[i]) && IsRunning(tasks[j])
        ensures tasks[i].slot != tasks[j].slot
      {
        var k :| 0 <= k < |at| && at[k] == i;
        var l :| 0 <= l < |at| && at[l] == j;
        assert k < l;
        assert slots[k] != slots[l];
      }
    }
  }

  /** A service the deploy has really reached. */
  ghost predicate DeployReached(s: Snapshot, plan: Plan, digest: string, noOp: bool) {
    && s.specHash == plan.target && ContainsDigest(s.image, digest)
    && (if noOp then s.state !in {Paused, RollbackStarted, RollbackPaused} else s.state == Completed)
    && s.running == s.desired
    && OneTaskPerReplica(s, plan, digest)
  }

  /** A task matches only a plan that names a runtime fingerprint, so a plan without one needs an empty service. */
  lemma DeploySuccess(s: Snapshot, plan: Plan, digest: string, noOp: bool)
    ensures ClassifyDeploy(s, plan, digest, noOp) == Success <==>
              DeployReached(s, plan, digest, noOp) && plan.runtimeHash.Some?
  {
    ConvergedTasks(s, plan, digest);
  }

  /** A service the rollback has really reached; only a plan with a runtime fingerprint can say so. */
  ghost predicate RollbackReached(s: Snapshot, plan: Plan, digest: string) {
    && s.specHash == plan.target && ContainsDigest(s.image, digest)
    && s.state !in {Paused, RollbackStarted, RollbackPaused}
    && s.running == s.desired
    && OneTaskPerReplica(s, plan, digest) && plan.runtimeHash.Some?
  }

  lemma RollbackSuccess(s: Snapshot, plan: Plan, digest: string)
    ensures ClassifyRollback(s, plan, digest) == Success <==> RollbackReached(s, plan, digest)
  {
    ConvergedTasks(s, plan, digest);
  }

  /**
   The three classifiers agree about one snapshot: what is a success for a deploy is one for a
   rollback to the same target and for the reconciliation, a deploy conflict is a divergence
   there, and what the reconciliation still waits for is not decided by the deploy either.
   */
  lemma ClassifiersAgree(s: Snapshot, plan: Plan, digest: string, noOp: bool)
    ensures ClassifyDeploy(s, plan, digest, noOp) == Success ==>
              ClassifyRollback(s, plan, digest) == Success && ClassifyReconciliation(s, plan) == TargetObserved
    ensures ClassifyDeploy(s, plan, digest, noOp) == RollbackIsPaused <==>
              ClassifyReconciliation(s, plan) == RollbackHalted
    ensures ClassifyDeploy(s, plan, digest, noOp) == ExternalConflict ==> ClassifyReconciliation(s, plan) == Diverged
    ensures ClassifyReconciliation(s, plan) == ReconcileFailed ==> ClassifyDeploy(s, plan, digest, noOp) == Failed
    ensures ClassifyReconciliation(s, plan) == WaitingForMutation ==> ClassifyDeploy(s, plan, digest, noOp) == Pending
  {
  }

  // ----- scale and restart -----

  /** What a scale or restart recorded: `resultVersion` once the Agent accepted it. */
  datatype Recorded = Recorded(scale: bool, resultVersion: Option<nat>, target: nat, forceUpdate: nat, replicas: nat)

  function ClassifyMutation(s: Snapshot, op: Recorded): Decision {
    if op.resultVersion.Some? && s.version < op.resultVersion.value then Pending
    else if s.specHash != op.target then ExternalConflict
    else if s.state == Paused || s.state == RollbackStarted || s.state == RollbackCompleted then Failed
    else if s.forceUpdate != op.forceUpdate then Pending
    else if s.desired != s.running then Pending
    else if op.scale then (if s.desired == op.replicas then Success else Pending)
    else if s.state != Completed then Pending
    else
      var started := Kept(s.tasks, HasStarted);
      if |started| == s.desired && (forall i :: 0 <= i < |started| ==> started[i].forceUpdate == op.forceUpdate)
      then Success
      else Pending
  }

  /**
   The accepted version or a later one shows the target, all replicas run, and after a restart every
   one of them is new.
   */
  ghost predicate MutationReached(s: Snapshot, op: Recorded) {
    && (op.resultVersion.Some? ==> s.version >= op.resultVersion.value)
    && s.specHash == op.target && s.forceUpdate == op.forceUpdate && s.running == s.desired
    && if op.scale then s.desired == op.replicas && s.state !in {Paused, RollbackStarted, RollbackCompleted}
       else && s.state == Completed && |Indexes(s.tasks, HasStarted)| == s.desired
            && forall i :: 0 <= i < |s.tasks| && HasStarted(s.tasks[i]) ==> s.tasks[i].forceUpdate == op.forceUpdate
  }

  lemma MutationSuccess(s: Snapshot, op: Recorded)
    ensures ClassifyMutation(s, op) == Success <==> MutationReached(s, op)
  {
    var started := Kept(s.tasks, HasStarted);
    var at := Positions(s.tasks, HasStarted);
    CountKept(s.tasks, HasStarted, at);
    if forall i :: 0 <= i < |started| ==> started[i].forceUpdate == op.forceUpdate {
      forall i | 0 <= i < |s.tasks| && HasStarted(s.tasks[i]) ensures s.tasks[i].forceUpdate == op.forceUpdate {
        var k :| 0 <= k < |at| && at[k] == i;
        assert started[k] == s.tasks[i];
      }
    }
  }
}
