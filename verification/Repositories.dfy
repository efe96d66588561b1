/**
 The Control Plane's repositories in the form the source has them: transactions
 that read rows, check them one by one, write and either commit or roll back.
 Each is proved to commit exactly when the corresponding transaction of
 `MaintenanceDb` is possible, and to leave every table alone otherwise.
 */
module Repositories {
  import opened Basics
  import opened MaintenanceDb

  /** How a transaction ended: committed, rolled back by a lost compare-and-swap, or rolled back by an exception. */
  datatype Outcome = Committed | Unmatched | Threw

  /** A row of `deployments` with the service of its target; `rollback` is its last rollback operation. */
  datatype DeploymentRow = DeploymentRow(op: OperationId, rollback: Option<OperationId>, resource: ResourceId,
    status: DeploymentStatus)

  /** The deployment that a deploy or a rollback attempt belongs to, still where the operation left it. */
  ghost predicate Linked(deployments: map<DeploymentId, DeploymentRow>, attempts: map<OperationId, DeploymentId>,
      op: OperationId, row: OperationRow, d: DeploymentId) {
    && d in deployments && deployments[d].resource == row.resource
    && if row.kind == Rollback then
         op in attempts && attempts[op] == d && deployments[d].rollback == Some(op) &&
           deployments[d].status == RollbackChecking
       else
         && deployments[d].op == op && deployments[d].rollback.None? && deployments[d].status == Attention
         && forall e :: e in deployments && deployments[e].op == op ==> e == d
  }

  predicate HasDeployment(kind: Kind) {
    kind == Deploy || kind == Rollback
  }

  ghost predicate LinkHolds(deployments: map<DeploymentId, DeploymentRow>, attempts: map<OperationId, DeploymentId>,
      op: OperationId, row: OperationRow) {
    HasDeployment(row.kind) ==> exists d :: Linked(deployments, attempts, op, row, d)
  }

  /** A resolution would settle the operation: finished, or awaiting a verdict and found unchanged. */
  ghost predicate Settles(db: Db, deployments: map<DeploymentId, DeploymentRow>,
      attempts: map<OperationId, DeploymentId>, op: OperationId, observed: Option<(nat, SpecHash)>) {
    && op in db.dispatches && op !in db.resolvedDispatches && Lookup(db, op).Some?
    && var row := Lookup(db, op).value;
       || row.status in {Success, Failed}
       || (&& AwaitsVerdict(row) && observed == Some((row.expectedVersion, row.beforeHash))
           && LinkHolds(deployments, attempts, op, row))
  }

  /** A rollback awaits a verdict while it is still verified, everything else once it needs attention. */
  predicate AwaitsVerdict(row: OperationRow) {
    (row.status, row.code) ==
      if row.kind == Rollback then (Verifying, RollbackStillInProgress) else (NeedsAttention, MutationNotObserved)
  }

  function FailDeployment(deployments: map<DeploymentId, DeploymentRow>,
      d: DeploymentId): map<DeploymentId, DeploymentRow>
    requires d in deployments
  {
    deployments[d := deployments[d].(status := DeployFailed)]
  }

  /** The linked deployment, and no other, failed together with its operation. */
  ghost predicate FailedTogether(before: map<DeploymentId, DeploymentRow>, after: map<DeploymentId, DeploymentRow>,
      attempts: map<OperationId, DeploymentId>, op: OperationId, row: OperationRow) {
    if HasDeployment(row.kind) then
      exists d :: Linked(before, attempts, op, row, d) && after == FailDeployment(before, d)
    else after == before
  }

  predicate StrictlyIncreasing(ids: seq<AgentId>) {
    forall i, j :: 0 <= i < j < |ids| ==> ids[i] < ids[j]
  }

  predicate Distinct(ids: seq<AgentId>) {
    forall i, j :: 0 <= i < j < |ids| ==> ids[i] != ids[j]
  }

  function SetOf(ids: seq<AgentId>): set<AgentId> {
    set i | 0 <= i < |ids| :: ids[i]
  }

  predicate IsLeast(m: AgentId, ids: set<AgentId>) {
    m in ids && forall x :: x in ids ==> m <= x
  }

  lemma {:induction false} LeastExists(ids: set<AgentId>)
    requires ids != {}
    ensures exists m :: IsLeast(m, ids)
    decreases |ids|
  {
    var a :| a in ids;
    var others := ids - {a};
    if others == {} {
      assert ids == {a};
      assert IsLeast(a, ids);
    } else {
      LeastExists(others);
      var m :| IsLeast(m, others);
      assert ids == others + {a};
      assert IsLeast(if a < m then a else m, ids);
    }
  }

  method Least(ids: set<AgentId>) returns (m: AgentId)
    requires ids != {}
    ensures IsLeast(m, ids)
  {
    LeastExists(ids);
    m :| m in ids && IsLeast(m, ids);
  }

  /** `ORDER BY agent_id`, and `sort()` on distinct IDs. */
  method SortedIds(ids: set<AgentId>) returns (r: seq<AgentId>)
    ensures StrictlyIncreasing(r) && SetOf(r) == ids
  {
    r := [];
    var rest := ids;
    while rest != {}
      invariant StrictlyIncreasing(r) && SetOf(r) + rest == ids
      invariant forall i, x :: 0 <= i < |r| && x in rest ==> r[i] < x
      decreases rest
    {
      var m := Least(rest);
      SetOfSnoc(r, m);
      r := r + [m];
      rest := rest - {m};
    }
  }

  lemma SetOfSnoc(r: seq<AgentId>, m: AgentId)
    ensures SetOf(r + [m]) == SetOf(r) + {m}
  {
    forall x ensures x in SetOf(r + [m]) <==> x in SetOf(r) + {m} {
      if x in SetOf(r) {
        var i :| 0 <= i < |r| && r[i] == x;
        assert (r + [m])[i] == x;
      } else if x == m {
        assert (r + [m])[|r|] == x;
      }
    }
  }

  lemma DropLast(r: seq<AgentId>)
    requires StrictlyIncreasing(r) && r != []
    ensures SetOf(r[..|r| - 1]) == SetOf(r) - {r[|r| - 1]}
    ensures forall x :: x in SetOf(r) ==> x <= r[|r| - 1]
  {
    assert r == r[..|r| - 1] + [r[|r| - 1]];
    SetOfSnoc(r[..|r| - 1], r[|r| - 1]);
  }

  /** A strictly increasing list is determined by its elements. */
  lemma {:induction false} SortedUnique(a: seq<AgentId>, b: seq<AgentId>)
    requires StrictlyIncreasing(a) && StrictlyIncreasing(b) && SetOf(a) == SetOf(b)
    ensures a == b
    decreases |a|
  {
    if a == [] {
      assert forall i :: 0 <= i < |b| ==> b[i] in SetOf(b);
    } else {
      assert a[0] in SetOf(a);
      assert b != [];
      DropLast(a);
      DropLast(b);
      var x, y := a[|a| - 1], b[|b| - 1];
      assert x in SetOf(a) && y in SetOf(b);
      SortedUnique(a[..|a| - 1], b[..|b| - 1]);
      assert a == a[..|a| - 1] + [x] && b == b[..|b| - 1] + [y];
    }
  }

  lemma OnlyOne(ids: set<DeploymentId>, d: DeploymentId)
    requires |ids| == 1 && d in ids
    ensures ids == {d}
  {
    assert |ids - {d}| == 0;
    assert ids - {d} == {};
  }

  class Database {
    var maintenance: Option<MaintenanceRow>
    var audit: seq<MaintenanceRow>
    var now: nat
    var lease: Option<LeaseRow>
    var acks: map<AgentId, nat>
    var admissions: map<AdmissionId, nat>
    var dispatches: map<OperationId, Dispatch>
    var operations: map<OperationId, OperationRow>
    var nodeOperations: map<OperationId, OperationRow>
    var resolvedAdmissions: set<AdmissionId>
    var resolvedDispatches: map<OperationId, Resolution>

    var deployments: map<DeploymentId, DeploymentRow>
    var attempts: map<OperationId, DeploymentId>     // rollback_attempts

    /** The tables of the maintenance protocol. */
    ghost function View(): Db
      reads this
    {
      Db(maintenance, audit, now, lease, acks, admissions, dispatches, operations, nodeOperations,
         resolvedAdmissions, resolvedDispatches)
    }

    constructor(d: Db)
      ensures View() == d
    {
      maintenance, audit, now, lease, acks := d.maintenance, d.audit, d.now, d.lease, d.acks;
      admissions, dispatches, operations, nodeOperations := d.admissions, d.dispatches, d.operations, d.nodeOperations;
      resolvedAdmissions, resolvedDispatches := d.resolvedAdmissions, d.resolvedDispatches;
      deployments, attempts := map[], map[];
    }

    /** What other processes have committed meanwhile. */
    method Load(d: Db, deployments: map<DeploymentId, DeploymentRow>, attempts: map<OperationId, DeploymentId>)
      modifies this
      ensures View() == d && this.deployments == deployments && this.attempts == attempts
    {
      this.deployments, this.attempts := deployments, attempts;
      LoadControl(d);
      LoadWork(d);
    }

    method LoadControl(d: Db)
      modifies this`maintenance, this`audit, this`now, this`lease, this`acks
      ensures View() == d.(admissions := admissions, dispatches := dispatches, operations := operations,
                           nodeOperations := nodeOperations, resolvedAdmissions := resolvedAdmissions,
                           resolvedDispatches := resolvedDispatches)
    {
      maintenance, audit, now, lease, acks := d.maintenance, d.audit, d.now, d.lease, d.acks;
    }

    method LoadWork(d: Db)
      modifies this`admissions, this`dispatches, this`operations, this`nodeOperations
      modifies this`resolvedAdmissions, this`resolvedDispatches
      ensures View() == d.(maintenance := maintenance, audit := audit, now := now, lease := lease, acks := acks)
    {
      admissions, dispatches, operations, nodeOperations := d.admissions, d.dispatches, d.operations, d.nodeOperations;
      resolvedAdmissions, resolvedDispatches := d.resolvedAdmissions, d.resolvedDispatches;
    }

    // ----- maintenance state -----

    method InitializeOpen(registered: bool, auditFails: bool) returns (outcome: Outcome)
      modifies this`maintenance, this`audit
      ensures outcome == Committed ==> registered && View() == MaintenanceDb.InitializeOpen(old(View()))
      ensures outcome != Committed ==> View() == old(View())
      ensures outcome == Committed <==> registered && (auditFails ==> old(maintenance).Some?)
    {
      if !registered {
        return Threw;
      }
      if maintenance.None? {
        maintenance := Some(MaintenanceRow(Open, 1));
        if auditFails {
          maintenance := None;
          return Threw;
        }
        audit := audit + [MaintenanceRow(Open, 1)];
      }
      return Committed;
    }

    /** UPDATE … SET generation = generation + 1 WHERE state and generation match, with its audit row. */
    method Advance(from: MaintenanceState, to: MaintenanceState, generation: nat, auditFails: bool)
      returns (outcome: Outcome)
      modifies this`maintenance, this`audit
      ensures outcome == Committed <==> At(old(View()), from, generation) && !auditFails
      ensures outcome == Unmatched <==> !At(old(View()), from, generation)
      ensures outcome == Committed ==> View() == MoveTo(old(View()), MaintenanceRow(to, generation + 1))
      ensures outcome != Committed ==> View() == old(View())
    {
      if maintenance != Some(MaintenanceRow(from, generation)) {
        return Unmatched;
      }
      var before := maintenance;
      maintenance := Some(MaintenanceRow(to, generation + 1));
      if auditFails {
        maintenance := before;
        return Threw;
      }
      audit := audit + [MaintenanceRow(to, generation + 1)];
      return Committed;
    }

    method RequestClosing(generation: nat, auditFails: bool) returns (outcome: Outcome)
      modifies this`maintenance, this`audit
      ensures outcome == Committed ==> MaintenanceDb.RequestClosing(old(View()), generation) == Some(View())
      ensures outcome != Committed ==> View() == old(View())
      ensures outcome == Committed <==> !auditFails && MaintenanceDb.RequestClosing(old(View()), generation).Some?
    {
      if generation < 1 {
        return Threw;
      }
      outcome := Advance(Open, Closing, generation, auditFails);
    }

    /** The three counts of unresolved admissions, operations and dispatches are all zero. */
    method Quiet() returns (ok: bool)
      ensures ok <==> NoUnresolvedWork(View())
    {
      var active := set a | a in admissions && a !in resolvedAdmissions;
      var unfinished := set o | o in operations && !Terminal(operations[o].status);
      var unfinishedNodes := set o | o in nodeOperations && !Terminal(nodeOperations[o].status);
      var unresolved := set o | o in dispatches && Unresolved(dispatches[o].phase) && o !in resolvedDispatches;
      ok := |active| == 0 && |unfinished| + |unfinishedNodes| == 0 && |unresolved| == 0;
      if ok {
        NothingCounted(active, unfinished, unfinishedNodes, unresolved);
      }
    }

    lemma NothingCounted(active: set<AdmissionId>, unfinished: set<OperationId>, unfinishedNodes: set<OperationId>,
        unresolved: set<OperationId>)
      requires active == (set a | a in admissions && a !in resolvedAdmissions) == {}
      requires unfinished == (set o | o in operations && !Terminal(operations[o].status)) == {}
      requires unfinishedNodes == (set o | o in nodeOperations && !Terminal(nodeOperations[o].status)) == {}
      requires unresolved == (set o | o in dispatches && Unresolved(dispatches[o].phase) &&
                 o !in resolvedDispatches) == {}
      ensures NoUnresolvedWork(View())
    {
      assert forall a :: a in admissions && a !in resolvedAdmissions ==> a in active;
      assert forall o :: o in operations && !Terminal(operations[o].status) ==> o in unfinished;
      assert forall o :: o in nodeOperations && !Terminal(nodeOperations[o].status) ==> o in unfinishedNodes;
      assert forall o :: o in dispatches && Unresolved(dispatches[o].phase) && o !in resolvedDispatches ==>
          o in unresolved;
    }

    /** The acknowledgement rows in ID order, compared one by one with the sorted expected IDs. */
    method AcksComplete(expected: seq<AgentId>, generation: nat) returns (ok: bool)
      requires Distinct(expected) && expected != []
      ensures ok <==> AllAcknowledged(View(), SetOf(expected), generation)
    {
      var rows := SortedIds(acks.Keys);
      var ids := SortedIds(SetOf(expected));
      assert expected[0] in SetOf(expected);
      if |rows| != |ids| {
        if acks.Keys == SetOf(expected) {
          SortedUnique(rows, ids);
        }
        return false;
      }
      for i := 0 to |rows|
        invariant forall k :: 0 <= k < i ==> rows[k] == ids[k] && acks[rows[k]] == generation
      {
        assert rows[i] in SetOf(rows);
        if rows[i] != ids[i] || acks[rows[i]] != generation {
          if acks.Keys == SetOf(expected) {
            SortedUnique(rows, ids);
          }
          return false;
        }
      }
      assert rows == ids;
      forall m | m in acks ensures acks[m] == generation {
        assert m in SetOf(rows);
        var k :| 0 <= k < |rows| && rows[k] == m;
      }
      return true;
    }

    method CommitClosed(generation: nat, expected: seq<AgentId>, lease: Option<Lease>, auditFails: bool)
      returns (outcome: Outcome)
      modifies this`maintenance, this`audit
      ensures outcome == Committed ==>
                && lease.Some?
                && MaintenanceDb.CommitClosed(old(View()), SetOf(expected), generation, lease.value) == Some(View())
      ensures outcome != Committed ==> View() == old(View())
      ensures outcome == Committed <==>
                && !auditFails && Distinct(expected) && lease.Some?
                && MaintenanceDb.CommitClosed(old(View()), SetOf(expected), generation, lease.value).Some?
    {
      if generation < 1 || expected == [] || !Distinct(expected) || lease.None? {
        return Threw;
      }
      var owner := AssertOwner(lease.value);
      if !owner {
        return Threw;
      }
      if maintenance != Some(MaintenanceRow(Closing, generation)) {
        return Unmatched;
      }
      var quiet := Quiet();
      if !quiet {
        return Threw;
      }
      var complete := AcksComplete(expected, generation);
      if !complete {
        return Threw;
      }
      outcome := Advance(Closing, Closed, generation, auditFails);
    }

    /** CLOSED to RECONCILING, or RECONCILING to OPEN with the full evidence. */
    method CommitRecovery(from: MaintenanceState, generation: nat, expected: seq<AgentId>, lease: Lease,
        auditFails: bool) returns (outcome: Outcome)
      requires from == Closed || from == Reconciling
      modifies this`maintenance, this`audit
      ensures outcome == Committed && from == Closed ==>
                BeginReconciliation(old(View()), generation, lease) == Some(View())
      ensures outcome == Committed && from == Reconciling ==>
                CommitOpen(old(View()), SetOf(expected), generation, lease) == Some(View())
      ensures outcome != Committed ==> View() == old(View())
      ensures from == Closed ==>
                (outcome == Committed <==> !auditFails && BeginReconciliation(old(View()), generation, lease).Some?)
      ensures from == Reconciling ==>
                (outcome == Committed <==>
                   && !auditFails && Distinct(expected)
                   && CommitOpen(old(View()), SetOf(expected), generation, lease).Some?)
    {
      if generation < 1 {
        return Threw;
      }
      var to := if from == Closed then Reconciling else Open;
      if to == Open && (expected == [] || !Distinct(expected)) {
        return Threw;
      }
      var owner := AssertOwner(lease);
      if !owner {
        return Threw;
      }
      if maintenance != Some(MaintenanceRow(from, generation)) {
        return Unmatched;
      }
      if to == Open {
        var quiet := Quiet();
        if !quiet {
          return Threw;
        }
        var complete := AcksComplete(expected, generation);
        if !complete {
          return Threw;
        }
      }
      outcome := Advance(from, to, generation, auditFails);
    }

    // ----- control lease -----

    method Acquire(holder: HolderId, ttl: int) returns (taken: Option<Lease>)
      modifies this`lease
      ensures taken.Some? <==> 0 <= ttl && AcquireLease(old(View()), holder, ttl).Some?
      ensures taken.Some? <==> 5 <= ttl <= 300 && forall l :: !OwnsLease(old(View()), l)
      ensures taken.Some? ==> lease == Some(LeaseRow(taken.value, now + ttl))
      ensures taken.Some? ==> AcquireLease(old(View()), holder, ttl) == Some(View())
      ensures taken.Some? ==> taken.value == NextLease(old(View()), holder)
      ensures taken.Some? ==> OwnsLease(View(), taken.value)
      ensures taken.None? ==> View() == old(View())
    {
      if ttl < 5 || ttl > 300 {
        return None;
      }
      if lease.Some? && !(lease.value.expiresAt <= now) {
        assert OwnsLease(View(), lease.value.lease);
        return None;
      }
      var token := 1;
      if lease.Some? {
        token := lease.value.lease.token + 1;
      }
      lease := Some(LeaseRow(Lease(holder, token), now + ttl));
      return Some(Lease(holder, token));
    }

    method AssertOwner(lease: Lease) returns (ok: bool)
      ensures ok <==> OwnsLease(View(), lease)
    {
      ok := this.lease.Some? && this.lease.value.lease.holder == lease.holder &&
            this.lease.value.lease.token == lease.token && this.lease.value.expiresAt > now;
    }

    method Release(lease: Lease) returns (ok: bool)
      modifies this`lease
      ensures ok <==> ReleaseLease(old(View()), lease).Some?
      ensures View() == if ok then ReleaseLease(old(View()), lease).value else old(View())
      ensures ok ==> !OwnsLease(View(), lease)
    {
      if this.lease.None? || this.lease.value.lease != lease {
        return false;
      }
      this.lease := Some(LeaseRow(lease, now));
      return true;
    }

    // ----- admissions and the dispatch journal -----

    /** The admission insert repeats the state and generation it read, so a close in between inserts nothing. */
    method Admit(id: AdmissionId, read: Option<MaintenanceRow>) returns (ok: bool)
      modifies this`admissions
      ensures ok ==> read.Some? && InsertAdmission(old(View()), id, read.value.generation) == Some(View())
      ensures !ok ==> View() == old(View())
      ensures ok <==>
                && read.Some? && read.value.state == Open
                && InsertAdmission(old(View()), id, read.value.generation).Some?
    {
      if read.None? || read.value.state != Open || read.value.generation < 1 {
        return false;
      }
      if id in admissions || maintenance != Some(MaintenanceRow(Open, read.value.generation)) {
        return false;
      }
      admissions := admissions[id := read.value.generation];
      return true;
    }

    method ReleaseAdmission(id: Option<AdmissionId>)
      modifies this`admissions
      ensures View() == if id.Some? then DeleteAdmission(old(View()), id.value) else old(View())
    {
      if id.None? {
        return;
      }
      admissions := admissions - {id.value};
    }

    method RecordAck(agent: AgentId, generation: nat)
      modifies this`acks
      ensures View() == MaintenanceDb.RecordAck(old(View()), agent, generation)
    {
      acks := acks[agent := generation];
    }

    method Prepare(op: OperationId, generation: nat, agent: AgentId) returns (ok: bool)
      modifies this`dispatches
      ensures ok <==> op !in old(dispatches)
      ensures ok ==> PrepareDispatch(old(View()), op, generation, agent) == Some(View())
      ensures !ok ==> View() == old(View())
    {
      if op in dispatches {
        return false;
      }
      dispatches := dispatches[op := Dispatch(generation, agent, Prepared)];
      return true;
    }

    /** The promotion joins the dispatch with the maintenance row: one statement checks both. */
    method BeginSend(op: OperationId, generation: nat, agent: AgentId) returns (ok: bool)
      modifies this`dispatches
      ensures ok <==> PromoteDispatch(old(View()), op, generation, agent).Some?
      ensures ok ==> PromoteDispatch(old(View()), op, generation, agent) == Some(View())
      ensures !ok ==> View() == old(View())
    {
      if op !in dispatches || maintenance.None? {
        return false;
      }
      var d := dispatches[op];
      if d.agent != agent || d.phase != Prepared || d.generation != generation ||
         maintenance.value.generation != generation || maintenance.value.state != Open {
        return false;
      }
      dispatches := dispatches[op := d.(phase := Sending)];
      return true;
    }

    method Transition(op: OperationId, before: Phase, after: Phase) returns (ok: bool)
      modifies this`dispatches
      ensures ok <==> MoveDispatch(old(View()), op, before, after).Some?
      ensures View() == if ok then MoveDispatch(old(View()), op, before, after).value else old(View())
    {
      if !PhaseStep(before, after) || op !in dispatches || dispatches[op].phase != before {
        return false;
      }
      dispatches := dispatches[op := dispatches[op].(phase := after)];
      return true;
    }

    // ----- manual recovery -----

    /** The one deployment row linked to a deploy or rollback, checked field by field. */
    method FindLinked(op: OperationId, row: OperationRow) returns (found: Option<DeploymentId>)
      ensures found.Some? ==> Linked(deployments, attempts, op, row, found.value)
      ensures found.None? ==> forall d: DeploymentId :: !Linked(deployments, attempts, op, row, d)
    {
      var d: DeploymentId;
      if row.kind == Rollback {
        if op !in attempts || attempts[op] !in deployments {
          return None;
        }
        d := attempts[op];
        if deployments[d].rollback != Some(op) || deployments[d].status != RollbackChecking {
          return None;
        }
      } else {
        var matches := set e | e in deployments && deployments[e].op == op;
        forall e: DeploymentId | Linked(deployments, attempts, op, row, e) ensures |matches| == 1 {
          assert matches == {e};
        }
        if |matches| != 1 {
          return None;
        }
        d :| d in matches;
        OnlyOne(matches, d);
        assert forall e :: e in deployments && deployments[e].op == op ==> e in matches;
        if deployments[d].rollback.Some? || deployments[d].status != Attention {
          return None;
        }
      }
      return if deployments[d].resource == row.resource then Some(d) else None;
    }

    method MarkNotObserved(op: OperationId, row: OperationRow, linked: Option<DeploymentId>)
      requires Lookup(View(), op) == Some(row) && ManuallyRecoverable(row)
      requires (linked.Some? ==> linked.value in deployments)
      modifies this`operations, this`nodeOperations, this`deployments
      ensures View() == old(View()).(
                operations := UpdateStatus(old(operations), op, Failed, ManuallyNotObserved),
                nodeOperations := UpdateStatus(old(nodeOperations), op, Failed, ManuallyNotObserved))
      ensures deployments == if linked.Some? then FailDeployment(old(deployments), linked.value) else old(deployments)
    {
      if op in operations {
        operations := operations[op := row.(status := Failed, code := ManuallyNotObserved)];
      } else {
        nodeOperations := nodeOperations[op := row.(status := Failed, code := ManuallyNotObserved)];
      }
      if linked.Some? {
        deployments := FailDeployment(deployments, linked.value);
      }
    }

    method FindIfNeeded(op: OperationId, row: OperationRow) returns (ok: bool, linked: Option<DeploymentId>)
      ensures ok <==> LinkHolds(deployments, attempts, op, row)
      ensures ok ==> (linked.Some? <==> HasDeployment(row.kind))
      ensures linked.Some? ==> Linked(deployments, attempts, op, row, linked.value)
    {
      if !HasDeployment(row.kind) {
        return true, None;
      }
      linked := FindLinked(op, row);
      ok := linked.Some?;
    }

    /** The writes, in order; the resolution's unique key may undo them. */
    method FailAndResolve(op: OperationId, row: OperationRow, generation: nat, linked: Option<DeploymentId>)
      returns (outcome: Outcome)
      requires Lookup(View(), op) == Some(row) && ManuallyRecoverable(row)
      requires linked.Some? ==> linked.value in deployments
      modifies this`operations, this`nodeOperations, this`resolvedDispatches, this`deployments
      ensures outcome == if op in old(resolvedDispatches) then Threw else Committed
      ensures outcome == Threw ==> View() == old(View()) && deployments == old(deployments)
      ensures outcome == Committed ==>
                View() == old(View()).(
                  operations := UpdateStatus(old(operations), op, Failed, ManuallyNotObserved),
                  nodeOperations := UpdateStatus(old(nodeOperations), op, Failed, ManuallyNotObserved),
                  resolvedDispatches := old(resolvedDispatches)[op := Resolution(generation, true)])
      ensures outcome == Committed ==>
                deployments == if linked.Some? then FailDeployment(old(deployments), linked.value) else old(deployments)
    {
      var savedOperations, savedNodes, savedDeployments := operations, nodeOperations, deployments;
      MarkNotObserved(op, row, linked);
      if op in resolvedDispatches {
        operations, nodeOperations, deployments := savedOperations, savedNodes, savedDeployments;
        return Threw;
      }
      resolvedDispatches := resolvedDispatches[op := Resolution(generation, true)];
      return Committed;
    }

    /** The manual verdict: operation, deployment and resolution are written together or not at all. */
    method ResolveUnchanged(op: OperationId, row: OperationRow, generation: nat, ghost lease: Lease,
        observed: Option<(nat, SpecHash)>) returns (outcome: Outcome)
      requires RecoveryAuthorised(View(), generation, lease) && op in dispatches
      requires Lookup(View(), op) == Some(row) && ManuallyRecoverable(row)
      modifies this`operations, this`nodeOperations, this`resolvedDispatches, this`deployments
      ensures outcome == Committed <==>
                && observed.Some? && LinkHolds(old(deployments), attempts, op, row)
                && ResolveNotObserved(old(View()), generation, lease, op, observed.value.0, observed.value.1).Some?
      ensures outcome == Committed ==>
                && FailedTogether(old(deployments), deployments, attempts, op, row)
                && ResolveNotObserved(old(View()), generation, lease, op, observed.value.0, observed.value.1) ==
                     Some(View())
      ensures outcome != Committed ==> outcome == Threw && View() == old(View()) && deployments == old(deployments)
    {
      if observed.None? || observed.value.0 != row.expectedVersion || observed.value.1 != row.beforeHash {
        return Threw;
      }
      var found, linked := FindIfNeeded(op, row);
      if !found {
        return Threw;
      }
      outcome := FailAndResolve(op, row, generation, linked);
    }

    /**
     Resolving a dispatch: the operation must either await a manual verdict with its resource
     observed unchanged, or be finished already. The deployment of a deploy or rollback must still
     be where the operation left it, and fails with it. A second resolution of the same evidence
     violates its unique key and undoes everything.
     */
    method ResolveDispatch(op: OperationId, generation: nat, lease: Lease, observed: Option<(nat, SpecHash)>)
      returns (outcome: Outcome)
      modifies this`operations, this`nodeOperations, this`resolvedDispatches, this`deployments
      ensures outcome != Committed ==> outcome == Threw && View() == old(View()) && deployments == old(deployments)
      ensures outcome == Committed ==>
                || (&& observed.Some?
                    && ResolveNotObserved(old(View()), generation, lease, op, observed.value.0, observed.value.1) ==
                         Some(View())
                    && FailedTogether(old(deployments), deployments, attempts, op, Lookup(old(View()), op).value))
                || (ResolveTerminal(old(View()), generation, lease, op) == Some(View()) &&
                      deployments == old(deployments))
      ensures outcome == Committed <==>
                && OwnsLease(old(View()), lease)
                && (At(old(View()), Closing, generation) || At(old(View()), Reconciling, generation))
                && Settles(old(View()), old(deployments), attempts, op, observed)
    {
      var owner := AssertOwner(lease);
      if !owner {
        return Threw;
      }
      if maintenance.None? || !(maintenance.value.state == Closing || maintenance.value.state == Reconciling) ||
         maintenance.value.generation != generation {
        return Threw;
      }
      if op !in dispatches {
        return Threw;
      }
      if (op in operations) == (op in nodeOperations) {
        return Threw;
      }
      var row := if op in operations then operations[op] else nodeOperations[op];
      if ManuallyRecoverable(row) {
        outcome := ResolveUnchanged(op, row, generation, lease, observed);
        return;
      }
      if !Terminal(row.status) || op in resolvedDispatches {
        return Threw;
      }
      resolvedDispatches := resolvedDispatches[op := Resolution(generation, false)];
      return Committed;
    }

    method ResolveAdmission(id: AdmissionId, generation: nat, lease: Lease) returns (outcome: Outcome)
      modifies this`resolvedAdmissions
      ensures outcome == Committed <==>
                && OwnsLease(old(View()), lease) && id in admissions && id !in old(resolvedAdmissions)
                && (At(old(View()), Closing, generation) || At(old(View()), Reconciling, generation))
      ensures outcome == Committed ==>
                MaintenanceDb.ResolveAdmission(old(View()), generation, lease, id) == Some(View())
      ensures outcome != Committed ==> View() == old(View())
    {
      var owner := AssertOwner(lease);
      if !owner {
        return Threw;
      }
      if maintenance.None? || !(maintenance.value.state == Closing || maintenance.value.state == Reconciling) ||
         maintenance.value.generation != generation {
        return Threw;
      }
      if id !in admissions || id in resolvedAdmissions {
        return Threw;
      }
      resolvedAdmissions := resolvedAdmissions + {id};
      return Committed;
    }
  }
}
