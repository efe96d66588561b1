/**
 Manual recovery and the deployment table: the rows recovery accepts are rows
 the table allows, and its check of the linked deployment never fails for them.
 */
module RecoveryLinks {
  import opened MaintenanceDb
  import opened Repositories
  import opened Work
  import opened WorkInvariants
  import opened WorkTheorems

  /** What recovery accepts, with the linked deployment it demands, is a pair of the table. */
  lemma RecoverableIsInTable(deployments: map<DeploymentId, DeploymentRow>, attempts: map<OperationId, DeploymentId>,
      op: OperationId, row: OperationRow, d: DeploymentId)
    requires HasDeployment(row.kind) && ManuallyRecoverable(row) && Linked(deployments, attempts, op, row, d)
    ensures PairTable(row.kind == Rollback, deployments[d].status, row.status)
  {
  }

  /**
   Both tables say the same: the rows and attempts of the repositories, and the operations and
   deployments at work.
   */
  ghost predicate Mirrors(s: State, operations: map<OperationId, OperationRow>,
      deployments: map<DeploymentId, DeploymentRow>, attempts: map<OperationId, DeploymentId>) {
    && deployments.Keys == s.deployments.Keys
    && (forall d :: d in deployments ==>
          deployments[d] == DeploymentRow(s.deployments[d].op, s.deployments[d].rollback, s.deployments[d].service,
                                          s.deployments[d].status))
    && (forall o :: o in operations && HasDeployment(operations[o].kind) ==>
          o in s.rows && MirrorsRow(s.rows[o], operations[o], o, attempts))
  }

  predicate MirrorsRow(row: Row, operation: OperationRow, o: OperationId, attempts: map<OperationId, DeploymentId>) {
    && row.status == operation.status
    && if operation.kind == Rollback then o in attempts && row.target == RollbackOf(operation.resource, attempts[o])
       else row.target.DeployOf? && row.target.service == operation.resource
  }

  /**
   In every reachable state the check of the linked deployment holds for each deploy and rollback that
   awaits a manual verdict: "changed before manual recovery" is never raised for them.
   */
  lemma RecoveryIsLinked(run: seq<Event>, name: Resource -> Name, s: State, operations: map<OperationId, OperationRow>,
      deployments: map<DeploymentId, DeploymentRow>, attempts: map<OperationId, DeploymentId>, op: OperationId)
    requires Reaches(run, name, s) && Mirrors(s, operations, deployments, attempts)
    requires op in operations && HasDeployment(operations[op].kind) && ManuallyRecoverable(operations[op])
    ensures LinkHolds(deployments, attempts, op, operations[op])
  {
    ReachableInv(run, name, s);
    var d := s.rows[op].target.deployment;
    assert RowOk(op, s.rows[op], s.deployments);
    assert DeploymentOk(d, s.deployments[d], s.rows);
    forall e | e in deployments && deployments[e].op == op && operations[op].kind != Rollback ensures e == d {
      assert DeploymentOk(e, s.deployments[e], s.rows);
    }
    assert Linked(deployments, attempts, op, operations[op], d);
  }

  /**
   The same said of the locked work: in every reachable state a deploy can be resolved by hand exactly
   when it needs attention, a rollback exactly when it is being verified.
   */
  lemma ByHandExactlyWhen(run: seq<Event>, name: Resource -> Name, s: State, o: OpId)
    requires Reaches(run, name, s) && o in s.rows && (s.rows[o].target.DeployOf? || s.rows[o].target.RollbackOf?)
    ensures MayResolveByHand(s, o) <==>
              s.rows[o].status == if s.rows[o].target.DeployOf? then NeedsAttention else Verifying
  {
    ReachableInv(run, name, s);
    var d := s.rows[o].target.deployment;
    assert RowOk(o, s.rows[o], s.deployments);
    assert DeploymentOk(d, s.deployments[d], s.rows);
  }
}
