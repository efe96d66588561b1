/**
 One concrete run of the maintenance protocol. It shows that the situations the
 theorems speak about do occur: an operation resolved as "not observed" while its
 request is still travelling, and a CLOSED cluster with a live callback whose
 admission an operator resolved by hand.
 */
module ProtocolWitness {
  import opened Basics
  import opened MaintenanceDb
  import opened Protocol
  import opened ProtocolRuns

  lemma Extend(start: State, run: seq<Event>, s: State, e: Event) returns (longer: seq<Event>, t: State)
    requires Reaches(start, run, s) && Next(s, e).Some?
    ensures longer == run + [e] && Next(s, e) == Some(t) && Reaches(start, longer, t)
  {
    t := Next(s, e).value;
    longer := run + [e];
    RunSplits(start, run, [e]);
    assert [e][1..] == [];
    assert Run(t, []) == Some(t);
  }

  const Start := State(EmptyDb, map[0 := FreshAgent], [], map[], map[], map[7 := DockerResource(5, 11)], {}, {}, {})
  const Row := OperationRow(Scale, 7, 5, 11, Running, NoError)

  ghost predicate OnlyManager(s: State, barrier: Barrier) {
    s.agents.Keys == {0} && s.agents[0].barrier == barrier && !s.agents[0].invalid
  }

  ghost predicate OnlyOperation(db: Db) {
    db.operations.Keys == {9} && db.nodeOperations.Keys == {} &&
      db.operations[9].(status := Running, code := NoError) == Row
  }

  /** OPEN at generation 1, the only manager open, one operation row, nothing else. */
  ghost predicate Ready(s: State) {
    && At(s.db, Open, 1) && OnlyManager(s, Barrier(1, true)) && OnlyOperation(s.db)
    && s.db.operations[9] == Row
    && s.db.lease == None && s.db.acks.Keys == {} && s.db.admissions.Keys == {} && s.db.dispatches.Keys == {}
    && s.db.resolvedAdmissions == {} && s.db.resolvedDispatches.Keys == {}
    && s.flights == [] && s.callbacks.Keys == {} && s.resolvers.Keys == {}
    && 7 in s.docker && s.docker[7] == DockerResource(5, 11)
  }

  lemma ReachReady() returns (run: seq<Event>, s: State)
    ensures Reaches(Start, run, s) && Ready(s)
  {
    assert 0 in Start.agents;
    run, s := [], Start;
    run, s := Extend(Start, run, s, Maintain(Initialize));
    run, s := Extend(Start, run, s, Manager(SendPut));
    run, s := Extend(Start, run, s, Manager(HandlePut(0, Barrier(1, true), true)));
    run, s := Extend(Start, run, s, Control(CreateOperation(9, false, Row)));
  }

  /** The operation's only request is on its way to the manager; its callback waits for the answer. */
  ghost predicate Underway(s: State) {
    && OnlyOperation(s.db)
    && s.db.admissions.Keys == {0} && s.db.dispatches.Keys == {9}
    && s.db.resolvedAdmissions == {} && s.db.resolvedDispatches.Keys == {}
    && s.flights == [Flight(9, 1, 0, 7, 5, 11, InTransit, 0)] && 0 in s.callbacks && s.resolvers.Keys == {}
    && 7 in s.docker && s.docker[7] == DockerResource(5, 11)
  }

  ghost predicate Sent(s: State) {
    && Underway(s) && At(s.db, Open, 1) && OnlyManager(s, Barrier(1, true)) && s.db.lease == None &&
         s.db.acks.Keys == {}
    && s.db.operations[9] == Row
  }

  /** The callback has been admitted and has found the manager open. */
  lemma ReachProbed() returns (run: seq<Event>, s: State, ready: State)
    ensures Reaches(Start, run, s) && Ready(ready)
    ensures s == ready.(db := ready.db.(admissions := s.db.admissions), callbacks := s.callbacks)
    ensures s.db.admissions.Keys == {0} && s.callbacks.Keys == {0} && s.callbacks[0].stage == Probed(9, false, 1, 0)
  {
    run, ready := ReachReady();
    run, s := Extend(Start, run, ready, Work(0, Admit(0)));
    run, s := Extend(Start, run, s, Work(0, ReadMaintenance(9, false)));
    run, s := Extend(Start, run, s, Work(0, ProbeAgent(0)));
  }

  lemma ReachPromoted() returns (run: seq<Event>, s: State, ready: State)
    ensures Reaches(Start, run, s) && Ready(ready)
    ensures s == ready.(db := ready.db.(admissions := s.db.admissions, dispatches := s.db.dispatches),
              callbacks := s.callbacks)
    ensures s.db.admissions.Keys == {0} && s.db.dispatches.Keys == {9}
    ensures s.callbacks.Keys == {0} && s.callbacks[0].stage == RowSending(9, false, 1, 0)
  {
    run, s, ready := ReachProbed();
    run, s := Extend(Start, run, s, Work(0, PrepareRow(true)));
    run, s := Extend(Start, run, s, Work(0, PromoteRow(true)));
  }

  lemma ReachSent() returns (run: seq<Event>, s: State)
    ensures Reaches(Start, run, s) && Sent(s)
  {
    var ready;
    run, s, ready := ReachPromoted();
    run, s := Extend(Start, run, s, Work(0, WorkStep.Send));
  }

  /** CLOSING at generation 2, the manager blocked and acknowledged, the operation awaiting attention. */
  ghost predicate Attention(s: State) {
    && Underway(s) && At(s.db, Closing, 2) && OnlyManager(s, Barrier(2, false))
    && OwnsLease(s.db, Lease(3, 1)) && Lease(3, 1) in s.issued
    && s.db.acks.Keys == {0} && s.db.acks[0] == 2
    && s.db.operations[9].status == NeedsAttention && s.db.operations[9].code == MutationNotObserved
  }

  lemma ReachClosing() returns (run: seq<Event>, s: State, sent: State)
    ensures Reaches(Start, run, s) && Sent(sent)
    ensures s == sent.(db := sent.db.(maintenance := Some(MaintenanceRow(Closing, 2)), audit := s.db.audit,
                                      lease := s.db.lease, operations := s.db.operations), issued := s.issued)
    ensures OwnsLease(s.db, Lease(3, 1)) && Lease(3, 1) in s.issued
    ensures OnlyOperation(s.db) && s.db.operations[9].status == NeedsAttention
    ensures s.db.operations[9].code == MutationNotObserved
  {
    run, sent := ReachSent();
    run, s := Extend(Start, run, sent, Control(ChangeStatus(9, false, NeedsAttention, MutationNotObserved)));
    run, s := Extend(Start, run, s, Control(TakeLease(3, 30)));
    run, s := Extend(Start, run, s, Maintain(CloseRequested(1)));
  }

  lemma ReachAttention() returns (run: seq<Event>, s: State)
    ensures Reaches(Start, run, s) && Attention(s)
  {
    var sent;
    run, s, sent := ReachClosing();
    run, s := Extend(Start, run, s, Manager(SendPut));
    run, s := Extend(Start, run, s, Manager(HandlePut(0, Barrier(2, false), true)));
    run, s := Extend(Start, run, s, Manager(WriteAck(0, 2)));
  }

  /** A recovery controller that has re-read the manager and may resolve. */
  lemma Block(run: seq<Event>, s: State, r: ResolverId) returns (longer: seq<Event>, t: State)
    requires Reaches(Start, run, s) && r !in s.resolvers
    requires At(s.db, Closing, 2) && OnlyManager(s, Barrier(2, false)) && Lease(3, 1) in s.issued
    requires s.db.acks.Keys == {0} && s.db.acks[0] == 2
    ensures Reaches(Start, longer, t)
    ensures t == s.(served := t.served, resolvers := t.resolvers)
    ensures t.resolvers == s.resolvers[r := Blocked(Lease(3, 1), 2)]
  {
    longer, t := Extend(Start, run, s, Recovery(r, BeginResolve(Lease(3, 1), 2)));
    longer, t := Extend(Start, longer, t, Recovery(r, RereadBlocked(0)));
    longer, t := Extend(Start, longer, t, Recovery(r, FinishBlocking));
  }

  /** The operation is resolved as not observed while its request is still travelling. */
  lemma ResolvedWhileTravelling() returns (run: seq<Event>, s: State)
    ensures Reaches(Start, run, s)
    ensures 9 in s.db.resolvedDispatches && s.db.resolvedDispatches[9].notObserved
    ensures s.flights == [Flight(9, 1, 0, 7, 5, 11, InTransit, 0)]
    ensures At(s.db, Closing, 2) && OnlyManager(s, Barrier(2, false)) && 0 in s.callbacks && s.resolvers.Keys == {}
    ensures OwnsLease(s.db, Lease(3, 1)) && Lease(3, 1) in s.issued && s.db.acks.Keys == {0} && s.db.acks[0] == 2
    ensures s.db.admissions.Keys == {0} && s.db.dispatches.Keys == {9} && s.db.resolvedAdmissions == {}
    ensures s.db.operations.Keys == {9} && Terminal(s.db.operations[9].status) && s.db.nodeOperations.Keys == {}
  {
    run, s := ReachAttention();
    run, s := Block(run, s, 0);
    run, s := Extend(Start, run, s, Recovery(0, Observe(9)));
    run, s := Extend(Start, run, s, Recovery(0, CommitNotObserved));
  }

  /**
   A live callback at CLOSED: every admission row is resolved, but the callback behind
   one of them is still running. Without a manual resolution this cannot happen
   (`ProtocolAdmissions.AdmissionQuiescence`).
   */
  lemma LiveCallbackAtClosed() returns (run: seq<Event>, s: State)
    ensures Reaches(Start, run, s) && InState(s.db, Closed) && 0 in s.callbacks
  {
    run, s := ResolvedWhileTravelling();
    run, s := Block(run, s, 1);
    run, s := Extend(Start, run, s, Recovery(1, CommitAdmission(0)));
    assert NoUnresolvedWork(s.db) && AllAcknowledged(s.db, s.agents.Keys, 2);
    run, s := Extend(Start, run, s, Maintain(Close(Lease(3, 1), 2)));
  }

  /**
   Faults can strike in every state: a callback dies, a request is lost or times out, a manager
   restarts with anything it may have saved or fails to persist, and others write to Docker.
   */
  lemma FaultsCanStrike(s: State, c: CallbackId, i: nat, a: AgentId, b: Barrier, r: ResourceId, v: nat, h: SpecHash)
    ensures c in s.callbacks ==> Next(s, Work(c, CrashCallback)).Some?
    ensures c in s.callbacks && s.callbacks[c].stage.Waiting? ==> Next(s, Work(c, TimeOut)).Some?
    ensures i < |s.flights| && s.flights[i].place == InTransit ==> Next(s, Wire(LoseRequest(i))).Some?
    ensures a in s.agents ==> Next(s, Manager(RestartAgent(a, None))).Some?
    ensures a in s.agents && b in s.agents[a].saved ==> Next(s, Manager(RestartAgent(a, Some(b)))).Some?
    ensures Next(s, Manager(HandlePut(a, b, true))).Some? ==> Next(s, Manager(HandlePut(a, b, false))).Some?
    ensures (r in s.docker ==> v > s.docker[r].version) ==> Next(s, Wire(OutsideWrite(r, v, h))).Some?
  {
  }
}
