/**
 The guarantees of the maintenance protocol. Each theorem is about every run:
 `start` is any initial state, `run` any sequence of events possible from it,
 `rest` any continuation.
 */
module ProtocolTheorems {
  import opened Basics
  import opened MaintenanceDb
  import opened Protocol
  import opened ProtocolInvariants
  import opened ProtocolSteps
  import opened ProtocolRuns

  // ----- generation determines state -----

  /**
   The maintenance state is a function of the generation modulo four, and the
   audit trail holds exactly one event per generation. No Agent is ahead of the
   database, an Agent is OPEN only at a generation audited as OPEN, and an
   acknowledgement row at the current generation pins its Agent.
   */
  lemma GenerationDeterminesState(start: State, run: seq<Event>, s: State)
    requires Reaches(start, run, s)
    ensures |s.db.audit| == Generation(s.db)
    ensures forall g :: 1 <= g <= Generation(s.db) ==> s.db.audit[g - 1] == MaintenanceRow(StateAt(g), g)
    ensures s.db.maintenance.Some? ==> s.db.maintenance.value.state == StateAt(Generation(s.db))
    ensures forall a :: a in s.agents && !s.agents[a].invalid ==> s.agents[a].barrier.generation <= Generation(s.db)
    ensures forall a :: a in s.agents && s.agents[a].barrier.open ==>
              && 1 <= s.agents[a].barrier.generation <= |s.db.audit|
              && s.db.audit[s.agents[a].barrier.generation - 1].state == Open
    ensures forall a :: a in s.db.acks && s.db.acks[a] == Generation(s.db) && a in s.agents ==>
              s.agents[a].invalid || s.agents[a].barrier == Barrier(Generation(s.db), false)
  {
    ReachableInv(start, run, s);
    forall a | a in s.agents && !s.agents[a].invalid
      ensures s.agents[a].barrier.generation <= Generation(s.db)
      ensures s.agents[a].barrier.open ==>
                s.agents[a].barrier.generation >= 1 && StateAt(s.agents[a].barrier.generation) == Open
      ensures a in s.db.acks && s.db.acks[a] == Generation(s.db) ==>
                s.agents[a].barrier == Barrier(Generation(s.db), false)
    {
      assert AgentOk(s.agents[a], Generation(s.db));
      assert s.agents[a].barrier in s.agents[a].saved;
    }
    assert forall a :: a in s.agents ==> AgentOk(s.agents[a], Generation(s.db));
  }

  /** Docker shows what the operation in `rows` was planned on. */
  predicate AsPlanned(rows: map<OperationId, OperationRow>, op: OperationId, docker: map<ResourceId, DockerResource>) {
    && op in rows && rows[op].resource in docker
    && docker[rows[op].resource] == DockerResource(rows[op].expectedVersion, rows[op].beforeHash)
  }

  /**
   No lost update: whatever was written meanwhile, the update of a request replaces exactly the
   version and fingerprint that its operation row was planned on, with a newer version of that
   resource and of no other.
   */
  lemma UpdatesReplaceThePlanned(start: State, run: seq<Event>, s: State, i: nat, v: nat, h: SpecHash, t: State)
    requires Reaches(start, run, s) && Next(s, Wire(UpdateDocker(i, v, h))) == Some(t)
    ensures i < |s.flights|
    ensures var f := s.flights[i];
            && (AsPlanned(s.db.operations, f.op, s.docker) || AsPlanned(s.db.nodeOperations, f.op, s.docker))
            && t.docker == s.docker[f.resource := DockerResource(v, h)] && v > f.expectedVersion
  {
    ReachableInv(start, run, s);
    assert Targets(s.flights[i], s.db.operations) || Targets(s.flights[i], s.db.nodeOperations);
  }

  // ----- closed means quiet -----

  /** An Agent that answered BLOCKED at a generation since CLOSING can hold nothing but BLOCKED until the next OPEN. */
  lemma BlockedUntilReopened(s: State, a: AgentId)
    requires Inv(s) && a in s.agents && (InState(s.db, Closed) || InState(s.db, Reconciling))
    ensures s.agents[a].invalid || !s.agents[a].barrier.open
  {
    if !s.agents[a].invalid {
      var g := Generation(s.db);
      assert AgentOk(s.agents[a], g);
      assert s.agents[a].barrier in s.agents[a].saved;
      var since := if InState(s.db, Closed) then g - 1 else g - 2;
      assert (a, Barrier(since, false)) in s.served;
      assert Floor(s.agents[a], Barrier(since, false));
    }
  }

  /**
   From the commit of CLOSED until the next committed OPEN no Agent has a
   mutation handler past its guard and none would let one in.
   */
  lemma ClosedMeansQuiet(start: State, run: seq<Event>, s: State)
    requires Reaches(start, run, s) && (InState(s.db, Closed) || InState(s.db, Reconciling))
    ensures forall i :: 0 <= i < |s.flights| ==> s.flights[i].place != InHandler
    ensures forall a :: a in s.agents ==> s.agents[a].invalid || !s.agents[a].barrier.open
  {
    ReachableInv(start, run, s);
    forall a | a in s.agents ensures s.agents[a].invalid || !s.agents[a].barrier.open {
      BlockedUntilReopened(s, a);
    }
  }

  // ----- barrier drain -----

  /** Every handler past the guard was admitted under exactly the barrier its Agent holds now. */
  lemma HandlersMatchBarrier(start: State, run: seq<Event>, s: State, i: nat)
    requires Reaches(start, run, s) && i < |s.flights| && s.flights[i].place == InHandler
    ensures s.flights[i].agent in s.agents
    ensures s.agents[s.flights[i].agent] ==
              Agent(Barrier(s.flights[i].generation, true), false, {Barrier(s.flights[i].generation, true)})
  {
    ReachableInv(start, run, s);
    assert AgentOk(s.agents[s.flights[i].agent], Generation(s.db));
  }

  /** Once an Agent has reported a generation, no request of a lower one ever runs there again, across any restarts. */
  lemma OldRequestsNeverRun(start: State, run: seq<Event>, s: State, rest: seq<Event>, t: State, a: AgentId,
      b: Barrier, i: nat)
    requires Reaches(start, run, s) && (a, b) in s.served
    requires Run(s, rest) == Some(t)
    requires i < |t.flights| && t.flights[i].agent == a && t.flights[i].generation < b.generation
    ensures t.flights[i].place != InHandler
  {
    ReachableInv(start, run, s);
    RunKeepsInv(s, rest, t);
    RunIsLater(s, rest, t);
    assert AgentOk(t.agents[a], Generation(t.db)) && Floor(t.agents[a], b);
  }

  // ----- dispatch journal -----

  /**
   What each journal phase means, in every reachable state: PREPARED was never
   sent, REJECTED changed nothing and is no longer travelling, ACKNOWLEDGED was
   sent exactly once and changed Docker exactly once, and a request that may
   still change something has a SENDING or UNCERTAIN row.
   */
  lemma JournalTellsTruth(start: State, run: seq<Event>, s: State, op: OperationId)
    requires Reaches(start, run, s) && op in s.db.dispatches
    ensures s.db.dispatches[op].phase == Prepared ==> NoFlight(s.flights, op)
    ensures s.db.dispatches[op].phase == Rejected ==>
              forall i :: 0 <= i < |s.flights| && s.flights[i].op == op ==>
                s.flights[i].updates == 0 && s.flights[i].place != InTransit && s.flights[i].place != InHandler
    ensures s.db.dispatches[op].phase == Acknowledged ==>
              exists i :: 0 <= i < |s.flights| && s.flights[i].op == op && s.flights[i].updates == 1
    ensures forall i ::
              0 <= i < |s.flights| && s.flights[i].op == op && s.flights[i].place in {InTransit, InHandler} ==>
              s.db.dispatches[op].phase == Sending || s.db.dispatches[op].phase == Uncertain
  {
    ReachableInv(start, run, s);
    assert forall i :: 0 <= i < |s.flights| ==> FlightOk(s.flights[i], s.db.dispatches);
    if s.db.dispatches[op].phase == Acknowledged {
      assert !NoFlight(s.flights, op);
    }
  }

  /**
   A settled phase is a verdict for good: REJECTED will never update Docker, ACKNOWLEDGED has done
   so once and will not again.
   */
  lemma VerdictsAreFinal(start: State, run: seq<Event>, s: State, op: OperationId, rest: seq<Event>, t: State)
    requires Reaches(start, run, s) && op in s.db.dispatches && Run(s, rest) == Some(t)
    ensures op in t.db.dispatches
    ensures s.db.dispatches[op].phase == Rejected ==> NeverUpdated(t.flights, op)
    ensures s.db.dispatches[op].phase == Acknowledged ==>
              forall i :: 0 <= i < |t.flights| && t.flights[i].op == op ==> t.flights[i].updates == 1 && i < |s.flights|
  {
    ReachableInv(start, run, s);
    RunKeepsInv(s, rest, t);
    RunIsLater(s, rest, t);
    assert forall i :: 0 <= i < |t.flights| ==> FlightOk(t.flights[i], t.db.dispatches);
    if s.db.dispatches[op].phase == Acknowledged {
      assert !NoFlight(s.flights, op);
    }
  }

  /** Event `k` of the run promoted the operation's row while maintenance was OPEN at exactly that generation. */
  ghost predicate PromotedAt(start: State, run: seq<Event>, k: nat, op: OperationId, generation: nat) {
    && k < |run| && run[k].Work? && run[k].work == PromoteRow(true)
    && Run(start, run[..k]).Some?
    && var u := Run(start, run[..k]).value;
       && At(u.db, Open, generation)
       && run[k].callback in u.callbacks
       && u.callbacks[run[k].callback].stage.RowPrepared?
       && u.callbacks[run[k].callback].stage.op == op
       && u.callbacks[run[k].callback].stage.generation == generation
  }

  ghost predicate Promoted(start: State, run: seq<Event>, op: OperationId, generation: nat) {
    exists k: nat :: PromotedAt(start, run, k, op, generation)
  }

  lemma PromotedStays(start: State, run: seq<Event>, e: Event, op: OperationId, generation: nat)
    requires Promoted(start, run, op, generation)
    ensures Promoted(start, run + [e], op, generation)
  {
    var k: nat :| PromotedAt(start, run, k, op, generation);
    assert (run + [e])[..k] == run[..k];
    assert PromotedAt(start, run + [e], k, op, generation);
  }

  /** Everything sent, or about to be sent, was promoted earlier in the run. */
  lemma SentWasPromoted(start: State, run: seq<Event>, s: State)
    requires Reaches(start, run, s)
    ensures forall i :: 0 <= i < |s.flights| ==> Promoted(start, run, s.flights[i].op, s.flights[i].generation)
    ensures forall c :: c in s.callbacks && s.callbacks[c].stage.RowSending? ==>
              Promoted(start, run, s.callbacks[c].stage.op, s.callbacks[c].stage.generation)
    decreases |run|
  {
    if run == [] {
    } else {
      var past, e := run[..|run| - 1], run[|run| - 1];
      assert run == past + [e];
      RunSplits(start, past, [e]);
      var u := Run(start, past).value;
      assert Next(u, e) == Some(s) by { assert Run(u, [e]) == Some(s); assert [e][1..] == []; }
      SentWasPromoted(start, past, u);
      LastEventPromoted(start, past, u, e, s);
    }
  }

  lemma LastEventPromoted(start: State, past: seq<Event>, u: State, e: Event, s: State)
    requires Reaches(start, past, u) && Next(u, e) == Some(s)
    requires forall i :: 0 <= i < |u.flights| ==> Promoted(start, past, u.flights[i].op, u.flights[i].generation)
    requires forall c :: c in u.callbacks && u.callbacks[c].stage.RowSending? ==>
               Promoted(start, past, u.callbacks[c].stage.op, u.callbacks[c].stage.generation)
    ensures forall i :: 0 <= i < |s.flights| ==> Promoted(start, past + [e], s.flights[i].op, s.flights[i].generation)
    ensures forall c :: c in s.callbacks && s.callbacks[c].stage.RowSending? ==>
              Promoted(start, past + [e], s.callbacks[c].stage.op, s.callbacks[c].stage.generation)
  {
    ReachableInv(start, past, u);
    NextIsLater(u, e, s);
    NewWork(u, e, s);
    forall i | 0 <= i < |s.flights| ensures Promoted(start, past + [e], s.flights[i].op, s.flights[i].generation) {
      PromotedStays(start, past, e, s.flights[i].op, s.flights[i].generation);
    }
    forall c | c in s.callbacks && s.callbacks[c].stage.RowSending?
      ensures Promoted(start, past + [e], s.callbacks[c].stage.op, s.callbacks[c].stage.generation)
    {
      var stage := s.callbacks[c].stage;
      if c in u.callbacks && u.callbacks[c].stage == stage {
        PromotedStays(start, past, e, stage.op, stage.generation);
      } else {
        assert (past + [e])[..|past|] == past;
        assert PromotedAt(start, past + [e], |past|, stage.op, stage.generation);
      }
    }
  }

  predicate BecameSender(u: State, s: State, c: CallbackId)
    requires c in s.callbacks
  {
    s.callbacks[c].stage.RowSending? && !(c in u.callbacks && u.callbacks[c].stage == s.callbacks[c].stage)
  }

  /**
   A new request comes only from a row-sending callback, a row-sending callback only from an
   acknowledged promotion.
   */
  lemma NewWork(u: State, e: Event, s: State)
    requires Next(u, e) == Some(s)
    ensures forall i :: |u.flights| <= i < |s.flights| ==>
              exists c ::
                && c in u.callbacks && u.callbacks[c].stage.RowSending? && u.callbacks[c].stage.op == s.flights[i].op
                && u.callbacks[c].stage.generation == s.flights[i].generation
    ensures forall c :: c in s.callbacks && BecameSender(u, s, c) ==>
              && e == Work(c, PromoteRow(true))
              && At(u.db, Open, s.callbacks[c].stage.generation)
              && c in u.callbacks && u.callbacks[c].stage.RowPrepared?
              && u.callbacks[c].stage.op == s.callbacks[c].stage.op
              && u.callbacks[c].stage.generation == s.callbacks[c].stage.generation
  {
    match e
    case Maintain(_) =>
    case Control(control) => ControlCallbacks(u, control, s);
    case Manager(manager) => ManagerHasEffect(u, manager, s);
    case Work(c, work) => NewWorkOfCallback(u, c, work, s);
    case Wire(wire) => WireHasEffect(u, wire, s);
    case Recovery(r, recovery) => RecoveryHasEffect(u, r, recovery, s);
  }

  lemma ControlCallbacks(u: State, e: ControlEvent, s: State)
    requires NextControl(u, e) == Some(s)
    ensures s.callbacks == u.callbacks && s.flights == u.flights
  {
    match e
    case Tick(_) =>
    case TakeLease(_, _) =>
    case DropLease(_) =>
    case CreateOperation(_, _, _) =>
    case ChangeStatus(_, _, _, _) =>
  }

  lemma NewWorkOfCallback(u: State, c: CallbackId, e: WorkStep, s: State)
    requires NextWork(u, c, e) == Some(s)
    ensures forall i :: |u.flights| <= i < |s.flights| ==>
              c in u.callbacks && u.callbacks[c].stage.RowSending? && u.callbacks[c].stage.op == s.flights[i].op &&
              u.callbacks[c].stage.generation == s.flights[i].generation
    ensures forall d :: d in s.callbacks && d != c ==> d in u.callbacks && s.callbacks[d] == u.callbacks[d]
    ensures c in s.callbacks && s.callbacks[c].stage.RowSending? ==>
              && e == PromoteRow(true)
              && At(u.db, Open, s.callbacks[c].stage.generation)
              && c in u.callbacks && u.callbacks[c].stage.RowPrepared?
              && u.callbacks[c].stage.op == s.callbacks[c].stage.op
              && u.callbacks[c].stage.generation == s.callbacks[c].stage.generation
  {
    match e
    case Admit(_) =>
    case EndCallback(_) =>
    case CrashCallback =>
    case ReadMaintenance(_, _) =>
    case ProbeAgent(_) =>
    case GiveUpUnprepared =>
    case PrepareRow(_) =>
    case PromoteRow(_) =>
    case PromoteFailed =>
    case AbandonRow(_) =>
    case Send =>
    case Receive =>
    case TimeOut =>
    case RecordOutcome(_) =>
  }

  /**
   Each operation is handed to transport at most once, whatever crashes, retries
   and lost database acknowledgements happen, and only after its journal row was
   promoted while maintenance was OPEN at exactly the generation the request carries.
   */
  lemma AtMostOneSend(start: State, run: seq<Event>, s: State)
    requires Reaches(start, run, s)
    ensures forall i, j :: 0 <= i < j < |s.flights| ==> s.flights[i].op != s.flights[j].op
    ensures forall i :: 0 <= i < |s.flights| ==>
              && s.flights[i].updates <= 1
              && s.flights[i].op in s.db.dispatches
              && s.db.dispatches[s.flights[i].op].generation == s.flights[i].generation
              && Promoted(start, run, s.flights[i].op, s.flights[i].generation)
  {
    ReachableInv(start, run, s);
    SentWasPromoted(start, run, s);
    assert forall i :: 0 <= i < |s.flights| ==> FlightOk(s.flights[i], s.db.dispatches);
  }

  // ----- lease fencing -----

  /** The transactions that check the control lease, and the lease each one checks. */
  predicate GuardedBy(s: State, e: Event, lease: Lease) {
    match e
    case Maintain(Close(l, _)) => l == lease
    case Maintain(Reconcile(l, _)) => l == lease
    case Maintain(Reopen(l, _)) => l == lease
    case Recovery(r, CommitNotObserved) => r in s.resolvers && s.resolvers[r].lease == lease
    case Recovery(r, CommitTerminal(_)) => r in s.resolvers && s.resolvers[r].lease == lease
    case Recovery(r, CommitAdmission(_)) => r in s.resolvers && s.resolvers[r].lease == lease
    case _ => false
  }

  lemma GuardedOwns(s: State, e: Event, lease: Lease)
    requires GuardedBy(s, e, lease) && Next(s, e).Some?
    ensures OwnsLease(s.db, lease)
  {
    match e
    case Maintain(transition) => {
      match transition
      case Close(_, _) =>
      case Reconcile(_, _) =>
      case Reopen(_, _) =>
    }
    case Recovery(r, recovery) => {
      match recovery
      case CommitNotObserved =>
      case CommitTerminal(_) =>
      case CommitAdmission(_) =>
    }
  }

  /**
   A transaction guarded by a lease commits only under the newest token ever
   issued; every other lease handed out so far carries a smaller token and does
   not pass the ownership check.
   */
  lemma LeaseFencing(start: State, run: seq<Event>, s: State, e: Event, lease: Lease)
    requires Reaches(start, run, s) && GuardedBy(s, e, lease) && Next(s, e).Some?
    ensures lease in s.issued
    ensures forall other :: other in s.issued && other != lease ==> other.token < lease.token && !OwnsLease(s.db, other)
  {
    ReachableInv(start, run, s);
    GuardedOwns(s, e, lease);
  }

  /**
   The first token is 1, every later acquisition takes the largest token so far
   plus one, and no lease issued before it ever passes the ownership check again.
   */
  lemma TokensRiseByOne(start: State, run: seq<Event>, s: State, holder: HolderId, ttl: nat, t: State,
      rest: seq<Event>, u: State)
    requires Reaches(start, run, s) && Next(s, Control(TakeLease(holder, ttl))) == Some(t)
    requires Run(t, rest) == Some(u)
    ensures t.issued == s.issued + {NextLease(s.db, holder)}
    ensures s.issued == {} ==> NextLease(s.db, holder).token == 1
    ensures s.issued != {} ==>
              exists last :: last in s.issued && NextLease(s.db, holder).token == last.token + 1 &&
                             forall l :: l in s.issued ==> l.token <= last.token
    ensures forall earlier :: earlier in s.issued ==> !OwnsLease(u.db, earlier)
  {
    ReachableInv(start, run, s);
    NextKeepsInv(s, Control(TakeLease(holder, ttl)), t);
    RunKeepsInv(t, rest, u);
    RunIsLater(t, rest, u);
    assert NextLease(s.db, holder) in u.issued;
    if s.issued != {} {
      assert s.db.lease.value.lease in s.issued;
    }
  }

  // ----- not observed is final -----

  /**
   If recovery has committed "not observed" for an operation, its request never
   updated Docker and never will, in every continuation, even if it is still travelling.
   */
  lemma NotObservedIsFinal(start: State, run: seq<Event>, s: State, op: OperationId, rest: seq<Event>, t: State)
    requires Reaches(start, run, s)
    requires op in s.db.resolvedDispatches && s.db.resolvedDispatches[op].notObserved
    requires Run(s, rest) == Some(t)
    ensures NeverUpdated(s.flights, op) && NeverUpdated(t.flights, op)
    ensures forall i :: 0 <= i < |t.flights| && t.flights[i].op == op ==> t.flights[i].place != InHandler
  {
    ReachableInv(start, run, s);
    RunKeepsInv(s, rest, t);
    RunIsLater(s, rest, t);
    var g := s.db.resolvedDispatches[op].generation;
    assert NotObservedOk(op, g, t.db.dispatches, t.agents.Keys, t.served, t.flights);
    forall i | 0 <= i < |t.flights| && t.flights[i].op == op ensures t.flights[i].place != InHandler {
      assert FlightOk(t.flights[i], t.db.dispatches);
      BlockedManagersStopUpdates(t, i, g);
    }
  }
}
