/**
 The maintenance programs of one Control Plane process, statement by statement,
 while everything else in the cluster keeps moving between any two statements:
 sending a journalled mutation, blocking every manager, resolving an operation by
 hand and closing the cluster. Each is proved to be part of a run of the protocol,
 and what it reports to its caller is proved true of the cluster.
 */
module Orchestration {
  import opened Basics
  import opened AgentContract
  import opened MaintenanceDb
  import opened Protocol
  import opened ProtocolInvariants
  import opened ProtocolSteps
  import opened ProtocolRuns
  import opened ProtocolTheorems
  import opened ProtocolFinality
  import Repositories
  import opened OrchestrationFacts

  /**
   `db` is the database itself, on which this process runs its statements; `s` is the cluster as the
   protocol sees it. Results that need more than safety are said of a process that is `alone`, while
   nobody else acts, or of a `reliable` cluster, where no statement, write or answer is lost.
   */
  class Cluster {
    const db: Repositories.Database
    const alone: bool
    const reliable: bool
    var s: State
    ghost const start: State
    ghost var run: seq<Event>

    ghost predicate Valid()
      reads this, db
    {
      Reaches(start, run, s) && db.View() == s.db
    }

    constructor(initial: State, alone: bool, reliable: bool)
      requires Initial(initial)
      ensures Valid() && s == initial && run == [] && this.alone == alone && this.reliable == reliable
    {
      db := new Repositories.Database(initial.db);
      this.alone, this.reliable := alone, reliable;
      s, start, run := initial, initial, [];
    }

    /** A step of anyone else, or one of this process that is no statement of its own. */
    method Do(e: Event) returns (ok: bool)
      requires Valid()
      modifies this, db
      ensures Valid()
      ensures ok <==> Next(old(s), e).Some?
      ensures ok ==> Next(old(s), e) == Some(s) && run == old(run) + [e]
      ensures !ok ==> s == old(s) && run == old(run)
      ensures alone ==> db.deployments == old(db.deployments) && db.attempts == old(db.attempts)
    {
      match Next(s, e)
      case None => ok := false;
      case Some(t) =>
        var deployments, attempts := *, *;
        if alone {
          deployments, attempts := db.deployments, db.attempts;
        }
        db.Load(t.db, deployments, attempts);
        Commit(e);
        ok := true;
    }

    /** The database has done what event `e` says. */
    method Commit(e: Event)
      requires Reaches(start, run, s) && Next(s, e).Some? && Next(s, e).value.db == db.View()
      modifies this
      ensures Valid() && Next(old(s), e) == Some(s) && run == old(run) + [e]
    {
      Extended(start, run, s, e, Next(s, e).value);
      run := run + [e];
      s := Next(s, e).value;
    }

    /** Everything else in the cluster takes any number of steps. */
    method Others(who: Party)
      requires Valid()
      modifies this, db
      ensures Valid() && Meanwhile(old(s), s, who)
      ensures who.Sender? ==> Traced(old(run), run, who.c, [])
      ensures alone ==> s == old(s) && run == old(run)
      ensures alone ==> db.deployments == old(db.deployments) && db.attempts == old(db.attempts)
    {
      if alone {
        return;
      }
      var n: nat := *;
      while n > 0
        invariant Valid() && Meanwhile(old(s), s, who) && (who.Sender? ==> Traced(old(run), run, who.c, []))
      {
        var e: Event := *;
        if Foreign(e, who) {
          OneOther(e, who, old(s), old(run));
        }
        n := n - 1;
      }
    }

    method OneOther(e: Event, who: Party, ghost first: State, ghost past: seq<Event>)
      requires Valid() && Foreign(e, who) && Meanwhile(first, s, who)
      requires who.Sender? ==> Traced(past, run, who.c, [])
      modifies this, db
      ensures Valid() && Meanwhile(first, s, who)
      ensures who.Sender? ==> Traced(past, run, who.c, [])
    {
      ghost var before, earlier := s, run;
      var ok := Do(e);
      if ok {
        ForeignIsMeanwhile(start, earlier, before, e, s, who);
        if who.Sender? {
          StepsSnoc(earlier, e, who.c);
        }
      }
    }

    /** One step of the callback this process runs. */
    method Act(c: CallbackId, step: WorkStep) returns (ok: bool)
      requires Valid()
      modifies this, db
      ensures Valid()
      ensures ok <==> NextWork(old(s), c, step).Some?
      ensures ok ==> NextWork(old(s), c, step) == Some(s) && Traced(old(run), run, c, [step])
      ensures !ok ==> s == old(s) && run == old(run)
    {
      ok := Do(Work(c, step));
      StepsSnoc(old(run), Work(c, step), c);
    }

    // ----- the statements of a callback -----

    method PrepareStatement(c: CallbackId, acknowledged: bool) returns (ok: bool)
      requires Valid() && c in s.callbacks && s.callbacks[c].stage.Probed?
      modifies this, db
      ensures Valid()
      ensures ok <==> NextPrepare(old(s), c, acknowledged).Some?
      ensures ok ==> NextPrepare(old(s), c, acknowledged) == Some(s)
      ensures ok ==> Traced(old(run), run, c, [PrepareRow(acknowledged)])
      ensures !ok ==> s == old(s) && run == old(run)
    {
      var p := s.callbacks[c].stage;
      ok := db.Prepare(p.op, p.generation, p.agent);
      if ok {
        Commit(Work(c, PrepareRow(acknowledged)));
        StepsSnoc(old(run), Work(c, PrepareRow(acknowledged)), c);
      }
    }

    method PromoteStatement(c: CallbackId, acknowledged: bool) returns (ok: bool)
      requires Valid() && c in s.callbacks && s.callbacks[c].stage.RowPrepared?
      modifies this, db
      ensures Valid()
      ensures ok <==> NextPromote(old(s), c, acknowledged).Some?
      ensures ok ==> NextPromote(old(s), c, acknowledged) == Some(s)
      ensures ok ==> Traced(old(run), run, c, [PromoteRow(acknowledged)])
      ensures !ok ==> s == old(s) && run == old(run)
    {
      var p := s.callbacks[c].stage;
      ok := db.BeginSend(p.op, p.generation, p.agent);
      if ok {
        Commit(Work(c, PromoteRow(acknowledged)));
        StepsSnoc(old(run), Work(c, PromoteRow(acknowledged)), c);
      }
    }

    method AbandonStatement(c: CallbackId, committed: bool)
      requires Valid() && c in s.callbacks && s.callbacks[c].stage.Abandoning?
      modifies this, db
      ensures Valid()
      ensures NextAbandon(old(s), c, committed) == Some(s) && Traced(old(run), run, c, [AbandonRow(committed)])
    {
      if committed {
        var moved := db.Transition(s.callbacks[c].stage.op, Prepared, Rejected);
      }
      Commit(Work(c, AbandonRow(committed)));
      StepsSnoc(old(run), Work(c, AbandonRow(committed)), c);
    }

    method RecordStatement(c: CallbackId, committed: bool)
      requires Valid() && c in s.callbacks && s.callbacks[c].stage.Answered?
      modifies this, db
      ensures Valid()
      ensures NextRecord(old(s), c, committed) == Some(s) && Traced(old(run), run, c, [RecordOutcome(committed)])
    {
      var answer := s.callbacks[c].stage;
      if committed {
        var moved := db.Transition(answer.op, Sending, OutcomePhase(answer.error));
      }
      Commit(Work(c, RecordOutcome(committed)));
      StepsSnoc(old(run), Work(c, RecordOutcome(committed)), c);
    }

    /** The insert repeats the row read earlier; the identifier has never been used. */
    method AdmitStatement(c: CallbackId, id: AdmissionId, read: Option<MaintenanceRow>) returns (ok: bool)
      requires Valid() && c !in s.callbacks && id !in s.db.resolvedAdmissions
      modifies this, db
      ensures Valid()
      ensures ok <==> read.Some? && read == s.db.maintenance && NextAdmit(old(s), c, id).Some?
      ensures ok ==> NextAdmit(old(s), c, id) == Some(s) && Traced(old(run), run, c, [WorkStep.Admit(id)])
      ensures !ok ==> s == old(s) && run == old(run)
    {
      ok := db.Admit(id, read);
      if ok {
        Commit(Work(c, WorkStep.Admit(id)));
        StepsSnoc(old(run), Work(c, WorkStep.Admit(id)), c);
      }
    }

    method EndStatement(c: CallbackId, deleted: bool)
      requires Valid() && c in s.callbacks && s.callbacks[c].stage == Idle
      modifies this, db
      ensures Valid()
      ensures NextEndCallback(old(s), c, deleted) == Some(s) && Traced(old(run), run, c, [EndCallback(deleted)])
    {
      if deleted {
        db.ReleaseAdmission(Some(s.callbacks[c].admission));
      }
      Commit(Work(c, EndCallback(deleted)));
      StepsSnoc(old(run), Work(c, EndCallback(deleted)), c);
    }

    // ----- sending a journalled mutation -----

    /** The callback, which this process runs, is at `stage`. */
    ghost predicate Stands(c: CallbackId, stage: Stage)
      reads this
    {
      c in s.callbacks && s.callbacks[c].stage == stage
    }

    /** The callback has moved from where it stood in `before` to `stage`, under the same admission. */
    ghost predicate Moved(before: State, c: CallbackId, stage: Stage)
      reads this
    {
      c in before.callbacks && c in s.callbacks && s.callbacks[c] == Callback(before.callbacks[c].admission, stage)
    }

    /** INSERT of the journal row. `ours` says that the row was inserted although the statement seemed to fail. */
    method Prepare(c: CallbackId, op: OperationId, node: bool, generation: nat,
        agent: AgentId) returns (answer: Statement, ghost ours: bool)
      requires Valid() && Stands(c, Probed(op, node, generation, agent))
      modifies this, db
      ensures Valid() && (reliable ==> answer != Faulted)
      ensures answer == Done ==> Moved(old(s), c, RowPrepared(op, node, generation, agent))
      ensures answer != Done ==> Moved(old(s), c, Idle)
      ensures answer == Duplicate ==> op in s.db.dispatches
      ensures answer == Faulted && ours ==> Orphaned(s, op)
      ensures Traced(old(run), run, c,
                     if answer == Done then [PrepareRow(true)]
                     else if answer == Faulted && ours then [PrepareRow(false)] else [GiveUpUnprepared])
    {
      Others(Sender(c));
      var acknowledged, committed: bool := *, *;
      acknowledged := acknowledged || reliable;
      ours := false;
      if acknowledged || committed {
        var ok := TryInsert(c, op, node, generation, agent, acknowledged);
        if ok {
          return if acknowledged then Done else Faulted, true;
        }
      }
      var gaveUp := Act(c, GiveUpUnprepared);
      return if acknowledged then Duplicate else Faulted, ours;
    }

    /** The statement itself; it inserts nothing exactly when the operation has a row. */
    method TryInsert(c: CallbackId, op: OperationId, node: bool, generation: nat, agent: AgentId, acknowledged: bool)
      returns (ok: bool)
      requires Valid() && Stands(c, Probed(op, node, generation, agent))
      modifies this, db
      ensures Valid() && (ok <==> op !in old(s).db.dispatches)
      ensures !ok ==> s == old(s) && run == old(run)
      ensures ok ==> Traced(old(run), run, c, [PrepareRow(acknowledged)]) && (!acknowledged ==> Orphaned(s, op))
      ensures ok ==> Moved(old(s), c, if acknowledged then RowPrepared(op, node, generation, agent) else Idle)
    {
      ok := PrepareStatement(c, acknowledged);
      if ok {
        PreparedFacts(start, old(run), old(s), c, op, node, generation, agent, acknowledged, s);
      }
    }

    /** The promotion; `false` when it failed, its acknowledgement was lost, or maintenance has moved on. */
    method BeginSend(c: CallbackId, op: OperationId, node: bool, generation: nat, agent: AgentId)
      returns (ok: bool, ghost faulted: bool)
      requires Valid() && Stands(c, RowPrepared(op, node, generation, agent))
      modifies this, db
      ensures Valid() && (reliable ==> !faulted)
      ensures Moved(old(s), c, if ok then RowSending(op, node, generation, agent) else Abandoning(op))
      ensures !ok && !faulted ==> Generation(s.db) > generation
      ensures ok ==> Traced(old(run), run, c, [PromoteRow(true)])
      ensures !ok ==> Traced(old(run), run, c, [PromoteRow(false)]) || Traced(old(run), run, c, [PromoteFailed])
    {
      Others(Sender(c));
      var acknowledged, committed: bool := *, *;
      acknowledged := acknowledged || reliable;
      faulted := !acknowledged;
      if acknowledged || committed {
        ok := PromoteStatement(c, acknowledged);
        if ok {
          return acknowledged, faulted;
        }
        MovedOn(start, run, s, c);
      }
      ok := Act(c, PromoteFailed);
      return false, faulted;
    }

    /** PREPARED to REJECTED for a row that will not be sent; a failure leaves the row as it is. */
    method Abandon(c: CallbackId, op: OperationId) returns (ghost written: bool)
      requires Valid() && Stands(c, Abandoning(op))
      modifies this, db
      ensures Valid() && Moved(old(s), c, Idle) && Orphaned(s, op)
      ensures reliable ==> s.db.dispatches[op].phase != Prepared
      ensures Generation(old(s).db) <= Generation(s.db)
      ensures Traced(old(run), run, c, [AbandonRow(written)])
    {
      Others(Sender(c));
      ghost var before, earlier := s, run;
      var committed: bool := *;
      committed := committed || reliable;
      written := committed;
      AbandonStatement(c, committed);
      AbandonedFacts(start, earlier, before, c, op, committed, s);
    }

    /** Hands the request to transport. */
    method Send(c: CallbackId, op: OperationId, node: bool, generation: nat, agent: AgentId) returns (ghost flight: nat)
      requires Valid() && Stands(c, RowSending(op, node, generation, agent))
      modifies this, db
      ensures Valid() && Moved(old(s), c, Waiting(op, flight)) && Traced(old(run), run, c, [WorkStep.Send])
    {
      Others(Sender(c));
      flight := |s.flights|;
      SendPossible(start, run, s, c);
      var ok := Act(c, WorkStep.Send);
    }

    /** Waits for the answer or for the time limit. */
    method Await(c: CallbackId, op: OperationId, ghost flight: nat) returns (error: Option<SendError>)
      requires Valid() && Stands(c, Waiting(op, flight))
      modifies this, db
      ensures Valid() && Moved(old(s), c, Answered(op, flight, error))
      ensures Traced(old(run), run, c, [if error == Some(TransportError) then TimeOut else Receive])
      ensures reliable && error == Some(TransportError) ==>
                flight >= |s.flights| || !s.flights[flight].place.Replied?
    {
      Others(Sender(c));
      var patient: bool := *;
      if patient || reliable {
        var answer := TakeAnswer(c, op, flight);
        if answer.Some? {
          return answer.value;
        }
      }
      var ok := Act(c, TimeOut);
      return Some(TransportError);
    }

    method TakeAnswer(c: CallbackId, op: OperationId, ghost flight: nat) returns (answer: Option<Option<SendError>>)
      requires Valid() && Stands(c, Waiting(op, flight))
      modifies this, db
      ensures Valid() && s.flights == old(s).flights
      ensures answer.Some? <==> flight < |s.flights| && s.flights[flight].place.Replied?
      ensures answer.Some? ==> answer.value != Some(TransportError) && Traced(old(run), run, c, [Receive])
      ensures answer.None? ==> run == old(run)
      ensures Moved(old(s), c, if answer.Some? then Answered(op, flight, answer.value) else Waiting(op, flight))
    {
      var ok := Act(c, Receive);
      return if ok then Some(s.callbacks[c].stage.error) else None;
    }

    /** Writes the outcome and reports it; `written` says that the journal has it. */
    method Record(c: CallbackId, op: OperationId, error: Option<SendError>, ghost flight: nat)
      returns (result: SendResult, ghost written: bool)
      requires Valid() && Stands(c, Answered(op, flight, error))
      modifies this, db
      ensures Valid() && Moved(old(s), c, Idle) && (reliable ==> written)
      ensures TellsTruth(s, op, result) && Reports(s.db, op, error, written, result)
      ensures Traced(old(run), run, c, [RecordOutcome(written)])
    {
      Others(Sender(c));
      ghost var before, earlier := s, run;
      var committed: bool := *;
      committed := committed || reliable;
      written := committed;
      RecordStatement(c, committed);
      result := if error.None? && committed then Accepted
                else if error.Some? && error.value.AgentError? && IsDeterministicRejection(error.value) then
                  Refused(error.value.response)
                else Ambiguous;
      AnsweredFacts(start, earlier, before, c);
      RecordedTruth(before, c, op, flight, error, committed, s);
      RecordedReport(before, c, op, flight, error, committed, s);
    }

    /** Insert and promotion; `stop` when the callback must not send. */
    method Journal(c: CallbackId, op: OperationId, node: bool, generation: nat, agent: AgentId)
      returns (stop: Option<SendResult>, ghost ours: bool, ghost faulted: bool, ghost trace: seq<WorkStep>)
      requires Valid() && Stands(c, Probed(op, node, generation, agent))
      modifies this, db
      ensures Valid() && (reliable ==> !faulted) && Traced(old(run), run, c, trace)
      ensures stop.None? ==>
                Moved(old(s), c, RowSending(op, node, generation, agent)) &&
                  trace == [PrepareRow(true), PromoteRow(true)]
      ensures stop.Some? ==> Moved(old(s), c, Idle) && WorkStep.Send !in trace
      ensures stop.Some? ==> stop.value in {NotSent, AlreadyDispatched}
      ensures stop == Some(AlreadyDispatched) ==> op in s.db.dispatches && trace == [GiveUpUnprepared]
      ensures stop == Some(NotSent) && ours ==> Orphaned(s, op)
      ensures stop == Some(NotSent) && !faulted ==>
                ours && Generation(s.db) > generation && (reliable ==> s.db.dispatches[op].phase != Prepared)
    {
      var prepared;
      prepared, ours := Prepare(c, op, node, generation, agent);
      faulted := prepared == Faulted;
      if prepared != Done {
        trace := if prepared == Faulted && ours then [PrepareRow(false)] else [GiveUpUnprepared];
        return Some(if prepared == Duplicate then AlreadyDispatched else NotSent), ours, faulted, trace;
      }
      ours := true;
      var promoted;
      promoted, faulted := BeginSend(c, op, node, generation, agent);
      if promoted {
        return None, ours, faulted, [PrepareRow(true), PromoteRow(true)];
      }
      trace := GiveUpRow(c, op, old(run));
      stop := Some(NotSent);
    }

    method GiveUpRow(c: CallbackId, op: OperationId, ghost past: seq<Event>) returns (ghost trace: seq<WorkStep>)
      requires Valid() && Stands(c, Abandoning(op))
      requires Traced(past, run, c, [PrepareRow(true), PromoteRow(false)]) ||
               Traced(past, run, c, [PrepareRow(true), PromoteFailed])
      modifies this, db
      ensures Valid() && Moved(old(s), c, Idle) && Orphaned(s, op)
      ensures reliable ==> s.db.dispatches[op].phase != Prepared
      ensures Generation(old(s).db) <= Generation(s.db)
      ensures Traced(past, run, c, trace) && WorkStep.Send !in trace
    {
      ghost var lost := Traced(past, run, c, [PrepareRow(true), PromoteRow(false)]);
      ghost var committed := Abandon(c, op);
      trace := [PrepareRow(true), if lost then PromoteRow(false) else PromoteFailed, AbandonRow(committed)];
    }

    /**
     A journalled mutation, from the row to the recorded outcome. A result the caller may treat as
     final is true of the cluster: accepted means updated exactly once, refused means not updated,
     and not sent means this callback handed nothing to transport and a row it left behind is
     orphaned (`ProtocolFinality` shows that these stay true in every continuation). The result
     of a request that was sent is determined by the answer received and by the journal write;
     without a fault it is not sent only because the maintenance generation has moved on.
     */
    method Execute(c: CallbackId)
      returns (result: SendResult, ghost ours: bool, ghost faulted: bool, ghost error: Option<SendError>,
               ghost trace: seq<WorkStep>)
      requires Valid() && c in s.callbacks && s.callbacks[c].stage.Probed?
      modifies this, db
      ensures Valid() && Moved(old(s), c, Idle) && Traced(old(run), run, c, trace)
      ensures TellsTruth(s, old(s).callbacks[c].stage.op, result)
      ensures result.NotSent? || result.AlreadyDispatched? ==> WorkStep.Send !in trace && (reliable ==> !faulted)
      ensures result.AlreadyDispatched? ==> trace == [GiveUpUnprepared]
      ensures result.NotSent? && ours ==> Orphaned(s, old(s).callbacks[c].stage.op)
      ensures result.NotSent? && !faulted ==> ours && Generation(s.db) > old(s).callbacks[c].stage.generation
      ensures !result.NotSent? && !result.AlreadyDispatched? ==>
                exists written: bool ::
                  && trace == SentTrace(error, written) && (reliable ==> written)
                  && Reports(s.db, old(s).callbacks[c].stage.op, error, written, result)
    {
      var p := s.callbacks[c].stage;
      var stop;
      stop, ours, faulted, trace := Journal(c, p.op, p.node, p.generation, p.agent);
      if stop.Some? {
        return stop.value, ours, faulted, None, trace;
      }
      var sent;
      ghost var written;
      sent, error, written := SendAndRecord(c, p.op, p.node, p.generation, p.agent);
      result, trace := sent, SentTrace(error, written);
    }

    method SendAndRecord(c: CallbackId, op: OperationId, node: bool, generation: nat, agent: AgentId)
      returns (result: SendResult, ghost error: Option<SendError>, ghost written: bool)
      requires Valid() && Stands(c, RowSending(op, node, generation, agent))
      modifies this, db
      ensures Valid() && Moved(old(s), c, Idle) && (reliable ==> written)
      ensures TellsTruth(s, op, result) && Reports(s.db, op, error, written, result)
      ensures Traced(old(run), run, c, SentTrace(error, written)[2..])
    {
      ghost var flight := Send(c, op, node, generation, agent);
      var answer := Await(c, op, flight);
      error := answer;
      result, written := Record(c, op, answer, flight);
    }

    /**
     A mutation under a durable admission: admit, read the maintenance row, ask the Agent for its
     barrier, send, and delete the admission again. `None` when it was not admitted or not ready,
     and then nothing was sent. However it ends, its callback is over, and its admission row is
     there just when the deletion failed, which keeps the cluster from closing.
     */
    method RunUnderAdmission(c: CallbackId, id: AdmissionId, op: OperationId, node: bool, agent: AgentId)
      returns (result: Option<SendResult>, admitted: bool, deleted: bool, ghost trace: seq<WorkStep>)
      requires Valid() && c !in s.callbacks
      modifies this, db
      ensures Valid() && c !in s.callbacks && Traced(old(run), run, c, trace)
      ensures result.Some? ==> admitted && TellsTruth(s, op, result.value)
      ensures result.None? || result.value.NotSent? || result.value.AlreadyDispatched? ==> WorkStep.Send !in trace
      ensures admitted ==> (id in s.db.admissions <==> !deleted) && (reliable ==> deleted)
      ensures alone && CanAdmit(old(s), id) ==> admitted
      ensures alone && CanAdmit(old(s), id) && IsReady(old(s), op, node, agent) ==> result.Some?
    {
      admitted := Enter(c, id);
      if !admitted {
        return None, false, false, [];
      }
      ghost var work;
      result, work := Within(c, op, node, agent);
      deleted := Leave(c, op, result);
      trace := [WorkStep.Admit(id)] + work + [EndCallback(deleted)];
    }

    /** The callback is over; its admission is deleted whenever the database gets to it, or not at all. */
    method Leave(c: CallbackId, op: OperationId, ghost result: Option<SendResult>) returns (deleted: bool)
      requires Valid() && Stands(c, Idle) && (result.Some? ==> TellsTruth(s, op, result.value))
      modifies this, db
      ensures Valid() && c !in s.callbacks && Traced(old(run), run, c, [EndCallback(deleted)])
      ensures result.Some? ==> TellsTruth(s, op, result.value)
      ensures old(s).callbacks[c].admission in s.db.admissions <==> !deleted
      ensures reliable ==> deleted
    {
      Others(Sender(c));
      deleted := *;
      deleted := deleted || reliable;
      EndFacts(start, run, s, c, deleted);
      EndStatement(c, deleted);
      if result.Some? {
        TruthStays(start, old(run), old(s), run, s, op, result.value);
      }
    }

    /** The maintenance row is read, and the admission is inserted if it is still OPEN at that generation. */
    method Enter(c: CallbackId, id: AdmissionId) returns (admitted: bool)
      requires Valid() && c !in s.callbacks
      modifies this, db
      ensures Valid() && Traced(old(run), run, c, if admitted then [WorkStep.Admit(id)] else [])
      ensures if admitted then c in s.callbacks && s.callbacks[c] == Callback(id, Idle) else c !in s.callbacks
      ensures alone ==> (admitted <==> CanAdmit(old(s), id))
      ensures alone && admitted ==> NextAdmit(old(s), c, id) == Some(s)
    {
      Others(Sender(c));
      var read := db.maintenance;
      Others(Sender(c));
      if id in db.resolvedAdmissions {
        return false;
      }
      EnterFacts(start, run, s, c, id);
      admitted := AdmitStatement(c, id, read);
    }

    method Within(c: CallbackId, op: OperationId, node: bool, agent: AgentId)
      returns (result: Option<SendResult>, ghost trace: seq<WorkStep>)
      requires Valid() && Stands(c, Idle)
      modifies this, db
      ensures Valid() && Moved(old(s), c, Idle) && Traced(old(run), run, c, trace)
      ensures result.Some? ==> TellsTruth(s, op, result.value)
      ensures result.None? || result.value.NotSent? || result.value.AlreadyDispatched? ==> WorkStep.Send !in trace
      ensures alone && IsReady(old(s), op, node, agent) ==> result.Some?
    {
      var generation;
      generation, trace := MakeReady(c, op, node, agent);
      if generation.None? {
        return None, trace;
      }
      var sent;
      ghost var ours, faulted, error, more;
      sent, ours, faulted, error, more := Execute(c);
      return Some(sent), trace + more;
    }

    /** The maintenance row is OPEN, and the Agent answers OPEN at its generation. */
    method MakeReady(c: CallbackId, op: OperationId, node: bool, agent: AgentId)
      returns (generation: Option<nat>, ghost trace: seq<WorkStep>)
      requires Valid() && Stands(c, Idle)
      modifies this, db
      ensures Valid() && Traced(old(run), run, c, trace) && WorkStep.Send !in trace
      ensures Moved(old(s), c, if generation.Some? then Probed(op, node, generation.value, agent) else Idle)
      ensures alone ==> (generation.Some? <==> IsReady(old(s), op, node, agent))
    {
      Others(Sender(c));
      var ok := Act(c, ReadMaintenance(op, node));
      if !ok {
        return None, [];
      }
      generation := Some(s.callbacks[c].stage.generation);
      ghost var before := s;
      ok := ProbeOrGiveUp(c, op, node, generation.value, agent);
      trace := [ReadMaintenance(op, node)] + if ok then [ProbeAgent(agent)] else [GiveUpUnprepared];
      if !ok {
        generation := None;
      }
    }

    method ProbeOrGiveUp(c: CallbackId, op: OperationId, node: bool, generation: nat, agent: AgentId) returns (ok: bool)
      requires Valid() && Stands(c, Admitted(op, node, generation))
      modifies this, db
      ensures Valid() && Traced(old(run), run, c, [if ok then ProbeAgent(agent) else GiveUpUnprepared])
      ensures Moved(old(s), c, if ok then Probed(op, node, generation, agent) else Idle)
      ensures alone ==>
                (ok <==> && agent in old(s).agents && !old(s).agents[agent].invalid
                         && old(s).agents[agent].barrier == Barrier(generation, true))
    {
      Others(Sender(c));
      ok := Act(c, ProbeAgent(agent));
      if !ok {
        var gaveUp := Act(c, GiveUpUnprepared);
      }
    }

    // ----- maintenance controllers -----

    /** Nobody interferes, nothing is lost, and every manager answers. */
    ghost predicate Unhindered(before: State)
    {
      alone && reliable && Responsive(before)
    }

    /** The configured managers, as a list. */
    ghost predicate Roster(managers: seq<AgentId>)
      reads this
    {
      s.agents.Keys == Repositories.SetOf(managers)
    }

    ghost predicate At(r: ResolverId, p: Resolver)
      reads this
    {
      r in s.resolvers && s.resolvers[r] == p
    }

    method Recover(r: ResolverId, step: RecoveryStep) returns (ok: bool)
      requires Valid()
      modifies this, db
      ensures Valid() && s.agents.Keys == old(s).agents.Keys && old(s).puts <= s.puts && old(s).served <= s.served
      ensures ok <==> NextRecovery(old(s), r, step).Some?
      ensures ok ==> NextRecovery(old(s), r, step) == Some(s)
      ensures !ok ==> s == old(s)
      ensures alone ==> db.deployments == old(db.deployments) && db.attempts == old(db.attempts)
    {
      ghost var before := s;
      ok := Do(Recovery(r, step));
      if ok {
        RecoveryHasEffect(before, r, step, s);
      }
    }

    /** A barrier transition sent to one manager; `true` only for its 200 answer. */
    method PutBarrier(r: ResolverId, a: AgentId, b: Barrier) returns (ok: bool)
      requires Valid() && b in s.puts
      modifies this, db
      ensures Valid() && Meanwhile(old(s), s, Controller(r))
      ensures ok ==> (a, b) in s.served
      ensures Unhindered(old(s)) && a in old(s).agents && MayTake(old(s).agents, b) ==> ok && Took(old(s), s, a, b)
      ensures alone ==> db.deployments == old(db.deployments) && db.attempts == old(db.attempts)
    {
      Others(Controller(r));
      ok := HandOver(r, a, b);
    }

    method HandOver(r: ResolverId, a: AgentId, b: Barrier) returns (ok: bool)
      requires Valid() && b in s.puts
      modifies this, db
      ensures Valid() && Meanwhile(old(s), s, Controller(r))
      ensures ok ==> (a, b) in s.served
      ensures Unhindered(old(s)) && a in old(s).agents && MayTake(old(s).agents, b) ==> ok && Took(old(s), s, a, b)
      ensures alone ==> db.deployments == old(db.deployments) && db.attempts == old(db.attempts)
    {
      var persisted: bool := *;
      persisted := persisted || reliable;
      var e := Manager(HandlePut(a, b, persisted));
      ok := Do(e);
      if Unhindered(old(s)) && a in old(s).agents && MayTake(old(s).agents, b) {
        PutTaken(old(s), a, b, s);
      }
      if ok {
        ForeignIsMeanwhile(start, old(run), old(s), e, s, Controller(r));
        PutAnswered(old(s), a, b, persisted, s);
        ok := !s.agents[a].invalid;
      }
    }

    method StoreAck(r: ResolverId, a: AgentId, generation: nat) returns (ok: bool)
      requires Valid() && (a, Barrier(generation, false)) in s.served
      modifies this, db
      ensures Valid() && Meanwhile(old(s), s, Controller(r))
      ensures ok ==> a in s.db.acks && s.db.acks[a] == generation
      ensures reliable ==> ok
      ensures alone && ok ==> s == old(s).(db := old(s).db.(acks := old(s).db.acks[a := generation]))
      ensures alone ==> db.deployments == old(db.deployments) && db.attempts == old(db.attempts)
    {
      Others(Controller(r));
      ghost var before, earlier := s, run;
      var failed: bool := *;
      if failed && !reliable {
        return false;
      }
      db.RecordAck(a, generation);
      Commit(Manager(WriteAck(a, generation)));
      ForeignIsMeanwhile(start, earlier, before, Manager(WriteAck(a, generation)), s, Controller(r));
      return true;
    }

    /** Blocks one manager and stores its acknowledgement. */
    method PutAndStore(r: ResolverId, generation: nat, a: AgentId) returns (ok: bool)
      requires Valid() && Barrier(generation, false) in s.puts
      modifies this, db
      ensures Valid() && Meanwhile(old(s), s, Controller(r))
      ensures Unhindered(old(s)) && a in old(s).agents && MayTake(old(s).agents, Barrier(generation, false)) ==>
                && ok && a in s.agents && s.agents[a].barrier == Barrier(generation, false) && !s.agents[a].invalid
                && s == old(s).(agents := old(s).agents[a := s.agents[a]], served := s.served,
                                db := old(s).db.(acks := old(s).db.acks[a := generation]))
      ensures alone ==> db.deployments == old(db.deployments) && db.attempts == old(db.attempts)
    {
      ok := PutBarrier(r, a, Barrier(generation, false));
      if ok {
        ok := StoreAck(r, a, generation);
      }
    }

    /** Blocks every manager, one after the other, and stores each acknowledgement. */
    method PutAll(r: ResolverId, generation: nat, managers: seq<AgentId>) returns (ok: bool)
      requires Valid() && Roster(managers) && Barrier(generation, false) in s.puts
      modifies this, db
      ensures Valid() && Meanwhile(old(s), s, Controller(r))
      ensures Unhindered(old(s)) && MayTake(old(s).agents, Barrier(generation, false)) ==>
                ok && BlockedSoFar(old(s), s, s.agents.Keys, generation)
      ensures alone ==> db.deployments == old(db.deployments) && db.attempts == old(db.attempts)
    {
      ghost var calm := Unhindered(s) && MayTake(s.agents, Barrier(generation, false));
      BlockingStarts(s, generation);
      for i := 0 to |managers|
        invariant Valid() && Meanwhile(old(s), s, Controller(r))
        invariant calm ==> BlockedSoFar(old(s), s, Repositories.SetOf(managers[..i]), generation)
        invariant alone ==> db.deployments == old(db.deployments) && db.attempts == old(db.attempts)
      {
        ok := PutNext(r, generation, managers, i, old(s), calm);
        if !ok {
          return;
        }
      }
      assert managers[..|managers|] == managers;
      return true;
    }

    method PutNext(r: ResolverId, generation: nat, managers: seq<AgentId>, i: nat, ghost first: State, ghost calm: bool)
      returns (ok: bool)
      requires Valid() && i < |managers| && Barrier(generation, false) in s.puts && Meanwhile(first, s, Controller(r))
      requires first.agents.Keys == Repositories.SetOf(managers)
      requires calm ==> Unhindered(first) && MayTake(first.agents, Barrier(generation, false))
      requires calm ==> BlockedSoFar(first, s, Repositories.SetOf(managers[..i]), generation)
      modifies this, db
      ensures Valid() && Meanwhile(first, s, Controller(r))
      ensures calm ==> ok && BlockedSoFar(first, s, Repositories.SetOf(managers[..i + 1]), generation)
      ensures alone ==> db.deployments == old(db.deployments) && db.attempts == old(db.attempts)
    {
      assert managers[i] in Repositories.SetOf(managers);
      if calm {
        BlockingMayTake(first, s, Repositories.SetOf(managers[..i]), generation);
      }
      ok := PutAndStore(r, generation, managers[i]);
      if calm {
        BlockingSnoc(first, old(s), s, managers[..i], generation, managers[i]);
        assert managers[..i] + [managers[i]] == managers[..i + 1];
      }
    }

    /** Reads every manager again: each must answer BLOCKED at exactly this generation. */
    method RereadAll(r: ResolverId, lease: Lease, generation: nat, managers: seq<AgentId>) returns (ok: bool)
      requires Valid() && Roster(managers) && At(r, Resolver.Blocking(lease, generation, {}))
      modifies this, db
      ensures Valid() && s.agents.Keys == old(s).agents.Keys && r in s.resolvers
      ensures ok ==> At(r, Resolver.Blocking(lease, generation, s.agents.Keys))
      ensures alone && Holding(old(s).agents, old(s).agents, old(s).agents.Keys, Barrier(generation, false)) ==>
                ok && s == old(s).(served := s.served, resolvers := s.resolvers)
      ensures alone ==> db.deployments == old(db.deployments) && db.attempts == old(db.attempts)
    {
      ghost var calm :=
        alone && Holding(s.agents, s.agents, s.agents.Keys, Barrier(generation, false));
      for i := 0 to |managers|
        invariant Valid() && s.agents.Keys == old(s).agents.Keys
        invariant At(r, Resolver.Blocking(lease, generation, Repositories.SetOf(managers[..i])))
        invariant calm ==> s == old(s).(served := s.served, resolvers := s.resolvers)
        invariant alone ==> db.deployments == old(db.deployments) && db.attempts == old(db.attempts)
      {
        assert managers[i] in Repositories.SetOf(managers);
        ok := Reread(r, lease, generation, managers[i], Repositories.SetOf(managers[..i]));
        if !ok {
          return;
        }
        Repositories.SetOfSnoc(managers[..i], managers[i]);
        assert managers[..i] + [managers[i]] == managers[..i + 1];
      }
      assert managers[..|managers|] == managers;
      return true;
    }

    method Reread(r: ResolverId, lease: Lease, generation: nat, a: AgentId, ghost done: set<AgentId>) returns (ok: bool)
      requires Valid() && At(r, Resolver.Blocking(lease, generation, done))
      modifies this, db
      ensures Valid() && s.agents.Keys == old(s).agents.Keys && r in s.resolvers
      ensures ok ==> At(r, Resolver.Blocking(lease, generation, done + {a}))
      ensures alone ==> s == old(s).(served := s.served, resolvers := s.resolvers)
      ensures alone ==>
                (ok <==> && a in old(s).agents && !old(s).agents[a].invalid
                         && old(s).agents[a].barrier == Barrier(generation, false))
      ensures alone ==> db.deployments == old(db.deployments) && db.attempts == old(db.attempts)
    {
      Others(Controller(r));
      ok := Recover(r, RereadBlocked(a));
    }

    /**
     `blockAll`: succeeds only when every manager has answered BLOCKED at this generation again
     after the last transition, and every acknowledgement row is there; and it does succeed, during
     maintenance, when every manager is usable and drained and nothing interferes.
     */
    method BlockAll(r: ResolverId, lease: Lease, generation: nat, managers: seq<AgentId>) returns (ok: bool)
      requires Valid() && Roster(managers) && r !in s.resolvers
      modifies this, db
      ensures Valid() && s.agents.Keys == old(s).agents.Keys
      ensures ok ==> At(r, Blocked(lease, generation)) && AllBlocked(s.agents.Keys, s.served, generation)
      ensures ok ==> Maintained(s.db, generation) && AllAcknowledged(s.db, s.agents.Keys, generation)
      ensures Unhindered(old(s)) && Maintained(old(s).db, generation) && lease in old(s).issued ==>
                ok && Blocks(old(s), s, generation)
      ensures alone ==> db.deployments == old(db.deployments) && db.attempts == old(db.attempts)
    {
      ok := StartBlocking(r, lease, generation);
      if !ok {
        return;
      }
      ghost var begun := s;
      ok := BlockEach(r, lease, generation, managers);
      if !ok {
        return;
      }
      ghost var blocked := s;
      ok := EndBlocking(r, lease, generation);
      if Unhindered(old(s)) && Maintained(old(s).db, generation) && lease in old(s).issued {
        BlocksAll(old(s), begun, blocked, s, generation);
      }
    }

    /** Transition and acknowledgement of every manager, then the second reading of every manager. */
    method BlockEach(r: ResolverId, lease: Lease, generation: nat, managers: seq<AgentId>) returns (ok: bool)
      requires Valid() && Roster(managers) && Barrier(generation, false) in s.puts && Maintained(s.db, generation)
      requires At(r, Resolver.Blocking(lease, generation, {}))
      modifies this, db
      ensures Valid() && s.agents.Keys == old(s).agents.Keys
      ensures ok ==> At(r, Resolver.Blocking(lease, generation, s.agents.Keys))
      ensures Unhindered(old(s)) ==>
                ok && Blocks(old(s), s, generation) && AllAcknowledged(s.db, s.agents.Keys, generation)
      ensures alone ==> db.deployments == old(db.deployments) && db.attempts == old(db.attempts)
    {
      MaintainedFacts(start, run, s, generation);
      ok := PutAll(r, generation, managers);
      if !ok {
        return;
      }
      ghost var put := s;
      ok := RereadAll(r, lease, generation, managers);
      if Unhindered(old(s)) {
        BlockedEach(old(s), put, s, generation);
      }
    }

    method StartBlocking(r: ResolverId, lease: Lease, generation: nat) returns (ok: bool)
      requires Valid() && r !in s.resolvers
      modifies this, db
      ensures Valid() && s.agents.Keys == old(s).agents.Keys
      ensures ok ==> At(r, Resolver.Blocking(lease, generation, {})) && Barrier(generation, false) in s.puts
      ensures ok ==> Maintained(s.db, generation)
      ensures alone ==> (ok <==> Maintained(old(s).db, generation) && lease in old(s).issued)
      ensures alone ==> s == old(s).(puts := s.puts, resolvers := s.resolvers)
      ensures alone ==> db.deployments == old(db.deployments) && db.attempts == old(db.attempts)
    {
      Others(Controller(r));
      ok := Recover(r, BeginResolve(lease, generation));
      if ok {
        var sent := Announce(r);
      }
    }

    method EndBlocking(r: ResolverId, lease: Lease, generation: nat) returns (ok: bool)
      requires Valid() && At(r, Resolver.Blocking(lease, generation, s.agents.Keys))
      modifies this, db
      ensures Valid() && s.agents.Keys == old(s).agents.Keys
      ensures ok ==> At(r, Blocked(lease, generation)) && AllBlocked(s.agents.Keys, s.served, generation)
      ensures ok ==> Maintained(s.db, generation) && AllAcknowledged(s.db, s.agents.Keys, generation)
      ensures alone ==> s == old(s).(resolvers := s.resolvers)
      ensures alone && Maintained(old(s).db, generation) ==>
                AllAcknowledged(old(s).db, old(s).agents.Keys, generation) ==> ok
      ensures alone ==> db.deployments == old(db.deployments) && db.attempts == old(db.attempts)
    {
      Others(Controller(r));
      ok := Recover(r, FinishBlocking);
      BlockedFacts(start, run, s, r);
    }

    /** The transition message this controller will keep sending is the one for the row it has just read. */
    method Announce(r: ResolverId) returns (ok: bool)
      requires Valid() && r in s.resolvers && s.resolvers[r].Blocking? && Maintained(s.db, s.resolvers[r].generation)
      modifies this, db
      ensures Valid() && Meanwhile(old(s), s, Controller(r)) && Barrier(s.resolvers[r].generation, false) in s.puts
      ensures s == old(s).(puts := s.puts)
      ensures alone ==> db.deployments == old(db.deployments) && db.attempts == old(db.attempts)
    {
      ghost var before, earlier := s, run;
      ok := Do(Manager(SendPut));
      ForeignIsMeanwhile(start, earlier, before, Manager(SendPut), s, Controller(r));
    }

    /**
     Manual recovery of an operation: block, inspect the resource, commit. When it commits "not
     observed" the operation's request has not updated Docker (and never will,
     `ProtocolTheorems.NotObservedIsFinal`); otherwise the operation had finished.
     */
    method ResolveByHand(r: ResolverId, lease: Lease, generation: nat, op: OperationId,
        managers: seq<AgentId>) returns (ok: bool, notObserved: bool)
      requires Valid() && Roster(managers) && r !in s.resolvers
      modifies this, db
      ensures Valid()
      ensures ok ==> op in s.db.resolvedDispatches && s.db.resolvedDispatches[op] == Resolution(generation, notObserved)
      ensures ok && notObserved ==> NeverUpdated(s.flights, op)
      ensures ok && !notObserved ==> Lookup(s.db, op).Some? && Terminal(Lookup(s.db, op).value.status)
      ensures Unhindered(old(s)) && RecoveryAuthorised(old(s).db, generation, lease) ==>
                Resolvable(old(s), old(db.deployments), old(db.attempts), op) ==> ok
    {
      if OwnsLease(s.db, lease) {
        LeaseIsIssued(start, run, s, lease);
      }
      ok := BlockAll(r, lease, generation, managers);
      if !ok {
        return false, false;
      }
      ok, notObserved := InspectAndCommit(r, lease, generation, op);
    }

    method InspectAndCommit(r: ResolverId, lease: Lease, generation: nat, op: OperationId)
      returns (ok: bool, notObserved: bool)
      requires Valid() && At(r, Blocked(lease, generation))
      modifies this, db
      ensures Valid()
      ensures ok ==> op in s.db.resolvedDispatches && s.db.resolvedDispatches[op] == Resolution(generation, notObserved)
      ensures ok && notObserved ==> NeverUpdated(s.flights, op)
      ensures ok && !notObserved ==> Lookup(s.db, op).Some? && Terminal(Lookup(s.db, op).value.status)
      ensures alone && RecoveryAuthorised(old(s).db, generation, lease) ==>
                Resolvable(old(s), old(db.deployments), old(db.attempts), op) ==> ok
    {
      var seen := Inspect(r, lease, generation, op);
      if seen.None? {
        return false, false;
      }
      ok, notObserved := CommitResolution(r, lease, generation, op, seen.value.0, seen.value.1);
    }

    method Inspect(r: ResolverId, lease: Lease, generation: nat, op: OperationId)
      returns (seen: Option<(nat, SpecHash)>)
      requires Valid() && At(r, Blocked(lease, generation))
      modifies this, db
      ensures Valid()
      ensures seen.Some? ==> At(r, Observed(lease, generation, op, seen.value.0, seen.value.1))
      ensures alone ==> s == old(s).(resolvers := s.resolvers)
      ensures alone ==> db.deployments == old(db.deployments) && db.attempts == old(db.attempts)
      ensures alone && op in s.db.dispatches && Lookup(s.db, op).Some? ==>
                Lookup(s.db, op).value.resource in s.docker ==>
                seen.Some? && var found := s.docker[Lookup(s.db, op).value.resource];
                              seen.value == (found.version, found.hash)
    {
      Others(Controller(r));
      var ok := Recover(r, Observe(op));
      return if ok then Some((s.resolvers[r].version, s.resolvers[r].hash)) else None;
    }

    method CommitResolution(r: ResolverId, lease: Lease, generation: nat, op: OperationId, version: nat,
        hash: SpecHash) returns (ok: bool, notObserved: bool)
      requires Valid() && At(r, Observed(lease, generation, op, version, hash))
      modifies this, db
      ensures Valid()
      ensures ok ==> op in s.db.resolvedDispatches && s.db.resolvedDispatches[op] == Resolution(generation, notObserved)
      ensures ok && notObserved ==> NeverUpdated(s.flights, op)
      ensures ok && !notObserved ==> Lookup(s.db, op).Some? && Terminal(Lookup(s.db, op).value.status)
      ensures alone && RecoveryAuthorised(old(s).db, generation, lease) ==>
                Repositories.Settles(old(s).db, old(db.deployments), old(db.attempts), op, Some((version, hash))) ==> ok
    {
      Others(Controller(r));
      var outcome := db.ResolveDispatch(op, generation, lease, Some((version, hash)));
      if outcome != Repositories.Committed {
        return false, false;
      }
      notObserved := db.resolvedDispatches[op].notObserved;
      Resolved(r, op, notObserved);
      return true, notObserved;
    }

    /** The database has committed the resolution of the operation this controller has observed. */
    method Resolved(r: ResolverId, op: OperationId, notObserved: bool)
      requires Reaches(start, run, s) && r in s.resolvers && s.resolvers[r].Observed? && s.resolvers[r].op == op
      requires var p := s.resolvers[r];
               Some(db.View()) == if notObserved then
                 ResolveNotObserved(s.db, p.generation, p.lease, op, p.version, p.hash)
                                  else ResolveTerminal(s.db, p.generation, p.lease, op)
      modifies this
      ensures Valid() && s.db == db.View()
      ensures notObserved ==> NeverUpdated(s.flights, op)
      ensures !notObserved ==> Lookup(s.db, op).Some? && Terminal(Lookup(s.db, op).value.status)
    {
      if notObserved {
        Commit(Recovery(r, CommitNotObserved));
        ResolvedFacts(start, run, s, op);
      } else {
        Commit(Recovery(r, CommitTerminal(op)));
      }
    }

    /**
     Manual recovery of an admission: it is resolved only while every manager has answered BLOCKED
     at this generation.
     */
    method ResolveAdmissionByHand(r: ResolverId, lease: Lease, generation: nat, id: AdmissionId,
        managers: seq<AgentId>) returns (ok: bool)
      requires Valid() && Roster(managers) && r !in s.resolvers
      modifies this, db
      ensures Valid()
      ensures ok ==> id in s.db.resolvedAdmissions && AllBlocked(s.agents.Keys, s.served, generation)
      ensures ok ==> Maintained(s.db, generation)
      ensures Unhindered(old(s)) && RecoveryAuthorised(old(s).db, generation, lease) ==>
                id in old(s).db.admissions && id !in old(s).db.resolvedAdmissions ==> ok
    {
      if OwnsLease(s.db, lease) {
        LeaseIsIssued(start, run, s, lease);
      }
      ok := BlockAll(r, lease, generation, managers);
      if !ok {
        return;
      }
      ok := CommitAdmissionResolution(r, lease, generation, id);
    }

    method CommitAdmissionResolution(r: ResolverId, lease: Lease, generation: nat, id: AdmissionId) returns (ok: bool)
      requires Valid() && At(r, Blocked(lease, generation))
      modifies this, db
      ensures Valid()
      ensures ok ==> id in s.db.resolvedAdmissions && AllBlocked(s.agents.Keys, s.served, generation)
      ensures ok ==> Maintained(s.db, generation)
      ensures alone && RecoveryAuthorised(old(s).db, generation, lease) ==>
                id in old(s).db.admissions && id !in old(s).db.resolvedAdmissions ==> ok
    {
      Others(Controller(r));
      BlockedFacts(start, run, s, r);
      var outcome := db.ResolveAdmission(id, generation, lease);
      ok := outcome == Repositories.Committed;
      if ok {
        Commit(Recovery(r, CommitAdmission(id)));
      }
    }

    /**
     `confirm-closed`: lease, block, commit. When it succeeds nothing runs in any manager; and it
     does succeed when nothing is unfinished, the lease is free, and nothing interferes.
     */
    method ConfirmClosed(r: ResolverId, holder: HolderId, generation: nat, managers: seq<AgentId>) returns (ok: bool)
      requires Valid() && Roster(managers) && r !in s.resolvers
      modifies this, db
      ensures Valid()
      ensures ok ==> MaintenanceDb.At(s.db, Closed, generation + 1) && NothingUnfinished(s.db)
      ensures ok ==> forall i :: 0 <= i < |s.flights| ==> s.flights[i].place != InHandler
      ensures Unhindered(old(s)) && MaintenanceDb.At(old(s).db, Closing, generation) ==>
                Unleased(old(s).db) && NothingUnfinished(old(s).db) && Repositories.Distinct(managers) ==> ok
    {
      var lease := LeaseAndBlock(r, holder, generation, managers);
      if lease.None? {
        return false;
      }
      ok := CommitClose(r, lease.value, generation, managers);
    }

    method CommitClose(r: ResolverId, lease: Lease, generation: nat, managers: seq<AgentId>) returns (ok: bool)
      requires Valid() && Roster(managers)
      modifies this, db
      ensures Valid()
      ensures ok ==> MaintenanceDb.At(s.db, Closed, generation + 1) && NothingUnfinished(s.db)
      ensures ok ==> forall i :: 0 <= i < |s.flights| ==> s.flights[i].place != InHandler
      ensures alone && reliable && MaintenanceDb.At(old(s).db, Closing, generation) && OwnsLease(old(s).db, lease) ==>
                generation >= 1 && AllAcknowledged(old(s).db, old(s).agents.Keys, generation) ==>
                NothingUnfinished(old(s).db) && Repositories.Distinct(managers) ==> ok
    {
      ok := CloseStatement(r, lease, generation, managers);
      if ok {
        ClosedMeansQuiet(start, run, s);
      }
    }

    method CloseStatement(r: ResolverId, lease: Lease, generation: nat, managers: seq<AgentId>) returns (ok: bool)
      requires Valid() && Roster(managers)
      modifies this, db
      ensures Valid()
      ensures ok ==> MaintenanceDb.At(s.db, Closed, generation + 1) && NothingUnfinished(s.db)
      ensures alone && reliable && MaintenanceDb.At(old(s).db, Closing, generation) && OwnsLease(old(s).db, lease) ==>
                generation >= 1 && AllAcknowledged(old(s).db, old(s).agents.Keys, generation) ==>
                NothingUnfinished(old(s).db) && Repositories.Distinct(managers) ==> ok
    {
      Others(Controller(r));
      var auditFails: bool := *;
      var outcome := db.CommitClosed(generation, managers, Some(lease), auditFails && !reliable);
      ok := outcome == Repositories.Committed;
      if ok {
        Commit(Maintain(Close(lease, generation)));
      }
    }

    method LeaseAndBlock(r: ResolverId, holder: HolderId, generation: nat, managers: seq<AgentId>)
      returns (lease: Option<Lease>)
      requires Valid() && Roster(managers) && r !in s.resolvers
      modifies this, db
      ensures Valid() && Roster(managers)
      ensures lease.Some? ==> At(r, Blocked(lease.value, generation))
      ensures Unhindered(old(s)) && Maintained(old(s).db, generation) && Unleased(old(s).db) ==>
                && lease.Some? && OwnsLease(s.db, lease.value) && AllAcknowledged(s.db, s.agents.Keys, generation)
                && generation >= 1 && s.db == old(s).db.(acks := s.db.acks, lease := s.db.lease) && Responsive(s)
    {
      lease := TakeLeaseAs(r, holder);
      if lease.Some? {
        ghost var taken := s;
        var ok := BlockAll(r, lease.value, generation, managers);
        if ok {
          MaintainedFacts(start, run, s, generation);
          if Unhindered(old(s)) && Maintained(old(s).db, generation) && Unleased(old(s).db) {
            StaysResponsive(taken, s, generation);
          }
        } else {
          return None;
        }
      }
    }

    method TakeLeaseAs(r: ResolverId, holder: HolderId) returns (lease: Option<Lease>)
      requires Valid()
      modifies this, db
      ensures Valid() && Meanwhile(old(s), s, Controller(r))
      ensures lease.Some? ==> OwnsLease(s.db, lease.value) && lease.value in s.issued
      ensures alone ==> (lease.Some? <==> Unleased(old(s).db))
      ensures alone ==> s == old(s).(db := old(s).db.(lease := s.db.lease), issued := s.issued)
    {
      Others(Controller(r));
      ghost var before, earlier := s, run;
      lease := db.Acquire(holder, 30);
      if lease.Some? {
        Commit(Control(TakeLease(holder, 30)));
        ForeignIsMeanwhile(start, earlier, before, Control(TakeLease(holder, 30)), s, Controller(r));
      }
    }

    /** One manager answers a barrier read with exactly `b`. */
    method ReadsAs(r: ResolverId, a: AgentId, b: Barrier) returns (ok: bool)
      requires Valid()
      modifies this, db
      ensures Valid() && Meanwhile(old(s), s, Controller(r))
      ensures ok ==> (a, b) in s.served
      ensures alone ==> s == old(s).(served := s.served)
      ensures alone && b.generation > 0 ==>
                a in old(s).agents && !old(s).agents[a].invalid && old(s).agents[a].barrier == b ==> ok
    {
      Others(Controller(r));
      ghost var before, earlier := s, run;
      ok := Do(Manager(ReadBarrier(a)));
      if ok {
        ForeignIsMeanwhile(start, earlier, before, Manager(ReadBarrier(a)), s, Controller(r));
        ok := s.agents[a].barrier == b;
      }
    }

    /** Opens every manager, one after the other. */
    method PutOpen(r: ResolverId, generation: nat, managers: seq<AgentId>) returns (ok: bool)
      requires Valid() && Barrier(generation, true) in s.puts
      modifies this, db
      ensures Valid() && Meanwhile(old(s), s, Controller(r))
      ensures Unhindered(old(s)) && old(Roster(managers)) && MayTake(old(s).agents, Barrier(generation, true)) ==>
                ok && OpenedSoFar(old(s), s, s.agents.Keys, Barrier(generation, true))
    {
      ghost var b := Barrier(generation, true);
      ghost var calm := Unhindered(s) && Roster(managers) && MayTake(s.agents, b);
      for i := 0 to |managers|
        invariant Valid() && Meanwhile(old(s), s, Controller(r))
        invariant calm ==> OpenedSoFar(old(s), s, Repositories.SetOf(managers[..i]), b)
      {
        ok := OpenNext(r, generation, managers, i, old(s), calm);
        if !ok {
          return;
        }
      }
      assert managers[..|managers|] == managers;
      return true;
    }

    method OpenNext(r: ResolverId, generation: nat, managers: seq<AgentId>, i: nat, ghost first: State,
        ghost calm: bool)
      returns (ok: bool)
      requires Valid() && i < |managers| && Barrier(generation, true) in s.puts && Meanwhile(first, s, Controller(r))
      requires calm ==> Unhindered(first) && MayTake(first.agents, Barrier(generation, true))
      requires calm ==> first.agents.Keys == Repositories.SetOf(managers)
      requires calm ==> OpenedSoFar(first, s, Repositories.SetOf(managers[..i]), Barrier(generation, true))
      modifies this, db
      ensures Valid() && Meanwhile(first, s, Controller(r))
      ensures calm ==> ok && OpenedSoFar(first, s, Repositories.SetOf(managers[..i + 1]), Barrier(generation, true))
    {
      assert managers[i] in Repositories.SetOf(managers);
      if calm {
        OpeningMayTake(first, s, Repositories.SetOf(managers[..i]), Barrier(generation, true));
      }
      ok := PutBarrier(r, managers[i], Barrier(generation, true));
      if calm {
        OpeningSnoc(first, old(s), s, managers[..i], Barrier(generation, true), managers[i]);
        assert managers[..i] + [managers[i]] == managers[..i + 1];
      }
    }

    method OpenEach(r: ResolverId, generation: nat, managers: seq<AgentId>) returns (ok: bool)
      requires Valid() && Barrier(generation, true) in s.puts
      modifies this, db
      ensures Valid() && Meanwhile(old(s), s, Controller(r))
      ensures ok ==> forall i :: 0 <= i < |managers| ==> (managers[i], Barrier(generation, true)) in s.served
      ensures Unhindered(old(s)) && old(Roster(managers)) && generation > 0 ==>
                MayTake(old(s).agents, Barrier(generation, true)) ==> ok && s.db == old(s).db
    {
      ghost var calm := Unhindered(s) && Roster(managers) && generation > 0 &&
          MayTake(s.agents, Barrier(generation, true));
      ok := PutOpen(r, generation, managers);
      if !ok {
        return;
      }
      ghost var put := s;
      for i := 0 to |managers|
        invariant Valid() && Meanwhile(old(s), s, Controller(r))
        invariant forall k :: 0 <= k < i ==> (managers[k], Barrier(generation, true)) in s.served
        invariant calm ==> s == put.(served := s.served)
      {
        assert managers[i] in Repositories.SetOf(managers);
        ok := ReadsAs(r, managers[i], Barrier(generation, true));
        if !ok {
          return;
        }
      }
      return true;
    }

    /** `openAll`: only for a committed OPEN generation, which must still be current at the end. */
    method OpenAll(r: ResolverId, generation: nat, managers: seq<AgentId>) returns (ok: bool)
      requires Valid()
      modifies this, db
      ensures Valid()
      ensures ok ==> MaintenanceDb.At(s.db, Open, generation)
      ensures ok ==> forall i :: 0 <= i < |managers| ==> (managers[i], Barrier(generation, true)) in s.served
      ensures Unhindered(old(s)) && old(Roster(managers)) && MaintenanceDb.At(old(s).db, Open, generation) ==> ok
    {
      Others(Controller(r));
      if db.maintenance != Some(MaintenanceRow(Open, generation)) {
        return false;
      }
      OpenFacts(start, run, s, generation);
      var sent := Do(Manager(SendPut));
      ok := OpenEach(r, generation, managers);
      if !ok {
        return;
      }
      Others(Controller(r));
      return db.maintenance == Some(MaintenanceRow(Open, generation));
    }

    /**
     `complete-reconciliation`: managers are opened only after OPEN has been committed; and it does
     succeed when nothing is unfinished, the lease is free, and nothing interferes.
     */
    method CompleteReconciliation(r: ResolverId, holder: HolderId, generation: nat, managers: seq<AgentId>)
      returns (ok: bool)
      requires Valid() && Roster(managers) && r !in s.resolvers
      modifies this, db
      ensures Valid()
      ensures ok ==> MaintenanceDb.At(s.db, Open, generation + 1)
      ensures ok ==> forall i :: 0 <= i < |managers| ==> (managers[i], Barrier(generation + 1, true)) in s.served
      ensures Unhindered(old(s)) && MaintenanceDb.At(old(s).db, Reconciling, generation) ==>
                Unleased(old(s).db) && NothingUnfinished(old(s).db) && Repositories.Distinct(managers) ==> ok
    {
      var lease := LeaseAndBlock(r, holder, generation, managers);
      if lease.None? {
        return false;
      }
      ok := CommitReopen(r, lease.value, generation, managers);
      if ok {
        ok := OpenAll(r, generation + 1, managers);
      }
    }

    method CommitReopen(r: ResolverId, lease: Lease, generation: nat, managers: seq<AgentId>) returns (ok: bool)
      requires Valid() && Roster(managers)
      modifies this, db
      ensures Valid() && (ok ==> MaintenanceDb.At(s.db, Open, generation + 1))
      ensures alone ==> s == old(s).(db := s.db)
      ensures alone && reliable && MaintenanceDb.At(old(s).db, Reconciling, generation) ==>
                OwnsLease(old(s).db, lease) ==>
                generation >= 1 && AllAcknowledged(old(s).db, old(s).agents.Keys, generation) ==>
                NothingUnfinished(old(s).db) && Repositories.Distinct(managers) ==> ok
    {
      Others(Controller(r));
      var auditFails: bool := *;
      var outcome := db.CommitRecovery(Reconciling, generation, managers, lease, auditFails && !reliable);
      ok := outcome == Repositories.Committed;
      if ok {
        Commit(Maintain(Reopen(lease, generation)));
      }
    }
  }
}
