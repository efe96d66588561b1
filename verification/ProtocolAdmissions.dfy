/**
 Admissions over whole runs: which mutation callbacks can still be running while
 the cluster is CLOSED or RECONCILING, told by the events that led there.
 */
module ProtocolAdmissions {
  import opened Basics
  import opened MaintenanceDb
  import opened Protocol
  import opened ProtocolSteps
  import opened ProtocolRuns
  import opened ProtocolFinality

  // ----- one event -----

  /** The event ends callback `c`, cleanly or by a crash. */
  predicate Ends(e: Event, c: CallbackId) {
    e.Work? && e.callback == c && (e.work.EndCallback? || e.work.CrashCallback?)
  }

  predicate Resolves(e: Event, id: AdmissionId) {
    e.Recovery? && e.recovery == CommitAdmission(id)
  }

  /** What one event does to callback `c`: it goes on under its admission, ends, or starts under an unresolved one. */
  ghost predicate CallbackStep(u: State, e: Event, s: State, c: CallbackId) {
    && (c in u.callbacks && !Ends(e, c) ==> c in s.callbacks && s.callbacks[c].admission == u.callbacks[c].admission)
    && (c in u.callbacks && Ends(e, c) ==> c !in s.callbacks)
    && (c !in u.callbacks && c in s.callbacks ==>
          s.callbacks[c].admission !in s.db.resolvedAdmissions && InState(u.db, Open))
  }

  lemma WorkMovesCallback(u: State, d: CallbackId, e: WorkStep, s: State, c: CallbackId)
    requires NextWork(u, d, e) == Some(s)
    ensures CallbackStep(u, Work(d, e), s, c) && s.db.resolvedAdmissions == u.db.resolvedAdmissions
  {
    match e
    case Admit(_) =>
    case EndCallback(_) =>
    case CrashCallback =>
    case ReadMaintenance(_, _) =>
    case ProbeAgent(_) =>
    case GiveUpUnprepared =>
    case PrepareRow(_) =>
    case PromoteRow(_) =>
    case PromoteFailed =>
    case AbandonRow(_) =>
    case Send =>
    case Receive =>
    case TimeOut =>
    case RecordOutcome(_) =>
  }

  lemma RecoveryResolves(u: State, r: ResolverId, e: RecoveryStep, s: State)
    requires NextRecovery(u, r, e) == Some(s)
    ensures s.db.resolvedAdmissions == u.db.resolvedAdmissions + if e.CommitAdmission? then {e.admission} else {}
  {
    match e
    case BeginResolve(_, _) =>
    case RereadBlocked(_) =>
    case FinishBlocking =>
    case Observe(_) =>
    case CommitNotObserved =>
    case CommitTerminal(_) =>
    case CommitAdmission(_) =>
    case DropResolver =>
  }

  lemma OtherEventsResolveNothing(u: State, e: Event, s: State)
    requires Next(u, e) == Some(s) && !e.Work? && !e.Recovery?
    ensures s.db.resolvedAdmissions == u.db.resolvedAdmissions
  {
    match e
    case Maintain(transition) => MaintainKeepsRest(u.db, u.agents.Keys, transition, s.db);
    case Control(control) => ControlKeepsResolutions(u, control, s);
    case Manager(manager) => ManagerHasEffect(u, manager, s);
    case Wire(wire) => WireHasEffect(u, wire, s);
  }

  lemma ControlKeepsResolutions(u: State, e: ControlEvent, s: State)
    requires NextControl(u, e) == Some(s)
    ensures s.db.resolvedAdmissions == u.db.resolvedAdmissions
  {
    match e
    case Tick(_) =>
    case TakeLease(_, _) =>
    case DropLease(_) =>
    case CreateOperation(_, _, _) =>
    case ChangeStatus(_, _, _, _) =>
  }

  /**
   Admissions are resolved by nothing but a recovery controller, and no event moves a callback to
   another admission.
   */
  lemma EventSteps(u: State, e: Event, s: State, c: CallbackId)
    requires Next(u, e) == Some(s)
    ensures CallbackStep(u, e, s, c)
    ensures u.db.resolvedAdmissions <= s.db.resolvedAdmissions
    ensures forall id :: id in s.db.resolvedAdmissions && id !in u.db.resolvedAdmissions ==> Resolves(e, id)
    ensures forall id :: Resolves(e, id) ==> id in s.db.resolvedAdmissions
  {
    if e.Work? {
      WorkMovesCallback(u, e.callback, e.work, s, c);
    } else {
      OtherEventsKeepWork(u, e, s);
      if e.Recovery? {
        RecoveryResolves(u, e.resolver, e.recovery, s);
      } else {
        OtherEventsResolveNothing(u, e, s);
      }
    }
  }

  /** A callback is admitted only while maintenance is OPEN; its work begins after the insert has returned. */
  lemma AdmittedWhileOpen(s: State, e: Event, t: State, c: CallbackId)
    requires Next(s, e) == Some(t) && c in t.callbacks && c !in s.callbacks
    ensures InState(s.db, Open)
  {
    EventSteps(s, e, t, c);
  }

  // ----- whole runs -----

  /** Event number `k` resolved admission `id` by hand while callback `c` was running under it. */
  ghost predicate ResolvedLiveAt(start: State, run: seq<Event>, k: nat, c: CallbackId, id: AdmissionId) {
    && k < |run| && Resolves(run[k], id)
    && Run(start, run[..k]).Some?
    && var u := Run(start, run[..k]).value;
       c in u.callbacks && u.callbacks[c].admission == id
  }

  /** The callback has neither ended nor crashed since event number `k`. */
  ghost predicate GoesOnSince(run: seq<Event>, k: nat, c: CallbackId) {
    forall j :: k < j < |run| ==> !Ends(run[j], c)
  }

  ghost predicate OutlivesResolution(start: State, run: seq<Event>, c: CallbackId, id: AdmissionId) {
    exists k: nat :: ResolvedLiveAt(start, run, k, c, id) && GoesOnSince(run, k, c)
  }

  lemma LastEvent(start: State, run: seq<Event>, s: State) returns (u: State)
    requires Reaches(start, run, s) && run != []
    ensures Reaches(start, run[..|run| - 1], u) && Next(u, run[|run| - 1]) == Some(s)
  {
    var past, e := run[..|run| - 1], run[|run| - 1];
    assert run == past + [e];
    RunSplits(start, past, [e]);
    u := Run(start, past).value;
    assert [e][1..] == [];
  }

  /** A later event leaves the resolutions of a run where they are. */
  lemma ResolvedStays(start: State, past: seq<Event>, e: Event, k: nat, c: CallbackId, id: AdmissionId)
    requires k < |past|
    ensures ResolvedLiveAt(start, past + [e], k, c, id) <==> ResolvedLiveAt(start, past, k, c, id)
    ensures GoesOnSince(past + [e], k, c) <==> GoesOnSince(past, k, c) && !Ends(e, c)
  {
    assert (past + [e])[..k] == past[..k];
    assert (past + [e])[|past|] == e;
    assert forall j :: k < j < |past| ==> (past + [e])[j] == past[j];
  }

  /**
   In every reachable state a callback runs under a hand-resolved admission exactly when the run
   contains that resolution, made while the callback was running, and nothing ended it since.
   */
  lemma {:induction false} ResolvedCallbacks(start: State, run: seq<Event>, s: State, c: CallbackId, id: AdmissionId)
    requires Reaches(start, run, s)
    ensures c in s.callbacks && s.callbacks[c].admission == id && id in s.db.resolvedAdmissions <==>
            OutlivesResolution(start, run, c, id)
    decreases |run|
  {
    if run == [] {
      assert s == start;
    } else {
      var past, e := run[..|run| - 1], run[|run| - 1];
      assert run == past + [e];
      var u := LastEvent(start, run, s);
      ResolvedCallbacks(start, past, u, c, id);
      EventSteps(u, e, s, c);
      if c in s.callbacks && s.callbacks[c].admission == id && id in s.db.resolvedAdmissions {
        AfterLastEvent(start, past, u, e, s, c, id);
      }
      if OutlivesResolution(start, run, c, id) {
        BeforeLastEvent(start, past, u, e, s, c, id);
      }
    }
  }

  lemma AfterLastEvent(start: State, past: seq<Event>, u: State, e: Event, s: State, c: CallbackId, id: AdmissionId)
    requires Reaches(start, past, u) && Next(u, e) == Some(s) && CallbackStep(u, e, s, c)
    requires c in s.callbacks && s.callbacks[c].admission == id && id in s.db.resolvedAdmissions
    requires id !in u.db.resolvedAdmissions ==> Resolves(e, id)
    requires c in u.callbacks && u.callbacks[c].admission == id && id in u.db.resolvedAdmissions ==>
               OutlivesResolution(start, past, c, id)
    ensures OutlivesResolution(start, past + [e], c, id)
  {
    if id in u.db.resolvedAdmissions {
      var k: nat :| ResolvedLiveAt(start, past, k, c, id) && GoesOnSince(past, k, c);
      ResolvedStays(start, past, e, k, c, id);
    } else {
      assert (past + [e])[..|past|] == past && (past + [e])[|past|] == e;
      assert ResolvedLiveAt(start, past + [e], |past|, c, id) && GoesOnSince(past + [e], |past|, c);
    }
  }

  lemma BeforeLastEvent(start: State, past: seq<Event>, u: State, e: Event, s: State, c: CallbackId, id: AdmissionId)
    requires Reaches(start, past, u) && Next(u, e) == Some(s) && CallbackStep(u, e, s, c)
    requires OutlivesResolution(start, past + [e], c, id)
    requires OutlivesResolution(start, past, c, id) ==>
               c in u.callbacks && u.callbacks[c].admission == id && id in u.db.resolvedAdmissions
    requires u.db.resolvedAdmissions <= s.db.resolvedAdmissions && (Resolves(e, id) ==> id in s.db.resolvedAdmissions)
    ensures c in s.callbacks && s.callbacks[c].admission == id && id in s.db.resolvedAdmissions
  {
    var k: nat :| ResolvedLiveAt(start, past + [e], k, c, id) && GoesOnSince(past + [e], k, c);
    if k < |past| {
      ResolvedStays(start, past, e, k, c, id);
    } else {
      assert (past + [e])[..k] == past && (past + [e])[k] == e;
    }
  }

  /**
   Admission quiescence. While the cluster is CLOSED or RECONCILING, the callbacks still running are
   exactly those whose admission an operator resolved while they were running and which
   nothing has ended since.
   */
  lemma AdmissionQuiescence(start: State, run: seq<Event>, s: State, c: CallbackId, id: AdmissionId)
    requires Reaches(start, run, s) && (InState(s.db, Closed) || InState(s.db, Reconciling))
    ensures c in s.callbacks && s.callbacks[c].admission == id <==> OutlivesResolution(start, run, c, id)
  {
    ReachableInv(start, run, s);
    ResolvedCallbacks(start, run, s, c, id);
  }

  /** Without a manual resolution of an admission in the run, no callback is running while CLOSED or RECONCILING. */
  lemma QuietWithoutResolutions(start: State, run: seq<Event>, s: State)
    requires Reaches(start, run, s) && (InState(s.db, Closed) || InState(s.db, Reconciling))
    requires forall k, id :: 0 <= k < |run| ==> !Resolves(run[k], id)
    ensures s.callbacks == map[]
  {
    forall c | c in s.callbacks ensures false {
      AdmissionQuiescence(start, run, s, c, s.callbacks[c].admission);
    }
  }

  /** What an operator can read off the database: when no resolved admission row is left, no callback is running. */
  lemma QuietByTheTables(start: State, run: seq<Event>, s: State)
    requires Reaches(start, run, s) && (InState(s.db, Closed) || InState(s.db, Reconciling))
    requires s.db.admissions.Keys !! s.db.resolvedAdmissions
    ensures s.callbacks == map[] && s.db.admissions == map[]
  {
    ReachableInv(start, run, s);
    assert s.db.admissions.Keys <= s.db.resolvedAdmissions;
    assert s.db.admissions.Keys == {};
  }
}
