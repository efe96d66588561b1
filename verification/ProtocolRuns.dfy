/**
 The main results about whole runs of the maintenance protocol. `start` is any
 initial state, `run` any sequence of events that can happen from it.
 */
module ProtocolRuns {
  import opened Basics
  import opened MaintenanceDb
  import opened Protocol
  import opened ProtocolInvariants
  import opened ProtocolSteps

  ghost predicate Reaches(start: State, run: seq<Event>, s: State) {
    Initial(start) && Run(start, run) == Some(s)
  }

  lemma RunKeepsInv(s: State, run: seq<Event>, t: State)
    requires Inv(s) && Run(s, run) == Some(t)
    ensures Inv(t)
    decreases |run|
  {
    if run == [] {
    } else {
      var u := Next(s, run[0]).value;
      NextKeepsInv(s, run[0], u);
      RunKeepsInv(u, run[1..], t);
    }
  }

  lemma ReachableInv(start: State, run: seq<Event>, s: State)
    requires Reaches(start, run, s)
    ensures Inv(s)
  {
    InitialInv(start);
    RunKeepsInv(start, run, s);
  }

  lemma RunSplits(s: State, first: seq<Event>, second: seq<Event>)
    ensures Run(s, first + second) == match Run(s, first) case None => None case Some(u) => Run(u, second)
    decreases |first|
  {
    if first == [] {
      assert first + second == second;
    } else {
      assert (first + second)[1..] == first[1..] + second;
      match Next(s, first[0])
      case None =>
      case Some(u) => RunSplits(u, first[1..], second);
    }
  }

  // ----- what later states remember -----

  /** What no event ever undoes. */
  ghost predicate Later(s: State, t: State) {
    && t.agents.Keys == s.agents.Keys
    && s.served <= t.served && s.issued <= t.issued
    && Generation(s.db) <= Generation(t.db)
    && JournalGrows(s.db.dispatches, t.db.dispatches)
    && RowsKept(s.db.operations, t.db.operations) && RowsKept(s.db.nodeOperations, t.db.nodeOperations)
    && (forall o :: o in s.db.resolvedDispatches ==>
          o in t.db.resolvedDispatches && t.db.resolvedDispatches[o] == s.db.resolvedDispatches[o])
    && |s.flights| <= |t.flights|
    && (forall i :: 0 <= i < |s.flights| ==>
          t.flights[i] == s.flights[i].(place := t.flights[i].place, updates := t.flights[i].updates))
  }

  lemma NextIsLater(s: State, e: Event, t: State)
    requires Inv(s) && Next(s, e) == Some(t)
    ensures Later(s, t)
  {
    match e
    case Maintain(transition) => MaintainShape(s.db, s.agents.Keys, transition, t.db);
    case Control(control) => ControlHasEffect(s, control, t); ControlIssues(s, control, t);
    case Manager(manager) => ManagerHasEffect(s, manager, t);
    case Work(c, work) => WorkHasEffect(s, c, work, t);
    case Wire(wire) => WireHasEffect(s, wire, t);
    case Recovery(r, recovery) => RecoveryHasEffect(s, r, recovery, t);
  }

  lemma ControlIssues(s: State, e: ControlEvent, t: State)
    requires NextControl(s, e) == Some(t)
    ensures s.issued <= t.issued
  {
    match e
    case Tick(_) =>
    case TakeLease(_, _) =>
    case DropLease(_) =>
    case CreateOperation(_, _, _) =>
    case ChangeStatus(_, _, _, _) =>
  }

  lemma LaterTwice(s: State, t: State, u: State)
    requires Later(s, t) && Later(t, u)
    ensures Later(s, u)
  {
  }

  lemma RunIsLater(s: State, run: seq<Event>, t: State)
    requires Inv(s) && Run(s, run) == Some(t)
    ensures Later(s, t)
    decreases |run|
  {
    if run == [] {
    } else {
      var u := Next(s, run[0]).value;
      NextIsLater(s, run[0], u);
      NextKeepsInv(s, run[0], u);
      RunIsLater(u, run[1..], t);
      LaterTwice(s, u, t);
    }
  }
}
