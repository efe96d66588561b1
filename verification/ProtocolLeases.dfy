/** The control lease over whole runs: who can take it, how long it lasts, and that it excludes everybody else. */
module ProtocolLeases {
  import opened Basics
  import opened MaintenanceDb
  import opened Protocol
  import opened ProtocolInvariants
  import opened ProtocolSteps
  import opened ProtocolRuns
  import opened ProtocolFinality

  lemma OtherEventsKeepLease(s: State, e: Event, t: State)
    requires Next(s, e) == Some(t) && !e.Control?
    ensures t.db.lease == s.db.lease && t.db.now == s.db.now && t.issued == s.issued
  {
    match e
    case Maintain(transition) => MaintainKeepsRest(s.db, s.agents.Keys, transition, t.db);
    case Manager(manager) => ManagerHasEffect(s, manager, t);
    case Work(c, work) => WorkHasEffect(s, c, work, t);
    case Wire(wire) => WireHasEffect(s, wire, t);
    case Recovery(r, recovery) => RecoveryHasEffect(s, r, recovery, t);
  }

  /** The lease has been issued and passes no ownership check from time `expires` on. */
  ghost predicate EndsBy(s: State, lease: Lease, expires: nat) {
    && lease in s.issued
    && (s.db.lease.Some? && s.db.lease.value.lease == lease ==> s.db.lease.value.expiresAt <= expires)
  }

  /** What a control event does to the lease: it is taken, released, or left alone. */
  ghost predicate LeaseMoves(s: State, e: Event, t: State) {
    && s.db.now <= t.db.now
    && if e.Control? && e.control.TakeLease? then
         && t.db.lease == Some(LeaseRow(NextLease(s.db, e.control.holder), s.db.now + e.control.ttl))
         && t.issued == s.issued + {NextLease(s.db, e.control.holder)}
         && t.db.now == s.db.now && (s.db.lease.Some? ==> s.db.lease.value.expiresAt <= s.db.now)
       else if e.Control? && e.control.DropLease? then
         && t.db.lease == Some(LeaseRow(e.control.lease, s.db.now)) && t.issued == s.issued && t.db.now == s.db.now
         && s.db.lease.Some? && s.db.lease.value.lease == e.control.lease
       else t.db.lease == s.db.lease && t.issued == s.issued
  }

  lemma CreateKeepsTime(s: State, op: OperationId, node: bool, row: OperationRow, t: State)
    requires NextCreate(s, op, node, row) == Some(t)
    ensures t.db.now == s.db.now
  {
  }

  lemma ChangeKeepsTime(s: State, op: OperationId, node: bool, status: Status, code: ErrorCode, t: State)
    requires NextChangeStatus(s, op, node, status, code) == Some(t)
    ensures t.db.now == s.db.now
  {
  }

  lemma ControlMovesLease(s: State, e: ControlEvent, t: State)
    requires NextControl(s, e) == Some(t)
    ensures LeaseMoves(s, Control(e), t)
  {
    match e
    case Tick(_) =>
    case TakeLease(_, _) =>
    case DropLease(_) =>
    case CreateOperation(op, node, row) =>
      CreateHasEffect(s, op, node, row, t);
      CreateKeepsTime(s, op, node, row, t);
    case ChangeStatus(op, node, status, code) =>
      ChangeHasEffect(s, op, node, status, code, t);
      ChangeKeepsTime(s, op, node, status, code, t);
  }

  lemma NextMovesLease(s: State, e: Event, t: State)
    requires Next(s, e) == Some(t)
    ensures LeaseMoves(s, e, t)
  {
    if e.Control? {
      ControlMovesLease(s, e.control, t);
    } else {
      OtherEventsKeepLease(s, e, t);
    }
  }

  lemma StepEndsBy(s: State, e: Event, t: State, lease: Lease, expires: nat)
    requires LeasesOk(s.db.lease, s.issued) && LeaseMoves(s, e, t) && EndsBy(s, lease, expires)
    requires e == Control(DropLease(lease)) ==> s.db.now <= expires
    ensures EndsBy(t, lease, expires)
  {
  }

  /** A lease row that has ended stays ended: nobody can prolong it, and a later release ends no earlier lease. */
  lemma {:induction false} RunEndsBy(s: State, run: seq<Event>, t: State, lease: Lease, expires: nat)
    requires Inv(s) && Run(s, run) == Some(t) && EndsBy(s, lease, expires)
    ensures t.db.now >= expires ==> !OwnsLease(t.db, lease)
    decreases |run|
  {
    if run == [] {
    } else {
      var u := Next(s, run[0]).value;
      NextKeepsInv(s, run[0], u);
      if run[0] == Control(DropLease(lease)) && s.db.now > expires {
        NextMovesLease(s, run[0], u);
        RunEndsBy(u, run[1..], t, lease, u.db.now);
        RunKeepsTime(u, run[1..], t);
      } else {
        NextMovesLease(s, run[0], u);
        StepEndsBy(s, run[0], u, lease, expires);
        RunEndsBy(u, run[1..], t, lease, expires);
      }
    }
  }

  lemma {:induction false} RunKeepsTime(s: State, run: seq<Event>, t: State)
    requires Run(s, run) == Some(t)
    ensures s.db.now <= t.db.now
    decreases |run|
  {
    if run == [] {
    } else {
      NextMovesLease(s, run[0], Next(s, run[0]).value);
      RunKeepsTime(Next(s, run[0]).value, run[1..], t);
    }
  }

  /** Until `expires` the row is this lease's, and nobody has been given another. */
  ghost predicate Reigns(s: State, lease: Lease, expires: nat, issued: set<Lease>) {
    s.db.now < expires ==> s.db.lease == Some(LeaseRow(lease, expires)) && s.issued == issued
  }

  ghost predicate Unreleased(run: seq<Event>, lease: Lease) {
    forall k :: 0 <= k < |run| ==> run[k] != Control(DropLease(lease))
  }

  lemma StepReigns(s: State, e: Event, t: State, lease: Lease, expires: nat, issued: set<Lease>)
    requires LeaseMoves(s, e, t) && Reigns(s, lease, expires, issued) && e != Control(DropLease(lease))
    ensures Reigns(t, lease, expires, issued)
  {
  }

  lemma {:induction false} RunReigns(s: State, run: seq<Event>, t: State, lease: Lease, expires: nat,
      issued: set<Lease>)
    requires Run(s, run) == Some(t) && Reigns(s, lease, expires, issued)
    requires Unreleased(run, lease)
    ensures Reigns(t, lease, expires, issued)
    decreases |run|
  {
    if run == [] {
    } else {
      var u := Next(s, run[0]).value;
      NextMovesLease(s, run[0], u);
      StepReigns(s, run[0], u, lease, expires, issued);
      RunReigns(u, run[1..], t, lease, expires, issued);
    }
  }

  // ----- main results -----

  /** The lease can be taken exactly when nobody owns the cluster, for five seconds to five minutes. */
  lemma TakenExactlyWhenFree(start: State, run: seq<Event>, s: State, holder: HolderId, ttl: nat)
    requires Reaches(start, run, s)
    ensures Next(s, Control(TakeLease(holder, ttl))).Some? <==>
              5 <= ttl <= 300 && forall l :: l in s.issued ==> !OwnsLease(s.db, l)
  {
    ReachableInv(start, run, s);
    if s.db.lease.Some? {
      assert s.db.lease.value.lease in s.issued;
    }
  }

  /**
   A lease taken for `ttl` seconds serialises the orchestrators: in every continuation in which its
   holder does not release it, it passes the ownership check until exactly that time and nobody is
   given another one meanwhile; from that time on it never passes again.
   */
  lemma LeaseLasts(start: State, run: seq<Event>, s: State, holder: HolderId, ttl: nat, t: State, rest: seq<Event>,
      u: State)
    requires Reaches(start, run, s) && Next(s, Control(TakeLease(holder, ttl))) == Some(t) && Run(t, rest) == Some(u)
    ensures var lease := NextLease(s.db, holder);
            && (Unreleased(rest, lease) && u.db.now < s.db.now + ttl ==>
                  OwnsLease(u.db, lease) && u.issued == t.issued)
            && (u.db.now >= s.db.now + ttl ==> !OwnsLease(u.db, lease))
  {
    NextMovesLease(s, Control(TakeLease(holder, ttl)), t);
    if Unreleased(rest, NextLease(s.db, holder)) {
      LastsUntilThen(s, holder, ttl, t, rest, u);
    }
    EndsThen(start, run, s, holder, ttl, t, rest, u);
  }

  lemma LastsUntilThen(s: State, holder: HolderId, ttl: nat, t: State, rest: seq<Event>, u: State)
    requires LeaseMoves(s, Control(TakeLease(holder, ttl)), t) && Run(t, rest) == Some(u)
    requires Unreleased(rest, NextLease(s.db, holder))
    ensures Reigns(u, NextLease(s.db, holder), s.db.now + ttl, t.issued)
  {
    RunReigns(t, rest, u, NextLease(s.db, holder), s.db.now + ttl, t.issued);
  }

  lemma EndsThen(start: State, run: seq<Event>, s: State, holder: HolderId, ttl: nat, t: State, rest: seq<Event>,
      u: State)
    requires Reaches(start, run, s) && Next(s, Control(TakeLease(holder, ttl))) == Some(t) && Run(t, rest) == Some(u)
    ensures u.db.now >= s.db.now + ttl ==> !OwnsLease(u.db, NextLease(s.db, holder))
  {
    TakenEnds(start, run, s, holder, ttl, t);
    RunEndsBy(t, rest, u, NextLease(s.db, holder), s.db.now + ttl);
  }

  lemma TakenEnds(start: State, run: seq<Event>, s: State, holder: HolderId, ttl: nat, t: State)
    requires Reaches(start, run, s) && Next(s, Control(TakeLease(holder, ttl))) == Some(t)
    ensures Inv(t) && EndsBy(t, NextLease(s.db, holder), s.db.now + ttl)
  {
    ReachableInv(start, run, s);
    NextKeepsInv(s, Control(TakeLease(holder, ttl)), t);
    NextMovesLease(s, Control(TakeLease(holder, ttl)), t);
  }

  /** A released lease never passes again, and the next one can be taken at once. */
  lemma ReleasedIsGone(start: State, run: seq<Event>, s: State, lease: Lease, t: State, rest: seq<Event>, u: State)
    requires Reaches(start, run, s) && lease in s.issued && OwnsLease(s.db, lease)
    requires Next(s, Control(DropLease(lease))) == Some(t) && Run(t, rest) == Some(u)
    ensures !OwnsLease(u.db, lease)
    ensures forall holder :: Next(t, Control(TakeLease(holder, 30))).Some?
  {
    ReachableInv(start, run, s);
    NextKeepsInv(s, Control(DropLease(lease)), t);
    RunEndsBy(t, rest, u, lease, t.db.now);
    RunKeepsTime(t, rest, u);
  }
}
