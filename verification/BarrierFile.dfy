/**
 The Agent's barrier object, in the form the Agent has it: a start from whatever
 the disk holds, a write made of system calls any of which may fail, and the two
 barrier requests. Each method is proved to be a run of `BarrierDisk`'s node, one
 event per system call, so the results about runs cover a crash between any two calls.
 */
module BarrierFile {
  import opened Basics
  import opened BarrierDisk
  import opened BarrierRuns

  /** What the manager says about itself; `None` when it cannot be read in time. */
  datatype Identity = Identity(manager: bool, cluster: string, node: string)

  function Swarm(identity: Option<Identity>): Option<string> {
    if identity.Some? && identity.value.manager && identity.value.node != "" then Some(identity.value.cluster) else None
  }

  datatype Answer = Refused(status: nat, code: string) | Reported(state: BarrierState)

  const PersistFailed := Refused(503, "MAINTENANCE_BARRIER_PERSIST_FAILED")
  const Stale := Refused(409, "MAINTENANCE_BARRIER_STALE")

  function Refusal(verdict: PutVerdict): Answer
    requires !verdict.Repeat? && !verdict.Write?
  {
    match verdict
    case Unavailable => Refused(503, "MAINTENANCE_BARRIER_UNAVAILABLE")
    case ClusterUnavailable => Refused(503, "CLUSTER_IDENTITY_UNAVAILABLE")
    case ForeignCluster => Refused(412, "CLUSTER_PRECONDITION_FAILED")
    case Backwards => Stale
  }

  /** A well-formed request that the manager's own cluster makes of a barrier of that cluster, or of a first one. */
  predicate AskedByOwnSwarm(held: BarrierState, input: BarrierState, identity: Option<Identity>) {
    && ValidState(input) && Swarm(identity) == Some(input.cluster)
    && (held.cluster == "" || held.cluster == input.cluster)
  }

  /** The write in progress: `calls` have been made since `start`, and call number `pc` of the script comes next. */
  ghost predicate Writing(start: Node, calls: seq<NodeEvent>, disk: Disk, held: BarrierState, pc: nat,
      target: BarrierState) {
    RunNode(start, calls) == Some(Node(disk, Some(Process(held, false, Some(Job(pc, target)))), start.served))
  }

  ghost predicate Ended(start: Node, calls: seq<NodeEvent>, disk: Disk, process: Process, served: seq<BarrierState>) {
    RunNode(start, calls) == Some(Node(disk, Some(process), served))
  }

  lemma RunSnoc(n: Node, run: seq<NodeEvent>, m: Node, e: NodeEvent, k: Node)
    requires RunNode(n, run) == Some(m) && NextNode(m, e) == Some(k)
    ensures RunNode(n, run + [e]) == Some(k)
    decreases |run|
  {
    if run == [] {
      assert [e][1..] == [];
      assert RunNode(k, []) == Some(k);
    } else {
      assert (run + [e])[1..] == run[1..] + [e];
      RunSnoc(NextNode(n, run[0]).value, run[1..], m, e, k);
    }
  }

  /** A write in progress never has to make a call that cannot succeed. */
  lemma NextCallIsPossible(n: Node)
    requires NodeInv(n) && n.process.Some? && n.process.value.job.Some?
    ensures n.process.value.job.value.pc < |Script| && Possible(n.disk, Script[n.process.value.job.value.pc])
  {
    assert ProcessOk(n.disk, n.process.value, n.served);
  }

  class MutationBarrier {
    const enabled: bool
    const reliable: bool   // no system call fails that can succeed
    var disk: Disk
    var state: BarrierState
    var invalid: bool

    ghost function Snapshot(): Node
      reads this
    {
      Node(disk, Some(Process(state, invalid, None)), [])
    }

    /**
     A start: fail closed on the marker or an unreadable file, blocked when there is no file,
     otherwise what was saved.
     */
    constructor(path: string, d: Disk, reliable: bool)
      ensures (enabled <==> path != "") && this.reliable == reliable
      ensures disk == d
      ensures enabled ==> Process(state, invalid, None) == BootProcess(d)
      ensures enabled ==> (invalid <==> d.marker || !Usable(d.file))
      ensures enabled && !invalid && d.file.Raw? ==> state == d.file.parsed.value
      ensures !state.open || (enabled && !invalid && !d.marker && d.file == Raw(Some(state)) && ValidState(state))
    {
      enabled := path != "";
      this.reliable := reliable;
      disk := d;
      state := Fresh;
      invalid := false;
      new;
      if !enabled {
        return;
      }
      if disk.marker {
        invalid := true;
        return;
      }
      if disk.file == Absent {
        return;
      }
      if disk.file.parsed.None? || !ValidState(disk.file.parsed.value) {
        invalid := true;
        return;
      }
      state := disk.file.parsed.value;
    }

    /** One system call. Whether it fails, and what a failure leaves behind, is up to the machine. */
    method Do(op: DiskOp, v: BarrierState) returns (ok: bool)
      modifies this`disk
      ensures DiskStep(old(disk), op, v, ok, disk)
      ensures reliable && Possible(old(disk), op) ==> ok
    {
      ok := *;
      if !Possible(disk, op) {
        ok := false;
      } else if reliable {
        ok := true;
      }
      var effect: nat := *;
      if ok || (effect == 1 && Possible(disk, op)) {
        disk := Done(disk, op, v);
      } else if effect == 2 && op == SyncDir {
        disk := disk.(markers := {disk.marker});
      } else if effect == 3 && op == SyncDir {
        disk := disk.(others := {});
      } else if effect == 4 && op == WriteTemp {
        disk := disk.(temp := Some(Temp(Raw(None), false)));
      }
    }

    method Step(pc: nat, v: BarrierState, ghost start: Node, ghost calls: seq<NodeEvent>)
      returns (ok: bool, ghost more: seq<NodeEvent>)
      requires pc < |Script| && Writing(start, calls, disk, state, pc, v)
      modifies this`disk
      ensures !ok ==> Ended(start, more, disk, Process(state.(open := false), true, None), start.served)
      ensures reliable && NodeInv(start) ==> ok
      ensures ok && pc + 1 < |Script| ==> Writing(start, more, disk, state, pc + 1, v)
      ensures ok && pc + 1 == |Script| ==> Ended(start, more, disk, Process(v, false, None), start.served + [v])
    {
      ghost var before := RunNode(start, calls).value;
      if NodeInv(start) {
        RunKeepsNodeInv(start, calls, before);
        NextCallIsPossible(before);
      }
      ok := Do(Script[pc], v);
      more := calls + [Call(ok, disk)];
      RunSnoc(start, calls, before, Call(ok, disk), NextNode(before, Call(ok, disk)).value);
    }

    /** The durable write: marker first, then the replacement file, then the marker again. */
    method Persist(v: BarrierState, ghost start: Node, ghost before: seq<NodeEvent>)
      returns (ok: bool, ghost calls: seq<NodeEvent>)
      requires Writing(start, before, disk, state, 0, v)
      modifies this`disk
      ensures reliable && NodeInv(start) ==> ok
      ensures ok ==> Ended(start, calls, disk, Process(v, false, None), start.served + [v])
      ensures !ok ==> Ended(start, calls, disk, Process(state.(open := false), true, None), start.served)
    {
      calls := before;
      ok, calls := Step(0, v, start, calls);        // create the pending marker
      if !ok { return; }
      ok, calls := Step(1, v, start, calls);        // sync it
      if !ok { return; }
      ok, calls := Step(2, v, start, calls);        // close it
      if !ok { return; }
      ok, calls := Step(3, v, start, calls);        // sync the directory
      if !ok { return; }
      ok, calls := PersistFile(v, start, calls);
    }

    method PersistFile(v: BarrierState, ghost start: Node, ghost before: seq<NodeEvent>)
      returns (ok: bool, ghost calls: seq<NodeEvent>)
      requires Writing(start, before, disk, state, 4, v)
      modifies this`disk
      ensures reliable && NodeInv(start) ==> ok
      ensures ok ==> Ended(start, calls, disk, Process(v, false, None), start.served + [v])
      ensures !ok ==> Ended(start, calls, disk, Process(state.(open := false), true, None), start.served)
    {
      calls := before;
      ok, calls := Step(4, v, start, calls);        // create the temporary file
      if !ok { return; }
      ok, calls := Step(5, v, start, calls);        // restrict its mode
      if !ok { return; }
      ok, calls := Step(6, v, start, calls);        // write the barrier
      if !ok { return; }
      ok, calls := Step(7, v, start, calls);        // sync the file
      if !ok { return; }
      ok, calls := Step(8, v, start, calls);        // close it
      if !ok { return; }
      ok, calls := Step(9, v, start, calls);        // rename it into place
      if !ok { return; }
      ok, calls := Step(10, v, start, calls);       // sync the directory
      if !ok { return; }
      ok, calls := Step(11, v, start, calls);       // remove the marker
    }

    /**
     A barrier transition request. Asked by its own cluster, a usable barrier takes every newer
     generation, repeats its answer for the barrier it holds and refuses the rest as stale. It is
     answered 200 only with the barrier it then holds, and the whole request is a run of the node:
     no event at all when it is refused before the verdict, otherwise the request followed by the
     system calls of the write.
     */
    method Set(input: Option<BarrierState>, identity: Option<Identity>)
      returns (answer: Answer, ghost events: seq<NodeEvent>)
      modifies this`disk, this`state, this`invalid
      ensures answer.Reported? ==> enabled && !invalid && answer.state == state && input.Some? &&
                                   state.generation == input.value.generation && state.open == input.value.open
      ensures answer.Refused? && answer != PersistFailed ==> unchanged(this)
      ensures answer == PersistFailed ==> invalid && state == old(state).(open := false)
      ensures enabled && !old(invalid) && input.Some? && AskedByOwnSwarm(old(state), input.value, identity) ==>
                if input.value.generation > old(state).generation then
                  answer == Reported(input.value) || answer == PersistFailed
                else if input.value.generation == old(state).generation && input.value.open == old(state).open then
                  answer == Reported(old(state))
                else answer == Stale
      ensures reliable && old(NodeInv(Snapshot())) ==> answer != PersistFailed
      ensures answer.Refused? && answer.status == 409 ==>
                && input.Some? && AskedByOwnSwarm(old(state), input.value, identity)
                && input.value.generation <= old(state).generation
                && (input.value.generation == old(state).generation ==> input.value.open != old(state).open)
      ensures enabled && input.Some? && ValidState(input.value) ==>
                match JudgePut(old(state), old(invalid), input.value, Swarm(identity))
                case Repeat => answer == Reported(old(state))
                case Write => answer == Reported(input.value) || answer == PersistFailed
                case verdict => answer == Refusal(verdict)
      ensures !enabled || input.None? || !ValidState(input.value) ==> answer.Refused?
      ensures Ended(old(Snapshot()), events, disk, Process(state, invalid, None), if answer.Reported? then [state]
                else [])
    {
      ghost var start := Snapshot();
      events := [];
      if !enabled {
        return Refused(503, "MAINTENANCE_BARRIER_UNAVAILABLE"), events;
      }
      if input.None? || !ValidState(input.value) {
        return Refused(400, "INVALID_MAINTENANCE_BARRIER"), events;
      }
      if invalid {
        return Refused(503, "MAINTENANCE_BARRIER_UNAVAILABLE"), events;
      }
      if identity.None? || !identity.value.manager || identity.value.cluster != input.value.cluster ||
          identity.value.node == "" {
        return Refused(503, "CLUSTER_IDENTITY_UNAVAILABLE"), events;
      }
      if state.cluster != "" && state.cluster != input.value.cluster {
        return Refused(412, "CLUSTER_PRECONDITION_FAILED"), events;
      }
      if input.value.generation < state.generation ||
         (input.value.generation == state.generation && state.open != input.value.open) {
        return Stale, events;
      }
      ghost var put := Put(input.value, Swarm(identity));
      RunSnoc(start, [], start, put, NextNode(start, put).value);
      assert [] + [put] == [put];
      events := [put];
      if input.value.generation > state.generation {
        var ok;
        ok, events := Persist(input.value, start, events);
        if !ok {
          state := state.(open := false);
          invalid := true;
          return PersistFailed, events;
        }
        state := input.value;
      }
      assert start.served + [state] == [state];
      return Reported(state), events;
    }

    /** A barrier read: 200 only for a usable barrier of the manager's own current cluster. */
    method Read(identity: Option<Identity>) returns (answer: Answer)
      ensures answer.Reported? <==> enabled && !invalid && ValidState(state) && Swarm(identity) == Some(state.cluster)
      ensures answer.Reported? ==> answer.state == state
      ensures enabled ==>
                NextNode(Snapshot(), Get(Swarm(identity))) ==
                Some(Snapshot().(served := if answer.Reported? then [state] else []))
    {
      if !enabled || invalid {
        return Refused(503, "MAINTENANCE_BARRIER_UNAVAILABLE");
      }
      if identity.None? || !identity.value.manager || identity.value.cluster == "" || identity.value.node == "" {
        return Refused(503, "CLUSTER_IDENTITY_UNAVAILABLE");
      }
      if state.cluster != identity.value.cluster || !ValidState(state) {
        return Refused(412, "CLUSTER_PRECONDITION_FAILED");
      }
      assert Snapshot().served + [state] == [state];
      return Reported(state);
    }
  }
}
