/**
 What holds of a manager's barrier over any run of writes, failed writes, process
 crashes, power losses and restarts.
 */
module BarrierRuns {
  import opened Basics
  import opened BarrierDisk

  lemma BootKeepsInv(n: Node)
    requires NodeInv(n) && n.process.None?
    ensures NodeInv(n.(process := Some(BootProcess(n.disk))))
  {
  }

  lemma PowerLossKeepsInv(n: Node, marker: bool, file: Image, m: Node)
    requires NodeInv(n) && NextNode(n, PowerLoss(marker, file)) == Some(m)
    ensures NodeInv(m)
  {
  }

  /** A barrier superseding the held one may be answered after everything answered so far. */
  lemma SupersedesIsAbove(served: seq<BarrierState>, held: BarrierState, target: BarrierState)
    requires ServedOk(served) && Above(served, held) && Supersedes(target, held)
    ensures Above(served, target)
  {
    forall i | 0 <= i < |served| ensures Follows(served[i], target) {
      assert Follows(served[i], held);
    }
  }

  lemma AnswerKeepsInv(n: Node, v: BarrierState)
    requires NodeInv(n) && n.process.Some? && n.process.value == Process(v, false, None) && ValidState(v)
    ensures NodeInv(n.(served := n.served + [v]))
  {
    var served := n.served + [v];
    assert Above(served, v);
    assert Load(n.disk.file) == Some(v);
  }

  lemma PutKeepsInv(n: Node, v: BarrierState, swarm: Option<string>, m: Node)
    requires NodeInv(n) && NextPut(n, v, swarm) == Some(m)
    ensures NodeInv(m)
  {
    var p := n.process.value;
    if JudgePut(p.held, p.invalid, v, swarm) == Repeat {
      AnswerKeepsInv(n, p.held);
    }
  }

  /** A call that fails leaves a disk every restart of which is safe. */
  lemma FailedCallKeepsDisk(n: Node, after: Disk)
    requires NodeInv(n) && n.process.Some? && n.process.value.job.Some?
    requires var job := n.process.value.job.value; DiskStep(n.disk, Script[job.pc], job.target, false, after)
    ensures DiskOk(after, n.served)
  {
    var p := n.process.value;
    SupersedesIsAbove(n.served, p.held, p.job.value.target);
  }

  lemma SucceededCallKeepsJob(n: Node, after: Disk)
    requires NodeInv(n) && n.process.Some? && n.process.value.job.Some?
    requires var job := n.process.value.job.value; DiskStep(n.disk, Script[job.pc], job.target, true, after)
    ensures DiskOk(after, n.served)
    ensures var p := n.process.value;
            if p.job.value.pc == 11 then Settled(after) && !after.marker && after.file == Raw(Some(p.job.value.target))
            else JobOk(after, p.held, p.job.value.(pc := p.job.value.pc + 1))
  {
    var p := n.process.value;
    SupersedesIsAbove(n.served, p.held, p.job.value.target);
  }

  lemma CallKeepsInv(n: Node, ok: bool, after: Disk, m: Node)
    requires NodeInv(n) && NextCall(n, ok, after) == Some(m)
    ensures NodeInv(m)
  {
    if ok {
      SucceededCallKeepsJob(n, after);
      var p := n.process.value;
      SupersedesIsAbove(n.served, p.held, p.job.value.target);
      if p.job.value.pc == 11 {
        var done := Node(after, Some(Process(p.job.value.target, false, None)), n.served);
        AnswerKeepsInv(done, p.job.value.target);
      }
    } else {
      FailedCallKeepsDisk(n, after);
    }
  }

  lemma NextKeepsNodeInv(n: Node, e: NodeEvent, m: Node)
    requires NodeInv(n) && NextNode(n, e) == Some(m)
    ensures NodeInv(m)
  {
    match e
    case Boot => BootKeepsInv(n);
    case Kill =>
    case PowerLoss(marker, file) => PowerLossKeepsInv(n, marker, file, m);
    case Reconcile =>
    case Put(v, swarm) => PutKeepsInv(n, v, swarm, m);
    case Call(ok, after) => CallKeepsInv(n, ok, after, m);
    case Get(swarm) => if m != n { AnswerKeepsInv(n, n.process.value.held); }
  }

  lemma RunKeepsNodeInv(n: Node, run: seq<NodeEvent>, m: Node)
    requires NodeInv(n) && RunNode(n, run) == Some(m)
    ensures NodeInv(m)
    decreases |run|
  {
    if run == [] {
    } else {
      var k := NextNode(n, run[0]).value;
      NextKeepsNodeInv(n, run[0], k);
      RunKeepsNodeInv(k, run[1..], m);
    }
  }

  ghost predicate ReachesNode(run: seq<NodeEvent>, n: Node) {
    RunNode(NewNode, run) == Some(n)
  }

  lemma ReachableNodeInv(run: seq<NodeEvent>, n: Node)
    requires ReachesNode(run, n)
    ensures NodeInv(n)
  {
    RunKeepsNodeInv(NewNode, run, n);
  }

  // ----- main results -----

  /**
   Over any run the barriers an Agent answers with never go back: a later answer is the same
   barrier or has a higher generation, always of the same cluster, and the barrier that a usable
   Agent holds, which its guard decides by, is never behind any answer either.
   */
  lemma BarrierNeverRegresses(run: seq<NodeEvent>, n: Node, i: nat, j: nat)
    requires ReachesNode(run, n) && i <= j < |n.served|
    ensures n.served[i].cluster == n.served[j].cluster
    ensures n.served[i] == n.served[j] || n.served[i].generation < n.served[j].generation
    ensures n.process.Some? && !n.process.value.invalid ==> Follows(n.served[j], n.process.value.held)
  {
    ReachableNodeInv(run, n);
    assert Follows(n.served[i], n.served[j]);
  }

  /**
   An Agent that may answer holds a barrier that is already durable: a restart after a process
   crash holds exactly the same one, and a restart after a power loss either holds exactly the
   same one or is unusable, which happens just when the removed marker came back.
   */
  lemma AnswersSurviveCrashes(run: seq<NodeEvent>, n: Node, marker: bool, file: Image, killed: Node, lost: Node)
    requires ReachesNode(run, n) && n.process.Some? && !n.process.value.invalid && n.process.value.job.None?
    requires RunNode(n, [Kill, Boot]) == Some(killed)
    requires RunNode(n, [PowerLoss(marker, file), Boot]) == Some(lost)
    ensures killed.process == n.process
    ensures lost.process == if marker then Some(Process(Fresh, true, None)) else n.process
  {
    ReachableNodeInv(run, n);
    assert [Kill, Boot][1..] == [Boot] && [PowerLoss(marker, file), Boot][1..] == [Boot] && [Boot][1..] == [];
    var down := n.(process := None);
    assert RunNode(down, [Boot]) == RunNode(NextNode(down, Boot).value, []);
    var off := NextNode(n, PowerLoss(marker, file)).value;
    assert RunNode(off, [Boot]) == RunNode(NextNode(off, Boot).value, []);
  }

  /** The marker is durable and no process can answer. */
  ghost predicate FailedClosed(n: Node) {
    n.disk.marker && n.disk.markers == {true} &&
      (n.process.Some? ==> n.process.value.invalid && n.process.value.job.None?)
  }

  lemma NextStaysClosed(n: Node, e: NodeEvent, m: Node)
    requires FailedClosed(n) && e != Reconcile && NextNode(n, e) == Some(m)
    ensures FailedClosed(m) && m.served == n.served
  {
  }

  lemma RunStaysClosed(n: Node, run: seq<NodeEvent>, m: Node)
    requires FailedClosed(n) && Reconcile !in run && RunNode(n, run) == Some(m)
    ensures FailedClosed(m) && m.served == n.served
    decreases |run|
  {
    if run == [] {
    } else {
      var k := NextNode(n, run[0]).value;
      NextStaysClosed(n, run[0], k);
      RunStaysClosed(k, run[1..], m);
    }
  }

  /**
   A write that has reached its first directory sync and is then interrupted by a crash, a power
   loss or an error other than a failed marker removal fails closed: whatever happens
   afterwards, the Agent never answers again until an operator reconciles.
   */
  lemma InterruptedWriteFailsClosed(run: seq<NodeEvent>, n: Node, e: NodeEvent, m: Node, rest: seq<NodeEvent>,
      last: Node)
    requires ReachesNode(run, n) && n.process.Some? && n.process.value.job.Some? && n.process.value.job.value.pc >= 4
    requires e.Kill? || e.PowerLoss? || (e.Call? && !e.ok && n.process.value.job.value.pc < 11)
    requires NextNode(n, e) == Some(m) && RunNode(m, rest) == Some(last) && Reconcile !in rest
    ensures last.served == n.served
    ensures last.process.Some? ==> last.process.value.invalid
  {
    ReachableNodeInv(run, n);
    RunStaysClosed(m, rest, last);
  }

  /** Every file a restart may find holds the old barrier, the new one, or nothing usable. */
  ghost predicate OldOrNew(d: Disk, before: BarrierState, target: BarrierState) {
    && !d.wild
    && (forall image :: MayHold(d, image) ==> Load(image) in {None, Some(before), Some(target)})
  }

  predicate RestartEvent(e: NodeEvent) {
    e.Kill? || e.PowerLoss? || e.Boot? || e.Reconcile?
  }

  lemma RestartsLoadOldOrNew(n: Node, run: seq<NodeEvent>, m: Node, before: BarrierState, target: BarrierState)
    requires OldOrNew(n.disk, before, target)
    requires n.process.Some? && !n.process.value.invalid ==> n.process.value.held in {before, target}
    requires forall i :: 0 <= i < |run| ==> RestartEvent(run[i])
    requires RunNode(n, run) == Some(m)
    ensures m.process.Some? && !m.process.value.invalid ==> m.process.value.held in {before, target}
    decreases |run|
  {
    if run == [] {
    } else {
      assert RestartEvent(run[0]);
      var k := NextNode(n, run[0]).value;
      assert run[0].Boot? ==> MayHold(n.disk, n.disk.file);
      RestartsLoadOldOrNew(k, run[1..], m, before, target);
    }
  }

  lemma JobLeavesOldOrNew(run: seq<NodeEvent>, n: Node, e: NodeEvent, m: Node)
    requires ReachesNode(run, n) && n.process.Some? && n.process.value.job.Some?
    requires e.Kill? || e.PowerLoss? || (e.Call? && !e.ok)
    requires NextNode(n, e) == Some(m)
    ensures OldOrNew(m.disk, n.process.value.held, n.process.value.job.value.target)
  {
    ReachableNodeInv(run, n);
  }

  /**
   A barrier write is atomic: interrupted at any system call, by a crash, a power loss or an
   error, it leaves a disk from which every later restart holds the old barrier, the new one,
   or fails closed.
   */
  lemma InterruptedWriteIsAtomic(run: seq<NodeEvent>, n: Node, e: NodeEvent, m: Node, restarts: seq<NodeEvent>,
      last: Node)
    requires ReachesNode(run, n) && n.process.Some? && n.process.value.job.Some?
    requires e.Kill? || e.PowerLoss? || (e.Call? && !e.ok)
    requires NextNode(n, e) == Some(m) && RunNode(m, restarts) == Some(last)
    requires forall i :: 0 <= i < |restarts| ==> RestartEvent(restarts[i])
    ensures last.process.Some? && !last.process.value.invalid ==>
              last.process.value.held in {n.process.value.held, n.process.value.job.value.target}
  {
    var p := n.process.value;
    JobLeavesOldOrNew(run, n, e, m);
    RestartsLoadOldOrNew(m, restarts, last, p.held, p.job.value.target);
  }

  /** The process can be killed at any moment, and a power loss can leave whatever the disk may hold. */
  lemma FaultsCanStrike(n: Node, marker: bool, file: Image)
    ensures NextNode(n, Kill) == Some(n.(process := None))
    ensures marker in n.disk.markers && (file == n.disk.file || file in n.disk.others) ==>
              NextNode(n, PowerLoss(marker, file)).Some? && NextNode(n, PowerLoss(marker, file)).value.disk.file == file
  {
  }

  /**
   Reconciling ends every fail-closed state whose file can be read: the next start holds the
   barrier in the file, and is unusable exactly when there is none to be read.
   */
  lemma ReconcilingRestoresService(run: seq<NodeEvent>, n: Node) returns (m: Node)
    requires ReachesNode(run, n)
    ensures RunNode(n, [Kill, Reconcile, Boot]) == Some(m) && m.process.Some? && m.process.value.job.None?
    ensures m.process.value.invalid <==> !Usable(n.disk.file)
    ensures n.disk.file == Absent ==> m.process.value.held == Fresh
    ensures Usable(n.disk.file) && n.disk.file.Raw? ==> m.process.value.held == n.disk.file.parsed.value
  {
    var events := [Kill, Reconcile, Boot];
    assert events[1..] == [Reconcile, Boot] && [Reconcile, Boot][1..] == [Boot] && [Boot][1..] == [];
    var down := n.(process := None);
    var clear := NextNode(down, Reconcile).value;
    m := NextNode(clear, Boot).value;
    assert RunNode(m, []) == Some(m);
    assert RunNode(clear, [Boot]) == Some(m);
    assert RunNode(down, [Reconcile, Boot]) == Some(m);
  }

  /** There is no file yet, or it holds a well-formed barrier. */
  predicate Usable(image: Image) {
    image.Raw? ==>
      && image.parsed.Some? && 1 <= image.parsed.value.generation <= 0xFFFF_FFFF_FFFF_FFFF
      && ValidCluster(image.parsed.value.cluster)
  }
}
