/**
 The barrier file on a crashing machine refines the manager Agent of the
 maintenance protocol: every run of the node is matched, step by step, by the
 Agent's transitions and restarts, and its answers are the Agent's.
 */
module BarrierRefinement {
  import opened Basics
  import opened BarrierDisk
  import opened BarrierRuns
  import opened MaintenanceDb
  import P = Protocol

  function Strip(v: BarrierState): P.Barrier {
    P.Barrier(v.generation, v.open)
  }

  /** What the protocol's Agent does in one step: nothing, a barrier transition, a barrier read or a restart. */
  datatype Move = Stay | TakePut(barrier: P.Barrier, persisted: bool) | Report | Reload(loaded: Option<P.Barrier>)

  /** `sent` holds the transitions the Control Planes have sent. */
  predicate Allowed(g: P.Agent, move: Move, sent: set<P.Barrier>) {
    match move
    case Stay => true
    case TakePut(b, _) => b in sent && !g.invalid && !P.Stale(g.barrier, b)
    case Report => !g.invalid && g.barrier.generation != 0
    case Reload(loaded) => loaded.Some? ==> loaded.value in g.saved
  }

  function After(g: P.Agent, move: Move): P.Agent {
    match move
    case Stay => g
    case TakePut(b, persisted) => P.AfterPut(g, b, persisted)
    case Report => g
    case Reload(loaded) => P.AfterRestart(g, loaded)
  }

  /** The move ends in a 200 answer. */
  predicate Tells(g: P.Agent, move: Move) {
    move.Report? || (move.TakePut? && !After(g, move).invalid)
  }

  /**
   The Agent abstracts the node: whatever a restart may load is in `saved`, and a running process
   holds the Agent's barrier.
   */
  ghost predicate Abstracts(n: Node, g: P.Agent) {
    && (forall image :: MayHold(n.disk, image) && Load(image).Some? ==>
          || Strip(Load(image).value) in g.saved
          || (n.process.Some? && n.process.value.job.Some? && Load(image).value == n.process.value.job.value.target))
    && (n.process.Some? ==> g.barrier == Strip(n.process.value.held) && g.invalid == n.process.value.invalid)
  }

  /** A write in progress, and a transition just arriving, is one that was sent. */
  predicate JobSent(n: Node, sent: set<P.Barrier>) {
    n.process.Some? && n.process.value.job.Some? ==> Strip(n.process.value.job.value.target) in sent
  }

  predicate EventSent(e: NodeEvent, sent: set<P.Barrier>) {
    e.Put? ==> Strip(e.state) in sent
  }

  lemma FirstAgent()
    ensures Abstracts(NewNode, P.FreshAgent)
  {
  }

  /** A write cut short, whatever cut it, is a transition that failed to persist. */
  lemma Interrupted(n: Node, g: P.Agent, sent: set<P.Barrier>) returns (move: Move)
    requires NodeInv(n) && Abstracts(n, g) && JobSent(n, sent) && n.process.Some? && n.process.value.job.Some?
    ensures move == TakePut(Strip(n.process.value.job.value.target), false) && Allowed(g, move, sent)
    ensures var h := After(g, move);
            && h.invalid && h.barrier == Strip(n.process.value.held.(open := false))
            && (forall image :: MayHold(n.disk, image) && Load(image).Some? ==> Strip(Load(image).value) in h.saved)
            && g.saved <= h.saved && Strip(n.process.value.job.value.target) in h.saved
  {
    move := TakePut(Strip(n.process.value.job.value.target), false);
    assert !P.Stale(g.barrier, move.barrier);
  }

  lemma BootIsRestart(n: Node, g: P.Agent, sent: set<P.Barrier>) returns (move: Move)
    requires NodeInv(n) && Abstracts(n, g) && n.process.None?
    ensures move.Reload? && Allowed(g, move, sent)
    ensures Abstracts(n.(process := Some(BootProcess(n.disk))), After(g, move))
  {
    var p := BootProcess(n.disk);
    assert MayHold(n.disk, n.disk.file);
    move := Reload(if p.invalid then None else Some(Strip(p.held)));
  }

  lemma CallIsPut(n: Node, g: P.Agent, ok: bool, after: Disk, m: Node, sent: set<P.Barrier>) returns (move: Move)
    requires NodeInv(n) && Abstracts(n, g) && JobSent(n, sent) && NextCall(n, ok, after) == Some(m)
    ensures (move.Stay? || move.TakePut?) && Allowed(g, move, sent) && Abstracts(m, After(g, move))
    ensures m.process.Some? && m.served == if Tells(g, move) then n.served + [m.process.value.held] else n.served
    ensures IsMoveOf(n, Call(ok, after), m, move)
  {
    var p := n.process.value;
    var target := p.job.value.target;
    if !ok {
      move := Interrupted(n, g, sent);
      FailedCallImages(n, after);
    } else {
      SucceededCallKeepsJob(n, after);
      if p.job.value.pc == 11 {
        assert !P.Stale(g.barrier, Strip(target));
        move := TakePut(Strip(target), true);
      } else {
        move := Stay;
        SucceededCallImages(n, after);
      }
    }
  }

  /** No call brings a file that was not there before, except the one being written. */
  lemma FailedCallImages(n: Node, after: Disk)
    requires NodeInv(n) && n.process.Some? && n.process.value.job.Some?
    requires var job := n.process.value.job.value; DiskStep(n.disk, Script[job.pc], job.target, false, after)
    ensures forall image :: MayHold(after, image) ==>
              MayHold(n.disk, image) || image == Raw(Some(n.process.value.job.value.target))
  {
  }

  lemma SucceededCallImages(n: Node, after: Disk)
    requires NodeInv(n) && n.process.Some? && n.process.value.job.Some?
    requires var job := n.process.value.job.value; DiskStep(n.disk, Script[job.pc], job.target, true, after)
    ensures forall image :: MayHold(after, image) ==>
              MayHold(n.disk, image) || image == Raw(Some(n.process.value.job.value.target))
  {
  }

  /** Which move a step of the node is. */
  predicate IsMoveOf(n: Node, e: NodeEvent, m: Node, move: Move) {
    var writing := n.process.Some? && n.process.value.job.Some?;
    match e
    case Boot => move.Reload?
    case Kill => move == if writing then TakePut(Strip(n.process.value.job.value.target), false) else Stay
    case PowerLoss(_, _) => move == if writing then TakePut(Strip(n.process.value.job.value.target), false) else Stay
    case Reconcile => move == Stay
    case Put(v, _) => move == if m.served == n.served then Stay else TakePut(Strip(v), true)
    case Call(ok, _) =>
      writing && m.process.Some? &&
      move == if m.process.value.job.Some? then Stay else TakePut(Strip(n.process.value.job.value.target), ok)
    case Get(_) => move == if m.served == n.served then Stay else Report
  }

  lemma StepMoves(n: Node, g: P.Agent, e: NodeEvent, m: Node, sent: set<P.Barrier>) returns (move: Move)
    requires NodeInv(n) && Abstracts(n, g) && JobSent(n, sent) && EventSent(e, sent) && NextNode(n, e) == Some(m)
    ensures Allowed(g, move, sent) && Abstracts(m, After(g, move)) && JobSent(m, sent)
    ensures if Tells(g, move) then m.process.Some? && m.served == n.served + [m.process.value.held]
              else m.served == n.served
    ensures move.TakePut? ==> e.Put? || (n.process.Some? && n.process.value.job.Some?)
    ensures IsMoveOf(n, e, m, move)
  {
    match e {
      case Boot => move := BootIsRestart(n, g, sent);
      case Kill =>
        if n.process.Some? && n.process.value.job.Some? {
          move := Interrupted(n, g, sent);
        } else {
          move := Stay;
        }
      case PowerLoss(marker, file) =>
        if n.process.Some? && n.process.value.job.Some? {
          move := Interrupted(n, g, sent);
        } else {
          move := Stay;
        }
      case Reconcile => move := Stay;
      case Put(v, swarm) => move := if m.served == n.served then Stay else TakePut(Strip(v), true);
      case Call(ok, after) => move := CallIsPut(n, g, ok, after, m, sent);
      case Get(swarm) => move := if m.served == n.served then Stay else Report;
    }
  }

  /**
   Every step of the node is at most one step of the Agent, a transition only if it was sent, and
   the node answers 200 exactly when the Agent's step does, with the Agent's barrier.
   */
  lemma StepRefines(n: Node, g: P.Agent, e: NodeEvent, m: Node, sent: set<P.Barrier>) returns (move: Move)
    requires NodeInv(n) && Abstracts(n, g) && JobSent(n, sent) && EventSent(e, sent) && NextNode(n, e) == Some(m)
    ensures Allowed(g, move, sent) && Abstracts(m, After(g, move)) && JobSent(m, sent)
    ensures if Tells(g, move) then m.process.Some? && m.served == n.served + [m.process.value.held]
              else m.served == n.served
    ensures move.TakePut? ==> e.Put? || (n.process.Some? && n.process.value.job.Some?)
  {
    move := StepMoves(n, g, e, m, sent);
  }

  /** An Agent's successive states, each reached from the one before by one move. */
  ghost predicate AgentPath(path: seq<P.Agent>, moves: seq<Move>, sent: set<P.Barrier>) {
    && |path| == |moves| + 1 && path[0] == P.FreshAgent
    && (forall i :: 0 <= i < |moves| ==> Allowed(path[i], moves[i], sent) && path[i + 1] == After(path[i], moves[i]))
  }

  /** The barriers the Agent reports along a path, in order. */
  ghost function Told(path: seq<P.Agent>, moves: seq<Move>): seq<P.Barrier>
    requires |path| == |moves| + 1
    decreases |moves|
  {
    if moves == [] then []
    else
      var k := |moves| - 1;
      Told(path[..k + 1], moves[..k]) + if Tells(path[k], moves[k]) then [path[k + 1].barrier] else []
  }

  ghost function StripAll(served: seq<BarrierState>): seq<P.Barrier> {
    seq(|served|, i requires 0 <= i < |served| => Strip(served[i]))
  }

  /** Any run of the node is matched by a run of the protocol's Agent that gives the same answers in the same order. */
  lemma RunRefines(run: seq<NodeEvent>, n: Node, sent: set<P.Barrier>) returns (path: seq<P.Agent>, moves: seq<Move>)
    requires ReachesNode(run, n) && forall i :: 0 <= i < |run| ==> EventSent(run[i], sent)
    ensures |moves| == |run| && AgentPath(path, moves, sent)
    ensures Abstracts(n, path[|run|]) && JobSent(n, sent) && Told(path, moves) == StripAll(n.served)
    decreases |run|
  {
    if run == [] {
      path, moves := [P.FreshAgent], [];
      FirstAgent();
    } else {
      var k := |run| - 1;
      var m := RunNodeSplits(NewNode, run, n);
      var past, earlier := RunRefines(run[..k], m, sent);
      ReachableNodeInv(run[..k], m);
      var move := StepRefines(m, past[k], run[k], n, sent);
      path, moves := past + [After(past[k], move)], earlier + [move];
      assert path[..k + 1] == past && moves[..k] == earlier;
      assert StripAll(n.served) == StripAll(m.served) + if Tells(past[k], move) then [path[k + 1].barrier] else [];
    }
  }

  /** The move of Agent `a` as an event of the protocol. */
  function EventOf(a: AgentId, move: Move): seq<P.Event> {
    match move
    case Stay => []
    case TakePut(b, persisted) => [P.Manager(P.HandlePut(a, b, persisted))]
    case Report => [P.Manager(P.ReadBarrier(a))]
    case Reload(loaded) => [P.Manager(P.RestartAgent(a, loaded))]
  }

  lemma MoveIsEvent(s: P.State, a: AgentId, move: Move) returns (t: P.State)
    requires a in s.agents && Allowed(s.agents[a], move, s.puts) && (move.TakePut? ==> P.Drained(s, a))
    ensures P.Run(s, EventOf(a, move)) == Some(t) && t.puts == s.puts && a in t.agents
    ensures t.agents[a] == After(s.agents[a], move)
    ensures Tells(s.agents[a], move) ==> (a, t.agents[a].barrier) in t.served
  {
    if move.Stay? {
      t := s;
    } else {
      t := P.Next(s, EventOf(a, move)[0]).value;
      assert EventOf(a, move)[1..] == [];
      assert P.Run(t, []) == Some(t);
    }
  }

  /**
   The disk machine inside the protocol: with the node of manager `a` abstracted by its Agent in
   any state, a step of the node is at most one event of the protocol at `a`, and what it answers
   is what the protocol has served. The drain is the Agent's write lock, held while a transition
   is handled.
   */
  lemma StepInProtocol(n: Node, e: NodeEvent, m: Node, s: P.State, a: AgentId)
    returns (events: seq<P.Event>, t: P.State)
    requires NodeInv(n) && NextNode(n, e) == Some(m) && a in s.agents && Abstracts(n, s.agents[a])
    requires JobSent(n, s.puts) && EventSent(e, s.puts)
    requires e.Put? || (n.process.Some? && n.process.value.job.Some?) ==> P.Drained(s, a)
    ensures |events| <= 1 && P.Run(s, events) == Some(t)
    ensures a in t.agents && Abstracts(m, t.agents[a]) && JobSent(m, t.puts)
    ensures m.served != n.served ==>
              m.process.Some? && m.served == n.served + [m.process.value.held] &&
                (a, Strip(m.process.value.held)) in t.served
  {
    var move := StepRefines(n, s.agents[a], e, m, s.puts);
    events := EventOf(a, move);
    t := MoveIsEvent(s, a, move);
  }

  // ----- what the Agent may do, the node can do -----

  /** The node of `g` writes `v`: `pc` calls have been made, none failed, and `g` has not moved yet. */
  ghost predicate WritingFor(n: Node, g: P.Agent, held: BarrierState, v: BarrierState, pc: nat) {
    && NodeInv(n) && Abstracts(n, g)
    && n.process == Some(Process(held, false, Some(Job(pc, v))))
  }

  lemma CallCanSucceed(n: Node, g: P.Agent, held: BarrierState, v: BarrierState, pc: nat)
    returns (e: NodeEvent, m: Node)
    requires pc < |Script| && WritingFor(n, g, held, v, pc)
    ensures e.Call? && e.ok && NextNode(n, e) == Some(m)
    ensures pc + 1 < |Script| ==> WritingFor(m, g, held, v, pc + 1) && m.served == n.served
    ensures pc + 1 == |Script| ==>
              && m == Node(m.disk, Some(Process(v, false, None)), n.served + [v])
              && NodeInv(m) && Abstracts(m, P.AfterPut(g, Strip(v), true))
  {
    assert ProcessOk(n.disk, n.process.value, n.served);
    var disk := Done(n.disk, Script[pc], v);
    e := Call(true, disk);
    m := NextNode(n, e).value;
    NextKeepsNodeInv(n, e, m);
    var move := CallIsPut(n, g, true, disk, m, {Strip(v)});
  }

  lemma {:induction false} WriteCanFinish(n: Node, g: P.Agent, held: BarrierState, v: BarrierState, pc: nat)
    returns (calls: seq<NodeEvent>, m: Node)
    requires pc < |Script| && WritingFor(n, g, held, v, pc)
    ensures RunNode(n, calls) == Some(m) && forall i :: 0 <= i < |calls| ==> calls[i].Call? && calls[i].ok
    ensures m == Node(m.disk, Some(Process(v, false, None)), n.served + [v])
    ensures NodeInv(m) && Abstracts(m, P.AfterPut(g, Strip(v), true))
    decreases |Script| - pc
  {
    var e, k := CallCanSucceed(n, g, held, v, pc);
    if pc + 1 == |Script| {
      calls, m := [e], k;
      assert RunNode(k, calls[1..]) == Some(k);
    } else {
      var rest;
      rest, m := WriteCanFinish(k, g, held, v, pc + 1);
      calls := [e] + rest;
      assert calls[1..] == rest;
    }
  }

  /**
   The converse of `StepRefines`: a transition of its own cluster that the Agent may take, an idle
   node can serve, by the request and the calls of the write, none of which fails.
   */
  lemma TransitionCanBeServed(n: Node, g: P.Agent, v: BarrierState) returns (run: seq<NodeEvent>, m: Node)
    requires NodeInv(n) && Abstracts(n, g) && n.process.Some? && n.process.value.job.None? && ValidState(v)
    requires n.process.value.held == Fresh || n.process.value.held.cluster == v.cluster
    requires Allowed(g, TakePut(Strip(v), true), {Strip(v)})
    ensures RunNode(n, run) == Some(m) && run != [] && run[0] == Put(v, Some(v.cluster))
    ensures forall i :: 1 <= i < |run| ==> run[i].Call? && run[i].ok
    ensures m == Node(m.disk, Some(Process(v, false, None)), n.served + [v])
    ensures NodeInv(m) && Abstracts(m, After(g, TakePut(Strip(v), true)))
  {
    var e := Put(v, Some(v.cluster));
    var p := n.process.value;
    assert ProcessOk(n.disk, p, n.served);
    var k := NextNode(n, e).value;
    NextKeepsNodeInv(n, e, k);
    var move := StepMoves(n, g, e, k, {Strip(v)});
    if v.generation == p.held.generation {
      run, m := [e], k;
      assert RunNode(k, run[1..]) == Some(k);
    } else {
      assert WritingFor(k, g, p.held, v, 0);
      var calls;
      calls, m := WriteCanFinish(k, g, p.held, v, 0);
      run := [e] + calls;
      assert run[1..] == calls;
    }
  }

  /** And a barrier read that the Agent may answer, the node answers its own cluster. */
  lemma ReadCanBeServed(n: Node, g: P.Agent) returns (m: Node)
    requires NodeInv(n) && Abstracts(n, g) && n.process.Some? && n.process.value.job.None?
    requires Allowed(g, Move.Report, {})
    ensures NextNode(n, Get(Some(n.process.value.held.cluster))) == Some(m)
    ensures m == n.(served := n.served + [n.process.value.held])
  {
    assert ProcessOk(n.disk, n.process.value, n.served);
    m := NextNode(n, Get(Some(n.process.value.held.cluster))).value;
  }

  lemma RunNodeSplits(n: Node, run: seq<NodeEvent>, last: Node) returns (m: Node)
    requires run != [] && RunNode(n, run) == Some(last)
    ensures RunNode(n, run[..|run| - 1]) == Some(m) && NextNode(m, run[|run| - 1]) == Some(last)
    decreases |run|
  {
    var k := NextNode(n, run[0]).value;
    if |run| == 1 {
      m := n;
    } else {
      m := RunNodeSplits(k, run[1..], last);
      assert run[1..][..|run| - 2] == run[..|run| - 1][1..];
    }
  }
}
