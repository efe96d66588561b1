/**
 The read/write lock of a manager Agent, with its threads. A mutation request
 holds the read side from before the first check of the guard until its handler
 has returned; a barrier read holds it until its answer; a barrier transition
 holds the write side from before its checks until after its answer.
 */
module BarrierLock {
  import opened Basics
  import opened AgentContract
  import opened MaintenanceDb
  import P = Protocol

  type ThreadId = nat

  datatype Stage =
    | Arrived
    | Guarding                      // read lock held, barrier not yet looked at
    | FoundOpen                     // read lock held, barrier seen open, headers and Swarm not yet compared
    | Handling                      // read lock held, past the guard
    | Returning(response: Response) // read lock held, answer decided
    | Telling(reported: bool)       // read lock held, a barrier read answered; `reported` for a 200
    | Deciding                      // write lock held
    | Answering(reported: bool)     // write lock held, a transition answered; `reported` for a 200
    | Left

  datatype Thread =
    | Mutation(generation: nat, stage: Stage)
    | Inspection(stage: Stage)
    | Transition(target: P.Barrier, stage: Stage)

  /** The mutex is a count of readers and a writer flag; `agent` is the barrier it protects. */
  datatype Gate = Gate(agent: P.Agent, readers: nat, writer: bool, threads: map<ThreadId, Thread>)

  function FreshGate(agent: P.Agent): Gate {
    Gate(agent, 0, false, map[])
  }

  predicate Reads(t: Thread) {
    t.stage.Guarding? || t.stage.FoundOpen? || t.stage.Handling? || t.stage.Returning? || t.stage.Telling?
  }

  predicate Writes(t: Thread) {
    t.stage.Deciding? || t.stage.Answering?
  }

  /** `refused` stands for the identity and cluster checks of the two barrier endpoints. */
  datatype GateEvent =
    | Arrive(id: ThreadId, thread: Thread)
    | RLock(id: ThreadId)
    | LookOpen(id: ThreadId)
    | Judge(id: ThreadId, check: ClusterCheck)
    | Return(id: ThreadId, path: HandlerPath)
    | Tell(id: ThreadId, refused: bool)
    | RUnlock(id: ThreadId)
    | Lock(id: ThreadId)
    | Decide(id: ThreadId, refused: bool, persisted: bool)
    | Unlock(id: ThreadId)

  predicate AtStage(g: Gate, id: ThreadId, stage: Stage) {
    id in g.threads && g.threads[id].stage == stage
  }

  function Move(g: Gate, id: ThreadId, stage: Stage): Gate
    requires id in g.threads
  {
    g.(threads := g.threads[id := g.threads[id].(stage := stage)])
  }

  function NextGate(g: Gate, e: GateEvent): Option<Gate> {
    match e
    case Arrive(id, thread) =>
      if id in g.threads || thread.stage != Arrived then None else Some(g.(threads := g.threads[id := thread]))
    case RLock(id) =>
      if !AtStage(g, id, Arrived) || g.threads[id].Transition? || g.writer then None
      else Some(Move(g, id, Guarding).(readers := g.readers + 1))
    case LookOpen(id) =>
      if !AtStage(g, id, Guarding) || !g.threads[id].Mutation? then None
      else if g.agent.invalid || !g.agent.barrier.open then Some(Move(g, id, Returning(Response(409, AgentBlocked))))
      else Some(Move(g, id, FoundOpen))
    case Judge(id, check) =>
      if !AtStage(g, id, FoundOpen) || !g.threads[id].Mutation? then None
      else Some(Move(g, id, AfterChecks(g.agent.barrier.generation, g.threads[id].generation, check)))
    case Return(id, path) =>
      if !AtStage(g, id, Handling) then None else Some(Move(g, id, Returning(HandlerResponse(path))))
    case Tell(id, refused) =>
      if !AtStage(g, id, Guarding) || !g.threads[id].Inspection? then None
      else Some(Move(g, id, Telling(!refused && !g.agent.invalid && g.agent.barrier.generation > 0)))
    case RUnlock(id) =>
      if id !in g.threads || !(g.threads[id].stage.Returning? || g.threads[id].stage.Telling?) || g.readers == 0 then
        None
      else Some(Move(g, id, Left).(readers := g.readers - 1))
    case Lock(id) =>
      if !AtStage(g, id, Arrived) || !g.threads[id].Transition? || g.writer || g.readers > 0 then None
      else Some(Move(g, id, Deciding).(writer := true))
    case Decide(id, refused, persisted) =>
      if !AtStage(g, id, Deciding) || !g.threads[id].Transition? then None
      else if Declines(g, refused, g.threads[id].target) then Some(Move(g, id, Answering(false)))
      else
        var after := P.AfterPut(g.agent, g.threads[id].target, persisted);
        Some(Move(g, id, Answering(!after.invalid)).(agent := after))
    case Unlock(id) =>
      if id !in g.threads || !g.threads[id].stage.Answering? then None
      else Some(Move(g, id, Left).(writer := false))
  }

  /** The checks of the guard behind the first one, which has found the barrier open. */
  function AfterChecks(held: nat, requested: nat, check: ClusterCheck): Stage {
    var verdict := GuardVerdict(false, true, held, requested, check);
    if verdict.Some? then Returning(verdict.value) else Handling
  }

  predicate Declines(g: Gate, refused: bool, wanted: P.Barrier) {
    refused || g.agent.invalid || P.Stale(g.agent.barrier, wanted)
  }

  function RunGate(g: Gate, events: seq<GateEvent>): Option<Gate>
    decreases |events|
  {
    if events == [] then Some(g)
    else match NextGate(g, events[0])
      case None => None
      case Some(h) => RunGate(h, events[1..])
  }

  // ----- the invariant -----

  ghost function Readers(threads: map<ThreadId, Thread>): set<ThreadId> {
    set id | id in threads && Reads(threads[id])
  }

  /** The read count is the number of readers, and a writer is alone. */
  ghost predicate LockOk(g: Gate) {
    && g.readers == |Readers(g.threads)|
    && (g.writer ==> g.readers == 0)
    && (forall id :: id in g.threads && Writes(g.threads[id]) ==> g.writer && g.threads[id].Transition?)
    && (forall i, j :: i in g.threads && j in g.threads && Writes(g.threads[i]) && Writes(g.threads[j]) ==> i == j)
  }

  ghost predicate ThreadOk(agent: P.Agent, t: Thread) {
    && (t.stage.FoundOpen? ==> !agent.invalid && agent.barrier.open)
    && (t.stage.Handling? ==> !agent.invalid && t.Mutation? && agent.barrier == P.Barrier(t.generation, true))
    && (t.stage.Returning? ==> t.Mutation?)
  }

  /** What a reader has seen of the barrier is still so. */
  ghost predicate ThreadsOk(g: Gate) {
    forall id :: id in g.threads ==> ThreadOk(g.agent, g.threads[id])
  }

  lemma SameReaders(threads: map<ThreadId, Thread>, id: ThreadId, t: Thread)
    requires Reads(t) == (id in threads && Reads(threads[id]))
    ensures Readers(threads[id := t]) == Readers(threads)
  {
  }

  lemma OneMoreReader(threads: map<ThreadId, Thread>, id: ThreadId, t: Thread)
    requires id in threads && !Reads(threads[id]) && Reads(t)
    ensures |Readers(threads[id := t])| == |Readers(threads)| + 1
  {
    assert Readers(threads[id := t]) == Readers(threads) + {id};
  }

  lemma OneReaderLess(threads: map<ThreadId, Thread>, id: ThreadId, t: Thread)
    requires id in threads && Reads(threads[id]) && !Reads(t)
    ensures |Readers(threads[id := t])| == |Readers(threads)| - 1
  {
    assert Readers(threads) == Readers(threads[id := t]) + {id};
  }

  /** While a writer is inside, nobody reads. */
  lemma WriterExcludesReaders(g: Gate)
    requires LockOk(g) && g.writer
    ensures forall id :: id in g.threads ==> !Reads(g.threads[id])
  {
    forall id | id in g.threads ensures Reads(g.threads[id]) ==> id in Readers(g.threads) {
    }
  }

  lemma StepKeepsLock(g: Gate, e: GateEvent, h: Gate)
    requires LockOk(g) && NextGate(g, e) == Some(h)
    ensures LockOk(h)
  {
    if e.RLock? {
      OneMoreReader(g.threads, e.id, h.threads[e.id]);
    } else if e.RUnlock? {
      OneReaderLess(g.threads, e.id, h.threads[e.id]);
    } else {
      SameReaders(g.threads, e.id, h.threads[e.id]);
    }
  }

  lemma StepKeepsThreads(g: Gate, e: GateEvent, h: Gate)
    requires LockOk(g) && ThreadsOk(g) && NextGate(g, e) == Some(h)
    ensures ThreadsOk(h)
  {
    if e.Decide? {
      WriterExcludesReaders(g);
    }
  }

  lemma {:induction false} RunKeepsGateInv(g: Gate, run: seq<GateEvent>, h: Gate)
    requires LockOk(g) && ThreadsOk(g) && RunGate(g, run) == Some(h)
    ensures LockOk(h) && ThreadsOk(h)
    decreases |run|
  {
    if run == [] {
    } else {
      var k := NextGate(g, run[0]).value;
      StepKeepsLock(g, run[0], k);
      StepKeepsThreads(g, run[0], k);
      RunKeepsGateInv(k, run[1..], h);
    }
  }

  // ----- what a transition's answer means -----

  /**
   While a transition holds the lock, and so when it is answered, no handler runs and no request is
   even at the guard.
   */
  lemma TransitionExcludesHandlers(agent: P.Agent, run: seq<GateEvent>, g: Gate, p: ThreadId)
    requires RunGate(FreshGate(agent), run) == Some(g) && p in g.threads && Writes(g.threads[p])
    ensures forall r :: r in g.threads ==> !Reads(g.threads[r])
  {
    RunKeepsGateInv(FreshGate(agent), run, g);
    WriterExcludesReaders(g);
  }

  predicate PastGuard(t: Thread) {
    t.Mutation? && (t.stage.Handling? || t.stage.Returning? || t.stage.Left?)
  }

  /** A request past the guard never comes back to it. */
  lemma {:induction false} PastGuardStays(g: Gate, run: seq<GateEvent>, h: Gate, r: ThreadId)
    requires RunGate(g, run) == Some(h) && r in g.threads && PastGuard(g.threads[r])
    ensures r in h.threads && PastGuard(h.threads[r])
    decreases |run|
  {
    if run == [] {
    } else {
      PastGuardStays(NextGate(g, run[0]).value, run[1..], h, r);
    }
  }

  /**
   A transition is answered only after every handler that ran at any earlier
   point has returned and left.
   */
  lemma EarlierHandlersReturned(agent: P.Agent, run: seq<GateEvent>, g: Gate, rest: seq<GateEvent>, h: Gate,
      r: ThreadId, p: ThreadId)
    requires RunGate(FreshGate(agent), run) == Some(g) && RunGate(g, rest) == Some(h)
    requires r in g.threads && g.threads[r].stage.Handling?
    requires p in h.threads && h.threads[p].stage.Answering?
    ensures r in h.threads && h.threads[r].stage == Left
  {
    RunKeepsGateInv(FreshGate(agent), run, g);
    RunKeepsGateInv(g, rest, h);
    PastGuardStays(g, rest, h, r);
    WriterExcludesReaders(h);
  }

  // ----- refinement of the protocol -----

  predicate PlaceMatches(stage: Stage, place: P.Place) {
    match stage
    case Arrived => place.InTransit?
    case Guarding => place.InTransit?
    case FoundOpen => place.InTransit?
    case Handling => place.InHandler?
    case Returning(response) => place == P.Replied(response)
    case Left => place.Replied?
    case _ => false
  }

  ghost predicate ThreadMatches(t: Thread, a: AgentId, f: P.Flight) {
    t.Mutation? && f.agent == a && f.generation == t.generation && PlaceMatches(t.stage, f.place)
  }

  ghost predicate MatchesAll(threads: map<ThreadId, Thread>, a: AgentId, flights: seq<P.Flight>,
      flightOf: map<ThreadId, nat>) {
    forall r :: r in threads && threads[r].Mutation? ==>
      r in flightOf && flightOf[r] < |flights| && ThreadMatches(threads[r], a, flights[flightOf[r]])
  }

  ghost predicate HandledHere(threads: map<ThreadId, Thread>, flightOf: map<ThreadId, nat>, i: nat) {
    exists r :: r in flightOf && flightOf[r] == i && r in threads && threads[r].Mutation?
  }

  ghost predicate CoversAll(threads: map<ThreadId, Thread>, a: AgentId, flights: seq<P.Flight>,
      flightOf: map<ThreadId, nat>) {
    forall i: nat :: i < |flights| && flights[i].agent == a && flights[i].place == P.InHandler ==>
      HandledHere(threads, flightOf, i)
  }

  ghost predicate Injective(flightOf: map<ThreadId, nat>) {
    forall q, r :: q in flightOf && r in flightOf && flightOf[q] == flightOf[r] ==> q == r
  }

  /**
   The mutation threads of Agent `a` are the requests the protocol has given to it; `flightOf` says
   which is which.
   */
  ghost predicate Represents(g: Gate, s: P.State, a: AgentId, flightOf: map<ThreadId, nat>) {
    && a in s.agents && s.agents[a] == g.agent && Injective(flightOf)
    && MatchesAll(g.threads, a, s.flights, flightOf) && CoversAll(g.threads, a, s.flights, flightOf)
  }

  /** The protocol event that a step under the lock amounts to, if any. */
  ghost function ProtocolEvent(g: Gate, e: GateEvent, h: Gate, a: AgentId,
      flightOf: map<ThreadId, nat>): Option<P.Event> {
    if e.id !in g.threads || e.id !in h.threads then None
    else match e
      case LookOpen(id) =>
        if id in flightOf && h.threads[id].stage.Returning? then Some(P.Wire(P.Deliver(flightOf[id], SwarmAgrees)))
        else None
      case Judge(id, check) => if id in flightOf then Some(P.Wire(P.Deliver(flightOf[id], check))) else None
      case Return(id, path) => if id in flightOf then Some(P.Wire(P.FinishHandler(flightOf[id], path))) else None
      case Tell(id, _) => if h.threads[id].stage == Telling(true) then Some(P.Manager(P.ReadBarrier(a))) else None
      case Decide(id, refused, persisted) =>
        if !g.threads[id].Transition? || Declines(g, refused, g.threads[id].target) then None
        else Some(P.Manager(P.HandlePut(a, g.threads[id].target, persisted)))
      case _ => None
  }

  /**
   What the rest of the system contributes: transitions were sent, and a handler's answer says
   whether it updated Docker.
   */
  ghost predicate FromTheProtocol(g: Gate, e: GateEvent, s: P.State, flightOf: map<ThreadId, nat>) {
    && (e.Decide? && e.id in g.threads && g.threads[e.id].Transition? ==> g.threads[e.id].target in s.puts)
    && (e.Return? && e.id in flightOf && flightOf[e.id] < |s.flights| ==>
          Updated(e.path) == (s.flights[flightOf[e.id]].updates > 0))
  }

  /** `event` takes the protocol from what `g` represents to what `h` represents. */
  ghost predicate Matched(h: Gate, s: P.State, event: Option<P.Event>, a: AgentId, flightOf: map<ThreadId, nat>) {
    match event
    case None => Represents(h, s, a, flightOf)
    case Some(e) => P.Next(s, e).Some? && Represents(h, P.Next(s, e).value, a, flightOf)
  }

  lemma FlightMoves(g: Gate, s: P.State, a: AgentId, flightOf: map<ThreadId, nat>, r: ThreadId, stage: Stage,
      place: P.Place)
    requires Represents(g, s, a, flightOf) && r in g.threads && g.threads[r].Mutation? && PlaceMatches(stage, place)
    ensures Represents(Move(g, r, stage), P.MoveFlight(s, flightOf[r], place), a, flightOf)
  {
    var h, t := Move(g, r, stage), P.MoveFlight(s, flightOf[r], place);
    forall i: nat | i < |t.flights| && t.flights[i].agent == a && t.flights[i].place == P.InHandler
      ensures HandledHere(h.threads, flightOf, i)
    {
      if i == flightOf[r] {
        assert r in h.threads;
      } else {
        assert HandledHere(g.threads, flightOf, i);
      }
    }
  }

  /** A thread that moves without the protocol noticing. */
  lemma OnlyThreadMoves(threads: map<ThreadId, Thread>, a: AgentId, flights: seq<P.Flight>,
      flightOf: map<ThreadId, nat>,
      r: ThreadId, stage: Stage)
    requires MatchesAll(threads, a, flights, flightOf) && CoversAll(threads, a, flights, flightOf) && r in threads
    requires threads[r].Mutation? ==> forall place :: PlaceMatches(threads[r].stage, place) ==>
               PlaceMatches(stage, place)
    ensures MatchesAll(threads[r := threads[r].(stage := stage)], a, flights, flightOf)
    ensures CoversAll(threads[r := threads[r].(stage := stage)], a, flights, flightOf)
  {
    var after := threads[r := threads[r].(stage := stage)];
    forall i: nat | i < |flights| && flights[i].agent == a && flights[i].place == P.InHandler
      ensures HandledHere(after, flightOf, i)
    {
      assert HandledHere(threads, flightOf, i);
    }
  }

  lemma LookIsDeliver(g: Gate, e: GateEvent, h: Gate, s: P.State, a: AgentId, flightOf: map<ThreadId, nat>)
    requires NextGate(g, e) == Some(h) && e.LookOpen? && Represents(g, s, a, flightOf)
    ensures Matched(h, s, ProtocolEvent(g, e, h, a, flightOf), a, flightOf)
  {
    var stage := h.threads[e.id].stage;
    if stage.Returning? {
      FlightMoves(g, s, a, flightOf, e.id, stage, P.Replied(stage.response));
    } else {
      OnlyThreadMoves(g.threads, a, s.flights, flightOf, e.id, stage);
    }
  }

  lemma JudgeIsDeliver(g: Gate, e: GateEvent, h: Gate, s: P.State, a: AgentId, flightOf: map<ThreadId, nat>)
    requires ThreadsOk(g) && NextGate(g, e) == Some(h) && e.Judge? && Represents(g, s, a, flightOf)
    ensures Matched(h, s, ProtocolEvent(g, e, h, a, flightOf), a, flightOf)
  {
    var stage := h.threads[e.id].stage;
    assert ThreadOk(g.agent, g.threads[e.id]);
    FlightMoves(g, s, a, flightOf, e.id, stage, if stage.Returning? then P.Replied(stage.response) else P.InHandler);
  }

  lemma ReturnIsFinish(g: Gate, e: GateEvent, h: Gate, s: P.State, a: AgentId, flightOf: map<ThreadId, nat>)
    requires ThreadsOk(g) && NextGate(g, e) == Some(h) && e.Return?
    requires Represents(g, s, a, flightOf) && FromTheProtocol(g, e, s, flightOf)
    ensures Matched(h, s, ProtocolEvent(g, e, h, a, flightOf), a, flightOf)
  {
    assert ThreadOk(g.agent, g.threads[e.id]);
    FlightMoves(g, s, a, flightOf, e.id, h.threads[e.id].stage, P.Replied(HandlerResponse(e.path)));
  }

  lemma DrainedUnderLock(g: Gate, s: P.State, a: AgentId, flightOf: map<ThreadId, nat>, p: ThreadId)
    requires LockOk(g) && Represents(g, s, a, flightOf) && p in g.threads && Writes(g.threads[p])
    ensures P.Drained(s, a)
  {
    WriterExcludesReaders(g);
  }

  lemma DecideIsHandlePut(g: Gate, e: GateEvent, h: Gate, s: P.State, a: AgentId, flightOf: map<ThreadId, nat>)
    requires LockOk(g) && NextGate(g, e) == Some(h) && e.Decide?
    requires Represents(g, s, a, flightOf) && FromTheProtocol(g, e, s, flightOf)
    ensures Matched(h, s, ProtocolEvent(g, e, h, a, flightOf), a, flightOf)
  {
    DrainedUnderLock(g, s, a, flightOf, e.id);
    OnlyThreadMoves(g.threads, a, s.flights, flightOf, e.id, h.threads[e.id].stage);
  }

  lemma OthersAreQuiet(g: Gate, e: GateEvent, h: Gate, s: P.State, a: AgentId, flightOf: map<ThreadId, nat>)
    requires LockOk(g) && ThreadsOk(g) && NextGate(g, e) == Some(h) && Represents(g, s, a, flightOf)
    requires e.RLock? || e.RUnlock? || e.Lock? || e.Unlock?
    ensures Represents(h, s, a, flightOf)
  {
    assert ThreadOk(g.agent, g.threads[e.id]);
    OnlyThreadMoves(g.threads, a, s.flights, flightOf, e.id, h.threads[e.id].stage);
  }

  lemma TellIsReadBarrier(g: Gate, e: GateEvent, h: Gate, s: P.State, a: AgentId, flightOf: map<ThreadId, nat>)
    requires NextGate(g, e) == Some(h) && Represents(g, s, a, flightOf) && e.Tell?
    ensures Matched(h, s, ProtocolEvent(g, e, h, a, flightOf), a, flightOf)
  {
    OnlyThreadMoves(g.threads, a, s.flights, flightOf, e.id, h.threads[e.id].stage);
  }

  /**
   The protocol takes the guard of a request, the end of a handler, a barrier read and a barrier
   transition as one step each, the last only when the Agent is drained. Every step of the threads
   under the lock is one of these or changes nothing there: the lock is what makes the guard's
   separate checks one decision, and the drain hold.
   */
  lemma GateRefinesProtocol(g: Gate, e: GateEvent, h: Gate, s: P.State, a: AgentId, flightOf: map<ThreadId, nat>)
    requires LockOk(g) && ThreadsOk(g) && NextGate(g, e) == Some(h) && !e.Arrive?
    requires Represents(g, s, a, flightOf) && FromTheProtocol(g, e, s, flightOf)
    ensures Matched(h, s, ProtocolEvent(g, e, h, a, flightOf), a, flightOf)
  {
    match e
    case LookOpen(_) => LookIsDeliver(g, e, h, s, a, flightOf);
    case Judge(_, _) => JudgeIsDeliver(g, e, h, s, a, flightOf);
    case Return(_, _) => ReturnIsFinish(g, e, h, s, a, flightOf);
    case Tell(_, _) => TellIsReadBarrier(g, e, h, s, a, flightOf);
    case Decide(_, _, _) => DecideIsHandlePut(g, e, h, s, a, flightOf);
    case RLock(_) => OthersAreQuiet(g, e, h, s, a, flightOf);
    case RUnlock(_) => OthersAreQuiet(g, e, h, s, a, flightOf);
    case Lock(_) => OthersAreQuiet(g, e, h, s, a, flightOf);
    case Unlock(_) => OthersAreQuiet(g, e, h, s, a, flightOf);
  }

  /** An arriving request is one the protocol has in transit to this Agent. */
  lemma ArrivalIsInTransit(g: Gate, e: GateEvent, h: Gate, s: P.State, a: AgentId, flightOf: map<ThreadId, nat>, i: nat)
    requires NextGate(g, e) == Some(h) && e.Arrive? && Represents(g, s, a, flightOf)
    requires i < |s.flights| && i !in flightOf.Values && ThreadMatches(e.thread, a, s.flights[i])
    ensures Represents(h, s, a, flightOf[e.id := i])
  {
    forall q | q in flightOf ensures flightOf[q] != i {
      assert flightOf[q] in flightOf.Values;
    }
    forall j: nat | j < |s.flights| && s.flights[j].agent == a && s.flights[j].place == P.InHandler
      ensures HandledHere(h.threads, flightOf[e.id := i], j)
    {
      assert HandledHere(g.threads, flightOf, j);
      var r :| r in flightOf && flightOf[r] == j && r in g.threads && g.threads[r].Mutation?;
      assert r in flightOf[e.id := i] && flightOf[e.id := i][r] == j;
    }
  }
}
