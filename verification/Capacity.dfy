/**
 Whether a service's additional replicas fit on the eligible nodes: per-node
 usage from the running tasks, per-node slots from what is left, and a verdict
 from their saturating sum.
 */
module Capacity {
  import opened Basics

  const MAX_UINT64 := 0xFFFF_FFFF_FFFF_FFFF
  const MAX_INT64 := 0x7FFF_FFFF_FFFF_FFFF

  type uint64 = x: int | 0 <= x <= MAX_UINT64
  type int64 = x: int | -0x8000_0000_0000_0000 <= x <= MAX_INT64

  datatype Resources = Resources(cpu: int64, memory: int64)

  /** A task as the usage sees it; `counted` when it belongs to the service and still counts toward its limit. */
  datatype Task = Task(node: string, terminal: bool, reserved: Resources, counted: bool)

  /** `eligible`: ready, active, and matching every platform and understood constraint. */
  datatype Node = Node(id: string, eligible: bool, total: Resources)

  datatype Service = Service(
    replicas: Option<uint64>,          // `None` for a service that is not replicated
    startFirst: bool, parallelism: uint64,
    reservation: Resources, genericReservation: bool,
    maxPerNode: uint64, unsupportedConstraint: bool)

  datatype Request = Request(targetReplicas: uint64, includeOverlap: bool)

  datatype Usage = Usage(cpu: int64, memory: int64, tasks: nat)

  datatype Status = Unknown | Sufficient | Insufficient

  datatype Slot = Slot(node: string, available: Resources, existing: nat, additional: uint64)

  datatype Response = Response(status: Status, required: uint64, schedulable: uint64, unplaced: uint64,
    slots: seq<Slot>)

  // ----- arithmetic -----

  function SaturatingAdd(a: uint64, b: uint64): (r: uint64)
    ensures r as int == if a + b <= MAX_UINT64 then a + b else MAX_UINT64
  {
    if MAX_UINT64 - a < b then MAX_UINT64 else a + b
  }

  function SaturatingInt64Add(a: int64, b: int64): int64
    requires a >= 0 && b >= 0
  {
    if b > 0 && a > MAX_INT64 - b then MAX_INT64 else a + b
  }

  function Min(a: int, b: int): int {
    if a < b then a else b
  }

  function Clamp(x: int): int {
    if x < 0 then 0 else x
  }

  /** The number of further reservations that fit, at most `cap`; no reservation is no limit. */
  function SlotsFor(available: int64, reservation: int64, cap: uint64): uint64
    requires reservation >= 0
  {
    if reservation <= 0 then cap
    else if available <= 0 then 0
    else
      DivisionBounds(available, reservation);
      if available / reservation > cap then cap else available / reservation
  }

  lemma DivisionBounds(a: int, b: int)
    requires a >= 0 && b > 0
    ensures 0 <= a / b
    ensures (a / b) * b <= a < (a / b) * b + b
  {
    Quotient(a, b, a / b, a % b);
  }

  lemma Quotient(a: int, b: int, q: int, m: int)
    requires a >= 0 && b > 0 && q == a / b && m == a % b
    ensures q >= 0 && a == q * b + m && 0 <= m < b
  {
  }

  // ----- usage -----

  ghost predicate SaneTasks(tasks: seq<Task>) {
    forall i :: 0 <= i < |tasks| ==> tasks[i].reserved.cpu >= 0 && tasks[i].reserved.memory >= 0
  }

  predicate UsesNode(t: Task, node: string) {
    t.node != "" && !t.terminal && t.node == node
  }

  /** What the tasks on a node really reserve, without any limit on the sum. */
  ghost function UsedCpu(tasks: seq<Task>, node: string): int {
    if tasks == [] then 0
    else
      var last := tasks[|tasks| - 1];
      UsedCpu(tasks[..|tasks| - 1], node) + if UsesNode(last, node) then last.reserved.cpu as int else 0
  }

  ghost function UsedMemory(tasks: seq<Task>, node: string): int {
    if tasks == [] then 0
    else
      var last := tasks[|tasks| - 1];
      UsedMemory(tasks[..|tasks| - 1], node) + if UsesNode(last, node) then last.reserved.memory as int else 0
  }

  ghost function ExistingTasks(tasks: seq<Task>, node: string): nat {
    if tasks == [] then 0
    else
      var last := tasks[|tasks| - 1];
      ExistingTasks(tasks[..|tasks| - 1], node) + if UsesNode(last, node) && last.counted then 1 else 0
  }

  function Lookup(usage: map<string, Usage>, node: string): Usage {
    if node in usage then usage[node] else Usage(0, 0, 0)
  }

  /** The recorded usage is the real one, cut off at the largest representable sum. */
  ghost predicate Records(u: Usage, tasks: seq<Task>, node: string) {
    && u.cpu as int == Min(UsedCpu(tasks, node), MAX_INT64)
    && u.memory as int == Min(UsedMemory(tasks, node), MAX_INT64)
    && u.tasks == ExistingTasks(tasks, node)
  }

  lemma UsedIsPositive(tasks: seq<Task>, node: string)
    requires SaneTasks(tasks)
    ensures UsedCpu(tasks, node) >= 0 && UsedMemory(tasks, node) >= 0
  {
    if tasks == [] {
    } else {
      UsedIsPositive(tasks[..|tasks| - 1], node);
    }
  }

  method CapacityUsage(tasks: seq<Task>) returns (usage: map<string, Usage>)
    requires SaneTasks(tasks)
    ensures forall node :: node != "" ==> Records(Lookup(usage, node), tasks, node)
  {
    usage := map[];
    for i := 0 to |tasks|
      invariant forall node :: node != "" ==> Records(Lookup(usage, node), tasks[..i], node)
    {
      var task := tasks[i];
      ghost var before := usage;
      assert tasks[..i + 1][..i] == tasks[..i];
      if task.node != "" && !task.terminal {
        var current := Lookup(usage, task.node);
        UsedIsPositive(tasks[..i], task.node);
        current := current.(cpu := SaturatingInt64Add(current.cpu, task.reserved.cpu),
                            memory := SaturatingInt64Add(current.memory, task.reserved.memory));
        if task.counted {
          current := current.(tasks := current.tasks + 1);
        }
        usage := usage[task.node := current];
      }
      forall node | node != "" ensures Records(Lookup(usage, node), tasks[..i + 1], node) {
        assert Records(Lookup(before, node), tasks[..i], node);
      }
    }
    assert tasks[..|tasks|] == tasks;
  }

  // ----- slots of one node -----

  ghost predicate SaneNodes(nodes: seq<Node>) {
    && (forall i :: 0 <= i < |nodes| ==> nodes[i].id != "" && nodes[i].total.cpu >= 0 && nodes[i].total.memory >= 0)
    && (forall i, j :: 0 <= i < j < |nodes| ==> nodes[i].id != nodes[j].id)
  }

  ghost predicate SaneService(service: Service) {
    service.reservation.cpu >= 0 && service.reservation.memory >= 0
  }

  ghost predicate ResourceFits(used: int, reservation: int, total: int, k: nat) {
    reservation == 0 || used + k * reservation <= total
  }

  /** The node can take `k` more replicas of the service. */
  ghost predicate Fits(service: Service, tasks: seq<Task>, node: Node, k: nat) {
    k == 0 ||
    (&& ResourceFits(UsedCpu(tasks, node.id), service.reservation.cpu, node.total.cpu, k)
     && ResourceFits(UsedMemory(tasks, node.id), service.reservation.memory, node.total.memory, k)
     && (service.maxPerNode == 0 || ExistingTasks(tasks, node.id) + k <= service.maxPerNode))
  }

  function Available(node: Node, u: Usage): Resources
    requires node.total.cpu >= 0 && node.total.memory >= 0 && u.cpu >= 0 && u.memory >= 0
  {
    Resources(Clamp(node.total.cpu - u.cpu), Clamp(node.total.memory - u.memory))
  }

  function NodeSlots(service: Service, available: Resources, existing: nat, required: uint64): uint64
    requires service.reservation.cpu >= 0 && service.reservation.memory >= 0
  {
    var bySize := Min(Min(required, SlotsFor(available.cpu, service.reservation.cpu, required)),
                      SlotsFor(available.memory, service.reservation.memory, required));
    if service.maxPerNode == 0 then bySize
    else Min(bySize, if existing < service.maxPerNode then service.maxPerNode - existing else 0)
  }

  lemma MulMono(a: int, b: int, c: int)
    requires a <= b && c >= 0
    ensures a * c <= b * c
  {
    assert (b - a) * c >= 0;
    assert b * c - a * c == (b - a) * c;
  }

  /** Counting slots by division is exact, and the cut-off of the recorded usage does not matter. */
  lemma SlotsForExact(used: int, recorded: int64, total: int64, reservation: int64, cap: uint64, k: nat)
    requires used >= 0 && recorded as int == Min(used, MAX_INT64) && total >= 0 && reservation >= 0 && k <= cap
    ensures k <= SlotsFor(Clamp(total - recorded), reservation, cap) <==>
              k == 0 || ResourceFits(used, reservation, total, k)
  {
    var available := Clamp(total - recorded);
    assert available == Clamp(total - used);
    if reservation > 0 && k > 0 {
      if available <= 0 {
        MulMono(1, k, reservation);
      } else {
        DivisionBounds(available, reservation);
        var q := available / reservation;
        if k <= q {
          MulMono(k, q, reservation);
        } else {
          MulMono(q + 1, k, reservation);
          assert (q + 1) * reservation == q * reservation + reservation;
        }
      }
    }
  }

  /** A node's slots are the largest number of replicas, up to the required one, that it can take. */
  lemma NodeSlotsExact(service: Service, tasks: seq<Task>, node: Node, u: Usage, required: uint64, k: nat)
    requires SaneService(service) && SaneTasks(tasks) && node.total.cpu >= 0 && node.total.memory >= 0
    requires Records(u, tasks, node.id) && u.cpu >= 0 && u.memory >= 0 && k <= required
    ensures k <= NodeSlots(service, Available(node, u), u.tasks, required) <==> Fits(service, tasks, node, k)
  {
    UsedIsPositive(tasks, node.id);
    SlotsForExact(UsedCpu(tasks, node.id), u.cpu, node.total.cpu, service.reservation.cpu, required, k);
    SlotsForExact(UsedMemory(tasks, node.id), u.memory, node.total.memory, service.reservation.memory, required, k);
  }

  // ----- the evaluation -----

  function OverlapReplicas(service: Service, request: Request): uint64 {
    if !request.includeOverlap || request.targetReplicas == 0 || !service.startFirst then 0
    else if service.parallelism == 0 || service.parallelism > request.targetReplicas then request.targetReplicas
    else service.parallelism
  }

  function Additional(service: Service, request: Request): uint64
    requires service.replicas.Some?
  {
    if request.targetReplicas > service.replicas.value then request.targetReplicas - service.replicas.value else 0
  }

  /** The additional replicas are the fewest that bring the service to its target. */
  lemma AdditionalIsLeast(service: Service, request: Request, k: nat)
    requires service.replicas.Some?
    ensures service.replicas.value + k >= request.targetReplicas <==> k >= Additional(service, request)
  {
  }

  /**
   How many tasks run while `remaining` of `target` replicas are replaced: batch by batch, each
   started before the ones it replaces are stopped. No parallelism means one batch.
   */
  ghost function StartFirstTotals(target: nat, remaining: nat, parallelism: nat): seq<nat>
    decreases remaining
  {
    if remaining == 0 then [target]
    else
      var batch := if parallelism == 0 then remaining else Min(parallelism, remaining);
      [target, target + batch] + StartFirstTotals(target, remaining - batch, parallelism)
  }

  lemma {:induction false} TotalsStayBelow(target: nat, remaining: nat, parallelism: nat, batch: nat)
    requires remaining <= batch || (parallelism != 0 && parallelism <= batch)
    ensures forall i :: 0 <= i < |StartFirstTotals(target, remaining, parallelism)| ==>
              StartFirstTotals(target, remaining, parallelism)[i] <= target + batch
    decreases remaining
  {
    if remaining == 0 {
    } else {
      var size := if parallelism == 0 then remaining else Min(parallelism, remaining);
      TotalsStayBelow(target, remaining - size, parallelism, batch);
    }
  }

  /**
   The overlap is the largest number of tasks above the target at any moment of the update it is
   asked for; an update that stops tasks first needs no room of its own.
   */
  lemma OverlapIsPeak(service: Service, request: Request)
    ensures !request.includeOverlap || !service.startFirst ==> OverlapReplicas(service, request) == 0
    ensures request.includeOverlap && service.startFirst ==>
              var totals := StartFirstTotals(request.targetReplicas, request.targetReplicas, service.parallelism);
              var peak := request.targetReplicas + OverlapReplicas(service, request);
              peak in totals && forall i :: 0 <= i < |totals| ==> totals[i] <= peak
  {
    var target, parallelism := request.targetReplicas, service.parallelism;
    if request.includeOverlap && service.startFirst {
      TotalsStayBelow(target, target, parallelism, OverlapReplicas(service, request));
      var totals := StartFirstTotals(target, target, parallelism);
      if target == 0 {
        assert totals[0] == target;
      } else {
        assert totals[1] == target + OverlapReplicas(service, request);
      }
    }
  }

  function Sum(slots: seq<Slot>): nat {
    if slots == [] then 0 else Sum(slots[..|slots| - 1]) + slots[|slots| - 1].additional
  }

  function Eligible(nodes: seq<Node>): seq<Node> {
    if nodes == [] then []
    else if nodes[|nodes| - 1].eligible then Eligible(nodes[..|nodes| - 1]) + [nodes[|nodes| - 1]]
    else Eligible(nodes[..|nodes| - 1])
  }

  ghost predicate SlotExact(service: Service, tasks: seq<Task>, node: Node, slot: Slot, required: uint64) {
    && slot.node == node.id && slot.additional <= required
    && (forall k: nat :: k <= required ==> (k <= slot.additional <==> Fits(service, tasks, node, k)))
  }

  /** One exact slot per eligible node, in order. */
  ghost predicate SlotsExact(service: Service, tasks: seq<Task>, nodes: seq<Node>, slots: seq<Slot>, required: uint64) {
    |slots| == |Eligible(nodes)| && forall i :: 0 <= i < |slots| ==>
      SlotExact(service, tasks, Eligible(nodes)[i], slots[i], required)
  }

  method EvaluateNode(service: Service, ghost tasks: seq<Task>, node: Node, u: Usage, required: uint64)
    returns (slot: Slot)
    requires SaneService(service) && SaneTasks(tasks) && node.total.cpu >= 0 && node.total.memory >= 0
    requires Records(u, tasks, node.id)
    ensures SlotExact(service, tasks, node, slot, required)
  {
    UsedIsPositive(tasks, node.id);
    var available := Available(node, u);
    var additional := NodeSlots(service, available, u.tasks, required);
    slot := Slot(node.id, available, u.tasks, additional);
    forall k: nat | k <= required ensures k <= additional <==> Fits(service, tasks, node, k) {
      NodeSlotsExact(service, tasks, node, u, required, k);
    }
  }

  /** The node loop: exact slots, and their sum cut off at the required number on every step. */
  method EvaluateNodes(service: Service, tasks: seq<Task>, nodes: seq<Node>,
      required: uint64) returns (slots: seq<Slot>, schedulable: uint64)
    requires SaneService(service) && SaneTasks(tasks) && SaneNodes(nodes)
    ensures SlotsExact(service, tasks, nodes, slots, required)
    ensures schedulable as int == Min(required, Sum(slots))
  {
    var usage := CapacityUsage(tasks);
    slots, schedulable := [], 0;
    for i := 0 to |nodes|
      invariant SlotsExact(service, tasks, nodes[..i], slots, required)
      invariant schedulable as int == Min(required, Sum(slots))
    {
      var node := nodes[i];
      assert nodes[..i + 1][..i] == nodes[..i];
      if node.eligible {
        var slot := EvaluateNode(service, tasks, node, Lookup(usage, node.id), required);
        assert (slots + [slot])[..|slots|] == slots;
        slots := slots + [slot];
        schedulable := SaturatingAdd(schedulable, slot.additional);
        if schedulable > required {
          schedulable := required;
        }
      }
    }
    assert nodes[..|nodes|] == nodes;
  }

  predicate HasReservation(service: Service) {
    service.reservation.cpu != 0 || service.reservation.memory != 0
  }

  /** A shortage is reported as one: nothing unknown constrains the placement, and something known limits it. */
  predicate Decidable(service: Service) {
    !service.unsupportedConstraint && !service.genericReservation && (HasReservation(service) || service.maxPerNode > 0)
  }

  /** What a response says about a replicated service. */
  ghost predicate Evaluated(service: Service, tasks: seq<Task>, nodes: seq<Node>, request: Request, r: Response)
    requires service.replicas.Some?
  {
    && r.required as int == Min(Additional(service, request) + OverlapReplicas(service, request), MAX_UINT64)
    && r.schedulable + r.unplaced == r.required
    && (r.required == 0 ==> r.status == Sufficient)
    && (r.required > 0 ==>
          && SlotsExact(service, tasks, nodes, r.slots, r.required)
          && r.schedulable as int == Min(r.required, Sum(r.slots))
          && (r.status == Sufficient <==>
                r.unplaced == 0 && !service.unsupportedConstraint && !service.genericReservation &&
                  HasReservation(service))
          && (r.status == Insufficient ==> r.unplaced > 0)
          && (r.unplaced > 0 && Decidable(service) ==> r.status == Insufficient))
  }

  method Evaluate(service: Service, tasks: seq<Task>, nodes: seq<Node>, request: Request) returns (r: Response)
    requires SaneService(service) && SaneTasks(tasks) && SaneNodes(nodes)
    ensures service.replicas.Some? ==> Evaluated(service, tasks, nodes, request, r)
    ensures service.replicas.None? ==> r == Response(Unknown, 0, 0, 0, [])
  {
    r := Response(Unknown, 0, 0, 0, []);
    if service.replicas.None? {
      return;
    }
    r := r.(required := SaturatingAdd(Additional(service, request), OverlapReplicas(service, request)));
    if r.required == 0 {
      return r.(status := Sufficient);
    }
    var slots, schedulable := EvaluateNodes(service, tasks, nodes, r.required);
    r := r.(slots := slots, schedulable := schedulable);
    if |slots| == 0 {
      return r.(status := Insufficient, unplaced := r.required);
    }
    r := r.(unplaced := if schedulable >= r.required then 0 else r.required - schedulable);
    if service.unsupportedConstraint || service.genericReservation {
      return r;
    }
    if service.reservation.cpu == 0 && service.reservation.memory == 0 {
      if service.maxPerNode > 0 && schedulable < r.required {
        return r.(status := Insufficient);
      }
      return r;
    }
    return r.(status := if r.unplaced > 0 then Insufficient else Sufficient);
  }
}
