/**
 The capacity verdict is exact: SUFFICIENT means the required replicas can be
 assigned to eligible nodes, INSUFFICIENT means they cannot.
 */
module Placement {
  import opened Capacity

  /** Where each additional replica goes. */
  type Assignment = seq<string>

  ghost function Count(p: Assignment, node: string): nat {
    if p == [] then 0 else Count(p[..|p| - 1], node) + if p[|p| - 1] == node then 1 else 0
  }

  /** Every replica goes to an eligible node, and every eligible node can take its share. */
  ghost predicate CanPlace(service: Service, tasks: seq<Task>, nodes: seq<Node>, p: Assignment) {
    && (forall i :: 0 <= i < |p| ==> p[i] in Ids(Eligible(nodes)))
    && (forall i :: 0 <= i < |Eligible(nodes)| ==>
          Fits(service, tasks, Eligible(nodes)[i], Count(p, Eligible(nodes)[i].id)))
  }

  ghost function Ids(nodes: seq<Node>): (r: seq<string>)
    ensures |r| == |nodes| && forall i :: 0 <= i < |nodes| ==> r[i] == nodes[i].id
  {
    seq(|nodes|, i requires 0 <= i < |nodes| => nodes[i].id)
  }

  ghost predicate Distinct(ids: seq<string>) {
    forall i, j :: 0 <= i < j < |ids| ==> ids[i] != ids[j]
  }

  lemma EligibleAreNodes(nodes: seq<Node>)
    ensures forall i :: 0 <= i < |Eligible(nodes)| ==> Eligible(nodes)[i] in nodes
  {
    if nodes == [] {
    } else {
      EligibleAreNodes(nodes[..|nodes| - 1]);
    }
  }

  lemma EligibleIdsDistinct(nodes: seq<Node>)
    requires SaneNodes(nodes)
    ensures Distinct(Ids(Eligible(nodes)))
  {
    if nodes == [] {
    } else {
      var front := nodes[..|nodes| - 1];
      EligibleIdsDistinct(front);
      EligibleAreNodes(front);
    }
  }

  // ----- counting -----

  ghost function Total(p: Assignment, ids: seq<string>): nat {
    if ids == [] then 0 else Total(p, ids[..|ids| - 1]) + Count(p, ids[|ids| - 1])
  }

  lemma CountNone(p: Assignment, ids: seq<string>)
    requires p == []
    ensures Total(p, ids) == 0
  {
    if ids == [] {
    } else {
      CountNone(p, ids[..|ids| - 1]);
    }
  }

  /** One more replica raises the total by one exactly when its node is among the counted ones. */
  lemma {:induction false} TotalSnoc(p: Assignment, x: string, ids: seq<string>)
    requires Distinct(ids)
    ensures Total(p + [x], ids) == Total(p, ids) + if x in ids then 1 else 0
    decreases |ids|
  {
    if ids == [] {
    } else {
      var front := ids[..|ids| - 1];
      assert ids == front + [ids[|ids| - 1]];
      TotalSnoc(p, x, front);
      assert (p + [x])[..|p|] == p;
    }
  }

  /** Counting per node loses no replica and counts none twice. */
  lemma {:induction false} TotalIsLength(p: Assignment, ids: seq<string>)
    requires Distinct(ids) && forall i :: 0 <= i < |p| ==> p[i] in ids
    ensures Total(p, ids) == |p|
    decreases |p|
  {
    if p == [] {
      CountNone(p, ids);
    } else {
      var front := p[..|p| - 1];
      assert p == front + [p[|p| - 1]];
      TotalIsLength(front, ids);
      TotalSnoc(front, p[|p| - 1], ids);
    }
  }

  lemma CountAtMost(p: Assignment, node: string)
    ensures Count(p, node) <= |p|
  {
    if p == [] {
    } else {
      CountAtMost(p[..|p| - 1], node);
    }
  }

  // ----- INSUFFICIENT: no assignment -----

  /** No assignment places more on the first nodes than their slots allow together. */
  lemma {:induction false} TotalWithinSlots(service: Service, tasks: seq<Task>, nodes: seq<Node>, slots: seq<Slot>,
      required: uint64, p: Assignment, m: nat)
    requires SlotsExact(service, tasks, nodes, slots, required) && CanPlace(service, tasks, nodes, p) && |p| <= required
    requires m <= |slots|
    ensures Total(p, Ids(Eligible(nodes))[..m]) <= Sum(slots[..m])
    decreases m
  {
    if m == 0 {
    } else {
      var ids := Ids(Eligible(nodes));
      assert ids[..m][..m - 1] == ids[..m - 1] && slots[..m][..m - 1] == slots[..m - 1];
      TotalWithinSlots(service, tasks, nodes, slots, required, p, m - 1);
      var k := Count(p, ids[m - 1]);
      CountAtMost(p, ids[m - 1]);
      assert SlotExact(service, tasks, Eligible(nodes)[m - 1], slots[m - 1], required);
      assert Fits(service, tasks, Eligible(nodes)[m - 1], k);
    }
  }

  // ----- SUFFICIENT: an assignment -----

  ghost function Repeat(node: string, k: nat): Assignment {
    if k == 0 then [] else Repeat(node, k - 1) + [node]
  }

  lemma {:induction false} RepeatIs(node: string, k: nat)
    ensures |Repeat(node, k)| == k && forall i :: 0 <= i < k ==> Repeat(node, k)[i] == node
  {
    if k == 0 {
    } else {
      RepeatIs(node, k - 1);
    }
  }

  lemma CountSnoc(p: Assignment, x: string, node: string)
    ensures Count(p + [x], node) == Count(p, node) + if x == node then 1 else 0
  {
    assert (p + [x])[..|p|] == p;
  }

  lemma {:induction false} RepeatCounts(p: Assignment, node: string, k: nat, other: string)
    ensures Count(p + Repeat(node, k), other) == Count(p, other) + if other == node then k else 0
    decreases k
  {
    if k == 0 {
      assert p + Repeat(node, 0) == p;
    } else {
      RepeatCounts(p, node, k - 1, other);
      var r := Repeat(node, k - 1);
      CountSnoc(p + r, node, other);
      assert p + (r + [node]) == (p + r) + [node];
    }
  }

  /** Filling the first nodes one after the other, each up to its slots, until `wanted` replicas are placed. */
  ghost predicate Filled(service: Service, tasks: seq<Task>, nodes: seq<Node>, p: Assignment, m: nat) {
    && m <= |Eligible(nodes)|
    && (forall i :: 0 <= i < |p| ==> p[i] in Ids(Eligible(nodes))[..m])
    && (forall i :: 0 <= i < m ==> Fits(service, tasks, Eligible(nodes)[i], Count(p, Eligible(nodes)[i].id)))
  }

  lemma CountAbsent(p: Assignment, node: string)
    requires node !in p
    ensures Count(p, node) == 0
  {
    if p == [] {
    } else {
      CountAbsent(p[..|p| - 1], node);
    }
  }

  lemma {:induction false} Fill(service: Service, tasks: seq<Task>, nodes: seq<Node>, slots: seq<Slot>,
      required: uint64, wanted: nat, m: nat)
    returns (p: Assignment)
    requires SlotsExact(service, tasks, nodes, slots, required) && Distinct(Ids(Eligible(nodes)))
    requires m <= |slots| && wanted <= required && wanted <= Sum(slots[..m])
    ensures |p| == wanted && Filled(service, tasks, nodes, p, m)
    decreases m
  {
    if m == 0 {
      p := [];
    } else {
      assert slots[..m][..m - 1] == slots[..m - 1];
      var here := slots[m - 1].additional as int;
      var k: nat := if wanted < here then wanted else here;
      var left := if wanted - k <= Sum(slots[..m - 1]) then wanted - k else 0;
      var before := Fill(service, tasks, nodes, slots, required, left, m - 1);
      var node := Eligible(nodes)[m - 1];
      p := before + Repeat(node.id, k);
      assert SlotExact(service, tasks, node, slots[m - 1], required);
      OneMoreFilled(service, tasks, nodes, before, k, m);
    }
  }

  lemma OneMoreFilled(service: Service, tasks: seq<Task>, nodes: seq<Node>, before: Assignment, k: nat, m: nat)
    requires 0 < m <= |Eligible(nodes)| && Distinct(Ids(Eligible(nodes)))
    requires Filled(service, tasks, nodes, before, m - 1) && Fits(service, tasks, Eligible(nodes)[m - 1], k)
    ensures Filled(service, tasks, nodes, before + Repeat(Eligible(nodes)[m - 1].id, k), m)
    ensures |before + Repeat(Eligible(nodes)[m - 1].id, k)| == |before| + k
  {
    var ids := Ids(Eligible(nodes));
    var node := Eligible(nodes)[m - 1];
    var p := before + Repeat(node.id, k);
    RepeatIs(node.id, k);
    assert ids[m - 1] == node.id && ids[..m][m - 1] == node.id;
    assert ids[..m - 1] == ids[..m][..m - 1];
    CountAbsent(before, node.id);
    forall i | 0 <= i < m ensures Fits(service, tasks, Eligible(nodes)[i], Count(p, Eligible(nodes)[i].id)) {
      RepeatCounts(before, node.id, k, ids[i]);
      assert ids[i] == Eligible(nodes)[i].id;
    }
    forall i | 0 <= i < |p| ensures p[i] in ids[..m] {
      if i < |before| {
        assert before[i] in ids[..m - 1];
      }
    }
  }

  // ----- the verdict -----

  ghost predicate Placeable(service: Service, tasks: seq<Task>, nodes: seq<Node>, required: nat) {
    exists p: Assignment :: |p| == required && CanPlace(service, tasks, nodes, p)
  }

  /** The required replicas can be placed exactly when nothing is left unplaced. */
  lemma UnplacedIsExact(service: Service, tasks: seq<Task>, nodes: seq<Node>, slots: seq<Slot>, required: uint64)
    requires SaneNodes(nodes) && SlotsExact(service, tasks, nodes, slots, required)
    ensures Placeable(service, tasks, nodes, required) <==> Sum(slots) >= required
  {
    EligibleIdsDistinct(nodes);
    var ids := Ids(Eligible(nodes));
    assert slots[..|slots|] == slots && ids[..|slots|] == ids;
    if Sum(slots) >= required {
      var p := Fill(service, tasks, nodes, slots, required, required, |slots|);
      assert CanPlace(service, tasks, nodes, p);
    }
    if Placeable(service, tasks, nodes, required) {
      var p: Assignment :| |p| == required as int && CanPlace(service, tasks, nodes, p);
      TotalIsLength(p, ids);
      TotalWithinSlots(service, tasks, nodes, slots, required, p, |slots|);
    }
  }

  /**
   SUFFICIENT means that an assignment of all required replicas exists, INSUFFICIENT that none does,
   and for a service whose limits are all understood the verdict is one of the two.
   */
  lemma VerdictIsExact(service: Service, tasks: seq<Task>, nodes: seq<Node>, request: Request, r: Response)
    requires SaneService(service) && SaneTasks(tasks) && SaneNodes(nodes) && service.replicas.Some?
    requires Evaluated(service, tasks, nodes, request, r)
    ensures r.status == Sufficient ==> Placeable(service, tasks, nodes, r.required)
    ensures r.status == Insufficient ==> !Placeable(service, tasks, nodes, r.required)
    ensures r.required > 0 && HasReservation(service) && !service.unsupportedConstraint &&
              !service.genericReservation ==>
              (r.status == Sufficient <==> Placeable(service, tasks, nodes, r.required)) && r.status != Unknown
    ensures Additional(service, request) + OverlapReplicas(service, request) <= MAX_UINT64 <==>
              r.required as int == Additional(service, request) + OverlapReplicas(service, request)
  {
    if r.required == 0 {
      assert CanPlace(service, tasks, nodes, []) by {
        forall i | 0 <= i < |Eligible(nodes)|
          ensures Fits(service, tasks, Eligible(nodes)[i], Count([], Eligible(nodes)[i].id))
        {
        }
      }
    } else {
      UnplacedIsExact(service, tasks, nodes, r.slots, r.required);
    }
  }
}
