/**
 Node labels and placement: how a constraint is parsed and evaluated against a
 node, and which services a label change is taken to affect. Case folding and
 white space are those of ASCII.
 */
module Labels {
  import opened Basics
  import opened Text

  type LabelMap = map<string, string>

  /**
   A node as constraints see it; `ipMatches(value)` is the verdict on an address or subnet, `None`
   when it is neither.
   */
  datatype Node = Node(
    id: string, hostname: string, role: string, os: string, arch: string,
    engineLabels: LabelMap, labels: LabelMap, hasIp: bool, ipMatches: string -> Option<bool>)

  datatype Placement = Placement(constraints: seq<string>, preferences: seq<Option<string>>)

  datatype Service = Service(id: string, placement: Option<Placement>)

  // ----- strings -----

  predicate Space(c: char) {
    c == ' ' || c == '\t' || c == '\n' || c == '\r' || c as int == 11 || c as int == 12
  }

  function TrimLeft(s: string): string {
    if s == "" || !Space(s[0]) then s else TrimLeft(s[1..])
  }

  function TrimRight(s: string): string {
    if s == "" || !Space(s[|s| - 1]) then s else TrimRight(s[..|s| - 1])
  }

  function Trim(s: string): string {
    TrimRight(TrimLeft(s))
  }

  /** Case-insensitive equality. */
  predicate EqualFold(a: string, b: string) {
    LowerAll(a) == LowerAll(b)
  }

  /** The first place `op` occurs at or after `i`. */
  function Find(s: string, op: string, i: nat): (r: Option<nat>)
    requires i <= |s|
    ensures r.Some? ==> i <= r.value && OccursAt(op, s, r.value)
    ensures forall j: nat :: i <= j && OccursAt(op, s, j) ==> r.Some? && r.value <= j
    decreases |s| - i
  {
    if i + |op| > |s| then None
    else if OccursAt(op, s, i) then Some(i)
    else if i == |s| then None
    else Find(s, op, i + 1)
  }

  // ----- constraints -----

  datatype Constraint = Constraint(key: string, equal: bool, value: string)

  /** The operator tried first is "==", wherever "!=" occurs. */
  function Split(raw: string): Option<(string, bool, string)> {
    var eq := Find(raw, "==", 0);
    if eq.Some? then Some((raw[..eq.value], true, raw[eq.value + 2..]))
    else
      var ne := Find(raw, "!=", 0);
      if ne.Some? then Some((raw[..ne.value], false, raw[ne.value + 2..])) else None
  }

  /** The raw constraint is cut at the first place `op` occurs. */
  ghost predicate CutAtFirst(raw: string, op: string, before: string, after: string) {
    raw == before + op + after && forall j: nat :: j < |before| ==> !OccursAt(op, raw, j)
  }

  ghost predicate Occurs(op: string, raw: string) {
    exists j: nat :: OccursAt(op, raw, j)
  }

  ghost predicate SplitsBy(raw: string, op: string, equal: bool) {
    var split := Split(raw);
    split.Some? && split.value.1 == equal && CutAtFirst(raw, op, split.value.0, split.value.2)
  }

  /** An equality wherever "==" occurs, else an inequality wherever "!=" does, cut at the first place; else nothing. */
  lemma SplitMeaning(raw: string)
    ensures Occurs("==", raw) ==> SplitsBy(raw, "==", true)
    ensures !Occurs("==", raw) && Occurs("!=", raw) ==> SplitsBy(raw, "!=", false)
    ensures !Occurs("==", raw) && !Occurs("!=", raw) ==> Split(raw).None?
  {
    var eq, ne := Find(raw, "==", 0), Find(raw, "!=", 0);
    if eq.Some? {
      assert OccursAt("==", raw, eq.value);
      assert raw == raw[..eq.value] + "==" + raw[eq.value + 2..];
    } else if ne.Some? {
      assert OccursAt("!=", raw, ne.value);
      assert raw == raw[..ne.value] + "!=" + raw[ne.value + 2..];
    }
  }

  const LabelPrefix := "node.labels."
  const EnginePrefix := "engine.labels."

  predicate HasPrefix(s: string, prefix: string) {
    |prefix| <= |s| && s[..|prefix|] == prefix
  }

  predicate SupportedKey(key: string) {
    var lower := LowerAll(key);
    lower in {"node.id", "node.hostname", "node.ip", "node.role", "node.platform.os", "node.platform.arch"} ||
    HasPrefix(lower, LabelPrefix) || HasPrefix(lower, EnginePrefix)
  }

  function Parse(raw: string): Option<Constraint> {
    var split := Split(raw);
    if split.None? then None
    else
      var key, value := Trim(split.value.0), Trim(split.value.2);
      if key == "" || value == "" || !SupportedKey(key) then None else Some(Constraint(key, split.value.1, value))
  }

  function Get(labels: LabelMap, key: string): string {
    if key in labels then labels[key] else ""
  }

  /** The attribute a key names; `None` for a key no node has. */
  function Attribute(key: string, node: Node): Option<string> {
    var lower := LowerAll(key);
    if lower == "node.id" then Some(node.id)
    else if lower == "node.hostname" then Some(node.hostname)
    else if lower == "node.role" then Some(node.role)
    else if lower == "node.platform.os" then Some(node.os)
    else if lower == "node.platform.arch" then Some(node.arch)
    else if HasPrefix(lower, LabelPrefix) then Some(Get(node.labels, key[|LabelPrefix|..]))
    else if HasPrefix(lower, EnginePrefix) then Some(Get(node.engineLabels, key[|EnginePrefix|..]))
    else None
  }

  predicate MatchesIp(c: Constraint, node: Node) {
    if !node.hasIp then !c.equal
    else if node.ipMatches(c.value).None? then false
    else node.ipMatches(c.value).value == c.equal
  }

  predicate Matches(c: Constraint, node: Node) {
    if LowerAll(c.key) == "node.ip" then MatchesIp(c, node)
    else
      var value := Attribute(c.key, node);
      value.Some? && (EqualFold(value.value, c.value) == c.equal)
  }

  /**
   The two operators are opposites: a node meets exactly one of a constraint and its negation,
   unless the value is no address and the node has one; then it meets neither.
   */
  lemma OperatorsAreOpposite(key: string, value: string, node: Node)
    requires SupportedKey(key)
    ensures (Matches(Constraint(key, true, value), node) <==> !Matches(Constraint(key, false, value), node)) <==>
              !(LowerAll(key) == "node.ip" && node.hasIp && node.ipMatches(value).None?)
    ensures !(Matches(Constraint(key, true, value), node) && Matches(Constraint(key, false, value), node))
  {
  }

  lemma LowerPrefix(prefix: string, rest: string)
    requires LowerAll(prefix) == prefix
    ensures HasPrefix(LowerAll(prefix + rest), prefix)
  {
    var lower := LowerAll(prefix + rest);
    assert forall i :: 0 <= i < |prefix| ==> lower[i] == Lower(prefix[i]) == LowerAll(prefix)[i];
    assert lower[..|prefix|] == prefix;
  }

  /**
   What an equality asks of a node: the label of that key, or of the engine, ignoring case; a
   missing one is empty.
   */
  lemma EqualityReadsLabel(key: string, value: string, node: Node)
    ensures Matches(Constraint(LabelPrefix + key, true, value), node) <==> EqualFold(Get(node.labels, key), value)
    ensures Matches(Constraint(EnginePrefix + key, true, value), node) <==>
              EqualFold(Get(node.engineLabels, key), value)
  {
    assert LowerAll(LabelPrefix) == LabelPrefix && LowerAll(EnginePrefix) == EnginePrefix;
    LowerPrefix(LabelPrefix, key);
    LowerPrefix(EnginePrefix, key);
    assert (LabelPrefix + key)[|LabelPrefix|..] == key && (EnginePrefix + key)[|EnginePrefix|..] == key;
    var lower, engine := LowerAll(LabelPrefix + key), LowerAll(EnginePrefix + key);
    assert lower[5] == 'l' && engine[0] == 'e';
    assert |lower| >= 12 && |engine| >= 14;
  }

  /** The five named attributes of a node, whatever the case of the key. */
  lemma EqualityReadsAttribute(key: string, value: string, node: Node)
    ensures EqualFold(key, "node.id") ==> (Matches(Constraint(key, true, value), node) <==> EqualFold(node.id, value))
    ensures EqualFold(key, "node.hostname") ==>
              (Matches(Constraint(key, true, value), node) <==> EqualFold(node.hostname, value))
    ensures EqualFold(key, "node.role") ==>
              (Matches(Constraint(key, true, value), node) <==> EqualFold(node.role, value))
    ensures EqualFold(key, "node.platform.os") ==>
              (Matches(Constraint(key, true, value), node) <==> EqualFold(node.os, value))
    ensures EqualFold(key, "node.platform.arch") ==>
              (Matches(Constraint(key, true, value), node) <==> EqualFold(node.arch, value))
  {
    assert LowerAll("node.id") == "node.id" && LowerAll("node.hostname") == "node.hostname";
    assert LowerAll("node.role") == "node.role" && LowerAll("node.platform.os") == "node.platform.os";
    assert LowerAll("node.platform.arch") == "node.platform.arch";
  }

  /** The constraints that are understood; the others are reported, not evaluated. */
  function ParseAll(raws: seq<string>): seq<Constraint> {
    if raws == [] then []
    else
      var rest := ParseAll(raws[..|raws| - 1]);
      var last := Parse(raws[|raws| - 1]);
      if last.Some? then rest + [last.value] else rest
  }

  predicate MatchesAll(cs: seq<Constraint>, node: Node) {
    forall i :: 0 <= i < |cs| ==> Matches(cs[i], node)
  }

  predicate PlacementAllows(placement: Option<Placement>, node: Node) {
    placement.None? || MatchesAll(ParseAll(placement.value.constraints), node)
  }

  // ----- which services a label change affects -----

  function KeyFromDescriptor(raw: string): Option<string> {
    var value := Trim(raw);
    if |value| <= |LabelPrefix| || !EqualFold(value[..|LabelPrefix|], LabelPrefix) then None
    else Some(value[|LabelPrefix|..])
  }

  function KeyFromConstraint(raw: string): Option<string> {
    var split := Split(raw);
    if split.None? then None else KeyFromDescriptor(Trim(split.value.0))
  }

  ghost predicate References(placement: Option<Placement>, changed: set<string>) {
    placement.Some? &&
    (|| (exists i ::
           0 <= i < |placement.value.constraints| && Names(KeyFromConstraint(placement.value.constraints[i]), changed))
     || (exists i :: 0 <= i < |placement.value.preferences| && SpreadsBy(placement.value.preferences[i], changed)))
  }

  predicate Names(key: Option<string>, changed: set<string>) {
    key.Some? && key.value in changed
  }

  predicate SpreadsBy(preference: Option<string>, changed: set<string>) {
    preference.Some? && Names(KeyFromDescriptor(preference.value), changed)
  }

  method PlacementReferences(placement: Option<Placement>, changed: set<string>) returns (r: bool)
    ensures r <==> References(placement, changed)
  {
    if placement.None? || |changed| == 0 {
      return false;
    }
    var p := placement.value;
    for i := 0 to |p.constraints|
      invariant forall k :: 0 <= k < i ==> !Names(KeyFromConstraint(p.constraints[k]), changed)
    {
      var key := KeyFromConstraint(p.constraints[i]);
      if key.None? {
        continue;
      }
      if key.value in changed {
        return true;
      }
    }
    for i := 0 to |p.preferences|
      invariant forall k :: 0 <= k < i ==> !SpreadsBy(p.preferences[k], changed)
    {
      if p.preferences[i].None? {
        continue;
      }
      var key := KeyFromDescriptor(p.preferences[i].value);
      if key.None? {
        continue;
      }
      if key.value in changed {
        return true;
      }
    }
    return false;
  }

  /** Code point order, in which the IDs are sorted. */
  predicate Leq(a: string, b: string) {
    a == "" || (b != "" && (a[0] < b[0] || (a[0] == b[0] && Leq(a[1..], b[1..]))))
  }

  lemma {:induction false} LeqTotal(a: string, b: string)
    ensures Leq(a, b) || Leq(b, a)
    decreases |a|
  {
    if a == "" || b == "" {
    } else {
      LeqTotal(a[1..], b[1..]);
    }
  }

  lemma {:induction false} LeqTransitive(a: string, b: string, c: string)
    requires Leq(a, b) && Leq(b, c)
    ensures Leq(a, c)
    decreases |a|
  {
    if a == "" || a[0] < b[0] || b[0] < c[0] {
    } else {
      LeqTransitive(a[1..], b[1..], c[1..]);
    }
  }

  ghost predicate Ordered(ids: seq<string>) {
    forall i, j :: 0 <= i < j < |ids| ==> Leq(ids[i], ids[j])
  }

  method InsertOrdered(ids: seq<string>, id: string) returns (r: seq<string>)
    requires Ordered(ids)
    ensures Ordered(r) && multiset(r) == multiset(ids) + multiset{id}
  {
    var k := |ids|;
    while k > 0 && !Leq(ids[k - 1], id)
      invariant 0 <= k <= |ids|
      invariant forall i :: k <= i < |ids| ==> Leq(id, ids[i])
    {
      LeqTotal(ids[k - 1], id);
      k := k - 1;
    }
    forall i | 0 <= i < k ensures Leq(ids[i], id) {
      if i < k - 1 {
        LeqTransitive(ids[i], ids[k - 1], id);
      }
    }
    r := ids[..k] + [id] + ids[k..];
    assert ids == ids[..k] + ids[k..];
  }

  method SortStrings(ids: seq<string>) returns (r: seq<string>)
    ensures Ordered(r) && multiset(r) == multiset(ids)
  {
    r := [];
    for i := 0 to |ids|
      invariant Ordered(r) && multiset(r) == multiset(ids[..i])
    {
      r := InsertOrdered(r, ids[i]);
      assert ids[..i + 1] == ids[..i] + [ids[i]];
    }
    assert ids[..|ids|] == ids;
  }

  /** The IDs of the services a change of these labels may concern, one entry per service. */
  ghost function Referencing(services: seq<Service>, changed: set<string>): seq<string> {
    if services == [] then []
    else
      var k := |services| - 1;
      Referencing(services[..k], changed) + if References(services[k].placement, changed) then [services[k].id] else []
  }

  method AffectedServices(services: seq<Service>, changed: set<string>) returns (ids: seq<string>)
    ensures Ordered(ids) && multiset(ids) == multiset(Referencing(services, changed))
  {
    ids := [];
    for i := 0 to |services|
      invariant ids == Referencing(services[..i], changed)
    {
      var referenced := PlacementReferences(services[i].placement, changed);
      if referenced {
        ids := ids + [services[i].id];
      }
      assert services[..i + 1][..i] == services[..i];
    }
    assert services[..|services|] == services;
    ids := SortStrings(ids);
  }

  /** The keys a change adds, removes or gives another value. */
  ghost function Changed(before: LabelMap, after: LabelMap): set<string> {
    set k | k in before.Keys + after.Keys && !(k in before && k in after && before[k] == after[k])
  }

  method ChangedKeys(before: LabelMap, after: LabelMap) returns (changed: set<string>)
    ensures changed == Changed(before, after)
  {
    changed := {};
    var left := before.Keys;
    while left != {}
      invariant left <= before.Keys
      invariant changed == set k | k in before.Keys - left && !(k in after && before[k] == after[k])
      decreases left
    {
      var k :| k in left;
      if k !in after || before[k] != after[k] {
        changed := changed + {k};
      }
      left := left - {k};
    }
    left := after.Keys;
    while left != {}
      invariant left <= after.Keys
      invariant changed == (set k | k in before.Keys && !(k in after && before[k] == after[k])) +
                           (set k | k in after.Keys - left && !(k in before && before[k] == after[k]))
      decreases left
    {
      var k :| k in left;
      if k !in before || before[k] != after[k] {
        changed := changed + {k};
      }
      left := left - {k};
    }
  }

  /** The target labels of a patch: set first, then remove. */
  method PlanLabels(before: LabelMap, patch: LabelMap, remove: seq<string>) returns (labels: LabelMap)
    ensures forall k :: k in labels <==> (k in before || k in patch) && k !in remove
    ensures forall k :: k in labels ==> labels[k] == if k in patch then patch[k] else before[k]
  {
    labels := before;
    var left := patch.Keys;
    while left != {}
      invariant left <= patch.Keys
      invariant labels.Keys == before.Keys + (patch.Keys - left)
      invariant forall k :: k in labels ==> labels[k] == if k in patch.Keys - left then patch[k] else before[k]
      decreases left
    {
      var k :| k in left;
      labels := labels[k := patch[k]];
      left := left - {k};
    }
    for i := 0 to |remove|
      invariant forall k :: k in labels <==> (k in before || k in patch) && k !in remove[..i]
      invariant forall k :: k in labels ==> labels[k] == if k in patch then patch[k] else before[k]
    {
      labels := labels - {remove[i]};
    }
    assert remove[..|remove|] == remove;
  }
}
