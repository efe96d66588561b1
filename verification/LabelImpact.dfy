/**
 The label-impact analysis against the constraint evaluator it protects: a
 service the analysis leaves out keeps its placement verdict for the node,
 except through the one key the analysis cannot name.
 */
module LabelImpact {
  import opened Basics
  import opened Text
  import opened Labels

  // ----- strings -----

  predicate Trimmed(s: string) {
    s == "" || (!Space(s[0]) && !Space(s[|s| - 1]))
  }

  lemma TrimLeftStarts(s: string)
    ensures TrimLeft(s) == "" || !Space(TrimLeft(s)[0])
  {
  }

  lemma TrimRightKeepsStart(s: string)
    ensures |TrimRight(s)| <= |s| && TrimRight(s) == s[..|TrimRight(s)|]
    ensures TrimRight(s) == "" || !Space(TrimRight(s)[|TrimRight(s)| - 1])
  {
    if s == "" || !Space(s[|s| - 1]) {
    } else {
      TrimRightKeepsStart(s[..|s| - 1]);
    }
  }

  lemma TrimTrims(s: string)
    ensures Trimmed(Trim(s))
  {
    TrimLeftStarts(s);
    TrimRightKeepsStart(TrimLeft(s));
  }

  lemma TrimmedStays(s: string)
    ensures Trim(s) == s <==> Trimmed(s)
  {
    if Trimmed(s) {
      assert TrimLeft(s) == s;
    } else {
      TrimTrims(s);
    }
  }

  lemma LowerKeepsSpace(a: char, b: char)
    requires Lower(a) == Lower(b)
    ensures Space(a) <==> Space(b)
  {
  }

  lemma FoldKeepsTrimmed(a: string, b: string)
    requires EqualFold(a, b)
    ensures |a| == |b| && (Trimmed(a) <==> Trimmed(b))
  {
    assert |LowerAll(a)| == |LowerAll(b)|;
    if a != "" {
      var k := |a| - 1;
      assert LowerAll(a)[0] == LowerAll(b)[0] && LowerAll(a)[k] == LowerAll(b)[k];
      LowerKeepsSpace(a[0], b[0]);
      LowerKeepsSpace(a[k], b[k]);
    }
  }

  /** The analysis and the evaluator recognise a label key by the same prefix. */
  lemma SamePrefix(key: string)
    ensures HasPrefix(LowerAll(key), LabelPrefix) <==>
              |LabelPrefix| <= |key| && EqualFold(key[..|LabelPrefix|], LabelPrefix)
  {
    assert LowerAll(LabelPrefix) == LabelPrefix;
    if |LabelPrefix| <= |key| {
      assert LowerAll(key)[..|LabelPrefix|] == LowerAll(key[..|LabelPrefix|]);
    }
  }

  // ----- one constraint -----

  /** What a constraint value can match in a label value: nothing, or one spelling up to case. */
  function Matchable(value: string): Option<string> {
    if value != "" && Trim(value) == value then Some(LowerAll(value)) else None
  }

  lemma MatchableDecides(value: string, wanted: string)
    requires wanted != "" && Trimmed(wanted)
    ensures EqualFold(value, wanted) <==> Matchable(value) == Some(LowerAll(wanted))
  {
    TrimmedStays(value);
    if EqualFold(value, wanted) {
      FoldKeepsTrimmed(value, wanted);
    }
  }

  function WithLabels(node: Node, labels: LabelMap): Node {
    node.(labels := labels)
  }

  lemma UnchangedGet(before: LabelMap, after: LabelMap, key: string)
    requires key !in Changed(before, after)
    ensures Get(before, key) == Get(after, key)
  {
  }

  /** A parsed constraint that names a label key is seen by the analysis under that key, unless the key is empty. */
  lemma AnalysisSeesKey(raw: string)
    requires Parse(raw).Some? && HasPrefix(LowerAll(Parse(raw).value.key), LabelPrefix)
    ensures var key := Parse(raw).value.key[|LabelPrefix|..];
            KeyFromConstraint(raw) == if key == "" then None else Some(key)
  {
    var key := Parse(raw).value.key;
    SamePrefix(key);
    TrimTrims(Split(raw).value.0);
    TrimmedStays(key);
  }

  lemma ParsedValue(raw: string)
    requires Parse(raw).Some?
    ensures Parse(raw).value.value != "" && Trimmed(Parse(raw).value.value)
  {
    TrimTrims(Split(raw).value.2);
  }

  lemma ConstraintKeepsVerdict(node: Node, before: LabelMap, after: LabelMap, raw: string)
    requires Parse(raw).Some? && !Names(KeyFromConstraint(raw), Changed(before, after))
    requires Matchable(Get(before, "")) == Matchable(Get(after, ""))
    ensures Matches(Parse(raw).value, WithLabels(node, before)) == Matches(Parse(raw).value, WithLabels(node, after))
  {
    var c := Parse(raw).value;
    if HasPrefix(LowerAll(c.key), LabelPrefix) {
      var key := c.key[|LabelPrefix|..];
      AnalysisSeesKey(raw);
      if key == "" {
        ParsedValue(raw);
        MatchableDecides(Get(before, ""), c.value);
        MatchableDecides(Get(after, ""), c.value);
      } else {
        UnchangedGet(before, after, key);
      }
      LabelKeyAttribute(c.key, WithLabels(node, before));
      LabelKeyAttribute(c.key, WithLabels(node, after));
    } else {
      OtherKeyAttribute(c.key, node, before, after);
    }
  }

  lemma LabelKeyAttribute(key: string, node: Node)
    requires HasPrefix(LowerAll(key), LabelPrefix)
    ensures Attribute(key, node) == Some(Get(node.labels, key[|LabelPrefix|..])) && LowerAll(key) != "node.ip"
  {
    var lower := LowerAll(key);
    assert lower[5] == LabelPrefix[5] == 'l';
  }

  lemma OtherKeyAttribute(key: string, node: Node, before: LabelMap, after: LabelMap)
    requires !HasPrefix(LowerAll(key), LabelPrefix)
    ensures Attribute(key, WithLabels(node, before)) == Attribute(key, WithLabels(node, after))
  {
  }

  // ----- a whole placement -----

  lemma {:induction false} AllKeepVerdict(node: Node, before: LabelMap, after: LabelMap, raws: seq<string>)
    requires forall i :: 0 <= i < |raws| ==> !Names(KeyFromConstraint(raws[i]), Changed(before, after))
    requires Matchable(Get(before, "")) == Matchable(Get(after, ""))
    ensures MatchesAll(ParseAll(raws), WithLabels(node, before)) == MatchesAll(ParseAll(raws), WithLabels(node, after))
    decreases |raws|
  {
    if raws == [] {
    } else {
      var front, last := raws[..|raws| - 1], raws[|raws| - 1];
      AllKeepVerdict(node, before, after, front);
      if Parse(last).Some? {
        ConstraintKeepsVerdict(node, before, after, last);
        MatchesSnoc(ParseAll(front), Parse(last).value, WithLabels(node, before));
        MatchesSnoc(ParseAll(front), Parse(last).value, WithLabels(node, after));
      }
    }
  }

  lemma MatchesSnoc(cs: seq<Constraint>, c: Constraint, node: Node)
    ensures MatchesAll(cs + [c], node) <==> MatchesAll(cs, node) && Matches(c, node)
  {
    if MatchesAll(cs + [c], node) {
      assert (cs + [c])[|cs|] == c;
      forall i | 0 <= i < |cs| ensures Matches(cs[i], node) {
        assert (cs + [c])[i] == cs[i];
      }
    }
  }

  /** Every service the analysis leaves out keeps its verdict for the node. */
  ghost predicate Sound(node: Node, before: LabelMap, after: LabelMap) {
    forall placement: Option<Placement> :: !References(placement, Changed(before, after)) ==>
      PlacementAllows(placement, WithLabels(node, before)) == PlacementAllows(placement, WithLabels(node, after))
  }

  lemma SoundIf(node: Node, before: LabelMap, after: LabelMap)
    requires Matchable(Get(before, "")) == Matchable(Get(after, ""))
    ensures Sound(node, before, after)
  {
    forall placement: Option<Placement> | !References(placement, Changed(before, after))
      ensures PlacementAllows(placement, WithLabels(node, before)) ==
                PlacementAllows(placement, WithLabels(node, after))
    {
      if placement.Some? {
        AllKeepVerdict(node, before, after, placement.value.constraints);
      }
    }
  }

  // ----- the empty key -----

  function EmptyKeyConstraint(value: string): string {
    LabelPrefix + "==" + value
  }

  lemma EmptyKeyParses(value: string)
    requires value != "" && Trimmed(value)
    ensures Parse(EmptyKeyConstraint(value)) == Some(Constraint(LabelPrefix, true, value))
    ensures KeyFromConstraint(EmptyKeyConstraint(value)) == None
  {
    var raw := EmptyKeyConstraint(value);
    FirstEquals(raw, 0);
    assert raw[..12] == LabelPrefix && raw[14..] == value;
    TrimmedStays(value);
    TrimmedStays(LabelPrefix);
    assert LowerAll(LabelPrefix) == LabelPrefix;
  }

  lemma {:induction false} FirstEquals(raw: string, i: nat)
    requires i <= 12 && 14 <= |raw| && raw[..12] == LabelPrefix && raw[12..14] == "=="
    ensures Find(raw, "==", i) == Some(12)
    decreases 12 - i
  {
    if i == 12 {
      assert OccursAt("==", raw, 12);
    } else {
      assert raw[i] == LabelPrefix[i] && raw[i] != '=';
      assert !OccursAt("==", raw, i) by {
        assert raw[i..i + 2][0] == raw[i];
      }
      FirstEquals(raw, i + 1);
    }
  }

  lemma EmptyKeyVerdict(node: Node, value: string)
    requires value != "" && Trimmed(value)
    ensures PlacementAllows(Some(Placement([EmptyKeyConstraint(value)], [])), node) <==>
              Matchable(Get(node.labels, "")) == Some(LowerAll(value))
  {
    var raw := EmptyKeyConstraint(value);
    var c := Constraint(LabelPrefix, true, value);
    EmptyKeyParses(value);
    ParseOne(raw);
    MatchesSnoc([], c, node);
    assert [] + [c] == [c];
    EmptyKeyMatches(node, value);
    MatchableDecides(Get(node.labels, ""), value);
  }

  lemma ParseOne(raw: string)
    ensures ParseAll([raw]) == if Parse(raw).Some? then [Parse(raw).value] else []
  {
    assert [raw][..0] == [];
    assert ParseAll([]) == [];
  }

  lemma EmptyKeyMatches(node: Node, value: string)
    ensures Matches(Constraint(LabelPrefix, true, value), node) <==> EqualFold(Get(node.labels, ""), value)
  {
    assert LowerAll(LabelPrefix) == LabelPrefix;
    LabelKeyAttribute(LabelPrefix, node);
    assert LabelPrefix[|LabelPrefix|..] == "";
  }

  lemma EmptyKeyUnreferenced(value: string, changed: set<string>)
    requires value != "" && Trimmed(value)
    ensures !References(Some(Placement([EmptyKeyConstraint(value)], [])), changed)
  {
    EmptyKeyParses(value);
  }

  /** A service constrained on the empty key is left out of the analysis although the change moves its verdict. */
  lemma EmptyKeyEscapes(node: Node, before: LabelMap, after: LabelMap, value: string)
    requires value != "" && Trimmed(value)
    requires (Matchable(Get(before, "")) == Some(LowerAll(value))) !=
             (Matchable(Get(after, "")) == Some(LowerAll(value)))
    ensures !Sound(node, before, after)
  {
    var placement := Some(Placement([EmptyKeyConstraint(value)], []));
    EmptyKeyUnreferenced(value, Changed(before, after));
    EmptyKeyVerdict(WithLabels(node, before), value);
    EmptyKeyVerdict(WithLabels(node, after), value);
    assert PlacementAllows(placement, WithLabels(node, before)) != PlacementAllows(placement, WithLabels(node, after));
  }

  /**
   The analysis protects every service exactly when the change does not alter what a constraint
   can match in the label with the empty key; a change over non-empty keys never does.
   */
  lemma SoundExactlyWhen(node: Node, before: LabelMap, after: LabelMap)
    ensures Sound(node, before, after) <==> Matchable(Get(before, "")) == Matchable(Get(after, ""))
    ensures "" !in Changed(before, after) ==> Sound(node, before, after)
  {
    if Matchable(Get(before, "")) == Matchable(Get(after, "")) {
      SoundIf(node, before, after);
    } else {
      var value := if Matchable(Get(before, "")).Some? then Get(before, "") else Get(after, "");
      TrimmedStays(value);
      EmptyKeyEscapes(node, before, after, value);
    }
    if "" !in Changed(before, after) {
      UnchangedGet(before, after, "");
    }
  }

  /** Adding the label "" = "x" lets a service constrained on it in, and the analysis reports nobody. */
  lemma EmptyKeyExample(node: Node)
    ensures Changed(map[], map["" := "x"]) == {""} && !Sound(node, map[], map["" := "x"])
  {
    assert Get(map["" := "x"], "") == "x" && Get(map[], "") == "";
    assert Trimmed("x");
    TrimmedStays("x");
    EmptyKeyEscapes(node, map[], map["" := "x"], "x");
  }
}
