/**
 Planning and applying a service mutation while others write to the same
 service. `hash` is the spec fingerprint. Docker gives every accepted update a
 larger version, so a version names one spec for good.
 */
module ServiceMutations {
  import opened Basics

  /** A service spec; `rest` stands for everything no mutation edits. */
  datatype Spec = Spec(replicated: bool, replicas: Option<nat>, container: bool, image: string, forceUpdate: nat,
    rest: nat)

  datatype Service = Service(version: nat, spec: Spec, previous: Option<Spec>)

  datatype Mutation = Scale(replicas: nat) | Restart | SetImage(image: string, pinned: bool) | Rollback

  datatype Plan = Plan(version: nat, before: nat, target: nat)

  datatype Request = Request(mutation: Mutation, version: nat, before: nat, target: nat)

  datatype Failure = Conflict | Invalid | Unavailable

  datatype PlanResult = Planned(plan: Plan) | NotPlanned(failure: Failure)

  datatype MutationResult = Accepted(version: nat, target: nat) | Refused(failure: Failure)

  const FORCE_UPDATE_MODULUS := 0x1_0000_0000_0000_0000

  predicate Supported(spec: Spec) {
    spec.replicated && spec.container
  }

  /** The spec a mutation asks for, or `None` when the service does not allow it. */
  function Target(s: Service, m: Mutation): Option<Spec> {
    match m
    case Scale(replicas) => if s.spec.replicated then Some(s.spec.(replicas := Some(replicas))) else None
    case Restart => Some(s.spec.(forceUpdate := (s.spec.forceUpdate + 1) % FORCE_UPDATE_MODULUS))
    case SetImage(image, pinned) => if pinned && Supported(s.spec) then Some(s.spec.(image := image)) else None
    case Rollback => if s.previous.Some? && Supported(s.previous.value) then s.previous else None
  }

  /** A mutation changes the one field it is about; a rollback goes back to the previous spec. */
  ghost predicate Edits(s: Service, m: Mutation, after: Spec) {
    match m
    case Scale(replicas) => after.replicas == Some(replicas) && s.spec == after.(replicas := s.spec.replicas)
    case Restart =>
      after.forceUpdate != s.spec.forceUpdate && s.spec == after.(forceUpdate := s.spec.forceUpdate)
    case SetImage(image, _) => after.image == image && s.spec == after.(image := s.spec.image)
    case Rollback => s.previous == Some(after)
  }

  ghost predicate Allows(s: Service, m: Mutation) {
    match m
    case Scale(_) => s.spec.replicated
    case Restart => true
    case SetImage(_, pinned) => pinned && s.spec.replicated && s.spec.container
    case Rollback => s.previous.Some? && s.previous.value.replicated && s.previous.value.container
  }

  lemma TargetEdits(s: Service, m: Mutation)
    requires s.spec.forceUpdate < FORCE_UPDATE_MODULUS
    ensures Target(s, m).Some? <==> Allows(s, m)
    ensures Target(s, m).Some? ==> Edits(s, m, Target(s, m).value)
  {
    if m.Restart? {
      OneMoreDiffers(s.spec.forceUpdate, 1);
    }
  }

  lemma OneMoreDiffers(f: nat, k: nat)
    requires f < FORCE_UPDATE_MODULUS && 0 < k < FORCE_UPDATE_MODULUS
    ensures (f + k) % FORCE_UPDATE_MODULUS != f
  {
    if f + k < FORCE_UPDATE_MODULUS {
    } else {
      assert (f + k) % FORCE_UPDATE_MODULUS == f + k - FORCE_UPDATE_MODULUS;
    }
  }

  /** The service after `k` restarts in a row. */
  ghost function Restarted(s: Service, k: nat): Service {
    if k == 0 then s
    else
      var t := Restarted(s, k - 1);
      Service(t.version + 1, Target(t, Restart).value, Some(t.spec))
  }

  lemma {:induction false} RestartsCount(s: Service, k: nat)
    requires s.spec.forceUpdate < FORCE_UPDATE_MODULUS
    ensures Restarted(s, k).spec == s.spec.(forceUpdate := (s.spec.forceUpdate + k) % FORCE_UPDATE_MODULUS)
    decreases k
  {
    if k == 0 {
    } else {
      RestartsCount(s, k - 1);
      StepsOfOne(s.spec.forceUpdate + k - 1);
    }
  }

  lemma StepsOfOne(n: nat)
    ensures (n % FORCE_UPDATE_MODULUS + 1) % FORCE_UPDATE_MODULUS == (n + 1) % FORCE_UPDATE_MODULUS
  {
  }

  /** Every restart asks Docker for new tasks: no run of them shorter than the counter comes back to an earlier spec. */
  lemma RestartsAreNew(s: Service, k: nat)
    requires s.spec.forceUpdate < FORCE_UPDATE_MODULUS && 0 < k < FORCE_UPDATE_MODULUS
    ensures Restarted(s, k).spec != s.spec
  {
    RestartsCount(s, k);
    OneMoreDiffers(s.spec.forceUpdate, k);
  }

  /** A rollback undoes any mutation, as long as the spec from before is one that may be rolled back to. */
  lemma RollbackUndoes(s: Service, m: Mutation, t: Service)
    requires Target(s, m) == Some(t.spec) && t.previous == Some(s.spec)
    ensures Target(t, Rollback) == Some(s.spec) <==> s.spec.replicated && s.spec.container
    ensures Target(t, Rollback).Some? ==> Target(t, Rollback).value == s.spec
  {
  }

  ghost predicate Injective(hash: Spec -> nat) {
    forall a, b :: hash(a) == hash(b) ==> a == b
  }

  /** How Docker answered an update; an error that is not a version conflict may still have applied it. */
  datatype UpdateAnswer = Updated | Stale | Broken

  class Docker {
    const alone: bool      // nobody else writes
    const reliable: bool   // every call is answered
    var live: Service
    ghost var history: map<nat, Service>   // every version the service has had

    ghost predicate Valid()
      reads this
    {
      && live.version in history && history[live.version] == live
      && (forall v :: v in history ==> v <= live.version && history[v].version == v)
    }

    constructor(s: Service, alone: bool, reliable: bool)
      ensures Valid() && live == s && history == map[s.version := s]
      ensures this.alone == alone && this.reliable == reliable
    {
      this.alone, this.reliable := alone, reliable;
      live, history := s, map[s.version := s];
    }

    /** History only grows, and nothing is ever inserted below a version already reached. */
    twostate predicate Grown()
      reads this
    {
      && (forall v :: v in old(history) ==> v in history && history[v] == old(history)[v])
      && (forall v :: v in history && v !in old(history) ==> v > old(live).version)
      && old(live).version <= live.version
    }

    method Install(version: nat, spec: Spec)
      requires Valid() && version > live.version
      modifies this
      ensures Valid() && Grown()
      ensures live.version == version && live.spec == spec && history == old(history)[version := live]
    {
      var previous: Option<Spec> := *;
      live := Service(version, spec, previous);
      history := history[version := live];
    }

    /** Anybody else updates the service any number of times. */
    method Others()
      requires Valid()
      modifies this
      ensures Valid() && Grown()
      ensures alone ==> live == old(live)
    {
      var n: nat := *;
      if alone {
        n := 0;
      }
      while n > 0
        invariant Valid() && Grown()
        invariant alone ==> live == old(live) && n == 0
      {
        var next: nat, spec: Spec := *, *;
        Install(if next > live.version then next else live.version + 1, spec);
        n := n - 1;
      }
    }

    method Inspect() returns (s: Option<Service>)
      requires Valid()
      ensures s.Some? ==> s.value == live
      ensures reliable ==> s.Some?
    {
      var reachable: bool := *;
      return if reachable || reliable then Some(live) else None;
    }

    /** The version-checked update; `applied` says whether the service was changed. */
    method Update(expected: nat, spec: Spec) returns (answer: UpdateAnswer, ghost applied: bool)
      requires Valid()
      modifies this
      ensures Valid() && Grown()
      ensures answer == Updated ==> applied
      ensures answer == Stale ==> !applied && live.version != expected
      ensures applied ==> old(live).version == expected && live.version > expected && live.spec == spec
      ensures applied ==> history == old(history)[live.version := live]
      ensures !applied ==> live == old(live) && history == old(history)
      ensures reliable && old(live).version == expected ==> answer == Updated
    {
      applied := false;
      var failed, reached: bool := *, *;
      if reliable {
        failed := false;
      }
      if failed && !reached {
        return Broken, applied;
      }
      if live.version != expected {
        return Stale, applied;
      }
      var next: nat := *;
      Install(if next > live.version then next else live.version + 1, spec);
      applied := true;
      return if failed then Broken else Updated, applied;
    }

    // ----- the Agent -----

    /** Planning: what the mutation would make of the service as it is now. */
    method MakePlan(m: Mutation, expected: nat, hash: Spec -> nat) returns (r: PlanResult)
      requires Valid()
      modifies this
      ensures Valid() && Grown()
      ensures r.Planned? ==> r.plan.version == expected && PlannedOn(history, m, r.plan, hash)
      ensures r == NotPlanned(Conflict) ==> live.version != expected
      ensures r == NotPlanned(Invalid) ==> Target(live, m).None?
      ensures alone && reliable && old(live).version == expected && Target(old(live), m).Some? ==> r.Planned?
    {
      if m.SetImage? && !m.pinned {
        return NotPlanned(Invalid);
      }
      Others();
      var s := Inspect();
      if s.None? {
        return NotPlanned(Unavailable);
      }
      if s.value.version != expected {
        return NotPlanned(Conflict);
      }
      var target := Target(s.value, m);
      if target.None? {
        return NotPlanned(Invalid);
      }
      return Planned(Plan(s.value.version, hash(s.value.spec), hash(target.value)));
    }

    /**
     Applying: inspect, compare version and fingerprint, edit, compare the target fingerprint,
     update on condition of the version, inspect again; others write between any two of these.
     `result` is the version the update installed, if it was applied.
     */
    method Mutate(input: Request, hash: Spec -> nat, clusterOk: bool)
      returns (r: MutationResult, ghost result: Option<nat>)
      requires Valid()
      modifies this
      ensures Valid() && Grown()
      ensures r.Accepted? ==> result.Some? && r.version >= result.value && r.target == input.target
      ensures r.Refused? && r.failure != Unavailable ==> result.None?
      ensures result.Some? ==> AppliedOn(history, input, result.value, hash)
      ensures r == Refused(Conflict) ==>
                || live.version != input.version || hash(live.spec) != input.before
                || (Target(live, input.mutation).Some? && hash(Target(live, input.mutation).value) != input.target)
      ensures alone && reliable && clusterOk && Expects(old(live), input, hash) ==>
                r.Accepted? && result == Some(r.version)
      ensures r == Refused(Invalid) ==> live.version == input.version && Target(live, input.mutation).None?
    {
      result := None;
      Others();
      var s := Inspect();
      if s.None? {
        return Refused(Unavailable), result;
      }
      if s.value.version != input.version {
        return Refused(Conflict), result;
      }
      if hash(s.value.spec) != input.before {
        return Refused(Conflict), result;
      }
      var target := Target(s.value, input.mutation);
      if target.None? {
        return Refused(Invalid), result;
      }
      if hash(target.value) != input.target {
        return Refused(Conflict), result;
      }
      if !clusterOk {
        return Refused(Unavailable), result;
      }
      Others();
      assert history[s.value.version] == s.value;
      var answer;
      ghost var applied;
      answer, applied := Update(input.version, target.value);
      if applied {
        result := Some(live.version);
        assert AppliedOn(history, input, live.version, hash);
      }
      if answer == Stale {
        return Refused(Conflict), result;
      }
      if answer == Broken {
        return Refused(Unavailable), result;
      }
      Others();
      var after := Inspect();
      if after.None? {
        return Refused(Unavailable), result;
      }
      return Accepted(after.value.version, hash(target.value)), result;
    }
  }

  /** The service is still what the request was planned on. */
  ghost predicate Expects(s: Service, input: Request, hash: Spec -> nat) {
    && s.version == input.version && hash(s.spec) == input.before
    && Target(s, input.mutation).Some? && hash(Target(s, input.mutation).value) == input.target
  }

  /** A plan can be carried out for as long as nobody else has written. */
  lemma PlansAreExpected(history: map<nat, Service>, m: Mutation, plan: Plan, hash: Spec -> nat)
    requires PlannedOn(history, m, plan, hash) && history[plan.version].version == plan.version
    ensures Expects(history[plan.version], Request(m, plan.version, plan.before, plan.target), hash)
  {
  }

  /** The plan describes what the mutation makes of the version it names. */
  ghost predicate PlannedOn(history: map<nat, Service>, m: Mutation, plan: Plan, hash: Spec -> nat) {
    && plan.version in history
    && plan.before == hash(history[plan.version].spec)
    && Target(history[plan.version], m).Some? && plan.target == hash(Target(history[plan.version], m).value)
  }

  /**
   The mutation was applied to exactly the version it names: version `v` holds the edited spec of
   that version, and no version lies between the two, so nobody's update was lost.
   */
  ghost predicate AppliedOn(history: map<nat, Service>, input: Request, v: nat, hash: Spec -> nat) {
    && input.version in history && v in history && input.version < v
    && (forall w :: w in history ==> w <= input.version || v <= w)
    && hash(history[input.version].spec) == input.before
    && Target(history[input.version], input.mutation) == Some(history[v].spec)
    && hash(history[v].spec) == input.target
  }

  /**
   No lost update: an accepted request that carries a plan's version and fingerprints was applied to
   exactly the spec the plan was made on and produced exactly the planned target, even when
   the request names another mutation than the plan.
   */
  lemma PlannedIsApplied(history: map<nat, Service>, m: Mutation, plan: Plan, input: Request, v: nat, hash: Spec -> nat)
    requires Injective(hash) && PlannedOn(history, m, plan, hash) && AppliedOn(history, input, v, hash)
    requires input.version == plan.version && input.target == plan.target
    ensures history[v].spec == Target(history[plan.version], m).value
    ensures input.before == plan.before
  {
  }
}
