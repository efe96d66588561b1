/**
 The polling loops that finish a deployment or a rollback. `Watch` asks the
 outside world for clock readings, service snapshots, placement answers and
 health probes and keeps a log of the answers; every result is a statement about
 that log, for every world.
 */
module Verification {
  import opened Basics
  import opened Convergence

  datatype Observation =
    | Clock(time: int)
    | Seen(snapshot: Option<Snapshot>)   // `None` when the Agent could not be asked
    | Placed(converged: bool)            // an unavailable answer counts as not converged
    | Allowed(ok: bool)                  // the first check of the endpoint, before any probe
    | Probed(ok: bool)                   // a probe checks the endpoint again; a refusal is a failed probe

  /** What the world answers to a question of each kind asked as number `t`. */
  datatype World = World(
    clock: nat -> int, look: nat -> Option<Snapshot>, placed: nat -> bool, allowed: nat -> bool, probe: nat -> bool)

  ghost predicate Answers(world: World, o: Observation, t: nat) {
    match o
    case Clock(time) => time == world.clock(t)
    case Seen(snapshot) => snapshot == world.look(t)
    case Placed(converged) => converged == world.placed(t)
    case Allowed(ok) => ok == world.allowed(t)
    case Probed(ok) => ok == world.probe(t)
  }

  /** Every look finds the service converged and placed, and its endpoint allowed and healthy. */
  ghost predicate AllWell(world: World, classify: Snapshot -> Decision) {
    forall t: nat ::
      && world.look(t).Some? && classify(world.look(t).value) == Success
      && world.placed(t) && world.allowed(t) && world.probe(t)
  }

  /** From question number `passes(time)` on, the clock shows at least `time`. */
  ghost predicate Ticks(world: World, passes: int -> nat) {
    forall time, t: nat :: t >= passes(time) ==> world.clock(t) >= time
  }

  type Log = seq<Observation>

  datatype Health = Health(window: int, retries: nat, timeout: int, interval: int)

  datatype Verdict = Judged(decision: Decision) | Unavailable

  datatype HealthResult = Stable | Unhealthy | Stopped(verdict: Verdict)

  datatype Outcome =
    | Succeeded | ConvergenceFailed | HealthFailed | Conflict | PausedRollback
    | TimedOut(unavailable: bool)

  const VERIFY_TIMEOUT := 30_000

  // ----- what the results are about -----

  /** Entry `i` is a snapshot judged a success, and its placement was confirmed next. */
  ghost predicate ConvergedAt(log: Log, i: nat, classify: Snapshot -> Decision) {
    && i + 1 < |log|
    && log[i].Seen? && log[i].snapshot.Some? && classify(log[i].snapshot.value) == Success
    && log[i + 1] == Placed(true)
  }

  /** Every snapshot looked at since `from` had converged. */
  ghost predicate AllConverged(log: Log, from: nat, classify: Snapshot -> Decision) {
    forall i :: from <= i < |log| && log[i].Seen? ==> ConvergedAt(log, i, classify)
  }

  /** The number of failed probes since `from`. */
  ghost function Failures(log: Log, from: nat): nat
    decreases |log|
  {
    if |log| <= from then 0
    else Failures(log[..|log| - 1], from) + (if log[|log| - 1] == Probed(false) then 1 else 0)
  }

  /** A good probe at `first`, a later reading `since` of the clock at `c`, and no failed probe from then on. */
  ghost predicate StreakBegan(log: Log, from: nat, since: int, first: nat, c: nat) {
    && from <= first < c < |log|
    && log[first] == Probed(true) && log[c] == Clock(since)
    && (forall i :: first <= i < |log| ==> log[i] != Probed(false))
  }

  ghost predicate StableSince(log: Log, from: nat, since: int) {
    exists first: nat, c: nat :: StreakBegan(log, from, since, first, c)
  }

  /**
   Since `from`: a run of probes without a failure, spanned by two clock readings that lie at
   least the window apart, and no more failed probes than allowed before it.
   */
  ghost predicate StableRun(log: Log, from: nat, health: Health) {
    && Failures(log, from) <= health.retries
    && exists first: nat, c: nat, d: nat :: SpansWindow(log, from, health, first, c, d)
  }

  ghost predicate SpansWindow(log: Log, from: nat, health: Health, first: nat, c: nat, d: nat) {
    && c <= d < |log| && log[c].Clock? && log[d].Clock? && log[d].time - log[c].time >= health.window
    && StreakBegan(log, from, log[c].time, first, c)
  }

  function HealthDeadline(start: int, health: Health): int {
    start + health.window + (health.retries + 1) * (health.timeout + health.interval)
  }

  /** The health run begun at entry `from` was refused its endpoint, and nothing else was asked. */
  ghost predicate RefusedRun(log: Log, from: nat) {
    |log| == from + 1 && log[from] == Allowed(false)
  }

  /** The endpoint failed too often, or the clock passed the deadline counted from the first reading. */
  ghost predicate ExhaustedRun(log: Log, from: nat, health: Health) {
    && from + 2 < |log| && log[from + 1].Clock?
    && var last := log[|log| - 1];
       || Failures(log, from) > health.retries
       || (last.Clock? && last.time >= log[from + 1].time + health.window +
                                       (health.retries + 1) * (health.timeout + health.interval))
  }

  /** Why a service counts as unhealthy: its endpoint was refused, or was allowed and then failed. */
  ghost predicate UnhealthyRun(log: Log, from: nat, health: Health) {
    RefusedRun(log, from) || (from < |log| && log[from] == Allowed(true) && ExhaustedRun(log, from, health))
  }

  /**
   A health failure rests on too many failed probes or on the deadline exactly when the endpoint
   passed its first check: the allowed retries do not cover that check.
   */
  lemma RetriesCoverProbes(log: Log, from: nat, health: Health)
    requires UnhealthyRun(log, from, health)
    ensures ExhaustedRun(log, from, health) <==> log[from] == Allowed(true)
    ensures !ExhaustedRun(log, from, health) ==> Failures(log, from) == 0
  {
    if RefusedRun(log, from) {
      FailuresSnoc(log[..from], from, log[from]);
      NoFailuresYet(log[..from], from);
      assert log == log[..from] + [log[from]];
    }
  }

  /** The last snapshot seen was judged this way; a success whose placement is not confirmed counts as pending. */
  ghost predicate LastJudged(log: Log, classify: Snapshot -> Decision, decision: Decision) {
    || (|log| >= 1 && JudgedAs(log[|log| - 1], classify, decision))
    || (|log| >= 2 && JudgedAs(log[|log| - 2], classify, Success) &&
        log[|log| - 1] == Placed(decision == Success) && decision in {Success, Pending})
  }

  predicate JudgedAs(o: Observation, classify: Snapshot -> Decision, decision: Decision) {
    o.Seen? && o.snapshot.Some? && classify(o.snapshot.value) == decision
  }

  /** The snapshot ends the observation whatever else happens: a failure, a conflict or a halted rollback. */
  ghost predicate Decisive(o: Observation, classify: Snapshot -> Decision) {
    o.Seen? && o.snapshot.Some? && classify(o.snapshot.value) in {Failed, ExternalConflict, RollbackIsPaused}
  }

  /** Nothing but pending snapshots since `from`. */
  ghost predicate AllPending(log: Log, from: nat, classify: Snapshot -> Decision) {
    forall i :: from <= i < |log| && log[i].Seen? && log[i].snapshot.Some? ==> JudgedAs(log[i], classify, Pending)
  }

  ghost predicate Undecided(log: Log, from: nat, classify: Snapshot -> Decision) {
    forall i :: from <= i < |log| ==> !Decisive(log[i], classify)
  }

  /** Since `from` no snapshot was decisive, except the last observation when `decided`. */
  ghost predicate Settled(log: Log, from: nat, classify: Snapshot -> Decision, decided: bool) {
    if decided then
      && |log| > from && Decisive(log[|log| - 1], classify)
      && (forall i :: from <= i < |log| - 1 ==> !Decisive(log[i], classify))
    else Undecided(log, from, classify)
  }

  /** The outcomes that a decisive snapshot leads to. */
  predicate Given(outcome: Outcome) {
    outcome in {ConvergenceFailed, Conflict, PausedRollback}
  }

  predicate Halts(result: HealthResult) {
    result.Stopped? && Stops(result.verdict)
  }

  predicate Stops(verdict: Verdict) {
    verdict.Judged? && verdict.decision in {Failed, ExternalConflict, RollbackIsPaused}
  }

  lemma SettledLater(before: Log, log: Log, from: nat, classify: Snapshot -> Decision, decided: bool)
    requires before <= log && from <= |before| && Undecided(before, from, classify)
    requires Settled(log, |before|, classify, decided)
    ensures Settled(log, from, classify, decided)
  {
    forall i | from <= i < |before| ensures !Decisive(log[i], classify) {
      assert log[i] == before[i];
    }
  }

  /** The last snapshot asked for since `from` could not be had; false when none was asked for. */
  ghost predicate LookFailed(log: Log, from: nat)
    decreases |log|
  {
    && |log| > from
    && if log[|log| - 1].Seen? then log[|log| - 1].snapshot.None? else LookFailed(log[..|log| - 1], from)
  }

  /** At least one look was taken since entry `begin`, and `failed` says whether the last one failed. */
  ghost predicate LastLookIs(log: Log, begin: nat, failed: bool) {
    forall from: nat :: from <= begin ==> LookFailed(log, from) == failed
  }

  /** No endpoint was refused since entry `from`. */
  ghost predicate NoRefusal(log: Log, from: nat) {
    forall i :: from <= i < |log| ==> log[i] != Allowed(false)
  }

  // ----- growing logs -----

  lemma LookSnoc(log: Log, o: Observation, from: nat)
    requires from <= |log|
    ensures LookFailed(log + [o], from) == if o.Seen? then o.snapshot.None? else LookFailed(log, from)
  {
    assert (log + [o])[..|log|] == log;
  }

  lemma LastLookSnoc(log: Log, begin: nat, failed: bool, o: Observation)
    requires begin <= |log| && (o.Seen? ==> failed == o.snapshot.None?) && (!o.Seen? ==> LastLookIs(log, begin, failed))
    ensures LastLookIs(log + [o], begin, failed)
  {
    forall from: nat | from <= begin ensures LookFailed(log + [o], from) == failed {
      LookSnoc(log, o, from);
    }
  }

  lemma FailuresSnoc(log: Log, from: nat, o: Observation)
    ensures Failures(log + [o], from) == Failures(log, from) + if o == Probed(false) && from <= |log| then 1 else 0
  {
    assert (log + [o])[..|log|] == log;
    if |log| < from {
      NoFailuresYet(log, from);
      NoFailuresYet(log + [o], from);
    }
  }

  lemma NoFailuresYet(log: Log, from: nat)
    requires |log| <= from
    ensures Failures(log, from) == 0
  {
  }

  lemma StreakSnoc(log: Log, from: nat, since: int, o: Observation)
    requires StableSince(log, from, since) && o != Probed(false)
    ensures StableSince(log + [o], from, since)
  {
    var first: nat, c: nat :| StreakBegan(log, from, since, first, c);
    assert StreakBegan(log + [o], from, since, first, c);
  }

  lemma ConvergedSnoc(log: Log, from: nat, classify: Snapshot -> Decision, o: Observation)
    requires AllConverged(log, from, classify) && !o.Seen?
    ensures AllConverged(log + [o], from, classify)
  {
    forall i | from <= i < |log + [o]| && (log + [o])[i].Seen? ensures ConvergedAt(log + [o], i, classify) {
      assert ConvergedAt(log, i, classify);
    }
  }

  lemma ConvergedTwice(log: Log, from: nat, classify: Snapshot -> Decision, o: Observation)
    requires AllConverged(log, from, classify) && JudgedAs(o, classify, Success)
    ensures AllConverged(log + [o] + [Placed(true)], from, classify)
  {
    var longer := log + [o] + [Placed(true)];
    forall i | from <= i < |longer| && longer[i].Seen? ensures ConvergedAt(longer, i, classify) {
      if i < |log| {
        assert longer[i] == log[i];
        assert ConvergedAt(log, i, classify);
        assert longer[i + 1] == log[i + 1];
      }
    }
  }

  /** Everything a health run carries along: how far it has failed, converged and been stable. */
  ghost predicate Carries(log: Log, from: nat, classify: Snapshot -> Decision, failures: nat, since: Option<int>) {
    && from <= |log| && Failures(log, from) == failures && AllConverged(log, from, classify)
    && (since.Some? ==> StableSince(log, from, since.value))
  }

  lemma CarriesSnoc(log: Log, from: nat, classify: Snapshot -> Decision, failures: nat, since: Option<int>,
      o: Observation)
    requires Carries(log, from, classify, failures, since) && !o.Seen? && o != Probed(false)
    ensures Carries(log + [o], from, classify, failures, since)
  {
    FailuresSnoc(log, from, o);
    ConvergedSnoc(log, from, classify, o);
    if since.Some? {
      StreakSnoc(log, from, since.value, o);
    }
  }

  lemma CarriesConverged(log: Log, from: nat, classify: Snapshot -> Decision, failures: nat, since: Option<int>,
      o: Observation)
    requires Carries(log, from, classify, failures, since) && JudgedAs(o, classify, Success)
    ensures Carries(log + [o] + [Placed(true)], from, classify, failures, since)
  {
    FailuresSnoc(log, from, o);
    FailuresSnoc(log + [o], from, Placed(true));
    ConvergedTwice(log, from, classify, o);
    if since.Some? {
      StreakSnoc(log, from, since.value, o);
      StreakSnoc(log + [o], from, since.value, Placed(true));
    }
  }

  lemma RunBegins(log: Log, from: nat, classify: Snapshot -> Decision, begin: int)
    requires |log| == from + 1 && log[from] == Allowed(true)
    ensures Carries(log + [Clock(begin)], from, classify, 0, None)
    ensures Undecided(log + [Clock(begin)], from, classify) && NoRefusal(log + [Clock(begin)], from)
  {
    NoFailuresYet(log[..from], from);
    assert log == log[..from] + [Allowed(true)];
    FailuresSnoc(log[..from], from, Allowed(true));
    FailuresSnoc(log, from, Clock(begin));
  }

  lemma WindowSnoc(log: Log, from: nat, health: Health, o: Observation)
    requires StableRun(log, from, health) && o != Probed(false)
    ensures StableRun(log + [o], from, health)
  {
    var first: nat, c: nat, d: nat :| SpansWindow(log, from, health, first, c, d);
    FailuresSnoc(log, from, o);
    assert SpansWindow(log + [o], from, health, first, c, d);
  }

  /** A reading far enough from the start of the streak completes the window. */
  lemma WindowCompletes(log: Log, from: nat, health: Health, since: int, now: int)
    requires StableSince(log, from, since) && Failures(log, from) <= health.retries && now - since >= health.window
    ensures StableRun(log + [Clock(now)], from, health)
  {
    var first: nat, c: nat :| StreakBegan(log, from, since, first, c);
    FailuresSnoc(log, from, Clock(now));
    assert SpansWindow(log + [Clock(now)], from, health, first, c, |log|);
  }

  // ----- the loops -----

  class Watch {
    const world: World
    var asked: nat
    ghost var log: Log
    ghost const passes: int -> nat

    ghost predicate Valid()
      reads this
    {
      asked == |log| && Ticks(world, passes) && forall t :: 0 <= t < |log| ==> Answers(world, log[t], t)
    }

    constructor(w: World, ghost p: int -> nat)
      requires Ticks(w, p)
      ensures Valid() && world == w && log == []
    {
      world, passes, asked, log := w, p, 0, [];
    }

    method Now() returns (time: int)
      requires Valid()
      modifies this
      ensures Valid() && log == old(log) + [Clock(time)]
      ensures forall limit :: old(asked) >= passes(limit) ==> time >= limit
    {
      time := world.clock(asked);
      log, asked := log + [Clock(time)], asked + 1;
    }

    method Inspect() returns (snapshot: Option<Snapshot>)
      requires Valid()
      modifies this
      ensures Valid() && log == old(log) + [Seen(snapshot)] && snapshot == world.look(old(asked))
    {
      snapshot := world.look(asked);
      log, asked := log + [Seen(snapshot)], asked + 1;
    }

    method CheckPlacement() returns (converged: bool)
      requires Valid()
      modifies this
      ensures Valid() && log == old(log) + [Placed(converged)] && converged == world.placed(old(asked))
    {
      converged := world.placed(asked);
      log, asked := log + [Placed(converged)], asked + 1;
    }

    method CheckEndpoint() returns (ok: bool)
      requires Valid()
      modifies this
      ensures Valid() && log == old(log) + [Allowed(ok)] && ok == world.allowed(old(asked))
    {
      ok := world.allowed(asked);
      log, asked := log + [Allowed(ok)], asked + 1;
    }

    method Probe() returns (ok: bool)
      requires Valid()
      modifies this
      ensures Valid() && log == old(log) + [Probed(ok)] && ok == world.probe(old(asked))
    {
      ok := world.probe(asked);
      log, asked := log + [Probed(ok)], asked + 1;
    }

    /** Inspect, classify, and for a success ask for the placement. */
    method Observe(classify: Snapshot -> Decision) returns (verdict: Verdict)
      requires Valid()
      modifies this
      ensures Valid() && old(log) < log && NoRefusal(log, |old(log)|)
      ensures verdict == Unavailable <==> log == old(log) + [Seen(None)]
      ensures LastLookIs(log, |old(log)|, verdict == Unavailable)
      ensures verdict.Judged? ==> LastJudged(log, classify, verdict.decision)
      ensures verdict == Judged(Success) ==>
                exists o :: JudgedAs(o, classify, Success) && log == old(log) + [o] + [Placed(true)]
      ensures Settled(log, |old(log)|, classify, Stops(verdict))
      ensures AllWell(world, classify) ==> verdict == Judged(Success)
    {
      var snapshot := Inspect();
      LastLookSnoc(old(log), |old(log)|, snapshot.None?, Seen(snapshot));
      if snapshot.None? {
        return Unavailable;
      }
      var decision := classify(snapshot.value);
      assert JudgedAs(Seen(snapshot), classify, decision);
      if decision != Success {
        assert log[|log| - 1] == Seen(snapshot);
        return Judged(decision);
      }
      ghost var before := log;
      var converged := CheckPlacement();
      LastLookSnoc(before, |old(log)|, false, Placed(converged));
      assert log[|log| - 2] == before[|before| - 1];
      return Judged(if converged then Success else Pending);
    }

    /** The guard around every probe: anything but a converged service stops the verification. */
    method Guard(classify: Snapshot -> Decision, ghost from: nat, ghost failures: nat, ghost since: Option<int>)
      returns (verdict: Verdict)
      requires Valid() && Carries(log, from, classify, failures, since)
      modifies this
      ensures Valid() && old(log) < log && NoRefusal(log, |old(log)|)
      ensures LastLookIs(log, |old(log)|, verdict == Unavailable)
      ensures verdict.Judged? ==> LastJudged(log, classify, verdict.decision)
      ensures Settled(log, |old(log)|, classify, Stops(verdict))
      ensures verdict == Judged(Success) ==> Carries(log, from, classify, failures, since)
      ensures verdict == Judged(Success) ==> forall i :: |old(log)| <= i < |log| ==> log[i] != Probed(false)
      ensures verdict == Judged(Success) ==> forall health :: StableRun(old(log), from, health) ==>
                StableRun(log, from, health)
      ensures AllWell(world, classify) ==> verdict == Judged(Success)
    {
      ghost var before := log;
      verdict := Observe(classify);
      if verdict == Judged(Success) {
        ghost var o :| JudgedAs(o, classify, Success) && log == before + [o] + [Placed(true)];
        CarriesConverged(before, from, classify, failures, since, o);
        forall health | StableRun(before, from, health) ensures StableRun(log, from, health) {
          WindowSnoc(before, from, health, o);
          WindowSnoc(before + [o], from, health, Placed(true));
        }
      }
    }

    /** The clock reading that begins a streak, after its first good probe. */
    method StartStreak(classify: Snapshot -> Decision, ghost from: nat, ghost failures: nat, ghost probe: nat)
      returns (time: int)
      requires Valid() && Carries(log, from, classify, failures, None)
      requires from <= probe < |log| && log[probe] == Probed(true) && forall i :: probe <= i < |log| ==>
                 log[i] != Probed(false)
      modifies this
      ensures Valid() && old(log) < log && NoRefusal(log, |old(log)|)
      ensures Carries(log, from, classify, failures, Some(time)) && log == old(log) + [Clock(time)]
    {
      ghost var before := log;
      time := Now();
      CarriesSnoc(before, from, classify, failures, None, Clock(time));
      assert StreakBegan(log, from, time, probe, |log| - 1);
    }

    /** Guard and probe once; a failed probe ends the streak. */
    method GuardedProbe(classify: Snapshot -> Decision, ghost from: nat, ghost failures: nat, ghost since: Option<int>)
      returns (stop: Option<Verdict>, ok: bool)
      requires Valid() && Carries(log, from, classify, failures, since)
      modifies this
      ensures Valid() && old(log) < log && NoRefusal(log, |old(log)|)
      ensures stop.Some? ==> LastLookIs(log, |old(log)|, stop.value == Unavailable)
      ensures stop.Some? ==> stop.value != Judged(Success)
      ensures Settled(log, |old(log)|, classify, stop.Some? && Stops(stop.value))
      ensures stop.Some? && stop.value.Judged? ==> LastJudged(log, classify, stop.value.decision)
      ensures stop.None? ==> log[|log| - 1] == Probed(ok)
      ensures stop.None? && ok ==> Carries(log, from, classify, failures, since)
      ensures stop.None? && !ok ==> Carries(log, from, classify, failures + 1, None)
      ensures AllWell(world, classify) ==> stop.None? && ok
    {
      var verdict := Guard(classify, from, failures, since);
      if verdict != Judged(Success) {
        return Some(verdict), false;
      }
      ghost var here := log;
      ok := Probe();
      SettledLater(here, log, |old(log)|, classify, false);
      FailuresSnoc(here, from, Probed(ok));
      ConvergedSnoc(here, from, classify, Probed(ok));
      if ok && since.Some? {
        StreakSnoc(here, from, since.value, Probed(ok));
      }
      stop := None;
    }

    /**
     After a good probe: guard, note when the streak began, and once the window is spanned guard
     again and finish. `None` when the verification goes on.
     */
    method AfterGoodProbe(classify: Snapshot -> Decision, health: Health, ghost from: nat, ghost failures: nat,
        since: Option<int>)
      returns (result: Option<HealthResult>, now: Option<int>)
      requires Valid() && from < |log| && log[|log| - 1] == Probed(true)
      requires Carries(log, from, classify, failures, since) && failures <= health.retries
      modifies this
      ensures Valid() && old(log) < log && NoRefusal(log, |old(log)|)
      ensures result.None? ==> Carries(log, from, classify, failures, now)
      ensures result.Some? ==> result.value != Unhealthy && result.value != Stopped(Judged(Success))
      ensures result == Some(Stable) ==> StableRun(log, from, health) && AllConverged(log, from, classify)
      ensures Settled(log, |old(log)|, classify, result.Some? && Halts(result.value))
      ensures result.Some? && result.value.Stopped? ==> LastLookIs(log, |old(log)|, result.value.verdict == Unavailable)
      ensures result.Some? && result.value.Stopped? && result.value.verdict.Judged? ==>
                LastJudged(log, classify, result.value.verdict.decision)
      ensures AllWell(world, classify) ==> result.None? || result == Some(Stable)
    {
      now := since;
      ghost var probe := |log| - 1;
      var verdict := Guard(classify, from, failures, since);
      if verdict != Judged(Success) {
        return Some(Stopped(verdict)), now;
      }
      if now.None? {
        var time := StartStreak(classify, from, failures, probe);
        now := Some(time);
      }
      ghost var noted := log;
      result := CloseWindow(classify, health, from, failures, now.value);
      SettledLater(noted, log, |old(log)|, classify, result.Some? && Halts(result.value));
    }

    /** Once the window since `since` is spanned, guard again and finish. */
    method CloseWindow(classify: Snapshot -> Decision, health: Health, ghost from: nat, ghost failures: nat, since: int)
      returns (result: Option<HealthResult>)
      requires Valid() && Carries(log, from, classify, failures, Some(since)) && failures <= health.retries
      modifies this
      ensures Valid() && old(log) < log && NoRefusal(log, |old(log)|)
      ensures log[|old(log)|].Clock? && (result.None? <==> log[|old(log)|].time - since < health.window)
      ensures result.None? ==> Carries(log, from, classify, failures, Some(since))
      ensures result.Some? ==> result.value != Unhealthy && result.value != Stopped(Judged(Success))
      ensures result == Some(Stable) ==> StableRun(log, from, health) && AllConverged(log, from, classify)
      ensures Settled(log, |old(log)|, classify, result.Some? && Halts(result.value))
      ensures result.Some? && result.value.Stopped? ==> LastLookIs(log, |old(log)|, result.value.verdict == Unavailable)
      ensures result.Some? && result.value.Stopped? && result.value.verdict.Judged? ==>
                LastJudged(log, classify, result.value.verdict.decision)
      ensures AllWell(world, classify) ==> result.None? || result == Some(Stable)
    {
      ghost var noted := log;
      var time := Now();
      CarriesSnoc(noted, from, classify, failures, Some(since), Clock(time));
      if time - since < health.window {
        return None;
      }
      WindowCompletes(noted, from, health, since, time);
      ghost var spanned := log;
      var verdict := Guard(classify, from, failures, Some(since));
      SettledLater(spanned, log, |old(log)|, classify, Stops(verdict));
      return Some(if verdict == Judged(Success) then Stable else Stopped(verdict));
    }

    /**
     The health verification: `Unhealthy` at once when the endpoint is refused, and `Stable` only
     after an unbroken run of good probes that spans the window, with no more failures than allowed
     and every snapshot around the probes converged.
     */
    method Verify(classify: Snapshot -> Decision, health: Health) returns (result: HealthResult)
      requires Valid()
      modifies this
      ensures Valid() && old(log) < log && log[|old(log)|].Allowed?
      ensures NoRefusal(log, |old(log)| + 1)
      ensures log[|old(log)|] == Allowed(false) ==> result == Unhealthy && log == old(log) + [Allowed(false)]
      ensures result == Stable ==> StableRun(log, |old(log)|, health) && AllConverged(log, |old(log)|, classify)
      ensures result == Unhealthy ==> UnhealthyRun(log, |old(log)|, health)
      ensures Settled(log, |old(log)|, classify, Halts(result))
      ensures result.Stopped? ==>
                result.verdict != Judged(Success) && LastLookIs(log, |old(log)|, result.verdict == Unavailable)
      ensures result.Stopped? && result.verdict.Judged? ==> LastJudged(log, classify, result.verdict.decision)
      ensures AllWell(world, classify) ==> !result.Stopped?
    {
      var allowed := CheckEndpoint();
      if !allowed {
        return Unhealthy;
      }
      ghost var checked := log;
      result := ProbeUntilDecided(classify, health, |old(log)|);
      SettledLater(checked, log, |old(log)|, classify, Halts(result));
    }

    /** The probes of a health run whose endpoint was allowed at entry `from`, just now. */
    method ProbeUntilDecided(classify: Snapshot -> Decision, health: Health, ghost from: nat)
      returns (result: HealthResult)
      requires Valid() && |log| == from + 1 && log[from] == Allowed(true)
      modifies this
      ensures Valid() && old(log) < log && NoRefusal(log, from)
      ensures result == Stable ==> StableRun(log, from, health) && AllConverged(log, from, classify)
      ensures result == Unhealthy ==> ExhaustedRun(log, from, health)
      ensures Settled(log, |old(log)|, classify, Halts(result))
      ensures result.Stopped? ==>
                result.verdict != Judged(Success) && LastLookIs(log, from, result.verdict == Unavailable)
      ensures result.Stopped? && result.verdict.Judged? ==> LastJudged(log, classify, result.verdict.decision)
      ensures AllWell(world, classify) ==> !result.Stopped?
    {
      ghost var checked := log;
      var begin := Now();
      var deadline := HealthDeadline(begin, health);
      ghost var first := log;
      var since: Option<int>, failures: nat := None, 0;
      RunBegins(checked, from, classify, begin);
      while true
        invariant Valid() && first <= log && old(log) < log && failures <= health.retries
        invariant NoRefusal(log, from) && Undecided(log, from, classify)
        invariant Carries(log, from, classify, failures, since)
        decreases passes(deadline) - asked
      {
        ghost var here := log;
        var time := Now();
        CarriesSnoc(here, from, classify, failures, since, Clock(time));
        if time >= deadline {
          assert log[from + 1] == first[from + 1];
          return Unhealthy;
        }
        ghost var noted := log;
        var ended;
        ended, since, failures := Round(classify, health, from, failures, since);
        SettledLater(noted, log, from, classify, ended.Some? && Halts(ended.value));
        if ended.Some? {
          assert log[from + 1] == first[from + 1];
          return ended.value;
        }
      }
    }

    /** One turn of the loop past its deadline check: guard, probe, and guard again around a good probe. */
    method Round(classify: Snapshot -> Decision, health: Health, ghost from: nat, failures: nat, since: Option<int>)
      returns (ended: Option<HealthResult>, streak: Option<int>, failed: nat)
      requires Valid() && Carries(log, from, classify, failures, since) && failures <= health.retries
      modifies this
      ensures Valid() && old(log) < log && NoRefusal(log, |old(log)|)
      ensures Settled(log, |old(log)|, classify, ended.Some? && Halts(ended.value))
      ensures ended.None? ==> Carries(log, from, classify, failed, streak) && failed <= health.retries
      ensures ended == Some(Unhealthy) ==> Failures(log, from) > health.retries
      ensures ended == Some(Stable) ==> StableRun(log, from, health) && AllConverged(log, from, classify)
      ensures ended.Some? && ended.value.Stopped? ==>
                && ended.value.verdict != Judged(Success)
                && LastLookIs(log, |old(log)|, ended.value.verdict == Unavailable)
                && (ended.value.verdict.Judged? ==> LastJudged(log, classify, ended.value.verdict.decision))
      ensures AllWell(world, classify) ==> ended.None? || ended == Some(Stable)
    {
      streak, failed := since, failures;
      var stop, ok := GuardedProbe(classify, from, failures, since);
      if stop.Some? {
        return Some(Stopped(stop.value)), streak, failed;
      }
      if ok {
        ghost var probed := log;
        ended, streak := AfterGoodProbe(classify, health, from, failures, since);
        SettledLater(probed, log, |old(log)|, classify, ended.Some? && Halts(ended.value));
      } else {
        streak, failed := None, failures + 1;
        ended := if failed > health.retries then Some(Unhealthy) else None;
      }
    }

    /**
     The loop of a scale or restart: look until a snapshot decides or the time is up. `Unavailable`
     stands for a time-out; otherwise the last snapshot seen was judged that way.
     */
    method VerifyMutation(classify: Snapshot -> Decision) returns (verdict: Verdict)
      requires Valid()
      modifies this
      ensures Valid() && old(log) < log
      ensures verdict.Judged? ==> verdict.decision != Pending && JudgedAs(log[|log| - 1], classify, verdict.decision)
      ensures AllPending(log[..|log| - 1], |old(log)|, classify)
      ensures verdict == Unavailable ==> log[|old(log)|].Clock? && log[|log| - 1].Clock? &&
                                         log[|log| - 1].time >= log[|old(log)|].time + 30_000
    {
      var begin := Now();
      var deadline := begin + VERIFY_TIMEOUT;
      ghost var first := log;
      while true
        invariant Valid() && first <= log && old(log) < log && AllPending(log, |old(log)|, classify)
        decreases passes(deadline) - asked
      {
        ghost var here := log;
        var time := Now();
        assert log[..|log| - 1] == here;
        if time >= deadline {
          assert log[|old(log)|] == first[|old(log)|];
          return Unavailable;
        }
        ghost var noted := log;
        var snapshot := Inspect();
        assert log[..|log| - 1] == noted;
        if snapshot.Some? && classify(snapshot.value) != Pending {
          return Judged(classify(snapshot.value));
        }
      }
    }

    /** One converged snapshot has been seen: verify the health, then look once more. */
    method Finish(classify: Snapshot -> Decision, health: Health) returns (outcome: Option<Outcome>, unavailable: bool)
      requires Valid()
      modifies this
      ensures Valid() && old(log) < log
      ensures outcome.Some? ==> Justified(log, classify, health, outcome.value)
      ensures outcome.Some? ==> !outcome.value.TimedOut?
      ensures outcome.None? ==> LastLookIs(log, |old(log)|, unavailable)
      ensures Settled(log, |old(log)|, classify, outcome.Some? && Given(outcome.value))
      ensures outcome == Some(HealthFailed) || NoRefusal(log, |old(log)|)
      ensures AllWell(world, classify) ==> outcome == Some(Succeeded) || outcome == Some(HealthFailed)
    {
      ghost var v := |log|;
      var result := Verify(classify, health);
      if result.Stopped? {
        return Ends(result.verdict), result.verdict == Unavailable;
      }
      ghost var stable := log;
      if result == Unhealthy {
        assert stable[..|stable|] == stable;
        return Some(HealthFailed), false;
      }
      var verdict := Observe(classify);
      SettledLater(stable, log, |old(log)|, classify, Stops(verdict));
      if verdict == Judged(Success) {
        assert log[..|log| - 2] == stable;
        assert SuccessBy(log, classify, health, v);
        return Some(Succeeded), false;
      }
      return Ends(verdict), verdict == Unavailable;
    }

    /** The observation loop of a deploy or rollback, up to the status it records. */
    method VerifyAndComplete(classify: Snapshot -> Decision, health: Health) returns (outcome: Outcome)
      requires Valid()
      modifies this
      ensures Valid() && old(log) < log
      ensures !outcome.TimedOut? ==> Justified(log, classify, health, outcome)
      ensures outcome.TimedOut? ==> log[|old(log)|].Clock? && log[|log| - 1].Clock? &&
                                    log[|log| - 1].time >= log[|old(log)|].time + 30_000
      ensures Settled(log, |old(log)|, classify, Given(outcome))
      ensures outcome == HealthFailed || NoRefusal(log, |old(log)|)
      ensures outcome.TimedOut? ==> outcome.unavailable == LookFailed(log, |old(log)|)
      ensures AllWell(world, classify) ==>
                outcome in {Succeeded, HealthFailed} || (outcome.TimedOut? && |log| == |old(log)| + 2)
    {
      var begin := Now();
      var deadline := begin + VERIFY_TIMEOUT;
      ghost var first, from := log, |old(log)|;
      LookSnoc(old(log), Clock(begin), from);
      var lastError := false;
      while true
        invariant Valid() && first <= log && old(log) < log
        invariant lastError == LookFailed(log, from) && NoRefusal(log, from) && Undecided(log, from, classify)
        invariant AllWell(world, classify) ==> log == first
        decreases passes(deadline) - asked
      {
        ghost var here := log;
        var time := Now();
        LookSnoc(here, Clock(time), from);
        if time >= deadline {
          assert log[|old(log)|] == first[|old(log)|];
          return TimedOut(lastError);
        }
        ghost var noted := log;
        var ended;
        ended, lastError := LookOnce(classify, health);
        SettledLater(noted, log, from, classify, ended.Some? && Given(ended.value));
        if ended.Some? {
          return ended.value;
        }
      }
    }

    /** One turn of the loop past its deadline check: look, and finish once the service has converged. */
    method LookOnce(classify: Snapshot -> Decision, health: Health)
      returns (outcome: Option<Outcome>, unavailable: bool)
      requires Valid()
      modifies this
      ensures Valid() && old(log) < log
      ensures outcome.Some? ==> Justified(log, classify, health, outcome.value)
      ensures outcome.Some? ==> !outcome.value.TimedOut?
      ensures outcome.None? ==> LastLookIs(log, |old(log)|, unavailable)
      ensures Settled(log, |old(log)|, classify, outcome.Some? && Given(outcome.value))
      ensures outcome == Some(HealthFailed) || NoRefusal(log, |old(log)|)
      ensures AllWell(world, classify) ==> outcome == Some(Succeeded) || outcome == Some(HealthFailed)
    {
      var verdict := Observe(classify);
      if verdict == Judged(Success) {
        ghost var seen := log;
        outcome, unavailable := Finish(classify, health);
        SettledLater(seen, log, |old(log)|, classify, outcome.Some? && Given(outcome.value));
      } else {
        outcome, unavailable := Ends(verdict), verdict == Unavailable;
      }
    }
  }

  /** The outcome a verdict leads to; `None` when the loop goes on. */
  function Ends(verdict: Verdict): Option<Outcome> {
    match verdict
    case Unavailable => None
    case Judged(Pending) => None
    case Judged(Success) => None
    case Judged(Failed) => Some(ConvergenceFailed)
    case Judged(ExternalConflict) => Some(Conflict)
    case Judged(RollbackIsPaused) => Some(PausedRollback)
  }

  /**
   Why a success may be recorded: a health verification that began at entry `v` and was stable
   while every snapshot had converged, directly followed by one more converged snapshot.
   */
  ghost predicate SuccessBy(log: Log, classify: Snapshot -> Decision, health: Health, v: nat) {
    && v + 2 < |log| && log[v] == Allowed(true) && ConvergedAt(log, |log| - 2, classify)
    && StableRun(log[..|log| - 2], v, health) && AllConverged(log[..|log| - 2], v, classify)
  }

  /** What each recorded result rests on. */
  ghost predicate Justified(log: Log, classify: Snapshot -> Decision, health: Health, outcome: Outcome) {
    match outcome
    case Succeeded => exists v: nat :: SuccessBy(log, classify, health, v)
    case ConvergenceFailed => LastJudged(log, classify, Failed)
    case Conflict => LastJudged(log, classify, ExternalConflict)
    case PausedRollback => LastJudged(log, classify, RollbackIsPaused)
    case HealthFailed => exists v: nat :: UnhealthyRun(log, v, health)
    case TimedOut(_) => true
  }

  ghost predicate SuccessRests(log: Log, reached: Snapshot -> bool, health: Health) {
    exists v: nat :: SuccessContract(log, reached, health, v)
  }

  /** The conditions of a recorded success, with `reached` for what a converged snapshot shows. */
  ghost predicate SuccessContract(log: Log, reached: Snapshot -> bool, health: Health, v: nat) {
    && v + 2 < |log| && log[v] == Allowed(true)
    && ReachedAt(log, |log| - 2, reached) && log[|log| - 1] == Placed(true)
    && StableRun(log[..|log| - 2], v, health)
    && (forall i: nat :: v <= i < |log| - 2 && log[i].Seen? ==> ReachedAt(log, i, reached))
  }

  ghost predicate ReachedAt(log: Log, i: nat, reached: Snapshot -> bool) {
    i < |log| && log[i].Seen? && log[i].snapshot.Some? && reached(log[i].snapshot.value)
  }

  /** A success rests on snapshots that all show what a success of the classifier means. */
  lemma SuccessMeansReached(log: Log, classify: Snapshot -> Decision, reached: Snapshot -> bool, health: Health)
    requires Justified(log, classify, health, Succeeded)
    requires forall s :: classify(s) == Success ==> reached(s)
    ensures SuccessRests(log, reached, health)
  {
    var v: nat :| SuccessBy(log, classify, health, v);
    var before := log[..|log| - 2];
    forall i: nat | v <= i < |log| - 2 && log[i].Seen? ensures ReachedAt(log, i, reached) {
      assert before[i].Seen?;
      assert ConvergedAt(before, i, classify);
    }
    assert SuccessContract(log, reached, health, v);
  }

  /**
   The success contract of a deploy: it is recorded as SUCCESS only if its last snapshot really
   reached the target, with exactly one matching running task per distinct positive slot for all
   desired replicas and its placement confirmed, after good probes spanned the stability
   window with at most the allowed failures, and every snapshot around them had reached it too.
   */
  lemma DeploySuccessContract(log: Log, classify: Snapshot -> Decision, plan: Plan, digest: string, noOp: bool,
      health: Health)
    requires forall s :: classify(s) == ClassifyDeploy(s, plan, digest, noOp)
    requires Justified(log, classify, health, Succeeded)
    ensures SuccessRests(log, s => DeployReached(s, plan, digest, noOp), health)
  {
    forall s | classify(s) == Success ensures DeployReached(s, plan, digest, noOp) {
      DeploySuccess(s, plan, digest, noOp);
    }
    SuccessMeansReached(log, classify, s => DeployReached(s, plan, digest, noOp), health);
  }

  /** The same contract of a rollback, for the previous image and the tasks that run it. */
  lemma RollbackSuccessContract(log: Log, classify: Snapshot -> Decision, plan: Plan, digest: string, health: Health)
    requires forall s :: classify(s) == ClassifyRollback(s, plan, digest)
    requires Justified(log, classify, health, Succeeded)
    ensures SuccessRests(log, s => RollbackReached(s, plan, digest), health)
  {
    forall s | classify(s) == Success ensures RollbackReached(s, plan, digest) {
      RollbackSuccess(s, plan, digest);
    }
    SuccessMeansReached(log, classify, s => RollbackReached(s, plan, digest), health);
  }

  /** Whatever number of retries is allowed, a refused endpoint fails the verification before the first probe. */
  method RefusedEndpoint(classify: Snapshot -> Decision, health: Health) returns (result: HealthResult, ghost log: Log)
    ensures result == Unhealthy && log == [Allowed(false)]
  {
    var world := World(t => t, _ => None, _ => false, _ => false, _ => true);
    var watch := new Watch(world, (time: int) => if time < 0 then 0 else time);
    result := watch.Verify(classify, health);
    log := watch.log;
    assert Answers(watch.world, log[0], 0);
  }
}
