/** Rule firings under every interleaving of telemetry messages: evaluateRules
    (internal/core/service.go) tests a rule's cooldown in one critical section and records the
    firing in another, after the rule's actions; tests and recordings of other messages may come
    in between. */
module FiringRaces {
  import opened Model
  import opened Cooldown

  /** A message past the test: what it is going to record, and how often the pair had fired. */
  datatype Probe = Probe(rule: ID, device: ID, at: int, seen: int)

  /** The messages past the test are numbered as they are tested; `log` is the history. */
  datatype State = State(
    cooldowns: map<ID, int>,
    states: RuleStates,
    log: seq<Firing>,
    probes: map<nat, Probe>,
    tests: nat)

  datatype Step =
    | Test(k: nat, rule: ID, device: ID, at: int)
    | Record(k: nat)

  function Count(s: State, rule: ID, device: ID): int {
    StateAt(s.states, Key(rule, device)).count
  }

  predicate Enabled(s: State, step: Step) {
    match step
    case Test(k, rule, _, at) => k == s.tests && rule in s.cooldowns && NulFree(rule) && at != ZERO_TIME
    case Record(k) => k in s.probes
  }

  function Next(s: State, step: Step): State
    requires Enabled(s, step)
  {
    match step
    case Test(k, rule, device, at) =>
      if CanTrigger(s.states, rule, device, s.cooldowns[rule], at) then
        s.(probes := s.probes[k := Probe(rule, device, at, Count(s, rule, device))], tests := s.tests + 1)
      else s.(tests := s.tests + 1)
    case Record(k) =>
      var p := s.probes[k];
      s.(states := Recorded(s.states, p.rule, p.device, p.at), log := s.log + [Firing(p.rule, p.device, p.at)], probes := s.probes - {k})
  }

  predicate Possible(s: State, steps: seq<Step>)
    decreases steps
  {
    steps == [] || (Enabled(s, steps[0]) && Possible(Next(s, steps[0]), steps[1..]))
  }

  function Run(s: State, steps: seq<Step>): State
    requires Possible(s, steps)
    decreases steps
  {
    if steps == [] then s else Run(Next(s, steps[0]), steps[1..])
  }

  /** Before any message. */
  function Start(cooldowns: map<ID, int>): State {
    State(cooldowns, map[], [], map[], 0)
  }

  // ---------------------------------------------------------------- invariant

  /** The pair fired between a message's test and now. */
  predicate Disturbed(s: State, p: Probe) {
    Count(s, p.rule, p.device) != p.seen
  }

  /** As long as the pair has not fired since, the test would still pass. */
  predicate ProbeHolds(s: State, p: Probe) {
    && NulFree(p.rule) && p.at != ZERO_TIME && p.rule in s.cooldowns
    && 0 <= p.seen <= Count(s, p.rule, p.device)
    && (!Disturbed(s, p) ==> CanTrigger(s.states, p.rule, p.device, s.cooldowns[p.rule], p.at))
  }

  ghost predicate Inv(s: State) {
    && Remembers(s.states, s.log)
    && (forall k :: k in s.probes ==> k < s.tests && ProbeHolds(s, s.probes[k]))
  }

  lemma RecordKeepsProbe(s: State, k: nat, p: Probe)
    requires Inv(s) && k in s.probes && ProbeHolds(s, p)
    ensures ProbeHolds(Next(s, Record(k)), p)
  {
    var q := s.probes[k];
    if Key(p.rule, p.device) == Key(q.rule, q.device) {
      KeyInjective(p.rule, p.device, q.rule, q.device);
    }
  }

  lemma StepKeepsInv(s: State, step: Step)
    requires Inv(s) && Enabled(s, step)
    ensures Inv(Next(s, step))
  {
    match step
    case Test(k, rule, device, at) =>
      assert Count(s, rule, device) == |Times(s.log, rule, device)|;
    case Record(k) =>
      var p := s.probes[k];
      RecordRemembers(s.states, s.log, p.rule, p.device, p.at);
      var s' := Next(s, step);
      forall j | j in s'.probes ensures ProbeHolds(s', s'.probes[j]) {
        RecordKeepsProbe(s, k, s.probes[j]);
      }
  }

  lemma {:induction false} RunKeepsInv(s: State, steps: seq<Step>)
    requires Inv(s) && Possible(s, steps)
    ensures Inv(Run(s, steps)) && Run(s, steps).cooldowns == s.cooldowns
    decreases steps
  {
    if steps != [] {
      StepKeepsInv(s, steps[0]);
      RunKeepsInv(Next(s, steps[0]), steps[1..]);
    }
  }

  // ---------------------------------------------------------------- spacing, exactly

  /** A message that the pair's firing overtook is itself a full cooldown later than that firing. */
  predicate LateEnough(s: State, step: Step, r: ID, d: ID, gap: int)
    requires Enabled(s, step)
  {
    step.Record?
    ==> (var p := s.probes[step.k];
         p.rule == r && p.device == d && Disturbed(s, p) ==> p.at - StateAt(s.states, Key(r, d)).last >= gap)
  }

  predicate OvertakenAreLate(s: State, steps: seq<Step>, r: ID, d: ID, gap: int)
    requires Possible(s, steps)
    decreases steps
  {
    steps == [] || (LateEnough(s, steps[0], r, d, gap) && OvertakenAreLate(Next(s, steps[0]), steps[1..], r, d, gap))
  }

  lemma SpacedAppend(times: seq<int>, b: int, gap: int)
    requires times != [] && Spaced(times, gap)
    ensures Spaced(times + [b], gap) <==> b - times[|times| - 1] >= gap
  {
    var longer := times + [b];
    assert longer[|times| - 1] == times[|times| - 1] && longer[|times|] == b;
    assert forall i :: 0 <= i < |times| ==> longer[i] == times[i];
    if b - times[|times| - 1] < gap {
      assert longer[|times| - 1 + 1] - longer[|times| - 1] < gap;
    }
  }

  lemma SpacedPrefix(times: seq<int>, b: int, gap: int)
    requires Spaced(times + [b], gap)
    ensures Spaced(times, gap)
  {
    var longer := times + [b];
    forall i | 0 <= i < |times| - 1 ensures times[i + 1] - times[i] >= gap {
      assert longer[i + 1] - longer[i] >= gap;
    }
  }

  /** A recording keeps the pair's firings spaced exactly when its message was not overtaken, or is
      late enough all the same. */
  lemma RecordSpacedIff(s: State, k: nat, r: ID, d: ID, gap: int)
    requires Inv(s) && k in s.probes && s.probes[k].rule == r && s.probes[k].device == d
    requires 0 < s.cooldowns[r] && gap == s.cooldowns[r] * SECOND <= MAX_INT64
    ensures Spaced(Times(Next(s, Record(k)).log, r, d), gap)
            <==> Spaced(Times(s.log, r, d), gap) && LateEnough(s, Record(k), r, d, gap)
  {
    var p := s.probes[k];
    var times := Times(s.log, r, d);
    var log' := Next(s, Record(k)).log;
    assert ProbeHolds(s, p);
    assert log'[..|s.log|] == s.log;
    assert Times(log', r, d) == times + [p.at];
    if times != [] {
      LastTimeNonZero(s.log, r, d);
      HonouredIff(s.cooldowns[r]);
      if Spaced(times, gap) {
        SpacedAppend(times, p.at, gap);
      } else if Spaced(times + [p.at], gap) {
        SpacedPrefix(times, p.at, gap);
      }
    }
  }

  lemma OtherStepsKeepTimes(s: State, step: Step, r: ID, d: ID)
    requires Enabled(s, step) && (step.Record? ==> s.probes[step.k].rule != r || s.probes[step.k].device != d)
    ensures Times(Next(s, step).log, r, d) == Times(s.log, r, d)
  {
    if step.Record? {
      assert Next(s, step).log[..|s.log|] == s.log;
    }
  }

  /** Over every interleaving: the firings of a rule for a device stay a cooldown apart exactly when
      each message that a firing of the pair overtook, between its own test and its recording, is a
      full cooldown later than that firing. */
  lemma {:induction false} SpacedIff(s: State, steps: seq<Step>, r: ID, d: ID, gap: int)
    requires Inv(s) && Possible(s, steps)
    requires r in s.cooldowns && 0 < s.cooldowns[r] && gap == s.cooldowns[r] * SECOND <= MAX_INT64
    ensures Spaced(Times(Run(s, steps).log, r, d), gap)
            <==> Spaced(Times(s.log, r, d), gap) && OvertakenAreLate(s, steps, r, d, gap)
    decreases steps
  {
    if steps != [] {
      var step := steps[0];
      StepKeepsInv(s, step);
      SpacedIff(Next(s, step), steps[1..], r, d, gap);
      if step.Record? && s.probes[step.k].rule == r && s.probes[step.k].device == d {
        RecordSpacedIff(s, step.k, r, d, gap);
      } else {
        OtherStepsKeepTimes(s, step, r, d);
      }
    }
  }

  /** The same, from the start. */
  lemma RacesSpacedIff(cooldowns: map<ID, int>, steps: seq<Step>, r: ID, d: ID)
    requires Possible(Start(cooldowns), steps)
    requires r in cooldowns && 0 < cooldowns[r] && cooldowns[r] * SECOND <= MAX_INT64
    ensures var gap := cooldowns[r] * SECOND;
            Spaced(Times(Run(Start(cooldowns), steps).log, r, d), gap) <==> OvertakenAreLate(Start(cooldowns), steps, r, d, gap)
  {
    SpacedIff(Start(cooldowns), steps, r, d, cooldowns[r] * SECOND);
  }

  // ---------------------------------------------------------------- being overtaken

  lemma {:induction false} ProbeStays(s: State, steps: seq<Step>, k: nat)
    requires Inv(s) && Possible(s, steps) && k in s.probes && Record(k) !in steps
    ensures k in Run(s, steps).probes && Run(s, steps).probes[k] == s.probes[k]
    decreases steps
  {
    if steps != [] {
      assert steps[0] in steps && forall step :: step in steps[1..] ==> step in steps;
      StepKeepsInv(s, steps[0]);
      ProbeStays(Next(s, steps[0]), steps[1..], k);
    }
  }

  /** A message is overtaken exactly when its pair fires after its test and before its recording. */
  lemma OvertakenIff(s: State, k: nat, rule: ID, device: ID, at: int, between: seq<Step>)
    requires Inv(s) && Enabled(s, Test(k, rule, device, at)) && k in Next(s, Test(k, rule, device, at)).probes
    requires Possible(Next(s, Test(k, rule, device, at)), between) && Record(k) !in between
    ensures var s' := Run(Next(s, Test(k, rule, device, at)), between);
            && Enabled(s', Record(k))
            && (Disturbed(s', s'.probes[k]) <==> |Times(s'.log, rule, device)| != |Times(s.log, rule, device)|)
  {
    var tested := Next(s, Test(k, rule, device, at));
    StepKeepsInv(s, Test(k, rule, device, at));
    RunKeepsInv(tested, between);
    ProbeStays(tested, between, k);
    var s' := Run(tested, between);
    assert Count(s, rule, device) == |Times(s.log, rule, device)|;
    assert Count(s', rule, device) == |Times(s'.log, rule, device)|;
  }

  lemma RunCons(s: State, step: Step, rest: seq<Step>)
    requires Enabled(s, step) && Possible(Next(s, step), rest)
    ensures Possible(s, [step] + rest) && Run(s, [step] + rest) == Run(Next(s, step), rest)
  {
    assert ([step] + rest)[1..] == rest;
  }

  lemma TwoMoreTimes(log: seq<Firing>, f: Firing, gap: int)
    requires gap > 0
    ensures var times := Times(log + [f] + [f], f.rule, f.device);
            times == Times(log, f.rule, f.device) + [f.at] + [f.at] && !Spaced(times, gap)
  {
    var one := log + [f];
    var two := one + [f];
    assert one[..|log|] == log && two[..|one|] == one;
    assert Times(one, f.rule, f.device) == Times(log, f.rule, f.device) + [f.at];
    var times := Times(two, f.rule, f.device);
    var n := |Times(log, f.rule, f.device)|;
    assert times == Times(log, f.rule, f.device) + [f.at] + [f.at];
    assert times[n + 1] - times[n] < gap;
  }

  /** It happens in every state in which a rule with a cooldown may fire: two messages with one
      timestamp both pass the test, and both firings are recorded. */
  lemma FiresTwice(s: State, rule: ID, device: ID, at: int)
    requires Enabled(s, Test(s.tests, rule, device, at)) && 0 < s.cooldowns[rule]
    requires CanTrigger(s.states, rule, device, s.cooldowns[rule], at)
    ensures var k := s.tests;
            var steps := [Test(k, rule, device, at)] + ([Test(k + 1, rule, device, at)] + ([Record(k)] + ([Record(k + 1)] + [])));
            && Possible(s, steps)
            && Times(Run(s, steps).log, rule, device) == Times(s.log, rule, device) + [at] + [at]
            && !Spaced(Times(Run(s, steps).log, rule, device), s.cooldowns[rule] * SECOND)
  {
    var k, f := s.tests, Firing(rule, device, at);
    var s1 := Next(s, Test(k, rule, device, at));
    var s2 := Next(s1, Test(k + 1, rule, device, at));
    var s3 := Next(s2, Record(k));
    var s4 := Next(s3, Record(k + 1));
    RunCons(s3, Record(k + 1), []);
    RunCons(s2, Record(k), [Record(k + 1)] + []);
    RunCons(s1, Test(k + 1, rule, device, at), [Record(k)] + ([Record(k + 1)] + []));
    RunCons(s, Test(k, rule, device, at), [Test(k + 1, rule, device, at)] + ([Record(k)] + ([Record(k + 1)] + [])));
    assert s4.log == s.log + [f] + [f];
    TwoMoreTimes(s.log, f, s.cooldowns[rule] * SECOND);
  }
}
