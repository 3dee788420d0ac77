/** Telemetry handling (internal/core/service.go, internal/core/automation.go): the device
    shadow as a fold of what was reported, and rules fired under their cooldowns. The store is
    the in-memory one, whose appends and saves do not fail. */
module TelemetryRuntime {
  import opened Model
  import opened Text
  import opened Cooldown
  import MemoryStore

  // ---------------------------------------------------------------- values and conditions

  /** valuesEqual on decoded JSON: anything but a number, flag or text is compared as printed,
      and no object, list or null prints like a number or a flag. */
  predicate ValuesEqual(left: Value, right: Value) {
    match left
    case Number(n) => right.Number? && right.n == n
    case Flag(b) => right.Flag? && right.b == b
    case Text(t) => right.Text? && right.t == t
    case _ => Printed(right) == Some(Printed(left).value)
  }

  /** How `%v` prints a value, for those that can print alike. */
  function Printed(v: Value): (r: Option<string>)
    ensures r.None? <==> v.Number? || v.Flag?
  {
    match v
    case Text(t) => Some(t)
    case Object(repr) => Some(repr)
    case Other(repr) => Some(repr)
    case _ => None
  }

  predicate ConditionHolds(operator: string, left: Value, right: Value) {
    if operator == "eq" then ValuesEqual(left, right)
    else if operator == "neq" then !ValuesEqual(left, right)
    else if !left.Number? || !right.Number? then false
    else if operator == "gt" then left.n > right.n
    else if operator == "gte" then left.n >= right.n
    else if operator == "lt" then left.n < right.n
    else if operator == "lte" then left.n <= right.n
    else false
  }

  /** loadProduct, then validateThingValues if there is one. */
  predicate Acceptable(s: Snapshot, device: Device, values: Values) {
    var id := TrimSpace(device.productID);
    id == "" || id !in s.tables.products || ValuesFit(s.tables.products[id], values)
  }

  // ---------------------------------------------------------------- the runtime state

  /** What the rules did, in order. Sending a command and raising an alert are recorded only;
      they touch neither shadows nor rule states. */
  datatype Effect =
    | Commanded(device: ID, name: string, params: Values)
    | Alerted(rule: ID, device: ID, at: int, message: string)
    | Applied(profile: ID, device: ID, values: Values)
    | NotApplied(profile: ID, device: ID)
    | Fired(firing: Firing)

  datatype Runtime = Runtime(store: Snapshot, states: RuleStates, effects: seq<Effect>)

  datatype Failure = UnknownDevice | UnknownProfile | OutOfScope | InvalidValues

  datatype Result = Fine(rt: Runtime) | Failed(failure: Failure)

  // ---------------------------------------------------------------- shadows

  function FreshShadow(device: Device): Shadow {
    Shadow(device.id, device.productID, map[], map[], 1)
  }

  /** The shadow ensureShadow returns. */
  function ShadowOf(s: Snapshot, device: Device): Shadow {
    if device.id in s.shadows then s.shadows[device.id] else FreshShadow(device)
  }

  function SaveShadow(s: Snapshot, shadow: Shadow): Snapshot {
    s.(shadows := s.shadows[shadow.deviceID := shadow])
  }

  function Pruned(desired: Values, values: Values): Values {
    map k | k in desired && !(k in values && ValuesEqual(desired[k], values[k])) :: desired[k]
  }

  /** The shadow after a report. */
  function Reporting(shadow: Shadow, values: Values): Shadow {
    shadow.(reported := shadow.reported + values, desired := Pruned(shadow.desired, values), version := shadow.version + 1)
  }

  function UpdateDesired(rt: Runtime, deviceID: ID, desired: Values): Result {
    var id := TrimSpace(deviceID);
    if id !in rt.store.tables.devices then Failed(UnknownDevice)
    else
      var device := rt.store.tables.devices[id];
      if !Acceptable(rt.store, device, desired) then Failed(InvalidValues)
      else
        var shadow := ShadowOf(rt.store, device);
        Fine(rt.(store := SaveShadow(rt.store, shadow.(desired := desired, version := shadow.version + 1))))
  }

  /** The store after one more application of the profile. */
  function WithApplication(s: Snapshot, profile: ConfigProfile): Snapshot {
    s.(tables := s.tables.(configs := s.tables.configs[profile.id := profile.(appliedCount := profile.appliedCount + 1)]))
  }

  /** A profile in scope is given to the device and counted. */
  function Give(rt: Runtime, profile: ConfigProfile, device: Device): Result {
    match UpdateDesired(rt, device.id, profile.values)
    case Failed(f) => Failed(f)
    case Fine(rt') => Fine(rt'.(store := WithApplication(rt'.store, profile)))
  }

  function ApplyConfig(rt: Runtime, profileID: ID, deviceID: ID): Result {
    var p, d := TrimSpace(profileID), TrimSpace(deviceID);
    var tables := rt.store.tables;
    if p !in tables.configs then Failed(UnknownProfile)
    else if d !in tables.devices then Failed(UnknownDevice)
    else
      var profile, device := tables.configs[p], tables.devices[d];
      if profile.tenantID != "" && device.tenantID != profile.tenantID then Failed(OutOfScope)
      else if profile.productID != "" && device.productID != profile.productID then Failed(OutOfScope)
      else Give(rt, profile, device)
  }

  // ---------------------------------------------------------------- rules

  function ActionsOf(rule: Rule): seq<Action> {
    if rule.actions == [] then [RaiseAlert("")] else rule.actions
  }

  function RunAction(rt: Runtime, rule: Rule, device: Device, at: int, action: Action): Runtime {
    match action
    case SendCommand(name, params) => rt.(effects := rt.effects + [Commanded(device.id, name, params)])
    case RaiseAlert(message) => rt.(effects := rt.effects + [Alerted(rule.id, device.id, at, message)])
    case ApplyConfig(p) =>
      (match ApplyConfig(rt, p, device.id)
       case Fine(rt') => rt'.(effects := rt'.effects + [Applied(p, device.id, rt.store.tables.configs[TrimSpace(p)].values)])
       case Failed(_) => rt.(effects := rt.effects + [NotApplied(p, device.id)]))
  }

  function RunActions(rt: Runtime, rule: Rule, device: Device, at: int, actions: seq<Action>): Runtime
    decreases actions
  {
    if actions == [] then rt
    else RunActions(RunAction(rt, rule, device, at, actions[0]), rule, device, at, actions[1..])
  }

  /** Scope, property and condition: everything but the cooldown. */
  predicate Matches(rule: Rule, device: Device, groups: set<ID>, values: Values) {
    && rule.enabled
    && (rule.tenantID == "" || rule.tenantID == device.tenantID)
    && (rule.productID == "" || rule.productID == device.productID)
    && (rule.deviceID == "" || rule.deviceID == device.id)
    && (rule.groupID == "" || rule.groupID in groups)
    && rule.condition.property in values
    && ConditionHolds(rule.condition.operator, values[rule.condition.property], rule.condition.value)
  }

  /** A rule's actions, its trigger time and its firing. */
  function Acted(rt: Runtime, rule: Rule, device: Device, at: int): Runtime {
    var acted := RunActions(rt, rule, device, at, ActionsOf(rule));
    acted.(states := Recorded(acted.states, rule.id, device.id, at),
           effects := acted.effects + [Fired(Firing(rule.id, device.id, at))])
  }

  function RunRule(rt: Runtime, rule: Rule, device: Device, groups: set<ID>, at: int, values: Values): Runtime {
    if !Matches(rule, device, groups, values) || !CanTrigger(rt.states, rule.id, device.id, rule.cooldownSeconds, at) then rt
    else Acted(rt, rule, device, at)
  }

  function RunRules(rt: Runtime, rules: seq<Rule>, device: Device, groups: set<ID>, at: int, values: Values): Runtime
    decreases rules
  {
    if rules == [] then rt
    else RunRules(RunRule(rt, rules[0], device, groups, at, values), rules[1..], device, groups, at, values)
  }

  function GroupsOf(s: Snapshot, device: ID): set<ID> {
    set g | g in Slice(s.groupIDs, device)
  }

  // ---------------------------------------------------------------- one telemetry message

  function Timestamp(at: int, now: int): int {
    if at == ZERO_TIME then now else at
  }

  /** The state once the report is stored, before the rules run. */
  function Reported(rt: Runtime, device: Device, at: int, values: Values): Runtime {
    var series := MemoryStore.LastN(Slice(rt.store.telemetry, device.id) + [Telemetry(device.id, at, values)], rt.store.telemetryRetention);
    var shadow := Reporting(ShadowOf(rt.store, device), values);
    rt.(store := rt.store.(telemetry := rt.store.telemetry[device.id := series],
                           shadows := rt.store.shadows[shadow.deviceID := shadow]))
  }

  /** `listing` is the order in which the store lists the rules. */
  function Handle(rt: Runtime, deviceID: ID, at: int, values: Values, now: int, listing: seq<Rule>): Result {
    if deviceID !in rt.store.tables.devices then Failed(UnknownDevice)
    else
      var device := rt.store.tables.devices[deviceID];
      if !Acceptable(rt.store, device, values) then Failed(InvalidValues)
      else
        var time := Timestamp(at, now);
        Fine(RunRules(Reported(rt, device, time, values), listing, device, GroupsOf(rt.store, device.id), time, values))
  }

  // ---------------------------------------------------------------- shadow properties

  /** Table keys agree with the records' own ids, and shadows are filed under their device. */
  ghost predicate WellKeyed(s: Snapshot) {
    && (forall d :: d in s.tables.devices ==> s.tables.devices[d].id == d && Trimmed(IsSpace, d))
    && (forall p :: p in s.tables.configs ==> s.tables.configs[p].id == p)
    && (forall d :: d in s.shadows ==> s.shadows[d].deviceID == d)
  }

  lemma TrimmedStays(id: ID)
    requires Trimmed(IsSpace, id)
    ensures TrimSpace(id) == id
  {
    TrimIsTrimmed(IsSpace, id);
  }

  /** The applied profiles among some effects. */
  function AppliedValues(effects: seq<Effect>): seq<Values> {
    if effects == [] then []
    else AppliedValues(effects[..|effects| - 1]) + (if effects[|effects| - 1].Applied? then [effects[|effects| - 1].values] else [])
  }

  /** What running rules may do to the device's shadow: each applied profile replaces Desired
      and raises the version by one; Reported stays. */
  ghost predicate ShadowMoved(before: Runtime, after: Runtime, d: ID) {
    && before.effects <= after.effects
    && d in before.store.shadows && d in after.store.shadows
    && var s, s' := before.store.shadows[d], after.store.shadows[d];
       var applied := AppliedValues(after.effects[|before.effects|..]);
       && s'.deviceID == s.deviceID && s'.reported == s.reported
       && s'.version == s.version + |applied|
       && s'.desired == (if applied == [] then s.desired else applied[|applied| - 1])
  }

  ghost predicate Quiet(before: Runtime, after: Runtime) {
    after.store.tables.devices == before.store.tables.devices && after.store.tables.products == before.store.tables.products
    && after.store.groupIDs == before.store.groupIDs && after.store.telemetry == before.store.telemetry
  }

  /** Steps over one device leave the other devices' shadows alone. */
  ghost predicate OthersKept(before: map<ID, Shadow>, after: map<ID, Shadow>, d: ID) {
    && (forall e :: e != d && e in after ==> e in before && after[e] == before[e])
    && (forall e :: e != d && e in before ==> e in after)
  }

  ghost predicate Moved(before: Runtime, after: Runtime, d: ID) {
    ShadowMoved(before, after, d) && Quiet(before, after) && OthersKept(before.store.shadows, after.store.shadows, d) && WellKeyed(after.store)
  }

  lemma {:induction false} AppliedConcat(a: seq<Effect>, b: seq<Effect>)
    ensures AppliedValues(a + b) == AppliedValues(a) + AppliedValues(b)
  {
    if b == [] {
      assert a + b == a;
    } else {
      assert (a + b)[..|a + b| - 1] == a + b[..|b| - 1];
      AppliedConcat(a, b[..|b| - 1]);
    }
  }

  lemma MovedReflexive(rt: Runtime, d: ID)
    requires d in rt.store.shadows && WellKeyed(rt.store)
    ensures Moved(rt, rt, d)
  {
    assert rt.effects[|rt.effects|..] == [];
  }

  lemma EffectsChain(a: seq<Effect>, b: seq<Effect>, c: seq<Effect>)
    requires a <= b <= c
    ensures a <= c && c[|a|..] == b[|a|..] + c[|b|..]
  {
    assert c == b + c[|b|..];
  }

  lemma OthersTransitive(a: map<ID, Shadow>, b: map<ID, Shadow>, c: map<ID, Shadow>, d: ID)
    requires OthersKept(a, b, d) && OthersKept(b, c, d)
    ensures OthersKept(a, c, d)
  {
  }

  lemma MovedTransitive(a: Runtime, b: Runtime, c: Runtime, d: ID)
    requires Moved(a, b, d) && Moved(b, c, d)
    ensures Moved(a, c, d)
  {
    EffectsChain(a.effects, b.effects, c.effects);
    AppliedConcat(b.effects[|a.effects|..], c.effects[|b.effects|..]);
    OthersTransitive(a.store.shadows, b.store.shadows, c.store.shadows, d);
  }

  /** An effect that is no applied profile moves nothing. */
  lemma MovedByEffect(rt: Runtime, e: Effect, d: ID)
    requires d in rt.store.shadows && WellKeyed(rt.store) && !e.Applied?
    ensures Moved(rt, rt.(effects := rt.effects + [e]), d)
  {
    assert (rt.effects + [e])[|rt.effects|..] == [e];
    assert [e][..0] == [];
  }

  /** The device the rules run for is in the table, and has a shadow. */
  ghost predicate Ready(rt: Runtime, device: Device) {
    WellKeyed(rt.store) && device.id in rt.store.shadows
    && device.id in rt.store.tables.devices && rt.store.tables.devices[device.id] == device
  }

  lemma MovedByConfig(rt: Runtime, p: ID, device: Device)
    requires Ready(rt, device) && ApplyConfig(rt, p, device.id).Fine?
    ensures TrimSpace(p) in rt.store.tables.configs
    ensures var d := device.id;
            var e := Applied(p, d, rt.store.tables.configs[TrimSpace(p)].values);
            var rt' := ApplyConfig(rt, p, d).rt;
            rt'.effects == rt.effects && rt'.states == rt.states && Moved(rt, rt'.(effects := rt.effects + [e]), d)
  {
    var d := device.id;
    TrimmedStays(d);
    var values := rt.store.tables.configs[TrimSpace(p)].values;
    var e := Applied(p, d, values);
    assert (rt.effects + [e])[|rt.effects|..] == [e];
    assert [e][..0] == [];
    assert AppliedValues([e]) == [values];
  }

  lemma MovedByAction(rt: Runtime, rule: Rule, device: Device, at: int, action: Action)
    requires Ready(rt, device)
    ensures var rt' := RunAction(rt, rule, device, at, action);
            Moved(rt, rt', device.id) && Ready(rt', device) && rt'.states == rt.states
  {
    match action
    case SendCommand(name, params) => MovedByEffect(rt, Commanded(device.id, name, params), device.id);
    case RaiseAlert(message) => MovedByEffect(rt, Alerted(rule.id, device.id, at, message), device.id);
    case ApplyConfig(p) =>
      if ApplyConfig(rt, p, device.id).Fine? {
        MovedByConfig(rt, p, device);
      } else {
        MovedByEffect(rt, NotApplied(p, device.id), device.id);
      }
  }

  lemma {:induction false} MovedByActions(rt: Runtime, rule: Rule, device: Device, at: int, actions: seq<Action>)
    requires Ready(rt, device)
    ensures var rt' := RunActions(rt, rule, device, at, actions);
            Moved(rt, rt', device.id) && Ready(rt', device) && rt'.states == rt.states
    decreases actions
  {
    if actions == [] {
      MovedReflexive(rt, device.id);
    } else {
      var next := RunAction(rt, rule, device, at, actions[0]);
      MovedByAction(rt, rule, device, at, actions[0]);
      MovedByActions(next, rule, device, at, actions[1..]);
      MovedTransitive(rt, next, RunActions(rt, rule, device, at, actions), device.id);
    }
  }

  /** Noting a firing afterwards moves nothing more. */
  lemma MovedThenFired(a: Runtime, b: Runtime, firing: Firing, states: RuleStates, d: ID)
    requires Moved(a, b, d)
    ensures Moved(a, b.(states := states, effects := b.effects + [Fired(firing)]), d)
  {
    var applied := AppliedValues(b.effects[|a.effects|..]);
    var effects := b.effects + [Fired(firing)];
    assert effects[|a.effects|..] == b.effects[|a.effects|..] + [Fired(firing)];
    assert (b.effects[|a.effects|..] + [Fired(firing)])[..|b.effects| - |a.effects|] == b.effects[|a.effects|..];
    assert AppliedValues(effects[|a.effects|..]) == applied;
  }

  lemma MovedByRule(rt: Runtime, rule: Rule, device: Device, groups: set<ID>, at: int, values: Values)
    requires Ready(rt, device)
    ensures var rt' := RunRule(rt, rule, device, groups, at, values); Moved(rt, rt', device.id) && Ready(rt', device)
  {
    if !Matches(rule, device, groups, values) || !CanTrigger(rt.states, rule.id, device.id, rule.cooldownSeconds, at) {
      MovedReflexive(rt, device.id);
    } else {
      var acted := RunActions(rt, rule, device, at, ActionsOf(rule));
      MovedByActions(rt, rule, device, at, ActionsOf(rule));
      MovedThenFired(rt, acted, Firing(rule.id, device.id, at), Recorded(acted.states, rule.id, device.id, at), device.id);
    }
  }

  lemma {:induction false} MovedByRules(rt: Runtime, rules: seq<Rule>, device: Device, groups: set<ID>, at: int, values: Values)
    requires Ready(rt, device)
    ensures var rt' := RunRules(rt, rules, device, groups, at, values); Moved(rt, rt', device.id) && Ready(rt', device)
    decreases rules
  {
    if rules == [] {
      MovedReflexive(rt, device.id);
    } else {
      var next := RunRule(rt, rules[0], device, groups, at, values);
      MovedByRule(rt, rules[0], device, groups, at, values);
      MovedByRules(next, rules[1..], device, groups, at, values);
      MovedTransitive(rt, next, RunRules(rt, rules, device, groups, at, values), device.id);
    }
  }

  /** A report is two writes to the store. */
  lemma ReportedWrites(rt: Runtime, device: Device, at: int, values: Values)
    ensures var appended := MemoryStore.Apply(rt.store, MemoryStore.AppendTelemetry(Telemetry(device.id, at, values)));
            var shadow := Reporting(ShadowOf(rt.store, device), values);
            appended.Done? && MemoryStore.Apply(appended.store, MemoryStore.SaveShadow(shadow)) == MemoryStore.Done(Reported(rt, device, at, values).store)
  {
  }

  lemma ReportStores(rt: Runtime, device: Device, at: int, values: Values)
    requires WellKeyed(rt.store) && device.id in rt.store.tables.devices && rt.store.tables.devices[device.id] == device
    ensures var mid := Reported(rt, device, at, values);
            Ready(mid, device) && mid.states == rt.states && mid.effects == rt.effects
            && mid.store.shadows == rt.store.shadows[device.id := Reporting(ShadowOf(rt.store, device), values)]
            && mid.store.tables == rt.store.tables && mid.store.groupIDs == rt.store.groupIDs
  {
  }

  /** One accepted message: its values override Reported key by key; the version rises by one,
      plus one for each profile a rule applied; and Desired keeps what the report did not
      satisfy, unless a profile was applied, when it is the last profile's values. */
  lemma HandleMovesShadow(rt: Runtime, d: ID, at: int, values: Values, now: int, listing: seq<Rule>)
    requires WellKeyed(rt.store) && Handle(rt, d, at, values, now, listing).Fine?
    ensures var rt' := Handle(rt, d, at, values, now, listing).rt;
            WellKeyed(rt'.store) && rt.effects <= rt'.effects
            && d in rt'.store.shadows && d in rt.store.tables.devices
            && var s, s' := ShadowOf(rt.store, rt.store.tables.devices[d]), rt'.store.shadows[d];
               var applied := AppliedValues(rt'.effects[|rt.effects|..]);
               && s'.reported == s.reported + values
               && s'.version == s.version + 1 + |applied|
               && s'.desired == (if applied == [] then Pruned(s.desired, values) else applied[|applied| - 1])
    ensures var rt' := Handle(rt, d, at, values, now, listing).rt;
            rt'.store.tables.devices == rt.store.tables.devices && OthersKept(rt.store.shadows, rt'.store.shadows, d)
  {
    var device := rt.store.tables.devices[d];
    var time := Timestamp(at, now);
    var mid := Reported(rt, device, time, values);
    ReportStores(rt, device, time, values);
    MovedByRules(mid, listing, device, GroupsOf(rt.store, d), time, values);
  }

  // ---------------------------------------------------------------- runs

  datatype Event =
    | Report(device: ID, at: int, values: Values, now: int, listing: seq<Rule>)
    | SetDesired(device: ID, desired: Values)
    | Configure(profile: ID, device: ID)

  function Try(rt: Runtime, e: Event): Result {
    match e
    case Report(d, at, values, now, listing) => Handle(rt, d, at, values, now, listing)
    case SetDesired(d, desired) => UpdateDesired(rt, d, desired)
    case Configure(p, d) => ApplyConfig(rt, p, d)
  }

  function Step(rt: Runtime, e: Event): Runtime {
    match Try(rt, e)
    case Fine(rt') => rt'
    case Failed(_) => rt
  }

  function Run(rt: Runtime, events: seq<Event>): Runtime
    decreases events
  {
    if events == [] then rt else Run(Step(rt, events[0]), events[1..])
  }

  /** The values of the accepted messages of a device, in order. */
  function AcceptedReports(rt: Runtime, events: seq<Event>, d: ID): seq<Values>
    decreases events
  {
    if events == [] then []
    else
      var e := events[0];
      (if e.Report? && e.device == d && Try(rt, e).Fine? then [e.values] else [])
      + AcceptedReports(Step(rt, e), events[1..], d)
  }

  function ReportedNow(rt: Runtime, d: ID): Values {
    if d in rt.store.shadows then rt.store.shadows[d].reported else map[]
  }

  function Overlay(base: Values, reports: seq<Values>): Values
    decreases reports
  {
    if reports == [] then base else Overlay(base + reports[0], reports[1..])
  }

  lemma StepReported(rt: Runtime, e: Event, d: ID)
    requires WellKeyed(rt.store)
    ensures WellKeyed(Step(rt, e).store)
    ensures ReportedNow(Step(rt, e), d)
         == if e.Report? && e.device == d && Try(rt, e).Fine? then ReportedNow(rt, d) + e.values else ReportedNow(rt, d)
  {
    if Try(rt, e).Fine? {
      match e
      case Report(f, at, values, now, listing) => HandleMovesShadow(rt, f, at, values, now, listing);
      case SetDesired(f, desired) => DesiredKeepsReported(rt, f, desired, d);
      case Configure(p, f) => ConfigKeepsReported(rt, p, f, d);
    }
  }

  lemma DesiredKeepsReported(rt: Runtime, f: ID, desired: Values, d: ID)
    requires WellKeyed(rt.store) && UpdateDesired(rt, f, desired).Fine?
    ensures var rt' := UpdateDesired(rt, f, desired).rt;
            WellKeyed(rt'.store) && ReportedNow(rt', d) == ReportedNow(rt, d) && rt'.store.tables == rt.store.tables
  {
  }

  lemma ApplicationKeepsKeys(s: Snapshot, profile: ConfigProfile)
    requires WellKeyed(s)
    ensures WellKeyed(WithApplication(s, profile))
  {
  }

  lemma ConfigKeepsReported(rt: Runtime, p: ID, f: ID, d: ID)
    requires WellKeyed(rt.store) && ApplyConfig(rt, p, f).Fine?
    ensures var rt' := ApplyConfig(rt, p, f).rt; WellKeyed(rt'.store) && ReportedNow(rt', d) == ReportedNow(rt, d)
  {
    var device := rt.store.tables.devices[TrimSpace(f)];
    var profile := rt.store.tables.configs[TrimSpace(p)];
    DesiredKeepsReported(rt, device.id, profile.values, d);
  }

  /** The shadow refines the telemetry history: after any run, Reported is the accepted messages
      laid over one another in order, whatever the store's retention has dropped since. */
  lemma {:induction false} ShadowRefinesHistory(rt: Runtime, events: seq<Event>, d: ID)
    requires WellKeyed(rt.store)
    ensures ReportedNow(Run(rt, events), d) == Overlay(ReportedNow(rt, d), AcceptedReports(rt, events, d))
    decreases events
  {
    if events != [] {
      StepReported(rt, events[0], d);
      ShadowRefinesHistory(Step(rt, events[0]), events[1..], d);
      var e := events[0];
      var rest := AcceptedReports(Step(rt, e), events[1..], d);
      if e.Report? && e.device == d && Try(rt, e).Fine? {
        assert AcceptedReports(rt, events, d)[1..] == rest;
      } else {
        assert AcceptedReports(rt, events, d) == rest;
      }
    }
  }

  /** So a key's value is the one in the last accepted message that contains it. */
  lemma {:induction false} OverlayIsLast(base: Values, reports: seq<Values>, k: string, i: nat)
    requires i < |reports| && k in reports[i] && forall j :: i < j < |reports| ==> k !in reports[j]
    ensures k in Overlay(base, reports) && Overlay(base, reports)[k] == reports[i][k]
    decreases reports
  {
    if i == 0 {
      OverlayUntouched(base + reports[0], reports[1..], k);
    } else {
      OverlayIsLast(base + reports[0], reports[1..], k, i - 1);
    }
  }

  lemma {:induction false} OverlayUntouched(base: Values, reports: seq<Values>, k: string)
    requires forall j :: 0 <= j < |reports| ==> k !in reports[j]
    ensures k in Overlay(base, reports) <==> k in base
    ensures k in base ==> Overlay(base, reports)[k] == base[k]
    decreases reports
  {
    if reports != [] {
      assert k !in reports[0];
      assert forall j :: 0 <= j < |reports| - 1 ==> reports[1..][j] == reports[j + 1];
      OverlayUntouched(base + reports[0], reports[1..], k);
    }
  }

  // ---------------------------------------------------------------- cooldowns over runs

  function FiringsOf(effects: seq<Effect>): seq<Firing> {
    if effects == [] then []
    else
      var e := effects[|effects| - 1];
      FiringsOf(effects[..|effects| - 1]) + (if e.Fired? then [e.firing] else [])
  }

  lemma FiringsAppend(effects: seq<Effect>, e: Effect)
    ensures FiringsOf(effects + [e]) == FiringsOf(effects) + (if e.Fired? then [e.firing] else [])
  {
    assert (effects + [e])[..|effects|] == effects;
  }

  lemma ActionFiresNothing(rt: Runtime, rule: Rule, device: Device, at: int, action: Action)
    ensures var rt' := RunAction(rt, rule, device, at, action);
            rt'.states == rt.states && FiringsOf(rt'.effects) == FiringsOf(rt.effects)
  {
    var rt' := RunAction(rt, rule, device, at, action);
    var e := rt'.effects[|rt'.effects| - 1];
    assert rt'.effects == rt.effects + [e] && !e.Fired?;
    FiringsAppend(rt.effects, e);
  }

  lemma {:induction false} ActionsFireNothing(rt: Runtime, rule: Rule, device: Device, at: int, actions: seq<Action>)
    ensures var rt' := RunActions(rt, rule, device, at, actions);
            rt'.states == rt.states && FiringsOf(rt'.effects) == FiringsOf(rt.effects)
    decreases actions
  {
    if actions != [] {
      ActionFiresNothing(rt, rule, device, at, actions[0]);
      ActionsFireNothing(RunAction(rt, rule, device, at, actions[0]), rule, device, at, actions[1..]);
    }
  }

  /** The rule's firings for the device, a gap apart; the gap is the rule's cooldown. */
  ghost predicate CooldownKept(rt: Runtime, r: ID, d: ID, cooldownSeconds: int) {
    Remembers(rt.states, FiringsOf(rt.effects)) && Spaced(Times(FiringsOf(rt.effects), r, d), cooldownSeconds * SECOND)
  }

  /** Rules with ids free of NUL, among which r has one and the same cooldown. */
  predicate Proper(rules: seq<Rule>, r: ID, cooldownSeconds: int) {
    forall i :: 0 <= i < |rules| ==> NulFree(rules[i].id) && (rules[i].id == r ==> rules[i].cooldownSeconds == cooldownSeconds)
  }

  lemma RuleKeepsCooldown(rt: Runtime, rule: Rule, device: Device, groups: set<ID>, at: int, values: Values, r: ID, d: ID, cooldownSeconds: int)
    requires CooldownKept(rt, r, d, cooldownSeconds) && Proper([rule], r, cooldownSeconds) && at != ZERO_TIME
    requires 0 < cooldownSeconds && cooldownSeconds * SECOND <= MAX_INT64
    ensures CooldownKept(RunRule(rt, rule, device, groups, at, values), r, d, cooldownSeconds)
  {
    assert NulFree([rule][0].id);
    if Matches(rule, device, groups, values) && CanTrigger(rt.states, rule.id, device.id, rule.cooldownSeconds, at) {
      var acted := RunActions(rt, rule, device, at, ActionsOf(rule));
      ActionsFireNothing(rt, rule, device, at, ActionsOf(rule));
      var firing := Firing(rule.id, device.id, at);
      FiringsAppend(acted.effects, Fired(firing));
      var log := FiringsOf(rt.effects);
      RecordRemembers(rt.states, log, rule.id, device.id, at);
      if rule.id == r {
        RecordSpaced(rt.states, log, rule.id, device.id, cooldownSeconds, at, r, d, cooldownSeconds * SECOND);
      } else {
        assert (log + [firing])[..|log|] == log;
        assert Times(log + [firing], r, d) == Times(log, r, d);
      }
    }
  }

  lemma {:induction false} RulesKeepCooldown(rt: Runtime, rules: seq<Rule>, device: Device, groups: set<ID>, at: int, values: Values, r: ID, d: ID, cooldownSeconds: int)
    requires CooldownKept(rt, r, d, cooldownSeconds) && Proper(rules, r, cooldownSeconds) && at != ZERO_TIME
    requires 0 < cooldownSeconds && cooldownSeconds * SECOND <= MAX_INT64
    ensures CooldownKept(RunRules(rt, rules, device, groups, at, values), r, d, cooldownSeconds)
    decreases rules
  {
    if rules != [] {
      RuleKeepsCooldown(rt, rules[0], device, groups, at, values, r, d, cooldownSeconds);
      assert forall i :: 0 <= i < |rules| - 1 ==> rules[1..][i] == rules[i + 1];
      RulesKeepCooldown(RunRule(rt, rules[0], device, groups, at, values), rules[1..], device, groups, at, values, r, d, cooldownSeconds);
    }
  }

  /** The clock never shows the zero time, and the listings are proper. */
  predicate ProperEvents(events: seq<Event>, r: ID, cooldownSeconds: int) {
    forall i :: 0 <= i < |events| && events[i].Report? ==>
      events[i].now != ZERO_TIME && Proper(events[i].listing, r, cooldownSeconds)
  }

  /** Cooldown bound over runs: messages may carry any timestamps, in any order, yet two firings
      of a rule for a device are always a full cooldown apart, so the times strictly increase. */
  lemma {:induction false} RunKeepsCooldown(rt: Runtime, events: seq<Event>, r: ID, d: ID, cooldownSeconds: int)
    requires CooldownKept(rt, r, d, cooldownSeconds) && ProperEvents(events, r, cooldownSeconds)
    requires 0 < cooldownSeconds && cooldownSeconds * SECOND <= MAX_INT64
    ensures CooldownKept(Run(rt, events), r, d, cooldownSeconds)
    decreases events
  {
    if events != [] {
      var e := events[0];
      if e.Report? && Try(rt, e).Fine? {
        var device := rt.store.tables.devices[e.device];
        var time := Timestamp(e.at, e.now);
        var mid := Reported(rt, device, time, e.values);
        assert mid.states == rt.states && mid.effects == rt.effects;
        RulesKeepCooldown(mid, e.listing, device, GroupsOf(rt.store, device.id), time, e.values, r, d, cooldownSeconds);
      } else {
        assert Step(rt, e).states == rt.states && Step(rt, e).effects == rt.effects;
      }
      assert forall i :: 0 <= i < |events| - 1 ==> events[1..][i] == events[i + 1];
      RunKeepsCooldown(Step(rt, e), events[1..], r, d, cooldownSeconds);
    }
  }

  /** From a service that has just started, any closed window of w nanoseconds holds at most
      w / cooldown + 1 firings of a rule for a device. */
  lemma FiringRateBounded(s: Snapshot, events: seq<Event>, r: ID, d: ID, cooldownSeconds: int, a: int, w: nat)
    requires ProperEvents(events, r, cooldownSeconds)
    requires 0 < cooldownSeconds && cooldownSeconds * SECOND <= MAX_INT64
    ensures var times := Times(FiringsOf(Run(Runtime(s, map[], []), events).effects), r, d);
            InWindow(times, a, w) <= w / (cooldownSeconds * SECOND) + 1
  {
    var rt := Runtime(s, map[], []);
    RunKeepsCooldown(rt, events, r, d, cooldownSeconds);
    var times := Times(FiringsOf(Run(rt, events).effects), r, d);
    WindowBound(times, cooldownSeconds * SECOND, a, w);
  }

  // ---------------------------------------------------------------- trigger totals over runs

  predicate NulFreeRules(rules: seq<Rule>) {
    forall i :: 0 <= i < |rules| ==> NulFree(rules[i].id)
  }

  /** The total a rule's view sums up is the number of times the rule fired. */
  ghost predicate TotalKept(rt: Runtime, r: ID) {
    Total(rt.states, rt.states.Keys, r + [NUL]) == FiredBy(FiringsOf(rt.effects), r)
  }

  lemma RuleKeepsTotal(rt: Runtime, rule: Rule, device: Device, groups: set<ID>, at: int, values: Values, r: ID)
    requires TotalKept(rt, r) && NulFree(rule.id) && NulFree(r)
    ensures TotalKept(RunRule(rt, rule, device, groups, at, values), r)
  {
    if Matches(rule, device, groups, values) && CanTrigger(rt.states, rule.id, device.id, rule.cooldownSeconds, at) {
      var firing := Firing(rule.id, device.id, at);
      ActionsFireNothing(rt, rule, device, at, ActionsOf(rule));
      FiringsAppend(RunActions(rt, rule, device, at, ActionsOf(rule)).effects, Fired(firing));
      TotalAfterRecord(rt.states, rule.id, device.id, at, r);
      var log := FiringsOf(rt.effects);
      assert (log + [firing])[..|log|] == log;
    }
  }

  lemma {:induction false} RulesKeepTotal(rt: Runtime, rules: seq<Rule>, device: Device, groups: set<ID>, at: int, values: Values, r: ID)
    requires TotalKept(rt, r) && NulFreeRules(rules) && NulFree(r)
    ensures TotalKept(RunRules(rt, rules, device, groups, at, values), r)
    decreases rules
  {
    if rules != [] {
      RuleKeepsTotal(rt, rules[0], device, groups, at, values, r);
      assert forall i :: 0 <= i < |rules| - 1 ==> rules[1..][i] == rules[i + 1];
      RulesKeepTotal(RunRule(rt, rules[0], device, groups, at, values), rules[1..], device, groups, at, values, r);
    }
  }

  /** After any run from a fresh start, a rule's total counts exactly its own firings, over all
      devices, although the states of all rules share one map. */
  lemma {:induction false} RunKeepsTotal(rt: Runtime, events: seq<Event>, r: ID)
    requires TotalKept(rt, r) && NulFree(r)
    requires forall i :: 0 <= i < |events| && events[i].Report? ==> NulFreeRules(events[i].listing)
    ensures TotalKept(Run(rt, events), r)
    decreases events
  {
    if events != [] {
      var e := events[0];
      if e.Report? && Try(rt, e).Fine? {
        var device := rt.store.tables.devices[e.device];
        var time := Timestamp(e.at, e.now);
        var mid := Reported(rt, device, time, e.values);
        assert TotalKept(mid, r);
        RulesKeepTotal(mid, e.listing, device, GroupsOf(rt.store, device.id), time, e.values, r);
      } else {
        assert Step(rt, e).states == rt.states && Step(rt, e).effects == rt.effects;
      }
      assert forall i :: 0 <= i < |events| - 1 ==> events[1..][i] == events[i + 1];
      RunKeepsTotal(Step(rt, e), events[1..], r);
    }
  }

  // ---------------------------------------------------------------- which rules fire on a message

  /** The rules that match and whose cooldown is over, in order. */
  function Eligible(states: RuleStates, rules: seq<Rule>, device: Device, groups: set<ID>, at: int, values: Values): seq<Firing> {
    if rules == [] then []
    else EligibleOne(states, rules[0], device, groups, at, values) + Eligible(states, rules[1..], device, groups, at, values)
  }

  predicate DistinctRules(rules: seq<Rule>) {
    NulFreeRules(rules) && forall i, j :: 0 <= i < j < |rules| ==> rules[i].id != rules[j].id
  }

  /** Recording one rule's firing makes no other rule eligible or ineligible. */
  lemma {:induction false} EligibleStays(states: RuleStates, fired: ID, rules: seq<Rule>, device: Device, groups: set<ID>, at: int, values: Values)
    requires NulFree(fired) && NulFreeRules(rules) && forall i :: 0 <= i < |rules| ==> rules[i].id != fired
    ensures Eligible(Recorded(states, fired, device.id, at), rules, device, groups, at, values)
         == Eligible(states, rules, device, groups, at, values)
    decreases rules
  {
    if rules != [] {
      var id := rules[0].id;
      assert NulFree(id);
      if Key(id, device.id) == Key(fired, device.id) {
        KeyInjective(id, device.id, fired, device.id);
      }
      assert forall i :: 0 <= i < |rules| - 1 ==> rules[1..][i] == rules[i + 1];
      EligibleStays(states, fired, rules[1..], device, groups, at, values);
    }
  }

  function EligibleOne(states: RuleStates, rule: Rule, device: Device, groups: set<ID>, at: int, values: Values): seq<Firing> {
    if Matches(rule, device, groups, values) && CanTrigger(states, rule.id, device.id, rule.cooldownSeconds, at)
    then [Firing(rule.id, device.id, at)] else []
  }

  lemma RuleFires(rt: Runtime, rule: Rule, device: Device, groups: set<ID>, at: int, values: Values)
    ensures var rt' := RunRule(rt, rule, device, groups, at, values);
            var fired := EligibleOne(rt.states, rule, device, groups, at, values);
            && FiringsOf(rt'.effects) == FiringsOf(rt.effects) + fired
            && rt'.states == if fired == [] then rt.states else Recorded(rt.states, rule.id, device.id, at)
  {
    if EligibleOne(rt.states, rule, device, groups, at, values) != [] {
      ActionsFireNothing(rt, rule, device, at, ActionsOf(rule));
      FiringsAppend(RunActions(rt, rule, device, at, ActionsOf(rule)).effects, Fired(Firing(rule.id, device.id, at)));
    }
  }

  lemma FiredThenRest(states: RuleStates, states': RuleStates, rule: Rule, rest: seq<Rule>, device: Device, groups: set<ID>, at: int, values: Values)
    requires NulFree(rule.id) && NulFreeRules(rest) && forall i :: 0 <= i < |rest| ==> rest[i].id != rule.id
    requires states' == if EligibleOne(states, rule, device, groups, at, values) == [] then states else Recorded(states, rule.id, device.id, at)
    ensures EligibleOne(states, rule, device, groups, at, values) + Eligible(states', rest, device, groups, at, values)
         == Eligible(states, [rule] + rest, device, groups, at, values)
  {
    EligibleStays(states, rule.id, rest, device, groups, at, values);
    assert ([rule] + rest)[1..] == rest;
  }

  lemma DistinctTail(rules: seq<Rule>)
    requires DistinctRules(rules) && rules != []
    ensures DistinctRules(rules[1..]) && NulFree(rules[0].id)
    ensures forall i :: 0 <= i < |rules[1..]| ==> rules[1..][i].id != rules[0].id
  {
    assert forall i :: 0 <= i < |rules[1..]| ==> rules[1..][i] == rules[i + 1];
  }

  lemma Appended(before: seq<Firing>, one: seq<Firing>, later: seq<Firing>)
    ensures before + one + later == before + (one + later)
  {
  }

  /** A message fires exactly the rules that were eligible when it came in, each once and in the
      order listed, whatever the rules before them did. */
  lemma {:induction false} RulesAreIndependent(rt: Runtime, rules: seq<Rule>, device: Device, groups: set<ID>, at: int, values: Values)
    requires DistinctRules(rules)
    ensures FiringsOf(RunRules(rt, rules, device, groups, at, values).effects)
         == FiringsOf(rt.effects) + Eligible(rt.states, rules, device, groups, at, values)
    decreases rules
  {
    if rules != [] {
      DistinctTail(rules);
      var rule, rest := rules[0], rules[1..];
      var next := RunRule(rt, rule, device, groups, at, values);
      RulesAreIndependent(next, rest, device, groups, at, values);
      RuleFires(rt, rule, device, groups, at, values);
      FiredThenRest(rt.states, next.states, rule, rest, device, groups, at, values);
      assert [rule] + rest == rules;
      Appended(FiringsOf(rt.effects), EligibleOne(rt.states, rule, device, groups, at, values),
               Eligible(next.states, rest, device, groups, at, values));
    }
  }
}
