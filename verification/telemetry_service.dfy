/** The telemetry half of the service as it runs (internal/core/service.go,
    internal/core/automation.go): methods over the in-memory store and the rule states, each
    proved to do what `TelemetryRuntime` specifies. */
module TelemetryService {
  import opened Model
  import opened Text
  import opened Cooldown
  import opened TelemetryRuntime
  import MemoryStore

  /** Running rules moves no device between groups. */
  lemma {:induction false} ActionsKeepGroups(rt: Runtime, rule: Rule, device: Device, at: int, actions: seq<Action>)
    ensures RunActions(rt, rule, device, at, actions).store.groupIDs == rt.store.groupIDs
    decreases actions
  {
    if actions != [] {
      ActionsKeepGroups(RunAction(rt, rule, device, at, actions[0]), rule, device, at, actions[1..]);
    }
  }

  /** What of a report has been merged while some of its keys are still to do. */
  function Done(values: Values, todo: set<string>): Values {
    map k | k in values && k !in todo :: values[k]
  }

  function Merged(current: Shadow, values: Values, todo: set<string>): Shadow {
    current.(reported := current.reported + Done(values, todo), desired := Pruned(current.desired, Done(values, todo)))
  }

  lemma MergedNone(current: Shadow, values: Values)
    ensures Merged(current, values, values.Keys) == current
  {
    assert Done(values, values.Keys) == map[];
    assert Pruned(current.desired, map[]) == current.desired;
  }

  lemma MergedAll(current: Shadow, values: Values)
    ensures Merged(current, values, {}) == current.(reported := current.reported + values, desired := Pruned(current.desired, values))
  {
    assert Done(values, {}) == values;
  }

  lemma MergeOne(current: Shadow, values: Values, todo: set<string>, key: string)
    requires key in values && key in todo
    ensures var before, after := Merged(current, values, todo), Merged(current, values, todo - {key});
            && after.reported == before.reported[key := values[key]]
            && after.desired == if key in before.desired && ValuesEqual(before.desired[key], values[key])
                                then before.desired - {key} else before.desired
  {
  }

  class Service {
    const store: MemoryStore.Store
    var states: RuleStates
    /** What rules did beyond shadows, configs and states, in order. */
    var effects: seq<Effect>

    constructor (store: MemoryStore.Store)
      ensures this.store == store && states == map[] && effects == []
    {
      this.store := store;
      states := map[];
      effects := [];
    }

    function State(): Runtime
      reads this, store
    {
      Runtime(store.Contents(), states, effects)
    }

    ghost predicate Valid()
      reads this, store
    {
      WellKeyed(store.Contents())
    }

    method EnsureShadow(device: Device) returns (shadow: Shadow)
      modifies store`shadows
      ensures shadow == ShadowOf(old(store.Contents()), device)
      ensures store.shadows == if device.id in old(store.shadows) then old(store.shadows) else old(store.shadows)[device.id := shadow]
    {
      if device.id in store.shadows {
        return store.shadows[device.id];
      }
      shadow := Shadow(device.id, device.productID, map[], map[], 1);
      store.PutShadow(shadow);
    }

    method SaveDesired(device: Device, desired: Values)
      modifies store`shadows
      ensures var current := ShadowOf(old(store.Contents()), device);
              var shadow := current.(desired := desired, version := current.version + 1);
              store.Contents() == TelemetryRuntime.SaveShadow(old(store.Contents()), shadow)
    {
      var shadow := EnsureShadow(device);
      shadow := shadow.(desired := desired);
      shadow := shadow.(version := shadow.version + 1);
      store.PutShadow(shadow);
    }

    /** loadProduct and the product's check of the values. */
    method CheckValues(device: Device, values: Values) returns (fits: bool)
      ensures fits == Acceptable(store.Contents(), device, values)
    {
      var productID := TrimSpace(device.productID);
      if productID != "" && productID in store.products {
        if !ValuesFit(store.products[productID], values) {
          return false;
        }
      }
      return true;
    }

    method UpdateDesiredShadow(deviceID: ID, desired: Values) returns (failure: Option<Failure>)
      requires Valid()
      modifies store`shadows
      ensures match UpdateDesired(old(State()), deviceID, desired)
              case Fine(rt) => failure == None && State() == rt && Valid()
              case Failed(f) => failure == Some(f) && State() == old(State())
    {
      var id := TrimSpace(deviceID);
      if id !in store.devices {
        return Some(UnknownDevice);
      }
      var device := store.devices[id];
      var fits := CheckValues(device, desired);
      if !fits {
        return Some(InvalidValues);
      }
      SaveDesired(device, desired);
      DesiredKeepsReported(old(State()), deviceID, desired, id);
      return None;
    }

    method CountApplication(profile: ConfigProfile)
      requires profile.id in store.configs
      modifies store`configs
      ensures store.Contents() == WithApplication(old(store.Contents()), profile)
    {
      var counted := profile.(appliedCount := profile.appliedCount + 1);
      store.PutConfig(counted);
    }

    /** The second half of ApplyConfigProfile, for a profile in scope. */
    method GiveProfile(profile: ConfigProfile, device: Device) returns (failure: Option<Failure>)
      requires Valid() && profile.id in store.configs
      modifies store`shadows, store`configs
      ensures match Give(old(State()), profile, device)
              case Fine(rt) => failure == None && State() == rt && Valid()
              case Failed(f) => failure == Some(f) && State() == old(State())
    {
      failure := UpdateDesiredShadow(device.id, profile.values);
      if failure.Some? {
        return;
      }
      ghost var given := store.Contents();
      ApplicationKeepsKeys(given, profile);
      CountApplication(profile);
    }

    method ApplyConfigProfile(profileID: ID, deviceID: ID) returns (failure: Option<Failure>)
      requires Valid()
      modifies store`shadows, store`configs
      ensures match TelemetryRuntime.ApplyConfig(old(State()), profileID, deviceID)
              case Fine(rt) => failure == None && State() == rt && Valid()
              case Failed(f) => failure == Some(f) && State() == old(State())
    {
      var p := TrimSpace(profileID);
      if p !in store.configs {
        return Some(UnknownProfile);
      }
      var profile := store.configs[p];
      var d := TrimSpace(deviceID);
      if d !in store.devices {
        return Some(UnknownDevice);
      }
      var device := store.devices[d];
      if profile.tenantID != "" && device.tenantID != profile.tenantID {
        return Some(OutOfScope);
      }
      if profile.productID != "" && device.productID != profile.productID {
        return Some(OutOfScope);
      }
      failure := GiveProfile(profile, device);
    }

    method CanTriggerRule(rule: ID, device: ID, cooldownSeconds: int, at: int) returns (r: bool)
      ensures r == CanTrigger(states, rule, device, cooldownSeconds, at)
    {
      if cooldownSeconds <= 0 {
        return true;
      }
      var state := StateAt(states, Key(rule, device));
      if state.last == ZERO_TIME {
        return true;
      }
      return Sub(at, state.last) >= Wrap64(cooldownSeconds * SECOND);
    }

    method RecordRuleTrigger(rule: ID, device: ID, at: int)
      modifies this`states
      ensures states == Recorded(old(states), rule, device, at)
    {
      var key := Key(rule, device);
      var runtime := StateAt(states, key);
      runtime := runtime.(count := runtime.count + 1);
      runtime := runtime.(last := at);
      states := states[key := runtime];
    }

    /** executeRuleActions: a failed action is noted, and the next one runs. */
    method ExecuteRuleActions(rule: Rule, device: Device, at: int)
      requires Valid() && Ready(State(), device)
      modifies this`effects, store
      ensures State() == RunActions(old(State()), rule, device, at, ActionsOf(rule))
      ensures Valid() && Ready(State(), device)
    {
      var actions := rule.actions;
      if |actions| == 0 {
        actions := [RaiseAlert("")];
      }
      ghost var goal := RunActions(State(), rule, device, at, actions);
      assert actions[0..] == actions;
      for i := 0 to |actions|
        invariant Valid() && Ready(State(), device)
        invariant RunActions(State(), rule, device, at, actions[i..]) == goal
      {
        assert actions[i..][1..] == actions[i + 1..] && actions[i..][0] == actions[i];
        RunOneAction(rule, device, at, actions[i]);
      }
      assert actions[|actions|..] == [];
    }

    method RunOneAction(rule: Rule, device: Device, at: int, action: Action)
      requires Valid() && Ready(State(), device)
      modifies this`effects, store
      ensures State() == RunAction(old(State()), rule, device, at, action)
      ensures Valid() && Ready(State(), device)
    {
      MovedByAction(State(), rule, device, at, action);
      match action
      case SendCommand(name, params) =>
        effects := effects + [Commanded(device.id, name, params)];
      case RaiseAlert(message) =>
        effects := effects + [Alerted(rule.id, device.id, at, message)];
      case ApplyConfig(profileID) =>
        var values := if TrimSpace(profileID) in store.configs then store.configs[TrimSpace(profileID)].values else map[];
        var failure := ApplyConfigProfile(profileID, device.id);
        if failure.Some? {
          effects := effects + [NotApplied(profileID, device.id)];
        } else {
          effects := effects + [Applied(profileID, device.id, values)];
        }
    }

    /** evaluateRules: the rules as the store lists them; the groups are looked up by the first rule
        that needs them. The result shows the listing. */
    method EvaluateRules(device: Device, at: int, values: Values) returns (listing: seq<Rule>)
      requires Valid() && Ready(State(), device)
      modifies this, store
      ensures MemoryStore.IsListing(old(store.rules), listing)
      ensures State() == RunRules(old(State()), listing, device, GroupsOf(old(store.Contents()), device.id), at, values)
      ensures Valid() && Ready(State(), device)
    {
      listing := store.ListRules();
      var membership: Option<set<ID>> := None;
      ghost var groups := GroupsOf(store.Contents(), device.id);
      ghost var goal := RunRules(State(), listing, device, groups, at, values);
      assert listing[0..] == listing;
      for i := 0 to |listing|
        invariant Valid() && Ready(State(), device)
        invariant store.groupIDs == old(store.groupIDs)
        invariant membership.Some? ==> membership.value == groups
        invariant RunRules(State(), listing[i..], device, groups, at, values) == goal
      {
        assert listing[i..][1..] == listing[i + 1..] && listing[i..][0] == listing[i];
        membership := EvaluateRule(listing[i], device, at, values, membership);
      }
      assert listing[|listing|..] == [];
    }

    /** The scope and condition tests of evaluateRules; only the first rule bound to a group
        looks the device's groups up: what is known already is not looked up again. */
    method RuleApplies(rule: Rule, device: Device, values: Values, known: Option<set<ID>>) returns (applies: bool, membership: Option<set<ID>>)
      requires device.id in store.devices
      ensures known.Some? ==> membership == known
      requires known.Some? ==> known.value == GroupsOf(store.Contents(), device.id)
      ensures applies == Matches(rule, device, GroupsOf(store.Contents(), device.id), values)
      ensures membership.Some? ==> membership.value == GroupsOf(store.Contents(), device.id)
    {
      membership := known;
      if !rule.enabled {
        return false, membership;
      }
      if rule.tenantID != "" && rule.tenantID != device.tenantID {
        return false, membership;
      }
      if rule.productID != "" && rule.productID != device.productID {
        return false, membership;
      }
      if rule.deviceID != "" && rule.deviceID != device.id {
        return false, membership;
      }
      if rule.groupID != "" {
        if membership.None? {
          var groups := LookUpGroups(device.id);
          membership := Some(groups);
        }
        if rule.groupID !in membership.value {
          return false, membership;
        }
      }
      if rule.condition.property !in values {
        return false, membership;
      }
      applies := ConditionHolds(rule.condition.operator, values[rule.condition.property], rule.condition.value);
    }

    method LookUpGroups(deviceID: ID) returns (groups: set<ID>)
      requires deviceID in store.devices
      ensures groups == GroupsOf(store.Contents(), deviceID)
    {
      var answer := store.ListGroupIDsByDevice(deviceID);
      ghost var listed := Slice(store.groupIDs, deviceID);
      SortIsSorted(listed);
      MemoryStore.SameMultisetSameList(listed, Sort(listed));
      groups := set g | g in answer.ids;
    }

    /** The loop body of evaluateRules. */
    method EvaluateRule(rule: Rule, device: Device, at: int, values: Values, known: Option<set<ID>>) returns (membership: Option<set<ID>>)
      requires Valid() && Ready(State(), device)
      requires known.Some? ==> known.value == GroupsOf(store.Contents(), device.id)
      modifies this, store
      ensures State() == RunRule(old(State()), rule, device, GroupsOf(old(store.Contents()), device.id), at, values)
      ensures Valid() && Ready(State(), device)
      ensures store.groupIDs == old(store.groupIDs)
      ensures membership.Some? ==> membership.value == GroupsOf(old(store.Contents()), device.id)
    {
      var applies: bool;
      applies, membership := RuleApplies(rule, device, values, known);
      if !applies {
        return;
      }
      var can := CanTriggerRule(rule.id, device.id, rule.cooldownSeconds, at);
      if !can {
        return;
      }
      Fire(rule, device, at);
    }

    /** What evaluateRules does for a rule that may fire. */
    method Fire(rule: Rule, device: Device, at: int)
      requires Valid() && Ready(State(), device)
      modifies this, store
      ensures State() == Acted(old(State()), rule, device, at)
      ensures Valid() && Ready(State(), device)
      ensures store.groupIDs == old(store.groupIDs)
    {
      ActionsKeepGroups(State(), rule, device, at, ActionsOf(rule));
      ExecuteRuleActions(rule, device, at);
      RecordRuleTrigger(rule.id, device.id, at);
      effects := effects + [Fired(Firing(rule.id, device.id, at))];
    }

    /** The merging loop of HandleTelemetry, which visits the values in any order. */
    method MergeReport(current: Shadow, values: Values) returns (shadow: Shadow)
      ensures shadow == Reporting(current, values)
      ensures forall k :: k in shadow.desired <==>
                            k in current.desired && !(k in values && ValuesEqual(current.desired[k], values[k]))
    {
      shadow := current;
      var todo := values.Keys;
      MergedNone(current, values);
      while todo != {}
        invariant todo <= values.Keys
        invariant shadow == Merged(current, values, todo)
        decreases todo
      {
        var key :| key in todo;
        MergeOne(current, values, todo, key);
        todo := todo - {key};
        shadow := shadow.(reported := shadow.reported[key := values[key]]);
        if key in shadow.desired && ValuesEqual(shadow.desired[key], values[key]) {
          shadow := shadow.(desired := shadow.desired - {key});
        }
      }
      MergedAll(current, values);
      shadow := shadow.(version := shadow.version + 1);
    }

    method HandleTelemetry(deviceID: ID, at: int, values: Values, now: int) returns (failure: Option<Failure>, listing: seq<Rule>)
      requires Valid()
      modifies this, store
      ensures failure.None? ==> MemoryStore.IsListing(old(store.rules), listing)
      ensures match Handle(old(State()), deviceID, at, values, now, listing)
              case Fine(rt) => failure == None && State() == rt && Valid()
              case Failed(f) => failure == Some(f) && State() == old(State())
    {
      if deviceID !in store.devices {
        return Some(UnknownDevice), [];
      }
      var device := store.devices[deviceID];
      var fits := CheckValues(device, values);
      if !fits {
        return Some(InvalidValues), [];
      }
      var time := at;
      if time == ZERO_TIME {
        time := now;
      }
      StoreReport(device, time, values);
      listing := EvaluateRules(device, time, values);
      failure := None;
    }

    method SaveReport(device: Device, values: Values)
      modifies store`shadows
      ensures var shadow := Reporting(ShadowOf(old(store.Contents()), device), values);
              store.shadows == old(store.shadows)[shadow.deviceID := shadow]
    {
      var shadow := EnsureShadow(device);
      shadow := MergeReport(shadow, values);
      store.PutShadow(shadow);
    }

    method StoreReport(device: Device, time: int, values: Values)
      requires Valid() && device.id in store.devices && store.devices[device.id] == device
      modifies store
      ensures State() == Reported(old(State()), device, time, values)
      ensures Valid() && Ready(State(), device)
      ensures store.groupIDs == old(store.groupIDs) && store.rules == old(store.rules)
    {
      ghost var rt := State();
      store.PutTelemetry(Telemetry(device.id, time, values));
      SaveReport(device, values);
      ReportStores(rt, device, time, values);
    }
  }
}
