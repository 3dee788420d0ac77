/** Creating rules: CreateRuleWithTenant and normalizeRuleActions
    (internal/core/multitenant_ota.go), and the scopes that every stored rule keeps. */
module RuleScoping {
  import opened Model
  import opened Text
  import opened Scoping
  import MemoryStore
  import Provisioning
  import TelemetryRuntime

  /** An action as it is asked for. */
  datatype RawAction = RawAction(kind: string, name: string, params: Values, profileID: ID, message: string)

  datatype Draft = Draft(
    id: ID, tenantID: ID, name: string, productID: ID, groupID: ID, deviceID: ID,
    enabled: bool, cooldownSeconds: int, condition: Condition, actions: seq<RawAction>)

  // ---------------------------------------------------------------- narrowing the scope

  datatype Narrowing = Within(tenantID: ID, productID: ID) | Outside(failure: Failure)

  /** A scope that is still open is taken over from the entity; a closed one must agree. */
  function Narrow(tenantID: ID, productID: ID, ofTenant: ID, ofProduct: ID): Narrowing {
    if tenantID != "" && ofTenant != tenantID then Outside(ScopeMismatch)
    else if ofProduct != "" && productID != "" && productID != ofProduct then Outside(ScopeMismatch)
    else Within(if tenantID == "" then ofTenant else tenantID, if productID == "" then ofProduct else productID)
  }

  function ByGroup(t: Tables, tenantID: ID, productID: ID, groupID: ID): Narrowing {
    if groupID == "" then Within(tenantID, productID)
    else if groupID !in t.groups then Outside(Scoping.Missing(MemoryStore.GroupKind))
    else Narrow(tenantID, productID, t.groups[groupID].tenantID, t.groups[groupID].productID)
  }

  function ByDevice(t: Tables, tenantID: ID, productID: ID, deviceID: ID): Narrowing {
    if deviceID == "" then Within(tenantID, productID)
    else if deviceID !in t.devices then Outside(Scoping.Missing(MemoryStore.DeviceKind))
    else Narrow(tenantID, productID, t.devices[deviceID].tenantID, t.devices[deviceID].productID)
  }

  /** A product that does not exist is not held against the rule. */
  function ByProduct(t: Tables, tenantID: ID, productID: ID): Narrowing {
    var id := TrimSpace(productID);
    if id == "" || id !in t.products then Within(tenantID, productID)
    else if tenantID == "" then Within(t.products[id].tenantID, productID)
    else if t.products[id].tenantID != tenantID then Outside(ScopeMismatch)
    else Within(tenantID, productID)
  }

  /** The scope after the group, the device and the product, in this order. */
  function ByAll(t: Tables, tenantID: ID, productID: ID, groupID: ID, deviceID: ID): Narrowing {
    match ByGroup(t, tenantID, productID, groupID)
    case Outside(f) => Outside(f)
    case Within(t1, p1) =>
      match ByDevice(t, t1, p1, deviceID)
      case Outside(f) => Outside(f)
      case Within(t2, p2) => ByProduct(t, t2, p2)
  }

  function LoadProduct(t: Tables, productID: ID): Option<Product> {
    var id := TrimSpace(productID);
    if id != "" && id in t.products then Some(t.products[id]) else None
  }

  // ---------------------------------------------------------------- the condition

  /** normalizeRuleOperator; the empty string stands for an unsupported operator. */
  function OperatorAlias(value: string): string {
    match ToLower(TrimSpace(value))
    case ">" => "gt"
    case "gt" => "gt"
    case ">=" => "gte"
    case "gte" => "gte"
    case "<" => "lt"
    case "lt" => "lt"
    case "<=" => "lte"
    case "lte" => "lte"
    case "=" => "eq"
    case "==" => "eq"
    case "eq" => "eq"
    case "!=" => "neq"
    case "<>" => "neq"
    case "neq" => "neq"
    case _ => ""
  }

  predicate Ordering(operator: string) {
    operator == "gt" || operator == "gte" || operator == "lt" || operator == "lte"
  }

  predicate KnownOperator(operator: string) {
    Ordering(operator) || operator == "eq" || operator == "neq"
  }

  datatype CheckedCondition = FitCondition(condition: Condition) | UnfitCondition(failure: Failure)

  function CheckCondition(product: Option<Product>, condition: Condition): CheckedCondition {
    var property, operator := TrimSpace(condition.property), OperatorAlias(condition.operator);
    if property == "" || operator == "" then UnfitCondition(Required)
    else if product.Some? && property !in product.value.properties then UnfitCondition(InvalidModel)
    else if product.Some? && !TypeFits(product.value.properties[property], condition.value) then UnfitCondition(InvalidModel)
    else if product.Some? && Ordering(operator) && !condition.value.Number? then UnfitCondition(InvalidModel)
    else FitCondition(Condition(property, operator, condition.value))
  }

  lemma CheckedConditionFits(product: Option<Product>, condition: Condition)
    requires CheckCondition(product, condition).FitCondition?
    ensures var c := CheckCondition(product, condition).condition; c.property != "" && KnownOperator(c.operator)
  {
  }

  // ---------------------------------------------------------------- the actions

  datatype ActionType = AlertType | CommandType | ConfigType | NoType

  /** normalizeRuleActionType. */
  function TypeOf(kind: string): ActionType {
    match ToLower(TrimSpace(kind))
    case "alert" => AlertType
    case "send_command" => CommandType
    case "command" => CommandType
    case "apply_config_profile" => ConfigType
    case "config" => ConfigType
    case "config_profile" => ConfigType
    case _ => NoType
  }

  datatype Checked = Fit(action: Action) | Unfit(failure: Failure)

  function CheckAction(t: Tables, tenantID: ID, product: Option<Product>, action: RawAction): Checked {
    match TypeOf(action.kind)
    case NoType => Unfit(InvalidModel)
    case AlertType => Fit(RaiseAlert(TrimSpace(action.message)))
    case CommandType =>
      var name := TrimSpace(action.name);
      if name == "" then Unfit(Required)
      else if product.Some? && product.value.services != {} && name !in product.value.services then Unfit(InvalidModel)
      else Fit(SendCommand(name, action.params))
    case ConfigType =>
      var id := TrimSpace(action.profileID);
      if id == "" then Unfit(Required)
      else if id !in t.configs then Unfit(Scoping.Missing(MemoryStore.ConfigKind))
      else if tenantID != "" && t.configs[id].tenantID != tenantID then Unfit(ScopeMismatch)
      else if product.Some? && t.configs[id].productID != "" && t.configs[id].productID != product.value.id then Unfit(ScopeMismatch)
      else Fit(ApplyConfig(id))
  }

  datatype CheckedAll = AllFit(actions: seq<Action>) | SomeUnfit(failure: Failure)

  function CheckActions(t: Tables, tenantID: ID, product: Option<Product>, actions: seq<RawAction>): CheckedAll {
    if actions == [] then AllFit([])
    else
      match CheckAction(t, tenantID, product, actions[0])
      case Unfit(f) => SomeUnfit(f)
      case Fit(a) =>
        match CheckActions(t, tenantID, product, actions[1..])
        case SomeUnfit(f) => SomeUnfit(f)
        case AllFit(rest) => AllFit([a] + rest)
  }

  function NormalActions(t: Tables, tenantID: ID, product: Option<Product>, actions: seq<RawAction>): CheckedAll {
    if actions == [] then AllFit([RaiseAlert("")]) else CheckActions(t, tenantID, product, actions)
  }

  // ---------------------------------------------------------------- the rule

  datatype Draw = Drawn(rule: Rule) | Refused(failure: Failure)

  function DrawUp(t: Tables, r: Draft): Draw {
    var tenantID, groupID, deviceID, productID := TrimSpace(r.tenantID), TrimSpace(r.groupID), TrimSpace(r.deviceID), TrimSpace(r.productID);
    if TrimSpace(r.name) == "" || (productID == "" && groupID == "" && deviceID == "") || r.cooldownSeconds < 0 then Refused(Required)
    else if tenantID != "" && tenantID !in t.tenants then Refused(Scoping.Missing(MemoryStore.TenantKind))
    else
      match ByAll(t, tenantID, productID, groupID, deviceID)
      case Outside(f) => Refused(f)
      case Within(t3, p3) => Finish(t, r, t3, p3, groupID, deviceID)
  }

  function Finish(t: Tables, r: Draft, tenantID: ID, productID: ID, groupID: ID, deviceID: ID): Draw {
    var product := LoadProduct(t, productID);
    match CheckCondition(product, r.condition)
    case UnfitCondition(f) => Refused(f)
    case FitCondition(condition) =>
      match NormalActions(t, tenantID, product, r.actions)
      case SomeUnfit(f) => Refused(f)
      case AllFit(actions) =>
        Drawn(Rule(r.id, tenantID, productID, groupID, deviceID, r.enabled, r.cooldownSeconds, condition, actions))
  }

  function ServeRule(s: Snapshot, r: Draft): Reply {
    match DrawUp(s.tables, r)
    case Refused(f) => Rejected(f)
    case Drawn(rule) => Written(s, MemoryStore.CreateRule(rule))
  }

  // ---------------------------------------------------------------- what a stored rule keeps

  predicate Agrees(rule: Rule, ofTenant: ID, ofProduct: ID) {
    (ofTenant != "" ==> rule.tenantID == ofTenant) && (ofProduct != "" ==> rule.productID == ofProduct)
  }

  predicate ActionFits(t: Tables, tenantID: ID, action: Action) {
    action.ApplyConfig? ==> Trimmed(IsSpace, action.profileID) && action.profileID in t.configs
                            && (tenantID != "" ==> t.configs[action.profileID].tenantID == tenantID)
  }

  /** A rule has a scope and an existing tenant, if any; agrees with the group and the device it
      names; asks something that can hold; has something to do; and applies only existing profiles
      of its own tenant. */
  predicate RuleFits(t: Tables, rule: Rule) {
    && rule.cooldownSeconds >= 0
    && (rule.productID != "" || rule.groupID != "" || rule.deviceID != "")
    && TenantKnown(t, rule.tenantID)
    && (rule.groupID != "" ==> rule.groupID in t.groups && Agrees(rule, t.groups[rule.groupID].tenantID, t.groups[rule.groupID].productID))
    && (rule.deviceID != "" ==> rule.deviceID in t.devices && Agrees(rule, t.devices[rule.deviceID].tenantID, t.devices[rule.deviceID].productID))
    && rule.condition.property != "" && KnownOperator(rule.condition.operator)
    && rule.actions != []
    && forall i :: 0 <= i < |rule.actions| ==> ActionFits(t, rule.tenantID, rule.actions[i])
  }

  /** A rule's product, if it exists, belongs to the rule's tenant, and the profiles the rule
      applies are for that product or for none. */
  predicate ProductAgrees(t: Tables, rule: Rule) {
    var id := TrimSpace(rule.productID);
    id != "" && id in t.products ==>
      && t.products[id].tenantID == rule.tenantID
      && forall i :: 0 <= i < |rule.actions| && rule.actions[i].ApplyConfig? && rule.actions[i].profileID in t.configs ==>
           t.configs[rule.actions[i].profileID].productID == "" || t.configs[rule.actions[i].profileID].productID == id
  }

  ghost predicate RulesFit(t: Tables) {
    forall k :: k in t.rules ==> RuleFits(t, t.rules[k])
  }

  ghost predicate ProductsAgree(t: Tables) {
    forall k :: k in t.rules ==> ProductAgrees(t, t.rules[k])
  }

  lemma CheckedFits(t: Tables, tenantID: ID, product: Option<Product>, action: RawAction)
    requires CheckAction(t, tenantID, product, action).Fit?
    ensures ActionFits(t, tenantID, CheckAction(t, tenantID, product, action).action)
  {
    TrimIsTrimmed(IsSpace, action.profileID);
  }

  predicate ActionSuits(t: Tables, product: Option<Product>, action: Action) {
    action.ApplyConfig? && product.Some? && action.profileID in t.configs ==>
      t.configs[action.profileID].productID == "" || t.configs[action.profileID].productID == product.value.id
  }

  lemma {:induction false} CheckedAllFit(t: Tables, tenantID: ID, product: Option<Product>, actions: seq<RawAction>)
    requires CheckActions(t, tenantID, product, actions).AllFit?
    ensures var checked := CheckActions(t, tenantID, product, actions).actions;
            |checked| == |actions|
            && forall i :: 0 <= i < |checked| ==> ActionFits(t, tenantID, checked[i]) && ActionSuits(t, product, checked[i])
  {
    if actions != [] {
      CheckedFits(t, tenantID, product, actions[0]);
      CheckedAllFit(t, tenantID, product, actions[1..]);
    }
  }

  lemma FinishedFits(t: Tables, r: Draft, tenantID: ID, productID: ID, groupID: ID, deviceID: ID)
    requires Finish(t, r, tenantID, productID, groupID, deviceID).Drawn?
    ensures var rule := Finish(t, r, tenantID, productID, groupID, deviceID).rule;
            && rule.tenantID == tenantID && rule.productID == productID && rule.groupID == groupID && rule.deviceID == deviceID
            && rule.cooldownSeconds == r.cooldownSeconds
            && rule.condition.property != "" && KnownOperator(rule.condition.operator)
            && rule.actions != []
            && forall i :: 0 <= i < |rule.actions| ==>
                 ActionFits(t, tenantID, rule.actions[i]) && ActionSuits(t, LoadProduct(t, productID), rule.actions[i])
  {
    CheckedConditionFits(LoadProduct(t, productID), r.condition);
    if r.actions != [] {
      CheckedAllFit(t, tenantID, LoadProduct(t, productID), r.actions);
    }
  }

  /** A scope taken over from, or compared with, a record agrees with it. */
  predicate ScopeAgrees(n: Narrowing, ofTenant: ID, ofProduct: ID) {
    n.Within? && (ofTenant != "" ==> n.tenantID == ofTenant) && (ofProduct != "" ==> n.productID == ofProduct)
  }

  lemma NarrowedFits(t: Tables, tenantID: ID, productID: ID, groupID: ID, deviceID: ID)
    requires TablesScoped(t) && TenantKnown(t, tenantID) && ByAll(t, tenantID, productID, groupID, deviceID).Within?
    ensures var n := ByAll(t, tenantID, productID, groupID, deviceID);
            && TenantKnown(t, n.tenantID)
            && (groupID != "" ==> groupID in t.groups && ScopeAgrees(n, t.groups[groupID].tenantID, t.groups[groupID].productID))
            && (deviceID != "" ==> deviceID in t.devices && ScopeAgrees(n, t.devices[deviceID].tenantID, t.devices[deviceID].productID))
            && (productID != "" || groupID != "" || deviceID != "" ==> n.productID != "" || groupID != "" || deviceID != "")
            && var id := TrimSpace(n.productID); id != "" && id in t.products ==> t.products[id].tenantID == n.tenantID
  {
    var n1 := ByGroup(t, tenantID, productID, groupID);
    assert TenantKnown(t, n1.tenantID);
    var n2 := ByDevice(t, n1.tenantID, n1.productID, deviceID);
    assert TenantKnown(t, n2.tenantID);
  }

  /** A rule drawn up in a scoped store fits, and agrees with its product if that exists. */
  lemma DrawnFits(t: Tables, r: Draft)
    requires TablesScoped(t) && DrawUp(t, r).Drawn?
    ensures RuleFits(t, DrawUp(t, r).rule) && ProductAgrees(t, DrawUp(t, r).rule)
  {
    var tenantID, groupID, deviceID, productID := TrimSpace(r.tenantID), TrimSpace(r.groupID), TrimSpace(r.deviceID), TrimSpace(r.productID);
    NarrowedFits(t, tenantID, productID, groupID, deviceID);
    var n := ByAll(t, tenantID, productID, groupID, deviceID);
    FinishedFits(t, r, n.tenantID, n.productID, groupID, deviceID);
    ProductOfDrawn(t, r, n.tenantID, n.productID, groupID, deviceID);
  }

  lemma ProductOfDrawn(t: Tables, r: Draft, tenantID: ID, productID: ID, groupID: ID, deviceID: ID)
    requires ProductsScoped(t) && Finish(t, r, tenantID, productID, groupID, deviceID).Drawn?
    requires var id := TrimSpace(productID); id != "" && id in t.products ==> t.products[id].tenantID == tenantID
    ensures ProductAgrees(t, Finish(t, r, tenantID, productID, groupID, deviceID).rule)
  {
    var rule := Finish(t, r, tenantID, productID, groupID, deviceID).rule;
    FinishedFits(t, r, tenantID, productID, groupID, deviceID);
    var id := TrimSpace(productID);
    if id != "" && id in t.products {
      assert t.products[id].id == id;
      forall i | 0 <= i < |rule.actions| && rule.actions[i].ApplyConfig? && rule.actions[i].profileID in t.configs
        ensures t.configs[rule.actions[i].profileID].productID == "" || t.configs[rule.actions[i].profileID].productID == id
      {
        assert ActionSuits(t, LoadProduct(t, productID), rule.actions[i]);
      }
    }
  }

  /** A product that does not exist is no reason for refusal: a rule may name any. */
  lemma UnknownProductAccepted(t: Tables, id: ID, productID: ID)
    requires productID != "" && Trimmed(IsSpace, productID) && productID !in t.products
    ensures var d := DrawUp(t, Draft(id, "", "n", productID, "", "", true, 0, Condition("p", "eq", Flag(true)), []));
            d.Drawn? && d.rule.productID == productID
  {
    TrimIsTrimmed(IsSpace, productID);
    Literals();
  }

  predicate ProductKnown(t: Tables, productID: ID) {
    productID == "" || productID in t.products
  }

  lemma GroupKeepsKnown(t: Tables, tenantID: ID, productID: ID, groupID: ID)
    requires GroupsScoped(t) && ByGroup(t, tenantID, productID, groupID).Within?
    ensures ProductKnown(t, ByGroup(t, tenantID, productID, groupID).productID) <==> ProductKnown(t, productID)
  {
  }

  lemma DeviceKeepsKnown(t: Tables, tenantID: ID, productID: ID, deviceID: ID)
    requires DevicesScoped(t) && ByDevice(t, tenantID, productID, deviceID).Within?
    ensures ProductKnown(t, ByDevice(t, tenantID, productID, deviceID).productID) <==> ProductKnown(t, productID)
  {
  }

  /** In a scoped store a rule names an existing product, or none, exactly when its request did: a
      product taken over from a group or a device always exists. */
  lemma DrawnProductExistsIff(t: Tables, r: Draft)
    requires TablesScoped(t) && DrawUp(t, r).Drawn?
    ensures ProductKnown(t, DrawUp(t, r).rule.productID) <==> ProductKnown(t, TrimSpace(r.productID))
  {
    var tenantID, groupID, deviceID, productID := TrimSpace(r.tenantID), TrimSpace(r.groupID), TrimSpace(r.deviceID), TrimSpace(r.productID);
    var n1 := ByGroup(t, tenantID, productID, groupID);
    var n2 := ByDevice(t, n1.tenantID, n1.productID, deviceID);
    var n3 := ByProduct(t, n2.tenantID, n2.productID);
    GroupKeepsKnown(t, tenantID, productID, groupID);
    DeviceKeepsKnown(t, n1.tenantID, n1.productID, deviceID);
    FinishedFits(t, r, n3.tenantID, n3.productID, groupID, deviceID);
  }

  lemma Literals()
    ensures TrimSpace("") == "" && TrimSpace("n") == "n" && TrimSpace("p") == "p" && OperatorAlias("eq") == "eq"
  {
    TrimIsTrimmed(IsSpace, "n");
    TrimIsTrimmed(IsSpace, "p");
    TrimIsTrimmed(IsSpace, "eq");
    assert ToLower("eq") == "eq";
  }

  // ---------------------------------------------------------------- every reachable store

  /** Tenants, groups and devices stay and keep their scopes; profiles stay and keep theirs. */
  ghost predicate Settled(t: Tables, t': Tables) {
    && t.tenants.Keys <= t'.tenants.Keys
    && (forall g :: g in t.groups ==> g in t'.groups && t'.groups[g] == t.groups[g])
    && (forall d :: d in t.devices ==>
          d in t'.devices && t'.devices[d].tenantID == t.devices[d].tenantID && t'.devices[d].productID == t.devices[d].productID)
    && (forall c :: c in t.configs ==>
          c in t'.configs && t'.configs[c].tenantID == t.configs[c].tenantID && t'.configs[c].productID == t.configs[c].productID)
  }

  lemma RuleStaysFit(t: Tables, t': Tables, rule: Rule)
    requires Settled(t, t') && RuleFits(t, rule)
    ensures RuleFits(t', rule)
  {
  }

  /** A rule goes on agreeing with its product as long as the product is not created after it. */
  lemma ProductStaysAgreed(t: Tables, t': Tables, rule: Rule)
    requires Settled(t, t') && Grown(t, t') && RuleFits(t, rule) && ProductAgrees(t, rule)
    requires TrimSpace(rule.productID) in t'.products ==> TrimSpace(rule.productID) in t.products
    ensures ProductAgrees(t', rule)
  {
    forall i | 0 <= i < |rule.actions| && rule.actions[i].ApplyConfig? && rule.actions[i].profileID in t'.configs
      ensures rule.actions[i].profileID in t.configs
    {
      assert ActionFits(t, rule.tenantID, rule.actions[i]);
    }
  }

  /** Creating adds an entry and changes none. */
  lemma CreationSettles(s: Snapshot, w: MemoryStore.Write)
    requires MemoryStore.IsCreate(w) && !w.CreateRule? && Written(s, w).Accepted?
    ensures Settled(s.tables, Written(s, w).store.tables) && Written(s, w).store.tables.rules == s.tables.rules
  {
  }

  lemma CreateRequestSettles(s: Snapshot, r: Request)
    requires r.CreateTenant? || r.CreateProduct? || r.CreateGroup?
    requires Serve(s, r).Accepted?
    ensures Settled(s.tables, Serve(s, r).store.tables) && Serve(s, r).store.tables.rules == s.tables.rules
  {
    var w :| MemoryStore.IsCreate(w) && !w.CreateRule? && Serve(s, r) == Written(s, w);
    CreationSettles(s, w);
  }

  lemma ScopedRequestSettles(s: Snapshot, r: Request)
    requires r.CreateConfig? || r.CreateFirmware?
    requires Serve(s, r).Accepted?
    ensures Settled(s.tables, Serve(s, r).store.tables) && Serve(s, r).store.tables.rules == s.tables.rules
  {
    var w :| MemoryStore.IsCreate(w) && !w.CreateRule? && Serve(s, r) == Written(s, w);
    CreationSettles(s, w);
  }

  lemma DeviceRequestSettles(s: Snapshot, r: Request)
    requires r.CreateDevice? && Serve(s, r).Accepted?
    ensures Settled(s.tables, Serve(s, r).store.tables) && Serve(s, r).store.tables.rules == s.tables.rules
  {
    var w :| MemoryStore.IsCreate(w) && !w.CreateRule? && Written(s, w).Accepted? && Serve(s, r).store.tables == Written(s, w).store.tables;
    CreationSettles(s, w);
  }

  lemma ThingModelSettles(s: Snapshot, r: Request)
    requires ScopeInv(s) && r.UpdateThingModel? && ServeThingModel(s, r).Accepted?
    ensures var t' := ServeThingModel(s, r).store.tables; Settled(s.tables, t') && t'.rules == s.tables.rules
  {
  }

  lemma TagsSettle(s: Snapshot, d: ID, tags: map<string, string>)
    requires ScopeInv(s) && ServeTags(s, d, tags).Accepted?
    ensures var t' := ServeTags(s, d, tags).store.tables; Settled(s.tables, t') && t'.rules == s.tables.rules
  {
  }

  lemma UpdateSettles(s: Snapshot, r: Request)
    requires ScopeInv(s) && (r.UpdateThingModel? || r.UpdateDeviceTags?)
    requires Serve(s, r).Accepted?
    ensures Settled(s.tables, Serve(s, r).store.tables) && Serve(s, r).store.tables.rules == s.tables.rules
  {
    if r.UpdateThingModel? {
      ThingModelSettles(s, r);
    } else {
      TagsSettle(s, r.deviceID, r.tags);
    }
  }

  lemma BackgroundSettles(s: Snapshot, w: MemoryStore.Write)
    requires Unscoped(s, w) && !w.CreateRule? && Written(s, w).Accepted?
    ensures Settled(s.tables, Written(s, w).store.tables) && Written(s, w).store.tables.rules == s.tables.rules
  {
    if MemoryStore.IsCreate(w) {
      CreationSettles(s, w);
    } else if MemoryStore.IsSave(w) {
      UnscopedTables(s, w);
    } else {
      RecordsKeepTables(s, w);
    }
  }

  lemma MembershipSettles(s: Snapshot, r: Request)
    requires (r.AssignDevice? || r.RemoveDevice? || r.Reload?) && Serve(s, r).Accepted?
    ensures Serve(s, r).store.tables == s.tables
  {
  }

  /** What operators and the rest of the service do to the tables that rules refer to. */
  lemma ServeSettles(s: Snapshot, r: Request)
    requires ScopeInv(s) && Possible(s, r) && Serve(s, r).Accepted?
    requires r.Background? ==> !r.write.CreateRule?
    ensures Settled(s.tables, Serve(s, r).store.tables) && Serve(s, r).store.tables.rules == s.tables.rules
  {
    if r.CreateTenant? || r.CreateProduct? || r.CreateGroup? {
      CreateRequestSettles(s, r);
    } else if r.CreateConfig? || r.CreateFirmware? {
      ScopedRequestSettles(s, r);
    } else if r.CreateDevice? {
      DeviceRequestSettles(s, r);
    } else if r.UpdateThingModel? || r.UpdateDeviceTags? {
      UpdateSettles(s, r);
    } else if r.UpdateAccessProfile? {
      AccessProfileKeeps(s, r.productID, r.profileFits);
    } else if r.Background? {
      BackgroundSettles(s, r.write);
    } else {
      MembershipSettles(s, r);
    }
  }

  ghost predicate SameProducts(t: Tables, t': Tables) {
    Grown(t, t') && t'.products.Keys == t.products.Keys
  }

  lemma CreationKeepsProducts(s: Snapshot, w: MemoryStore.Write)
    requires MemoryStore.IsCreate(w) && !w.CreateProduct? && Written(s, w).Accepted?
    ensures SameProducts(s.tables, Written(s, w).store.tables)
  {
  }

  lemma CreateRequestKeepsProducts(s: Snapshot, r: Request)
    requires r.CreateTenant? || r.CreateGroup? || r.CreateConfig? || r.CreateFirmware?
    requires Serve(s, r).Accepted?
    ensures SameProducts(s.tables, Serve(s, r).store.tables)
  {
    var w :| MemoryStore.IsCreate(w) && !w.CreateProduct? && Serve(s, r) == Written(s, w);
    CreationKeepsProducts(s, w);
  }

  lemma DeviceRequestKeepsProducts(s: Snapshot, r: Request)
    requires r.CreateDevice? && Serve(s, r).Accepted?
    ensures SameProducts(s.tables, Serve(s, r).store.tables)
  {
    var w :| MemoryStore.IsCreate(w) && !w.CreateProduct? && Written(s, w).Accepted? && Serve(s, r).store.tables == Written(s, w).store.tables;
    CreationKeepsProducts(s, w);
  }

  lemma ThingModelKeepsProducts(s: Snapshot, r: Request)
    requires ScopeInv(s) && r.UpdateThingModel? && ServeThingModel(s, r).Accepted?
    ensures SameProducts(s.tables, ServeThingModel(s, r).store.tables)
  {
  }

  lemma TagsKeepProducts(s: Snapshot, d: ID, tags: map<string, string>)
    requires ServeTags(s, d, tags).Accepted?
    ensures SameProducts(s.tables, ServeTags(s, d, tags).store.tables)
  {
  }

  lemma UpdateKeepsProducts(s: Snapshot, r: Request)
    requires ScopeInv(s) && (r.UpdateThingModel? || r.UpdateDeviceTags?) && Serve(s, r).Accepted?
    ensures SameProducts(s.tables, Serve(s, r).store.tables)
  {
    if r.UpdateThingModel? {
      ThingModelKeepsProducts(s, r);
    } else {
      TagsKeepProducts(s, r.deviceID, r.tags);
    }
  }

  lemma BackgroundKeepsProducts(s: Snapshot, w: MemoryStore.Write)
    requires Unscoped(s, w) && Written(s, w).Accepted?
    ensures SameProducts(s.tables, Written(s, w).store.tables)
  {
    if MemoryStore.IsCreate(w) || MemoryStore.IsSave(w) {
      UnscopedTables(s, w);
    } else {
      RecordsKeepTables(s, w);
    }
  }

  /** Only a product's own creation adds it, and no product changes tenant. */
  lemma ServeKeepsProducts(s: Snapshot, r: Request)
    requires ScopeInv(s) && Possible(s, r) && Serve(s, r).Accepted? && !r.CreateProduct?
    ensures SameProducts(s.tables, Serve(s, r).store.tables)
  {
    if r.CreateTenant? || r.CreateGroup? || r.CreateConfig? || r.CreateFirmware? {
      CreateRequestKeepsProducts(s, r);
    } else if r.CreateDevice? {
      DeviceRequestKeepsProducts(s, r);
    } else if r.UpdateThingModel? || r.UpdateDeviceTags? {
      UpdateKeepsProducts(s, r);
    } else if r.UpdateAccessProfile? {
      AccessProfileKeeps(s, r.productID, r.profileFits);
    } else if r.Background? {
      BackgroundKeepsProducts(s, r.write);
    } else {
      MembershipSettles(s, r);
    }
  }

  lemma CreateAddsProduct(s: Snapshot, r: Request)
    requires r.CreateProduct? && Serve(s, r).Accepted?
    ensures var t, t' := s.tables, Serve(s, r).store.tables; Grown(t, t') && t'.products.Keys == t.products.Keys + {r.id}
  {
  }

  datatype Op = Operate(request: Request) | AddRule(draft: Draft)

  predicate Allowed(s: Snapshot, op: Op) {
    op.Operate? ==> Possible(s, op.request) && (op.request.Background? ==> !op.request.write.CreateRule?)
  }

  function Step(s: Snapshot, op: Op): Snapshot
    requires Allowed(s, op)
  {
    match op
    case Operate(r) => Scoping.Step(s, r)
    case AddRule(r) => (match ServeRule(s, r) case Accepted(s') => s' case Rejected(_) => s)
  }

  predicate AllowedRun(s: Snapshot, ops: seq<Op>)
    decreases ops
  {
    ops == [] || (Allowed(s, ops[0]) && AllowedRun(Step(s, ops[0]), ops[1..]))
  }

  function Run(s: Snapshot, ops: seq<Op>): Snapshot
    requires AllowedRun(s, ops)
    decreases ops
  {
    if ops == [] then s else Run(Step(s, ops[0]), ops[1..])
  }

  lemma AddedRuleTables(s: Snapshot, r: Draft)
    requires ServeRule(s, r).Accepted?
    ensures DrawUp(s.tables, r).Drawn?
    ensures var rule := DrawUp(s.tables, r).rule;
            && ServeRule(s, r).store.tables == s.tables.(rules := s.tables.rules[rule.id := rule])
            && ServeRule(s, r) == Written(s, MemoryStore.CreateRule(rule))
  {
  }

  lemma AddedRuleFits(s: Snapshot, r: Draft)
    requires ScopeInv(s) && RulesFit(s.tables) && ServeRule(s, r).Accepted?
    ensures ScopeInv(ServeRule(s, r).store) && RulesFit(ServeRule(s, r).store.tables)
  {
    AddedRuleTables(s, r);
    var rule := DrawUp(s.tables, r).rule;
    DrawnFits(s.tables, r);
    BackgroundKeeps(s, MemoryStore.CreateRule(rule));
    var t' := ServeRule(s, r).store.tables;
    forall k | k in t'.rules ensures RuleFits(t', t'.rules[k]) {
      RuleStaysFit(s.tables, t', t'.rules[k]);
    }
  }

  lemma StepKeepsRules(s: Snapshot, op: Op)
    requires ScopeInv(s) && RulesFit(s.tables) && Allowed(s, op)
    ensures ScopeInv(Step(s, op)) && RulesFit(Step(s, op).tables)
  {
    match op
    case AddRule(r) =>
      if ServeRule(s, r).Accepted? {
        AddedRuleFits(s, r);
      }
    case Operate(r) =>
      if Serve(s, r).Accepted? {
        ServeKeepsScopes(s, r);
        ServeSettles(s, r);
        var t' := Serve(s, r).store.tables;
        forall k | k in t'.rules ensures RuleFits(t', t'.rules[k]) {
          RuleStaysFit(s.tables, t', t'.rules[k]);
        }
      }
  }

  /** In every reachable store each rule has an existing tenant, if any, agrees with the tenant and
      product of the group and the device it is bound to, asks something that can hold, and applies
      only existing profiles of its own tenant. */
  lemma {:induction false} RunKeepsRules(s: Snapshot, ops: seq<Op>)
    requires ScopeInv(s) && RulesFit(s.tables) && AllowedRun(s, ops)
    ensures ScopeInv(Run(s, ops)) && RulesFit(Run(s, ops).tables)
    decreases ops
  {
    if ops != [] {
      StepKeepsRules(s, ops[0]);
      RunKeepsRules(Step(s, ops[0]), ops[1..]);
    }
  }

  // ---------------------------------------------------------------- rules and their products

  /** The id of a product being created is not one that a rule already names. */
  ghost predicate Unnamed(s: Snapshot, op: Op) {
    op.Operate? && op.request.CreateProduct? ==> forall k :: k in s.tables.rules ==> TrimSpace(s.tables.rules[k].productID) != op.request.id
  }

  ghost predicate UnnamedRun(s: Snapshot, ops: seq<Op>)
    requires AllowedRun(s, ops)
    decreases ops
  {
    ops == [] || (Unnamed(s, ops[0]) && UnnamedRun(Step(s, ops[0]), ops[1..]))
  }

  lemma RuleAddedAgrees(t: Tables, rule: Rule)
    requires RulesFit(t) && ProductsAgree(t) && ProductAgrees(t, rule)
    ensures ProductsAgree(t.(rules := t.rules[rule.id := rule]))
  {
    var t' := t.(rules := t.rules[rule.id := rule]);
    forall k | k in t'.rules ensures ProductAgrees(t', t'.rules[k]) {
      assert t'.rules[k] == rule || (k in t.rules && t'.rules[k] == t.rules[k]);
    }
  }

  lemma AddedRuleAgrees(s: Snapshot, r: Draft)
    requires ScopeInv(s) && RulesFit(s.tables) && ProductsAgree(s.tables) && ServeRule(s, r).Accepted?
    ensures ProductsAgree(ServeRule(s, r).store.tables)
  {
    AddedRuleTables(s, r);
    DrawnFits(s.tables, r);
    RuleAddedAgrees(s.tables, DrawUp(s.tables, r).rule);
  }

  lemma ServedRulesAgree(s: Snapshot, r: Request)
    requires ScopeInv(s) && RulesFit(s.tables) && ProductsAgree(s.tables) && Allowed(s, Operate(r)) && Unnamed(s, Operate(r))
    requires Serve(s, r).Accepted?
    ensures ProductsAgree(Serve(s, r).store.tables)
  {
    var t' := Serve(s, r).store.tables;
    ServeSettles(s, r);
    if r.CreateProduct? {
      CreateAddsProduct(s, r);
    } else {
      ServeKeepsProducts(s, r);
    }
    forall k | k in t'.rules ensures ProductAgrees(t', t'.rules[k]) {
      ProductStaysAgreed(s.tables, t', t'.rules[k]);
    }
  }

  /** In every reachable store, generated product ids being fresh: a rule's product, if it exists,
      belongs to the rule's tenant, and the profiles it applies are for that product or for none. */
  lemma {:induction false} RunKeepsProducts(s: Snapshot, ops: seq<Op>)
    requires ScopeInv(s) && RulesFit(s.tables) && ProductsAgree(s.tables) && AllowedRun(s, ops) && UnnamedRun(s, ops)
    ensures ProductsAgree(Run(s, ops).tables)
    decreases ops
  {
    if ops != [] {
      StepKeepsRules(s, ops[0]);
      match ops[0] {
        case AddRule(r) => if ServeRule(s, r).Accepted? { AddedRuleAgrees(s, r); }
        case Operate(r) => if Serve(s, r).Accepted? { ServedRulesAgree(s, r); }
      }
      RunKeepsProducts(Step(s, ops[0]), ops[1..]);
    }
  }

  /** A profile of the device's tenant is refused for its scope exactly when it is for another
      product. */
  lemma RefusedForProductIff(rt: TelemetryRuntime.Runtime, id: ID, device: Device)
    requires Trimmed(IsSpace, id) && Trimmed(IsSpace, device.id)
    requires device.id in rt.store.tables.devices && rt.store.tables.devices[device.id] == device
    requires id in rt.store.tables.configs && rt.store.tables.configs[id].tenantID == device.tenantID
    ensures var r := TelemetryRuntime.ApplyConfig(rt, id, device.id);
            && r != TelemetryRuntime.Failed(TelemetryRuntime.UnknownProfile)
            && (r == TelemetryRuntime.Failed(TelemetryRuntime.OutOfScope) <==>
                  rt.store.tables.configs[id].productID != "" && rt.store.tables.configs[id].productID != device.productID)
  {
    TelemetryRuntime.TrimmedStays(id);
    TelemetryRuntime.TrimmedStays(device.id);
  }

  /** A rule with a tenant fires only inside it. In the store of any run, when such a rule matches a
      stored device, each profile it applies exists and is never refused for its tenant: the profile
      is refused for its scope exactly when it is for another product than the device's. */
  lemma FiringStaysInTenant(retention: int, ops: seq<Op>, rt: TelemetryRuntime.Runtime, k: ID, device: Device, groups: set<ID>,
                            values: Values, i: nat)
    requires AllowedRun(EmptyStore(retention), ops) && rt.store == Run(EmptyStore(retention), ops)
    requires k in rt.store.tables.rules && rt.store.tables.rules[k].tenantID != ""
    requires Trimmed(IsSpace, device.id) && device.id in rt.store.tables.devices && rt.store.tables.devices[device.id] == device
    requires TelemetryRuntime.Matches(rt.store.tables.rules[k], device, groups, values)
    requires i < |rt.store.tables.rules[k].actions| && rt.store.tables.rules[k].actions[i].ApplyConfig?
    ensures var id := rt.store.tables.rules[k].actions[i].profileID;
            var r := TelemetryRuntime.ApplyConfig(rt, id, device.id);
            && id in rt.store.tables.configs && rt.store.tables.configs[id].tenantID == device.tenantID
            && r != TelemetryRuntime.Failed(TelemetryRuntime.UnknownProfile)
            && (r == TelemetryRuntime.Failed(TelemetryRuntime.OutOfScope) <==>
                  rt.store.tables.configs[id].productID != "" && rt.store.tables.configs[id].productID != device.productID)
  {
    RunKeepsRules(EmptyStore(retention), ops);
    var rule := rt.store.tables.rules[k];
    assert ActionFits(rt.store.tables, rule.tenantID, rule.actions[i]);
    RefusedForProductIff(rt, rule.actions[i].profileID, device);
  }

  // ---------------------------------------------------------------- the service

  function Prepend(done: seq<Action>, rest: CheckedAll): CheckedAll {
    match rest
    case AllFit(actions) => AllFit(done + actions)
    case SomeUnfit(f) => SomeUnfit(f)
  }

  lemma CheckedFrom(t: Tables, tenantID: ID, product: Option<Product>, actions: seq<RawAction>, i: nat, done: seq<Action>)
    requires i < |actions|
    ensures Prepend(done, CheckActions(t, tenantID, product, actions[i..]))
         == match CheckAction(t, tenantID, product, actions[i])
            case Unfit(f) => SomeUnfit(f)
            case Fit(a) => Prepend(done + [a], CheckActions(t, tenantID, product, actions[i + 1..]))
  {
    assert actions[i..][1..] == actions[i + 1..] && actions[i..][0] == actions[i];
    var rest := CheckActions(t, tenantID, product, actions[i + 1..]);
    var checked := CheckAction(t, tenantID, product, actions[i]);
    if checked.Fit? && rest.AllFit? {
      assert done + ([checked.action] + rest.actions) == done + [checked.action] + rest.actions;
    }
  }

  class Service {
    const store: MemoryStore.Store

    constructor (store: MemoryStore.Store)
      ensures this.store == store
    {
      this.store := store;
    }

    method NormalizeRuleActions(tenantID: ID, product: Option<Product>, actions: seq<RawAction>) returns (r: CheckedAll)
      ensures r == NormalActions(store.AllTables(), tenantID, product, actions)
    {
      if |actions| == 0 {
        return AllFit([RaiseAlert("")]);
      }
      var normalized: seq<Action> := [];
      ghost var t := store.AllTables();
      ghost var goal := CheckActions(t, tenantID, product, actions);
      assert actions[0..] == actions;
      for i := 0 to |actions|
        invariant goal == Prepend(normalized, CheckActions(t, tenantID, product, actions[i..]))
      {
        CheckedFrom(t, tenantID, product, actions, i, normalized);
        var checked := NormalizeRuleAction(tenantID, product, actions[i]);
        if checked.Unfit? {
          return SomeUnfit(checked.failure);
        }
        normalized := normalized + [checked.action];
      }
      assert actions[|actions|..] == [];
      return AllFit(normalized);
    }

    /** The loop body of normalizeRuleActions. */
    method NormalizeRuleAction(tenantID: ID, product: Option<Product>, action: RawAction) returns (r: Checked)
      ensures r == CheckAction(store.AllTables(), tenantID, product, action)
    {
      match TypeOf(action.kind)
      case NoType => return Unfit(InvalidModel);
      case AlertType => return Fit(RaiseAlert(TrimSpace(action.message)));
      case CommandType =>
        var name := TrimSpace(action.name);
        if name == "" {
          return Unfit(Required);
        }
        if product.Some? && product.value.services != {} && name !in product.value.services {
          return Unfit(InvalidModel);
        }
        return Fit(SendCommand(name, action.params));
      case ConfigType =>
        var id := TrimSpace(action.profileID);
        if id == "" {
          return Unfit(Required);
        }
        if id !in store.configs {
          return Unfit(Scoping.Missing(MemoryStore.ConfigKind));
        }
        var profile := store.configs[id];
        if tenantID != "" && profile.tenantID != tenantID {
          return Unfit(ScopeMismatch);
        }
        if product.Some? && profile.productID != "" && profile.productID != product.value.id {
          return Unfit(ScopeMismatch);
        }
        return Fit(ApplyConfig(id));
    }

    /** normalizeRuleCondition, which rewrites its copy of the condition. */
    method NormalizeRuleCondition(product: Option<Product>, condition: Condition) returns (r: CheckedCondition)
      ensures r == CheckCondition(product, condition)
    {
      var c := condition;
      c := c.(property := TrimSpace(c.property));
      c := c.(operator := OperatorAlias(c.operator));
      if c.property == "" {
        return UnfitCondition(Required);
      }
      if c.operator == "" {
        return UnfitCondition(Required);
      }
      if product.Some? {
        if c.property !in product.value.properties {
          return UnfitCondition(InvalidModel);
        }
        if !TypeFits(product.value.properties[c.property], c.value) {
          return UnfitCondition(InvalidModel);
        }
        if Ordering(c.operator) && !c.value.Number? {
          return UnfitCondition(InvalidModel);
        }
      }
      return FitCondition(c);
    }

    /** The scope checks of CreateRuleWithTenant, one entity after the other. */
    method NarrowScope(tenantID: ID, productID: ID, groupID: ID, deviceID: ID) returns (n: Narrowing)
      ensures n == ByAll(store.AllTables(), tenantID, productID, groupID, deviceID)
    {
      var tenant, product := tenantID, productID;
      if groupID != "" {
        if groupID !in store.groups {
          return Outside(Scoping.Missing(MemoryStore.GroupKind));
        }
        var group := store.groups[groupID];
        if tenant == "" {
          tenant := group.tenantID;
        } else if group.tenantID != tenant {
          return Outside(ScopeMismatch);
        }
        if group.productID != "" {
          if product == "" {
            product := group.productID;
          } else if product != group.productID {
            return Outside(ScopeMismatch);
          }
        }
      }
      if deviceID != "" {
        if deviceID !in store.devices {
          return Outside(Scoping.Missing(MemoryStore.DeviceKind));
        }
        var device := store.devices[deviceID];
        if tenant == "" {
          tenant := device.tenantID;
        } else if device.tenantID != tenant {
          return Outside(ScopeMismatch);
        }
        if device.productID != "" {
          if product == "" {
            product := device.productID;
          } else if product != device.productID {
            return Outside(ScopeMismatch);
          }
        }
      }
      var id := TrimSpace(product);
      if id != "" && id in store.products {
        if tenant == "" {
          tenant := store.products[id].tenantID;
        } else if store.products[id].tenantID != tenant {
          return Outside(ScopeMismatch);
        }
      }
      return Within(tenant, product);
    }

    method DrawUpRule(r: Draft) returns (d: Draw)
      ensures d == DrawUp(store.AllTables(), r)
    {
      if TrimSpace(r.name) == "" {
        return Refused(Required);
      }
      var tenantID, groupID, deviceID, productID := TrimSpace(r.tenantID), TrimSpace(r.groupID), TrimSpace(r.deviceID), TrimSpace(r.productID);
      if productID == "" && groupID == "" && deviceID == "" {
        return Refused(Required);
      }
      if r.cooldownSeconds < 0 {
        return Refused(Required);
      }
      if tenantID != "" && tenantID !in store.tenants {
        return Refused(Scoping.Missing(MemoryStore.TenantKind));
      }
      var n := NarrowScope(tenantID, productID, groupID, deviceID);
      if n.Outside? {
        return Refused(n.failure);
      }
      var product := LoadProduct(store.AllTables(), n.productID);
      var condition := NormalizeRuleCondition(product, r.condition);
      if condition.UnfitCondition? {
        return Refused(condition.failure);
      }
      var checked := NormalizeRuleActions(n.tenantID, product, r.actions);
      if checked.SomeUnfit? {
        return Refused(checked.failure);
      }
      return Drawn(Rule(r.id, n.tenantID, n.productID, groupID, deviceID, r.enabled, r.cooldownSeconds, condition.condition, checked.actions));
    }

    method CreateRule(r: Draft) returns (failure: Option<Failure>)
      modifies store
      ensures Provisioning.Answers(ServeRule(old(store.Contents()), r), old(store.Contents()), store.Contents(), failure)
    {
      var d := DrawUpRule(r);
      if d.Refused? {
        return Some(d.failure);
      }
      var service := new Provisioning.Service(store);
      failure := service.Create(MemoryStore.CreateRule(d.rule));
    }
  }
}
