/** The in-memory store (internal/store/memory). `Apply` says what each write does to the
    store's content, `Answer` what each query returns; the class does both in place. */
module MemoryStore {
  import opened Model
  import opened Text

  datatype Kind =
    TenantKind | ProductKind | DeviceKind | GroupKind | RuleKind | ConfigKind | FirmwareKind
    | CampaignKind | CommandKind | AlertKind | ShadowKind

  datatype Error = Exists(kind: Kind) | NotFound(kind: Kind)

  datatype Write =
    | CreateTenant(tenant: Tenant) | SaveTenant(tenant: Tenant)
    | CreateProduct(product: Product) | SaveProduct(product: Product)
    | CreateDevice(device: Device) | SaveDevice(device: Device)
    | CreateGroup(group: Group) | SaveGroup(group: Group)
    | AddDeviceToGroup(groupID: ID, deviceID: ID) | RemoveDeviceFromGroup(groupID: ID, deviceID: ID)
    | CreateRule(rule: Rule) | SaveRule(rule: Rule)
    | CreateConfig(config: ConfigProfile) | SaveConfig(config: ConfigProfile)
    | CreateFirmware(firmware: Firmware) | SaveFirmware(firmware: Firmware)
    | CreateCampaign(campaign: Campaign) | SaveCampaign(campaign: Campaign)
    | AppendTelemetry(telemetry: Telemetry)
    | SaveShadow(shadow: Shadow)
    | SaveCommand(command: Command)
    | UpdateCommandStatus(commandID: ID, status: CommandStatus, result: string, now: int)
    | AppendAlert(alert: Alert) | SaveAlert(alert: Alert)

  datatype Outcome = Done(store: Snapshot) | Refused(error: Error)

  // ---------------------------------------------------------------- helpers on lists

  function AddUnique(values: seq<ID>, value: ID): seq<ID> {
    if value in values then values else values + [value]
  }

  function Without(values: seq<ID>, value: ID): (r: seq<ID>) {
    if values == [] then []
    else if values[0] == value then Without(values[1..], value)
    else [values[0]] + Without(values[1..], value)
  }

  /** The last n items, all of them when there are fewer. */
  function LastN<T>(items: seq<T>, n: int): seq<T> {
    if n < 0 then [] else if |items| <= n then items else items[|items| - n..]
  }

  function Reverse<T>(items: seq<T>): seq<T> {
    if items == [] then [] else Reverse(items[1..]) + [items[0]]
  }

  /** A listing: newest first, at most `limit` items when the limit is positive. */
  function Newest<T>(items: seq<T>, limit: int): seq<T> {
    Reverse(if limit > 0 then LastN(items, limit) else items)
  }

  function IndexOfAlert(alerts: seq<Alert>, id: ID): (i: nat)
    ensures i <= |alerts|
    ensures i < |alerts| ==> alerts[i].id == id
    ensures forall k :: 0 <= k < i ==> alerts[k].id != id
  {
    if alerts == [] || alerts[0].id == id then 0 else 1 + IndexOfAlert(alerts[1..], id)
  }

  // ---------------------------------------------------------------- writes

  function AddMember(s: Snapshot, g: ID, d: ID): Outcome {
    if g !in s.tables.groups then Refused(NotFound(GroupKind))
    else if d !in s.tables.devices then Refused(NotFound(DeviceKind))
    else Done(s.(groupIDs := s.groupIDs[d := AddUnique(Slice(s.groupIDs, d), g)],
                 deviceIDs := s.deviceIDs[g := AddUnique(Slice(s.deviceIDs, g), d)]))
  }

  function RemoveMember(s: Snapshot, g: ID, d: ID): Outcome {
    if g !in s.tables.groups then Refused(NotFound(GroupKind))
    else if d !in s.tables.devices then Refused(NotFound(DeviceKind))
    else Done(s.(groupIDs := s.groupIDs[d := Without(Slice(s.groupIDs, d), g)],
                 deviceIDs := s.deviceIDs[g := Without(Slice(s.deviceIDs, g), d)]))
  }

  predicate IsCreate(w: Write) {
    || w.CreateTenant? || w.CreateProduct? || w.CreateDevice? || w.CreateGroup?
    || w.CreateRule? || w.CreateConfig? || w.CreateFirmware? || w.CreateCampaign?
  }

  predicate IsSave(w: Write) {
    || w.SaveTenant? || w.SaveProduct? || w.SaveDevice? || w.SaveGroup?
    || w.SaveRule? || w.SaveConfig? || w.SaveFirmware? || w.SaveCampaign?
  }

  predicate IsRecord(w: Write) {
    w.AppendTelemetry? || w.SaveShadow? || w.SaveCommand? || w.UpdateCommandStatus?
  }

  datatype TableOutcome = Changed(tables: Tables) | Blocked(error: Error)

  /** CreateX is refused when the id is taken. */
  function ApplyCreate(t: Tables, w: Write): TableOutcome
    requires IsCreate(w)
  {
    match w
    case CreateTenant(x) => if x.id in t.tenants then Blocked(Exists(TenantKind)) else Changed(t.(tenants := t.tenants[x.id := x]))
    case CreateProduct(x) => if x.id in t.products then Blocked(Exists(ProductKind)) else Changed(t.(products := t.products[x.id := x]))
    case CreateDevice(x) => if x.id in t.devices then Blocked(Exists(DeviceKind)) else Changed(t.(devices := t.devices[x.id := x]))
    case CreateGroup(x) => if x.id in t.groups then Blocked(Exists(GroupKind)) else Changed(t.(groups := t.groups[x.id := x]))
    case CreateRule(x) => if x.id in t.rules then Blocked(Exists(RuleKind)) else Changed(t.(rules := t.rules[x.id := x]))
    case CreateConfig(x) => if x.id in t.configs then Blocked(Exists(ConfigKind)) else Changed(t.(configs := t.configs[x.id := x]))
    case CreateFirmware(x) => if x.id in t.firmware then Blocked(Exists(FirmwareKind)) else Changed(t.(firmware := t.firmware[x.id := x]))
    case CreateCampaign(x) => if x.id in t.campaigns then Blocked(Exists(CampaignKind)) else Changed(t.(campaigns := t.campaigns[x.id := x]))
  }

  /** SaveX is refused when the id is unknown. */
  function ApplySave(t: Tables, w: Write): TableOutcome
    requires IsSave(w)
  {
    match w
    case SaveTenant(x) => if x.id !in t.tenants then Blocked(NotFound(TenantKind)) else Changed(t.(tenants := t.tenants[x.id := x]))
    case SaveProduct(x) => if x.id !in t.products then Blocked(NotFound(ProductKind)) else Changed(t.(products := t.products[x.id := x]))
    case SaveDevice(x) => if x.id !in t.devices then Blocked(NotFound(DeviceKind)) else Changed(t.(devices := t.devices[x.id := x]))
    case SaveGroup(x) => if x.id !in t.groups then Blocked(NotFound(GroupKind)) else Changed(t.(groups := t.groups[x.id := x]))
    case SaveRule(x) => if x.id !in t.rules then Blocked(NotFound(RuleKind)) else Changed(t.(rules := t.rules[x.id := x]))
    case SaveConfig(x) => if x.id !in t.configs then Blocked(NotFound(ConfigKind)) else Changed(t.(configs := t.configs[x.id := x]))
    case SaveFirmware(x) => if x.id !in t.firmware then Blocked(NotFound(FirmwareKind)) else Changed(t.(firmware := t.firmware[x.id := x]))
    case SaveCampaign(x) => if x.id !in t.campaigns then Blocked(NotFound(CampaignKind)) else Changed(t.(campaigns := t.campaigns[x.id := x]))
  }

  function OnTables(s: Snapshot, o: TableOutcome): Outcome {
    match o
    case Changed(t) => Done(s.(tables := t))
    case Blocked(e) => Refused(e)
  }

  /** The writes that are more than one table entry. */
  function ApplyOther(s: Snapshot, w: Write): Outcome
    requires !IsCreate(w) && !IsSave(w)
  {
    match w
    case AddDeviceToGroup(g, d) => AddMember(s, g, d)
    case RemoveDeviceFromGroup(g, d) => RemoveMember(s, g, d)
    case AppendTelemetry(x) =>
      Done(s.(telemetry := s.telemetry[x.deviceID := LastN(Slice(s.telemetry, x.deviceID) + [x], s.telemetryRetention)]))
    case SaveShadow(x) => Done(s.(shadows := s.shadows[x.deviceID := x]))
    case SaveCommand(x) =>
      Done(s.(commands := s.commands[x.id := x],
              commandIDs := s.commandIDs[x.deviceID := Slice(s.commandIDs, x.deviceID) + [x.id]]))
    case UpdateCommandStatus(id, status, result, now) =>
      if id !in s.commands then Refused(NotFound(CommandKind))
      else Done(s.(commands := s.commands[id := s.commands[id].(status := status, result := result, updatedAt := now)]))
    case AppendAlert(x) => Done(s.(alerts := LastN(s.alerts + [x], s.alertRetention)))
    case SaveAlert(x) =>
      var i := IndexOfAlert(s.alerts, x.id);
      if i == |s.alerts| then Refused(NotFound(AlertKind)) else Done(s.(alerts := s.alerts[i := x]))
  }

  function Apply(s: Snapshot, w: Write): Outcome {
    if IsCreate(w) then OnTables(s, ApplyCreate(s.tables, w))
    else if IsSave(w) then OnTables(s, ApplySave(s.tables, w))
    else ApplyOther(s, w)
  }

  // ---------------------------------------------------------------- queries

  datatype Query =
    | GetTenant(id: ID) | ListTenants
    | GetProduct(id: ID) | ListProducts
    | GetDevice(id: ID) | ListDevices
    | GetGroup(id: ID) | ListGroups
    | GetRule(id: ID) | ListRules
    | GetConfig(id: ID) | ListConfigs
    | GetFirmware(id: ID) | ListFirmware
    | GetCampaign(id: ID) | ListCampaigns
    | GetShadow(id: ID)
    | GetCommand(id: ID)
    | GetAlert(id: ID) | ListAlerts(limit: int)
    | ListGroupIDsByDevice(id: ID)
    | ListDeviceIDsByGroup(id: ID)
    | ListTelemetryByDevice(id: ID, limit: int)
    | ListCommandsByDevice(id: ID, limit: int)

  /** Listings of whole tables are sorted by creation time, newest first, with ties in no
      particular order; they are answered here by the set of their items. */
  datatype Answer =
    | Missing(kind: Kind)
    | OneTenant(tenant: Tenant) | Tenants(tenants: set<Tenant>)
    | OneProduct(product: Product) | Products(products: set<Product>)
    | OneDevice(device: Device) | Devices(devices: set<Device>)
    | OneGroup(group: Group) | Groups(groups: set<Group>)
    | OneRule(rule: Rule) | Rules(rules: set<Rule>)
    | OneConfig(config: ConfigProfile) | Configs(configs: set<ConfigProfile>)
    | OneFirmware(firmware: Firmware) | Firmwares(firmwares: set<Firmware>)
    | OneCampaign(campaign: Campaign) | Campaigns(campaigns: set<Campaign>)
    | OneShadow(shadow: Shadow)
    | OneCommand(command: Command) | Commands(listed: seq<Option<Command>>)
    | OneAlert(alert: Alert) | Alerts(alerts: seq<Alert>)
    | IDs(ids: seq<ID>)
    | Series(items: seq<Telemetry>)

  function LastAlert(alerts: seq<Alert>, id: ID): Option<Alert> {
    if alerts == [] then None
    else if alerts[|alerts| - 1].id == id then Some(alerts[|alerts| - 1])
    else LastAlert(alerts[..|alerts| - 1], id)
  }

  function Lookup(commands: map<ID, Command>, ids: seq<ID>): seq<Option<Command>> {
    seq(|ids|, i requires 0 <= i < |ids| => if ids[i] in commands then Some(commands[ids[i]]) else None)
  }

  function AskTables(t: Tables, q: Query): Answer {
    match q
    case GetTenant(id) => if id in t.tenants then OneTenant(t.tenants[id]) else Missing(TenantKind)
    case ListTenants => Tenants(t.tenants.Values)
    case GetProduct(id) => if id in t.products then OneProduct(t.products[id]) else Missing(ProductKind)
    case ListProducts => Products(t.products.Values)
    case GetDevice(id) => if id in t.devices then OneDevice(t.devices[id]) else Missing(DeviceKind)
    case ListDevices => Devices(t.devices.Values)
    case GetGroup(id) => if id in t.groups then OneGroup(t.groups[id]) else Missing(GroupKind)
    case ListGroups => Groups(t.groups.Values)
    case GetRule(id) => if id in t.rules then OneRule(t.rules[id]) else Missing(RuleKind)
    case ListRules => Rules(t.rules.Values)
    case GetConfig(id) => if id in t.configs then OneConfig(t.configs[id]) else Missing(ConfigKind)
    case ListConfigs => Configs(t.configs.Values)
    case GetFirmware(id) => if id in t.firmware then OneFirmware(t.firmware[id]) else Missing(FirmwareKind)
    case ListFirmware => Firmwares(t.firmware.Values)
    case GetCampaign(id) => if id in t.campaigns then OneCampaign(t.campaigns[id]) else Missing(CampaignKind)
    case ListCampaigns => Campaigns(t.campaigns.Values)
    case _ => Missing(ShadowKind)
  }

  function SortedIDs(ids: seq<ID>): Answer {
    IDs(Sort(ids))
  }

  function Ask(s: Snapshot, q: Query): Answer {
    match q
    case GetShadow(id) => if id in s.shadows then OneShadow(s.shadows[id]) else Missing(ShadowKind)
    case GetCommand(id) => if id in s.commands then OneCommand(s.commands[id]) else Missing(CommandKind)
    case GetAlert(id) => (match LastAlert(s.alerts, id) case Some(a) => OneAlert(a) case None => Missing(AlertKind))
    case ListAlerts(limit) => Alerts(Newest(s.alerts, limit))
    case ListGroupIDsByDevice(id) => if id in s.tables.devices then SortedIDs(Slice(s.groupIDs, id)) else Missing(DeviceKind)
    case ListDeviceIDsByGroup(id) => if id in s.tables.groups then SortedIDs(Slice(s.deviceIDs, id)) else Missing(GroupKind)
    case ListTelemetryByDevice(id, limit) => Series(Newest(Slice(s.telemetry, id), limit))
    case ListCommandsByDevice(id, limit) => Commands(Lookup(s.commands, Newest(Slice(s.commandIDs, id), limit)))
    case _ => AskTables(s.tables, q)
  }

  // ---------------------------------------------------------------- snapshot and restore

  function SortAll(m: map<ID, seq<ID>>): map<ID, seq<ID>> {
    map k | k in m :: Sort(m[k])
  }

  /** Restore(snapshot) on a store with the given retentions: the device lists of the groups
      come back sorted, and a retention that is not positive is not taken over. */
  function Restored(snapshot: Snapshot, telemetryRetention: int, alertRetention: int): Snapshot {
    snapshot.(deviceIDs := SortAll(snapshot.deviceIDs),
              telemetryRetention := if snapshot.telemetryRetention > 0 then snapshot.telemetryRetention else telemetryRetention,
              alertRetention := if snapshot.alertRetention > 0 then snapshot.alertRetention else alertRetention)
  }

  // ---------------------------------------------------------------- indistinguishable stores

  ghost predicate SameLists(x: map<ID, seq<ID>>, y: map<ID, seq<ID>>) {
    x.Keys == y.Keys && forall g :: g in x ==> multiset(x[g]) == multiset(y[g])
  }

  /** Equal but for the order of the groups' device lists. */
  ghost predicate Alike(a: Snapshot, b: Snapshot) {
    b == a.(deviceIDs := b.deviceIDs) && SameLists(a.deviceIDs, b.deviceIDs)
  }

  lemma AlikeSlices(a: Snapshot, b: Snapshot, g: ID)
    requires Alike(a, b)
    ensures multiset(Slice(a.deviceIDs, g)) == multiset(Slice(b.deviceIDs, g))
  {
  }

  lemma SameListsUpdate(x: map<ID, seq<ID>>, y: map<ID, seq<ID>>, g: ID, u: seq<ID>, v: seq<ID>)
    requires SameLists(x, y) && multiset(u) == multiset(v)
    ensures SameLists(x[g := u], y[g := v])
  {
  }

  lemma OtherQueries(a: Snapshot, lists: map<ID, seq<ID>>, q: Query)
    requires !q.ListDeviceIDsByGroup?
    ensures Ask(a.(deviceIDs := lists), q) == Ask(a, q)
  {
  }

  /** No query tells alike stores apart. */
  lemma AlikeAnswers(a: Snapshot, b: Snapshot, q: Query)
    requires Alike(a, b)
    ensures Ask(a, q) == Ask(b, q)
  {
    if q.ListDeviceIDsByGroup? {
      AlikeSlices(a, b, q.id);
      SortAgrees(Slice(a.deviceIDs, q.id), Slice(b.deviceIDs, q.id));
    } else {
      OtherQueries(a, b.deviceIDs, q);
    }
  }

  lemma RestoredAlike(s: Snapshot, telemetryRetention: int, alertRetention: int)
    requires s.telemetryRetention > 0 && s.alertRetention > 0
    ensures Alike(Restored(s, telemetryRetention, alertRetention), s)
  {
  }

  lemma {:induction false} WithoutMultiset(values: seq<ID>, value: ID)
    ensures multiset(Without(values, value)) == multiset(values)[value := 0]
  {
    if values != [] {
      WithoutMultiset(values[1..], value);
      assert values == [values[0]] + values[1..];
    }
  }

  predicate IsMembership(w: Write) {
    w.AddDeviceToGroup? || w.RemoveDeviceFromGroup?
  }

  /** Writes other than membership changes neither read nor touch the groups' device lists. */
  lemma OtherWrites(a: Snapshot, lists: map<ID, seq<ID>>, w: Write)
    requires !IsMembership(w)
    ensures Apply(a.(deviceIDs := lists), w) == OnLists(Apply(a, w), lists)
    ensures Apply(a, w).Done? ==> Apply(a, w).store.deviceIDs == a.deviceIDs
  {
    if IsCreate(w) {
      TableWrites(a, lists, ApplyCreate(a.tables, w));
    } else if IsSave(w) {
      TableWrites(a, lists, ApplySave(a.tables, w));
    } else {
      SmallWrites(a, lists, w);
    }
  }

  lemma TableWrites(a: Snapshot, lists: map<ID, seq<ID>>, o: TableOutcome)
    ensures OnTables(a.(deviceIDs := lists), o) == OnLists(OnTables(a, o), lists)
    ensures OnTables(a, o).Done? ==> OnTables(a, o).store.deviceIDs == a.deviceIDs
  {
  }

  function OnLists(o: Outcome, lists: map<ID, seq<ID>>): Outcome {
    match o
    case Done(s) => Done(s.(deviceIDs := lists))
    case Refused(e) => Refused(e)
  }

  lemma SmallWrites(a: Snapshot, lists: map<ID, seq<ID>>, w: Write)
    requires !IsMembership(w) && !IsCreate(w) && !IsSave(w)
    ensures ApplyOther(a.(deviceIDs := lists), w) == OnLists(ApplyOther(a, w), lists)
    ensures ApplyOther(a, w).Done? ==> ApplyOther(a, w).store.deviceIDs == a.deviceIDs
  {
  }

  lemma AddOnLists(a: Snapshot, lists: map<ID, seq<ID>>, g: ID, d: ID)
    ensures AddMember(a.(deviceIDs := lists), g, d)
         == match AddMember(a, g, d)
            case Done(a') => Done(a'.(deviceIDs := lists[g := AddUnique(Slice(lists, g), d)]))
            case Refused(e) => Refused(e)
  {
  }

  lemma RemoveOnLists(a: Snapshot, lists: map<ID, seq<ID>>, g: ID, d: ID)
    ensures RemoveMember(a.(deviceIDs := lists), g, d)
         == match RemoveMember(a, g, d)
            case Done(a') => Done(a'.(deviceIDs := lists[g := Without(Slice(lists, g), d)]))
            case Refused(e) => Refused(e)
  {
  }

  lemma AlikeAdd(a: Snapshot, b: Snapshot, g: ID, d: ID)
    requires Alike(a, b)
    ensures Congruent(AddMember(a, g, d), AddMember(b, g, d))
  {
    AlikeSlices(a, b, g);
    var u, v := Slice(a.deviceIDs, g), Slice(b.deviceIDs, g);
    AddUniqueMultiset(u, v, d);
    SameListsUpdate(a.deviceIDs, b.deviceIDs, g, AddUnique(u, d), AddUnique(v, d));
    AddOnLists(a, b.deviceIDs, g, d);
  }

  lemma AddUniqueMultiset(u: seq<ID>, v: seq<ID>, d: ID)
    requires multiset(u) == multiset(v)
    ensures multiset(AddUnique(u, d)) == multiset(AddUnique(v, d))
  {
    assert d in multiset(u) <==> d in multiset(v);
  }

  lemma AlikeRemove(a: Snapshot, b: Snapshot, g: ID, d: ID)
    requires Alike(a, b)
    ensures Congruent(RemoveMember(a, g, d), RemoveMember(b, g, d))
  {
    AlikeSlices(a, b, g);
    var u, v := Slice(a.deviceIDs, g), Slice(b.deviceIDs, g);
    WithoutMultiset(u, d);
    WithoutMultiset(v, d);
    SameListsUpdate(a.deviceIDs, b.deviceIDs, g, Without(u, d), Without(v, d));
    RemoveOnLists(a, b.deviceIDs, g, d);
  }

  ghost predicate Congruent(x: Outcome, y: Outcome) {
    match (x, y)
    case (Done(a), Done(b)) => Alike(a, b)
    case (Refused(e), Refused(f)) => e == f
    case _ => false
  }

  /** Alike stores accept the same writes, with the same errors, and stay alike. */
  lemma AlikeApply(a: Snapshot, b: Snapshot, w: Write)
    requires Alike(a, b)
    ensures Congruent(Apply(a, w), Apply(b, w))
  {
    if w.AddDeviceToGroup? {
      AlikeAdd(a, b, w.groupID, w.deviceID);
    } else if w.RemoveDeviceFromGroup? {
      AlikeRemove(a, b, w.groupID, w.deviceID);
    } else {
      assert b == a.(deviceIDs := b.deviceIDs);
      OtherWrites(a, b.deviceIDs, w);
    }
  }

  // ---------------------------------------------------------------- group indexes

  ghost predicate NoDup(s: seq<ID>) {
    forall i, j :: 0 <= i < j < |s| ==> s[i] != s[j]
  }

  /** A slice per key that lists, without duplicates, what a set of pairs relates to the key. */
  ghost predicate Lists(slices: map<ID, seq<ID>>, pairs: set<(ID, ID)>) {
    && (forall k, x :: x in Slice(slices, k) <==> (k, x) in pairs)
    && (forall k :: NoDup(Slice(slices, k)))
  }

  ghost function Inverse(pairs: set<(ID, ID)>): set<(ID, ID)> {
    set p | p in pairs :: (p.1, p.0)
  }

  /** Both group indexes list one relation of (device, group) pairs, without duplicates. */
  ghost predicate IndexesHold(s: Snapshot, members: set<(ID, ID)>) {
    Lists(s.groupIDs, members) && Lists(s.deviceIDs, Inverse(members))
  }

  function NextMembers(members: set<(ID, ID)>, w: Write): set<(ID, ID)> {
    match w
    case AddDeviceToGroup(g, d) => members + {(d, g)}
    case RemoveDeviceFromGroup(g, d) => members - {(d, g)}
    case _ => members
  }

  lemma NoDupCons(h: ID, t: seq<ID>)
    ensures NoDup([h] + t) <==> h !in t && NoDup(t)
  {
    var a := [h] + t;
    if h in t {
      var k :| 0 <= k < |t| && t[k] == h;
      assert a[0] == a[k + 1];
    } else if NoDup(t) {
      forall i, j | 0 <= i < j < |a| ensures a[i] != a[j] {
        assert a[j] == t[j - 1] && t[j - 1] in t;
        if i > 0 { assert a[i] == t[i - 1]; }
      }
    }
    if NoDup(a) {
      forall i, j | 0 <= i < j < |t| ensures t[i] != t[j] { assert t[i] == a[i + 1] && t[j] == a[j + 1]; }
    }
  }

  lemma {:induction false} WithoutElements(values: seq<ID>, value: ID)
    requires NoDup(values)
    ensures NoDup(Without(values, value))
    ensures forall x :: x in Without(values, value) <==> x in values && x != value
  {
    if values != [] {
      assert values == [values[0]] + values[1..];
      NoDupCons(values[0], values[1..]);
      WithoutElements(values[1..], value);
      NoDupCons(values[0], Without(values[1..], value));
    }
  }

  lemma ListsAfterAdd(slices: map<ID, seq<ID>>, pairs: set<(ID, ID)>, k: ID, x: ID)
    requires Lists(slices, pairs)
    ensures Lists(slices[k := AddUnique(Slice(slices, k), x)], pairs + {(k, x)})
  {
    var next := slices[k := AddUnique(Slice(slices, k), x)];
    assert forall k' :: Slice(next, k') == if k' == k then AddUnique(Slice(slices, k), x) else Slice(slices, k');
  }

  lemma ListsAfterRemove(slices: map<ID, seq<ID>>, pairs: set<(ID, ID)>, k: ID, x: ID)
    requires Lists(slices, pairs)
    ensures Lists(slices[k := Without(Slice(slices, k), x)], pairs - {(k, x)})
  {
    var next := slices[k := Without(Slice(slices, k), x)];
    WithoutElements(Slice(slices, k), x);
    assert forall k' :: Slice(next, k') == if k' == k then Without(Slice(slices, k), x) else Slice(slices, k');
  }

  lemma IndexesAfterAdd(s: Snapshot, members: set<(ID, ID)>, g: ID, d: ID)
    requires IndexesHold(s, members) && AddMember(s, g, d).Done?
    ensures IndexesHold(AddMember(s, g, d).store, members + {(d, g)})
  {
    ListsAfterAdd(s.groupIDs, members, d, g);
    ListsAfterAdd(s.deviceIDs, Inverse(members), g, d);
    assert Inverse(members + {(d, g)}) == Inverse(members) + {(g, d)} by {
      assert (d, g) in members + {(d, g)};
    }
  }

  lemma IndexesAfterRemove(s: Snapshot, members: set<(ID, ID)>, g: ID, d: ID)
    requires IndexesHold(s, members) && RemoveMember(s, g, d).Done?
    ensures IndexesHold(RemoveMember(s, g, d).store, members - {(d, g)})
  {
    ListsAfterRemove(s.groupIDs, members, d, g);
    ListsAfterRemove(s.deviceIDs, Inverse(members), g, d);
    assert Inverse(members - {(d, g)}) == Inverse(members) - {(g, d)} by {
      forall p | p in Inverse(members) - {(g, d)} ensures p in Inverse(members - {(d, g)}) {
        assert (p.1, p.0) in members - {(d, g)};
      }
    }
  }

  lemma OtherWritesKeepGroups(s: Snapshot, w: Write)
    requires !IsMembership(w) && Apply(s, w).Done?
    ensures Apply(s, w).store.groupIDs == s.groupIDs && Apply(s, w).store.deviceIDs == s.deviceIDs
  {
    if !IsCreate(w) && !IsSave(w) {
      SmallWritesKeepGroups(s, w);
    }
  }

  lemma SmallWritesKeepGroups(s: Snapshot, w: Write)
    requires !IsMembership(w) && !IsCreate(w) && !IsSave(w) && ApplyOther(s, w).Done?
    ensures ApplyOther(s, w).store.groupIDs == s.groupIDs && ApplyOther(s, w).store.deviceIDs == s.deviceIDs
  {
  }

  /** Every accepted write moves both indexes along with the one relation. */
  lemma IndexesAfterWrite(s: Snapshot, members: set<(ID, ID)>, w: Write)
    requires IndexesHold(s, members) && Apply(s, w).Done?
    ensures IndexesHold(Apply(s, w).store, NextMembers(members, w))
  {
    if w.AddDeviceToGroup? {
      IndexesAfterAdd(s, members, w.groupID, w.deviceID);
    } else if w.RemoveDeviceFromGroup? {
      IndexesAfterRemove(s, members, w.groupID, w.deviceID);
    } else {
      OtherWritesKeepGroups(s, w);
    }
  }

  lemma SameMultisetSameList(a: seq<ID>, b: seq<ID>)
    requires multiset(a) == multiset(b)
    ensures forall x :: x in a <==> x in b
    ensures NoDup(a) <==> NoDup(b)
  {
    assert forall x :: x in a <==> x in multiset(a);
    assert forall x :: x in b <==> x in multiset(b);
    NoDupCounts(a);
    NoDupCounts(b);
  }

  lemma {:induction false} NoDupCounts(a: seq<ID>)
    ensures NoDup(a) <==> forall x :: multiset(a)[x] <= 1
  {
    if a != [] {
      var h, t := a[0], a[1..];
      assert a == [h] + t;
      NoDupCounts(t);
      NoDupCons(h, t);
      assert h in t <==> multiset(t)[h] >= 1;
      assert forall x :: multiset(a)[x] == multiset(t)[x] + if x == h then 1 else 0;
    }
  }

  /** Alike stores, and so a store after a restore, list the same relation. */
  lemma AlikeIndexes(a: Snapshot, b: Snapshot, members: set<(ID, ID)>)
    requires Alike(a, b) && IndexesHold(a, members)
    ensures IndexesHold(b, members)
  {
    forall g ensures NoDup(Slice(b.deviceIDs, g)) && forall d :: d in Slice(b.deviceIDs, g) <==> (g, d) in Inverse(members) {
      AlikeSlices(a, b, g);
      SameMultisetSameList(Slice(a.deviceIDs, g), Slice(b.deviceIDs, g));
    }
  }

  /** The sorted slice of a key lists, without duplicates, what the pairs relate to the key. */
  lemma ListedSlice(slices: map<ID, seq<ID>>, pairs: set<(ID, ID)>, k: ID)
    requires Lists(slices, pairs)
    ensures var ids := Sort(Slice(slices, k)); Sorted(ids) && NoDup(ids) && forall x :: x in ids <==> (k, x) in pairs
  {
    var ids := Slice(slices, k);
    SortIsSorted(ids);
    SameMultisetSameList(ids, Sort(ids));
    assert forall x :: x in ids <==> (k, x) in pairs;
  }

  lemma ListingsAreSlices(s: Snapshot, d: ID, g: ID)
    requires d in s.tables.devices && g in s.tables.groups
    ensures Ask(s, ListGroupIDsByDevice(d)) == IDs(Sort(Slice(s.groupIDs, d)))
    ensures Ask(s, ListDeviceIDsByGroup(g)) == IDs(Sort(Slice(s.deviceIDs, g)))
  {
  }

  /** What the two List functions answer: the sorted, duplicate-free contents of the relation. */
  lemma ListingsShowRelation(s: Snapshot, members: set<(ID, ID)>, d: ID, g: ID)
    requires IndexesHold(s, members) && d in s.tables.devices && g in s.tables.groups
    ensures var a := Ask(s, ListGroupIDsByDevice(d));
            a.IDs? && Sorted(a.ids) && NoDup(a.ids) && forall x :: x in a.ids <==> (d, x) in members
    ensures var a := Ask(s, ListDeviceIDsByGroup(g));
            a.IDs? && Sorted(a.ids) && NoDup(a.ids) && forall x :: x in a.ids <==> (x, g) in members
  {
    ListingsAreSlices(s, d, g);
    ListedSlice(s.groupIDs, members, d);
    ListedSlice(s.deviceIDs, Inverse(members), g);
    assert forall x :: (g, x) in Inverse(members) <==> (x, g) in members;
  }

  // ---------------------------------------------------------------- telemetry retention

  /** Each device's stored telemetry is the tail of everything ever appended for it. */
  ghost predicate RetentionHolds(s: Snapshot, history: map<ID, seq<Telemetry>>) {
    s.telemetryRetention > 0
    && forall d :: Slice(s.telemetry, d) == LastN(Slice(history, d), s.telemetryRetention)
  }

  function NextHistory(history: map<ID, seq<Telemetry>>, w: Write): map<ID, seq<Telemetry>> {
    match w
    case AppendTelemetry(x) => history[x.deviceID := Slice(history, x.deviceID) + [x]]
    case _ => history
  }

  lemma LastNAppend<T>(items: seq<T>, x: T, n: int)
    ensures LastN(LastN(items, n) + [x], n) == LastN(items + [x], n)
  {
  }

  lemma SmallWritesKeepTelemetry(s: Snapshot, w: Write)
    requires !IsCreate(w) && !IsSave(w) && !w.AppendTelemetry? && ApplyOther(s, w).Done?
    ensures ApplyOther(s, w).store.telemetry == s.telemetry && ApplyOther(s, w).store.telemetryRetention == s.telemetryRetention
  {
  }

  lemma OtherWritesKeepTelemetry(s: Snapshot, w: Write)
    requires !w.AppendTelemetry? && Apply(s, w).Done?
    ensures Apply(s, w).store.telemetry == s.telemetry && Apply(s, w).store.telemetryRetention == s.telemetryRetention
  {
    if !IsCreate(w) && !IsSave(w) {
      SmallWritesKeepTelemetry(s, w);
    }
  }

  lemma RetentionAfterWrite(s: Snapshot, history: map<ID, seq<Telemetry>>, w: Write)
    requires RetentionHolds(s, history) && Apply(s, w).Done?
    ensures RetentionHolds(Apply(s, w).store, NextHistory(history, w))
  {
    if w.AppendTelemetry? {
      var x := w.telemetry;
      var s' := Apply(s, w).store;
      forall d ensures Slice(s'.telemetry, d) == LastN(Slice(NextHistory(history, w), d), s'.telemetryRetention) {
        LastNAppend(Slice(history, d), x, s.telemetryRetention);
        assert d != x.deviceID ==> Slice(s'.telemetry, d) == Slice(s.telemetry, d);
      }
    } else {
      OtherWritesKeepTelemetry(s, w);
    }
  }

  lemma {:induction false} ReverseAt<T>(items: seq<T>, k: nat)
    requires k < |items|
    ensures |Reverse(items)| == |items| && Reverse(items)[k] == items[|items| - 1 - k]
  {
    if |items| > 1 {
      ReverseAt(items[1..], if k < |items| - 1 then k else 0);
    }
  }

  /** Listing with a limit: newest first, the last min(limit, retention) items ever appended. */
  lemma TelemetryListing(s: Snapshot, history: map<ID, seq<Telemetry>>, d: ID, limit: int)
    requires RetentionHolds(s, history)
    ensures var a := Ask(s, ListTelemetryByDevice(d, limit));
            var all := Slice(history, d);
            var kept := if |all| <= s.telemetryRetention then |all| else s.telemetryRetention;
            var shown := if limit > 0 && limit < kept then limit else kept;
            a.Series? && |a.items| == shown && forall k :: 0 <= k < shown ==> a.items[k] == all[|all| - 1 - k]
  {
    NewestAt(Slice(s.telemetry, d), limit);
  }

  // ---------------------------------------------------------------- command index

  /** Every listed id is a command of that device, and every command is listed under its device. */
  ghost predicate CommandTables(commands: map<ID, Command>, ids: map<ID, seq<ID>>) {
    && (forall d, id :: id in Slice(ids, d) ==> id in commands && commands[id].deviceID == d)
    && (forall id :: id in commands ==> id in Slice(ids, commands[id].deviceID))
  }

  ghost predicate CommandsHold(s: Snapshot) {
    CommandTables(s.commands, s.commandIDs)
  }

  /** A command id is fresh, or already belongs to the same device. */
  predicate OwnID(s: Snapshot, c: Command) {
    c.id in s.commands ==> s.commands[c.id].deviceID == c.deviceID
  }

  lemma SmallWritesKeepCommands(s: Snapshot, w: Write)
    requires !IsCreate(w) && !IsSave(w) && !w.SaveCommand? && !w.UpdateCommandStatus? && ApplyOther(s, w).Done?
    ensures ApplyOther(s, w).store.commands == s.commands && ApplyOther(s, w).store.commandIDs == s.commandIDs
  {
  }

  lemma OtherWritesKeepCommands(s: Snapshot, w: Write)
    requires !w.SaveCommand? && !w.UpdateCommandStatus? && Apply(s, w).Done?
    ensures Apply(s, w).store.commands == s.commands && Apply(s, w).store.commandIDs == s.commandIDs
  {
    if !IsCreate(w) && !IsSave(w) {
      SmallWritesKeepCommands(s, w);
    }
  }

  lemma CommandTablesIff(commands: map<ID, Command>, ids: map<ID, seq<ID>>, c: Command)
    requires CommandTables(commands, ids)
    ensures CommandTables(commands[c.id := c], ids[c.deviceID := Slice(ids, c.deviceID) + [c.id]])
       <==> (c.id in commands ==> commands[c.id].deviceID == c.deviceID)
  {
    var commands', ids' := commands[c.id := c], ids[c.deviceID := Slice(ids, c.deviceID) + [c.id]];
    assert forall d :: Slice(ids', d) == if d == c.deviceID then Slice(ids, d) + [c.id] else Slice(ids, d);
    assert (Slice(ids, c.deviceID) + [c.id])[|Slice(ids, c.deviceID)|] == c.id;
    assert c.id in Slice(ids', c.deviceID);
    if c.id in commands && commands[c.id].deviceID != c.deviceID {
      var other := commands[c.id].deviceID;
      assert c.id in Slice(ids', other) && commands'[c.id].deviceID != other;
      assert !CommandTables(commands', ids');
    } else {
      forall d, id | id in Slice(ids', d) ensures id in commands' && commands'[id].deviceID == d {
        assert id == c.id || id in Slice(ids, d);
      }
    }
  }

  /** SaveCommand does not check the id: the index stays sound exactly when the id is not taken
      from another device's command. */
  lemma SaveCommandIff(s: Snapshot, c: Command)
    requires CommandsHold(s)
    ensures CommandsHold(Apply(s, SaveCommand(c)).store) <==> OwnID(s, c)
  {
    CommandTablesIff(s.commands, s.commandIDs, c);
  }

  lemma CommandsAfterWrite(s: Snapshot, w: Write)
    requires CommandsHold(s) && Apply(s, w).Done? && (w.SaveCommand? ==> OwnID(s, w.command))
    ensures CommandsHold(Apply(s, w).store)
  {
    if w.SaveCommand? {
      SaveCommandIff(s, w.command);
    } else if !w.UpdateCommandStatus? {
      OtherWritesKeepCommands(s, w);
    }
  }

  lemma NewestAt<T>(items: seq<T>, limit: int)
    ensures var r := Newest(items, limit);
            |r| == (if limit > 0 && limit < |items| then limit else |items|)
            && forall k :: 0 <= k < |r| ==> r[k] == items[|items| - 1 - k]
  {
    var selected := if limit > 0 then LastN(items, limit) else items;
    if selected != [] { ReverseAt(selected, 0); }
    forall k | 0 <= k < |selected| ensures Reverse(selected)[k] == items[|items| - 1 - k] {
      ReverseAt(selected, k);
    }
  }

  lemma NewestCommands(s: Snapshot, d: ID, limit: int)
    requires CommandsHold(s)
    ensures var all, ids := Slice(s.commandIDs, d), Newest(Slice(s.commandIDs, d), limit);
            && |ids| == (if limit > 0 && limit < |all| then limit else |all|)
            && forall k :: 0 <= k < |ids| ==>
                 ids[k] == all[|all| - 1 - k] && ids[k] in s.commands && s.commands[ids[k]].deviceID == d
  {
    var all := Slice(s.commandIDs, d);
    var ids := Newest(all, limit);
    NewestAt(all, limit);
    forall k | 0 <= k < |ids| ensures ids[k] in s.commands && s.commands[ids[k]].deviceID == d {
      assert ids[k] == all[|all| - 1 - k] && ids[k] in Slice(s.commandIDs, d);
    }
  }

  /** So a command listing is newest first, and each entry is a command of that device. */
  lemma CommandListing(s: Snapshot, d: ID, limit: int)
    requires CommandsHold(s)
    ensures var all, ids := Slice(s.commandIDs, d), Newest(Slice(s.commandIDs, d), limit);
            Ask(s, ListCommandsByDevice(d, limit)) == Commands(Lookup(s.commands, ids))
            && |ids| == (if limit > 0 && limit < |all| then limit else |all|)
            && forall k :: 0 <= k < |ids| ==>
                 ids[k] == all[|all| - 1 - k] && ids[k] in s.commands && s.commands[ids[k]].deviceID == d
  {
    NewestCommands(s, d, limit);
  }

  // ---------------------------------------------------------------- the store itself

  method AddUniqueString(values: seq<ID>, value: ID) returns (r: seq<ID>)
    ensures r == AddUnique(values, value)
  {
    for i := 0 to |values|
      invariant value !in values[..i]
    {
      if values[i] == value {
        return values;
      }
    }
    return values + [value];
  }

  method RemoveString(values: seq<ID>, value: ID) returns (r: seq<ID>)
    ensures r == Without(values, value)
  {
    r := [];
    assert values[0..] == values;
    for i := 0 to |values|
      invariant r + Without(values[i..], value) == Without(values, value)
    {
      assert values[i..][1..] == values[i + 1..];
      if values[i] != value {
        r := r + [values[i]];
      }
    }
    assert values[|values|..] == [];
  }

  /** The loop shared by the limited listings: from the last item back to the first selected. */
  method ListNewest<T>(items: seq<T>, limit: int) returns (result: seq<T>)
    ensures result == Newest(items, limit)
  {
    var start := 0;
    if limit > 0 && |items| > limit {
      start := |items| - limit;
    }
    var selected := items[start..];
    result := [];
    var i := |selected|;
    assert selected[..i] == selected;
    while i > 0
      invariant 0 <= i <= |selected|
      invariant result + Reverse(selected[..i]) == Reverse(selected)
    {
      i := i - 1;
      ReverseLast(selected[..i + 1]);
      assert selected[..i + 1][..i] == selected[..i];
      result := result + [selected[i]];
    }
  }

  lemma {:induction false} ReverseLast<T>(items: seq<T>)
    requires items != []
    ensures Reverse(items) == [items[|items| - 1]] + Reverse(items[..|items| - 1])
  {
    if |items| > 1 {
      ReverseLast(items[1..]);
      assert items[1..][..|items| - 2] == items[..|items| - 1][1..];
    }
  }

  /** The loop of Restore over the groups' device lists. */
  method SortLists(lists: map<ID, seq<ID>>) returns (r: map<ID, seq<ID>>)
    ensures r == SortAll(lists)
  {
    r := map[];
    var keys := lists.Keys;
    while keys != {}
      invariant keys <= lists.Keys && r.Keys == lists.Keys - keys
      invariant forall k :: k in r ==> r[k] == Sort(lists[k])
      decreases keys
    {
      var key :| key in keys;
      r := r[key := Sort(lists[key])];
      keys := keys - {key};
    }
  }

  /** An order of the keys of a table, as a whole-table listing has it. */
  ghost predicate IsOrder(keys: set<ID>, order: seq<ID>) {
    NoDup(order) && forall k :: k in order <==> k in keys
  }

  /** The items of a table in some order. */
  ghost predicate IsListing<T>(table: map<ID, T>, listing: seq<T>) {
    exists order: seq<ID> :: IsOrder(table.Keys, order) && Listed(table, order, listing)
  }

  /** The loop of the whole-table listings; the order of their sort is left open. */
  method ListTable<T>(table: map<ID, T>) returns (listing: seq<T>)
    ensures IsListing(table, listing)
  {
    listing := [];
    ghost var order: seq<ID> := [];
    var todo := table.Keys;
    while todo != {}
      invariant todo <= table.Keys && NoDup(order) && Listed(table, order, listing)
      invariant forall k :: k in order <==> k in table.Keys - todo
      decreases todo
    {
      var k :| k in todo;
      todo := todo - {k};
      listing := listing + [table[k]];
      NoDupSnoc(order, k);
      order := order + [k];
    }
    assert IsOrder(table.Keys, order);
  }

  lemma NoDupSnoc(s: seq<ID>, x: ID)
    requires NoDup(s) && x !in s
    ensures NoDup(s + [x])
  {
    forall i, j | 0 <= i < j < |s + [x]| ensures (s + [x])[i] != (s + [x])[j] {
      assert (s + [x])[i] == s[i] && s[i] in s;
    }
  }

  ghost predicate Listed<T>(table: map<ID, T>, order: seq<ID>, listing: seq<T>) {
    |listing| == |order| && forall i :: 0 <= i < |order| ==> order[i] in table && listing[i] == table[order[i]]
  }

  function After(s: Snapshot, o: Outcome): Snapshot {
    if o.Done? then o.store else s
  }

  function ErrorOf(o: Outcome): Option<Error> {
    if o.Done? then None else Some(o.error)
  }

  class Store {
    var tenants: map<ID, Tenant>
    var products: map<ID, Product>
    var devices: map<ID, Device>
    var groups: map<ID, Group>
    var rules: map<ID, Rule>
    var configs: map<ID, ConfigProfile>
    var firmware: map<ID, Firmware>
    var campaigns: map<ID, Campaign>
    var shadows: map<ID, Shadow>
    var telemetry: map<ID, seq<Telemetry>>
    var commands: map<ID, Command>
    var commandIDs: map<ID, seq<ID>>
    var groupIDs: map<ID, seq<ID>>
    var deviceIDs: map<ID, seq<ID>>
    var alerts: seq<Alert>
    var telemetryRetention: int
    var alertRetention: int

    function AllTables(): Tables
      reads this
    {
      Tables(tenants, products, devices, groups, rules, configs, firmware, campaigns)
    }

    function Contents(): Snapshot
      reads this
    {
      Snapshot(AllTables(), shadows, telemetry, commands, commandIDs, groupIDs, deviceIDs, alerts, telemetryRetention, alertRetention)
    }

    constructor (retention: int)
      ensures Contents() == EmptyStore(retention)
    {
      var r := if retention <= 0 then 200 else retention;
      tenants := map[];
      products := map[];
      devices := map[];
      groups := map[];
      rules := map[];
      configs := map[];
      firmware := map[];
      campaigns := map[];
      shadows := map[];
      telemetry := map[];
      commands := map[];
      commandIDs := map[];
      groupIDs := map[];
      deviceIDs := map[];
      alerts := [];
      telemetryRetention := r;
      alertRetention := if r * 2 > 200 then r * 2 else 200;
    }

    method AddDeviceToGroup(groupID: ID, deviceID: ID) returns (error: Option<Error>)
      modifies this
      ensures var o := AddMember(old(Contents()), groupID, deviceID);
              Contents() == After(old(Contents()), o) && error == ErrorOf(o)
    {
      if groupID !in groups {
        return Some(NotFound(GroupKind));
      }
      if deviceID !in devices {
        return Some(NotFound(DeviceKind));
      }
      var groupList := AddUniqueString(Slice(groupIDs, deviceID), groupID);
      groupIDs := groupIDs[deviceID := groupList];
      var deviceList := AddUniqueString(Slice(deviceIDs, groupID), deviceID);
      deviceIDs := deviceIDs[groupID := deviceList];
      return None;
    }

    method RemoveDeviceFromGroup(groupID: ID, deviceID: ID) returns (error: Option<Error>)
      modifies this
      ensures var o := RemoveMember(old(Contents()), groupID, deviceID);
              Contents() == After(old(Contents()), o) && error == ErrorOf(o)
    {
      if groupID !in groups {
        return Some(NotFound(GroupKind));
      }
      if deviceID !in devices {
        return Some(NotFound(DeviceKind));
      }
      var groupList := RemoveString(Slice(groupIDs, deviceID), groupID);
      groupIDs := groupIDs[deviceID := groupList];
      var deviceList := RemoveString(Slice(deviceIDs, groupID), deviceID);
      deviceIDs := deviceIDs[groupID := deviceList];
      return None;
    }

    /** SaveAlert: the first alert with the id is overwritten in place. */
    method SaveAlertInPlace(alert: Alert) returns (error: Option<Error>)
      modifies this`alerts
      ensures var i := IndexOfAlert(old(alerts), alert.id);
              if i == |old(alerts)| then error == Some(NotFound(AlertKind)) && alerts == old(alerts)
              else error == None && alerts == old(alerts)[i := alert]
    {
      for i := 0 to |alerts|
        invariant alerts == old(alerts)
        invariant IndexOfAlert(alerts, alert.id) >= i
      {
        if alerts[i].id == alert.id {
          alerts := alerts[i := alert];
          return None;
        }
      }
      return Some(NotFound(AlertKind));
    }

    /** CreateX: refused when the id is taken. */
    method PerformCreate(w: Write) returns (error: Option<Error>)
      requires IsCreate(w)
      modifies this`tenants, this`products, this`devices, this`groups, this`rules, this`configs, this`firmware, this`campaigns
      ensures match ApplyCreate(old(AllTables()), w)
              case Changed(t) => error == None && AllTables() == t
              case Blocked(e) => error == Some(e) && AllTables() == old(AllTables())
    {
      error := None;
      match w
      case CreateTenant(x) =>
        if x.id in tenants {
          return Some(Exists(TenantKind));
        }
        tenants := tenants[x.id := x];
      case CreateProduct(x) =>
        if x.id in products {
          return Some(Exists(ProductKind));
        }
        products := products[x.id := x];
      case CreateDevice(x) =>
        if x.id in devices {
          return Some(Exists(DeviceKind));
        }
        devices := devices[x.id := x];
      case CreateGroup(x) =>
        if x.id in groups {
          return Some(Exists(GroupKind));
        }
        groups := groups[x.id := x];
      case CreateRule(x) =>
        if x.id in rules {
          return Some(Exists(RuleKind));
        }
        rules := rules[x.id := x];
      case CreateConfig(x) =>
        if x.id in configs {
          return Some(Exists(ConfigKind));
        }
        configs := configs[x.id := x];
      case CreateFirmware(x) =>
        if x.id in firmware {
          return Some(Exists(FirmwareKind));
        }
        firmware := firmware[x.id := x];
      case CreateCampaign(x) =>
        if x.id in campaigns {
          return Some(Exists(CampaignKind));
        }
        campaigns := campaigns[x.id := x];
    }

    /** SaveX: refused when the id is unknown. */
    method PerformSave(w: Write) returns (error: Option<Error>)
      requires IsSave(w)
      modifies this`tenants, this`products, this`devices, this`groups, this`rules, this`configs, this`firmware, this`campaigns
      ensures match ApplySave(old(AllTables()), w)
              case Changed(t) => error == None && AllTables() == t
              case Blocked(e) => error == Some(e) && AllTables() == old(AllTables())
    {
      error := None;
      match w
      case SaveTenant(x) =>
        if x.id !in tenants {
          return Some(NotFound(TenantKind));
        }
        tenants := tenants[x.id := x];
      case SaveProduct(x) =>
        if x.id !in products {
          return Some(NotFound(ProductKind));
        }
        products := products[x.id := x];
      case SaveDevice(x) =>
        if x.id !in devices {
          return Some(NotFound(DeviceKind));
        }
        devices := devices[x.id := x];
      case SaveGroup(x) =>
        if x.id !in groups {
          return Some(NotFound(GroupKind));
        }
        groups := groups[x.id := x];
      case SaveRule(x) =>
        if x.id !in rules {
          return Some(NotFound(RuleKind));
        }
        rules := rules[x.id := x];
      case SaveConfig(x) =>
        if x.id !in configs {
          return Some(NotFound(ConfigKind));
        }
        configs := configs[x.id := x];
      case SaveFirmware(x) =>
        if x.id !in firmware {
          return Some(NotFound(FirmwareKind));
        }
        firmware := firmware[x.id := x];
      case SaveCampaign(x) => error := PutCampaign(x);
    }

    method PutTelemetry(x: Telemetry)
      modifies this`telemetry
      ensures telemetry == old(telemetry)[x.deviceID := LastN(Slice(old(telemetry), x.deviceID) + [x], telemetryRetention)]
    {
      var items := Slice(telemetry, x.deviceID) + [x];
      if |items| > telemetryRetention {
        items := if telemetryRetention < 0 then [] else items[|items| - telemetryRetention..];
      }
      telemetry := telemetry[x.deviceID := items];
    }

    method PutShadow(x: Shadow)
      modifies this`shadows
      ensures shadows == old(shadows)[x.deviceID := x]
    {
      shadows := shadows[x.deviceID := x];
    }

    /** SaveConfigProfile, for a profile that is in the table. */
    method PutConfig(x: ConfigProfile)
      requires x.id in configs
      modifies this`configs
      ensures configs == old(configs)[x.id := x]
    {
      configs := configs[x.id := x];
    }

    method AddCampaign(x: Campaign)
      requires x.id !in campaigns
      modifies this`campaigns
      ensures campaigns == old(campaigns)[x.id := x]
    {
      campaigns := campaigns[x.id := x];
    }

    method PutCampaign(x: Campaign) returns (error: Option<Error>)
      modifies this`campaigns
      ensures campaigns == if x.id in old(campaigns) then old(campaigns)[x.id := x] else old(campaigns)
      ensures error == if x.id in old(campaigns) then None else Some(NotFound(CampaignKind))
    {
      if x.id !in campaigns {
        return Some(NotFound(CampaignKind));
      }
      campaigns := campaigns[x.id := x];
      return None;
    }

    method PutCommand(x: Command)
      modifies this`commands, this`commandIDs
      ensures commands == old(commands)[x.id := x]
      ensures commandIDs == old(commandIDs)[x.deviceID := Slice(old(commandIDs), x.deviceID) + [x.id]]
    {
      commands := commands[x.id := x];
      commandIDs := commandIDs[x.deviceID := Slice(commandIDs, x.deviceID) + [x.id]];
    }

    method SetCommandStatus(id: ID, status: CommandStatus, result: string, now: int) returns (error: Option<Error>)
      modifies this`commands
      ensures id !in old(commands) ==> error == Some(NotFound(CommandKind)) && commands == old(commands)
      ensures id in old(commands) ==> error == None && commands == old(commands)[id := old(commands)[id].(status := status, result := result, updatedAt := now)]
    {
      if id !in commands {
        return Some(NotFound(CommandKind));
      }
      var command := commands[id];
      command := command.(status := status);
      command := command.(result := result);
      command := command.(updatedAt := now);
      commands := commands[id := command];
      return None;
    }

    /** What devices report and are sent. */
    method PerformRecord(w: Write) returns (error: Option<Error>)
      requires IsRecord(w)
      modifies this
      ensures Contents() == After(old(Contents()), ApplyOther(old(Contents()), w))
      ensures error == ErrorOf(ApplyOther(old(Contents()), w))
    {
      error := None;
      match w
      case AppendTelemetry(x) => PutTelemetry(x);
      case SaveShadow(x) => PutShadow(x);
      case SaveCommand(x) => PutCommand(x);
      case UpdateCommandStatus(id, status, result, now) => error := SetCommandStatus(id, status, result, now);
    }

    /** Memberships and alerts. */
    method PerformOther(w: Write) returns (error: Option<Error>)
      requires !IsCreate(w) && !IsSave(w) && !IsRecord(w)
      modifies this
      ensures Contents() == After(old(Contents()), ApplyOther(old(Contents()), w))
      ensures error == ErrorOf(ApplyOther(old(Contents()), w))
    {
      error := None;
      match w
      case AddDeviceToGroup(g, d) => error := AddDeviceToGroup(g, d);
      case RemoveDeviceFromGroup(g, d) => error := RemoveDeviceFromGroup(g, d);
      case AppendAlert(x) =>
        alerts := alerts + [x];
        if |alerts| > alertRetention {
          alerts := if alertRetention < 0 then [] else alerts[|alerts| - alertRetention..];
        }
      case SaveAlert(x) => error := SaveAlertInPlace(x);
    }

    /** The writes to one entry of one table. */
    method PerformOnTables(w: Write) returns (error: Option<Error>)
      requires IsCreate(w) || IsSave(w)
      modifies this`tenants, this`products, this`devices, this`groups, this`rules, this`configs, this`firmware, this`campaigns
      ensures var o := OnTables(old(Contents()), if IsCreate(w) then ApplyCreate(old(AllTables()), w) else ApplySave(old(AllTables()), w));
              Contents() == After(old(Contents()), o) && error == ErrorOf(o)
    {
      if IsCreate(w) {
        error := PerformCreate(w);
      } else {
        error := PerformSave(w);
      }
    }

    /** All other writes. */
    method PerformElsewhere(w: Write) returns (error: Option<Error>)
      requires !IsCreate(w) && !IsSave(w)
      modifies this
      ensures Contents() == After(old(Contents()), ApplyOther(old(Contents()), w))
      ensures error == ErrorOf(ApplyOther(old(Contents()), w))
    {
      if IsRecord(w) {
        error := PerformRecord(w);
      } else {
        error := PerformOther(w);
      }
    }

    /** The writing half of the store's interface. */
    method Perform(w: Write) returns (error: Option<Error>)
      modifies this
      ensures Contents() == After(old(Contents()), Apply(old(Contents()), w))
      ensures error == ErrorOf(Apply(old(Contents()), w))
    {
      if IsCreate(w) || IsSave(w) {
        error := PerformOnTables(w);
      } else {
        error := PerformElsewhere(w);
      }
    }

    method ListDevices() returns (listing: seq<Device>)
      ensures IsListing(devices, listing)
    {
      listing := ListTable(devices);
    }

    method ListRules() returns (listing: seq<Rule>)
      ensures IsListing(rules, listing)
    {
      listing := ListTable(rules);
    }

    method ListGroupIDsByDevice(deviceID: ID) returns (a: Answer)
      ensures a == Ask(Contents(), Query.ListGroupIDsByDevice(deviceID))
    {
      if deviceID !in devices {
        return Missing(DeviceKind);
      }
      a := SortedIDs(Slice(groupIDs, deviceID));
    }

    method ListDeviceIDsByGroup(groupID: ID) returns (a: Answer)
      ensures a == Ask(Contents(), Query.ListDeviceIDsByGroup(groupID))
    {
      if groupID !in groups {
        return Missing(GroupKind);
      }
      a := SortedIDs(Slice(deviceIDs, groupID));
    }

    method ListTelemetryByDevice(deviceID: ID, limit: int) returns (a: Answer)
      ensures a == Ask(Contents(), Query.ListTelemetryByDevice(deviceID, limit))
    {
      var items := ListNewest(Slice(telemetry, deviceID), limit);
      return Series(items);
    }

    method ListCommandsByDevice(deviceID: ID, limit: int) returns (a: Answer)
      ensures a == Ask(Contents(), Query.ListCommandsByDevice(deviceID, limit))
    {
      var ids := ListNewest(Slice(commandIDs, deviceID), limit);
      var listed: seq<Option<Command>> := [];
      for i := 0 to |ids|
        invariant listed == Lookup(commands, ids)[..i]
      {
        listed := listed + [if ids[i] in commands then Some(commands[ids[i]]) else None];
      }
      return Commands(listed);
    }

    method ListAlerts(limit: int) returns (a: Answer)
      ensures a == Ask(Contents(), Query.ListAlerts(limit))
    {
      var items := ListNewest(alerts, limit);
      return Alerts(items);
    }

    method TakeSnapshot() returns (snapshot: Snapshot)
      ensures snapshot == Contents()
    {
      return Contents();
    }

    method RestoreTables(t: Tables)
      modifies this`tenants, this`products, this`devices, this`groups, this`rules, this`configs, this`firmware, this`campaigns
      ensures AllTables() == t
    {
      tenants := t.tenants;
      products := t.products;
      devices := t.devices;
      groups := t.groups;
      rules := t.rules;
      configs := t.configs;
      firmware := t.firmware;
      campaigns := t.campaigns;
    }

    method RestoreRecords(snapshot: Snapshot)
      modifies this`shadows, this`telemetry, this`commands, this`commandIDs, this`groupIDs, this`deviceIDs, this`alerts
      ensures shadows == snapshot.shadows && telemetry == snapshot.telemetry
      ensures commands == snapshot.commands && commandIDs == snapshot.commandIDs
      ensures groupIDs == snapshot.groupIDs && deviceIDs == SortAll(snapshot.deviceIDs)
      ensures alerts == snapshot.alerts
    {
      shadows := snapshot.shadows;
      telemetry := snapshot.telemetry;
      commands := snapshot.commands;
      commandIDs := snapshot.commandIDs;
      groupIDs := snapshot.groupIDs;
      deviceIDs := SortLists(snapshot.deviceIDs);
      alerts := snapshot.alerts;
    }

    method Restore(snapshot: Snapshot)
      modifies this
      ensures Contents() == Restored(snapshot, old(telemetryRetention), old(alertRetention))
    {
      RestoreTables(snapshot.tables);
      RestoreRecords(snapshot);
      RestoreRetention(snapshot.telemetryRetention, snapshot.alertRetention);
    }

    /** A retention that is not positive is not taken over. */
    method RestoreRetention(t: int, a: int)
      modifies this`telemetryRetention, this`alertRetention
      ensures telemetryRetention == if t > 0 then t else old(telemetryRetention)
      ensures alertRetention == if a > 0 then a else old(alertRetention)
    {
      if t > 0 {
        telemetryRetention := t;
      }
      if a > 0 {
        alertRetention := a;
      }
    }
  }
}
