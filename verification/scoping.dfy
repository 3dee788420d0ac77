/** Tenant and product scoping: what the operator's requests (internal/core/multitenant_ota.go,
    internal/core/service.go) do to the store's content, and the scopes every reachable store
    keeps. Ids are generated by the service and arrive as parameters. */
module Scoping {
  import opened Model
  import opened Text
  import opened Slug
  import MemoryStore

  datatype Failure =
    | Required
    | ScopeMismatch
    | InvalidModel
    | InvalidValues
    | StoreError(error: MemoryStore.Error)

  datatype Reply = Accepted(store: Snapshot) | Rejected(failure: Failure)

  datatype Request =
    | CreateTenant(id: ID, name: string, slug: string)
    | CreateProduct(id: ID, tenantID: ID, name: string, modelFits: bool, properties: map<string, string>, services: set<string>)
    | CreateGroup(id: ID, tenantID: ID, name: string, productID: ID)
    | CreateDevice(id: ID, token: string, tenantID: ID, name: string, productID: ID, tags: map<string, string>)
    | CreateConfig(id: ID, tenantID: ID, name: string, productID: ID, values: Values)
    | CreateFirmware(id: ID, tenantID: ID, productID: ID, name: string, version: string, url: string)
    | UpdateThingModel(productID: ID, modelFits: bool, properties: map<string, string>, services: set<string>)
    | UpdateAccessProfile(productID: ID, profileFits: bool)
    | UpdateDeviceTags(deviceID: ID, tags: map<string, string>)
    | AssignDevice(groupID: ID, deviceID: ID)
    | RemoveDevice(groupID: ID, deviceID: ID)
    | Background(write: MemoryStore.Write)
    | Reload

  function Missing(kind: MemoryStore.Kind): Failure {
    StoreError(MemoryStore.NotFound(kind))
  }

  // ---------------------------------------------------------------- what a request does

  datatype Resolution = Scope(tenantID: ID) | NoScope(failure: Failure)

  /** The scope check shared by the Create operations: the tenant exists, and a product's tenant
      is inherited, or must agree. */
  function Resolve(t: Tables, tenantID: ID, productID: ID): Resolution {
    if tenantID != "" && tenantID !in t.tenants then NoScope(Missing(MemoryStore.TenantKind))
    else if productID == "" then Scope(tenantID)
    else if productID !in t.products then NoScope(Missing(MemoryStore.ProductKind))
    else if tenantID == "" then Scope(t.products[productID].tenantID)
    else if t.products[productID].tenantID != tenantID then NoScope(ScopeMismatch)
    else Scope(tenantID)
  }

  function Written(s: Snapshot, w: MemoryStore.Write): Reply {
    match MemoryStore.Apply(s, w)
    case Done(s') => Accepted(s')
    case Refused(e) => Rejected(StoreError(e))
  }

  predicate SlugTaken(tenants: map<ID, Tenant>, slug: string) {
    exists k :: k in tenants && tenants[k].slug == slug
  }

  function ServeTenant(s: Snapshot, id: ID, name: string, slug: string): Reply {
    var name' := TrimSpace(name);
    var slug' := SlugOf(slug, name');
    if name' == "" then Rejected(Required)
    else if SlugTaken(s.tables.tenants, slug') then Rejected(StoreError(MemoryStore.Exists(MemoryStore.TenantKind)))
    else Written(s, MemoryStore.CreateTenant(Tenant(id, slug', name')))
  }

  function ServeProduct(s: Snapshot, r: Request): Reply
    requires r.CreateProduct?
  {
    var tenantID, name := TrimSpace(r.tenantID), TrimSpace(r.name);
    if tenantID != "" && tenantID !in s.tables.tenants then Rejected(Missing(MemoryStore.TenantKind))
    else if name == "" then Rejected(Required)
    else if !r.modelFits then Rejected(InvalidModel)
    else Written(s, MemoryStore.CreateProduct(Product(r.id, tenantID, name, r.properties, r.services)))
  }

  function ServeGroup(s: Snapshot, r: Request): Reply
    requires r.CreateGroup?
  {
    var name, productID := TrimSpace(r.name), TrimSpace(r.productID);
    if name == "" then Rejected(Required)
    else
      match Resolve(s.tables, TrimSpace(r.tenantID), productID)
      case NoScope(f) => Rejected(f)
      case Scope(t) => Written(s, MemoryStore.CreateGroup(Group(r.id, t, productID, name)))
  }

  function ServeDevice(s: Snapshot, r: Request): Reply
    requires r.CreateDevice?
  {
    var name, productID := TrimSpace(r.name), TrimSpace(r.productID);
    match Resolve(s.tables, TrimSpace(r.tenantID), productID)
    case NoScope(f) => Rejected(f)
    case Scope(t) =>
      var device := Device(r.id, t, productID, if name == "" then "device" else name, r.token, r.tags);
      match Written(s, MemoryStore.CreateDevice(device))
      case Rejected(f) => Rejected(f)
      case Accepted(s') => Accepted(s'.(shadows := s'.shadows[r.id := Shadow(r.id, productID, map[], map[], 1)]))
  }

  function ServeConfig(s: Snapshot, r: Request): Reply
    requires r.CreateConfig?
  {
    var name, productID := TrimSpace(r.name), TrimSpace(r.productID);
    if name == "" then Rejected(Required)
    else
      match Resolve(s.tables, TrimSpace(r.tenantID), productID)
      case NoScope(f) => Rejected(f)
      case Scope(t) =>
        if productID != "" && !ValuesFit(s.tables.products[productID], r.values) then Rejected(InvalidValues)
        else Written(s, MemoryStore.CreateConfig(ConfigProfile(r.id, t, productID, name, r.values, 0)))
  }

  function ServeFirmware(s: Snapshot, r: Request): Reply
    requires r.CreateFirmware?
  {
    var name, version, url, productID := TrimSpace(r.name), TrimSpace(r.version), TrimSpace(r.url), TrimSpace(r.productID);
    if name == "" || version == "" || url == "" then Rejected(Required)
    else
      match Resolve(s.tables, TrimSpace(r.tenantID), productID)
      case NoScope(f) => Rejected(f)
      case Scope(t) => Written(s, MemoryStore.CreateFirmware(Firmware(r.id, t, productID, name, version, url)))
  }

  function ServeThingModel(s: Snapshot, r: Request): Reply
    requires r.UpdateThingModel?
  {
    var id := TrimSpace(r.productID);
    if id !in s.tables.products then Rejected(Missing(MemoryStore.ProductKind))
    else if !r.modelFits then Rejected(InvalidModel)
    else Written(s, MemoryStore.SaveProduct(s.tables.products[id].(properties := r.properties, services := r.services)))
  }

  /** The access profile itself is no part of the modelled product; saving it saves the product. */
  function ServeAccessProfile(s: Snapshot, productID: ID, profileFits: bool): Reply {
    var id := TrimSpace(productID);
    if id !in s.tables.products then Rejected(Missing(MemoryStore.ProductKind))
    else if !profileFits then Rejected(InvalidModel)
    else Written(s, MemoryStore.SaveProduct(s.tables.products[id]))
  }

  function ServeTags(s: Snapshot, deviceID: ID, tags: map<string, string>): Reply {
    var id := TrimSpace(deviceID);
    if id !in s.tables.devices then Rejected(Missing(MemoryStore.DeviceKind))
    else Written(s, MemoryStore.SaveDevice(s.tables.devices[id].(tags := tags)))
  }

  /** A group takes a device of its own tenant and product, whenever it has them. */
  predicate Suits(group: Group, device: Device) {
    && (group.tenantID != "" ==> device.tenantID == group.tenantID)
    && (group.productID != "" ==> device.productID == group.productID)
  }

  function ServeAssign(s: Snapshot, groupID: ID, deviceID: ID): Reply {
    var g, d := TrimSpace(groupID), TrimSpace(deviceID);
    if g !in s.tables.groups then Rejected(Missing(MemoryStore.GroupKind))
    else if d !in s.tables.devices then Rejected(Missing(MemoryStore.DeviceKind))
    else if !Suits(s.tables.groups[g], s.tables.devices[d]) then Rejected(ScopeMismatch)
    else Written(s, MemoryStore.AddDeviceToGroup(s.tables.groups[g].id, s.tables.devices[d].id))
  }

  function ServeRemove(s: Snapshot, groupID: ID, deviceID: ID): Reply {
    var g, d := TrimSpace(groupID), TrimSpace(deviceID);
    if g !in s.tables.groups then Rejected(Missing(MemoryStore.GroupKind))
    else if d !in s.tables.devices then Rejected(Missing(MemoryStore.DeviceKind))
    else Written(s, MemoryStore.RemoveDeviceFromGroup(s.tables.groups[g].id, d))
  }

  /** Writes that other parts of the service make: none creates or rescopes a tenant, product,
      device, group, profile or artifact. An applied profile is saved with a new count. */
  predicate Unscoped(s: Snapshot, w: MemoryStore.Write) {
    match w
    case SaveConfig(c) => c.id in s.tables.configs && c == s.tables.configs[c.id].(appliedCount := c.appliedCount)
    case CreateRule(_) => true
    case CreateCampaign(_) => true
    case SaveCampaign(_) => true
    case _ => !MemoryStore.IsCreate(w) && !MemoryStore.IsSave(w) && !MemoryStore.IsMembership(w)
  }

  predicate Possible(s: Snapshot, r: Request) {
    r.Background? ==> Unscoped(s, r.write)
  }

  function Serve(s: Snapshot, r: Request): Reply
    requires Possible(s, r)
  {
    match r
    case CreateTenant(id, name, slug) => ServeTenant(s, id, name, slug)
    case CreateProduct(_, _, _, _, _, _) => ServeProduct(s, r)
    case CreateGroup(_, _, _, _) => ServeGroup(s, r)
    case CreateDevice(_, _, _, _, _, _) => ServeDevice(s, r)
    case CreateConfig(_, _, _, _, _) => ServeConfig(s, r)
    case CreateFirmware(_, _, _, _, _, _) => ServeFirmware(s, r)
    case UpdateThingModel(_, _, _, _) => ServeThingModel(s, r)
    case UpdateAccessProfile(p, fits) => ServeAccessProfile(s, p, fits)
    case UpdateDeviceTags(d, tags) => ServeTags(s, d, tags)
    case AssignDevice(g, d) => ServeAssign(s, g, d)
    case RemoveDevice(g, d) => ServeRemove(s, g, d)
    case Background(w) => Written(s, w)
    case Reload => Accepted(MemoryStore.Restored(s, s.telemetryRetention, s.alertRetention))
  }

  // ---------------------------------------------------------------- the invariant

  predicate TenantKnown(t: Tables, tenantID: ID) {
    tenantID == "" || tenantID in t.tenants
  }

  /** The tenant, if any, exists; the product, if any, exists and belongs to that tenant. */
  predicate Scoped(t: Tables, tenantID: ID, productID: ID) {
    TenantKnown(t, tenantID)
    && (productID != "" ==> productID in t.products && t.products[productID].tenantID == tenantID)
  }

  ghost predicate ProductsScoped(t: Tables) {
    forall k :: k in t.products ==> t.products[k].id == k && TenantKnown(t, t.products[k].tenantID)
  }

  ghost predicate DevicesScoped(t: Tables) {
    forall k :: k in t.devices ==> t.devices[k].id == k && Scoped(t, t.devices[k].tenantID, t.devices[k].productID)
  }

  ghost predicate GroupsScoped(t: Tables) {
    forall k :: k in t.groups ==> t.groups[k].id == k && Scoped(t, t.groups[k].tenantID, t.groups[k].productID)
  }

  ghost predicate ConfigsScoped(t: Tables) {
    forall k :: k in t.configs ==> t.configs[k].id == k && Scoped(t, t.configs[k].tenantID, t.configs[k].productID)
  }

  ghost predicate FirmwareScoped(t: Tables) {
    forall k :: k in t.firmware ==> t.firmware[k].id == k && Scoped(t, t.firmware[k].tenantID, t.firmware[k].productID)
  }

  ghost predicate SlugsDistinct(tenants: map<ID, Tenant>) {
    && (forall k :: k in tenants ==> tenants[k].id == k && IsSlug(tenants[k].slug))
    && (forall j, k :: j in tenants && k in tenants && tenants[j].slug == tenants[k].slug ==> j == k)
  }

  ghost predicate TablesScoped(t: Tables) {
    ProductsScoped(t) && DevicesScoped(t) && GroupsScoped(t) && ConfigsScoped(t) && FirmwareScoped(t) && SlugsDistinct(t.tenants)
  }

  predicate Member(deviceIDs: map<ID, seq<ID>>, g: ID, d: ID) {
    d in Slice(deviceIDs, g)
  }

  /** Every member of a group exists and suits the group. */
  ghost predicate MembersSuit(t: Tables, deviceIDs: map<ID, seq<ID>>) {
    forall g, d :: Member(deviceIDs, g, d) ==> g in t.groups && d in t.devices && Suits(t.groups[g], t.devices[d])
  }

  ghost predicate ScopeInv(s: Snapshot) {
    TablesScoped(s.tables) && MembersSuit(s.tables, s.deviceIDs)
  }

  // ---------------------------------------------------------------- each request keeps it

  /** No tenant and no product is lost, and no product changes tenant. */
  ghost predicate Grown(t: Tables, t': Tables) {
    && t.tenants.Keys <= t'.tenants.Keys
    && forall p :: p in t.products ==> p in t'.products && t'.products[p].tenantID == t.products[p].tenantID
  }

  /** The tenant a request may be given: existing, the product's own if there is a product, and the
      one asked for if one was. */
  predicate Suitable(t: Tables, tenantID: ID, productID: ID, granted: ID) {
    && Scoped(t, granted, productID)
    && (tenantID != "" ==> granted == tenantID)
    && (productID == "" ==> granted == tenantID)
  }

  /** The check passes exactly when some tenant is suitable, and yields that one. */
  lemma ResolveIff(t: Tables, tenantID: ID, productID: ID)
    requires ProductsScoped(t)
    ensures Resolve(t, tenantID, productID).Scope? <==> exists granted :: Suitable(t, tenantID, productID, granted)
    ensures forall granted :: Suitable(t, tenantID, productID, granted) ==> Resolve(t, tenantID, productID) == Scope(granted)
  {
    var r := Resolve(t, tenantID, productID);
    if r.Scope? {
      assert Suitable(t, tenantID, productID, r.tenantID);
    }
  }

  lemma ResolveScopes(t: Tables, tenantID: ID, productID: ID)
    requires ProductsScoped(t) && Resolve(t, tenantID, productID).Scope?
    ensures Scoped(t, Resolve(t, tenantID, productID).tenantID, productID)
  {
  }

  /** Members go on suiting their groups when no group changes and no device changes scope. */
  lemma MembersStay(t: Tables, t': Tables, deviceIDs: map<ID, seq<ID>>)
    requires MembersSuit(t, deviceIDs)
    requires forall g :: g in t.groups ==> g in t'.groups && t'.groups[g] == t.groups[g]
    requires forall d :: d in t.devices ==>
               d in t'.devices && t'.devices[d].tenantID == t.devices[d].tenantID && t'.devices[d].productID == t.devices[d].productID
    ensures MembersSuit(t', deviceIDs)
  {
  }

  lemma GroupAdded(t: Tables, group: Group)
    requires TablesScoped(t) && Scoped(t, group.tenantID, group.productID)
    ensures TablesScoped(t.(groups := t.groups[group.id := group]))
  {
    assert Grown(t, t.(groups := t.groups[group.id := group]));
  }

  lemma ConfigAdded(t: Tables, profile: ConfigProfile)
    requires TablesScoped(t) && Scoped(t, profile.tenantID, profile.productID)
    ensures TablesScoped(t.(configs := t.configs[profile.id := profile]))
  {
    assert Grown(t, t.(configs := t.configs[profile.id := profile]));
  }

  lemma FirmwareAdded(t: Tables, artifact: Firmware)
    requires TablesScoped(t) && Scoped(t, artifact.tenantID, artifact.productID)
    ensures TablesScoped(t.(firmware := t.firmware[artifact.id := artifact]))
  {
    assert Grown(t, t.(firmware := t.firmware[artifact.id := artifact]));
  }

  lemma DevicePut(t: Tables, device: Device)
    requires TablesScoped(t) && Scoped(t, device.tenantID, device.productID)
    ensures TablesScoped(t.(devices := t.devices[device.id := device]))
  {
    assert Grown(t, t.(devices := t.devices[device.id := device]));
  }

  lemma TenantKeeps(s: Snapshot, id: ID, name: string, slug: string)
    requires ScopeInv(s) && ServeTenant(s, id, name, slug).Accepted?
    ensures ScopeInv(ServeTenant(s, id, name, slug).store)
  {
    var t, t' := s.tables, ServeTenant(s, id, name, slug).store.tables;
    SlugIsNormal(slug, TrimSpace(name));
    assert Grown(t, t');
  }

  lemma ProductKeeps(s: Snapshot, r: Request)
    requires ScopeInv(s) && r.CreateProduct? && ServeProduct(s, r).Accepted?
    ensures ScopeInv(ServeProduct(s, r).store)
  {
    assert Grown(s.tables, ServeProduct(s, r).store.tables);
  }

  lemma GroupKeeps(s: Snapshot, r: Request)
    requires ScopeInv(s) && r.CreateGroup? && ServeGroup(s, r).Accepted?
    ensures ScopeInv(ServeGroup(s, r).store)
  {
    var name, productID := TrimSpace(r.name), TrimSpace(r.productID);
    ResolveScopes(s.tables, TrimSpace(r.tenantID), productID);
    var group := Group(r.id, Resolve(s.tables, TrimSpace(r.tenantID), productID).tenantID, productID, name);
    GroupAdded(s.tables, group);
    var t' := s.tables.(groups := s.tables.groups[group.id := group]);
    assert ServeGroup(s, r).store == s.(tables := t');
    MembersStay(s.tables, t', s.deviceIDs);
  }

  lemma DeviceKeeps(s: Snapshot, r: Request)
    requires ScopeInv(s) && r.CreateDevice? && ServeDevice(s, r).Accepted?
    ensures ScopeInv(ServeDevice(s, r).store)
  {
    var name, productID := TrimSpace(r.name), TrimSpace(r.productID);
    ResolveScopes(s.tables, TrimSpace(r.tenantID), productID);
    var tenantID := Resolve(s.tables, TrimSpace(r.tenantID), productID).tenantID;
    var device := Device(r.id, tenantID, productID, if name == "" then "device" else name, r.token, r.tags);
    DevicePut(s.tables, device);
    var t' := s.tables.(devices := s.tables.devices[device.id := device]);
    assert ServeDevice(s, r).store.tables == t';
    MembersStay(s.tables, t', s.deviceIDs);
  }

  lemma ConfigKeeps(s: Snapshot, r: Request)
    requires ScopeInv(s) && r.CreateConfig? && ServeConfig(s, r).Accepted?
    ensures ScopeInv(ServeConfig(s, r).store)
  {
    var name, productID := TrimSpace(r.name), TrimSpace(r.productID);
    ResolveScopes(s.tables, TrimSpace(r.tenantID), productID);
    var tenantID := Resolve(s.tables, TrimSpace(r.tenantID), productID).tenantID;
    var profile := ConfigProfile(r.id, tenantID, productID, name, r.values, 0);
    ConfigAdded(s.tables, profile);
    var t' := s.tables.(configs := s.tables.configs[profile.id := profile]);
    assert ServeConfig(s, r).store == s.(tables := t');
    MembersStay(s.tables, t', s.deviceIDs);
  }

  lemma FirmwareKeeps(s: Snapshot, r: Request)
    requires ScopeInv(s) && r.CreateFirmware? && ServeFirmware(s, r).Accepted?
    ensures ScopeInv(ServeFirmware(s, r).store)
  {
    var productID := TrimSpace(r.productID);
    ResolveScopes(s.tables, TrimSpace(r.tenantID), productID);
    var tenantID := Resolve(s.tables, TrimSpace(r.tenantID), productID).tenantID;
    var artifact := Firmware(r.id, tenantID, productID, TrimSpace(r.name), TrimSpace(r.version), TrimSpace(r.url));
    FirmwareAdded(s.tables, artifact);
    var t' := s.tables.(firmware := s.tables.firmware[artifact.id := artifact]);
    assert ServeFirmware(s, r).store == s.(tables := t');
    MembersStay(s.tables, t', s.deviceIDs);
  }

  lemma ThingModelKeeps(s: Snapshot, r: Request)
    requires ScopeInv(s) && r.UpdateThingModel? && ServeThingModel(s, r).Accepted?
    ensures ScopeInv(ServeThingModel(s, r).store)
  {
    assert Grown(s.tables, ServeThingModel(s, r).store.tables);
  }

  lemma AccessProfileKeeps(s: Snapshot, productID: ID, profileFits: bool)
    requires ScopeInv(s) && ServeAccessProfile(s, productID, profileFits).Accepted?
    ensures ServeAccessProfile(s, productID, profileFits).store == s
  {
    var id := TrimSpace(productID);
    assert s.tables.products[id := s.tables.products[id]] == s.tables.products;
  }

  lemma TagsKeep(s: Snapshot, deviceID: ID, tags: map<string, string>)
    requires ScopeInv(s) && ServeTags(s, deviceID, tags).Accepted?
    ensures ScopeInv(ServeTags(s, deviceID, tags).store)
  {
    var device := s.tables.devices[TrimSpace(deviceID)].(tags := tags);
    DevicePut(s.tables, device);
    var t' := s.tables.(devices := s.tables.devices[device.id := device]);
    assert ServeTags(s, deviceID, tags).store == s.(tables := t');
    MembersStay(s.tables, t', s.deviceIDs);
  }

  lemma MemberAdded(t: Tables, deviceIDs: map<ID, seq<ID>>, g: ID, d: ID)
    requires MembersSuit(t, deviceIDs) && g in t.groups && d in t.devices && Suits(t.groups[g], t.devices[d])
    ensures MembersSuit(t, deviceIDs[g := MemoryStore.AddUnique(Slice(deviceIDs, g), d)])
  {
    var members := deviceIDs[g := MemoryStore.AddUnique(Slice(deviceIDs, g), d)];
    assert forall h, e :: Member(members, h, e) ==> (h == g && e == d) || Member(deviceIDs, h, e);
  }

  lemma AssignKeeps(s: Snapshot, groupID: ID, deviceID: ID)
    requires ScopeInv(s) && ServeAssign(s, groupID, deviceID).Accepted?
    ensures ScopeInv(ServeAssign(s, groupID, deviceID).store)
  {
    var g, d := TrimSpace(groupID), TrimSpace(deviceID);
    assert s.tables.groups[g].id == g && s.tables.devices[d].id == d;
    MemberAdded(s.tables, s.deviceIDs, g, d);
  }

  lemma RemoveKeeps(s: Snapshot, groupID: ID, deviceID: ID)
    requires ScopeInv(s) && ServeRemove(s, groupID, deviceID).Accepted?
    ensures ScopeInv(ServeRemove(s, groupID, deviceID).store)
  {
    var g, d := TrimSpace(groupID), TrimSpace(deviceID);
    var s' := MemoryStore.RemoveMember(s, g, d).store;
    assert s.tables.groups[g].id == g;
    assert ServeRemove(s, groupID, deviceID).store == s' && s'.tables == s.tables;
    WithoutSubset(Slice(s.deviceIDs, g), d);
    assert forall h, e :: Member(s'.deviceIDs, h, e) ==> Member(s.deviceIDs, h, e);
  }

  lemma {:induction false} WithoutSubset(values: seq<ID>, value: ID)
    ensures forall x :: x in MemoryStore.Without(values, value) ==> x in values
  {
    if values != [] {
      WithoutSubset(values[1..], value);
    }
  }

  lemma BackgroundKeeps(s: Snapshot, w: MemoryStore.Write)
    requires ScopeInv(s) && Unscoped(s, w) && Written(s, w).Accepted?
    ensures ScopeInv(Written(s, w).store)
  {
    var t' := Written(s, w).store.tables;
    MemoryStore.OtherWritesKeepGroups(s, w);
    if MemoryStore.IsCreate(w) || MemoryStore.IsSave(w) {
      UnscopedTables(s, w);
      assert Grown(s.tables, t');
      MembersStay(s.tables, t', s.deviceIDs);
    } else {
      RecordsKeepTables(s, w);
    }
  }

  lemma UnscopedTables(s: Snapshot, w: MemoryStore.Write)
    requires Unscoped(s, w) && (MemoryStore.IsCreate(w) || MemoryStore.IsSave(w)) && Written(s, w).Accepted?
    ensures var t, t' := s.tables, Written(s, w).store.tables;
            t' == t.(rules := t'.rules, campaigns := t'.campaigns, configs := t'.configs)
            && (t'.configs == t.configs
                || (w.SaveConfig? && w.config.id in t.configs && t'.configs == t.configs[w.config.id := w.config]))
  {
  }

  lemma RecordsKeepTables(s: Snapshot, w: MemoryStore.Write)
    requires !MemoryStore.IsCreate(w) && !MemoryStore.IsSave(w) && MemoryStore.Apply(s, w).Done?
    ensures MemoryStore.Apply(s, w).store.tables == s.tables
  {
  }

  lemma SortedMember(lists: map<ID, seq<ID>>, g: ID, d: ID)
    requires Member(MemoryStore.SortAll(lists), g, d)
    ensures Member(lists, g, d)
  {
    SortIsSorted(lists[g]);
    MemoryStore.SameMultisetSameList(lists[g], Sort(lists[g]));
  }

  lemma ReloadKeeps(s: Snapshot)
    requires ScopeInv(s)
    ensures ScopeInv(MemoryStore.Restored(s, s.telemetryRetention, s.alertRetention))
  {
    var sorted := MemoryStore.SortAll(s.deviceIDs);
    forall g, d | Member(sorted, g, d) ensures Member(s.deviceIDs, g, d) {
      SortedMember(s.deviceIDs, g, d);
    }
    assert MembersSuit(s.tables, sorted);
  }

  lemma ServeKeepsScopes(s: Snapshot, r: Request)
    requires ScopeInv(s) && Possible(s, r) && Serve(s, r).Accepted?
    ensures ScopeInv(Serve(s, r).store)
  {
    match r
    case CreateTenant(id, name, slug) => TenantKeeps(s, id, name, slug);
    case CreateProduct(_, _, _, _, _, _) => ProductKeeps(s, r);
    case CreateGroup(_, _, _, _) => GroupKeeps(s, r);
    case CreateDevice(_, _, _, _, _, _) => DeviceKeeps(s, r);
    case CreateConfig(_, _, _, _, _) => ConfigKeeps(s, r);
    case CreateFirmware(_, _, _, _, _, _) => FirmwareKeeps(s, r);
    case UpdateThingModel(_, _, _, _) => ThingModelKeeps(s, r);
    case UpdateAccessProfile(p, fits) => AccessProfileKeeps(s, p, fits);
    case UpdateDeviceTags(d, tags) => TagsKeep(s, d, tags);
    case AssignDevice(g, d) => AssignKeeps(s, g, d);
    case RemoveDevice(g, d) => RemoveKeeps(s, g, d);
    case Background(w) => BackgroundKeeps(s, w);
    case Reload => ReloadKeeps(s);
  }

  // ---------------------------------------------------------------- every reachable store

  function Step(s: Snapshot, r: Request): Snapshot
    requires Possible(s, r)
  {
    match Serve(s, r)
    case Accepted(s') => s'
    case Rejected(_) => s
  }

  predicate PossibleRun(s: Snapshot, requests: seq<Request>)
    decreases requests
  {
    requests == [] || (Possible(s, requests[0]) && PossibleRun(Step(s, requests[0]), requests[1..]))
  }

  function Run(s: Snapshot, requests: seq<Request>): Snapshot
    requires PossibleRun(s, requests)
    decreases requests
  {
    if requests == [] then s else Run(Step(s, requests[0]), requests[1..])
  }

  lemma {:induction false} RunKeepsScopes(s: Snapshot, requests: seq<Request>)
    requires ScopeInv(s) && PossibleRun(s, requests)
    ensures ScopeInv(Run(s, requests))
    decreases requests
  {
    if requests != [] {
      if Serve(s, requests[0]).Accepted? {
        ServeKeepsScopes(s, requests[0]);
      }
      RunKeepsScopes(Step(s, requests[0]), requests[1..]);
    }
  }

  /** In every reachable store: each device, group, profile and artifact with a product has an
      existing product of its own tenant; every group member matches the group's tenant and
      product whenever those are non-empty; all tenants have pairwise distinct normal slugs. */
  lemma ReachableScopes(retention: int, requests: seq<Request>)
    requires PossibleRun(EmptyStore(retention), requests)
    ensures ScopeInv(Run(EmptyStore(retention), requests))
  {
    RunKeepsScopes(EmptyStore(retention), requests);
  }
}
