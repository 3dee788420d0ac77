/** Whom an OTA campaign addresses: CreateOTACampaign up to the dispatch,
    resolveOTATargetProduct and resolveOTATargetDevices (internal/core/multitenant_ota.go). */
module OtaTargets {
  import opened Model
  import opened Text
  import opened Scoping
  import opened Slug
  import MemoryStore

  // ---------------------------------------------------------------- the product of a campaign

  datatype Target = Product(productID: ID) | NoTarget(failure: Failure)

  function ProductScope(t: Tables, tenantID: ID, artifact: Firmware, productID: ID): Target {
    if productID != "" then
      if productID !in t.products then NoTarget(Scoping.Missing(MemoryStore.ProductKind))
      else
        var product := t.products[productID];
        if tenantID != "" && product.tenantID != tenantID then NoTarget(ScopeMismatch)
        else if artifact.productID != "" && artifact.productID != product.id then NoTarget(ScopeMismatch)
        else Target.Product(product.id)
    else if artifact.productID != "" then Target.Product(artifact.productID)
    else NoTarget(Required)
  }

  function ResolveTargetProduct(t: Tables, tenantID: ID, artifact: Firmware, productID: ID, groupID: ID, deviceID: ID): Target {
    if deviceID != "" then
      if deviceID !in t.devices then NoTarget(Scoping.Missing(MemoryStore.DeviceKind))
      else
        var device := t.devices[deviceID];
        if tenantID != "" && device.tenantID != tenantID then NoTarget(ScopeMismatch)
        else if artifact.productID != "" && device.productID != artifact.productID then NoTarget(ScopeMismatch)
        else Target.Product(device.productID)
    else if groupID != "" then
      if groupID !in t.groups then NoTarget(Scoping.Missing(MemoryStore.GroupKind))
      else
        var group := t.groups[groupID];
        if tenantID != "" && group.tenantID != tenantID then NoTarget(ScopeMismatch)
        else if artifact.productID != "" && group.productID != "" && group.productID != artifact.productID then NoTarget(ScopeMismatch)
        else ProductScope(t, tenantID, artifact, if productID == "" then group.productID else productID)
    else ProductScope(t, tenantID, artifact, productID)
  }

  datatype Plan = Planned(campaign: Campaign, artifact: Firmware) | Refused(failure: Failure)

  /** The campaign that CreateOTACampaign stores before it dispatches. */
  function PlanCampaign(t: Tables, id: ID, tenantID: ID, name: string, firmwareID: ID, productID: ID, groupID: ID, deviceID: ID): Plan {
    var tenantID, firmwareID := TrimSpace(tenantID), TrimSpace(firmwareID);
    if TrimSpace(name) == "" || firmwareID == "" then Refused(Required)
    else if firmwareID !in t.firmware then Refused(Scoping.Missing(MemoryStore.FirmwareKind))
    else
      var artifact := t.firmware[firmwareID];
      if tenantID != "" && artifact.tenantID != tenantID then Refused(ScopeMismatch)
      else
        var product, group, device := TrimSpace(productID), TrimSpace(groupID), TrimSpace(deviceID);
        match ResolveTargetProduct(t, artifact.tenantID, artifact, product, group, device)
        case NoTarget(f) => Refused(f)
        case Product(p) =>
          Planned(Campaign(id, artifact.tenantID, artifact.id, p, group, device, Pending, 0, 0, 0, 0), artifact)
  }

  /** A product named in the request exists and fits the campaign's tenant and the artifact. */
  predicate ProductFits(t: Tables, tenantID: ID, artifact: Firmware, productID: ID) {
    productID in t.products
    && (tenantID != "" ==> t.products[productID].tenantID == tenantID)
    && (artifact.productID != "" ==> artifact.productID == productID)
  }

  predicate GroupFits(t: Tables, tenantID: ID, artifact: Firmware, groupID: ID) {
    groupID in t.groups
    && (tenantID != "" ==> t.groups[groupID].tenantID == tenantID)
    && (artifact.productID != "" && t.groups[groupID].productID != "" ==> t.groups[groupID].productID == artifact.productID)
  }

  predicate DeviceFits(t: Tables, tenantID: ID, artifact: Firmware, deviceID: ID) {
    deviceID in t.devices
    && (tenantID != "" ==> t.devices[deviceID].tenantID == tenantID)
    && (artifact.productID != "" ==> t.devices[deviceID].productID == artifact.productID)
  }

  /** In a scoped store a campaign is accepted exactly when what it names exists and fits: a device,
      and then nothing else is looked at; otherwise the group and the product, as far as they are
      named; and some product is named, by the request, the group or the artifact. So the product
      looked up for a group never refuses it. */
  lemma AcceptedIff(t: Tables, tenantID: ID, artifact: Firmware, productID: ID, groupID: ID, deviceID: ID)
    requires ProductsScoped(t) && GroupsScoped(t)
    ensures ResolveTargetProduct(t, tenantID, artifact, productID, groupID, deviceID).Product? <==>
              if deviceID != "" then DeviceFits(t, tenantID, artifact, deviceID)
              else
                && (groupID != "" ==> GroupFits(t, tenantID, artifact, groupID))
                && (productID != "" ==> ProductFits(t, tenantID, artifact, productID))
                && (productID != "" || artifact.productID != "" || (groupID != "" && t.groups[groupID].productID != ""))
  {
    if productID in t.products {
      assert t.products[productID].id == productID;
    }
    if groupID in t.groups && t.groups[groupID].productID != "" {
      assert t.products[t.groups[groupID].productID].id == t.groups[groupID].productID;
    }
  }

  // ---------------------------------------------------------------- its devices

  /** A listing of the device table, in the order the store lists it. */
  ghost predicate ListsDevices(t: Tables, listing: seq<Device>) {
    && (forall d :: d in listing <==> d.id in t.devices && t.devices[d.id] == d)
    && forall i, j :: 0 <= i < j < |listing| ==> listing[i] != listing[j]
  }

  lemma ListedIff(t: Tables, order: seq<ID>, listing: seq<Device>, d: Device)
    requires DevicesScoped(t) && MemoryStore.IsOrder(t.devices.Keys, order) && MemoryStore.Listed(t.devices, order, listing)
    ensures d in listing <==> d.id in t.devices && t.devices[d.id] == d
  {
    if d in listing {
      var i :| 0 <= i < |listing| && listing[i] == d;
      assert t.devices[order[i]].id == order[i];
    }
    if d.id in t.devices && t.devices[d.id] == d {
      assert d.id in order;
      var i :| 0 <= i < |order| && order[i] == d.id;
      assert listing[i] == d;
    }
  }

  /** Every listing of a scoped store is one. */
  lemma ListingLists(t: Tables, listing: seq<Device>)
    requires DevicesScoped(t) && MemoryStore.IsListing(t.devices, listing)
    ensures ListsDevices(t, listing)
  {
    var order: seq<ID> :| MemoryStore.IsOrder(t.devices.Keys, order) && MemoryStore.Listed(t.devices, order, listing);
    forall d ensures d in listing <==> d.id in t.devices && t.devices[d.id] == d {
      ListedIff(t, order, listing, d);
    }
    forall i, j | 0 <= i < j < |listing| ensures listing[i] != listing[j] {
      assert t.devices[order[i]].id == order[i] && t.devices[order[j]].id == order[j];
    }
  }

  predicate Addressed(campaign: Campaign, device: Device) {
    && (campaign.tenantID != "" ==> device.tenantID == campaign.tenantID)
    && (campaign.productID != "" ==> device.productID == campaign.productID)
  }

  function Filtered(campaign: Campaign, listing: seq<Device>): seq<ID> {
    if listing == [] then []
    else (if Addressed(campaign, listing[0]) then [listing[0].id] else []) + Filtered(campaign, listing[1..])
  }

  function TargetDevices(s: Snapshot, campaign: Campaign, listing: seq<Device>): Option<seq<ID>> {
    if campaign.deviceID != "" then Some([campaign.deviceID])
    else if campaign.groupID != "" then
      match MemoryStore.Ask(s, MemoryStore.ListDeviceIDsByGroup(campaign.groupID))
      case IDs(ids) => Some(ids)
      case _ => None
    else Some(Filtered(campaign, listing))
  }

  lemma FilteredFrom(campaign: Campaign, listing: seq<Device>, i: nat)
    requires i < |listing|
    ensures Filtered(campaign, listing[i..])
         == (if Addressed(campaign, listing[i]) then [listing[i].id] else []) + Filtered(campaign, listing[i + 1..])
  {
    assert listing[i..][1..] == listing[i + 1..];
  }

  /** The loop of resolveOTATargetDevices. */
  method FilterDevices(campaign: Campaign, listing: seq<Device>) returns (result: seq<ID>)
    ensures result == Filtered(campaign, listing)
  {
    result := [];
    ghost var all, rest := Filtered(campaign, listing), Filtered(campaign, listing);
    assert listing[0..] == listing;
    for i := 0 to |listing|
      invariant rest == Filtered(campaign, listing[i..])
      invariant result + rest == all
    {
      FilteredFrom(campaign, listing, i);
      rest := Filtered(campaign, listing[i + 1..]);
      var outside := false;
      if campaign.tenantID != "" && listing[i].tenantID != campaign.tenantID {
        outside := true;
      }
      if campaign.productID != "" && listing[i].productID != campaign.productID {
        outside := true;
      }
      if !outside {
        result := result + [listing[i].id];
      }
    }
    assert rest == [];
  }

  method ResolveTargetDevices(store: MemoryStore.Store, campaign: Campaign, listing: seq<Device>) returns (targets: Option<seq<ID>>)
    ensures targets == TargetDevices(store.Contents(), campaign, listing)
  {
    if campaign.deviceID != "" {
      return Some([campaign.deviceID]);
    }
    if campaign.groupID != "" {
      var answer := store.ListDeviceIDsByGroup(campaign.groupID);
      return if answer.IDs? then Some(answer.ids) else None;
    }
    var result := FilterDevices(campaign, listing);
    return Some(result);
  }

  lemma {:induction false} FilteredIff(campaign: Campaign, listing: seq<Device>, id: ID)
    ensures id in Filtered(campaign, listing) <==> exists d :: d in listing && d.id == id && Addressed(campaign, d)
  {
    if listing != [] {
      FilteredIff(campaign, listing[1..], id);
      assert listing == [listing[0]] + listing[1..];
    }
  }

  /** Without a device or a group, a campaign addresses exactly the devices in its scope. */
  lemma ProductScopeTargetsIff(s: Snapshot, campaign: Campaign, listing: seq<Device>, id: ID)
    requires ScopeInv(s) && ListsDevices(s.tables, listing) && campaign.deviceID == "" && campaign.groupID == ""
    ensures var targets := TargetDevices(s, campaign, listing);
            targets.Some? && (id in targets.value <==> id in s.tables.devices && Addressed(campaign, s.tables.devices[id]))
  {
    FilteredIff(campaign, listing, id);
    if id in s.tables.devices {
      assert s.tables.devices[id].id == id;
      assert s.tables.devices[id] in listing;
    }
  }

  lemma GroupTarget(s: Snapshot, campaign: Campaign, listing: seq<Device>, id: ID)
    requires ScopeInv(s) && campaign.deviceID == "" && campaign.groupID != ""
    requires TargetDevices(s, campaign, listing).Some? && id in TargetDevices(s, campaign, listing).value
    ensures campaign.groupID in s.tables.groups && id in s.tables.devices
    ensures Suits(s.tables.groups[campaign.groupID], s.tables.devices[id])
  {
    var members := Slice(s.deviceIDs, campaign.groupID);
    SortIsSorted(members);
    MemoryStore.SameMultisetSameList(members, Sort(members));
    assert Member(s.deviceIDs, campaign.groupID, id);
  }

  // ---------------------------------------------------------------- target safety

  /** Product safety is promised for a single device, for a product, and for a group that is
      itself bound to a product. */
  predicate ProductBound(t: Tables, campaign: Campaign) {
    campaign.deviceID != "" || campaign.groupID == "" || (campaign.groupID in t.groups && t.groups[campaign.groupID].productID != "")
  }

  /** Target safety, in a store that keeps the scoping invariant: every device an accepted campaign
      addresses exists and has the campaign's tenant; and it has the artifact's product, unless the
      campaign addresses a group without a product. */
  lemma TargetsAreSafe(s: Snapshot, id: ID, tenantID: ID, name: string, firmwareID: ID, productID: ID, groupID: ID, deviceID: ID,
                       listing: seq<Device>, target: ID)
    requires ScopeInv(s) && ListsDevices(s.tables, listing)
    requires PlanCampaign(s.tables, id, tenantID, name, firmwareID, productID, groupID, deviceID).Planned?
    requires var campaign := PlanCampaign(s.tables, id, tenantID, name, firmwareID, productID, groupID, deviceID).campaign;
             TargetDevices(s, campaign, listing).Some? && target in TargetDevices(s, campaign, listing).value
    ensures target in s.tables.devices
    ensures var plan := PlanCampaign(s.tables, id, tenantID, name, firmwareID, productID, groupID, deviceID);
            && (plan.campaign.tenantID != "" ==> s.tables.devices[target].tenantID == plan.campaign.tenantID)
            && (plan.artifact.productID != "" && ProductBound(s.tables, plan.campaign) ==>
                  s.tables.devices[target].productID == plan.artifact.productID)
  {
    var plan := PlanCampaign(s.tables, id, tenantID, name, firmwareID, productID, groupID, deviceID);
    var campaign := plan.campaign;
    if campaign.deviceID != "" {
      assert target == campaign.deviceID;
    } else if campaign.groupID != "" {
      GroupTarget(s, campaign, listing, target);
    } else {
      ProductScopeTargetsIff(s, campaign, listing, target);
      ProductScopeProduct(s.tables, campaign.tenantID, plan.artifact, TrimSpace(productID));
    }
  }

  /** A campaign for a product carries the artifact's product. */
  lemma ProductScopeProduct(t: Tables, tenantID: ID, artifact: Firmware, productID: ID)
    requires ProductsScoped(t) && ProductScope(t, tenantID, artifact, productID).Product?
    ensures artifact.productID != "" ==> ProductScope(t, tenantID, artifact, productID).productID == artifact.productID
  {
  }

  /** The store of every run is such a store. */
  lemma ReachableTargetsAreSafe(retention: int, requests: seq<Request>, id: ID, tenantID: ID, name: string, firmwareID: ID,
                                productID: ID, groupID: ID, deviceID: ID, listing: seq<Device>, target: ID)
    requires PossibleRun(EmptyStore(retention), requests)
    requires var s := Run(EmptyStore(retention), requests);
             && ListsDevices(s.tables, listing)
             && var plan := PlanCampaign(s.tables, id, tenantID, name, firmwareID, productID, groupID, deviceID);
                plan.Planned? && TargetDevices(s, plan.campaign, listing).Some? && target in TargetDevices(s, plan.campaign, listing).value
    ensures var s := Run(EmptyStore(retention), requests);
            var plan := PlanCampaign(s.tables, id, tenantID, name, firmwareID, productID, groupID, deviceID);
            && target in s.tables.devices
            && (plan.campaign.tenantID != "" ==> s.tables.devices[target].tenantID == plan.campaign.tenantID)
            && (plan.artifact.productID != "" && ProductBound(s.tables, plan.campaign) ==>
                  s.tables.devices[target].productID == plan.artifact.productID)
  {
    ReachableScopes(retention, requests);
    TargetsAreSafe(Run(EmptyStore(retention), requests), id, tenantID, name, firmwareID, productID, groupID, deviceID, listing, target);
  }

  // ---------------------------------------------------------------- groups without a product

  /** A scoped store that holds the group and the artifact. */
  ghost predicate Holds(s: Snapshot, group: Group, artifact: Firmware) {
    && ScopeInv(s) && group.id in s.tables.groups && s.tables.groups[group.id] == group
    && artifact.id in s.tables.firmware && s.tables.firmware[artifact.id] == artifact
  }

  function GroupCampaign(group: Group, artifact: Firmware): Campaign {
    Campaign("ota", artifact.tenantID, artifact.id, artifact.productID, group.id, "", Pending, 0, 0, 0, 0)
  }

  /** Every member of the group has the artifact's product. */
  ghost predicate GroupSafe(s: Snapshot, group: Group, artifact: Firmware) {
    var targets := TargetDevices(s, GroupCampaign(group, artifact), []);
    targets.Some? && forall d :: d in targets.value ==> d in s.tables.devices && s.tables.devices[d].productID == artifact.productID
  }

  /** Another product than the artifact's. */
  function OtherProduct(artifact: Firmware): ID {
    artifact.productID + "+"
  }

  /** The artifact has no tenant, or the group's. */
  predicate TenantsMeet(group: Group, artifact: Firmware) {
    artifact.tenantID == "" || group.tenantID == artifact.tenantID
  }

  /** A store in which the group's one member is of another product than the artifact's. */
  function Mixed(group: Group, artifact: Firmware): Snapshot {
    var tenants := if group.tenantID == "" then map[] else map[group.tenantID := Tenant(group.tenantID, "t", "t")];
    var product := Model.Product.Product(artifact.productID, artifact.tenantID, "p", map[], {});
    var other := product.(id := OtherProduct(artifact), tenantID := group.tenantID);
    var device := Device("d", group.tenantID, other.id, "d", "", map[]);
    EmptyStore(0).(
      tables := EmptyStore(0).tables.(
        tenants := tenants, products := map[product.id := product, other.id := other], devices := map["d" := device],
        groups := map[group.id := group], firmware := map[artifact.id := artifact]),
      shadows := map["d" := Shadow("d", other.id, map[], map[], 1)],
      groupIDs := map["d" := [group.id]], deviceIDs := map[group.id := ["d"]])
  }

  lemma MixedTables(group: Group, artifact: Firmware)
    requires artifact.productID != "" && TenantsMeet(group, artifact) && group.productID == ""
    ensures TablesScoped(Mixed(group, artifact).tables)
  {
    var t := Mixed(group, artifact).tables;
    assert |OtherProduct(artifact)| > |artifact.productID|;
    assert forall k :: k in t.tenants ==> t.tenants[k].slug == "t";
    assert IsSlug("t");
  }

  lemma MixedHolds(group: Group, artifact: Firmware)
    requires artifact.productID != "" && TenantsMeet(group, artifact) && group.productID == ""
    ensures Holds(Mixed(group, artifact), group, artifact)
    ensures ResolveTargetProduct(Mixed(group, artifact).tables, artifact.tenantID, artifact, "", group.id, "").Product?
  {
    var s := Mixed(group, artifact);
    MixedTables(group, artifact);
    assert forall g, d :: Member(s.deviceIDs, g, d) ==> g == group.id && d == "d";
  }

  lemma MixedUnsafe(group: Group, artifact: Firmware)
    requires artifact.productID != "" && group.id != ""
    ensures !GroupSafe(Mixed(group, artifact), group, artifact)
  {
    var s := Mixed(group, artifact);
    assert |OtherProduct(artifact)| > |artifact.productID|;
    assert s.deviceIDs[group.id] == ["d"];
    assert Sort(["d"]) == ["d"];
    assert TargetDevices(s, GroupCampaign(group, artifact), []) == Some(["d"]);
    assert ["d"][0] in ["d"];
  }

  lemma BoundProduct(t: Tables, group: Group, artifact: Firmware)
    requires group.id in t.groups && t.groups[group.id] == group
    requires group.id != "" && artifact.productID != "" && group.productID != ""
    requires ResolveTargetProduct(t, artifact.tenantID, artifact, "", group.id, "").Product?
    ensures group.productID == artifact.productID
  {
  }

  lemma BoundSafe(s: Snapshot, group: Group, artifact: Firmware)
    requires Holds(s, group, artifact) && group.id != "" && artifact.productID != "" && group.productID != ""
    requires ResolveTargetProduct(s.tables, artifact.tenantID, artifact, "", group.id, "").Product?
    ensures GroupSafe(s, group, artifact)
  {
    BoundProduct(s.tables, group, artifact);
    var campaign := GroupCampaign(group, artifact);
    var targets := TargetDevices(s, campaign, []);
    assert targets.Some?;
    forall d | d in targets.value
      ensures d in s.tables.devices && s.tables.devices[d].productID == artifact.productID
    {
      GroupTarget(s, campaign, [], d);
    }
  }

  /** A campaign for a group addresses, in every scoped store that accepts it, only devices of the
      artifact's product exactly when the group is bound to a product, or is of a tenant that keeps
      any store from accepting it. */
  lemma GroupSafeIff(group: Group, artifact: Firmware)
    requires artifact.productID != "" && group.id != ""
    ensures (forall s :: Holds(s, group, artifact)
                         && ResolveTargetProduct(s.tables, artifact.tenantID, artifact, "", group.id, "").Product?
                         ==> GroupSafe(s, group, artifact))
       <==> group.productID != "" || !TenantsMeet(group, artifact)
  {
    if group.productID == "" && TenantsMeet(group, artifact) {
      MixedHolds(group, artifact);
      MixedUnsafe(group, artifact);
    } else {
      forall s | Holds(s, group, artifact) && ResolveTargetProduct(s.tables, artifact.tenantID, artifact, "", group.id, "").Product?
        ensures GroupSafe(s, group, artifact)
      {
        BoundSafe(s, group, artifact);
      }
    }
  }

  // ---------------------------------------------------------------- reached by requests

  predicate Word(s: string) {
    s != "" && Trimmed(IsSpace, s)
  }

  lemma WordStays(s: string)
    requires Word(s)
    ensures TrimSpace(s) == s
  {
    TrimIsTrimmed(IsSpace, s);
  }

  function AddProduct(s: Snapshot, id: ID): Snapshot {
    s.(tables := s.tables.(products := s.tables.products[id := Model.Product.Product(id, "", "n", map[], {})]))
  }

  lemma ProductStep(s: Snapshot, id: ID)
    requires id !in s.tables.products
    ensures Scoping.Step(s, CreateProduct(id, "", "n", true, map[], {})) == AddProduct(s, id)
  {
    WordStays("n");
    assert TrimSpace("") == "";
  }

  lemma GroupStep(s: Snapshot, id: ID)
    requires id !in s.tables.groups
    ensures var s' := Scoping.Step(s, CreateGroup(id, "", "n", ""));
            s' == s.(tables := s.tables.(groups := s.tables.groups[id := Group(id, "", "", "n")]))
  {
    WordStays("n");
    assert TrimSpace("") == "";
  }

  lemma DeviceStep(s: Snapshot, id: ID, p: ID)
    requires Word(p) && id !in s.tables.devices && p in s.tables.products && s.tables.products[p].tenantID == ""
    ensures var s' := Scoping.Step(s, CreateDevice(id, "", "", "n", p, map[]));
            s'.tables == s.tables.(devices := s.tables.devices[id := Device(id, "", p, "n", "", map[])]) && s'.deviceIDs == s.deviceIDs
  {
    WordStays("n");
    WordStays(p);
    assert TrimSpace("") == "";
  }

  lemma FirmwareStep(s: Snapshot, id: ID, p: ID)
    requires Word(p) && id !in s.tables.firmware && p in s.tables.products && s.tables.products[p].tenantID == ""
    ensures var s' := Scoping.Step(s, CreateFirmware(id, "", p, "n", "n", "n"));
            s'.tables == s.tables.(firmware := s.tables.firmware[id := Firmware(id, "", p, "n", "n", "n")]) && s'.deviceIDs == s.deviceIDs
  {
    WordStays("n");
    WordStays(p);
    assert TrimSpace("") == "";
  }

  lemma AssignStep(s: Snapshot, g: ID, d: ID)
    requires Word(g) && Word(d) && g in s.tables.groups && d in s.tables.devices
    requires s.tables.groups[g] == Group(g, "", "", "n") && s.tables.devices[d].id == d && Slice(s.deviceIDs, g) == []
    ensures var s' := Scoping.Step(s, AssignDevice(g, d)); s'.tables == s.tables && Slice(s'.deviceIDs, g) == [d]
  {
    WordStays(g);
    WordStays(d);
  }

  /** The requests after which the group g, without a product, holds the device d of product q,
      while the artifact f is for product p. */
  function MixingRequests(p: ID, q: ID, g: ID, d: ID, f: ID): seq<Request> {
    [CreateProduct(p, "", "n", true, map[], {}), CreateProduct(q, "", "n", true, map[], {}), CreateGroup(g, "", "n", ""),
     CreateDevice(d, "", "", "n", q, map[]), CreateFirmware(f, "", p, "n", "n", "n"), AssignDevice(g, d)]
  }

  lemma {:induction false} RunLast(s: Snapshot, requests: seq<Request>, r: Request)
    requires PossibleRun(s, requests) && !r.Background?
    ensures PossibleRun(s, requests + [r]) && Run(s, requests + [r]) == Scoping.Step(Run(s, requests), r)
    decreases requests
  {
    if requests == [] {
      assert [] + [r] == [r] && [r][1..] == [];
    } else {
      assert (requests + [r])[0] == requests[0] && (requests + [r])[1..] == requests[1..] + [r];
      RunLast(Scoping.Step(s, requests[0]), requests[1..], r);
    }
  }

  lemma MixedProducts(p: ID, q: ID)
    requires p != q
    ensures var rs := [CreateProduct(p, "", "n", true, map[], {})] + [CreateProduct(q, "", "n", true, map[], {})];
            PossibleRun(EmptyStore(0), rs) && Run(EmptyStore(0), rs) == AddProduct(AddProduct(EmptyStore(0), p), q)
  {
    var one := [CreateProduct(p, "", "n", true, map[], {})];
    assert [] + one == one;
    RunLast(EmptyStore(0), [], one[0]);
    ProductStep(EmptyStore(0), p);
    RunLast(EmptyStore(0), one, CreateProduct(q, "", "n", true, map[], {}));
    ProductStep(AddProduct(EmptyStore(0), p), q);
  }

  lemma MixedEntities(p: ID, q: ID, g: ID, d: ID, f: ID)
    requires Word(p) && Word(q) && Word(g) && Word(d) && Word(f) && p != q
    ensures var rs := MixingRequests(p, q, g, d, f)[..5];
            PossibleRun(EmptyStore(0), rs)
            && var s := Run(EmptyStore(0), rs);
               && g in s.tables.groups && s.tables.groups[g] == Group(g, "", "", "n")
               && d in s.tables.devices && s.tables.devices[d] == Device(d, "", q, "n", "", map[])
               && f in s.tables.firmware && s.tables.firmware[f] == Firmware(f, "", p, "n", "n", "n")
               && s.deviceIDs == map[]
  {
    var rs := MixingRequests(p, q, g, d, f);
    MixedProducts(p, q);
    assert rs[..2] == [rs[0]] + [rs[1]] && rs[..3] == rs[..2] + [rs[2]] && rs[..4] == rs[..3] + [rs[3]] && rs[..5] == rs[..4] + [rs[4]];
    var s2 := Run(EmptyStore(0), rs[..2]);
    RunLast(EmptyStore(0), rs[..2], rs[2]);
    GroupStep(s2, g);
    var s3 := Run(EmptyStore(0), rs[..3]);
    RunLast(EmptyStore(0), rs[..3], rs[3]);
    DeviceStep(s3, d, q);
    var s4 := Run(EmptyStore(0), rs[..4]);
    RunLast(EmptyStore(0), rs[..4], rs[4]);
    FirmwareStep(s4, f, p);
  }

  lemma GroupCampaignTargets(s: Snapshot, p: ID, g: ID, d: ID, f: ID)
    requires Word(p) && Word(g) && Word(f)
    requires g in s.tables.groups && s.tables.groups[g] == Group(g, "", "", "n")
    requires f in s.tables.firmware && s.tables.firmware[f] == Firmware(f, "", p, "n", "n", "n")
    requires Slice(s.deviceIDs, g) == [d]
    ensures var plan := PlanCampaign(s.tables, "ota", "", "n", f, "", g, "");
            plan.Planned? && plan.artifact.productID == p && TargetDevices(s, plan.campaign, []) == Some([d])
  {
    WordStays("n");
    WordStays(f);
    WordStays(g);
    assert TrimSpace("") == "";
    assert Sort([d]) == [d];
  }

  /** It happens in a run: after these requests an accepted campaign for the group addresses a
      device of another product than the artifact's. */
  lemma GroupMistargets(p: ID, q: ID, g: ID, d: ID, f: ID)
    requires Word(p) && Word(q) && Word(g) && Word(d) && Word(f) && p != q
    ensures PossibleRun(EmptyStore(0), MixingRequests(p, q, g, d, f))
    ensures var s := Run(EmptyStore(0), MixingRequests(p, q, g, d, f));
            var plan := PlanCampaign(s.tables, "ota", "", "n", f, "", g, "");
            && plan.Planned? && plan.artifact.productID == p
            && TargetDevices(s, plan.campaign, []) == Some([d])
            && d in s.tables.devices && s.tables.devices[d].productID == q
  {
    var rs := MixingRequests(p, q, g, d, f);
    MixedEntities(p, q, g, d, f);
    assert rs == rs[..5] + [rs[5]];
    RunLast(EmptyStore(0), rs[..5], rs[5]);
    var s5 := Run(EmptyStore(0), rs[..5]);
    AssignStep(s5, g, d);
    GroupCampaignTargets(Run(EmptyStore(0), rs), p, g, d, f);
  }
}
