/** The operator's requests as they run (internal/core/multitenant_ota.go,
    internal/core/service.go): methods over the in-memory store, each proved to do what
    `Scoping` specifies. */
module Provisioning {
  import opened Model
  import opened Text
  import opened Slug
  import opened Scoping
  import MemoryStore

  /** A request that was answered so has left the store like this. */
  predicate Answers(reply: Reply, before: Snapshot, after: Snapshot, failure: Option<Failure>) {
    match reply
    case Accepted(s) => after == s && failure == None
    case Rejected(f) => after == before && failure == Some(f)
  }

  function Refusal(error: Option<MemoryStore.Error>): Option<Failure> {
    match error
    case None => None
    case Some(e) => Some(StoreError(e))
  }

  lemma TrimTwice(s: string)
    ensures TrimSpace(TrimSpace(s)) == TrimSpace(s)
  {
    TrimIsTrimmed(IsSpace, s);
    TrimIsTrimmed(IsSpace, TrimSpace(s));
  }

  class Service {
    const store: MemoryStore.Store

    constructor (store: MemoryStore.Store)
      ensures this.store == store
    {
      this.store := store;
    }

    method AssertTenantExists(tenantID: ID) returns (failure: Option<Failure>)
      ensures failure == if TrimSpace(tenantID) != "" && TrimSpace(tenantID) !in store.tenants then Some(Scoping.Missing(MemoryStore.TenantKind)) else None
    {
      var id := TrimSpace(tenantID);
      if id == "" {
        return None;
      }
      if id !in store.tenants {
        return Some(Scoping.Missing(MemoryStore.TenantKind));
      }
      return None;
    }

    /** The checks that CreateGroup, CreateDevice, CreateConfigProfile and
        CreateFirmwareArtifact each repeat: the tenant, then the product's tenant. */
    method CheckScope(tenantID: ID, productID: ID) returns (scope: ID, failure: Option<Failure>)
      requires TrimSpace(tenantID) == tenantID
      ensures match Resolve(store.AllTables(), tenantID, productID)
              case Scope(t) => failure == None && scope == t
              case NoScope(f) => failure == Some(f)
    {
      scope := tenantID;
      failure := AssertTenantExists(tenantID);
      if failure.Some? {
        return;
      }
      if productID != "" {
        if productID !in store.products {
          return scope, Some(Scoping.Missing(MemoryStore.ProductKind));
        }
        var product := store.products[productID];
        if scope == "" {
          scope := product.tenantID;
        } else if product.tenantID != scope {
          return scope, Some(ScopeMismatch);
        }
      }
    }

    method Create(w: MemoryStore.Write) returns (failure: Option<Failure>)
      requires MemoryStore.IsCreate(w)
      modifies store
      ensures Answers(Written(old(store.Contents()), w), old(store.Contents()), store.Contents(), failure)
    {
      var error := store.PerformCreate(w);
      return Refusal(error);
    }

    method Save(w: MemoryStore.Write) returns (failure: Option<Failure>)
      requires MemoryStore.IsSave(w)
      modifies store
      ensures Answers(Written(old(store.Contents()), w), old(store.Contents()), store.Contents(), failure)
    {
      var error := store.PerformSave(w);
      return Refusal(error);
    }

    method CreateTenant(id: ID, name: string, slug: string) returns (failure: Option<Failure>)
      modifies store
      ensures Answers(ServeTenant(old(store.Contents()), id, name, slug), old(store.Contents()), store.Contents(), failure)
    {
      var name' := TrimSpace(name);
      if name' == "" {
        return Some(Required);
      }
      var slug' := NormalizeTenantSlug(slug, name');
      var todo := store.tenants.Keys;
      while todo != {}
        invariant todo <= store.tenants.Keys
        invariant forall k :: k in store.tenants && k !in todo ==> store.tenants[k].slug != slug'
        decreases todo
      {
        var k :| k in todo;
        if store.tenants[k].slug == slug' {
          return Some(StoreError(MemoryStore.Exists(MemoryStore.TenantKind)));
        }
        todo := todo - {k};
      }
      failure := Create(MemoryStore.CreateTenant(Tenant(id, slug', name')));
    }

    method CreateProduct(r: Request) returns (failure: Option<Failure>)
      requires r.CreateProduct?
      modifies store
      ensures Answers(ServeProduct(old(store.Contents()), r), old(store.Contents()), store.Contents(), failure)
    {
      var tenantID := TrimSpace(r.tenantID);
      TrimTwice(r.tenantID);
      failure := AssertTenantExists(tenantID);
      if failure.Some? {
        return;
      }
      var name := TrimSpace(r.name);
      if name == "" {
        return Some(Required);
      }
      if !r.modelFits {
        return Some(InvalidModel);
      }
      failure := Create(MemoryStore.CreateProduct(Product(r.id, tenantID, name, r.properties, r.services)));
    }

    method CreateGroup(r: Request) returns (failure: Option<Failure>)
      requires r.CreateGroup?
      modifies store
      ensures Answers(ServeGroup(old(store.Contents()), r), old(store.Contents()), store.Contents(), failure)
    {
      var name := TrimSpace(r.name);
      if name == "" {
        return Some(Required);
      }
      var tenantID, productID := TrimSpace(r.tenantID), TrimSpace(r.productID);
      TrimTwice(r.tenantID);
      var scope: ID;
      scope, failure := CheckScope(tenantID, productID);
      if failure.Some? {
        return;
      }
      failure := Create(MemoryStore.CreateGroup(Group(r.id, scope, productID, name)));
    }

    method CreateDevice(r: Request) returns (failure: Option<Failure>)
      requires r.CreateDevice?
      modifies store
      ensures Answers(ServeDevice(old(store.Contents()), r), old(store.Contents()), store.Contents(), failure)
    {
      var name := TrimSpace(r.name);
      if name == "" {
        name := "device";
      }
      var tenantID, productID := TrimSpace(r.tenantID), TrimSpace(r.productID);
      TrimTwice(r.tenantID);
      var scope: ID;
      scope, failure := CheckScope(tenantID, productID);
      if failure.Some? {
        return;
      }
      failure := Create(MemoryStore.CreateDevice(Device(r.id, scope, productID, name, r.token, r.tags)));
      if failure.Some? {
        return;
      }
      store.PutShadow(Shadow(r.id, productID, map[], map[], 1));
    }

    method CreateConfigProfile(r: Request) returns (failure: Option<Failure>)
      requires r.CreateConfig?
      modifies store
      ensures Answers(ServeConfig(old(store.Contents()), r), old(store.Contents()), store.Contents(), failure)
    {
      var name := TrimSpace(r.name);
      if name == "" {
        return Some(Required);
      }
      var tenantID, productID := TrimSpace(r.tenantID), TrimSpace(r.productID);
      TrimTwice(r.tenantID);
      var scope: ID;
      scope, failure := CheckScope(tenantID, productID);
      if failure.Some? {
        return;
      }
      if productID != "" {
        if !ValuesFit(store.products[productID], r.values) {
          return Some(InvalidValues);
        }
      }
      failure := Create(MemoryStore.CreateConfig(ConfigProfile(r.id, scope, productID, name, r.values, 0)));
    }

    method CreateFirmwareArtifact(r: Request) returns (failure: Option<Failure>)
      requires r.CreateFirmware?
      modifies store
      ensures Answers(ServeFirmware(old(store.Contents()), r), old(store.Contents()), store.Contents(), failure)
    {
      var tenantID, productID := TrimSpace(r.tenantID), TrimSpace(r.productID);
      var name, version, url := TrimSpace(r.name), TrimSpace(r.version), TrimSpace(r.url);
      if name == "" || version == "" || url == "" {
        return Some(Required);
      }
      TrimTwice(r.tenantID);
      var scope: ID;
      scope, failure := CheckScope(tenantID, productID);
      if failure.Some? {
        return;
      }
      failure := Create(MemoryStore.CreateFirmware(Firmware(r.id, scope, productID, name, version, url)));
    }

    method UpdateProductThingModel(r: Request) returns (failure: Option<Failure>)
      requires r.UpdateThingModel?
      modifies store
      ensures Answers(ServeThingModel(old(store.Contents()), r), old(store.Contents()), store.Contents(), failure)
    {
      var id := TrimSpace(r.productID);
      if id !in store.products {
        return Some(Scoping.Missing(MemoryStore.ProductKind));
      }
      var product := store.products[id];
      if !r.modelFits {
        return Some(InvalidModel);
      }
      product := product.(properties := r.properties, services := r.services);
      failure := Save(MemoryStore.SaveProduct(product));
    }

    method UpdateProductAccessProfile(productID: ID, profileFits: bool) returns (failure: Option<Failure>)
      modifies store
      ensures Answers(ServeAccessProfile(old(store.Contents()), productID, profileFits), old(store.Contents()), store.Contents(), failure)
    {
      var id := TrimSpace(productID);
      if id !in store.products {
        return Some(Scoping.Missing(MemoryStore.ProductKind));
      }
      if !profileFits {
        return Some(InvalidModel);
      }
      failure := Save(MemoryStore.SaveProduct(store.products[id]));
    }

    method UpdateDeviceTags(deviceID: ID, tags: map<string, string>) returns (failure: Option<Failure>)
      modifies store
      ensures Answers(ServeTags(old(store.Contents()), deviceID, tags), old(store.Contents()), store.Contents(), failure)
    {
      var id := TrimSpace(deviceID);
      if id !in store.devices {
        return Some(Scoping.Missing(MemoryStore.DeviceKind));
      }
      var device := store.devices[id];
      device := device.(tags := tags);
      failure := Save(MemoryStore.SaveDevice(device));
    }

    method AssignDeviceToGroup(groupID: ID, deviceID: ID) returns (failure: Option<Failure>)
      modifies store
      ensures Answers(ServeAssign(old(store.Contents()), groupID, deviceID), old(store.Contents()), store.Contents(), failure)
    {
      var g := TrimSpace(groupID);
      if g !in store.groups {
        return Some(Scoping.Missing(MemoryStore.GroupKind));
      }
      var group := store.groups[g];
      var d := TrimSpace(deviceID);
      if d !in store.devices {
        return Some(Scoping.Missing(MemoryStore.DeviceKind));
      }
      var device := store.devices[d];
      if group.tenantID != "" && device.tenantID != group.tenantID {
        return Some(ScopeMismatch);
      }
      if group.productID != "" && device.productID != group.productID {
        return Some(ScopeMismatch);
      }
      var error := store.AddDeviceToGroup(group.id, device.id);
      return Refusal(error);
    }

    method RemoveDeviceFromGroup(groupID: ID, deviceID: ID) returns (failure: Option<Failure>)
      modifies store
      ensures Answers(ServeRemove(old(store.Contents()), groupID, deviceID), old(store.Contents()), store.Contents(), failure)
    {
      var g := TrimSpace(groupID);
      if g !in store.groups {
        return Some(Scoping.Missing(MemoryStore.GroupKind));
      }
      var d := TrimSpace(deviceID);
      if d !in store.devices {
        return Some(Scoping.Missing(MemoryStore.DeviceKind));
      }
      var error := store.RemoveDeviceFromGroup(store.groups[g].id, d);
      return Refusal(error);
    }
  }
}
