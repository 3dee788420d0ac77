/** The MQTT broker's hook: authentication, sessions and access control
    (internal/mqtt/server.go). The broker calls it back for every client. */
module MqttHook {
  import opened Model
  import opened Text
  import opened Routing
  import Sessions

  datatype Binding = Binding(deviceID: ID, route: Route)

  /** The topic of a device's product profile, empty when the product is unset or unknown. */
  function ProfileTopic(topics: map<ID, string>, device: Device): string {
    var id := TrimSpace(device.productID);
    if device.productID != "" && id in topics then topics[id] else ""
  }

  /** The device a client claims to be: its user name, or else its client id. */
  function Claimed(clientID: string, username: string): ID {
    if TrimSpace(username) != "" then TrimSpace(username) else TrimSpace(clientID)
  }

  /** A client is accepted as a device exactly when it presents that device's token. */
  predicate Presents(devices: map<ID, Device>, clientID: string, username: string, password: string, device: Device) {
    && Claimed(clientID, username) != "" && TrimSpace(password) != ""
    && Claimed(clientID, username) in devices && devices[Claimed(clientID, username)] == device
    && device.token == TrimSpace(password)
  }

  class AuthHook {
    const service: Sessions.Service
    var bindings: map<string, Binding>

    constructor (service: Sessions.Service)
      ensures this.service == service && bindings == map[]
    {
      this.service := service;
      bindings := map[];
    }

    /** `topics` holds the topic of every product's access profile. */
    method OnConnectAuthenticate(devices: map<ID, Device>, topics: map<ID, string>, clientID: string, username: string, password: string)
      returns (accepted: bool)
      modifies this
      ensures accepted <==> exists device :: Presents(devices, clientID, username, password, device)
      ensures forall device :: Presents(devices, clientID, username, password, device) ==>
                bindings == old(bindings)[clientID := Binding(device.id, ResolveRouting(ProfileTopic(topics, device), device.id))]
      ensures !accepted ==> bindings == old(bindings)
    {
      var deviceID := TrimSpace(username);
      if deviceID == "" {
        deviceID := TrimSpace(clientID);
      }
      var token := TrimSpace(password);
      if deviceID == "" || token == "" {
        return false;
      }
      Trimmings(username, clientID, password);
      var known := Sessions.Authenticate(map d | d in devices :: devices[d].token, deviceID, token);
      if known.None? {
        return false;
      }
      var device := devices[known.value];
      assert Presents(devices, clientID, username, password, device);
      var topic := "";
      if device.productID != "" {
        var productID := TrimSpace(device.productID);
        if productID in topics {
          topic := topics[productID];
        }
      }
      bindings := bindings[clientID := Binding(device.id, ResolveRouting(topic, device.id))];
      return true;
    }

    method OnSessionEstablished(clientID: string)
      modifies service
      ensures if clientID in bindings
              then
                var (registry, job) := Sessions.Registered(old(service.states), bindings[clientID].deviceID, Sessions.Mqtt(clientID));
                service.states == registry && service.onlineDevices == Sessions.Counted(old(service.onlineDevices), job)
              else service.states == old(service.states) && service.onlineDevices == old(service.onlineDevices)
    {
      if clientID !in bindings {
        return;
      }
      service.RegisterSession(bindings[clientID].deviceID, Sessions.Mqtt(clientID));
    }

    /** The session registered under the client id goes, and so does the client's binding. */
    method OnDisconnect(clientID: string)
      modifies this, service
      ensures bindings == old(bindings) - {clientID}
      ensures if clientID in old(bindings)
              then
                var (registry, job) := Sessions.Unregistered(old(service.states), old(bindings)[clientID].deviceID, Sessions.Mqtt(clientID));
                service.states == registry && service.onlineDevices == Sessions.Counted(old(service.onlineDevices), job)
              else service.states == old(service.states) && service.onlineDevices == old(service.onlineDevices)
    {
      if clientID in bindings {
        service.UnregisterSession(bindings[clientID].deviceID, Sessions.Mqtt(clientID));
      }
      bindings := bindings - {clientID};
    }

    method OnACLCheck(clientID: string, topic: string, write: bool) returns (allowed: bool)
      ensures allowed <==> clientID in bindings && AclAllows(bindings[clientID].route, topic, write)
    {
      if clientID !in bindings {
        return false;
      }
      var route := bindings[clientID].route;
      if write {
        return topic == route.up || topic == route.ack;
      }
      allowed := TopicMatch(topic, route.down);
    }
  }

  lemma Trimmings(a: string, b: string, c: string)
    ensures TrimSpace(TrimSpace(a)) == TrimSpace(a) && TrimSpace(TrimSpace(b)) == TrimSpace(b) && TrimSpace(TrimSpace(c)) == TrimSpace(c)
  {
    TrimIsTrimmed(IsSpace, a);
    TrimIsTrimmed(IsSpace, b);
    TrimIsTrimmed(IsSpace, c);
    TrimIsTrimmed(IsSpace, TrimSpace(a));
    TrimIsTrimmed(IsSpace, TrimSpace(b));
    TrimIsTrimmed(IsSpace, TrimSpace(c));
  }
}
