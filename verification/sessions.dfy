/** Device sessions: RegisterSession, UnregisterSession and Stats of the service
    (internal/core/service.go), the TCP connection handler and its bounded session queue
    (internal/gateway/server.go), and every interleaving of their steps. */
module Sessions {
  import opened Model
  import opened Text

  /** A session id. TCP ids are generated per connection; MQTT uses the client's own id. */
  datatype SessionID = Tcp(conn: nat) | Mqtt(client: string)

  /** The registered sessions, per device; a device without an entry has none. */
  type Registry = map<ID, SessionID>

  // ---------------------------------------------------------------- critical sections

  /** What is left to do after a critical section, outside the lock. */
  datatype Job = Idle | CountUp | CountDown | Evict(previous: SessionID)

  /** The critical section of RegisterSession. */
  function Registered(registry: Registry, device: ID, session: SessionID): (Registry, Job) {
    (registry[device := session],
     if device !in registry then CountUp
     else if registry[device] != session then Evict(registry[device])
     else Idle)
  }

  /** The critical section of UnregisterSession: only the session's own registration goes. */
  function Unregistered(registry: Registry, device: ID, session: SessionID): (Registry, Job) {
    if device in registry && registry[device] == session then (registry - {device}, CountDown)
    else (registry, Idle)
  }

  function Counted(online: int, job: Job): int {
    match job
    case CountUp => online + 1
    case CountDown => online - 1
    case _ => online
  }

  // ---------------------------------------------------------------- the service, one call at a time

  class Service {
    var states: Registry
    var onlineDevices: int
    /** Connections whose session was told to close. */
    var closed: set<nat>

    constructor ()
      ensures states == map[] && onlineDevices == 0 && closed == {}
    {
      states := map[];
      onlineDevices := 0;
      closed := {};
    }

    method RegisterSession(device: ID, session: SessionID)
      modifies this
      ensures var (registry, job) := Registered(old(states), device, session);
              states == registry && onlineDevices == Counted(old(onlineDevices), job)
              && closed == (if job.Evict? && job.previous.Tcp? then old(closed) + {job.previous.conn} else old(closed))
    {
      var previous: Option<SessionID> := None;
      var shouldIncrement := false;
      if device !in states {
        shouldIncrement := true;
      } else if states[device] != session {
        previous := Some(states[device]);
      }
      states := states[device := session];

      if shouldIncrement {
        onlineDevices := onlineDevices + 1;
      }
      if previous.Some? && previous.value.Tcp? {
        closed := closed + {previous.value.conn};
      }
    }

    method UnregisterSession(device: ID, session: SessionID)
      modifies this
      ensures var (registry, job) := Unregistered(old(states), device, session);
              states == registry && onlineDevices == Counted(old(onlineDevices), job)
      ensures closed == old(closed)
    {
      var shouldDecrement := false;
      if device in states && states[device] == session {
        states := states - {device};
        shouldDecrement := true;
      }
      if shouldDecrement {
        onlineDevices := onlineDevices - 1;
      }
    }

    /** The online figures of Stats, counted device by device. */
    method OnlineByTransport() returns (tcp: int, mqtt: int)
      ensures tcp == |TcpDevices(states)| && mqtt == |MqttDevices(states)|
    {
      tcp, mqtt := 0, 0;
      var todo := states.Keys;
      ghost var overTcp, overMqtt := TcpDevices(states), MqttDevices(states);
      assert overTcp - todo == {} && overMqtt - todo == {};
      while todo != {}
        invariant todo <= states.Keys
        invariant tcp == |overTcp - todo| && mqtt == |overMqtt - todo|
        decreases todo
      {
        var d :| d in todo;
        SplitOff(overTcp, todo, d);
        SplitOff(overMqtt, todo, d);
        if states[d].Mqtt? {
          mqtt := mqtt + 1;
        } else {
          tcp := tcp + 1;
        }
        todo := todo - {d};
      }
      assert overTcp - {} == overTcp && overMqtt - {} == overMqtt;
    }
  }

  lemma SplitOff(all: set<ID>, todo: set<ID>, d: ID)
    requires d in todo
    ensures |all - (todo - {d})| == |all - todo| + (if d in all then 1 else 0)
  {
    assert all - (todo - {d}) == (all - todo) + (if d in all then {d} else {});
  }

  function TcpDevices(registry: Registry): set<ID> {
    set d | d in registry && registry[d].Tcp?
  }

  function MqttDevices(registry: Registry): set<ID> {
    set d | d in registry && registry[d].Mqtt?
  }

  lemma DevicesByTransport(registry: Registry)
    ensures |TcpDevices(registry)| + |MqttDevices(registry)| == |registry|
  {
    assert TcpDevices(registry) + MqttDevices(registry) == registry.Keys;
    assert TcpDevices(registry) !! MqttDevices(registry);
  }

  // ---------------------------------------------------------------- the connection handler alone

  datatype Message =
    | Garbage
    | Auth(deviceID: string, token: string)
    | Other

  function Authenticate(tokens: map<ID, string>, deviceID: string, token: string): Option<ID> {
    var d := TrimSpace(deviceID);
    if d in tokens && tokens[d] == TrimSpace(token) then Some(d) else None
  }

  datatype Ending = NeverBound | Released(device: ID) | Leaked(device: ID)

  /** How a handler that is fed these messages, and then the end of the stream, ends. */
  function EndingOf(tokens: map<ID, string>, inbox: seq<Message>, bound: Option<ID>): Ending
    decreases |inbox|
  {
    if inbox == [] then (if bound.Some? then Released(bound.value) else NeverBound)
    else
      match inbox[0]
      case Garbage => EndingOf(tokens, inbox[1..], bound)
      case Auth(d, t) =>
        if bound.Some? then Leaked(bound.value)
        else
          (match Authenticate(tokens, d, t)
           case None => NeverBound
           case Some(device) => EndingOf(tokens, inbox[1..], Some(device)))
      case Other => if bound.None? then NeverBound else EndingOf(tokens, inbox[1..], bound)
  }

  /** handleConnection, run without other connections: the message loop, then the unregister
      that the repeated-auth and rejection returns skip. */
  method HandleConnection(service: Service, tokens: map<ID, string>, conn: nat, inbox: seq<Message>) returns (rejected: bool)
    modifies service
    ensures match EndingOf(tokens, inbox, None)
            case NeverBound => rejected && service.states == old(service.states) && service.onlineDevices == old(service.onlineDevices)
            case Released(d) =>
              var (r1, j1) := Registered(old(service.states), d, Tcp(conn));
              var (r2, j2) := Unregistered(r1, d, Tcp(conn));
              !rejected && service.states == r2 && service.onlineDevices == Counted(Counted(old(service.onlineDevices), j1), j2)
            case Leaked(d) =>
              var (r1, j1) := Registered(old(service.states), d, Tcp(conn));
              !rejected && service.states == r1 && service.onlineDevices == Counted(old(service.onlineDevices), j1)
  {
    var authenticated := false;
    var deviceID: ID := "";
    rejected := false;
    ghost var start, online := service.states, service.onlineDevices;
    assert inbox[0..] == inbox;
    for i := 0 to |inbox|
      invariant !rejected
      invariant EndingOf(tokens, inbox, None) == EndingOf(tokens, inbox[i..], if authenticated then Some(deviceID) else None)
      invariant !authenticated ==> service.states == start && service.onlineDevices == online
      invariant authenticated ==>
                  var (r, j) := Registered(start, deviceID, Tcp(conn));
                  service.states == r && service.onlineDevices == Counted(online, j)
    {
      assert inbox[i..][1..] == inbox[i + 1..];
      match inbox[i]
      case Garbage =>
      case Other =>
        if !authenticated {
          return true;
        }
      case Auth(d, t) =>
        if authenticated {
          return false;
        }
        var device := Authenticate(tokens, d, t);
        if device.None? {
          return true;
        }
        authenticated := true;
        deviceID := device.value;
        service.RegisterSession(deviceID, Tcp(conn));
    }
    assert inbox[|inbox|..] == [];
    if !authenticated {
      return true;
    }
    service.UnregisterSession(deviceID, Tcp(conn));
  }

  /** A handler that runs alone leaves its device online exactly when the client authenticated
      successfully and then sent a second auth message. */
  lemma AloneLeavesOnlineIff(tokens: map<ID, string>, inbox: seq<Message>)
    ensures EndingOf(tokens, inbox, None).Leaked? <==>
              exists i, j :: 0 <= i < j < |inbox| && BindsAt(tokens, inbox, i) && inbox[j].Auth?
  {
    LeakScan(tokens, inbox, 0);
  }

  /** Message i is the successful auth, with nothing but undecodable lines before it. */
  predicate BindsAt(tokens: map<ID, string>, inbox: seq<Message>, i: nat)
    requires i < |inbox|
  {
    && inbox[i].Auth? && Authenticate(tokens, inbox[i].deviceID, inbox[i].token).Some?
    && forall k :: 0 <= k < i ==> inbox[k].Garbage?
  }

  lemma {:induction false} BoundLeaksIff(tokens: map<ID, string>, inbox: seq<Message>, i: nat, device: ID)
    requires i <= |inbox|
    ensures EndingOf(tokens, inbox[i..], Some(device)).Leaked? <==> exists j :: i <= j < |inbox| && inbox[j].Auth?
    decreases |inbox| - i
  {
    if i < |inbox| {
      assert inbox[i..][1..] == inbox[i + 1..];
      BoundLeaksIff(tokens, inbox, i + 1, device);
    }
  }

  lemma {:induction false} LeakScan(tokens: map<ID, string>, inbox: seq<Message>, at: nat)
    requires at <= |inbox| && forall k :: 0 <= k < at ==> inbox[k].Garbage?
    ensures EndingOf(tokens, inbox[at..], None).Leaked? <==>
              exists i, j :: at <= i < j < |inbox| && BindsAt(tokens, inbox, i) && inbox[j].Auth?
    ensures EndingOf(tokens, inbox[at..], None).Leaked? <==>
              exists i, j :: 0 <= i < j < |inbox| && BindsAt(tokens, inbox, i) && inbox[j].Auth?
    decreases |inbox| - at
  {
    if at < |inbox| {
      assert inbox[at..][1..] == inbox[at + 1..];
      match inbox[at]
      case Garbage => LeakScan(tokens, inbox, at + 1);
      case Other =>
      case Auth(d, t) =>
        var device := Authenticate(tokens, d, t);
        if device.Some? {
          BoundLeaksIff(tokens, inbox, at + 1, device.value);
          assert BindsAt(tokens, inbox, at);
        }
    }
  }
}
