/** Every interleaving of TCP connection handlers and MQTT broker callbacks over the session
    registry (internal/gateway/server.go, internal/mqtt/server.go, internal/core/service.go).
    The counter update and the closing of a replaced session happen after the lock is
    released, so they are steps of their own. */
module Gateway {
  import opened Model
  import opened Sessions

  /** Where a connection's handler is: reading before or after authentication, or returned. A
      handler that returned on a repeated auth never unregistered. */
  datatype Phase = Reading | Bound(device: ID) | Returned | ReturnedOnRepeat(device: ID)

  /** Who has work pending outside the lock: a connection's handler or a broker callback. */
  datatype Owner = Handler(conn: nat) | Callback(id: nat)

  /** A broker connection: the client id it presented, and whether it was accepted, then
      established, then disconnected. */
  datatype Link = Link(client: string, stage: Stage)

  datatype Stage = Opening | Established | Gone

  /** `closed` are the TCP connections whose session the service closed, `broken` those whose own
      writer, or the server's shutdown, closed it; `links` are the broker's connections, and
      `bindings` its hook's table of the device each client id was accepted as. */
  datatype State = State(
    conns: map<nat, Phase>,
    registry: Registry,
    jobs: map<Owner, Job>,
    closed: set<nat>,
    broken: set<nat>,
    links: map<nat, Link>,
    bindings: map<string, ID>,
    online: int)

  const INITIAL := State(map[], map[], map[], {}, {}, map[], map[], 0)

  datatype Step =
    | Accept(conn: nat)
    | Reject(conn: nat)                      // failed or missing authentication, or end of stream before it
    | Authenticated(conn: nat, device: ID)   // critical section of RegisterSession
    | Finish(owner: Owner)                   // the pending counter update or close
    | RepeatAuth(conn: nat)                  // a second auth message: the handler just returns
    | Hangup(conn: nat)                      // end of stream: critical section of UnregisterSession
    | Break(conn: nat)                       // the writer fails, or the server shuts down
    | MqttConnect(id: nat, client: string, device: ID)  // the client is accepted as the device
    | MqttUp(id: nat, device: ID, client: string)       // established, the client bound to the device
    | MqttUpUnbound(id: nat)
    | MqttDown(id: nat, device: ID, client: string)     // disconnected, the client bound to the device
    | MqttDownUnbound(id: nat)

  /** The broker has the connection, of this client id, at this stage. */
  predicate Linked(s: State, id: nat, client: string, stage: Stage) {
    id in s.links && s.links[id] == Link(client, stage)
  }

  function Staged(links: map<nat, Link>, id: nat, stage: Stage): map<nat, Link>
    requires id in links
  {
    links[id := links[id].(stage := stage)]
  }

  /** The hook's table binds the client id to the device. */
  predicate BoundTo(s: State, client: string, device: ID) {
    client in s.bindings && s.bindings[client] == device
  }

  predicate Free(s: State, owner: Owner) {
    owner !in s.jobs
  }

  predicate Enabled(s: State, step: Step) {
    match step
    case Accept(c) => c !in s.conns
    case Reject(c) => c in s.conns && s.conns[c].Reading?
    case Authenticated(c, _) => c in s.conns && s.conns[c].Reading? && Free(s, Handler(c))
    case Finish(owner) => owner in s.jobs
    case RepeatAuth(c) => c in s.conns && s.conns[c].Bound? && Free(s, Handler(c))
    case Hangup(c) => c in s.conns && s.conns[c].Bound? && Free(s, Handler(c))
    case Break(c) => c in s.conns
    case MqttConnect(id, _, _) => id !in s.links
    case MqttUp(id, d, client) => Free(s, Callback(id)) && Linked(s, id, client, Opening) && BoundTo(s, client, d)
    case MqttUpUnbound(id) => id in s.links && s.links[id].stage.Opening? && s.links[id].client !in s.bindings
    case MqttDown(id, d, client) => Free(s, Callback(id)) && Linked(s, id, client, Established) && BoundTo(s, client, d)
    case MqttDownUnbound(id) => id in s.links && s.links[id].stage.Established? && s.links[id].client !in s.bindings
  }

  function WithJob(jobs: map<Owner, Job>, owner: Owner, job: Job): map<Owner, Job> {
    if job.Idle? then jobs else jobs[owner := job]
  }

  function Register(s: State, owner: Owner, device: ID, session: SessionID): State {
    var (registry, job) := Registered(s.registry, device, session);
    s.(registry := registry, jobs := WithJob(s.jobs, owner, job))
  }

  function Unregister(s: State, owner: Owner, device: ID, session: SessionID): State {
    var (registry, job) := Unregistered(s.registry, device, session);
    s.(registry := registry, jobs := WithJob(s.jobs, owner, job))
  }

  function Next(s: State, step: Step): State
    requires Enabled(s, step)
  {
    match step
    case Accept(c) => s.(conns := s.conns[c := Reading])
    case Reject(c) => s.(conns := s.conns[c := Returned])
    case Authenticated(c, d) => Register(s, Handler(c), d, Tcp(c)).(conns := s.conns[c := Bound(d)])
    case Finish(owner) =>
      var job := s.jobs[owner];
      s.(jobs := s.jobs - {owner},
         online := Counted(s.online, job),
         closed := if job.Evict? && job.previous.Tcp? then s.closed + {job.previous.conn} else s.closed)
    case RepeatAuth(c) => s.(conns := s.conns[c := ReturnedOnRepeat(s.conns[c].device)])
    case Hangup(c) => Unregister(s, Handler(c), s.conns[c].device, Tcp(c)).(conns := s.conns[c := Returned])
    case Break(c) => s.(broken := s.broken + {c})
    case MqttConnect(id, client, d) => s.(links := s.links[id := Link(client, Opening)], bindings := s.bindings[client := d])
    case MqttUp(id, d, client) => Register(s, Callback(id), d, Mqtt(client)).(links := Staged(s.links, id, Established))
    case MqttUpUnbound(id) => s.(links := Staged(s.links, id, Established))
    case MqttDown(id, d, client) =>
      Unregister(s, Callback(id), d, Mqtt(client)).(links := Staged(s.links, id, Gone), bindings := s.bindings - {client})
    case MqttDownUnbound(id) => s.(links := Staged(s.links, id, Gone))
  }

  ghost predicate Run(s: State, steps: seq<Step>, s': State)
    decreases steps
  {
    if steps == [] then s' == s else Enabled(s, steps[0]) && Run(Next(s, steps[0]), steps[1..], s')
  }

  // ---------------------------------------------------------------- invariant

  /** A registered TCP session belongs to a connection bound to that device whose handler is
      still running, or returned on a repeated auth. */
  ghost predicate Owned(s: State) {
    forall d :: d in s.registry && s.registry[d].Tcp? ==>
      var c := s.registry[d].conn;
      c in s.conns && (s.conns[c] == Bound(d) || s.conns[c] == ReturnedOnRepeat(d))
  }

  /** Someone is about to close connection c. */
  ghost predicate EvictionPending(s: State, c: nat) {
    exists o :: o in s.jobs && s.jobs[o] == Evict(Tcp(c))
  }

  /** A handler still serving a device it no longer holds was, or is about to be, told to close. */
  ghost predicate DisplacedAreClosed(s: State) {
    forall c :: c in s.conns && s.conns[c].Bound? ==> Served(s, c, s.conns[c].device)
  }

  /** Connection c still holds the device, or was, or is about to be, told to close. */
  ghost predicate Served(s: State, c: nat, d: ID) {
    (d in s.registry && s.registry[d] == Tcp(c)) || c in s.closed || EvictionPending(s, c)
  }

  /** A handler that has not authenticated has nothing pending. */
  ghost predicate ReadersIdle(s: State) {
    forall c :: Handler(c) in s.jobs ==> c in s.conns && !s.conns[c].Reading?
  }

  ghost function Ups(jobs: map<Owner, Job>): set<Owner> {
    set o | o in jobs && jobs[o].CountUp?
  }

  ghost function Downs(jobs: map<Owner, Job>): set<Owner> {
    set o | o in jobs && jobs[o].CountDown?
  }

  /** The counter, corrected by the updates still pending, is the number of devices with a session. */
  ghost predicate CounterAgrees(s: State) {
    s.online + |Ups(s.jobs)| - |Downs(s.jobs)| == |s.registry|
  }

  /** Connection c was told to close, or is about to be. */
  ghost predicate Told(s: State, c: nat) {
    c in s.closed || EvictionPending(s, c)
  }

  /** No connection that was told to close holds a registration. */
  ghost predicate HoldersAreOpen(s: State) {
    forall d :: d in s.registry && s.registry[d].Tcp? ==> !Told(s, s.registry[d].conn)
  }

  /** Only a connection that has authenticated is ever told to close. */
  ghost predicate ToldHaveBound(s: State) {
    forall c :: Told(s, c) ==> c in s.conns && !s.conns[c].Reading?
  }

  ghost predicate Inv(s: State) {
    Owned(s) && DisplacedAreClosed(s) && HoldersAreOpen(s) && ToldHaveBound(s) && ReadersIdle(s) && CounterAgrees(s)
  }

  // ---------------------------------------------------------------- the counter

  lemma JobAdded(jobs: map<Owner, Job>, owner: Owner, job: Job)
    requires owner !in jobs
    ensures var jobs' := WithJob(jobs, owner, job);
            && |Ups(jobs')| == |Ups(jobs)| + (if job.CountUp? then 1 else 0)
            && |Downs(jobs')| == |Downs(jobs)| + (if job.CountDown? then 1 else 0)
  {
    if job != Idle {
      var jobs' := jobs[owner := job];
      assert jobs' - {owner} == jobs;
      JobRemoved(jobs', owner);
    }
  }

  lemma JobRemoved(jobs: map<Owner, Job>, owner: Owner)
    requires owner in jobs
    ensures var jobs' := jobs - {owner};
            && |Ups(jobs)| == |Ups(jobs')| + (if jobs[owner].CountUp? then 1 else 0)
            && |Downs(jobs)| == |Downs(jobs')| + (if jobs[owner].CountDown? then 1 else 0)
  {
    var jobs' := jobs - {owner};
    assert Ups(jobs) == Ups(jobs') + (if jobs[owner].CountUp? then {owner} else {});
    assert Downs(jobs) == Downs(jobs') + (if jobs[owner].CountDown? then {owner} else {});
  }

  lemma RegisterCounts(s: State, owner: Owner, device: ID, session: SessionID)
    requires CounterAgrees(s) && Free(s, owner)
    ensures CounterAgrees(Register(s, owner, device, session))
  {
    var (registry, job) := Registered(s.registry, device, session);
    JobAdded(s.jobs, owner, job);
    assert registry.Keys == s.registry.Keys + {device};
    assert |registry| == |registry.Keys| && |s.registry| == |s.registry.Keys|;
  }

  lemma UnregisterCounts(s: State, owner: Owner, device: ID, session: SessionID)
    requires CounterAgrees(s) && Free(s, owner)
    ensures CounterAgrees(Unregister(s, owner, device, session))
  {
    var (registry, job) := Unregistered(s.registry, device, session);
    JobAdded(s.jobs, owner, job);
    if job.CountDown? {
      assert s.registry.Keys == registry.Keys + {device};
    }
    assert |registry| == |registry.Keys| && |s.registry| == |s.registry.Keys|;
  }

  lemma StepCounts(s: State, step: Step)
    requires Inv(s) && Enabled(s, step)
    ensures CounterAgrees(Next(s, step))
  {
    match step
    case Authenticated(c, d) => RegisterCounts(s, Handler(c), d, Tcp(c));
    case Hangup(c) => UnregisterCounts(s, Handler(c), s.conns[c].device, Tcp(c));
    case MqttUp(id, d, client) => RegisterCounts(s, Callback(id), d, Mqtt(client));
    case MqttDown(id, d, client) => UnregisterCounts(s, Callback(id), d, Mqtt(client));
    case Finish(owner) => JobRemoved(s.jobs, owner);
    case _ =>
  }

  // ---------------------------------------------------------------- ownership

  /** A step that registers a session for the device. */
  predicate Registers(step: Step, d: ID) {
    (step.Authenticated? || step.MqttUp?) && step.device == d
  }

  /** The connection's session is the one registered for the device. */
  predicate HeldByConn(s: State, d: ID, c: nat) {
    d in s.registry && s.registry[d] == Tcp(c)
  }

  /** A TCP registration after a step: the step's own, or the one before, unless another session
      registered or its own connection hung up. */
  lemma HeldByConnIff(s: State, step: Step, d: ID, c: nat)
    requires Enabled(s, step)
    ensures HeldByConn(Next(s, step), d, c)
            <==> step == Authenticated(c, d)
                 || (HeldByConn(s, d, c) && !Registers(step, d) && !(step == Hangup(c) && s.conns[c].device == d))
  {
  }

  lemma PhaseAfter(s: State, step: Step, c: nat)
    requires Enabled(s, step) && c in s.conns
    ensures c in Next(s, step).conns
    ensures Next(s, step).conns[c] == s.conns[c]
            || step == Reject(c) || step == Hangup(c) || (step.Authenticated? && step.conn == c)
            || (step == RepeatAuth(c) && Next(s, step).conns[c] == ReturnedOnRepeat(s.conns[c].device))
  {
  }

  lemma StepOwned(s: State, step: Step)
    requires Inv(s) && Enabled(s, step)
    ensures Owned(Next(s, step))
  {
    var s' := Next(s, step);
    forall d | d in s'.registry && s'.registry[d].Tcp?
      ensures var c := s'.registry[d].conn; c in s'.conns && (s'.conns[c] == Bound(d) || s'.conns[c] == ReturnedOnRepeat(d))
    {
      var c := s'.registry[d].conn;
      HeldByConnIff(s, step, d, c);
      if step != Authenticated(c, d) {
        assert HeldByConn(s, d, c);
        PhaseAfter(s, step, c);
      }
    }
  }

  lemma JobsAfter(s: State, step: Step, c: nat)
    requires Enabled(s, step) && Handler(c) in Next(s, step).jobs
    ensures Handler(c) in s.jobs || step == Hangup(c) || (step.Authenticated? && step.conn == c)
  {
  }

  lemma StepReaders(s: State, step: Step)
    requires Inv(s) && Enabled(s, step)
    ensures ReadersIdle(Next(s, step))
  {
    var s' := Next(s, step);
    forall c | Handler(c) in s'.jobs ensures c in s'.conns && !s'.conns[c].Reading? {
      JobsAfter(s, step, c);
      PhaseAfter(s, step, c);
    }
  }

  /** A pending eviction survives every step but the one that carries it out. */
  lemma EvictionSurvives(s: State, step: Step, c: nat)
    requires Enabled(s, step) && EvictionPending(s, c)
    ensures EvictionPending(Next(s, step), c) || c in Next(s, step).closed
  {
    var o :| o in s.jobs && s.jobs[o] == Evict(Tcp(c));
    var s' := Next(s, step);
    if step != Finish(o) {
      assert o in s'.jobs && s'.jobs[o] == Evict(Tcp(c));
    }
  }

  /** Registering over connection c's session leaves its eviction pending. */
  lemma ReplacedIsEvicted(s: State, owner: Owner, device: ID, session: SessionID, c: nat)
    requires Free(s, owner) && device in s.registry && s.registry[device] == Tcp(c) && session != Tcp(c)
    ensures EvictionPending(Register(s, owner, device, session), c)
  {
    var s' := Register(s, owner, device, session);
    assert owner in s'.jobs && s'.jobs[owner] == Evict(Tcp(c));
  }

  lemma RegisterDisplaces(s: State, owner: Owner, device: ID, session: SessionID, c: nat, d: ID)
    requires Free(s, owner) && session != Tcp(c) && Served(s, c, d)
    ensures Served(Register(s, owner, device, session), c, d)
  {
    var s' := Register(s, owner, device, session);
    if EvictionPending(s, c) {
      var o :| o in s.jobs && s.jobs[o] == Evict(Tcp(c));
      assert o in s'.jobs && s'.jobs[o] == Evict(Tcp(c));
    } else if c !in s.closed && d == device {
      ReplacedIsEvicted(s, owner, device, session, c);
    }
  }

  lemma UnregisterDisplaces(s: State, owner: Owner, device: ID, session: SessionID, c: nat, d: ID)
    requires Free(s, owner) && session != Tcp(c) && Served(s, c, d)
    ensures Served(Unregister(s, owner, device, session), c, d)
  {
    var s' := Unregister(s, owner, device, session);
    if EvictionPending(s, c) {
      var o :| o in s.jobs && s.jobs[o] == Evict(Tcp(c));
      assert o in s'.jobs && s'.jobs[o] == Evict(Tcp(c));
    }
  }

  /** A bound connection that no step of its own concerns goes on being served or told to close. */
  lemma StepServes(s: State, step: Step, c: nat)
    requires Inv(s) && Enabled(s, step) && c in s.conns && s.conns[c].Bound? && Next(s, step).conns[c] == s.conns[c]
    ensures Served(Next(s, step), c, s.conns[c].device)
  {
    var d := s.conns[c].device;
    assert Served(s, c, d);
    match step
    case Authenticated(e, f) =>
      RegisterDisplaces(s, Handler(e), f, Tcp(e), c, d);
      assert EvictionPending(Register(s, Handler(e), f, Tcp(e)), c) ==> EvictionPending(Next(s, step), c);
    case Hangup(e) =>
      UnregisterDisplaces(s, Handler(e), s.conns[e].device, Tcp(e), c, d);
      assert EvictionPending(Unregister(s, Handler(e), s.conns[e].device, Tcp(e)), c) ==> EvictionPending(Next(s, step), c);
    case MqttUp(id, f, client) =>
      RegisterDisplaces(s, Callback(id), f, Mqtt(client), c, d);
      assert EvictionPending(Register(s, Callback(id), f, Mqtt(client)), c) ==> EvictionPending(Next(s, step), c);
    case MqttDown(id, f, client) =>
      UnregisterDisplaces(s, Callback(id), f, Mqtt(client), c, d);
      assert EvictionPending(Unregister(s, Callback(id), f, Mqtt(client)), c) ==> EvictionPending(Next(s, step), c);
    case Finish(owner) => if EvictionPending(s, c) { EvictionSurvives(s, step, c); }
    case _ => assert EvictionPending(s, c) ==> EvictionPending(Next(s, step), c);
  }

  lemma StepDisplaced(s: State, step: Step)
    requires Inv(s) && Enabled(s, step)
    ensures DisplacedAreClosed(Next(s, step))
  {
    var s' := Next(s, step);
    forall c | c in s'.conns && s'.conns[c].Bound? ensures Served(s', c, s'.conns[c].device) {
      if c in s.conns && s.conns[c] == s'.conns[c] {
        StepServes(s, step, c);
      }
    }
  }

  /** A step that takes the device's registration over from connection c. */
  predicate TakesOver(s: State, step: Step, c: nat) {
    || (step.Authenticated? && step.device in s.registry && s.registry[step.device] == Tcp(c) && step.conn != c)
    || (step.MqttUp? && step.device in s.registry && s.registry[step.device] == Tcp(c))
  }

  lemma ToldAfter(s: State, step: Step, c: nat)
    requires Enabled(s, step) && Told(Next(s, step), c)
    ensures Told(s, c) || TakesOver(s, step, c)
  {
    var s' := Next(s, step);
    if EvictionPending(s', c) {
      var o :| o in s'.jobs && s'.jobs[o] == Evict(Tcp(c));
      if o in s.jobs && s.jobs[o] == Evict(Tcp(c)) {
        assert EvictionPending(s, c);
      }
    }
    if c in s'.closed && c !in s.closed {
      assert step.Finish? && s.jobs[step.owner] == Evict(Tcp(c));
      assert EvictionPending(s, c);
    }
  }

  lemma StepHolders(s: State, step: Step)
    requires Inv(s) && Enabled(s, step)
    ensures HoldersAreOpen(Next(s, step)) && ToldHaveBound(Next(s, step))
  {
    var s' := Next(s, step);
    forall c | Told(s', c) ensures c in s'.conns && !s'.conns[c].Reading? {
      ToldAfter(s, step, c);
      if TakesOver(s, step, c) {
        assert s.registry[step.device] == Tcp(c);
      }
    }
    forall d | d in s'.registry && s'.registry[d].Tcp? ensures !Told(s', s'.registry[d].conn) {
      var c := s'.registry[d].conn;
      if Told(s', c) {
        ToldAfter(s, step, c);
        HeldBefore(s, step, d, c);
      }
    }
  }

  /** A registration after a step is the one before it, or the step's own. */
  lemma HeldBefore(s: State, step: Step, d: ID, c: nat)
    requires Inv(s) && Enabled(s, step) && d in Next(s, step).registry && Next(s, step).registry[d] == Tcp(c)
    ensures !Told(s, c) && !TakesOver(s, step, c)
  {
    if step.Authenticated? && step.conn == c {
      assert s.conns[c].Reading?;
    } else {
      assert d in s.registry && s.registry[d] == Tcp(c);
    }
  }

  lemma StepKeepsInv(s: State, step: Step)
    requires Inv(s) && Enabled(s, step)
    ensures Inv(Next(s, step))
  {
    StepHolders(s, step);
    StepCounts(s, step);
    StepOwned(s, step);
    StepReaders(s, step);
    StepDisplaced(s, step);
  }

  lemma {:induction false} RunKeepsInv(s: State, steps: seq<Step>, s': State)
    requires Inv(s) && Run(s, steps, s')
    ensures Inv(s')
    decreases steps
  {
    if steps != [] {
      StepKeepsInv(s, steps[0]);
      RunKeepsInv(Next(s, steps[0]), steps[1..], s');
    }
  }

  lemma InitialInv()
    ensures Inv(INITIAL)
  {
    assert Ups(map[]) == {} && Downs(map[]) == {};
    assert forall c :: !EvictionPending(INITIAL, c);
  }

  /** In every reachable state of every interleaving, the invariant holds. */
  lemma ReachableInv(steps: seq<Step>, s: State)
    requires Run(INITIAL, steps, s)
    ensures Inv(s)
  {
    InitialInv();
    RunKeepsInv(INITIAL, steps, s);
  }

  // ---------------------------------------------------------------- what follows

  predicate Ended(p: Phase) {
    p.Returned? || p.ReturnedOnRepeat?
  }

  ghost predicate Quiet(s: State) {
    s.jobs == map[] && forall c :: c in s.conns ==> Ended(s.conns[c])
  }

  predicate NoRepeat(steps: seq<Step>) {
    forall i :: 0 <= i < |steps| ==> !steps[i].RepeatAuth?
  }

  lemma {:induction false} NoRepeatNoLeak(s: State, steps: seq<Step>, s': State)
    requires Run(s, steps, s') && NoRepeat(steps)
    requires forall c :: c in s.conns ==> !s.conns[c].ReturnedOnRepeat?
    ensures forall c :: c in s'.conns ==> !s'.conns[c].ReturnedOnRepeat?
    decreases steps
  {
    if steps != [] {
      assert !steps[0].RepeatAuth?;
      assert forall i :: 0 <= i < |steps| - 1 ==> steps[1..][i] == steps[i + 1];
      NoRepeatNoLeak(Next(s, steps[0]), steps[1..], s');
    }
  }

  /** In every reachable state a registered TCP session belongs to a connection that authenticated
      for that device and was not told to close, nor is about to be; and, if no client repeats
      auth, to one whose handler is still running. */
  lemma RegisteredAreServed(steps: seq<Step>, s: State, d: ID)
    requires Run(INITIAL, steps, s) && d in s.registry && s.registry[d].Tcp?
    ensures var c := s.registry[d].conn;
            && c in s.conns && (s.conns[c] == Bound(d) || s.conns[c] == ReturnedOnRepeat(d))
            && c !in s.closed && !EvictionPending(s, c)
    ensures NoRepeat(steps) ==> s.conns[s.registry[d].conn] == Bound(d)
  {
    ReachableInv(steps, s);
    assert !Told(s, s.registry[d].conn);
    if NoRepeat(steps) {
      NoRepeatNoLeak(INITIAL, steps, s);
    }
  }

  /** Once all connections have ended, no device is online over TCP, and the counter agrees. */
  lemma AllOfflineAtTheEnd(steps: seq<Step>, s: State)
    requires Run(INITIAL, steps, s) && NoRepeat(steps) && Quiet(s)
    ensures TcpDevices(s.registry) == {}
    ensures s.online == |MqttDevices(s.registry)|
  {
    ReachableInv(steps, s);
    NoRepeatNoLeak(INITIAL, steps, s);
    QuietCounter(s);
    forall d ensures d !in TcpDevices(s.registry) {
      OnlyLeaksRemain(steps, s, d);
    }
    DevicesByTransport(s.registry);
  }

  /** With nothing pending, the online counter is what Stats adds up over both transports. */
  lemma QuietCounter(s: State)
    requires Inv(s) && s.jobs == map[]
    ensures s.online == |TcpDevices(s.registry)| + |MqttDevices(s.registry)|
  {
    assert Ups(s.jobs) == {} && Downs(s.jobs) == {};
    DevicesByTransport(s.registry);
  }

  /** With nothing pending, a handler that lost its device was told to close: at most one open
      connection serves a device. */
  lemma OneOpenConnection(s: State, c: nat, e: nat, d: ID)
    requires Inv(s) && s.jobs == map[]
    requires c in s.conns && e in s.conns && s.conns[c] == s.conns[e] == Bound(d)
    requires c !in s.closed && e !in s.closed
    ensures c == e
  {
    assert !EvictionPending(s, c) && !EvictionPending(s, e);
  }

  /** A late unregister never evicts a successor: a registration only ends by its own
      connection hanging up, or by another session registering for the device. */
  lemma OnlyOwnHangupReleases(s: State, step: Step, d: ID, c: nat)
    requires Enabled(s, step) && d in s.registry && s.registry[d] == Tcp(c)
    requires !Registers(step, d)
    ensures var r := Next(s, step).registry;
            (d in r && r[d] == Tcp(c)) <==> !(step == Hangup(c) && s.conns[c].device == d)
  {
  }

  /** A repeated auth is what leaks: when the handler holding the registration returns, the
      device goes offline exactly when it returned by hanging up. */
  lemma ReturnReleasesIff(s: State, step: Step, c: nat, d: ID)
    requires Inv(s) && Enabled(s, step) && c in s.conns && s.conns[c] == Bound(d)
    requires d in s.registry && s.registry[d] == Tcp(c)
    requires Ended(Next(s, step).conns[c])
    ensures d !in Next(s, step).registry <==> step.Hangup?
  {
  }

  lemma RunCons(s: State, step: Step, rest: seq<Step>, s': State)
    requires Enabled(s, step) && Run(Next(s, step), rest, s')
    ensures Run(s, [step] + rest, s')
  {
    assert ([step] + rest)[1..] == rest;
  }

  predicate NeverRegisters(steps: seq<Step>, d: ID) {
    forall i :: 0 <= i < |steps| ==> !Registers(steps[i], d)
  }

  /** And a leaked registration stays, and the device counts as online, until some other session
      registers for the device. */
  lemma {:induction false} LeakPersists(s: State, steps: seq<Step>, s': State, c: nat, d: ID)
    requires Run(s, steps, s') && NeverRegisters(steps, d)
    requires c in s.conns && s.conns[c] == ReturnedOnRepeat(d) && d in s.registry && s.registry[d] == Tcp(c)
    ensures d in s'.registry && s'.registry[d] == Tcp(c)
    decreases steps
  {
    if steps != [] {
      assert !Registers(steps[0], d);
      assert forall i :: 0 <= i < |steps| - 1 ==> steps[1..][i] == steps[i + 1];
      OnlyOwnHangupReleases(s, steps[0], d, c);
      LeakPersists(Next(s, steps[0]), steps[1..], s', c, d);
    }
  }

  /** The device is registered to a connection whose handler has returned. */
  predicate Leaked(s: State, c: nat, d: ID) {
    d in s.registry && s.registry[d] == Tcp(c) && c in s.conns && Ended(s.conns[c])
  }

  /** The connection's handler returned on a repeated auth while it held the device, and no session
      registered for the device since. */
  ghost predicate LeaksIn(s: State, steps: seq<Step>, c: nat, d: ID)
    decreases steps
  {
    steps != [] && Enabled(s, steps[0])
    && (LeaksIn(Next(s, steps[0]), steps[1..], c, d)
        || (steps[0] == RepeatAuth(c) && s.conns[c] == Bound(d) && d in s.registry && s.registry[d] == Tcp(c)
            && NeverRegisters(steps[1..], d)))
  }

  lemma StepLeakedIff(s: State, step: Step, c: nat, d: ID)
    requires Inv(s) && Enabled(s, step)
    ensures Leaked(Next(s, step), c, d) <==>
              || (step == RepeatAuth(c) && s.conns[c] == Bound(d) && d in s.registry && s.registry[d] == Tcp(c))
              || (Leaked(s, c, d) && !Registers(step, d))
  {
    HeldByConnIff(s, step, d, c);
    if c in s.conns {
      PhaseAfter(s, step, c);
    }
  }

  lemma NeverRegistersCons(steps: seq<Step>, d: ID)
    requires steps != []
    ensures NeverRegisters(steps, d) <==> !Registers(steps[0], d) && NeverRegisters(steps[1..], d)
  {
    assert forall i :: 0 <= i < |steps| - 1 ==> steps[1..][i] == steps[i + 1];
    if !Registers(steps[0], d) && NeverRegisters(steps[1..], d) {
      forall i | 0 <= i < |steps| ensures !Registers(steps[i], d) {
        if i > 0 { assert !Registers(steps[1..][i - 1], d); }
      }
    }
  }

  lemma {:induction false} LeakedIff(s: State, steps: seq<Step>, s': State, c: nat, d: ID)
    requires Inv(s) && Run(s, steps, s')
    ensures Leaked(s', c, d) <==> LeaksIn(s, steps, c, d) || (Leaked(s, c, d) && NeverRegisters(steps, d))
    decreases steps
  {
    if steps != [] {
      StepKeepsInv(s, steps[0]);
      StepLeakedIff(s, steps[0], c, d);
      NeverRegistersCons(steps, d);
      LeakedIff(Next(s, steps[0]), steps[1..], s', c, d);
    }
  }

  /** Over whole runs: a device is left registered to a connection that has ended exactly when that
      connection's handler returned on a repeated auth while holding it, and no session registered
      for the device since. */
  lemma RunLeaksIff(steps: seq<Step>, s: State, c: nat, d: ID)
    requires Run(INITIAL, steps, s)
    ensures Leaked(s, c, d) <==> LeaksIn(INITIAL, steps, c, d)
  {
    InitialInv();
    LeakedIff(INITIAL, steps, s, c, d);
  }

  /** Once everything has ended, the devices still online over TCP are exactly those whose last
      registration is held by a handler that returned on a repeated auth. */
  lemma OnlyLeaksRemain(steps: seq<Step>, s: State, d: ID)
    requires Run(INITIAL, steps, s) && Quiet(s)
    ensures d in TcpDevices(s.registry) <==>
              exists c :: c in s.conns && s.conns[c] == ReturnedOnRepeat(d) && d in s.registry && s.registry[d] == Tcp(c)
  {
    ReachableInv(steps, s);
  }

  /** The leak is reachable: one connection that authenticates twice. */
  lemma RepeatAuthLeaks(d: ID)
    ensures exists steps, s :: Run(INITIAL, steps, s) && Quiet(s) && TcpDevices(s.registry) == {d} && s.online == 1
  {
    var s1 := Next(INITIAL, Accept(0));
    var s2 := Next(s1, Authenticated(0, d));
    assert s2.jobs == map[Handler(0) := CountUp];
    var s3 := Next(s2, Finish(Handler(0)));
    assert s3.jobs == map[];
    var s4 := Next(s3, RepeatAuth(0));
    var steps := [Accept(0), Authenticated(0, d), Finish(Handler(0)), RepeatAuth(0)];
    assert Run(s4, [], s4);
    assert steps[1..][1..][1..][1..] == [];
    assert steps[1..][1..][1..][0] == RepeatAuth(0);
    assert Run(s3, steps[1..][1..][1..], s4);
    assert Run(s2, steps[1..][1..], s4);
    assert Run(s1, steps[1..], s4);
    assert Run(INITIAL, steps, s4);
    assert TcpDevices(s4.registry) == {d};
  }

  // ---------------------------------------------------------------- broker sessions

  /** The client's session is the one registered for the device. */
  predicate HeldBy(s: State, d: ID, client: string) {
    d in s.registry && s.registry[d] == Mqtt(client)
  }

  /** A step after which the client's session is not registered for the device, whatever it was. */
  predicate Ousts(step: Step, d: ID, client: string) {
    || (Registers(step, d) && !(step.MqttUp? && step.client == client))
    || (step.MqttDown? && step.device == d && step.client == client)
  }

  predicate NeverOusts(steps: seq<Step>, d: ID, client: string) {
    forall i :: 0 <= i < |steps| ==> !Ousts(steps[i], d, client)
  }

  /** A connection of the client was established for the device, and nothing ousted it since. */
  predicate HoldsIn(steps: seq<Step>, d: ID, client: string) {
    steps != []
    && (HoldsIn(steps[1..], d, client)
        || (steps[0].MqttUp? && steps[0].device == d && steps[0].client == client && NeverOusts(steps[1..], d, client)))
  }

  lemma StepHeldIff(s: State, step: Step, d: ID, client: string)
    requires Enabled(s, step)
    ensures HeldBy(Next(s, step), d, client)
            <==> (step.MqttUp? && step.device == d && step.client == client) || (HeldBy(s, d, client) && !Ousts(step, d, client))
  {
  }

  lemma NeverOustsCons(steps: seq<Step>, d: ID, client: string)
    requires steps != []
    ensures NeverOusts(steps, d, client) <==> !Ousts(steps[0], d, client) && NeverOusts(steps[1..], d, client)
  {
    assert forall i :: 0 <= i < |steps| - 1 ==> steps[1..][i] == steps[i + 1];
    if !Ousts(steps[0], d, client) && NeverOusts(steps[1..], d, client) {
      forall i | 0 <= i < |steps| ensures !Ousts(steps[i], d, client) {
        if i > 0 { assert !Ousts(steps[1..][i - 1], d, client); }
      }
    }
  }

  lemma {:induction false} HeldIff(s: State, steps: seq<Step>, s': State, d: ID, client: string)
    requires Run(s, steps, s')
    ensures HeldBy(s', d, client) <==> HoldsIn(steps, d, client) || (HeldBy(s, d, client) && NeverOusts(steps, d, client))
    decreases steps
  {
    if steps != [] {
      StepHeldIff(s, steps[0], d, client);
      NeverOustsCons(steps, d, client);
      HeldIff(Next(s, steps[0]), steps[1..], s', d, client);
    }
  }

  /** Over whole runs: a device is registered to a client's session exactly when one of the client's
      connections was established for it and since then no other session registered for the device
      and none of the client's connections, that one or any other, was disconnected from it. */
  lemma RunHeldIff(steps: seq<Step>, s: State, d: ID, client: string)
    requires Run(INITIAL, steps, s)
    ensures HeldBy(s, d, client) <==> HoldsIn(steps, d, client)
  {
    HeldIff(INITIAL, steps, s, d, client);
  }

  /** A step that opens or establishes a connection of the client. */
  predicate Opens(step: Step, client: string) {
    (step.MqttConnect? && step.client == client) || (step.MqttUp? && step.client == client)
  }

  predicate NeverOpens(steps: seq<Step>, client: string) {
    forall i :: 0 <= i < |steps| ==> !Opens(steps[i], client)
  }

  /** The disconnect of a connection of the client. */
  predicate Disconnects(step: Step, client: string) {
    step.MqttDown? && step.client == client
  }

  predicate Undisturbed(steps: seq<Step>, d: ID, client: string) {
    forall i :: 0 <= i < |steps| ==> !Disconnects(steps[i], client) && !Registers(steps[i], d)
  }

  lemma SurvivesStep(s: State, step: Step, d: ID, client: string)
    requires Enabled(s, step) && !Opens(step, client)
    ensures var s' := Next(s, step);
            HeldBy(s', d, client) && BoundTo(s', client, d)
            <==> HeldBy(s, d, client) && BoundTo(s, client, d) && !Disconnects(step, client) && !Registers(step, d)
  {
  }

  lemma {:induction false} SurvivesRun(s: State, steps: seq<Step>, s': State, d: ID, client: string)
    requires Run(s, steps, s') && NeverOpens(steps, client)
    ensures HeldBy(s', d, client) && BoundTo(s', client, d)
            <==> HeldBy(s, d, client) && BoundTo(s, client, d) && Undisturbed(steps, d, client)
    decreases steps
  {
    if steps != [] {
      assert !Opens(steps[0], client);
      assert forall i :: 0 <= i < |steps| - 1 ==> steps[1..][i] == steps[i + 1];
      SurvivesStep(s, steps[0], d, client);
      SurvivesRun(Next(s, steps[0]), steps[1..], s', d, client);
      UndisturbedCons(steps, d, client);
    }
  }

  lemma UndisturbedCons(steps: seq<Step>, d: ID, client: string)
    requires steps != []
    ensures Undisturbed(steps, d, client)
            <==> !Disconnects(steps[0], client) && !Registers(steps[0], d) && Undisturbed(steps[1..], d, client)
  {
    assert forall i :: 0 <= i < |steps| - 1 ==> steps[1..][i] == steps[i + 1];
    if !Disconnects(steps[0], client) && !Registers(steps[0], d) && Undisturbed(steps[1..], d, client) {
      forall i | 0 <= i < |steps| ensures !Disconnects(steps[i], client) && !Registers(steps[i], d) {
        if i > 0 { assert !Disconnects(steps[1..][i - 1], client) && !Registers(steps[1..][i - 1], d); }
      }
    }
  }

  lemma {:induction false} GoneStays(s: State, steps: seq<Step>, s': State, c: nat)
    requires Run(s, steps, s') && c in s.links && s.links[c].stage.Gone?
    ensures c in s'.links && s'.links[c].stage.Gone?
    decreases steps
  {
    if steps != [] {
      GoneStays(Next(s, steps[0]), steps[1..], s', c);
    }
  }

  lemma {:induction false} NotGoneNotDown(s: State, steps: seq<Step>, s': State, c: nat, client: string)
    requires Run(s, steps, s') && Linked(s, c, client, Established) && Linked(s', c, client, Established)
    ensures forall i :: 0 <= i < |steps| ==> !(steps[i].MqttDown? && steps[i].id == c)
    decreases steps
  {
    if steps != [] {
      var next := Next(s, steps[0]);
      if next.links[c].stage.Gone? {
        GoneStays(next, steps[1..], s', c);
      }
      assert !(steps[0].MqttDown? && steps[0].id == c);
      NotGoneNotDown(next, steps[1..], s', c, client);
      forall i | 0 <= i < |steps| ensures !(steps[i].MqttDown? && steps[i].id == c) {
        if i > 0 { assert steps[i] == steps[1..][i - 1]; }
      }
    }
  }

  /** Another connection of the client is disconnected, or another session registers. */
  predicate OthersInterfere(steps: seq<Step>, c: nat, d: ID, client: string) {
    exists i :: 0 <= i < |steps| && ((Disconnects(steps[i], client) && steps[i].id != c) || Registers(steps[i], d))
  }

  /** While an established connection lasts and its client opens no other: its client's registration
      and binding survive exactly when no other connection of the client is disconnected and no
      other session registers for the device. */
  lemma LiveSurvivesIff(s: State, steps: seq<Step>, s': State, c: nat, d: ID, client: string)
    requires Run(s, steps, s') && NeverOpens(steps, client)
    requires Linked(s, c, client, Established) && Linked(s', c, client, Established)
    requires HeldBy(s, d, client) && BoundTo(s, client, d)
    ensures HeldBy(s', d, client) && BoundTo(s', client, d) <==> !OthersInterfere(steps, c, d, client)
  {
    SurvivesRun(s, steps, s', d, client);
    NotGoneNotDown(s, steps, s', c, client);
  }

  function Reconnects(d: ID, client: string): seq<Step> {
    [MqttConnect(0, client, d)]
    + ([MqttUp(0, d, client)] + ([Finish(Callback(0))] + ([MqttConnect(1, client, d)] + ([MqttUp(1, d, client)] + []))))
  }

  lemma Reconnected(d: ID, client: string) returns (s: State)
    ensures Run(INITIAL, Reconnects(d, client), s) && HeldBy(s, d, client) && BoundTo(s, client, d) && s.jobs == map[]
    ensures Linked(s, 0, client, Established) && Linked(s, 1, client, Established)
  {
    var s1 := Next(INITIAL, MqttConnect(0, client, d));
    var s2 := Next(s1, MqttUp(0, d, client));
    assert s2.jobs == map[Callback(0) := CountUp];
    var s3 := Next(s2, Finish(Callback(0)));
    assert s3.jobs == map[];
    var s4 := Next(s3, MqttConnect(1, client, d));
    s := Next(s4, MqttUp(1, d, client));
    var rest := [MqttConnect(1, client, d)] + ([MqttUp(1, d, client)] + []);
    RunCons(s4, MqttUp(1, d, client), [], s);
    RunCons(s3, MqttConnect(1, client, d), [MqttUp(1, d, client)] + [], s);
    RunCons(s2, Finish(Callback(0)), rest, s);
    RunCons(s1, MqttUp(0, d, client), [Finish(Callback(0))] + rest, s);
    RunCons(INITIAL, MqttConnect(0, client, d), [MqttUp(0, d, client)] + ([Finish(Callback(0))] + rest), s);
  }

  /** It happens: a client connects, connects again, and the first connection's disconnect comes
      last; the second is still there, but the device counts as offline and the client as unknown. */
  lemma LateDisconnectReleases(d: ID, client: string)
    ensures exists s, s' :: Run(INITIAL, Reconnects(d, client), s) && HeldBy(s, d, client) && BoundTo(s, client, d)
                            && Run(s, [MqttDown(0, d, client)] + [], s')
                            && d !in s'.registry && client !in s'.bindings && Linked(s', 1, client, Established)
  {
    var s := Reconnected(d, client);
    var s' := Next(s, MqttDown(0, d, client));
    RunCons(s, MqttDown(0, d, client), [], s');
  }
}
