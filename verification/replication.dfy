/** Snapshot replication to standbys (internal/app/replication.go over
    internal/store/file/store.go): a primary, standbys that only apply snapshots, and a
    network that may lose, delay, duplicate and reorder what the hook sends. */
module Replication {
  import opened Model
  import opened Text
  import opened MemoryStore
  import opened FileStore

  type Peer = string

  // ---------------------------------------------------------------- the hook

  function PeerURL(peer: string): string {
    TrimRight(IsSlash, TrimSpace(peer))
  }

  /** The peers that are not blank, each at its first place. */
  function PeersOf(peers: seq<string>): seq<Peer> {
    if peers == [] then []
    else
      var before, last := PeersOf(peers[..|peers| - 1]), peers[|peers| - 1];
      if TrimSpace(last) == "" then before else AddUnique(before, PeerURL(last))
  }

  /** Some entry of the list names the peer. */
  predicate Named(peers: seq<string>, p: Peer) {
    exists i :: 0 <= i < |peers| && TrimSpace(peers[i]) != "" && p == PeerURL(peers[i])
  }

  lemma NamedLast(peers: seq<string>, p: Peer)
    requires peers != []
    ensures var init, last := peers[..|peers| - 1], peers[|peers| - 1];
            Named(peers, p) <==> Named(init, p) || (TrimSpace(last) != "" && p == PeerURL(last))
  {
    var init := peers[..|peers| - 1];
    if Named(init, p) {
      var i :| 0 <= i < |init| && TrimSpace(init[i]) != "" && p == PeerURL(init[i]);
      assert peers[i] == init[i];
    }
    if Named(peers, p) {
      var i :| 0 <= i < |peers| && TrimSpace(peers[i]) != "" && p == PeerURL(peers[i]);
      assert i < |init| ==> init[i] == peers[i];
    }
  }

  lemma {:induction false} PeersAreNamed(peers: seq<string>)
    ensures NoDup(PeersOf(peers))
    ensures forall p :: p in PeersOf(peers) <==> Named(peers, p)
  {
    if peers != [] {
      PeersAreNamed(peers[..|peers| - 1]);
      forall p ensures p in PeersOf(peers) <==> Named(peers, p) {
        NamedLast(peers, p);
      }
    }
  }

  method NormalizeReplicaPeers(peers: seq<string>) returns (result: seq<Peer>)
    ensures result == PeersOf(peers) && NoDup(result)
    ensures forall p :: p in result <==> Named(peers, p)
  {
    result := [];
    var seen: set<Peer> := {};
    for k := 0 to |peers|
      invariant result == PeersOf(peers[..k])
      invariant forall p :: p in seen <==> p in result
    {
      assert peers[..k + 1][..k] == peers[..k];
      var peer := TrimSpace(peers[k]);
      if peer != "" {
        peer := TrimRight(IsSlash, peer);
        if peer !in seen {
          seen := seen + {peer};
          result := result + [peer];
        }
      }
    }
    assert peers[..|peers|] == peers;
    PeersAreNamed(peers);
  }

  /** Copies on their way; `sent` only grows, since a copy may still arrive, again, at any time. */
  class Network {
    var sent: set<(Peer, Image)>

    constructor ()
      ensures sent == {}
    {
      sent := {};
    }

    method PersistHook(peers: seq<Peer>, image: Image)
      modifies this
      ensures sent == old(sent) + ToAll(peers, image)
    {
      for i := 0 to |peers|
        invariant sent == old(sent) + ToAll(peers[..i], image)
      {
        sent := sent + {(peers[i], image)};
        assert peers[..i + 1] == peers[..i] + [peers[i]];
      }
      assert peers[..|peers|] == peers;
    }
  }

  function ToAll(peers: seq<Peer>, image: Image): set<(Peer, Image)> {
    set p | p in peers :: (p, image)
  }

  // ---------------------------------------------------------------- the whole system

  /** `committed` are the images the primary made durable, `initial` the standbys' own files
      at the start, `blank` the standbys whose memory comes from a start that found no file, and
      `retention` the configured default. */
  datatype System = System(
    primary: FileState,
    standbys: map<Peer, FileState>,
    sent: set<(Peer, Image)>,
    committed: set<Image>,
    initial: map<Peer, Option<Image>>,
    blank: set<Peer>,
    peers: seq<Peer>,
    retention: int)

  datatype Step =
    | WriteStep(w: Write, now: int, fault: Fault)
    | Deliver(peer: Peer, image: Image, fault: Fault)
    | DeliverGarbled(peer: Peer)
    | RestartPrimary
    | RestartStandby(peer: Peer)

  predicate Enabled(s: System, step: Step) {
    match step
    case Deliver(p, image, _) => p in s.standbys && (p, image) in s.sent
    case DeliverGarbled(p) => p in s.standbys
    case RestartStandby(p) => p in s.standbys
    case _ => true
  }

  function Next(s: System, step: Step): System
    requires Enabled(s, step)
  {
    match step
    case WriteStep(w, now, fault) =>
      var (primary, r) := Mutate(s.primary, w, now, fault);
      if r.Committed? then
        s.(primary := primary, sent := s.sent + ToAll(s.peers, r.image), committed := s.committed + {r.image})
      else s.(primary := primary)
    case Deliver(p, image, fault) =>
      var (st, r) := ApplyReplica(s.standbys[p], Some(image), fault);
      s.(standbys := s.standbys[p := st], blank := if r.Committed? then s.blank - {p} else s.blank)
    case DeliverGarbled(p) => s.(standbys := s.standbys[p := ApplyReplica(s.standbys[p], None, NoFault).0])
    case RestartPrimary => s.(primary := Load(s.primary.file, s.retention))
    case RestartStandby(p) =>
      s.(standbys := s.standbys[p := Load(s.standbys[p].file, s.retention)],
         blank := if s.standbys[p].file.None? then s.blank + {p} else s.blank - {p})
  }

  predicate Start(s: System) {
    && s.primary == Load(s.primary.file, s.retention)
    && s.sent == {} && s.committed == {}
    && s.initial.Keys == s.standbys.Keys
    && s.blank == (set p | p in s.initial && s.initial[p].None?)
    && (forall p :: p in s.standbys ==> s.standbys[p] == Load(s.initial[p], s.retention))
    && (s.primary.file.Some? ==> RetentionSet(s.primary.file.value.snapshot))
    && (forall p :: p in s.initial && s.initial[p].Some? ==> RetentionSet(s.initial[p].value.snapshot))
  }

  predicate Possible(s: System, steps: seq<Step>)
    decreases steps
  {
    steps == [] || (Enabled(s, steps[0]) && Possible(Next(s, steps[0]), steps[1..]))
  }

  function Run(s: System, steps: seq<Step>): System
    requires Possible(s, steps)
    decreases steps
  {
    if steps == [] then s else Run(Next(s, steps[0]), steps[1..])
  }

  // ---------------------------------------------------------------- the invariant

  /** An image a standby may legitimately hold. */
  predicate Genuine(s: System, p: Peer, image: Image) {
    image in s.committed || (p in s.initial && s.initial[p] == Some(image))
  }

  ghost predicate HoldsGenuine(s: System, p: Peer, m: Snapshot) {
    exists image :: Genuine(s, p, image) && Alike(image.snapshot, m)
  }

  ghost predicate StandbyInv(s: System, p: Peer, st: FileState) {
    && RetentionSet(st.mem)
    && (if p in s.blank then Alike(EmptyStore(s.retention), st.mem) else HoldsGenuine(s, p, st.mem))
    && (st.file.Some? ==> Genuine(s, p, st.file.value))
  }

  ghost predicate Inv(s: System) {
    && Durable(s.primary)
    && (s.primary.file.Some? ==> RetentionSet(s.primary.file.value.snapshot))
    && (forall image :: image in s.committed ==> RetentionSet(image.snapshot))
    && (forall p :: p in s.initial && s.initial[p].Some? ==> RetentionSet(s.initial[p].value.snapshot))
    && (forall m :: m in s.sent ==> m.1 in s.committed)
    && (forall p :: p in s.standbys ==> StandbyInv(s, p, s.standbys[p]))
  }

  lemma LoadAlike(file: Option<Image>, retention: int)
    requires file.Some? ==> RetentionSet(file.value.snapshot)
    ensures var st := Load(file, retention);
            Durable(st) && Alike(if file.Some? then file.value.snapshot else EmptyStore(retention), st.mem)
  {
    var empty := EmptyStore(retention);
    AlikeReflexive(empty);
    if file.Some? {
      var image := file.value;
      RestoredAlike(image.snapshot, empty.telemetryRetention, empty.alertRetention);
      AlikeTransitive(Load(file, retention).mem, image.snapshot, image.snapshot) by { AlikeReflexive(image.snapshot); }
    }
  }

  lemma LoadedStandby(s: System, p: Peer)
    requires Inv(s) && p in s.standbys
    ensures var s' := Next(s, RestartStandby(p)); StandbyInv(s', p, s'.standbys[p])
  {
    var file := s.standbys[p].file;
    LoadAlike(file, s.retention);
    if file.Some? {
      assert Genuine(Next(s, RestartStandby(p)), p, file.value);
    }
  }

  lemma StartInv(s: System)
    requires Start(s)
    ensures Inv(s)
  {
    LoadAlike(s.primary.file, s.retention);
    forall p | p in s.standbys ensures StandbyInv(s, p, s.standbys[p]) {
      LoadAlike(s.initial[p], s.retention);
      if s.initial[p].Some? { assert Genuine(s, p, s.initial[p].value); }
    }
  }

  lemma AppliedAlike(st: FileState, image: Image)
    requires RetentionSet(image.snapshot)
    ensures var m := Restored(image.snapshot, st.mem.telemetryRetention, st.mem.alertRetention);
            Alike(image.snapshot, m) && RetentionSet(m)
  {
    RestoredAlike(image.snapshot, st.mem.telemetryRetention, st.mem.alertRetention);
    AlikeReflexive(image.snapshot);
    AlikeTransitive(Restored(image.snapshot, st.mem.telemetryRetention, st.mem.alertRetention), image.snapshot, image.snapshot);
  }

  lemma DeliveredStandby(s: System, p: Peer, image: Image, fault: Fault)
    requires Inv(s) && Enabled(s, Deliver(p, image, fault))
    ensures var s' := Next(s, Deliver(p, image, fault)); StandbyInv(s', p, s'.standbys[p])
  {
    var st := s.standbys[p];
    var s' := Next(s, Deliver(p, image, fault));
    assert (p, image).1 in s.committed;
    if fault.NoFault? {
      AppliedAlike(st, image);
      assert Genuine(s', p, image);
    } else {
      StandbyInvMonotone(s, s', p, st);
    }
  }

  lemma StandbyInvMonotone(s: System, s': System, p: Peer, st: FileState)
    requires StandbyInv(s, p, st)
    requires s.committed <= s'.committed && s'.initial == s.initial && s'.retention == s.retention
    requires p in s.blank <==> p in s'.blank
    ensures StandbyInv(s', p, st)
  {
    if p !in s.blank {
      var image :| Genuine(s, p, image) && Alike(image.snapshot, st.mem);
      assert Genuine(s', p, image);
    }
  }

  lemma WriteKeepsInv(s: System, w: Write, now: int, fault: Fault)
    requires Inv(s)
    ensures Inv(Next(s, WriteStep(w, now, fault)))
  {
    var s' := Next(s, WriteStep(w, now, fault));
    MutateKeepsDurable(s.primary, w, now, fault);
    MutateIsTransaction(s.primary, w, now, fault);
    var (primary, r) := Mutate(s.primary, w, now, fault);
    assert r.Committed? ==> RetentionSet(r.image.snapshot);
    forall p | p in s'.standbys ensures StandbyInv(s', p, s'.standbys[p]) {
      StandbyInvMonotone(s, s', p, s.standbys[p]);
    }
  }

  lemma StepKeepsInv(s: System, step: Step)
    requires Inv(s) && Enabled(s, step)
    ensures Inv(Next(s, step))
  {
    var s' := Next(s, step);
    match step
    case WriteStep(w, now, fault) => WriteKeepsInv(s, w, now, fault);
    case RestartPrimary =>
      LoadAlike(s.primary.file, s.retention);
      forall p | p in s'.standbys ensures StandbyInv(s', p, s'.standbys[p]) { StandbyInvMonotone(s, s', p, s.standbys[p]); }
    case Deliver(q, image, fault) =>
      DeliveredStandby(s, q, image, fault);
      forall p | p in s'.standbys && p != q ensures StandbyInv(s', p, s'.standbys[p]) { StandbyInvMonotone(s, s', p, s.standbys[p]); }
    case RestartStandby(q) =>
      LoadedStandby(s, q);
      forall p | p in s'.standbys && p != q ensures StandbyInv(s', p, s'.standbys[p]) { StandbyInvMonotone(s, s', p, s.standbys[p]); }
    case DeliverGarbled(q) =>
      forall p | p in s'.standbys ensures StandbyInv(s', p, s'.standbys[p]) { StandbyInvMonotone(s, s', p, s.standbys[p]); }
  }

  lemma StepKeepsPeers(s: System, step: Step)
    requires Enabled(s, step)
    ensures var s' := Next(s, step); s'.standbys.Keys == s.standbys.Keys && s'.initial == s.initial && s'.retention == s.retention
  {
  }

  lemma {:induction false} RunKeepsInv(s: System, steps: seq<Step>)
    requires Inv(s) && Possible(s, steps)
    ensures Inv(Run(s, steps))
    ensures var s' := Run(s, steps); s'.standbys.Keys == s.standbys.Keys && s'.initial == s.initial && s'.retention == s.retention
    decreases steps
  {
    if steps != [] {
      StepKeepsInv(s, steps[0]);
      StepKeepsPeers(s, steps[0]);
      RunKeepsInv(Next(s, steps[0]), steps[1..]);
    }
  }

  // ---------------------------------------------------------------- safety

  /** What a standby's memory is promised to be: its own initial state, or a state the primary
      durably committed. */
  ghost predicate Promised(s: System, p: Peer, m: Snapshot)
    requires p in s.initial
  {
    || Alike(Load(s.initial[p], s.retention).mem, m)
    || exists image :: image in s.committed && Alike(image.snapshot, m)
  }

  /** A step that gives a standby's memory a new content. */
  predicate Loads(s: System, step: Step, p: Peer)
    requires p in s.standbys && Enabled(s, step)
  {
    step == RestartStandby(p) || (step.Deliver? && step.peer == p && step.fault.NoFault?)
  }

  predicate NothingLoaded(s: System, steps: seq<Step>, p: Peer)
    requires p in s.standbys && Possible(s, steps)
    decreases steps
  {
    steps == [] || (!Loads(s, steps[0], p) && NothingLoaded(Next(s, steps[0]), steps[1..], p))
  }

  /** The standby was restarted while it had no file, and nothing was applied or loaded since. */
  predicate RestartedBlank(s: System, steps: seq<Step>, p: Peer)
    requires p in s.standbys && Possible(s, steps)
    decreases steps
  {
    steps != []
    && var next := Next(s, steps[0]);
       (RestartedBlank(next, steps[1..], p)
        || (steps[0] == RestartStandby(p) && s.standbys[p].file.None? && NothingLoaded(next, steps[1..], p)))
  }

  lemma {:induction false} BlankIff(s: System, steps: seq<Step>, p: Peer)
    requires p in s.standbys && Possible(s, steps)
    ensures p in Run(s, steps).blank <==> RestartedBlank(s, steps, p) || (p in s.blank && NothingLoaded(s, steps, p))
    decreases steps
  {
    if steps != [] {
      BlankIff(Next(s, steps[0]), steps[1..], p);
    }
  }

  lemma PromisedMoves(s: System, p: Peer, a: Snapshot, b: Snapshot)
    requires p in s.initial && Alike(a, b) && Promised(s, p, a)
    ensures Promised(s, p, b)
  {
    var initial := Load(s.initial[p], s.retention).mem;
    if Alike(initial, a) {
      AlikeTransitive(initial, a, b);
    } else {
      var image :| image in s.committed && Alike(image.snapshot, a);
      AlikeTransitive(image.snapshot, a, b);
    }
  }

  /** Of two states that no query tells apart, both are promised or neither is. */
  lemma PromisedAlike(s: System, p: Peer, a: Snapshot, b: Snapshot)
    requires p in s.initial && Alike(a, b)
    ensures Promised(s, p, a) <==> Promised(s, p, b)
  {
    AlikeReflexive(b);
    AlikeTransitive(a, b, b);
    if Promised(s, p, a) {
      PromisedMoves(s, p, a, b);
    }
    if Promised(s, p, b) {
      PromisedMoves(s, p, b, a);
    }
  }

  /** Replication safety, over whole runs: whatever is lost, delayed, duplicated or reordered, and
      whichever writes and applies fail or are rolled back, a standby's memory is its own initial
      state or a state the primary durably committed, with one exception: a standby that had a
      file, lost it and was restarted without it is empty until something is applied again; the
      promise then holds exactly when the empty store is such a state too. Its file never holds
      anything else. */
  lemma StandbysHoldCommittedStates(s: System, steps: seq<Step>, p: Peer)
    requires Start(s) && Possible(s, steps) && p in s.standbys
    ensures var s' := Run(s, steps); p in s'.standbys && p in s'.initial
    ensures var s' := Run(s, steps);
            if s.initial[p].Some? && RestartedBlank(s, steps, p) then Alike(EmptyStore(s.retention), s'.standbys[p].mem)
            else Promised(s', p, s'.standbys[p].mem)
    ensures var s' := Run(s, steps);
            Promised(s', p, s'.standbys[p].mem)
            <==> !(s.initial[p].Some? && RestartedBlank(s, steps, p)) || Promised(s', p, EmptyStore(s.retention))
    ensures var s' := Run(s, steps); s'.standbys[p].file.Some? ==> Genuine(s', p, s'.standbys[p].file.value)
  {
    StartInv(s);
    RunKeepsInv(s, steps);
    BlankIff(s, steps, p);
    var s' := Run(s, steps);
    var m := s'.standbys[p].mem;
    assert StandbyInv(s', p, s'.standbys[p]);
    if p !in s'.blank {
      GenuineIsPromised(s', p, m);
    }
    if s.initial[p].Some? && RestartedBlank(s, steps, p) {
      PromisedAlike(s', p, EmptyStore(s.retention), m);
    }
  }

  lemma GenuineIsPromised(s: System, p: Peer, m: Snapshot)
    requires p in s.initial && HoldsGenuine(s, p, m)
    requires s.initial[p].Some? ==> RetentionSet(s.initial[p].value.snapshot)
    ensures Promised(s, p, m)
  {
    var image :| Genuine(s, p, image) && Alike(image.snapshot, m);
    if image !in s.committed {
      var empty := EmptyStore(s.retention);
      RestoredAlike(image.snapshot, empty.telemetryRetention, empty.alertRetention);
      AlikeTransitive(Load(s.initial[p], s.retention).mem, image.snapshot, m);
    }
  }

  lemma RunCons(s: System, step: Step, rest: seq<Step>)
    requires Enabled(s, step) && Possible(Next(s, step), rest)
    ensures Possible(s, [step] + rest) && Run(s, [step] + rest) == Run(Next(s, step), rest)
  {
    assert ([step] + rest)[1..] == rest;
  }

  lemma LostThenRestarted(s: System, p: Peer, image: Image)
    requires p in s.standbys && (p, image) in s.sent
    ensures var steps := [Deliver(p, image, RenameFails(true))] + ([RestartStandby(p)] + []);
            Possible(s, steps)
            && var s' := Run(s, steps);
               p in s'.standbys && s'.standbys[p].mem == EmptyStore(s.retention) && s'.retention == s.retention
               && s'.initial == s.initial && s'.committed == s.committed
  {
    var s1 := Next(s, Deliver(p, image, RenameFails(true)));
    RunCons(s1, RestartStandby(p), []);
    RunCons(s, Deliver(p, image, RenameFails(true)), [RestartStandby(p)] + []);
  }

  /** The exception is real: a standby that starts with tenant t, and whose first apply fails at
      the rename, is empty after a restart, which is neither its initial nor a committed state. */
  lemma LostFileEmptiesStandby(p: Peer, t: Tenant, u: Tenant)
    ensures exists s, steps :: Start(s) && Possible(s, steps) && p in s.standbys
                               && p in Run(s, steps).standbys && p in Run(s, steps).initial
                               && !Promised(Run(s, steps), p, Run(s, steps).standbys[p].mem)
  {
    var kept := Image(0, Apply(EmptyStore(200), CreateTenant(t)).store);
    var primary := Load(None, 200);
    var s := System(primary, map[p := Load(Some(kept), 200)], {}, {}, map[p := Some(kept)], {}, [p], 200);
    assert Start(s);
    var write := WriteStep(CreateTenant(u), 1, NoFault);
    var s1 := Next(s, write);
    var image := Image(1, Apply(primary.mem, CreateTenant(u)).store);
    assert p in [p];
    assert s1.committed == {image} && (p, image) in s1.sent;
    LostThenRestarted(s1, p, image);
    var rest := [Deliver(p, image, RenameFails(true))] + ([RestartStandby(p)] + []);
    RunCons(s, write, rest);
    NeitherPromised(Run(s1, rest), p, kept, image, t, u);
    assert Run(s, [write] + rest) == Run(s1, rest);
  }

  lemma NeitherPromised(s: System, p: Peer, kept: Image, image: Image, t: Tenant, u: Tenant)
    requires p in s.initial && s.initial[p] == Some(kept) && s.committed == {image}
    requires t.id in kept.snapshot.tables.tenants && u.id in image.snapshot.tables.tenants
    ensures !Promised(s, p, EmptyStore(200))
  {
    assert EmptyStore(200).tables.tenants == map[];
    assert t.id in Load(s.initial[p], s.retention).mem.tables.tenants;
  }

  /** After a successful apply memory and file hold the delivered state. */
  lemma DeliverApplies(s: System, p: Peer, image: Image)
    requires Inv(s) && Enabled(s, Deliver(p, image, NoFault))
    ensures var st := Next(s, Deliver(p, image, NoFault)).standbys[p];
            st.file == Some(image) && Alike(st.mem, image.snapshot)
  {
    RestoredAlike(image.snapshot, s.standbys[p].mem.telemetryRetention, s.standbys[p].mem.alertRetention);
  }

  /** Once the image in the primary's file arrives, no query tells standby and primary apart. */
  lemma CatchUp(s: System, p: Peer, image: Image, q: Query)
    requires Inv(s) && Enabled(s, Deliver(p, image, NoFault)) && s.primary.file == Some(image)
    ensures var s' := Next(s, Deliver(p, image, NoFault)); Ask(s'.standbys[p].mem, q) == Ask(s'.primary.mem, q)
  {
    DeliverApplies(s, p, image);
    var m := Next(s, Deliver(p, image, NoFault)).standbys[p].mem;
    AlikeTransitive(m, image.snapshot, s.primary.mem);
    AlikeAnswers(m, s.primary.mem, q);
  }

  // ---------------------------------------------------------------- going back in time

  /** The time of the image in a standby's file, if it has one. */
  function FileTime(s: System, p: Peer): seq<int>
    requires p in s.standbys
  {
    if s.standbys[p].file.Some? then [s.standbys[p].file.value.savedAt] else []
  }

  /** The times of the images the file holds after each step of a run. */
  function FileTimes(s: System, steps: seq<Step>, p: Peer): seq<int>
    requires p in s.standbys && Possible(s, steps)
    decreases steps
  {
    if steps == [] then []
    else
      var next := Next(s, steps[0]);
      FileTime(next, p) + FileTimes(next, steps[1..], p)
  }

  predicate Ascending(times: seq<int>) {
    forall i :: 0 <= i < |times| - 1 ==> times[i] <= times[i + 1]
  }

  /** The time of the image last held: the file's, or the one before it was lost. */
  function LastHeld(s: System, p: Peer, before: seq<int>): seq<int>
    requires p in s.standbys
  {
    if s.standbys[p].file.Some? then FileTime(s, p) else before
  }

  /** An image a step applies with success is no older than the one last held. */
  predicate StepInOrder(step: Step, p: Peer, held: seq<int>) {
    step.Deliver? && step.peer == p && step.fault.NoFault? && held != [] ==> held[0] <= step.image.savedAt
  }

  /** Every image applied with success is no older than the one last held. */
  predicate AppliedInOrder(s: System, steps: seq<Step>, p: Peer, before: seq<int>)
    requires p in s.standbys && Possible(s, steps) && |before| <= 1
    decreases steps
  {
    steps == []
    || (var held := LastHeld(s, p, before);
        StepInOrder(steps[0], p, held) && AppliedInOrder(Next(s, steps[0]), steps[1..], p, held))
  }

  lemma AscendingCons(a: int, b: int, rest: seq<int>)
    ensures Ascending([a, b] + rest) <==> a <= b && Ascending([b] + rest)
  {
    var x, y := [a, b] + rest, [b] + rest;
    assert forall i :: 0 <= i < |y| ==> y[i] == x[i + 1];
    if Ascending(x) {
      assert x[0] <= x[0 + 1];
      forall i | 0 <= i < |y| - 1 ensures y[i] <= y[i + 1] { assert x[i + 1] <= x[i + 1 + 1]; }
    }
    if a <= b && Ascending(y) {
      forall i | 0 <= i < |x| - 1 ensures x[i] <= x[i + 1] {
        if i > 0 { assert y[i - 1] <= y[i - 1 + 1]; }
      }
    }
  }

  lemma StepTime(s: System, step: Step, p: Peer)
    requires p in s.standbys && Enabled(s, step)
    ensures var s' := Next(s, step);
            FileTime(s', p) == if step.Deliver? && step.peer == p && step.fault.NoFault? then [step.image.savedAt]
                               else if s'.standbys[p].file.None? then [] else FileTime(s, p)
  {
  }

  lemma PrependTime(held: seq<int>, time: seq<int>, later: seq<int>)
    requires |held| <= 1 && |time| <= 1
    ensures Ascending(held + (time + later)) <==>
              (held != [] && time != [] ==> held[0] <= time[0]) && Ascending((if time == [] then held else time) + later)
  {
    if time == [] {
      assert time + later == later;
    } else if held == [] {
      assert held + (time + later) == time + later;
    } else {
      AscendingCons(held[0], time[0], later);
      assert held + (time + later) == [held[0], time[0]] + later;
      assert time == [time[0]];
    }
  }

  lemma StepOrder(s: System, step: Step, p: Peer, before: seq<int>)
    requires p in s.standbys && Enabled(s, step) && |before| <= 1
    ensures var held, time := LastHeld(s, p, before), FileTime(Next(s, step), p);
            && |held| <= 1 && |time| <= 1 && p in Next(s, step).standbys
            && LastHeld(Next(s, step), p, held) == (if time == [] then held else time)
            && (StepInOrder(step, p, held) <==> (held != [] && time != [] ==> held[0] <= time[0]))
  {
    StepTime(s, step, p);
  }

  lemma {:induction false} TimesAscendIff(s: System, steps: seq<Step>, p: Peer, before: seq<int>)
    requires p in s.standbys && Possible(s, steps) && |before| <= 1
    ensures Ascending(LastHeld(s, p, before) + FileTimes(s, steps, p)) <==> AppliedInOrder(s, steps, p, before)
    decreases steps
  {
    if steps != [] {
      var held, next := LastHeld(s, p, before), Next(s, steps[0]);
      StepOrder(s, steps[0], p, before);
      TimesAscendIff(next, steps[1..], p, held);
      PrependTime(held, FileTime(next, p), FileTimes(next, steps[1..], p));
    }
  }

  /** Delivery never compares times. Over a run the time of a standby's file never decreases
      exactly when every image applied with success is no older than the one last held. */
  lemma NeverGoesBackIff(s: System, steps: seq<Step>, p: Peer)
    requires p in s.standbys && Possible(s, steps)
    ensures Ascending(FileTime(s, p) + FileTimes(s, steps, p)) <==> AppliedInOrder(s, steps, p, [])
  {
    TimesAscendIff(s, steps, p, []);
  }

  /** One delivery takes the file back exactly when it succeeds with an older image. */
  lemma GoesBackIff(s: System, step: Step, p: Peer)
    requires p in s.standbys && Enabled(s, step)
    ensures !Ascending(FileTime(s, p) + FileTime(Next(s, step), p)) <==>
              step.Deliver? && step.peer == p && step.fault.NoFault?
              && s.standbys[p].file.Some? && step.image.savedAt < s.standbys[p].file.value.savedAt
  {
    StepTime(s, step, p);
    if FileTime(s, p) != [] && FileTime(Next(s, step), p) != [] {
      var a, b := FileTime(s, p)[0], FileTime(Next(s, step), p)[0];
      AscendingCons(a, b, []);
      assert FileTime(s, p) + FileTime(Next(s, step), p) == [a, b] + [];
    }
  }

  lemma LateThenEarly(s: System, p: Peer, early: Image, late: Image)
    requires p in s.standbys && (p, early) in s.sent && (p, late) in s.sent
    ensures var steps := [Deliver(p, late, NoFault)] + ([Deliver(p, early, NoFault)] + []);
            Possible(s, steps) && FileTimes(s, steps, p) == [late.savedAt, early.savedAt]
  {
    var s1 := Next(s, Deliver(p, late, NoFault));
    var rest := [Deliver(p, early, NoFault)] + [];
    RunCons(s1, Deliver(p, early, NoFault), []);
    RunCons(s, Deliver(p, late, NoFault), rest);
    assert rest[1..] == [] && ([Deliver(p, late, NoFault)] + rest)[1..] == rest;
    assert FileTimes(s1, rest, p) == [early.savedAt];
  }

  lemma SentBefore(s: System, step: Step, rest: seq<Step>, p: Peer)
    requires p in s.standbys && s.standbys[p].file.None? && step.WriteStep? && Possible(Next(s, step), rest)
    ensures Possible(s, [step] + rest) && FileTimes(s, [step] + rest, p) == FileTimes(Next(s, step), rest, p)
  {
    RunCons(s, step, rest);
    assert ([step] + rest)[1..] == rest;
    assert [] + FileTimes(Next(s, step), rest, p) == FileTimes(Next(s, step), rest, p);
  }

  /** It happens: the primary commits twice, and the second image arrives first. */
  lemma StandbyGoesBack(p: Peer, t: Tenant, u: Tenant)
    requires t.id != u.id
    ensures exists s, steps :: Start(s) && Possible(s, steps) && p in s.standbys && FileTimes(s, steps, p) == [2, 1]
  {
    var primary := Load(None, 200);
    var s := System(primary, map[p := primary], {}, {}, map[p := None], {p}, [p], 200);
    var first, second := WriteStep(CreateTenant(t), 1, NoFault), WriteStep(CreateTenant(u), 2, NoFault);
    var s1 := Next(s, first);
    var s2 := Next(s1, second);
    var early, late := Image(1, s1.primary.mem), Image(2, s2.primary.mem);
    assert p in [p];
    assert (p, early) in s1.sent;
    LateThenEarly(s2, p, early, late);
    var steps := [Deliver(p, late, NoFault)] + ([Deliver(p, early, NoFault)] + []);
    SentBefore(s1, second, steps, p);
    SentBefore(s, first, [second] + steps, p);
    assert Start(s);
  }
}
