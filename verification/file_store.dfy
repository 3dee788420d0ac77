/** The file-backed store (internal/store/file/store.go): every write is applied in memory,
    persisted as a whole snapshot, and rolled back when persisting fails. */
module FileStore {
  import opened Model
  import opened MemoryStore

  /** A persisted snapshot. Encoding and decoding are taken to be a faithful round trip, so a
      file is represented by what it decodes to. */
  datatype Image = Image(savedAt: int, snapshot: Snapshot)

  /** What goes wrong while the file is being replaced. `WriteFails` stands for any failure up
      to and including closing the temporary file; the old file is removed before the
      rename, so a failed rename may leave no file at all. */
  datatype Fault = NoFault | MarshalFails | WriteFails | RenameFails(removed: bool)

  datatype FileState = FileState(mem: Snapshot, file: Option<Image>, lastPersistedAt: int, persistErrors: int)

  datatype Result = Committed(image: Image) | ApplyError(error: Error) | PersistError | DecodeError

  function Failing(st: FileState): FileState {
    st.(persistErrors := st.persistErrors + 1)
  }

  /** writeSnapshotFile; the flag says whether it succeeded. */
  function WriteFile(st: FileState, image: Image, fault: Fault): (FileState, bool) {
    match fault
    case NoFault => (st.(file := Some(image), lastPersistedAt := image.savedAt), true)
    case RenameFails(removed) => (Failing(if removed then st.(file := None) else st), false)
    case _ => (Failing(st), false)
  }

  /** The second half of mutate: what was applied is persisted, or taken back. */
  function Settle(st: FileState, rollback: Snapshot, now: int, fault: Fault): (FileState, Result) {
    var image := Image(now, st.mem);
    var (st', ok) := WriteFile(st, image, fault);
    if ok then (st', Committed(image))
    else (st'.(mem := Restored(rollback, st.mem.telemetryRetention, st.mem.alertRetention)), PersistError)
  }

  /** mutate: snapshot, apply, persist, roll back. A committed image is what the hook ships. */
  function Mutate(st: FileState, w: Write, now: int, fault: Fault): (FileState, Result) {
    match Apply(st.mem, w)
    case Refused(e) => (st, ApplyError(e))
    case Done(m) => Settle(st.(mem := m), st.mem, now, fault)
  }

  /** ApplyReplicaSnapshot; None stands for bytes that do not decode. */
  function ApplyReplica(st: FileState, data: Option<Image>, fault: Fault): (FileState, Result) {
    match data
    case None => (st, DecodeError)
    case Some(image) =>
      var (st', ok) := WriteFile(st, image, fault);
      if ok then (st'.(mem := Restored(image.snapshot, st.mem.telemetryRetention, st.mem.alertRetention)), Committed(image))
      else (st', PersistError)
  }

  /** New: an empty store, then the file's content when there is one. */
  function Load(file: Option<Image>, retention: int): FileState {
    var empty := EmptyStore(retention);
    match file
    case None => FileState(empty, None, 0, 0)
    case Some(image) =>
      FileState(Restored(image.snapshot, empty.telemetryRetention, empty.alertRetention), file, image.savedAt, 0)
  }

  // ---------------------------------------------------------------- one transaction

  predicate RetentionSet(s: Snapshot) {
    s.telemetryRetention > 0 && s.alertRetention > 0
  }

  lemma ApplyKeepsRetention(s: Snapshot, w: Write)
    requires Apply(s, w).Done?
    ensures Apply(s, w).store.telemetryRetention == s.telemetryRetention
    ensures Apply(s, w).store.alertRetention == s.alertRetention
  {
  }

  /** Success leaves the file decoding to memory; any error leaves a memory no query can tell
      from the one before. A refused write needs no rollback: nothing had changed. */
  lemma MutateIsTransaction(st: FileState, w: Write, now: int, fault: Fault)
    requires RetentionSet(st.mem)
    ensures var (st', r) := Mutate(st, w, now, fault);
            match r
            case Committed(image) =>
              st'.file == Some(image) && image.snapshot == st'.mem && Apply(st.mem, w) == Done(st'.mem) && fault == NoFault
            case ApplyError(e) => st' == st && Apply(st.mem, w) == Refused(e)
            case _ => Alike(st'.mem, st.mem) && forall q :: Ask(st'.mem, q) == Ask(st.mem, q)
  {
    RestoredAlike(st.mem, After(st.mem, Apply(st.mem, w)).telemetryRetention, After(st.mem, Apply(st.mem, w)).alertRetention);
    var (st', r) := Mutate(st, w, now, fault);
    if r.PersistError? {
      forall q ensures Ask(st'.mem, q) == Ask(st.mem, q) {
        AlikeAnswers(st'.mem, st.mem, q);
      }
    }
  }

  /** A failed write is counted, and only then. */
  lemma PersistErrorsCounted(st: FileState, w: Write, now: int, fault: Fault)
    ensures var (st', r) := Mutate(st, w, now, fault);
            st'.persistErrors == st.persistErrors + (if r.PersistError? then 1 else 0)
  {
  }

  // ---------------------------------------------------------------- runs

  datatype Op = Op(w: Write, now: int, fault: Fault)

  function Run(st: FileState, ops: seq<Op>): FileState
    decreases ops
  {
    if ops == [] then st else Run(Mutate(st, ops[0].w, ops[0].now, ops[0].fault).0, ops[1..])
  }

  /** The writes of a run that committed. */
  function CommittedWrites(st: FileState, ops: seq<Op>): seq<Write>
    decreases ops
  {
    if ops == [] then []
    else
      var (st', r) := Mutate(st, ops[0].w, ops[0].now, ops[0].fault);
      (if r.Committed? then [ops[0].w] else []) + CommittedWrites(st', ops[1..])
  }

  /** The same writes, performed on a store that never touches a disk. */
  function Replay(s: Snapshot, ws: seq<Write>): Snapshot
    decreases ws
  {
    if ws == [] then s else Replay(After(s, Apply(s, ws[0])), ws[1..])
  }

  lemma AlikeReflexive(a: Snapshot)
    ensures Alike(a, a)
  {
  }

  lemma AlikeTransitive(a: Snapshot, b: Snapshot, c: Snapshot)
    requires Alike(a, b) && Alike(b, c)
    ensures Alike(a, c) && Alike(b, a)
  {
  }

  lemma {:induction false} ReplayAlike(a: Snapshot, b: Snapshot, ws: seq<Write>)
    requires Alike(a, b)
    ensures Alike(Replay(a, ws), Replay(b, ws))
    decreases ws
  {
    if ws != [] {
      AlikeApply(a, b, ws[0]);
      ReplayAlike(After(a, Apply(a, ws[0])), After(b, Apply(b, ws[0])), ws[1..]);
    }
  }

  lemma MutateKeepsRetention(st: FileState, w: Write, now: int, fault: Fault)
    requires RetentionSet(st.mem)
    ensures RetentionSet(Mutate(st, w, now, fault).0.mem)
  {
    if Apply(st.mem, w).Done? { ApplyKeepsRetention(st.mem, w); }
  }

  /** Failed writes never happened: after any run, with any faults, memory cannot be told from
      a plain store that performed the committed writes only. */
  lemma {:induction false} RunReplaysCommitted(st: FileState, ops: seq<Op>)
    requires RetentionSet(st.mem)
    ensures RetentionSet(Run(st, ops).mem)
    ensures Alike(Run(st, ops).mem, Replay(st.mem, CommittedWrites(st, ops)))
    decreases ops
  {
    if ops == [] {
      AlikeReflexive(st.mem);
    } else {
      var op := ops[0];
      var (st', r) := Mutate(st, op.w, op.now, op.fault);
      MutateKeepsRetention(st, op.w, op.now, op.fault);
      MutateIsTransaction(st, op.w, op.now, op.fault);
      RunReplaysCommitted(st', ops[1..]);
      var rest := CommittedWrites(st', ops[1..]);
      var ws := CommittedWrites(st, ops);
      if r.Committed? {
        assert ws[1..] == rest;
      } else {
        assert ws == rest;
        if r.PersistError? {
          ReplayAlike(st'.mem, st.mem, rest);
          AlikeTransitive(Run(st, ops).mem, Replay(st'.mem, rest), Replay(st.mem, rest));
        }
      }
    }
  }

  // ---------------------------------------------------------------- what a run keeps

  function MembersOf(members: set<(ID, ID)>, ws: seq<Write>): set<(ID, ID)>
    decreases ws
  {
    if ws == [] then members else MembersOf(NextMembers(members, ws[0]), ws[1..])
  }

  function HistoryOf(history: map<ID, seq<Telemetry>>, ws: seq<Write>): map<ID, seq<Telemetry>>
    decreases ws
  {
    if ws == [] then history else HistoryOf(NextHistory(history, ws[0]), ws[1..])
  }

  predicate AllAccepted(s: Snapshot, ws: seq<Write>)
    decreases ws
  {
    ws == [] || (Apply(s, ws[0]).Done? && AllAccepted(Apply(s, ws[0]).store, ws[1..]))
  }

  lemma {:induction false} AcceptedAlike(a: Snapshot, b: Snapshot, ws: seq<Write>)
    requires Alike(a, b) && AllAccepted(a, ws)
    ensures AllAccepted(b, ws)
    decreases ws
  {
    if ws != [] {
      AlikeApply(a, b, ws[0]);
      AcceptedAlike(Apply(a, ws[0]).store, Apply(b, ws[0]).store, ws[1..]);
    }
  }

  lemma {:induction false} CommittedAreAccepted(st: FileState, ops: seq<Op>)
    requires RetentionSet(st.mem)
    ensures AllAccepted(st.mem, CommittedWrites(st, ops))
    decreases ops
  {
    if ops != [] {
      var op := ops[0];
      var (st', r) := Mutate(st, op.w, op.now, op.fault);
      MutateKeepsRetention(st, op.w, op.now, op.fault);
      MutateIsTransaction(st, op.w, op.now, op.fault);
      CommittedAreAccepted(st', ops[1..]);
      var rest := CommittedWrites(st', ops[1..]);
      if r.Committed? {
        assert CommittedWrites(st, ops)[1..] == rest;
      } else {
        assert CommittedWrites(st, ops) == rest;
        if r.PersistError? { AcceptedAlike(st'.mem, st.mem, rest); }
      }
    }
  }

  lemma {:induction false} ReplayKeeps(s: Snapshot, ws: seq<Write>, members: set<(ID, ID)>, history: map<ID, seq<Telemetry>>)
    requires AllAccepted(s, ws) && IndexesHold(s, members) && RetentionHolds(s, history)
    ensures IndexesHold(Replay(s, ws), MembersOf(members, ws))
    ensures RetentionHolds(Replay(s, ws), HistoryOf(history, ws))
    decreases ws
  {
    if ws != [] {
      IndexesAfterWrite(s, members, ws[0]);
      RetentionAfterWrite(s, history, ws[0]);
      ReplayKeeps(Apply(s, ws[0]).store, ws[1..], NextMembers(members, ws[0]), NextHistory(history, ws[0]));
    }
  }

  /** Over every run from an empty store the group indexes list exactly the relation the
      committed assignments made, and each device's telemetry is the tail of its committed
      history, whatever failed and was rolled back in between. */
  lemma RunKeepsIndexesAndRetention(retention: int, ops: seq<Op>)
    ensures var st := Load(None, retention);
            var ws := CommittedWrites(st, ops);
            IndexesHold(Run(st, ops).mem, MembersOf({}, ws)) && RetentionHolds(Run(st, ops).mem, HistoryOf(map[], ws))
  {
    var st := Load(None, retention);
    var ws := CommittedWrites(st, ops);
    RunReplaysCommitted(st, ops);
    CommittedAreAccepted(st, ops);
    ReplayKeeps(st.mem, ws, {}, map[]);
    var plain := Replay(st.mem, ws);
    AlikeTransitive(Run(st, ops).mem, plain, plain) by { AlikeReflexive(plain); }
    AlikeIndexes(plain, Run(st, ops).mem, MembersOf({}, ws));
  }

  /** No saved command takes an id of another device's command. */
  predicate OwnIDs(s: Snapshot, ws: seq<Write>)
    decreases ws
  {
    ws == [] || ((ws[0].SaveCommand? ==> OwnID(s, ws[0].command)) && OwnIDs(After(s, Apply(s, ws[0])), ws[1..]))
  }

  lemma {:induction false} ReplayKeepsCommands(s: Snapshot, ws: seq<Write>)
    requires AllAccepted(s, ws) && OwnIDs(s, ws) && CommandsHold(s)
    ensures CommandsHold(Replay(s, ws))
    decreases ws
  {
    if ws != [] {
      CommandsAfterWrite(s, ws[0]);
      ReplayKeepsCommands(Apply(s, ws[0]).store, ws[1..]);
    }
  }

  /** And with command ids that are never reused across devices, every listed id resolves. */
  lemma RunKeepsCommands(retention: int, ops: seq<Op>)
    requires OwnIDs(EmptyStore(retention), CommittedWrites(Load(None, retention), ops))
    ensures CommandsHold(Run(Load(None, retention), ops).mem)
  {
    var st := Load(None, retention);
    RunReplaysCommitted(st, ops);
    CommittedAreAccepted(st, ops);
    ReplayKeepsCommands(st.mem, CommittedWrites(st, ops));
  }

  // ---------------------------------------------------------------- durability

  /** A present file holds what memory holds. */
  ghost predicate Durable(st: FileState) {
    RetentionSet(st.mem) && (st.file.Some? ==> Alike(st.file.value.snapshot, st.mem))
  }

  lemma MutateKeepsDurable(st: FileState, w: Write, now: int, fault: Fault)
    requires Durable(st)
    ensures Durable(Mutate(st, w, now, fault).0)
  {
    MutateKeepsRetention(st, w, now, fault);
    MutateIsTransaction(st, w, now, fault);
    var (st', r) := Mutate(st, w, now, fault);
    if r.Committed? {
      AlikeReflexive(st'.mem);
    } else if r.PersistError? && st'.file.Some? {
      AlikeTransitive(st'.mem, st.mem, st.mem) by { AlikeReflexive(st.mem); }
      AlikeTransitive(st.file.value.snapshot, st.mem, st'.mem);
    }
  }

  lemma {:induction false} RunKeepsDurable(st: FileState, ops: seq<Op>)
    requires Durable(st)
    ensures Durable(Run(st, ops))
    decreases ops
  {
    if ops != [] {
      MutateKeepsDurable(st, ops[0].w, ops[0].now, ops[0].fault);
      RunKeepsDurable(Mutate(st, ops[0].w, ops[0].now, ops[0].fault).0, ops[1..]);
    }
  }

  /** The file disappears exactly when an accepted write gets as far as removing it and the
      rename then fails; it stays away until a write commits. */
  lemma FileLostIff(st: FileState, w: Write, now: int, fault: Fault)
    ensures var (st', r) := Mutate(st, w, now, fault);
            st'.file.None? <==>
              (Apply(st.mem, w).Done? && fault == RenameFails(true)) || (st.file.None? && !r.Committed?)
  {
  }

  predicate Commits(st: FileState, op: Op) {
    Mutate(st, op.w, op.now, op.fault).1.Committed?
  }

  predicate NoneCommits(st: FileState, ops: seq<Op>)
    decreases ops
  {
    ops == [] || (!Commits(st, ops[0]) && NoneCommits(Mutate(st, ops[0].w, ops[0].now, ops[0].fault).0, ops[1..]))
  }

  /** Some accepted write removed the file and failed to rename, and none committed since. */
  predicate LosesFile(st: FileState, ops: seq<Op>)
    decreases ops
  {
    ops != []
    && var next := Mutate(st, ops[0].w, ops[0].now, ops[0].fault).0;
       (LosesFile(next, ops[1..])
        || (Apply(st.mem, ops[0].w).Done? && ops[0].fault == RenameFails(true) && NoneCommits(next, ops[1..])))
  }

  lemma {:induction false} NoFileIff(st: FileState, ops: seq<Op>)
    ensures Run(st, ops).file.None? <==> LosesFile(st, ops) || (st.file.None? && NoneCommits(st, ops))
    decreases ops
  {
    if ops != [] {
      FileLostIff(st, ops[0].w, ops[0].now, ops[0].fault);
      NoFileIff(Mutate(st, ops[0].w, ops[0].now, ops[0].fault).0, ops[1..]);
    }
  }

  /** Over whole runs of a store that was opened on a file: the file is gone exactly when some
      accepted write removed it and then failed to rename, and no write committed since. */
  lemma RunLosesFileIff(image: Image, retention: int, ops: seq<Op>)
    ensures Run(Load(Some(image), retention), ops).file.None? <==> LosesFile(Load(Some(image), retention), ops)
  {
    NoFileIff(Load(Some(image), retention), ops);
  }

  /** A restart brings back what memory held exactly when the file is there, or memory had
      nothing to lose. */
  lemma RestartRecoversIff(retention: int, ops: seq<Op>)
    ensures var st := Run(Load(None, retention), ops);
            Alike(Load(st.file, retention).mem, st.mem) <==> st.file.Some? || Alike(EmptyStore(retention), st.mem)
  {
    var start := Load(None, retention);
    RunKeepsDurable(start, ops);
    var st := Run(start, ops);
    if st.file.Some? {
      var image := st.file.value;
      var empty := EmptyStore(retention);
      RestoredAlike(image.snapshot, empty.telemetryRetention, empty.alertRetention);
      AlikeTransitive(Load(st.file, retention).mem, image.snapshot, st.mem);
    }
  }

  /** The loss is real: two writes and one failed rename lose the first, committed, write. */
  lemma RenameLosesCommitted(t: Tenant, u: Tenant)
    requires t.id != u.id
    ensures var st := Run(Load(None, 200), [Op(CreateTenant(t), 1, NoFault), Op(CreateTenant(u), 2, RenameFails(true))]);
            Ask(st.mem, GetTenant(t.id)) == OneTenant(t) && Ask(Load(st.file, 200).mem, GetTenant(t.id)) == Missing(TenantKind)
  {
    var ops := [Op(CreateTenant(t), 1, NoFault), Op(CreateTenant(u), 2, RenameFails(true))];
    var st := Load(None, 200);
    var st1 := Mutate(st, CreateTenant(t), 1, NoFault).0;
    assert st1.mem.tables.tenants == map[t.id := t];
    var st2 := Mutate(st1, CreateTenant(u), 2, RenameFails(true)).0;
    assert st2.file.None? && t.id in st2.mem.tables.tenants;
    assert Run(st, ops) == Run(st1, ops[1..]) == Run(st2, ops[1..][1..]);
  }

  // ---------------------------------------------------------------- the store itself

  /** What New finds on disk. */
  datatype Disk = NoFile | Unreadable | Undecodable | Holds(image: Image)

  /** New: an error without a path, or when the file is there but cannot be read or decoded. */
  method Open(path: string, disk: Disk, retention: int) returns (files: Files?)
    ensures files == null <==> path == "" || disk.Unreadable? || disk.Undecodable?
    ensures files != null ==>
              fresh(files) && fresh(files.inner)
              && files.State() == Load(if disk.Holds? then Some(disk.image) else None, retention)
  {
    if path == "" {
      return null;
    }
    match disk
    case NoFile => files := new Files(None, retention);
    case Holds(image) => files := new Files(Some(image), retention);
    case _ => files := null;
  }

  class Files {
    const inner: Store
    var file: Option<Image>
    var lastPersistedAt: int
    var persistErrors: int

    function State(): FileState
      reads this, inner
    {
      FileState(inner.Contents(), file, lastPersistedAt, persistErrors)
    }

    constructor (existing: Option<Image>, retention: int)
      ensures State() == Load(existing, retention) && fresh(inner)
    {
      inner := new Store(retention);
      file := existing;
      lastPersistedAt := 0;
      persistErrors := 0;
      new;
      if existing.Some? {
        inner.Restore(existing.value.snapshot);
        lastPersistedAt := existing.value.savedAt;
      }
    }

    method WriteSnapshotFile(image: Image, fault: Fault) returns (ok: bool)
      modifies this
      ensures (State(), ok) == WriteFile(old(State()), image, fault)
    {
      if fault == WriteFails || fault == MarshalFails {
        persistErrors := persistErrors + 1;
        return false;
      }
      if fault.RenameFails? {
        if fault.removed {
          file := None;
        }
        persistErrors := persistErrors + 1;
        return false;
      }
      file := Some(image);
      lastPersistedAt := image.savedAt;
      return true;
    }

    method Persist(now: int, fault: Fault) returns (data: Option<Image>)
      modifies this
      ensures var image := Image(now, old(inner.Contents()));
              (State(), data.Some?) == WriteFile(old(State()), image, fault) && (data.Some? ==> data == Some(image))
    {
      var snapshot := inner.TakeSnapshot();
      var image := Image(now, snapshot);
      if fault == MarshalFails {
        persistErrors := persistErrors + 1;
        return None;
      }
      var ok := WriteSnapshotFile(image, fault);
      return if ok then Some(image) else None;
    }

    /** The second half of mutate: what was applied is persisted, or taken back. */
    method PersistOrRollBack(rollback: Snapshot, now: int, fault: Fault) returns (r: Result)
      modifies this, inner
      ensures (State(), r) == Settle(old(State()), rollback, now, fault)
    {
      var data := Persist(now, fault);
      if data.None? {
        inner.Restore(rollback);
        return PersistError;
      }
      return Committed(data.value);
    }

    /** Every write of the store's interface goes through here. */
    method MutateWith(w: Write, now: int, fault: Fault) returns (r: Result)
      modifies this, inner
      ensures (State(), r) == Mutate(old(State()), w, now, fault)
    {
      var rollback := inner.TakeSnapshot();
      var error := inner.Perform(w);
      if error.Some? {
        return ApplyError(error.value);
      }
      r := PersistOrRollBack(rollback, now, fault);
    }

    method ApplyReplicaSnapshot(data: Option<Image>, fault: Fault) returns (r: Result)
      modifies this, inner
      ensures (State(), r) == ApplyReplica(old(State()), data, fault)
    {
      if data.None? {
        return DecodeError;
      }
      var ok := WriteSnapshotFile(data.value, fault);
      if !ok {
        return PersistError;
      }
      inner.Restore(data.value.snapshot);
      return Committed(data.value);
    }
  }
}
