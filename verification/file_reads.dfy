/** Queries to the file-backed store while a write is under way (internal/store/file/store.go).
    Writes exclude each other, but Get and List read the inner store without that lock: they may
    come between the applying of a write and its persisting or roll-back. */
module FileReads {
  import opened Model
  import opened MemoryStore
  import opened FileStore

  /** Whether a write has been applied and neither persisted nor taken back yet. */
  datatype Phase = Idle | Applied(w: Write, before: Snapshot)

  datatype State = State(st: FileState, phase: Phase)

  datatype Step =
    | Begin(w: Write)                 // snapshot and apply; a refused write ends here
    | Finish(now: int, fault: Fault)  // persist, or roll back
    | Read(q: Query)

  predicate Enabled(s: State, step: Step) {
    match step
    case Begin(_) => s.phase.Idle?
    case Finish(_, _) => s.phase.Applied?
    case Read(_) => true
  }

  function Next(s: State, step: Step): State
    requires Enabled(s, step)
  {
    match step
    case Begin(w) =>
      (match Apply(s.st.mem, w)
       case Refused(_) => s
       case Done(m) => State(s.st.(mem := m), Applied(w, s.st.mem)))
    case Finish(now, fault) =>
      State(Settle(s.st, s.phase.before, now, fault).0, Idle)
    case Read(_) => s
  }

  predicate Possible(s: State, steps: seq<Step>)
    decreases steps
  {
    steps == [] || (Enabled(s, steps[0]) && Possible(Next(s, steps[0]), steps[1..]))
  }

  function End(s: State, steps: seq<Step>): State
    requires Possible(s, steps)
    decreases steps
  {
    if steps == [] then s else End(Next(s, steps[0]), steps[1..])
  }

  // ---------------------------------------------------------------- writes, with queries between

  /** The two halves make up the whole write. */
  lemma HalvesAreMutate(st: FileState, w: Write, now: int, fault: Fault)
    ensures var s := Next(State(st, Idle), Begin(w));
            if s.phase.Idle? then s.st == st == Mutate(st, w, now, fault).0
            else Next(s, Finish(now, fault)) == State(Mutate(st, w, now, fault).0, Idle)
  {
  }

  /** The writes of a run, as they finish. */
  function Writes(s: State, steps: seq<Step>): seq<Op>
    requires Possible(s, steps)
    decreases steps
  {
    if steps == [] then []
    else (if steps[0].Finish? then [Op(s.phase.w, steps[0].now, steps[0].fault)] else []) + Writes(Next(s, steps[0]), steps[1..])
  }

  /** What the store was before the write under way. */
  function Settled(s: State): FileState {
    if s.phase.Applied? then s.st.(mem := s.phase.before) else s.st
  }

  /** What is under way is the write, applied to the store before it. */
  predicate UnderWay(s: State) {
    s.phase.Applied? ==> Apply(s.phase.before, s.phase.w) == Done(s.st.mem)
  }

  lemma {:induction false} RunIsWrites(s: State, steps: seq<Step>)
    requires UnderWay(s) && Possible(s, steps)
    ensures UnderWay(End(s, steps)) && Settled(End(s, steps)) == FileStore.Run(Settled(s), Writes(s, steps))
    decreases steps
  {
    if steps != [] {
      var next := Next(s, steps[0]);
      RunIsWrites(next, steps[1..]);
      if steps[0].Finish? {
        var ops := Writes(s, steps);
        var op := Op(s.phase.w, steps[0].now, steps[0].fault);
        assert ops[0] == op && ops[1..] == Writes(next, steps[1..]);
        assert Mutate(Settled(s), op.w, op.now, op.fault).0 == next.st;
      } else {
        assert Writes(s, steps) == Writes(next, steps[1..]);
      }
    }
  }

  // ---------------------------------------------------------------- what a query answers

  /** The write under way is going to be persisted. */
  predicate WillPersist(steps: seq<Step>) {
    steps != [] && (if steps[0].Finish? then steps[0].fault.NoFault? else WillPersist(steps[1..]))
  }

  /** A plain store, which only ever performs the writes that commit, after the one under way. */
  function Committed(s: State, steps: seq<Step>, plain: Snapshot): Snapshot {
    if s.phase.Applied? && WillPersist(steps) then After(plain, Apply(plain, s.phase.w)) else plain
  }

  /** Every query of the run answers what the plain store answers once the write under way has
      ended. */
  predicate AnswersCommitted(s: State, steps: seq<Step>, plain: Snapshot)
    requires Possible(s, steps)
    decreases steps
  {
    steps == []
    || ((steps[0].Read? ==> Ask(s.st.mem, steps[0].q) == Ask(Committed(s, steps, plain), steps[0].q))
        && AnswersCommitted(Next(s, steps[0]), steps[1..], if steps[0].Finish? then Committed(s, steps, plain) else plain))
  }

  /** Every query that comes while a write is under way that will be taken back is one whose answer
      the write does not change. */
  predicate UntouchedByRolledBack(s: State, steps: seq<Step>)
    requires Possible(s, steps)
    decreases steps
  {
    steps == []
    || ((steps[0].Read? && s.phase.Applied? && !WillPersist(steps) ==>
           Ask(s.st.mem, steps[0].q) == Ask(s.phase.before, steps[0].q))
        && UntouchedByRolledBack(Next(s, steps[0]), steps[1..]))
  }

  /** The plain store cannot be told from the store before the write under way. */
  ghost predicate Tracks(s: State, plain: Snapshot) {
    UnderWay(s) && RetentionSet(Settled(s).mem) && Alike(Settled(s).mem, plain)
  }

  lemma FinishTracks(s: State, now: int, fault: Fault, steps: seq<Step>, plain: Snapshot)
    requires Tracks(s, plain) && s.phase.Applied? && steps != [] && steps[0] == Finish(now, fault)
    ensures Tracks(Next(s, Finish(now, fault)), Committed(s, steps, plain))
  {
    var st, w := Settled(s), s.phase.w;
    MutateIsTransaction(st, w, now, fault);
    MutateKeepsRetention(st, w, now, fault);
    AlikeApply(st.mem, plain, w);
    var next := Next(s, Finish(now, fault));
    assert next.st == Mutate(st, w, now, fault).0;
    if !fault.NoFault? {
      AlikeTransitive(next.st.mem, st.mem, plain);
    }
  }

  lemma StepTracks(s: State, step: Step, rest: seq<Step>, plain: Snapshot)
    requires Tracks(s, plain) && Enabled(s, step)
    ensures Tracks(Next(s, step), if step.Finish? then Committed(s, [step] + rest, plain) else plain)
  {
    match step
    case Finish(now, fault) => FinishTracks(s, now, fault, [step] + rest, plain);
    case _ =>
  }

  /** What one query answers, against the plain store. */
  lemma ReadStandsIff(s: State, steps: seq<Step>, q: Query, plain: Snapshot)
    requires Tracks(s, plain)
    ensures Ask(s.st.mem, q) == Ask(Committed(s, steps, plain), q)
            <==> (s.phase.Applied? && !WillPersist(steps) ==> Ask(s.st.mem, q) == Ask(s.phase.before, q))
  {
    AlikeAnswers(Settled(s).mem, plain, q);
    if s.phase.Applied? {
      AlikeApply(s.phase.before, plain, s.phase.w);
      AlikeAnswers(s.st.mem, After(plain, Apply(plain, s.phase.w)), q);
    }
  }

  /** Over every interleaving of queries with writes and their faults: each query answers as a plain
      store that performs exactly the committed writes, the one under way included if it commits,
      exactly when no query sees a difference made by a write that is then taken back. */
  lemma {:induction false} AnswersCommittedIff(s: State, steps: seq<Step>, plain: Snapshot)
    requires Tracks(s, plain) && Possible(s, steps)
    ensures AnswersCommitted(s, steps, plain) <==> UntouchedByRolledBack(s, steps)
    decreases steps
  {
    if steps != [] {
      var step, rest := steps[0], steps[1..];
      assert steps == [step] + rest;
      StepTracks(s, step, rest, plain);
      AnswersCommittedIff(Next(s, step), rest, if step.Finish? then Committed(s, steps, plain) else plain);
      if step.Read? {
        ReadStandsIff(s, steps, step.q, plain);
      }
    }
  }

  /** It happens: a query finds a tenant whose write then fails to persist, and is gone. */
  lemma DirtyRead(t: Tenant, now: int)
    ensures var s0 := State(Load(None, 200), Idle);
            && Enabled(s0, Begin(CreateTenant(t)))
            && var s1 := Next(s0, Begin(CreateTenant(t)));
               && Ask(s1.st.mem, GetTenant(t.id)) == OneTenant(t) && Enabled(s1, Finish(now, WriteFails))
               && var s2 := Next(s1, Finish(now, WriteFails));
                  Ask(s2.st.mem, GetTenant(t.id)) == Missing(TenantKind) && s2.phase.Idle?
  {
    var s0 := State(Load(None, 200), Idle);
    var s1 := Next(s0, Begin(CreateTenant(t)));
    assert s1.st.mem.tables.tenants == map[t.id := t];
  }
}
