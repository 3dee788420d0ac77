/** OTA campaign accounting: the counters that dispatchOTACampaign
    (internal/core/multitenant_ota.go) and updateCampaignFromCommandAck
    (internal/core/automation.go) keep, under every interleaving of one dispatch with any number
    of acknowledgements. An acknowledgement reads the stored campaign and later writes it back;
    the dispatch counts on a copy of its own and saves it at the end. */
module OtaAccounting {
  import opened Model

  // ---------------------------------------------------------------- the two updates

  /** The status switch after the sends. */
  function Concluded(c: Campaign): Campaign {
    c.(status := if c.dispatched > 0 && c.failed == 0 then Running else if c.dispatched > 0 then Partial else Pending)
  }

  /** updateCampaignFromCommandAck on the campaign it has read. */
  function Counted(c: Campaign, failed: bool): Campaign {
    var c' := if failed then c.(failed := c.failed + 1) else c.(acked := c.acked + 1);
    if c'.acked + c'.failed >= c'.total && c'.total > 0 then c'.(status := if c'.failed > 0 then Partial else Completed)
    else if c'.dispatched > 0 then c'.(status := Running)
    else c'
  }

  // ---------------------------------------------------------------- interleavings

  datatype Ack = Ack(copy: Campaign, failed: bool)

  /** How an attempt at one device ends. A command that is delivered but whose status cannot be
      noted is counted as failed all the same. */
  datatype Outcome = NotDelivered | DeliveredUnnoted | DeliveredNoted

  /** `remaining` devices are still to be sent to; `copy` is the dispatch's; `sent` and `unnoted`
      are the commands delivered and counted as sent, and as failed; `acks` are the acknowledgements
      under way, numbered as they begin, and `begun` the commands acknowledged so far. */
  datatype System = System(
    stored: Campaign,
    copy: Campaign,
    remaining: nat,
    saved: bool,
    sent: set<ID>,
    unnoted: set<ID>,
    begun: set<ID>,
    started: nat,
    acks: map<nat, Ack>,
    completed: nat)

  datatype Step =
    | SendNext(command: ID, outcome: Outcome)
    | Save
    | BeginAck(ack: nat, command: ID, failed: bool)
    | EndAck(ack: nat)
    | LoseAck(ack: nat)   // the campaign with the acknowledgement counted cannot be saved

  /** A campaign as it is first stored, about to be sent to `devices` devices. */
  function Start(campaign: Campaign, devices: nat): System {
    System(campaign, campaign.(total := devices, dispatched := 0, failed := 0), devices, false, {}, {}, {}, 0, map[], 0)
  }

  predicate Fresh(c: Campaign) {
    c.status == Pending && c.total == 0 && c.dispatched == 0 && c.acked == 0 && c.failed == 0
  }

  /** Command ids are fresh; any command may be acknowledged, any number of times and at once. */
  predicate Enabled(y: System, step: Step) {
    match step
    case SendNext(c, _) => !y.saved && y.remaining > 0 && c !in y.sent + y.unnoted + y.begun
    case Save => !y.saved && y.remaining == 0
    case BeginAck(k, _, _) => k == y.started
    case EndAck(k) => k in y.acks
    case LoseAck(k) => k in y.acks
  }

  function Next(y: System, step: Step): System
    requires Enabled(y, step)
  {
    match step
    case SendNext(c, outcome) =>
      if outcome.DeliveredNoted? then
        y.(copy := y.copy.(dispatched := y.copy.dispatched + 1), remaining := y.remaining - 1, sent := y.sent + {c})
      else
        y.(copy := y.copy.(failed := y.copy.failed + 1), remaining := y.remaining - 1,
           unnoted := if outcome.DeliveredUnnoted? then y.unnoted + {c} else y.unnoted)
    case Save => y.(stored := Concluded(y.copy), copy := Concluded(y.copy), saved := true)
    case BeginAck(k, c, failed) =>
      y.(acks := y.acks[k := Ack(y.stored, failed)], started := y.started + 1, begun := y.begun + {c})
    case EndAck(k) =>
      y.(stored := Counted(y.acks[k].copy, y.acks[k].failed), acks := y.acks - {k}, completed := y.completed + 1)
    case LoseAck(k) => y.(acks := y.acks - {k})
  }

  predicate Possible(y: System, steps: seq<Step>)
    decreases steps
  {
    steps == [] || (Enabled(y, steps[0]) && Possible(Next(y, steps[0]), steps[1..]))
  }

  function Run(y: System, steps: seq<Step>): System
    requires Possible(y, steps)
    decreases steps
  {
    if steps == [] then y else Run(Next(y, steps[0]), steps[1..])
  }

  lemma RunCons(y: System, step: Step, rest: seq<Step>)
    requires Enabled(y, step) && Possible(Next(y, step), rest)
    ensures Possible(y, [step] + rest) && Run(y, [step] + rest) == Run(Next(y, step), rest)
  {
    assert ([step] + rest)[1..] == rest;
  }

  /** Only delivered commands are acknowledged, each at most once, and only once the dispatch has
      been saved. */
  predicate Orderly(y: System, step: Step) {
    step.BeginAck? ==> y.saved && step.command in y.sent + y.unnoted && step.command !in y.begun
  }

  predicate OrderlyRun(y: System, steps: seq<Step>)
    requires Possible(y, steps)
    decreases steps
  {
    steps == [] || (Orderly(y, steps[0]) && OrderlyRun(Next(y, steps[0]), steps[1..]))
  }

  // ---------------------------------------------------------------- orderly runs

  predicate StatusExact(c: Campaign) {
    c.status == Completed <==> c.total > 0 && c.failed == 0 && c.acked == c.total
  }

  predicate WithinTotal(c: Campaign) {
    c.acked + c.failed <= c.total
  }

  /** A stored or read campaign after the save: the dispatch's totals stand, and no more has been
      counted than failed sends and completed acknowledgements. */
  predicate Accounted(y: System, c: Campaign) {
    && c.total == y.copy.total && c.dispatched == y.copy.dispatched
    && c.acked >= 0 && c.failed >= y.copy.failed
    && c.acked + c.failed <= y.copy.failed + y.completed
    && StatusExact(c)
  }

  /** How many commands there are, and acknowledgements of them. */
  predicate Sizes(y: System) {
    && y.copy.dispatched == |y.sent| && |y.unnoted| <= y.copy.failed && y.sent !! y.unnoted
    && y.begun <= y.sent + y.unnoted
    && y.completed + |y.acks| <= |y.begun|
  }

  predicate Totals(y: System) {
    && y.copy.failed >= 0 && y.copy.acked == 0
    && y.copy.total == y.copy.dispatched + y.copy.failed + y.remaining
    && (!y.saved ==> y.begun == {} && y.acks == map[] && y.completed == 0 && Fresh(y.stored))
    && (y.saved ==> y.remaining == 0)
    && (forall k :: k in y.acks ==> k < y.started)
  }

  ghost predicate AllAccounted(y: System) {
    y.saved ==> Accounted(y, y.stored) && forall k :: k in y.acks ==> Accounted(y, y.acks[k].copy)
  }

  ghost predicate Inv(y: System) {
    Sizes(y) && Totals(y) && AllAccounted(y)
  }

  lemma SubsetSize<T>(a: set<T>, b: set<T>)
    requires a <= b
    ensures |a| <= |b|
  {
    assert |b| == |a| + |b - a| by { assert b == a + (b - a); }
  }

  /** Nothing is counted past the total but commands counted as failed before they were acknowledged. */
  lemma BegunBound(y: System)
    requires Inv(y)
    ensures |y.begun| <= |y.sent| + |y.begun * y.unnoted|
    ensures y.copy.failed == 0 ==> |y.begun| <= |y.sent|
  {
    assert y.begun == y.begun * y.sent + y.begun * y.unnoted;
    SubsetSize(y.begun * y.sent, y.sent);
    SubsetSize(y.begun * y.unnoted, y.unnoted);
    assert |y.begun| == |y.begun * y.sent| + |y.begun * y.unnoted|;
  }

  lemma CountedKeeps(c: Campaign, failed: bool)
    requires c.total > 0 && c.acked >= 0 && c.failed >= 0 && (c.failed == 0 ==> c.acked < c.total) && StatusExact(c)
    ensures StatusExact(Counted(c, failed))
  {
  }

  lemma AckRemoved(acks: map<nat, Ack>, k: nat)
    requires k in acks
    ensures |acks - {k}| == |acks| - 1
  {
    assert acks.Keys == (acks - {k}).Keys + {k};
    assert |(acks - {k}).Keys| == |acks.Keys| - 1;
  }

  lemma AckAdded(acks: map<nat, Ack>, k: nat, ack: Ack)
    requires k !in acks
    ensures |acks[k := ack]| == |acks| + 1
  {
    assert acks[k := ack] - {k} == acks;
    AckRemoved(acks[k := ack], k);
  }

  lemma SendSizes(y: System, c: ID, outcome: Outcome)
    requires Sizes(y) && Enabled(y, SendNext(c, outcome))
    ensures Sizes(Next(y, SendNext(c, outcome)))
  {
    assert |y.sent + {c}| == |y.sent| + 1 && |y.unnoted + {c}| == |y.unnoted| + 1;
  }

  lemma BeginSizes(y: System, k: nat, c: ID, failed: bool)
    requires Sizes(y) && Enabled(y, BeginAck(k, c, failed)) && Orderly(y, BeginAck(k, c, failed)) && k !in y.acks
    ensures Sizes(Next(y, BeginAck(k, c, failed)))
  {
    AckAdded(y.acks, k, Ack(y.stored, failed));
    assert |y.begun + {c}| == |y.begun| + 1;
  }

  lemma EndSizes(y: System, k: nat)
    requires Sizes(y) && k in y.acks
    ensures Sizes(Next(y, EndAck(k))) && Sizes(Next(y, LoseAck(k)))
  {
    AckRemoved(y.acks, k);
  }

  lemma StepSizes(y: System, step: Step)
    requires Sizes(y) && y.started !in y.acks && Enabled(y, step) && Orderly(y, step)
    ensures Sizes(Next(y, step))
  {
    match step
    case SendNext(c, outcome) => SendSizes(y, c, outcome);
    case Save =>
    case BeginAck(k, c, failed) => BeginSizes(y, k, c, failed);
    case EndAck(k) => EndSizes(y, k);
    case LoseAck(k) => EndSizes(y, k);
  }

  lemma StepTotals(y: System, step: Step)
    requires Totals(y) && Enabled(y, step) && Orderly(y, step)
    ensures Totals(Next(y, step))
  {
  }

  /** What an acknowledgement has read leaves room for it. */
  lemma RoomLeft(y: System, k: nat)
    requires Inv(y) && k in y.acks
    ensures y.saved && |y.acks| > 0
    ensures var copy := y.acks[k].copy; copy.total > 0 && (copy.failed == 0 ==> copy.acked < copy.total)
  {
    AckRemoved(y.acks, k);
    BegunBound(y);
    SubsetSize(y.begun, y.sent + y.unnoted);
    assert |y.sent + y.unnoted| == |y.sent| + |y.unnoted|;
    assert Accounted(y, y.acks[k].copy);
  }

  lemma EndAccounted(y: System, k: nat)
    requires Inv(y) && k in y.acks
    ensures AllAccounted(Next(y, EndAck(k)))
  {
    RoomLeft(y, k);
    assert Accounted(y, y.acks[k].copy);
    CountedKeeps(y.acks[k].copy, y.acks[k].failed);
  }

  lemma StepAccounted(y: System, step: Step)
    requires Inv(y) && Enabled(y, step) && Orderly(y, step)
    ensures AllAccounted(Next(y, step))
  {
    match step
    case SendNext(_, _) =>
    case Save =>
    case BeginAck(_, _, _) =>
    case EndAck(k) => EndAccounted(y, k);
    case LoseAck(_) =>
  }

  lemma StepKeepsInv(y: System, step: Step)
    requires Inv(y) && Enabled(y, step) && Orderly(y, step)
    ensures Inv(Next(y, step))
  {
    StepSizes(y, step);
    StepTotals(y, step);
    StepAccounted(y, step);
  }

  lemma {:induction false} RunKeepsInv(y: System, steps: seq<Step>)
    requires Inv(y) && Possible(y, steps) && OrderlyRun(y, steps)
    ensures Inv(Run(y, steps))
    decreases steps
  {
    if steps != [] {
      StepKeepsInv(y, steps[0]);
      RunKeepsInv(Next(y, steps[0]), steps[1..]);
    }
  }

  /** Accounting in every orderly run, however its acknowledgements overlap or get lost: once the
      dispatch is saved, Dispatched and the failed sends make up Total; Acked + Failed exceeds Total
      by no more than the acknowledged commands that had been counted as failed; and the status is
      completed exactly when Total > 0, nothing failed and Acked = Total. */
  lemma OrderlyAccounts(campaign: Campaign, devices: nat, steps: seq<Step>)
    requires Fresh(campaign) && Possible(Start(campaign, devices), steps) && OrderlyRun(Start(campaign, devices), steps)
    ensures var y := Run(Start(campaign, devices), steps);
            y.saved ==>
              && y.stored.total == devices == y.stored.dispatched + y.copy.failed
              && y.stored.dispatched == |y.sent|
              && 0 <= y.stored.acked + y.stored.failed <= y.stored.total + |y.begun * y.unnoted|
              && StatusExact(y.stored)
    ensures var y := Run(Start(campaign, devices), steps);
            !y.saved ==> WithinTotal(y.stored) && StatusExact(y.stored)
  {
    RunKeepsInv(Start(campaign, devices), steps);
    TotalStands(Start(campaign, devices), steps);
    BegunBound(Run(Start(campaign, devices), steps));
  }

  lemma {:induction false} TotalStands(y: System, steps: seq<Step>)
    requires Possible(y, steps)
    ensures Run(y, steps).copy.total == y.copy.total
    decreases steps
  {
    if steps != [] {
      TotalStands(Next(y, steps[0]), steps[1..]);
    }
  }

  /** The acknowledgement of every command of the set, one after the other. */
  lemma {:induction false} AckAll(y: System, commands: set<ID>) returns (steps: seq<Step>)
    requires y.saved && commands <= y.sent + y.unnoted && commands !! y.begun
    ensures Possible(y, steps) && OrderlyRun(y, steps)
    ensures var y' := Run(y, steps);
            && y'.stored.total == y.stored.total
            && y'.stored.acked + y'.stored.failed == y.stored.acked + y.stored.failed + |commands|
    decreases |commands|
  {
    if commands == {} {
      steps := [];
    } else {
      var c :| c in commands;
      var begin, end := BeginAck(y.started, c, false), EndAck(y.started);
      var y1 := Next(y, begin);
      var y2 := Next(y1, end);
      var rest := AckAll(y2, commands - {c});
      steps := [begin] + ([end] + rest);
      RunCons(y1, end, rest);
      RunCons(y, begin, [end] + rest);
      OrderlyCons(y1, end, rest);
      OrderlyCons(y, begin, [end] + rest);
    }
  }

  lemma OrderlyCons(y: System, step: Step, rest: seq<Step>)
    requires Enabled(y, step) && Possible(Next(y, step), rest) && Orderly(y, step) && OrderlyRun(Next(y, step), rest)
    ensures Possible(y, [step] + rest) && OrderlyRun(y, [step] + rest)
  {
    assert ([step] + rest)[1..] == rest;
  }

  lemma {:induction false} CommandsStand(y: System, steps: seq<Step>)
    requires Possible(y, steps) && y.saved
    ensures Run(y, steps).saved && Run(y, steps).sent == y.sent && Run(y, steps).unnoted == y.unnoted
    decreases steps
  {
    if steps != [] {
      CommandsStand(Next(y, steps[0]), steps[1..]);
    }
  }

  lemma NotedStayWithin(y: System, more: seq<Step>)
    requires Inv(y) && y.saved && y.unnoted == {} && Possible(y, more) && OrderlyRun(y, more)
    ensures WithinTotal(Run(y, more).stored)
  {
    RunKeepsInv(y, more);
    CommandsStand(y, more);
    BegunBound(Run(y, more));
    assert Run(y, more).begun * {} == {};
  }

  lemma UnnotedExceed(y: System) returns (more: seq<Step>)
    requires Inv(y) && y.saved && y.begun == {} && y.unnoted != {}
    requires y.stored.acked + y.stored.failed == y.copy.failed && y.stored.total == |y.sent| + y.copy.failed
    ensures Possible(y, more) && OrderlyRun(y, more) && !WithinTotal(Run(y, more).stored)
  {
    more := AckAll(y, y.sent + y.unnoted);
    assert |y.sent + y.unnoted| == |y.sent| + |y.unnoted|;
  }

  /** Every orderly continuation of a saved dispatch keeps Acked + Failed within Total exactly when
      no command that was delivered has been counted as failed. */
  lemma WithinTotalIff(campaign: Campaign, devices: nat, steps: seq<Step>)
    requires Fresh(campaign) && Possible(Start(campaign, devices), steps) && OrderlyRun(Start(campaign, devices), steps)
    requires Enabled(Run(Start(campaign, devices), steps), Save)
    ensures var y := Next(Run(Start(campaign, devices), steps), Save);
            (forall more :: Possible(y, more) && OrderlyRun(y, more) ==> WithinTotal(Run(y, more).stored)) <==> y.unnoted == {}
  {
    RunKeepsInv(Start(campaign, devices), steps);
    var y0 := Run(Start(campaign, devices), steps);
    StepKeepsInv(y0, Save);
    var y := Next(y0, Save);
    if y.unnoted == {} {
      forall more | Possible(y, more) && OrderlyRun(y, more) ensures WithinTotal(Run(y, more).stored) {
        NotedStayWithin(y, more);
      }
    } else {
      var more := UnnotedExceed(y);
      assert !WithinTotal(Run(y, more).stored);
    }
  }

  /** A dispatch whose final save fails leaves the campaign without totals, so that the first
      acknowledgement counted exceeds them, and none does before. */
  lemma {:induction false} NeverSavedIff(y: System, steps: seq<Step>)
    requires Possible(y, steps) && Save !in steps && y.stored.total == 0 && y.stored.acked >= 0 && y.stored.failed >= 0
    requires forall k :: k in y.acks ==> y.acks[k].copy.total == 0 && y.acks[k].copy.acked >= 0 && y.acks[k].copy.failed >= 0
    ensures var y' := Run(y, steps);
            && y'.stored.total == 0
            && (WithinTotal(y'.stored) <==> WithinTotal(y.stored) && forall k :: EndAck(k) !in steps)
    decreases steps
  {
    if steps != [] {
      var step, rest := steps[0], steps[1..];
      assert step in steps && forall k :: EndAck(k) in steps <==> EndAck(k) in rest || step == EndAck(k);
      NeverSavedIff(Next(y, step), rest);
    }
  }

  // ---------------------------------------------------------------- one thing at a time

  /** The same system when each acknowledgement is handled without another step in between. */
  datatype Event = Sent(command: ID, outcome: Outcome) | Saved | Acknowledged(command: ID, failed: bool)

  function After(y: System, e: Event): System {
    match e
    case Sent(c, outcome) => if Enabled(y, SendNext(c, outcome)) then Next(y, SendNext(c, outcome)) else y
    case Saved => if Enabled(y, Save) then Next(y, Save) else y
    case Acknowledged(c, failed) => Next(Next(y, BeginAck(y.started, c, failed)), EndAck(y.started))
  }

  function RunEvents(y: System, events: seq<Event>): System
    decreases events
  {
    if events == [] then y else RunEvents(After(y, events[0]), events[1..])
  }

  /** Acknowledgements handled before and after the save. */
  function AckCount(events: seq<Event>): nat {
    if events == [] then 0 else (if events[0].Acknowledged? then 1 else 0) + AckCount(events[1..])
  }

  function FailCount(events: seq<Event>): nat {
    if events == [] then 0 else (if events[0].Acknowledged? && events[0].failed then 1 else 0) + FailCount(events[1..])
  }

  /** After the save each acknowledgement adds exactly one, whatever it acknowledges. */
  lemma {:induction false} SavedCounts(y: System, events: seq<Event>)
    requires y.saved && y.acks == map[]
    ensures var y' := RunEvents(y, events);
            && y'.saved && y'.stored.total == y.stored.total && y'.stored.dispatched == y.stored.dispatched
            && y'.stored.failed == y.stored.failed + FailCount(events)
            && y'.stored.acked == y.stored.acked + AckCount(events) - FailCount(events)
    decreases events
  {
    if events != [] {
      var next := After(y, events[0]);
      if events[0].Acknowledged? {
        assert next.acks == map[];
      }
      SavedCounts(next, events[1..]);
    }
  }

  /** Before the save nothing an acknowledgement writes reaches the dispatch's copy. */
  lemma {:induction false} CopyUntouched(y: System, events: seq<Event>)
    requires !y.saved && y.acks == map[] && forall i :: 0 <= i < |events| ==> !events[i].Saved?
    requires 0 <= y.copy.dispatched && 0 <= y.copy.failed && y.copy.total == y.copy.dispatched + y.copy.failed + y.remaining
    ensures var y' := RunEvents(y, events);
            && !y'.saved && y'.acks == map[] && y'.copy.acked == y.copy.acked
            && 0 <= y'.copy.dispatched && 0 <= y'.copy.failed
            && y'.copy.total == y.copy.total == y'.copy.dispatched + y'.copy.failed + y'.remaining
    decreases events
  {
    if events != [] {
      var next := After(y, events[0]);
      if events[0].Acknowledged? {
        assert next.acks == map[];
      }
      assert forall i :: 0 <= i < |events| - 1 ==> events[1..][i] == events[i + 1];
      CopyUntouched(next, events[1..]);
    }
  }

  lemma {:induction false} RunEventsSplit(y: System, a: seq<Event>, b: seq<Event>)
    ensures RunEvents(y, a + b) == RunEvents(RunEvents(y, a), b)
    decreases a
  {
    if a == [] {
      assert a + b == b;
    } else {
      assert (a + b)[0] == a[0] && (a + b)[1..] == a[1..] + b;
      RunEventsSplit(After(y, a[0]), a[1..], b);
    }
  }

  /** When nothing overlaps: the stored counters are the failed sends plus the acknowledgements
      handled after the save. Those handled before it are lost, and an acknowledgement that
      comes twice counts twice. */
  lemma SequentialCounts(campaign: Campaign, devices: nat, early: seq<Event>, late: seq<Event>)
    requires Fresh(campaign) && forall i :: 0 <= i < |early| ==> !early[i].Saved?
    requires RunEvents(Start(campaign, devices), early).remaining == 0
    ensures var copy := RunEvents(Start(campaign, devices), early).copy;
            var c := RunEvents(Start(campaign, devices), early + [Saved] + late).stored;
            && c.total == devices == c.dispatched + copy.failed && c.dispatched == copy.dispatched
            && c.failed == copy.failed + FailCount(late)
            && c.acked == AckCount(late) - FailCount(late)
  {
    var y0 := Start(campaign, devices);
    CopyUntouched(y0, early);
    var y1 := RunEvents(y0, early);
    var y2 := After(y1, Saved);
    RunEventsSplit(y0, early + [Saved], late);
    RunEventsSplit(y0, early, [Saved]);
    assert RunEvents(y1, [Saved]) == y2 by { assert [Saved][1..] == []; }
    SavedCounts(y2, late);
  }

  /** So, when nothing overlaps, Acked + Failed stays within Total exactly when no more
      acknowledgements follow the save than commands were delivered, and every acknowledgement
      is counted exactly when none came before the save. */
  lemma SequentialIff(campaign: Campaign, devices: nat, early: seq<Event>, late: seq<Event>)
    requires Fresh(campaign) && forall i :: 0 <= i < |early| ==> !early[i].Saved?
    requires RunEvents(Start(campaign, devices), early).remaining == 0
    ensures var copy := RunEvents(Start(campaign, devices), early).copy;
            var c := RunEvents(Start(campaign, devices), early + [Saved] + late).stored;
            && (c.acked + c.failed <= c.total <==> AckCount(late) <= c.dispatched)
            && (c.acked + c.failed == copy.failed + AckCount(early + [Saved] + late) <==> AckCount(early) == 0)
  {
    SequentialCounts(campaign, devices, early, late);
    AckCountSplit(early + [Saved], late);
    AckCountSplit(early, [Saved]);
    assert AckCount([Saved]) == 0;
  }

  lemma {:induction false} AckCountSplit(a: seq<Event>, b: seq<Event>)
    ensures AckCount(a + b) == AckCount(a) + AckCount(b)
    decreases a
  {
    if a == [] {
      assert a + b == b;
    } else {
      assert (a + b)[0] == a[0] && (a + b)[1..] == a[1..] + b;
      AckCountSplit(a[1..], b);
    }
  }

  // ---------------------------------------------------------------- overlaps, exactly

  /** The next acknowledgement to complete is this one, or this one never completes. */
  predicate CompletesFirst(steps: seq<Step>, k: nat) {
    if steps == [] then true
    else if steps[0].EndAck? then steps[0].ack == k || EndAck(k) !in steps
    else CompletesFirst(steps[1..], k)
  }

  /** No acknowledgement completes between the read and the write of another. */
  predicate NonOverlapping(steps: seq<Step>) {
    steps == []
    || ((steps[0].BeginAck? ==> CompletesFirst(steps[1..], steps[0].ack)) && NonOverlapping(steps[1..]))
  }

  /** A stored or read campaign that carries the dispatch's total and counts every one of its
      failed sends and of the acknowledgements completed since. */
  predicate Exact(c: Campaign, total: int, counted: int) {
    c.total == total && c.acked + c.failed == counted
  }

  predicate Bounded(c: Campaign, total: int, counted: int) {
    c.total == total ==> c.acked + c.failed <= counted
  }

  /** No campaign with the total counts more than there was; and an exact one that an
      acknowledgement has read is still what is stored. `base` is what was counted when none had
      completed. */
  ghost predicate Tracked(y: System, total: int, base: int) {
    && y.saved
    && Bounded(y.stored, total, base + y.completed)
    && forall k :: k in y.acks ==>
         k < y.started && Bounded(y.acks[k].copy, total, base + y.completed)
         && (Exact(y.acks[k].copy, total, base + y.completed) ==> Exact(y.stored, total, base + y.completed))
  }

  /** What is left to happen keeps the count exact: it is exact now, no two acknowledgements still
      to begin overlap, and of those under way the ones that read an exact campaign complete
      undisturbed and the others never do. */
  ghost predicate StaysExact(y: System, steps: seq<Step>, total: int, base: int) {
    && Exact(y.stored, total, base + y.completed)
    && NonOverlapping(steps)
    && forall k :: k in y.acks ==>
         if Exact(y.acks[k].copy, total, base + y.completed) then CompletesFirst(steps, k) else EndAck(k) !in steps
  }

  lemma TrackedStep(y: System, step: Step, total: int, base: int)
    requires Tracked(y, total, base) && Enabled(y, step)
    ensures Tracked(Next(y, step), total, base)
  {
  }

  lemma BeginStays(y: System, k: nat, c: ID, failed: bool, rest: seq<Step>, total: int, base: int)
    requires Tracked(y, total, base) && Enabled(y, BeginAck(k, c, failed))
    ensures StaysExact(y, [BeginAck(k, c, failed)] + rest, total, base)
            <==> StaysExact(Next(y, BeginAck(k, c, failed)), rest, total, base)
  {
    var steps, y' := [BeginAck(k, c, failed)] + rest, Next(y, BeginAck(k, c, failed));
    assert steps[1..] == rest;
    assert forall d :: EndAck(d) in steps <==> EndAck(d) in rest;
    assert forall d :: CompletesFirst(steps, d) == CompletesFirst(rest, d);
    if StaysExact(y', rest, total, base) {
      assert k in y'.acks;
      forall d | d in y.acks
        ensures if Exact(y.acks[d].copy, total, base + y.completed) then CompletesFirst(steps, d) else EndAck(d) !in steps
      {
        assert d in y'.acks && y'.acks[d] == y.acks[d];
      }
    }
  }

  lemma EndStays(y: System, k: nat, rest: seq<Step>, total: int, base: int)
    requires Tracked(y, total, base) && Enabled(y, EndAck(k))
    ensures StaysExact(y, [EndAck(k)] + rest, total, base) <==> StaysExact(Next(y, EndAck(k)), rest, total, base)
  {
    var steps, y' := [EndAck(k)] + rest, Next(y, EndAck(k));
    assert steps[1..] == rest;
    assert forall d :: d != k ==> (EndAck(d) in steps <==> EndAck(d) in rest);
    assert steps[0] in steps;
    assert forall d :: d != k ==> (CompletesFirst(steps, d) <==> EndAck(d) !in rest);
    assert CompletesFirst(steps, k);
    assert forall d :: d in y'.acks ==> d in y.acks && d != k && !Exact(y'.acks[d].copy, total, base + y'.completed);
    assert Exact(y'.stored, total, base + y'.completed) <==> Exact(y.acks[k].copy, total, base + y.completed);
  }

  /** An acknowledgement that has ended does not end again. */
  lemma {:induction false} NeverEnds(y: System, steps: seq<Step>, k: nat)
    requires Possible(y, steps) && k < y.started && k !in y.acks
    ensures EndAck(k) !in steps
    decreases steps
  {
    if steps != [] {
      NeverEnds(Next(y, steps[0]), steps[1..], k);
      assert forall step :: step in steps ==> step == steps[0] || step in steps[1..];
    }
  }

  lemma {:induction false} NeverCompletes(steps: seq<Step>, k: nat)
    requires EndAck(k) !in steps
    ensures CompletesFirst(steps, k)
  {
    if steps != [] {
      NeverCompletes(steps[1..], k);
    }
  }

  lemma LoseStays(y: System, k: nat, rest: seq<Step>, total: int, base: int)
    requires Tracked(y, total, base) && Enabled(y, LoseAck(k)) && Possible(Next(y, LoseAck(k)), rest)
    ensures StaysExact(y, [LoseAck(k)] + rest, total, base) <==> StaysExact(Next(y, LoseAck(k)), rest, total, base)
  {
    var steps, y' := [LoseAck(k)] + rest, Next(y, LoseAck(k));
    assert steps[1..] == rest;
    assert forall d :: EndAck(d) in steps <==> EndAck(d) in rest;
    assert forall d :: CompletesFirst(steps, d) == CompletesFirst(rest, d);
    NeverEnds(y', rest, k);
    NeverCompletes(rest, k);
    assert forall d :: d in y'.acks <==> d in y.acks && d != k;
  }

  lemma {:induction false} ExactIff(y: System, steps: seq<Step>, total: int, base: int)
    requires Tracked(y, total, base) && Possible(y, steps)
    ensures var y' := Run(y, steps);
            Exact(y'.stored, total, base + y'.completed) <==> StaysExact(y, steps, total, base)
    decreases steps
  {
    if steps != [] {
      var step, rest := steps[0], steps[1..];
      assert steps == [step] + rest;
      TrackedStep(y, step, total, base);
      ExactIff(Next(y, step), rest, total, base);
      match step
      case BeginAck(k, c, failed) => BeginStays(y, k, c, failed, rest, total, base);
      case EndAck(k) => EndStays(y, k, rest, total, base);
      case LoseAck(k) => LoseStays(y, k, rest, total, base);
    }
  }

  lemma {:induction false} UnsavedCopies(y: System, steps: seq<Step>)
    requires Possible(y, steps) && !Run(y, steps).saved
    requires y.copy.acked == 0 && y.stored.total == 0 && forall k :: k in y.acks ==> k < y.started && y.acks[k].copy.total == 0
    ensures var y' := Run(y, steps);
            && !y.saved && y'.copy.acked == 0 && y'.stored.total == 0
            && forall k :: k in y'.acks ==> k < y'.started && y'.acks[k].copy.total == 0
    decreases steps
  {
    if steps != [] {
      if Next(y, steps[0]).saved {
        CommandsStand(Next(y, steps[0]), steps[1..]);
      }
      UnsavedCopies(Next(y, steps[0]), steps[1..]);
    }
  }

  /** Over every interleaving of a dispatch to at least one device with acknowledgements, whatever
      they acknowledge: at the end the dispatch's total stands, and Acked + Failed is the failed
      sends plus the acknowledgements completed since the save, exactly when after the save no
      acknowledgement completes between the read and the write of another, and none that had read
      before the save completes. */
  lemma CountedExactlyIff(campaign: Campaign, devices: nat, before: seq<Step>, after: seq<Step>)
    requires Fresh(campaign) && devices > 0 && Possible(Start(campaign, devices), before)
    requires var y := Run(Start(campaign, devices), before); Enabled(y, Save) && Possible(Next(y, Save), after)
    ensures var y := Run(Start(campaign, devices), before);
            var y' := Run(Next(y, Save), after);
            y'.stored.total == devices && y'.stored.acked + y'.stored.failed == y.copy.failed + (y'.completed - y.completed)
            <==> NonOverlapping(after) && forall k :: k in y.acks ==> EndAck(k) !in after
  {
    var y := Run(Start(campaign, devices), before);
    UnsavedCopies(Start(campaign, devices), before);
    TotalStands(Start(campaign, devices), before);
    var saved := Next(y, Save);
    var base := y.copy.failed - y.completed;
    ExactIff(saved, after, devices, base);
  }

  // ---------------------------------------------------------------- what goes wrong otherwise

  lemma Two(y: System, a: Event, b: Event)
    ensures RunEvents(y, [a, b]) == After(After(y, a), b)
  {
    var rest := [a, b][1..];
    assert rest == [b] && rest[1..] == [];
    assert RunEvents(After(y, a), rest) == RunEvents(After(After(y, a), b), rest[1..]);
  }

  /** Acknowledged twice, the one command of a campaign counts twice: more acknowledged than sent. */
  lemma DuplicateCountsTwice(campaign: Campaign, c: ID)
    requires Fresh(campaign)
    ensures var y := RunEvents(Start(campaign, 1), [Sent(c, DeliveredNoted)] + [Saved] + [Acknowledged(c, false), Acknowledged(c, false)]);
            y.stored.total == 1 && y.stored.acked == 2
  {
    var acks := [Acknowledged(c, false), Acknowledged(c, false)];
    assert [Sent(c, DeliveredNoted)][1..] == [];
    assert RunEvents(Start(campaign, 1), [Sent(c, DeliveredNoted)]) == After(Start(campaign, 1), Sent(c, DeliveredNoted));
    var last := acks[1..];
    assert last == [Acknowledged(c, false)] && last[1..] == [];
    assert last[0] == Acknowledged(c, false);
    assert AckCount(last[1..]) == 0 && FailCount(last[1..]) == 0;
    assert AckCount(last) == 1;
    assert FailCount(last) == 0;
    SequentialCounts(campaign, 1, [Sent(c, DeliveredNoted)], acks);
  }

  /** Delivered but counted as failed, the one command of a campaign counts once more when it is
      acknowledged. */
  lemma UnnotedCountsTwice(campaign: Campaign, c: ID)
    requires Fresh(campaign)
    ensures var y := RunEvents(Start(campaign, 1), [Sent(c, DeliveredUnnoted)] + [Saved] + [Acknowledged(c, false)]);
            y.stored.total == 1 && y.stored.acked == 1 && y.stored.failed == 1
  {
    var ack := [Acknowledged(c, false)];
    assert [Sent(c, DeliveredUnnoted)][1..] == [];
    assert RunEvents(Start(campaign, 1), [Sent(c, DeliveredUnnoted)]) == After(Start(campaign, 1), Sent(c, DeliveredUnnoted));
    assert ack[0] == Acknowledged(c, false) && ack[1..] == [];
    assert AckCount(ack[1..]) == 0 && FailCount(ack[1..]) == 0;
    assert AckCount(ack) == 1;
    assert FailCount(ack) == 0;
    SequentialCounts(campaign, 1, [Sent(c, DeliveredUnnoted)], ack);
  }

  /** Acknowledged before the save, it does not count at all, and the campaign stays running. */
  lemma EarlyAckLost(campaign: Campaign, c: ID)
    requires Fresh(campaign)
    ensures var y := RunEvents(Start(campaign, 1), [Sent(c, DeliveredNoted), Acknowledged(c, false)] + [Saved] + []);
            y.stored.total == 1 && y.stored.acked == 0 && y.stored.status == Running
  {
    var early := [Sent(c, DeliveredNoted), Acknowledged(c, false)];
    var y0 := Start(campaign, 1);
    Two(y0, early[0], early[1]);
    var y1 := After(After(y0, early[0]), early[1]);
    assert y1.copy == campaign.(total := 1, dispatched := 1, failed := 0) && y1.remaining == 0 && !y1.saved;
    RunEventsSplit(y0, early, [Saved]);
    assert [Saved][1..] == [] && early + [Saved] + [] == early + [Saved];
    assert RunEvents(y1, [Saved]) == After(y1, Saved);
  }

  /** Two acknowledgements, of one command or of two, that both read before either writes count as
      one. */
  lemma OverlapLosesOne(y: System, a: ID, b: ID)
    requires y.saved && y.acks == map[]
    ensures var k := y.started;
            var steps := [BeginAck(k, a, false)] + ([BeginAck(k + 1, b, false)] + ([EndAck(k)] + ([EndAck(k + 1)] + [])));
            Possible(y, steps) && Run(y, steps).stored == Counted(y.stored, false)
  {
    var k := y.started;
    var y1 := Next(y, BeginAck(k, a, false));
    var y2 := Next(y1, BeginAck(k + 1, b, false));
    var y3 := Next(y2, EndAck(k));
    RunCons(y3, EndAck(k + 1), []);
    RunCons(y2, EndAck(k), [EndAck(k + 1)] + []);
    RunCons(y1, BeginAck(k + 1, b, false), [EndAck(k)] + ([EndAck(k + 1)] + []));
    RunCons(y, BeginAck(k, a, false), [BeginAck(k + 1, b, false)] + ([EndAck(k)] + ([EndAck(k + 1)] + [])));
  }

  /** An acknowledgement that reads before the save and writes after it puts the campaign back to
      what it was before the dispatch: no totals at all, and one more counted than that. */
  lemma StraddlingResets(campaign: Campaign, y: System, c: ID)
    requires Fresh(campaign) && !y.saved && y.remaining == 0 && y.stored == campaign
    ensures var steps := [BeginAck(y.started, c, false)] + ([Save] + ([EndAck(y.started)] + []));
            Possible(y, steps) && Run(y, steps).stored == campaign.(acked := 1)
            && !WithinTotal(Run(y, steps).stored)
  {
    var k := y.started;
    var y1 := Next(y, BeginAck(k, c, false));
    var y2 := Next(y1, Save);
    RunCons(y2, EndAck(k), []);
    RunCons(y1, Save, [EndAck(k)] + []);
    RunCons(y, BeginAck(k, c, false), [Save] + ([EndAck(k)] + []));
  }
}
