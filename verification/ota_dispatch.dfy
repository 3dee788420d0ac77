/** Sending commands and running OTA campaigns against the store: sendCommandWithCampaign
    (internal/core/automation.go), CreateOTACampaign and dispatchOTACampaign
    (internal/core/multitenant_ota.go) and HandleCommandAck (internal/core/service.go). */
module OtaDispatch {
  import opened Model
  import opened Text
  import opened Scoping
  import opened OtaAccounting
  import OtaTargets
  import MemoryStore

  // ---------------------------------------------------------------- one command

  /** What the device's session makes of the message. */
  datatype Delivery = Offline | Undelivered(reason: string) | Delivered

  /** The generated id of a command, its delivery and the time. */
  datatype Attempt = Attempt(commandID: ID, delivery: Delivery, now: int)

  datatype SendResult = SendDone | UnknownDevice | NameRequired | NameUnknown | DeviceOffline | SendFailed(reason: string)

  function LastStatus(delivery: Delivery): (CommandStatus, string) {
    match delivery
    case Offline => (CommandFailed, "device offline")
    case Undelivered(reason) => (CommandFailed, reason)
    case Delivered => (CommandSent, "sent")
  }

  predicate CommandNameFits(t: Tables, device: Device, name: string) {
    var id := TrimSpace(device.productID);
    id == "" || id !in t.products || t.products[id].services == {} || name in t.products[id].services
  }

  /** What keeps a command from being stored at all. */
  function Obstacle(t: Tables, deviceID: ID, name: string): Option<SendResult> {
    if deviceID !in t.devices then Some(UnknownDevice)
    else if TrimSpace(name) == "" then Some(NameRequired)
    else if !CommandNameFits(t, t.devices[deviceID], TrimSpace(name)) then Some(NameUnknown)
    else None
  }

  function ResultOf(t: Tables, deviceID: ID, name: string, a: Attempt): SendResult {
    match Obstacle(t, deviceID, name)
    case Some(r) => r
    case None =>
      (match a.delivery
       case Offline => DeviceOffline
       case Undelivered(reason) => SendFailed(reason)
       case Delivered => SendDone)
  }

  function CommandFor(deviceID: ID, campaignID: ID, name: string, a: Attempt): Command {
    var (status, result) := LastStatus(a.delivery);
    Command(a.commandID, deviceID, TrimSpace(campaignID), TrimSpace(name), status, result, a.now)
  }

  /** The store after an attempt: unchanged, or with the command and its final status. */
  function Attempted(s: Snapshot, deviceID: ID, campaignID: ID, name: string, a: Attempt): Snapshot {
    if Obstacle(s.tables, deviceID, name).Some? then s
    else
      var c := CommandFor(deviceID, campaignID, name, a);
      s.(commands := s.commands[c.id := c], commandIDs := s.commandIDs[deviceID := Slice(s.commandIDs, deviceID) + [c.id]])
  }

  /** An attempt is two writes: the pending command, then its status. */
  lemma AttemptWrites(s: Snapshot, deviceID: ID, campaignID: ID, name: string, a: Attempt)
    requires Obstacle(s.tables, deviceID, name).None?
    ensures var (status, result) := LastStatus(a.delivery);
            var pending := Command(a.commandID, deviceID, TrimSpace(campaignID), TrimSpace(name), CommandPending, "", a.now);
            var stored := MemoryStore.Apply(s, MemoryStore.SaveCommand(pending));
            stored.Done? && MemoryStore.Apply(stored.store, MemoryStore.UpdateCommandStatus(a.commandID, status, result, a.now))
                            == MemoryStore.Done(Attempted(s, deviceID, campaignID, name, a))
  {
    var c := CommandFor(deviceID, campaignID, name, a);
    assert s.commands[c.id := c.(status := CommandPending, result := "")][c.id := c] == s.commands[c.id := c];
  }

  // ---------------------------------------------------------------- a command and its acknowledgements

  /** One UpdateCommandStatus on a command. */
  datatype Update = Update(status: CommandStatus, result: string, now: int)

  function Updated(commands: map<ID, Command>, id: ID, updates: seq<Update>): map<ID, Command>
    requires id in commands
    decreases updates
  {
    if updates == [] then commands
    else
      var u := updates[0];
      Updated(commands[id := commands[id].(status := u.status, result := u.result, updatedAt := u.now)], id, updates[1..])
  }

  lemma {:induction false} LastUpdateStays(commands: map<ID, Command>, id: ID, updates: seq<Update>)
    requires id in commands
    ensures var commands' := Updated(commands, id, updates);
            id in commands'
            && commands'[id].status == (if updates == [] then commands[id].status else updates[|updates| - 1].status)
            && commands'[id].result == (if updates == [] then commands[id].result else updates[|updates| - 1].result)
    decreases updates
  {
    if updates != [] {
      var u := updates[0];
      LastUpdateStays(commands[id := commands[id].(status := u.status, result := u.result, updatedAt := u.now)], id, updates[1..]);
    }
  }

  predicate AreAcks(updates: seq<Update>) {
    forall i :: 0 <= i < |updates| ==> updates[i].status == CommandAcked || updates[i].status == CommandFailed
  }

  /** A delivered command can be acknowledged before the sender notes that it was sent, and the note
      then overwrites the acknowledgement. With acknowledgements before and after the note, the
      command ends up acknowledged exactly when one came after it; then the last one stands. */
  lemma AckStandsIff(commands: map<ID, Command>, id: ID, before: seq<Update>, sentAt: int, after: seq<Update>)
    requires id in commands && AreAcks(before) && AreAcks(after)
    ensures var commands' := Updated(commands, id, before + [Update(CommandSent, "sent", sentAt)] + after);
            && id in commands'
            && (commands'[id].status == CommandSent <==> after == [])
            && (after != [] ==> commands'[id].status == after[|after| - 1].status && commands'[id].result == after[|after| - 1].result)
  {
    LastUpdateStays(commands, id, before + [Update(CommandSent, "sent", sentAt)] + after);
  }

  /** It happens when the acknowledgement is handled between delivery and note. */
  lemma AckOverwritten(commands: map<ID, Command>, id: ID, result: string, at: int)
    requires id in commands
    ensures var commands' := Updated(commands, id, [Update(CommandAcked, result, at)] + [Update(CommandSent, "sent", at)]);
            id in commands' && commands'[id].status == CommandSent
  {
    var before := [Update(CommandAcked, result, at)];
    AckStandsIff(commands, id, before, at, []);
    assert before + [Update(CommandSent, "sent", at)] + [] == before + [Update(CommandSent, "sent", at)];
  }

  // ---------------------------------------------------------------- a dispatch

  const OTA_COMMAND := "ota_upgrade"

  predicate Succeeds(t: Tables, deviceID: ID, a: Attempt) {
    ResultOf(t, deviceID, OTA_COMMAND, a) == SendDone
  }

  /** The attempts of a dispatch; the i-th one meets with attempts(i). */
  function AttemptAll(s: Snapshot, campaignID: ID, targets: seq<ID>, attempts: nat -> Attempt, i: nat): Snapshot
    requires i <= |targets|
    decreases |targets| - i
  {
    if i == |targets| then s
    else AttemptAll(Attempted(s, targets[i], campaignID, OTA_COMMAND, attempts(i)), campaignID, targets, attempts, i + 1)
  }

  function Successes(t: Tables, targets: seq<ID>, attempts: nat -> Attempt, i: nat): nat
    requires i <= |targets|
    decreases |targets| - i
  {
    if i == |targets| then 0
    else (if Succeeds(t, targets[i], attempts(i)) then 1 else 0) + Successes(t, targets, attempts, i + 1)
  }

  lemma {:induction false} AttemptsIgnoreCampaigns(s: Snapshot, campaigns: map<ID, Campaign>, campaignID: ID,
                                                   targets: seq<ID>, attempts: nat -> Attempt, i: nat)
    requires i <= |targets|
    ensures var s' := s.(tables := s.tables.(campaigns := campaigns));
            var x, y := AttemptAll(s', campaignID, targets, attempts, i), AttemptAll(s, campaignID, targets, attempts, i);
            x.commands == y.commands && x.commandIDs == y.commandIDs
    decreases |targets| - i
  {
    if i < |targets| {
      var next := Attempted(s, targets[i], campaignID, OTA_COMMAND, attempts(i));
      var s' := s.(tables := s.tables.(campaigns := campaigns));
      assert Attempted(s', targets[i], campaignID, OTA_COMMAND, attempts(i)) == next.(tables := next.tables.(campaigns := campaigns));
      AttemptsIgnoreCampaigns(next, campaigns, campaignID, targets, attempts, i + 1);
    }
  }

  lemma {:induction false} SuccessesIgnoreCampaigns(t: Tables, campaigns: map<ID, Campaign>, targets: seq<ID>, attempts: nat -> Attempt, i: nat)
    requires i <= |targets|
    ensures Successes(t.(campaigns := campaigns), targets, attempts, i) == Successes(t, targets, attempts, i)
    decreases |targets| - i
  {
    if i < |targets| {
      SuccessesIgnoreCampaigns(t, campaigns, targets, attempts, i + 1);
    }
  }

  /** Every command a dispatch adds or overwrites belongs to the campaign and goes to a target. */
  lemma {:induction false} CommandsGoToTargets(s: Snapshot, campaignID: ID, targets: seq<ID>, attempts: nat -> Attempt, i: nat, id: ID)
    requires i <= |targets|
    ensures var s' := AttemptAll(s, campaignID, targets, attempts, i);
            id in s'.commands ==>
              || (id in s.commands && s'.commands[id] == s.commands[id])
              || (s'.commands[id].campaignID == TrimSpace(campaignID) && s'.commands[id].deviceID in targets)
    decreases |targets| - i
  {
    if i < |targets| {
      CommandsGoToTargets(Attempted(s, targets[i], campaignID, OTA_COMMAND, attempts(i)), campaignID, targets, attempts, i + 1, id);
    }
  }

  /** The campaign as dispatchOTACampaign saves it. */
  function Dispatched(t: Tables, campaign: Campaign, targets: seq<ID>, attempts: nat -> Attempt): Campaign {
    var sent := Successes(t, targets, attempts, 0);
    Concluded(campaign.(total := |targets|, dispatched := sent, failed := |targets| - sent))
  }

  lemma {:induction false} SuccessesBounded(t: Tables, targets: seq<ID>, attempts: nat -> Attempt, i: nat)
    requires i <= |targets|
    ensures Successes(t, targets, attempts, i) <= |targets| - i
    decreases |targets| - i
  {
    if i < |targets| {
      SuccessesBounded(t, targets, attempts, i + 1);
    }
  }

  /** After a dispatch Dispatched + Failed = Total; the campaign is running when every send
      succeeded, partial when only some did, and pending when none did. */
  lemma DispatchAccounts(t: Tables, campaign: Campaign, targets: seq<ID>, attempts: nat -> Attempt)
    ensures var c := Dispatched(t, campaign, targets, attempts);
            && c.total == |targets| && 0 <= c.dispatched && 0 <= c.failed && c.dispatched + c.failed == c.total
            && (c.status == Running <==> 0 < c.dispatched == c.total)
            && (c.status == Partial <==> 0 < c.dispatched < c.total)
            && (c.status == Pending <==> c.dispatched == 0)
  {
    SuccessesBounded(t, targets, attempts, 0);
  }

  // ---------------------------------------------------------------- an acknowledgement

  function AckStatus(status: string): CommandStatus {
    match ToLower(TrimSpace(status))
    case "failed" => CommandFailed
    case "error" => CommandFailed
    case "timeout" => CommandFailed
    case _ => CommandAcked
  }

  datatype AckReply = Handled(store: Snapshot) | UnknownCommand

  /** SaveOTACampaign keeps a campaign only under an id that is in the table. */
  function CampaignSaved(campaigns: map<ID, Campaign>, c: Campaign): map<ID, Campaign> {
    if c.id in campaigns then campaigns[c.id := c] else campaigns
  }

  function CampaignsAfterAck(campaigns: map<ID, Campaign>, campaignID: ID, failed: bool): map<ID, Campaign> {
    if campaignID == "" || campaignID !in campaigns then campaigns
    else CampaignSaved(campaigns, Counted(campaigns[campaignID], failed))
  }

  function HandleAck(s: Snapshot, deviceID: ID, commandID: ID, status: string, result: string, now: int): AckReply {
    if commandID !in s.commands || s.commands[commandID].deviceID != deviceID then UnknownCommand
    else
      var command, next := s.commands[commandID], AckStatus(status);
      Handled(s.(commands := s.commands[commandID := command.(status := next, result := TrimSpace(result), updatedAt := now)],
                 tables := s.tables.(campaigns := CampaignsAfterAck(s.tables.campaigns, command.campaignID, next == CommandFailed))))
  }

  lemma CampaignsAfterAckAt(campaigns: map<ID, Campaign>, campaignID: ID, failed: bool, c: ID)
    requires forall k :: k in campaigns ==> campaigns[k].id == k
    requires c in campaigns
    ensures var campaigns' := CampaignsAfterAck(campaigns, campaignID, failed);
            && campaigns'.Keys == campaigns.Keys
            && campaigns'[c] == (if c == campaignID && c != "" then Counted(campaigns[c], failed) else campaigns[c])
  {
  }

  /** A device can count only towards the campaign that its own command was sent for; its
      acknowledgement changes no other campaign and no other command. */
  lemma AckTouchesOwnCampaign(s: Snapshot, deviceID: ID, commandID: ID, status: string, result: string, now: int, c: ID)
    requires HandleAck(s, deviceID, commandID, status, result, now).Handled?
    requires c in s.tables.campaigns && forall k :: k in s.tables.campaigns ==> s.tables.campaigns[k].id == k
    ensures var s' := HandleAck(s, deviceID, commandID, status, result, now).store;
            && s.commands[commandID].deviceID == deviceID
            && s'.commands.Keys == s.commands.Keys
            && (forall id :: id in s.commands && id != commandID ==> s'.commands[id] == s.commands[id])
            && s'.tables.campaigns.Keys == s.tables.campaigns.Keys
            && s'.tables.campaigns[c] == (if c == s.commands[commandID].campaignID && c != ""
                                          then Counted(s.tables.campaigns[c], AckStatus(status) == CommandFailed)
                                          else s.tables.campaigns[c])
  {
    CampaignsAfterAckAt(s.tables.campaigns, s.commands[commandID].campaignID, AckStatus(status) == CommandFailed, c);
  }

  // ---------------------------------------------------------------- the whole request

  datatype CampaignReply = Created(campaign: Campaign) | Declined(failure: Failure)

  /** A planned campaign can always resolve its devices. */
  lemma PlannedResolves(s: Snapshot, id: ID, tenantID: ID, name: string, firmwareID: ID, productID: ID, groupID: ID, deviceID: ID, listing: seq<Device>)
    requires OtaTargets.PlanCampaign(s.tables, id, tenantID, name, firmwareID, productID, groupID, deviceID).Planned?
    ensures OtaTargets.TargetDevices(s, OtaTargets.PlanCampaign(s.tables, id, tenantID, name, firmwareID, productID, groupID, deviceID).campaign, listing).Some?
  {
  }

  function TargetsOf(s: Snapshot, campaign: Campaign, listing: seq<Device>): seq<ID> {
    match OtaTargets.TargetDevices(s, campaign, listing)
    case Some(targets) => targets
    case None => []
  }

  /** The store after a campaign was created and dispatched: the campaign in its last state, and a
      command for every attempt that got so far; nothing else changes. */
  function Launched(s: Snapshot, campaign: Campaign, listing: seq<Device>, attempts: nat -> Attempt): Snapshot {
    var targets := TargetsOf(s, campaign, listing);
    var sent := AttemptAll(s, campaign.id, targets, attempts, 0);
    var final := Dispatched(s.tables, campaign, targets, attempts);
    s.(commands := sent.commands, commandIDs := sent.commandIDs,
       tables := s.tables.(campaigns := s.tables.campaigns[campaign.id := final]))
  }

  function WithCampaign(s: Snapshot, campaign: Campaign): Snapshot {
    s.(tables := s.tables.(campaigns := s.tables.campaigns[campaign.id := campaign]))
  }

  lemma TargetsIgnoreCampaigns(s: Snapshot, campaign: Campaign, listing: seq<Device>)
    ensures OtaTargets.TargetDevices(WithCampaign(s, campaign), campaign, listing) == OtaTargets.TargetDevices(s, campaign, listing)
  {
  }

  lemma SavedOver(campaigns: map<ID, Campaign>, campaign: Campaign, final: Campaign)
    requires final.id == campaign.id
    ensures CampaignSaved(campaigns[campaign.id := campaign], final) == campaigns[campaign.id := final]
  {
    assert campaigns[campaign.id := campaign][campaign.id := final] == campaigns[campaign.id := final];
  }

  /** Storing the campaign first changes neither its devices nor what is sent to them. */
  lemma LaunchesAlike(s: Snapshot, campaign: Campaign, listing: seq<Device>, attempts: nat -> Attempt)
    ensures var s' := WithCampaign(s, campaign);
            var targets := TargetsOf(s, campaign, listing);
            var l := Launched(s, campaign, listing, attempts);
            && OtaTargets.TargetDevices(s', campaign, listing) == OtaTargets.TargetDevices(s, campaign, listing)
            && AttemptAll(s', campaign.id, targets, attempts, 0).commands == l.commands
            && AttemptAll(s', campaign.id, targets, attempts, 0).commandIDs == l.commandIDs
            && CampaignSaved(s'.tables.campaigns, Dispatched(s'.tables, campaign, targets, attempts)) == l.tables.campaigns
  {
    var campaigns := s.tables.campaigns[campaign.id := campaign];
    var targets := TargetsOf(s, campaign, listing);
    TargetsIgnoreCampaigns(s, campaign, listing);
    AttemptsIgnoreCampaigns(s, campaigns, campaign.id, targets, attempts, 0);
    SuccessesIgnoreCampaigns(s.tables, campaigns, targets, attempts, 0);
    SavedOver(s.tables.campaigns, campaign, Dispatched(s.tables, campaign, targets, attempts));
  }

  /** From the request to the devices: in a scoped store every command that a campaign's dispatch
      stores goes to an existing device of the campaign's tenant, and, unless the campaign
      addresses a group without a product, of the artifact's product. */
  lemma CampaignCommandsAreSafe(s: Snapshot, id: ID, tenantID: ID, name: string, firmwareID: ID, productID: ID, groupID: ID, deviceID: ID,
                                listing: seq<Device>, attempts: nat -> Attempt, command: ID)
    requires ScopeInv(s) && OtaTargets.ListsDevices(s.tables, listing)
    requires var plan := OtaTargets.PlanCampaign(s.tables, id, tenantID, name, firmwareID, productID, groupID, deviceID);
             plan.Planned? && command !in s.commands && command in Launched(s, plan.campaign, listing, attempts).commands
    ensures var plan := OtaTargets.PlanCampaign(s.tables, id, tenantID, name, firmwareID, productID, groupID, deviceID);
            var c := Launched(s, plan.campaign, listing, attempts).commands[command];
            && c.campaignID == TrimSpace(id) && c.deviceID in s.tables.devices
            && (plan.campaign.tenantID != "" ==> s.tables.devices[c.deviceID].tenantID == plan.campaign.tenantID)
            && (plan.artifact.productID != "" && OtaTargets.ProductBound(s.tables, plan.campaign) ==>
                  s.tables.devices[c.deviceID].productID == plan.artifact.productID)
  {
    var campaign := OtaTargets.PlanCampaign(s.tables, id, tenantID, name, firmwareID, productID, groupID, deviceID).campaign;
    var targets := TargetsOf(s, campaign, listing);
    CommandsGoToTargets(s, id, targets, attempts, 0, command);
    var c := AttemptAll(s, id, targets, attempts, 0).commands[command];
    OtaTargets.TargetsAreSafe(s, id, tenantID, name, firmwareID, productID, groupID, deviceID, listing, c.deviceID);
  }

  // ---------------------------------------------------------------- the service

  class Service {
    const store: MemoryStore.Store

    constructor (store: MemoryStore.Store)
      ensures this.store == store
    {
      this.store := store;
    }

    /** SaveCommand with the pending command, then UpdateCommandStatus with the outcome. */
    method StoreCommand(command: Command, a: Attempt)
      requires command.id == a.commandID && command.status == CommandPending && command.updatedAt == a.now
      modifies store`commands, store`commandIDs
      ensures var (status, result) := LastStatus(a.delivery);
              store.commands == old(store.commands)[command.id := command.(status := status, result := result)]
      ensures store.commandIDs == old(store.commandIDs)[command.deviceID := Slice(old(store.commandIDs), command.deviceID) + [command.id]]
    {
      store.PutCommand(command);
      var error: Option<MemoryStore.Error>;
      match a.delivery {
        case Offline => error := store.SetCommandStatus(command.id, CommandFailed, "device offline", a.now);
        case Undelivered(reason) => error := store.SetCommandStatus(command.id, CommandFailed, reason, a.now);
        case Delivered => error := store.SetCommandStatus(command.id, CommandSent, "sent", a.now);
      }
    }

    method CheckCommand(deviceID: ID, name: string) returns (obstacle: Option<SendResult>)
      ensures obstacle == Obstacle(store.AllTables(), deviceID, name)
    {
      if deviceID !in store.devices {
        return Some(UnknownDevice);
      }
      var device := store.devices[deviceID];
      var name' := TrimSpace(name);
      if name' == "" {
        return Some(NameRequired);
      }
      var productID := TrimSpace(device.productID);
      if productID != "" && productID in store.products {
        var services := store.products[productID].services;
        if services != {} && name' !in services {
          return Some(NameUnknown);
        }
      }
      return None;
    }

    method SendCommandWithCampaign(deviceID: ID, campaignID: ID, name: string, a: Attempt) returns (result: SendResult)
      modifies store`commands, store`commandIDs
      ensures store.Contents() == Attempted(old(store.Contents()), deviceID, campaignID, name, a)
      ensures result == ResultOf(old(store.AllTables()), deviceID, name, a)
    {
      var obstacle := CheckCommand(deviceID, name);
      if obstacle.Some? {
        return obstacle.value;
      }
      StoreCommand(Command(a.commandID, deviceID, TrimSpace(campaignID), TrimSpace(name), CommandPending, "", a.now), a);
      match a.delivery
      case Offline => return DeviceOffline;
      case Undelivered(reason) => return SendFailed(reason);
      case Delivered => return SendDone;
    }

    /** The loop of dispatchOTACampaign, counting on the dispatch's own copy. */
    method SendToAll(campaign: Campaign, targets: seq<ID>, attempts: nat -> Attempt) returns (updated: Campaign)
      modifies store`commands, store`commandIDs
      ensures store.Contents() == AttemptAll(old(store.Contents()), campaign.id, targets, attempts, 0)
      ensures var sent := Successes(store.AllTables(), targets, attempts, 0);
              updated == campaign.(total := |targets|, dispatched := sent, failed := |targets| - sent)
    {
      ghost var tables, goal := store.AllTables(), AttemptAll(store.Contents(), campaign.id, targets, attempts, 0);
      updated := campaign.(total := |targets|, dispatched := 0, failed := 0);
      for i := 0 to |targets|
        invariant store.AllTables() == tables
        invariant AttemptAll(store.Contents(), campaign.id, targets, attempts, i) == goal
        invariant updated == campaign.(total := |targets|, dispatched := updated.dispatched, failed := i - updated.dispatched)
        invariant updated.dispatched + Successes(tables, targets, attempts, i) == Successes(tables, targets, attempts, 0)
      {
        var result := SendCommandWithCampaign(targets[i], campaign.id, OTA_COMMAND, attempts(i));
        if result != SendDone {
          updated := updated.(failed := updated.failed + 1);
        } else {
          updated := updated.(dispatched := updated.dispatched + 1);
        }
      }
    }

    /** dispatchOTACampaign, with the devices resolved. */
    method Dispatch(campaign: Campaign, targets: seq<ID>, attempts: nat -> Attempt) returns (updated: Campaign)
      modifies store`commands, store`commandIDs, store`campaigns
      ensures updated == Dispatched(old(store.AllTables()), campaign, targets, attempts)
      ensures store.campaigns == CampaignSaved(old(store.campaigns), updated)
      ensures var sent := AttemptAll(old(store.Contents()), campaign.id, targets, attempts, 0);
              store.commands == sent.commands && store.commandIDs == sent.commandIDs
    {
      updated := SendToAll(campaign, targets, attempts);
      if updated.dispatched > 0 && updated.failed == 0 {
        updated := updated.(status := Running);
      } else if updated.dispatched > 0 {
        updated := updated.(status := Partial);
      } else {
        updated := updated.(status := Pending);
      }
      var error := store.PutCampaign(updated);
    }

    /** CreateOTACampaign: checked and planned, stored, its devices resolved, dispatched and saved
        over. The result shows the listing of the devices that was used. */
    method CreateOTACampaign(id: ID, tenantID: ID, name: string, firmwareID: ID, productID: ID, groupID: ID, deviceID: ID,
                             attempts: nat -> Attempt)
      returns (reply: CampaignReply, listing: seq<Device>)
      modifies store`commands, store`commandIDs, store`campaigns
      ensures MemoryStore.IsListing(store.devices, listing)
      ensures match OtaTargets.PlanCampaign(old(store.AllTables()), id, tenantID, name, firmwareID, productID, groupID, deviceID)
              case Refused(f) => reply == Declined(f) && store.Contents() == old(store.Contents())
              case Planned(campaign, _) =>
                if id in old(store.campaigns) then
                  reply == Declined(StoreError(MemoryStore.Exists(MemoryStore.CampaignKind))) && store.Contents() == old(store.Contents())
                else
                  && store.Contents() == Launched(old(store.Contents()), campaign, listing, attempts)
                  && reply == Created(store.campaigns[id])
    {
      listing := store.ListDevices();
      var plan := OtaTargets.PlanCampaign(store.AllTables(), id, tenantID, name, firmwareID, productID, groupID, deviceID);
      if plan.Refused? {
        return Declined(plan.failure), listing;
      }
      if id in store.campaigns {
        return Declined(StoreError(MemoryStore.Exists(MemoryStore.CampaignKind))), listing;
      }
      PlannedResolves(store.Contents(), id, tenantID, name, firmwareID, productID, groupID, deviceID, listing);
      var final := Launch(plan.campaign, listing, attempts);
      reply := Created(final);
    }

    method Launch(campaign: Campaign, listing: seq<Device>, attempts: nat -> Attempt) returns (final: Campaign)
      requires campaign.id !in store.campaigns && OtaTargets.TargetDevices(store.Contents(), campaign, listing).Some?
      modifies store`commands, store`commandIDs, store`campaigns
      ensures var l := Launched(old(store.Contents()), campaign, listing, attempts);
              && store.campaigns == l.tables.campaigns && store.commands == l.commands && store.commandIDs == l.commandIDs
              && campaign.id in store.campaigns && final == store.campaigns[campaign.id]
    {
      ghost var s := store.Contents();
      store.AddCampaign(campaign);
      assert store.Contents() == WithCampaign(s, campaign);
      LaunchesAlike(s, campaign, listing, attempts);
      var targets := OtaTargets.ResolveTargetDevices(store, campaign, listing);
      final := Dispatch(campaign, targets.value, attempts);
    }

    method UpdateCampaignFromCommandAck(campaignID: ID, failed: bool)
      requires campaignID != ""
      modifies store`campaigns
      ensures store.campaigns == CampaignsAfterAck(old(store.campaigns), campaignID, failed)
    {
      if campaignID !in store.campaigns {
        return;
      }
      var campaign := store.campaigns[campaignID];
      if failed {
        campaign := campaign.(failed := campaign.failed + 1);
      } else {
        campaign := campaign.(acked := campaign.acked + 1);
      }
      if campaign.acked + campaign.failed >= campaign.total && campaign.total > 0 {
        if campaign.failed > 0 {
          campaign := campaign.(status := Partial);
        } else {
          campaign := campaign.(status := Completed);
        }
      } else if campaign.dispatched > 0 {
        campaign := campaign.(status := Running);
      }
      var error := store.PutCampaign(campaign);
    }

    method HandleCommandAck(deviceID: ID, commandID: ID, status: string, result: string, now: int) returns (known: bool)
      modifies store`commands, store`campaigns
      ensures match HandleAck(old(store.Contents()), deviceID, commandID, status, result, now)
              case Handled(s) => known && store.Contents() == s
              case UnknownCommand => !known && store.Contents() == old(store.Contents())
    {
      if commandID !in store.commands {
        return false;
      }
      var command := store.commands[commandID];
      if command.deviceID != deviceID {
        return false;
      }
      var next := AckStatus(status);
      var error := store.SetCommandStatus(commandID, next, TrimSpace(result), now);
      if command.campaignID != "" {
        UpdateCampaignFromCommandAck(command.campaignID, next == CommandFailed);
      }
      return true;
    }
  }
}
