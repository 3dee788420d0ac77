# IoT platform core: a verified model

A model of the behaviour of an IoT device platform written in Go, with proofs of what its
parts promise. The platform registers tenants, products, devices and groups, keeps a shadow of
every device, fires rules on telemetry, rolls firmware out in campaigns, holds device sessions
over TCP and MQTT, and ships every committed state to standby servers.

| file | module | what it models |
|---|---|---|
| `text.dfy` | `Text` | trimming, lower case, byte order and sorting, as Go's library has them |
| `model.dfy` | `Model` | the entities and the whole content of a store |
| `memory_store.dfy` | `MemoryStore` | the in-memory store: two group indexes, a command index, bounded telemetry, snapshot and restore |
| `file_store.dfy` | `FileStore` | every write as a transaction over memory and one file, with each fault |
| `file_reads.dfy` | `FileReads` | queries that come while a write is being persisted |
| `replication.dfy` | `Replication` | a primary, standbys and a network that loses, repeats and reorders |
| `sessions.dfy` | `Sessions` | session registration and one TCP connection's handler |
| `session_queue.dfy` | `SessionQueue` | the bounded outgoing queue of a session and its writer |
| `gateway.dfy` | `Gateway` | every interleaving of connections, broker callbacks and counter updates |
| `cooldown.dfy` | `Cooldown` | rule states, the cooldown test, firing rates and totals |
| `firing_races.dfy` | `FiringRaces` | every interleaving of cooldown tests and recordings |
| `telemetry_runtime.dfy` | `TelemetryRuntime` | what a telemetry message does to shadows and rules, and whole runs |
| `telemetry_service.dfy` | `TelemetryService` | the same as methods over the store, with the source's loops |
| `scoping.dfy` | `Scoping` | what operator requests do, and the scopes every reachable store keeps |
| `provisioning.dfy` | `Provisioning` | the same requests as methods over the store |
| `rule_scoping.dfy` | `RuleScoping` | creating rules, and what every stored rule keeps |
| `ota_targets.dfy` | `OtaTargets` | whom a firmware campaign addresses |
| `ota_accounting.dfy` | `OtaAccounting` | campaign counters under every interleaving with acknowledgements |
| `ota_dispatch.dfy` | `OtaDispatch` | sending commands, dispatching campaigns and acknowledging, over the store |
| `mqtt_codec.dfy` | `MqttCodec` | the MQTT 3.1.1 packets of the load generator, written and read |
| `routing.dfy` | `Routing` | topics of a device, topic filters and access control |
| `subscriptions.dfy` | `Subscriptions` | what a granted filter with wildcards covers of other devices |
| `mqtt_hook.dfy` | `MqttHook` | the broker's callbacks: authentication, sessions, access control |
| `slug.dfy` | `Slug` | tenant slugs |
| `access_profile.dfy` | `AccessProfile` | access-profile normalisation and its alias tables |

Objects the source updates in place are classes whose methods keep the source's branches and
loops. Each method's contract ties the new state to a function of the old one, and the lemmas
prove what those functions keep: over every input, every run or every interleaving. The parts of
the one service object are split over several classes by the state they use.

`dafny verify dfyconfig.toml` checks the whole project.

## What the code does not promise

Some promises one would expect are false of the code. Each is stated with a run or an input that
shows it and with the exact condition under which the promise does hold:

| what goes wrong | shown by | holds exactly when |
|---|---|---|
| a second auth message leaves the device online for good | `Gateway.RepeatAuthLeaks` | `Gateway.RunLeaksIff`, `Sessions.AloneLeavesOnlineIff` |
| a late MQTT disconnect releases a reconnected client | `Gateway.LateDisconnectReleases` | `Gateway.LiveSurvivesIff`, `Gateway.RunHeldIff` |
| a message is accepted after the session was closed | `SessionQueue.AcceptedAfterClose` | `SessionQueue.ClosedAcceptsNothingIff` |
| a failed rename loses a committed state | `FileStore.RenameLosesCommitted` | `FileStore.RunLosesFileIff`, `FileStore.RestartRecoversIff` |
| a query answers with a write that is then taken back | `FileReads.DirtyRead` | `FileReads.AnswersCommittedIff` |
| a standby is emptied by a lost file and a restart | `Replication.LostFileEmptiesStandby` | `Replication.StandbysHoldCommittedStates` |
| a standby goes back to an older snapshot | `Replication.StandbyGoesBack` | `Replication.NeverGoesBackIff` |
| a campaign reaches devices of another product | `OtaTargets.GroupMistargets` | `OtaTargets.GroupSafeIff` |
| acknowledgements that overlap, or straddle the save, are miscounted | `OtaAccounting.OverlapLosesOne`, `OtaAccounting.StraddlingResets` | `OtaAccounting.CountedExactlyIff` |
| acknowledgements that come twice, or before the save, are miscounted | `OtaAccounting.DuplicateCountsTwice`, `OtaAccounting.EarlyAckLost` | `OtaAccounting.SequentialIff` |
| a delivered command counts as failed, and again when acknowledged | `OtaAccounting.UnnotedCountsTwice` | `OtaAccounting.WithinTotalIff` |
| a campaign whose last save failed counts acknowledgements past its total | `OtaAccounting.NeverSavedIff` | `OtaAccounting.NeverSavedIff` |
| a command is noted as sent after its acknowledgement | `OtaDispatch.AckOverwritten` | `OtaDispatch.AckStandsIff` |
| a rule fires twice within its cooldown | `FiringRaces.FiresTwice`, `Cooldown.HonouredIff` | `FiringRaces.RacesSpacedIff`, `Cooldown.HonouredIff` |
| a client is granted a filter that covers other devices' commands | `Routing.HashIsGranted` | `Subscriptions.GrantCoversOtherIff` |
| a rule names a product that does not exist | `RuleScoping.UnknownProductAccepted` | `RuleScoping.DrawnProductExistsIff` |

Storing a topic template and resolving it later commutes for every device id the platform
generates (`Routing.PlainIDCommutes`); it takes an id of fewer than three characters, or one with a
slash, to make the two differ (`Routing.ShortIDDiffers`, `Routing.CommutesIff`).

## Assumptions

- Generated ids are fresh where a contract says so, and contain no NUL; the clock never shows Go's
  zero time. Both arrive as parameters.
- Encoding a snapshot to JSON and decoding it is a faithful round trip, which may fail as a whole.
- A TCP connection's session id never equals an MQTT client id.
- The broker calls back in this order for each connection: authentication, establishment, disconnect. A callback's lookup of its
  client's binding and what it then does with it are one step.
- Strings are sequences of code points; lower case is exact for ASCII and for the two other code
  points whose lower case is ASCII.

## Model

| member | source | states |
|---|---|---|
| `MemoryStore.Store.constructor` | internal/store/memory/memory.go:34-57 | a new store is empty, with the default retention of 200 and at least 200 alerts |
| `MemoryStore.Store.PerformCreate` | internal/store/memory/tenant_ota.go:11-20 | the eight Create operations add exactly one entry, or fail with the kind's "exists" error and change nothing |
| `MemoryStore.Store.PerformSave` | internal/store/memory/tenant_ota.go:47-56 | the eight Save operations replace exactly one entry, or fail with the kind's "not found" error and change nothing |
| `MemoryStore.Store.Perform` | internal/store/memory/memory.go:59-507 | every write of the store interface leaves exactly the content the write's meaning says, with its error |
| `MemoryStore.Store.AddDeviceToGroup` | internal/store/memory/memory.go:209-223 | both indexes gain the pair once; an unknown group or device is reported before anything is written |
| `MemoryStore.Store.RemoveDeviceFromGroup` | internal/store/memory/memory.go:225-239 | both indexes lose the pair; an unknown group or device is reported before anything is written |
| `MemoryStore.AddUniqueString` | internal/store/memory/memory.go:797-804 | appends a value unless it is there already |
| `MemoryStore.RemoveString` | internal/store/memory/memory.go:806-821 | drops every occurrence and keeps the order of the rest |
| `MemoryStore.IndexesAfterWrite` | internal/store/memory/memory.go:209-239 | after any accepted write both group indexes list one and the same relation, without duplicates, and that relation moved by exactly the write |
| `MemoryStore.AlikeIndexes` | internal/store/memory/snapshot.go:210-219 | a restore, which reorders the device lists, leaves both indexes listing the same relation |
| `MemoryStore.ListingsShowRelation` | internal/store/memory/memory.go:241-259 | both List functions answer the sorted, duplicate-free contents of that one relation |
| `MemoryStore.Store.PutTelemetry` | internal/store/memory/memory.go:361-371 | appending keeps the last `retention` items of the device and touches no other device |
| `MemoryStore.RetentionAfterWrite` | internal/store/memory/memory.go:361-371 | stored telemetry is the last min(N, retention) items of everything ever appended for the device |
| `MemoryStore.TelemetryListing` | internal/store/memory/memory.go:392-412 | a listing is the reverse of the last min(limit, stored) of those |
| `MemoryStore.ListNewest` | internal/store/memory/memory.go:392-412 | the loop returns the last min(limit, all) items in reverse |
| `MemoryStore.ListTable` | internal/store/memory/memory.go:284-297 | a whole-table listing has every entry once, in some order |
| `MemoryStore.Store.ListTelemetryByDevice` | internal/store/memory/memory.go:392-412 | answers that listing and changes nothing |
| `MemoryStore.SaveCommandIff` | internal/store/memory/memory.go:414-421 | saving keeps the command index sound exactly when the id is not taken from another device's command |
| `MemoryStore.CommandsAfterWrite` | internal/store/memory/memory.go:414-448 | every accepted write keeps each listed id a command of that device and each command listed |
| `MemoryStore.CommandListing` | internal/store/memory/memory.go:450-471 | a command listing is newest first, of the right length, and every id in it resolves to a command of the device |
| `MemoryStore.Store.ListCommandsByDevice` | internal/store/memory/memory.go:450-471 | answers that listing and changes nothing |
| `MemoryStore.Store.SaveAlertInPlace` | internal/store/memory/memory.go:496-507 | the first alert with the id is overwritten in place, or the alert is reported missing |
| `MemoryStore.Store.ListAlerts` | internal/store/memory/memory.go:509-528 | alerts newest first, at most `limit` of them |
| `MemoryStore.Store.TakeSnapshot` | internal/store/memory/snapshot.go:65-140 | a snapshot is the whole content |
| `MemoryStore.Store.Restore` | internal/store/memory/snapshot.go:142-232 | a restore overwrites every field; device lists come back sorted, and a retention that is not positive is not taken over |
| `MemoryStore.SortLists` | internal/store/memory/snapshot.go:210-219 | every group's list comes back sorted, and no group is lost |
| `MemoryStore.RestoredAlike` | internal/store/memory/snapshot.go:142-232 | restoring a store's own snapshot gives a store equal up to the order of the groups' device lists |
| `MemoryStore.AlikeAnswers` | internal/store/memory/memory.go:251-259 | no Get or List tells two such stores apart |
| `MemoryStore.AlikeApply` | internal/store/memory/memory.go:209-239 | such stores accept the same writes with the same errors, and stay so |
| `FileStore.Files.WriteSnapshotFile` | internal/store/file/store.go:145-185 | success replaces the file and the persist time; each failure counts one error, and a failed rename leaves no file if the old one was removed |
| `FileStore.Files.Persist` | internal/store/file/store.go:122-143 | a failed encoding counts one error; otherwise the content is written as one image |
| `FileStore.Files.MutateWith` | internal/store/file/store.go:187-208 | snapshot, apply, persist, roll back: the state and result after a write, for every fault |
| `FileStore.Files.ApplyReplicaSnapshot` | internal/store/file/store.go:103-120 | decode, write, restore, in this order: nothing changes in memory unless the file was written |
| `FileStore.Open` | internal/store/file/store.go:33-95 | opening fails without a path and on a file that cannot be read or decoded; otherwise the store holds the file's content, or is empty |
| `FileStore.MutateIsTransaction` | internal/store/file/store.go:187-208 | success leaves the file holding exactly what memory holds; an apply error changes nothing at all; a persist error leaves memory such that no query tells it from before |
| `FileStore.PersistErrorsCounted` | internal/store/file/store.go:122-185 | the error counter rises by one exactly when a write fails to persist |
| `FileStore.RunReplaysCommitted` | internal/store/file/store.go:187-208 | after any run memory answers every query as if only the committed writes had ever been made |
| `FileStore.RunKeepsIndexesAndRetention` | internal/store/file/store.go:187-208 | index and retention invariants hold after any run, through failures and roll-backs, for the relation and history of the committed writes |
| `FileStore.RunKeepsCommands` | internal/store/file/store.go:187-208 | the command index invariant holds after any run in which ids are a device's own |
| `FileStore.RunKeepsDurable` | internal/store/file/store.go:187-208 | after any run the file, if there is one, holds a state that no query tells from memory |
| `FileStore.FileLostIff` | internal/store/file/store.go:176-184 | the file disappears exactly when an accepted write removes it and the rename then fails |
| `FileStore.RunLosesFileIff` | internal/store/file/store.go:145-208 | over whole runs the file is gone exactly when some accepted write removed it and then failed to rename, and none committed since |
| `FileStore.RestartRecoversIff` | internal/store/file/store.go:76-95 | a restart brings back what memory held exactly when the file is there, or memory had nothing to lose |
| `FileStore.RenameLosesCommitted` | internal/store/file/store.go:176-184 | two writes and one failed rename lose the first, committed, write |
| `FileReads.HalvesAreMutate` | internal/store/file/store.go:187-208 | the applying and the persisting or roll-back of a write, as two steps, are the whole write |
| `FileReads.RunIsWrites` | internal/store/file/store.go:187-208 | queries between them change nothing: a run leaves what its writes alone leave |
| `FileReads.AnswersCommittedIff` | internal/store/file/store.go:187-230 | over every interleaving of queries with writes and their faults, each query answers as a store that performs only the committed writes, the one under way included, exactly when no query sees a difference made by a write that is then taken back |
| `FileReads.DirtyRead` | internal/store/file/store.go:187-226 | a run in which a query finds a tenant that is then taken back |
| `Replication.NormalizeReplicaPeers` | internal/app/replication.go:116-132 | blank peers are dropped, trailing slashes cut, and each peer kept at its first place |
| `Replication.Network.PersistHook` | internal/app/replication.go:58-67 | every persisted image is sent to every peer |
| `Replication.StepKeepsInv` | internal/store/file/store.go:103-120 | every write, delivery, garbled delivery and restart keeps each standby's memory genuine, or empty if its last start found no file |
| `Replication.StandbysHoldCommittedStates` | internal/app/replication.go:62-66 | over whole runs, with copies lost, delayed, duplicated or reordered and writes and applies failing anywhere, a standby's memory is its initial state or one the primary durably committed; a standby that lost its file, was restarted without it and had nothing applied since is empty instead, and then the promise holds exactly when the empty store is such a state too |
| `Replication.BlankIff` | internal/store/file/store.go:33-120 | a standby's memory comes from a start without a file exactly when such a start happened, or was the first one, and nothing was loaded or applied since |
| `Replication.LostFileEmptiesStandby` | internal/store/file/store.go:176-184 | a run in which a failed rename and a restart leave a standby neither in its initial nor in a committed state |
| `Replication.DeliverApplies` | internal/store/file/store.go:103-120 | after a successful apply the standby's memory and file both hold the delivered state |
| `Replication.CatchUp` | internal/app/replication.go:62-66 | once the image in the primary's file arrives no query tells standby and primary apart |
| `Replication.NeverGoesBackIff` | internal/store/file/store.go:103-120 | over a run the time of a standby's file never decreases exactly when every image applied with success is no older than the one last held |
| `Replication.GoesBackIff` | internal/store/file/store.go:103-120 | one step takes the file back exactly when it applies, with success, an image older than the file's |
| `Replication.StandbyGoesBack` | internal/store/file/store.go:103-120 | a run from the start: two commits, delivered in reverse order, take a standby's file from the later to the earlier image |
| `Sessions.Service.RegisterSession` | internal/core/service.go:481-512 | one session per device; the counter rises only for a device that had none; a replaced session is closed |
| `Sessions.Service.UnregisterSession` | internal/core/service.go:514-533 | only the session's own registration goes, and only then the counter falls |
| `Sessions.Service.OnlineByTransport` | internal/core/service.go:748-762 | the online figures of Stats are the numbers of devices with a TCP and with an MQTT session |
| `Sessions.DevicesByTransport` | internal/core/service.go:748-762 | the two figures add up to the number of devices with a session |
| `Sessions.HandleConnection` | internal/gateway/server.go:79-185 | how a connection's handler leaves the registry and the counter, for every sequence of messages |
| `Sessions.AloneLeavesOnlineIff` | internal/gateway/server.go:117-122 | a handler that runs alone leaves its device online exactly when a successful auth is followed by another auth message |
| `SessionQueue.ClientSession.constructor` | internal/gateway/server.go:219-232 | an empty queue of the given size, or of 128 when that is not positive |
| `SessionQueue.ClientSession.PassTest` | internal/gateway/server.go:243-247 | the first step of Send: passed exactly when the session is not closed |
| `SessionQueue.ClientSession.TryEnqueue` | internal/gateway/server.go:249-254 | the second step of Send, which does not look at the closed flag again: queued last unless the queue is full |
| `SessionQueue.ClientSession.Send` | internal/gateway/server.go:242-255 | with nothing between its two steps: a closed session refuses, a full queue refuses, otherwise the message is queued last |
| `SessionQueue.ClientSession.Close` | internal/gateway/server.go:257-264 | closes once |
| `SessionQueue.ClientSession.WriterRound` | internal/gateway/server.go:266-282 | one step of the writer: the case its select takes, or the writing of the message it took |
| `SessionQueue.RunKeepsOrder` | internal/gateway/server.go:242-282 | in every run, whatever comes between the two steps of a Send or between a message's being taken and written, messages are written in the order they were accepted, none twice and none skipped, with at most capacity + 1 of them accepted and unwritten |
| `SessionQueue.ClosedAcceptsAtMostPassed` | internal/gateway/server.go:242-264 | after Close at most as many messages are accepted as callers had passed the test |
| `SessionQueue.ClosedAcceptsNothingIff` | internal/gateway/server.go:242-282 | a closed session accepts nothing more in any run exactly when no caller had passed the test, or the queue is full and the writer gone |
| `SessionQueue.LateLineAccepted` | internal/gateway/server.go:249-254 | otherwise some run accepts such a caller's message |
| `SessionQueue.AcceptedAfterClose` | internal/gateway/server.go:242-264 | a run of a new session in which a message is accepted after Close and never written |
| `Gateway.StepKeepsInv` | internal/gateway/server.go:79-185 | every step of any connection, broker callback or pending counter update keeps ownership, eviction, the openness of holders and the counter |
| `Gateway.ReachableInv` | internal/core/service.go:481-533 | the invariant holds after every interleaving from a fresh start |
| `Gateway.RegisteredAreServed` | internal/gateway/server.go:132-134 | in every reachable state a registered TCP session belongs to a connection bound to that device that the service has not told to close, nor is about to; if no client repeats auth its handler is still running, and has its own unregister to come should its writer or the server have closed it |
| `Gateway.OnlyOwnHangupReleases` | internal/core/service.go:514-533 | a replaced connection's late unregister never evicts its successor: only the holder's own end, or being replaced, ends a registration |
| `Gateway.RunHeldIff` | internal/mqtt/server.go:207-231 | over whole runs, with every broker connection told apart, a device is registered to a client's session exactly when a connection of the client was established for it and since then no other session registered for the device and no connection of the client, that one or another, was disconnected from it |
| `Gateway.LiveSurvivesIff` | internal/mqtt/server.go:222-231 | while an established connection lasts and its client opens no other, the client's registration and binding survive exactly when no other connection of the client is disconnected and no other session registers for the device |
| `Gateway.LateDisconnectReleases` | internal/mqtt/server.go:222-231 | a run in which a client connects twice and its first connection's disconnect comes last: the second is established, but its device is released and its client unbound |
| `Gateway.AllOfflineAtTheEnd` | internal/gateway/server.go:177-185 | when no client repeats auth and all connections have ended no device has a TCP session |
| `Gateway.QuietCounter` | internal/core/service.go:505-532 | with nothing pending the counter is the number of online devices, over both transports |
| `Gateway.OneOpenConnection` | internal/core/service.go:505-511 | of two connections bound to one device all but the holder were, or are about to be, told to close |
| `Gateway.ReturnReleasesIff` | internal/gateway/server.go:117-122 | a bound handler's return leaves its session registered exactly when it returned on a repeated auth while holding the device |
| `Gateway.LeakPersists` | internal/gateway/server.go:119-122 | a session left behind so stays registered until the device registers again |
| `Gateway.RunLeaksIff` | internal/gateway/server.go:117-122 | over whole runs a device stays registered to an ended connection exactly when its handler returned on a repeated auth while holding it and no session registered since |
| `Gateway.OnlyLeaksRemain` | internal/gateway/server.go:119-122 | once all connections have ended the only TCP sessions left are those |
| `Gateway.RepeatAuthLeaks` | internal/gateway/server.go:119-122 | a run of one connection that leaves its device online for good |
| `TelemetryService.Service.EnsureShadow` | internal/core/service.go:990-1012 | the stored shadow, or a fresh one which is then stored |
| `TelemetryService.Service.UpdateDesiredShadow` | internal/core/service.go:344-375 | Desired is replaced and the version rises by one, or the request fails and nothing changes |
| `TelemetryService.Service.ApplyConfigProfile` | internal/core/service.go:292-322 | a profile in scope becomes the device's Desired and counts one application; otherwise nothing changes |
| `TelemetryService.Service.MergeReport` | internal/core/service.go:581-592 | whatever the order in which the values are visited, all of them are merged, and a desired key survives exactly when it was not reported with an equal value |
| `TelemetryService.Service.RuleApplies` | internal/core/service.go:1024-1059 | the scope and condition tests; groups that are known already are not looked up again |
| `TelemetryService.Service.CanTriggerRule` | internal/core/service.go:1070-1083 | a rule without a cooldown, or that never fired for the device, may fire; any other once its cooldown, as a wrapping 64-bit duration, is over |
| `TelemetryService.Service.RecordRuleTrigger` | internal/core/service.go:1085-1094 | the pair's count rises by one and its last time is this one; no other pair changes |
| `TelemetryService.Service.ExecuteRuleActions` | internal/core/automation.go:110-133 | the actions run in order, a failed one not stopping the next; commands and alerts are noted |
| `TelemetryService.Service.EvaluateRules` | internal/core/service.go:1014-1068 | the rules fire in the order the store lists them, each seeing what the ones before it did |
| `TelemetryService.Service.HandleTelemetry` | internal/core/service.go:550-606 | a message is rejected with nothing changed, or stored, merged and evaluated |
| `TelemetryRuntime.HandleMovesShadow` | internal/core/service.go:550-606 | an accepted message overlays Reported, raises the version by one plus one per applied profile, replaces Desired only by applied profiles, and touches no other device |
| `TelemetryRuntime.ReportedWrites` | internal/core/service.go:572-597 | storing a report is exactly two writes to the store |
| `TelemetryRuntime.ShadowRefinesHistory` | internal/core/service.go:581-597 | after any run Reported is the accepted messages laid over one another in order |
| `TelemetryRuntime.OverlayIsLast` | internal/core/service.go:581-587 | so a key has the value of the last accepted message that contains it |
| `TelemetryRuntime.OverlayUntouched` | internal/core/service.go:581-587 | and a key in no accepted message keeps what it had |
| `TelemetryRuntime.RulesAreIndependent` | internal/core/service.go:1024-1066 | a message fires exactly the rules that match and were out of cooldown when it came in, each once, whatever the rules before them did |
| `TelemetryRuntime.RunKeepsCooldown` | internal/core/service.go:1014-1094 | in every run, with timestamps in any order, two firings of a rule for a device are at least its cooldown apart |
| `TelemetryRuntime.FiringRateBounded` | internal/core/service.go:1070-1094 | so any closed window of length W holds at most W / cooldown + 1 firings |
| `TelemetryRuntime.RunKeepsTotal` | internal/core/service.go:870-924 | after any run a rule's total counts exactly its own firings |
| `Cooldown.HonouredIff` | internal/core/service.go:1079-1082 | the test keeps firings a full cooldown apart exactly when the cooldown in nanoseconds fits 64 bits |
| `Cooldown.KeyInjective` | internal/core/service.go:1686-1688 | for ids without NUL the state key determines rule and device |
| `Cooldown.PrefixIff` | internal/core/service.go:1686-1688 | a key has a rule's prefix exactly when it is that rule's |
| `Cooldown.RecordRemembers` | internal/core/service.go:1085-1094 | the states remember each pair's number of firings and the last time |
| `Cooldown.RecordSpaced` | internal/core/service.go:1060-1065 | a firing that passed the test keeps the gap |
| `FiringRaces.StepKeepsInv` | internal/core/service.go:1060-1065 | every test and recording, in any order, keeps the rule states in step with the firings, and a message that passed the test would pass it still as long as its pair has not fired since |
| `FiringRaces.RacesSpacedIff` | internal/core/service.go:1060-1065 | test and recording are two critical sections: over every interleaving of any number of messages the firings of a rule for a device stay a cooldown apart exactly when each message that a firing of the pair overtook, between its test and its recording, is a full cooldown later than that firing |
| `FiringRaces.OvertakenIff` | internal/core/service.go:1070-1094 | a message is overtaken exactly when its pair fires after its test and before its recording |
| `FiringRaces.FiresTwice` | internal/core/service.go:1060-1065 | a run, from every state in which a rule with a cooldown may fire: two messages with one timestamp interleave, and it fires twice at one time |
| `Cooldown.WindowBound` | internal/core/service.go:1070-1083 | times a gap apart: at most W / gap + 1 in a closed window of length W |
| `Cooldown.ViewTotals` | internal/core/service.go:870-924 | the totals loop: the sum of the rule's counts and the latest of its times |
| `Cooldown.TotalAfterRecord` | internal/core/service.go:1085-1094 | a firing adds one to its own rule's total and to no other's |
| `Provisioning.Service.CheckScope` | internal/core/multitenant_ota.go:195-211 | tenant must exist; a product's tenant is inherited, or must agree |
| `Provisioning.Service.CreateTenant` | internal/core/multitenant_ota.go:15-46 | a tenant gets a normal slug that no other has, or the request fails and nothing changes |
| `Provisioning.Service.CreateProduct` | internal/core/multitenant_ota.go:126-166 | what a product request adds, or why it is refused |
| `Provisioning.Service.CreateGroup` | internal/core/multitenant_ota.go:189-229 | what a group request adds, or why it is refused |
| `Provisioning.Service.CreateDevice` | internal/core/multitenant_ota.go:252-314 | a device with its first shadow, or the reason for refusal |
| `Provisioning.Service.CreateConfigProfile` | internal/core/multitenant_ota.go:341-387 | a profile whose values fit its product, or the reason for refusal |
| `Provisioning.Service.CreateFirmwareArtifact` | internal/core/multitenant_ota.go:531-577 | an artifact, or the reason for refusal |
| `Provisioning.Service.UpdateProductThingModel` | internal/core/service.go:167-185 | a product's thing model is replaced, its scope kept |
| `Provisioning.Service.UpdateProductAccessProfile` | internal/core/service.go:187-207 | the product is saved with its scope kept, or the request is refused |
| `Provisioning.Service.UpdateDeviceTags` | internal/core/service.go:271-282 | a device's tags are replaced, its scope kept |
| `Provisioning.Service.AssignDeviceToGroup` | internal/core/service.go:229-251 | a device joins only a group whose tenant and product, where set, are its own |
| `Provisioning.Service.RemoveDeviceFromGroup` | internal/core/service.go:253-265 | exactly the pair leaves the relation; an unknown group or device is reported and nothing changes |
| `Scoping.ResolveIff` | internal/core/multitenant_ota.go:195-211 | the scope check passes exactly when some existing tenant is suitable, and grants that one |
| `Scoping.ServeKeepsScopes` | internal/core/multitenant_ota.go:189-387 | every request keeps the scoping invariant |
| `Scoping.ReloadKeeps` | internal/store/memory/snapshot.go:142-232 | so does a snapshot and restore |
| `Scoping.ReachableScopes` | internal/core/multitenant_ota.go:189-387 | in every reachable store entities with a product have an existing one of their own tenant, members suit their groups, and tenants have pairwise distinct normal slugs |
| `RuleScoping.Service.NarrowScope` | internal/core/multitenant_ota.go:430-475 | a rule's open tenant and product are taken over from group, device and product in turn; closed ones must agree |
| `RuleScoping.Service.NormalizeRuleCondition` | internal/core/service.go:1461-1510 | the condition with trimmed property and canonical operator, or the reason for refusal |
| `RuleScoping.Service.NormalizeRuleActions` | internal/core/multitenant_ota.go:676-727 | the actions as stored, or the first one's reason for refusal |
| `RuleScoping.Service.CreateRule` | internal/core/multitenant_ota.go:410-508 | a rule request adds exactly the rule drawn up, or fails and changes nothing |
| `RuleScoping.DrawnFits` | internal/core/multitenant_ota.go:410-508 | a rule drawn up has an existing tenant, if any, agrees with the group and device it names and with its product if that exists, asks something that can hold, and applies only existing profiles of its own tenant |
| `RuleScoping.RunKeepsRules` | internal/core/multitenant_ota.go:410-508 | in every reachable store every rule still has an existing tenant, agrees with its group and device, and applies only existing profiles of its own tenant |
| `RuleScoping.RunKeepsProducts` | internal/core/multitenant_ota.go:468-475 | with fresh product ids, in every reachable store a rule's product, if it exists, belongs to the rule's tenant, and its profiles are for that product or for none |
| `RuleScoping.UnknownProductAccepted` | internal/core/service.go:1118-1129 | a rule may name a product that does not exist |
| `RuleScoping.DrawnProductExistsIff` | internal/core/multitenant_ota.go:430-475 | in a scoped store a rule names an existing product, or none, exactly when its request did |
| `RuleScoping.FiringStaysInTenant` | internal/core/service.go:1024-1064 | in the store of any run, when a rule with a tenant matches a stored device, each profile it applies exists and is never refused for its tenant; it is refused for its scope exactly when it is for another product |
| `OtaTargets.FilterDevices` | internal/core/multitenant_ota.go:909-923 | the loop keeps, in listing order, exactly the ids of the devices in the campaign's tenant and product |
| `OtaTargets.ResolveTargetDevices` | internal/core/multitenant_ota.go:901-924 | the devices a campaign addresses, in all three scopes |
| `OtaTargets.ListingLists` | internal/core/multitenant_ota.go:909-912 | every listing of a scoped store has each device exactly once |
| `OtaTargets.AcceptedIff` | internal/core/multitenant_ota.go:806-852 | in a scoped store a campaign is accepted exactly when the device, or else the group and the product it names, exist and fit, and some product is named; the product looked up for a group never refuses it |
| `OtaTargets.ProductScopeTargetsIff` | internal/core/multitenant_ota.go:909-923 | without a device or group a campaign addresses exactly the devices of its tenant and product |
| `OtaTargets.TargetsAreSafe` | internal/core/multitenant_ota.go:806-924 | every device an accepted campaign addresses exists and has the campaign's tenant; and the artifact's product, unless the campaign addresses a group without one |
| `OtaTargets.ReachableTargetsAreSafe` | internal/core/multitenant_ota.go:604-653 | so in the store of every run |
| `OtaTargets.GroupSafeIff` | internal/core/multitenant_ota.go:905-907 | over all scoped stores, a campaign for a group reaches only devices of the artifact's product exactly when the group is bound to a product, or is of a tenant for which no store accepts it |
| `OtaTargets.MixedUnsafe` | internal/core/multitenant_ota.go:828-834 | for every such group and artifact, a scoped store in which the group exposes a device of another product |
| `OtaTargets.GroupMistargets` | internal/core/multitenant_ota.go:828-907 | a run of six requests after which an accepted campaign addresses a device of another product than its artifact's |
| `OtaDispatch.Service.SendCommandWithCampaign` | internal/core/automation.go:14-84 | a command is stored with its final status, or not at all; each reason for failure is told apart, and success means it was delivered |
| `OtaDispatch.AttemptWrites` | internal/core/automation.go:43-78 | an attempt is two writes, the pending command and its outcome |
| `OtaDispatch.AckStandsIff` | internal/core/automation.go:67-75 | noting that a command was sent can overwrite an acknowledgement: a delivered command ends up acknowledged exactly when an acknowledgement came after the note |
| `OtaDispatch.AckOverwritten` | internal/core/automation.go:67-75 | an acknowledgement handled between delivery and note is overwritten |
| `OtaDispatch.Service.Dispatch` | internal/core/multitenant_ota.go:854-899 | one attempt per target, counted on the dispatch's own copy, which then replaces the stored campaign |
| `OtaDispatch.DispatchAccounts` | internal/core/multitenant_ota.go:872-893 | Dispatched + Failed = Total; running, partial or pending exactly as all, some or none were sent |
| `OtaDispatch.CommandsGoToTargets` | internal/core/multitenant_ota.go:876-883 | every command a dispatch stores belongs to the campaign and goes to a target |
| `OtaDispatch.Service.CreateOTACampaign` | internal/core/multitenant_ota.go:604-653 | a refused request changes nothing; an accepted one stores the planned campaign, dispatches it and saves it over, and changes nothing but that campaign and the commands |
| `OtaDispatch.CampaignCommandsAreSafe` | internal/core/multitenant_ota.go:604-653 | from request to device: a campaign's commands reach only devices of its tenant, and of the artifact's product unless its group has none |
| `OtaDispatch.Service.UpdateCampaignFromCommandAck` | internal/core/automation.go:86-108 | counters and status after one acknowledgement |
| `OtaDispatch.Service.HandleCommandAck` | internal/core/service.go:612-639 | an acknowledgement for another device's command is refused; otherwise command and campaign are updated |
| `OtaDispatch.AckTouchesOwnCampaign` | internal/core/service.go:617-634 | a device can count only towards the campaign its own command was sent for |
| `OtaAccounting.OrderlyAccounts` | internal/core/automation.go:86-108 | if each delivered command is acknowledged at most once and after the save, then under any overlap and any loss of acknowledgements Acked + Failed exceeds Total by no more than the acknowledged commands that had been counted as failed, and the status is completed exactly when Total > 0, nothing failed and Acked = Total |
| `OtaAccounting.WithinTotalIff` | internal/core/automation.go:67-78 | every such continuation of a saved dispatch keeps Acked + Failed within Total exactly when no command was delivered and yet counted as failed, its status not being noted |
| `OtaAccounting.UnnotedCountsTwice` | internal/core/automation.go:75-78 | a command delivered but counted as failed counts once more when it is acknowledged: two of one |
| `OtaAccounting.NeverSavedIff` | internal/core/multitenant_ota.go:895-897 | a dispatch whose final save fails leaves no totals: Acked + Failed stays within them exactly until an acknowledgement is counted |
| `OtaAccounting.SequentialCounts` | internal/core/multitenant_ota.go:872-899 | without overlap the counters are the failed sends plus the acknowledgements after the save |
| `OtaAccounting.SequentialIff` | internal/core/multitenant_ota.go:895-898 | without overlap Acked + Failed <= Total exactly when no more acknowledgements follow the save than commands were counted as sent, and all acknowledgements are counted exactly when none came before it |
| `OtaAccounting.CountedExactlyIff` | internal/core/automation.go:86-108 | over every interleaving with any acknowledgements of any commands, some of which may fail to be saved: the total stands and Acked + Failed is the failed sends plus the acknowledgements completed since the save, exactly when after the save no acknowledgement completes between the read and the write of another, and none that had read before it completes |
| `OtaAccounting.OverlapLosesOne` | internal/core/automation.go:87-107 | two acknowledgements, of one command or of two, that both read before either writes count as one |
| `OtaAccounting.DuplicateCountsTwice` | internal/core/service.go:612-639 | one command acknowledged twice after the save: two acknowledged of one |
| `OtaAccounting.EarlyAckLost` | internal/core/multitenant_ota.go:895-898 | one command acknowledged before the save: none acknowledged, and the campaign stays running |
| `OtaAccounting.StraddlingResets` | internal/core/multitenant_ota.go:895-898 | an acknowledgement that reads before the save and writes after it undoes the save |
| `MqttCodec.EncodeRemainingLength` | cmd/mvp-loadgen/main.go:494-508 | the loop writes the groups of seven bits, least significant first, of which the next rows speak |
| `MqttCodec.LengthRoundTrip` | cmd/mvp-loadgen/main.go:469-508 | decoding undoes encoding, whatever follows, for every n below 128^4, and refuses the encoding of every larger n |
| `MqttCodec.DecodeConsumes` | cmd/mvp-loadgen/main.go:469-486 | a successful decode consumes one to four bytes and leaves the rest untouched; otherwise there were too few bytes or a fifth group |
| `MqttCodec.ReencodeIffMinimal` | cmd/mvp-loadgen/main.go:469-508 | re-encoding a decoded value gives back the bytes exactly when they were minimal |
| `MqttCodec.Conn.ReadRemainingLength` | cmd/mvp-loadgen/main.go:469-486 | returns the length the unread bytes decode to and consumes exactly its bytes; fails after four bytes on a fifth group, or at the end of the input |
| `MqttCodec.Conn.ReadPacket` | cmd/mvp-loadgen/main.go:448-467 | returns type and body of the packet the unread bytes start with and leaves exactly what follows it, or fails |
| `MqttCodec.WriteString` | cmd/mvp-loadgen/main.go:488-492 | a two-byte length, truncated, then the bytes |
| `MqttCodec.StringRoundTripIff` | cmd/mvp-loadgen/main.go:488-492 | a string survives its length field exactly when it is under 65536 bytes |
| `MqttCodec.BuildConnectPacket` | cmd/mvp-loadgen/main.go:418-434 | builds exactly a CONNECT packet |
| `MqttCodec.BuildPublishPacket` | cmd/mvp-loadgen/main.go:436-446 | builds exactly a PUBLISH packet |
| `MqttCodec.PacketRoundTripIff` | cmd/mvp-loadgen/main.go:418-467 | a packet is read back whole, whatever follows, exactly when its body is under 128^4 bytes |
| `MqttCodec.BodyRoundTripIff` | cmd/mvp-loadgen/main.go:418-446 | parsing a body recovers client id, username and password, or topic and payload, exactly when each string is under 65536 bytes |
| `MqttCodec.PublishRoundTripIff` | cmd/mvp-loadgen/main.go:436-446 | a publish body loses its topic exactly when the topic is too long |
| `MqttCodec.StreamRoundTrip` | cmd/mvp-loadgen/main.go:448-467 | any concatenation of built packets is read back as the same packets in order |
| `MqttCodec.StreamInjective` | cmd/mvp-loadgen/main.go:418-446 | different packet lists never look alike on the wire |
| `Routing.CommutesIff` | internal/mqtt/server.go:303-322 | resolving the template the load generator stores gives the topic it publishes to exactly when a condition on template and id holds |
| `Routing.PlainIDCommutes` | cmd/mvp-loadgen/main.go:510-523 | which it does for every template when the id has no slash and at least three characters |
| `Routing.ShortIDDiffers` | internal/mqtt/server.go:303-322 | a template and a two-letter id for which the two differ |
| `Routing.TopicsDistinct` | internal/mqtt/server.go:303-322 | one device's three topics are pairwise distinct, for every template and id |
| `Routing.TopicsIsolated` | internal/mqtt/server.go:303-322 | topics of distinct devices are disjoint |
| `Routing.TopicMatch` | internal/mqtt/server.go:324-346 | the index loop decides the level-wise match of the next row, outer slashes aside |
| `Routing.MatchIff` | internal/mqtt/server.go:324-346 | which matches exactly when the levels fit one by one up to a "#" or to the end of both |
| `Routing.LiteralFilterIff` | internal/mqtt/server.go:194-205 | a filter without wildcards is granted exactly when it names the device's own command topic, outer slashes aside |
| `Routing.NamedSubscriptionIsolated` | internal/mqtt/server.go:194-205 | no device may subscribe by name to another's command topic |
| `Routing.HashIsGranted` | internal/mqtt/server.go:194-205 | the filter "#" is granted to every bound client |
| `Subscriptions.MatchesOtherIff` | internal/mqtt/server.go:324-346 | a filter that matches one topic matches another of as many levels exactly when every level at which they differ has a "+", or a "#" there or before |
| `Subscriptions.FillsLevels` | internal/mqtt/server.go:303-322 | filling an id into a template fills in its levels one by one |
| `Subscriptions.GrantCoversOtherIff` | internal/mqtt/server.go:194-205 | a filter granted to one device covers another's command topic too exactly when it covers every level of the template that mentions the device id |
| `MqttHook.AuthHook.OnACLCheck` | internal/mqtt/server.go:194-205 | an unbound client is refused; a bound one may publish to its two topics only |
| `MqttHook.AuthHook.OnConnectAuthenticate` | internal/mqtt/server.go:144-192 | a client is accepted, and bound to that device's topics, exactly when it presents the token of the device it claims to be |
| `MqttHook.AuthHook.OnSessionEstablished` | internal/mqtt/server.go:207-220 | a bound client is registered as its device's session |
| `MqttHook.AuthHook.OnDisconnect` | internal/mqtt/server.go:222-231 | the session registered under the client id goes, and so does the client's binding |
| `Slug.NormalizeTenantSlug` | internal/core/multitenant_ota.go:780-804 | loop and trimming together compute the slug of which the next rows speak |
| `Slug.SlugIsNormal` | internal/core/multitenant_ota.go:780-804 | every slug is non-empty, over [a-z0-9-], without leading, trailing or doubled dash |
| `Slug.FixedIffNormal` | internal/core/multitenant_ota.go:780-804 | normalisation leaves alone exactly the slugs in normal form |
| `Slug.SlugIdempotent` | internal/core/multitenant_ota.go:780-804 | normalising again changes nothing |
| `AccessProfile.NormalizeModes` | internal/core/service.go:1256-1320 | the step-by-step rewriting gives aliases for what was set and defaults, which depend on each other, for what was not |
| `AccessProfile.NormalizeMappings` | internal/core/service.go:1326-1345 | the mappings, or failure at the first blank one |
| `AccessProfile.NormalizeAccessProfile` | internal/core/service.go:1256-1345 | the normal profile, or failure exactly when a mapping has a blank source or property; the error for an empty mode field is never returned |
| `AccessProfile.ModesFilled` | internal/core/service.go:1256-1324 | all five mode fields are filled in for every input |
| `AccessProfile.NormalizeIdempotent` | internal/core/service.go:1256-1442 | normalising a normal profile changes nothing |

## Left out

- HTTP handlers, the web UI, configuration, setup, simulators, metrics text and device firmware: plumbing around the core, or hardware.
- The MQTT broker library and sockets: their outcomes are the steps and faults of the model.
- Creation times: whole-table listings are answered as sets, and the order in which rules and devices are listed is a parameter.
- View builders other than the trigger totals of a rule, clone helpers, logging and statistics counters other than the online counter.
- `lastSeen` and `connectedAt` of a device's state, which nothing else depends on.
- Retentions that are not positive arise neither from the constructor nor from a restore; for a negative one, on which the source's slicing would panic, the model lists nothing.
- Strings that are not valid UTF-8, and letters outside ASCII in lower case conversion other than the two that become ASCII.
- TelemetryService.Service.ExecuteRuleActions: send_command and alert actions are recorded in order but not written to the store, since they touch neither shadows nor rule states; the store is the in-memory one, whose writes to shadows and telemetry do not fail.
- TelemetryService.Service.MergeReport: equality of decoded values is by number, flag, text, or the printed form, which is a parameter of the value.
- RuleScoping.Service.NormalizeRuleActions: the severities of rules and actions are not modelled, because scopes do not depend on them.
- Provisioning.Service.CreateProduct: thing models and access profiles that normalise are told from those that do not by a flag; the access profile's own normalisation is in `AccessProfile`.
- Provisioning.Service.UpdateProductThingModel: the same flag stands for normalizeThingModel.
- Provisioning.Service.UpdateProductAccessProfile: the same flag stands for the profile's normalisation and the check of its mappings; the product's record holds no access profile.
- Provisioning.Service.CreateDevice: the store is the in-memory one, so the second write, of the shadow, cannot fail after the first.
- Provisioning.Service.CreateTenant: two concurrent requests for one slug can both pass the check; slugs are distinct in runs where requests do not overlap.
- Gateway.AllOfflineAtTheEnd: MQTT sessions end by broker callbacks, which the model does not force to come.
- OtaDispatch.Service.HandleCommandAck: the acknowledgement is one step there; its read and write are separate steps in `OtaAccounting`.
- OtaDispatch.Service.SendCommandWithCampaign: the two writes of an attempt are one step there; what can come between them is in `OtaDispatch.AckStandsIff`. The store is the in-memory one, whose write of the status does not fail; a delivered command whose status cannot be noted is in `OtaAccounting`.
- OtaDispatch.Service.Dispatch: the store is the in-memory one, so the final save does not fail once commands are out; a dispatch that is never saved is in `OtaAccounting.NeverSavedIff`.
- OtaDispatch.Service.CreateOTACampaign: for the same reason no request fails after dispatching.
- Standbys are modelled as appliers only; reading a shadow on one, which can store a fresh shadow, is not modelled.
- Listing, filtering and updating alerts, beyond the store's own alert operations.
- Setup snapshots shipped to peers, the shared secret and the HTTP status of a replication request: transport.
