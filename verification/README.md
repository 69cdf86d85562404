# Hamlet: models and proofs

This project models the home node's long-running state machines and proves what they keep over
every run. `dafny verify dfyconfig.toml` checks all of it.

- **Beacon registry and message loop** (`Registry*.dfy`, `SessionLoss.dfy`, `BeaconRegistry.dfy`,
  `MessageLoop.dfy`, `Handshake.dfy`). The select loop is a machine over `Action`s; the timeout
  sweep is split into micro steps, and an `Abandon` step is enabled exactly where the sweep is
  suspended at an await; `SessionLost` is enabled at every instant. `Held` is the map of records
  plus the one a sweep has taken out of it. Results cover gateway connections, the URLs that leak
  into `known_gateways`, broadcast topics, broker subscriptions and their loss, timing, and an
  order-free closed form of a completed sweep.
- **Broadcast keys** (`Key*.dfy`). The key table under select, retire, insert and delete, each of
  which may fail, with the clock re-read in between; token slots; hexadecimal fields; the loop.
- **Supervisor** (`Services.dfy`, `Supervisor*.dfy`). Status map against what the five services
  privately hold, over all command sequences; the actor owns one object per service.
- **Reconnecting tasks** (`Backoff.dfy`, `CloudGateway*.dfy`, `GatewayMqtt*.dfy`). The WebSocket
  task (order and loss of frames) and the MQTT task (login, re-login, backoff).
- **Certificate authority** (`CreateIfAbsent.dfy`, `CaService.dfy`). Select-then-insert by any
  number of concurrent callers, with restarts.

Each machine is a `Step` function folded over a sequence of actions that carry everything the
environment decides: clock readings, replies, failures, the order a hash map yields its keys, which
await is dropped. Theorems quantify over all such sequences. The `*Outcomes` and `*Trace` modules
say what every step of every run comes to in terms of the events and the fields alone, so the
invariants elsewhere are about the program's behaviour and not only about the model's own records. The objects and loops of the program
are classes and methods proved to take exactly the machine's steps.

Assumptions, stated where used: clocks do not go back; handshake ids are fresh; the rotation
interval and expiry do not change; a serialised private key parses back; HMAC is a function; a
subscribe or unsubscribe request the MQTT client confirms is carried out at once.

Where the code and its comments differ, the code is modelled:

- `src/config.rs:268-272` says a retired key is kept for `key_expiry` after rotation; expiry counts
  from creation (`KeyTable.SweptBeforeExpiryAfterRotation`). The comment also demands an expiry
  greater than the rotation interval, which nothing enforces; below it the active key itself is
  swept (`KeyWindows.ShortExpiryCutsWindow`).
- `src/services/beacon_management/registry.rs:34` says `known_gateways` holds the URLs we are
  connected to or own. That fails after three kinds of step, and exactly then
  (`RegistryGateways.KnownExactIffNoStepLeaks`, `RegistryWitnesses`); what leaks is never recovered.
- The MQTT client keeps rumqttc's clean session and subscribes to nothing again after a reconnect
  (`src/services/mqtt_client/tasks.rs:57-71`): the required topics are then gone for good
  (`RegistrySubscriptions.RequiredIffNeverLost`) and every registered beacon is deregistered
  although it may still be talking (`SessionLoss.LostBeaconIsDeregistered`).
- A WebSocket connection whose Register frame cannot be sent is retried without any delay, without
  bound, and only then (`CloudGatewayPacing.RefusalsAreNotDelayed`, `RetryUnwaitedIffRefused`).
- Restarting a running MQTT client, or either cloud client, ends it for good
  (`Supervisor.RestartEndsTakeOnce`).

## Model

| member | source | states |
|---|---|---|
| `RegistryGateways.RunKeepsGateways` | src/services/beacon_management/registry.rs:128-204 | every run keeps the mutual invariant: record URLs known, pairwise distinct, never the own one; live senders are exactly those owned by a record |
| `RegistryGateways.OneLiveConnectionPerUrl` | src/app.rs:242-309 | at every instant of every run, abandoned sweeps included, live connections have distinct URLs and each sender is owned by exactly one record carrying that known URL |
| `RegistryGateways.OwnUrlKnownAndNeverDialled` | src/services/beacon_management/registry.rs:51-54 | the own gateway URL never leaves `known_gateways` and is never dialled |
| `RegistryGateways.StepLeaksExactly` | src/app.rs:286-308 | a step adds exactly the URLs its guards say it leaks, all of them new |
| `RegistryGateways.KnownExactIffNoStepLeaks` | src/services/beacon_management/registry.rs:34-35 | `known_gateways` is the own URL plus the connected ones if and only if no step advertised a new URL off a registered beacon's topic, replaced a beacon's URL, or abandoned the sweep of a beacon with one |
| `RegistryGateways.LeakIsPermanent` | src/services/beacon_management/registry.rs:159-163 | a leaked URL stays known in every continuation, with no live connection, and is never dialled again |
| `RegistryTopics.RegisteredTopicsAreListed` | src/services/beacon_management/registry.rs:98-104 | every registered beacon's broadcast topic is in the shared list, abandoned sweeps or not |
| `RegistryTopics.TopicsExactIffNoOrphans` | src/services/beacon_management/registry.rs:153-157 | the list is exactly the registered beacons' topics if and only if every topic an abandoned sweep orphaned was registered again |
| `RegistryTopics.UninterruptedSweepsKeepTopicsExact` | src/services/beacon_management/registry.rs:138-167 | without abandoned sweeps the list is exact at every instant |
| `RegistryTopics.FreshTopicsExactIffNoStepOrphans` | src/services/beacon_management/internals/handlers.rs:53-73 | with fresh ids, exactness holds if and only if no abandoned sweep ever held a beacon with a broadcast topic |
| `RegistryTopics.FreshIdsListTopicsOnce` | src/app.rs:70-85 | with fresh ids no topic is listed twice, so a cycle publishes to each once |
| `RegistryTopics.WithoutMeans` | src/services/beacon_management/registry.rs:155-156 | `retain` keeps exactly the other topics and introduces no duplicate |
| `RegistrySubscriptions.SubscribedIffSessionKept` | src/services/beacon_management/registry.rs:87-96 | a registered beacon's confirmed listen topic is subscribed if and only if the broker session has not been lost since that subscription |
| `RegistrySubscriptions.RequiredIffNeverLost` | src/app.rs:183-188 | a start-up subscription is there if and only if no session was ever lost |
| `RegistrySubscriptions.SubsExactIffNothingLeftOrLost` | src/services/beacon_management/registry.rs:142-151 | subscriptions are the initial ones plus the registered beacons' topics if and only if nothing a failed or dropped unsubscribe left behind is still there and either no session was lost, or nothing was initial and every beacon was subscribed to since |
| `SessionLoss.LossMidSweepIsLossAfter` | src/services/mqtt_client/tasks.rs:57-71 | a session lost at any point of a sweep leaves the state of one lost right after it |
| `SessionLoss.LostBeaconIsDeregistered` | src/services/mqtt_client/tasks.rs:57-71 | after a loss, once the inbound queue is drained, no registered beacon is heard again: with punctual sweeps it is gone 150 s after it was last heard (180 s if the sweep has yet to visit it) |
| `RegistrySweep.SweepRemovesExactlyTheSilent` | src/services/beacon_management/registry.rs:131-168 | a completed sweep equals an order-free closed form removing exactly the beacons silent for more than 120 s |
| `RegistrySweep.SurvivorsAreUndisturbed` | src/services/beacon_management/registry.rs:138-167 | a completed sweep leaves survivors' records, topics, gateways, connections and subscriptions, and the required subscriptions, alone |
| `RegistrySweep.AdvertConnects` | src/app.rs:286-308 | an unknown URL on a registered beacon's topic yields one live connection owned by that beacon and changes no other record |
| `RegistrySweep.EvictedGatewayCanReconnect` | src/services/beacon_management/registry.rs:159-163 | after a completed sweep a deregistered beacon's gateway can be connected to again by any registered beacon |
| `RegistryOutcomes.RegisterOutcome` | src/services/beacon_management/registry.rs:73-119 | for all three topic types and both replies: what is subscribed, listed and noted; of an existing record nothing else changes, not even when it was last heard |
| `RegistryOutcomes.MessageOutcome` | src/app.rs:261-290 | only the sender is marked heard, whatever the message says; a known URL changes nothing more |
| `RegistryOutcomes.AdvertOutcome` | src/app.rs:289-307 | a new URL from a registered beacon is dialled, becomes known, and its connection replaces that beacon's |
| `RegistryOutcomes.StrayAdvertOutcome` | src/app.rs:289-307 | a new URL from anybody else is dialled and becomes known, its connection dropped at once |
| `RegistryOutcomes.AbandonOutcome` | src/services/beacon_management/registry.rs:138-157 | a sweep is dropped only at an await, and exactly its local record and that record's connection go with it |
| `RegistryTimeouts.RegisteredWasHeardRecently` | src/services/beacon_management/registry.rs:11-15 | with ticks at most 30 s apart and completed sweeps, at every instant, mid-sweep too, every registered beacon was heard at most 150 s ago, and those the running sweep has yet to visit at most 180 s ago |
| `RegistryTimeouts.SilenceBoundsAreReached` | src/services/beacon_management/registry.rs:128-139 | a punctual run in which a beacon is registered 150 s after it was heard, and one in which it is 180 s while the sweep has yet to visit it |
| `RegistryTimeouts.TalkativeStaysRegistered` | src/app.rs:263-267 | a beacon whose processed messages are never more than 120 s apart is never deregistered, in any run |
| `RegistryWitnesses.OffTopicAdvertLeaks` | src/app.rs:303-307 | a run in which a URL advertised on another topic ends up known and unconnected |
| `RegistryWitnesses.SecondAdvertLeaks` | src/services/beacon_management/registry.rs:194-204 | a run in which a beacon's second URL makes its first one known and unconnected |
| `RegistryWitnesses.AbandonedSweepLeaks` | src/services/beacon_management/registry.rs:139-144 | a run in which an abandoned sweep leaves a URL known and unconnected |
| `RegistryWitnesses.AbandonedSweepOrphansTopic` | src/services/beacon_management/registry.rs:139-156 | a handshake run in which an abandoned sweep leaves a topic listed with no beacon |
| `RegistryWitnesses.AbandonedAtRetainOrphansTopic` | src/services/beacon_management/registry.rs:153-157 | a handshake run in which a sweep dropped at its second await leaves a topic listed with no beacon |
| `RegistryWitnesses.LostSessionUnsubscribes` | src/services/mqtt_client/mqtt_client_service.rs:139-142 | a run in which a beacon stays registered with neither its topic nor a required one subscribed |
| `RegistryWitnesses.FailedUnsubscribeLeavesTopic` | src/services/beacon_management/registry.rs:142-151 | a run in which a completed sweep leaves the topic of nobody subscribed |
| `Handshake.OfferChannels` | src/services/beacon_management/internals/handlers.rs:53-74 | a handshake offers `id/rec` then `id/cast`, and a full queue of 64 takes neither |
| `Handshake.HandshakesSatisfyRegistry` | src/services/beacon_management/internals/handlers.rs:53-74 | whatever the interleaving of offers and receives, the loop registers handshake-made channels, each broadcast channel at most once |
| `Handshake.AdmittedAreReceivedInOrder` | src/app.rs:155 | channels offered while fewer than 64 wait are received, in order, and no others |
| `BeaconManagement.BeaconRegistry.constructor` | src/services/beacon_management/registry.rs:46-66 | a new registry knows only its own URL |
| `BeaconManagement.BeaconRegistry.RegisterChannel` | src/services/beacon_management/registry.rs:73-119 | takes the machine's register step for all three topic types and both subscribe outcomes |
| `BeaconManagement.BeaconRegistry.UpdateLastSeen` | src/services/beacon_management/registry.rs:173-177 | refreshes the record if there is one |
| `BeaconManagement.BeaconRegistry.IsGatewayKnown` | src/services/beacon_management/registry.rs:180-182 | answers membership in `known_gateways` |
| `BeaconManagement.BeaconRegistry.InsertAndConnect` | src/app.rs:291-292 | the URL becomes known and one new connection comes alive |
| `BeaconManagement.BeaconRegistry.AssociateGateway` | src/services/beacon_management/registry.rs:194-204 | the record takes over URL and sender, dropping its previous sender; without a record the new sender is dropped |
| `BeaconManagement.BeaconRegistry.CollectStale` | src/services/beacon_management/registry.rs:131-136 | the stale ids, in the map's iteration order |
| `BeaconManagement.BeaconRegistry.Deregister` | src/services/beacon_management/registry.rs:138-166 | the loop body takes the machine's eviction steps, with the reply its await gave, or the steps up to the await at which it is dropped |
| `BeaconManagement.BeaconRegistry.CheckTimeouts` | src/services/beacon_management/registry.rs:128-168 | a sweep is a run of the machine; it completes if and only if none of the awaits its stale beacons need is dropped, and then leaves the closed form of a completed sweep with the replies those awaits gave |
| `BeaconManagement.BeaconRegistry.ProcessMessage` | src/app.rs:263-309 | takes the machine's message step |
| `MessageLoop.RunBeaconMessageLoop` | src/app.rs:234-311 | the loop is a run of the machine, one block of actions per event until the inbound channel closes; if no await is dropped the broadcast list it leaves is exact, and if sweeps are on time nobody silent for over 150 s is registered |
| `MessageLoop.OnTimeIsPunctual` | src/app.rs:242-267 | undropped sweeps at most 30 s apart make the loop's run punctual, so all timing results hold of it |
| `KeyTable.Lookup` | src/services/beacon_management/key_management.rs:79-89 | the active row with the latest rotation time still ahead, or proof there is none |
| `KeyTable.RunKeepsTable` | src/services/beacon_management/key_management.rs:76-191 | in every reachable table, failed inserts included: one active key at most, retired keys past rotation, creations at least one interval apart, distinct ids, right blob lengths |
| `KeyTable.StoredRowsLoad` | src/services/beacon_management/key_management.rs:207-226 | every stored row loads back as the key that the rotation which drew its id, material and creation time returned |
| `KeyTable.LoadOutcome` | src/services/beacon_management/key_management.rs:207-226 | a row loads if and only if its blobs are 4 and 16 bytes, unchanged; otherwise the error says which is wrong |
| `KeyTable.CallOutcome` | src/services/beacon_management/key_management.rs:76-191 | in every run, case by case, the table and the result after a call: failed query, current key, failed retire, failed or colliding insert (the retirement stays), new key |
| `KeyTable.SweepOutcome` | src/services/beacon_management/key_management.rs:136-149 | a sweep deletes exactly the rows whose expiry has come; a failed one touches nothing |
| `KeyTable.SweepBoundsTable` | src/services/beacon_management/key_management.rs:136-149 | after a sweep the table holds at most ceil(expiry / rotation) rows, all created within the last expiry seconds |
| `KeyTable.HandedOutKeyIsKept` | src/services/beacon_management/key_management.rs:136-157 | a key handed out at t stays stored through any later calls and sweeps up to t + (expiry - rotation) |
| `KeyTable.SweptBeforeExpiryAfterRotation` | src/services/beacon_management/key_management.rs:155-157 | nothing survives a sweep expiry - rotation or more after its rotation time |
| `KeyWindows.StableIffExpiryCoversRotation` | src/services/beacon_management/key_management.rs:76-98 | all calls in one rotation window return one key, in every run, if and only if expiry is at least rotation |
| `KeyWindows.ShortExpiryCutsWindow` | src/services/beacon_management/key_management.rs:136-142 | for every shorter expiry, a run in which the active key is swept and replaced inside its window |
| `KeyWindows.RetentionMarginIsTight` | src/services/beacon_management/key_management.rs:136-157 | one second past the margin a sweep can delete the key |
| `KeyWindows.TableBoundIsReached` | src/services/beacon_management/key_management.rs:136-149 | for every rotation >= 1 and every expiry, a run whose last sweep leaves exactly ceil(expiry / rotation) rows, given that many key ids |
| `KeyWindows.DefaultBoundIsReached` | src/services/beacon_management/key_management.rs:136-149 | with the defaults, and whenever rotation < expiry <= 2 * rotation, the table reaches two rows |
| `KeyTokens.DriftIsTolerated` | src/services/beacon_management/key_management.rs:35-42 | a receiver that holds the material and is off by at most one rotation interval finds the token among slots s-1, s, s+1 |
| `KeyTokens.TokenIsTruncatedMac` | src/services/beacon_management/key_management.rs:109-121 | the token is the first four bytes of the MAC, under the key material and nothing else of the key, of the eight bytes that spell now / max(1, rotation) |
| `KeyTokens.MoreDriftCanMiss` | src/services/beacon_management/key_management.rs:41-42 | one second more can put the slots two apart, and with some MAC the receiver rejects |
| `KeyTokens.WindowTakesTwoSlots` | src/services/beacon_management/key_management.rs:109-121 | tokens of one key's active window take at most two adjacent slots |
| `KeyTokens.HexRoundTrip` | src/services/beacon_management/key_management.rs:203-205 | hex encoding doubles the length and decodes back, for all byte strings |
| `KeyTokens.OtaFieldsAuthenticate` | src/services/beacon_management/key_management.rs:127-131 | `kid` and `tok` are eight characters, `kid` decodes to the key id, and `tok` is accepted within the drift |
| `KeyManagement.BroadcastKeyManagement.RotateKey` | src/services/beacon_management/key_management.rs:154-191 | retire, then insert; a failed insert leaves the retirement in place |
| `KeyManagement.BroadcastKeyManagement.GetOrRotateKey` | src/services/beacon_management/key_management.rs:76-98 | returns the current key or rotates, as the table machine does |
| `KeyManagement.BroadcastKeyManagement.SweepExpired` | src/services/beacon_management/key_management.rs:136-149 | deletes exactly the expired rows and counts them |
| `KeyManagement.RunBroadcastLoop` | src/app.rs:39-95 | the table and the publications after any number of cycles, on whatever table earlier boots left; a cycle without a key skips its sweep |
| `KeyManagement.CycleEffects` | src/app.rs:43-65 | a cycle that gets a key sweeps and publishes once, with that key, whatever becomes of the sweep; one that gets none does neither |
| `KeyManagement.PublishedAuthenticates` | src/app.rs:59-65 | everything the loop publishes is accepted by a receiver off by at most one rotation interval when the token is derived |
| `KeyManagement.CycleOutcome` | src/app.rs:43-61 | after a publishing cycle the key used is still stored if the sweep came within the margin, and the table bound holds if the sweep succeeded |
| `Supervisor.RunAgrees` | src/supervisor.rs:169-239 | every command sequence keeps the two maps in agreement, service by service |
| `Supervisor.StatusesAgreeWithServices` | src/supervisor.rs:169-239 | same keys; Running holds its sender or child and shows the latest pid, Mosquitto that of its child; Stopped and Unavailable hold nothing; Failed holds if and only if it is a gateway whose reason is TlsFailed or AlreadyRunning; no Starting; an unavailable service's start was never called |
| `Supervisor.StoppingRunningSucceeds` | src/supervisor.rs:205-239 | stopping a Running service always succeeds, so the error restart ignores never occurs |
| `Supervisor.UnavailableStays` | src/supervisor.rs:170-173 | an unavailable service stays so and nothing is done to it |
| `Supervisor.TakeOnceRunsOnce` | src/services/cloud_gateway/cloud_gateway_service.rs:100-122 | a take-once service spawns its work at most once and is never Running again after it ceased to be |
| `Supervisor.RestartEndsTakeOnce` | src/supervisor.rs:233-239 | restarting a Running take-once service always ends Failed(AlreadyConsumed) with that reply, and it is never Running again |
| `Supervisor.MqttClientStaysWhole` | src/services/mqtt_client/mqtt_client_service.rs:111-127 | the three channel ends are all present or all consumed; the two shutdown senders go together |
| `Supervisor.StuckUntilStopped` | src/supervisor.rs:233-239 | a gateway that failed TLS stays Failed through any starts and restarts in any circumstances; a stop always frees it |
| `Supervisor.TlsFailureGetsStuck` | src/services/beacon_management/gateway_service.rs:65-76 | such a state is reached by one start |
| `Supervisor.ShutdownReleasesEverything` | src/supervisor.rs:158-163 | after the loop ends no service holds a sender or child |
| `SupervisorOutcomes.StartOutcome` | src/supervisor.rs:169-203 | every start in every run: refused with which error, or called exactly once and then, service by service on its fields and the world, Running with which pid or Failed with which reason, and the answer |
| `SupervisorOutcomes.StopOutcome` | src/supervisor.rs:205-231 | every stop in every run: refused with which error, or what is released, which status follows, and the answer |
| `SupervisorOutcomes.RestartOutcome` | src/supervisor.rs:233-239 | a restart of a Running service starts what its stop left; of any other it is a start |
| `SupervisorOutcomes.ReportOutcome` | src/supervisor.rs:152-154 | a status request reports every status and changes nothing |
| `SupervisorOutcomes.RegistrationOutcome` | src/supervisor.rs:116-129 | the loop starts with each id's latest registration, Stopped if available and else Unavailable |
| `SupervisorOutcomes.ShutdownOutcome` | src/supervisor.rs:158-163 | at the end every service is released and nothing else changes |
| `SupervisorLoop.SupervisorActor.RegisterService` | src/supervisor.rs:116-129 | registers service and initial status |
| `SupervisorLoop.SupervisorActor.HandleStart` | src/supervisor.rs:169-203 | takes the machine's start step and gives its reply |
| `SupervisorLoop.SupervisorActor.HandleStop` | src/supervisor.rs:205-231 | takes the machine's stop step and gives its reply |
| `SupervisorLoop.SupervisorActor.HandleRestart` | src/supervisor.rs:233-239 | stops if Running, then starts |
| `SupervisorLoop.SupervisorActor.StopAll` | src/supervisor.rs:158-163 | stops every service, in any order |
| `SupervisorLoop.RunSupervisor` | src/supervisor.rs:132-167 | each answer is that of the machine when its command is served; everything is stopped at the end |
| `SupervisorLoop.ObjectsAgree` | src/supervisor.rs:98-101 | between two commands a service object holds its sender or child if and only if its status is Running, or Failed for one of the two gateway reasons |
| `SupervisorLoop.NoReportShowsStarting` | src/supervisor.rs:152-154 | no status reply shows Starting |
| `Services.StartBoxed` | src/supervisor.rs:90-96 | starting a boxed service is starting the one object behind it |
| `Services.StopBoxed` | src/supervisor.rs:90-96 | stopping a boxed service is stopping the one object behind it |
| `Services.GatewayService.Start` | src/services/beacon_management/gateway_service.rs:60-86 | refuses if held, stores the sender before TLS can fail |
| `Services.GatewayService.Stop` | src/services/beacon_management/gateway_service.rs:88-95 | takes the sender or fails |
| `Services.MosquittoBrokerageService.Start` | src/services/mqtt_brokerage/mosquitto_brokerage_service.rs:216-264 | the child is kept only on success, with its pid |
| `Services.MosquittoBrokerageService.Stop` | src/services/mqtt_brokerage/mosquitto_brokerage_service.rs:266-295 | takes the child or fails |
| `Services.MqttClientService.TakeAll` | src/services/mqtt_client/mqtt_client_service.rs:111-127 | takes the ends one by one |
| `Services.TakeChannelsOutcome` | src/services/mqtt_client/mqtt_client_service.rs:111-127 | it succeeds if all three ends are there; each is gone if those before it were there |
| `Services.MqttClientService.Start` | src/services/mqtt_client/mqtt_client_service.rs:201-221 | consumes the ends even when building the options then fails |
| `Services.MqttClientService.Stop` | src/services/mqtt_client/mqtt_client_service.rs:223-233 | takes both senders or fails |
| `Services.CloudGatewayService.Start` | src/services/cloud_gateway/cloud_gateway_service.rs:100-115 | consumes the receiver once |
| `Services.CloudGatewayService.Stop` | src/services/cloud_gateway/cloud_gateway_service.rs:117-122 | always succeeds |
| `Services.GatewayMqttService.Start` | src/services/gateway_mqtt/gateway_mqtt_service.rs:75-86 | consumes the receiver once |
| `Services.GatewayMqttService.Stop` | src/services/gateway_mqtt/gateway_mqtt_service.rs:88-93 | always succeeds |
| `CloudGateway.DeliveryGuarantees` | src/services/cloud_gateway/cloud_gateway_service.rs:138-221 | over any reconnects: Register first on each connection; application frames in queue order without repeats; each dequeued message delivered, lost or skipped, exactly one; at most one send loss per connection |
| `CloudGatewayTrace.EventsDecide` | src/services/cloud_gateway/cloud_gateway_service.rs:129-225 | position, delay (min(2^(k+1), 60), k the waits since the latest connection), accepted, dequeued, delivered, lost and skipped messages, and the frames on each connection, all follow from the events as the program's branches say |
| `CloudGatewayPacing.ReconnectPacing` | src/services/cloud_gateway/cloud_gateway_service.rs:136-221 | at every point of every run, counted from the events, attempts less waits less failed Register sends is 0 or 1, as the task's position says |
| `CloudGatewayPacing.RefusalsAreNotDelayed` | src/services/cloud_gateway/cloud_gateway_service.rs:163-174 | for every n, a run of n connections and no wait |
| `CloudGatewayPacing.RetryUnwaitedIffRefused` | src/services/cloud_gateway/cloud_gateway_service.rs:138-176 | a retry comes without a wait if and only if the last thing before it was a Register frame that could not be sent |
| `CloudGatewayPacing.RetriesWaitIffNeverRefused` | src/services/cloud_gateway/cloud_gateway_service.rs:138-221 | every retry of a run is preceded by a wait if and only if no attempt follows a failed Register |
| `CloudGatewayTask.ConnectionTask.Serve` | src/services/cloud_gateway/cloud_gateway_service.rs:177-217 | the serving loop follows the machine until shutdown or a break |
| `CloudGatewayTask.ConnectionTask.Reconnect` | src/services/cloud_gateway/cloud_gateway_service.rs:138-221 | one turn of the reconnect loop follows the machine |
| `CloudGatewayTask.ConnectionTask.Run` | src/services/cloud_gateway/cloud_gateway_service.rs:135-225 | the whole task sends what the machine sends, for every script of outcomes |
| `Backoff.TotalWaitClosedForm` | src/services/gateway_mqtt/tasks.rs:21-22 | the first k delays sum to 2^(k+1) - 2, then 62 + 60 (k - 5) |
| `GatewayMqtt.LoginsOnlyAfterRefusal` | src/services/gateway_mqtt/tasks.rs:36-65 | a login after a successful one happens only if the broker refused in between |
| `GatewayMqtt.RefusalForcesLogin` | src/services/gateway_mqtt/tasks.rs:120-125 | in the log, after a refusal no connection is made before a login succeeds |
| `GatewayMqtt.ConnectionsUseLatestLogin` | src/services/gateway_mqtt/tasks.rs:67-90 | every connection uses the latest login response |
| `GatewayMqtt.OneBackoffPerRetry` | src/services/gateway_mqtt/tasks.rs:34-137 | rounds and backoffs alternate: exactly one backoff before each retry |
| `GatewayMqtt.BackoffDelays` | src/services/gateway_mqtt/tasks.rs:179-186 | the wait after k earlier ones since the last CONNACK is min(2^(k+1), 60) |
| `GatewayMqtt.TotalBackoff` | src/services/gateway_mqtt/tasks.rs:179-186 | closed form of the time waited since the last CONNACK |
| `GatewayMqttTrace.EventsDecide` | src/services/gateway_mqtt/tasks.rs:29-141 | position, cached login (the latest response no refusal followed) and delay (min(2^(k+1), 60), k the backoffs since the latest CONNACK) follow from the events as the program's branches say |
| `GatewayMqttTrace.RefusalForcesNewLogin` | src/services/gateway_mqtt/tasks.rs:120-125 | after a refused poll no connection is prepared or open again before a login succeeds |
| `GatewayMqttTrace.LoginOnlyAfterRefusal` | src/services/gateway_mqtt/tasks.rs:36-65 | once logged in, the task logs in again only if a poll was refused since |
| `GatewayMqttTrace.LogIsWhatWasDone` | src/services/gateway_mqtt/tasks.rs:29-141 | the log holds exactly what the events make the task do |
| `GatewayMqttTask.ConnectionTask.BackOff` | src/services/gateway_mqtt/tasks.rs:179-186 | waits, grows the delay either way, reports a shutdown |
| `GatewayMqttTask.ConnectionTask.Poll` | src/services/gateway_mqtt/tasks.rs:93-133 | the inbound/outbound loop follows the machine |
| `GatewayMqttTask.ConnectionTask.Run` | src/services/gateway_mqtt/tasks.rs:29-141 | the whole task does what the machine does, for every script of outcomes |
| `CreateIfAbsent.AllCallersAgree` | src/infra/ca/ca_service.rs:172-204 | under every interleaving and restart, all successful callers return the stored value |
| `CreateIfAbsent.RowIsPermanent` | src/infra/ca/ca_service.rs:180-200 | once there is a row it never changes |
| `CreateIfAbsent.StepsAreLocal` | src/infra/ca/ca_service.rs:172-204 | a statement moves only its caller's call; a restart ends all calls and leaves the table |
| `CreateIfAbsent.LoserCanRetry` | src/infra/ca/ca_service.rs:190-200 | a caller that lost the race gets the stored value by calling again |
| `CreateIfAbsent.AgreementNeedsTheKey` | migrations/0001_ca_keys.sql:2 | without the primary key two racing callers would both succeed and disagree |
| `CaService.OneNodeIdentity` | src/infra/ca/ca_service.rs:172-204 | all successful calls return the same certificate and key |
| `CaService.OneCaKey` | src/infra/ca/operations.rs:19-85 | all successful calls hold the same CA key, namely the one its inserter generated |
| `CaService.CaAuthority.LoadOrGenerateCa` | src/infra/ca/operations.rs:19-85 | succeeds exactly when stated, with the stored key, storing the key and certificate made if there was none, never replacing a row, each failure with its error; it takes the concurrent machine's steps of one caller |
| `CaService.CaAuthority.Initialise` | src/infra/ca/ca_service.rs:53-63 | the in-memory authority is the stored one, or unchanged on error |
| `CaService.CaAuthority.EnsureNodeIdentity` | src/infra/ca/ca_service.rs:172-204 | succeeds exactly when stated, with the stored pair, which is the one made if there was none, never replacing one, each failure with its error; it takes the concurrent machine's steps of one caller |

## Left out

- HTTP proxying, TLS accept loops, request and response building, the login HTTP client: I/O plumbing.
- X.509, key generation, CSR signing, HMAC-SHA256 and randomness: parameters of the model.
- rumqttc, tungstenite and SQLite internals: nondeterministic success or failure plus the table semantics of the SQL.
- Configuration and environment parsing, capability detection, mosquitto files, process signals: no property across operations.
- Device certificate upsert, list and revoke, `compute_ws_url`, `qos_from_u8`, `build_brokerage_info`: would only add easy members.
- Message and JSON payload contents: a message is its topic and an optional gateway URL.
- Jitter and pacing inside the broadcast loop, and the time a publish takes.
- Trait objects: a boxed service is one of the five classes, and dispatch is by case.
- Requests the MQTT client has confirmed but not yet sent when a session is lost.
- A child process that dies on its own: the supervisor never polls `is_running`, and neither does the model.
- OneCaKey: speaks of the key only, because a loaded authority re-signs its certificate.
