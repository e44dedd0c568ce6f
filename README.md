# rusty-bridge, modelled in Dafny

rusty-bridge is an edge-to-cloud bridge. Data sources put messages on an
in-process message bus (`lib-data-source-core`). The main loop takes each
message and, while the northbound cloud adapter is connected, publishes it.
It follows each acknowledgement and reconnects whenever the adapter reports the
connection lost.

The production adapter publishes Sparkplug B payloads over MQTT to HiveMQ. Its
MQTT password is a token from an AnA (authentication and authorization)
service, and the adapter renews that token on its own. A separate event-loop
task drives the MQTT client (rumqttc). It pairs each PUBACK with the publish
task that is waiting for it. A development adapter stands in for it locally.

Around that core sit four smaller pieces:
- a small HTTP data server that records connection and message events for
  inspection;
- the metrics viewer, which folds those events into per-message latency
  records;
- an edge-report listener, which keeps the latest static and dynamic report of
  every edge machine;
- the configuration reader for the HiveMQ connection string.

The model also covers the error types and how they map to the process exit
code.

The model states each piece in the form the code has:
- Pure code becomes datatypes, functions and lemmas.
- Objects whose methods update fields become classes. Their methods are proved
  against a specification function of the old state:
  `State() == Step(old(State()), event)`.
- Asynchronous `select!` loops become one transition function over an event
  datatype. A branch that cannot complete in the current state leaves the state
  unchanged, and a `Steps` fold runs a schedule of events.
- Channel semantics (tokio `mpsc` `try_send`, `watch` and `broadcast`) are
  modelled once in `Channels`, with the capacities the code uses.
- Rust integer widths are subset types of `nat` (`Ints`). Wrap-around is
  written out where the code relies on it: the bus counter and the Sparkplug
  sequence number.

Modules and what they model:

| file | module | source |
|---|---|---|
| wrappers.dfy | Wrappers | `Option`, `Result`, and whether an expression returns or panics |
| ints.dfy | Ints | `u8`…`u64`, wrapping increments |
| strings.dfy | Strings | `str::split`, `replace(pat, "")`, `trim_end_matches` |
| utf8.dfy | Utf8 | `std::str::from_utf8` well-formedness |
| channels.dfy | Channels | tokio `mpsc::try_send`, `watch`, `broadcast` |
| mqtt.dfy | Mqtt | the rumqttc types the adapter sees; CONNACK codes per section 3.2.2.3 of MQTT 3.1.1 |
| data_source.dfy | DataSourceCore | the message bus `TxData`/`RxData` |
| adapter_core.dfy | AdapterCore | the cloud-adapter error types and token futures |
| sequence.dfy | SparkplugSequence | the Sparkplug sequence counter |
| ana.dfy | Ana | the AnA token client and its renewal loop |
| hivemq_error.dfy, hivemq_tokens.dfy | HiveMQError, HiveMQTokens | the adapter's error and delivery token |
| event_loop.dfy | HiveMQEventLoop | the adapter's event-loop task |
| hivemq_adapter.dfy | HiveMQAdapter | `SpecialHiveMQ`: construction, publish, connect, disconnect, drop |
| dev_adapter.dfy | DevAdapter | the development adapter |
| main_loop.dfy | MainLoop | the bridge's main loop |
| data_service.dfy, data_server_handle.dfy | DataService, DataServerHandle | the data server and the handle that feeds it |
| metrics_viewer.dfy | MetricsViewer | the viewer's data collection |
| edge_report.dfy | EdgeReport | the edge-report listener |
| north_adapters.dfy | NorthAdapters | choosing the adapter and parsing its connection string |
| termination.dfy, bridge_error.dfy | Termination, BridgeError | exit reasons, exit codes and the top-level error |

## Model

| member | source | states |
|---|---|---|
| Strings.SplitJoin | crates/libs/lib-mini-config-special/src/north_adapters.rs:47-49 | splitting pieces joined by the separator gives the pieces back, which is the basis of reading connection-string fields |
| Strings.SplitConcat | crates/libs/lib-mini-config-special/src/north_adapters.rs:47-49 | splitting `a;b` gives the pieces of `a` followed by those of `b` |
| Strings.TrimEndMatchesRepeat | crates/libs/lib-cloud-adapter-special-hivemq/src/lib.rs:91 | `trim_end_matches` strips every trailing copy of the suffix and no more |
| Strings.RemoveAllSinglePass | crates/libs/lib-mini-config-special/src/north_adapters.rs:61-82 | `replace(pat, "")` is one left-to-right pass, not a closure: "aabb" without "ab" is "ab" |
| Channels.SendReplace | crates/libs/lib-cloud-adapter-special-hivemq/src/lib.rs:227 | `send_replace` stores the value and bumps the version, so every receiver sees a change |
| Channels.BorrowAndUpdate | crates/libs/lib-cloud-adapter-dev/src/lib.rs:78-80 | borrowing yields the current value and marks it seen |
| Channels.TrySend | crates/rusty-bridge/src/data_server/server/handle.rs:61-67 | `try_send` appends exactly when the receiver lives and the queue is below capacity; otherwise the queue is unchanged, and the error is Closed exactly when the receiver is gone |
| Channels.TrySendAllBounded | crates/rusty-bridge/src/data_server/server/server.rs:40 | a bounded channel never holds more than its capacity, whatever is sent |
| Channels.TrySendAllFits | crates/rusty-bridge/src/main_loop/mod.rs:46-48 | sends that fit are all queued, in order |
| Channels.BroadcastRecv | crates/libs/lib-special-ana/src/token_updated.rs:10-15 | a broadcast receive yields the newest value, reports how many values a lagging receiver skipped, or reports empty exactly when nothing new was sent |
| Channels.LagThenNewest | crates/libs/lib-special-ana/src/token_updated.rs:10-15 | after a lag report the next receive yields the newest value |
| DataSourceCore.NewBus | crates/libs/lib-data-source-core/src/lib.rs:77-86 | a new bus has counter 0, an empty queue, one sender and a live receiver |
| DataSourceCore.BoundedKept | crates/libs/lib-data-source-core/src/lib.rs:89-115 | send and receive keep the queue within its capacity |
| DataSourceCore.FullQueueDropsButSpendsId | crates/libs/lib-data-source-core/src/lib.rs:89-107 | a send to a full queue drops the message but still advances the id counter (wrapping at 2^32) |
| DataSourceCore.SendAllCounter | crates/libs/lib-data-source-core/src/lib.rs:89-107 | n sends advance the counter by n modulo 2^32 and leave the sender count alone |
| DataSourceCore.SendAllQueued | crates/libs/lib-data-source-core/src/lib.rs:89-107 | sends that fit are queued in order with consecutive ids |
| DataSourceCore.NumberedConsecutively | crates/libs/lib-data-source-core/src/lib.rs:89-107 | the i-th message of a batch carries id (counter + i) mod 2^32, its data and retry count 0 |
| DataSourceCore.SendThenRecv | crates/libs/lib-data-source-core/src/lib.rs:89-115 | a message sent to an empty bus is the next one received |
| DataSourceCore.RecvIsFifo | crates/libs/lib-data-source-core/src/lib.rs:89-115 | a later send does not change which message is received next |
| DataSourceCore.RecvFinishedIff | crates/libs/lib-data-source-core/src/lib.rs:111-115 | `recv` gives None exactly when every sender is gone and the queue is empty; it waits exactly when senders remain and the queue is empty |
| DataSourceCore.NewFactory | crates/libs/lib-data-source-core/src/lib.rs:118-123 | a factory starts with retry count 1 |
| DataSourceCore.FactoryMarksRetry | crates/libs/lib-data-source-core/src/lib.rs:118-130 | on any bus with room and a receiver, a send queues the factory's message for the same bytes except that it carries the counter as id (not 0) and retry count 0 (not 1) |
| DataSourceCore.TxData.NewChannel | crates/libs/lib-data-source-core/src/lib.rs:77-86 | `TxData::new` makes a fresh bus shared by one sender and its receiver, in the NewBus state |
| DataSourceCore.TxData.Clone | crates/libs/lib-data-source-core/src/lib.rs:33-37 | a clone shares the bus and adds one sender |
| DataSourceCore.TxData.Send | crates/libs/lib-data-source-core/src/lib.rs:89-107 | the bus state after `send` is the specification's Sending of the old state |
| DataSourceCore.TxData.Drop | crates/libs/lib-data-source-core/src/lib.rs:33-37 | dropping a sender removes exactly one sender |
| DataSourceCore.RxData.Recv | crates/libs/lib-data-source-core/src/lib.rs:111-115 | the received value and the new bus state are the specification's Receiving of the old state |
| DataSourceCore.RxData.Drop | crates/libs/lib-data-source-core/src/lib.rs:40-42 | dropping the receiver closes the bus to later sends |
| AdapterCore.ConnectionErrorTextInjective | crates/libs/lib-cloud-adapter-core/src/lib.rs:29-34 | the display texts of connection errors tell them apart |
| AdapterCore.ConnectionLostTextIsKind | crates/libs/lib-cloud-adapter-core/src/lib.rs:37-44 | two loss reasons display alike exactly when they are of the same kind; the Uncategorized text is dropped |
| AdapterCore.PollFuture | crates/libs/lib-cloud-adapter-core/src/lib.rs:93-121 | a token's poll forwards the inner future: Ready with its output exactly when it is ready |
| AdapterCore.AwaitConnection | crates/libs/lib-cloud-adapter-core/src/lib.rs:93-106 | awaiting a connection token yields the inner future's output after its pending polls plus one |
| AdapterCore.AwaitDisconnect | crates/libs/lib-cloud-adapter-core/src/lib.rs:108-121 | likewise for a disconnection token |
| Mqtt.CodeFromByte | crates/libs/lib-cloud-adapter-special-hivemq/src/lib.rs:245-249 | a CONNACK byte names a return code exactly when it is at most 5 |
| Mqtt.CodeByteRoundTrip | crates/libs/lib-cloud-adapter-special-hivemq/src/lib.rs:245-249 | `code as u8` and decoding are inverse |
| Mqtt.RefusalTextInjective | crates/libs/lib-cloud-adapter-special-hivemq/src/lib.rs:245-249 | the refusal text "{code:?} code: [n]" identifies the code |
| SparkplugSequence.Sequence.constructor | crates/libs/lib-msg-transform-special-hivemq/src/sequence.rs:4-6 | a new counter starts at 0 |
| SparkplugSequence.Sequence.Pull | crates/libs/lib-msg-transform-special-hivemq/src/sequence.rs:8-12 | `pull_seq` returns the current number and advances it, wrapping at 2^64 as a release build does (a debug build panics on that overflow instead) |
| SparkplugSequence.NthPullStep | crates/libs/lib-msg-transform-special-hivemq/src/sequence.rs:8-12 | the number after i+1 pulls is the wrapping successor of the one after i pulls |
| SparkplugSequence.PullsDistinct | crates/libs/lib-msg-transform-special-hivemq/src/sequence.rs:8-12 | within 2^64 pulls no sequence number repeats |
| SparkplugSequence.FreshCounterNumbers | crates/libs/lib-msg-transform-special-hivemq/src/sequence.rs:4-12 | a fresh counter hands out 0, 1, 2, … |
| Ana.NewMqtt | crates/libs/lib-special-ana/src/lib.rs:73-92 | construction fails exactly when the endpoint is not a URL, with that error; otherwise no token is held and nothing is broadcast yet |
| Ana.FetchServesFreshToken | crates/libs/lib-special-ana/src/lib.rs:204-211 | an unexpired token is served from the cache with no request and no change |
| Ana.FetchThenCached | crates/libs/lib-special-ana/src/lib.rs:204-254 | a successful request installs and broadcasts the token, which is then served until it expires |
| Ana.FetchFailureChangesNothing | crates/libs/lib-special-ana/src/lib.rs:204-233 | a failed request reports FetchingToken with its text and changes nothing |
| Ana.RenewDelayAsWrittenOverruns | crates/libs/lib-special-ana/src/lib.rs:140 | as written, a token that lives under 30 s makes the renewal loop request a sleep of nearly 2^64 s, which tokio caps at a deadline far beyond the token's lifetime |
| Ana.RenewDelay | crates/libs/lib-special-ana/src/lib.rs:140-142 | the corrected delay is 30 s before expiry, or 0 for short-lived tokens |
| Ana.RenewalStartsBeforeExpiry | crates/libs/lib-special-ana/src/lib.rs:140-142 | with the corrected delay a renewal always starts before the token expires |
| Ana.RenewTakesFirstSuccess | crates/libs/lib-special-ana/src/lib.rs:104-143 | a renewal round retries every 5 s, installs and broadcasts the first successful reply at its attempt's time, and reports the delay computed from that reply's lifetime, for any delay rule |
| Ana.RenewAllFailed | crates/libs/lib-special-ana/src/lib.rs:104-143 | a round with no success changes nothing and reports no next round |
| Ana.RoundsInstallAlike | crates/libs/lib-special-ana/src/lib.rs:104-143 | the round as written and the corrected round install the same token and succeed together; they differ only in the delay |
| Ana.RenewAsWrittenOutlivesToken | crates/libs/lib-special-ana/src/lib.rs:104-142 | as written, a round whose token lives under 30 s reports a next-round delay of at least 2^64-30 s, a sleep tokio caps far beyond that token's deadline |
| Ana.CorrectedRenewBeforeExpiry | crates/libs/lib-special-ana/src/lib.rs:104-142 | with the corrected delay the next round starts before the installed token's deadline, exactly 30 s before it when the token lives that long |
| Ana.PasswordUpdated | crates/libs/lib-special-ana/src/token_updated.rs:10-15 | `password_updated` yields the newest broadcast token, or nothing when none is new |
| Ana.SpecialAnA.IsExpired | crates/libs/lib-special-ana/src/lib.rs:169-170 | true exactly when the token's expiry has passed |
| Ana.SpecialAnA.GetToken | crates/libs/lib-special-ana/src/lib.rs:179-181 | returns the cached token |
| Ana.SpecialAnA.GetTokenRenewal | crates/libs/lib-special-ana/src/lib.rs:189-193 | a new receiver sees only tokens broadcast after it was made |
| Ana.SpecialAnA.FetchToken | crates/libs/lib-special-ana/src/lib.rs:204-254 | result and new state are the specification's Fetch |
| Ana.SpecialAnA.RenewRound | crates/libs/lib-special-ana/src/lib.rs:104-143 | the retry loop installs exactly what Renew installs and reports the as-written wrapping delay `expires_in - 30` |
| HiveMQError.ErrorText | crates/libs/lib-cloud-adapter-special-hivemq/src/error.rs:3-13 | each display text is its kind's prefix followed by a non-empty rest |
| HiveMQError.ErrorTextInjective | crates/libs/lib-cloud-adapter-special-hivemq/src/error.rs:3-13 | the display text identifies the error |
| HiveMQError.IntoCoreError | crates/libs/lib-cloud-adapter-special-hivemq/src/error.rs:15-23 | Init becomes the core Initialization error with the same detail; every other variant reaches `todo!()` and panics |
| HiveMQTokens.WaitForAck | crates/libs/lib-cloud-adapter-special-hivemq/src/tokens.rs:16-28 | Ok with the delivered id exactly when the task joined with Ok; otherwise a DeliveryError carrying the token's id and the join error's or the adapter error's text |
| HiveMQTokens.TaskErrorRecoverable | crates/libs/lib-cloud-adapter-special-hivemq/src/tokens.rs:16-28 | different adapter errors give different delivery errors |
| HiveMQEventLoop.Init | crates/libs/lib-cloud-adapter-special-hivemq/src/event_loop.rs:26-40 | the task starts alive, with the bookkeeping invariant, and paused on an unseen `false` run switch |
| HiveMQEventLoop.RegisterKeepsWF | crates/libs/lib-cloud-adapter-special-hivemq/src/lib.rs:192-196 | queueing a registration keeps the invariant, and its task waits |
| HiveMQEventLoop.PubAckCompletesFiledTask | crates/libs/lib-cloud-adapter-special-hivemq/src/event_loop.rs:102-110 | a PUBACK completes exactly the task filed under its packet id, with that task's message id, and no other |
| HiveMQEventLoop.UnknownPubAckIgnored | crates/libs/lib-cloud-adapter-special-hivemq/src/event_loop.rs:102-110 | a PUBACK for an unknown packet id changes nothing |
| HiveMQEventLoop.OutgoingPublishFilesOldest | crates/libs/lib-cloud-adapter-special-hivemq/src/event_loop.rs:138-146 | an outgoing publish files the oldest queued registration under its packet id, keeps the other entries, and closes a displaced task's channel |
| HiveMQEventLoop.OutgoingPublishWithoutRegistration | crates/libs/lib-cloud-adapter-special-hivemq/src/event_loop.rs:138-146 | with nothing queued, an outgoing publish changes nothing |
| HiveMQEventLoop.FilingIsFifo | crates/libs/lib-cloud-adapter-special-hivemq/src/event_loop.rs:138-146 | n outgoing publishes under distinct packet ids file the first n registrations, in order |
| HiveMQEventLoop.StepsKeepEntry | crates/libs/lib-cloud-adapter-special-hivemq/src/event_loop.rs:138-146 | publishes under other packet ids leave an entry alone |
| HiveMQEventLoop.ConnectionErrorClearsTable | crates/libs/lib-cloud-adapter-special-hivemq/src/event_loop.rs:160-174 | a polling error empties the table, closes every filed task's channel, and leaves the queue and the other tasks alone |
| HiveMQEventLoop.PausedObservesOnlyRunSwitch | crates/libs/lib-cloud-adapter-special-hivemq/src/event_loop.rs:46-62 | while paused, only the run switch is observed |
| HiveMQEventLoop.PasswordRotationForcesReconnect | crates/libs/lib-cloud-adapter-special-hivemq/src/event_loop.rs:64-77 | a new password is installed and exactly one disconnect is queued; with the request channel full the task panics |
| HiveMQEventLoop.ClassifyCases | crates/libs/lib-cloud-adapter-special-hivemq/src/event_loop.rs:160-174 | MQTT-state errors report ManualDisconnect, network time-outs report Timeout, and others keep their text |
| HiveMQEventLoop.EndedTaskLeavesNoWaiter | crates/libs/lib-cloud-adapter-special-hivemq/src/event_loop.rs:42-181 | when the task ends, no publish task is left waiting forever |
| HiveMQEventLoop.StepKeepsWF | crates/libs/lib-cloud-adapter-special-hivemq/src/event_loop.rs:42-181 | every branch keeps the bookkeeping invariant: held senders are for waiting tasks, none twice, and no waiting task is orphaned |
| HiveMQEventLoop.StepsKeepWF | crates/libs/lib-cloud-adapter-special-hivemq/src/event_loop.rs:42-181 | the invariant holds over any schedule |
| HiveMQEventLoop.EventLoop.constructor | crates/libs/lib-cloud-adapter-special-hivemq/src/event_loop.rs:26-40 | the object's state is Init |
| HiveMQEventLoop.EventLoop.HandlePubAck | crates/libs/lib-cloud-adapter-special-hivemq/src/event_loop.rs:102-110 | new state is OnPubAck of the old |
| HiveMQEventLoop.EventLoop.HandleOutgoingPublish | crates/libs/lib-cloud-adapter-special-hivemq/src/event_loop.rs:138-146 | new state is OnOutgoingPublish of the old |
| HiveMQEventLoop.EventLoop.HandleConnectionError | crates/libs/lib-cloud-adapter-special-hivemq/src/event_loop.rs:160-174 | new state is OnConnectionError of the old |
| HiveMQEventLoop.EventLoop.HandlePoll | crates/libs/lib-cloud-adapter-special-hivemq/src/event_loop.rs:100-175 | new state is OnPoll of the old, covering every incoming and outgoing packet kind |
| HiveMQEventLoop.EventLoop.HandlePassword | crates/libs/lib-cloud-adapter-special-hivemq/src/event_loop.rs:31-40 | new state is OnPassword of the old, both before the loop and inside it |
| HiveMQEventLoop.EventLoop.HandleRunChanged | crates/libs/lib-cloud-adapter-special-hivemq/src/event_loop.rs:46-62 | new state is OnRunChanged of the old; what that means is stated by HiveMQEventLoop.DeadRunSwitchEffect |
| HiveMQEventLoop.EventLoop.HandleShutdown | crates/libs/lib-cloud-adapter-special-hivemq/src/event_loop.rs:44 | new state is OnShutdown of the old; what that means is stated by HiveMQEventLoop.ShutdownEffect |
| HiveMQEventLoop.ShutdownEffect | crates/libs/lib-cloud-adapter-special-hivemq/src/event_loop.rs:31-44 | shutdown cancels the loop: waiting for the first password it skips to the main loop; running it leaves the loop, ending the task and dropping every sender and registration; paused on the run switch it goes unnoticed |
| HiveMQEventLoop.DeadRunSwitchEffect | crates/libs/lib-cloud-adapter-special-hivemq/src/event_loop.rs:46-62 | once the run switch's sender is gone, a change to false ends the task and drops its senders, while a change to true keeps the loop running |
| HiveMQEventLoop.EndedTaskStaysEnded | crates/libs/lib-cloud-adapter-special-hivemq/src/event_loop.rs:42-181 | after the task has ended no further event changes its phase, loss value, CONNACKs or queued requests, and nothing is registered again |
| HiveMQEventLoop.EventLoop.HandleEvent | crates/libs/lib-cloud-adapter-special-hivemq/src/event_loop.rs:42-181 | one select! branch and, if the task ends, the drop of every sender it held |
| HiveMQEventLoop.EventLoop.Run | crates/libs/lib-cloud-adapter-special-hivemq/src/event_loop.rs:42-181 | the loop over a schedule gives Steps and keeps the invariant |
| HiveMQEventLoop.EventLoop.RegisterAck | crates/libs/lib-cloud-adapter-special-hivemq/src/lib.rs:192-196 | a publish task queues its registration with a fresh oneshot |
| HiveMQEventLoop.EventLoop.SetRunSwitch | crates/libs/lib-cloud-adapter-special-hivemq/src/lib.rs:227 | `send_replace` on the run switch |
| HiveMQEventLoop.EventLoop.DropRunSwitch | crates/libs/lib-cloud-adapter-special-hivemq/src/lib.rs:278-286 | the run switch's sender goes away |
| HiveMQEventLoop.EventLoop.QueueRequest | crates/libs/lib-cloud-adapter-special-hivemq/src/lib.rs:199-202 | a request is appended to the client's request channel |
| HiveMQEventLoop.EventLoop.TakeRequest | crates/libs/lib-cloud-adapter-special-hivemq/src/event_loop.rs:138-156 | rumqttc takes the oldest request |
| HiveMQAdapter.UsernameIds | crates/libs/lib-cloud-adapter-special-hivemq/src/lib.rs:88-91 | splitting the username at '@' panics exactly when there is no '@'; the group id loses every trailing ".com" |
| HiveMQAdapter.UsernameIdsRoundTrip | crates/libs/lib-cloud-adapter-special-hivemq/src/lib.rs:88-91 | `edge@group.com…` reads back as (edge, group) |
| HiveMQAdapter.TopicLevels | crates/libs/lib-cloud-adapter-special-hivemq/src/lib.rs:119-120 | the topics have the four Sparkplug levels spBv1.0/group/NCMD-or-NDATA/edge |
| HiveMQAdapter.TopicsDistinguishNodes | crates/libs/lib-cloud-adapter-special-hivemq/src/lib.rs:119-120 | different nodes get different topics, and data and command topics never meet |
| HiveMQAdapter.NewSettings | crates/libs/lib-cloud-adapter-special-hivemq/src/lib.rs:73-135 | `new` returns Init errors for bad configuration, AnA endpoint or certificates, in that order, and panics on a username without '@' |
| HiveMQAdapter.Initial | crates/libs/lib-cloud-adapter-special-hivemq/src/lib.rs:127-154 | the spawned loop has not run yet: it has no renewal receiver and will wait for a password with the run switch off; the loss watch holds an already seen Uncategorized("init") |
| HiveMQAdapter.SubscribeStep | crates/libs/lib-cloud-adapter-special-hivemq/src/event_loop.rs:25-28 | the loop task's first move subscribes to renewals, seeing only tokens broadcast from then on; later it changes nothing |
| HiveMQAdapter.EarlyTokenLost | crates/libs/lib-cloud-adapter-special-hivemq/src/event_loop.rs:28-40 | a token the AnA renewal task broadcasts before the loop task subscribes is lost: the loop stays waiting for its first password |
| HiveMQAdapter.SubscribedTokenDelivered | crates/libs/lib-cloud-adapter-special-hivemq/src/event_loop.rs:28-40 | a token broadcast after the subscription becomes the loop's password and the loop starts polling |
| HiveMQAdapter.PublishStep | crates/libs/lib-cloud-adapter-special-hivemq/src/lib.rs:171-215 | `publish` spawns one task for the message, carrying a QoS 1 non-retained publish to the data topic whose payload takes the next sequence number; nothing reaches the loop yet |
| HiveMQAdapter.TaskOutcome | crates/libs/lib-cloud-adapter-special-hivemq/src/lib.rs:189-207 | a finished task joins with the id from its oneshot, or with an error when the oneshot was closed; it fails to join exactly when it panicked |
| HiveMQAdapter.LostAckReported | crates/libs/lib-cloud-adapter-special-hivemq/src/lib.rs:204-206 | a closed oneshot gives "publish acknowledgement: [no ack: [channel closed]]" with the token's own id |
| HiveMQAdapter.ConnectStep | crates/libs/lib-cloud-adapter-special-hivemq/src/lib.rs:218-233 | `connect` sets the run switch to true, unseen, and returns a token waiting for the next CONNACK |
| HiveMQAdapter.PollConnect | crates/libs/lib-cloud-adapter-special-hivemq/src/lib.rs:233-253 | the token resolves Ok with the loss receiver exactly when the code is Success and the subscription could be queued; with no CONNACK it stays pending while the event loop task lives, and fails with the broadcast's "channel closed" once the task has ended after a shutdown |
| HiveMQAdapter.ConnAckDecidesConnect | crates/libs/lib-cloud-adapter-special-hivemq/src/lib.rs:229-253 | while the client is open and the request queue has room: with no CONNACK the token stays pending; a CONNACK queues the command-topic subscription and resolves with the loss receiver or a failure naming the code |
| HiveMQAdapter.ConnectFailsOnceLoopGone | crates/libs/lib-cloud-adapter-special-hivemq/src/lib.rs:233-238 | connecting, dropping the adapter and then shutting down before any CONNACK stops the event loop and the pending connect fails with "channel closed" |
| HiveMQAdapter.DisconnectStep | crates/libs/lib-cloud-adapter-special-hivemq/src/lib.rs:260-275 | `disconnect` queues one disconnect and returns a ready Ok token, or fails with the client's error and changes nothing |
| HiveMQAdapter.InitialAligned | crates/libs/lib-cloud-adapter-special-hivemq/src/lib.rs:127-154 | the adapter starts with registrations paired with publishes |
| HiveMQAdapter.WireOutKeepsAligned | crates/libs/lib-cloud-adapter-special-hivemq/src/event_loop.rs:138-146 | rumqttc sending the oldest request keeps the pairing: a filed registration is for the message whose payload went out under its packet id |
| HiveMQAdapter.AtomicPublishKeepsAligned | crates/libs/lib-cloud-adapter-special-hivemq/src/lib.rs:184-187 | queueing the registration and the publish in one step (waiting, not panicking, when either channel is full) keeps the pairing |
| HiveMQAdapter.LoopStepKeepsAligned | crates/libs/lib-cloud-adapter-special-hivemq/src/event_loop.rs:42-181 | every loop branch keeps the pairing |
| HiveMQAdapter.PasswordStepKeepsAligned | crates/libs/lib-cloud-adapter-special-hivemq/src/event_loop.rs:64-77 | a password rotation keeps the pairing |
| HiveMQAdapter.ConnectKeepsAligned | crates/libs/lib-cloud-adapter-special-hivemq/src/lib.rs:218-233 | connecting keeps the pairing |
| HiveMQAdapter.PollConnectKeepsAligned | crates/libs/lib-cloud-adapter-special-hivemq/src/lib.rs:233-253 | polling a connection keeps the pairing |
| HiveMQAdapter.DisconnectKeepsAligned | crates/libs/lib-cloud-adapter-special-hivemq/src/lib.rs:260-286 | disconnecting and dropping keep the pairing |
| HiveMQAdapter.CorrectedKeepsAligned | crates/libs/lib-cloud-adapter-special-hivemq/src/lib.rs:184-207 | with registration and publish queued together, every action keeps the pairing |
| HiveMQAdapter.CorrectedRunKeepsAligned | crates/libs/lib-cloud-adapter-special-hivemq/src/lib.rs:184-207 | the corrected adapter keeps the pairing over any schedule |
| HiveMQAdapter.AckConfirmsMessageOnWire | crates/libs/lib-cloud-adapter-special-hivemq/src/event_loop.rs:102-110 | in the corrected adapter a PUBACK completes its task with the id of the message whose payload went out under that packet id |
| HiveMQAdapter.InterleavedQueues | crates/libs/lib-cloud-adapter-special-hivemq/src/lib.rs:189-202 | as written, two tasks can queue registrations in the order 1, 2 and publishes in the order 2, 1 |
| HiveMQAdapter.CrossedQueuesMispair | crates/libs/lib-cloud-adapter-special-hivemq/src/event_loop.rs:102-146 | from crossed queues, the first packet carries message 2 but its PUBACK completes message 1's task |
| HiveMQAdapter.AsWrittenMispairs | crates/libs/lib-cloud-adapter-special-hivemq/src/lib.rs:189-202 | as written, the broker acknowledges message 2's payload and message 1's token reports delivery |
| HiveMQAdapter.SpecialHiveMQ.constructor | crates/libs/lib-cloud-adapter-special-hivemq/src/lib.rs:127-167 | the adapter and its spawned parts start in the Initial state, the loop task not yet subscribed |
| HiveMQAdapter.SpecialHiveMQ.StartLoop | crates/libs/lib-cloud-adapter-special-hivemq/src/event_loop.rs:25-28 | the loop task's `get_token_renewal` is SubscribeStep of the old state |
| HiveMQAdapter.SpecialHiveMQ.Publish | crates/libs/lib-cloud-adapter-special-hivemq/src/lib.rs:171-215 | state and token are PublishStep of the old state |
| HiveMQAdapter.SpecialHiveMQ.AdvanceTask | crates/libs/lib-cloud-adapter-special-hivemq/src/lib.rs:189-207 | one await of a publish task, as written: register, then hand over the publish |
| HiveMQAdapter.SpecialHiveMQ.SendNextRequest | crates/libs/lib-cloud-adapter-special-hivemq/src/event_loop.rs:138-146 | rumqttc sends the oldest request and the loop sees it go out |
| HiveMQAdapter.SpecialHiveMQ.Deliver | crates/libs/lib-cloud-adapter-special-hivemq/src/event_loop.rs:42-181 | one branch of the loop task |
| HiveMQAdapter.SpecialHiveMQ.DeliverPassword | crates/libs/lib-cloud-adapter-special-hivemq/src/event_loop.rs:64-77 | the loop receives the AnA client's next token |
| HiveMQAdapter.SpecialHiveMQ.RenewPassword | crates/libs/lib-special-ana/src/lib.rs:104-143 | one renewal round of the adapter's AnA client as written, with its wrapping delay |
| HiveMQAdapter.SpecialHiveMQ.Connect | crates/libs/lib-cloud-adapter-special-hivemq/src/lib.rs:218-233 | state and token are ConnectStep of the old state |
| HiveMQAdapter.SpecialHiveMQ.PollConnection | crates/libs/lib-cloud-adapter-special-hivemq/src/lib.rs:233-253 | state, token and outcome are PollConnect of the old state, including the "channel closed" failure once the event loop task has ended |
| HiveMQAdapter.SpecialHiveMQ.Disconnect | crates/libs/lib-cloud-adapter-special-hivemq/src/lib.rs:260-275 | state and result are DisconnectStep of the old state |
| HiveMQAdapter.SpecialHiveMQ.Drop | crates/libs/lib-cloud-adapter-special-hivemq/src/lib.rs:278-286 | dropping attempts a disconnect, cancels the loop's token and drops the run switch |
| DevAdapter.Publish | crates/libs/lib-cloud-adapter-dev/src/lib.rs:55-68 | `publish` panics exactly on a payload that is not UTF-8; otherwise the ack comes after 100 ms |
| DevAdapter.AckIsAlwaysZero | crates/libs/lib-cloud-adapter-dev/src/lib.rs:37-41 | a delivery always acknowledges with id 0, not the message's id |
| DevAdapter.NonTextPanics | crates/libs/lib-cloud-adapter-dev/src/lib.rs:57 | the payload [0xFF] panics |
| DevAdapter.Connect | crates/libs/lib-cloud-adapter-dev/src/lib.rs:70-95 | `connect` always succeeds after 500 ms and schedules a Timeout loss 10 s later |
| DevAdapter.OnlyScheduledLossCounts | crates/libs/lib-cloud-adapter-dev/src/lib.rs:78-92 | the loss receiver sees no change until the scheduled Timeout is sent, sees it then, and not again once read |
| DevAdapter.Disconnect | crates/libs/lib-cloud-adapter-dev/src/lib.rs:97-110 | `disconnect` succeeds, and its token is ready with Ok |
| MainLoop.Start | crates/rusty-bridge/src/main_loop/mod.rs:46-54 | the loop starts disconnected, with one connect attempt and both dummy tasks, and nothing pending |
| MainLoop.StartInv | crates/rusty-bridge/src/main_loop/mod.rs:46-54 | the start state satisfies the loop invariant |
| MainLoop.StepKeepsInv | crates/rusty-bridge/src/main_loop/mod.rs:56-176 | every select! branch keeps the invariant: one connect attempt or watcher or pending `false` at a time, and at most two queued statuses |
| MainLoop.StepsKeepInv | crates/rusty-bridge/src/main_loop/mod.rs:56-176 | the invariant holds over any schedule |
| MainLoop.NoPanicBeforeShutdown | crates/rusty-bridge/src/main_loop/mod.rs:138 | before shutdown, `try_send(true).unwrap()` never panics, the status queue never exceeds two, and no second attempt starts |
| MainLoop.LossAlwaysReconnects | crates/rusty-bridge/src/main_loop/mod.rs:110-121 | a received `false` finds only the dummy in the connect set and starts a new attempt |
| MainLoop.OnlyBusEndsEpoch | crates/rusty-bridge/src/main_loop/mod.rs:74 | before shutdown the loop ends only when the data channel closes |
| MainLoop.MsgInEffect | crates/rusty-bridge/src/main_loop/mod.rs:59-76 | a message is published, reported and followed by an ack task exactly when it arrives while connected; otherwise it is discarded |
| MainLoop.PublishOnlyWhileConnected | crates/rusty-bridge/src/main_loop/mod.rs:59-76 | nothing is ever published while disconnected |
| MainLoop.AckDoneEffect | crates/rusty-bridge/src/main_loop/mod.rs:79-104 | a finished ack task is removed and reported once: success with the acknowledged id, failure with the error's id, nothing on a join error |
| MainLoop.ConnectedChangesOnlyThere | crates/rusty-bridge/src/main_loop/mod.rs:110-154 | `connected` becomes true only on a successful connect and false only on a received `false` status |
| MainLoop.StatusReported | crates/rusty-bridge/src/main_loop/mod.rs:106-109 | every received status is reported, in order |
| MainLoop.FailedConnectRetried | crates/rusty-bridge/src/main_loop/mod.rs:155-170 | a failed or panicked attempt is replaced by a new one |
| MainLoop.DummyConnectRetries | crates/rusty-bridge/src/main_loop/mod.rs:209-222 | the dummy connect task's failure starts one more attempt |
| MainLoop.Orchestrator.constructor | crates/rusty-bridge/src/main_loop/mod.rs:46-54 | the loop's state is Start |
| MainLoop.Orchestrator.HandleEvent | crates/rusty-bridge/src/main_loop/mod.rs:56-176 | one select! branch, as Step |
| MainLoop.Orchestrator.Run | crates/rusty-bridge/src/main_loop/mod.rs:56-176 | the loop over a schedule is Steps and keeps the invariant |
| DataService.HandlingRoutes | crates/rusty-bridge/src/data_server/server/data_service.rs:51-62 | connection events go to the connection list, every other event to the message list |
| DataService.HandleAllThenOne | crates/rusty-bridge/src/data_server/server/data_service.rs:51-62 | handling a stream and then one event is handling the longer stream |
| DataService.HandleAllSplits | crates/rusty-bridge/src/data_server/server/data_service.rs:51-62 | after any events the lists grow by exactly the connection events and the message events, in order |
| DataService.NothingLost | crates/rusty-bridge/src/data_server/server/data_service.rs:51-62 | every event lands in exactly one list |
| DataService.Route | crates/rusty-bridge/src/data_server/server/data_service.rs:73-87 | an unknown path gets "oh no! not found" and only an unknown path does; the list routes serve the current lists |
| DataService.RoutesDistinct | crates/rusty-bridge/src/data_server/server/request_handlers/mod.rs:10-15 | the health path answers "Alive!", and the two list paths serve their lists |
| DataService.HandledEventIsServed | crates/rusty-bridge/src/data_server/server/data_service.rs:51-87 | an event once handled is served at the end of its list |
| DataService.Service.constructor | crates/rusty-bridge/src/data_server/server/data_service.rs:33-49 | a service starts with empty lists |
| DataService.Service.Clone | crates/rusty-bridge/src/data_server/server/server.rs:63 | a clone shares the store |
| DataService.Service.HandleEvent | crates/rusty-bridge/src/data_server/server/data_service.rs:51-62 | the store is updated as Handling |
| DataService.Service.Call | crates/rusty-bridge/src/data_server/server/data_service.rs:73-87 | the response is Route of the current lists |
| DataService.CloneSeesLaterEvents | crates/rusty-bridge/src/data_server/server/server.rs:63-76 | a clone made before an event serves it |
| DataServerHandle.GetTime | crates/rusty-bridge/src/data_server/server/handle.rs:70-75 | the clock in ms, or 0 before the epoch |
| DataServerHandle.GetTimeMonotone | crates/rusty-bridge/src/data_server/server/handle.rs:70-75 | a later clock never gives an earlier time |
| DataServerHandle.EventConnection | crates/rusty-bridge/src/data_server/server/handle.rs:24-31 | a connection event carries the status and the time |
| DataServerHandle.EventRxData | crates/rusty-bridge/src/data_server/server/handle.rs:33-40 | a new-message event carries the id and the time |
| DataServerHandle.EventPubData | crates/rusty-bridge/src/data_server/server/handle.rs:42-49 | a publish event carries the id and the time |
| DataServerHandle.EventPubAck | crates/rusty-bridge/src/data_server/server/handle.rs:51-59 | an ack event carries the id, the outcome and the time |
| DataServerHandle.ServeOne | crates/rusty-bridge/src/data_server/server/server.rs:48-88 | the server takes one queued event, if any, and hands it to the service; with none nothing changes |
| DataServerHandle.Handle.SendData | crates/rusty-bridge/src/data_server/server/handle.rs:61-67 | an event is offered to the channel with `try_send` at capacity 10 |
| DataServerHandle.Handle.ReportConnection | crates/rusty-bridge/src/data_server/server/handle.rs:24-31 | the connection event is offered to the channel |
| DataServerHandle.Handle.ReportRxData | crates/rusty-bridge/src/data_server/server/handle.rs:33-40 | the new-message event is offered to the channel |
| DataServerHandle.Handle.ReportPubData | crates/rusty-bridge/src/data_server/server/handle.rs:42-49 | the publish event is offered to the channel |
| DataServerHandle.Handle.ReportPubAck | crates/rusty-bridge/src/data_server/server/handle.rs:51-59 | the ack event is offered to the channel |
| DataServerHandle.Handle.Drop | crates/rusty-bridge/src/data_server/server/handle.rs:77-87 | dropping aborts the server task, if there still is one, and forgets it |
| DataServerHandle.ReportReachesService | crates/rusty-bridge/src/data_server/server/handle.rs:42-49 | a publish report offered to a channel with room is served after every event queued before it, and ends at the end of the service's message list |
| MetricsViewer.ApplyCases | tools/metrics-viewer/src/data_collection/mod.rs:106-131 | a publish starts a fresh record, a successful ack of a known id records its time, and anything else changes nothing; other ids are untouched |
| MetricsViewer.RecordsMatchReference | tools/metrics-viewer/src/data_collection/mod.rs:106-131 | an id has a record exactly when it was published; the record holds its last publish time and the last successful ack after it |
| MetricsViewer.RepublishForgetsAck | tools/metrics-viewer/src/data_collection/mod.rs:109-116 | publishing an id again drops its earlier ack |
| MetricsViewer.EarlyAckIgnored | tools/metrics-viewer/src/data_collection/mod.rs:117-129 | an ack before its publish is ignored |
| MetricsViewer.RecordsKeyedById | tools/metrics-viewer/src/data_collection/mod.rs:106-131 | every record is filed under its own id |
| MetricsViewer.Collect | tools/metrics-viewer/src/data_collection/mod.rs:106-131 | the fold loop computes Records |
| MetricsViewer.Values | tools/metrics-viewer/src/data_collection/mod.rs:132 | `into_values` yields each record exactly once |
| MetricsViewer.RustyBridgeData.TryRecv | tools/metrics-viewer/src/data_collection/mod.rs:49-69 | each list is replaced by its channel's next value, or kept when none is waiting |
| MetricsViewer.RustyBridgeData.GetMsgEvents | tools/metrics-viewer/src/data_collection/mod.rs:90-135 | a decoded response sends the records of its events; a decode failure sends nothing |
| MetricsViewer.RustyBridgeData.GetConnEvents | tools/metrics-viewer/src/data_collection/mod.rs:71-88 | a decoded response is sent as it is; a decode failure sends nothing |
| EdgeReport.StaticUpsertEffect | tools/edge_report_listener/src/main.rs:102-117 | a static report creates or updates its machine's entry, keeping its dynamic data, and no other entry changes |
| EdgeReport.DynamicUpsertEffect | tools/edge_report_listener/src/main.rs:118-134 | a dynamic report updates a known machine; for an unknown machine it stores the defaults, not the report |
| EdgeReport.ReportsIdempotent | tools/edge_report_listener/src/main.rs:102-134 | repeating a report changes nothing more |
| EdgeReport.ReportsCommute | tools/edge_report_listener/src/main.rs:102-134 | for a known machine, static and dynamic reports commute |
| EdgeReport.DynamicBeforeStaticIsLost | tools/edge_report_listener/src/main.rs:126-129 | a dynamic report before the first static one is lost |
| EdgeReport.AppState.EdgeReportStatic | tools/edge_report_listener/src/main.rs:102-117 | the handler applies the static upsert unless the lock is poisoned |
| EdgeReport.AppState.EdgeReportDynamic | tools/edge_report_listener/src/main.rs:118-134 | the handler applies the dynamic upsert unless the lock is poisoned |
| EdgeReport.HandleError | tools/edge_report_listener/src/main.rs:136-152 | time-out gives 408, overload gives 503, and anything else gives 500 with its text |
| EdgeReport.HandleErrorKeepsDetail | tools/edge_report_listener/src/main.rs:136-152 | different internal errors give different bodies |
| NorthAdapters.CheckServers | crates/libs/lib-mini-config-special/src/north_adapters.rs:17-37 | Ok exactly for one server; none or several give their error texts |
| NorthAdapters.GetNorthAdapters | crates/libs/lib-mini-config-special/src/north_adapters.rs:15-38 | with its fixed two-server list the call always fails |
| NorthAdapters.GetNorthAdaptersMessage | crates/libs/lib-mini-config-special/src/north_adapters.rs:15-38 | the exact text of that failure |
| NorthAdapters.ParseConnectionString | crates/libs/lib-mini-config-special/src/north_adapters.rs:45-85 | Ok exactly when there are at least four fields; one, two or three fields give the missing-username, -password or -ana error; endpoints get their paths |
| NorthAdapters.ParseRoundTrip | crates/libs/lib-mini-config-special/src/north_adapters.rs:45-85 | a well-formed connection string parses back to its values |
| NorthAdapters.ExtraFieldsIgnored | crates/libs/lib-mini-config-special/src/north_adapters.rs:45-85 | fields after the fourth are ignored |
| NorthAdapters.KeyRemovedAnywhere | crates/libs/lib-mini-config-special/src/north_adapters.rs:75-82 | a key is removed anywhere in its field, not only at the start |
| Termination.Code | crates/rusty-bridge/src/shutdown/termination.rs:12-21 | the code is 0 exactly for success and lies in -3..0 |
| Termination.CodeInjective | crates/rusty-bridge/src/shutdown/termination.rs:12-21 | different reasons give different codes |
| Termination.ReasonOf | crates/rusty-bridge/src/shutdown/termination.rs:12-21 | the inverse of Code on -3..0 |
| Termination.ReasonOfCode | crates/rusty-bridge/src/shutdown/termination.rs:12-21 | ReasonOf undoes Code |
| Termination.Report | crates/rusty-bridge/src/shutdown/termination.rs:23-30 | SUCCESS exactly for the Success reason |
| Termination.ReportAgreesWithCode | crates/rusty-bridge/src/shutdown/termination.rs:12-30 | the report and the code agree on success |
| Termination.StatusByte | crates/rusty-bridge/src/main.rs:44-57 | the status a parent process sees is the code modulo 256 |
| Termination.StatusBytes | crates/rusty-bridge/src/main.rs:44-57 | parents see 0, 255, 254 and 253 |
| BridgeError.ErrorTextInjective | crates/rusty-bridge/src/error.rs:7-15 | the display text identifies the error |
| BridgeError.IntoExitReason | crates/rusty-bridge/src/error.rs:17-23 | Initialization maps to Failure and every other error to Unknown |
| BridgeError.ExitWith | crates/rusty-bridge/src/main.rs:44-57 | exit code 0 exactly on Ok; -1 for initialization errors and -3 for others |
| BridgeError.NeverReconfiguration | crates/rusty-bridge/src/main.rs:44-57 | a run never exits with the reconfiguration code |

## Left out

- Network I/O, TLS and certificates, HTTP serving and JSON (de)serialisation. Responses carry the lists themselves, and every decode failure is a parameter.
- Timers and clocks: durations are numbers and the current time is a parameter. The scheduling of tokio tasks is an explicit schedule of events.
- rumqttc internals: keep-alive, retransmission of in-flight packets, and packet-id allocation. Packet ids are parameters of the events.
- Back-pressure between publish tasks waiting on a full channel: a task that cannot queue simply waits for a later step.
- Floating-point values: the edge reports' `f32` fields are kept as their bit patterns, and the viewer's plotting and statistics are not modelled.
- The order in which `HashMap::into_values` yields records: `MetricsViewer.Values` states only that each record is yielded once.
- The `{:?}` escaping of quotes and backslashes in the server list's error text: the list is fixed and holds neither.
- The IoTHub adapter, the HTTP-REST and MQTT data sources, the dev configuration, persistence, signals and the plots are not part of this model.
- The main loop's `rx_conn_status` closed branch: the loop holds a sender of that channel itself, so the branch cannot run.
- `MainLoop.StepKeepsInv`: after shutdown starts, only the weak disjunct of the invariant is kept. The connection watchers are counted, not their watch contents.
- The main loop's `adapter.connect().unwrap()`: it cannot panic, because `DevAdapter.Connect` and `HiveMQAdapter.ConnectStep` both always return Ok.
- The missing-hostname error of `parse_connection_string`: it cannot occur, because splitting always yields at least one field.
- The disconnect at the end of the main loop: it is the adapters' `Disconnect`, modelled in their modules.
- `HiveMQTokens.WaitForAck`: the text of a tokio `JoinError` is a parameter.
- HiveMQAdapter.SpecialHiveMQ.RenewPassword: a renewal round may be taken at any point of a schedule. The delay the previous round reported is returned but not enforced, so the model also admits renewals that the wrapped `expires_in - 30` sleep would put off far beyond the token's lifetime (the requested delay is about 2^64 s, which tokio caps at its far-future deadline).

## Findings

| source | as written | input that shows it | evidently intended | confidence | as-written member | corrected member |
|---|---|---|---|---|---|---|
| crates/libs/lib-special-ana/src/lib.rs:140 | the renewal delay is `expires_in - 30` on a `u64` | a token with `expires_in` = 10: the subtraction wraps (or panics in a debug build), and the loop requests a sleep of about 2^64 s, which tokio caps far beyond the token's lifetime, so nothing is renewed before the token expires | renew 30 s before expiry, at once for tokens that live less than 30 s | not executed | Ana.RenewAsWrittenOutlivesToken | Ana.CorrectedRenewBeforeExpiry |
| crates/libs/lib-cloud-adapter-special-hivemq/src/lib.rs:189-202 | each publish task first queues its ack registration, then awaits handing over its publish, so two tasks can interleave between the two sends | messages 1 and 2: both register (1, 2), then 2 hands over its publish before 1; packet 5 carries message 2 but is filed under message 1's registration, and its PUBACK reports message 1 delivered | the registration and the publish are queued in one step, as in the commented alternative at lines 185-187, except that the model waits where that alternative's `unwrap` calls would panic on a full channel, so registrations and publishes stay in the same order | not executed | HiveMQAdapter.AsWrittenMispairs | HiveMQAdapter.CorrectedRunKeepsAligned |
