# tom-notifier: delivery pipeline model

A Dafny 4.11 model of how tom-notifier gets notifications to users, with proofs of what it promises on
every run: the publisher-confirm producer, the websocket connections with their retry queue and heartbeat,
the connection registry, the reconnecting consumer and the machine that keeps its connection alive, the
deduplicator, delivery confirmations, the notification store and single-use tickets.

Check it with `dafny verify dfyconfig.toml`.

## How it is laid out

Each component comes in up to three modules.

- `...Model`: the state as a value, one function for the code between two await points or under one lock,
  and a world in which the environment (broker, clock, client, other tasks) acts between any two steps.
  A run is a sequence of worlds driven by events, each enabled where it happens.
- `...Safety`: an inductive invariant and the results, stated over every run.
- The class, in the source's form: fields updated in place, loops where the source has them. Each method is
  proved to change the abstract state (`View()`) exactly as the model's function says, so that the results
  about runs are about these methods too. For the consumer and the connection machine that is spelled out:
  `Consumer.Recovery` holds both objects on the watch channel they share and drives them through any run.

Smaller components (`Deduplication`, `Tickets`, `Confirmations`, `Timestamp`) keep all of it in one module.

A tokio watch channel is its value, the number of replacements and how many of them the receiver has seen
(`Common.Watch`); a `Notify` is one permit; a broadcast channel is one queue per receiver; a biased select takes
the first ready branch; a Mongo update is atomic for one document.

## What the environment is assumed to do

- Producer: the k-th publish on a channel after confirm_select has tag k. An ack of a tag means that the broker
  took that publish; an ack with `multiple` may also cover tags the broker has nacked before. Confirms are only
  enqueued for the channel Ok was last entered with, until Ok is entered again. `multiple` is read as in the
  basic.ack method of the AMQP 0-9-1 reference (section 1.8.3.13), "up to and including"; there tag 0 with
  `multiple` means everything outstanding, while this code removes nothing for it; the model follows the code, and
  `ProducerSafety.TagZeroAsSpecifiedExactly` says when the two agree.
- Websocket connection: the clock never goes back. Ping and pong are those of sections 5.5.2 and 5.5.3 of
  RFC 6455. The heartbeat number is a u32 that wraps, as is the product that says how many documents a page
  skips; a debug build would panic instead.
- Consumer: a channel dies only with its connection or when the consumer closes it.
- Status updates: `update_network_status` is called by one consumer that awaits it. The registry's result needs
  this (`RegistrySafety.OverlappingUpdatesDisagree`), and `StatusPipeline` proves that the consumer provides it.
- Ids the code generates (message, notification, channel) are fresh.

The doc comment of the repository's `delete` promises an error for a notification already deleted; the query has
no such condition and relies on `modified_count`, which `NotificationSafety.SuccessExactly` shows to be the same.

## Model

| member | source | states |
|---|---|---|
| ProducerSafety.MessagesConserved | shared/rabbitmq_client/src/producer/state_machine.rs:122-225 | On every run until stop, the multiset of messages handed to the producer is exactly pending + being published + unconfirmed + retired by acks: none lost, none duplicated inside |
| ProducerSafety.AtLeastOnce | shared/rabbitmq_client/src/producer/state_machine.rs:122-225 | Of every message, as many copies as were handed over are still inside or were taken by the broker under that many distinct publishes |
| ProducerSafety.AckRetiresOwnPublish | shared/rabbitmq_client/src/producer/state_machine.rs:312-361 | Processing a confirm keeps everything inside except what an ack covers, and each entry an ack takes out was the publish of exactly that tag on the current channel and had been taken by the broker, although acks may cover tags nacked earlier |
| ProducerSafety.OtherStepsKeepEverything | shared/rabbitmq_client/src/producer/state_machine.rs:122-291 | Every step that does not process a confirm (publish failure, reconnection, resend, ...) leaves the messages inside unchanged, apart from one just handed over |
| ProducerSafety.UnconfirmedIsItsPublish | shared/rabbitmq_client/src/producer/state_machine.rs:126-179 | On every run an unconfirmed entry (n, m) is the one publish numbered n on the current channel, and tags are strictly increasing |
| ProducerSafety.StaleConfirmsAreHarmless | shared/rabbitmq_client/src/producer/state_machine.rs:128-188 | A confirm met before the first publish on a channel changes nothing but the confirm queue |
| ProducerSafety.PublishRespectsFlowControl | shared/rabbitmq_client/src/producer/state_machine.rs:122-163 | A publish starts only in Ok with no confirm waiting, on the published connection, with the watched flow on and blocked off and nothing unseen, and puts tag count + 1 of the current channel on the wire |
| ProducerSafety.NothingHeldBack | shared/rabbitmq_client/src/producer/state_machine.rs:122-163 | Conversely, on every run, when the select in Ok finds nothing to do, no message is pending, or the broker has switched the flow off, or it blocks the connection |
| ProducerSafety.RecoveryIsSafe | shared/rabbitmq_client/src/producer/state_machine.rs:193-291 | On every run the cached connection is present in every state past WaitingForConnection, and nothing is unconfirmed while a channel is recreated or the producer restored |
| ProducerSafety.OkStartsClean | shared/rabbitmq_client/src/producer/state_machine.rs:272-291 | Ok is re-entered with nothing unconfirmed, counting from 0, on a channel newer than every publish |
| ProducerSafety.FailedChannelAbandoned | shared/rabbitmq_client/src/producer/state_machine.rs:169-186 | On every run, after a failed publish, a failed restore or a noticed connection change whatever is published goes to a newer channel than the one in use then |
| ProducerSafety.NeverStuck | shared/rabbitmq_client/src/producer/state_machine.rs:193-291 | On every run, outside Ok some step of the machine makes progress if and only if it is not waiting for a connection that is still missing |
| ProducerSafety.RecoveryReachesOk | shared/rabbitmq_client/src/producer/state_machine.rs:193-291 | And recovery ends: from any moment of any run, while the connection is stable and the broker sends no confirm and refuses nothing, Ok is at most 11 steps and two for each waiting confirm away, whatever else happens |
| ProducerSafety.WatchesExactly | shared/rabbitmq_client/src/producer/state_machine.rs:244-268 | Each watched value is what was said last: the connection by its publisher, flow and blocked by the broker, and flow is on whenever a channel is opened |
| ProducerSafety.FlagsAreLastSaid | shared/rabbitmq_client/src/producer/state_machine.rs:122-148 | On every run, in Ok with nothing unseen the machine goes by the flow and the blocked flag that were said last, flow being on after a new channel |
| ProducerSafety.PendingIsQueue | shared/rabbitmq_client/src/producer/state_machine.rs:157-191 | Pending messages form a queue: a step takes the front into a publish or appends at the back, requeued messages in tag order |
| ProducerSafety.ProcessPendingInv | shared/rabbitmq_client/src/producer/state_machine.rs:207-225 | Draining the confirms and rescheduling the rest as one method has the effect of the single steps, and keeps the invariant behind all of the above |
| ProducerSafety.ConfirmOrderIrrelevant | shared/rabbitmq_client/src/producer/state_machine.rs:312-361 | The queue left after a series of confirms depends only on the set of confirms: not on order or repetition |
| ProducerSafety.KeptRemovedMembers | shared/rabbitmq_client/src/producer/state_machine.rs:331-354 | A confirm removes exactly the entries up to its tag if it is multiple, the one of its tag if not, and keeps the others; both stay in tag order |
| ProducerSafety.KeptRemovedPartition | shared/rabbitmq_client/src/producer/state_machine.rs:331-354 | Kept and removed entries together are the queue, copies counted |
| ProducerSafety.TagZeroSettlesNothing | shared/rabbitmq_client/src/producer/state_machine.rs:331-343 | Tag 0 with `multiple` removes nothing, in every reachable state |
| ProducerSafety.TagZeroAsSpecifiedExactly | shared/rabbitmq_client/src/producer/state_machine.rs:331-343 | For tag 0 with `multiple` the code does what the protocol asks (settle everything outstanding) if and only if nothing is unconfirmed |
| Producer.StateMachine.constructor | shared/rabbitmq_client/src/producer/state_machine.rs:40-71 | A new machine is in Ok with empty queues and both flags read |
| Producer.StateMachine.ProcessConfirm | shared/rabbitmq_client/src/producer/state_machine.rs:312-361 | Leaves exactly the uncovered entries in order, and appends exactly the covered ones to pending in tag order for a nack, nothing for an ack |
| Producer.StateMachine.ProcessMultiple | shared/rabbitmq_client/src/producer/state_machine.rs:332-343 | Popping covered entries off the front of a tag-ordered queue is filtering the whole queue |
| Producer.StateMachine.ProcessSingle | shared/rabbitmq_client/src/producer/state_machine.rs:344-359 | Removing the entry found at a position is filtering by the exact tag; an unknown tag changes nothing |
| Producer.StateMachine.Position | shared/rabbitmq_client/src/producer/state_machine.rs:345-348 | Finds the first entry with the tag, or reports that there is none |
| Producer.StateMachine.OnRemove | shared/rabbitmq_client/src/producer/state_machine.rs:319-327 | An acked message is dropped, a nacked one goes to the back of pending |
| Producer.StateMachine.OkStep | shared/rabbitmq_client/src/producer/state_machine.rs:130-167 | One select iteration: the first ready branch of connection, flow, blocked, confirm, message is taken and only that one |
| Producer.StateMachine.StartPublish | shared/rabbitmq_client/src/producer/state_machine.rs:159-163 | Takes the oldest pending message and numbers it next, keeping queue tags below it |
| Producer.StateMachine.TakeConfirm | shared/rabbitmq_client/src/producer/state_machine.rs:152-157 | Receives the oldest confirm and processes it |
| Producer.StateMachine.DrainConfirms | shared/rabbitmq_client/src/producer/state_machine.rs:208-214 | Processes every waiting confirm in order of arrival until none is left |
| Producer.StateMachine.PublishReturned | shared/rabbitmq_client/src/producer/state_machine.rs:169-186 | A successful publish is queued under its number and Ok goes on; a failed one goes to the back of pending and recovery starts; nothing inside is lost |
| Producer.StateMachine.ReadConnection | shared/rabbitmq_client/src/producer/state_machine.rs:193-205 | Reads the watched connection, marks it seen, and goes on only if there is one |
| Producer.StateMachine.ProcessPendingConfirmations | shared/rabbitmq_client/src/producer/state_machine.rs:207-225 | Ends with no confirm and nothing unconfirmed, everything not acked being pending again in order |
| Producer.StateMachine.RescheduleUnconfirmed | shared/rabbitmq_client/src/producer/state_machine.rs:217-222 | Moves all unconfirmed messages behind the pending ones, in order |
| Producer.StateMachine.ConnectionInterrupt | shared/rabbitmq_client/src/producer/state_machine.rs:240-243 | A connection change interrupts recovery without touching the messages |
| Producer.StateMachine.ChannelOpens | shared/rabbitmq_client/src/producer/state_machine.rs:249-258 | The new channel replaces the old one and flow is set to true |
| Producer.StateMachine.CallbackRegistered | shared/rabbitmq_client/src/producer/state_machine.rs:260-268 | The machine goes on to restoring the producer |
| Producer.StateMachine.RestoreReturned | shared/rabbitmq_client/src/producer/state_machine.rs:281-289 | Success enters Ok, failure recreates the channel |
| WebSocketSafety.RetrySchedule | tom-notifier-ws-delivery/src/service/websockets_service/websocket_connection.rs:95-130 | On every run with a monotone clock the front deadline is the earliest, every queued message was sent max - remaining + 1 times (at most max + 1), and its next deadline is at least one interval per send after the first |
| WebSocketSafety.NotDroppedEarly | tom-notifier-ws-delivery/src/service/websockets_service/websocket_connection.rs:297-332 | A client is dropped for an unconfirmed message only after max + 1 sends of it and max + 1 intervals since the first |
| WebSocketSafety.HeartbeatBounds | tom-notifier-ws-delivery/src/service/websockets_service/websocket_connection.rs:132-156 | At most two pings outstanding, the next ping not before (outstanding + 1) intervals after the last reset, at most 2 * (resets + 1) pings in all, and closing for silence not before three intervals after the last reset |
| WebSocketSafety.TwoPingsPerHeartbeat | tom-notifier-ws-delivery/src/service/websockets_service/websocket_connection.rs:132-156 | The pings of one heartbeat carry the same number and there are at most two, sent one after the other |
| WebSocketSafety.PongResetsExactly | tom-notifier-ws-delivery/src/service/websockets_service/websocket_connection.rs:223-257 | A pong resets the heartbeat exactly when a ping is outstanding and its payload is the big-endian current number; otherwise it is ignored, or closes the connection when it is not four bytes |
| WebSocketSafety.OldPongsIgnored | tom-notifier-ws-delivery/src/service/websockets_service/websocket_connection.rs:139-152 | The pong of an earlier heartbeat counts exactly when the heartbeat numbers agree modulo 2^32, so never for the last 2^32 - 1 |
| WebSocketSafety.OnlyAnswersReset | tom-notifier-ws-delivery/src/service/websockets_service/websocket_connection.rs:207-257 | What every step does to the ping deadline and the count of outstanding pings: only a confirmation of a queued message or the matching pong restarts them, another frame leaves both as they are, and besides only a ping sent moves them |
| WebSocketSafety.ClosedExactly | tom-notifier-ws-delivery/src/service/websockets_service/websocket_connection.rs:132-332 | For each of the eight reasons the one condition under which an open connection is closed for it: silence exactly when a ping is due with two outstanding, a missing confirmation exactly when a retry is due and none is left, and so on; it stays open otherwise |
| WebSocketSafety.SilentClientIsClosed | tom-notifier-ws-delivery/src/service/websockets_service/websocket_connection.rs:132-156 | On every run, over any stretch without an answer at most two ping deadlines pass with the connection open, so the third closes it |
| WebSocketSafety.QueueExactly | tom-notifier-ws-delivery/src/service/websockets_service/websocket_connection.rs:259-332 | While the connection stays open a delivered message joins the queue at the back, a resent one moves from front to back, and no other step but a confirmation changes which messages wait |
| WebSocketSafety.ConfirmationRemovesOneCopy | tom-notifier-ws-delivery/src/service/websockets_service/websocket_connection.rs:198-212 | A confirmation removes the first queued copy of its message and nothing else; an unexpected one changes nothing |
| WebSocketSafety.BytesRoundTrip | tom-notifier-ws-delivery/src/service/websockets_service/websocket_connection.rs:145-145 | Decoding the big-endian bytes of a u32 gives it back |
| WebSocketSafety.BytesUnique | tom-notifier-ws-delivery/src/service/websockets_service/websocket_connection.rs:224-231 | Every four bytes are the encoding of the number they decode to |
| WebSocketConnection.Connection.constructor | tom-notifier-ws-delivery/src/service/websockets_service/websocket_connection.rs:42-67 | A connection starts open with an empty queue and the first ping one interval away |
| WebSocketConnection.Connection.RetryTime | tom-notifier-ws-delivery/src/service/websockets_service/websocket_connection.rs:99-103 | The time slept until is the earliest deadline of the queue, or now when it is empty |
| WebSocketConnection.Connection.ProcessPing | tom-notifier-ws-delivery/src/service/websockets_service/websocket_connection.rs:132-156 | Closes exactly when two pings are unanswered, starts a new number only for the first, and defers the deadline after sending |
| WebSocketConnection.Connection.Position | tom-notifier-ws-delivery/src/service/websockets_service/websocket_connection.rs:198-202 | Finds the first copy of a message by id, or reports that there is none |
| WebSocketConnection.Connection.ProcessBinary | tom-notifier-ws-delivery/src/service/websockets_service/websocket_connection.rs:191-221 | Removes the first copy, resets the heartbeat and names the message whose callback runs; an unexpected confirmation changes nothing and an undecodable one closes |
| WebSocketConnection.Connection.ProcessPong | tom-notifier-ws-delivery/src/service/websockets_service/websocket_connection.rs:223-257 | Resets the heartbeat for the expected pong, ignores a late one, closes on a wrong length |
| WebSocketConnection.Connection.ProcessIncomingMessage | tom-notifier-ws-delivery/src/service/websockets_service/websocket_connection.rs:158-189 | Dispatch of every kind of frame, with the reason for closing |
| WebSocketConnection.Connection.ProcessMessage | tom-notifier-ws-delivery/src/service/websockets_service/websocket_connection.rs:259-295 | A sent message is queued with a full set of retries and deadlines stay in order; lag, a closed channel or a failed send close the connection |
| WebSocketConnection.Connection.ProcessUnconfirmed | tom-notifier-ws-delivery/src/service/websockets_service/websocket_connection.rs:297-332 | The front is resent to the back with one retry less and deadlines stay in order, or the connection closes when none is left or the send fails |
| Confirmations.AtMostOneConfirmation | tom-notifier-ws-delivery/src/service/websockets_service/websocket_confirmation_callback.rs:24-39 | Over any set of connections sharing messages, no message is reported twice |
| Confirmations.ConfirmationNamesFirst | tom-notifier-ws-delivery/src/service/websockets_service/websocket_confirmation_callback.rs:24-39 | A report names the user for whom the connection was made that confirmed the message first on the run, and the NEW notification the message was created from |
| Confirmations.ConfirmedExactlyWhenNew | tom-notifier-ws-delivery/src/service/websockets_service/websockets_service_impl.rs:60-70 | When no send is under way a message has been reported if and only if on the run a client that had it queued confirmed it and it was created from a NEW notification |
| Confirmations.LogIsRun | tom-notifier-ws-delivery/src/service/websockets_service/websocket_connection.rs:198-220 | On every run a confirmation is recorded for a user exactly when a frame confirms a message queued on a connection that was made for that user |
| Confirmations.QueuedAsCreated | tom-notifier-ws-delivery/src/service/websockets_service/websockets_service_impl.rs:55-89 | On every run a queued message has the payload it was created with, and a callback exactly if it was created from a NEW notification |
| Confirmations.QueuesOnRun | tom-notifier-ws-delivery/src/service/websockets_service/websocket_connection.rs:191-332 | On every run, while a connection is open its queue changes only by its own sends, retries and confirmations |
| Confirmations.HeartbeatsOnRun | tom-notifier-ws-delivery/src/service/websockets_service/websocket_connection.rs:132-156 | A heartbeat that falls due closes the connection with two pings outstanding, otherwise sends one more, on that connection alone |
| Confirmations.Callback.constructor | tom-notifier-ws-delivery/src/service/websockets_service/websocket_confirmation_callback.rs:16-22 | A new callback has not been called |
| Confirmations.Callback.Execute | tom-notifier-ws-delivery/src/service/websockets_service/websocket_confirmation_callback.rs:24-39 | Reports for the caller exactly if nobody called before; an object that stands for the flag of a message does to it, and hands over to send, what the system of connections does |
| Confirmations.FlagStays | tom-notifier-ws-delivery/src/service/websockets_service/websocket_confirmation_callback.rs:24-39 | No step but the one that runs the callback of a message touches its flag |
| RegistrySafety.NobodyCutOff | tom-notifier-ws-delivery/src/service/websockets_service/websockets_service_impl.rs:131-170 | In every reachable state a live receiver is subscribed to its user's current channel, or else its channel was taken out of the map to be closed |
| RegistrySafety.RegistrationLasts | tom-notifier-ws-delivery/src/service/websockets_service/websockets_service_impl.rs:193-219 | Only its own end or a forced close of its user unregisters a live client: no cleanup, reconnect or send does |
| RegistrySafety.NoEntryLeaks | tom-notifier-ws-delivery/src/service/websockets_service/websockets_service_impl.rs:193-208 | An entry without receivers has a cleanup of its own channel pending, so the map is empty once all tasks have finished |
| RegistrySafety.ConnectSendHasReceiver | tom-notifier-ws-delivery/src/service/websockets_service/websockets_service_impl.rs:159-168 | The unchecked send while connecting has the new client as receiver, and is made exactly when a problem is stored |
| RegistrySafety.EveryoneKnowsStatus | tom-notifier-ws-delivery/src/service/websockets_service/websockets_service_impl.rs:146-170 | Whenever no update is between its store and its broadcast, the last status-only message queued to every registered client (none counting as Ok) is the stored status |
| RegistrySafety.OverlappingUpdatesDisagree | tom-notifier-ws-delivery/src/service/websockets_service/websockets_service_impl.rs:230-243 | Were two updates to overlap, every registered client could end up with the opposite of what is stored |
| RegistrySafety.MulticastDelivers | tom-notifier-ws-delivery/src/service/websockets_service/websockets_service_impl.rs:91-104 | A multicast queues one copy per occurrence of the user in the list to each registered client, none to others, and changes nothing else |
| RegistrySafety.QueuesExactly | tom-notifier-ws-delivery/src/service/websockets_service/websockets_service_impl.rs:91-116 | On every run each client's queue grows by exactly what a step sends it: a notification for everyone once if it is registered, one for listed users once per occurrence of its user, the stored status at a broadcast, a problem message when its user connects again, nothing if it is not registered |
| RegistrySafety.ForcedCloseExactly | tom-notifier-ws-delivery/src/service/websockets_service/websockets_service_impl.rs:211-220 | A forced close unregisters exactly the user's clients and leaves their channel to be closed |
| RegistrySafety.ClosedForGood | tom-notifier-ws-delivery/src/service/websockets_service/websockets_service_impl.rs:211-220 | A channel taken out is closed once its sender is dropped, and its clients are never registered again nor sent anything |
| Registry.WebSocketsService.constructor | tom-notifier-ws-delivery/src/service/websockets_service/websockets_service_impl.rs:39-53 | The service starts with no connections and status ok |
| Registry.WebSocketsService.SubscribeClient | tom-notifier-ws-delivery/src/service/websockets_service/websockets_service_impl.rs:131-144 | Finds the user's channel or makes a fresh one, and adds the client as its receiver |
| Registry.WebSocketsService.HandleClient | tom-notifier-ws-delivery/src/service/websockets_service/websockets_service_impl.rs:131-170 | Subscribes to the user's channel, made if missing, queues a problem message if one is stored, and keeps everyone reachable and informed |
| Registry.WebSocketsService.CleanUpAfter | tom-notifier-ws-delivery/src/service/websockets_service/websockets_service_impl.rs:193-208 | Removes the user's entry only when its channel has no receiver left, and leaves no entry unattended |
| Registry.WebSocketsService.CloseConnections | tom-notifier-ws-delivery/src/service/websockets_service/websockets_service_impl.rs:211-220 | Takes the user's channel out of the map, if there is one |
| Registry.WebSocketsService.DropTaken | tom-notifier-ws-delivery/src/service/websockets_service/websockets_service_impl.rs:211-220 | Dropping the sender taken out closes the channel |
| Registry.WebSocketsService.Send | tom-notifier-ws-delivery/src/service/websockets_service/websockets_service_impl.rs:96-103 | One send appends the message to the queue of each receiver of the channel |
| Registry.WebSocketsService.SendMulticast | tom-notifier-ws-delivery/src/service/websockets_service/websockets_service_impl.rs:91-104 | The loop over the user list is one send per listed user that is connected |
| Registry.WebSocketsService.SendBroadcast | tom-notifier-ws-delivery/src/service/websockets_service/websockets_service_impl.rs:106-116 | The loop over the map gives every registered client the message exactly once |
| Registry.WebSocketsService.SendNotification | tom-notifier-ws-delivery/src/service/websockets_service/websockets_service_impl.rs:222-228 | An empty list queues the notification once to each registered client, any other list once per occurrence of the client's user |
| Registry.WebSocketsService.StoreNetworkStatus | tom-notifier-ws-delivery/src/service/websockets_service/websockets_service_impl.rs:233-238 | The status is stored before it is broadcast |
| Registry.WebSocketsService.BroadcastNetworkStatus | tom-notifier-ws-delivery/src/service/websockets_service/websockets_service_impl.rs:240-243 | Every registered client gets the stored status as its last status-only message |
| ConsumerSafety.NoLostWakeup | shared/rabbitmq_client/src/consumer/state_machine.rs:130-151 | On every run, at rest in Ok with no unseen change and no permit, the consumer is registered on a channel of the cached connection, which is the published one, unless that just died and the connection machine has yet to say so |
| ConsumerSafety.NeverStuck | shared/rabbitmq_client/src/connection/state_machine.rs:87-149 | On every run, whatever died or was cancelled: some step of the two machines makes progress if and only if the consumer is not at rest, and at rest it is registered on a channel of the live connection |
| ConsumerSafety.RecoveryEnds | shared/rabbitmq_client/src/connection/state_machine.rs:87-149 | And recovery ends: from any moment of any run, while nothing further fails and the server refuses nothing, a measure of at most 342 falls with each step that makes progress, whichever machine takes it |
| ConsumerSafety.CancelReachesCurrentConsumer | shared/rabbitmq_client/src/consumer/state_machine.rs:196-213 | A cancel sets the permit exactly when it is of the channel in use; one of an earlier channel does nothing |
| ConsumerSafety.PermitExactly | shared/rabbitmq_client/src/consumer/state_machine.rs:196-213 | On every run there is a permit if and only if the server cancelled the channel in use since a cancel was last acted on: none is left over from an earlier channel, and a connection change uses none up |
| ConsumerSafety.WakesToExactly | shared/rabbitmq_client/src/consumer/state_machine.rs:135-151 | After a connection change the new connection is waited for, after a cancel the consumer is restored on the channel it has |
| ConsumerSafety.UnwrapIsSafe | shared/rabbitmq_client/src/consumer/state_machine.rs:186-194 | On every run RecreatingChannel has a connection to unwrap |
| ConsumerSafety.StatusAlternates | shared/rabbitmq_client/src/consumer/state_machine.rs:130-151 | On every run the reported statuses alternate, starting with Consuming |
| Consumer.ConnectionStateMachine.constructor | shared/rabbitmq_client/src/connection/state_machine.rs:22-40 | Starts in Ok, sending on a watch channel that holds the given connection, so that a published connection is always the current one |
| Consumer.ConnectionStateMachine.StartClosing | shared/rabbitmq_client/src/connection/state_machine.rs:94-103 | None is published on the shared channel before the connection is closed |
| Consumer.ConnectionStateMachine.CallbackRegistered | shared/rabbitmq_client/src/connection/state_machine.rs:124-149 | The connection is published on the shared channel, not before its callback is registered |
| Consumer.ConsumerStateMachine.constructor | shared/rabbitmq_client/src/consumer/state_machine.rs:46-73 | Starts in Ok, about to report Consuming |
| Consumer.ConsumerStateMachine.Select | shared/rabbitmq_client/src/consumer/state_machine.rs:135-146 | A connection change is taken before a cancel and leaves the permit; a cancel uses it up |
| Consumer.ConsumerStateMachine.ReadConnection | shared/rabbitmq_client/src/consumer/state_machine.rs:153-167 | Reads the watched connection, marks it seen, and goes on only if there is one |
| Consumer.ConsumerStateMachine.Interrupt | shared/rabbitmq_client/src/consumer/state_machine.rs:178-184 | A connection change interrupts recovery, to be read next |
| Consumer.Recovery.Step | shared/rabbitmq_client/src/consumer/state_machine.rs:105-124 | The two objects, sharing one watch channel, take each step of the world they model, whoever takes it, and keep the joint invariant |
| Consumer.Recovery.Drive | shared/rabbitmq_client/src/consumer/state_machine.rs:105-124 | Driven by the events of any run the objects end in its last world, so the results about runs hold of them; NoLostWakeup is stated of the objects themselves |
| StatusPipeline.ClientsKnowConsumerStatus | tom-notifier-ws-delivery/src/service/notifications_consumer_service/notifications_consumer_service.rs:145-164 | On every run of consumer, connection machine and registry together, outside a status callback every registered client was told last what the consumer reported last, which is a problem exactly while the consumer is not listening |
| StatusPipeline.UpdatesNeverOverlap | shared/rabbitmq_client/src/consumer/state_machine.rs:130-151 | The consumer awaits its callback, so the registry never sees overlapping status updates |
| StatusPipeline.StepsOfBoth | tom-notifier-ws-delivery/src/service/notifications_consumer_service/notifications_consumer_service.rs:145-164 | Each step of the pipeline is a step of the machines, of the registry or of both, so what holds of either on every run holds of its part |
| Deduplication.AcceptsExactly | tom-notifier-ws-delivery/src/service/notifications_deduplication_service/notifications_deduplication_service_impl.rs:78-96 | After any history of updates and collections an update is accepted if and only if every update of that notification that is as new or newer was followed by a collection at or above its timestamp |
| Deduplication.UnprunedExactly | tom-notifier-ws-delivery/src/service/notifications_deduplication_service/notifications_deduplication_service_impl.rs:78-96 | A service that never collects accepts exactly what no update of that notification, as new or newer, has preceded |
| Deduplication.RefinesNeverForgetting | tom-notifier-ws-delivery/src/service/notifications_deduplication_service/notifications_deduplication_service_impl.rs:78-96 | Compared with a service that never collects: rejects nothing it accepts, and the two differ on an update if and only if it was superseded and all that supersedes it was collected since; above every cutoff used they agree |
| Deduplication.RecentAcceptedInOrder | tom-notifier-ws-delivery/src/service/notifications_deduplication_service/notifications_deduplication_service_impl.rs:78-96 | Of two updates of one notification the later is accepted only if newer, or if a collection between the two used a cutoff at or above the earlier |
| Deduplication.CopyAcceptedAgainExactly | tom-notifier-ws-delivery/src/service/notifications_deduplication_service/notifications_deduplication_service_garbage_collector.rs:41-60 | A republished copy is accepted more than once exactly when each time it or a newer update came, a collection at or above that timestamp followed |
| Deduplication.OldCopiesAcceptedTwice | tom-notifier-ws-delivery/src/service/notifications_deduplication_service/notifications_deduplication_service_garbage_collector.rs:41-60 | A copy of an accepted update is accepted again after one collection if and only if the cutoff reached its timestamp |
| Deduplication.DeduplicationService.constructor | tom-notifier-ws-delivery/src/service/notifications_deduplication_service/notifications_deduplication_service_impl.rs:24-27 | Starts with no updates remembered |
| Deduplication.DeduplicationService.Deduplicate | tom-notifier-ws-delivery/src/service/notifications_deduplication_service/notifications_deduplication_service_impl.rs:78-96 | Reports a duplicate exactly when the history of calls still remembers the update superseded, and records the call |
| Deduplication.DeduplicationService.CollectGarbage | tom-notifier-ws-delivery/src/service/notifications_deduplication_service/notifications_deduplication_service_garbage_collector.rs:41-60 | Keeps exactly the entries newer than now minus the lifespan, values unchanged, and records the cutoff |
| Timestamp.RoundTrip | tom-notifier-ws-delivery/src/service/notifications_deduplication_service/dto/notification_status_update.rs:14-29 | Splitting any representable time and decoding it is the identity, before the epoch included |
| Timestamp.DecodeExactly | tom-notifier-ws-delivery/src/service/notifications_deduplication_service/dto/notification_status_update.rs:19-28 | Decoding succeeds exactly on encodings of representable times, and encoding inverts it |
| Timestamp.TryFromInNumbers | tom-notifier-ws-delivery/src/service/notifications_deduplication_service/dto/notification_status_update.rs:14-29 | In plain numbers: which ids and timestamps are accepted, as what time, and which error each of the others gives |
| Timestamp.OrderPreserved | tom-notifier-core/src/service/notifications_producer_service/notifications_producer_service_impl.rs:63-66 | The order of times is the lexicographic order of what is sent, so the deduplicator compares by the producer's clock |
| NotificationSafety.OneConfirmation | tom-notifier-core/src/repository/notifications_repository_impl.rs:190-290 | On every interleaving there is at most one confirmation per notification and user, held by a recipient |
| NotificationSafety.StepStatus | tom-notifier-core/src/repository/notifications_repository_impl.rs:190-356 | Each step moves the status of the pair it is about forward, from undelivered to delivered to deleted, leaves status and confirmation of every other pair as they are, and never removes a notification or changes its recipients |
| NotificationSafety.StepStatusExactly | tom-notifier-core/src/repository/notifications_repository_impl.rs:190-356 | The status of every pair after every step: confirming delivers an undelivered pair of an addressed and unexpired notification, marking and deleting change a delivered one, and nothing else changes any |
| NotificationSafety.StepKeepsConfirmations | tom-notifier-core/src/repository/notifications_repository_impl.rs:190-356 | Each step keeps every confirmation at its index with its user and delivery time, outright equal unless the step is about that user; content, producer and creation time never change, and the expiry becomes exactly what its producer sets |
| NotificationSafety.ConfirmationsPersist | tom-notifier-core/src/repository/notifications_repository_impl.rs:190-356 | The same between any two moments of a run: a confirmation keeps its place, user and first delivery time however often it is replayed, and is untouched if no step was about its user |
| NotificationSafety.NeverMovesBack | tom-notifier-core/src/repository/notifications_repository_impl.rs:190-356 | Between any two moments of a run no pair moves back |
| NotificationSafety.SuccessExactly | tom-notifier-core/src/repository/notifications_repository_impl.rs:190-356 | Exactly when confirming, marking seen, deleting and listing succeed, in terms of the pair's status |
| NotificationSafety.DeleteSucceedsOnce | tom-notifier-core/src/repository/notifications_repository_impl.rs:329-356 | Delete succeeds at most once for a pair, however deletes interleave |
| NotificationSafety.EventsOnce | tom-notifier-core/src/service/notifications_service/notifications_service_impl.rs:190-208 | At most one DELETED event is published for a pair and one NEW event for a notification, each backed by the store |
| NotificationSafety.EventsExactly | tom-notifier-core/src/service/notifications_service/notifications_service_impl.rs:74-117 | On every run each stored notification is announced exactly once, to the users and with the content it is stored with, and a deletion exactly once for each deleted pair and for no other |
| NotificationSafety.SeenChangesAnnounced | tom-notifier-core/src/service/notifications_service/notifications_service_impl.rs:236-262 | Each change of the seen flag that met a delivered pair is announced exactly once |
| NotificationSafety.InsertExactly | tom-notifier-core/src/repository/notifications_repository_impl.rs:92-157 | Succeeds exactly if the producer has not used that number, stores the document as given without confirmations, and changes no other |
| NotificationSafety.StoredAsSaved | tom-notifier-core/src/repository/notifications_repository_impl.rs:92-188 | On every run a stored notification has the recipients, content, producer and creation time of the save that made it, and the expiry its producer set last |
| NotificationSafety.FoundWasMeantForUser | tom-notifier-core/src/service/notifications_service/notifications_service_impl.rs:119-147 | Whatever a fetch finds for a user was saved for that user or for everyone |
| NotificationSafety.FetchMarksAll | tom-notifier-core/src/service/notifications_service/notifications_service_impl.rs:119-147 | When a fetch returns, everything it returns is confirmed for its user or had expired when the insert met it, whatever ran in between |
| NotificationSafety.FetchMissesNothing | tom-notifier-core/src/service/notifications_service/notifications_service_impl.rs:119-147 | Whatever was stored when the cursor of a fetch was opened and was not found had expired by then, is not for the user, or is confirmed for the user, although documents are met one at a time with anything in between |
| NotificationSafety.ConfirmAllExactly | tom-notifier-core/src/repository/notifications_repository_impl.rs:190-239 | After any series of confirmations a pair is confirmed exactly if it was before or the series holds an eligible one |
| NotificationSafety.ReplayOrderIrrelevant | tom-notifier-core/src/repository/notifications_repository_impl.rs:190-239 | Replayed, repeated or reordered confirmations give the same confirmed set |
| NotificationSafety.ConfirmStatus | tom-notifier-core/src/repository/notifications_repository_impl.rs:190-239 | Confirming appends one confirmation to an addressed, unexpired, undelivered pair's document and is otherwise without effect; it reports exactly that and changes nobody else's status |
| NotificationSafety.SetSeenStatus | tom-notifier-core/src/repository/notifications_repository_impl.rs:292-327 | Marking seen changes the flag of the pair's own live confirmation and nothing else of the document, and matches exactly then |
| NotificationSafety.MarkDeletedStatus | tom-notifier-core/src/repository/notifications_repository_impl.rs:329-356 | Deleting sets the flag of the pair's own confirmation and nothing else of the document, and modifies exactly a delivered one |
| NotificationRepository.ShownOnce | tom-notifier-core/src/repository/notifications_repository_impl.rs:392-480 | A pair is listed as undelivered or as delivered with its seen flag, never both, and not at all once deleted |
| NotificationRepository.NotificationsRepository.constructor | tom-notifier-core/src/repository/notifications_repository_impl.rs:29-47 | The collection starts empty |
| NotificationRepository.NotificationsRepository.FindProducerPair | tom-notifier-core/src/repository/notifications_repository_impl.rs:49-68 | The unique index over producer and producer's number |
| NotificationRepository.NotificationsRepository.Insert | tom-notifier-core/src/repository/notifications_repository_impl.rs:92-157 | Stores exactly the given document without confirmations and changes no other, or reports that the producer has used the number and changes nothing; the store stays sound |
| NotificationRepository.NotificationsRepository.UpdateInvalidateAt | tom-notifier-core/src/repository/notifications_repository_impl.rs:159-188 | Changes the expiry only of the producer's own notification and reports exactly that |
| NotificationRepository.NotificationsRepository.Position | tom-notifier-core/src/repository/notifications_repository_impl.rs:312-315 | The positional operator: the first confirmation the filter matches |
| NotificationRepository.NotificationsRepository.InsertConfirmation | tom-notifier-core/src/repository/notifications_repository_impl.rs:190-239 | Adds a confirmation exactly when all three filter conditions hold |
| NotificationRepository.NotificationsRepository.InsertManyConfirmations | tom-notifier-core/src/repository/notifications_repository_impl.rs:241-290 | Confirms each listed document that passes the filter, in any order, and no other |
| NotificationRepository.NotificationsRepository.UpdateConfirmationSeen | tom-notifier-core/src/repository/notifications_repository_impl.rs:292-327 | Sets seen on the matched element; success is a match, changed or not |
| NotificationRepository.NotificationsRepository.Delete | tom-notifier-core/src/repository/notifications_repository_impl.rs:329-356 | Marks the matched element deleted; success is a change |
| NotificationRepository.NotificationsRepository.FindDelivered | tom-notifier-core/src/repository/notifications_repository_impl.rs:358-390 | Returns the projected notification with the user's own live confirmation and no other, exactly if there is one |
| NotificationRepository.NotificationsRepository.FindManyDelivered | tom-notifier-core/src/repository/notifications_repository_impl.rs:392-433 | Returns the requested page of the documents with a live confirmation of the user and the wanted seen flag, each once, newest first, with that confirmation and no other |
| NotificationRepository.NotificationsRepository.FindManyUndelivered | tom-notifier-core/src/repository/notifications_repository_impl.rs:435-480 | Returns the documents addressed to the user, unexpired and unconfirmed, each once, oldest first, without confirmations |
| NotificationRepository.PageAsNumberedExactly | tom-notifier-core/src/repository/notifications_repository_impl.rs:426-427 | A page is the part of the list its number stands for if and only if size times index fits into a u32 or wraps around to beyond the end of the list; size 0 is no limit |
| NotificationRepository.PagesMakeList | tom-notifier-core/src/repository/notifications_repository_impl.rs:426-427 | While the product fits, pages read in order make up the list without gap or repetition |
| Tickets.ConsumedOnce | tom-notifier-ws-delivery/src/service/tickets_service/tickets_service_impl.rs:59-91 | However many calls interleave, at most one succeeds per ticket; it returns the ticket as stored, used not after its expiry, and every used ticket had such a call |
| Tickets.ChecksExactly | tom-notifier-ws-delivery/src/service/tickets_service/tickets_service_impl.rs:65-78 | The checks fail a call exactly if the ticket it read was used (already used), or else had expired, and let it go on otherwise |
| Tickets.UpdateExactly | tom-notifier-ws-delivery/src/service/tickets_service/tickets_service_impl.rs:80-90 | A call that passed its checks consumes the ticket at the time it checked if and only if no other call updated it since it was read, and is otherwise told that it was used |
| Tickets.StoredAsCreated | tom-notifier-ws-delivery/src/repository/tickets_repository/tickets_repository_impl.rs:71-113 | Every ticket has the text, user and times it was created with |
| Tickets.UsedForever | tom-notifier-ws-delivery/src/repository/tickets_repository/tickets_repository_impl.rs:143-168 | Once set the time of use never changes, and nothing else of a ticket ever does |
| Tickets.TicketsRepository.constructor | tom-notifier-ws-delivery/src/repository/tickets_repository/tickets_repository_impl.rs:25-56 | The collection starts empty |
| Tickets.TicketsRepository.Insert | tom-notifier-ws-delivery/src/repository/tickets_repository/tickets_repository_impl.rs:71-113 | Inserts an unused ticket, or reports the unique violation and changes nothing |
| Tickets.TicketsRepository.Find | tom-notifier-ws-delivery/src/repository/tickets_repository/tickets_repository_impl.rs:122-132 | Finds a ticket by its text if there is one |
| Tickets.TicketsRepository.UpdateUsedAt | tom-notifier-ws-delivery/src/repository/tickets_repository/tickets_repository_impl.rs:143-168 | Sets the time of use exactly if it was unset, and reports which |
| Tickets.TicketsRepository.ConsumeTicket | tom-notifier-ws-delivery/src/service/tickets_service/tickets_service_impl.rs:59-91 | An uninterrupted call uses the one ticket of that text if it is unused and unexpired; otherwise it changes nothing and returns the error of the first failing check |

## Left out

- Stopping the machines and closing services: the producer drops its queues there, so conservation ends with it.
- Readiness of a select is taken at one moment; a change that becomes ready while later branches are being polled
  counts as happening after the choice.
- Order of messages across producer recovery: resent messages go behind pending ones, so no global order is claimed.
- Message numbers are unbounded; wrapping the u64 publish counter is not modelled.
- Overflow of a broadcast channel: a receiver that lags is closed when it next receives, and its queue in the model
  is what was sent to it.
- Publishing of the blocked flag by the connection machine: the producer's blocked watch changes freely instead.
- Several consumers of one server: each has its own pipeline, and one is modelled.
- Fairness of scheduling and of the broker: that a step is at hand and how many remain is proved, not that they are taken.
- Millisecond truncation of times stored in Mongo; store and service compare times of one unit.
- Validation of content length and of an expiry already past when saving or updating: one comparison each.
- Database errors other than the two the repositories name, and the order of documents created at the same time.
- HTTP routing, middleware, JWT, configuration, tracing, protobuf, JSON and base64; ids that do not parse are None.
- Shrinking of the deduplicator's map capacity, log calls and the retry attempt counter.

Nothing was executed: every statement here is about the model and is checked by the verifier.
