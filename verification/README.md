# A model of the messaging system

This project models the parts of the messaging system in which correctness is not visible from one function: the
realtime fan-out over several replicas, the socket worker of the web client, pagination over changing data,
multi-device key sync, the token lifecycle, rate limiting, racing creation of conversations, hybrid encryption, the
keyring and its backup, and the runtime-configuration cache. It proves what these parts promise, over every run.

Protocols are state machines over their atomic steps: each request to Redis, MongoDB or RabbitMQ and each event
handler of the browser is one step, and steps of different requests interleave freely. Procedures that change state
step by step are classes and loops, each proved against a specification that the protocol or the lemmas share.

`dafny verify dfyconfig.toml` checks everything.

| file | part |
|---|---|
| Text, Json, Decimal, Directory, Messages | strings as ECMAScript treats them, JSON values, numerals, users and conversations, the message document |
| JsonText, Assumptions | functions that meet the laws asked of the runtime |
| RoutingKeys, BrokerPayload, CallNotification, Fanout, FanoutResults, MessagingNode | realtime fan-out: keys, bodies, protocol, counting results, one replica |
| ClientMessage, HybridSend | what a client makes of a delivered message; a hybrid message from encryption to decryption |
| WorkerSpec, WorkerProperties, SocketWorker, SocketBridge, SocketSystem | socket worker: steps, invariants and results, loops, promises of the main thread, both threads together |
| WorkerReports, WorkerFates, SocketAcks | what the worker reports and what becomes of each request, told by the events alone; acks as the service writes them |
| Keyset, MessageListing | keyset pagination, cursor, walks |
| KeySync, SyncWalk, SyncCount, HybridCrypto, DeviceSync | key sync service, client loop, what it counts, cryptography, both together |
| Tokens, AuthService, RefreshOutcome, SignInAndReset, HttpRefresh, RequestOutcome | refresh tokens interleaved, the handlers, the exact outcome of refresh, sign-in and reset, the client's single-flight refresh, the exact outcome of a request |
| RateLimit, Conversations, RuntimeConfig | fixed windows, find-or-create, cache staleness |
| Keyring, KeyringBackup, InnerPlaintext | key versions, backup file, inner plaintext |

## Assumptions

Functions of the runtime are parameters, with the laws their standards give: JSON text reads back as written and an
object's text begins with a brace (ECMA-262); base64url and base64 decode what they encode and have no white space
(section 5 of RFC 4648), and only no bytes at all make an empty text; ISO dates read back as printed; a canonical URL is its own canonical form. JSON numbers are
the finite doubles other than minus zero. `Assumptions` proves that each set of laws can be met: `CodecExists`,
`PlaintextLibExists`, `CursorLibExists`, `CryptoLibExists` and `BackupLibExists`. Random ids and
tokens are inputs that differ from all earlier ones. Cryptography is symbolic and ideal: a ciphertext opens with its
own key only, and ECDH gives both sides the same key. Queue names are distinct, the Socket.IO adapter is off, no
replica crashes, and Redis loses a counter only by expiry. The look-up of the sender between an emit and its
notification (rabbitmq.ts:318 and 375) succeeds: one that throws would lose the notification, and only that.

## What the code does that its documentation does not say

- A send over REST has no origin socket, so its echo takes the recipient branch of the consumer and notifies the
  sender's own sockets (rabbitmq.ts:372-380, whose comment says recipients only). Exactly who is notified is
  `FanoutResults.NotificationsAreExact`.
- A private key is kept for every version so that older messages stay readable, but decryption and the sync loop use
  the newest version only. Messages from before a rotation do not open, and one such message in the user's
  conversations keeps a new device from being approved, while messages in conversations of others never do
  (`DeviceSync.RotatedKeyIsUnreadable`, `DeviceSync.SyncDoneUnlessUnreadable`).
- A backup is wrapped with the passphrase as typed and opened with the trimmed one, so a passphrase with surrounding
  white space makes a file that never opens (`KeyringBackup.BackupRoundTrip`).
- A restored browser has no public keys in its keyring, so its automatic registration always fails
  (`KeyringBackup.RestoredBrowserCannotRegister`).
- Deleting the device row and rotating leaves keyring and registry apart, but for one case
  (`Keyring.RotationAfterDeletion`).
- A socket that was replaced can still have its emits answered (`WorkerProperties.OldEmitsAreStillAnswered`).
- Two devices of two users with the same id, such as `default`, cannot both be served
  (`HybridCrypto.ClashingIdsLoseTheFirst`).
- A refresh token is not single-use under overlap: every refresh whose first step comes before the token's removal is
  judged by the user and the guards alone (`RefreshOutcome.RefreshOutcomeExactly`;
  `AuthService.OverlappingRefreshesBothSucceed` is a schedule that grants two).
- Finding or creating a conversation with oneself works once and throws from then on
  (`Conversations.UninterruptedCall`, and `Conversations.SelfCallExactly` for overlapping calls).
- The pair key joins two ids with a bar, so it tells pairs apart only for ids without one: `a|b` with `c` and `a` with
  `b|c` have one key (`Conversations.PairKeyCollides`). The ids in use are UUIDs.
- A caption that is itself a JSON object with `v` equal to 1 is read as the wrapper
  (`InnerPlaintext.CaptionRoundTripIff`).

## Model

| member | source | states |
|---|---|---|
| `RoutingKeys.ParsersDisjoint` | apps/messaging-service/src/data/messaging/rabbitmq.ts:60-96 | At most one of the four parsers answers for a key, and each answers exactly where the consumer, asking them in its order, ends up: the order of the branches does not matter. |
| `RoutingKeys.BuiltKeysDispatch` | apps/messaging-service/src/data/messaging/rabbitmq.ts:60-96 | A key built from any id is dispatched to its own kind under the trimmed id, and skipped if the id is blank. |
| `RoutingKeys.RoundTripExactlyOnCleanIds` | apps/messaging-service/src/data/messaging/rabbitmq.ts:60-96 | The parsers invert the builders exactly for ids that are not empty and have no surrounding white space (both directions, four kinds). |
| `RoutingKeys.DispatchComesFromBuilder` | apps/messaging-service/src/data/messaging/rabbitmq.ts:60-96 | Conversely, what is dispatched to an id, in each of the four kinds, is a key built from text that trims to the id, and the id is clean. |
| `Messages.ApiShape` | apps/messaging-service/src/data/messages/messageApiShape.ts:8-22 | The wire form of a message has six fields always, `encryptedMessageKeys`, `iv` and `algorithm` exactly if the document has them, and nothing else: no receipts, and no field `message`, which tells the two broker bodies apart. |
| `ClientMessage.ReadsAsStored` | apps/web-client/src/common/realtime/socketMessageNew.ts:35-81 | Written by the service and read by the client's parser, a message is the stored document, field by field, without its receipts; it is refused exactly if an id or the date is blank. |
| `BrokerPayload.RecipientCopyDelivers` | apps/messaging-service/src/data/messaging/rabbitmq.ts:347-380 | The recipient copy, written and read back, is one `message:new` to the whole recipient room, followed by one notification. |
| `BrokerPayload.EchoDelivers` | apps/messaging-service/src/data/messaging/rabbitmq.ts:98-137 | The sender echo, written and read back, leaves out exactly the origin socket and is followed by a notification exactly if there is no origin socket. |
| `BrokerPayload.ReceiptDelivers` | apps/messaging-service/src/data/messaging/rabbitmq.ts:156-202 | A receipt, written and read back, is one emit to the participant, leaving out the origin socket on the actor's own copy only. |
| `BrokerPayload.GroupMessageDelivers` | apps/messaging-service/src/data/messaging/rabbitmq.ts:295-345 | A group body is emitted to the room of its group, leaving out the origin socket, and followed by a notification to the same sockets. |
| `BrokerPayload.DeliveredExactly` | apps/messaging-service/src/data/messaging/rabbitmq.ts:104-202 | Whatever bytes arrive under whatever key: something is emitted if and only if the key names an id and the body has the fields its kind needs. |
| `BrokerPayload.CallDelivers` | apps/messaging-service/src/data/messaging/rabbitmq.ts:204-222 | An incoming call, written and read back, is one notification to the callee's whole room if the schema accepts it, and nothing otherwise. |
| `CallNotification.PassesExactly` | apps/messaging-service/src/data/notifications/callIncomingNotification.ts:4-66 | A body gets through if and only if, without the fields the schema does not name, it is the JSON form of an acceptable call, and that call is what is read. |
| `CallNotification.BuiltCallPasses` | apps/messaging-service/src/data/notifications/callIncomingNotification.ts:30-66 | A built body is read back as it was built if and only if its ids and time are not empty, its media is audio or video, and its conversation id, if any, is not empty. |
| `BrokerPayload.AtMostOneEmitEach` | apps/messaging-service/src/data/messaging/rabbitmq.ts:279-396 | Whatever bytes arrive, a consumed message causes at most one immediate emit and at most one later notification to the same room. |
| `MessagingNode.AcceptedSendHasTwoParties` | apps/messaging-service/src/data/messages/sendMessage.ts:115-247 | An accepted send has two different known users of the same class, on the recipient branch and on the conversation branch; nobody can send to themselves. |
| `MessagingNode.ConversationSendExactly` | apps/messaging-service/src/data/messages/sendMessage.ts:190-244 | A send by conversation is accepted if and only if the sender is a participant, another participant exists, is known, and is of the same class. |
| `MessagingNode.ConversationSendTarget` | apps/messaging-service/src/data/messages/sendMessage.ts:190-244 | It then goes to the first participant other than the sender, under the id of the conversation found. |
| `MessagingNode.RecipientSendExactly` | apps/messaging-service/src/data/messages/sendMessage.ts:153-187 | A send by recipient id, whatever conversation it also names, is accepted if and only if both users are known, different and of one class; it goes to that recipient. |
| `MessagingNode.RefusalsExactly` | apps/messaging-service/src/data/messages/sendMessage.ts:115-247 | Each reason for a refusal holds exactly under its own condition. |
| `MessagingNode.DocumentFields` | apps/messaging-service/src/data/messages/sendMessage.ts:126-139 | The stored document, field by field, from the request; the media key is dropped if and only if it is blank or the message is hybrid. |
| `MessagingNode.AcceptedSendStarts` | apps/messaging-service/src/data/messages/sendMessage.ts:83-247 | Every accepted send, with its stored document, is a job that the fan-out can start, so the fan-out results hold of it. |
| `HybridSend.StoredPayloadComesBack` | apps/messaging-service/src/data/messages/sendMessage.ts:126-139 | A client that receives the stored form of an encrypted payload has the very payload back, and no media key in the clear. |
| `HybridSend.DeliveredMessageReads` | apps/web-client/src/common/hooks/useSendEncryptedMessage.ts:138-168 | End to end, over every run of the fan-out: each delivery of a hybrid message decrypts to the sender's text for a device if and only if its private key is that of the last row with its id; otherwise it fails with the reason that belongs to it. |
| `MessagingNode.Node.PublishReceiptToParticipants` | apps/messaging-service/src/data/messaging/receiptPublish.ts:22-43 | The loop publishes exactly the messages of the protocol's receipt job, in participant order; it fails only when not connected. |
| `MessagingNode.Node.InsertDirectMessageAndPublish` | apps/messaging-service/src/data/messages/sendMessage.ts:83-105 | The message is stored in any case, and the two messages of the protocol's send job are published, in order, when connected. |
| `MessagingNode.Node.SendMessageForUser` | apps/messaging-service/src/data/messages/sendMessage.ts:115-247 | Result, store and publications of every branch: each guard error leaves store and broker alone; acceptance stores the normalized document and runs the send job. |
| `MessagingNode.Node.DeliverMessageToSocketIo` | apps/messaging-service/src/data/messaging/rabbitmq.ts:279-396 | The four branches of the consumer emit exactly what the pure delivery function says, and nothing without a Socket.IO server. |
| `Fanout.StepKeepsInv` | apps/messaging-service/src/data/messaging/rabbitmq.ts:239-396 | Every step - readiness, join, leave, start, publish, enqueue, consume, notify - keeps the invariant: each published copy is in transit or queued exactly once, each inbox is the addressed part of what its replica consumed while it was there. |
| `Fanout.RunKeepsInv` | apps/messaging-service/src/data/messaging/rabbitmq.ts:239-396 | The invariant holds in every state of every run. |
| `FanoutResults.DeliveryCount` | apps/messaging-service/src/data/messaging/rabbitmq.ts:239-396 | Over every run a socket gets at most one delivery per publication that addresses it, and exactly one once its replica has drained. |
| `FanoutResults.NoneIsStranded` | apps/messaging-service/src/data/messaging/rabbitmq.ts:239-396 | While a socket that was there from the start has not been served, some publish, copy or consumption can go on. |
| `FanoutResults.SendIsExactlyOnce` | apps/messaging-service/src/data/messages/sendMessage.ts:83-105 | No socket gets a `message:new` twice, the origin socket and third parties never get it, and after draining every other socket of the two users that was there from the start has it exactly once, and what the client's parser reads off it is the stored message, field by field. |
| `FanoutResults.ReceiptIsExactlyOncePerListing` | apps/messaging-service/src/data/messaging/receiptPublish.ts:22-43 | A receipt reaches each socket as often as its user is listed as a participant, except the originating socket, which gets none; each delivery has the event of the job and its message, conversation, user and time. |
| `FanoutResults.InboxInQueueOrder` | apps/messaging-service/src/data/messaging/rabbitmq.ts:279-396 | A socket sees deliveries in the order of its replica's queue, without gaps for what addresses it. |
| `FanoutResults.QueueIsAppendOnly` | apps/messaging-service/src/data/messaging/rabbitmq.ts:279-396 | No step reorders or drops what is queued. |
| `FanoutResults.SenderIsNotNotifiedOfSocketSends` | apps/messaging-service/src/data/messaging/rabbitmq.ts:368-380 | In every state: at most one notification about a send per socket, none for the sender's sockets if the send came through a socket, none for third parties. |
| `FanoutResults.NotificationsAreExact` | apps/messaging-service/src/data/messaging/rabbitmq.ts:368-380 | Once all has settled, a socket that was there from the start has exactly one notification of a send if it is the recipient's, or the sender's and the send had no origin socket, and none otherwise. |
| `FanoutResults.NotificationsCanGoOut` | apps/messaging-service/src/data/messaging/rabbitmq.ts:368-380 | As long as notifications of a settled send are due on a replica, one of them can go out. |
| `WorkerProperties.StepKeepsInv` | apps/web-client/src/workers/socketWorker.ts:24-382 | Every handler keeps the worker invariant: conservation, order, deadlines, lifecycle, heartbeat. |
| `WorkerProperties.EveryRequestInOnePlace` | apps/web-client/src/workers/socketWorker.ts:24-82 | In every reachable state an arrived send request is queued, in flight or answered, exactly one of the three, and is never answered twice. |
| `WorkerProperties.EmittedInArrivalOrder` | apps/web-client/src/workers/socketWorker.ts:51-82 | Requests are emitted in the order in which they arrived, each at most once, across reconnects and replacement of the client; a connected client has an empty queue. |
| `WorkerProperties.QueuedAtMostThirtySeconds` | apps/web-client/src/workers/socketWorker.ts:59-82 | More than thirty seconds after its arrival a request is no longer queued: it is in flight or answered. |
| `WorkerProperties.DeadlinesNondecreasing` | apps/web-client/src/workers/socketWorker.ts:59-82 | Every queued request has an armed timer that is due thirty seconds after its arrival, and the deadlines are nondecreasing along the queue. |
| `WorkerProperties.NoStalePosts` | apps/web-client/src/workers/socketWorker.ts:118-183 | After a replacement or a disconnect no event of an older client is posted: every later post comes from a newer client, answers the main thread, or is an ack of an emit. |
| `WorkerProperties.OldEmitsAreStillAnswered` | apps/web-client/src/workers/socketWorker.ts:45-49 | The exception: the callback of an emit has no generation guard, so an answer to an older client's emit is still posted. |
| `WorkerProperties.ConnectedPostsAlternate` | apps/web-client/src/workers/socketWorker.ts:118-176 | Between any two `connected` posts there is a `disconnected` post. |
| `WorkerProperties.HeartbeatFollowsConnection` | apps/web-client/src/workers/socketWorker.ts:88-116 | At most one heartbeat timer is armed, and one is armed exactly while the current client is connected, at the current cadence. |
| `WorkerReports.HeardIsReported` | apps/web-client/src/workers/socketWorker.ts:118-305 | Over every run the posts, refusals aside, are one for one, in order and with their payloads: the events of the client that is current when each comes, the server acks, and the lifecycle of the clients. |
| `WorkerFates.FateExactly` | apps/web-client/src/workers/socketWorker.ts:24-82 | The exact fate of a send, told by the events: it goes out at once or with the next connect of a current client, unless a disconnect or its own timer comes first, which turns it away with its own reason; replacing the client does not. |
| `WorkerFates.NoneIsStranded` | apps/web-client/src/workers/socketWorker.ts:24-82 | A held request always has a timer that can fire or that time can come closer to, an emit can be answered, and a client can connect or drop. |
| `WorkerFates.QueriesGoOutOrBack` | apps/web-client/src/workers/socketWorker.ts:317-377 | A receipt, signalling or last-seen request goes out if the current client is connected and is turned away on the spot otherwise. |
| `WorkerFates.HeartbeatAtLastMode` | apps/web-client/src/workers/socketWorker.ts:88-116 | The heartbeat runs exactly while the current client is connected, at 4500 ms or 5000 ms as the last mode set since the last disconnect says. |
| `SocketWorker.SocketWorker.ClearPendingMessageSendQueue` | apps/web-client/src/workers/socketWorker.ts:30-43 | The loop refuses every queued request, in order, and disarms its timer. |
| `SocketWorker.SocketWorker.FlushPendingMessageSends` | apps/web-client/src/workers/socketWorker.ts:51-57 | The loop sends the whole queue, oldest first, when connected, and does nothing otherwise. |
| `SocketWorker.SocketWorker.TryMessageSendOrQueue` | apps/web-client/src/workers/socketWorker.ts:59-82 | Emits when connected, else queues with a 30 s timer; the new state is that of the protocol step. |
| `SocketWorker.SocketWorker.OnSendTimeout` | apps/web-client/src/workers/socketWorker.ts:65-79 | The timer callback removes its own request, if it is still queued, and answers it. |
| `SocketWorker.SocketWorker.RestartHeartbeat` | apps/web-client/src/workers/socketWorker.ts:88-102 | The old timer is cleared before the new one is armed. |
| `SocketWorker.SocketWorker.SetHeartbeatMode` | apps/web-client/src/workers/socketWorker.ts:104-116 | The cadence changes at once for a connected client and is remembered otherwise. |
| `SocketWorker.SocketWorker.Connect` | apps/web-client/src/workers/socketWorker.ts:118-152 | Replacement: new generation, heartbeat stopped, `disconnected` posted for a previous client, then `socket_connecting`. |
| `SocketWorker.SocketWorker.Disconnect` | apps/web-client/src/workers/socketWorker.ts:296-305 | Teardown: new generation, queue refused, heartbeat stopped, client dropped. |
| `SocketWorker.SocketWorker.OnClientConnect` | apps/web-client/src/workers/socketWorker.ts:161-168 | The connect listener of the current client posts, starts the heartbeat and flushes; of an older one it does nothing. |
| `SocketWorker.SocketWorker.OnClientDisconnect` | apps/web-client/src/workers/socketWorker.ts:170-176 | The disconnect listener of the current client stops the heartbeat and posts; of an older one it does nothing. |
| `SocketWorker.SocketWorker.Dispatch` | apps/web-client/src/workers/socketWorker.ts:293-382 | The message dispatcher and the listeners together are exactly the step function of the protocol. |
| `SocketBridge.SettledAtMostOnce` | apps/web-client/src/common/realtime/socketBridge.ts:61-150 | Whatever acks arrive, a promise settles at most once, and not before it was issued. |
| `SocketBridge.SettledOnlyByItsOwnAck` | apps/web-client/src/common/realtime/socketBridge.ts:84-150 | A promise settles in the step of an ack of its own kind and id and in no other, resolved or rejected by what that ack says. |
| `SocketAcks.AcksSettleRight` | apps/web-client/src/common/realtime/socketMessageAck.ts:3-34 | For all four kinds: the acks with which the service grants a request resolve its promise, and its errors, like the worker's own refusals, reject it. |
| `SocketAcks.AcceptedAcks` | apps/web-client/src/common/realtime/parsePresenceGetLastSeenAck.ts:11-49 | Which values resolve a promise of each kind, by fields. |
| `SocketBridge.PromiseFollowsRequest` | apps/web-client/src/common/realtime/socketBridge.ts:162-172 | Once a bridge has heard all posts of the worker, with no call and no terminate in between, a pending send promise has settled exactly if its request is neither queued nor in flight in the worker. |
| `SocketSystem.SystemStepKeepsInv` | apps/web-client/src/common/realtime/socketBridge.ts:56-224 | Main thread and worker interleaved: calls, messages on their way to the worker, its handlers, posts on their way back and `terminate` keep the invariant that each request made before a terminate is in exactly one place. |
| `SocketSystem.PromiseLife` | apps/web-client/src/common/realtime/socketBridge.ts:84-224 | Over every run of the two threads, for all four kinds of request: the settlements are, one for one, in order and with their outcomes, the acks among the posts heard before a terminate, so a promise is settled if and only if its request was answered and the answer heard before that, and only once. Without a terminate an unsettled promise still waits, and its request is on its way, queued, in flight, or answered and not heard yet, exactly one of these; after one, only promises made later wait, and they never settle. |
| `SocketSystem.PromiseCanGoOn` | apps/web-client/src/common/realtime/socketBridge.ts:84-224 | An unsettled promise whose request is not queued can move on: the worker can take a message, the main thread can hear a post, or the answer can come. |
| `SocketBridge.SocketWorkerBridge.NewPromise` | apps/web-client/src/common/realtime/socketBridge.ts:162-207 | A new promise goes into the map of its kind and leaves the others alone. |
| `SocketBridge.SocketWorkerBridge.OnAckMessage` | apps/web-client/src/common/realtime/socketBridge.ts:84-150 | An ack takes its entry out of the map of its kind and settles it; an ack without an entry does nothing. |
| `SocketBridge.SocketWorkerBridge.Terminate` | apps/web-client/src/common/realtime/socketBridge.ts:217-223 | The maps are emptied and nothing is settled. |
| `Keyset.PageFacts` | apps/messaging-service/src/data/messages/repo.ts:140-175 | A page is sorted, within its clamped size and past the cursor; what matches and is not on it comes after its last item, and `hasMore` holds exactly then. |
| `Keyset.NextSelection` | apps/messaging-service/src/data/messages/repo.ts:122-134 | Moving the cursor to the last item of a page drops exactly that page from the listing. |
| `MessageListing.CursorRoundTrip` | apps/messaging-service/src/data/messages/messageCursor.ts:11-48 | An encoded cursor parses to its date and trimmed id, is refused for a blank id, and comes back unchanged if and only if the id is not empty and has no surrounding white space. |
| `MessageListing.CursorsAccepted` | apps/messaging-service/src/data/messages/messageCursor.ts:22-48 | A cursor is accepted, with this meaning, if and only if it is base64url JSON with a date and an id that is not blank. |
| `MessageListing.ListingRefusals` | apps/messaging-service/src/data/messages/listMessages.ts:22-72 | A page is given if and only if the user is a participant of an existing direct conversation and the cursor, if any, reads; each refusal has its own condition. |
| `MessageListing.ReceiptPagesMatchMessagePages` | apps/messaging-service/src/data/messages/repo.ts:181-210 | On a fixed collection receipt pages and message pages list the same messages, page by page. |
| `MessageListing.WalkIsGapFree` | apps/messaging-service/src/data/messages/listMessages.ts:22-72 | Following `nextCursor` over a collection that changes arbitrarily between pages: strictly descending, nothing twice, nothing foreign, and once finished every message that was present at each page is listed. |
| `MessageListing.FixedWalkIsFullListing` | apps/messaging-service/src/data/messages/listMessages.ts:22-72 | Over a fixed conversation, for any page size, the walk is the one big sorted query. |
| `KeySync.LastEntryWins` | apps/messaging-service/src/data/messages/syncMessageKeys.ts:195-206 | The deduplicated batch holds for each id the value of the last entry with that id. |
| `KeySync.ListRefusals` | apps/messaging-service/src/data/messages/syncMessageKeys.ts:43-93 | Each refusal of a listing holds exactly under its own condition: missing id, device not registered, cursor unknown, foreign, or without a key for the device. |
| `KeySync.ListedExactly` | apps/messaging-service/src/data/messages/syncMessageKeys.ts:95-146 | A listing shows only keys that the device has for messages of the user's own conversations, at most a page, and all of them unless there is more. |
| `KeySync.BatchRefusals` | apps/messaging-service/src/data/messages/syncMessageKeys.ts:157-190 | A batch is taken if and only if no id is blank and both devices are registered for the user. |
| `KeySync.AppliesExactly` | apps/messaging-service/src/data/messages/syncMessageKeys.ts:208-228 | It applies to exactly those messages that it names and that the source device can read in the user's own conversations. |
| `KeySync.EveryEntryCounted` | apps/messaging-service/src/data/messages/syncMessageKeys.ts:190-230 | `applied + skipped` is the number of distinct ids; without conversations it is the raw number of entries. |
| `KeySync.BatchTouchesOnlyTarget` | apps/messaging-service/src/data/messages/syncMessageKeys.ts:208-228 | Message by message: the target device gets the uploaded key if the source device can read the message, and no other key and no other field of any message changes. |
| `KeySync.HoldersNeverShrink` | apps/messaging-service/src/data/messages/syncMessageKeys.ts:214-228 | Without empty keys in the upload, no device loses its key. |
| `KeySync.BatchIsIdempotent` | apps/messaging-service/src/data/messages/syncMessageKeys.ts:157-231 | A second upload of the batch never changes the store, and counts the same if and only if no accepted entry, with the source as its own target, wipes the key it depends on. |
| `KeySync.SyncService.ListSyncMessageKeys` | apps/messaging-service/src/data/messages/syncMessageKeys.ts:43-146 | Every error and the whole page equal the specification. |
| `KeySync.SyncService.CollectItems` | apps/messaging-service/src/data/messages/syncMessageKeys.ts:126-145 | The loop collects one entry per document of the page and takes the next anchor from the last. |
| `KeySync.SyncService.Deduplicate` | apps/messaging-service/src/data/messages/syncMessageKeys.ts:195-206 | The loop builds the last-wins map and its insertion order, each id once. |
| `KeySync.SyncService.UploadAll` | apps/messaging-service/src/data/messages/syncMessageKeys.ts:208-228 | One update per distinct id has the effect, and the counts, of writing all keys at once. |
| `KeySync.SyncService.ApplyBatchSyncMessageKeys` | apps/messaging-service/src/data/messages/syncMessageKeys.ts:157-231 | Every error, the counts and the new store equal the specification; an error changes nothing. |
| `SyncWalk.SyncCompletes` | apps/web-client/src/modules/crypto/hooks/useDeviceKeySync.ts:82-117 | Sync completeness under arbitrary arrivals: no key skipped, no request refused, nothing but the target's key changed on any message; once done, every message the source could read at the start has its key re-wrapped; the loop ends within one turn more than there are such messages, present or to come, in the user's conversations, and only a key in these conversations that cannot be re-wrapped stops it. |
| `SyncWalk.SyncDoneExactly` | apps/web-client/src/modules/crypto/hooks/useDeviceKeySync.ts:82-117 | When the loop gets done: only if every key of the source device in the user's conversations at the start can be re-wrapped, and exactly then as long as those that arrive in these conversations can be. |
| `SyncCount.AppliedCountsOnce` | apps/web-client/src/modules/crypto/hooks/useDeviceKeySync.ts:82-117 | The sum the loop reports counts every message once: at least those due at the start, once done, at most those there are or will be, and exactly those due when nothing arrives. |
| `SyncWalk.PagesFitBatches` | apps/messaging-service/src/data/messages/syncMessageKeys.ts:70-71 | A page never exceeds what one upload may hold. |
| `Tokens.StepKeepsInv` | apps/messaging-service/src/controllers/auth.ts:279-454 | Each atomic step of sign-in, refresh, logout, reset, expiry and user removal keeps the token invariant. |
| `Tokens.StoredVersionsNeverAhead` | apps/messaging-service/src/utils/auth/issueTokens.ts:30-57 | No stored token's version exceeds its user's, and one that equals it was minted from a user document read after all resets of that user. |
| `Tokens.SuccessMeansMintedAfterResets` | apps/messaging-service/src/controllers/auth.ts:279-353 | In every interleaving a refresh succeeds only with a token minted from a user read later than every reset that came before the refresh's own user read. |
| `Tokens.SpentTokenIsRefused` | apps/messaging-service/src/controllers/auth.ts:279-366 | A refresh that starts after the same token was refreshed, rejected or logged out is refused, however the run goes on. |
| `AuthService.UninterruptedRefresh` | apps/messaging-service/src/controllers/auth.ts:279-353 | The atomic steps of a refresh in a row are the handler. |
| `AuthService.RefreshSwaps` | apps/messaging-service/src/controllers/auth.ts:279-353 | Exactly when a refresh is granted; then one token is swapped for one of the same user and version; otherwise none is added, and only the email and device guards keep the presented one. |
| `RefreshOutcome.StoredUntilRemoved` | apps/messaging-service/src/utils/auth/refreshTokenRedis.ts:24-62 | Over every run a stored token is there, with its payload, if and only if no expiry, logout or final step of a refresh of it has come yet. |
| `RefreshOutcome.RefreshOutcomeExactly` | apps/messaging-service/src/controllers/auth.ts:279-353 | The exact outcome over every interleaving: unknown if and only if the token was removed before the first step; otherwise decided by the user at the second step and the two guards, whatever removes the token in between. |
| `SignInAndReset.SignInExactly` | apps/messaging-service/src/controllers/auth.ts:229-276 | In every interleaving a sign-in is granted exactly if its guards let it and the user is there, and stores one token with the version it read. |
| `SignInAndReset.ResetExactly` | apps/messaging-service/src/controllers/auth.ts:417-454 | In every interleaving a reset is done exactly if its guards let it and the user is there at both steps; it then raises the version by one, and otherwise changes no user. |
| `SignInAndReset.ResetEndsTokens` | apps/messaging-service/src/controllers/auth.ts:417-454 | Once a reset is done, every later refresh of a token from before it is refused, whatever comes in between. |
| `AuthService.Service.IssueAuthTokens` | apps/messaging-service/src/utils/auth/issueTokens.ts:25-66 | Only the new token is added, and it can be refreshed if and only if the user still has the version of the document in hand. |
| `AuthService.Service.PostRefresh` | apps/messaging-service/src/controllers/auth.ts:279-353 | Token store and reply on every path equal the specification. |
| `AuthService.Service.PostLogin` | apps/messaging-service/src/controllers/auth.ts:229-276 | Granted exactly for a known, verified account with the right password and device; the token has the current version. |
| `AuthService.Service.PostLogout` | apps/messaging-service/src/controllers/auth.ts:355-366 | Afterwards every refresh of the token is refused as unknown, and a refresh of any other token has the reply it had before. |
| `AuthService.Service.PostResetPassword` | apps/messaging-service/src/controllers/auth.ts:417-454 | Accepted exactly for a known non-guest account whose email matches; after it every token of the user is refused as revoked. |
| `HttpRefresh.SingleFlight` | apps/web-client/src/common/api/httpClient.ts:101-111 | At most one refresh runs at any time. |
| `HttpRefresh.JoinersAgree` | apps/web-client/src/common/api/httpClient.ts:101-111 | Requests that joined one refresh are woken with one outcome. |
| `HttpRefresh.CallsBounded` | apps/web-client/src/common/api/httpClient.ts:37-99 | Each request goes out at most twice, each refresh posts at most three times, and N requests cause at most 5N calls. |
| `HttpRefresh.StepsBounded` | apps/web-client/src/common/api/httpClient.ts:179-233 | Any run takes at most 9N steps. |
| `HttpRefresh.NoneIsStranded` | apps/web-client/src/common/api/httpClient.ts:179-233 | A request that is not settled always leaves some next step possible. |
| `RequestOutcome.RequestOutcomeExactly` | apps/web-client/src/common/api/httpClient.ts:179-233 | The exact outcome of a request over every run: it goes out a second time if and only if its first answer was a 401 that may refresh, that refresh succeeded, a token was there on waking and the gate was open; it resolves if and only if its last answer was a success; it waits for the refresh that ran when its 401 came, or for the one it started. |
| `RequestOutcome.SessionExactly` | apps/web-client/src/common/api/httpClient.ts:101-123 | The session is cleared exactly when a request gives it up: a second 401, a 401 of a refresh or without a refresh token, a failed refresh, or no token on waking; otherwise only a usable reply or another part of the client changes it. |
| `HttpRefresh.HttpClient.PerformRefresh` | apps/web-client/src/common/api/httpClient.ts:46-99 | The loop posts up to the first usable or final reply, at most three times, and takes over its tokens; without a stored token it does not post. |
| `HttpRefresh.LoopIsTheRound` | apps/web-client/src/common/api/httpClient.ts:55-98 | The attempt loop and the protocol's round give the same outcome, tokens and number of posts. |
| `RateLimit.AdmissionBounds` | apps/messaging-service/src/utils/auth/rateLimitRedis.ts:8-27 | At most `max` admitted calls per key lifetime and at most `2 * max` in any closed interval of window length, with anything between INCR and EXPIRE and also without EXPIRE. |
| `RateLimit.BoundIsTight` | apps/messaging-service/src/utils/auth/rateLimitRedis.ts:8-27 | The factor two is reached, for every key, window and positive maximum. |
| `RateLimit.AdmittedSendRespectsAllBounds` | apps/messaging-service/src/data/messages/messageSendRateLimit.ts:10-54 | Every key of an admitted send let it through, and lets at most `2 * max` admitted sends through per window: the user, address and socket bounds hold together. |
| `RateLimit.SendKeysApart` | apps/messaging-service/src/data/messages/messageSendRateLimit.ts:21-51 | The four key families do not mix, so each key has one maximum, and different ids have different keys. |
| `RateLimit.DimensionsOfSend` | apps/messaging-service/src/data/messages/messageSendRateLimit.ts:21-51 | A send asks the counters of its user, its address and its socket, each under its own id and maximum, and no other. |
| `RateLimit.AskIsTheProtocol` | apps/messaging-service/src/data/messages/messageSendRateLimit.ts:31-53 | A send that nothing interrupts is the interleaved protocol with no other event between. |
| `RateLimit.Limiter.FixedWindowIncrement` | apps/messaging-service/src/utils/auth/rateLimitRedis.ts:8-18 | Counts, starts a new lifetime when the old is over, and sets the expiry on its first call. |
| `RateLimit.Limiter.RateLimitExceeded` | apps/messaging-service/src/utils/auth/rateLimitRedis.ts:20-27 | Exceeded exactly above the maximum. |
| `RateLimit.Limiter.IsMessageSendRateLimited` | apps/messaging-service/src/data/messages/messageSendRateLimit.ts:10-54 | User, address and socket in this order; the first one over its maximum ends it and later counters are not touched. |
| `Conversations.PairKeyIsInjective` | apps/messaging-service/src/data/conversations/repo.ts:12-14 | The key depends on the unordered pair only and, for ids without a bar, determines it. |
| `Conversations.PairKeyCollides` | apps/messaging-service/src/data/conversations/repo.ts:12-14 | The condition on the ids is needed: with a bar in an id two pairs have one key. |
| `Conversations.StepKeepsInv` | apps/messaging-service/src/data/conversations/repo.ts:66-111 | Each request of each caller keeps rows and unique index consistent. |
| `Conversations.OnePerPair` | apps/messaging-service/src/data/conversations/repo.ts:66-111 | At most one conversation per unordered pair. |
| `Conversations.CallersAgree` | apps/messaging-service/src/data/conversations/repo.ts:66-111 | Any number of interleaved callers on a pair get the same conversation in either argument order, and callers on different pairs different ones. |
| `Conversations.ReturnsTheirConversation` | apps/messaging-service/src/data/conversations/repo.ts:80-94 | A caller gets a conversation of its own two users. |
| `Conversations.OnlySelfPairsFail` | apps/messaging-service/src/data/conversations/repo.ts:96-109 | The duplicate error reaches only callers that name one user twice. |
| `Conversations.SelfCallExactly` | apps/messaging-service/src/data/conversations/repo.ts:66-111 | Over every run, a finished caller that names one user twice has returned if and only if it inserted the conversation itself; otherwise it has thrown, and another caller has returned with that conversation. |
| `Conversations.OneSelfCallReturns` | apps/messaging-service/src/data/conversations/repo.ts:66-111 | Of all the callers that ever name one user twice, at most one returns. |
| `Conversations.UninterruptedCall` | apps/messaging-service/src/data/conversations/repo.ts:66-111 | A call on its own: existing conversation, new conversation, or, for a user with themselves, an error on every call but the first. |
| `Conversations.ConversationRepo.FindDirectConversationIdBetween` | apps/messaging-service/src/data/conversations/repo.ts:19-31 | Finds exactly the indexed conversation, and never one with oneself. |
| `Conversations.ConversationRepo.InsertOne` | apps/messaging-service/src/data/conversations/repo.ts:96-98 | Fails exactly on a key that is taken, without effect. |
| `Conversations.ConversationRepo.FindOrCreateDirectConversation` | apps/messaging-service/src/data/conversations/repo.ts:66-111 | With a rival insert between look-up and insert, or without: which conversation, and which rows afterwards. |
| `HybridCrypto.UnwrapsExactlyForItsDevice` | apps/web-client/src/common/crypto/messageKeyCrypto.ts:147-243 | A wrapped key opens with the private key of its device and no other. |
| `HybridCrypto.OnlyEnvelopesOpen` | apps/web-client/src/common/crypto/messageKeyCrypto.ts:185-243 | Whatever text is offered, only a version 1 envelope of the one algorithm opens, and only with what was sealed for this device. |
| `HybridCrypto.MergeKeepsLast` | apps/web-client/src/common/crypto/messageHybrid.ts:37-51 | The merged list has each non-blank id once, trimmed, with the key of the last row that names it. |
| `HybridCrypto.MergeHybridDeviceRows` | apps/web-client/src/common/crypto/messageHybrid.ts:37-51 | The loops compute that merge. |
| `HybridCrypto.EncryptUtf8ToHybridSendPayload` | apps/web-client/src/common/crypto/messageHybrid.ts:60-89 | The loop wraps the message key for every row or fails with the first row that cannot be served. |
| `HybridCrypto.WrapAllSucceeds` | apps/web-client/src/common/crypto/messageHybrid.ts:75-81 | Encryption succeeds if and only if every row has a readable public key. |
| `HybridCrypto.EveryMergedDeviceReads` | apps/web-client/src/common/crypto/messageHybrid.ts:125-228 | Every device of the merged list decrypts the plaintext. |
| `HybridCrypto.DecryptsExactlyForLastRow` | apps/web-client/src/common/crypto/messageHybrid.ts:125-228 | For any device id and private key: the plaintext if the key is that of the last row with the id, an open failure otherwise, and 'no wrapped key' for an unlisted id. |
| `HybridCrypto.ListedDeviceReadsIff` | apps/web-client/src/common/crypto/messageHybrid.ts:37-51 | A listed device reads the plaintext if and only if no later row takes its id for another key. |
| `HybridCrypto.ClashingIdsLoseTheFirst` | apps/web-client/src/common/crypto/messageHybrid.ts:37-51 | Two devices with one id: the first is left out. |
| `HybridCrypto.RewrappedKeyReads` | apps/web-client/src/common/crypto/messageKeyCrypto.ts:147-243 | A key unwrapped by one device and wrapped for another lets the other read the same plaintext. |
| `DeviceSync.NewDeviceReadsEverything` | apps/web-client/src/modules/crypto/hooks/useDeviceKeySync.ts:82-117 | After the sync the new device decrypts, with its own key, every message the approving device could decrypt at the start, to the same text. |
| `DeviceSync.SyncDoneUnlessUnreadable` | apps/web-client/src/modules/crypto/hooks/useDeviceKeySync.ts:82-117 | The sync gets done if and only if the approving device can open every key that the messages in the user's conversations hold for it at the start, for every schedule of arrivals whose own such keys it can open; for all other schedules the condition is still necessary. Whenever it is not done, it stopped at a message in the user's conversations whose key it cannot open. |
| `DeviceSync.QuietSyncDoneExactly` | apps/web-client/src/modules/crypto/hooks/useDeviceKeySync.ts:82-117 | With nothing arriving meanwhile, the sync gets done if and only if every such key can be opened. |
| `DeviceSync.RotatedKeyIsUnreadable` | apps/web-client/src/common/crypto/privateKeyStorage.ts:402-416 | A key wrapped for an older public key of the device is such a key: neither the sync nor decryption opens it with the active private key. |
| `Keyring.StepKeepsAligned` | apps/web-client/src/common/crypto/ensureMessagingKeypair.ts:59-178 | Bootstrap, rotation and other browsers' steps keep keyring and registry aligned and every stored version in place. |
| `Keyring.KeyringFollowsRegistry` | apps/web-client/src/common/crypto/ensureMessagingKeypair.ts:59-178 | From an empty browser, over every run: newest local version, its key and the active private key are the registered ones. |
| `Keyring.VersionsAreKept` | apps/web-client/src/common/crypto/privateKeyStorage.ts:232-273 | No stored version is lost or replaced. |
| `Keyring.SecondBootstrapRegistersNothing` | apps/web-client/src/common/crypto/ensureMessagingKeypair.ts:83-145 | With a key in the keyring a bootstrap changes nothing; without one it always registers. |
| `Keyring.RotationAfterDeletion` | apps/web-client/src/common/hooks/useKeypairMaintenance.ts:29-76 | After deletion of the device row a rotation fails if it was the only one, and otherwise restarts at version 1: aligned if and only if there is another device and no local version above 1; a stored key is lost if and only if the rotation succeeds and there was a version 1. |
| `Keyring.BootstrapAfterDeletion` | apps/web-client/src/common/crypto/ensureMessagingKeypair.ts:101-122 | After deletion a bootstrap re-registers the same key as version 1: aligned if and only if the newest local version is 1. |
| `Keyring.RotationWithLegacyKey` | apps/web-client/src/common/crypto/privateKeyStorage.ts:300-327 | A key from before the keyring is filed under a version read off the device list, for every device id, set or not, registered or not: aligned if and only if that version is not above the one the new key gets, and the old key survives if and only if the two differ. |
| `Keyring.Registry.RegisterOrUpdateDevice` | apps/messaging-service/src/data/userPublicKeys/repo.ts:169-256 | New row: version 1; new key: next version; same key: unchanged. |
| `Keyring.BootstrapFailures` | apps/web-client/src/common/crypto/ensureMessagingKeypair.ts:83-145 | A bootstrap throws exactly if the newest local key has no public key or another one than the server, or the server knows the device and there is no local key. |
| `Keyring.Registry.DeleteDeviceForUser` | apps/messaging-service/src/data/userPublicKeys/repo.ts:262-272 | The version is forgotten with the row: the next key registered for the device, whichever it is, has version 1; other devices go on as before. |
| `Keyring.Store.ListKeyringVersions` | apps/web-client/src/common/crypto/privateKeyStorage.ts:198-230 | All stored versions, strictly ascending. |
| `Keyring.Store.EnsureUserKeypairReadyForMessaging` | apps/web-client/src/common/crypto/ensureMessagingKeypair.ts:59-178 | Browser, registry and error on every branch equal the specification; an error changes neither side. |
| `Keyring.Store.RotateUserKeypairOnServer` | apps/web-client/src/common/hooks/useKeypairMaintenance.ts:29-76 | Browser, registry and error on every branch equal the specification. |
| `Decimal.ParseIntOfDecimal` | apps/web-client/src/common/crypto/keyringBackup.ts:168-172 | A version number printed as an object key parses back to itself. |
| `KeyringBackup.UnwrapExactly` | apps/web-client/src/common/crypto/privateKeyWrap.ts:68-125 | A wrapped content comes back exactly under a passphrase that trims to the one it was wrapped with. |
| `KeyringBackup.StoredKeyLoads` | apps/web-client/src/common/crypto/privateKeyStorage.ts:235-294 | A stored key loads under the passphrase it was stored with, white space aside. |
| `KeyringBackup.BackupRoundTrip` | apps/web-client/src/common/crypto/keyringBackup.ts:55-196 | Export then import into an empty browser restores versions, keys and device id if and only if the backup passphrase is not empty and has no surrounding white space; otherwise the browser stays empty. |
| `KeyringBackup.LegacyBackupRoundTrip` | apps/web-client/src/common/crypto/keyringBackup.ts:76-88 | The same for a browser with only a key from before the keyring. |
| `KeyringBackup.OtherAccountIsRefused` | apps/web-client/src/common/crypto/keyringBackup.ts:138-140 | Another account's import is refused and stores nothing. |
| `KeyringBackup.FilesTried` | apps/web-client/src/common/crypto/keyringBackup.ts:130-144 | Which files are tried at all; each refusal has its own condition. |
| `KeyringBackup.ImportIsContained` | apps/web-client/src/common/crypto/keyringBackup.ts:123-196 | Whatever the file and the browser: an import touches no version but those it reports, stores these without public keys, sets the device id only when it succeeds, and succeeds only if it stored something. |
| `KeyringBackup.ExportTakesStored` | apps/web-client/src/common/crypto/keyringBackup.ts:65-75 | An export succeeds if and only if every listed version that is stored opens, and holds exactly the stored ones. |
| `KeyringBackup.RestoredBrowserCannotRegister` | apps/web-client/src/common/crypto/keyringBackup.ts:167-181 | Imported rows have no public key, so the automatic registration of a restored browser always fails. |
| `KeyringBackup.BackupStore.CollectEntries` | apps/web-client/src/common/crypto/keyringBackup.ts:65-75 | The export loop over the versions, with its first failure. |
| `KeyringBackup.BackupStore.StoreEntries` | apps/web-client/src/common/crypto/keyringBackup.ts:167-181 | The import loop over the entries, keeping what was stored before a failure. |
| `InnerPlaintext.MediaRoundTrip` | apps/web-client/src/common/crypto/messageHybridPlaintext.ts:80-214 | With a media key, caption, trimmed key and URL come back; a durable explicit URL comes back sanitized. |
| `InnerPlaintext.CaptionRoundTripIff` | apps/web-client/src/common/crypto/messageHybridPlaintext.ts:80-171 | Without a media key the caption comes back unchanged if and only if it is not itself a JSON object with `v` equal to 1. |
| `InnerPlaintext.ParsedIsSafe` | apps/web-client/src/common/crypto/messageHybridPlaintext.ts:144-214 | Whatever text is parsed: a URL comes out only in canonical http or https form and not for uploading, or from this client's own environment, or built from the prefix in the text; a key comes out trimmed and not empty. |
| `InnerPlaintext.SerializeHybridInnerPlaintextV1` | apps/web-client/src/common/crypto/messageHybridPlaintext.ts:80-138 | The assignments build that text. |
| `InnerPlaintext.ParseDecryptedHybridUtf8` | apps/web-client/src/common/crypto/messageHybridPlaintext.ts:144-214 | The reassigned locals end in that result. |
| `RuntimeConfig.CachedRoundTrip` | apps/messaging-service/src/config/runtimeConfig.ts:64-84 | A cached configuration reads back as it was written. |
| `RuntimeConfig.StepKeepsInv` | apps/messaging-service/src/config/runtimeConfig.ts:90-124 | Edits, eviction, cache reads, database reads and cache writes keep the invariant. |
| `RuntimeConfig.AnswersAreRecent` | apps/messaging-service/src/config/runtimeConfig.ts:90-124 | Every answer is the merge of a document that was current within the last 300 s plus the longest read-to-cache delay. |
| `RuntimeConfig.EditsTakeEffect` | apps/messaging-service/src/config/runtimeConfig.ts:18-22 | An edit that stays governs every answer given later than that after it. |
| `RuntimeConfig.ConfigService.BuildEffectiveRuntimeConfigFromDb` | apps/messaging-service/src/config/runtimeConfig.ts:35-62 | Field by field, the document wins over the environment. |
| `RuntimeConfig.ConfigService.GetEffectiveRuntimeConfig` | apps/messaging-service/src/config/runtimeConfig.ts:90-124 | Answer and cache are those of the protocol's steps, whichever of the two cache requests fail. |

## Left out

- Database, cache, broker, Socket.IO, IndexedDB and Web Crypto internals: only the operations the code calls are
  modelled, as maps, sequences and sets.
- Fan-out to sockets of a replica that crashes, queue redelivery, and sends whose second publish fails: the counting
  results are about completed sends.
- Delivery logs, and the payload of a message notification: a notification stands for the message it is about.
- Receipt times and the read cursor: two writers can pass each other between check and write, and no order is claimed.
- Removal of guest data after its time to live, which ends the guarantees of find-or-create and of the sync cursor.
- Device ids with a dot, which MongoDB would read as a path; the request schemas of the sync endpoints exclude them.
- Access tokens, their claims and expiry: only the refresh token and its version are modelled, expiry is a step that
  may come at any time.
- The device label and timestamps of a registry row, the `updatedAt` of a conversation and the expiry date of guest
  data that a send also writes.
- What the approving device checks before the sync loop: that the new device is listed with its public key, and its own
  session. The loop starts from there.
- Progress of the socket worker: an emit may never be answered, and a promise dropped by `terminate()` never settles;
  only safety and the 30 s bound are claimed.
- WebRTC sessions and call signalling, Redux slices, React components, search, media upload, request schemas, CORS,
  metrics and error mapping: each is a matter of one branch, or drives the browser.
