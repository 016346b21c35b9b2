# A model of the channel and subscription engine

This project models a Pusher server (protocol version 7): the channels and subscriptions of
one application, kept by several instances and mirrored in a shared Redis. It has three layers.

* **Values.** `Instance` holds the state of one instance (connections, channels with their
  subscriptions, listener markers, counters, the frames handed to each socket, the webhooks
  fired) and its atomic changes. `Registry` holds the shared store as separate maps and the
  Pub/Sub listeners with their queues. `Handlers` and `Session` say what a handler, a request
  and a whole WebSocket session do to both, as functions.
* **Objects.** `Connection`, `Channels`, `Applications`, `Websockets`, `Api`, `Payload` and
  `RedisClient` are the classes, methods and loops of the code. Each method is proved to do what
  the value layer says. `RedisClient` works on one flat key space of strings, and `RedisKeys`
  and `RedisServer` prove that this refines the separate maps of `Registry`.
* **Runs.** `Cluster` is a step relation over any number of instances: each runs one handler at a
  time, a step is one local change together with at most one Redis call, instances interleave at
  every Redis call, and a queued Pub/Sub message is heard at any later step. `Safety`, `Echo`,
  `Delivery`, `Counting`, `Mirror` and `OrderlyRuns` prove what holds on every run, and `Away`
  what does not. `Provenance`, `Contents`, `Stored`, `ClientEvents`, `MemberHooks`,
  `Confirmations`, `Messages` and `RegistryData` say what the frames, the queued messages, the
  webhooks, the counter of messages and the stored data contain, in terms of the commands that the
  clients and the API gave. `Witnesses` reaches a registered subscriber from the start of a
  cluster, and `Progress` brings every publication to rest, so that the premises of the delivery
  theorems can be met at every state. `Undisturbed` proves that a handler of the step relation
  which is not interleaved with other instances does what `Handlers` says, and `SessionRuns` that
  a whole WebSocket session is such a run, so the layers describe one system. `Answers` says what
  a client is answered.

Four smaller models stand beside them: the locks (`Locks`), the locked sections of one channel
(`Interleaving`), the read deadline and the ping ticker (`Timing`), and the query string that an
API request signs (`QueryString`).

## Assumptions

* Redis calls succeed, keys do not expire, Pub/Sub delivers every message in order to every
  listener, and the Redis client is present.
* Socket IDs are fresh over all instances. The two random numbers of an ID are parameters.
* One handler at a time runs on an instance in `Cluster` and in the object layer. `Locks` and
  `Interleaving` drop this for the locks and for the subscription map of a channel.
* The cluster holds one application; the key space of `RedisClient` holds any number.
* The outcome of the signature check is a parameter; the text that is signed is not modelled. A
  channel name in a request is already trimmed. A JSON text enters as the outcome of decoding it
  (`ChannelData`, `Raw`).
* The frames of a socket are those handed to `Publish`. Whether the write then succeeds is decided
  by the environment and does not change what the handlers do, the greeting apart.
* `Tag` numbers the publications so that copies can be counted. The code has no such number.
* A frame with an event name chosen by a client or by the API is an `Event`, also when the name is
  one the server uses itself.

## Where the code and its description differ

* The comment at api/handlers.go:62-63 gives `Name: Something else` as an example that signs
  `name=Something else`. The code looks the value up under the lower-case key and signs `name=`.
  `QueryString.CodeMeetsDocument` and `QueryString.SignedMeetsDocument` say exactly when code and
  comment agree, and `QueryString.UpperCaseLosesValue` is a smallest input for which they do not.
* Delivery across instances is at least once. A staying subscriber has exactly one copy if no other
  instance has a registered subscriber (`Counting.OneCopyIfNobodyElse`). Otherwise it has one for each
  listener of its instance, and one more on the publishing instance, which hears its own broadcast
  (`Counting.CopiesIfSomebodyElse`).
* A subscriber that is there when an event is published and when everything has drained can have no
  copy, because it was away when its instance heard the message: `Away.DropAndReturn`, from the start
  of a cluster. `Counting.ReceivedIff` is the exact condition, on every run: it has a copy if and only
  if the event is told or relayed on its instance at a step where the subscription map has it.
* A presence subscribe whose data does not decode reports an error and stays in the local map.
  `Presence.OthersKnowIff`, `Hooks.OccupancyIff` and `Hooks.JoinsIff` say exactly which subscribes
  leave the members' view and the webhook trace right.
* A session leaves no trace exactly when it enters no vacant channel (`SessionTrace.NoTraceIff`).
  The Pub/Sub listener of a channel it created stays behind, because `RemoveChannel` drops only
  the marker.

## Model

| member | source | states |
|---|---|---|
| Delivery.AtLeastOnce | app/app.go:395-447 | on every reachable state and every continuation, a subscriber on any instance, registered in Redis when an event is published, other than the ignored socket, that stays subscribed, has a copy once the publisher is done and no copy is on its way to its instance |
| Delivery.ExactCopies | app/app.go:285-447 | the copies that subscriber has are one if it is on the publishing instance, and what the broadcast, if there was one, has recorded for its instance |
| Counting.BroadcastExactly | app/app.go:406-440 | on every run that settles, the event is broadcast if and only if its data is JSON and the scan meets a socket of another instance |
| Counting.SomebodyElseIsFound | app/app.go:412-419 | the scan meets one whenever some registered member on another instance stays subscribed while the publisher works, whatever the others do |
| Counting.NobodyElseIsFound | app/app.go:412-419 | it meets none if, when the publisher reads the set, no member is registered to another instance, whatever is registered later |
| Counting.CopiesIfSilent | app/app.go:395-422 | if the scan meets nobody, a staying subscriber has exactly one copy of an event whose data is JSON on the publishing instance, and none elsewhere |
| Counting.CopiesIfBroadcast | app/app.go:395-440 | if it meets somebody, there is a step that broadcasts, and a staying subscriber has one copy for each listener its instance has at that step, which are at least one, and one more on the publishing instance |
| Counting.OneCopyIfNobodyElse | app/app.go:395-447 | with nobody of another instance in the registry when it is read, exactly one copy on the publishing instance |
| Counting.NoCopyElsewhere | app/app.go:395-447 | and then no socket of another instance has any, whenever it came or went |
| Counting.CopiesIfSomebodyElse | app/app.go:395-447 | with a registered member that stays on another instance while the publisher works, the number of copies of every staying subscriber of every instance |
| Counting.ReceivedIff | channel/channel.go:334-345 | on every run, with subscribers that come and go: the copies are the steps that tell or relay the event on the instance while the socket is subscribed there, and there is a copy if and only if there is such a step |
| Counting.AllHandled | app/app.go:304-346 | nothing is lost on the way: once drained, every copy that was broadcast to an instance has been relayed there, or dropped because the channel was gone |
| Progress.CanRest | app/app.go:148-512 | from every safe state all handlers can finish and all queues drain without a new command, and no subscriber is lost but those that a disconnect is already taking out |
| Progress.CanSettle | app/app.go:395-447 | so every publication can settle on every instance with its subscribers staying |
| Delivery.BroadcastReaches | app/app.go:285-347 | a broadcast reaches as many listeners on an instance as the channel was created there, at least one where the channel is present |
| Delivery.OutsidersGetNothing | channel/channel.go:316-347 | a socket that is not subscribed receives no copy, on every run |
| Delivery.BalancedNext | app/app.go:304-346 | every step keeps copies received plus copies on their way equal to what the publication owes |
| Contents.EveryCopyIsTheEvent | app/app.go:304-447 | on every run from the start, once a handler is at work on a publication, every frame with its tag, in every log of every instance in every later state, is the event that the client's or the API's command asked for: name, channel and data |
| Contents.EveryMessageIsTheEvent | app/app.go:423-440 | and so is every message with its tag that waits in Redis |
| Contents.StayersGetTheEvent | app/app.go:395-447 | a registered subscriber that stays holds, after all has drained, the event as it was published |
| Provenance.NothingIsMadeUp | channel/channel.go:158-347 | on every run every frame goes back to a command: an event to a client event or POST naming its channel, member_added to the data with which another socket of the instance subscribed, member_removed to its user, a confirmation to an accepted subscribe of the socket itself |
| Provenance.NoHookIsMadeUp | app/webhooks.go:55-165 | and so does every webhook: a client event to a publication that skips its sender, a member to a subscribe with that user |
| Messages.EveryPublicationCounts | app/app.go:395-396 | on every run and instance, TotalUniqueMessages, with what the current handler still owes, is one for each client event and one for each channel of each POST that was started there |
| Messages.AllPublicationsCount | app/app.go:395-396 | the counters of all instances and the publications about to be counted add up to the publications taken up |
| Messages.PostCounts | api/handlers.go:190-197 | a POST raises the counter by the number of its channels |
| Answers.RequestCounts | websockets/websocket.go:255-285 | a client event to a private or presence channel that is there raises it by one, and no other request moves it |
| Output.JoinStores | channel/channel.go:161-191 | after a subscribe the socket's entry is its user ID and user info on a presence channel (`null` where there is none), the plain data elsewhere or where it does not decode, and the other entries are as before |
| Stored.EntryIsAsSent | channel/channel.go:161-191 | on every run, with subscriptions repeated, given up and taken again, an entry is what the socket's last subscribe command for the channel said, unless that command is just being handled |
| Stored.MemberIsAsSent | channel/channel.go:180-191 | on every orderly run, with no exception, a presence entry is the user ID and the user info of that command |
| Stored.HashIsAsSent | events/events.go:110-134 | each value in the hash of a presence payload is what a socket of that user last sent |
| ClientEvents.StepFires | channel/channel.go:334-344 | every step fires the client_events webhook exactly when it hands out a client event of a subscriber of the instance, then exactly once, with the event's name and data, the sender and its stored user; no other step fires it |
| ClientEvents.WebhookNamesTheSender | app/webhooks.go:112-117 | on every run that user is the one with which the sender last subscribed, and empty on a channel that is not a presence channel |
| MemberHooks.WebhooksTellTheMembers | channel/channel.go:193-284 | on every orderly run, adding the user of each member_added webhook and taking out that of each member_removed gives exactly the users subscribed, with multiplicity |
| Confirmations.OnlySubscribersAreWrittenTo | channel/channel.go:287-347 | at every step of every run, a frame about a channel goes to a socket that is then subscribed to it |
| Confirmations.EachSubscribeIsConfirmed | channel/channel.go:193-231 | on every run a socket has one subscription_succeeded for each accepted subscribe that was carried out |
| Confirmations.ConfirmationsAgree | events/events.go:110-134 | on every run the users of a presence confirmation are those of its ids and its count is no less; on orderly runs count and ids agree |
| Away.DropAndReturn | app/app.go:312-317 | from the start of any cluster of two or more instances there is a run to a publication with a registered subscriber on another instance, and on to a state in which all has drained and that subscriber is subscribed and has no copy |
| Away.ComesBackTooLate | app/app.go:312-317 | from every state in which a message waits for a subscriber's idle instance there is a run in which the subscriber leaves, that message is heard, and the subscriber is back with no copy more of whichever event is asked about; the other queues are as they were |
| Echo.NeverHearsItself | app/app.go:332-342 | on every run no frame a socket is handed is an event that was to ignore it, by the local path or through Redis |
| Safety.SafeNext | app/app.go:148-208 | every step of every instance keeps: subscribed sockets are connected and registered to their instance, a present channel has a listener, and the counters are the sizes of what they count |
| Safety.SafeAlways | app/app.go:148-208 | the same over whole runs |
| Safety.SubscribedIsRegistered | app/app.go:148-208 | a subscribed socket is registered in Redis to the instance it is subscribed on |
| Safety.OneHome | app/app.go:192-208 | no socket is subscribed on two instances |
| Instance.CountersKept | app/app.go:225-282 | every change keeps TotalConnections, TotalChannels and the three channel counters equal to the sizes of the maps and lists |
| Instance.KindsPartition | app/app.go:86-145 | presence, private and public channels partition the channels, and their numbers add up |
| Names.KindsAreDisjoint | utils/utils.go:41-48 | no name is both a presence and a private name |
| Mirror.AllMirroredNext | app/app.go:451-512 | every step, at every point inside a handler, keeps the registry's entry for each socket equal to the local one except where that handler is about to change it |
| Mirror.RegistryIsUnion | redis/redis.go:236-296 | with no such change pending, the registry set of a channel is the union of the local maps, and the presence hash gives each subscribed socket its local user ID |
| Mirror.ScanIsExact | app/app.go:406-419 | then a member is registered to another instance exactly when another instance has a subscriber, which is what the publisher's scan answers |
| RegistryData.RegistryHoldsTheData | redis/redis.go:236-285 | on every run whose presence data decodes, once no handler works on a socket's entry, its metadata is the instance and the data with which it last subscribed, its user info that of this data on a presence channel, and both are absent if it is not subscribed |
| Presence.RostersKept | channel/channel.go:158-240 | every orderly change keeps what each subscriber can reconstruct from its frames equal to the users subscribed |
| Presence.OthersKnowIff | channel/channel.go:158-191 | exactly when a subscribe leaves the other subscribers' reconstruction right |
| OrderlyRuns.RosterReplay | events/events.go:110-134 | on every orderly run, subscription_succeeded followed by the later member_added and member_removed frames of a subscriber gives exactly the multiset of user IDs subscribed on its instance |
| Hooks.AlternationCounts | channel/channel.go:233-237 | alternation of occupied and vacated fixes the difference of their numbers |
| Hooks.OccupancyIff | channel/channel.go:193-239 | exactly when a subscribe keeps occupied and vacated alternating and in step with the channel |
| Hooks.JoinsIff | channel/channel.go:193-239 | exactly when a subscribe keeps the member hooks counting the subscriptions |
| OrderlyRuns.HookConservation | channel/channel.go:253-284 | on every orderly run occupied and vacated alternate, occupied leads by one exactly while the channel has subscribers, and member hooks count the subscriptions of a presence channel |
| SessionTrace.SessionLeaves | websockets/websocket.go:100-247 | what any session of a fresh socket leaves: connections, registry and counters as before, and every channel except the vacant ones it entered, which are gone |
| SessionTrace.NoTraceIff | websockets/websocket.go:100-247 | a session leaves no trace at all if and only if it entered no vacant channel |
| Handlers.DisconnectRemovesExactly | app/app.go:148-189 | in whatever order the channels are visited, Disconnect takes exactly this socket out of every channel, removes exactly the channels this empties, keeps the counters and markers right, and leaves every other socket's registry entries and the listeners alone |
| Handlers.DisconnectTwice | app/app.go:148-156 | disconnecting a socket that is not connected changes nothing, so a second Disconnect does not either |
| Handlers.LeftAllChannels | app/app.go:159-166 | at each point of the loop the visited channels, and no others, are without the socket |
| Undisturbed.SubscribeRuns | app/app.go:481-512 | the steps of a subscribe without interference make the handler function |
| Undisturbed.UnsubscribeRuns | app/app.go:451-478 | the same for an unsubscribe |
| Undisturbed.DisconnectRuns | app/app.go:148-189 | the same for a disconnect, in every order of the channels |
| Undisturbed.ConnectRuns | app/app.go:192-208 | the same for a connect |
| Undisturbed.ClientRuns | app/app.go:395-447 | the same for a publication, in every order of the registry's answer |
| Undisturbed.PostingRuns | api/handlers.go:190-197 | the same for one channel of a POST |
| Undisturbed.HearRuns | app/app.go:304-346 | the same for a message that a listener hears |
| Applications.Application.constructor | app/app.go:51-83 | a new application is empty |
| Applications.Application.Connect | app/app.go:192-208 | the application and the registry after a connect |
| Applications.Application.AddChannel | app/app.go:256-282 | the channel, its listener unless the marker is there, and the counters of its kind |
| Applications.Application.SetupChannelPubSub | app/app.go:285-301 | a listener is added exactly when the marker is missing |
| Applications.Application.RemoveChannel | app/app.go:225-253 | the channel, its marker and its counts are gone; the listener stays |
| Applications.Application.FindOrCreateChannel | app/app.go:351-377 | the channel is found, or created with its listener |
| Applications.Application.Subscribe | app/app.go:481-512 | the channel, the frames, the webhooks and the registry after a subscribe; after an error the registry is untouched |
| Applications.Application.Unsubscribe | app/app.go:451-478 | all of them after an unsubscribe, an emptied channel being removed; an error changes nothing |
| Applications.Application.LeaveChannels | app/app.go:159-166 | the loop that deletes from the map it ranges over visits every channel once and leaves each |
| Applications.Application.Disconnect | app/app.go:148-189 | the whole application and the registry after a disconnect |
| Applications.Application.HasRemoteSubscribers | app/app.go:406-419 | the scan with its early exit answers whether some registered member belongs to another instance |
| Applications.Application.Publish | app/app.go:395-447 | the counter, the local frames and webhooks, and the broadcast exactly when there is a remote subscriber and the data is JSON |
| Applications.Application.Hear | app/app.go:312-346 | a message goes to the local subscribers, skipping its sender if it is registered here, or nowhere without the channel |
| Applications.Application.PresenceChannels | app/app.go:100-113 | lists every presence channel once and nothing else |
| Applications.Application.PrivateChannels | app/app.go:116-129 | lists every private channel once and nothing else |
| Applications.Application.PublicChannels | app/app.go:132-145 | lists every public channel once and nothing else |
| Applications.Application.Channels | app/app.go:86-97 | lists every channel once |
| Channels.Channel.Subscribe | channel/channel.go:158-240 | the subscription map, the frames and the webhooks after a subscribe, in each of its cases |
| Channels.Channel.Unsubscribe | channel/channel.go:253-284 | the same after an unsubscribe, whose only error changes nothing |
| Channels.Channel.Publish | channel/channel.go:316-347 | the frames to all but the ignored socket, and its client-event webhook; data that is not JSON is the error and sends nothing |
| Channels.Channel.Broadcast | channel/channel.go:287-312 | a loop over the subscriptions hands each one but the skipped exactly one frame |
| Channels.Channel.Enroll | channel/channel.go:161-191 | a new subscription replaces the socket's old one, and is filled in after it is filed |
| Connection.Connection.Publish | connection/connection.go:47-51 | one write to this socket and to no other |
| Connection.Wire.WriteMessage | connection/connection.go:59-78 | the operations on the socket for every combination of failures |
| Connection.WriteDiscipline | connection/connection.go:47-78 | after any writes with any failures a socket is closed or has no write deadline armed, and each frame was written under a deadline armed for it |
| Connection.FramesAsGiven | connection/connection.go:59-78 | after any writes with any failures the socket has had exactly the frames it was given, in order, each under a deadline ten seconds ahead, but for those whose deadline could not be armed |
| Connection.WriteRests | connection/connection.go:59-78 | one more write keeps that, and a successful one clears the deadline |
| Payload.SucceededData | events/events.go:110-134 | the payload lists the readable subscriptions with multiplicity, its hash has exactly their users with data of theirs, its count is of all |
| Payload.TotalUsers | channel/channel.go:144-155 | the number of distinct user IDs |
| Payload.PayloadCounts | events/events.go:110-134 | count equals the number of ids if and only if all data is readable, and then the hash has one entry for each of at most that many users |
| RedisKeys.KeysDistinct | redis/redis.go:181-375 | for application IDs, channel names and socket IDs without colons the five key shapes are injective and pairwise disjoint |
| RedisKeys.ColonsCollide | redis/redis.go:245 | with colons they are not: two different subscriptions have the same key |
| RedisKeys.OddSetKey | redis/redis.go:289 | a set key made from a name with a colon is the key of nothing that is stored |
| RedisKeys.OddConnKey | redis/redis.go:218 | a connection key is the key of no other entry, whatever the socket ID |
| RedisServer.ExecuteRefines | redis/redis.go:180-378 | a command on the flat key space does what the operation on the separate maps does, and leaves every other application's registry alone |
| RedisServer.MembersRead | redis/redis.go:288-296 | reading the set key gives the registry's set, for every channel name |
| RedisServer.ConnRead | redis/redis.go:217-233 | reading the connection key gives the registry's instance, for every socket ID |
| RedisClient.Client.RegisterConnection | redis/redis.go:180-202 | the registry after a connection is registered |
| RedisClient.Client.UnregisterConnection | redis/redis.go:205-214 | the registry after a connection is unregistered |
| RedisClient.Client.GetConnectionInstance | redis/redis.go:217-233 | the registered instance, or the error |
| RedisClient.Client.SubscribeToChannel | redis/redis.go:236-269 | the registry after the two commands of a subscribe |
| RedisClient.Client.UnsubscribeFromChannel | redis/redis.go:272-285 | the registry after the two commands of an unsubscribe |
| RedisClient.Client.GetChannelSubscriptions | redis/redis.go:288-296 | an enumeration of the registry's set, each member once |
| RedisClient.Client.StorePresenceData | redis/redis.go:351-367 | the registry after presence data is stored |
| RedisClient.Client.RemovePresenceData | redis/redis.go:370-378 | the registry after presence data is removed |
| RedisClient.Client.PublishEvent | redis/redis.go:318-332 | one copy in the queue of every listener of the channel |
| RedisClient.Client.SubscribeToChannelEvents | redis/redis.go:335-348 | one more listener, with an empty queue |
| Websockets.HandleSubscribe | websockets/websocket.go:315-359 | each refusal with its message, or the subscription |
| Websockets.HandleUnsubscribe | websockets/websocket.go:287-313 | each refusal with its message, or the unsubscription |
| Websockets.HandleClientEvent | websockets/websocket.go:255-285 | with user events off the error is reported and the event still goes out, if its channel is private or presence |
| Websockets.ReadLoop | websockets/websocket.go:141-178 | the loop handles each message and ends at the first read that is none |
| Websockets.HandleMessages | websockets/websocket.go:100-178 | the loop, then Disconnect on every exit |
| Websockets.Open | websockets/websocket.go:231-242 | connected, then greeted; a failed greeting disconnects |
| Websockets.Serve | websockets/websocket.go:62-98 | a whole session of the objects is the session whose trace SessionTrace describes |
| Answers.RequestIsAnswered | websockets/websocket.go:248-359 | every request gets exactly the pong or errors it should, with their codes and texts, and no other socket is answered |
| Answers.SessionIsAnswered | websockets/websocket.go:62-203 | a whole session is answered with the greeting that names the socket, then with the answers to its requests in order, then with the error that ends it, if any |
| Answers.TurnedDownLeavesAll | websockets/websocket.go:255-359 | a request that is turned down leaves the subscriptions, the counters, the webhooks, the registry, the listeners and all other logs as they were |
| Answers.PublicClientEventIsTurnedDown | websockets/websocket.go:275-278 | a client event to a channel neither private nor presence is such a request, and its sender gets errors only |
| SessionRuns.SessionIsARun | websockets/websocket.go:62-247 | a session of a fresh socket on an instance at rest, whatever it receives, is a run of the cluster whose publications are exactly the client events to private and presence channels that are there |
| SessionRuns.PostIsARun | api/handlers.go:190-197 | a POST that an instance at rest serves is a run of the cluster with this one command, every channel in turn |
| Api.PostEvents | api/handlers.go:182-197 | every channel of the list is served in turn, or the single channel if the list is empty, and created where it is missing; more than 10000 bytes of data serve none |
| QueryString.PrepareQueryString | api/handlers.go:36-52 | the result is the same for every iteration order of the parameters |
| QueryString.OrderIndependent | api/handlers.go:36-52 | any two enumerations of the same parameters sign the same string |
| QueryString.SortedUnique | api/handlers.go:43 | a sorted permutation is unique |
| QueryString.LowerCaseKeys | api/handlers.go:36-52 | lower-case keys are listed once each, strictly ascending, with their first values |
| QueryString.CodeMeetsDocument | api/handlers.go:62-63 | the pieces are the documented ones if and only if every key has the value of its lower-case form |
| QueryString.SignedMeetsDocument | api/handlers.go:62-63 | where no two keys share a lower-case form, the string is the documented one if and only if every key that is not lower-case has an empty value |
| QueryString.UpperCaseLosesValue | api/handlers.go:62-63 | an input for which it is not |
| Names.SessionIds | utils/utils.go:31-33 | generated IDs consist of digits and a dot and differ when their numbers do |
| Names.ChannelNameIsPlain | utils/utils.go:19 | a validated channel name has no colon |
| Witnesses.SubscriberIsReachable | app/app.go:481-512 | from the start of any cluster any socket can become a registered subscriber of any validly named channel on any instance, with nobody else in the registry and any idle instance free to publish to it |
| Witnesses.SessionIsPossible | websockets/websocket.go:100-247 | the premises of the session theorems hold of an empty application, whatever the session receives |
| Interleaving.Interleaved | channel/channel.go:161-191 | any interleaving of the locked sections of Subscribe and Unsubscribe threads for distinct sockets leaves the subscriptions of the threads run one after another |
| Interleaving.AgreesStep | channel/channel.go:256-266 | each locked section changes its own socket's entry only, and as its thread should |
| Locks.NoDeadlock | app/app.go:225-301 | any number of threads in any interleaving: a lock held for writing is held by nobody else, and while some thread is unfinished some thread can move |
| Locks.RunsEnd | channel/channel.go:287-347 | every interleaving is bounded, so one that cannot go on has finished every call |
| Locks.FineProgram | connection/connection.go:47-51 | every call takes its locks in the order app, subscribers, channel, connection |
| Timing.ResponsivePeerStays | websockets/websocket.go:109-139 | on every timed run a peer that answers each ping in under 6 s never meets the read deadline |
| Timing.SilentExpires | websockets/websocket.go:144-157 | a silent peer's read has timed out by PongWait after the last renewal |
| Timing.SilentReaches | websockets/websocket.go:144-157 | a silent peer's run can always be continued to the timeout |
| Timing.LateAnswerExpires | websockets/websocket.go:41-49 | the window is sharp: a peer that takes 6 s meets the deadline |

## Left out

- HTTP routing, TLS, the WebSocket upgrade, status codes, response bodies and the protocol-version table.
- JSON itself (data either is JSON or is not; a request without data counts as the JSON text `null`, which is published), HMAC-SHA256 and the randomness of socket IDs; the delivery of webhooks, which are records in a trace.
- The error frame that ServeHTTP writes to a socket whose opening was refused or failed (websockets/websocket.go:92-95).
- Redis set-up, clustering, errors and the 24-hour expiry of keys.
- Logging, configuration and the in-memory list of applications.
- Handlers that run at the same time on one instance: `Locks` and `Interleaving` cover their locks and the subscription map of a channel. Disconnect ranges over the channel map without a lock (app/app.go:159), and FindOrCreateChannelByChannelID checks and then acts; the counter and hook laws are stated for one handler at a time.
- The sockets of a process are one `Wire` that is keyed by socket ID, and the webhooks one trace, so that two connection objects for one ID would share a socket.
- The JSON value that the hash of a presence payload gives to each user is proved for the payload (Payload.SucceededData, Stored.HashIsAsSent), and is not part of the logged frame.
- ToLower in `QueryString` lowers the letters A to Z; other alphabets are not modelled.
- Ping writes that fail, and a ticker that is late: `Timing` has a punctual ticker whose pings are written.
- Delivery.AtLeastOnce: does not cover a subscriber that leaves and returns, because there it is false (Away.DropAndReturn); Counting.ReceivedIff says exactly when such a subscriber has a copy.
- SessionTrace.NoTraceIff: does not say that the listeners are as before, because a channel that the session creates leaves its listener behind.
