# blemees-peer: a verified model of the peer daemon

`blemees-peerd` connects sessions on one machine. A session says hello with a session id and a home
directory, may claim an alias in that home, sends direct messages to homes, session ids and aliases,
publishes to topics and subscribes to them, and may watch the traffic of everybody else. Direct
messages that reach nobody wait in bounded queues; publications stay in bounded rings; both are
mirrored to files and survive restarts. A sidecar turns notifications into tool calls, and a client
library matches responses to requests.

The model has two layers. The values of the lower layer (`Routing.Hub`, `Store.StoreState`,
`Daemon.System`, `Client.ClientState`, `Inbox.World`, `Correlation.Link`) with the functions over them
say what each request, event or move does; the theorems about whole runs are about these. The
classes of the upper layer (`Router`, `Server`, `Connection`, `PersistentDeque`, `AddressableStore`,
`PeerClient`, `Sidecar`) have the program's own mutable fields, loops and error branches, and every
method is proved to take the concrete state exactly where the function takes the abstract one.

| module | file | subject |
|---|---|---|
| `Base`, `Messages` | Base.dfy, Messages.dfy | windows of sequences, the message record |
| `Addressing`, `Forms` | Addressing.dfy, Forms.dfy | paths, addresses, identity tokens, parser and printer; what well-formed names look like, minting, UTF-8 |
| `Persistence`, `Store`, `StoreRuns` | Persistence.dfy, Store.dfy, StoreRuns.dfy | one queue and its file, the lazy map, cold starts, crashes, whole runs |
| `Connections` | Connection.dfy | one connection: identity, filters, outbox |
| `Routing` | Routing.dfy | the routing state and every request as a function |
| `Registry`, `Delivery`, `Plans` | Registry.dfy, Delivery.dfy, Plans.dfy | index agreement; delivery loops turn by turn; requests as sequences of states |
| `RouterImpl` | Router.dfy | the router as a class over mutable tables, connections and stores |
| `Daemon`, `Invariant`, `Lifecycle` | Daemon.dfy, Invariant.dfy, Lifecycle.dfy | events, runs, the system invariant, what it means |
| `ServerImpl` | Server.dfy | handlers, dispatch, shutdown as a class |
| `Roster`, `Identity` | Roster.dfy, Identity.dfy | the registry as a plain table, refusals included; joining, aliases, subscriptions |
| `Effects`, `Presence`, `Records`, `Traffic` | Effects.dfy, Presence.dfy, Records.dfy, Traffic.dfy | the complete effect of each request on every connection; what messages say and that replies find their sender |
| `Reach`, `Queues`, `Fates`, `SelfDelivery` | Reach.dfy, Queues.dfy, Fates.dfy, SelfDelivery.dfy | addresses against queue keys; queues over runs; the life of each direct message |
| `Topics`, `Subscribers`, `Paging` | Topics.dfy, Subscribers.dfy, Paging.dfy | rings, what a subscriber sees, reading history page by page |
| `Client`, `Responses`, `Correlation` | Client.dfy, Responses.dfy, Correlation.dfy | calls and responses over two FIFO channels |
| `Inbox` | Inbox.dfy | the sidecar's inbox, its event and its concurrent tool calls |

## How the model stands for the program

- Every handler of the router runs without suspending, because the outbox is an unbounded queue, so
  one request is one step. Interleaving is between requests, writers, readers, hang-ups and failures.
- An outbox is the history of everything enqueued, since what matters is what a client will read and in
  which order. A closed connection drops what is enqueued, and `delivered` counts it all the same.
- Message ids, session ids and timestamps come with the request. Theorems about single messages ask
  that ids be fresh (`Fates.FreshRun`).
- Glob matching is an arbitrary relation. Where it matters the model asks for its one needed fact, that
  `*` matches everything.
- The address hash is an arbitrary function. Operations on an address ask that no other address in
  memory share its file (`Alone`); whole runs ask that the addresses in use have different hashes.
- A file is a sequence of lines, each blank, unreadable or a message; a directory maps names to files;
  renaming is atomic. The cold start takes the directory listing in any order.
- A trailing newline passes the session id and alias patterns, as `$` allows it; the model keeps this.

Where the documentation and the code disagree, the model follows the code:

- The protocol description says that a watcher who is also a recipient gets only `peer.message`. The code
  sends both; `Effects.ViewsOverlapIff` gives the exact condition.
- A home that contains `#` passes the form check but is found under other addresses than it drains;
  `Reach.FoundUnderOwnKeysIff` and `Queues.AliasQueueDrainedIff` give the exact conditions, and
  `Addressing.HashInHomeMisparses` and `Queues.HashHomeDrainsAlias` an instance.
- A rejected alias may leave an empty inner table behind, so statements about aliases are about the
  lookup relation.
- Two `peer_await` calls can wake for one note; the loser reports a timeout even when it set none
  (`Inbox.OneNoteOneWinner`; `Inbox.LosesOnlyARace` has all steps at which a woken call loses).
- A session is never handed its own direct message at once (`SelfDelivery.NeverAtOnce`), but it can get
  it from a queue (`SelfDelivery.ClaimHandsOverIff`, `SelfDelivery.OwnMessageThroughClaim`). Messages that a filter rejects are queued, and
  a claim drops those that the filter still rejects (`Fates.OnlyClaimsFilter`).

## Model

| member | source | states |
|---|---|---|
| `Addressing.SidAliasDisjoint` | src/blemees_peer/addressing.py:30-31 | no string is both a valid session id and a valid alias |
| `Forms.SidFormIff` | src/blemees_peer/addressing.py:170-171 | a session id is accepted iff it is `sess_` and 16 letters of the url-safe base64 alphabet, with at most one trailing newline |
| `Forms.AliasFormIff` | src/blemees_peer/addressing.py:174-177 | an alias is accepted iff it is one lower-case letter and up to 63 lower-case letters, digits, `_` or `-`, with at most one trailing newline, and does not begin with `sess_` |
| `Forms.MintedSids` | src/blemees_peer/addressing.py:180-182 | every minted session id is accepted as one, and different random bytes give different ids |
| `Forms.PathFormIff` | src/blemees_peer/addressing.py:57-91 | a home is accepted iff it is `~`, the root, or a path below one of them in which no segment between slashes is empty, `.` or `..` |
| `Forms.TopicFormIff` | src/blemees_peer/addressing.py:157-162 | a topic name is accepted iff it is nonempty, does not begin with `/`, has no `#`, and its UTF-8 encoding has at most 256 bytes |
| `Addressing.NormalizeRoundTrip` | src/blemees_peer/addressing.py:38-54 | for every resolved absolute path and user home, the canonical form is accepted as normalized and tilde expansion gives the path back |
| `Addressing.TrailingSlashes` | src/blemees_peer/addressing.py:38-54 | trailing slashes make no difference to the canonical form |
| `Addressing.NormalizeInjective` | src/blemees_peer/addressing.py:38-54 | different resolved paths have different canonical forms |
| `Addressing.AcceptedIsCanonicalIff` | src/blemees_peer/addressing.py:57-89 | for every user home, an accepted path expands to a resolved path, and is what normalization produces for it iff it is not written absolutely at or below the user home, nor below `~` when that is the root |
| `Addressing.ParseRender` | src/blemees_peer/addressing.py:95-152 | the parser returns x for a string iff x is valid, its home has no `#`, and the string is the rendering of x |
| `Addressing.RoundTripIffHashless` | src/blemees_peer/addressing.py:102-105 | for a valid address, parsing its rendering gives it back iff its home has no `#` |
| `Addressing.HashInHomeMisparses` | src/blemees_peer/addressing.py:141-150 | the home `/a#b` is accepted as normalized, but its broadcast address parses as alias `b` in `/a` |
| `Persistence.LoadIsWindow` | src/blemees_peer/persistence.py:43-60 | loading a file keeps exactly the last maxlen readable messages, whatever blank lines, broken JSON or incomplete records lie between them |
| `Persistence.LoadLinesBack` | src/blemees_peer/persistence.py:94-104 | what a flush writes is what a load reads |
| `Persistence.TmpIsNotJsonl` | src/blemees_peer/persistence.py:99-137 | the temporary file is never picked up by the cold-start scan |
| `Persistence.PersistentDeque.Load` | src/blemees_peer/persistence.py:43-60 | the deque after the loop is the deque before it with the readable lines of the file pushed in order |
| `Persistence.PersistentDeque.Append` | src/blemees_peer/persistence.py:62-64 | the deque gains the message and loses its oldest one when full, the file is rewritten, and the disks on the way are exactly those at the crash points of the flush, in order |
| `Persistence.PersistentDeque.Drain` | src/blemees_peer/persistence.py:66-71 | returns the whole deque in order, empties it and deletes the file |
| `Persistence.PersistentDeque.History` | src/blemees_peer/persistence.py:77-92 | the page after the cursor, or the trailing messages when there is no cursor or it is unknown |
| `Persistence.PersistentDeque.Flush` | src/blemees_peer/persistence.py:94-104 | the file holds exactly the deque, or is gone when the deque is empty, and the disks on the way are exactly those at the crash points, in order |
| `Persistence.PointsExact` | src/blemees_peer/persistence.py:94-104 | the crash points of a flush are the untouched disk, every number of whole lines in the temporary file with and without a torn one, and the finished disk |
| `Persistence.TraceExact` | src/blemees_peer/persistence.py:94-104 | a disk is among those that a flush passes through iff it is the disk at one of its crash points |
| `Persistence.CrashIsHarmless` | src/blemees_peer/persistence.py:94-104 | the disk at every crash point but the last scans like the one before the flush, and the last one is the flushed disk |
| `Store.StoreConfig.NothingHiddenIff` | src/blemees_peer/persistence.py:129-131 | with memory and disk in step, what memory shows for an address is what its file holds iff no other address with messages shares the file |
| `Store.StoreConfig.AppendSyncedIff` | src/blemees_peer/persistence.py:120-127 | after an append every buffer in memory is still what its file loads to iff no other address in memory shares the file, or the bound is zero |
| `Store.StoreConfig.DrainSyncedIff` | src/blemees_peer/persistence.py:66-71 | after a drain every buffer in memory is still what its file loads to iff no other address with messages shares the file |
| `Store.StoreConfig.ColdStartAnywhere` | src/blemees_peer/persistence.py:133-144 | over any directory, each address gets the first file of the listing whose oldest message is for it, and exactly the files that load to nothing are removed |
| `Store.StoreConfig.ColdStartIff` | src/blemees_peer/persistence.py:133-144 | a cold start leaves memory and disk in step iff every queue file holds the messages of one address under the name of that address |
| `Store.StoreConfig.Restart` | src/blemees_peer/persistence.py:133-144 | a cold start over any directory that scans like the one on disk gives back exactly the nonempty buffers under the same addresses in the same order |
| `Store.StoreConfig.CrashDuringAppend` | src/blemees_peer/persistence.py:94-104 | at every disk that an append passes through, the next cold start finds the queues as before the append or as after it |
| `Store.AddressableStore.constructor` | src/blemees_peer/persistence.py:115-118 | an empty map over the given directory |
| `Store.AddressableStore.Get` | src/blemees_peer/persistence.py:120-127 | the buffer in memory, or the one loaded from its file; the messages of no address change |
| `Store.AddressableStore.HasMessages` | src/blemees_peer/persistence.py:129-131 | true iff the address is in memory with a nonempty buffer |
| `Store.AddressableStore.AppendTo` | src/blemees_peer/persistence.py:120-127 | the queue of the address becomes the last maxlen of itself and the message, on disk as well; every other queue stays |
| `Store.AddressableStore.DrainAt` | src/blemees_peer/persistence.py:66-71 | returns the queue of the address and empties it, on disk as well |
| `Store.AddressableStore.LoadAll` | src/blemees_peer/persistence.py:133-144 | the loop over the listing computes the cold start |
| `StoreRuns.StoreWindow` | src/blemees_peer/persistence.py:29-144 | after any run of appends, reads, drains, restarts and crashes at any point of an append, every queue holds the last maxlen of its messages since its last drain, and memory and disk are in step |
| `StoreRuns.LazyMapSound` | src/blemees_peer/router.py:315-319 | in every state of such a run, what is in memory for an address is what its file loads to, so a test of memory alone never hides a persisted message |
| `StoreRuns.RestartIsReborn` | src/blemees_peer/persistence.py:133-144 | a restart after any such run gives back exactly the nonempty queues |
| `StoreRuns.ColdStartInOrderIff` | src/blemees_peer/persistence.py:133-144 | a cold start is a state from which these runs can start iff the files are well filed and belong to addresses in use |
| `StoreRuns.LoadUnderBounds` | src/blemees_peer/persistence.py:32-60 | the load under another bound is the end of the load under the first iff the other bound is no larger or the file has no more readable lines than the first |
| `StoreRuns.RebootSmaller` | src/blemees_peer/persistence.py:133-144 | a restart under a smaller bound cuts every queue to its last messages and keeps memory and disk in step |
| `StoreRuns.RewrittenHasNoMore` | src/blemees_peer/persistence.py:94-104 | after any run in which the queue of an address has been appended to or drained at any time, its file loads under any other bound to the end of the queue, so nothing older comes back |
| `Connections.Connection.constructor` | src/blemees_peer/connection.py:29-48 | a new connection has no identity, accepts every DM and watches nothing |
| `Connections.Connection.Enqueue` | src/blemees_peer/connection.py:101-104 | an open connection gains the frame at the end of its outbox, a closed one nothing |
| `RouterImpl.Router.Hello` | src/blemees_peer/router.py:56-82 | the mutable tables, queues and outboxes change exactly as the hello of the abstract state, or not at all when the session id is taken |
| `RouterImpl.Router.Goodbye` | src/blemees_peer/router.py:84-123 | refines the abstract goodbye, also when somebody else has taken over the session id, and keeps the indexes when nobody has |
| `RouterImpl.Router.SetAlias` | src/blemees_peer/router.py:129-171 | refines the abstract change of an alias, including both rejections |
| `RouterImpl.Router.SetDmFilter` | src/blemees_peer/router.py:177-186 | refines the abstract change of the filter |
| `RouterImpl.Router.Watch` | src/blemees_peer/router.py:192-220 | refines the abstract start of watching, including the rejection of unknown kinds |
| `RouterImpl.Router.Unwatch` | src/blemees_peer/router.py:222-226 | refines the abstract end of watching |
| `RouterImpl.Router.FanoutToWatchers` | src/blemees_peer/router.py:228-249 | the loop enqueues the wire message for exactly the observing sessions other than the sender |
| `RouterImpl.Router.Send` | src/blemees_peer/router.py:255-298 | refines the abstract send: same recipients, same count, same queueing, same errors |
| `RouterImpl.Router.ResolveDmRecipients` | src/blemees_peer/router.py:300-313 | lists exactly the session ids that the address stands for, each once |
| `RouterImpl.Router.DrainDmQueue` | src/blemees_peer/router.py:315-323 | hands the queue over in order, skipping what the filter rejects, and leaves it empty |
| `RouterImpl.Router.Publish` | src/blemees_peer/router.py:329-361 | refines the abstract publication: ring, subscribers, count, watchers |
| `RouterImpl.Router.Subscribe` | src/blemees_peer/router.py:363-384 | refines the abstract subscription with its replay |
| `RouterImpl.Router.Unsubscribe` | src/blemees_peer/router.py:386-396 | refines the abstract end of a subscription |
| `RouterImpl.Router.History` | src/blemees_peer/router.py:444-466 | the page of the ring or queue in memory, and nothing changes |
| `RouterImpl.Router.Broadcast` | src/blemees_peer/router.py:472-483 | the loop enqueues the frame for every registered session but the excluded one |
| `Traffic.SendMeaning` | src/blemees_peer/router.py:255-298 | an accepted direct message has the address and alias of its sender at that time and exactly the body, reply id, id and time given; each session that it is addressed to, other than the sender, whose filter lets the sender through gets it once, each other watcher with matching filters sees it once, the sender is told the number reached, it is queued under its destination iff that is zero, and nothing else changes |
| `Traffic.PublishMeaning` | src/blemees_peer/router.py:329-361 | an accepted publication likewise, to every other subscriber whatever its filter, always into the ring of its topic and never queued |
| `Traffic.SenderAddressIff` | src/blemees_peer/connection.py:61-64 | the sender address of the messages of a session resolves to that session alone iff its home has no `#` |
| `Traffic.SessionLasts` | src/blemees_peer/server.py:257-266 | a connection that is still open after a run has the session id and home it had |
| `Traffic.ReplyFindsSender` | src/blemees_peer/router.py:300-313 | however long after a message, while its sender is connected from a home without `#`, a reply of anybody else to its sender address is accepted and reaches exactly the sender, if its filter lets it through |
| `Records.RecordsAfter` | src/blemees_peer/server.py:241-288 | an accepted request writes into the record of its own connection exactly the fields it is about, a rejected one nothing, and of all other connections only the outbox can change |
| `Records.SubscribeEffect` | src/blemees_peer/router.py:363-384 | an accepted subscription adds the topic, puts the last messages of the ring into the own outbox, and changes no other connection and no queue or ring |
| `Records.UnsubscribeEffect` | src/blemees_peer/router.py:386-396 | an accepted unsubscription removes the topic and enqueues nothing for anybody |
| `Records.AliasWithoutDrain` | src/blemees_peer/router.py:148-171 | a session that clears its alias or asks for the one it has gets the notification and nothing from a queue |
| `Records.RepliesTo` | src/blemees_peer/router.py:56-470 | the reply to each kind of request |
| `Records.ClosedForGood` | src/blemees_peer/connection.py:101-121 | once the handler of a connection has ended, a write to it has failed, or the daemon has restarted, it is closed for good and nothing is ever enqueued for it again |
| `Effects.ViewsOverlapIff` | src/blemees_peer/router.py:242-249 | a connection gets both notifications of a message iff it is a recipient and a matching watcher |
| `Effects.TopicCheckIff` | src/blemees_peer/router.py:486-493 | the ordered checks of the router pass a topic name iff the address parser reads `topic:` and the name back as that topic, and reject every other name |
| `Effects.PublicationReadable` | src/blemees_peer/router.py:444-466 | a publication is the last message of the history of its address at once |
| `Presence.HelloDelivers` | src/blemees_peer/router.py:56-82 | a newcomer is registered and gets all that waits for its home, then all that waits for its session id, in order and unfiltered, and nothing else |
| `Presence.HelloAnnounced` | src/blemees_peer/router.py:68-77 | every other session gets exactly one `peer.peer_joined`, unregistered connections nothing |
| `Presence.GoodbyeAnnounced` | src/blemees_peer/router.py:113-123 | every other session gets exactly one `peer.peer_left`, and the leaving connection only loses its subscriptions |
| `Presence.AliasAnnounced` | src/blemees_peer/router.py:161-170 | every other session gets exactly one `peer.alias_changed` |
| `Presence.FilterDecides` | src/blemees_peer/router.py:281-296 | a direct message sent after a session has set its filter reaches it iff it is addressed and one of the patterns matches the sender; everybody else and the watchers get what they would have without the change, and the sender is told the number reached |
| `Presence.WatchDecides` | src/blemees_peer/router.py:192-220 | a direct message sent by anybody after a session has begun to watch shows up in its wire traffic iff sender and destination each match a given pattern, missing lists matching everything; who gets the message, what the others see and the count are as without the watch |
| `Presence.WatchDecidesTopics` | src/blemees_peer/router.py:192-220 | the same for a publication after a watch |
| `Presence.UnwatchSilences` | src/blemees_peer/router.py:222-226 | after an unwatch a direct message or publication reaches the session as a message or not at all |
| `Presence.HandedToNextHello` | src/blemees_peer/router.py:56-82 | after any run that leaves the queues of a home and of a session id alone, the next hello delivers the last maxlen of all that was queued for the home, then for the session id, in order and unfiltered, before the response, and both queues are empty |
| `Registry.HelloKeeps` | src/blemees_peer/router.py:59-62 | a hello, accepted or not, keeps the indexes equal to a scan of the connections |
| `Registry.GoodbyeKeeps` | src/blemees_peer/router.py:91-111 | a goodbye keeps the indexes equal to a scan of the connections |
| `Registry.SetAliasKeeps` | src/blemees_peer/router.py:133-155 | an alias request, accepted or rejected, keeps the indexes equal to a scan of the connections |
| `Invariant.RejectedIsNoOp` | src/blemees_peer/router.py:129-146 | a rejected request changes no connection, queue, ring, index or alias lookup |
| `Invariant.HandleShape` | src/blemees_peer/server.py:241-288 | beyond its own identity and filters, a request changes connections only by enqueueing frames |
| `Invariant.RunWell` | src/blemees_peer/server.py:127-169 | the system invariant holds after every run of events |
| `Lifecycle.IndexRefinement` | src/blemees_peer/router.py:45-50 | after every run the four indexes, read as relations, equal a scan over the live connections, without empty entries |
| `Roster.VerdictIs` | src/blemees_peer/server.py:241-288 | for every request of an open connection, whether it is accepted and else the error code are those of a plain table of sessions: hello needs well-formed names and an unused session id, an alias needs the right form and no other holder in the home, a destination, topic or history address the right form, and so on |
| `Roster.StepIs` | src/blemees_peer/server.py:127-169 | every event changes the set of connections, who they are, and the home, alias and topics of each session as that table says |
| `Roster.RunIs` | src/blemees_peer/router.py:45-50 | over every run the registry of the daemon is that table, and the four indexes are exactly its views |
| `Identity.JoinsIff` | src/blemees_peer/server.py:257-266 | a new connection and its hello succeed iff the daemon is not shutting down, both names have the right form, and no live session has the session id; the session then has just that id and home |
| `Identity.AnybodyJoins` | src/blemees_peer/addressing.py:180-182 | from any resolved directory, a minted session id that nobody live has lets a new connection join under its canonical home |
| `Identity.AliasLookup` | src/blemees_peer/router.py:143-155 | after an accepted change of an alias the new one leads to the session, the old one to nobody, and every other alias to where it led; clearing only releases |
| `Identity.ReleasedIsFree` | src/blemees_peer/router.py:148-155 | an alias that a session gives up can be claimed at once by any other session of the home, and messages to it no longer find the session |
| `Identity.UnsubscribeEnds` | src/blemees_peer/router.py:390-395 | after an accepted unsubscription the session is no subscriber of the topic; its other topics and all other subscribers stay |
| `Identity.SubscribeBegins` | src/blemees_peer/router.py:373-384 | after an accepted subscription it is one; its other topics and all other subscribers stay |
| `Lifecycle.AliasUnique` | src/blemees_peer/router.py:143-152 | after every run an alias has at most one holder in a home |
| `Lifecycle.GoneForever` | src/blemees_peer/server.py:166-169 | a connection whose handler has ended stays ended through every run, so that its goodbye runs once |
| `Lifecycle.GoodbyeSparesIff` | src/blemees_peer/router.py:84-91 | a goodbye leaves every other registration in place iff the session id of the connection is unregistered or still its own |
| `Lifecycle.HangUpSparesOthers` | src/blemees_peer/router.py:84-111 | hanging up a connection takes away nobody else's registration |
| `Lifecycle.ClosingOnlyShrinks` | src/blemees_peer/server.py:132-137 | once shutdown has begun the set of unfinished handlers never grows |
| `Lifecycle.ShutdownEmpties` | src/blemees_peer/server.py:108-121 | when every handler that was unfinished at the start of the shutdown has ended, in any order and interleaved with anything, all indexes are empty |
| `Reach.FoundUnderOwnKeysIff` | src/blemees_peer/router.py:300-313 | for every destination string, sending to it finds a session iff it is one of the queue addresses of that session; this holds iff its home has no `#` |
| `Reach.DrainsOnlyOwn` | src/blemees_peer/router.py:65-66 | every queue that a request drains is an address of the session it is drained to, and one that resolves to it when its home has no `#` |
| `Queues.HandleQueue` | src/blemees_peer/router.py:292-319 | what one request does to one queue: drained, or the last maxlen of itself and the message that found no receiver |
| `Queues.QueueWindow` | src/blemees_peer/persistence.py:32-35 | as long as nobody drains it, a queue holds the last maxlen of what it held or got since, in order, over whole runs with restarts |
| `Queues.ClaimDelivers` | src/blemees_peer/router.py:148-171 | claiming an alias delivers its queued messages that pass the filter, then the notification, then the response, and empties the queue |
| `Queues.HandedToNextClaim` | src/blemees_peer/router.py:148-171 | after any run in which nobody asks for the alias and nobody says hello from the home that reads like it, the next claim delivers the last maxlen of all that was queued for it, in order, before the notification and the response, and empties the queue |
| `Queues.AliasQueueDrainedIff` | src/blemees_peer/router.py:65-66 | an accepted request drains the queue of an alias in any home iff it is a changed claim of that alias in that home, or a hello from the home `home#alias` |
| `Queues.SidQueueDrainedIff` | src/blemees_peer/router.py:65-66 | an accepted request drains the queue of a session id in any home iff it is the hello of that session id in that home, or a hello from the home `home#sid` |
| `Queues.HomeQueueDrainedIff` | src/blemees_peer/router.py:65-66 | an accepted request drains the queue of a home iff it is a hello from that home, or drains the direct address that reads like it, which a home without `#` rules out |
| `Queues.UndrainedIff` | src/blemees_peer/router.py:157-159 | over a run, that queue stays undrained iff no event is such a request |
| `Queues.SurvivesOthers` | src/blemees_peer/router.py:92-103 | the queue of an alias survives every run without a request for that alias and without a hello from `home#alias`, whatever else comes, goes or restarts |
| `Queues.NewcomerQueuesSurvive` | src/blemees_peer/router.py:65-66 | the queues of a home and of a session id in it survive every run without a hello from that home or one that reads like it |
| `Queues.HashHomeDrainsAlias` | src/blemees_peer/router.py:65-66 | a hello from the home `/a#b` drains the queue of alias `b` in `/a` |
| `Fates.BlankAccounted` | src/blemees_peer/persistence.py:161-169 | a daemon that starts with empty stores is accounted for by the empty ledger |
| `Fates.FoundAccountedIff` | src/blemees_peer/persistence.py:133-144 | a daemon that starts with what it finds on disk is accounted for iff no id occurs twice across its queues and rings; the ledger then has each found message queued where it is |
| `Fates.ExactlyOneFate` | src/blemees_peer/router.py:279-323 | after every run from a state that is accounted for, each accepted DM has exactly one fate: delivered live, queued, evicted, drained to one session, or filtered; it is in the queue of its fate and no other, and in each outbox exactly as often as its fate says; a live delivery has a nonempty set of receivers and reached some of them |
| `Fates.FateIsFinal` | src/blemees_peer/router.py:279-323 | no run changes a fate other than being queued |
| `Fates.OnlyClaimsFilter` | src/blemees_peer/router.py:319-322 | a message can be dropped by a filter while draining only by a claim of an alias, never by a hello |
| `SelfDelivery.NeverAtOnce` | src/blemees_peer/router.py:281-283 | an accepted send leaves the outbox of its sender as it was |
| `SelfDelivery.ClaimHandsOverIff` | src/blemees_peer/router.py:315-323 | a changed claim delivers a message, the own ones of the session included, iff it waits in the queue of the alias and the filter accepts it |
| `SelfDelivery.OwnMessageThroughClaim` | src/blemees_peer/router.py:315-323 | a session that sends to an alias that is free in its own home and then claims it gets its own message, before the notification and the response |
| `Topics.RingWindow` | src/blemees_peer/router.py:346-347 | the ring of a topic is always the last maxlen of everything ever published to it, across restarts |
| `Topics.RunLabelled` | src/blemees_peer/persistence.py:143-144 | in every state that a run reaches, every message in a queue or ring is addressed to it |
| `Subscribers.SubscriberView` | src/blemees_peer/router.py:346-382 | from its subscription on, an open subscriber sees the last replay messages of the ring, then every later publication of the others, in publication order, and nothing else on that topic |
| `Subscribers.ViewLaw` | src/blemees_peer/router.py:346-395 | over any run whatsoever, what a connection sees of a topic grows by exactly its replays and the publications of others while it is subscribed and open, in order |
| `Subscribers.SilentUntilAsked` | src/blemees_peer/router.py:346-395 | a connection that does not subscribe to a topic sees nothing of it, over any run |
| `Subscribers.UnsubscribedForGood` | src/blemees_peer/router.py:390-395 | after an accepted unsubscription nothing published by anybody is added, over any run, until the connection subscribes to the topic again |
| `Subscribers.ViewWithoutRepeats` | src/blemees_peer/router.py:346-382 | when publications have distinct ids, replay and later publications together have no repeats |
| `Subscribers.ViewWithoutGaps` | src/blemees_peer/router.py:350-352 | a subscriber that publishes nothing to the topic misses nothing: only the own publications are left out |
| `Paging.PageFollowsCursor` | src/blemees_peer/persistence.py:77-92 | a page continues exactly after a cursor that is still in the buffer |
| `Paging.GapFreeIff` | src/blemees_peer/persistence.py:88-92 | a page is free of gaps and repeats iff the cursor is retained, or the messages after it are the whole buffer and fit on the page |
| `Paging.FetchedWithoutGap` | src/blemees_peer/router.py:444-466 | a session that keeps up and pages through the history of a topic with one request per turn gets every publication after its cursor once and in order, however the log grows and whatever happens between its requests |
| `Paging.CollectsEverything` | src/blemees_peer/persistence.py:77-92 | on a log that has stopped growing, n pages bring n times the limit, or all that is left |
| `Paging.HistoryReplies` | src/blemees_peer/router.py:444-466 | the reply to a history request is what follows the first message with the cursor id, up to the limit, and the trailing messages when there is no such message; of the ring for a topic, of the queue for a home address |
| `Paging.HistoryContinues` | src/blemees_peer/router.py:444-466 | the reply to a history request of a topic after any part of a run continues exactly after its cursor |
| `ServerImpl.ValidHub` | src/blemees_peer/persistence.py:29-35 | every intact router has bounded and well labelled queues and rings, which is what the theorems about runs ask of their start |
| `ServerImpl.LoadStore` | src/blemees_peer/persistence.py:133-144 | a store built over any directory; it is in step with its disk iff the directory was well filed, and then holds for each address what its own file loads to |
| `ServerImpl.Boot` | src/blemees_peer/server.py:77-81 | the daemon starts with nobody connected and with the queues and rings that a cold start reads from disk, bounded and well labelled |
| `ServerImpl.RestartedIsReborn` | src/blemees_peer/persistence.py:133-144 | a cold start over whatever directories scan like those an intact daemon leaves behind reads exactly its nonempty queues and rings |
| `ServerImpl.Restart` | src/blemees_peer/server.py:77-81 | a new daemon over such directories is the abstract restart of the old one: no sessions, exactly the nonempty queues and rings |
| `ServerImpl.Server.Greet` | src/blemees_peer/server.py:257-266 | the guards of `peer.hello` and then the hello |
| `ServerImpl.Server.Dispatch` | src/blemees_peer/server.py:185-221 | the concrete state makes exactly the step of the abstract daemon for a dispatched request, response included |
| `ServerImpl.Server.Accept` | src/blemees_peer/server.py:127-146 | a new handler, unless shutdown has begun |
| `ServerImpl.Server.Finish` | src/blemees_peer/server.py:166-169 | the end of a handler is exactly one goodbye, one close, and one handler less |
| `ServerImpl.Server.WriteFails` | src/blemees_peer/connection.py:116-121 | a failed write closes the connection and changes nothing else |
| `ServerImpl.Server.Shutdown` | src/blemees_peer/server.py:96-125 | whatever part of the handlers each round ends, and whatever writes fail and late connections are turned away in between, the loop ends; every unfinished handler ended exactly once; session table, homes, alias lookup and subscriptions are empty |
| `Client.PeerClient.StartCall` | src/blemees_peer/client.py:91-94 | a new id, pending |
| `Client.PeerClient.Receive` | src/blemees_peer/client.py:119-135 | a response completes the pending call with its id unless its caller gave up, an unknown id is ignored, anything else is a notification |
| `Responses.HandleAnswers` | src/blemees_peer/server.py:210-221 | no request puts a response into any outbox before the dispatcher answers it |
| `Responses.DispatchOwn` | src/blemees_peer/server.py:210-221 | a dispatched request with an id adds exactly one response to its own outbox, with its own outcome, after everything it caused there |
| `Correlation.PendingIsPipeline` | src/blemees_peer/client.py:88-99 | for every interleaving the pending calls are exactly those in flight, being dispatched, in the outbox or on the wire, each in one place and in the order of the calls |
| `Correlation.OwnOutcome` | src/blemees_peer/client.py:119-135 | every outcome handed to a caller is the one computed for its own request; responses are in request order; notifications arrive in order |
| `Correlation.HandedOutIff` | src/blemees_peer/client.py:119-135 | a caller has its outcome iff the response to its call has been read and it had not given up before; the outcome is that of its own request |
| `Correlation.CompletesOnce` | src/blemees_peer/client.py:119-133 | an outcome once handed out never changes and its call is never pending again |
| `Inbox.Sidecar.Forward` | src/blemees_peer/mcp_server.py:226-227 | the inbox gains the note, losing its oldest when full, and the event is set |
| `Inbox.Sidecar.ToolInbox` | src/blemees_peer/mcp_server.py:423-430 | the loop returns the oldest notes up to the limit and clears the event iff nothing is left |
| `Inbox.Sidecar.AwaitStart` | src/blemees_peer/mcp_server.py:436-441 | the oldest note, or none and the event cleared |
| `Inbox.Sidecar.AwaitEnd` | src/blemees_peer/mcp_server.py:449-454 | the oldest note, or none when the inbox is empty on waking |
| `Inbox.AlwaysSane` | src/blemees_peer/mcp_server.py:214-454 | under any interleaving: the event is set iff the inbox is nonempty, nobody sleeps on a nonempty inbox, arrivals are removals followed by the inbox, each call returned what it took, and evictions only behind a full inbox |
| `Inbox.OnePlaceEach` | src/blemees_peer/mcp_server.py:214-454 | each note that arrived is in the inbox, in the result of one call, or was evicted behind a thousand newer ones |
| `Inbox.NoLostWakeup` | src/blemees_peer/mcp_server.py:441-453 | whenever there is something to take, an unfinished call that gets to run first returns the oldest note |
| `Inbox.LosesOnlyARace` | src/blemees_peer/mcp_server.py:449-454 | the next step of whatever kind makes an unfinished call report a timeout iff its timer fires, even after it was woken, or it was woken and resumes on an emptied inbox; another call then took the newest note |
| `Inbox.OneNoteOneWinner` | src/blemees_peer/mcp_server.py:441-454 | two sleeping calls both wake for one note; the first takes it and the second reports a timeout |
| `Inbox.TwoCanSleep` | src/blemees_peer/mcp_server.py:433-446 | such a state is reachable |
| `Inbox.ResultIsFinal` | src/blemees_peer/mcp_server.py:423-454 | a finished call keeps its result |

## Left out

- Sockets, JSON text, byte limits, signals, file permissions and logging: requests are decoded values, or refused with a code.
- Task scheduling inside the runtime: tasks are the states of a step machine, and any enabled step may come next.
- The read loop of a connection and the write loop of its outbox as methods: they wait for the network, so they are the moves `Fetch`, `Serve` and `Write` of `Correlation` and the events of `Daemon`.
- `realpath`, `expanduser`, XDG directories and the directories of the state: paths are taken resolved.
- `fnmatch`, `sha256`, random ids and clocks: see above for what is asked of them.
- Two addresses in use with the same hash share a file; the model says exactly which operation first makes memory and disk disagree, and nothing about what follows.
- `list_peers`, `list_topics`, `clear` and message formatting: they only read, or are not used by the router.
- The order in which a delivery loop serves different connections: a set has no order, and different outboxes are independent.
- The tool tables, resources and startup alias of the sidecar, and the command lines.
- Closing the client: it fails the calls that are still pending; the model follows the connection while it is open.
- fsync and power loss: a crash stops the process between two writes, not the disk.
- Wrong JSON types of parameters (a number for a topic, a boolean for a limit): they are among the refused requests.
- Persistence.LoadIsWindow: leaves out lines that are not UTF-8 and records whose timestamp is an integer too large for a float, because they raise out of `load` instead of being skipped.
- Persistence.PersistentDeque.Load: leaves out the same lines.
- StoreRuns.StoreWindow: assumes that the addresses in use have different hashes, because two that share one overwrite each other's file; `Store.StoreConfig.AppendSyncedIff` and `DrainSyncedIff` say exactly which append or drain makes a buffer and its file disagree: one beside another buffer in memory, and one beside another buffer with messages.
- StoreRuns.LazyMapSound: assumes the same of whole runs; for one state `Store.StoreConfig.NothingHiddenIff` has the exact condition.
- StoreRuns.RestartIsReborn: assumes the same of whole runs, because colliding queues overwrite each other's file.
- RouterImpl.Router.Send: asks that no other address in memory share the file of the destination, because the append would overwrite the other queue on disk.
- RouterImpl.Router.Publish: asks the same of the topic.
- RouterImpl.Router.Subscribe: asks the same of the topic, whose ring it may load.
- ServerImpl.Server.Dispatch: asks the same of the address in the request.
- ServerImpl.Restart: asks that both stores use one hash function, as the program does.
- ServerImpl.Boot: asks for well-filed directories, because a misfiled file puts a queue in memory out of step with its disk; `ServerImpl.LoadStore` and `Store.StoreConfig.ColdStartAnywhere` say what is loaded from any directory.
- Subscribers.SubscriberView: covers a span without a second subscription of the same connection to the topic, because that replays the ring again; `Subscribers.ViewLaw` covers every run.
- Correlation.PendingIsPipeline: covers a connection that stays open, because a closed outbox drops responses.
