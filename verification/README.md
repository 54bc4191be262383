# Verification of the xDS client

A Dafny model of the ADS client of `xds_client` and proofs about it. The client carries many
resource types over one gRPC stream: it subscribes, answers responses, follows the sets that
its watchers ask for, and starts over when the stream is replaced.

| file | what it holds |
|---|---|
| `ResourceNames.dfy` | the order of `std::set<std::string>` and the de-duplicated name list of a request |
| `MuxModel.dfy` | the multiplexer as a state machine: one transition per public call |
| `MuxInvariant.dfy` | the invariant of every reachable state and the writes of each call |
| `MuxProduct.dfy` | the multiplexer is a product of independent single-type clients |
| `MuxHistory.dfy`, `MuxWrites.dfy` | watch lists, nonces and versions read off the history of calls |
| `MuxConvergence.dfy` | convergence of the resource names; what an answer acknowledges |
| `MuxWire.dfy` | order on the wire, the node, subscription bookkeeping, shutdown |
| `AdsClient.dfy` | `AdsClient`, `ApiState`, `Watcher` and their shared lists as objects, each call proved to take its transition of `MuxModel` |
| `ClientGuarantees.dfy` | the run theorems stated on a client object |
| `ReentrantModel.dfy` | what a drain comes to when the stream can be read in the middle of a send: a flat loop, write by write |
| `ReentrantCalls.dfy` | the public calls in that setting: empty queue and safe nonces, whatever is read |
| `ReentrantRuns.dfy` | as long as no reply is provoked, such calls stay on a legal run of `MuxModel` |
| `Reentrant.dfy` | the client that nests send, read, note, queue and drain as the source does |
| `DescriptorLoader.dfy` | recursive loading of file descriptors into a pool |
| `Reactor.dfy` | the callback-driven `Chatter` |
| `AdsManager.dfy` | the anylink handshake and ACK/NACK on one request |
| `ChatLoop.dfy` | the plain read-and-acknowledge loop |

How the pieces fit. A run is a sequence of events: stream establishment (which may fail),
`addWatch`, `update` and destruction of a watcher, arrival of a response, `shutdown`. `Run`
gives the state after a run, with every write ever made in its log, each with the number of
its stream. `Legal` is what callers owe: a watcher is not created twice, only a live watcher
is updated or destroyed, and `shutdown` is called on a stream. The objects of `AdsClient.dfy`
carry a ghost history of such events; every public method extends it by its event and ends in
the state that `Run` gives, so every theorem about runs is a theorem about the objects; `Connect`
and `Session` are programs that build a client and use one.

What the code does where one might expect otherwise; the model follows the code:

- `schema/proto/xds.proto:65-72` says that an accepted response is answered with its own
  version. A response that finds a watcher never advances the version, so its answer repeats
  the version held before. `AnswerIsAckIff` says over every run exactly when the two agree,
  `NeverAcknowledged` for which runs they never do, and `WatchedResponseIsRejected` shows one.
- The node is sent at most once in the life of a client, and not at all if the Cluster type is
  watched before the first stream is opened (`Wire`). No later stream repeats it
  (`NoNodeOnLaterStreams`, and `SecondStreamLacksNode` for a run that has one).
- The Cluster type is listed from the start and once more when it is subscribed, so it is
  written twice whenever a stream opens (`SubscriptionBookkeeping`, `EstablishmentWrites`).
- When a response that provokes a reply is read inside a send, the reply's own drain sends the
  front item again and empties the queue; the interrupted drain then pops an empty queue.
  `ReentrantClient` proves that this happens if and only if some reply is provoked, and that the
  nested calls come to one flat loop; `PopOfEmptyQueue` is a call from a reachable state in which
  it happens.
- Loading a file descriptor does not end when a cycle of missing files is ahead, and ends in
  every other case (`LoadEndsIff`).

## Model

| member | source | states |
|---|---|---|
| ResourceNames.AppendUnseen | src/ads_protocol_client/AdsClient.cpp:120-125 | the inner loop appends exactly the names of the set not seen before, in the order of the dictionary |
| ResourceNames.CollectNames | src/ads_protocol_client/AdsClient.cpp:117-126 | both loops list the union of the sets, each name once, set by set and within a set in the order of the dictionary |
| ResourceNames.NamesMeaning | src/ads_protocol_client/AdsClient.cpp:115-126 | the list has no duplicates, is the union of the watched sets, and is ordered by first occurrence: by the first set that has the name, then by the dictionary |
| ResourceNames.LeqMeaning | src/ads_protocol_client/Watcher.h:46-53 | the order of `std::set<std::string>`: a prefix, or smaller at the first difference |
| ResourceNames.FirstOccurrenceOrderUnique | src/ads_protocol_client/AdsClient.cpp:115-126 | those facts determine the list |
| ResourceNames.EmptySetIsSilent | src/ads_protocol_client/Watcher.h:27-35 | a watcher of nothing contributes nothing, wherever it stands |
| MuxModel.QueueKeepsMeasure | src/ads_protocol_client/AdsClient.cpp:17-19 | the loop over the growing subscription list ends: the list grows only when the number of listed unsubscribed types drops |
| MuxModel.NamesOfMeaning | src/ads_protocol_client/AdsClient.cpp:117-126 | the names for a watch list: what its watchers watch, once each, the front of the list first |
| MuxInvariant.QueueIsEmit | src/ads_protocol_client/AdsClient.cpp:83-149 | after the first request of a stream, queueing a type is exactly one write of its current request without a node, or nothing when there is no stream or after shutdown |
| MuxInvariant.EstablishmentTrace | src/ads_protocol_client/AdsClient.cpp:10-23 | opening a stream clears the nonces, subscribes the Cluster type, and writes one current request for each listed type |
| MuxInvariant.EstablishAfterShutdown | src/ads_protocol_client/AdsClient.cpp:108-111 | after shutdown, opening a stream writes nothing |
| MuxInvariant.Reachable | src/ads_protocol_client/AdsClient.cpp:10-296 | every reachable state, shut down or not: empty queue, nothing paused or owed a node, bookkeeping, every known type subscribed under its own URL, distinct live watchers |
| MuxProduct.PartStep | src/ads_protocol_client/AdsClient.cpp:83-258 | each call changes the part of its own type as the single-type client would and no other part |
| MuxProduct.Product | src/ads_protocol_client/AdsClient.cpp:83-258 | for every run and type, the writes for that type are those of a single-type client fed that type's events |
| MuxProduct.OtherTypesAreInvisible | src/ads_protocol_client/AdsClient.cpp:83-258 | deleting all other types' events from a run leaves it legal and changes nothing for the type |
| MuxProduct.EventsForMeaning | src/ads_protocol_client/AdsClient.cpp:83-258 | what is kept of a run for a type: the stream and shutdown events and its own, each as often |
| MuxHistory.WatchListHistory | src/ads_protocol_client/Watcher.h:14-44 | in every reachable state the list holds the watchers created and not destroyed, once each, with the sets last given, most recently created or updated first |
| MuxHistory.LiveMeaning | src/ads_protocol_client/Watcher.h:14-35 | a watcher lives if and only if it was created and not destroyed since |
| MuxHistory.LastNonceMeaning | src/ads_protocol_client/AdsClient.cpp:187-255 | the nonce of a type is that of the last response handled since the stream was opened |
| MuxHistory.NoNonceYet | src/ads_protocol_client/AdsClient.cpp:73-80 | before any response is handled on a stream the nonce is empty |
| MuxHistory.LastVersionMeaning | src/ads_protocol_client/AdsClient.cpp:185-203 | the version of a type is that of the last response that found no watcher and brought no resource |
| MuxWrites.StateFromHistory | src/ads_protocol_client/AdsClient.cpp:160-203 | stream number, known types, nonce and version as functions of the history |
| MuxWrites.FlagsFromHistory | src/ads_protocol_client/AdsClient.cpp:10-23 | a client has a stream if and only if one was opened and no attempt failed since, and is shut down if and only if `shutdown` was called |
| MuxWrites.EveryWrite | src/ads_protocol_client/AdsClient.cpp:73-149 | every write carries the nonce of the last response handled on its stream, the version of the last response that found no watcher and no resource on any stream, and the names of the watch list at that moment, front of the list first |
| MuxWrites.NonceSafety | src/ads_protocol_client/AdsClient.cpp:73-80 | a nonce on the wire is empty or was received on the same stream |
| MuxConvergence.SilentLeave | src/ads_protocol_client/Watcher.h:27-35 | destroying a watcher of nothing without a write leaves the names as they were |
| MuxConvergence.Convergence | src/ads_protocol_client/AdsClient.cpp:266-296 | on a live stream every subscribed type has been written, and its last write names exactly what its live watchers watch, each once, those of the watcher touched last first and within one set in the order of the dictionary |
| MuxConvergence.EveryWriteNames | src/ads_protocol_client/Watcher.h:27-44 | every write of every run, not only the last, names exactly what the live watchers watched then, each once and in that order; the first of two writes of an update what the other watchers watched |
| MuxConvergence.AnswerTrace | src/ads_protocol_client/AdsClient.cpp:185-257 | a response is answered by one write if its type is known, the stream is live and it finds a watcher or brings a resource, and else by none; the answer has the new nonce and the version held before; only an unwatched empty response sets the version |
| MuxConvergence.AnswerCarriesLastVersion | src/ads_protocol_client/AdsClient.cpp:185-257 | over every run, the answer to a response carries its nonce and the version of the last accepted response before it |
| MuxConvergence.AnswerIsAckIff | schema/proto/xds.proto:65-72 | over every run, the answer repeats the response's version if and only if the last response for the type that found no watcher and no resource had that version (the empty one if there was none) |
| MuxConvergence.NeverAcknowledged | src/ads_protocol_client/AdsClient.cpp:229-257 | as long as no response has found its type unwatched and come empty, no answer acknowledges a non-empty version |
| MuxConvergence.WatchedResponseIsRejected | src/ads_protocol_client/AdsClient.cpp:254-257 | a run in which a watched response is answered with the empty version |
| MuxWire.Wire | src/ads_protocol_client/AdsClient.cpp:113-145 | over every run: each write is for its own subscribed type, streams are numbered from one without going back, the first write of a stream is for the Cluster type, and the node goes with the very first write or with none, decided by the history |
| MuxWire.NoNodeOnLaterStreams | src/ads_protocol_client/AdsClient.cpp:128-141 | no write on any stream but the first carries the node |
| MuxWire.SecondStreamLacksNode | src/ads_protocol_client/AdsClient.cpp:128-141 | a run whose second stream opens with a write without the node |
| MuxWire.SubscriptionBookkeeping | src/ads_protocol_client/AdsClient.cpp:128-136 | in every reachable state a type is subscribed if and only if the history makes it known, and is listed once for that, the Cluster type once more; the Cluster type comes first; the queue is empty |
| MuxWire.SubscriptionOrder | src/ads_protocol_client/AdsClient.cpp:282-287 | the subscription list is the Cluster type, then every known type once, in the order in which the calls made them known |
| MuxWire.OpeningOrder | src/ads_protocol_client/AdsClient.cpp:17-19 | over every run, a stream opens with the Cluster type and then the known types in the order in which the calls made them known |
| MuxWire.JoinsByStreamMeaning | src/ads_protocol_client/AdsClient.cpp:128-136 | the node is sent if and only if some stream was opened while the Cluster type was not known |
| MuxWire.FetchedFromHistory | src/ads_protocol_client/AdsClient.cpp:254-254 | data counts as fetched once a handled response has found a watcher |
| MuxWire.SilentAfterShutdown | src/ads_protocol_client/AdsClient.h:52-55 | nothing is written after shutdown, whatever is called |
| MuxWire.DrainTrace | src/ads_protocol_client/AdsClient.cpp:100-106 | draining any queue writes its items one for one, first in first out |
| MuxWire.EstablishmentWrites | src/ads_protocol_client/AdsClient.cpp:10-23 | the writes that open a stream are the final subscription list in order, Cluster first |
| MuxWire.UpdateTrace | src/ads_protocol_client/Watcher.h:37-44 | an update writes what the others watch, if the watcher watched anything, and then the new set before what the others watch, in the order of the list |
| MuxWire.AddTrace | src/ads_protocol_client/AdsClient.cpp:266-296 | adding a watcher on a live stream is one write, naming its set before what the others watch |
| MuxWire.DestroyTrace | src/ads_protocol_client/Watcher.h:27-35 | destroying a watcher on a live stream is one write naming what the others watch, if it watched anything |
| AdsClientObjects.GatherNames | src/ads_protocol_client/AdsClient.cpp:117-126 | the names for the watcher objects of a list: what they watch, once each, the front of the list first and within a set in the order of the dictionary |
| AdsClientObjects.AdsClient.constructor | src/ads_protocol_client/AdsClient.h:33-39 | a new client is in the initial state with an empty history, no watchers, no type states and no lists |
| AdsClientObjects.AdsClient.ApiStateFor | src/ads_protocol_client/AdsClient.cpp:35-46 | finds or creates the state of a type; existing states stay the same objects |
| AdsClientObjects.AdsClient.ClearNonce | src/ads_protocol_client/AdsClient.cpp:73-80 | clears every nonce and nothing else |
| AdsClientObjects.AdsClient.QueueDiscoveryRequest | src/ads_protocol_client/AdsClient.cpp:83-98 | takes the step of the model, with its three outcomes |
| AdsClientObjects.AdsClient.DrainRequests | src/ads_protocol_client/AdsClient.cpp:100-106 | takes the step of the model |
| AdsClientObjects.AdsClient.ComposeRequest | src/ads_protocol_client/AdsClient.cpp:128-141 | when the node is copied, kept or cleared, and when the type joins the subscriptions |
| AdsClientObjects.AdsClient.SendDiscoveryRequest | src/ads_protocol_client/AdsClient.cpp:108-145 | takes the step of the model |
| AdsClientObjects.AdsClient.OnStreamEstablished | src/ads_protocol_client/AdsClient.cpp:10-23 | takes the step of the model for a stream that opens or fails to, and ends although the list may grow |
| AdsClientObjects.AdsClient.OnDiscoveryResponse | src/ads_protocol_client/AdsClient.cpp:160-258 | takes the step of the model |
| AdsClientObjects.AdsClient.AddWatch | src/ads_protocol_client/AdsClient.cpp:266-296 | takes the step of the model with a watcher that is new and legal; a type not subscribed yet is appended to the subscriptions |
| AdsClientObjects.AdsClient.Shutdown | src/ads_protocol_client/AdsClient.h:52-55 | takes the step of the model |
| AdsClientObjects.Watcher.constructor | src/ads_protocol_client/Watcher.h:14-25 | the new watcher refers to the one list of its type and stands at its front |
| AdsClientObjects.Watcher.UpdateResources | src/ads_protocol_client/Watcher.h:56-91 | replaces the set and links the watcher at the front, its iterator on its own entry |
| AdsClientObjects.Watcher.Unlink | src/ads_protocol_client/Watcher.h:28-28 | erasing through the iterator removes exactly this watcher from the list |
| AdsClientObjects.Watcher.Destroy | src/ads_protocol_client/Watcher.h:27-35 | takes the step of the model and leaves every other watcher linked |
| AdsClientObjects.Watcher.Update | src/ads_protocol_client/Watcher.h:37-44 | takes the step of the model and keeps every watcher linked |
| ClientGuarantees.Converges | src/ads_protocol_client/AdsClient.cpp:108-126 | on any client object with a live stream, the last request for a subscribed type names exactly what its live watcher objects watch |
| ClientGuarantees.ListedOnce | src/ads_protocol_client/Watcher.h:46-53 | a live watcher has one entry in the list of its type, its iterator denotes it, and its list reference is the client's |
| ClientGuarantees.NoncesAreSafe | src/ads_protocol_client/AdsClient.cpp:73-80 | nonce safety for the writes of a client object |
| ClientGuarantees.WireIsWellFormed | src/ads_protocol_client/AdsClient.cpp:128-145 | type, opening write and node of the writes of a client object |
| ClientGuarantees.SubscribedInOrder | src/ads_protocol_client/AdsClient.cpp:278-287 | the subscription list of a client object is in the order in which its calls made the types known |
| ClientGuarantees.Connect | src/ads_protocol_client/AdsClient.cpp:10-23 | a program can build and connect a client, whose last request for the Cluster type then names nothing |
| ClientGuarantees.Session | src/ads_protocol_client/AdsClient.cpp:266-296 | connect, watch, update through the objects: for any type and sets the server was last asked for exactly the new set |
| Reentrant.ReentrantClient.SendDiscoveryRequest | src/ads_protocol_client/AdsClient.cpp:108-158 | a send that reads: nothing after shutdown; otherwise the exact state after the write and all that is read, and whether a nested pop met an empty queue |
| Reentrant.ReentrantClient.DrainRequests | src/ads_protocol_client/AdsClient.cpp:100-106 | the nested drains leave exactly the state of the flat loop; every pop finds an item if and only if no reply is provoked; ends by inbox length, then queue length; after shutdown the queue is only dropped; with an empty inbox it is the drain of `MuxModel` |
| Reentrant.ReentrantClient.QueueDiscoveryRequest | src/ads_protocol_client/AdsClient.cpp:83-98 | for every client: dropped without a stream, pending when paused, otherwise drained; on a live stream from an empty queue exactly 2k+1 writes for k replies provoked |
| Reentrant.ReentrantClient.OnDiscoveryResponse | src/ads_protocol_client/AdsClient.cpp:160-258 | for every client: a response is noted and, if it provokes a reply on a live stream, drained with the interrupted queue; otherwise it takes the step of `MuxModel` and reads nothing |
| Reentrant.ReentrantClient.OnStreamEstablished | src/ads_protocol_client/AdsClient.cpp:10-23 | reading while a stream opens: the queue ends empty and nonces stay on their stream in every case; without a reply provoked it comes to opening the stream and receiving afterwards, nonces and versions of the later writes aside |
| Reentrant.ReentrantClient.AddWatch | src/ads_protocol_client/AdsClient.cpp:266-296 | the same for adding a watch: a legal run that adds it and receives what was read |
| Reentrant.ReentrantClient.Destroy | src/ads_protocol_client/Watcher.h:27-35 | the same for destroying a watcher |
| Reentrant.ReentrantClient.Update | src/ads_protocol_client/Watcher.h:37-44 | the same for an update, whose reading falls between the watcher's leaving and its entering again |
| Reentrant.ReentrantClient.Receive | src/ads_protocol_client/AdsClient.cpp:160-258 | the same for a response handed to the client |
| ReentrantCalls.UpdatedIsGood | src/ads_protocol_client/Watcher.h:37-44 | whatever replies are provoked, an update leaves the queue empty, and every nonce written or held came on the stream in question |
| ReentrantCalls.EstablishedIsGood | src/ads_protocol_client/AdsClient.cpp:10-23 | the same for opening a stream |
| ReentrantCalls.QueuedIsGood | src/ads_protocol_client/AdsClient.cpp:83-158 | the same for queueing a request from any state with safe nonces |
| ReentrantRuns.AlikeStep | src/ads_protocol_client/AdsClient.cpp:10-296 | states that differ only in the nonces and versions they have written stay so through every call |
| ReentrantRuns.EstablishedIsRun | src/ads_protocol_client/AdsClient.cpp:10-23 | reading right after the first write of a stream or after the last makes no other difference |
| ReentrantRuns.UpdatedIsRun | src/ads_protocol_client/Watcher.h:37-44 | an update that reads is a legal run: leave, receive, enter |
| ReentrantRuns.ConvergesWhileReading | src/ads_protocol_client/AdsClient.cpp:108-158 | convergence of the names for a client that reads in the middle of its sends |
| ReentrantRuns.WireWhileReading | src/ads_protocol_client/AdsClient.cpp:113-145 | type, opening write and node for such a client |
| ReentrantModel.NestedIsFlat | src/ads_protocol_client/AdsClient.cpp:100-158 | send, read, note, queue and drain nested in one another come to one flat loop: front item, again after each provoking response, then the rest of the queue and the replies |
| ReentrantModel.FlatIsDrain | src/ads_protocol_client/AdsClient.cpp:100-106 | with nothing to read the flat loop is the drain of `MuxModel` |
| ReentrantModel.DrainWrites | src/ads_protocol_client/AdsClient.cpp:108-156 | the writes of a drain one by one: the front item k+1 times, the rest of the queue, the k replies, each with its type's names and the nonce and version last read before it |
| ReentrantModel.DrainOrder | src/ads_protocol_client/AdsClient.cpp:100-156 | the j-th write of a drain: its type, and the last nonce read before it |
| ReentrantModel.ProvokedMeaning | src/ads_protocol_client/AdsClient.cpp:185-257 | which responses provoke a reply |
| ReentrantModel.LastNonceInMeaning | src/ads_protocol_client/AdsClient.cpp:187-255 | the last response for a type among those read gives its nonce |
| ReentrantModel.LastVersionInMeaning | src/ads_protocol_client/AdsClient.cpp:194-194 | the last empty response for an unwatched type among those read gives its version |
| ReentrantModel.RepeatsAt | src/ads_protocol_client/AdsClient.cpp:153-156 | before the j-th repetition of the front item exactly the responses up to the j-th provoking one have been read |
| Reentrant.PopOfEmptyQueue | src/ads_protocol_client/AdsClient.cpp:100-106 | a new client that opens one stream and pops an empty queue |
| DescriptorLoader.DescriptorPool.BuildFile | src/ads_protocol_client/protofile/file_descriptor_info.cc:21-25 | a file is built if and only if it is missing and its imports are there |
| DescriptorLoader.StackIsShort | src/ads_protocol_client/protofile/file_descriptor_info.cc:17-19 | the chain of files being loaded cannot outgrow the graph |
| DescriptorLoader.Load | src/ads_protocol_client/protofile/file_descriptor_info.cc:11-26 | the recursion ends; the pool becomes the old pool and everything reachable, stays closed, and each missing file is built once, after all its dependencies; what earlier dependencies need is built before what only later ones need |
| DescriptorLoader.LoadFileDescriptors | src/ads_protocol_client/protofile/file_descriptor_info.cc:11-26 | the same for the outermost call, whenever no cycle of missing files is ahead; nesting as deep as there are files is enough |
| DescriptorLoader.LoadTwice | src/ads_protocol_client/protofile/file_descriptor_info.cc:13-15 | a second load changes nothing, whenever the first ends |
| DescriptorLoader.AcyclicIsNeverBlocked | src/ads_protocol_client/protofile/file_descriptor_info.cc:17-19 | an acyclic graph has no such cycle from any pool |
| DescriptorLoader.BlockedCannotBeLoaded | src/ads_protocol_client/protofile/file_descriptor_info.cc:17-25 | with such a cycle ahead no order of builds loads the file |
| DescriptorLoader.LoadEndsIff | src/ads_protocol_client/protofile/file_descriptor_info.cc:11-26 | from a closed pool the recursion ends within some depth if and only if no cycle of missing files is ahead |
| DescriptorLoader.StuckIsNeverBuilt | src/ads_protocol_client/protofile/file_descriptor_info.cc:17-25 | a load that ends has built none of a set of missing files that depend on one another |
| Reactor.Chatter.constructor | src/asnyc_ads/AsyncAdsClient.cpp:11-27 | for any vector of requests the first write (or the close) and the first read are started |
| Reactor.Chatter.NextWrite | src/asnyc_ads/AsyncAdsClient.cpp:59-78 | starts the next request, or closes the writer after the last has completed |
| Reactor.Chatter.OnWriteDone | src/asnyc_ads/AsyncAdsClient.cpp:29-29 | keeps the discipline of the whole log: in order, once each, one at a time |
| Reactor.Chatter.OnReadDone | src/asnyc_ads/AsyncAdsClient.cpp:30-45 | one read at a time and none after a failed one |
| Reactor.Chatter.OnDone | src/asnyc_ads/AsyncAdsClient.cpp:46-51 | finishes once, with nothing outstanding |
| Reactor.Chatter.Await | src/asnyc_ads/AsyncAdsClient.cpp:52-56 | a status comes only after the finish and is that of the finish; by then every request was written, the writer closed and the reader ended |
| Reactor.StartedInOrder | src/asnyc_ads/AsyncAdsClient.cpp:59-78 | the requests are started in order, each once |
| Reactor.OneAtATime | src/asnyc_ads/AsyncAdsClient.cpp:29-45 | between two writes, and between two reads, the first is completed |
| Reactor.ClosedForGood | src/asnyc_ads/AsyncAdsClient.cpp:59-78 | the close comes once, after every request has been written and completed, and nothing is written after it |
| Reactor.NothingAfterTheEnd | src/asnyc_ads/AsyncAdsClient.cpp:30-51 | no read is started after a failed one, nothing after the finish |
| AdsManagerModel.AnswerHistory | src/ads_protocol_client/anylink/grpc/manager/AdsManager.cpp:136-162 | every write carries the nonce it answers and the version of the last ACK; nothing else changes |
| AdsManagerModel.AdsManager.AnswerAll | src/ads_protocol_client/anylink/grpc/manager/AdsManager.cpp:136-162 | any sequence of `sendACK` and `sendNACK` on one request writes just that history on the manager's stream |
| AdsManagerModel.AdsManager.AddSubscription | src/ads_protocol_client/anylink/grpc/manager/AdsManager.cpp:85-90 | the first registration of a type stays |
| AdsManagerModel.AdsManager.InitSubscribe | src/ads_protocol_client/anylink/grpc/manager/AdsManager.cpp:104-120 | writes the subscription's request, one queue operation at a time |
| AdsManagerModel.AdsManager.ReceiveADS | src/ads_protocol_client/anylink/grpc/manager/AdsManager.cpp:122-134 | the response is the one read, or empty after a failed read; a successful one goes to the subscription registered for its type; an unregistered type is the null call |
| AdsManagerModel.AdsManager.SendACK | src/ads_protocol_client/anylink/grpc/manager/AdsManager.cpp:136-149 | writes the request with the response's version and nonce |
| AdsManagerModel.AdsManager.SendNACK | src/ads_protocol_client/anylink/grpc/manager/AdsManager.cpp:150-162 | writes the request with the response's nonce and the old version |
| AdsManagerModel.AdsManager.StartClient | src/ads_protocol_client/anylink/grpc/manager/AdsManager.cpp:50-84 | gets through every round before the first that needs an unregistered type; each round writes the subscription and then its acknowledgement with version and nonce of the response read |
| AdsManagerModel.HandshakeTrace | src/ads_protocol_client/anylink/grpc/manager/AdsManager.cpp:63-78 | for any URL list: subscribe and acknowledge in list order, the acknowledgement echoing the response read for that URL |
| AdsManagerModel.DeliveredToOwnType | src/ads_protocol_client/anylink/grpc/manager/AdsManager.cpp:122-134 | exactly the successful responses are delivered, each to the subscription of its own type |
| AdsManagerModel.DeliveredInOrder | src/ads_protocol_client/anylink/grpc/manager/AdsManager.cpp:122-134 | responses are delivered in the order in which they are read |
| ChatLoop.Chat.ContinueChat | src/ads_protocol_client/AdsClient.h:59-80 | writes the kept request with the version and nonce last read |
| ChatLoop.Chat.AggregatedDiscoveryService | src/ads_protocol_client/AdsClient.h:82-128 | one request to begin with, then exactly one per response, with its version and its nonce on the same type, names and node |

## Left out

- gRPC channels, contexts, stubs and logging: a stream is the log of its writes and, in `ReentrantClient`, an inbox that a read loop empties; whether a stream opens and what a read returns are parameters.
- Reading in the middle of a send is not part of `MuxModel` and `AdsClientObjects`, where responses arrive through `onDiscoveryResponse`; `ReentrantClient` covers it, with type states and watch lists as values instead of shared objects.
- Reentrant.ReentrantClient.SendDiscoveryRequest: stated for the front item of the queue, which is the only item the source ever sends, and for a client that has a stream or is shut down, because the source writes through the stream pointer.
- AdsClientObjects.Watcher.Unlink: the entry is found by its position in a sequence; the constant cost of `std::list::erase` is not modelled.
- DescriptorLoader.Load: base64 and protobuf decoding are left out; a decoded file is taken to have the name and the imports that its descriptor information lists.
- DescriptorLoader.LoadFileDescriptors: stated for the graphs on which the recursion ends, which `LoadEndsIff` determines.
- Reactor.Chatter.Await: blocking, the mutex and the condition variable are left out; callbacks are atomic steps in any order that gRPC allows, and the completion of `StartWritesDone` is not recorded. The source moves the status out, so `Await` is to be called once; the model returns the same status each time.
- AdsManagerModel.AdsManager.StartClient: takes any URL list where the source has four entries and two arrays of that size; the completion flags of writes, which the source only logs, are left out.
- The error detail of a request: nothing in the source ever sets it, so clearing it after a write is left out.
- The control plane identifier is never set and is left out.
- Pausing and owing a node are modelled as the source has them; no call raises them, and `SubscriptionBookkeeping` proves that they stay down.
- Resource decoding, time-to-live expiry, the EDS cache and the xDS resource locator branch: stubs or commented-out code.
- `Subscription` subclasses, `IstioLinkManager`, `AdsConnection`, `LocalInfo`, the text-format transcoder and the sample programs: thin wrappers or stubs with no behaviour.
