# Moqtopus in Dafny

Moqtopus is a client for MOQT (draft-ietf-moq-transport-18): a subscriber that receives objects over subgroup streams
and datagrams, a publisher that fans objects out to subscriptions, the request state machines of both, the session
around them and the wire codec below them. This project models that protocol logic and proves what it promises over
all inputs, all ways of cutting a stream and all runs of events.

One API call or one transport event is one step. What the transport decides (how bytes are cut, whether a send
succeeds, in which order an unordered container is walked) and what the application does inside a callback are inputs
of the step, so every theorem holds for all of them. Re-entrancy stays visible: completions detach subscriptions while
`publish` walks them, and handlers stop subscriptions, send updates or close the session from inside a delivery.

The pure files define what each component does and prove theorems about it; the classes (`SubgroupReceiver`,
`DataPlane`, `PeerStreamGate`, `Publisher`, `Subscriber`, `Session`, `Reader`) have the fields and loops of the source
and are proved equal to those definitions, call by call.

| files | content |
|---|---|
| Basics, Varint | shared types; variable-length integers |
| SubgroupWire, Reception, SubgroupReceiver | parsing a subgroup stream; the receiver as a function, and as the class of the source |
| SubgroupSend, SendStreams, SubgroupWriter, Datagrams | what is written for published objects, and that it is read back |
| Publishing, PublishingInvariants, Completions, FanOut, Publisher | publisher and send plane: state machine, invariants, completions that throw, theorems, class |
| RequestViews, RequestRuns | the publisher as one request sees it, without its tables and loops; aliases, ends of streams and kinds of delivery over whole runs |
| Subscribing, SubscribingInvariants, SubscriberTheorems, SubscriberVerdicts, Subscriber | subscriber: state machine, invariants, theorems, futures said by the messages received, class |
| Compatibility | a publisher and a subscriber talking to each other, down to the bytes of each reply |
| Delivery, DataPlanes, DataPlaneInvariants, DataPlaneTheorems, DataPlane, RetiredRoutes | routes, finality, receive buffers and their accounting, replay, class |
| Handover | objects from `publish` to `on_object` |
| WireForms, PlaneForms, WireVectors | all forms of streams and datagrams that a peer may send, what is refused, and the wire format in plain numbers |
| Settling, EarlyDatagrams, EarlyArrivals, EarlyOrders, EarlyHandover | what happens while a route is being installed; arrivals before their route against arrivals after it |
| Joining, JoiningTheorems, JoinedRuns | the subscriber's state machine and its receive plane as one |
| ControlFrames, ControlLoops, StreamGate, PublisherStreams, SubscriberStreams, StreamVerdicts | frames, message loops, the gate in front of peer streams, bytes to the tables of either side, what each first byte and message is taken for |
| ControlFields, Parameters, ControlMessages, ControlReader, Setup, SubscriptionOptions, CodecForms | the control codec |
| Sessions, SessionHistory | phases, ready waiters, close reason, Request IDs; the same said by the events that have happened |

Some statements one would like to make are false of the code. Each is proved with its exact condition and with an
input at which it fails:

- The session's and the send plane's tables name the same requests at every quiescent point, and PUBLISH_DONE reports
  the right number of streams, exactly as long as every PUBLISH_DONE fits 65535 bytes. `finish` detaches the
  subscription before it encodes the message, so an `end_track` with a longer reason throws in between
  (`Completions.TablesAgreeExactly`, `Completions.ReportedCountExact`; `Completions.OversizedReasonRun`).
- A publisher's replies never cause an error at the subscriber exactly as long as reasons stay within the decoder's 1024
  bytes (`Compatibility.PublisherAndSubscriberAgree`; `Compatibility.LongReasonIsHeardAsError`).
- A stream that marks the end of a group behind the largest Object ID is a protocol error at the receiver
  (`SubgroupSend.EndToEndExact`; `SubgroupSend.MarkerBehindLastIdFails`).
- The unguarded writes of a group's final object can raise it (`Delivery.FinalsFallExactly`,
  `Delivery.EndDatagramExact`; `Delivery.LateEndIsHanded`).
- Arriving before the route is as good as arriving after it exactly as long as the request is not stopped before the
  last object is delivered: by the application, by an error of its track or by a protocol error
  (`EarlyDatagrams.EarlyDatagramsExact`, `EarlyArrivals.EarlyStreamsExact`, `EarlyOrders.EarlyIsDirect`). A request
  learns its alias only after `install_route` has returned (src/subscriber_session.cpp:110-118), so stopping it during
  the replay does not retire its route, and it is given everything that was held; an established request is given
  nothing more (`EarlyHandover.GivingUpOnDatagrams`, `EarlyHandover.GivingUpInsideAStream`).
- Early streams and datagrams keep their own order but not their common one: held datagrams are replayed first
  (`EarlyOrders.EarlyInAnyOrder`). For a stream and then a datagram it makes no difference exactly if the alias has its
  route and establishing the parked stream makes no call (`EarlyOrders.MixedOrderExact`;
  `EarlyHandover.MixedOrderMakesADifference`).
- A handler is called only while its request is live, except by the replay of its own installation
  (`JoinedRuns.HandlersOnlyWhileLive`; `EarlyHandover.GivingUpOnDatagrams`).
- The two filters that increment a location (`FanOut.LargestObjectExact`, `FanOut.NextGroupStartExact`).

docs/Subscriber-API.md:102 says that subgroup streams with an unknown alias are aborted by default. The code parks them
(src/data_plane.cpp:192-201), and so does the model.

## Model

| member | source | states |
|---|---|---|
| Varint.RoundTrip | src/codec/codec.cpp:44-69 | for every 64-bit value and every tail, reading what was written gives the value and its exact length |
| Varint.StrictPrefix | src/codec/codec.cpp:56-63 | every strict prefix of an encoding asks for more data |
| Varint.Stable | src/codec/codec.cpp:56-69 | a completed read is unchanged by bytes that follow |
| Varint.Minimal | src/codec/codec.cpp:44-54 | no accepted encoding of a value is shorter than the one written |
| Varint.Write | src/codec/codec.cpp:44-54 | the length search and the shifting loop append exactly the encoding |
| Varint.Read | src/codec/codec.cpp:56-69 | the bit scan and the accumulating loop compute the decoding at an offset |
| SubgroupWire.ParseHeaderStable | src/data_plane.cpp:145-180 | a verdict on a stream header, accepted or malformed, is not changed by later bytes |
| SubgroupWire.ParseObjectStable | src/data_plane.cpp:206-243 | the same for an object, including its properties and status |
| Reception.ReceiveSplit | src/data_plane.cpp:48-73 | from any receiver state, receiving two portions makes the calls and reaches the state of receiving both at once |
| Reception.FragmentationIndependence | src/data_plane.cpp:48-143 | every cut of a stream's bytes and FIN gives the same calls, first error and state as one-shot parsing |
| Reception.ParkingTransparent | src/data_plane.cpp:85-101 | a stream parked before its route, in whole or in part, makes the same calls and ends in the same state as with the route there first |
| SubgroupReceivers.SubgroupReceiver.OnReceive | src/data_plane.cpp:48-73 | both the zero-copy path and the stash path do what the receiver's definition says, buffer limit included |
| SubgroupReceivers.SubgroupReceiver.Establish | src/data_plane.cpp:85-101 | a waiting receiver parses its stash with the remembered FIN; any other is left alone |
| SubgroupReceivers.SubgroupReceiver.OnPeerSendAborted | src/data_plane.cpp:75-83 | the receiver closes, and leaves the parking list if it waited |
| SubgroupReceivers.SubgroupReceiver.Run | src/data_plane.cpp:104-143 | header, waiting, object loop and end of stream against the definition, whatever was parsed before |
| SubgroupReceivers.SubgroupReceiver.DrainLoop | src/data_plane.cpp:123-136 | the object loop delivers exactly the drained objects and stops where it must |
| SubgroupReceivers.SubgroupReceiver.BindRoute | src/data_plane.cpp:181-203 | the three policies for an alias with and without a route |
| SubgroupSend.HeaderRoundTrip | src/codec/codec.cpp:161-173 | the receiver reads the written header back and stops where the body begins |
| SubgroupSend.ObjectRoundTrip | src/codec/codec.cpp:175-186 | the receiver reads a written object back, or rejects it exactly if its properties are too long |
| SubgroupSend.EndToEnd | src/send_data_plane.cpp:227-279 | the bytes of one stream in any cut yield no error and exactly the sent objects in canonical form, with the end-of-group marker |
| SubgroupSend.EndToEndExact | src/data_plane.cpp:245-252 | the receiver reports an error if and only if some object's properties exceed 65535 bytes or a marker has no Object ID left |
| SubgroupSend.MarkerBehindLastIdFails | src/send_data_plane.cpp:266-271 | the concrete stream: end_of_group on the largest Object ID |
| SendStreams.SendObjectSound | src/send_data_plane.cpp:227-279 | sending keeps the open table equal to the live streams and every stream's bytes equal to the encoding of its objects |
| SendStreams.CloseAllSound | src/send_data_plane.cpp:146-166 | detaching finishes every open stream, or resets it on cancellation, leaves ended ones as they are and keeps the table sound |
| SendStreams.SendObjectCarries | src/send_data_plane.cpp:227-279 | one send puts one more object on the wire and loses or repeats none, counting multiplicity |
| SubgroupWriter.SendOnSubgroupStream | src/send_data_plane.cpp:227-279 | the source's steps (reset a stale stream, open, write, mark, finish) compute the send |
| SubgroupWriter.WriteDatagram | src/codec/codec.cpp:125-159 | the appended bytes are the object's datagram |
| SubgroupWriter.WriteObject | src/codec/codec.cpp:175-186 | the appended bytes are the object's encoding |
| Datagrams.FlagsRoundTrip | src/codec/codec.cpp:125-144 | the type built from the flags is valid and gives the flags back |
| Datagrams.DatagramRoundTrip | src/send_data_plane.cpp:281-297 | a valid object's datagram is accepted if and only if its properties fit, and arrives with the same ids, priority, properties, status and payload in canonical form |
| PublishingInvariants.StepKeeps | src/publisher_session.cpp:116-267 | every call and peer message, also one whose completion throws, keeps subscriptions among requests, tracks' sets exact, request accounting, live ranges and sound flows |
| PublishingInvariants.Reachable | src/publisher_session.cpp:116-439 | those invariants hold after every run |
| PublishingInvariants.PublishToKeeps | src/send_data_plane.cpp:191-224 | one turn of publish's loop, with the completion that detaches inside it, keeps the tables in step |
| Completions.PublishDoneFits | src/codec/codec.cpp:71-76 | PUBLISH_DONE can be encoded iff its numbers and its reason take at most 65535 bytes |
| Completions.StepExact | src/publisher_session.cpp:116-128 | a step keeps session keys equal to send-plane keys iff no completion in it fails to fit, and then keeps every reported stream count right |
| Completions.TablesAgreeExactly | src/publisher_session.cpp:257-267 | over whole runs the keys are equal at every point iff every PUBLISH_DONE fits; then all reported counts are right |
| Completions.ReportedCountExact | src/publisher_session.cpp:161-186 | the count that answers a refused update is that of all streams iff the request was still attached or never had a stream |
| Completions.LongReasonBreaks | src/publisher_session.cpp:116-128 | for every publisher and subscription a reason over 65535 bytes leaves the request behind, and its next update is told 0 streams |
| Completions.OversizedReasonRun | src/publisher_session.cpp:257-267 | the concrete run: register, subscribe, publish, end_track with 65536 bytes, update |
| FanOut.IndicesAgree | src/send_data_plane.cpp:88-225 | each subscription is a request and sits in exactly its own registered track's set, ids are odd and consumed, max_subscriptions holds; session keys equal send-plane keys at every point iff every PUBLISH_DONE fits |
| FanOut.LiveRangeInvariant | src/send_data_plane.cpp:104-138 | a live bounded subscription is never behind its track's largest group |
| FanOut.StreamConservation | src/publisher_session.cpp:116-128 | stream_count is the number of streams ever opened; once detached or done none is live; the number reported is that number in every run whose PUBLISH_DONEs fit, and that or 0 in any run; what was sent is what streams and datagrams carry |
| FanOut.FanOutExact | src/send_data_plane.cpp:168-225 | over any run a subscription is sent exactly the objects published on its track while it forwarded, at or behind its start and not past its last group, once each, in order |
| FanOut.UnforwardedGetsNothing | src/send_data_plane.cpp:202-208 | a subscription whose forward is off is sent nothing |
| FanOut.StepTracks | src/publisher_session.cpp:221-246 | tracks come by registration unless reserved and go by unregistration; only publishing moves the largest location, and nothing changes the properties |
| RequestViews.StepSeen | src/publisher_session.cpp:116-267 | every step does to each request what the event is for that request alone, said without the tables and loops: its range, its objects, the ends of its streams and every reply, the words of PUBLISH_DONE included |
| RequestViews.PublishSeen | src/send_data_plane.cpp:168-225 | an object goes to a request iff it forwards and its range admits it, as datagram or on a stream as it says; a bounded request ends past its last group or behind the object that ends it, and any on EndOfTrack |
| RequestViews.SelectsExact | src/send_data_plane.cpp:80-86 | which objects pass: forward on, location not before the start, group not past the end; which objects publish takes at all |
| RequestViews.FinishSeen | src/publisher_session.cpp:116-128 | completion finishes the open streams, tells how many there were and removes the request; if PUBLISH_DONE cannot be encoded it only detaches |
| RequestViews.CancelSeen | src/publisher_session.cpp:130-139 | cancellation resets the open streams and says nothing |
| RequestViews.ShutdownSeen | src/publisher_session.cpp:435-439 | closing does so to every request |
| RequestViews.EndAllSeen | src/publisher_session.cpp:257-267 | ending a track completes its requests in order, until one cannot be told |
| RequestViews.SubscribeSeen | src/publisher_session.cpp:357-416 | each SUBSCRIBE is refused for the first reason that applies, or attached with the range and forward state it asks for and told its alias, the largest location and the track's properties |
| RequestViews.UpdateSeen | src/send_data_plane.cpp:114-144 | a granted REQUEST_UPDATE changes the range and forward state that it states and nothing else; a refused one ends the request with its reason |
| RequestRuns.ToldAliases | src/publisher_session.cpp:391-393 | in every run a request's data is written with the alias that its SUBSCRIBE_OK told, and no two requests are told the same one in fewer than 2^64 SUBSCRIBEs |
| RequestRuns.StreamEnds | src/send_data_plane.cpp:146-166 | in every run: while attached a stream is finished iff its last object ends it and reset only where a stale Object ID replaced it; PUBLISH_DONE means that all others were finished, cancellation that they were reset |
| RequestRuns.DatagramsAndStreams | src/send_data_plane.cpp:202-208 | in every run exactly the objects that say so went as datagrams, in order, and all others on streams |
| FanOut.EndOfTrackEmpties | src/send_data_plane.cpp:210-223 | publishing EndOfTrack leaves the track without subscriptions |
| FanOut.LargestObjectExact | src/send_data_plane.cpp:58-62 | a LargestObject filter admits exactly the locations behind the largest if and only if its Object ID can be incremented |
| FanOut.NextGroupStartExact | src/send_data_plane.cpp:63-67 | a NextGroupStart filter admits exactly the later groups if and only if the group can be incremented |
| FanOut.SteadyFeed | src/send_data_plane.cpp:80-86 | without updates a subscription gets what its first range and forward state select of what is published until it ends |
| FanOut.LatestFeed | src/send_data_plane.cpp:53-62 | from a SUBSCRIBE with LargestObject on, every object behind the location largest then, and nothing else |
| FanOut.LargestIsGreatest | src/send_data_plane.cpp:179-183 | a track's largest is the greatest accepted location of the run |
| FanOut.EveryStreamArrives | src/send_data_plane.cpp:227-279 | in every run of a publisher, every stream it wrote decodes to its objects, in any cut, at a receiver that has a route for the alias its SUBSCRIBE_OK told |
| FanOut.NothingLivesAfterClose | src/publisher_session.cpp:435-439 | once a publisher begins to close no request is live or can become live |
| PublisherObject.CloseStreams | src/send_data_plane.cpp:152-158 | walking the table of open streams finishes every live stream, or resets it, as CloseAllSound says |
| PublisherObject.Publisher.DetachSubscription | src/send_data_plane.cpp:146-166 | all tables forget the subscription, its streams are finished or reset, its stream count is returned |
| PublisherObject.Publisher.Finish | src/publisher_session.cpp:116-128 | the open streams are finished before PUBLISH_DONE reports their number, then the request is gone; if the encoder throws it stays, and the result says so (RequestViews.FinishSeen) |
| PublisherObject.Publisher.Cancel | src/publisher_session.cpp:130-139 | the open streams are reset and the request is gone (RequestViews.CancelSeen) |
| PublisherObject.Publisher.PublishObject | src/send_data_plane.cpp:168-225 | the loop over a copy of the set, under completions, is the model's publish, which does to each request what RequestViews.PublishSeen says, and keeps the invariants |
| PublisherObject.Publisher.EndTrack | src/publisher_session.cpp:257-267 | the same for end_track with the application's reason, up to the first completion that throws |
| PublisherObject.Publisher.SendTo | src/send_data_plane.cpp:202-208 | an object goes on its stream, or as the datagram that is handed to the transport |
| PublisherObject.Publisher.Unregister | src/publisher_session.cpp:239-246 | the track goes after its subscriptions have been completed |
| PublisherObject.Publisher.Register | src/publisher_session.cpp:221-237 | a new, unreserved track is added without subscriptions |
| PublisherObject.Publisher.Close | src/publisher_session.cpp:435-439 | cancelling one request after another, in any order, has one and the same effect and leaves none |
| PublisherObject.Publisher.ConsumePeerRequestId | src/publisher_session.cpp:303-313 | odd IDs are accepted, each once |
| PublisherObject.Publisher.AcceptSubscribe | src/publisher_session.cpp:357-416 | every refusal, the attachment with the alias that is told and the failure to answer, as RequestViews.SubscribeSeen says, with the invariants kept |
| PublisherObject.Publisher.HandleRequestUpdate | src/publisher_session.cpp:161-193 | an update is granted and answered, or refused, answered and ends the subscription, or closes the session |
| SubscribingInvariants.StepGood | src/subscriber_session.cpp:63-163 | every message, lost stream and call, with whatever handlers do inside, keeps requests, promises, histories and routes consistent |
| SubscribingInvariants.Reachable | src/subscriber_session.cpp:28-298 | those invariants hold after every run |
| SubscriberTheorems.FuturesAreKept | src/subscriber_session.cpp:55-93 | result_ is held iff pending and from then on granted with the request's own alias, queued updates imply established, no settled promise is set again, every open promise is held by a live request, an unsent update has failed |
| SubscriberVerdicts.VerdictsByMessages | src/subscriber_session.cpp:96-135 | over every run the future of a subscribe call is rejected by the first REQUEST_ERROR while pending, granted the alias of the SUBSCRIBE_OK it survives, failed if the request goes away otherwise, and open until then |
| SubscriberVerdicts.StepJudged | src/subscriber_session.cpp:96-135 | the same for one event, whatever handlers call inside it |
| SubscriberVerdicts.MessageExact | src/subscriber_session.cpp:94-163 | which messages end a request in which phase, and what the others make of it |
| SubscriberVerdicts.SubscribeExact | src/subscriber_session.cpp:215-243 | a subscribe call makes one pending request, or a failed future if it cannot be sent |
| SubscriberVerdicts.UpdateExact | src/subscriber_session.cpp:245-276 | an update call queues one promise on an established request only, or fails if it cannot be sent |
| SubscriberTheorems.UpdatesSettleInOrder | src/subscriber_session.cpp:124-149 | the k-th REQUEST_OK settles the k-th update; the first REQUEST_ERROR fails all that remain |
| SubscriberTheorems.FirstVerdictStands | src/subscriber_session.cpp:63-80 | a settled future keeps its first outcome through every later event |
| SubscriberTheorems.RoutesAreTheLiveAliases | src/subscriber_session.cpp:101-123 | between events the route table is exactly the live subscriptions with an alias, each bound to its owner's active route |
| SubscriberTheorems.RetiredForever | src/data_plane.cpp:349-357 | a retired route object is never active again, even if its alias is reused |
| SubscriberTheorems.ReusedAliasCloses | src/subscriber_session.cpp:109-112 | a SUBSCRIBE_OK for an alias in use closes the session, fails its own request and installs nothing; after every turn of the closing loop before the owner's own, the owner is live and its route active, unless a handler stops it |
| SubscriberTheorems.TurnsLeadOn | src/subscriber_session.cpp:294-298 | those turns are the states the loop goes through |
| SubscriberTheorems.NothingLivesAfterClose | src/subscriber_session.cpp:294-298 | after closing, whatever handlers did meanwhile, no subscription is live or becomes live |
| SubscriberTheorems.RequestIdsAreEvenAndFresh | src/session.cpp:228-235 | the IDs of requests and updates are even and below the next one |
| SubscriberObject.Subscriber.TerminateRequest | src/subscriber_session.cpp:63-80 | result and queued updates fail, the route is retired, the request is gone |
| SubscriberObject.Subscriber.FailUpdates | src/subscriber_session.cpp:88-93 | the queue is emptied from the front, each promise failing once |
| SubscriberObject.Subscriber.SubscribeNow | src/subscriber_session.cpp:215-243 | the new request is in the table before it is sent, and gone again if sending fails |
| SubscriberObject.Subscriber.SendUpdate | src/subscriber_session.cpp:245-262 | only an established request queues the promise of an update that was sent |
| SubscriberObject.Subscriber.TerminateSubscriptions | src/subscriber_session.cpp:294-298 | the loop over a copy, with handlers that stop and update other requests meanwhile |
| SubscriberObject.Subscriber.HandleControlMessage | src/subscriber_session.cpp:94-163 | every message in every phase is handled as the model does, which SubscriberVerdicts.MessageExact and StepJudged say in terms of the messages |
| SubscriberObject.Subscriber.BindAlias | src/subscriber_session.cpp:106-124 | a request that survives the replay is established and its future fulfilled with the alias; a stopped one loses the route |
| SubscriberObject.Subscriber.OnStreamEnded | src/subscriber_session.cpp:45-52 | a request whose stream is lost terminates with its promises failed |
| Compatibility.PublisherAndSubscriberAgree | src/publisher_session.cpp:116-193 | however both sides interleave, through encoder, frame and decoder: the request is live until told otherwise, no error is reported iff the reasons that arrived are within 1024 bytes, and every update sent is settled when it is over |
| Compatibility.HeardExactly | src/codec/control.cpp:158-184 | the subscriber hears each reply as it was meant iff its reason is within 1024 bytes, and a malformed message otherwise |
| Compatibility.LongReasonIsHeardAsError | src/subscriber_session.cpp:151-154 | the input: a reason of 1025 bytes |
| Compatibility.ShortReasonsNeverFail | src/publisher_session.cpp:257-267 | an application whose reasons are within 1024 bytes never causes an error, whatever else it does |
| Compatibility.StepExtends | src/publisher_session.cpp:161-193 | each publisher step only appends to a request's replies, and only one answer per update |
| Delivery.Finality | src/data_plane.cpp:500-520 | without raising marks, finals only move down and every object handed over is at or before all finals recorded before it |
| Delivery.FinalsFallExactly | src/data_plane.cpp:137-142 | finals move only down, step by step, if and only if no unguarded write is above its group's final |
| Delivery.NothingFollowsTheEnd | src/data_plane.cpp:504-518 | behind an EndOfGroup or EndOfTrack object nothing of the group or the track is handed over |
| Delivery.NothingFollowsTheMark | src/data_plane.cpp:139-141 | behind an end-of-group bit no higher object of the group is handed over |
| Delivery.DeliveriesNeverRaise | src/data_plane.cpp:513-518 | deliver itself never raises a final |
| Delivery.EndDatagramExact | src/data_plane.cpp:472-475 | a datagram with the end-of-group bit is handed over whatever final its group had; it respects that final iff it does not raise it |
| Delivery.LateEndIsHanded | src/data_plane.cpp:472-475 | the concrete objects: 9 with the bit, after 3 ended the group |
| Delivery.RetiredIsSilent | src/data_plane.cpp:501-503 | an inactive route hands nothing over |
| DataPlaneTheorems.Accounting | src/data_plane.cpp:320-395 | in every run and whatever requests callbacks stop: both counters are exact and within their limits, a stream is parked once iff it waits, stashes are bounded, routed aliases hold nothing, a route is active iff it is in the table, under the alias that its request has been given |
| DataPlaneTheorems.StepGood | src/data_plane.cpp:320-498 | each event keeps that accounting |
| DataPlaneTheorems.DatagramsReplayed | src/data_plane.cpp:336-342 | during replay the byte counter is what is held plus what is not yet replayed |
| DataPlaneTheorems.StreamsReplayed | src/data_plane.cpp:343-345 | establishing the moved streams, with callbacks stopping requests, ends every wait |
| DataPlaneTheorems.ReplayInstalling | src/subscriber_session.cpp:110-118 | whatever is stopped during both replays, the route that is being installed is still in the table when they end |
| Settling.CallsSettled | src/subscriber_session.cpp:110-118 | a stream's calls made during an installation and then its end leave the plane as its end and then the calls, if every object meets the route; otherwise the installation makes a callback for the request that is never made after it |
| Settling.AllReplayed | src/subscriber_session.cpp:74-75 | while its route is being installed a request is given the verdict on every object, whoever stops it meanwhile |
| EarlyDatagrams.EarlyDatagramsExact | src/data_plane.cpp:334-342 | any list of early datagrams within both limits, behind any held before and with no stream parked for the alias: installing the route then leaves the whole plane, callbacks included, as installing it first would, iff the alias would still have its route when each of them arrives |
| EarlyArrivals.EarlyStreamsExact | src/data_plane.cpp:320-347 | any list of early streams, each cut in any way, behind anything held before: the same, iff the alias would have its route whenever one of them begins and whenever one of their objects is delivered |
| EarlyOrders.EarlyIsDirect | src/data_plane.cpp:320-347 | any number of datagrams and then of streams, with no stream parked before: the same, iff both of these conditions hold |
| EarlyOrders.EarlyIfStillRouted | src/subscriber_session.cpp:110-118 | in particular if the request still has its route when everything has been taken in directly |
| EarlyOrders.EarlyInAnyOrder | src/data_plane.cpp:334-345 | early datagrams and streams in any order: the installation leaves the plane as if, with the route in place, all the datagrams had come before all the streams, under the same conditions and only then |
| EarlyOrders.EarlyStreamCut | src/data_plane.cpp:85-101 | a stream with events before and after the installation ends as if the route had been there for all of them, iff the alias would have its route when it begins and whenever an object is delivered that came before the route |
| EarlyOrders.MixedOrderExact | src/data_plane.cpp:334-345 | an early stream and then an early datagram leave the plane as with the route first iff the alias would have its route when they come and establishing the parked stream makes no call |
| EarlyHandover.EarlyStreamHandedOver | src/data_plane.cpp:343-345 | the objects of an early stream reach the handler when its route is installed, all, in order and nothing else, iff none is behind an end the route had recorded, whoever stops the request meanwhile |
| EarlyHandover.GivingUpOnDatagrams | src/data_plane.cpp:336-342 | the input: two datagrams and a handler that stops on the first; early it is given both, directly one, and the other is held |
| EarlyHandover.GivingUpInsideAStream | src/subscriber_session.cpp:110-118 | the input: a stream of two objects and that handler; early it is given both, directly one |
| EarlyHandover.MixedOrderMakesADifference | src/data_plane.cpp:334-345 | the input: an early stream with an object and then an early datagram reach the handler in the other order |
| RetiredRoutes.RetiredRouteIsSilent | src/data_plane.cpp:349-357 | over every run a retired route hands no object over and reports no error of its track, whatever streams are bound to it and whatever becomes of its alias |
| RetiredRoutes.StoppedIsSilent | src/subscriber_session.cpp:278-290 | from the moment an established request is stopped its alias is free and nothing is called on its behalf, over every run |
| JoinedRuns.StepJoined | src/subscriber_session.cpp:63-163 | session and plane as one: a SUBSCRIBE_OK, any other message, a lost stream, a call or data, with whatever the application calls from inside callbacks, keeps the invariants of both and the plane's aliases equal to those of the live requests |
| JoinedRuns.HandlersOnlyWhileLive | src/subscriber_session.cpp:186-192 | in every such run whoever is handed an object or told of an error is live at that moment and has its alias, unless its own route is being installed |
| JoinedRuns.JoinedTables | src/subscriber_session.cpp:74-76 | the route table of the session and that of the plane hold the same aliases for the same requests |
| JoinedRuns.SessionsRun | src/subscriber_session.cpp:96-163 | the session of such a run is a run of the session by itself, so what is proved of those holds here |
| JoiningTheorems.LinkedCalls | src/subscriber_session.cpp:278-298 | stopping, updating, subscribing and closing, one call after another, keep the plane's owned aliases those of the live requests |
| DataPlaneObject.DataPlane.InstallRoute | src/data_plane.cpp:320-347 | an alias with a route is refused; else both replay loops, re-entrant callbacks included, compute the model's replay |
| DataPlaneObject.DataPlane.OnSubscribeOk | src/subscriber_session.cpp:100-124 | the alias becomes that of the request, or loses its route if the request was stopped during the replay; a taken alias stops everything; the accounting is kept |
| DataPlaneObject.DataPlane.StopSubscription | src/subscriber_session.cpp:63-80 | the route of an established request is retired, that of one being installed is left; the accounting is kept |
| DataPlaneObject.DataPlane.StopSubscriptions | src/subscriber_session.cpp:294-298 | stopping one request after another, in any order, has one and the same effect and leaves none |
| DataPlaneObject.DataPlane.Callback | src/subscriber_session.cpp:186-192 | an error of a track stops its request and a protocol error all of them, before what the application stops |
| DataPlaneObject.DataPlane.ReplayHeld | src/data_plane.cpp:336-342 | the counter never falls below what is left to replay |
| DataPlaneObject.DataPlane.FindOrPark | src/data_plane.cpp:365-379 | a route, or a place in the list while there is room, or neither; every stream that is parked is parked by it |
| DataPlaneObject.DataPlane.DiscardPending | src/data_plane.cpp:381-395 | the stream leaves its list, an empty list leaves the table, the counter follows |
| DataPlaneObject.RemoveStream | src/data_plane.cpp:388-391 | the list without the stream, in order |
| DataPlaneObject.DataPlane.OnDatagram | src/data_plane.cpp:397-476 | every malformed datagram, the route, the hold and the delivery, with the accounting kept |
| DataPlaneObject.DataPlane.BufferUnknown | src/data_plane.cpp:478-498 | the three policies and both limits |
| DataPlaneObject.DataPlane.RetireRoute | src/data_plane.cpp:349-357 | the route leaves the table and is inactive |
| DataPlaneObject.DataPlane.DeliverObject | src/data_plane.cpp:500-520 | what deliver records and whom it calls |
| DataPlaneObject.DataPlane.StartSubgroupStream | src/data_plane.cpp:399-403 | the gate's prefix is parsed first |
| DataPlaneObject.DataPlane.OnReceive | src/data_plane.cpp:48-73 | a receiver's calls reach the plane in order |
| DataPlaneObject.DataPlane.OnPeerSendAborted | src/data_plane.cpp:75-83 | a reset stream closes and leaves its list |
| Handover.PlaneFragmentation | src/data_plane.cpp:48-143 | however a stream is cut, and whatever requests callbacks stop meanwhile, the plane ends in the same state with the same callbacks |
| Handover.StreamHandedOver | src/data_plane.cpp:257-271 | the objects of a stream reach the handler of an established request, all, in order and nothing else, iff none is behind an end the route had recorded and the application does not stop the request before the last |
| Handover.PublishedIsHandedOver | src/send_data_plane.cpp:227-279 | the same from any run of a publisher to on_object, in any cut, for the alias that its SUBSCRIBE_OK told |
| Handover.DatagramHandedOver | src/data_plane.cpp:405-476 | an object sent as a datagram reaches the handler in canonical form iff its properties fit and it is not behind a recorded end, its own bit included |
| Handover.PublishedDatagramIsHandedOver | src/send_data_plane.cpp:281-297 | the same for every datagram of every run of a publisher, for the alias that its SUBSCRIBE_OK told |
| WireForms.EveryForm | src/data_plane.cpp:104-143 | a stream with any header a peer may write, cut in any way, reaches the route as exactly its objects, in its subgroup and priority; its end is the end of the group iff its type says so and it has an object |
| WireForms.HeaderForms | src/data_plane.cpp:145-180 | all forms of the header, with and without Subgroup ID and priority |
| WireForms.ObjectForms | src/data_plane.cpp:206-243 | every object is read as it is meant, or refused iff its properties are too long or its status is unknown or excludes them |
| WireForms.OtherTypesRefused | src/data_plane.cpp:151-153 | any other stream type is refused at once |
| WireForms.TruncatedFails | src/data_plane.cpp:123-143 | a stream that ends inside an object delivers those before it and is then a protocol error |
| WireForms.TruncatedHeader | src/data_plane.cpp:104-122 | a stream that ends inside its header is a protocol error; until then the receiver waits |
| WireForms.MalformedFails | src/data_plane.cpp:245-252 | so is one with an object that is refused or an Object ID that leaves 64 bits |
| PlaneForms.PacketHandedOver | src/data_plane.cpp:405-476 | a datagram of any form behind an established route makes one callback: its object, an error of its track, or a protocol error, each exactly when it should |
| PlaneForms.PaddingExact | src/data_plane.cpp:411-417 | padding does nothing iff it is all zero, and is a protocol error otherwise |
| PlaneForms.StatusIsLast | src/data_plane.cpp:449-456 | a status must be the end of its datagram |
| PlaneForms.TruncatedPacket | src/data_plane.cpp:422-430 | a datagram that ends inside its head is a protocol error, with or without a route |
| PlaneForms.OtherDatagramsRefused | src/data_plane.cpp:418-420 | any other datagram type is a protocol error |
| PlaneForms.UnknownDatagram | src/data_plane.cpp:478-498 | a datagram without a route is dropped, an error, or held within both limits, as the policy says |
| PlaneForms.UnknownStream | src/data_plane.cpp:181-203 | a stream without a route is abandoned, an error, or parked if there is room for it and its bytes, as the policy says |
| PlaneForms.GroupEndRecorded | src/data_plane.cpp:137-143 | a stream with the end-of-group bit records its last Object ID as the end of its group when it ends |
| PlaneForms.PrefixCounts | src/data_plane.cpp:399-403 | the bytes that the gate has kept count as the first bytes of the stream |
| PlaneForms.AbortedIsOver | src/data_plane.cpp:75-83 | a stream that the peer has reset is parked nowhere, and whatever still comes does nothing |
| PlaneForms.DatagramWritten | src/send_data_plane.cpp:281-297 | the datagram of a published object has the bits, the status and the properties that belong to it |
| PlaneForms.ObjectWritten | src/send_data_plane.cpp:251-271 | so has its object on a stream, with the marker of a group's end behind it |
| PlaneForms.HeaderWritten | src/codec/codec.cpp:161-173 | the header of a stream leaves out the Subgroup ID iff it is zero |
| WireVectors.Layout | src/codec/codec.cpp:44-54 | the bytes of an integer: the length by a table of limits, the announcing bits, the digits highest first |
| WireVectors.Largest | tests/protocol.cpp:40-42 | the largest integer is nine bytes 0xff |
| WireVectors.SubscribeVector | tests/protocol.cpp:43 | a SUBSCRIBE byte by byte |
| WireVectors.RequestVectors | tests/protocol.cpp:44-47 | REQUEST_UPDATE, REQUEST_OK and SUBSCRIBE_OK byte by byte |
| WireVectors.EndingVectors | src/codec/control.cpp:105-184 | PUBLISH_DONE and REQUEST_ERROR byte by byte |
| WireVectors.CodeVectors | include/moq/errors.h:19-52 | the numbers of refusals and of PUBLISH_DONE, and what else it tells |
| WireVectors.DataVectors | src/codec/codec.cpp:125-186 | stream headers, objects and datagrams byte by byte |
| WireVectors.RefusedMessages | tests/protocol.cpp:49-54 | payloads that the decoders refuse |
| WireVectors.RefusedRepetition | tests/protocol.cpp:51 | a repeated parameter is refused |
| WireVectors.RefusedSetup | tests/protocol.cpp:50 | a SETUP option that is cut off is refused |
| WireVectors.RefusedValues | tests/protocol.cpp:62-74 | values of FORWARD and GROUP_ORDER that are refused, and a payload that cannot be framed |
| CodecForms.SettingsAccepted | src/codec/control.cpp:23-36 | a SETUP with any options, strings under odd types and numbers under even ones, is accepted iff its strings are within 65535 bytes |
| CodecForms.ParameterTypes | src/codec/codec_internal.h:53-76 | the parameter types and what each carries |
| CodecForms.OtherParametersIgnored | src/codec/control.cpp:58-103 | parameters that are no subscription options are ignored |
| CodecForms.FilterLengthCounts | src/codec/control.cpp:72-87 | a filter whose length does not say where it ends is refused |
| CodecForms.FilterKinds | src/codec/control.cpp:72-87 | so is one of an unknown kind |
| CodecForms.RedirectsCarryMore | src/codec/control.cpp:152-170 | a REQUEST_ERROR may carry more than its fields iff it is a redirect |
| Handover.AllDelivered | src/data_plane.cpp:500-520 | the callbacks of any list of deliveries are the verdicts of the route up to and including the first error of the track, or the first callback in which the application stops the request, and nothing after it |
| ControlFrames.FrameRoundTrip | src/codec/codec.cpp:71-100 | a framed message comes out as it went in, whatever follows |
| ControlFrames.ReadStable | src/codec/codec.cpp:83-100 | a message once complete is not changed by later bytes |
| ControlLoops.ControlFragmentation | src/subscriber_session.cpp:28-44 | for any handler, every cut of a request stream and its end leaves the handler, and the bytes held for its next message, as one-shot handling would |
| ControlLoops.MessagesArrive | src/publisher_session.cpp:142-160 | messages written one by one are handled one by one, as far as the handler goes |
| ControlLoops.Receive | src/publisher_session.cpp:88-97 | appending the chunks and taking messages off the front is that handling |
| StreamGate.GateTransparent | src/session.cpp:16-71 | behind the gate a stream makes the calls and reaches the state of a receiver given all bytes at once; without a type each announced end is an error |
| StreamGate.PeerStreamGate.OnReceive | src/session.cpp:16-71 | the verdict and the new mode in every case, padding and SETUP included |
| StreamGate.AllChunksZero | src/session.cpp:21-28 | checking padding chunk by chunk is checking the whole |
| PublisherStreams.SubscribeArrives | src/publisher_session.cpp:357-374 | a SUBSCRIBE goes from the encoder through its frame and decoder into the publisher's event with the options as stated, whatever follows it |
| PublisherStreams.UpdateArrives | src/publisher_session.cpp:161-176 | the same for REQUEST_UPDATE |
| StreamVerdicts.DataStreamVerdict | src/session.cpp:16-53 | a unidirectional stream is padding, SETUP, data or a violation by its type, padding being all zero |
| StreamVerdicts.SetupVerdict | src/session.cpp:37-53 | the SETUP stream makes the peer's SETUP known iff its payload is accepted |
| StreamVerdicts.RequestVerdict | src/session.cpp:54-70 | a bidirectional stream is a request: its first message goes on with what follows |
| StreamVerdicts.UndecidedStream | src/session.cpp:29-36 | until the gate can tell it waits, and an end before that is a violation |
| StreamVerdicts.FirstMessages | src/publisher_session.cpp:273-301 | SUBSCRIBE is taken up, the other requests of the protocol change nothing, anything else closes the session |
| StreamVerdicts.LaterMessages | src/publisher_session.cpp:142-170 | on a subscription's stream only a readable REQUEST_UPDATE makes sense, and it must not end inside a message |
| StreamVerdicts.ResponsesByType | src/subscriber_session.cpp:94-163 | what each message is for the subscriber, by its type and whether it can be decoded |
| PublisherStreams.RequestFragmentation | src/session.cpp:54-70 | gate and request loop together treat every cut of a request stream alike |
| PublisherStreams.GateIsFirstTurn | src/publisher_session.cpp:273-301 | the gate's message and leftover are the first turn of that one loop |
| SubscriberStreams.ResponseFragmentation | src/subscriber_session.cpp:28-44 | the subscriber's message loop treats every cut of its stream alike, whatever handlers do |
| SubscriberStreams.AnyBytesKeepTheFutures | src/subscriber_session.cpp:28-163 | whatever bytes arrive on a subscriber's request streams, interleaved with calls and reactions, its invariants hold |
| PublisherStreams.AnyBytesKeepTheTables | src/publisher_session.cpp:88-97 | whatever bytes arrive on however many request streams, interleaved with calls, the publisher's invariants hold |
| ControlFields.SpaceExact | src/codec/codec_internal.h:107-120 | every accepted namespace is self-delimiting and can be written in no more bytes |
| ControlFields.SpaceRoundTrip | src/codec/codec.cpp:102-116 | a written namespace is read back whatever follows |
| ControlFields.SpaceEncodable | src/codec/codec.cpp:102-116 | the writer throws exactly on more than 32 fields, an empty field or more than 4096 bytes in all |
| ControlFields.ValueExact | src/codec/codec_internal.h:132-152 | an accepted parameter value is one well-formed value, read again from its own bytes in front of any others |
| ControlFields.ConstructorsWellFormed | src/codec/codec.cpp:11-37 | the parameter constructors build well-formed values, a length-prefixed one iff it is within 65535 bytes |
| Parameters.RoundTrip | src/codec/codec_internal.h:170-184 | parameters are read back in the order of their types, whatever follows, iff each value is well formed |
| Parameters.Exact | src/codec/codec_internal.h:121-154 | accepted parameters are sorted, can be written again, and take no more bytes then |
| Parameters.Encodable | src/codec/codec_internal.h:170-184 | encode_parameters throws exactly on an unknown or repeated type |
| Parameters.SortIsOrderedPermutation | src/codec/codec_internal.h:171-172 | sorting orders by type and keeps every parameter |
| Parameters.SortIsStable | src/codec/codec_internal.h:171-172 | parameters of one type keep their order |
| ControlMessages.ControlRoundTrip | src/codec/control.cpp:38-184 | encode, frame, unframe, decode: the message comes out of its frame, and is understood as meant iff name, reason and values keep the decoder's limits |
| ControlMessages.Normalisation | src/codec/control.cpp:49-56 | every accepted payload re-encodes to one no longer that decodes to the same message |
| ControlReaders.Reader.ReadParameters | src/codec/codec_internal.h:121-154 | the moving cursor and the loop compute the parameter list or fail with it |
| ControlReaders.Reader.ReadNamespace | src/codec/codec_internal.h:107-120 | the same for namespaces |
| ControlReaders.Reader.ReadValue | src/codec/codec_internal.h:131-152 | the bytes between where the value began and where it was skipped to |
| ControlReaders.WriteNamespace | src/codec/codec.cpp:102-116 | the appended bytes are the namespace's encoding, or it fails where the writer throws |
| ControlReaders.WriteParameters | src/codec/codec_internal.h:170-184 | the same for parameters |
| Setup.SetupAccepted | src/codec/control.cpp:5-36 | a SETUP payload is accepted iff authority and path are within 65535 bytes |
| Setup.SetupArrives | src/codec/control.cpp:5-21 | encode_setup throws iff the whole payload exceeds 65535 bytes, and whatever it produces is read off the stream and accepted |
| Setup.Decode | src/codec/control.cpp:23-36 | the option loop decides acceptance |
| SubscriptionOptions.DecodedRangeExact | src/codec/control.cpp:72-87 | an accepted range never wraps: it holds exactly the locations from its start on in its groups |
| SubscriptionOptions.FilterRoundTrip | src/codec/control.cpp:72-87 | a filter is understood iff its range does not overflow |
| SubscriptionOptions.OptionsRoundTrip | src/codec/control.cpp:58-103 | options stated through the parameter constructors are understood exactly, or refused iff the range overflows |
| SubscriptionOptions.OptionsCanBeSent | src/codec/codec_internal.h:170-184 | such parameters are well formed and already in the order of their types |
| SubscriptionOptions.DecodeOptions | src/codec/control.cpp:58-103 | the loop over parameters computes the options or the first failure |
| SessionTheorems.NothingIsTakenBack | src/session.cpp:111-147 | between any two moments the phase does not move back, and close reason, verdicts and IDs stay |
| SessionTheorems.ReadyWaiters | src/session.cpp:152-164 | every ready waiter settles once and succeeds iff it was asked for before closing and Ready was reached; from Ready on none waits |
| SessionHistory.ReadyExactly | src/session.cpp:189-204 | over every run the session has been ready iff at some moment before closing its SETUP had been sent and the peer's had arrived; ready, closing and closed now iff the events say so |
| SessionHistory.FuturesExactly | src/session.cpp:152-164 | the p-th ready future is settled iff the session is ready or closing, and succeeded iff it was asked for before closing and both SETUPs were exchanged before closing |
| SessionHistory.ReasonExactly | src/session.cpp:206-226 | the close reason is that of the first event that gives one |
| SessionHistory.IdsExactly | src/session.cpp:228-235 | every Request ID that calls and announcements want is had, up to 2^63 - 1 of them |
| SessionTheorems.ClosedBeforeReady | src/session.cpp:195-204 | Ready is not reached once the session closes |
| SessionTheorems.RequestIds | src/session.cpp:228-235 | the IDs handed out are the even numbers in order |
| SessionObject.Session.OnConnected | src/session.cpp:111-128 | SETUP is sent once, a failure closes, and the session is ready only if the peer's SETUP is there (SessionHistory.ReadyExactly) |
| SessionObject.Session.OnPeerSetup | src/session.cpp:189-204 | both SETUPs make the session ready and settle all waiters (SessionHistory.ReadyExactly) |
| SessionObject.Session.OnShutdownComplete | src/session.cpp:140-147 | the session is closed, a first reason is kept, waiters fail |
| SessionObject.Session.WaitReady | src/session.cpp:152-164 | a promise is fulfilled, failed or queued |
| SessionObject.Session.Close | src/session.cpp:211-226 | only the first call has an effect |
| SessionObject.Session.AllocateRequestId | src/session.cpp:228-235 | the next even ID, or none when they run out |

## Left out

- Failure of open_data_stream inside publish: the session begins to close and the loop goes on with an erased subscription (src/send_data_plane.cpp:244-247); streams always open in the model.
- Failed sends of data, datagrams, replies and announcements: they are logged and change no table; only a failed SUBSCRIBE, REQUEST_UPDATE, SUBSCRIBE_OK or SETUP is modelled.
- subscribe with an unencodable request or without a handler; the exception of the former leaves a pending entry behind (src/subscriber_session.cpp:233-241).
- Closed without a preceding close event: shutdown_complete ends no subscription (src/session.cpp:140-147), so nothing is claimed about subscriptions after it.
- Namespace announcements of the publisher, except that they take Request IDs; they are keyed by a joined text that is not injective and would add only easy members.
- Mutexes, shared ownership and object lifetimes: steps are atomic, and the receiver of a stream and the route of a request are values found by stream id and Request ID.
- The MsQuic adapter and StreamContext: a stream is the bytes sent on it and whether it was finished or reset.
- Session phases in the publisher and subscriber machines: they begin ready; the way there is in Sessions, and the two are not composed.
- The classes of the subscriber and of the receive plane are not joined: Joining puts the definitions together that the two are proved equal to.
- The send plane has no class of its own: its tables are fields of the publisher's class.
- Masks and shifts are written as division, remainder and sum on disjoint bits; cursors over a stream's bytes are the unread rest of them.
- FETCH, TRACK_STATUS, PUBLISH and the other peer requests beyond their refusal; GOAWAY beyond being ignored; the decoding of PUBLISH_NAMESPACE, which has no decoder.
- Error texts other than those of replies, logging, snapshots of state, examples, the interop client and the test transport.
- ControlMessages.Normalisation: a REQUEST_OK is re-encoded without its track properties, because its encoder has none to write.
- FanOut.LatestFeed: assumes that the largest Object ID can be incremented, the exact condition of FanOut.LargestObjectExact.
- Compatibility.PublisherAndSubscriberAgree: Request IDs and aliases are renumbered between the two sides, as a relay does, with aliases that are free at the subscriber and replies that the relay can frame again; handlers make no calls from inside their callbacks, since stopping the request there would be its end too.
- EarlyOrders.EarlyStreamCut: for one stream, since events of several streams that interleave before the route are replayed stream by stream.
- FanOut.StreamConservation: the stream counter is unbounded; in the source it is a 64-bit number, which only its encoding in PUBLISH_DONE shows here.
- DataPlaneObject.DataPlane.OnReceive: the class keeps the receivers as values; that the receiver class computes them is proved apart, in SubgroupReceiver.
