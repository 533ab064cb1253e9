# Video signalling and stream keys

This project models two parts of a voice/video server. Both are modelled in
Dafny and have properties proved about them.

- **The op-12 (VIDEO) signalling handlers of one rtc room**
  (`src/webrtc/opcodes/Video.ts`):
  - `onVideo`: a producer announces its audio and video SSRCs and its streams.
    The room admits or ignores the announcement. It stops the tracks the
    producer no longer wants and starts the ones it newly wants. It subscribes
    every other client to them and sends each client that needs one an op-12
    update carrying that client's own consumer SSRCs.
  - `subscribeToProducers`: a late joiner is subscribed to every track the
    other clients produce. It is sent one op-12 about each other client. In a
    stream room it gets one only about clients that are producing video and
    to which it has a video edge. Outside a stream room it gets one about
    every other client, including clients that produce nothing. For a client
    that never announced video and to which the joiner has no edges, that
    update has all SSRCs 0 and a default stream marked inactive. A client
    that announced video earlier keeps its stored stream after its video
    stops, and that stream is sent verbatim: it carries the producer's own
    announced SSRCs and `active` flag, which may be stale.
  - `onViewerReady`: a viewer asks the producer for a keyframe.
- **The gateway's stream keys** (`src/gateway/util/Utils.ts`):
  - `parseStreamKey` splits `guild:<guild>:<channel>:<user>` or
    `call:<channel>:<user>` on `:` into a record, or fails with one of the two
    errors the source throws.
  - `generateStreamKey` builds a key back from a record.

There are four files:

- `wrappers.dfy`: `Option` and `Result`.
- `stream_keys.dfy`: module `StreamKeys`. Splitting is modelled with
  JavaScript's `split(":")` semantics, with `Join` as its reference inverse.
  The parser and generator are functions, with round-trip lemmas.
- `signaling.dfy`: module `Signaling`. It holds the value types (participants,
  edges, consumers, payloads, envelopes, media-engine calls). It also holds the
  specification functions that say what each handler must produce, and the
  lemmas about them.
- `video.dfy`: module `VideoOpcodes`. A `Room` class holds four fields:
  - `clients`: the room's clients;
  - `subs`: the subscription edges, each with its consumer;
  - `outbox`: the messages sent;
  - `mediaCalls`: the log of media-engine calls.

  The handlers are methods with loops. Each method is proved against the
  specification functions of `Signaling`. The invariant `Valid` is kept
  by every handler and every media-engine primitive: no client is subscribed
  to itself, edges join clients of the room, and a client whose transport is not connected produces nothing.

Several inputs the source reads from outside the room become parameters:

- the stream record's owner (a database lookup);
- whether the transport connected before the readiness deadline (an event
  raced against a timer);
- the media engine's consumer allocation (`alloc`);
- the media engine's negotiated codecs (`codecsFor`);
- whether the room is a stream room.

The source sends updates from `Promise.all` over a JavaScript `Set`. This is
modelled as a loop that picks clients in an unspecified order. The order
actually used is returned as a ghost value.

## Model

| member | source | states |
|---|---|---|
| StreamKeys.Split | src/gateway/util/Utils.ts:10 | `split(":")` always yields at least one segment |
| StreamKeys.JoinSplit | src/gateway/util/Utils.ts:10 | joining the segments of a split with `:` gives back the original text, and no segment contains `:` |
| StreamKeys.SplitJoin | src/gateway/util/Utils.ts:10 | splitting `:`-joined separator-free segments gives back exactly those segments |
| StreamKeys.BadTypeRejected | src/gateway/util/Utils.ts:12-16 | a key whose first segment is neither `guild` nor `call` fails with the invalid-type error naming that segment |
| StreamKeys.TooFewSegmentsRejected | src/gateway/util/Utils.ts:18 | a guild key with fewer than 3 segments after the type, or a call key with fewer than 2, fails with the invalid-key error |
| StreamKeys.FieldPositions | src/gateway/util/Utils.ts:20-30 | for a key with enough segments: the guild id is segment 1 (guild keys only), then the channel id and user id come next; the key is rejected exactly when the channel id or user id is empty |
| StreamKeys.EmptyGuildIdAccepted | src/gateway/util/Utils.ts:20-30 | `guild::c:u` parses with an empty guild id, because only the channel and user ids are checked for emptiness |
| StreamKeys.TrailingSegmentsIgnored | src/gateway/util/Utils.ts:18-30 | segments after the required ones never change the result |
| StreamKeys.ParseStreamKey | src/gateway/util/Utils.ts:4-31 | a key fails only with the invalid-type error naming its first segment, exactly when that segment is neither `guild` nor `call`, or with the invalid-key error; a parsed key has non-empty, separator-free channel and user ids, and a guild id exactly when it is a guild key |
| StreamKeys.TemplateLiteral | src/gateway/util/Utils.ts:33-37 | the generated key is, for all inputs, the source's template literal: type, then `:` and the interpolated guild id for guild keys only, then `:` channel id and `:` user id |
| StreamKeys.GeneratedSegments | src/gateway/util/Utils.ts:33-37 | a generated key splits into type, guild id (guild keys only, `undefined` when absent), channel id and user id |
| StreamKeys.GenerateThenParse | src/gateway/util/Utils.ts:4-37 | parsing a generated key with separator-free, non-empty ids gives back the record it was built from; a call key comes back without a guild id |
| StreamKeys.GuildKeyWithoutGuildId | src/gateway/util/Utils.ts:33-37 | a guild key generated without a guild id parses with guild id `undefined` |
| StreamKeys.ParseThenGenerate | src/gateway/util/Utils.ts:4-37 | a key that parses and has exactly the required segments is rebuilt verbatim by the generator |
| Signaling.FirstActive | src/webrtc/opcodes/Video.ts:46 | `find(s => s.active)`: some result exactly when an active entry exists, and then it is the first active entry |
| Signaling.WantsVideoIff | src/webrtc/opcodes/Video.ts:46-50 | the producer wants video exactly when its video SSRC is non-zero and its streams list has an active entry |
| Signaling.StreamOwnerGate | src/webrtc/opcodes/Video.ts:33-44 | in a stream room, an announcement without a stream record, or from someone other than the stream's owner, is not admitted |
| Signaling.ReadinessGate | src/webrtc/opcodes/Video.ts:55-74 | a sender whose transport is not connected is admitted only if it wants audio and connects before the deadline (and passes the owner check) |
| Signaling.AfterAnnouncement | src/webrtc/opcodes/Video.ts:78-145 | after an announcement the sender is connected and produces exactly the wanted kinds; a running track is kept; when it wants video it holds the first active stream, typed "video" |
| Signaling.StartInOrder | src/webrtc/opcodes/Video.ts:78-119 | stopping, then the audio block, then the video block, reach that state and make exactly the publishes the announcement calls for |
| Signaling.StopBeforeStart | src/webrtc/opcodes/Video.ts:78-119 | in an announcement's media-engine calls every stop comes before every publish |
| Signaling.StoppedKinds | src/webrtc/opcodes/Video.ts:78-85 | a kind is stopped exactly when it is being produced and no longer wanted |
| Signaling.PublishedKinds | src/webrtc/opcodes/Video.ts:88-119 | a kind is published with the announced SSRCs exactly when it is wanted and not already produced; nothing else is published |
| Signaling.RepeatedAnnouncement | src/webrtc/opcodes/Video.ts:78-145 | repeating the same announcement calls the media engine for nothing and leaves the sender unchanged |
| Signaling.Others | src/webrtc/opcodes/Video.ts:98-99 | the clients iterated are exactly the room's clients other than the sender |
| Signaling.Subscribe | src/webrtc/opcodes/Video.ts:101-103 | subscribing adds exactly the given edges; an existing edge keeps its consumer and a new one gets the allocator's |
| Signaling.SubscribeAgain | src/webrtc/opcodes/Video.ts:97-144 | subscribing two batches of edges in turn equals subscribing their union |
| Signaling.AnnouncementCoverage | src/webrtc/opcodes/Video.ts:97-144 | after an announcement every other client has an edge to the sender for each wanted kind; old edges are kept (edges are taken to survive a stop, see "Left out"); every new edge is to the sender for a wanted kind; no self-edges |
| Signaling.NeedsUpdateIff | src/webrtc/opcodes/Video.ts:98-143 | a client needs an update exactly when it is another client and either the sender wants video, or it wants audio and the client had no audio edge to it |
| Signaling.NoFabricatedSsrc | src/webrtc/opcodes/Video.ts:149-195 | in the update an announcement sends (`ProducerPayload` over the SSRCs `Outgoing` reads off the edges), each SSRC is the recipient's consumer SSRC on that edge, and 0 exactly when the edge (or its rtx) is absent |
| Signaling.StreamsRewritten | src/webrtc/opcodes/Video.ts:196-201 | every `streams` entry is sent with the recipient's video and rtx SSRCs and type "video", otherwise unchanged, with the same length |
| Signaling.ProducerUpdatesAt | src/webrtc/opcodes/Video.ts:147-205 | the i-th update goes to the i-th recipient and carries that recipient's payload |
| Signaling.StreamRoomUpdatesCarryVideo | src/webrtc/opcodes/Video.ts:153-156 | in a stream room every update that passes the gate names the producer and carries a non-zero video SSRC |
| Signaling.JoinCoverage | src/webrtc/opcodes/Video.ts:327-345 | after reconciliation the late joiner has an edge for every kind each other client produces; old edges are kept; new edges are only from the joiner to a producer of that kind |
| Signaling.JoinSubscribeStep | src/webrtc/opcodes/Video.ts:335-345 | subscribing to one more producer adds its edges and leaves the joiner's SSRCs for the producers already handled unchanged |
| Signaling.JoinPayloadStream | src/webrtc/opcodes/Video.ts:365-394 | a join update names the producer, carries the codecs and exactly one stream: the producer's stored stream, or the default descriptor (rid "100", quality 100, 2500000 bps, 20 fps, fixed 1280x720, the joiner's SSRCs, active iff producing video); a stored stream is sent verbatim, with the producer's own SSRCs, unlike the rewritten entries of an announcement's update |
| Signaling.JoinNoFabricatedSsrc | src/webrtc/opcodes/Video.ts:350-376 | in the update a late joiner gets about a producer (`JoinPayload`), the top-level audio, video and rtx SSRCs are the joiner's consumer SSRCs on its edges to that producer, and 0 exactly when the edge (or its rtx) is absent; the stream entry's SSRCs are not covered |
| Signaling.StoredStreamOutlivesVideo | src/webrtc/opcodes/Video.ts:110-111 | after an announcement without video the producer no longer produces video, yet a late joiner is still sent its last announced stream verbatim (Video.ts:381) |
| Signaling.JoinUpdatesAt | src/webrtc/opcodes/Video.ts:365-394 | the i-th join update goes to the joiner and is about the i-th listed producer |
| Signaling.JoinUpdatesFrame | src/webrtc/opcodes/Video.ts:327-394 | updates already sent stay what they were while edges to other producers are added |
| Signaling.JoinOrderStep | src/webrtc/opcodes/Video.ts:356-365 | one more producer is listed exactly when the stream-room gate lets it through, and the list stays duplicate-free |
| Signaling.StreamRoomJoinUpdatesCarryVideo | src/webrtc/opcodes/Video.ts:356-362 | in a stream room every join update names a client that produces video and carries a non-zero video SSRC |
| VideoOpcodes.Room.SubscribeToTrack | src/webrtc/opcodes/Video.ts:101-103 | the edge exists afterwards; an existing edge keeps its consumer |
| VideoOpcodes.Room.PublishTrack | src/webrtc/opcodes/Video.ts:88-119 | the client produces the kind with the given SSRCs, and the publish is logged |
| VideoOpcodes.Room.StopPublishingTrack | src/webrtc/opcodes/Video.ts:79-85 | the client stops producing the kind, and the stop is logged |
| VideoOpcodes.Room.SubscribeViewers | src/webrtc/opcodes/Video.ts:98-107 | the loop subscribes every viewer to the producer's track of that kind and returns the newly subscribed viewers, or all of them for video |
| VideoOpcodes.Room.SendProducerUpdates | src/webrtc/opcodes/Video.ts:147-205 | the outbox grows by one update per recipient that passes the stream gate, each recipient exactly once, in the order chosen |
| VideoOpcodes.Room.StopUnwantedTracks | src/webrtc/opcodes/Video.ts:78-85 | the sender's unwanted tracks are stopped and exactly those stops are logged |
| VideoOpcodes.Room.StartAudio | src/webrtc/opcodes/Video.ts:88-108 | the audio block: publish if not yet produced, subscribe every other client, and mark the newly subscribed ones for an update |
| VideoOpcodes.Room.StartVideo | src/webrtc/opcodes/Video.ts:110-145 | the video block: store the active stream, publish if not yet produced, subscribe every other client, and mark all of them for an update |
| VideoOpcodes.Room.StartTracks | src/webrtc/opcodes/Video.ts:88-145 | the audio block then the video block: the wanted edges exist and the clients needing an update are exactly those `NeedsUpdate` names |
| VideoOpcodes.Room.UpdateTracks | src/webrtc/opcodes/Video.ts:78-145 | the sender becomes `AfterAnnouncement`, the engine calls are the stops and then the publishes, the wanted edges are subscribed, and the clients to update are returned |
| VideoOpcodes.Room.ProcessAnnouncement | src/webrtc/opcodes/Video.ts:76-205 | a sink-wants message to the sender, then the track changes, then one update per client needing one that passes the gate |
| VideoOpcodes.Room.OnVideo | src/webrtc/opcodes/Video.ts:24-206 | an announcement that is not admitted changes nothing; an admitted one has exactly the effect `ProcessAnnouncement` states, measured from the state before |
| VideoOpcodes.Room.ConnectedFlagIrrelevant | src/webrtc/opcodes/Video.ts:55-76 | marking the sender connected before processing does not change what the announcement's outcome is, measured from the old state |
| VideoOpcodes.Room.OnViewerReady | src/webrtc/opcodes/Video.ts:214-313 | a keyframe is requested, once, exactly when the viewer has a client and names a non-empty producer id; nothing else changes |
| VideoOpcodes.Room.SubscribeIfProducing | src/webrtc/opcodes/Video.ts:335-345 | the joiner is subscribed to the producer's track of a kind exactly when the producer produces it |
| VideoOpcodes.Room.ReconcileWith | src/webrtc/opcodes/Video.ts:329-394 | one producer's edges are subscribed; an update is sent always outside a stream room and, in a stream room, exactly when the producer produces video and the joiner has a video SSRC for it; it is that producer's join payload |
| VideoOpcodes.Room.ReconcileStep | src/webrtc/opcodes/Video.ts:327-399 | the loop invariant is kept by one more producer |
| VideoOpcodes.Room.SubscribeToProducers | src/webrtc/opcodes/Video.ts:316-401 | a viewer without a connected transport changes nothing; otherwise it is subscribed to every track each other client produces, and gets one update about each other client, each exactly once; in a stream room only about clients producing video with a non-zero video SSRC for it |

## Left out

- The readiness wait races the transport's "connected" event against a 3-second timer. It is the boolean `connectedInTime`. Timing, and the event arriving after the timeout, are not modelled.
- The fan-out sends of `onVideo` run concurrently (`Promise.all`), and so does the whole per-client body of `subscribeToProducers`, including its subscribe calls. Both are modelled as sequential steps in an unspecified order, so interleavings between awaits are not captured. The publish and subscribe calls of `onVideo` are awaited one at a time in the source and are sequential in the model too.
- The media engine (mediasoup) is not part of this model. Consumer allocation and codec negotiation are the abstract functions `alloc` and `codecsFor`. A consumer SSRC is assumed non-zero.
- Engine failures are not modelled: a throwing `publishTrack`/`subscribeToTrack`, the `try`/`catch` in `subscribeToProducers`, and the boolean `requestKeyFrame` returns.
- The database lookup of the stream record is the `streamOwner` parameter (`None` when no record exists).
- Payload schema validation is not modelled. The announcement's fields are taken as present, with 0 standing for an absent SSRC.
- Debug logging (`console` and the `fetch` calls to a local log collector) is left out, because it has no effect on room state.
- `Send` is an append to the outbox. Numeric opcodes and JSON framing are not modelled.
- Joining and leaving a room, and the wiring that calls the handlers, are not part of this model.
- The `needsUpdate` flag in `subscribeToProducers` is set but never read, so it is not modelled.
- The stream-room flag (`this.type === "stream"`) belongs to each socket. It is modelled as one constant per room, so every socket in a room is taken to have the same type.
- `cleanupOnStartup` in `src/gateway/util/Utils.ts` is left out. At startup it empties the stored voice-state and session tables and logs both tables' counts before and after; it consists of database calls only.
- VideoOpcodes.Room.StopPublishingTrack: the model takes a stop to change only the producer's own record and the call log. Viewers' edges to the stopped track, and the consumer SSRCs `getOutgoingStreamSSRCsForUser` reads from them, are assumed to survive it. The media engine's real effect on consumers is not part of this model. So after a stop and a fresh audio announcement, a viewer that already had an audio edge is neither re-subscribed nor sent a new update. The producer's stored `videoStream` is likewise assumed to survive a stop: the handlers never clear it, and whether the engine's stop resets it is not visible here.
- VideoOpcodes.Room.SubscribeToProducers: the fan-out order is a ghost out-value. The contract fixes which updates are sent and that each goes out once, not the order the JavaScript runtime would use.
- VideoOpcodes.Room.SendProducerUpdates: same as above for the order of the updates.
