/**
 * Values and specification functions of the voice/video signalling core:
 * what a producer announces, what a participant publishes, the subscription
 * edges between participants, and the op-12 updates sent to viewers.
 */
module Signaling {
  import opened Wrappers

  type UserId = string

  /** The two media kinds a participant can publish or consume. */
  datatype Kind = Audio | Video

  /** An SSRC the media engine assigns to a consumer: never zero. */
  type ConsumerSsrc = n: nat | n != 0 witness 1

  /** What subscribing a viewer to one track of a producer yields. */
  datatype Consumer = Consumer(ssrc: ConsumerSsrc, rtxSsrc: Option<ConsumerSsrc>)

  /** A subscription edge: `viewer` consumes `producer`'s track of `kind`. */
  datatype Edge = Edge(viewer: UserId, producer: UserId, kind: Kind)

  datatype Resolution = Resolution(resolutionType: string, width: nat, height: nat)

  /** One entry of a `streams` list. */
  datatype StreamDescriptor = StreamDescriptor(
    streamType: string, rid: string, ssrc: nat, rtxSsrc: nat, active: bool,
    quality: nat, maxBitrate: nat, maxFramerate: nat, maxResolution: Resolution)

  datatype VideoTrack = VideoTrack(videoSsrc: nat, rtxSsrc: nat)

  /**
   * One connected client of a room: whether its transport is connected, the
   * audio and video tracks it is producing, and the stream descriptor it last
   * announced with video.
   */
  datatype Participant = Participant(
    connected: bool, audioSsrc: Option<nat>, video: Option<VideoTrack>,
    videoStream: Option<StreamDescriptor>)

  /** The producer's message: its SSRCs (0 = not sending) and its streams. */
  datatype ProducerState = ProducerState(
    audioSsrc: nat, videoSsrc: nat, rtxSsrc: nat, streams: Option<seq<StreamDescriptor>>)

  /** A viewer's consumer SSRCs for one producer; absent where no edge exists. */
  datatype OutgoingSsrcs = OutgoingSsrcs(
    audio: Option<ConsumerSsrc>, video: Option<ConsumerSsrc>, rtx: Option<ConsumerSsrc>)

  /** Payload types the media engine negotiated for a viewer and producer. */
  datatype Codecs = Codecs(audioPt: nat, videoPt: nat, rtxPt: nat)

  /** Body of an op-12 (VIDEO) message. */
  datatype VideoPayload = VideoPayload(
    userId: UserId, audioSsrc: nat, videoSsrc: nat, rtxSsrc: nat,
    codecs: Option<Codecs>, streams: Option<seq<StreamDescriptor>>)

  datatype Message = MediaSinkWants(any: nat) | TrackUpdate(payload: VideoPayload)

  datatype Envelope = Envelope(to: UserId, message: Message)

  /** Calls into the media engine, in the order they are made. */
  datatype MediaCall =
    | Publish(user: UserId, kind: Kind, ssrc: nat, rtxSsrc: Option<nat>)
    | Stop(user: UserId, kind: Kind)
    | RequestKeyFrame(viewer: UserId, producer: UserId)

  // ---------------------------------------------------------------------------
  // Desired state of the producer
  // ---------------------------------------------------------------------------

  /** `streams.find(s => s.active)`: the first active entry, if any. */
  function FirstActive(streams: seq<StreamDescriptor>): (r: Option<StreamDescriptor>)
    ensures r.Some? <==> exists i :: 0 <= i < |streams| && streams[i].active
    ensures r.Some? ==> exists i :: 0 <= i < |streams| && streams[i] == r.value && r.value.active &&
                          forall j :: 0 <= j < i ==> !streams[j].active
  {
    if streams == [] then None
    else if streams[0].active then Some(streams[0])
    else
      var r := FirstActive(streams[1..]);
      assert forall i :: 1 <= i < |streams| ==> streams[i] == streams[1..][i - 1];
      r
  }

  function ActiveStream(d: ProducerState): Option<StreamDescriptor> {
    if d.streams.None? then None else FirstActive(d.streams.value)
  }

  predicate WantsAudio(d: ProducerState) { d.audioSsrc != 0 }

  predicate WantsVideo(d: ProducerState) { d.videoSsrc != 0 && ActiveStream(d).Some? }

  predicate Wants(d: ProducerState, k: Kind) {
    match k
    case Audio => WantsAudio(d)
    case Video => WantsVideo(d)
  }

  predicate Producing(p: Participant, k: Kind) {
    match k
    case Audio => p.audioSsrc.Some?
    case Video => p.video.Some?
  }

  lemma WantsVideoIff(d: ProducerState)
    ensures WantsVideo(d) <==>
      d.videoSsrc != 0 && d.streams.Some? &&
      exists i :: 0 <= i < |d.streams.value| && d.streams.value[i].active
  {
  }

  // ---------------------------------------------------------------------------
  // Gates a message must pass before anything changes
  // ---------------------------------------------------------------------------

  /**
   * Whether an announcement from `sender` is acted on: the sender has a
   * client; in a stream room a stream record exists and the sender owns it;
   * and its transport is connected, or it wants audio and became connected
   * before the readiness deadline.
   */
  predicate Admitted(streamRoom: bool, clients: map<UserId, Participant>, sender: UserId,
                     d: ProducerState, streamOwner: Option<UserId>, connectedInTime: bool)
  {
    && sender in clients
    && (streamRoom ==> streamOwner == Some(sender))
    && (clients[sender].connected || (WantsAudio(d) && connectedInTime))
  }

  lemma StreamOwnerGate(clients: map<UserId, Participant>, sender: UserId, d: ProducerState,
                        streamOwner: Option<UserId>, connectedInTime: bool)
    requires streamOwner.None? || streamOwner.value != sender
    ensures !Admitted(true, clients, sender, d, streamOwner, connectedInTime)
  {
  }

  lemma ReadinessGate(streamRoom: bool, clients: map<UserId, Participant>, sender: UserId,
                      d: ProducerState, streamOwner: Option<UserId>, connectedInTime: bool)
    requires sender in clients && !clients[sender].connected
    ensures !WantsAudio(d) ==> !Admitted(streamRoom, clients, sender, d, streamOwner, connectedInTime)
    ensures !connectedInTime ==> !Admitted(streamRoom, clients, sender, d, streamOwner, connectedInTime)
    ensures WantsAudio(d) && connectedInTime && (streamRoom ==> streamOwner == Some(sender)) ==>
      Admitted(streamRoom, clients, sender, d, streamOwner, connectedInTime)
  {
  }

  // ---------------------------------------------------------------------------
  // The producer's own tracks
  // ---------------------------------------------------------------------------

  /**
   * The sender after a processed announcement: connected, producing exactly
   * the wanted kinds, keeping a track that was already running, and holding
   * the first active stream (typed "video") when it wants video.
   */
  function AfterAnnouncement(p: Participant, d: ProducerState): (q: Participant)
    ensures q.connected
    ensures forall k :: Producing(q, k) <==> Wants(d, k)
    ensures WantsAudio(d) ==> q.audioSsrc == if p.audioSsrc.Some? then p.audioSsrc else Some(d.audioSsrc)
    ensures WantsVideo(d) ==> q.video == if p.video.Some? then p.video else Some(VideoTrack(d.videoSsrc, d.rtxSsrc))
    ensures WantsVideo(d) ==> q.videoStream.Some? && q.videoStream.value.streamType == "video" &&
                              q.videoStream.value == ActiveStream(d).value.(streamType := "video")
    ensures !WantsVideo(d) ==> q.videoStream == p.videoStream
  {
    Participant(
      true,
      if !WantsAudio(d) then None else if p.audioSsrc.Some? then p.audioSsrc else Some(d.audioSsrc),
      if !WantsVideo(d) then None else if p.video.Some? then p.video else Some(VideoTrack(d.videoSsrc, d.rtxSsrc)),
      if WantsVideo(d) then Some(ActiveStream(d).value.(streamType := "video")) else p.videoStream)
  }

  function StopCalls(user: UserId, p: Participant, d: ProducerState): seq<MediaCall> {
    (if !WantsAudio(d) && Producing(p, Audio) then [Stop(user, Audio)] else [])
    + (if !WantsVideo(d) && Producing(p, Video) then [Stop(user, Video)] else [])
  }


  /** The media-engine calls one announcement makes: stops first, then publishes. */
  function AnnouncementCalls(user: UserId, p: Participant, d: ProducerState): seq<MediaCall> {
    StopCalls(user, p, d) + PublishCalls(user, p, d)
  }

  /** The sender after its unwanted tracks are stopped. */
  function Stopped(p: Participant, d: ProducerState): Participant {
    p.(audioSsrc := if WantsAudio(d) then p.audioSsrc else None,
       video := if WantsVideo(d) then p.video else None)
  }

  /** The audio block's effect on the sender: a running audio track is kept, else the announced one starts. */
  function AudioStarted(p: Participant, d: ProducerState): Participant {
    if WantsAudio(d) && p.audioSsrc.None? then p.(audioSsrc := Some(d.audioSsrc)) else p
  }

  /**
   * The video block's effect on the sender: it holds the active stream,
   * typed "video", and a running video track is kept, else the announced
   * one starts.
   */
  function VideoStarted(p: Participant, d: ProducerState): Participant {
    if !WantsVideo(d) then p
    else p.(videoStream := Some(ActiveStream(d).value.(streamType := "video")),
            video := if p.video.Some? then p.video else Some(VideoTrack(d.videoSsrc, d.rtxSsrc)))
  }

  /** The publish the block for kind `k` makes: none unless `k` is wanted and not yet produced. */
  function PublishCall(user: UserId, p: Participant, d: ProducerState, k: Kind): seq<MediaCall> {
    if !Wants(d, k) || Producing(p, k) then []
    else match k
      case Audio => [Publish(user, Audio, d.audioSsrc, None)]
      case Video => [Publish(user, Video, d.videoSsrc, Some(d.rtxSsrc))]
  }

  /** The publishes an announcement makes on `p`: audio's, then video's. */
  function PublishCalls(user: UserId, p: Participant, d: ProducerState): seq<MediaCall> {
    PublishCall(user, p, d, Audio) + PublishCall(user, p, d, Video)
  }

  /**
   * Stopping, then the audio block, then the video block, on a connected
   * sender, end in `AfterAnnouncement` and make the publishes
   * `PublishCalls` lists.
   */
  lemma StartInOrder(user: UserId, p: Participant, d: ProducerState)
    requires p.connected
    ensures VideoStarted(AudioStarted(Stopped(p, d), d), d) == AfterAnnouncement(p, d)
    ensures PublishCall(user, Stopped(p, d), d, Audio) + PublishCall(user, AudioStarted(Stopped(p, d), d), d, Video)
         == PublishCalls(user, p, d)
  {
  }

  /** Every stop comes before every publish. */
  lemma StopBeforeStart(user: UserId, p: Participant, d: ProducerState)
    ensures var calls, n := AnnouncementCalls(user, p, d), |StopCalls(user, p, d)|;
      && (forall i :: 0 <= i < n ==> calls[i].Stop?)
      && (forall i :: n <= i < |calls| ==> calls[i].Publish?)
  {
    var stops, pubs := StopCalls(user, p, d), PublishCalls(user, p, d);
    assert forall c :: c in stops ==> c.Stop?;
    assert forall c :: c in pubs ==> c.Publish?;
    var calls := stops + pubs;
    forall i | |stops| <= i < |calls| ensures calls[i].Publish? {
      assert calls[i] == pubs[i - |stops|];
    }
  }

  /** A kind is stopped exactly when it is produced but no longer wanted. */
  lemma StoppedKinds(user: UserId, p: Participant, d: ProducerState, k: Kind)
    ensures Stop(user, k) in AnnouncementCalls(user, p, d) <==> !Wants(d, k) && Producing(p, k)
  {
    var stops, pubs := StopCalls(user, p, d), PublishCalls(user, p, d);
    assert forall c :: c in pubs ==> c.Publish?;
  }

  /**
   * A kind is published, with the SSRCs the producer announced, exactly when
   * it is wanted and not yet produced; nothing else is published.
   */
  lemma PublishedKinds(user: UserId, p: Participant, d: ProducerState)
    ensures Publish(user, Audio, d.audioSsrc, None) in AnnouncementCalls(user, p, d) <==>
      WantsAudio(d) && !Producing(p, Audio)
    ensures Publish(user, Video, d.videoSsrc, Some(d.rtxSsrc)) in AnnouncementCalls(user, p, d) <==>
      WantsVideo(d) && !Producing(p, Video)
    ensures forall c :: c in AnnouncementCalls(user, p, d) && c.Publish? ==>
      c == Publish(user, Audio, d.audioSsrc, None) || c == Publish(user, Video, d.videoSsrc, Some(d.rtxSsrc))
  {
    var stops, pubs := StopCalls(user, p, d), PublishCalls(user, p, d);
    assert forall c :: c in stops ==> c.Stop?;
    assert forall c :: c in stops + pubs <==> c in stops || c in pubs;
  }

  /** Repeating an announcement publishes and stops nothing and leaves the sender as it was. */
  lemma RepeatedAnnouncement(user: UserId, p: Participant, d: ProducerState)
    ensures AnnouncementCalls(user, AfterAnnouncement(p, d), d) == []
    ensures AfterAnnouncement(AfterAnnouncement(p, d), d) == AfterAnnouncement(p, d)
  {
  }

  // ---------------------------------------------------------------------------
  // Subscription edges
  // ---------------------------------------------------------------------------

  /** Every client of the room except `self`. */
  function Others(clients: map<UserId, Participant>, self: UserId): (r: set<UserId>)
    ensures self !in r && r <= clients.Keys
    ensures forall u :: u in clients && u != self ==> u in r
  {
    clients.Keys - {self}
  }

  function EdgesFrom(viewers: set<UserId>, producer: UserId, k: Kind): set<Edge> {
    set v | v in viewers :: Edge(v, producer, k)
  }

  /** The edges from every client in `others` to `producer`'s track of kind `k`, if `k` is wanted. */
  function WantedKindEdges(others: set<UserId>, producer: UserId, d: ProducerState, k: Kind): set<Edge> {
    if Wants(d, k) then EdgesFrom(others, producer, k) else {}
  }

  /** The edges to `producer` that an announcement requires: every other client, each wanted kind. */
  function WantedEdges(others: set<UserId>, producer: UserId, d: ProducerState): set<Edge> {
    WantedKindEdges(others, producer, d, Audio) + WantedKindEdges(others, producer, d, Video)
  }

  /**
   * The edge map after subscribing every edge of `edges`: an existing edge
   * keeps its consumer, a new one gets what the allocator assigns.
   */
  function Subscribe(subs: map<Edge, Consumer>, edges: set<Edge>, alloc: Edge -> Consumer): (r: map<Edge, Consumer>)
    ensures r.Keys == subs.Keys + edges
    ensures forall e :: e in subs ==> r[e] == subs[e]
    ensures forall e :: e in r && e !in subs ==> r[e] == alloc(e)
  {
    map e | e in subs.Keys + edges :: if e in subs then subs[e] else alloc(e)
  }

  lemma SubscribeAgain(subs: map<Edge, Consumer>, a: set<Edge>, b: set<Edge>, alloc: Edge -> Consumer)
    ensures Subscribe(Subscribe(subs, a, alloc), b, alloc) == Subscribe(subs, a + b, alloc)
  {
  }

  /** Subscribing no edge changes nothing. */
  lemma SubscribeNothing(subs: map<Edge, Consumer>, alloc: Edge -> Consumer)
    ensures Subscribe(subs, {}, alloc) == subs
  {
  }

  /** Subscribing an edge that exists changes nothing. */
  lemma SubscribeExisting(subs: map<Edge, Consumer>, e: Edge, alloc: Edge -> Consumer)
    requires e in subs
    ensures Subscribe(subs, {e}, alloc) == subs
  {
  }

  /** One more viewer subscribed to `producer`'s track of kind `k`. */
  lemma SubscribeOneMore(subs: map<Edge, Consumer>, done: set<UserId>, v: UserId, producer: UserId, k: Kind,
                         alloc: Edge -> Consumer)
    ensures Subscribe(Subscribe(subs, EdgesFrom(done, producer, k), alloc), {Edge(v, producer, k)}, alloc)
         == Subscribe(subs, EdgesFrom(done + {v}, producer, k), alloc)
  {
    assert EdgesFrom(done + {v}, producer, k) == EdgesFrom(done, producer, k) + {Edge(v, producer, k)};
    SubscribeAgain(subs, EdgesFrom(done, producer, k), {Edge(v, producer, k)}, alloc);
  }

  /**
   * After an announcement every other client has an edge to the sender for
   * each wanted kind, existing edges are kept, and nobody is subscribed to
   * itself.
   */
  lemma AnnouncementCoverage(clients: map<UserId, Participant>, subs: map<Edge, Consumer>,
                             sender: UserId, d: ProducerState, alloc: Edge -> Consumer)
    requires forall e :: e in subs ==> e.viewer != e.producer
    ensures var r := Subscribe(subs, WantedEdges(Others(clients, sender), sender, d), alloc);
      && (forall v, k :: v in clients && v != sender && Wants(d, k) ==> Edge(v, sender, k) in r)
      && (forall e :: e in r ==> e.viewer != e.producer)
      && (forall e :: e in r && e !in subs ==> e.producer == sender && e.viewer in clients && Wants(d, e.kind))
  {
    var others := Others(clients, sender);
    forall v, k | v in clients && v != sender && Wants(d, k)
      ensures Edge(v, sender, k) in WantedEdges(others, sender, d)
    {
      assert v in others;
      assert Edge(v, sender, k) in EdgesFrom(others, sender, k);
    }
  }

  /**
   * The other clients the block for kind `k` marks for an update: for
   * audio, those it newly subscribed; for video, all of them.
   */
  function NeedsKindUpdate(others: set<UserId>, subs: map<Edge, Consumer>, producer: UserId, d: ProducerState,
                           k: Kind): set<UserId> {
    if !Wants(d, k) then {}
    else match k
      case Audio => set v | v in others && Edge(v, producer, Audio) !in subs
      case Video => others
  }

  /**
   * Who gets an update after an announcement: for audio only the clients
   * subscribed just now, for video every other client.
   */
  function NeedsUpdate(others: set<UserId>, subs: map<Edge, Consumer>, producer: UserId, d: ProducerState): set<UserId> {
    NeedsKindUpdate(others, subs, producer, d, Audio) + NeedsKindUpdate(others, subs, producer, d, Video)
  }

  lemma NeedsUpdateIff(others: set<UserId>, subs: map<Edge, Consumer>, producer: UserId, d: ProducerState, v: UserId)
    ensures v in NeedsUpdate(others, subs, producer, d) <==>
      v in others && (WantsVideo(d) || (WantsAudio(d) && Edge(v, producer, Audio) !in subs))
  {
  }

  // ---------------------------------------------------------------------------
  // Outgoing identifiers and op-12 payloads
  // ---------------------------------------------------------------------------

  /** `getOutgoingStreamSSRCsForUser`: read off the viewer's edges to the producer. */
  function Outgoing(subs: map<Edge, Consumer>, viewer: UserId, producer: UserId): OutgoingSsrcs {
    var a, v := Edge(viewer, producer, Audio), Edge(viewer, producer, Video);
    OutgoingSsrcs(
      if a in subs then Some(subs[a].ssrc) else None,
      if v in subs then Some(subs[v].ssrc) else None,
      if v in subs then subs[v].rtxSsrc else None)
  }

  /** `x ?? 0`. */
  function OrZero(x: Option<ConsumerSsrc>): nat {
    if x.Some? then x.value else 0
  }

  /** The stream-room gate: no update without a video SSRC. */
  predicate StreamGated(streamRoom: bool, ssrcs: OutgoingSsrcs) {
    streamRoom && OrZero(ssrcs.video) == 0
  }

  /** Each `streams` entry with the recipient's video and rtx SSRCs and type "video". */
  function RewriteStreams(streams: Option<seq<StreamDescriptor>>, ssrcs: OutgoingSsrcs): Option<seq<StreamDescriptor>> {
    if streams.None? then None
    else
      var s := streams.value;
      Some(seq(|s|, i requires 0 <= i < |s| =>
        s[i].(ssrc := OrZero(ssrcs.video), rtxSsrc := OrZero(ssrcs.rtx), streamType := "video")))
  }

  /** The op-12 payload a producer's announcement sends to one recipient. */
  function ProducerPayload(producer: UserId, ssrcs: OutgoingSsrcs, streams: Option<seq<StreamDescriptor>>): VideoPayload {
    VideoPayload(producer, OrZero(ssrcs.audio), OrZero(ssrcs.video), OrZero(ssrcs.rtx), None,
                 RewriteStreams(streams, ssrcs))
  }

  /**
   * A payload about `producer` never carries a made-up SSRC: each field is
   * the viewer's consumer SSRC on the matching edge, or 0 exactly when that
   * edge (or its rtx) is absent.
   */
  predicate SsrcsFromEdges(pl: VideoPayload, subs: map<Edge, Consumer>, viewer: UserId, producer: UserId) {
    var a, v := Edge(viewer, producer, Audio), Edge(viewer, producer, Video);
    && pl.userId == producer
    && (pl.audioSsrc == 0 <==> a !in subs)
    && (a in subs ==> pl.audioSsrc == subs[a].ssrc)
    && (pl.videoSsrc == 0 <==> v !in subs)
    && (v in subs ==> pl.videoSsrc == subs[v].ssrc)
    && (pl.rtxSsrc == 0 <==> v !in subs || subs[v].rtxSsrc.None?)
    && (v in subs && subs[v].rtxSsrc.Some? ==> pl.rtxSsrc == subs[v].rtxSsrc.value)
  }

  /** The update an announcement sends carries the recipient's own SSRCs for the producer. */
  lemma NoFabricatedSsrc(subs: map<Edge, Consumer>, viewer: UserId, producer: UserId, streams: Option<seq<StreamDescriptor>>)
    ensures SsrcsFromEdges(ProducerPayload(producer, Outgoing(subs, viewer, producer), streams), subs, viewer, producer)
  {
  }

  /** Every `streams` entry is rewritten to the recipient's SSRCs and typed "video"; nothing else changes. */
  lemma StreamsRewritten(producer: UserId, ssrcs: OutgoingSsrcs, streams: Option<seq<StreamDescriptor>>)
    ensures var pl := ProducerPayload(producer, ssrcs, streams);
      && (pl.streams.Some? <==> streams.Some?)
      && (streams.Some? ==>
            && |pl.streams.value| == |streams.value|
            && forall i :: 0 <= i < |streams.value| ==>
                 pl.streams.value[i] == streams.value[i].(ssrc := pl.videoSsrc, rtxSsrc := pl.rtxSsrc, streamType := "video"))
  {
  }

  /** The updates sent for a producer, one per recipient in `order`. */
  function ProducerUpdates(producer: UserId, order: seq<UserId>, subs: map<Edge, Consumer>,
                           streams: Option<seq<StreamDescriptor>>): (r: seq<Envelope>)
    ensures |r| == |order|
  {
    if order == [] then []
    else
      var c := order[|order| - 1];
      ProducerUpdates(producer, order[..|order| - 1], subs, streams)
        + [Envelope(c, TrackUpdate(ProducerPayload(producer, Outgoing(subs, c, producer), streams)))]
  }

  lemma {:induction false} ProducerUpdatesAt(producer: UserId, order: seq<UserId>, subs: map<Edge, Consumer>,
                                             streams: Option<seq<StreamDescriptor>>, i: nat)
    requires i < |order|
    ensures ProducerUpdates(producer, order, subs, streams)[i] ==
      Envelope(order[i], TrackUpdate(ProducerPayload(producer, Outgoing(subs, order[i], producer), streams)))
  {
    if i < |order| - 1 {
      ProducerUpdatesAt(producer, order[..|order| - 1], subs, streams, i);
    }
  }

  /**
   * In a stream room, if no recipient in `order` is gated, every update sent
   * names the producer and carries a non-zero video SSRC.
   */
  lemma StreamRoomUpdatesCarryVideo(producer: UserId, order: seq<UserId>, subs: map<Edge, Consumer>,
                                    streams: Option<seq<StreamDescriptor>>)
    requires forall c :: c in order ==> !StreamGated(true, Outgoing(subs, c, producer))
    ensures forall m :: m in ProducerUpdates(producer, order, subs, streams) ==>
      m.message.TrackUpdate? && m.message.payload.userId == producer && m.message.payload.videoSsrc != 0
  {
    var r := ProducerUpdates(producer, order, subs, streams);
    forall m | m in r
      ensures m.message.TrackUpdate? && m.message.payload.userId == producer && m.message.payload.videoSsrc != 0
    {
      var i :| 0 <= i < |r| && r[i] == m;
      ProducerUpdatesAt(producer, order, subs, streams, i);
      assert order[i] in order;
    }
  }

  // ---------------------------------------------------------------------------
  // Join-time reconciliation
  // ---------------------------------------------------------------------------

  /** The edge from `viewer` to `producer`'s track of kind `k`, if it is producing one. */
  function KindEdge(viewer: UserId, producerId: UserId, producer: Participant, k: Kind): set<Edge> {
    if Producing(producer, k) then {Edge(viewer, producerId, k)} else {}
  }

  /** The edges from `viewer` to one producer: one per kind it is producing. */
  function ProducerEdges(viewer: UserId, producerId: UserId, producer: Participant): set<Edge> {
    KindEdge(viewer, producerId, producer, Audio) + KindEdge(viewer, producerId, producer, Video)
  }

  /** The edges a late joiner needs to the clients in `producers`: one per kind each is producing. */
  function JoinEdges(viewer: UserId, producers: set<UserId>, clients: map<UserId, Participant>): set<Edge> {
    set c, k | c in producers && c in clients && k in {Audio, Video} && Producing(clients[c], k) :: Edge(viewer, c, k)
  }

  lemma JoinEdgesStep(viewer: UserId, done: set<UserId>, c: UserId, clients: map<UserId, Participant>)
    requires c in clients
    ensures JoinEdges(viewer, done + {c}, clients) == JoinEdges(viewer, done, clients) + ProducerEdges(viewer, c, clients[c])
  {
    assert Audio in {Audio, Video} && Video in {Audio, Video};
  }

  /**
   * After reconciliation the late joiner has an edge for every kind each
   * other client produces, existing edges are kept, and nobody is subscribed
   * to itself.
   */
  lemma JoinCoverage(viewer: UserId, clients: map<UserId, Participant>, subs: map<Edge, Consumer>, alloc: Edge -> Consumer)
    requires forall e :: e in subs ==> e.viewer != e.producer
    ensures var r := Subscribe(subs, JoinEdges(viewer, Others(clients, viewer), clients), alloc);
      && (forall c, k :: c in clients && c != viewer && Producing(clients[c], k) ==> Edge(viewer, c, k) in r)
      && (forall e :: e in r ==> e.viewer != e.producer)
      && (forall e :: e in r && e !in subs ==> e.viewer == viewer && e.producer in clients && Producing(clients[e.producer], e.kind))
  {
    forall c, k | c in clients && c != viewer && Producing(clients[c], k)
      ensures Edge(viewer, c, k) in JoinEdges(viewer, Others(clients, viewer), clients)
    {
      assert c in Others(clients, viewer);
      assert k in {Audio, Video};
    }
  }

  /** Edges to one producer leave a viewer's identifiers for every other producer as they were. */
  lemma OutgoingFrame(subs: map<Edge, Consumer>, edges: set<Edge>, alloc: Edge -> Consumer, viewer: UserId, producer: UserId)
    requires forall e :: e in edges ==> e.producer != producer
    ensures Outgoing(Subscribe(subs, edges, alloc), viewer, producer) == Outgoing(subs, viewer, producer)
  {
  }

  /**
   * Reconciling with one more producer `c`: the edges made so far grow by
   * `c`'s edges, and the viewer's identifiers for the producers already
   * reconciled stay as they were.
   */
  lemma JoinSubscribeStep(viewer: UserId, done: set<UserId>, c: UserId, clients: map<UserId, Participant>,
                          s0: map<Edge, Consumer>, before: map<Edge, Consumer>, after: map<Edge, Consumer>,
                          alloc: Edge -> Consumer)
    requires c in clients && c !in done
    requires before == Subscribe(s0, JoinEdges(viewer, done, clients), alloc)
    requires after == Subscribe(before, ProducerEdges(viewer, c, clients[c]), alloc)
    ensures after == Subscribe(s0, JoinEdges(viewer, done + {c}, clients), alloc)
    ensures forall p :: p in done ==> Outgoing(after, viewer, p) == Outgoing(before, viewer, p)
  {
    var edges := ProducerEdges(viewer, c, clients[c]);
    JoinEdgesStep(viewer, done, c, clients);
    SubscribeAgain(s0, JoinEdges(viewer, done, clients), edges, alloc);
    forall p | p in done
      ensures Outgoing(after, viewer, p) == Outgoing(before, viewer, p)
    {
      OutgoingFrame(before, edges, alloc, viewer, p);
    }
  }

  /** The descriptor sent for a producer that never announced one. */
  function DefaultStream(ssrcs: OutgoingSsrcs, producingVideo: bool): StreamDescriptor {
    StreamDescriptor("video", "100", OrZero(ssrcs.video), OrZero(ssrcs.rtx), producingVideo,
                     100, 2500000, 20, Resolution("fixed", 1280, 720))
  }

  /** The stream-room gate of reconciliation: the producer must be producing video too. */
  predicate JoinGated(streamRoom: bool, producer: Participant, ssrcs: OutgoingSsrcs) {
    streamRoom && (!Producing(producer, Video) || OrZero(ssrcs.video) == 0)
  }

  /** The op-12 payload a late joiner gets about one producer. */
  function JoinPayload(producerId: UserId, producer: Participant, ssrcs: OutgoingSsrcs, codecs: Codecs): VideoPayload {
    VideoPayload(producerId, OrZero(ssrcs.audio), OrZero(ssrcs.video), OrZero(ssrcs.rtx), Some(codecs),
                 Some([if producer.videoStream.Some? then producer.videoStream.value
                       else DefaultStream(ssrcs, Producing(producer, Video))]))
  }

  /** The single stream entry of a join payload: the producer's own, or the default descriptor. */
  lemma JoinPayloadStream(producerId: UserId, producer: Participant, ssrcs: OutgoingSsrcs, codecs: Codecs)
    ensures var pl := JoinPayload(producerId, producer, ssrcs, codecs);
      && pl.userId == producerId && pl.codecs == Some(codecs)
      && pl.streams.Some? && |pl.streams.value| == 1
      && (producer.videoStream.Some? ==> pl.streams.value[0] == producer.videoStream.value)
      && (producer.videoStream.None? ==>
            var s := pl.streams.value[0];
            && s.streamType == "video" && s.rid == "100" && s.quality == 100
            && s.maxBitrate == 2500000 && s.maxFramerate == 20
            && s.maxResolution == Resolution("fixed", 1280, 720)
            && s.ssrc == pl.videoSsrc && s.rtxSsrc == pl.rtxSsrc
            && s.active == Producing(producer, Video))
  {
  }

  /**
   * A stored stream outlives the video track: after an announcement without
   * video, a late joiner is still sent the stream last announced, verbatim,
   * with the producer's own SSRCs and `active` flag.
   */
  lemma StoredStreamOutlivesVideo(p: Participant, d: ProducerState, c: UserId, ssrcs: OutgoingSsrcs, codecs: Codecs)
    requires !WantsVideo(d) && p.videoStream.Some?
    ensures var q := AfterAnnouncement(p, d);
      && !Producing(q, Video)
      && JoinPayload(c, q, ssrcs, codecs).streams == Some([p.videoStream.value])
  {
  }

  /** The update a late joiner gets about `c` carries the joiner's own SSRCs for `c`. */
  lemma JoinNoFabricatedSsrc(subs: map<Edge, Consumer>, viewer: UserId, c: UserId, producer: Participant, codecs: Codecs)
    ensures SsrcsFromEdges(JoinPayload(c, producer, Outgoing(subs, viewer, c), codecs), subs, viewer, c)
  {
  }

  /** The op-12 a late joiner gets about producer `c`. */
  function JoinUpdate(viewer: UserId, c: UserId, producer: Participant, subs: map<Edge, Consumer>,
                      codecsFor: (UserId, UserId) -> Codecs): Envelope {
    Envelope(viewer, TrackUpdate(JoinPayload(c, producer, Outgoing(subs, viewer, c), codecsFor(viewer, c))))
  }

  /** The updates a late joiner gets, one per producer in `order`. */
  function JoinUpdates(viewer: UserId, order: seq<UserId>, clients: map<UserId, Participant>,
                       subs: map<Edge, Consumer>, codecsFor: (UserId, UserId) -> Codecs): (r: seq<Envelope>)
    requires forall c :: c in order ==> c in clients
    ensures |r| == |order|
  {
    if order == [] then []
    else
      var c := order[|order| - 1];
      JoinUpdates(viewer, order[..|order| - 1], clients, subs, codecsFor) + [JoinUpdate(viewer, c, clients[c], subs, codecsFor)]
  }

  lemma {:induction false} JoinUpdatesAt(viewer: UserId, order: seq<UserId>, clients: map<UserId, Participant>,
                                         subs: map<Edge, Consumer>, codecsFor: (UserId, UserId) -> Codecs, i: nat)
    requires forall c :: c in order ==> c in clients
    requires i < |order|
    ensures JoinUpdates(viewer, order, clients, subs, codecsFor)[i] ==
      Envelope(viewer, TrackUpdate(JoinPayload(order[i], clients[order[i]], Outgoing(subs, viewer, order[i]), codecsFor(viewer, order[i]))))
  {
    if i < |order| - 1 {
      JoinUpdatesAt(viewer, order[..|order| - 1], clients, subs, codecsFor, i);
    }
  }

  /**
   * The updates to a producer already sent stay valid while edges to other
   * producers are added: they depend only on the viewer's edges to the
   * producers in `order`.
   */
  lemma {:induction false} JoinUpdatesFrame(viewer: UserId, order: seq<UserId>, clients: map<UserId, Participant>,
                                            s1: map<Edge, Consumer>, s2: map<Edge, Consumer>,
                                            codecsFor: (UserId, UserId) -> Codecs)
    requires forall c :: c in order ==> c in clients
    requires forall c :: c in order ==> Outgoing(s1, viewer, c) == Outgoing(s2, viewer, c)
    ensures JoinUpdates(viewer, order, clients, s1, codecsFor) == JoinUpdates(viewer, order, clients, s2, codecsFor)
  {
    if order != [] {
      JoinUpdatesFrame(viewer, order[..|order| - 1], clients, s1, s2, codecsFor);
      assert order[|order| - 1] in order;
    }
  }

  /**
   * `order` lists, once each, the producers in `done` the stream-room gate
   * lets through to the late joiner.
   */
  ghost predicate JoinListed(streamRoom: bool, clients: map<UserId, Participant>, viewer: UserId, done: set<UserId>,
                             order: seq<UserId>, subs: map<Edge, Consumer>)
  {
    && done <= clients.Keys
    && (forall p :: p in order <==> p in done && !JoinGated(streamRoom, clients[p], Outgoing(subs, viewer, p)))
    && (forall i, j :: 0 <= i < j < |order| ==> order[i] != order[j])
  }

  /** One more producer `c`: it is listed exactly when it is not gated. */
  lemma JoinOrderStep(streamRoom: bool, viewer: UserId, done: set<UserId>, order: seq<UserId>, c: UserId,
                      clients: map<UserId, Participant>, before: map<Edge, Consumer>, after: map<Edge, Consumer>,
                      sent: bool)
    returns (next: seq<UserId>)
    requires c in clients && c !in done
    requires JoinListed(streamRoom, clients, viewer, done, order, before)
    requires forall p :: p in done ==> Outgoing(after, viewer, p) == Outgoing(before, viewer, p)
    requires sent <==> !JoinGated(streamRoom, clients[c], Outgoing(after, viewer, c))
    ensures next == if sent then order + [c] else order
    ensures JoinListed(streamRoom, clients, viewer, done + {c}, next, after)
  {
    next := if sent then order + [c] else order;
    forall p | p in done
      ensures p in next <==> !JoinGated(streamRoom, clients[p], Outgoing(after, viewer, p))
    {
      assert p != c;
    }
  }

  /** One more update sent, about `c`, after edges to `c` only were added. */
  lemma JoinUpdatesStep(viewer: UserId, order: seq<UserId>, c: UserId, clients: map<UserId, Participant>,
                        before: map<Edge, Consumer>, after: map<Edge, Consumer>, codecsFor: (UserId, UserId) -> Codecs)
    requires c in clients && forall p :: p in order ==> p in clients
    requires forall p :: p in order ==> Outgoing(before, viewer, p) == Outgoing(after, viewer, p)
    ensures JoinUpdates(viewer, order + [c], clients, after, codecsFor) ==
      JoinUpdates(viewer, order, clients, before, codecsFor) + [JoinUpdate(viewer, c, clients[c], after, codecsFor)]
  {
    JoinUpdatesFrame(viewer, order, clients, before, after, codecsFor);
    assert (order + [c])[..|order|] == order;
  }

  /**
   * In a stream room, if no producer in `order` is gated, every update the
   * late joiner gets names a producer that is producing video and carries a
   * non-zero video SSRC.
   */
  lemma StreamRoomJoinUpdatesCarryVideo(viewer: UserId, order: seq<UserId>, clients: map<UserId, Participant>,
                                        subs: map<Edge, Consumer>, codecsFor: (UserId, UserId) -> Codecs)
    requires forall c :: c in order ==> c in clients && !JoinGated(true, clients[c], Outgoing(subs, viewer, c))
    ensures forall m :: m in JoinUpdates(viewer, order, clients, subs, codecsFor) ==>
      && m.to == viewer && m.message.TrackUpdate?
      && m.message.payload.userId in clients
      && Producing(clients[m.message.payload.userId], Video)
      && m.message.payload.videoSsrc != 0
  {
    var r := JoinUpdates(viewer, order, clients, subs, codecsFor);
    forall m | m in r
      ensures && m.to == viewer && m.message.TrackUpdate?
              && m.message.payload.userId in clients
              && Producing(clients[m.message.payload.userId], Video)
              && m.message.payload.videoSsrc != 0
    {
      var i :| 0 <= i < |r| && r[i] == m;
      JoinUpdatesAt(viewer, order, clients, subs, codecsFor, i);
      assert order[i] in order;
    }
  }

  // ---------------------------------------------------------------------------
  // Helpers
  // ---------------------------------------------------------------------------

  /** Updating a client twice keeps only the second update. */
  lemma UpdateTwice(m: map<UserId, Participant>, u: UserId, a: Participant, b: Participant)
    ensures m[u := a][u := b] == m[u := b]
  {
  }

  lemma Associative(a: seq<MediaCall>, b: seq<MediaCall>, c: seq<MediaCall>)
    ensures (a + b) + c == a + (b + c)
  {
  }
}
