/**
 * The op-12 (VIDEO) signalling handlers of one rtc room: a producer's
 * announcement, the late-joiner reconciliation and the viewer-ready keyframe
 * request, over the room's clients, subscription edges, outbox of messages
 * and log of media-engine calls.
 */
module VideoOpcodes {
  import opened Wrappers
  import opened Signaling

  class Room {
    /** Whether this is a go-live stream room (`type === "stream"`). */
    const streamRoom: bool
    /** The media engine's consumer allocation for a new edge. */
    const alloc: Edge -> Consumer
    /** The media engine's payload types for a viewer and a producer. */
    const codecsFor: (UserId, UserId) -> Codecs

    var clients: map<UserId, Participant>
    var subs: map<Edge, Consumer>
    var outbox: seq<Envelope>
    var mediaCalls: seq<MediaCall>

    /**
     * Edges join two different clients of the room, and a client whose
     * transport is not connected produces nothing.
     */
    ghost predicate Valid()
      reads this
    {
      && (forall e :: e in subs ==> e.viewer != e.producer && e.viewer in clients && e.producer in clients)
      && (forall u :: u in clients && !clients[u].connected ==> !Producing(clients[u], Audio) && !Producing(clients[u], Video))
    }

    constructor (streamRoom: bool, alloc: Edge -> Consumer, codecsFor: (UserId, UserId) -> Codecs,
                 clients: map<UserId, Participant>)
      requires forall u :: u in clients && !clients[u].connected ==>
        !Producing(clients[u], Audio) && !Producing(clients[u], Video)
      ensures Valid()
      ensures this.streamRoom == streamRoom && this.alloc == alloc && this.codecsFor == codecsFor
      ensures this.clients == clients && subs == map[] && outbox == [] && mediaCalls == []
    {
      this.streamRoom := streamRoom;
      this.alloc := alloc;
      this.codecsFor := codecsFor;
      this.clients := clients;
      subs := map[];
      outbox := [];
      mediaCalls := [];
    }

    // -------------------------------------------------------------------------
    // The client and media-engine operations the handlers use
    // -------------------------------------------------------------------------

    function IsProducing(user: UserId, k: Kind): bool
      reads this
      requires user in clients
    {
      Producing(clients[user], k)
    }

    function IsSubscribedToTrack(viewer: UserId, producer: UserId, k: Kind): bool
      reads this
    {
      Edge(viewer, producer, k) in subs
    }

    /** Creates the edge unless it exists; an existing edge keeps its consumer. */
    method SubscribeToTrack(viewer: UserId, producer: UserId, k: Kind) returns (c: Consumer)
      requires Valid() && viewer in clients && producer in clients && viewer != producer
      modifies this`subs
      ensures Valid()
      ensures subs == Subscribe(old(subs), {Edge(viewer, producer, k)}, alloc)
      ensures c == subs[Edge(viewer, producer, k)]
      ensures Edge(viewer, producer, k) in old(subs) ==> c == old(subs)[Edge(viewer, producer, k)]
    {
      var e := Edge(viewer, producer, k);
      if e !in subs {
        subs := subs[e := alloc(e)];
      }
      c := subs[e];
    }

    /** Starts producing `k` with the given SSRCs and logs the call. */
    method PublishTrack(user: UserId, k: Kind, ssrc: nat, rtxSsrc: nat)
      requires Valid() && user in clients && clients[user].connected
      modifies this`clients, this`mediaCalls
      ensures Valid()
      ensures clients == old(clients)[user := match k
        case Audio => old(clients)[user].(audioSsrc := Some(ssrc))
        case Video => old(clients)[user].(video := Some(VideoTrack(ssrc, rtxSsrc)))]
      ensures mediaCalls == old(mediaCalls) + [Publish(user, k, ssrc, if k == Audio then None else Some(rtxSsrc))]
    {
      var p := clients[user];
      match k {
        case Audio =>
          clients := clients[user := p.(audioSsrc := Some(ssrc))];
          mediaCalls := mediaCalls + [Publish(user, Audio, ssrc, None)];
        case Video =>
          clients := clients[user := p.(video := Some(VideoTrack(ssrc, rtxSsrc)))];
          mediaCalls := mediaCalls + [Publish(user, Video, ssrc, Some(rtxSsrc))];
      }
    }

    /** Stops producing `k` and logs the call. */
    method StopPublishingTrack(user: UserId, k: Kind)
      requires Valid() && user in clients
      modifies this`clients, this`mediaCalls
      ensures Valid()
      ensures clients == old(clients)[user := match k
        case Audio => old(clients)[user].(audioSsrc := None)
        case Video => old(clients)[user].(video := None)]
      ensures mediaCalls == old(mediaCalls) + [Stop(user, k)]
    {
      var p := clients[user];
      match k {
        case Audio => clients := clients[user := p.(audioSsrc := None)];
        case Video => clients := clients[user := p.(video := None)];
      }
      mediaCalls := mediaCalls + [Stop(user, k)];
    }

    // -------------------------------------------------------------------------
    // onVideo
    // -------------------------------------------------------------------------

    /**
     * One loop over the other clients: subscribe each to `producer`'s track
     * of kind `k` unless it already is, and collect the clients to update —
     * the newly subscribed ones, or all of them when `updateExisting`.
     */
    method SubscribeViewers(producer: UserId, k: Kind, viewers: set<UserId>, updateExisting: bool)
      returns (needUpdate: set<UserId>)
      requires Valid()
      requires producer in clients && viewers <= clients.Keys && producer !in viewers
      modifies this`subs
      ensures Valid()
      ensures subs == Subscribe(old(subs), EdgesFrom(viewers, producer, k), alloc)
      ensures needUpdate == if updateExisting then viewers
                            else set v | v in viewers && Edge(v, producer, k) !in old(subs)
    {
      needUpdate := {};
      var done: set<UserId> := {};
      var todo := viewers;
      while todo != {}
        invariant done <= viewers && todo == viewers - done
        invariant Valid()
        invariant subs == Subscribe(old(subs), EdgesFrom(done, producer, k), alloc)
        invariant forall v :: v in needUpdate <==> v in done && (updateExisting || Edge(v, producer, k) !in old(subs))
        decreases todo
      {
        var v :| v in todo;
        ghost var current := subs;
        var e := Edge(v, producer, k);
        assert e in subs <==> e in old(subs);
        SubscribeOneMore(old(subs), done, v, producer, k, alloc);
        if !IsSubscribedToTrack(v, producer, k) {
          var _ := SubscribeToTrack(v, producer, k);
          needUpdate := needUpdate + {v};
        } else {
          SubscribeExisting(current, e, alloc);
          if updateExisting {
            needUpdate := needUpdate + {v};
          }
        }
        assert subs == Subscribe(current, {e}, alloc);
        done, todo := done + {v}, todo - {v};
      }
      assert done == viewers;
    }

    /**
     * The fan-out: each client in `recipients` that passes the stream-room
     * gate gets one op-12 about `producer`; `order` is the order sent in.
     */
    method SendProducerUpdates(producer: UserId, recipients: set<UserId>, streams: Option<seq<StreamDescriptor>>)
      returns (ghost order: seq<UserId>)
      modifies this`outbox
      ensures outbox == old(outbox) + ProducerUpdates(producer, order, subs, streams)
      ensures forall c :: c in order <==> c in recipients && !StreamGated(streamRoom, Outgoing(subs, c, producer))
      ensures forall i, j :: 0 <= i < j < |order| ==> order[i] != order[j]
    {
      order := [];
      var todo := recipients;
      while todo != {}
        invariant todo <= recipients
        invariant outbox == old(outbox) + ProducerUpdates(producer, order, subs, streams)
        invariant forall c :: c in order <==> c in recipients - todo && !StreamGated(streamRoom, Outgoing(subs, c, producer))
        invariant forall i, j :: 0 <= i < j < |order| ==> order[i] != order[j]
        decreases todo
      {
        var c :| c in todo;
        var ssrcs := Outgoing(subs, c, producer);
        if !(streamRoom && OrZero(ssrcs.video) == 0) {
          outbox := outbox + [Envelope(c, TrackUpdate(ProducerPayload(producer, ssrcs, streams)))];
          assert (order + [c])[..|order|] == order;
          order := order + [c];
        }
        todo := todo - {c};
      }
    }

    /** Stops each kind the sender produces but no longer wants. */
    method StopUnwantedTracks(sender: UserId, d: ProducerState)
      requires Valid() && sender in clients
      modifies this`clients, this`mediaCalls
      ensures Valid()
      ensures clients == old(clients)[sender := Stopped(old(clients)[sender], d)]
      ensures mediaCalls == old(mediaCalls) + StopCalls(sender, old(clients)[sender], d)
    {
      if !WantsAudio(d) && IsProducing(sender, Audio) {
        StopPublishingTrack(sender, Audio);
      }
      if !WantsVideo(d) && IsProducing(sender, Video) {
        StopPublishingTrack(sender, Video);
      }
    }

    /**
     * The audio block, run when audio is wanted: publish the announced
     * audio track unless one is running, then subscribe every other client;
     * only the newly subscribed need an update.
     */
    method StartAudio(sender: UserId, d: ProducerState, others: set<UserId>) returns (needUpdate: set<UserId>)
      requires Valid() && sender in clients && clients[sender].connected
      requires others == Others(clients, sender)
      modifies this`clients, this`subs, this`mediaCalls
      ensures Valid()
      ensures clients == old(clients)[sender := AudioStarted(old(clients)[sender], d)]
      ensures mediaCalls == old(mediaCalls) + PublishCall(sender, old(clients)[sender], d, Audio)
      ensures subs == Subscribe(old(subs), WantedKindEdges(others, sender, d, Audio), alloc)
      ensures needUpdate == NeedsKindUpdate(others, old(subs), sender, d, Audio)
    {
      needUpdate := {};
      if WantsAudio(d) {
        if !IsProducing(sender, Audio) {
          PublishTrack(sender, Audio, d.audioSsrc, 0);
        }
        needUpdate := SubscribeViewers(sender, Audio, others, false);
      } else {
        SubscribeNothing(subs, alloc);
      }
    }

    /**
     * The video block, run when video is wanted: remember the active stream
     * (typed "video"), publish the announced video track unless one is
     * running, then subscribe every other client; all of them need an update.
     */
    method StartVideo(sender: UserId, d: ProducerState, others: set<UserId>) returns (needUpdate: set<UserId>)
      requires Valid() && sender in clients && clients[sender].connected
      requires others == Others(clients, sender)
      modifies this`clients, this`subs, this`mediaCalls
      ensures Valid()
      ensures clients == old(clients)[sender := VideoStarted(old(clients)[sender], d)]
      ensures mediaCalls == old(mediaCalls) + PublishCall(sender, old(clients)[sender], d, Video)
      ensures subs == Subscribe(old(subs), WantedKindEdges(others, sender, d, Video), alloc)
      ensures needUpdate == NeedsKindUpdate(others, old(subs), sender, d, Video)
    {
      needUpdate := {};
      if WantsVideo(d) {
        var stream := ActiveStream(d).value;
        clients := clients[sender := clients[sender].(videoStream := Some(stream.(streamType := "video")))];
        if !IsProducing(sender, Video) {
          PublishTrack(sender, Video, d.videoSsrc, d.rtxSsrc);
        }
        needUpdate := SubscribeViewers(sender, Video, others, true);
      } else {
        SubscribeNothing(subs, alloc);
      }
    }

    /**
     * What an admitted announcement does to the room, from clients `c0`,
     * edges `s0`, outbox `o0` and media calls `m0`: the sender ends as
     * `AfterAnnouncement` says, with the stops then publishes logged; every
     * other client is subscribed to each wanted kind; the outbox gets the
     * sink wants, then one update per client in `order`, which holds each
     * client needing an update and not gated, once.
     */
    ghost predicate Announced(c0: map<UserId, Participant>, s0: map<Edge, Consumer>, o0: seq<Envelope>,
                              m0: seq<MediaCall>, sender: UserId, d: ProducerState, order: seq<UserId>)
      reads this
      requires sender in c0
    {
      && clients == c0[sender := AfterAnnouncement(c0[sender], d)]
      && mediaCalls == m0 + AnnouncementCalls(sender, c0[sender], d)
      && subs == Subscribe(s0, WantedEdges(Others(c0, sender), sender, d), alloc)
      && outbox == o0 + [Envelope(sender, MediaSinkWants(100))] + ProducerUpdates(sender, order, subs, d.streams)
      && (forall c :: c in order <==>
            c in NeedsUpdate(Others(c0, sender), s0, sender, d) && !StreamGated(streamRoom, Outgoing(subs, c, sender)))
      && (forall i, j :: 0 <= i < j < |order| ==> order[i] != order[j])
    }

    /** The audio block, then the video block. */
    method StartTracks(sender: UserId, d: ProducerState, others: set<UserId>) returns (needUpdate: set<UserId>)
      requires Valid() && sender in clients && clients[sender].connected
      requires others == Others(clients, sender)
      modifies this`clients, this`subs, this`mediaCalls
      ensures Valid()
      ensures clients == old(clients)[sender := VideoStarted(AudioStarted(old(clients)[sender], d), d)]
      ensures mediaCalls == old(mediaCalls) + (PublishCall(sender, old(clients)[sender], d, Audio)
        + PublishCall(sender, AudioStarted(old(clients)[sender], d), d, Video))
      ensures subs == Subscribe(old(subs), WantedEdges(others, sender, d), alloc)
      ensures needUpdate == NeedsUpdate(others, old(subs), sender, d)
    {
      var audioUpdate := StartAudio(sender, d, others);
      ghost var audioStarted, afterAudio := clients[sender], mediaCalls;
      var videoUpdate := StartVideo(sender, d, others);
      UpdateTwice(old(clients), sender, audioStarted, clients[sender]);
      Associative(old(mediaCalls), PublishCall(sender, old(clients)[sender], d, Audio),
                  PublishCall(sender, audioStarted, d, Video));
      SubscribeAgain(old(subs), WantedKindEdges(others, sender, d, Audio), WantedKindEdges(others, sender, d, Video), alloc);
      needUpdate := audioUpdate + videoUpdate;
    }

    /**
     * The track work of an announcement: stop what is no longer wanted, then
     * run the audio block and the video block; `needUpdate` is the clients
     * the fan-out goes to.
     */
    method UpdateTracks(sender: UserId, d: ProducerState) returns (needUpdate: set<UserId>)
      requires Valid() && sender in clients && clients[sender].connected
      modifies this`clients, this`subs, this`mediaCalls
      ensures Valid()
      ensures clients == old(clients)[sender := AfterAnnouncement(old(clients)[sender], d)]
      ensures mediaCalls == old(mediaCalls) + AnnouncementCalls(sender, old(clients)[sender], d)
      ensures subs == Subscribe(old(subs), WantedEdges(Others(old(clients), sender), sender, d), alloc)
      ensures needUpdate == NeedsUpdate(Others(old(clients), sender), old(subs), sender, d)
    {
      ghost var p0 := clients[sender];
      // stop what is no longer wanted before starting anything
      StopUnwantedTracks(sender, d);
      ghost var stopped := clients[sender];
      assert clients.Keys == old(clients).Keys;
      var others := clients.Keys - {sender};
      needUpdate := StartTracks(sender, d, others);
      StartInOrder(sender, p0, d);
      UpdateTwice(old(clients), sender, stopped, clients[sender]);
      Associative(old(mediaCalls), StopCalls(sender, p0, d), PublishCalls(sender, p0, d));
    }

    /** Everything after the gates: sink wants, the track work and the fan-out. */
    method ProcessAnnouncement(sender: UserId, d: ProducerState) returns (ghost order: seq<UserId>)
      requires Valid() && sender in clients && clients[sender].connected
      modifies this`clients, this`subs, this`outbox, this`mediaCalls
      ensures Valid()
      ensures Announced(old(clients), old(subs), old(outbox), old(mediaCalls), sender, d, order)
    {
      outbox := outbox + [Envelope(sender, MediaSinkWants(100))];
      var needUpdate := UpdateTracks(sender, d);
      order := SendProducerUpdates(sender, needUpdate, d.streams);
    }

    /**
     * A producer announces its SSRCs. `streamOwner` is the owner of the
     * room's stream record (None: no record); `connectedInTime` says whether
     * a not-yet-connected transport connected before the readiness deadline.
     * A rejected announcement changes nothing.
     */
    method OnVideo(sender: UserId, d: ProducerState, streamOwner: Option<UserId>, connectedInTime: bool)
      returns (ghost order: seq<UserId>)
      requires Valid()
      modifies this`clients, this`subs, this`outbox, this`mediaCalls
      ensures Valid()
      ensures !Admitted(streamRoom, old(clients), sender, d, streamOwner, connectedInTime) ==>
        clients == old(clients) && subs == old(subs) && outbox == old(outbox) && mediaCalls == old(mediaCalls)
      ensures Admitted(streamRoom, old(clients), sender, d, streamOwner, connectedInTime) ==>
        Announced(old(clients), old(subs), old(outbox), old(mediaCalls), sender, d, order)
    {
      order := [];
      if sender !in clients { return; }
      if streamRoom {
        // the stream record's owner, looked up by room id
        if streamOwner.None? { return; }
        if streamOwner.value != sender { return; }
      }
      var wantsAudio := d.audioSsrc != 0;
      // readiness gate: audio may wait for the transport, video may not
      if !clients[sender].connected {
        if wantsAudio {
          if !connectedInTime { return; }
          clients := clients[sender := clients[sender].(connected := true)];
        } else {
          return;
        }
      }
      ghost var connectedClients := clients;
      order := ProcessAnnouncement(sender, d);
      ConnectedFlagIrrelevant(old(clients), connectedClients, old(subs), old(outbox), old(mediaCalls), sender, d, order);
    }

    /** Marking the sender connected beforehand does not change what an announcement does. */
    lemma ConnectedFlagIrrelevant(c0: map<UserId, Participant>, c1: map<UserId, Participant>, s0: map<Edge, Consumer>,
                                  o0: seq<Envelope>, m0: seq<MediaCall>, sender: UserId, d: ProducerState, order: seq<UserId>)
      requires sender in c0
      requires c1 == c0 || c1 == c0[sender := c0[sender].(connected := true)]
      requires Announced(c1, s0, o0, m0, sender, d, order)
      ensures Announced(c0, s0, o0, m0, sender, d, order)
    {
      assert AfterAnnouncement(c1[sender], d) == AfterAnnouncement(c0[sender], d);
      assert AnnouncementCalls(sender, c1[sender], d) == AnnouncementCalls(sender, c0[sender], d);
      assert Others(c1, sender) == Others(c0, sender);
      UpdateTwice(c0, sender, c1[sender], AfterAnnouncement(c0[sender], d));
    }

    // -------------------------------------------------------------------------
    // onViewerReady
    // -------------------------------------------------------------------------

    /**
     * A viewer is ready to decode: ask the media engine for a keyframe from
     * the named producer. A missing or empty producer id drops the message.
     */
    method OnViewerReady(viewer: UserId, producer: Option<UserId>) returns (requested: bool)
      requires Valid()
      modifies this`mediaCalls
      ensures Valid()
      ensures requested <==> viewer in clients && producer.Some? && producer.value != ""
      ensures mediaCalls == old(mediaCalls) + if requested then [RequestKeyFrame(viewer, producer.value)] else []
    {
      requested := false;
      if viewer !in clients { return; }
      if producer.None? || producer.value == "" { return; }
      mediaCalls := mediaCalls + [RequestKeyFrame(viewer, producer.value)];
      requested := true;
    }

    // -------------------------------------------------------------------------
    // subscribeToProducers
    // -------------------------------------------------------------------------

    /** Subscribes the viewer to `c`'s track of kind `k` if `c` produces one and it is not subscribed yet. */
    method SubscribeIfProducing(viewer: UserId, c: UserId, k: Kind)
      requires Valid() && viewer in clients && c in clients && c != viewer
      modifies this`subs
      ensures Valid()
      ensures subs == Subscribe(old(subs), KindEdge(viewer, c, clients[c], k), alloc)
    {
      if IsProducing(c, k) && !IsSubscribedToTrack(viewer, c, k) {
        var _ := SubscribeToTrack(viewer, c, k);
      } else if IsProducing(c, k) {
        SubscribeExisting(subs, Edge(viewer, c, k), alloc);
      }
    }

    /**
     * The loop body for producer `c`: subscribe the viewer to each kind `c`
     * produces unless it already is, then send it one op-12 about `c` unless
     * the stream-room gate holds it back.
     */
    method ReconcileWith(viewer: UserId, c: UserId) returns (sent: bool)
      requires Valid() && viewer in clients && c in clients && c != viewer
      modifies this`subs, this`outbox
      ensures Valid()
      ensures subs == Subscribe(old(subs), ProducerEdges(viewer, c, clients[c]), alloc)
      ensures sent <==> !JoinGated(streamRoom, clients[c], Outgoing(subs, viewer, c))
      ensures outbox == old(outbox) + if sent then [JoinUpdate(viewer, c, clients[c], subs, codecsFor)] else []
    {
      SubscribeIfProducing(viewer, c, Audio);
      ghost var afterAudio := subs;
      SubscribeIfProducing(viewer, c, Video);
      SubscribeAgain(old(subs), KindEdge(viewer, c, clients[c], Audio), KindEdge(viewer, c, clients[c], Video), alloc);
      var ssrcs := Outgoing(subs, viewer, c);
      var codecs := codecsFor(viewer, c);
      sent := !(streamRoom && (!IsProducing(c, Video) || OrZero(ssrcs.video) == 0));
      if sent {
        outbox := outbox + [Envelope(viewer, TrackUpdate(JoinPayload(c, clients[c], ssrcs, codecs)))];
      }
    }

    /**
     * A viewer's transport is ready: subscribe it to every track the other
     * clients produce and send it one op-12 per producer, except in a stream
     * room for producers without video.
     */
    method SubscribeToProducers(viewer: UserId) returns (ghost order: seq<UserId>)
      requires Valid()
      modifies this`subs, this`outbox
      ensures Valid()
      ensures !(viewer in clients && clients[viewer].connected) ==>
        subs == old(subs) && outbox == old(outbox) && order == []
      ensures viewer in clients && clients[viewer].connected ==>
        Reconciled(clients, old(subs), old(outbox), viewer, Others(clients, viewer), order, subs, outbox)
    {
      order := [];
      if viewer !in clients || !clients[viewer].connected { return; }
      var others := clients.Keys - {viewer};
      var done: set<UserId> := {};
      var todo := others;
      while todo != {}
        invariant done <= others && todo == others - done
        invariant Valid()
        invariant Reconciled(clients, old(subs), old(outbox), viewer, done, order, subs, outbox)
        decreases todo
      {
        var c :| c in todo;
        ghost var before, sentBefore := subs, outbox;
        var sent := ReconcileWith(viewer, c);
        order := ReconcileStep(clients, old(subs), old(outbox), viewer, done, order, c, before, sentBefore, subs, outbox, sent);
        done, todo := done + {c}, todo - {c};
      }
      assert done == Others(clients, viewer);
    }

    /**
     * The reconciliation has been through the producers in `done`, from
     * edges `s0` and outbox `o0` to edges `s` and outbox `o`: the viewer has
     * an edge for each kind they produce, and it got the updates `Reported`
     * describes.
     */
    ghost predicate Reconciled(cs: map<UserId, Participant>, s0: map<Edge, Consumer>, o0: seq<Envelope>, viewer: UserId,
                               done: set<UserId>, order: seq<UserId>, s: map<Edge, Consumer>, o: seq<Envelope>)
    {
      && s == Subscribe(s0, JoinEdges(viewer, done, cs), alloc)
      && Reported(cs, o0, viewer, done, order, s, o)
    }

    /**
     * `order` lists, once each, the producers in `done` the viewer got an
     * update about — the ones the stream-room gate did not hold back — and
     * the outbox grew by those updates in that order.
     */
    ghost predicate Reported(cs: map<UserId, Participant>, o0: seq<Envelope>, viewer: UserId, done: set<UserId>,
                             order: seq<UserId>, s: map<Edge, Consumer>, o: seq<Envelope>)
    {
      && JoinListed(streamRoom, cs, viewer, done, order, s)
      && o == o0 + JoinUpdates(viewer, order, cs, s, codecsFor)
    }

    /** Reconciling with one producer more keeps the invariant. */
    lemma ReconcileStep(cs: map<UserId, Participant>, s0: map<Edge, Consumer>, o0: seq<Envelope>, viewer: UserId,
                        done: set<UserId>, order: seq<UserId>, c: UserId, before: map<Edge, Consumer>,
                        outBefore: seq<Envelope>, after: map<Edge, Consumer>, outAfter: seq<Envelope>, sent: bool)
      returns (next: seq<UserId>)
      requires c in cs && c !in done
      requires Reconciled(cs, s0, o0, viewer, done, order, before, outBefore)
      requires after == Subscribe(before, ProducerEdges(viewer, c, cs[c]), alloc)
      requires sent <==> !JoinGated(streamRoom, cs[c], Outgoing(after, viewer, c))
      requires outAfter == outBefore + if sent then [JoinUpdate(viewer, c, cs[c], after, codecsFor)] else []
      ensures next == if sent then order + [c] else order
      ensures Reconciled(cs, s0, o0, viewer, done + {c}, next, after, outAfter)
    {
      JoinSubscribeStep(viewer, done, c, cs, s0, before, after, alloc);
      next := ReportStep(cs, o0, viewer, done, order, c, before, outBefore, after, outAfter, sent);
    }

    /** Reconciling with one producer more keeps the report. */
    lemma ReportStep(cs: map<UserId, Participant>, o0: seq<Envelope>, viewer: UserId, done: set<UserId>,
                        order: seq<UserId>, c: UserId, before: map<Edge, Consumer>, outBefore: seq<Envelope>,
                        after: map<Edge, Consumer>, outAfter: seq<Envelope>, sent: bool)
      returns (next: seq<UserId>)
      requires c in cs && c !in done
      requires Reported(cs, o0, viewer, done, order, before, outBefore)
      requires forall p :: p in done ==> Outgoing(after, viewer, p) == Outgoing(before, viewer, p)
      requires sent <==> !JoinGated(streamRoom, cs[c], Outgoing(after, viewer, c))
      requires outAfter == outBefore + if sent then [JoinUpdate(viewer, c, cs[c], after, codecsFor)] else []
      ensures next == if sent then order + [c] else order
      ensures Reported(cs, o0, viewer, done + {c}, next, after, outAfter)
    {
      next := JoinOrderStep(streamRoom, viewer, done, order, c, cs, before, after, sent);
      if sent {
        JoinUpdatesStep(viewer, order, c, cs, before, after, codecsFor);
      } else {
        JoinUpdatesFrame(viewer, order, cs, before, after, codecsFor);
      }
    }
  }
}
