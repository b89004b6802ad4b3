/** Datagrams end to end: what a UDP target and a local program receive is what the other side sent. */
module TunnelUdp {
  import opened Bytes
  import opened FrameCodec
  import opened FrameQueues
  import opened SessionSystem
  import SP = SessionProperties
  import opened Messages
  import opened TunnelClient
  import opened TunnelFrames
  import opened TunnelClientInv
  import opened Tunnel
  import opened TunnelInvariant
  import opened TunnelSteps
  import opened TunnelServerReads
  import opened TunnelTheorems
  import opened TunnelRelays
  import opened TunnelHangups
  import opened TunnelReplies
  import Reassembly
  import SH = ServerHandler

  // ---- Datagrams on the way ----

  /** A datagram either side makes: a single fragment of at most 1200 bytes with a deadline of one second. */
  predicate Single(d: Datagram) {
    && d.deadlineMS == 1000 && d.fragIndex == 0 && d.fragCount == 1
    && d.totalLen == |d.data| <= 1200
  }

  predicate SingleFrame(f: Frame) {
    f.kind == UDPDATA ==> DecodeDatagram(f.payload).Success? && Single(DecodeDatagram(f.payload).value)
  }

  lemma RequestIsSingle(channel: uint32, data: seq<byte>, id: uint32, nowMS: uint32)
    requires |data| <= 1200
    ensures var f := UdpDataFrame(channel, RequestDatagram(data, id, nowMS));
            && SingleFrame(f) && UdpIn(f, channel) == [data]
            && DecodeDatagram(f.payload).value.sentMS == nowMS
  {
    DatagramRoundTrip(RequestDatagram(data, id, nowMS));
  }

  lemma ReplyIsSingle(channel: uint32, data: seq<byte>, id: uint32)
    requires 0 < |data| <= 1200
    ensures var f := UdpDataFrame(channel, SH.ReplyDatagram(data, id));
            && SingleFrame(f) && UdpIn(f, channel) == [data]
            && |Reassembly.Fragments(data, id, 1000)| == 1
  {
    hide EncodeDatagram, DecodeDatagram;
    OneFragment(data, id);
    DatagramRoundTrip(SH.ReplyDatagram(data, id));
  }

  lemma OneFragment(data: seq<byte>, id: uint32)
    requires 0 < |data| <= 1200
    ensures Reassembly.Fragments(data, id, 1000) == [Datagram(id, 0, 1000, 0, 1, |data|, data)]
  {
    assert Reassembly.FragCount(|data|) == 1;
    assert data[0..|data|] == data;
  }

  // ---- The invariant ----

  ghost predicate WasOpened(seen: seq<Frame>, channel: uint32) {
    Count(seen, OpenMark, channel) >= 1
  }

  predicate Reads(h: SH.Handler, channel: uint32) {
    channel in h.udpReading || channel in h.udpClosing
  }

  /** The server reads from, reports and closes opened channels only. */
  ghost predicate ServerUdp(s: Session, h: SH.Handler, seen: seq<Frame>) {
    && (forall channel :: Reads(h, channel) ==> WasOpened(seen, channel))
    && (forall i :: 0 <= i < |s.acceptedControl| ==>
          s.acceptedControl[i].kind != UDPDATA
          && (s.acceptedControl[i].kind == UDPCLOSE ==> WasOpened(seen, s.acceptedControl[i].channelID)))
    && (forall i :: 0 <= i < |s.acceptedData| ==>
          SingleFrame(s.acceptedData[i])
          && (s.acceptedData[i].kind == UDPDATA ==> WasOpened(seen, s.acceptedData[i].channelID)))
  }

  ghost predicate ClientUdp(s: Session) {
    forall i :: 0 <= i < |s.acceptedData| ==> SingleFrame(s.acceptedData[i])
  }

  /** A UDP route that was stored is registered until it is removed. */
  ghost predicate RoutesKept(c: Client, unrouted: set<uint32>) {
    && (forall channel :: channel in unrouted ==> MarkedBy(c.openers, OpenMark, channel))
    && forall k :: 0 <= k < |c.openers| && c.openers[k].kind.Udp? && !c.openers[k].stage.Allocated? ==>
         (c.openers[k].id in c.udpRoutes <==> c.openers[k].id !in unrouted)
  }

  predicate Routed(c: Client, k: nat)
    requires k < |c.openers|
  {
    !c.stopped && c.openers[k].id in c.udpRoutes && c.udpRoutes[c.openers[k].id] == k
  }

  ghost predicate PacketsOk(o: Opener, routed: bool, seen: seq<Frame>) {
    && o.packets <= UdpOf(seen, o.id)
    && (routed ==> o.packets == UdpOf(seen, o.id))
    && (o.stage.Allocated? ==> o.packets == [])
  }

  ghost predicate Packets(c: Client, seen: seq<Frame>) {
    forall k :: 0 <= k < |c.openers| ==> PacketsOk(c.openers[k], Routed(c, k), seen)
  }

  ghost predicate UdpInv(t: State)
    requires t.up <= |t.client.session.wire| && t.down <= |t.server.session.wire|
  {
    && ServerUdp(t.server.session, t.server.handler, UpSeen(t))
    && ClientUdp(t.client.session)
    && RoutesKept(t.client, t.unrouted)
    && Packets(t.client, DownSeen(t))
  }

  lemma InitUdp(clientID: uint32, serverID: uint32, auth: Auth)
    ensures UdpInv(Init(clientID, serverID, auth))
  {
    hide Fifo.Accepts;
  }

  // ---- Steps of the client: its queues ----

  lemma PerformSingle(c: Client, a: Act)
    requires ClientUdp(c.session)
    ensures ClientUdp(Perform(c, a).session)
  {
    hide Step, Fifo.Accepts, DecodeDatagram;
    match a
    case Loops(action) => if !action.QueueControl? && !action.QueueData? { InternalAccepts(c.session, action); }
    case SendUdp(k, data, id, nowMS) =>
      if MaySendUdp(c, k, data) { RequestIsSingle(c.openers[k].id, data, id, nowMS); }
    case _ =>
  }

  // ---- Steps of the client: its routes ----

  lemma SameRoutes(c: Client, a: Act)
    requires !a.StoreConn?
    ensures Perform(c, a).udpRoutes == c.udpRoutes && Perform(c, a).stopped == c.stopped
  {
    hide Step, PushControl, PushData, Fifo.Accepts;
  }

  /** Nothing but storing a connection leaves the first stage. */
  lemma FirstStage(c: Client, a: Act, k: nat)
    requires !a.StoreConn? && k < |c.openers| && k < |Perform(c, a).openers|
    ensures c.openers[k].stage.Allocated? ==> Perform(c, a).openers[k].stage.Allocated?
  {
    hide Perform;
    if a.DropConn? {
      DropStage(c, a.k, k);
    } else {
      SameAllocated(c, a, k);
    }
  }

  lemma DropStage(c: Client, j: nat, k: nat)
    requires k < |c.openers|
    ensures c.openers[k].stage.Allocated? ==> Perform(c, DropConn(j)).openers[k].stage.Allocated?
  {
  }

  lemma OtherActRoutes(c: Client, a: Act, unrouted: set<uint32>)
    requires RoutesKept(c, unrouted) && !a.StoreConn?
    ensures RoutesKept(Perform(c, a), unrouted)
  {
    hide Perform, MarkedBy, Grows;
    var d := Perform(c, a);
    SameRoutes(c, a);
    PerformShape(c, a);
    PerformGrows(c, a);
    MarksKept(c, d, unrouted);
    forall k | 0 <= k < |d.openers| && d.openers[k].kind.Udp? && !d.openers[k].stage.Allocated?
      ensures d.openers[k].id in d.udpRoutes <==> d.openers[k].id !in unrouted
    {
      if k < |c.openers| {
        FirstStage(c, a, k);
        GrownName(c.openers, d.openers, k);
      }
      if a.Allocate? {
        AllocatedLast(c, a.kind);
      }
    }
  }

  lemma GrownName(before: seq<Opener>, after: seq<Opener>, k: nat)
    requires Grows(before, after) && k < |before|
    ensures after[k].id == before[k].id && after[k].kind == before[k].kind
  {
  }

  lemma StoreRoutes(c: Client, k: nat, unrouted: set<uint32>)
    requires RoutesKept(c, unrouted) && IdsInv(c) && |c.openers| <= TWO_32
    ensures RoutesKept(StoreConnStep(c, k), unrouted)
  {
    hide IdsInv, Grows;
    var d := StoreConnStep(c, k);
    PerformGrows(c, StoreConn(k));
    MarksKept(c, d, unrouted);
    if At(c, k, Allocated) {
      forall j | 0 <= j < |c.openers| && c.openers[j].id == c.openers[k].id
        ensures j == k
      {
        IdsDistinct(c, j, k);
      }
      assert c.openers[k].id !in unrouted;
    }
  }

  // ---- Steps of the client: what was delivered ----

  lemma SamePackets(c: Client, a: Act, k: nat)
    requires k < |c.openers|
    ensures k < |Perform(c, a).openers| && Perform(c, a).openers[k].packets == c.openers[k].packets
    ensures Perform(c, a).openers[k].id == c.openers[k].id
  {
    hide NoDelivery, Perform;
    if a.StoreConn? {
      PerformNames(c, a.k);
      StoringPackets(c, a.k, k);
    } else if a.Allocate? {
      AllocatingSilent(c, a.kind, k);
    } else {
      PerformNoDelivery(c, a);
      NoDeliveryPackets(c, Perform(c, a), k);
    }
  }

  lemma StoringPackets(c: Client, j: nat, k: nat)
    requires k < |c.openers|
    ensures var d := StoreConnStep(c, j);
            k < |d.openers| && d.openers[k].packets == c.openers[k].packets && d.openers[k].id == c.openers[k].id
  {
  }

  lemma NoDeliveryPackets(c: Client, d: Client, k: nat)
    requires NoDelivery(c, d) && k < |c.openers|
    ensures k < |d.openers| && d.openers[k].packets == c.openers[k].packets && d.openers[k].id == c.openers[k].id
  {
  }

  lemma StoredRoute(c: Client, j: nat, k: nat)
    requires k < |c.openers|
    ensures var d := StoreConnStep(c, j);
            && k < |d.openers| && (Routed(d, k) ==> Routed(c, k) || (j == k && At(c, k, Allocated)))
            && (d.openers[k].stage.Allocated? ==> c.openers[k].stage.Allocated?)
            && (At(c, j, Allocated) && j == k ==> c.openers[k].packets == d.openers[k].packets)
  {
  }

  lemma PerformPackets(c: Client, a: Act, seen: seq<Frame>)
    requires Packets(c, seen) && ConnsOk(c.udpRoutes, c.openers, Udp)
    requires forall k :: 0 <= k < |c.openers| && c.openers[k].stage.Allocated? ==> UdpOf(seen, c.openers[k].id) == []
    ensures Packets(Perform(c, a), seen)
  {
    hide Perform, UdpOf;
    var d := Perform(c, a);
    PerformShape(c, a);
    forall k | 0 <= k < |d.openers|
      ensures PacketsOk(d.openers[k], Routed(d, k), seen)
    {
      if k < |c.openers| {
        assert PacketsOk(c.openers[k], Routed(c, k), seen);
        SamePackets(c, a, k);
        if a.StoreConn? {
          PerformNames(c, a.k);
          StoredRoute(c, a.k, k);
        } else {
          SameRoutes(c, a);
          BackToFirst(c, a, k);
        }
      } else {
        FreshOpener(c, a.kind);
        SameRoutes(c, a);
      }
    }
  }

  lemma BackToFirst(c: Client, a: Act, k: nat)
    requires k < |c.openers| && k < |Perform(c, a).openers|
    ensures Perform(c, a).openers[k].stage.Allocated? ==> c.openers[k].stage.Allocated?
  {
    hide NoDelivery, Perform;
    if a.StoreConn? {
      PerformNames(c, a.k);
      StoredRoute(c, a.k, k);
    } else if a.Allocate? {
      AllocatingSilent(c, a.kind, k);
    } else {
      PerformNoDelivery(c, a);
      NoDeliveryStage(c, Perform(c, a), k);
    }
  }

  lemma NoDeliveryStage(c: Client, d: Client, k: nat)
    requires NoDelivery(c, d) && k < |c.openers|
    ensures d.openers[k].stage.Allocated? ==> c.openers[k].stage.Allocated?
  {
  }

  lemma FreshOpener(c: Client, kind: Kind)
    ensures var d := AllocateStep(c, kind);
            |d.openers| == |c.openers| + 1 && d.openers[|c.openers|].packets == []
  {
  }

  /** No datagram can arrive for a channel whose open has not been sent. */
  lemma NoDatagramBeforeOpen(t: State, k: nat)
    requires Base(t) && k < |t.client.openers| && !Marker(OpenMark, t.client.openers[k])
    requires ServerUdp(t.server.session, t.server.handler, UpSeen(t))
    ensures UdpOf(DownSeen(t), t.client.openers[k].id) == []
  {
    hide Inv, ClientInv, Count, UdpOf, MarkedBy;
    var id, s := t.client.openers[k].id, t.server.session;
    if WasOpened(UpSeen(t), id) {
      OpenWasSent(t.client, t.up, id, k);
    }
    UdpEmpty(s.acceptedData, id);
    SeenUdp(s, t.down, id);
  }

  lemma ClientActsUdp(t: State, a: Act, auth: Auth)
    requires TunnelInv(t, auth) && UdpInv(t) && |ClientActStep(t, a).client.openers| <= TWO_32
    ensures t.up <= |ClientActStep(t, a).client.session.wire| && UdpInv(ClientActStep(t, a))
  {
    hide Inv, IdsInv, KindsInv, AllSentOk, Rendezvous, Upstream, Accounts, ServerSent, GrantsCounted, Downstream,
      SP.Opens, SeenFrames, Perform, ServerUdp, ClientUdp, RoutesKept, Packets;
    var c, d := t.client, Perform(t.client, a);
    PerformMoves(c, a);
    SeenMoves(c.session, d.session, t.up);
    PerformSingle(c, a);
    if a.StoreConn? {
      StoreRoutes(c, a.k, t.unrouted);
      PerformNames(c, a.k);
    } else {
      OtherActRoutes(c, a, t.unrouted);
    }
    forall k | 0 <= k < |c.openers| && c.openers[k].stage.Allocated?
      ensures UdpOf(DownSeen(t), c.openers[k].id) == []
    {
      NoDatagramBeforeOpen(t, k);
    }
    assert ConnsOk(c.udpRoutes, c.openers, Udp) by { RendezvousRoutes(c); }
    PerformPackets(c, a, DownSeen(t));
  }

  lemma RendezvousRoutes(c: Client)
    requires Rendezvous(c)
    ensures ConnsOk(c.udpRoutes, c.openers, Udp)
  {
  }

  // ---- Frames from the server ----

  /** What a frame does to routes and packets. */
  lemma HandleUdp(c: Client, f: Frame, room: nat)
    requires !c.stopped && ConnsOk(c.udpRoutes, c.openers, Udp)
    ensures var d := Handle(c, f, room);
            && |d.openers| == |c.openers|
            && d.udpRoutes == (if f.kind == UDPCLOSE then c.udpRoutes - {f.channelID} else c.udpRoutes)
            && forall k :: 0 <= k < |c.openers| ==>
                 && d.openers[k].id == c.openers[k].id && d.openers[k].kind == c.openers[k].kind
                 && d.openers[k].stage == c.openers[k].stage
                 && (d.openers[k].packets == c.openers[k].packets
                     || (Routed(c, k) && d.openers[k].packets == c.openers[k].packets + UdpIn(f, c.openers[k].id)))
                 && (Routed(d, k) ==> d.openers[k].packets == c.openers[k].packets + UdpIn(f, c.openers[k].id))
  {
    hide Fifo.Accepts, PushControl, DecodeDatagram, DeliverPacket;
    if f.kind == UDPDATA {
      PacketUdp(c, f, room);
    }
  }

  lemma PacketUdp(c: Client, f: Frame, room: nat)
    requires !c.stopped && ConnsOk(c.udpRoutes, c.openers, Udp) && f.kind == UDPDATA
    ensures var d := DeliverPacket(c, f, room);
            && |d.openers| == |c.openers| && d.udpRoutes == c.udpRoutes
            && forall k :: 0 <= k < |c.openers| ==>
                 && d.openers[k].id == c.openers[k].id && d.openers[k].kind == c.openers[k].kind
                 && d.openers[k].stage == c.openers[k].stage
                 && (d.openers[k].packets == c.openers[k].packets
                     || (Routed(c, k) && d.openers[k].packets == c.openers[k].packets + UdpIn(f, c.openers[k].id)))
                 && (Routed(d, k) ==> d.openers[k].packets == c.openers[k].packets + UdpIn(f, c.openers[k].id))
  {
    hide DecodeDatagram;
  }

  lemma HandlePackets(c: Client, f: Frame, room: nat, seen: seq<Frame>, g: Frame)
    requires Packets(c, seen) && !c.stopped && ConnsOk(c.udpRoutes, c.openers, Udp)
    requires f.kind == g.kind && f.channelID == g.channelID && f.payload == g.payload
    ensures Packets(Handle(c, f, room), seen + [g])
  {
    hide Handle, UdpOf, UdpIn;
    var d := Handle(c, f, room);
    HandleUdp(c, f, room);
    forall k | 0 <= k < |d.openers|
      ensures PacketsOk(d.openers[k], Routed(d, k), seen + [g])
    {
      assert PacketsOk(c.openers[k], Routed(c, k), seen);
      UdpSnoc(seen, g, c.openers[k].id);
      UdpInSame(f, g, c.openers[k].id);
      if c.openers[k].stage.Allocated? {
        StoredIsNotFirst(c, k);
      }
      if Routed(d, k) {
        StaysRouted(c, f, room, k);
      }
    }
  }

  lemma UdpInSame(f: Frame, g: Frame, channel: uint32)
    requires f.kind == g.kind && f.channelID == g.channelID && f.payload == g.payload
    ensures UdpIn(f, channel) == UdpIn(g, channel)
  {
  }

  lemma StoredIsNotFirst(c: Client, k: nat)
    requires ConnsOk(c.udpRoutes, c.openers, Udp) && k < |c.openers| && c.openers[k].stage.Allocated?
    ensures !Routed(c, k)
  {
  }

  lemma StaysRouted(c: Client, f: Frame, room: nat, k: nat)
    requires !c.stopped && k < |c.openers| && k < |Handle(c, f, room).openers| && Routed(Handle(c, f, room), k)
    requires ConnsOk(c.udpRoutes, c.openers, Udp)
    ensures Routed(c, k)
  {
    hide Handle;
    HandleUdp(c, f, room);
  }

  lemma HandleRoutes(c: Client, f: Frame, room: nat, unrouted: set<uint32>)
    requires RoutesKept(c, unrouted) && (f.kind == UDPCLOSE ==> MarkedBy(c.openers, OpenMark, f.channelID))
    requires !c.stopped && ConnsOk(c.udpRoutes, c.openers, Udp)
    ensures RoutesKept(Handle(c, f, room), if f.kind == UDPCLOSE then unrouted + {f.channelID} else unrouted)
  {
    hide Handle, MarkedBy;
    var d := Handle(c, f, room);
    HandleUdp(c, f, room);
    HandleConns(c, f, room);
    SameMarks(c.openers, d.openers);
    MarksKept(c, d, if f.kind == UDPCLOSE then unrouted + {f.channelID} else unrouted);
  }

  /** A UDPCLOSE that arrives is for a channel that was opened. */
  lemma UnroutedWasOpened(t: State)
    requires Base(t) && ServerUdp(t.server.session, t.server.handler, UpSeen(t))
    requires t.down < |t.server.session.wire| && DownFrame(t).kind in {UDPCLOSE, UDPDATA}
    requires ServerSent(t.server.session, t.server.handler, t.counted)
    ensures MarkedBy(t.client.openers, OpenMark, DownFrame(t).channelID)
    ensures DownFrame(t).kind == UDPDATA ==> SingleFrame(DownFrame(t))
  {
    hide Inv, Count, Rendezvous, IdsInv, DecodeDatagram;
    var i := SeenNext(t.server.session, t.down);
    var x, ch := t.server.session.wire[t.down], DownFrame(t).channelID;
    assert x.origin == Data ==> ServerDataOk(t.server.session.acceptedData[i], t.server.handler.targets);
    assert x.origin == Data ==> SingleFrame(t.server.session.acceptedData[i]);
    assert x.origin == Control ==> t.server.session.acceptedControl[i] == x.original;
    SeenCount(t.client.session, t.up, OpenMark, ch);
    assert SentOk(t.client.session.acceptedControl, t.client.openers, OpenMark, ch);
  }

  lemma ClientReadsUdp(t: State, room: nat, auth: Auth)
    requires TunnelInv(t, auth) && UdpInv(t)
    ensures var u := ClientReadStep(t, room);
            t.up <= |u.client.session.wire| && u.down <= |u.server.session.wire| && UdpInv(u)
  {
    hide Handle, Inv, ClientInv, Upstream, Accounts, ServerSent, GrantsCounted, Downstream, SP.Opens, SeenFrames,
      RoutesKept, Packets, ServerUdp, ClientUdp;
    if t.down < |t.server.session.wire| && !t.client.stopped && t.client.reader.Reading? {
      var c, f := t.client, DownFrame(t);
      var d := Handle(c, f, room);
      HandleMoves(c, f, room);
      SeenMoves(c.session, d.session, t.up);
      var i := SeenNext(t.server.session, t.down);
      if f.kind == UDPCLOSE {
        UnroutedWasOpened(t);
      }
      ClientRoutes(c);
      HandleRoutes(c, f, room, t.unrouted);
      HandlePackets(c, f, room, DownSeen(t), t.server.session.wire[t.down].stamped);
      HandleKeepsQueues(c, f, room);
      SameData(c.session, d.session);
    }
  }

  lemma ClientRoutes(c: Client)
    requires ClientInv(c)
    ensures ConnsOk(c.udpRoutes, c.openers, Udp)
  {
  }

  lemma SameData(s: Session, t: Session)
    requires s.acceptedData == t.acceptedData
    ensures ClientUdp(s) ==> ClientUdp(t)
  {
  }

  // ---- Steps of the server ----

  lemma SeenMore(seen: seq<Frame>, g: Frame, channel: uint32)
    ensures WasOpened(seen, channel) ==> WasOpened(seen + [g], channel)
    ensures Marks(g, OpenMark, channel) ==> WasOpened(seen + [g], channel)
  {
    CountSnoc(seen, g, OpenMark, channel);
  }

  lemma HandleReads(v: SH.Server, f: Frame, env: SH.Env, channel: uint32)
    requires SH.Ready(v) && Reads(SH.HandleFrame(v, f, env).handler, channel)
    ensures Reads(v.handler, channel) || (f.kind == OPENUDP && f.channelID == channel)
  {
    hide PushControl, DecodeAuth, DecodeAddress, DecodeDatagram;
  }

  /** A frame is answered neither with a UDPCLOSE nor with a datagram. */
  lemma UdpReplyKind(v: SH.Server, f: Frame, env: SH.Env) returns (reply: Frame)
    requires SH.Ready(v)
    ensures var w := SH.HandleFrame(v, f, env); w.session == v.session || w.session == PushControl(v.session, reply)
    ensures reply.kind != UDPCLOSE && reply.kind != UDPDATA
  {
    hide PushControl, Fifo.Accepts, DecodeDatagram;
    reply := ZERO_FRAME;
    if f.kind == AUTH && env.rejection.Some? {
      reply := SH.ControlFrame(AUTHERR, 0, env.rejection.value);
    } else if f.kind == AUTH {
      reply := SH.ControlFrame(AUTHOK, 0, []);
    } else if f.kind == PING {
      reply := SH.ControlFrame(PONG, 0, []);
    } else if env.dialError.Some? {
      reply := SH.ControlFrame(OPENERR, f.channelID, env.dialError.value);
    }
  }

  lemma QueuesUdp(s: Session, h: SH.Handler, f: Frame, g: SH.Handler, seen: seq<Frame>, more: seq<Frame>)
    requires ServerUdp(s, h, seen)
    requires forall channel :: WasOpened(seen, channel) ==> WasOpened(more, channel)
    requires forall channel :: Reads(g, channel) ==> WasOpened(more, channel)
    requires f.kind != UDPDATA && (f.kind == UDPCLOSE ==> WasOpened(more, f.channelID))
    ensures ServerUdp(s, g, more) && ServerUdp(PushControl(s, f), g, more)
  {
    hide Fifo.Accepts, Count, DecodeDatagram;
  }

  lemma ServerReadsUdp(t: State, env: SH.Env, auth: Auth)
    requires TunnelInv(t, auth) && UdpInv(t)
    ensures var u := ServerReadStep(t, env);
            u.up <= |u.client.session.wire| && t.down <= |u.server.session.wire| && UdpInv(u)
  {
    hide SH.HandleFrame, Inv, ClientInv, Upstream, Accounts, ServerSent, GrantsCounted, Downstream, SP.Opens,
      SeenFrames, RoutesKept, Packets, ClientUdp, Count, SingleFrame, WasOpened;
    if t.up < |t.client.session.wire| && SH.Ready(t.server) {
      var v, f, g, seen := t.server, UpFrame(t), t.client.session.wire[t.up].stamped, UpSeen(t);
      var w := SH.HandleFrame(v, f, env);
      HandleServerMoves(v, f, env);
      SeenMoves(v.session, w.session, t.down);
      ClientFrameKind(t);
      var reply := UdpReplyKind(v, f, env);
      forall channel
        ensures WasOpened(seen, channel) ==> WasOpened(seen + [g], channel)
        ensures Reads(w.handler, channel) ==> WasOpened(seen + [g], channel)
      {
        SeenMore(seen, g, channel);
        if Reads(w.handler, channel) {
          HandleReads(v, f, env, channel);
        }
      }
      QueuesUdp(v.session, v.handler, reply, w.handler, seen, seen + [g]);
    }
  }

  lemma ServerAnswersUdp(t: State, auth: Auth)
    requires TunnelInv(t, auth) && UdpInv(t)
    ensures var u := ServerAnswerStep(t); t.down <= |u.server.session.wire| && UdpInv(u)
  {
    hide Inv, ClientInv, Upstream, Accounts, ServerSent, GrantsCounted, Downstream, SP.Opens, SeenFrames, PushControl,
      RoutesKept, Packets, ClientUdp, WasOpened, SingleFrame, Fifo.Accepts;
    if t.server.opening.Some? && t.server.stopped.None? {
      var v, w := t.server, SH.FinishOpen(t.server);
      AnswerMoves(v);
      SeenMoves(v.session, w.session, t.down);
      QueuesUdp(v.session, v.handler, SH.ControlFrame(OPENOK, v.opening.value, []), w.handler, UpSeen(t), UpSeen(t));
    }
  }

  lemma ReactReads(v: SH.Server, e: SH.Event, channel: uint32)
    requires !e.Receive? && !e.Answer?
    ensures Reads(SH.React(v, e).handler, channel) ==> Reads(v.handler, channel)
  {
    hide Step, PushControl, PushData;
  }

  lemma ReactUdpQueues(v: SH.Server, e: SH.Event, seen: seq<Frame>)
    requires !e.Receive? && !e.Answer? && ServerUdp(v.session, v.handler, seen)
    requires v.session.heartbeat.Holding? ==> v.session.heartbeat.ping.kind == PING
    ensures ServerUdp(SH.React(v, e).session, v.handler, seen)
  {
    hide Step, Fifo.Accepts, WasOpened, DecodeDatagram;
    match e
    case Loop(a) => if SH.InternalAction(a) { InternalAccepts(v.session, a); }
    case UdpReply(ch, data, id) =>
      if ch in v.handler.udpReading && 0 < |data| <= MAX_LOCAL_DATAGRAM {
        ReplyIsSingle(ch, data, id);
        assert Reads(v.handler, ch);
      }
    case UdpEnd(ch) => assert ch in v.handler.udpReading ==> Reads(v.handler, ch);
    case _ =>
  }

  lemma ServerActsUdp(t: State, e: SH.Event, auth: Auth)
    requires TunnelInv(t, auth) && UdpInv(t) && !e.Receive? && !e.Answer?
    ensures var u := ServerActStep(t, e); t.down <= |u.server.session.wire| && UdpInv(u)
  {
    hide SH.React, Inv, ClientInv, Upstream, Accounts, GrantsCounted, Downstream, SP.Opens, SeenFrames, RoutesKept,
      Packets, ClientUdp, WasOpened, SingleFrame;
    var v := SH.React(t.server, e);
    ReactMoves(t.server, e);
    SeenMoves(t.server.session, v.session, t.down);
    ReactUdpQueues(t.server, e, UpSeen(t));
    forall channel | Reads(v.handler, channel)
      ensures WasOpened(UpSeen(t), channel)
    {
      ReactReads(t.server, e, channel);
    }
  }

  lemma BaseSeen(t: State, auth: Auth)
    requires TunnelInv(t, auth)
    ensures t.up <= |t.client.session.wire| && t.down <= |t.server.session.wire|
  {
  }

  lemma NextUdp(t: State, e: Event, auth: Auth)
    requires TunnelInv(t, auth) && TunnelInv(Next(t, e), auth)
    requires t.up <= |t.client.session.wire| && t.down <= |t.server.session.wire| && UdpInv(t)
    requires |Next(t, e).client.openers| <= TWO_32
    ensures var u := Next(t, e);
            u.up <= |u.client.session.wire| && u.down <= |u.server.session.wire| && UdpInv(u)
  {
    hide TunnelInv, UdpInv, ClientActStep, ClientReadStep, ServerReadStep, ServerAnswerStep, ServerActStep;
    BaseSeen(Next(t, e), auth);
    match e
    case ClientActs(a) => ClientActsUdp(t, a, auth);
    case ClientReads(room) => ClientReadsUdp(t, room, auth);
    case ServerReads(env) => ServerReadsUdp(t, env, auth);
    case ServerAnswers => ServerAnswersUdp(t, auth);
    case ServerActs(ev) => if !ev.Receive? && !ev.Answer? { ServerActsUdp(t, ev, auth); }
  }

  lemma {:induction false} RunUdp(t: State, es: seq<Event>, auth: Auth)
    requires TunnelInv(t, auth) && |RunTunnel(t, es).client.openers| <= TWO_32
    requires t.up <= |t.client.session.wire| && t.down <= |t.server.session.wire| && UdpInv(t)
    ensures var u := RunTunnel(t, es);
            u.up <= |u.client.session.wire| && u.down <= |u.server.session.wire| && UdpInv(u)
    decreases |es|
  {
    hide TunnelInv, UdpInv, Next;
    if es != [] {
      OpenersGrowInRun(Next(t, es[0]), es[1..]);
      NextInv(t, es[0], auth);
      NextUdp(t, es[0], auth);
      RunUdp(Next(t, es[0]), es[1..], auth);
    }
  }

  lemma ReachedUdp(clientID: uint32, serverID: uint32, auth: Auth, es: seq<Event>, t: State)
    requires Reaches(clientID, serverID, auth, es, t)
    ensures t.up <= |t.client.session.wire| && t.down <= |t.server.session.wire| && UdpInv(t)
  {
    hide TunnelInv, UdpInv;
    InitTunnelInv(clientID, serverID, auth);
    InitUdp(clientID, serverID, auth);
    BaseSeen(Init(clientID, serverID, auth), auth);
    RunUdp(Init(clientID, serverID, auth), es, auth);
  }

  // ---- What local programs receive ----

  /** Target to local program: in every reachable state the packets written for a UDP channel are a prefix of the
      datagrams the server's data queue accepted for it, byte for byte, and until the route is removed by a handled
      UDPCLOSE, all of those the client has read. */
  lemma LocalPacketsPrefix(clientID: uint32, serverID: uint32, auth: Auth, es: seq<Event>, t: State, k: nat)
    requires Reaches(clientID, serverID, auth, es, t) && k < |t.client.openers|
    ensures var o := t.client.openers[k];
            && o.packets <= UdpOf(t.server.session.acceptedData, o.id)
            && t.down <= |t.server.session.wire|
            && (o.kind.Udp? && !o.stage.Allocated? && !t.client.stopped && o.id !in t.unrouted ==>
                  o.packets == UdpOf(DownSeen(t), o.id))
  {
    hide Inv, IdsInv, KindsInv, AllSentOk, UdpOf, Accounts, Upstream, GrantsCounted, SP.Opens, RunTunnel, ServerSent,
      Downstream;
    ReachedInv(clientID, serverID, auth, es, t);
    ReachedUdp(clientID, serverID, auth, es, t);
    var o := t.client.openers[k];
    assert PacketsOk(o, Routed(t.client, k), DownSeen(t));
    SeenUdp(t.server.session, t.down, o.id);
    if o.id in t.client.udpRoutes {
      IdsDistinct(t.client, t.client.udpRoutes[o.id], k);
    }
  }
}
