/** Two kinds of steps of the tunnel: frames handled by the client, and the server's own goroutines. */
module TunnelSteps {
  import opened Bytes
  import opened FrameCodec
  import opened FrameQueues
  import opened SessionSystem
  import SP = SessionProperties
  import opened Messages
  import opened TunnelClient
  import opened TunnelFrames
  import opened TunnelClientInv
  import opened Tunnel
  import opened TunnelInvariant
  import SH = ServerHandler

  // ---- The client handles a frame ----

  lemma HandleMoves(c: Client, f: Frame, room: nat)
    requires Inv(c.session)
    ensures Moves(c.session, Handle(c, f, room).session)
  {
    hide Moves, Inv, PushControl, DeliverData, DeliverPacket, Fifo.Accepts;
    StayMoves(c.session);
    PushMoves(c.session, ZERO_FRAME.(kind := PONG));
    DeliverTouches(c, f, room);
    PacketTouches(c, f, room);
  }

  lemma HandleGrants(c: Client, f: Frame, room: nat, counted: set<uint32>)
    requires GrantsCounted(c.openers, c.reader, counted) && Rendezvous(c) && c.reader.Reading?
    requires f.kind == OPENOK ==> f.channelID in counted
    ensures GrantsCounted(Handle(c, f, room).openers, Handle(c, f, room).reader, counted)
  {
    hide PushControl, Fifo.Accepts, ConnsOk, ChannelsOk, DeliverPacket;
    if f.kind == UDPDATA {
      PacketTouches(c, f, room);
    }
  }

  lemma DeliverDownstream(c: Client, f: Frame, room: nat, seen: seq<Frame>, g: Frame)
    requires Downstream(c, seen) && IdsInv(c) && |c.openers| <= TWO_32 && ConnsOk(c.tcpConns, c.openers, Tcp)
    requires !c.stopped && f.kind == g.kind == TCPDATA && f.channelID == g.channelID && f.payload == g.payload
    ensures Downstream(DeliverData(c, f, room), seen + [g])
  {
    hide DataOf, IdsInv;
    var d := DeliverData(c, f, room);
    forall j | 0 <= j < |d.openers|
      ensures ReceivedOk(d.openers[j], Registered(d, j), seen + [g])
    {
      DataSnoc(seen, g, d.openers[j].id);
      assert ReceivedOk(c.openers[j], Registered(c, j), seen);
      if f.channelID in c.tcpConns && j != c.tcpConns[f.channelID] && c.openers[j].id == f.channelID {
        IdsDistinct(c, j, c.tcpConns[f.channelID]);
      }
    }
  }

  lemma OtherDownstream(c: Client, d: Client, seen: seq<Frame>, g: Frame)
    requires Downstream(c, seen) && |d.openers| == |c.openers| && g.kind != TCPDATA && !c.stopped
    requires forall k :: 0 <= k < |c.openers| ==> d.openers[k] == c.openers[k].(packets := d.openers[k].packets)
    requires forall channel :: channel in d.tcpConns ==>
               channel in c.tcpConns && d.tcpConns[channel] == c.tcpConns[channel]
    ensures Downstream(d, seen + [g])
  {
    hide DataOf;
    forall j | 0 <= j < |d.openers|
      ensures ReceivedOk(d.openers[j], Registered(d, j), seen + [g])
    {
      DataSnoc(seen, g, d.openers[j].id);
      assert ReceivedOk(c.openers[j], Registered(c, j), seen);
    }
  }

  lemma HandleDownstream(c: Client, f: Frame, room: nat, seen: seq<Frame>, g: Frame)
    requires Downstream(c, seen) && ClientInv(c) && |c.openers| <= TWO_32 && !c.stopped
    requires f.kind == g.kind && f.channelID == g.channelID && f.payload == g.payload
    ensures Downstream(Handle(c, f, room), seen + [g])
  {
    hide Downstream, PushControl, DeliverData, DeliverPacket, Fifo.Accepts, DecodeDatagram, AllSentOk;
    PacketTouches(c, f, room);
    if f.kind == TCPDATA {
      DeliverDownstream(c, f, room, seen, g);
    } else {
      OtherDownstream(c, Handle(c, f, room), seen, g);
    }
  }

  /** An OPENOK on the server's wire is for a channel the server has counted. */
  lemma GrantOnWire(t: State)
    requires Base(t) && ServerSent(t.server.session, t.server.handler, t.counted)
    requires t.down < |t.server.session.wire|
    ensures DownFrame(t).kind == OPENOK ==> DownFrame(t).channelID in t.counted
  {
    hide Inv, ClientInv;
    var i := SeenNext(t.server.session, t.down);
    var x := t.server.session.wire[t.down];
    if x.origin == Control {
      assert ServerControlOk(t.server.session.acceptedControl[i], t.counted);
    } else {
      assert ServerDataOk(t.server.session.acceptedData[i], t.server.handler.targets);
    }
  }

  lemma ClientReadsInv(t: State, room: nat, auth: Auth)
    requires TunnelInv(t, auth)
    ensures TunnelInv(ClientReadStep(t, room), auth)
  {
    hide Handle, Inv, IdsInv, KindsInv, AllSentOk, Rendezvous, Upstream, Accounts, ServerSent, GrantsCounted,
      Downstream, SP.Opens, SeenFrames, AuthOk;
    if t.down < |t.server.session.wire| && !t.client.stopped && t.client.reader.Reading? {
      var c, f := t.client, DownFrame(t);
      var d := Handle(c, f, room);
      HandleMoves(c, f, room);
      SeenMoves(c.session, d.session, t.up);
      HandleClientInv(c, f, room);
      GrantOnWire(t);
      HandleGrants(c, f, room, t.counted);
      var i := SeenNext(t.server.session, t.down);
      HandleDownstream(c, f, room, DownSeen(t), t.server.session.wire[t.down].stamped);
    }
  }

  // ---- The server's own goroutines ----

  lemma ReactMoves(v: SH.Server, e: SH.Event)
    requires Inv(v.session) && !e.Receive? && !e.Answer?
    ensures Moves(v.session, SH.React(v, e).session)
  {
    hide Moves, Inv, Step, PushControl, PushData;
    StayMoves(v.session);
    match e
    case Loop(a) => StepMoves(v.session, a);
    case TargetData(ch, p) => PushMoves(v.session, ZERO_FRAME.(kind := TCPDATA, channelID := ch, payload := p));
    case UdpReply(ch, data, id) =>
      if 0 < |data| <= MAX_LOCAL_DATAGRAM { PushMoves(v.session, UdpDataFrame(ch, SH.ReplyDatagram(data, id))); }
    case TargetEnd(ch) => PushMoves(v.session, SH.ControlFrame(TCPCLOSE, ch, []));
    case UdpEnd(ch) => PushMoves(v.session, SH.ControlFrame(UDPCLOSE, ch, []));
    case _ =>
  }

  /** The goroutines dial nothing, count nothing and write nothing to a target. */
  ghost predicate LeavesTargets(v: SH.Server, w: SH.Server) {
    && w.stopped == v.stopped && w.opening == v.opening && w.handler.authOK == v.handler.authOK
    && w.handler.targets == v.handler.targets && w.handler.conns <= v.handler.conns
    && w.handler.activeChannels == v.handler.activeChannels
  }

  lemma ReactTcp(v: SH.Server, e: SH.Event)
    requires e.TargetData? || e.TargetEnd? || e.TargetDrop?
    ensures LeavesTargets(v, SH.React(v, e))
  {
    hide Step, PushControl, PushData;
  }

  lemma ReactHandler(v: SH.Server, e: SH.Event)
    requires !e.Receive? && !e.Answer?
    ensures LeavesTargets(v, SH.React(v, e))
  {
    hide Step, PushControl, PushData;
    if e.TargetData? || e.TargetEnd? || e.TargetDrop? {
      ReactTcp(v, e);
    }
  }

  lemma ReactCopies(v: SH.Server, e: SH.Event, channel: uint32)
    requires !e.Receive? && !e.Answer?
    ensures Copies(SH.React(v, e).handler, channel) ==> Copies(v.handler, channel)
  {
    hide Step, PushControl, PushData;
  }

  lemma ReactQueues(v: SH.Server, e: SH.Event, counted: set<uint32>)
    requires !e.Receive? && !e.Answer? && ServerSent(v.session, v.handler, counted)
    ensures ServerSent(SH.React(v, e).session, v.handler, counted)
  {
    hide Step, Fifo.Accepts;
    match e
    case Loop(a) => if SH.InternalAction(a) { InternalAccepts(v.session, a); }
    case TargetData(ch, _) => assert Copies(v.handler, ch) <==> ch in v.handler.copying || ch in v.handler.closing;
    case _ =>
  }

  lemma ReactSent(v: SH.Server, e: SH.Event, counted: set<uint32>)
    requires !e.Receive? && !e.Answer? && ServerSent(v.session, v.handler, counted)
    ensures ServerSent(SH.React(v, e).session, SH.React(v, e).handler, counted)
  {
    hide SH.React;
    ReactQueues(v, e, counted);
    ReactHandler(v, e);
    forall channel | Copies(SH.React(v, e).handler, channel)
      ensures channel in v.handler.targets
    {
      ReactCopies(v, e, channel);
    }
  }

  lemma UpstreamKept(h: SH.Handler, g: SH.Handler, alive: bool, still: bool, seen: seq<Frame>, extra: seq<Frame>)
    requires Upstream(h, alive, seen) && g.targets == h.targets && g.conns <= h.conns && (still ==> alive)
    requires extra == [] || (|extra| == 1 && extra[0].kind != TCPDATA)
    ensures Upstream(g, still, seen + extra)
  {
    hide Count, DataOf;
    assert extra == [] ==> seen + extra == seen;
    forall channel
      ensures TargetOk(g, still, seen + extra, channel)
    {
      assert TargetOk(h, alive, seen, channel);
      if extra != [] {
        assert extra == [extra[0]];
        CountSnoc(seen, extra[0], OpenMark, channel);
        DataSnoc(seen, extra[0], channel);
      }
    }
  }

  lemma ServerActsInv(t: State, e: SH.Event, auth: Auth)
    requires TunnelInv(t, auth) && !e.Receive? && !e.Answer?
    ensures TunnelInv(ServerActStep(t, e), auth)
  {
    hide SH.React, Inv, IdsInv, KindsInv, AllSentOk, Rendezvous, Upstream, ServerSent, GrantsCounted,
      Downstream, SP.Opens, SeenFrames;
    var v := SH.React(t.server, e);
    ReactMoves(t.server, e);
    SeenMoves(t.server.session, v.session, t.down);
    ReactHandler(t.server, e);
    ReactSent(t.server, e, t.counted);
    UpstreamKept(t.server.handler, v.handler, t.server.stopped.None?, v.stopped.None?, UpSeen(t), []);
    assert UpSeen(t) + [] == UpSeen(t);
  }
}
