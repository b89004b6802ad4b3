/** When the server has a relay for the data that arrives.  Writing to a channel without one ends the whole
    session, so this is where a close that overtakes its data does its damage. */
module TunnelRelays {
  import opened Bytes
  import opened FrameCodec
  import opened FrameQueues
  import opened SessionSystem
  import SP = SessionProperties
  import opened Messages
  import opened TunnelClient
  import opened TunnelFrames
  import opened TunnelClientInv
  import opened Tunnel
  import opened TunnelInvariant
  import opened TunnelSteps
  import opened TunnelServerReads
  import SH = ServerHandler

  // ---- The invariant ----

  /** A dialed channel has its relay until the client's close was handled or the target's end dropped it. */
  ghost predicate RelaysOk(h: SH.Handler, released: set<uint32>, dropped: set<uint32>) {
    h.conns == h.targets.Keys - released - dropped && dropped <= h.targets.Keys
  }

  /** A TCP channel that was counted, or is about to be, was dialed. */
  ghost predicate TcpDialed(openers: seq<Opener>, counted: set<uint32>, opening: Option<uint32>,
                            targets: map<uint32, seq<byte>>) {
    forall k :: 0 <= k < |openers| && openers[k].kind.Tcp? ==>
      (openers[k].id in counted || opening == Some(openers[k].id) ==> openers[k].id in targets)
  }

  /** OPENUDP is sent for UDP channels only. */
  ghost predicate UdpOpens(control: seq<Frame>, openers: seq<Opener>) {
    forall i, k :: 0 <= i < |control| && 0 <= k < |openers| ==>
      (control[i].kind == OPENUDP && openers[k].id == control[i].channelID ==> openers[k].kind.Udp?)
  }

  ghost predicate DataDialed(data: seq<Frame>, targets: map<uint32, seq<byte>>) {
    forall i :: 0 <= i < |data| && data[i].kind == TCPDATA ==> data[i].channelID in targets
  }

  ghost predicate RelayInv(t: State) {
    && RelaysOk(t.server.handler, t.released, t.dropped)
    && TcpDialed(t.client.openers, t.counted, t.server.opening, t.server.handler.targets)
    && UdpOpens(t.client.session.acceptedControl, t.client.openers)
    && DataDialed(t.client.session.acceptedData, t.server.handler.targets)
  }

  lemma InitRelayInv(clientID: uint32, serverID: uint32, auth: Auth)
    ensures RelayInv(Init(clientID, serverID, auth))
  {
    hide Fifo.Accepts;
  }

  // ---- Steps of the client ----

  /** What a client step adds to the control queue. */
  lemma PerformControl(c: Client, a: Act) returns (f: Frame)
    requires KindsInv(c.session)
    ensures var d := Perform(c, a);
            d.session.acceptedControl == c.session.acceptedControl
            || d.session.acceptedControl == c.session.acceptedControl + [f]
    ensures f.kind == OPENUDP ==>
              a.QueueOpen? && a.k < |c.openers| && c.openers[a.k].kind.Udp? && f.channelID == c.openers[a.k].id
  {
    hide Step, Fifo.Accepts;
    f := ZERO_FRAME;
    match a
    case Loops(action) =>
      if !action.QueueControl? && !action.QueueData? {
        InternalAccepts(c.session, action);
        if c.session.heartbeat.Holding? { f := c.session.heartbeat.ping; }
      }
    case QueueOpen(k, address) => if At(c, k, ResultStored) { f := OpenFrame(c.openers[k], address); }
    case SendClose(k) => if At(c, k, Opened) { f := CloseFrame(c.openers[k].id); }
    case _ =>
  }

  /** What a client step adds to the data queue. */
  lemma PerformData(c: Client, a: Act) returns (f: Frame)
    ensures var d := Perform(c, a);
            d.session.acceptedData == c.session.acceptedData
            || d.session.acceptedData == c.session.acceptedData + [f]
    ensures f.kind == TCPDATA ==>
              a.SendData? && At(c, a.k, Opened) && c.openers[a.k].kind.Tcp? && f.channelID == c.openers[a.k].id
  {
    hide Step, Fifo.Accepts;
    f := ZERO_FRAME;
    match a
    case Loops(action) => if !action.QueueControl? && !action.QueueData? { InternalAccepts(c.session, action); }
    case SendData(k, p) =>
      if At(c, k, Opened) && c.openers[k].kind.Tcp? { f := DataFrame(c.openers[k].id, p); }
    case SendUdp(k, data, id, nowMS) =>
      if At(c, k, Opened) { f := UdpDataFrame(c.openers[k].id, RequestDatagram(data, id, nowMS)); }
    case _ =>
  }

  /** Nothing has been asked for under the id of an opener that has not sent its open. */
  lemma UnsentId(t: State, k: nat)
    requires Base(t) && k < |t.client.openers| && !Marker(OpenMark, t.client.openers[k])
    requires Accounts(t.server.handler, t.counted, t.released, UpSeen(t))
    requires OpeningOk(t.server.opening, t.counted, UpSeen(t))
    ensures var id := t.client.openers[k].id;
            id !in t.counted && t.server.opening != Some(id)
            && forall i :: 0 <= i < |t.client.session.acceptedControl| ==>
                 !Marks(t.client.session.acceptedControl[i], OpenMark, id)
  {
    hide Inv, Count, Rendezvous, KindsInv;
    var c, id := t.client, t.client.openers[k].id;
    if id in t.counted || t.server.opening == Some(id) {
      OpenWasSent(c, t.up, id, k);
    }
    forall i | 0 <= i < |c.session.acceptedControl|
      ensures !Marks(c.session.acceptedControl[i], OpenMark, id)
    {
      if Marks(c.session.acceptedControl[i], OpenMark, id) {
        CountPositive(c.session.acceptedControl, i, OpenMark, id);
        assert SentOk(c.session.acceptedControl, c.openers, OpenMark, id);
        var j :| 0 <= j < |c.openers| && c.openers[j].id == id && Marker(OpenMark, c.openers[j]);
        IdsDistinct(c, j, k);
      }
    }
  }

  lemma PerformUdpOpens(c: Client, a: Act)
    requires IdsInv(c) && KindsInv(c.session) && |c.openers| <= TWO_32
    requires UdpOpens(c.session.acceptedControl, c.openers) && !a.Allocate?
    ensures UdpOpens(Perform(c, a).session.acceptedControl, Perform(c, a).openers)
  {
    hide Perform, IdsInv;
    PerformShape(c, a);
    PerformGrows(c, a);
    var f := PerformControl(c, a);
    if f.kind == OPENUDP {
      forall k | 0 <= k < |c.openers| && c.openers[k].id == f.channelID
        ensures k == a.k
      {
        IdsDistinct(c, k, a.k);
      }
    }
  }

  lemma PerformDialed(c: Client, a: Act, counted: set<uint32>, opening: Option<uint32>, targets: map<uint32, seq<byte>>)
    requires TcpDialed(c.openers, counted, opening, targets) && DataDialed(c.session.acceptedData, targets)
    requires GrantsCounted(c.openers, c.reader, counted) && !a.Allocate?
    ensures TcpDialed(Perform(c, a).openers, counted, opening, targets)
    ensures DataDialed(Perform(c, a).session.acceptedData, targets)
  {
    hide Perform;
    PerformShape(c, a);
    PerformGrows(c, a);
    var f := PerformData(c, a);
    if f.kind == TCPDATA {
      assert Granting(c.openers[a.k]);
    }
  }

  lemma AllocateRelays(t: State, kind: Kind)
    requires RelayInv(t) && Base(t.(client := AllocateStep(t.client, kind)))
    requires Accounts(t.server.handler, t.counted, t.released, UpSeen(t))
    requires OpeningOk(t.server.opening, t.counted, UpSeen(t))
    ensures RelayInv(t.(client := AllocateStep(t.client, kind)))
  {
    hide Base, Accounts, OpeningOk, RelaysOk, DataDialed, Marks;
    var u := t.(client := AllocateStep(t.client, kind));
    var k := |t.client.openers|;
    UnsentId(u, k);
    forall i | 0 <= i < |u.client.session.acceptedControl| && u.client.session.acceptedControl[i].kind == OPENUDP
      ensures u.client.session.acceptedControl[i].channelID != u.client.openers[k].id
    {
      OpensMark(u.client.session.acceptedControl[i]);
    }
  }

  lemma OpensMark(f: Frame)
    ensures f.kind == OPENUDP ==> Marks(f, OpenMark, f.channelID)
  {
  }

  lemma ClientActsRelays(t: State, a: Act, auth: Auth)
    requires TunnelInv(t, auth) && RelayInv(t) && |ClientActStep(t, a).client.openers| <= TWO_32
    ensures RelayInv(ClientActStep(t, a))
  {
    hide Inv, IdsInv, KindsInv, AllSentOk, Rendezvous, Upstream, Accounts, ServerSent, GrantsCounted, Downstream,
      SP.Opens, SeenFrames, Perform, RelaysOk, TcpDialed, UdpOpens, DataDialed, AllocateStep, OpeningOk;
    if a.Allocate? {
      ClientActsInv(t, a, auth);
      PerformShape(t.client, a);
      AllocateUnread(t, a.kind);
      AllocateRelays(t, a.kind);
    } else {
      PerformUdpOpens(t.client, a);
      PerformDialed(t.client, a, t.counted, t.server.opening, t.server.handler.targets);
    }
  }

  lemma AllocateUnread(t: State, kind: Kind)
    ensures AllocateStep(t.client, kind).session == t.client.session
  {
  }

  // ---- Frames from the server ----

  lemma HandleKeepsQueues(c: Client, f: Frame, room: nat)
    ensures var d := Handle(c, f, room);
            && d.session.acceptedData == c.session.acceptedData && |d.openers| == |c.openers|
            && (d.session.acceptedControl == c.session.acceptedControl
                || d.session.acceptedControl == c.session.acceptedControl + [ZERO_FRAME.(kind := PONG)])
            && forall k :: 0 <= k < |c.openers| ==>
                 d.openers[k].id == c.openers[k].id && d.openers[k].kind == c.openers[k].kind
  {
    hide Fifo.Accepts, DecodeDatagram, DeliverPacket;
    PacketTouches(c, f, room);
  }

  lemma ClientReadsRelays(t: State, room: nat)
    requires RelayInv(t)
    ensures RelayInv(ClientReadStep(t, room))
  {
    hide Handle, RelaysOk;
    if t.down < |t.server.session.wire| {
      HandleKeepsQueues(t.client, DownFrame(t), room);
    }
  }

  // ---- Frames from the client ----

  /** What one frame does to relays and targets. */
  lemma HandleRelays(v: SH.Server, f: Frame, env: SH.Env, released: set<uint32>, dropped: set<uint32>)
    requires SH.Ready(v) && RelaysOk(v.handler, released, dropped) && f.kind != UDPCLOSE
    requires f.kind == OPENTCP ==> f.channelID !in released && f.channelID !in v.handler.targets
    ensures var w := SH.HandleFrame(v, f, env);
            RelaysOk(w.handler,
                     if w.handler.activeChannels < v.handler.activeChannels then released + {f.channelID} else released,
                     dropped)
  {
    hide PushControl, DecodeAuth, DecodeAddress, DecodeDatagram;
    var w := SH.HandleFrame(v, f, env);
    if f.kind == OPENTCP {
      HandleOpenRelays(v, f, env, released, dropped);
    } else if f.kind == TCPDATA {
      assert w.handler.targets.Keys == v.handler.targets.Keys;
    }
  }

  lemma HandleOpenRelays(v: SH.Server, f: Frame, env: SH.Env, released: set<uint32>, dropped: set<uint32>)
    requires SH.Ready(v) && RelaysOk(v.handler, released, dropped) && f.kind == OPENTCP
    requires f.channelID !in released && f.channelID !in v.handler.targets
    ensures var w := SH.HandleFrame(v, f, env);
            RelaysOk(w.handler, released, dropped) && w.handler.activeChannels == v.handler.activeChannels
  {
    hide PushControl, DecodeAddress;
    var w := SH.HandleFrame(v, f, env);
    assert w.handler.targets.Keys == v.handler.targets.Keys
           || w.handler.targets.Keys == v.handler.targets.Keys + {f.channelID};
  }

  lemma HandleOpening(v: SH.Server, f: Frame, env: SH.Env)
    requires SH.Ready(v)
    ensures var w := SH.HandleFrame(v, f, env);
            && v.handler.targets.Keys <= w.handler.targets.Keys
            && (w.opening.Some? ==> w.opening.value == f.channelID
                                    && (f.kind == OPENUDP || f.channelID in w.handler.targets))
  {
    hide PushControl, DecodeAuth, DecodeAddress, DecodeDatagram;
  }

  /** A frame that opens a channel does so for the first time. */
  lemma OpensOnce(t: State)
    requires Base(t) && t.up < |t.client.session.wire| && UpFrame(t).kind == OPENTCP
    requires GrantsCounted(t.client.openers, t.client.reader, t.counted)
    requires Upstream(t.server.handler, t.server.stopped.None?, UpSeen(t))
    requires Accounts(t.server.handler, t.counted, t.released, UpSeen(t))
    ensures UpFrame(t).channelID !in t.released && UpFrame(t).channelID !in t.server.handler.targets
  {
    hide Inv, ClientInv, GrantsCounted, Count, DataOf;
    var ch := UpFrame(t).channelID;
    MarkedOnce(t, t.up + 1, OpenMark, ch);
    ClientFrameKind(t);
    CountSnoc(UpSeen(t), t.client.session.wire[t.up].stamped, OpenMark, ch);
    assert TargetOk(t.server.handler, t.server.stopped.None?, UpSeen(t), ch);
  }

  /** A frame of kind OPENUDP on the client's wire is for a UDP channel. */
  lemma WireUdpOpen(t: State, k: nat)
    requires Base(t) && t.up < |t.client.session.wire| && UpFrame(t).kind == OPENUDP
    requires UdpOpens(t.client.session.acceptedControl, t.client.openers)
    requires k < |t.client.openers| && t.client.openers[k].id == UpFrame(t).channelID
    ensures t.client.openers[k].kind.Udp?
  {
    hide Inv, Rendezvous, AllSentOk, IdsInv;
    var i := SeenNext(t.client.session, t.up);
    var x := t.client.session.wire[t.up];
    assert x.origin == Data ==> DataKind(t.client.session.acceptedData[i]);
    assert x.origin == Control ==> t.client.session.acceptedControl[i] == x.original;
  }

  lemma DialedGrows(t: State, w: SH.Server)
    requires TcpDialed(t.client.openers, t.counted, None, t.server.handler.targets)
    requires DataDialed(t.client.session.acceptedData, t.server.handler.targets)
    requires t.server.handler.targets.Keys <= w.handler.targets.Keys
    requires w.opening.Some? ==>
               w.opening.value in w.handler.targets
               || forall k :: 0 <= k < |t.client.openers| && t.client.openers[k].id == w.opening.value ==>
                    t.client.openers[k].kind.Udp?
    ensures TcpDialed(t.client.openers, t.counted, w.opening, w.handler.targets)
    ensures DataDialed(t.client.session.acceptedData, w.handler.targets)
  {
  }

  lemma ServerReadsRelays(t: State, env: SH.Env, auth: Auth)
    requires TunnelInv(t, auth) && RelayInv(t)
    ensures RelayInv(ServerReadStep(t, env))
  {
    hide SH.HandleFrame, ClientInv, Inv, Upstream, Accounts, ServerSent, GrantsCounted, Downstream, SP.Opens,
      SeenFrames, RelaysOk, TcpDialed, UdpOpens, DataDialed;
    if t.up < |t.client.session.wire| && SH.Ready(t.server) {
      var f := UpFrame(t);
      var w := SH.HandleFrame(t.server, f, env);
      ClientFrameKind(t);
      if f.kind == OPENTCP {
        OpensOnce(t);
      }
      HandleRelays(t.server, f, env, t.released, t.dropped);
      HandleOpening(t.server, f, env);
      if f.kind == OPENUDP {
        forall k | 0 <= k < |t.client.openers| && t.client.openers[k].id == f.channelID
          ensures t.client.openers[k].kind.Udp?
        {
          WireUdpOpen(t, k);
        }
      }
      DialedGrows(t, w);
    }
  }

  lemma ServerAnswersRelays(t: State)
    requires RelayInv(t)
    ensures RelayInv(ServerAnswerStep(t))
  {
    hide PushControl, Fifo.Accepts, UdpOpens, DataDialed;
  }

  // ---- The server's goroutines ----

  lemma ServerActsRelays(t: State, e: SH.Event, auth: Auth)
    requires TunnelInv(t, auth) && RelayInv(t) && !e.Receive? && !e.Answer?
    ensures RelayInv(ServerActStep(t, e))
  {
    hide Base, Upstream, Accounts, GrantsCounted, Downstream, SP.Opens, TcpDialed, UdpOpens, DataDialed, SH.React;
    ReactHandler(t.server, e);
    ReactConns(t.server, e);
    if e.TargetDrop? && e.channel in t.server.handler.closing {
      assert Copies(t.server.handler, e.channel);
    }
  }

  lemma ReactConns(v: SH.Server, e: SH.Event)
    requires !e.Receive? && !e.Answer?
    ensures SH.React(v, e).handler.conns
            == if e.TargetDrop? && e.channel in v.handler.closing then v.handler.conns - {e.channel}
               else v.handler.conns
  {
    hide Step, PushControl, PushData;
  }
}
