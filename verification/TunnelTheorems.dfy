/** What holds over every run of a client and a server joined by their two wires, for every interleaving,
    with queues that may fill, writes and dials that may fail, closes that overtake data, and sessions that
    may end at any point. */
module TunnelTheorems {
  import opened Bytes
  import opened FrameCodec
  import opened FrameQueues
  import opened SessionSystem
  import SP = SessionProperties
  import opened Messages
  import opened WireDelivery
  import opened TunnelClient
  import opened TunnelFrames
  import opened TunnelClientInv
  import opened Tunnel
  import opened TunnelInvariant
  import opened TunnelSteps
  import opened TunnelServerReads
  import SH = ServerHandler

  lemma OpenersGrow(t: State, e: Event)
    ensures |t.client.openers| <= |Next(t, e).client.openers|
  {
    hide Perform, Handle, SH.HandleFrame, SH.React;
    match e
    case ClientActs(a) => PerformShape(t.client, a);
    case ClientReads(room) =>
      if t.down < |t.server.session.wire| {
        HandleCount(t.client, DownFrame(t), room);
      }
    case _ =>
  }

  lemma HandleCount(c: Client, f: Frame, room: nat)
    ensures |c.openers| == |Handle(c, f, room).openers|
  {
    hide PushControl, Fifo.Accepts;
  }

  lemma {:induction false} OpenersGrowInRun(t: State, es: seq<Event>)
    ensures |t.client.openers| <= |RunTunnel(t, es).client.openers|
    decreases |es|
  {
    hide Next;
    if es != [] {
      OpenersGrow(t, es[0]);
      OpenersGrowInRun(Next(t, es[0]), es[1..]);
    }
  }

  lemma NextInv(t: State, e: Event, auth: Auth)
    requires TunnelInv(t, auth) && |Next(t, e).client.openers| <= TWO_32
    ensures TunnelInv(Next(t, e), auth)
  {
    hide TunnelInv, ClientActStep, ClientReadStep, ServerReadStep, ServerAnswerStep, ServerActStep;
    match e
    case ClientActs(a) => ClientActsInv(t, a, auth);
    case ClientReads(room) => ClientReadsInv(t, room, auth);
    case ServerReads(env) => ServerReadsInv(t, env, auth);
    case ServerAnswers => ServerAnswersInv(t, auth);
    case ServerActs(ev) => if !ev.Receive? && !ev.Answer? { ServerActsInv(t, ev, auth); }
  }

  lemma {:induction false} RunTunnelInv(t: State, es: seq<Event>, auth: Auth)
    requires TunnelInv(t, auth) && |RunTunnel(t, es).client.openers| <= TWO_32
    ensures TunnelInv(RunTunnel(t, es), auth)
    decreases |es|
  {
    hide TunnelInv, Next;
    if es != [] {
      OpenersGrowInRun(Next(t, es[0]), es[1..]);
      NextInv(t, es[0], auth);
      RunTunnelInv(Next(t, es[0]), es[1..], auth);
    }
  }

  /** A run of a tunnel whose AUTH frame was queued and whose channel counter has not gone round. */
  ghost predicate Reaches(clientID: uint32, serverID: uint32, auth: Auth, es: seq<Event>, t: State) {
    && NewSession(clientID).control.Accepts(AuthFrame(auth))
    && t == RunTunnel(Init(clientID, serverID, auth), es)
    && |t.client.openers| <= TWO_32
  }

  lemma ReachedInv(clientID: uint32, serverID: uint32, auth: Auth, es: seq<Event>, t: State)
    requires Reaches(clientID, serverID, auth, es, t)
    ensures TunnelInv(t, auth)
  {
    hide TunnelInv;
    InitTunnelInv(clientID, serverID, auth);
    RunTunnelInv(Init(clientID, serverID, auth), es, auth);
  }

  /** End-to-end TCP safety, client to target: in every run the bytes a channel's target has received are a
      prefix of the payloads the client's data queue accepted for that channel. */
  lemma TargetsReceivePrefix(clientID: uint32, serverID: uint32, auth: Auth, es: seq<Event>, t: State, channel: uint32)
    requires Reaches(clientID, serverID, auth, es, t) && channel in t.server.handler.targets
    ensures t.server.handler.targets[channel] <= DataOf(t.client.session.acceptedData, channel)
  {
    hide Inv, DataOf, Count, Accounts, ServerSent, GrantsCounted, Downstream, Rendezvous, AllSentOk, IdsInv,
      SP.Opens, RunTunnel;
    ReachedInv(clientID, serverID, auth, es, t);
    assert TargetOk(t.server.handler, t.server.stopped.None?, UpSeen(t), channel);
    SeenData(t.client.session, t.up, channel);
  }

  /** The same from target to client: a local connection has received a prefix of what the server's data
      queue accepted for its channel, with the SOCKS reply somewhere in between. */
  lemma LocalsReceivePrefix(clientID: uint32, serverID: uint32, auth: Auth, es: seq<Event>, t: State, k: nat)
    requires Reaches(clientID, serverID, auth, es, t) && k < |t.client.openers|
    ensures var o := t.client.openers[k];
            && o.received <= DataOf(t.server.session.acceptedData, o.id)
            && (o.replied.Some? ==> o.replied.value <= |o.received|)
  {
    hide Inv, DataOf, Count, Accounts, Upstream, GrantsCounted, ClientInv, SP.Opens, RunTunnel;
    ReachedInv(clientID, serverID, auth, es, t);
    var o := t.client.openers[k];
    assert ReceivedOk(o, Registered(t.client, k), DownSeen(t));
    forall i | 0 <= i < |t.server.session.acceptedControl|
      ensures t.server.session.acceptedControl[i].kind != TCPDATA
    {
      assert ServerControlOk(t.server.session.acceptedControl[i], t.counted);
    }
    SeenData(t.server.session, t.down, o.id);
  }

  /** The session's contribution to the channel count is the number of channels opened and not yet closed,
      and is never negative. */
  lemma ChannelCountNeverNegative(clientID: uint32, serverID: uint32, auth: Auth, es: seq<Event>, t: State)
    requires Reaches(clientID, serverID, auth, es, t)
    ensures t.released <= t.counted
    ensures t.server.handler.activeChannels == |t.counted - t.released| >= 0
  {
    hide RunTunnel, Base, Upstream, ServerSent, GrantsCounted, Downstream, SP.Opens, Count;
    ReachedInv(clientID, serverID, auth, es, t);
    assert t.counted == (t.counted - t.released) + t.released;
  }

  lemma FrozenStep(t: State, e: Event, auth: Auth, channel: uint32)
    requires TunnelInv(t, auth) && channel in t.released
    ensures var u := Next(t, e);
            && channel in u.released
            && (channel in t.server.handler.targets <==> channel in u.server.handler.targets)
            && (channel in t.server.handler.targets ==>
                  u.server.handler.targets[channel] == t.server.handler.targets[channel])
  {
    hide Inv, ClientInv, Upstream, ServerSent, GrantsCounted, Downstream, SP.Opens, Count, Perform, Handle, SH.React,
      SH.HandleFrame;
    match e
    case ServerActs(ev) => if !ev.Receive? && !ev.Answer? { ReactHandler(t.server, ev); }
    case ServerReads(env) =>
      if t.up < |t.client.session.wire| && SH.Ready(t.server) {
        FrozenRead(t, env, auth, channel);
      }
    case _ =>
  }

  lemma FrozenRead(t: State, env: SH.Env, auth: Auth, channel: uint32)
    requires TunnelInv(t, auth) && channel in t.released && t.up < |t.client.session.wire| && SH.Ready(t.server)
    ensures var h, w := t.server.handler, SH.HandleFrame(t.server, UpFrame(t), env).handler;
            && (channel in h.targets <==> channel in w.targets)
            && (channel in h.targets ==> w.targets[channel] == h.targets[channel])
  {
    hide Inv, ClientInv, Upstream, ServerSent, GrantsCounted, Downstream, SP.Opens, Count, PushControl, DecodeAuth,
      DecodeAddress, DecodeDatagram;
    var f := UpFrame(t);
    if f.kind == OPENTCP {
      MarkedOnce(t, t.up + 1, OpenMark, f.channelID);
      ClientFrameKind(t);
      CountSnoc(UpSeen(t), t.client.session.wire[t.up].stamped, OpenMark, f.channelID);
    }
  }

  lemma {:induction false} FrozenRun(t: State, es: seq<Event>, auth: Auth, channel: uint32)
    requires TunnelInv(t, auth) && |RunTunnel(t, es).client.openers| <= TWO_32
    requires channel in t.released && channel in t.server.handler.targets
    ensures var u := RunTunnel(t, es);
            channel in u.server.handler.targets
            && u.server.handler.targets[channel] == t.server.handler.targets[channel]
    decreases |es|
  {
    hide TunnelInv, Next;
    if es != [] {
      OpenersGrowInRun(Next(t, es[0]), es[1..]);
      NextInv(t, es[0], auth);
      FrozenStep(t, es[0], auth, channel);
      FrozenRun(Next(t, es[0]), es[1..], auth, channel);
    }
  }

  /** From every reachable state in which the close of a channel was handled, no further byte reaches its
      target in any continuation, however much data of the channel the close has overtaken. */
  lemma ClosedTargetIsFrozen(clientID: uint32, serverID: uint32, auth: Auth, before: seq<Event>, t: State,
                             after: seq<Event>, channel: uint32)
    requires Reaches(clientID, serverID, auth, before, t) && |RunTunnel(t, after).client.openers| <= TWO_32
    requires channel in t.released && channel in t.server.handler.targets
    ensures var u := RunTunnel(t, after);
            channel in u.server.handler.targets
            && u.server.handler.targets[channel] == t.server.handler.targets[channel]
  {
    hide TunnelInv;
    ReachedInv(clientID, serverID, auth, before, t);
    FrozenRun(t, after, auth, channel);
  }

  /** An honest client opens with AUTH, so the server never finds a frame before authentication. */
  lemma HonestClientOpensWithAuth(clientID: uint32, serverID: uint32, auth: Auth, es: seq<Event>, t: State)
    requires Reaches(clientID, serverID, auth, es, t)
    ensures t.client.session.wire != [] ==>
              t.client.session.wire[0].original == AuthFrame(auth) && t.client.session.wire[0].stamped.kind == AUTH
    ensures t.server.stopped != Some(SH.AuthRequired)
    ensures t.up > 0 && t.server.stopped.None? ==> t.server.handler.authOK
  {
    hide RunTunnel, ClientInv, Upstream, Accounts, ServerSent, GrantsCounted, Downstream, Counted, Merged;
    ReachedInv(clientID, serverID, auth, es, t);
  }

  /** Channel ids are unique over TCP and UDP, the two connection maps never share a key, every result channel
      sees at most one send and one close, and the reader's send never blocks. */
  lemma OpenRendezvous(clientID: uint32, serverID: uint32, auth: Auth, es: seq<Event>, t: State)
    requires Reaches(clientID, serverID, auth, es, t)
    ensures forall i, j :: 0 <= i < j < |t.client.openers| ==> t.client.openers[i].id != t.client.openers[j].id
    ensures t.client.tcpConns.Keys !! t.client.udpRoutes.Keys
    ensures forall k :: 0 <= k < |t.client.openers| ==>
              t.client.openers[k].results.closes <= t.client.openers[k].results.sends <= 1
    ensures t.client.reader.Sending? ==> SendResultStep(t.client).reader.Sealing?
    ensures t.client.reader.Sealing? ==> SealResultStep(t.client).reader.Reading?
  {
    hide RunTunnel, Inv, Upstream, Accounts, ServerSent, GrantsCounted, Downstream, SP.Opens, AllSentOk, KindsInv,
      Merged;
    ReachedInv(clientID, serverID, auth, es, t);
    var c := t.client;
    forall i, j | 0 <= i < j < |c.openers|
      ensures c.openers[i].id != c.openers[j].id
    {
      if c.openers[i].id == c.openers[j].id {
        IdsDistinct(c, i, j);
      }
    }
    forall k | 0 <= k < |c.openers|
      ensures c.openers[k].results.closes <= c.openers[k].results.sends <= 1
    {
      assert ChannelOk(c.openers[k]);
    }
    forall channel | channel in c.tcpConns
      ensures channel !in c.udpRoutes
    {
      if channel in c.udpRoutes {
        IdsDistinct(c, c.tcpConns[channel], c.udpRoutes[channel]);
      }
    }
  }

  /** The frames each side has handled are a prefix of what decoding the other side's byte stream yields. */
  lemma HandledFramesAreDecoded(clientID: uint32, serverID: uint32, auth: Auth, es: seq<Event>, t: State)
    requires Reaches(clientID, serverID, auth, es, t)
    ensures Base(t)
    ensures NormaliseAll(UpSeen(t)) <= DecodeAll(WireBytes(t.client.session))
    ensures NormaliseAll(DownSeen(t)) <= DecodeAll(WireBytes(t.server.session))
  {
    hide RunTunnel, Upstream, Accounts, GrantsCounted, Downstream, SP.Opens, AllSentOk, Rendezvous, DecodeAll,
      EncodeAll,
      Encoding, EncodeError, Merged, Counted, WireBytes;
    ReachedInv(clientID, serverID, auth, es, t);
    ClientHeaders(t.client.session);
    ServerHeaders(t.server.session, t.server.handler, t.counted);
    DecodedPrefix(t.client.session, t.up);
    DecodedPrefix(t.server.session, t.down);
  }

  lemma ClientHeaders(s: Session)
    requires KindsInv(s)
    ensures HeadersAccepted(s)
  {
    forall o, i | 0 <= i < |Accepted(s, o)|
      ensures DefaultHeader(Accepted(s, o)[i])
    {
      assert if o == Control then ControlKind(s.acceptedControl[i]) else DataKind(s.acceptedData[i]);
    }
  }

  lemma ServerHeaders(s: Session, h: SH.Handler, counted: set<uint32>)
    requires ServerSent(s, h, counted)
    ensures HeadersAccepted(s)
  {
    forall o, i | 0 <= i < |Accepted(s, o)|
      ensures DefaultHeader(Accepted(s, o)[i])
    {
      assert if o == Control then ServerControlOk(s.acceptedControl[i], counted)
             else ServerDataOk(s.acceptedData[i], h.targets);
    }
  }

  lemma DecodedPrefix(s: Session, n: nat)
    requires Inv(s) && HeadersAccepted(s) && n <= |s.wire|
    ensures NormaliseAll(SeenFrames(s, n)) <= DecodeAll(WireBytes(s))
  {
    hide DecodeAll, WireBytes, Normalise, Merged, Counted, WireFaithful;
    var all := WireBytes(s);
    PeerSeesWrittenFrames(s, |all|);
    assert all[..|all|] == all;
  }
}
