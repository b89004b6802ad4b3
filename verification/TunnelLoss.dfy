/** What becomes of the bytes of a channel: where each accepted byte is while the session lives, and when the server
    has no relay for arriving data. */
module TunnelLoss {
  import opened Bytes
  import opened FrameCodec
  import opened SessionSystem
  import SP = SessionProperties
  import opened Messages
  import opened WireDelivery
  import opened TunnelClient
  import opened TunnelFrames
  import opened TunnelClientInv
  import opened Tunnel
  import opened TunnelInvariant
  import opened TunnelRelays
  import opened TunnelTheorems
  import SH = ServerHandler

  // ---- Relays ----

  lemma NextRelays(t: State, e: Event, auth: Auth)
    requires TunnelInv(t, auth) && RelayInv(t) && |Next(t, e).client.openers| <= TWO_32
    ensures RelayInv(Next(t, e))
  {
    hide TunnelInv, RelayInv, ClientActStep, ClientReadStep, ServerReadStep, ServerAnswerStep, ServerActStep;
    match e
    case ClientActs(a) => ClientActsRelays(t, a, auth);
    case ClientReads(room) => ClientReadsRelays(t, room);
    case ServerReads(env) => ServerReadsRelays(t, env, auth);
    case ServerAnswers => ServerAnswersRelays(t);
    case ServerActs(ev) => if !ev.Receive? && !ev.Answer? { ServerActsRelays(t, ev, auth); }
  }

  lemma {:induction false} RunRelays(t: State, es: seq<Event>, auth: Auth)
    requires TunnelInv(t, auth) && RelayInv(t) && |RunTunnel(t, es).client.openers| <= TWO_32
    ensures RelayInv(RunTunnel(t, es))
    decreases |es|
  {
    hide TunnelInv, RelayInv, Next;
    if es != [] {
      OpenersGrowInRun(Next(t, es[0]), es[1..]);
      NextInv(t, es[0], auth);
      NextRelays(t, es[0], auth);
      RunRelays(Next(t, es[0]), es[1..], auth);
    }
  }

  lemma ReachedRelays(clientID: uint32, serverID: uint32, auth: Auth, es: seq<Event>, t: State)
    requires Reaches(clientID, serverID, auth, es, t)
    ensures RelayInv(t)
  {
    hide TunnelInv, RelayInv;
    InitTunnelInv(clientID, serverID, auth);
    InitRelayInv(clientID, serverID, auth);
    RunRelays(Init(clientID, serverID, auth), es, auth);
  }

  /** In every reachable state, a TCPDATA frame of the client ends the session for want of a relay if and only if
      the close of its channel has been handled before it, or the relay was dropped when the target ended. */
  lemma RelayGoneExactly(clientID: uint32, serverID: uint32, auth: Auth, es: seq<Event>, t: State, env: SH.Env)
    requires Reaches(clientID, serverID, auth, es, t)
    requires SH.Ready(t.server) && t.up < |t.client.session.wire| && UpFrame(t).kind == TCPDATA
    ensures ServerReadStep(t, env).server.stopped == Some(SH.RelayGone)
            <==> UpFrame(t).channelID in t.released || UpFrame(t).channelID in t.dropped
  {
    hide RunTunnel, Inv, ClientInv, Upstream, Accounts, ServerSent, GrantsCounted, Downstream, SP.Opens;
    ReachedInv(clientID, serverID, auth, es, t);
    ReachedRelays(clientID, serverID, auth, es, t);
    FirstIsAuthenticated(t, auth);
    WireDataDialed(t);
  }

  /** Data is never the first frame, so the handler has authenticated the client when it arrives. */
  lemma FirstIsAuthenticated(t: State, auth: Auth)
    requires TunnelInv(t, auth) && SH.Ready(t.server) && t.up < |t.client.session.wire| && UpFrame(t).kind == TCPDATA
    ensures t.server.handler.authOK
  {
    hide ClientInv, Upstream, Accounts, ServerSent, GrantsCounted, Downstream, Merged, Counted;
  }

  lemma WireDataDialed(t: State)
    requires Base(t) && t.up < |t.client.session.wire| && UpFrame(t).kind == TCPDATA
    requires DataDialed(t.client.session.acceptedData, t.server.handler.targets)
    ensures UpFrame(t).channelID in t.server.handler.targets
  {
    hide Inv, Rendezvous, AllSentOk, IdsInv;
    var i := SeenNext(t.client.session, t.up);
    var x := t.client.session.wire[t.up];
    assert x.origin == Control ==> ControlKind(t.client.session.acceptedControl[i]);
    assert x.origin == Data ==> t.client.session.acceptedData[i] == x.original;
  }

  // ---- Where the bytes of a channel are ----

  lemma {:induction false} DataAppend(fs: seq<Frame>, gs: seq<Frame>, channel: uint32)
    ensures DataOf(fs + gs, channel) == DataOf(fs, channel) + DataOf(gs, channel)
    decreases |gs|
  {
    if gs == [] {
      assert fs + gs == fs;
    } else {
      var n := |gs| - 1;
      assert (fs + gs)[..|fs| + n] == fs + gs[..n];
      DataAppend(fs, gs[..n], channel);
    }
  }

  /** Accepted bytes of a channel are on the part of the wire that was read, on the rest of the wire, in flight or
      queued, in this order. */
  lemma ChannelBytes(s: Session, n: nat, channel: uint32)
    requires Inv(s) && NoControlData(s) && n <= |s.wire|
    ensures DataOf(s.acceptedData, channel)
            == DataOf(SeenFrames(s, n), channel) + DataOf(WireFrames(s.wire[n..]), channel)
               + DataOf(InFlight(s.writer, Data), channel) + DataOf(s.data.items, channel)
  {
    hide Written, DataOf, WireFrames, InFlight, Counted;
    var wire := s.wire;
    assert wire[..|wire|] == wire;
    SeenFaithful(s, |wire|);
    assert Written(wire, Control) <= Accepted(s, Control);
    DataWire(wire, channel);
    DataAppend(Written(wire, Data) + InFlight(s.writer, Data), s.data.items, channel);
    DataAppend(Written(wire, Data), InFlight(s.writer, Data), channel);
    DataAppend(SeenFrames(s, n), WireFrames(wire[n..]), channel);
    WireSplit(wire, n);
  }

  lemma WireSplit(wire: seq<Sent>, n: nat)
    requires n <= |wire|
    ensures WireFrames(wire) == WireFrames(wire[..n]) + WireFrames(wire[n..])
  {
  }

  /** Nothing is lost while the server's handler has not failed: in every reachable state, the bytes the client's
      data queue accepted for a channel are those its target has received, then those on the unread wire, then
      those in flight (or in the frame of a failed write), then those queued. */
  lemma TargetConservation(clientID: uint32, serverID: uint32, auth: Auth, es: seq<Event>, t: State, channel: uint32)
    requires Reaches(clientID, serverID, auth, es, t) && t.server.stopped.None?
    ensures var s, h := t.client.session, t.server.handler;
            && t.up <= |s.wire|
            && DataOf(s.acceptedData, channel)
               == (if channel in h.targets then h.targets[channel] else [])
                  + DataOf(WireFrames(s.wire[t.up..]), channel)
                  + DataOf(InFlight(s.writer, Data), channel) + DataOf(s.data.items, channel)
  {
    hide Inv, DataOf, Count, Accounts, ServerSent, GrantsCounted, Downstream, Rendezvous, AllSentOk, IdsInv, SP.Opens,
      RunTunnel, InFlight, WireFrames;
    ReachedInv(clientID, serverID, auth, es, t);
    assert TargetOk(t.server.handler, true, UpSeen(t), channel);
    ChannelBytes(t.client.session, t.up, channel);
  }

  /** The same towards the client, while the local connection is registered (see TunnelHangups). */
  lemma RegisteredConservation(clientID: uint32, serverID: uint32, auth: Auth, es: seq<Event>, t: State, k: nat)
    requires Reaches(clientID, serverID, auth, es, t) && k < |t.client.openers| && Registered(t.client, k)
    ensures var s, o := t.server.session, t.client.openers[k];
            && t.down <= |s.wire|
            && DataOf(s.acceptedData, o.id)
               == o.received + DataOf(WireFrames(s.wire[t.down..]), o.id)
                  + DataOf(InFlight(s.writer, Data), o.id) + DataOf(s.data.items, o.id)
  {
    hide Inv, DataOf, Count, Accounts, Upstream, GrantsCounted, ClientInv, SP.Opens, RunTunnel, InFlight, WireFrames;
    ReachedInv(clientID, serverID, auth, es, t);
    var s, o := t.server.session, t.client.openers[k];
    assert ReceivedOk(o, true, DownSeen(t));
    forall i | 0 <= i < |s.acceptedControl|
      ensures s.acceptedControl[i].kind != TCPDATA
    {
      assert ServerControlOk(s.acceptedControl[i], t.counted);
    }
    ChannelBytes(s, t.down, o.id);
  }

  /** The SOCKS reply is written behind exactly the data of its channel that the client has handled by then: it is
      the first thing on a registered connection if and only if no data has been handled. */
  lemma ReplyPosition(clientID: uint32, serverID: uint32, auth: Auth, es: seq<Event>, t: State, k: nat)
    requires Reaches(clientID, serverID, auth, es, t) && Unanswered(t.client, k) && Registered(t.client, k)
    ensures t.down <= |t.server.session.wire|
    ensures var n := |DataOf(DownSeen(t), t.client.openers[k].id)|;
            Perform(t.client, WriteReply(k)).openers[k].replied == Some(n)
  {
    hide Inv, DataOf, Count, Accounts, Upstream, GrantsCounted, ClientInv, SP.Opens, RunTunnel;
    ReachedInv(clientID, serverID, auth, es, t);
    assert ReceivedOk(t.client.openers[k], true, DownSeen(t));
  }
}
