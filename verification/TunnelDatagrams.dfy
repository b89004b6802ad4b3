/** Datagrams from a local program to a UDP target. */
module TunnelDatagrams {
  import opened Bytes
  import opened FrameCodec
  import opened SessionSystem
  import SP = SessionProperties
  import opened Messages
  import opened TunnelClient
  import opened TunnelFrames
  import opened TunnelClientInv
  import opened Tunnel
  import opened TunnelInvariant
  import opened TunnelSteps
  import opened TunnelServerReads
  import opened TunnelTheorems
  import opened TunnelUdp
  import opened TunnelAnswers
  import opened TunnelDials
  import opened ServerConversation
  import SH = ServerHandler

  // ---- Subsequences ----

  /** The packets of a, in order, among those of b. */
  predicate Among(a: seq<seq<byte>>, b: seq<seq<byte>>)
    decreases |b|
  {
    if a == [] then true
    else if b == [] then false
    else
      || (a[|a| - 1] == b[|b| - 1] && Among(a[..|a| - 1], b[..|b| - 1]))
      || Among(a, b[..|b| - 1])
  }

  lemma AmongSnoc(a: seq<seq<byte>>, b: seq<seq<byte>>, x: seq<byte>)
    requires Among(a, b)
    ensures Among(a, b + [x]) && Among(a + [x], b + [x])
  {
    assert (b + [x])[..|b|] == b && (a + [x])[..|a|] == a;
  }

  lemma {:induction false} AmongPrefix(a: seq<seq<byte>>, b: seq<seq<byte>>, c: seq<seq<byte>>)
    requires Among(a, b) && b <= c
    ensures Among(a, c)
    decreases |c|
  {
    if |b| < |c| {
      AmongPrefix(a, b, c[..|c| - 1]);
    } else {
      assert b == c;
    }
  }

  /** How many datagrams were written to UDP targets. */
  function UdpWriteCount(trace: seq<SH.Effect>): nat {
    if trace == [] then 0
    else
      var e := trace[|trace| - 1];
      UdpWriteCount(trace[..|trace| - 1]) + if e.Wrote? && e.net == SH.UdpNet then 1 else 0
  }

  lemma WriteCountSnoc(trace: seq<SH.Effect>, e: SH.Effect)
    ensures UdpWriteCount(trace + [e]) == UdpWriteCount(trace) + if e.Wrote? && e.net == SH.UdpNet then 1 else 0
  {
    assert (trace + [e])[..|trace|] == trace;
  }

  // ---- The invariant ----

  ghost predicate DatagramsOk(v: SH.Server, seen: seq<Frame>) {
    v.stopped.None? ==>
      && (forall channel :: Among(UdpWrites(v.handler.trace, channel), UdpOf(seen, channel)))
      && UdpWriteCount(v.handler.trace) + v.handler.expiredUDP == KindCount(seen, 0x31)
  }

  ghost predicate DatagramInv(t: State)
    requires t.up <= |t.client.session.wire|
  {
    DatagramsOk(t.server, UpSeen(t))
  }

  /** What a frame that does not stop the handler adds to the writes. */
  lemma HandleWrites(v: SH.Server, f: Frame, env: SH.Env, seen: seq<Frame>, g: Frame, channel: uint32)
    requires SH.Ready(v) && SH.HandleFrame(v, f, env).stopped.None?
    requires f.kind == g.kind && f.channelID == g.channelID && f.payload == g.payload
    requires Among(UdpWrites(v.handler.trace, channel), UdpOf(seen, channel))
    ensures Among(UdpWrites(SH.HandleFrame(v, f, env).handler.trace, channel), UdpOf(seen + [g], channel))
  {
    hide SH.HandleFrame, UdpWrites, UdpOf, Among, DecodeDatagram, SH.Elapsed;
    HandleUdpTrace(v, f, env, channel);
    HandleWriteStops(v, f, env);
    UdpSnoc(seen, g, channel);
    WrittenWhole(v, f, env);
    assert UdpWrites(v.handler.trace, channel) + [] == UdpWrites(v.handler.trace, channel);
    assert UdpOf(seen, channel) + [] == UdpOf(seen, channel);
    if UdpIn(g, channel) != [] {
      assert UdpIn(g, channel) == [DecodeDatagram(f.payload).value.data];
      AmongSnoc(UdpWrites(v.handler.trace, channel), UdpOf(seen, channel), DecodeDatagram(f.payload).value.data);
    }
  }

  /** A datagram that was written and did not stop the handler was taken whole. */
  lemma WrittenWhole(v: SH.Server, f: Frame, env: SH.Env)
    requires SH.Ready(v) && SH.HandleFrame(v, f, env).stopped.None?
    ensures v.handler.authOK && f.kind == 0x31 ==>
              && |f.payload| >= 16
              && var d := DecodeDatagram(f.payload).value;
                 SH.Elapsed(env.nowMS, d.sentMS) <= d.deadlineMS ==>
                   f.channelID in v.handler.assocs && |d.data| <= env.room
  {
  }

  lemma HandleWriteCount(v: SH.Server, f: Frame, env: SH.Env)
    requires SH.Ready(v) && SH.HandleFrame(v, f, env).stopped.None?
    ensures var h, w := v.handler, SH.HandleFrame(v, f, env).handler;
            UdpWriteCount(w.trace) + w.expiredUDP
            == UdpWriteCount(h.trace) + h.expiredUDP + if f.kind == 0x31 then 1 else 0
  {
    hide PushControl, DecodeAuth, DecodeAddress, DecodeDatagram, UdpWriteCount, SH.HandleTCPData, SH.HandleUDPData,
      SH.HandleAuth, SH.HandleOpenTCP, SH.HandleOpenUDP;
    var trace, ch := v.handler.trace, f.channelID;
    if f.kind == AUTH {
      AuthWriteCount(v, f, env);
    } else if f.kind == OPENTCP || f.kind == OPENUDP {
      OpenWriteCount(v, f, env);
    } else if f.kind == TCPDATA || f.kind == UDPDATA {
      DataWriteCount(v, f, env);
    } else if f.kind == TCPCLOSE || f.kind == UDPCLOSE {
      var net := if f.kind == TCPCLOSE then SH.TcpNet else SH.UdpNet;
      WriteCountSnoc(trace, SH.Closed(net, ch));
      WriteCountSnoc(trace + [SH.Closed(net, ch)], SH.Counted(-1));
    }
  }

  lemma AuthWriteCount(v: SH.Server, f: Frame, env: SH.Env)
    ensures var h, w := v.handler, SH.HandleAuth(v, f, env).handler;
            UdpWriteCount(w.trace) == UdpWriteCount(h.trace) && w.expiredUDP == h.expiredUDP
  {
    hide PushControl, DecodeAuth, UdpWriteCount;
    if DecodeAuth(f.payload).Success? {
      WriteCountSnoc(v.handler.trace, SH.Validated(DecodeAuth(f.payload).value, env.rejection.None?));
    }
  }

  lemma OpenWriteCount(v: SH.Server, f: Frame, env: SH.Env)
    ensures forall w :: w == SH.HandleOpenTCP(v, f, env) || w == SH.HandleOpenUDP(v, f, env) ==>
              && UdpWriteCount(w.handler.trace) == UdpWriteCount(v.handler.trace)
              && w.handler.expiredUDP == v.handler.expiredUDP
  {
    hide PushControl, DecodeAddress, UdpWriteCount;
    if DecodeAddress(f.payload).Success? {
      var address := DecodeAddress(f.payload).value;
      WriteCountSnoc(v.handler.trace, SH.Dialed(SH.TcpNet, f.channelID, address, env.dialError));
      WriteCountSnoc(v.handler.trace, SH.Dialed(SH.UdpNet, f.channelID, address, env.dialError));
    }
  }

  lemma DataWriteCount(v: SH.Server, f: Frame, env: SH.Env)
    ensures var w := SH.HandleTCPData(v, f, env);
            UdpWriteCount(w.handler.trace) == UdpWriteCount(v.handler.trace)
            && w.handler.expiredUDP == v.handler.expiredUDP
    ensures var w := SH.HandleUDPData(v, f, env);
            w.stopped.None? && v.stopped.None? ==>
              UdpWriteCount(w.handler.trace) + w.handler.expiredUDP
              == UdpWriteCount(v.handler.trace) + v.handler.expiredUDP + 1
  {
    hide DecodeDatagram, UdpWriteCount, SH.Elapsed;
    var trace := v.handler.trace;
    WriteCountSnoc(trace, SH.Wrote(SH.TcpNet, f.channelID, f.payload[..Min(|f.payload|, env.room)]));
    if DecodeDatagram(f.payload).Success? {
      var d := DecodeDatagram(f.payload).value;
      WriteCountSnoc(trace, SH.Wrote(SH.UdpNet, f.channelID, d.data[..Min(|d.data|, env.room)]));
    }
  }

  lemma ServerReadsDatagrams(t: State, env: SH.Env, auth: Auth)
    requires TunnelInv(t, auth) && t.up <= |t.client.session.wire| && DatagramInv(t)
    ensures var u := ServerReadStep(t, env); u.up <= |u.client.session.wire| && DatagramInv(u)
  {
    hide SH.HandleFrame, Inv, ClientInv, Upstream, Accounts, ServerSent, GrantsCounted, Downstream, SP.Opens,
      SeenFrames, Among, UdpOf, UdpWrites, UdpWriteCount, KindCount;
    if t.up < |t.client.session.wire| && SH.Ready(t.server) {
      var f, g, seen := UpFrame(t), t.client.session.wire[t.up].stamped, UpSeen(t);
      var w := SH.HandleFrame(t.server, f, env);
      ClientFrameKind(t);
      if w.stopped.None? {
        forall channel
          ensures Among(UdpWrites(w.handler.trace, channel), UdpOf(seen + [g], channel))
        {
          HandleWrites(t.server, f, env, seen, g, channel);
        }
        HandleWriteCount(t.server, f, env);
        CountsSnoc(seen, g);
      }
    }
  }

  /** The other steps write no datagram. */
  lemma OtherWrites(v: SH.Server, e: SH.Event)
    requires !e.Receive?
    ensures var w := SH.React(v, e);
            && (w.stopped.None? ==> v.stopped.None?) && w.handler.expiredUDP == v.handler.expiredUDP
            && UdpWriteCount(w.handler.trace) == UdpWriteCount(v.handler.trace)
            && forall channel :: UdpWrites(w.handler.trace, channel) == UdpWrites(v.handler.trace, channel)
  {
    hide PushControl, PushData, Step, UdpWriteCount, UdpWrites, UdpDataFrame, SH.ReplyDatagram;
    var trace := v.handler.trace;
    forall e: SH.Effect | !e.Wrote?
      ensures UdpWriteCount(trace + [e]) == UdpWriteCount(trace)
      ensures forall channel :: UdpWrites(trace + [e], channel) == UdpWrites(trace, channel)
    {
      WriteCountSnoc(trace, e);
      forall channel
        ensures UdpWrites(trace + [e], channel) == UdpWrites(trace, channel)
      {
        WritesSnoc(trace, e, channel);
      }
    }
  }

  lemma OtherDatagrams(t: State, e: Event, auth: Auth)
    requires TunnelInv(t, auth) && TunnelInv(Next(t, e), auth) && !e.ServerReads?
    requires t.up <= |t.client.session.wire| && DatagramInv(t)
    ensures Next(t, e).up <= |Next(t, e).client.session.wire| && DatagramInv(Next(t, e))
  {
    hide Inv, ClientInv, Upstream, Accounts, ServerSent, GrantsCounted, Downstream, SP.Opens, SeenFrames, Moves,
      Perform, Handle, SH.React, SH.FinishOpen, Among, UdpOf, UdpWrites, UdpWriteCount, KindCount;
    BaseSeen(Next(t, e), auth);
    var c := t.client;
    StayMoves(c.session);
    match e
    case ClientActs(a) =>
      PerformMoves(c, a);
      SeenMoves(c.session, Perform(c, a).session, t.up);
    case ClientReads(room) =>
      if t.down < |t.server.session.wire| {
        HandleMoves(c, DownFrame(t), room);
        SeenMoves(c.session, Handle(c, DownFrame(t), room).session, t.up);
      }
    case ServerAnswers =>
      AnswerIsFinish(t.server);
      OtherWrites(t.server, SH.Answer);
    case ServerActs(ev) => if !ev.Receive? && !ev.Answer? { OtherWrites(t.server, ev); }
  }

  lemma NextDatagrams(t: State, e: Event, auth: Auth)
    requires TunnelInv(t, auth) && TunnelInv(Next(t, e), auth)
    requires t.up <= |t.client.session.wire| && DatagramInv(t)
    ensures Next(t, e).up <= |Next(t, e).client.session.wire| && DatagramInv(Next(t, e))
  {
    hide TunnelInv, DatagramInv, ServerReadStep;
    if e.ServerReads? {
      ServerReadsDatagrams(t, e.env, auth);
    } else {
      OtherDatagrams(t, e, auth);
    }
  }

  lemma {:induction false} RunDatagrams(t: State, es: seq<Event>, auth: Auth)
    requires TunnelInv(t, auth) && |RunTunnel(t, es).client.openers| <= TWO_32
    requires t.up <= |t.client.session.wire| && DatagramInv(t)
    ensures var u := RunTunnel(t, es); u.up <= |u.client.session.wire| && DatagramInv(u)
    decreases |es|
  {
    hide TunnelInv, DatagramInv, Next;
    if es != [] {
      OpenersGrowInRun(Next(t, es[0]), es[1..]);
      NextInv(t, es[0], auth);
      NextDatagrams(t, es[0], auth);
      RunDatagrams(Next(t, es[0]), es[1..], auth);
    }
  }

  lemma InitDatagrams(clientID: uint32, serverID: uint32, auth: Auth)
    ensures DatagramInv(Init(clientID, serverID, auth))
  {
  }

  /** Local program to target: in every reachable state in which the server's handler has not failed, the datagrams
      written to the UDP target of a channel are, whole, unchanged and in order, among those the client's data queue
      accepted for the channel, and every datagram the server has read was either written or counted as late. */
  lemma TargetsGetDatagrams(clientID: uint32, serverID: uint32, auth: Auth, es: seq<Event>, t: State, channel: uint32)
    requires Reaches(clientID, serverID, auth, es, t) && t.server.stopped.None?
    ensures t.up <= |t.client.session.wire|
    ensures Among(UdpWrites(t.server.handler.trace, channel), UdpOf(t.client.session.acceptedData, channel))
    ensures UdpWriteCount(t.server.handler.trace) + t.server.handler.expiredUDP == KindCount(UpSeen(t), 0x31)
  {
    hide RunTunnel, Inv, IdsInv, AllSentOk, Rendezvous, Upstream, Accounts, ServerSent, GrantsCounted, Downstream,
      SP.Opens, SeenFrames, Among, UdpOf, UdpWrites, UdpWriteCount, KindCount;
    ReachedInv(clientID, serverID, auth, es, t);
    InitTunnelInv(clientID, serverID, auth);
    InitDatagrams(clientID, serverID, auth);
    RunDatagrams(Init(clientID, serverID, auth), es, auth);
    forall i | 0 <= i < |t.client.session.acceptedControl|
      ensures t.client.session.acceptedControl[i].kind != UDPDATA
    {
      assert ControlKind(t.client.session.acceptedControl[i]);
    }
    SeenUdp(t.client.session, t.up, channel);
    AmongPrefix(UdpWrites(t.server.handler.trace, channel), UdpOf(UpSeen(t), channel),
                UdpOf(t.client.session.acceptedData, channel));
  }
}
