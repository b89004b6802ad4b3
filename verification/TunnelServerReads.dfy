/** The server handles a frame of the client's wire. */
module TunnelServerReads {
  import opened Bytes
  import opened FrameCodec
  import opened FrameQueues
  import opened SessionSystem
  import SP = SessionProperties
  import opened Messages
  import opened TunnelClient
  import opened TunnelFrames
  import opened TunnelClientInv
  import opened Tunnel
  import opened TunnelInvariant
  import opened TunnelSteps
  import SH = ServerHandler

  // ---- What kind of frame it can be ----

  /** Opens and closes of a channel occur at most once on the client's wire, and a close only for a channel
      the server has counted. */
  lemma MarkedOnce(t: State, n: nat, m: Mark, channel: uint32)
    requires Base(t) && n <= |t.client.session.wire|
    requires GrantsCounted(t.client.openers, t.client.reader, t.counted)
    ensures Count(SeenFrames(t.client.session, n), m, channel) <= 1
    ensures m == CloseMark && Count(SeenFrames(t.client.session, n), m, channel) >= 1 ==> channel in t.counted
  {
    hide Inv, Count;
    var c := t.client;
    SeenCount(c.session, n, m, channel);
    assert SentOk(c.session.acceptedControl, c.openers, m, channel);
    if m == CloseMark && MarkedBy(c.openers, m, channel) {
      var k :| 0 <= k < |c.openers| && c.openers[k].id == channel && Marker(m, c.openers[k]);
      assert Granting(c.openers[k]);
    }
  }

  lemma ClientFrameKind(t: State)
    requires Base(t) && t.up < |t.client.session.wire|
    ensures UpFrame(t).kind != UDPCLOSE
    ensures UpSeen(t.(up := t.up + 1)) == UpSeen(t) + [t.client.session.wire[t.up].stamped]
  {
    hide Inv, Rendezvous, AllSentOk, IdsInv;
    var i := SeenNext(t.client.session, t.up);
    var x := t.client.session.wire[t.up];
    if x.origin == Control {
      assert ControlKind(t.client.session.acceptedControl[i]);
    } else {
      assert DataKind(t.client.session.acceptedData[i]);
    }
  }

  // ---- Authentication ----

  lemma HandleAuthOk(v: SH.Server, f: Frame, env: SH.Env)
    requires SH.Ready(v) && (v.handler.authOK || f.kind == AUTH)
    ensures var w := SH.HandleFrame(v, f, env);
            w.stopped != Some(SH.AuthRequired) && (w.stopped.None? ==> w.handler.authOK)
  {
    hide PushControl, DecodeAuth, DecodeAddress, DecodeDatagram;
  }

  // ---- Targets ----

  lemma OpenedUpstream(h: SH.Handler, g: SH.Handler, still: bool, seen: seq<Frame>, f: Frame)
    requires Upstream(h, true, seen) && Marks(f, OpenMark, f.channelID) && Count(seen, OpenMark, f.channelID) == 0
    requires g.targets == h.targets[f.channelID := []] && g.conns == h.conns + {f.channelID}
    ensures Upstream(g, still, seen + [f])
  {
    hide Count, DataOf;
    forall channel
      ensures TargetOk(g, still, seen + [f], channel)
    {
      assert TargetOk(h, true, seen, channel);
      CountSnoc(seen, f, OpenMark, channel);
      DataSnoc(seen, f, channel);
    }
  }

  lemma DataUpstream(v: SH.Server, f: Frame, env: SH.Env, seen: seq<Frame>, g: Frame)
    requires Upstream(v.handler, true, seen) && f.kind == g.kind == TCPDATA
    requires f.channelID == g.channelID && f.payload == g.payload
    ensures var w := SH.HandleTCPData(v, f, env);
            Upstream(w.handler, w.stopped.None?, seen + [g])
  {
    hide Count, DataOf;
    var w := SH.HandleTCPData(v, f, env);
    forall channel
      ensures TargetOk(w.handler, w.stopped.None?, seen + [g], channel)
    {
      assert TargetOk(v.handler, true, seen, channel);
      CountSnoc(seen, g, OpenMark, channel);
      DataSnoc(seen, g, channel);
    }
  }

  /** Frames other than TCP opens and TCP data leave the targets alone. */
  lemma OtherHandler(v: SH.Server, f: Frame, env: SH.Env)
    requires SH.Ready(v) && f.kind != TCPDATA
             && (f.kind != OPENTCP || env.dialError.Some? || DecodeAddress(f.payload).Failure?)
    ensures var w := SH.HandleFrame(v, f, env);
            w.handler.targets == v.handler.targets && w.handler.conns <= v.handler.conns
            && forall channel :: Copies(w.handler, channel) ==> Copies(v.handler, channel)
  {
    hide PushControl, DecodeAuth, DecodeDatagram;
  }

  lemma HandleUpstream(v: SH.Server, f: Frame, env: SH.Env, seen: seq<Frame>, g: Frame)
    requires SH.Ready(v) && Upstream(v.handler, true, seen) && (v.handler.authOK || f.kind == AUTH)
    requires f.kind == g.kind && f.channelID == g.channelID && f.payload == g.payload
    requires f.kind == OPENTCP ==> Count(seen, OpenMark, f.channelID) == 0
    ensures var w := SH.HandleFrame(v, f, env);
            Upstream(w.handler, w.stopped.None?, seen + [g])
  {
    hide PushControl, DecodeAuth, DecodeAddress, DecodeDatagram, Upstream, SH.HandleTCPData, Count;
    var w := SH.HandleFrame(v, f, env);
    if f.kind == TCPDATA {
      DataUpstream(v, f, env, seen, g);
    } else if f.kind == OPENTCP && env.dialError.None? && DecodeAddress(f.payload).Success? {
      OpenedUpstream(v.handler, w.handler, w.stopped.None?, seen, g);
    } else {
      OtherHandler(v, f, env);
      UpstreamKept(v.handler, w.handler, true, w.stopped.None?, seen, [g]);
    }
  }

  // ---- Accounting ----

  /** One frame takes at most one channel off the count; opening a channel is only begun. */
  lemma HandleActive(v: SH.Server, f: Frame, env: SH.Env)
    requires SH.Ready(v)
    ensures var w := SH.HandleFrame(v, f, env);
            var delta := w.handler.activeChannels - v.handler.activeChannels;
            && (delta == 0 || delta == -1)
            && (delta == -1 ==> f.kind == TCPCLOSE || f.kind == UDPCLOSE)
            && (w.opening.Some? ==> w.opening.value == f.channelID && (f.kind == OPENTCP || f.kind == OPENUDP))
            && (w.handler.conns <= v.handler.conns
                || (f.kind == OPENTCP && w.handler.conns <= v.handler.conns + {f.channelID}))
            && (delta == -1 && f.kind == TCPCLOSE ==> f.channelID !in w.handler.conns)
  {
    hide PushControl, DecodeAuth, DecodeAddress, DecodeDatagram;
  }

  lemma CountsGrow(seen: seq<Frame>, g: Frame, m: Mark, channel: uint32)
    ensures Count(seen, m, channel) <= Count(seen + [g], m, channel)
    ensures Marks(g, m, channel) ==> Count(seen + [g], m, channel) >= 1
  {
    CountSnoc(seen, g, m, channel);
  }

  lemma HandleAccounts(h: SH.Handler, w: SH.Handler, counted: set<uint32>, released: set<uint32>,
                       seen: seq<Frame>, g: Frame)
    requires Accounts(h, counted, released, seen)
    requires forall m, channel :: Count(seen + [g], m, channel) <= 1
    requires forall channel :: Count(seen + [g], CloseMark, channel) >= 1 ==> channel in counted
    requires var delta := w.activeChannels - h.activeChannels;
             (delta == 0 || delta == -1)
             && (delta == -1 ==> Marks(g, CloseMark, g.channelID) && g.channelID !in w.conns)
    requires w.conns <= h.conns || (Marks(g, OpenMark, g.channelID) && w.conns <= h.conns + {g.channelID})
    ensures Accounts(w, counted,
                     if w.activeChannels < h.activeChannels then released + {g.channelID} else released, seen + [g])
  {
    hide Count;
    var ch := g.channelID;
    forall m, channel
      ensures Count(seen, m, channel) <= Count(seen + [g], m, channel)
      ensures Marks(g, m, channel) ==> Count(seen + [g], m, channel) >= 1
    {
      CountsGrow(seen, g, m, channel);
    }
    if w.activeChannels < h.activeChannels {
      CountSnoc(seen, g, CloseMark, ch);
      assert ch !in released;
    }
    CountSnoc(seen, g, OpenMark, ch);
    assert Marks(g, OpenMark, ch) ==> ch !in counted;
  }

  /** The channel whose open has just begun was not counted before. */
  lemma BegunIsNew(h: SH.Handler, counted: set<uint32>, released: set<uint32>, seen: seq<Frame>, g: Frame)
    requires Accounts(h, counted, released, seen) && Marks(g, OpenMark, g.channelID)
    requires Count(seen + [g], OpenMark, g.channelID) <= 1
    ensures OpeningOk(Some(g.channelID), counted, seen + [g])
  {
    CountSnoc(seen, g, OpenMark, g.channelID);
  }

  // ---- Replies ----

  lemma ReplySent(s: Session, h: SH.Handler, g: SH.Handler, counted: set<uint32>, more: set<uint32>, f: Frame)
    requires ServerSent(s, h, counted) && counted <= more && ServerControlOk(f, more)
    requires h.targets.Keys <= g.targets.Keys && CopyingOk(g)
    ensures ServerSent(s, g, more) && ServerSent(PushControl(s, f), g, more)
  {
    hide Fifo.Accepts;
    forall i | 0 <= i < |s.acceptedData|
      ensures ServerDataOk(s.acceptedData[i], g.targets)
    {
      assert ServerDataOk(s.acceptedData[i], h.targets);
    }
    forall i | 0 <= i < |s.acceptedControl|
      ensures ServerControlOk(s.acceptedControl[i], more)
    {
      assert ServerControlOk(s.acceptedControl[i], counted);
    }
  }

  /** A frame is answered with at most one control frame, which is not yet the OPENOK of an open. */
  lemma HandleReply(v: SH.Server, f: Frame, env: SH.Env) returns (reply: Frame)
    requires SH.Ready(v)
    ensures var w := SH.HandleFrame(v, f, env);
            && (w.session == v.session || w.session == PushControl(v.session, reply))
            && reply.headerLen == 0 && reply.kind != TCPDATA && reply.kind != OPENOK
  {
    hide PushControl, Fifo.Accepts, DecodeDatagram;
    reply := ZERO_FRAME;
    if f.kind == AUTH && DecodeAuth(f.payload).Success? {
      reply := if env.rejection.Some? then SH.ControlFrame(AUTHERR, 0, env.rejection.value)
               else SH.ControlFrame(AUTHOK, 0, []);
    } else if f.kind == PING {
      reply := SH.ControlFrame(PONG, 0, []);
    } else if (f.kind == OPENTCP || f.kind == OPENUDP) && env.dialError.Some? {
      reply := SH.ControlFrame(OPENERR, f.channelID, env.dialError.value);
    }
  }

  lemma HandleTargets(v: SH.Server, f: Frame, env: SH.Env)
    requires SH.Ready(v) && CopyingOk(v.handler)
    ensures var w := SH.HandleFrame(v, f, env);
            v.handler.targets.Keys <= w.handler.targets.Keys && CopyingOk(w.handler)
  {
    hide PushControl, DecodeAuth, DecodeAddress, DecodeDatagram;
  }

  lemma HandleServerMoves(v: SH.Server, f: Frame, env: SH.Env)
    requires SH.Ready(v) && Inv(v.session)
    ensures Moves(v.session, SH.HandleFrame(v, f, env).session)
  {
    hide Moves, Inv, PushControl, SH.HandleFrame;
    var reply := HandleReply(v, f, env);
    StayMoves(v.session);
    PushMoves(v.session, reply);
  }

  // ---- Together ----

  lemma FirstFrameIsAuth(t: State, auth: Auth)
    requires SP.Opens(t.client.session, AuthFrame(auth)) && Inv(t.client.session)
    requires t.up == 0 && t.up < |t.client.session.wire|
    ensures UpFrame(t).kind == AUTH
  {
    hide Encoding, EncodeError, Counted, Merged;
  }

  lemma GrantsMonotone(openers: seq<Opener>, reader: Reader, counted: set<uint32>, more: set<uint32>)
    requires GrantsCounted(openers, reader, counted) && counted <= more
    ensures GrantsCounted(openers, reader, more)
  {
  }

  lemma ServerReadsInv(t: State, env: SH.Env, auth: Auth)
    requires TunnelInv(t, auth)
    ensures TunnelInv(ServerReadStep(t, env), auth)
  {
    hide SH.HandleFrame, Inv, IdsInv, KindsInv, AllSentOk, Rendezvous, Upstream, Accounts, ServerSent, GrantsCounted,
      Downstream, SP.Opens, SeenFrames, Count, OpeningOk;
    if t.up < |t.client.session.wire| && SH.Ready(t.server) {
      var f, g := UpFrame(t), t.client.session.wire[t.up].stamped;
      var v, seen := t.server, UpSeen(t);
      var w := SH.HandleFrame(v, f, env);
      ClientFrameKind(t);
      forall m, channel
        ensures Count(seen + [g], m, channel) <= 1
        ensures m == CloseMark && Count(seen + [g], m, channel) >= 1 ==> channel in t.counted
      {
        MarkedOnce(t, t.up + 1, m, channel);
      }
      if t.up == 0 {
        FirstFrameIsAuth(t, auth);
      }
      HandleAuthOk(v, f, env);
      CountSnoc(seen, g, OpenMark, f.channelID);
      HandleUpstream(v, f, env, seen, g);
      HandleActive(v, f, env);
      HandleAccounts(v.handler, w.handler, t.counted, t.released, seen, g);
      if w.opening.Some? {
        BegunIsNew(v.handler, t.counted, t.released, seen, g);
      }
      NothingOpening(w.opening, t.counted, seen + [g]);
      HandleServerMoves(v, f, env);
      SeenMoves(v.session, w.session, t.down);
      HandleSent(v, f, env, t.counted);
    }
  }

  lemma NothingOpening(opening: Option<uint32>, counted: set<uint32>, seen: seq<Frame>)
    ensures opening.None? ==> OpeningOk(opening, counted, seen)
  {
  }

  lemma HandleSent(v: SH.Server, f: Frame, env: SH.Env, counted: set<uint32>)
    requires SH.Ready(v) && ServerSent(v.session, v.handler, counted)
    ensures var w := SH.HandleFrame(v, f, env); ServerSent(w.session, w.handler, counted)
  {
    hide SH.HandleFrame, PushControl;
    HandleTargets(v, f, env);
    var reply := HandleReply(v, f, env);
    ReplySent(v.session, v.handler, SH.HandleFrame(v, f, env).handler, counted, counted, reply);
  }

  // ---- The server finishes an open ----

  lemma FinishAccounts(h: SH.Handler, w: SH.Handler, counted: set<uint32>, released: set<uint32>,
                       seen: seq<Frame>, ch: uint32)
    requires Accounts(h, counted, released, seen) && OpeningOk(Some(ch), counted, seen)
    requires w.activeChannels == h.activeChannels + 1 && w.conns == h.conns
    ensures Accounts(w, counted + {ch}, released, seen)
  {
    hide Count;
  }

  lemma ServerAnswersInv(t: State, auth: Auth)
    requires TunnelInv(t, auth)
    ensures TunnelInv(ServerAnswerStep(t), auth)
  {
    hide Inv, IdsInv, KindsInv, AllSentOk, Rendezvous, Upstream, Accounts, ServerSent, GrantsCounted,
      Downstream, SP.Opens, SeenFrames, PushControl, Fifo.Accepts;
    if t.server.opening.Some? && t.server.stopped.None? {
      var v, ch, seen := t.server, t.server.opening.value, UpSeen(t);
      var ok, w := SH.ControlFrame(OPENOK, ch, []), SH.FinishOpen(v);
      var more := t.counted + {ch};
      PushMoves(v.session, ok);
      SeenMoves(v.session, w.session, t.down);
      UpstreamKept(v.handler, w.handler, true, w.stopped.None?, seen, []);
      assert seen + [] == seen;
      FinishAccounts(v.handler, w.handler, t.counted, t.released, seen, ch);
      GrantsMonotone(t.client.openers, t.client.reader, t.counted, more);
      SentCopying(v.session, v.handler, t.counted);
      ReplySent(v.session, v.handler, w.handler, t.counted, more, ok);
    }
  }

  lemma SentCopying(s: Session, h: SH.Handler, counted: set<uint32>)
    requires ServerSent(s, h, counted)
    ensures CopyingOk(h)
  {
  }
}
