/** What the client makes of the server's frames: when its handler fails, that it answers every PING, and that every
    answer to an open reaches the opener that waits for it. */
module TunnelAnswers {
  import opened Bytes
  import opened FrameCodec
  import opened FrameQueues
  import opened SessionSystem
  import SP = SessionProperties
  import opened Messages
  import opened TunnelClient
  import opened TunnelFrames
  import opened TunnelClientInv
  import opened Tunnel
  import opened TunnelInvariant
  import opened TunnelSteps
  import opened TunnelServerReads
  import opened TunnelTheorems
  import opened TunnelHangups
  import opened TunnelReplies
  import opened TunnelUdp
  import opened TunnelDials
  import SH = ServerHandler

  // ---- When the client's handler fails ----

  const PONG_FRAME := ZERO_FRAME.(kind := 0x12)

  /** For any frame at all. */
  lemma HandleFails(c: Client, f: Frame, room: nat)
    requires !c.stopped && ConnsOk(c.tcpConns, c.openers, Tcp) && ConnsOk(c.udpRoutes, c.openers, Udp)
    ensures Handle(c, f, room).stopped <==>
              || f.kind == 0x03
              || (f.kind == 0x11 && !c.session.control.Accepts(PONG_FRAME))
              || (f.kind == 0x23 && f.channelID in c.tcpConns && room < |f.payload|)
              || (f.kind == 0x31 && (|f.payload| < 16 || (f.channelID in c.udpRoutes && room == 0)))
  {
    hide Fifo.Accepts, PushControl;
  }

  lemma PongFits(s: Session)
    requires Inv(s)
    ensures s.control.Accepts(PONG_FRAME) <==> |s.control.items| < 256
  {
    hide Merged, WireFaithful;
  }

  /** The client has stored a local connection or a route of this kind for the channel. */
  ghost predicate Stored(c: Client, kind: Kind, channel: uint32) {
    exists k :: 0 <= k < |c.openers| && c.openers[k].id == channel && c.openers[k].kind == kind
                && !c.openers[k].stage.Allocated?
  }

  lemma TableExactly(t: State, channel: uint32)
    requires ConnsKept(t.client, t.removed) && RoutesKept(t.client, t.unrouted) && Rendezvous(t.client)
    ensures channel in t.client.tcpConns <==> Stored(t.client, Tcp, channel) && channel !in t.removed
    ensures channel in t.client.udpRoutes <==> Stored(t.client, Udp, channel) && channel !in t.unrouted
  {
    hide MarkedBy, PendingOk, ReaderOk, ChannelsOk;
    if channel in t.client.tcpConns {
      assert t.client.openers[t.client.tcpConns[channel]].id == channel;
    }
    if channel in t.client.udpRoutes {
      assert t.client.openers[t.client.udpRoutes[channel]].id == channel;
    }
  }

  lemma ClientParts(c: Client)
    requires ClientInv(c)
    ensures Rendezvous(c) && ConnsOk(c.tcpConns, c.openers, Tcp) && ConnsOk(c.udpRoutes, c.openers, Udp)
  {
  }

  /** In every reachable state, the client's handler fails at the next frame if and only if that is an AUTHERR, a PING
      when 256 control frames are queued, TCP data of which a local connection that was stored and not removed takes
      only part, or a datagram whose packet cannot be delivered on a route that was stored and not removed. */
  lemma ClientFailsExactly(clientID: uint32, serverID: uint32, auth: Auth, es: seq<Event>, t: State, room: nat)
    requires Reaches(clientID, serverID, auth, es, t)
    requires t.client.reader.Reading? && !t.client.stopped && t.down < |t.server.session.wire|
    ensures var f, ch := DownFrame(t), DownFrame(t).channelID;
            ClientReadStep(t, room).client.stopped <==>
              || f.kind == 0x03
              || (f.kind == 0x11 && |t.client.session.control.items| == 256)
              || (f.kind == 0x23 && Stored(t.client, Tcp, ch) && ch !in t.removed && room < |f.payload|)
              || (f.kind == 0x31 && Stored(t.client, Udp, ch) && ch !in t.unrouted && room == 0)
  {
    hide RunTunnel, Inv, ClientInv, Upstream, Accounts, ServerSent, GrantsCounted, Downstream, SP.Opens, Handle, Stored,
      ServerUdp, ClientUdp, Packets, ServerCloses, ConnsKept, RoutesKept;
    ReachedInv(clientID, serverID, auth, es, t);
    ReachedHangups(clientID, serverID, auth, es, t);
    ReachedUdp(clientID, serverID, auth, es, t);
    var f := DownFrame(t);
    ClientParts(t.client);
    HandleFails(t.client, f, room);
    PongFits(t.client.session);
    ControlBound(t.client.session);
    TableExactly(t, f.channelID);
    if f.kind == UDPDATA {
      UnroutedWasOpened(t);
      SingleLength(f);
    }
  }

  lemma ControlBound(s: Session)
    requires Inv(s)
    ensures |s.control.items| <= 256
  {
    hide Merged, WireFaithful;
  }

  lemma SingleLength(f: Frame)
    requires f.kind == UDPDATA && SingleFrame(f)
    ensures |f.payload| >= 16
  {
  }

  // ---- A rejected client stops ----

  ghost predicate RejectionStops(t: State)
    requires t.down <= |t.server.session.wire|
  {
    forall i :: 0 <= i < |DownSeen(t)| && DownSeen(t)[i].kind == 0x03 ==> t.client.stopped
  }

  /** A copy count, and the count of a kind. */
  function CopiesOf(fs: seq<Frame>, f: Frame): nat {
    if fs == [] then 0 else CopiesOf(fs[..|fs| - 1], f) + if fs[|fs| - 1] == f then 1 else 0
  }

  function KindCount(fs: seq<Frame>, kind: byte): nat {
    if fs == [] then 0 else KindCount(fs[..|fs| - 1], kind) + if fs[|fs| - 1].kind == kind then 1 else 0
  }

  lemma CountsSnoc(fs: seq<Frame>, g: Frame)
    ensures forall f :: CopiesOf(fs + [g], f) == CopiesOf(fs, f) + if g == f then 1 else 0
    ensures forall kind :: KindCount(fs + [g], kind) == KindCount(fs, kind) + if g.kind == kind then 1 else 0
  {
    assert (fs + [g])[..|fs|] == fs;
  }

  /** Every PING read so far was answered, except one that the full control queue refused. */
  ghost predicate PingsAnswered(t: State)
    requires t.down <= |t.server.session.wire|
  {
    var pings, pongs := KindCount(DownSeen(t), 0x11), CopiesOf(t.client.session.acceptedControl, PONG_FRAME);
    pongs <= pings && (!t.client.stopped ==> pongs == pings)
  }

  // ---- Answers to opens ----

  ghost predicate Answered(seen: seq<Frame>, channel: uint32) {
    HasKind(seen, 0x21, channel) || HasKind(seen, 0x22, channel)
  }

  /** The result fits an answer that was read. */
  ghost predicate ResultOk(r: OpenResult, seen: seq<Frame>, channel: uint32) {
    exists i :: 0 <= i < |seen| && seen[i].channelID == channel
                && match r
                   case Granted => seen[i].kind == 0x21
                   case Refused(reason) => seen[i].kind == 0x22 && seen[i].payload == reason
  }

  ghost predicate SendingTo(r: Reader, k: nat) {
    r.Sending? && r.opener == k
  }

  /** Where the answer to an opener's open is. */
  ghost predicate AnswerOk(o: Opener, k: nat, pending: map<uint32, nat>, reader: Reader, seen: seq<Frame>) {
    && (!o.stage.Allocated? && !o.stage.ConnStored? ==>
          (o.id in pending && pending[o.id] == k) || o.results.sends == 1 || SendingTo(reader, k))
    && (Answered(seen, o.id) ==> o.results.sends == 1 || SendingTo(reader, k))
    && (o.results.buffer.Some? ==> ResultOk(o.results.buffer.value, seen, o.id))
    && (SendingTo(reader, k) ==> ResultOk(reader.result, seen, o.id))
    && ((o.stage.ResultStored? || o.stage.Waiting?) && o.results.sends == 1 ==> o.results.buffer.Some?)
    && (o.results.sends == 1 && !ReaderOn(reader, k) ==> o.results.closes == 1)
  }

  ghost predicate AnswersOk(c: Client, seen: seq<Frame>) {
    forall k :: 0 <= k < |c.openers| ==> AnswerOk(c.openers[k], k, c.openResults, c.reader, seen)
  }

  /** The server answers opened channels only. */
  ghost predicate ServerAnswersOpened(s: Session, seen: seq<Frame>) {
    forall i :: 0 <= i < |s.acceptedControl| && s.acceptedControl[i].kind in {0x21, 0x22} ==>
      WasOpened(seen, s.acceptedControl[i].channelID)
  }

  ghost predicate AnswerInv(t: State)
    requires t.up <= |t.client.session.wire| && t.down <= |t.server.session.wire|
  {
    && RejectionStops(t) && PingsAnswered(t)
    && AnswersOk(t.client, DownSeen(t))
    && ServerAnswersOpened(t.server.session, UpSeen(t))
    && OpeningSeen(t.server.opening, UpSeen(t))
  }

  ghost predicate OpeningSeen(opening: Option<uint32>, seen: seq<Frame>) {
    opening.Some? ==> WasOpened(seen, opening.value)
  }

  lemma InitAnswers(clientID: uint32, serverID: uint32, auth: Auth)
    ensures AnswerInv(Init(clientID, serverID, auth))
  {
    hide Fifo.Accepts;
    var control := Init(clientID, serverID, auth).client.session.acceptedControl;
    if control != [] {
      assert control == [] + [AuthFrame(auth)];
      CountsSnoc([], AuthFrame(auth));
    }
  }

  // ---- Steps of the client ----

  lemma PerformPongs(c: Client, a: Act)
    requires KindsInv(c.session)
    ensures CopiesOf(Perform(c, a).session.acceptedControl, PONG_FRAME)
            == CopiesOf(c.session.acceptedControl, PONG_FRAME)
    ensures Perform(c, a).stopped == c.stopped
  {
    hide Perform, CopiesOf;
    var f := PerformOpens(c, a);
    CountsSnoc(c.session.acceptedControl, f);
    SameStopped(c, a);
  }

  lemma SameStopped(c: Client, a: Act)
    ensures Perform(c, a).stopped == c.stopped
  {
    hide Step, PushControl, PushData, Fifo.Accepts;
  }

  /** What an opener's own step may do to it. */
  ghost predicate Advances(o: Opener, p: Opener) {
    && p.id == o.id
    && (p.results == o.results
        || (o.stage.Waiting? && p.results == o.results.(buffer := None) && !p.stage.Waiting? && !p.stage.ResultStored?))
    && (p.stage.ResultStored? || p.stage.Waiting? ==>
          o.stage.ResultStored? || o.stage.Waiting? || (o.stage.ConnStored? && p.stage.ResultStored?))
    && (!p.stage.Allocated? && !p.stage.ConnStored? ==>
          (!o.stage.Allocated? && !o.stage.ConnStored?) || (o.stage.ConnStored? && p.stage.ResultStored?))
  }

  predicate OwnStep(a: Act) {
    !a.Loops? && !a.Allocate? && !a.SendResult? && !a.SealResult?
  }

  lemma SameAdvances(o: Opener)
    ensures Advances(o, o)
  {
  }

  lemma ReplaceAdvances(openers: seq<Opener>, j: nat, p: Opener, k: nat)
    requires j < |openers| && k < |openers| && Advances(openers[j], p)
    ensures Advances(openers[k], openers[j := p][k])
  {
    SameAdvances(openers[k]);
  }

  lemma AskingAdvances(c: Client, a: Act, k: nat)
    requires a.StoreConn? || a.StoreResult? || a.QueueOpen?
    requires k < |c.openers|
    ensures var d := Perform(c, a);
            && |d.openers| == |c.openers| && d.reader == c.reader && Advances(c.openers[k], d.openers[k])
  {
    hide PushControl, Fifo.Accepts, OpenFrame, Advances;
    SameAdvances(c.openers[k]);
    if At(c, a.k, Allocated) || At(c, a.k, ConnStored) || At(c, a.k, ResultStored) {
      AskedAdvances(c, a);
      ReplaceAdvances(c.openers, a.k, Perform(c, a).openers[a.k], k);
    }
  }

  lemma AskedAdvances(c: Client, a: Act)
    requires a.StoreConn? || a.StoreResult? || a.QueueOpen?
    requires At(c, a.k, Allocated) || At(c, a.k, ConnStored) || At(c, a.k, ResultStored)
    ensures Advances(c.openers[a.k], Perform(c, a).openers[a.k])
  {
    hide PushControl, Fifo.Accepts, OpenFrame;
  }

  lemma AwaitingAdvances(c: Client, a: Act, k: nat)
    requires a.AwaitResult? || a.TimeOut? || a.WriteReply?
    requires k < |c.openers|
    ensures var d := Perform(c, a);
            && |d.openers| == |c.openers| && d.reader == c.reader && Advances(c.openers[k], d.openers[k])
            && d.openResults == c.openResults
  {
    hide Advances;
    SameAdvances(c.openers[k]);
    if At(c, a.k, Waiting) || Unanswered(c, a.k) {
      AwaitedAdvances(c, a);
      ReplaceAdvances(c.openers, a.k, Perform(c, a).openers[a.k], k);
    }
  }

  lemma AwaitedAdvances(c: Client, a: Act)
    requires a.AwaitResult? || a.TimeOut? || a.WriteReply?
    requires At(c, a.k, Waiting) || Unanswered(c, a.k)
    ensures Advances(c.openers[a.k], Perform(c, a).openers[a.k])
  {
  }

  lemma SendingAdvances(c: Client, a: Act, k: nat)
    requires a.SendData? || a.SendUdp?
    requires k < |c.openers|
    ensures var d := Perform(c, a);
            d.openers == c.openers && d.reader == c.reader && d.openResults == c.openResults
            && Advances(c.openers[k], c.openers[k])
  {
    hide PushControl, PushData, Fifo.Accepts, DataFrame, UdpDataFrame;
  }

  lemma UsingAdvances(c: Client, a: Act, k: nat)
    requires a.SendClose? || a.DropConn? || a.StopCopying?
    requires k < |c.openers|
    ensures var d := Perform(c, a);
            && |d.openers| == |c.openers| && d.reader == c.reader && Advances(c.openers[k], d.openers[k])
            && d.openResults == c.openResults
  {
    hide PushControl, Fifo.Accepts, CloseFrame, Advances;
    SameAdvances(c.openers[k]);
    if At(c, a.k, Opened) || At(c, a.k, CloseSent) {
      UsedAdvances(c, a);
      ReplaceAdvances(c.openers, a.k, Perform(c, a).openers[a.k], k);
    }
  }

  lemma UsedAdvances(c: Client, a: Act)
    requires a.SendClose? || a.DropConn? || a.StopCopying?
    requires At(c, a.k, Opened) || At(c, a.k, CloseSent)
    ensures Advances(c.openers[a.k], Perform(c, a).openers[a.k])
  {
    hide PushControl, Fifo.Accepts, CloseFrame;
  }

  lemma PendingGrows(c: Client, a: Act)
    requires a.StoreConn? || a.StoreResult? || a.QueueOpen?
    ensures var d := Perform(c, a);
            d.openResults == if a.StoreResult? && At(c, a.k, ConnStored)
                             then c.openResults[c.openers[a.k].id := a.k] else c.openResults
  {
    hide PushControl, Fifo.Accepts, OpenFrame;
  }

  lemma OwnAdvances(c: Client, a: Act, k: nat)
    requires OwnStep(a) && k < |c.openers|
    ensures var d := Perform(c, a);
            && |d.openers| == |c.openers| && d.reader == c.reader && Advances(c.openers[k], d.openers[k])
            && d.openResults == if a.StoreResult? && At(c, a.k, ConnStored)
                                then c.openResults[c.openers[a.k].id := a.k] else c.openResults
  {
    hide Perform, Advances;
    if a.StoreConn? || a.StoreResult? || a.QueueOpen? {
      AskingAdvances(c, a, k);
      PendingGrows(c, a);
    } else if a.AwaitResult? || a.TimeOut? || a.WriteReply? {
      AwaitingAdvances(c, a, k);
    } else if a.SendData? || a.SendUdp? {
      SendingAdvances(c, a, k);
    } else {
      UsingAdvances(c, a, k);
    }
  }

  lemma StoredNow(c: Client, k: nat)
    requires At(c, k, ConnStored)
    ensures Perform(c, StoreResult(k)).openers[k].stage.ResultStored?
    ensures Perform(c, StoreResult(k)).openers[k].results == c.openers[k].results
  {
  }

  /** One opener after a step of its own or of another. */
  lemma AdvancedAnswer(o: Opener, p: Opener, k: nat, pending: map<uint32, nat>, now: map<uint32, nat>, reader: Reader,
                       seen: seq<Frame>)
    requires AnswerOk(o, k, pending, reader, seen) && Advances(o, p) && ChannelOk(o)
    requires o.id in pending && pending[o.id] == k ==> o.id in now && now[o.id] == k
    requires o.stage.ConnStored? && p.stage.ResultStored? ==> o.id in now && now[o.id] == k
    ensures AnswerOk(p, k, now, reader, seen)
  {
    hide Answered, ResultOk;
  }

  lemma OwnStepAnswers(c: Client, a: Act, seen: seq<Frame>)
    requires AnswersOk(c, seen) && OwnStep(a) && IdsInv(c) && |c.openers| <= TWO_32 && Rendezvous(c)
    ensures AnswersOk(Perform(c, a), seen)
  {
    hide Perform, IdsInv, AnswerOk, Advances, PendingOk, ReaderOk, ConnsOk;
    var d := Perform(c, a);
    PerformShape(c, a);
    forall k | 0 <= k < |d.openers|
      ensures AnswerOk(d.openers[k], k, d.openResults, d.reader, seen)
    {
      OwnAdvances(c, a, k);
      assert ChannelOk(c.openers[k]);
      if c.openers[k].stage.ConnStored? && d.openers[k].stage.ResultStored? {
        OnlyStoringStores(c, a, k);
      }
      if a.StoreResult? && At(c, a.k, ConnStored) && c.openers[k].id == c.openers[a.k].id {
        IdsDistinct(c, k, a.k);
      }
      AdvancedAnswer(c.openers[k], d.openers[k], k, c.openResults, d.openResults, c.reader, seen);
    }
  }

  lemma OnlyStoringStores(c: Client, a: Act, k: nat)
    requires OwnStep(a) && k < |c.openers| && k < |Perform(c, a).openers|
    requires c.openers[k].stage.ConnStored? && Perform(c, a).openers[k].stage.ResultStored?
    ensures a.StoreResult? && a.k == k
  {
    hide PushControl, PushData, Fifo.Accepts, OpenFrame, CloseFrame, DataFrame, UdpDataFrame;
  }

  lemma ReaderAnswers(c: Client, a: Act, seen: seq<Frame>)
    requires AnswersOk(c, seen) && (a.SendResult? || a.SealResult?) && Rendezvous(c)
    ensures AnswersOk(Perform(c, a), seen)
  {
    hide Answered, ResultOk, ConnsOk, PendingOk;
    var d := Perform(c, a);
    forall k | 0 <= k < |d.openers|
      ensures AnswerOk(d.openers[k], k, d.openResults, d.reader, seen)
    {
      assert AnswerOk(c.openers[k], k, c.openResults, c.reader, seen) && ChannelOk(c.openers[k]);
    }
  }

  lemma AllocateAnswers(c: Client, kind: Kind, seen: seq<Frame>)
    requires AnswersOk(c, seen) && !Answered(seen, Bump(c.nextID)) && Rendezvous(c)
    ensures AnswersOk(AllocateStep(c, kind), seen)
  {
    hide Answered, ResultOk, ConnsOk, PendingOk;
    var d := AllocateStep(c, kind);
    forall k | 0 <= k < |d.openers|
      ensures AnswerOk(d.openers[k], k, d.openResults, d.reader, seen)
    {
      if k < |c.openers| {
        assert AnswerOk(c.openers[k], k, c.openResults, c.reader, seen);
      }
    }
  }

  lemma ServerDataKinds(s: Session, h: SH.Handler, counted: set<uint32>)
    requires ServerSent(s, h, counted)
    ensures forall i :: 0 <= i < |s.acceptedData| ==> s.acceptedData[i].kind in {TCPDATA, UDPDATA}
  {
    forall i | 0 <= i < |s.acceptedData|
      ensures s.acceptedData[i].kind in {TCPDATA, UDPDATA}
    {
      assert ServerDataOk(s.acceptedData[i], h.targets);
    }
  }

  /** Nothing is answered for a channel whose open has not been sent. */
  lemma UnsentUnanswered(t: State, k: nat)
    requires Base(t) && k < |t.client.openers| && !Marker(OpenMark, t.client.openers[k])
    requires ServerAnswersOpened(t.server.session, UpSeen(t))
             && ServerSent(t.server.session, t.server.handler, t.counted)
    ensures !Answered(DownSeen(t), t.client.openers[k].id)
  {
    hide Inv, ClientInv, Count, MarkedBy;
    var id, s := t.client.openers[k].id, t.server.session;
    if Answered(DownSeen(t), id) {
      var i :| 0 <= i < |DownSeen(t)| && DownSeen(t)[i].kind in {0x21, 0x22} && DownSeen(t)[i].channelID == id;
      var j := SeenNext(s, i);
      ServerDataKinds(s, t.server.handler, t.counted);
      assert s.acceptedControl[j].kind in {0x21, 0x22};
      OpenWasSent(t.client, t.up, id, k);
    }
  }

  lemma ClientActsAnswers(t: State, a: Act, auth: Auth)
    requires TunnelInv(t, auth) && AnswerInv(t) && TunnelInv(ClientActStep(t, a), auth)
    ensures AnswerInv(ClientActStep(t, a))
  {
    hide Inv, IdsInv, KindsInv, AllSentOk, Rendezvous, Upstream, Accounts, ServerSent, GrantsCounted, Downstream,
      SP.Opens, SeenFrames, Perform, AnswersOk, ServerAnswersOpened, WasOpened, CopiesOf, KindCount, AllocateStep;
    var c, d := t.client, Perform(t.client, a);
    PerformMoves(c, a);
    SeenMoves(c.session, d.session, t.up);
    PerformPongs(c, a);
    if OwnStep(a) {
      PerformShape(c, a);
      OwnStepAnswers(c, a, DownSeen(t));
    } else if a.Allocate? {
      PerformShape(c, a);
      NewIsUnanswered(t, a, auth);
      AllocateAnswers(c, a.kind, DownSeen(t));
    } else if a.Loops? {
      LoopsKeep(c, a, DownSeen(t));
    } else {
      ReaderAnswers(c, a, DownSeen(t));
    }
  }

  lemma LoopsKeep(c: Client, a: Act, seen: seq<Frame>)
    requires a.Loops? && AnswersOk(c, seen)
    ensures AnswersOk(Perform(c, a), seen)
  {
    hide Step, AnswerOk;
  }

  lemma NewIsUnanswered(t: State, a: Act, auth: Auth)
    requires TunnelInv(t, auth) && AnswerInv(t) && a.Allocate? && TunnelInv(ClientActStep(t, a), auth)
    ensures !Answered(DownSeen(t), Bump(t.client.nextID))
  {
    hide Inv, ClientInv, Upstream, Accounts, GrantsCounted, Downstream, SP.Opens, SeenFrames, AnswersOk, Answered,
      ServerAnswersOpened, ServerSent;
    var u := ClientActStep(t, a);
    assert u.client.openers[|t.client.openers|].id == Bump(t.client.nextID);
    assert !Marker(OpenMark, u.client.openers[|t.client.openers|]);
    UnsentUnanswered(u, |t.client.openers|);
  }

  // ---- Frames from the server ----

  lemma HandlePongs(c: Client, f: Frame, room: nat)
    requires !c.stopped
    ensures var d := Handle(c, f, room);
            && CopiesOf(d.session.acceptedControl, PONG_FRAME)
               == CopiesOf(c.session.acceptedControl, PONG_FRAME) + (if f.kind == 0x11 && !d.stopped then 1 else 0)
            && (f.kind == 0x03 ==> d.stopped)
  {
    hide CopiesOf, Fifo.Accepts, DecodeDatagram, DeliverPacket;
    CountsSnoc(c.session.acceptedControl, PONG_FRAME);
    PacketTouches(c, f, room);
  }

  /** What a frame does to the rendezvous. */
  lemma HandleResults(c: Client, f: Frame, room: nat)
    requires c.reader.Reading?
    ensures var d, ch := Handle(c, f, room), f.channelID;
            && |d.openers| == |c.openers|
            && (forall k :: 0 <= k < |c.openers| ==>
                  && d.openers[k].id == c.openers[k].id && d.openers[k].stage == c.openers[k].stage
                  && d.openers[k].results == c.openers[k].results)
            && if (f.kind == 0x21 || f.kind == 0x22) && ch in c.openResults
               then d.openResults == c.openResults - {ch}
                    && d.reader == Sending(c.openResults[ch], if f.kind == 0x21 then Granted else Refused(f.payload))
               else d.openResults == c.openResults && d.reader == c.reader
  {
    hide PushControl, Fifo.Accepts, DecodeDatagram, DeliverPacket;
    PacketTouches(c, f, room);
  }

  lemma ResultGrows(r: OpenResult, seen: seq<Frame>, g: Frame, channel: uint32)
    requires ResultOk(r, seen, channel)
    ensures ResultOk(r, seen + [g], channel)
  {
    var i :| 0 <= i < |seen| && seen[i].channelID == channel
             && match r
                case Granted => seen[i].kind == 0x21
                case Refused(reason) => seen[i].kind == 0x22 && seen[i].payload == reason;
    assert (seen + [g])[i] == seen[i];
  }

  lemma NewResult(r: OpenResult, seen: seq<Frame>, g: Frame)
    requires (r == Granted && g.kind == 0x21) || (r == Refused(g.payload) && g.kind == 0x22)
    ensures ResultOk(r, seen + [g], g.channelID)
  {
    assert (seen + [g])[|seen|] == g;
  }

  lemma HandleAnswered(c: Client, f: Frame, room: nat, seen: seq<Frame>, g: Frame)
    requires AnswersOk(c, seen) && c.reader.Reading? && Rendezvous(c) && IdsInv(c) && |c.openers| <= TWO_32
    requires f.kind == g.kind && f.channelID == g.channelID && f.payload == g.payload
    requires f.kind in {0x21, 0x22} ==> MarkedBy(c.openers, OpenMark, f.channelID)
    ensures AnswersOk(Handle(c, f, room), seen + [g])
  {
    hide Handle, IdsInv, ConnsOk, ResultOk, HasKind;
    var d := Handle(c, f, room);
    HandleResults(c, f, room);
    forall k | 0 <= k < |d.openers|
      ensures AnswerOk(d.openers[k], k, d.openResults, d.reader, seen + [g])
    {
      HandleAnswer(c, f, room, seen, g, k);
    }
  }

  /** One opener. */
  lemma HandleAnswer(c: Client, f: Frame, room: nat, seen: seq<Frame>, g: Frame, k: nat)
    requires AnswersOk(c, seen) && c.reader.Reading? && Rendezvous(c) && IdsInv(c) && |c.openers| <= TWO_32
    requires f.kind == g.kind && f.channelID == g.channelID && f.payload == g.payload && k < |c.openers|
    requires f.kind in {0x21, 0x22} ==> MarkedBy(c.openers, OpenMark, f.channelID)
    ensures var d := Handle(c, f, room);
            k < |d.openers| && AnswerOk(d.openers[k], k, d.openResults, d.reader, seen + [g])
  {
    hide Handle, IdsInv, ConnsOk, ResultOk, HasKind, ReaderOk, ChannelsOk;
    var d, o := Handle(c, f, room), c.openers[k];
    HandleResults(c, f, room);
    assert AnswerOk(o, k, c.openResults, c.reader, seen);
    BeforeSnoc(seen, g, 0x21, o.id);
    BeforeSnoc(seen, g, 0x22, o.id);
    if o.results.buffer.Some? {
      ResultGrows(o.results.buffer.value, seen, g, o.id);
    }
    if f.kind in {0x21, 0x22} && f.channelID == o.id {
      var j :| 0 <= j < |c.openers| && c.openers[j].id == f.channelID && Marker(OpenMark, c.openers[j]);
      IdsDistinct(c, j, k);
    }
    if f.kind in {0x21, 0x22} && f.channelID in c.openResults {
      var j := c.openResults[f.channelID];
      assert c.openers[j].id == f.channelID;
      NewResult(if f.kind == 0x21 then Granted else Refused(f.payload), seen, g);
      if o.id == f.channelID {
        IdsDistinct(c, j, k);
      }
    }
  }

  lemma AnswerWasOpened(t: State)
    requires Base(t) && ServerAnswersOpened(t.server.session, UpSeen(t))
    requires ServerSent(t.server.session, t.server.handler, t.counted)
    requires t.down < |t.server.session.wire| && DownFrame(t).kind in {0x21, 0x22}
    ensures MarkedBy(t.client.openers, OpenMark, DownFrame(t).channelID)
  {
    hide Inv, Count, Rendezvous, IdsInv;
    var i := SeenNext(t.server.session, t.down);
    var x, ch := t.server.session.wire[t.down], DownFrame(t).channelID;
    assert x.origin == Data ==> ServerDataOk(t.server.session.acceptedData[i], t.server.handler.targets);
    assert x.origin == Control ==> t.server.session.acceptedControl[i] == x.original;
    SeenCount(t.client.session, t.up, OpenMark, ch);
    assert SentOk(t.client.session.acceptedControl, t.client.openers, OpenMark, ch);
  }

  lemma ClientReadsAnswers(t: State, room: nat, auth: Auth)
    requires TunnelInv(t, auth) && AnswerInv(t)
    ensures var u := ClientReadStep(t, room);
            t.up <= |u.client.session.wire| && u.down <= |u.server.session.wire| && AnswerInv(u)
  {
    hide Handle, Inv, IdsInv, KindsInv, AllSentOk, Rendezvous, Upstream, Accounts, ServerSent, GrantsCounted,
      Downstream,
      SP.Opens, SeenFrames, AnswersOk, ServerAnswersOpened, WasOpened, CopiesOf, KindCount;
    if t.down < |t.server.session.wire| && !t.client.stopped && t.client.reader.Reading? {
      var c, f, g := t.client, DownFrame(t), t.server.session.wire[t.down].stamped;
      var d := Handle(c, f, room);
      HandleMoves(c, f, room);
      SeenMoves(c.session, d.session, t.up);
      var i := SeenNext(t.server.session, t.down);
      HandlePongs(c, f, room);
      CountsSnoc(DownSeen(t), g);
      if f.kind in {0x21, 0x22} {
        AnswerWasOpened(t);
      }
      HandleAnswered(c, f, room, DownSeen(t), g);
    }
  }

  // ---- Steps of the server ----

  lemma AnswersGrow(s: Session, seen: seq<Frame>, more: seq<Frame>, f: Frame)
    requires ServerAnswersOpened(s, seen)
    requires forall channel :: WasOpened(seen, channel) ==> WasOpened(more, channel)
    requires f.kind in {0x21, 0x22} ==> WasOpened(more, f.channelID)
    ensures ServerAnswersOpened(s, more) && ServerAnswersOpened(PushControl(s, f), more)
  {
    hide Fifo.Accepts, Count;
  }

  /** The reply to a frame, as far as opens are concerned. */
  lemma OpenReply(v: SH.Server, f: Frame, env: SH.Env) returns (reply: Frame)
    requires SH.Ready(v)
    ensures var w := SH.HandleFrame(v, f, env);
            && (w.session == v.session || w.session == PushControl(v.session, reply))
            && (w.opening.Some? ==> (f.kind == OPENTCP || f.kind == OPENUDP) && w.opening.value == f.channelID)
    ensures reply.kind in {0x21, 0x22} ==> (f.kind == OPENTCP || f.kind == OPENUDP) && reply.channelID == f.channelID
  {
    hide PushControl, Fifo.Accepts, DecodeDatagram;
    reply := ZERO_FRAME;
    if f.kind == AUTH && env.rejection.Some? {
      reply := SH.ControlFrame(AUTHERR, 0, env.rejection.value);
    } else if f.kind == AUTH {
      reply := SH.ControlFrame(AUTHOK, 0, []);
    } else if f.kind == PING {
      reply := SH.ControlFrame(PONG, 0, []);
    } else if (f.kind == OPENTCP || f.kind == OPENUDP) && env.dialError.Some? {
      reply := SH.ControlFrame(OPENERR, f.channelID, env.dialError.value);
    }
  }

  lemma ServerReadsAnswers(t: State, env: SH.Env, auth: Auth)
    requires TunnelInv(t, auth) && AnswerInv(t)
    ensures var u := ServerReadStep(t, env);
            u.up <= |u.client.session.wire| && t.down <= |u.server.session.wire| && AnswerInv(u)
  {
    hide SH.HandleFrame, Inv, ClientInv, Upstream, Accounts, ServerSent, GrantsCounted, Downstream, SP.Opens,
      SeenFrames, AnswersOk, Count, WasOpened, ServerAnswersOpened, CopiesOf, KindCount;
    if t.up < |t.client.session.wire| && SH.Ready(t.server) {
      var v, f, g, seen := t.server, UpFrame(t), t.client.session.wire[t.up].stamped, UpSeen(t);
      var w := SH.HandleFrame(v, f, env);
      HandleServerMoves(v, f, env);
      SeenMoves(v.session, w.session, t.down);
      ClientFrameKind(t);
      var reply := OpenReply(v, f, env);
      forall channel
        ensures WasOpened(seen, channel) ==> WasOpened(seen + [g], channel)
        ensures Marks(g, OpenMark, channel) ==> WasOpened(seen + [g], channel)
      {
        SeenMore(seen, g, channel);
      }
      AnswersGrow(v.session, seen, seen + [g], reply);
    }
  }

  lemma ServerAnswersAnswers(t: State, auth: Auth)
    requires TunnelInv(t, auth) && AnswerInv(t)
    ensures var u := ServerAnswerStep(t); t.down <= |u.server.session.wire| && AnswerInv(u)
  {
    hide Inv, ClientInv, Upstream, Accounts, ServerSent, GrantsCounted, Downstream, SP.Opens, SeenFrames, PushControl,
      AnswersOk, WasOpened, ServerAnswersOpened, Fifo.Accepts, CopiesOf, KindCount;
    if t.server.opening.Some? && t.server.stopped.None? {
      var v, w := t.server, SH.FinishOpen(t.server);
      AnswerMoves(v);
      SeenMoves(v.session, w.session, t.down);
      AnswersGrow(v.session, UpSeen(t), UpSeen(t), SH.ControlFrame(OPENOK, v.opening.value, []));
    }
  }

  lemma ReactAnswers(v: SH.Server, e: SH.Event, seen: seq<Frame>)
    requires !e.Receive? && !e.Answer? && ServerAnswersOpened(v.session, seen)
    requires v.session.heartbeat.Holding? ==> v.session.heartbeat.ping.kind == PING
    ensures ServerAnswersOpened(SH.React(v, e).session, seen)
  {
    hide Step, Fifo.Accepts, WasOpened;
    match e
    case Loop(a) => if SH.InternalAction(a) { InternalAccepts(v.session, a); }
    case _ =>
  }

  lemma ServerActsAnswers(t: State, e: SH.Event, auth: Auth)
    requires TunnelInv(t, auth) && AnswerInv(t) && !e.Receive? && !e.Answer?
    ensures var u := ServerActStep(t, e); t.down <= |u.server.session.wire| && AnswerInv(u)
  {
    hide SH.React, Inv, ClientInv, Upstream, Accounts, GrantsCounted, Downstream, SP.Opens, SeenFrames, AnswersOk,
      WasOpened, CopiesOf, KindCount, ServerAnswersOpened;
    var v := SH.React(t.server, e);
    ReactMoves(t.server, e);
    SeenMoves(t.server.session, v.session, t.down);
    ReactAnswers(t.server, e, UpSeen(t));
    ReactHandler(t.server, e);
  }

  lemma NextAnswers(t: State, e: Event, auth: Auth)
    requires TunnelInv(t, auth) && TunnelInv(Next(t, e), auth)
    requires t.up <= |t.client.session.wire| && t.down <= |t.server.session.wire| && AnswerInv(t)
    ensures var u := Next(t, e);
            u.up <= |u.client.session.wire| && u.down <= |u.server.session.wire| && AnswerInv(u)
  {
    hide TunnelInv, AnswerInv, ClientActStep, ClientReadStep, ServerReadStep, ServerAnswerStep, ServerActStep;
    BaseSeen(Next(t, e), auth);
    match e
    case ClientActs(a) => ClientActsAnswers(t, a, auth);
    case ClientReads(room) => ClientReadsAnswers(t, room, auth);
    case ServerReads(env) => ServerReadsAnswers(t, env, auth);
    case ServerAnswers => ServerAnswersAnswers(t, auth);
    case ServerActs(ev) => if !ev.Receive? && !ev.Answer? { ServerActsAnswers(t, ev, auth); }
  }

  lemma {:induction false} RunAnswers(t: State, es: seq<Event>, auth: Auth)
    requires TunnelInv(t, auth) && |RunTunnel(t, es).client.openers| <= TWO_32
    requires t.up <= |t.client.session.wire| && t.down <= |t.server.session.wire| && AnswerInv(t)
    ensures var u := RunTunnel(t, es);
            u.up <= |u.client.session.wire| && u.down <= |u.server.session.wire| && AnswerInv(u)
    decreases |es|
  {
    hide TunnelInv, AnswerInv, Next;
    if es != [] {
      OpenersGrowInRun(Next(t, es[0]), es[1..]);
      NextInv(t, es[0], auth);
      NextAnswers(t, es[0], auth);
      RunAnswers(Next(t, es[0]), es[1..], auth);
    }
  }

  lemma ReachedAnswers(clientID: uint32, serverID: uint32, auth: Auth, es: seq<Event>, t: State)
    requires Reaches(clientID, serverID, auth, es, t)
    ensures t.up <= |t.client.session.wire| && t.down <= |t.server.session.wire| && AnswerInv(t)
  {
    hide TunnelInv, AnswerInv;
    InitTunnelInv(clientID, serverID, auth);
    InitAnswers(clientID, serverID, auth);
    BaseSeen(Init(clientID, serverID, auth), auth);
    RunAnswers(Init(clientID, serverID, auth), es, auth);
  }

  // ---- Results ----

  lemma {:induction false} StoppedForGood(t: State, es: seq<Event>)
    requires t.client.stopped
    ensures RunTunnel(t, es).client.stopped && RunTunnel(t, es).down == t.down
    decreases |es|
  {
    hide Perform;
    if es != [] {
      if es[0].ClientActs? {
        SameStopped(t.client, es[0].act);
      }
      StoppedForGood(Next(t, es[0]), es[1..]);
    }
  }

  /** A rejected client stops: in every reachable state in which the client has handled an AUTHERR, its handler has
      failed, and in every continuation it handles no further frame. */
  lemma RejectedClientStops(clientID: uint32, serverID: uint32, auth: Auth, es: seq<Event>, t: State, more: seq<Event>)
    requires Reaches(clientID, serverID, auth, es, t)
    ensures t.down <= |t.server.session.wire|
    ensures (exists i :: 0 <= i < |DownSeen(t)| && DownSeen(t)[i].kind == 0x03) ==>
              t.client.stopped && RunTunnel(t, more).client.stopped && RunTunnel(t, more).down == t.down
  {
    hide RunTunnel, SeenFrames;
    ReachedAnswers(clientID, serverID, auth, es, t);
    if t.client.stopped {
      StoppedForGood(t, more);
    }
  }

  /** Every PING the client has handled was answered by one PONG in its control queue, unless the queue was full, which
      ended the session. */
  lemma ClientAnswersPings(clientID: uint32, serverID: uint32, auth: Auth, es: seq<Event>, t: State)
    requires Reaches(clientID, serverID, auth, es, t)
    ensures t.down <= |t.server.session.wire|
    ensures var pings := KindCount(DownSeen(t), 0x11);
            var pongs := CopiesOf(t.client.session.acceptedControl, ZERO_FRAME.(kind := 0x12));
            pongs <= pings && (!t.client.stopped ==> pongs == pings)
  {
    hide RunTunnel, SeenFrames, KindCount, CopiesOf;
    ReachedAnswers(clientID, serverID, auth, es, t);
  }

  /** Every answer to an open reaches its opener: in every reachable state, once the client has handled an OPENOK or an
      OPENERR for a channel, the result was sent on the result channel of its opener or is about to be; it is a grant
      if it came from an OPENOK and carries the reason of the OPENERR otherwise; and an opener that still waits takes
      it, to go on or to give up accordingly. */
  lemma AnswersReachOpeners(clientID: uint32, serverID: uint32, auth: Auth, es: seq<Event>, t: State, k: nat)
    requires Reaches(clientID, serverID, auth, es, t) && k < |t.client.openers|
    ensures t.down <= |t.server.session.wire|
    ensures var c, o, seen := t.client, t.client.openers[k], DownSeen(t);
            && (Answered(seen, o.id) ==> o.results.sends == 1 || SendingTo(c.reader, k))
            && (SendingTo(c.reader, k) ==> ResultOk(c.reader.result, seen, o.id)
                                           && SendResultStep(c).openers[k].results.buffer == Some(c.reader.result))
            && (o.results.buffer.Some? ==> ResultOk(o.results.buffer.value, seen, o.id))
            && (o.results.sends == 1 && c.reader.Reading? ==> o.results.closes == 1)
            && (o.stage.Waiting? && Answered(seen, o.id) && !SendingTo(c.reader, k) ==>
                  && o.results.buffer.Some?
                  && Perform(c, AwaitResult(k)).openers[k].stage
                     == if o.results.buffer.value.Refused? then GaveUp else if o.kind.Tcp? then Admitted else Opened)
  {
    hide RunTunnel, SeenFrames, KindCount, CopiesOf, Inv, IdsInv, KindsInv, AllSentOk, Upstream, Accounts, ServerSent,
      GrantsCounted, Downstream, SP.Opens, ServerAnswersOpened, Answered, ResultOk, PendingOk, ConnsOk;
    ReachedInv(clientID, serverID, auth, es, t);
    ReachedAnswers(clientID, serverID, auth, es, t);
    assert AnswerOk(t.client.openers[k], k, t.client.openResults, t.client.reader, DownSeen(t));
  }

  /** The life of an opener, step by step: what each of its steps does to its stage and offers to the session.  An open
      that the control queue refuses, an answer that does not come in time and a refusal make it give up; only a
      granted TCP opener sends TCP data and a close, only a granted UDP opener sends datagrams. */
  lemma OpenersMove(c: Client, k: nat, address: seq<byte>, p: seq<byte>, id: uint32, nowMS: uint32)
    requires k < |c.openers|
    ensures var o, s := c.openers[k], c.session;
            var open := ZERO_FRAME.(kind := if o.kind.Tcp? then 0x20 else 0x30, channelID := o.id,
                                    payload := EncodeAddress(address));
            && (o.stage.ResultStored? ==>
                  var d := Perform(c, QueueOpen(k, address));
                  d.session == Step(s, QueueControl(open))
                  && d.openers[k] == o.(stage := if s.control.Accepts(open) then Waiting else GaveUp))
            && (o.stage.Waiting? ==> Perform(c, TimeOut(k)) == c.(openers := c.openers[k := o.(stage := GaveUp)]))
            && (o.stage.Opened? && o.kind.Tcp? && 0 < |p| <= 16384 ==>
                  Perform(c, SendData(k, p))
                  == c.(session := Step(s, QueueData(ZERO_FRAME.(kind := 0x23, channelID := o.id, payload := p)))))
            && (o.stage.Opened? && o.kind.Udp? && |p| <= 1200 ==>
                  Perform(c, SendUdp(k, p, id, nowMS))
                  == c.(session := Step(s, QueueData(ZERO_FRAME.(
                         kind := 0x31, channelID := o.id,
                         payload := EncodeDatagram(Datagram(id, nowMS, 1000, 0, 1, |p|, p)))))))
            && (o.stage.Opened? && o.kind.Tcp? ==>
                  Perform(c, SendClose(k))
                  == c.(session := Step(s, QueueControl(ZERO_FRAME.(kind := 0x24, channelID := o.id))),
                        openers := c.openers[k := o.(stage := CloseSent)]))
            && (o.stage.CloseSent? ==>
                  Perform(c, DropConn(k)) == c.(openers := c.openers[k := o.(stage := Finished)],
                                                tcpConns := c.tcpConns - {o.id}))
            && (o.stage.Opened? ==> Perform(c, StopCopying(k)) == c.(openers := c.openers[k := o.(stage := Finished)]))
  {
    hide EncodeDatagram, EncodeAddress, Fifo.Accepts;
    if c.openers[k].stage.ResultStored? {
      QueueOpenMoves(c, k, address);
    }
  }

  lemma QueueOpenMoves(c: Client, k: nat, address: seq<byte>)
    requires At(c, k, ResultStored)
    ensures var o := c.openers[k];
            var open := ZERO_FRAME.(kind := if o.kind.Tcp? then 0x20 else 0x30, channelID := o.id,
                                    payload := EncodeAddress(address));
            var d := Perform(c, QueueOpen(k, address));
            && d.session == Step(c.session, QueueControl(open))
            && d.openers[k] == o.(stage := if c.session.control.Accepts(open) then Waiting else GaveUp)
  {
    hide EncodeAddress, Fifo.Accepts;
  }

  /** Every TCP open is answered on its local connection: an opener that was granted its channel goes on only by writing
      the reply, and one that gave up, for whatever reason, still can. */
  lemma FinishedOpensAreAnswered(clientID: uint32, serverID: uint32, auth: Auth, es: seq<Event>, t: State, k: nat)
    requires Reaches(clientID, serverID, auth, es, t) && k < |t.client.openers| && t.client.openers[k].kind.Tcp?
    ensures var o := t.client.openers[k];
            && (o.stage.Opened? || o.stage.CloseSent? || o.stage.Finished? ==> o.replied.Some?)
            && (o.stage.GaveUp? && o.replied.None? ==>
                  Perform(t.client, WriteReply(k)).openers[k] == o.(replied := Some(|o.received|)))
            && (o.stage.Admitted? ==> o.replied.None?) && (o.stage.Admitted? ==>
                  Perform(t.client, WriteReply(k)).openers[k] == o.(stage := Opened, replied := Some(|o.received|)))
  {
    hide RunTunnel, SeenFrames;
    InitTunnelInv(clientID, serverID, auth);
    InitReplies(clientID, serverID, auth);
    BaseSeen(Init(clientID, serverID, auth), auth);
    RunReplies(Init(clientID, serverID, auth), es, auth);
    assert ReplyOk(t.client.openers[k], Registered(t.client, k), DownSeen(t)) by {
      RepliesOf(t, auth, k);
    }
  }

  lemma RepliesOf(t: State, auth: Auth, k: nat)
    requires TunnelInv(t, auth) && t.down <= |t.server.session.wire| && ReplyInv(t) && k < |t.client.openers|
    ensures ReplyOk(t.client.openers[k], Registered(t.client, k), DownSeen(t))
  {
  }
}
