/** What every step of client and server together keeps. */
module TunnelInvariant {
  import opened Bytes
  import opened FrameCodec
  import opened FrameQueues
  import opened SessionSystem
  import SP = SessionProperties
  import opened Messages
  import opened TunnelClient
  import opened TunnelFrames
  import opened TunnelClientInv
  import opened Tunnel
  import SH = ServerHandler

  // ---- The invariant ----

  ghost predicate Base(t: State) {
    && Inv(t.client.session) && Inv(t.server.session)
    && t.up <= |t.client.session.wire| && t.down <= |t.server.session.wire|
    && ClientInv(t.client) && |t.client.openers| <= TWO_32
  }

  /** The frames of the client's wire the server has handled, and the other way round. */
  function UpSeen(t: State): seq<Frame>
    requires t.up <= |t.client.session.wire|
  {
    SeenFrames(t.client.session, t.up)
  }

  function DownSeen(t: State): seq<Frame>
    requires t.down <= |t.server.session.wire|
  {
    SeenFrames(t.server.session, t.down)
  }

  ghost predicate AuthOk(v: SH.Server, up: nat) {
    && v.stopped != Some(SH.AuthRequired)
    && (0 < up && v.stopped.None? ==> v.handler.authOK)
  }

  /** A target has received exactly the channel's handled data, or a prefix once the handler has failed. */
  ghost predicate TargetOk(h: SH.Handler, alive: bool, seen: seq<Frame>, channel: uint32) {
    && (channel in h.targets ==> Count(seen, OpenMark, channel) >= 1 && h.targets[channel] <= DataOf(seen, channel))
    && (channel in h.conns ==> channel in h.targets)
    && (alive ==> DataOf(seen, channel) == if channel in h.targets then h.targets[channel] else [])
  }

  ghost predicate Upstream(h: SH.Handler, alive: bool, seen: seq<Frame>) {
    forall channel :: TargetOk(h, alive, seen, channel)
  }

  ghost predicate Accounts(h: SH.Handler, counted: set<uint32>, released: set<uint32>, seen: seq<Frame>) {
    && h.activeChannels == |counted| - |released|
    && released <= counted && released !! h.conns
    && (forall channel :: channel in counted ==> Count(seen, OpenMark, channel) >= 1)
    && (forall channel :: channel in released ==> Count(seen, CloseMark, channel) >= 1)
  }

  /** A channel the read loop is still opening has been asked for and is not yet counted. */
  ghost predicate OpeningOk(opening: Option<uint32>, counted: set<uint32>, seen: seq<Frame>) {
    opening.Some? ==> Count(seen, OpenMark, opening.value) >= 1 && opening.value !in counted
  }

  predicate ServerControlOk(f: Frame, counted: set<uint32>) {
    f.kind != TCPDATA && f.headerLen == 0 && (f.kind == OPENOK ==> f.channelID in counted)
  }

  ghost predicate ServerDataOk(f: Frame, targets: map<uint32, seq<byte>>) {
    && (f.kind == TCPDATA || f.kind == UDPDATA) && f.headerLen == 0
    && (f.kind == TCPDATA ==> f.channelID in targets)
  }

  ghost predicate ServerSent(s: Session, h: SH.Handler, counted: set<uint32>) {
    && (forall i :: 0 <= i < |s.acceptedControl| ==> ServerControlOk(s.acceptedControl[i], counted))
    && (forall i :: 0 <= i < |s.acceptedData| ==> ServerDataOk(s.acceptedData[i], h.targets))
    && (s.heartbeat.Holding? ==> s.heartbeat.ping.kind == PING && s.heartbeat.ping.headerLen == 0)
    && CopyingOk(h)
  }

  predicate Copies(h: SH.Handler, channel: uint32) {
    channel in h.copying || channel in h.closing
  }

  /** Only dialed channels are copied from. */
  ghost predicate CopyingOk(h: SH.Handler) {
    forall channel :: Copies(h, channel) ==> channel in h.targets
  }

  /** An opener that was granted its channel, or is about to hear so. */
  predicate Granting(o: Opener) {
    || o.results.buffer == Some(Granted) || o.stage.Admitted?
    || o.stage.Opened? || o.stage.CloseSent? || o.stage.Finished?
  }

  ghost predicate GrantsCounted(openers: seq<Opener>, reader: Reader, counted: set<uint32>) {
    && (forall k :: 0 <= k < |openers| && Granting(openers[k]) ==> openers[k].id in counted)
    && (reader.Sending? && reader.result.Granted? && reader.opener < |openers| ==>
          openers[reader.opener].id in counted)
  }

  /** A local connection has received exactly its channel's handled data while it is registered, and a
      prefix of it ever after. */
  ghost predicate ReceivedOk(o: Opener, registered: bool, seen: seq<Frame>) {
    && o.received <= DataOf(seen, o.id)
    && (registered ==> o.received == DataOf(seen, o.id))
    && (o.stage.Allocated? ==> o.received == [])
    && (o.replied.Some? ==> o.replied.value <= |o.received|)
  }

  predicate Registered(c: Client, k: nat)
    requires k < |c.openers|
  {
    !c.stopped && c.openers[k].id in c.tcpConns && c.tcpConns[c.openers[k].id] == k
  }

  ghost predicate Downstream(c: Client, seen: seq<Frame>) {
    forall k :: 0 <= k < |c.openers| ==> ReceivedOk(c.openers[k], Registered(c, k), seen)
  }

  ghost predicate TunnelInv(t: State, auth: Auth) {
    && Base(t)
    && SP.Opens(t.client.session, AuthFrame(auth))
    && AuthOk(t.server, t.up)
    && Upstream(t.server.handler, t.server.stopped.None?, UpSeen(t))
    && Accounts(t.server.handler, t.counted, t.released, UpSeen(t))
    && OpeningOk(t.server.opening, t.counted, UpSeen(t))
    && ServerSent(t.server.session, t.server.handler, t.counted)
    && GrantsCounted(t.client.openers, t.client.reader, t.counted)
    && Downstream(t.client, DownSeen(t))
  }

  lemma InitTunnelInv(clientID: uint32, serverID: uint32, auth: Auth)
    requires NewSession(clientID).control.Accepts(AuthFrame(auth))
    ensures TunnelInv(Init(clientID, serverID, auth), auth)
  {
    InitInv(clientID);
    InitInv(serverID);
    StepInv(NewSession(clientID), QueueControl(AuthFrame(auth)));
    InitClientInv(clientID, auth);
  }

  // ---- Sessions only move forward ----

  ghost predicate Moves(s: Session, t: Session) {
    && Inv(t)
    && s.wire <= t.wire && s.acceptedControl <= t.acceptedControl && s.acceptedData <= t.acceptedData
    && forall f :: SP.Opens(s, f) ==> SP.Opens(t, f)
  }

  lemma StepMoves(s: Session, a: Action)
    requires Inv(s)
    ensures Moves(s, Step(s, a))
  {
    hide Inv, SP.Opens;
    StepInv(s, a);
    SeenStable(s, a, 0);
    forall f | SP.Opens(s, f)
      ensures SP.Opens(Step(s, a), f)
    {
      SP.StepOpens(s, a, f);
    }
    SP.AcceptedGrows(s, a);
  }

  lemma StayMoves(s: Session)
    requires Inv(s)
    ensures Moves(s, s)
  {
  }

  lemma PushMoves(s: Session, f: Frame)
    requires Inv(s)
    ensures Moves(s, PushControl(s, f)) && Moves(s, PushData(s, f))
  {
    hide Moves, Inv;
    StepMoves(s, QueueControl(f));
    StepMoves(s, QueueData(f));
    assert Step(s, QueueControl(f)) == PushControl(s, f);
    assert Step(s, QueueData(f)) == PushData(s, f);
  }

  lemma SeenMoves(s: Session, t: Session, n: nat)
    requires Moves(s, t) && n <= |s.wire|
    ensures n <= |t.wire| && SeenFrames(t, n) == SeenFrames(s, n)
  {
    hide Inv, SP.Opens;
    assert t.wire[..n] == s.wire[..n];
  }

  lemma PerformMoves(c: Client, a: Act)
    requires Inv(c.session)
    ensures Moves(c.session, Perform(c, a).session)
  {
    hide Moves, Inv, Step, PushControl, PushData, Fifo.Accepts;
    StayMoves(c.session);
    match a
    case Loops(action) => StepMoves(c.session, action);
    case QueueOpen(k, address) => if At(c, k, ResultStored) { PushMoves(c.session, OpenFrame(c.openers[k], address)); }
    case SendData(k, p) => if At(c, k, Opened) { PushMoves(c.session, DataFrame(c.openers[k].id, p)); }
    case SendUdp(k, data, id, nowMS) =>
      if At(c, k, Opened) { PushMoves(c.session, UdpDataFrame(c.openers[k].id, RequestDatagram(data, id, nowMS))); }
    case SendClose(k) => if At(c, k, Opened) { PushMoves(c.session, CloseFrame(c.openers[k].id)); }
    case _ =>
  }

  // ---- A step of the client ----

  /** What may happen to one opener in one step other than its creation. */
  ghost predicate OneStep(o: Opener, p: Opener, told: bool) {
    && p.id == o.id && p.kind == o.kind && p.received == o.received && p.packets == o.packets
    && (p.replied == o.replied || p.replied == Some(|o.received|))
    && (p.stage.Allocated? ==> o.stage.Allocated?)
    && (Granting(p) ==> Granting(o) || told)
  }

  /** At most one opener changes, and only in the ways of OneStep. */
  ghost predicate Touches(c: Client, openers: seq<Opener>, k: nat, told: bool) {
    openers == c.openers
    || (k < |c.openers| && |openers| == |c.openers| && openers == c.openers[k := openers[k]]
        && OneStep(c.openers[k], openers[k], told))
  }

  predicate OpenerAct(a: Act) {
    !a.Loops? && !a.Allocate? && !a.SendResult? && !a.SealResult?
  }

  lemma StoringTouches(c: Client, a: Act)
    requires a.StoreConn? || a.StoreResult?
    ensures Touches(c, Perform(c, a).openers, a.k, false) && Perform(c, a).reader == c.reader
  {
    hide Touches;
    SameTouches(c, a.k);
    if At(c, a.k, Allocated) || At(c, a.k, ConnStored) {
      TouchAt(c, a.k, Perform(c, a).openers[a.k]);
    }
  }

  lemma AskingTouches(c: Client, a: Act)
    requires a.QueueOpen? || a.AwaitResult? || a.TimeOut? || a.WriteReply?
    ensures Touches(c, Perform(c, a).openers, a.k, false) && Perform(c, a).reader == c.reader
  {
    hide PushControl, Fifo.Accepts, OpenFrame, Touches, OneStep;
    SameTouches(c, a.k);
    if At(c, a.k, ResultStored) || At(c, a.k, Waiting) || Unanswered(c, a.k) {
      AskingSteps(c, a);
      TouchAt(c, a.k, Perform(c, a).openers[a.k]);
    }
  }

  lemma AskingSteps(c: Client, a: Act)
    requires a.QueueOpen? || a.AwaitResult? || a.TimeOut? || a.WriteReply?
    requires At(c, a.k, ResultStored) || At(c, a.k, Waiting) || Unanswered(c, a.k)
    ensures OneStep(c.openers[a.k], Perform(c, a).openers[a.k], false)
  {
    hide PushControl, Fifo.Accepts, OpenFrame;
    match a
    case QueueOpen(k, address) => QueueSteps(c, k, address);
    case _ =>
  }

  lemma QueueSteps(c: Client, k: nat, address: seq<byte>)
    requires k < |c.openers|
    ensures OneStep(c.openers[k], QueueOpenStep(c, k, address).openers[k], false)
  {
    hide PushControl, Fifo.Accepts, OpenFrame;
  }

  lemma SameTouches(c: Client, k: nat)
    ensures Touches(c, c.openers, k, false)
  {
  }

  lemma TouchAt(c: Client, k: nat, o: Opener)
    requires k < |c.openers| && OneStep(c.openers[k], o, false)
    ensures Touches(c, c.openers[k := o], k, false)
  {
  }

  lemma UsingTouches(c: Client, a: Act)
    requires a.SendData? || a.SendUdp? || a.SendClose? || a.DropConn? || a.StopCopying?
    ensures Touches(c, Perform(c, a).openers, a.k, false) && Perform(c, a).reader == c.reader
  {
    hide PushControl, PushData, CloseFrame, DataFrame, UdpDataFrame;
  }

  lemma StageTouches(c: Client, a: Act)
    requires OpenerAct(a)
    ensures Touches(c, Perform(c, a).openers, a.k, false) && Perform(c, a).reader == c.reader
  {
    hide Perform, Touches;
    if a.StoreConn? || a.StoreResult? {
      StoringTouches(c, a);
    } else if a.QueueOpen? || a.AwaitResult? || a.TimeOut? || a.WriteReply? {
      AskingTouches(c, a);
    } else {
      UsingTouches(c, a);
    }
  }

  lemma ResultTouches(c: Client)
    requires !c.reader.Reading?
    ensures Touches(c, SendResultStep(c).openers, c.reader.opener, c.reader.Sending? && c.reader.result.Granted?)
    ensures Touches(c, SealResultStep(c).openers, c.reader.opener, false)
  {
  }

  lemma TouchedGrants(c: Client, openers: seq<Opener>, k: nat, told: bool, reader: Reader, counted: set<uint32>)
    requires GrantsCounted(c.openers, c.reader, counted) && Touches(c, openers, k, told)
    requires told ==> c.reader.Sending? && c.reader.result.Granted? && c.reader.opener == k
    requires reader == c.reader || !reader.Sending?
    ensures GrantsCounted(openers, reader, counted)
  {
  }

  lemma PerformGrants(c: Client, a: Act, counted: set<uint32>)
    requires GrantsCounted(c.openers, c.reader, counted) && ReaderOk(c.openers, c.reader)
    ensures GrantsCounted(Perform(c, a).openers, Perform(c, a).reader, counted)
  {
    hide Step, PushControl, PushData, Fifo.Accepts, Touches;
    var d := Perform(c, a);
    match a
    case Loops(_) =>
    case Allocate(kind) =>
    case SendResult =>
      if c.reader.Sending? {
        ResultTouches(c);
        TouchedGrants(c, d.openers, c.reader.opener, c.reader.result.Granted?, d.reader, counted);
      }
    case SealResult =>
      if c.reader.Sealing? {
        ResultTouches(c);
        TouchedGrants(c, d.openers, c.reader.opener, false, d.reader, counted);
      }
    case _ =>
      StageTouches(c, a);
      TouchedGrants(c, d.openers, a.k, false, d.reader, counted);
  }

  lemma RendezvousReader(c: Client)
    requires Rendezvous(c)
    ensures ReaderOk(c.openers, c.reader)
  {
  }

  /** No data can arrive for a channel whose open has not been sent. */
  lemma NothingBeforeOpen(t: State, k: nat)
    requires Base(t) && k < |t.client.openers| && !Marker(OpenMark, t.client.openers[k])
    requires Upstream(t.server.handler, t.server.stopped.None?, UpSeen(t))
    requires ServerSent(t.server.session, t.server.handler, t.counted)
    ensures DataOf(DownSeen(t), t.client.openers[k].id) == []
  {
    hide Inv, ClientInv, Count, DataOf, MarkedBy;
    var id := t.client.openers[k].id;
    var c, s := t.client.session, t.server.session;
    assert TargetOk(t.server.handler, t.server.stopped.None?, UpSeen(t), id);
    assert ClientInv(t.client);
    if id in t.server.handler.targets {
      OpenWasSent(t.client, t.up, id, k);
    }
    DataEmpty(s.acceptedData, id);
    SeenData(s, t.down, id);
  }

  lemma OpenWasSent(c: Client, n: nat, id: uint32, k: nat)
    requires Inv(c.session) && ClientInv(c) && |c.openers| <= TWO_32 && n <= |c.session.wire|
    requires k < |c.openers| && c.openers[k].id == id && Count(SeenFrames(c.session, n), OpenMark, id) >= 1
    ensures Marker(OpenMark, c.openers[k])
  {
    hide Inv, Count;
    SeenCount(c.session, n, OpenMark, id);
    assert SentOk(c.session.acceptedControl, c.openers, OpenMark, id);
    var j :| 0 <= j < |c.openers| && c.openers[j].id == id && Marker(OpenMark, c.openers[j]);
    IdsDistinct(c, j, k);
  }

  /** Steps that deliver nothing and register no connection. */
  ghost predicate NoDelivery(c: Client, d: Client) {
    && |d.openers| == |c.openers| && d.stopped == c.stopped
    && (forall channel :: channel in d.tcpConns ==> channel in c.tcpConns && d.tcpConns[channel] == c.tcpConns[channel])
    && forall k :: 0 <= k < |c.openers| ==>
         && d.openers[k].id == c.openers[k].id && d.openers[k].received == c.openers[k].received
         && d.openers[k].packets == c.openers[k].packets
         && (d.openers[k].replied == c.openers[k].replied || d.openers[k].replied == Some(|c.openers[k].received|))
         && (d.openers[k].stage.Allocated? ==> c.openers[k].stage.Allocated?)
  }

  lemma NoDeliveryDownstream(c: Client, d: Client, seen: seq<Frame>)
    requires NoDelivery(c, d) && Downstream(c, seen)
    ensures Downstream(d, seen)
  {
    hide DataOf;
    forall k | 0 <= k < |d.openers|
      ensures ReceivedOk(d.openers[k], Registered(d, k), seen)
    {
      assert ReceivedOk(c.openers[k], Registered(c, k), seen);
    }
  }

  lemma StoreConnDownstream(c: Client, k: nat, seen: seq<Frame>)
    requires Downstream(c, seen)
    requires forall j :: 0 <= j < |c.openers| && c.openers[j].stage.Allocated? ==> DataOf(seen, c.openers[j].id) == []
    ensures Downstream(StoreConnStep(c, k), seen)
  {
    hide DataOf;
    var d := StoreConnStep(c, k);
    forall j | 0 <= j < |d.openers|
      ensures ReceivedOk(d.openers[j], Registered(d, j), seen)
    {
      assert ReceivedOk(c.openers[j], Registered(c, j), seen);
    }
  }

  lemma AllocateDownstream(c: Client, kind: Kind, seen: seq<Frame>)
    requires Downstream(c, seen) && ConnsOk(c.tcpConns, c.openers, Tcp)
    ensures Downstream(AllocateStep(c, kind), seen)
  {
    hide DataOf;
    var d := AllocateStep(c, kind);
    forall j | 0 <= j < |d.openers|
      ensures ReceivedOk(d.openers[j], Registered(d, j), seen)
    {
      if j < |c.openers| {
        assert ReceivedOk(c.openers[j], Registered(c, j), seen);
      }
    }
  }

  lemma PerformConns(c: Client, a: Act)
    requires !a.StoreConn?
    ensures var d := Perform(c, a);
            && d.stopped == c.stopped
            && forall channel :: channel in d.tcpConns ==>
                 channel in c.tcpConns && d.tcpConns[channel] == c.tcpConns[channel]
  {
    hide Step, PushControl, PushData, Fifo.Accepts;
  }

  lemma TouchedNoDelivery(c: Client, d: Client, k: nat, told: bool)
    requires Touches(c, d.openers, k, told) && d.stopped == c.stopped
    requires forall channel :: channel in d.tcpConns ==>
               channel in c.tcpConns && d.tcpConns[channel] == c.tcpConns[channel]
    ensures NoDelivery(c, d)
  {
    hide Granting;
  }

  lemma PerformNoDelivery(c: Client, a: Act)
    requires !a.StoreConn? && !a.Allocate?
    ensures NoDelivery(c, Perform(c, a))
  {
    hide Touches, NoDelivery, Perform;
    PerformConns(c, a);
    if OpenerAct(a) {
      StageTouches(c, a);
      TouchedNoDelivery(c, Perform(c, a), a.k, false);
    } else {
      var k, told := ReaderTouches(c, a);
      TouchedNoDelivery(c, Perform(c, a), k, told);
    }
  }

  lemma ReaderTouches(c: Client, a: Act) returns (k: nat, told: bool)
    requires !OpenerAct(a) && !a.Allocate?
    ensures Touches(c, Perform(c, a).openers, k, told)
  {
    hide Step, Touches;
    k, told := 0, false;
    SameTouches(c, k);
    if !a.Loops? && !c.reader.Reading? {
      ResultTouches(c);
      k, told := c.reader.opener, a.SendResult? && c.reader.Sending? && c.reader.result.Granted?;
      SameTouches(c, k);
    }
  }

  lemma PerformDownstream(c: Client, a: Act, seen: seq<Frame>)
    requires Rendezvous(c) && Downstream(c, seen)
    requires forall k :: 0 <= k < |c.openers| && c.openers[k].stage.Allocated? ==> DataOf(seen, c.openers[k].id) == []
    ensures Downstream(Perform(c, a), seen)
  {
    hide Step, PushControl, PushData, Downstream, NoDelivery, AllocateStep, StoreConnStep;
    match a
    case StoreConn(k) => StoreConnDownstream(c, k, seen);
    case Allocate(kind) => AllocateDownstream(c, kind, seen);
    case _ =>
      PerformNoDelivery(c, a);
      NoDeliveryDownstream(c, Perform(c, a), seen);
  }

  lemma ClientActsInv(t: State, a: Act, auth: Auth)
    requires TunnelInv(t, auth) && |ClientActStep(t, a).client.openers| <= TWO_32
    ensures TunnelInv(ClientActStep(t, a), auth)
  {
    hide Perform, Inv, IdsInv, KindsInv, AllSentOk, Rendezvous, Upstream, Accounts, ServerSent, GrantsCounted,
      Downstream, SP.Opens, SeenFrames;
    var c, d := t.client, Perform(t.client, a);
    PerformMoves(c, a);
    SeenMoves(c.session, d.session, t.up);
    PerformClientInv(c, a);
    assert ReaderOk(c.openers, c.reader) by { RendezvousReader(c); }
    PerformGrants(c, a, t.counted);
    forall k | 0 <= k < |c.openers| && c.openers[k].stage.Allocated?
      ensures DataOf(DownSeen(t), c.openers[k].id) == []
    {
      NothingBeforeOpen(t, k);
    }
    PerformDownstream(c, a, DownSeen(t));
  }
}
