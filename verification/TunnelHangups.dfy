/** The client's side of a close.  The client removes a local connection when it handles the server's TCPCLOSE, which
    may have overtaken data of the channel, and after its own close.  What arrives later is ignored without an
    error. */
module TunnelHangups {
  import opened Bytes
  import opened FrameCodec
  import opened FrameQueues
  import opened SessionSystem
  import SP = SessionProperties
  import opened Messages
  import opened WireDelivery
  import opened TunnelClient
  import opened TunnelFrames
  import opened TunnelClientInv
  import opened Tunnel
  import opened TunnelInvariant
  import opened TunnelSteps
  import opened TunnelServerReads
  import opened TunnelTheorems
  import opened TunnelLoss
  import SH = ServerHandler

  // ---- The invariant ----

  /** A TCP connection that was stored is registered until it is removed. */
  ghost predicate ConnsKept(c: Client, removed: set<uint32>) {
    && (forall channel :: channel in removed ==> MarkedBy(c.openers, OpenMark, channel))
    && forall k :: 0 <= k < |c.openers| && c.openers[k].kind.Tcp? && !c.openers[k].stage.Allocated? ==>
         (c.openers[k].id in c.tcpConns <==> c.openers[k].id !in removed)
  }

  /** The server closes dialed channels only and sends no empty chunk. */
  ghost predicate ServerCloses(s: Session, targets: map<uint32, seq<byte>>) {
    && (forall i :: 0 <= i < |s.acceptedControl| && s.acceptedControl[i].kind == TCPCLOSE ==>
          s.acceptedControl[i].channelID in targets)
    && forall i :: 0 <= i < |s.acceptedData| && s.acceptedData[i].kind == TCPDATA ==> s.acceptedData[i].payload != []
  }

  ghost predicate HangupInv(t: State) {
    ConnsKept(t.client, t.removed) && ServerCloses(t.server.session, t.server.handler.targets)
  }

  lemma InitHangups(clientID: uint32, serverID: uint32, auth: Auth)
    ensures HangupInv(Init(clientID, serverID, auth))
  {
    hide Fifo.Accepts;
  }

  // ---- Steps of the client ----

  /** Nothing but storing and dropping touches the table of connections. */
  lemma SameTable(c: Client, a: Act)
    requires !a.StoreConn? && !a.DropConn?
    ensures Perform(c, a).tcpConns == c.tcpConns
  {
    hide Step, PushControl, PushData, Fifo.Accepts;
  }

  predicate StaysAllocated(o: Opener, p: Opener) {
    o.stage.Allocated? ==> p.stage.Allocated?
  }

  lemma AskingAllocated(c: Client, a: Act, k: nat)
    requires a.StoreResult? || a.QueueOpen? || a.AwaitResult? || a.TimeOut? || a.WriteReply?
    requires k < |c.openers|
    ensures k < |Perform(c, a).openers| && StaysAllocated(c.openers[k], Perform(c, a).openers[k])
  {
    hide PushControl, Fifo.Accepts, OpenFrame;
  }

  lemma UsingAllocated(c: Client, a: Act, k: nat)
    requires a.SendData? || a.SendUdp? || a.SendClose? || a.StopCopying?
    requires k < |c.openers|
    ensures k < |Perform(c, a).openers| && StaysAllocated(c.openers[k], Perform(c, a).openers[k])
  {
    hide PushControl, PushData, Fifo.Accepts, CloseFrame, DataFrame, UdpDataFrame;
  }

  /** An opener leaves its first stage only by storing its connection. */
  lemma SameAllocated(c: Client, a: Act, k: nat)
    requires !a.StoreConn? && !a.DropConn? && k < |c.openers|
    ensures k < |Perform(c, a).openers| && StaysAllocated(c.openers[k], Perform(c, a).openers[k])
  {
    hide Step;
    match a
    case Loops(_) =>
    case Allocate(_) =>
    case SendResult =>
    case SealResult =>
    case _ =>
      if a.SendData? || a.SendUdp? || a.SendClose? || a.StopCopying? {
        UsingAllocated(c, a, k);
      } else {
        AskingAllocated(c, a, k);
      }
  }

  lemma AllocatedLast(c: Client, kind: Kind)
    ensures AllocateStep(c, kind).openers[|c.openers|].stage.Allocated?
  {
  }

  lemma OtherActKeeps(c: Client, a: Act, removed: set<uint32>)
    requires ConnsKept(c, removed) && !a.StoreConn? && !a.DropConn?
    ensures ConnsKept(Perform(c, a), removed)
  {
    hide Perform, MarkedBy;
    var d := Perform(c, a);
    SameTable(c, a);
    forall k | 0 <= k < |c.openers|
      ensures k < |d.openers| && StaysAllocated(c.openers[k], d.openers[k])
    {
      SameAllocated(c, a, k);
    }
    PerformShape(c, a);
    PerformGrows(c, a);
    MarksKept(c, d, removed);
    if a.Allocate? {
      AllocatedLast(c, a.kind);
    }
  }

  lemma MarksKept(c: Client, d: Client, removed: set<uint32>)
    requires Grows(c.openers, d.openers)
    requires forall channel :: channel in removed ==> MarkedBy(c.openers, OpenMark, channel)
    ensures forall channel :: channel in removed ==> MarkedBy(d.openers, OpenMark, channel)
  {
    hide MarkedBy, Grows;
    forall channel | channel in removed
      ensures MarkedBy(d.openers, OpenMark, channel)
    {
      MarkedGrows(c.openers, d.openers, OpenMark, channel);
    }
  }

  /** A connection is stored under an id that was never removed. */
  lemma StoreConnKeeps(c: Client, k: nat, removed: set<uint32>)
    requires ConnsKept(c, removed) && IdsInv(c) && |c.openers| <= TWO_32
    ensures ConnsKept(StoreConnStep(c, k), removed)
  {
    hide IdsInv, Grows;
    var d := StoreConnStep(c, k);
    PerformGrows(c, StoreConn(k));
    MarksKept(c, d, removed);
    if At(c, k, Allocated) {
      forall j | 0 <= j < |c.openers| && c.openers[j].id == c.openers[k].id
        ensures j == k
      {
        IdsDistinct(c, j, k);
      }
      assert c.openers[k].id !in removed;
    }
  }

  lemma DropConnKeeps(c: Client, k: nat, removed: set<uint32>)
    requires ConnsKept(c, removed)
    ensures ConnsKept(DropConnStep(c, k), if At(c, k, CloseSent) then removed + {c.openers[k].id} else removed)
  {
    hide Grows;
    var d := DropConnStep(c, k);
    PerformGrows(c, DropConn(k));
    MarksKept(c, d, removed);
    if At(c, k, CloseSent) {
      assert Marker(OpenMark, d.openers[k]) && d.openers[k].id == c.openers[k].id;
    }
  }

  lemma ClientActsHangups(t: State, a: Act, auth: Auth)
    requires TunnelInv(t, auth) && HangupInv(t)
    ensures HangupInv(ClientActStep(t, a))
  {
    hide Inv, IdsInv, KindsInv, AllSentOk, Rendezvous, Upstream, Accounts, ServerSent, GrantsCounted, Downstream,
      SP.Opens, SeenFrames, Perform, ConnsKept, ServerCloses;
    match a
    case StoreConn(k) =>
      StoreConnKeeps(t.client, k, t.removed);
      PerformNames(t.client, k);
    case DropConn(k) =>
      DropConnKeeps(t.client, k, t.removed);
      PerformNames(t.client, k);
    case _ => OtherActKeeps(t.client, a, t.removed);
  }

  lemma PerformNames(c: Client, k: nat)
    ensures Perform(c, StoreConn(k)) == StoreConnStep(c, k) && Perform(c, DropConn(k)) == DropConnStep(c, k)
  {
  }

  // ---- Frames from the server ----

  lemma HandleConns(c: Client, f: Frame, room: nat)
    ensures var d := Handle(c, f, room);
            && d.tcpConns == (if f.kind == TCPCLOSE then c.tcpConns - {f.channelID} else c.tcpConns)
            && |d.openers| == |c.openers|
            && forall k :: 0 <= k < |c.openers| ==>
                 d.openers[k] == c.openers[k].(received := d.openers[k].received, packets := d.openers[k].packets)
  {
    hide Fifo.Accepts, PushControl, DecodeDatagram;
  }

  /** A close that arrives is for a channel that was opened. */
  lemma ClosedWasOpened(t: State)
    requires Base(t) && ServerCloses(t.server.session, t.server.handler.targets)
    requires Upstream(t.server.handler, t.server.stopped.None?, UpSeen(t))
    requires ServerSent(t.server.session, t.server.handler, t.counted)
    requires t.down < |t.server.session.wire| && DownFrame(t).kind in {TCPCLOSE, TCPDATA}
    ensures MarkedBy(t.client.openers, OpenMark, DownFrame(t).channelID)
    ensures DownFrame(t).kind == TCPDATA ==> DownFrame(t).payload != []
  {
    hide Inv, Count, DataOf, Rendezvous, IdsInv;
    var i := SeenNext(t.server.session, t.down);
    var x, ch := t.server.session.wire[t.down], DownFrame(t).channelID;
    assert x.origin == Control ==> ServerControlOk(t.server.session.acceptedControl[i], t.counted);
    assert x.origin == Data ==> ServerDataOk(t.server.session.acceptedData[i], t.server.handler.targets);
    assert TargetOk(t.server.handler, t.server.stopped.None?, UpSeen(t), ch);
    SeenCount(t.client.session, t.up, OpenMark, ch);
    assert SentOk(t.client.session.acceptedControl, t.client.openers, OpenMark, ch);
  }

  lemma HandleKeeps(c: Client, f: Frame, room: nat, removed: set<uint32>)
    requires ConnsKept(c, removed) && (f.kind == TCPCLOSE ==> MarkedBy(c.openers, OpenMark, f.channelID))
    ensures ConnsKept(Handle(c, f, room), if f.kind == TCPCLOSE then removed + {f.channelID} else removed)
  {
    hide Handle;
    var d := Handle(c, f, room);
    HandleConns(c, f, room);
    SameMarks(c.openers, d.openers);
    MarksKept(c, d, if f.kind == TCPCLOSE then removed + {f.channelID} else removed);
  }

  lemma SameMarks(before: seq<Opener>, after: seq<Opener>)
    requires |before| == |after|
    requires forall k :: 0 <= k < |before| ==>
               after[k] == before[k].(received := after[k].received, packets := after[k].packets)
    ensures Grows(before, after)
  {
  }

  lemma ClientReadsHangups(t: State, room: nat, auth: Auth)
    requires TunnelInv(t, auth) && HangupInv(t)
    ensures HangupInv(ClientReadStep(t, room))
  {
    hide Handle, Inv, ClientInv, Upstream, Accounts, ServerSent, GrantsCounted, Downstream, SP.Opens, SeenFrames,
      ConnsKept, ServerCloses;
    if t.down < |t.server.session.wire| && !t.client.stopped && t.client.reader.Reading? {
      if DownFrame(t).kind == TCPCLOSE {
        ClosedWasOpened(t);
      }
      HandleKeeps(t.client, DownFrame(t), room, t.removed);
    }
  }

  // ---- Steps of the server ----

  lemma MoreTargets(s: Session, before: map<uint32, seq<byte>>, after: map<uint32, seq<byte>>)
    requires ServerCloses(s, before) && before.Keys <= after.Keys
    ensures ServerCloses(s, after)
  {
  }

  lemma OtherReply(s: Session, targets: map<uint32, seq<byte>>, f: Frame)
    requires ServerCloses(s, targets) && (f.kind == TCPCLOSE ==> f.channelID in targets)
    ensures ServerCloses(PushControl(s, f), targets)
  {
    hide Fifo.Accepts;
  }

  /** A frame is not answered with a close. */
  lemma ReplyKind(v: SH.Server, f: Frame, env: SH.Env) returns (reply: Frame)
    requires SH.Ready(v)
    ensures var w := SH.HandleFrame(v, f, env); w.session == v.session || w.session == PushControl(v.session, reply)
    ensures reply.kind != TCPCLOSE
  {
    hide PushControl, Fifo.Accepts, DecodeDatagram;
    reply := ZERO_FRAME;
    if f.kind == AUTH && env.rejection.Some? {
      reply := SH.ControlFrame(AUTHERR, 0, env.rejection.value);
    } else if f.kind == AUTH {
      reply := SH.ControlFrame(AUTHOK, 0, []);
    } else if f.kind == PING {
      reply := SH.ControlFrame(PONG, 0, []);
    } else if env.dialError.Some? {
      reply := SH.ControlFrame(OPENERR, f.channelID, env.dialError.value);
    }
  }

  lemma ServerReadsHangups(t: State, env: SH.Env)
    requires HangupInv(t) && CopyingOk(t.server.handler)
    ensures HangupInv(ServerReadStep(t, env))
  {
    hide SH.HandleFrame, ConnsKept, ServerCloses, CopyingOk;
    if t.up < |t.client.session.wire| && SH.Ready(t.server) {
      var v, f := t.server, UpFrame(t);
      HandleTargets(v, f, env);
      var reply := ReplyKind(v, f, env);
      OtherReply(v.session, v.handler.targets, reply);
      MoreTargets(SH.HandleFrame(v, f, env).session, v.handler.targets, SH.HandleFrame(v, f, env).handler.targets);
    }
  }

  lemma ServerAnswersHangups(t: State)
    requires HangupInv(t)
    ensures HangupInv(ServerAnswerStep(t))
  {
    hide ConnsKept, ServerCloses, PushControl, Fifo.Accepts;
    if t.server.opening.Some? {
      OtherReply(t.server.session, t.server.handler.targets, SH.ControlFrame(OPENOK, t.server.opening.value, []));
    }
  }

  lemma ReactCloses(v: SH.Server, e: SH.Event)
    requires !e.Receive? && !e.Answer? && ServerCloses(v.session, v.handler.targets) && CopyingOk(v.handler)
    requires v.session.heartbeat.Holding? ==> v.session.heartbeat.ping.kind == PING
    ensures ServerCloses(SH.React(v, e).session, v.handler.targets)
  {
    hide Step, Fifo.Accepts;
    match e
    case Loop(a) => if SH.InternalAction(a) { InternalAccepts(v.session, a); }
    case TargetEnd(ch) => assert ch in v.handler.copying ==> Copies(v.handler, ch);
    case _ =>
  }

  lemma ServerActsHangups(t: State, e: SH.Event, auth: Auth)
    requires TunnelInv(t, auth) && HangupInv(t) && !e.Receive? && !e.Answer?
    ensures HangupInv(ServerActStep(t, e))
  {
    hide Base, Upstream, Accounts, GrantsCounted, Downstream, SP.Opens, ConnsKept, SH.React;
    ReactHandler(t.server, e);
    ReactCloses(t.server, e);
  }

  lemma SentCopies(t: State, auth: Auth)
    requires TunnelInv(t, auth)
    ensures CopyingOk(t.server.handler)
  {
    hide Base, Upstream, Accounts, GrantsCounted, Downstream, SP.Opens;
  }

  lemma NextHangups(t: State, e: Event, auth: Auth)
    requires TunnelInv(t, auth) && HangupInv(t)
    ensures HangupInv(Next(t, e))
  {
    hide TunnelInv, HangupInv, ClientActStep, ClientReadStep, ServerReadStep, ServerAnswerStep, ServerActStep;
    match e
    case ClientActs(a) => ClientActsHangups(t, a, auth);
    case ClientReads(room) => ClientReadsHangups(t, room, auth);
    case ServerReads(env) =>
      SentCopies(t, auth);
      ServerReadsHangups(t, env);
    case ServerAnswers => ServerAnswersHangups(t);
    case ServerActs(ev) => if !ev.Receive? && !ev.Answer? { ServerActsHangups(t, ev, auth); }
  }

  lemma {:induction false} RunHangups(t: State, es: seq<Event>, auth: Auth)
    requires TunnelInv(t, auth) && HangupInv(t) && |RunTunnel(t, es).client.openers| <= TWO_32
    ensures HangupInv(RunTunnel(t, es))
    decreases |es|
  {
    hide TunnelInv, HangupInv, Next;
    if es != [] {
      OpenersGrowInRun(Next(t, es[0]), es[1..]);
      NextInv(t, es[0], auth);
      NextHangups(t, es[0], auth);
      RunHangups(Next(t, es[0]), es[1..], auth);
    }
  }

  lemma ReachedHangups(clientID: uint32, serverID: uint32, auth: Auth, es: seq<Event>, t: State)
    requires Reaches(clientID, serverID, auth, es, t)
    ensures HangupInv(t)
  {
    hide TunnelInv, HangupInv;
    InitTunnelInv(clientID, serverID, auth);
    InitHangups(clientID, serverID, auth);
    RunHangups(Init(clientID, serverID, auth), es, auth);
  }

  // ---- Data that is ignored ----

  /** A stored connection that was not removed is registered under its own opener. */
  lemma NotRemovedIsRegistered(t: State, k: nat)
    requires ClientInv(t.client) && |t.client.openers| <= TWO_32 && ConnsKept(t.client, t.removed)
    requires k < |t.client.openers| && t.client.openers[k].kind.Tcp? && !t.client.openers[k].stage.Allocated?
    ensures !t.client.stopped && t.client.openers[k].id !in t.removed <==> Registered(t.client, k)
  {
    hide KindsInv, AllSentOk, MarkedBy, PendingOk, ReaderOk, ChannelsOk, IdsInv;
    var id := t.client.openers[k].id;
    if id in t.client.tcpConns {
      IdsDistinct(t.client, t.client.tcpConns[id], k);
    }
  }

  /** In every reachable state: a TCPDATA frame the client handles for a channel of one of its TCP openers changes
      nothing, whatever the local connection would take, if and only if that connection was removed before, by a
      handled TCPCLOSE or after the client's own. */
  lemma LocalDropExactly(clientID: uint32, serverID: uint32, auth: Auth, es: seq<Event>, t: State, k: nat, room: nat)
    requires Reaches(clientID, serverID, auth, es, t)
    requires t.client.reader.Reading? && !t.client.stopped
    requires t.down < |t.server.session.wire| && DownFrame(t).kind == TCPDATA
    requires k < |t.client.openers| && t.client.openers[k].kind.Tcp? && t.client.openers[k].id == DownFrame(t).channelID
    ensures ClientReadStep(t, room).client == t.client <==> DownFrame(t).channelID in t.removed
  {
    hide RunTunnel, Inv, IdsInv, KindsInv, AllSentOk, Upstream, Accounts, ServerSent, GrantsCounted, Downstream,
      SP.Opens;
    ReachedInv(clientID, serverID, auth, es, t);
    ReachedHangups(clientID, serverID, auth, es, t);
    ClosedWasOpened(t);
    OpenedIsStored(t, k);
    NotRemovedIsRegistered(t, k);
    DeliveryShows(t.client, DownFrame(t), room);
  }

  lemma OpenedIsStored(t: State, k: nat)
    requires Base(t) && k < |t.client.openers| && MarkedBy(t.client.openers, OpenMark, t.client.openers[k].id)
    ensures !t.client.openers[k].stage.Allocated?
  {
    hide Inv, IdsInv, KindsInv, AllSentOk, Rendezvous;
    var id := t.client.openers[k].id;
    var j :| 0 <= j < |t.client.openers| && t.client.openers[j].id == id && Marker(OpenMark, t.client.openers[j]);
    IdsDistinct(t.client, j, k);
  }

  /** A chunk that is delivered, even in part or not at all, leaves its mark. */
  lemma DeliveryShows(c: Client, f: Frame, room: nat)
    requires ConnsOk(c.tcpConns, c.openers, Tcp) && f.kind == TCPDATA && f.payload != [] && !c.stopped
    ensures Handle(c, f, room) == c <==> f.channelID !in c.tcpConns
  {
    if f.channelID in c.tcpConns {
      var k := c.tcpConns[f.channelID];
      var n := Min(|f.payload|, room);
      assert DeliverData(c, f, room).openers[k].received == c.openers[k].received + f.payload[..n];
      if n > 0 {
        assert |DeliverData(c, f, room).openers[k].received| > |c.openers[k].received|;
      }
    }
  }

  lemma SilentStep(t: State, e: Event, auth: Auth, k: nat)
    requires TunnelInv(t, auth) && HangupInv(t) && k < |t.client.openers| && t.client.openers[k].id in t.removed
    ensures var u := Next(t, e);
            && k < |u.client.openers| && u.client.openers[k].id == t.client.openers[k].id
            && u.client.openers[k].received == t.client.openers[k].received && t.removed <= u.removed
  {
    hide Inv, IdsInv, KindsInv, AllSentOk, Upstream, Accounts, ServerSent, GrantsCounted, Downstream, SP.Opens,
      Perform, Handle, SH.HandleFrame, SH.React, MarkedBy, ServerCloses;
    match e
    case ClientActs(a) => ActsSilent(t.client, a, k);
    case ClientReads(room) =>
      if t.down < |t.server.session.wire| {
        ReadsSilent(t.client, DownFrame(t), room, t.removed, k);
      }
    case _ =>
  }

  lemma ActsSilent(c: Client, a: Act, k: nat)
    requires k < |c.openers|
    ensures var d := Perform(c, a);
            k < |d.openers| && d.openers[k].id == c.openers[k].id && d.openers[k].received == c.openers[k].received
  {
    hide NoDelivery, Perform;
    if a.StoreConn? {
      StoringSilent(c, a.k, k);
    } else if a.Allocate? {
      AllocatingSilent(c, a.kind, k);
    } else {
      PerformNoDelivery(c, a);
      NoDeliverySilent(c, Perform(c, a), k);
    }
  }

  lemma StoringSilent(c: Client, j: nat, k: nat)
    requires k < |c.openers|
    ensures var d := Perform(c, StoreConn(j));
            k < |d.openers| && d.openers[k].id == c.openers[k].id && d.openers[k].received == c.openers[k].received
  {
  }

  lemma AllocatingSilent(c: Client, kind: Kind, k: nat)
    requires k < |c.openers|
    ensures var d := Perform(c, Allocate(kind)); k < |d.openers| && d.openers[k] == c.openers[k]
  {
  }

  lemma NoDeliverySilent(c: Client, d: Client, k: nat)
    requires NoDelivery(c, d) && k < |c.openers|
    ensures k < |d.openers| && d.openers[k].id == c.openers[k].id && d.openers[k].received == c.openers[k].received
  {
  }

  lemma ReadsSilent(c: Client, f: Frame, room: nat, removed: set<uint32>, k: nat)
    requires ConnsOk(c.tcpConns, c.openers, Tcp) && ConnsKept(c, removed)
             && k < |c.openers| && c.openers[k].id in removed
    ensures var d := Handle(c, f, room);
            |d.openers| == |c.openers| && d.openers[k].id == c.openers[k].id
            && d.openers[k].received == c.openers[k].received
  {
    hide PushControl, Fifo.Accepts, DecodeDatagram, MarkedBy, DeliverPacket;
    PacketTouches(c, f, room);
  }

  lemma {:induction false} SilentRun(t: State, es: seq<Event>, auth: Auth, k: nat)
    requires TunnelInv(t, auth) && HangupInv(t) && |RunTunnel(t, es).client.openers| <= TWO_32
    requires k < |t.client.openers| && t.client.openers[k].id in t.removed
    ensures var u := RunTunnel(t, es);
            k < |u.client.openers| && u.client.openers[k].received == t.client.openers[k].received
    decreases |es|
  {
    hide TunnelInv, HangupInv, Next;
    if es != [] {
      OpenersGrowInRun(Next(t, es[0]), es[1..]);
      NextInv(t, es[0], auth);
      NextHangups(t, es[0], auth);
      SilentStep(t, es[0], auth, k);
      SilentRun(Next(t, es[0]), es[1..], auth, k);
    }
  }

  /** From every reachable state in which a local connection was removed, it receives nothing more in any
      continuation. */
  lemma RemovedLocalIsFrozen(clientID: uint32, serverID: uint32, auth: Auth, before: seq<Event>, t: State,
                             after: seq<Event>, k: nat)
    requires Reaches(clientID, serverID, auth, before, t) && |RunTunnel(t, after).client.openers| <= TWO_32
    requires k < |t.client.openers| && t.client.openers[k].id in t.removed
    ensures var u := RunTunnel(t, after);
            k < |u.client.openers| && u.client.openers[k].received == t.client.openers[k].received
  {
    hide TunnelInv, HangupInv;
    ReachedInv(clientID, serverID, auth, before, t);
    ReachedHangups(clientID, serverID, auth, before, t);
    SilentRun(t, after, auth, k);
  }

  /** Nothing is lost on the way to the client while its handler has not failed and the connection has not been
      removed: the bytes the server's data queue accepted for a stored TCP channel are those the local connection has
      received, then those on the unread wire, then those in flight (or in the frame of a failed write), then those
      queued. */
  lemma LocalConservation(clientID: uint32, serverID: uint32, auth: Auth, es: seq<Event>, t: State, k: nat)
    requires Reaches(clientID, serverID, auth, es, t) && k < |t.client.openers|
    requires t.client.openers[k].kind.Tcp? && !t.client.openers[k].stage.Allocated?
    requires !t.client.stopped && t.client.openers[k].id !in t.removed
    ensures var s, o := t.server.session, t.client.openers[k];
            && t.down <= |s.wire|
            && DataOf(s.acceptedData, o.id)
               == o.received + DataOf(WireFrames(s.wire[t.down..]), o.id)
                  + DataOf(InFlight(s.writer, Data), o.id) + DataOf(s.data.items, o.id)
  {
    hide RunTunnel, Inv, ClientInv, DataOf, Upstream, Accounts, ServerSent, GrantsCounted, Downstream, SP.Opens,
      InFlight, WireFrames, ConnsKept;
    ReachedInv(clientID, serverID, auth, es, t);
    ReachedHangups(clientID, serverID, auth, es, t);
    NotRemovedIsRegistered(t, k);
    RegisteredConservation(clientID, serverID, auth, es, t, k);
  }
}
