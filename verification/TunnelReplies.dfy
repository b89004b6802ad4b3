/** Where the SOCKS reply stands among the data of its channel. */
module TunnelReplies {
  import opened Bytes
  import opened FrameCodec
  import opened FrameQueues
  import opened SessionSystem
  import SP = SessionProperties
  import opened Messages
  import opened TunnelClient
  import opened TunnelFrames
  import opened TunnelClientInv
  import opened Tunnel
  import opened TunnelInvariant
  import opened TunnelSteps
  import opened TunnelServerReads
  import opened TunnelTheorems
  import SH = ServerHandler

  // ---- The invariant ----

  /** The channels whose OPENOK is among these frames. */
  function Grants(fs: seq<Frame>): set<uint32> {
    set i | 0 <= i < |fs| && fs[i].kind == OPENOK :: fs[i].channelID
  }

  /** A TCP connection that was told of its grant. */
  predicate ToldOfGrant(o: Opener) {
    o.kind.Tcp? && (o.stage.Opened? || o.stage.CloseSent? || o.stage.Finished?)
  }

  /** The open is still under way, or granted and not yet answered. */
  predicate NotFinished(o: Opener) {
    o.stage.Allocated? || o.stage.ConnStored? || o.stage.ResultStored? || o.stage.Waiting? || o.stage.Admitted?
  }

  ghost predicate ReplyOk(o: Opener, registered: bool, seen: seq<Frame>) {
    && (o.kind.Udp? || NotFinished(o) ==> o.replied.None?)
    && (ToldOfGrant(o) ==> o.replied.Some? && (registered ==> |DataBefore(seen, OPENOK, o.id)| <= o.replied.value))
  }

  ghost predicate Replies(c: Client, seen: seq<Frame>) {
    forall k :: 0 <= k < |c.openers| ==> ReplyOk(c.openers[k], Registered(c, k), seen)
  }

  ghost predicate ReplyInv(t: State)
    requires t.down <= |t.server.session.wire|
  {
    GrantsCounted(t.client.openers, t.client.reader, Grants(DownSeen(t))) && Replies(t.client, DownSeen(t))
  }

  lemma InitReplies(clientID: uint32, serverID: uint32, auth: Auth)
    ensures ReplyInv(Init(clientID, serverID, auth))
  {
  }

  // ---- Steps of the client ----

  lemma WriteReplyKeeps(c: Client, k: nat, seen: seq<Frame>)
    requires Replies(c, seen) && Downstream(c, seen)
    ensures Replies(WriteReplyStep(c, k), seen)
  {
    hide DataOf, DataBefore;
    var d := WriteReplyStep(c, k);
    forall j | 0 <= j < |d.openers|
      ensures ReplyOk(d.openers[j], Registered(d, j), seen)
    {
      assert ReplyOk(c.openers[j], Registered(c, j), seen) && ReceivedOk(c.openers[j], Registered(c, j), seen);
      BeforeIsPrefix(seen, OPENOK, c.openers[j].id);
    }
  }

  /** A step other than the reply tells no TCP opener of its grant. */
  ghost predicate Untold(o: Opener, p: Opener) {
    && p.id == o.id && p.kind == o.kind && p.replied == o.replied && (ToldOfGrant(p) ==> ToldOfGrant(o))
    && (NotFinished(p) ==> NotFinished(o))
  }

  lemma StoringUntold(c: Client, a: Act, k: nat)
    requires a.StoreConn? || a.StoreResult?
    requires k < |c.openers|
    ensures k < |Perform(c, a).openers| && Untold(c.openers[k], Perform(c, a).openers[k])
  {
    hide Untold;
    SameUntold(c.openers[k]);
    if At(c, a.k, Allocated) {
      StageUntold(c, a.k, ConnStored, k);
    } else if At(c, a.k, ConnStored) {
      StageUntold(c, a.k, ResultStored, k);
    }
  }

  lemma SameUntold(o: Opener)
    ensures Untold(o, o)
  {
  }

  predicate NotTold(stage: Stage) {
    stage.ConnStored? || stage.ResultStored? || stage.Waiting? || stage.GaveUp?
  }

  lemma StageUntold(c: Client, j: nat, stage: Stage, k: nat)
    requires j < |c.openers| && k < |c.openers| && NotTold(stage)
    requires NotFinished(c.openers[j])
    ensures Untold(c.openers[k], SetStage(c, j, stage).openers[k])
  {
  }

  lemma AskingUntold(c: Client, a: Act, k: nat)
    requires a.QueueOpen? || a.AwaitResult? || a.TimeOut?
    requires k < |c.openers|
    ensures k < |Perform(c, a).openers| && Untold(c.openers[k], Perform(c, a).openers[k])
  {
    hide PushControl, Fifo.Accepts, OpenFrame, Untold;
    SameUntold(c.openers[k]);
    if At(c, a.k, ResultStored) {
      StageUntold(c, a.k, Waiting, k);
      StageUntold(c, a.k, GaveUp, k);
    } else if At(c, a.k, Waiting) {
      StageUntold(c, a.k, GaveUp, k);
      AwaitUntold(c, a.k, k);
    }
  }

  lemma AwaitUntold(c: Client, j: nat, k: nat)
    requires k < |c.openers|
    ensures Untold(c.openers[k], AwaitResultStep(c, j).openers[k])
  {
  }

  lemma UsingUntold(c: Client, a: Act, k: nat)
    requires a.SendData? || a.SendUdp? || a.SendClose? || a.DropConn? || a.StopCopying?
    requires k < |c.openers|
    ensures k < |Perform(c, a).openers| && Untold(c.openers[k], Perform(c, a).openers[k])
  {
    hide PushControl, PushData, Fifo.Accepts, CloseFrame, DataFrame, UdpDataFrame;
  }

  lemma OtherStage(c: Client, a: Act, k: nat)
    requires !a.WriteReply? && k < |c.openers|
    ensures k < |Perform(c, a).openers| && Untold(c.openers[k], Perform(c, a).openers[k])
  {
    hide Step;
    match a
    case Loops(_) =>
    case Allocate(_) =>
    case SendResult =>
    case SealResult =>
    case _ =>
      if a.StoreConn? || a.StoreResult? {
        StoringUntold(c, a, k);
      } else if a.QueueOpen? || a.AwaitResult? || a.TimeOut? {
        AskingUntold(c, a, k);
      } else {
        UsingUntold(c, a, k);
      }
  }

  lemma StaysRegistered(c: Client, a: Act, k: nat)
    requires k < |c.openers| && k < |Perform(c, a).openers| && Perform(c, a).openers[k].id == c.openers[k].id
    requires ToldOfGrant(c.openers[k]) && Registered(Perform(c, a), k)
    ensures Registered(c, k)
  {
    hide Perform;
    if a.StoreConn? {
      StoringRegisters(c, a.k, k);
    } else {
      PerformConns(c, a);
    }
  }

  lemma StoringRegisters(c: Client, j: nat, k: nat)
    requires k < |c.openers| && ToldOfGrant(c.openers[k])
    ensures var d := Perform(c, StoreConn(j)); k < |d.openers| && (Registered(d, k) ==> Registered(c, k))
  {
  }

  lemma OtherActReplies(c: Client, a: Act, seen: seq<Frame>)
    requires Replies(c, seen) && !a.WriteReply?
    ensures Replies(Perform(c, a), seen)
  {
    hide Perform, DataOf, DataBefore;
    var d := Perform(c, a);
    PerformShape(c, a);
    forall j | 0 <= j < |d.openers|
      ensures ReplyOk(d.openers[j], Registered(d, j), seen)
    {
      if j < |c.openers| {
        assert ReplyOk(c.openers[j], Registered(c, j), seen);
        OtherStage(c, a, j);
        if ToldOfGrant(d.openers[j]) && Registered(d, j) {
          StaysRegistered(c, a, j);
        }
      } else {
        NewOpener(c, a.kind);
      }
    }
  }

  lemma NewOpener(c: Client, kind: Kind)
    ensures var d := AllocateStep(c, kind);
            |d.openers| == |c.openers| + 1 && d.openers[|c.openers|].replied.None?
            && !ToldOfGrant(d.openers[|c.openers|])
  {
  }

  lemma ClientActsReplies(t: State, a: Act, auth: Auth)
    requires TunnelInv(t, auth) && ReplyInv(t)
    ensures ReplyInv(ClientActStep(t, a))
  {
    hide Perform, Inv, IdsInv, KindsInv, AllSentOk, Rendezvous, Upstream, Accounts, ServerSent, GrantsCounted,
      Downstream, SP.Opens, SeenFrames, Replies, Grants;
    assert ReaderOk(t.client.openers, t.client.reader) by { RendezvousReader(t.client); }
    PerformGrants(t.client, a, Grants(DownSeen(t)));
    if a.WriteReply? {
      WriteReplyKeeps(t.client, a.k, DownSeen(t));
      ReplyName(t.client, a.k);
    } else {
      OtherActReplies(t.client, a, DownSeen(t));
    }
  }

  lemma ReplyName(c: Client, k: nat)
    ensures Perform(c, WriteReply(k)) == WriteReplyStep(c, k)
  {
  }

  // ---- Frames from the server ----

  lemma HandleOpeners(c: Client, f: Frame, room: nat)
    ensures var d := Handle(c, f, room);
            && |d.openers| == |c.openers|
            && forall k :: 0 <= k < |c.openers| ==>
                 && d.openers[k] == c.openers[k].(received := d.openers[k].received, packets := d.openers[k].packets)
                 && (!c.stopped && Registered(d, k) ==> Registered(c, k))
  {
    hide Fifo.Accepts, PushControl, DecodeDatagram, DeliverPacket;
    PacketTouches(c, f, room);
  }

  lemma GrantsSnoc(fs: seq<Frame>, f: Frame)
    ensures Grants(fs) <= Grants(fs + [f])
    ensures f.kind == OPENOK ==> f.channelID in Grants(fs + [f])
  {
    var gs := fs + [f];
    forall channel | channel in Grants(fs)
      ensures channel in Grants(gs)
    {
      var i :| 0 <= i < |fs| && fs[i].kind == OPENOK && fs[i].channelID == channel;
      assert gs[i] == fs[i];
    }
    assert gs[|fs|] == f;
  }

  lemma HandleReplies(c: Client, f: Frame, room: nat, seen: seq<Frame>, g: Frame)
    requires Replies(c, seen) && GrantsCounted(c.openers, c.reader, Grants(seen)) && !c.stopped
    ensures Replies(Handle(c, f, room), seen + [g])
  {
    hide Handle, DataOf, DataBefore, HasKind;
    var d := Handle(c, f, room);
    HandleOpeners(c, f, room);
    forall k | 0 <= k < |d.openers|
      ensures ReplyOk(d.openers[k], Registered(d, k), seen + [g])
    {
      var o := c.openers[k];
      assert ReplyOk(o, Registered(c, k), seen);
      if ToldOfGrant(o) {
        assert Granting(o);
        GrantedHasKind(seen, o.id);
        BeforeSnoc(seen, g, OPENOK, o.id);
      }
    }
  }

  lemma GrantedHasKind(fs: seq<Frame>, channel: uint32)
    requires channel in Grants(fs)
    ensures HasKind(fs, OPENOK, channel)
  {
  }

  lemma ClientReadsReplies(t: State, room: nat, auth: Auth)
    requires TunnelInv(t, auth) && ReplyInv(t)
    ensures ReplyInv(ClientReadStep(t, room))
  {
    hide Handle, Inv, IdsInv, KindsInv, AllSentOk, Rendezvous, Upstream, Accounts, ServerSent, GrantsCounted,
      Downstream, SP.Opens, SeenFrames, AuthOk, Replies, Grants;
    if t.down < |t.server.session.wire| && !t.client.stopped && t.client.reader.Reading? {
      var f, g, seen := DownFrame(t), t.server.session.wire[t.down].stamped, DownSeen(t);
      var i := SeenNext(t.server.session, t.down);
      GrantsSnoc(seen, g);
      GrantsMonotone(t.client.openers, t.client.reader, Grants(seen), Grants(seen + [g]));
      HandleGrants(t.client, f, room, Grants(seen + [g]));
      HandleReplies(t.client, f, room, seen, g);
    }
  }

  // ---- Steps of the server ----

  lemma ServerMoves(t: State, e: Event)
    requires Base(t) && !e.ClientActs? && !e.ClientReads?
    ensures var u := Next(t, e);
            u.client == t.client && u.down == t.down && Moves(t.server.session, u.server.session)
  {
    hide Inv, ClientInv, Moves, SH.HandleFrame, SH.React, SH.FinishOpen;
    var v := t.server;
    StayMoves(v.session);
    match e
    case ServerReads(env) => if t.up < |t.client.session.wire| && SH.Ready(v) { HandleServerMoves(v, UpFrame(t), env); }
    case ServerAnswers => AnswerMoves(v);
    case ServerActs(ev) => if !ev.Receive? && !ev.Answer? { ReactMoves(v, ev); }
    case _ =>
  }

  lemma AnswerMoves(v: SH.Server)
    requires Inv(v.session)
    ensures Moves(v.session, SH.FinishOpen(v).session)
  {
    hide Inv, Moves, PushControl;
    StayMoves(v.session);
    if v.opening.Some? {
      PushMoves(v.session, SH.ControlFrame(OPENOK, v.opening.value, []));
    }
  }

  lemma NextReplies(t: State, e: Event, auth: Auth)
    requires TunnelInv(t, auth) && ReplyInv(t) && TunnelInv(Next(t, e), auth)
    ensures ReplyInv(Next(t, e))
  {
    hide Inv, ClientInv, Upstream, Accounts, ServerSent, GrantsCounted, Downstream, SP.Opens, Replies, Moves, Grants,
      ClientActStep, ClientReadStep, ServerReadStep, ServerAnswerStep, ServerActStep, SeenFrames;
    match e
    case ClientActs(a) => ClientActsReplies(t, a, auth);
    case ClientReads(room) => ClientReadsReplies(t, room, auth);
    case _ =>
      ServerMoves(t, e);
      SeenMoves(t.server.session, Next(t, e).server.session, t.down);
  }

  lemma {:induction false} RunReplies(t: State, es: seq<Event>, auth: Auth)
    requires TunnelInv(t, auth) && ReplyInv(t) && |RunTunnel(t, es).client.openers| <= TWO_32
    ensures TunnelInv(RunTunnel(t, es), auth) && ReplyInv(RunTunnel(t, es))
    decreases |es|
  {
    hide TunnelInv, ReplyInv, Next;
    if es != [] {
      OpenersGrowInRun(Next(t, es[0]), es[1..]);
      NextInv(t, es[0], auth);
      NextReplies(t, es[0], auth);
      RunReplies(Next(t, es[0]), es[1..], auth);
    }
  }

  /** In every reachable state in which the local connection of a granted TCP channel is registered, the SOCKS reply
      has been written to it, and all data of the channel that stands before its OPENOK on the server's wire was
      written to it before that reply. */
  lemma ReplyFollowsEarlyData(clientID: uint32, serverID: uint32, auth: Auth, es: seq<Event>, t: State, k: nat, n: nat)
    requires Reaches(clientID, serverID, auth, es, t) && k < |t.client.openers| && Registered(t.client, k)
    requires ToldOfGrant(t.client.openers[k])
    requires n <= |t.server.session.wire| && !HasKind(SeenFrames(t.server.session, n), OPENOK, t.client.openers[k].id)
    ensures var o := t.client.openers[k];
            && HasKind(SeenFrames(t.server.session, |t.server.session.wire|), OPENOK, o.id)
            && o.replied.Some? && o.replied.value <= |o.received|
            && |DataOf(SeenFrames(t.server.session, n), o.id)| <= o.replied.value
  {
    hide Inv, ClientInv, DataOf, DataBefore, Upstream, Accounts, ServerSent, SP.Opens, RunTunnel;
    InitTunnelInv(clientID, serverID, auth);
    InitReplies(clientID, serverID, auth);
    RunReplies(Init(clientID, serverID, auth), es, auth);
    var s, o := t.server.session, t.client.openers[k];
    assert ReplyOk(o, true, DownSeen(t)) && ReceivedOk(o, true, DownSeen(t)) && Granting(o);
    GrantedHasKind(DownSeen(t), o.id);
    SeenKinds(s, t.down, |s.wire|, OPENOK, o.id);
    if t.down <= n {
      SeenKinds(s, t.down, n, OPENOK, o.id);
    }
    assert n < t.down && DownSeen(t)[..n] == SeenFrames(s, n);
    BeforeCovers(DownSeen(t), n, OPENOK, o.id);
  }

  lemma SeenKinds(s: Session, m: nat, n: nat, kind: byte, channel: uint32)
    requires m <= n <= |s.wire|
    ensures HasKind(SeenFrames(s, m), kind, channel) ==> HasKind(SeenFrames(s, n), kind, channel)
  {
    assert SeenFrames(s, m) <= SeenFrames(s, n);
    HasKindGrows(SeenFrames(s, m), SeenFrames(s, n), kind, channel);
  }
}
