/** What every step of the client keeps: fresh channel ids, at most one open and one close per channel,
    and an open/reply rendezvous in which no send can block. */
module TunnelClientInv {
  import opened Bytes
  import opened FrameCodec
  import opened FrameQueues
  import opened SessionSystem
  import Messages
  import opened TunnelClient
  import opened TunnelFrames

  // ---- Channel ids ----

  ghost predicate IdsInv(c: Client) {
    && c.nextID == (1 + |c.openers|) % TWO_32
    && forall k :: 0 <= k < |c.openers| ==> c.openers[k].id == (k + 2) % TWO_32
  }

  /** Two allocations share an id exactly when they are a multiple of 2^32 apart. */
  lemma IdsRepeatAfterWrap(c: Client, i: nat, j: nat)
    requires IdsInv(c) && i < |c.openers| && j < |c.openers|
    ensures c.openers[i].id == c.openers[j].id <==> i % TWO_32 == j % TWO_32
  {
    assert c.openers[i].id == (i + 2) % TWO_32 && c.openers[j].id == (j + 2) % TWO_32;
  }

  /** Ids are distinct until the counter has gone round once. */
  lemma IdsDistinct(c: Client, i: nat, j: nat)
    requires IdsInv(c) && |c.openers| <= TWO_32 && i < |c.openers| && j < |c.openers|
    requires c.openers[i].id == c.openers[j].id
    ensures i == j
  {
    assert (i + 2) % TWO_32 == (j + 2) % TWO_32;
  }

  // ---- What the client has offered to its queues ----

  predicate ControlKind(f: Frame) {
    f.kind != TCPDATA && f.kind != UDPDATA && f.kind != UDPCLOSE && f.headerLen == 0
  }

  predicate DataKind(f: Frame) {
    (f.kind == TCPDATA || f.kind == UDPDATA) && f.headerLen == 0
  }

  predicate Marker(m: Mark, o: Opener) {
    match m
    case OpenMark => !o.stage.Allocated? && !o.stage.ConnStored? && !o.stage.ResultStored?
    case CloseMark => o.kind.Tcp? && (o.stage.CloseSent? || o.stage.Finished?)
  }

  ghost predicate MarkedBy(openers: seq<Opener>, m: Mark, channel: uint32) {
    exists k :: 0 <= k < |openers| && openers[k].id == channel && Marker(m, openers[k])
  }

  /** A channel is opened and closed at most once, and only by the opener that holds its id. */
  ghost predicate SentOk(control: seq<Frame>, openers: seq<Opener>, m: Mark, channel: uint32) {
    Count(control, m, channel) <= if MarkedBy(openers, m, channel) then 1 else 0
  }

  ghost predicate AllSentOk(control: seq<Frame>, openers: seq<Opener>) {
    forall m, channel :: SentOk(control, openers, m, channel)
  }

  ghost predicate KindsInv(s: Session) {
    && (forall i :: 0 <= i < |s.acceptedControl| ==> ControlKind(s.acceptedControl[i]))
    && (forall i :: 0 <= i < |s.acceptedData| ==> DataKind(s.acceptedData[i]))
    && (s.heartbeat.Holding? ==> ControlKind(s.heartbeat.ping) && s.heartbeat.ping.kind == PING)
  }

  /** The openers move on: ids and kinds stay, and what has been sent stays sent. */
  ghost predicate Grows(before: seq<Opener>, after: seq<Opener>) {
    && |before| <= |after|
    && forall k :: 0 <= k < |before| ==>
         after[k].id == before[k].id && after[k].kind == before[k].kind && MarkersStay(before[k], after[k])
  }

  predicate MarkersStay(before: Opener, after: Opener) {
    && (Marker(OpenMark, before) ==> Marker(OpenMark, after))
    && (Marker(CloseMark, before) ==> Marker(CloseMark, after))
  }

  lemma MarkedGrows(before: seq<Opener>, after: seq<Opener>, m: Mark, channel: uint32)
    requires Grows(before, after) && MarkedBy(before, m, channel)
    ensures MarkedBy(after, m, channel)
  {
    var k :| 0 <= k < |before| && before[k].id == channel && Marker(m, before[k]);
    assert after[k].id == channel && Marker(m, after[k]);
  }

  ghost predicate Unmarked(f: Frame) {
    forall m, channel :: !Marks(f, m, channel)
  }

  lemma SentKept(control: seq<Frame>, extra: seq<Frame>, before: seq<Opener>, after: seq<Opener>)
    requires AllSentOk(control, before) && Grows(before, after)
    requires extra == [] || (|extra| == 1 && Unmarked(extra[0]))
    ensures AllSentOk(control + extra, after)
  {
    hide Count, MarkedBy, Grows;
    assert extra == [] ==> control + extra == control;
    forall m, channel
      ensures SentOk(control + extra, after, m, channel)
    {
      assert SentOk(control, before, m, channel);
      if MarkedBy(before, m, channel) {
        MarkedGrows(before, after, m, channel);
      }
      if extra != [] {
        assert extra == [extra[0]];
        CountSnoc(control, extra[0], m, channel);
      }
    }
  }

  /** An opener sends its open, or its close, for the first time. */
  lemma SentOnce(c: Client, after: seq<Opener>, f: Frame, k: nat, mark: Mark)
    requires IdsInv(c) && |c.openers| <= TWO_32 && AllSentOk(c.session.acceptedControl, c.openers)
    requires Grows(c.openers, after) && k < |c.openers| && !Marker(mark, c.openers[k]) && Marker(mark, after[k])
    requires forall m, channel :: Marks(f, m, channel) ==> m == mark && channel == c.openers[k].id
    ensures AllSentOk(c.session.acceptedControl + [f], after)
  {
    hide Count;
    forall m, channel
      ensures SentOk(c.session.acceptedControl + [f], after, m, channel)
    {
      assert SentOk(c.session.acceptedControl, c.openers, m, channel);
      CountSnoc(c.session.acceptedControl, f, m, channel);
      if MarkedBy(c.openers, m, channel) {
        MarkedGrows(c.openers, after, m, channel);
      }
      if Marks(f, m, channel) {
        assert MarkedBy(after, m, channel);
        if MarkedBy(c.openers, m, channel) {
          var j :| 0 <= j < |c.openers| && c.openers[j].id == channel && Marker(m, c.openers[j]);
          IdsDistinct(c, j, k);
        }
      }
    }
  }

  // ---- The rendezvous ----

  predicate Stored(s: Stage) {
    !s.Allocated? && !s.ConnStored?
  }

  ghost predicate ReaderOn(r: Reader, k: nat) {
    !r.Reading? && r.opener == k
  }

  ghost predicate PendingOk(pending: map<uint32, nat>, openers: seq<Opener>, reader: Reader) {
    forall channel :: channel in pending ==>
      var k := pending[channel];
      && k < |openers| && openers[k].id == channel
      && openers[k].results == EMPTY_CHANNEL && Stored(openers[k].stage)
      && !ReaderOn(reader, k)
  }

  ghost predicate ReaderOk(openers: seq<Opener>, reader: Reader) {
    reader.Reading? ||
    (&& reader.opener < |openers|
     && Stored(openers[reader.opener].stage)
     && openers[reader.opener].results.closes == 0
     && if reader.Sending? then openers[reader.opener].results == EMPTY_CHANNEL
        else openers[reader.opener].results.sends == 1)
  }

  /** At most one send and one close on a result channel, in that order. */
  ghost predicate ChannelOk(o: Opener) {
    && o.results.sends <= 1 && o.results.closes <= o.results.sends
    && (o.results.buffer.Some? ==> o.results.sends == 1)
    && (!Stored(o.stage) ==> o.results == EMPTY_CHANNEL)
  }

  ghost predicate ChannelsOk(openers: seq<Opener>) {
    forall k :: 0 <= k < |openers| ==> ChannelOk(openers[k])
  }

  ghost predicate ConnsOk(conns: map<uint32, nat>, openers: seq<Opener>, kind: Kind) {
    forall channel :: channel in conns ==>
      var k := conns[channel];
      k < |openers| && openers[k].id == channel && openers[k].kind == kind && !openers[k].stage.Allocated?
  }

  ghost predicate Rendezvous(c: Client) {
    && PendingOk(c.openResults, c.openers, c.reader) && ReaderOk(c.openers, c.reader) && ChannelsOk(c.openers)
    && ConnsOk(c.tcpConns, c.openers, Tcp) && ConnsOk(c.udpRoutes, c.openers, Udp)
  }

  ghost predicate ClientInv(c: Client) {
    && IdsInv(c) && KindsInv(c.session)
    && AllSentOk(c.session.acceptedControl, c.openers)
    && Rendezvous(c)
  }

  lemma InitClientInv(id: uint32, auth: Messages.Auth)
    ensures ClientInv(NewClient(id, auth))
  {
    hide MarkedBy;
    var c := NewClient(id, auth);
    forall m, channel
      ensures SentOk(c.session.acceptedControl, [], m, channel)
    {
      CountZero(c.session.acceptedControl, m, channel);
    }
  }

  lemma PerformKinds(c: Client, a: Act)
    requires KindsInv(c.session)
    ensures KindsInv(Perform(c, a).session)
  {
    hide Step;
    match a
    case Loops(action) => if !action.QueueControl? && !action.QueueData? { InternalAccepts(c.session, action); }
    case _ =>
  }

  lemma ReplaceGrows(openers: seq<Opener>, k: nat, o: Opener)
    requires k < |openers| && o.id == openers[k].id && o.kind == openers[k].kind
    requires MarkersStay(openers[k], o)
    ensures Grows(openers, openers[k := o])
  {
  }

  lemma PerformGrows(c: Client, a: Act)
    ensures Grows(c.openers, Perform(c, a).openers)
  {
    hide Step, PushControl, PushData, Grows, Fifo.Accepts, OpenFrame, CloseFrame;
    SameGrows(c.openers, []);
    match a
    case Allocate(_) => SameGrows(c.openers, [Perform(c, a).openers[|c.openers|]]);
    case SendResult => ResultGrows(c);
    case SealResult => ResultGrows(c);
    case Loops(_) =>
    case SendData(_, _) =>
    case SendUdp(_, _, _, _) =>
    case _ => StageGrows(c, a);
  }

  lemma StageGrows(c: Client, a: Act)
    requires !a.Loops? && !a.Allocate? && !a.SendResult? && !a.SealResult? && !a.SendData? && !a.SendUdp?
    ensures Grows(c.openers, Perform(c, a).openers)
  {
    hide Grows, Perform;
    if a.StoreConn? || a.StoreResult? || a.QueueOpen? {
      AskingGrows(c, a);
    } else if a.AwaitResult? || a.TimeOut? || a.WriteReply? {
      AnsweringGrows(c, a);
    } else {
      UsingGrows(c, a);
    }
  }

  lemma AskingGrows(c: Client, a: Act)
    requires a.StoreConn? || a.StoreResult? || a.QueueOpen?
    ensures Grows(c.openers, Perform(c, a).openers)
  {
    hide PushControl, Grows, Fifo.Accepts, OpenFrame;
    SameGrows(c.openers, []);
    if At(c, a.k, Allocated) || At(c, a.k, ConnStored) || At(c, a.k, ResultStored) {
      ReplaceGrows(c.openers, a.k, Perform(c, a).openers[a.k]);
    }
  }

  lemma AnsweringGrows(c: Client, a: Act)
    requires a.AwaitResult? || a.TimeOut? || a.WriteReply?
    ensures Grows(c.openers, Perform(c, a).openers)
  {
    hide Grows;
    SameGrows(c.openers, []);
    if At(c, a.k, Waiting) || Unanswered(c, a.k) {
      ReplaceGrows(c.openers, a.k, Perform(c, a).openers[a.k]);
    }
  }

  lemma UsingGrows(c: Client, a: Act)
    requires a.SendClose? || a.DropConn? || a.StopCopying?
    ensures Grows(c.openers, Perform(c, a).openers)
  {
    hide PushControl, Grows, CloseFrame;
    SameGrows(c.openers, []);
    if At(c, a.k, Opened) || At(c, a.k, CloseSent) {
      ReplaceGrows(c.openers, a.k, Perform(c, a).openers[a.k]);
    }
  }

  lemma ResultGrows(c: Client)
    ensures Grows(c.openers, SendResultStep(c).openers) && Grows(c.openers, SealResultStep(c).openers)
  {
    hide Grows;
    SameGrows(c.openers, []);
    if !c.reader.Reading? && c.reader.opener < |c.openers| {
      var k := c.reader.opener;
      ReplaceGrows(c.openers, k, SendResultStep(c).openers[k]);
      ReplaceGrows(c.openers, k, SealResultStep(c).openers[k]);
    }
  }

  lemma SameGrows(openers: seq<Opener>, extra: seq<Opener>)
    ensures Grows(openers, openers + extra) && Grows(openers, openers)
  {
  }

  /** Only nextChannel creates an opener and moves the counter. */
  lemma PerformShape(c: Client, a: Act)
    ensures a.Allocate? ==> Perform(c, a) == AllocateStep(c, a.kind)
    ensures !a.Allocate? ==> |Perform(c, a).openers| == |c.openers| && Perform(c, a).nextID == c.nextID
  {
    hide Step, PushControl, PushData, Fifo.Accepts, OpenFrame, CloseFrame, DataFrame, Messages.UdpDataFrame;
    match a
    case QueueOpen(_, _) =>
    case SendData(_, _) =>
    case SendUdp(_, _, _, _) =>
    case SendClose(_) =>
    case _ =>
  }

  lemma PerformIds(c: Client, a: Act)
    requires IdsInv(c)
    ensures IdsInv(Perform(c, a))
    ensures |c.openers| <= |Perform(c, a).openers|
  {
    hide Perform, MarkersStay;
    PerformShape(c, a);
    PerformGrows(c, a);
  }

  lemma QueueOpenSent(c: Client, k: nat, address: seq<byte>)
    requires IdsInv(c) && |c.openers| <= TWO_32 && AllSentOk(c.session.acceptedControl, c.openers)
    ensures var d := QueueOpenStep(c, k, address); AllSentOk(d.session.acceptedControl, d.openers)
  {
    hide Grows, AllSentOk, Count, MarkedBy, Fifo.Accepts;
    PerformGrows(c, QueueOpen(k, address));
    var d := QueueOpenStep(c, k, address);
    SentKept(c.session.acceptedControl, [], c.openers, d.openers);
    assert c.session.acceptedControl + [] == c.session.acceptedControl;
    if At(c, k, ResultStored) && c.session.control.Accepts(OpenFrame(c.openers[k], address)) {
      SentOnce(c, d.openers, OpenFrame(c.openers[k], address), k, OpenMark);
    }
  }

  lemma SendCloseSent(c: Client, k: nat)
    requires IdsInv(c) && |c.openers| <= TWO_32 && AllSentOk(c.session.acceptedControl, c.openers)
    ensures var d := SendCloseStep(c, k); AllSentOk(d.session.acceptedControl, d.openers)
  {
    hide Grows, AllSentOk, Count, MarkedBy, Fifo.Accepts;
    PerformGrows(c, SendClose(k));
    var d := SendCloseStep(c, k);
    SentKept(c.session.acceptedControl, [], c.openers, d.openers);
    assert c.session.acceptedControl + [] == c.session.acceptedControl;
    if At(c, k, Opened) && c.openers[k].kind.Tcp? {
      SentOnce(c, d.openers, CloseFrame(c.openers[k].id), k, CloseMark);
    }
  }

  lemma LoopsSent(c: Client, action: Action)
    requires KindsInv(c.session) && AllSentOk(c.session.acceptedControl, c.openers)
    requires !action.QueueControl? && !action.QueueData?
    ensures AllSentOk(Step(c.session, action).acceptedControl, c.openers)
  {
    hide Step, Grows, AllSentOk, Count, MarkedBy;
    InternalAccepts(c.session, action);
    SameGrows(c.openers, []);
    if Step(c.session, action).acceptedControl != c.session.acceptedControl {
      SentKept(c.session.acceptedControl, [c.session.heartbeat.ping], c.openers, c.openers);
    }
  }

  lemma PerformSent(c: Client, a: Act)
    requires IdsInv(c) && |c.openers| <= TWO_32 && KindsInv(c.session)
    requires AllSentOk(c.session.acceptedControl, c.openers)
    ensures var d := Perform(c, a); AllSentOk(d.session.acceptedControl, d.openers)
  {
    hide Step, Grows, AllSentOk, Count, MarkedBy, QueueOpenStep, SendCloseStep, KindsInv, IdsInv, Fifo.Accepts,
      DataFrame, Messages.UdpDataFrame;
    PerformGrows(c, a);
    SentKept(c.session.acceptedControl, [], c.openers, Perform(c, a).openers);
    assert c.session.acceptedControl + [] == c.session.acceptedControl;
    match a
    case Loops(action) => if !action.QueueControl? && !action.QueueData? { LoopsSent(c, action); }
    case QueueOpen(k, address) => QueueOpenSent(c, k, address);
    case SendClose(k) => SendCloseSent(c, k);
    case _ =>
  }

  // ---- Steps keep the rendezvous ----

  /** Moving one opener on, without touching its result channel. */
  lemma StageKeepsRendezvous(c: Client, k: nat, stage: Stage)
    requires Rendezvous(c) && k < |c.openers| && !stage.Allocated?
    requires Stored(c.openers[k].stage) ==> Stored(stage)
    ensures Rendezvous(SetStage(c, k, stage))
  {
  }

  lemma ConnsAdd(conns: map<uint32, nat>, openers: seq<Opener>, k: nat)
    requires k < |openers| && ConnsOk(conns, openers, openers[k].kind) && !openers[k].stage.Allocated?
    ensures ConnsOk(conns[openers[k].id := k], openers, openers[k].kind)
  {
  }

  lemma StoreConnRendezvous(c: Client, k: nat)
    requires Rendezvous(c)
    ensures Rendezvous(StoreConnStep(c, k))
  {
    hide PendingOk, ReaderOk, ChannelsOk, ConnsOk;
    if At(c, k, Allocated) {
      StageKeepsRendezvous(c, k, ConnStored);
      var d := SetStage(c, k, ConnStored);
      ConnsAdd(if c.openers[k].kind.Tcp? then c.tcpConns else c.udpRoutes, d.openers, k);
    }
  }

  lemma AllocateRendezvous(c: Client, kind: Kind)
    requires Rendezvous(c)
    ensures Rendezvous(AllocateStep(c, kind))
  {
  }

  lemma DropConnRendezvous(c: Client, k: nat)
    requires Rendezvous(c)
    ensures Rendezvous(DropConnStep(c, k))
  {
    hide PendingOk, ReaderOk, ChannelsOk;
    if At(c, k, CloseSent) {
      StageKeepsRendezvous(c, k, Finished);
    }
  }

  lemma StoreResultRendezvous(c: Client, k: nat)
    requires Rendezvous(c)
    ensures Rendezvous(StoreResultStep(c, k))
  {
    hide ConnsOk;
    if At(c, k, ConnStored) {
      assert ChannelOk(c.openers[k]);
      StageKeepsRendezvous(c, k, ResultStored);
    }
  }

  lemma AwaitRendezvous(c: Client, k: nat)
    requires Rendezvous(c)
    ensures Rendezvous(AwaitResultStep(c, k))
  {
  }

  lemma ReplyRendezvous(c: Client, k: nat)
    requires Rendezvous(c)
    ensures Rendezvous(WriteReplyStep(c, k))
  {
  }

  lemma SendResultRendezvous(c: Client)
    requires Rendezvous(c)
    ensures Rendezvous(SendResultStep(c))
  {
  }

  lemma SealResultRendezvous(c: Client)
    requires Rendezvous(c)
    ensures Rendezvous(SealResultStep(c))
  {
  }

  lemma SignalRendezvous(c: Client, channel: uint32, result: OpenResult)
    requires Rendezvous(c) && c.reader.Reading?
    ensures Rendezvous(Signal(c, channel, result))
  {
    hide ConnsOk, ChannelsOk;
  }

  lemma PerformRendezvous(c: Client, a: Act)
    requires Rendezvous(c)
    ensures Rendezvous(Perform(c, a))
  {
    hide Step, PushControl, PushData, StoreConnStep, StoreResultStep, AwaitResultStep, SendResultStep, SealResultStep,
      AllocateStep, DropConnStep, WriteReplyStep, Fifo.Accepts, PendingOk, ReaderOk, ChannelsOk, ConnsOk, OpenFrame,
      CloseFrame;
    match a
    case Allocate(kind) => AllocateRendezvous(c, kind);
    case WriteReply(k) => ReplyRendezvous(c, k);
    case StoreConn(k) => StoreConnRendezvous(c, k);
    case StoreResult(k) => StoreResultRendezvous(c, k);
    case AwaitResult(k) => AwaitRendezvous(c, k);
    case SendResult => SendResultRendezvous(c);
    case SealResult => SealResultRendezvous(c);
    case QueueOpen(k, _) =>
      if At(c, k, ResultStored) { StageKeepsRendezvous(c, k, Waiting); StageKeepsRendezvous(c, k, GaveUp); }
    case TimeOut(k) => if At(c, k, Waiting) { StageKeepsRendezvous(c, k, GaveUp); }
    case SendClose(k) => if At(c, k, Opened) { StageKeepsRendezvous(c, k, CloseSent); }
    case DropConn(k) => DropConnRendezvous(c, k);
    case StopCopying(k) => if At(c, k, Opened) { StageKeepsRendezvous(c, k, Finished); }
    case _ =>
  }

  lemma PerformClientInv(c: Client, a: Act)
    requires ClientInv(c) && |c.openers| <= TWO_32
    ensures ClientInv(Perform(c, a))
  {
    hide Perform, IdsInv, KindsInv, AllSentOk, Rendezvous;
    PerformIds(c, a);
    PerformKinds(c, a);
    PerformSent(c, a);
    PerformRendezvous(c, a);
  }

  // ---- Frames from the server keep it too ----

  lemma DeliverKeeps(c: Client, f: Frame, room: nat)
    requires IdsInv(c) && Rendezvous(c)
    ensures var d := DeliverData(c, f, room); IdsInv(d) && Rendezvous(d) && Grows(c.openers, d.openers)
  {
    hide Grows, PendingOk, ReaderOk, ChannelsOk, ConnsOk;
    SameGrows(c.openers, []);
    if f.channelID in c.tcpConns && c.tcpConns[f.channelID] < |c.openers| {
      var k := c.tcpConns[f.channelID];
      var d := DeliverData(c, f, room);
      ReplaceGrows(c.openers, k, d.openers[k]);
      ReceivedKeepsRendezvous(c, k, d.openers[k].received);
    }
  }

  lemma ReceivedKeepsRendezvous(c: Client, k: nat, received: seq<byte>)
    requires Rendezvous(c) && k < |c.openers|
    ensures Rendezvous(c.(openers := c.openers[k := c.openers[k].(received := received)]))
  {
  }

  lemma PongKeeps(c: Client)
    requires ClientInv(c)
    ensures ClientInv(c.(session := PushControl(c.session, ZERO_FRAME.(kind := PONG))))
  {
    hide Count, MarkedBy, Grows, AllSentOk, PendingOk, ReaderOk, ChannelsOk, ConnsOk, Fifo.Accepts;
    SameGrows(c.openers, []);
    SentKept(c.session.acceptedControl, [ZERO_FRAME.(kind := PONG)], c.openers, c.openers);
  }

  lemma DataKeeps(c: Client, f: Frame, room: nat)
    requires ClientInv(c)
    ensures ClientInv(DeliverData(c, f, room))
  {
    hide Count, MarkedBy, Grows, AllSentOk, Rendezvous, DeliverData, KindsInv, IdsInv;
    DeliverKeeps(c, f, room);
    DeliverTouches(c, f, room);
    SentKept(c.session.acceptedControl, [], c.openers, DeliverData(c, f, room).openers);
    assert c.session.acceptedControl + [] == c.session.acceptedControl;
  }

  lemma PacketsKeepRendezvous(c: Client, k: nat, packets: seq<seq<byte>>)
    requires Rendezvous(c) && k < |c.openers|
    ensures Rendezvous(c.(openers := c.openers[k := c.openers[k].(packets := packets)]))
  {
  }

  lemma PacketKeeps(c: Client, f: Frame, room: nat)
    requires ClientInv(c)
    ensures ClientInv(DeliverPacket(c, f, room)) && |DeliverPacket(c, f, room).openers| == |c.openers|
  {
    hide Count, MarkedBy, Grows, AllSentOk, Rendezvous, KindsInv, IdsInv, Messages.DecodeDatagram;
    var d := DeliverPacket(c, f, room);
    SameGrows(c.openers, []);
    StoppedKeeps(c);
    if f.channelID in c.udpRoutes && c.udpRoutes[f.channelID] < |c.openers| {
      var k := c.udpRoutes[f.channelID];
      ReplaceGrows(c.openers, k, d.openers[k]);
      PacketsKeepRendezvous(c, k, d.openers[k].packets);
      PacketIds(c, k, d.openers[k].packets);
    }
    SentKept(c.session.acceptedControl, [], c.openers, d.openers);
    assert c.session.acceptedControl + [] == c.session.acceptedControl;
  }

  lemma PacketIds(c: Client, k: nat, packets: seq<seq<byte>>)
    requires IdsInv(c) && k < |c.openers|
    ensures IdsInv(c.(openers := c.openers[k := c.openers[k].(packets := packets)]))
  {
  }

  lemma CloseKeeps(c: Client, channel: uint32)
    requires ClientInv(c)
    ensures ClientInv(c.(tcpConns := c.tcpConns - {channel})) && ClientInv(c.(udpRoutes := c.udpRoutes - {channel}))
  {
    hide AllSentOk, PendingOk, ReaderOk, ChannelsOk, KindsInv;
  }

  lemma HandleClientInv(c: Client, f: Frame, room: nat)
    requires ClientInv(c) && c.reader.Reading?
    ensures ClientInv(Handle(c, f, room))
    ensures |Handle(c, f, room).openers| == |c.openers|
  {
    hide DeliverData, DeliverPacket, AllSentOk, Signal, Rendezvous, KindsInv, IdsInv, PushControl, Fifo.Accepts,
      Messages.DecodeDatagram;
    PongKeeps(c);
    DataKeeps(c, f, room);
    PacketKeeps(c, f, room);
    DeliverTouches(c, f, room);
    CloseKeeps(c, f.channelID);
    SignalKeeps(c, f.channelID, Granted);
    SignalKeeps(c, f.channelID, Refused(f.payload));
    StoppedKeeps(Handle(c, f, room));
    StoppedKeeps(c);
  }

  /** The stopped flag is not part of the invariant. */
  lemma StoppedKeeps(c: Client)
    ensures ClientInv(c) <==> ClientInv(c.(stopped := !c.stopped))
    ensures ClientInv(c.(stopped := false)) <==> ClientInv(c.(stopped := true))
  {
    hide AllSentOk, PendingOk, ReaderOk, ChannelsOk, KindsInv, ConnsOk;
  }

  lemma SignalKeeps(c: Client, channel: uint32, result: OpenResult)
    requires ClientInv(c) && c.reader.Reading?
    ensures var d := Signal(c, channel, result);
            ClientInv(d) && d.openers == c.openers && d.session == c.session
  {
    hide AllSentOk;
    SignalRendezvous(c, channel, result);
  }

  lemma DeliverTouches(c: Client, f: Frame, room: nat)
    ensures var d := DeliverData(c, f, room);
            d == c.(openers := d.openers, stopped := d.stopped) && |d.openers| == |c.openers|
  {
  }

  /** A packet changes nothing but the packets of one opener, and perhaps the stopped flag. */
  lemma PacketTouches(c: Client, f: Frame, room: nat)
    ensures var d := DeliverPacket(c, f, room);
            && d == c.(openers := d.openers, stopped := d.stopped) && |d.openers| == |c.openers|
            && (c.stopped ==> d.stopped)
            && forall k :: 0 <= k < |c.openers| ==> d.openers[k] == c.openers[k].(packets := d.openers[k].packets)
  {
    hide Messages.DecodeDatagram;
  }
}
