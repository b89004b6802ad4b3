/** What a client's close cuts off, end to end. */
module TunnelCloses {
  import opened Bytes
  import opened FrameCodec
  import opened FrameQueues
  import opened SessionSystem
  import SP = SessionProperties
  import opened Overtaking
  import opened Messages
  import opened WireDelivery
  import opened TunnelClient
  import opened TunnelFrames
  import opened TunnelClientInv
  import opened Tunnel
  import opened TunnelInvariant
  import opened TunnelSteps
  import opened TunnelServerReads
  import opened TunnelTheorems
  import opened TunnelRelays
  import opened TunnelLoss
  import SH = ServerHandler

  // ---- A closed target has the data ahead of the close ----

  ghost predicate CutOk(h: SH.Handler, released: set<uint32>, seen: seq<Frame>, channel: uint32) {
    channel in released ==>
      && HasKind(seen, TCPCLOSE, channel)
      && (channel in h.targets ==> h.targets[channel] == DataBefore(seen, TCPCLOSE, channel))
  }

  ghost predicate CutInv(t: State)
    requires t.up <= |t.client.session.wire|
  {
    forall channel :: CutOk(t.server.handler, t.released, UpSeen(t), channel)
  }

  lemma CloseMarks(fs: seq<Frame>, channel: uint32)
    requires HasKind(fs, TCPCLOSE, channel)
    ensures Count(fs, CloseMark, channel) >= 1
  {
    var i :| 0 <= i < |fs| && fs[i].kind == TCPCLOSE && fs[i].channelID == channel;
    CountPositive(fs, i, CloseMark, channel);
  }

  /** Only the close of a channel releases it. */
  lemma ReleasedByClose(v: SH.Server, f: Frame, env: SH.Env)
    requires SH.Ready(v) && f.kind != UDPCLOSE
    ensures var w := SH.HandleFrame(v, f, env);
            w.handler.activeChannels < v.handler.activeChannels ==>
              f.kind == TCPCLOSE && w.handler.targets == v.handler.targets
  {
    hide PushControl, DecodeAuth, DecodeAddress, DecodeDatagram;
  }

  lemma ReadCuts(t: State, env: SH.Env, auth: Auth, channel: uint32)
    requires TunnelInv(t, auth) && CutInv(t) && t.up < |t.client.session.wire| && SH.Ready(t.server)
    ensures var u := ServerReadStep(t, env);
            u.up <= |u.client.session.wire| && CutOk(u.server.handler, u.released, UpSeen(u), channel)
  {
    hide Inv, ClientInv, Accounts, ServerSent, GrantsCounted, Downstream, SP.Opens, Count, DataOf, DataBefore, HasKind,
      SH.HandleFrame, SeenFrames;
    var f, g, seen := UpFrame(t), t.client.session.wire[t.up].stamped, UpSeen(t);
    ClientFrameKind(t);
    ReleasedByClose(t.server, f, env);
    BeforeSnoc(seen, g, TCPCLOSE, channel);
    DataSnoc(seen, g, channel);
    assert CutOk(t.server.handler, t.released, seen, channel);
    if channel in t.released {
      FrozenRead(t, env, auth, channel);
    } else if f.channelID == channel && f.kind == TCPCLOSE {
      MarkedOnce(t, t.up + 1, CloseMark, channel);
      CountSnoc(seen, g, CloseMark, channel);
      if HasKind(seen, TCPCLOSE, channel) {
        CloseMarks(seen, channel);
      }
      assert TargetOk(t.server.handler, true, seen, channel);
    }
  }

  lemma OtherCuts(t: State, e: Event, auth: Auth)
    requires TunnelInv(t, auth) && CutInv(t) && TunnelInv(Next(t, e), auth) && !e.ServerReads?
    ensures CutInv(Next(t, e))
  {
    hide Inv, ClientInv, Upstream, Accounts, ServerSent, GrantsCounted, Downstream, SP.Opens, DataBefore, HasKind,
      SeenFrames, Moves, Perform, Handle, SH.React;
    var c := t.client;
    StayMoves(c.session);
    match e
    case ClientActs(a) =>
      PerformMoves(c, a);
      SeenMoves(c.session, Perform(c, a).session, t.up);
    case ClientReads(room) =>
      if t.down < |t.server.session.wire| {
        HandleMoves(c, DownFrame(t), room);
        SeenMoves(c.session, Handle(c, DownFrame(t), room).session, t.up);
      }
    case ServerAnswers =>
      AnswerTargets(t.server);
      KeepCuts(t.server.handler, Next(t, e).server.handler, t.released, UpSeen(t));
    case ServerActs(ev) =>
      if !ev.Receive? && !ev.Answer? {
        ReactHandler(t.server, ev);
        KeepCuts(t.server.handler, Next(t, e).server.handler, t.released, UpSeen(t));
      }
  }

  lemma AnswerTargets(v: SH.Server)
    ensures SH.FinishOpen(v).handler.targets == v.handler.targets
  {
  }

  lemma KeepCuts(h: SH.Handler, g: SH.Handler, released: set<uint32>, seen: seq<Frame>)
    requires (forall channel :: CutOk(h, released, seen, channel)) && g.targets == h.targets
    ensures forall channel :: CutOk(g, released, seen, channel)
  {
    hide HasKind, DataBefore;
    forall channel
      ensures CutOk(g, released, seen, channel)
    {
      assert CutOk(h, released, seen, channel);
    }
  }

  lemma NextCuts(t: State, e: Event, auth: Auth)
    requires TunnelInv(t, auth) && CutInv(t) && TunnelInv(Next(t, e), auth)
    ensures CutInv(Next(t, e))
  {
    hide TunnelInv, CutOk, ServerReadStep, SeenFrames;
    BaseUp(Next(t, e), auth);
    match e
    case ServerReads(env) =>
      if t.up < |t.client.session.wire| && SH.Ready(t.server) {
        forall channel
          ensures CutOk(Next(t, e).server.handler, Next(t, e).released, UpSeen(Next(t, e)), channel)
        {
          ReadCuts(t, env, auth, channel);
        }
      } else {
        NothingRead(t, env);
      }
    case _ => OtherCuts(t, e, auth);
  }

  lemma NothingRead(t: State, env: SH.Env)
    requires t.up >= |t.client.session.wire| || !SH.Ready(t.server)
    ensures ServerReadStep(t, env) == t
  {
  }

  lemma BaseUp(t: State, auth: Auth)
    requires TunnelInv(t, auth)
    ensures t.up <= |t.client.session.wire|
  {
  }

  lemma {:induction false} RunCuts(t: State, es: seq<Event>, auth: Auth)
    requires TunnelInv(t, auth) && t.up <= |t.client.session.wire| && CutInv(t)
    requires |RunTunnel(t, es).client.openers| <= TWO_32
    ensures TunnelInv(RunTunnel(t, es), auth)
    ensures RunTunnel(t, es).up <= |RunTunnel(t, es).client.session.wire| && CutInv(RunTunnel(t, es))
    decreases |es|
  {
    hide TunnelInv, CutInv, Next;
    if es != [] {
      OpenersGrowInRun(Next(t, es[0]), es[1..]);
      NextInv(t, es[0], auth);
      BaseUp(Next(t, es[0]), auth);
      NextCuts(t, es[0], auth);
      RunCuts(Next(t, es[0]), es[1..], auth);
    }
  }

  lemma ReachedCuts(clientID: uint32, serverID: uint32, auth: Auth, es: seq<Event>, t: State)
    requires Reaches(clientID, serverID, auth, es, t)
    ensures t.up <= |t.client.session.wire| && CutInv(t)
  {
    hide TunnelInv, RunTunnel, SeenFrames;
    InitTunnelInv(clientID, serverID, auth);
    RunCuts(Init(clientID, serverID, auth), es, auth);
  }

  // ---- The client's session inside a run of the tunnel ----

  lemma NextSession(t: State, e: Event) returns (acts: seq<Action>)
    ensures Next(t, e).client.session == Run(t.client.session, acts)
  {
    hide Perform, Handle, SH.HandleFrame, SH.React, Step;
    acts := [];
    match e
    case ClientActs(a) => acts := PerformSession(t.client, a);
    case ClientReads(room) =>
      if t.down < |t.server.session.wire| && !t.client.stopped && t.client.reader.Reading? {
        acts := HandleSession(t.client, DownFrame(t), room);
      }
    case _ =>
  }

  lemma PerformSession(c: Client, a: Act) returns (acts: seq<Action>)
    ensures Perform(c, a).session == Run(c.session, acts)
  {
    hide Step, Run, PushControl, PushData, Fifo.Accepts, OpenFrame, CloseFrame, DataFrame, UdpDataFrame;
    acts := [];
    RunOne(c.session, StopHeartbeat);
    StepNames(c.session);
    if a.Loops? && !a.action.QueueControl? && !a.action.QueueData? {
      acts := [a.action];
      RunOne(c.session, a.action);
    } else if a.QueueOpen? && At(c, a.k, ResultStored)
              && c.session.control.Accepts(OpenFrame(c.openers[a.k], a.address)) {
      acts := [QueueControl(OpenFrame(c.openers[a.k], a.address))];
      RunOne(c.session, acts[0]);
    } else if a.SendData? && MayOffer(c, a.k, a.payload) {
      acts := [QueueData(DataFrame(c.openers[a.k].id, a.payload))];
      RunOne(c.session, acts[0]);
    } else if a.SendUdp? && MaySendUdp(c, a.k, a.data) {
      var d := RequestDatagram(a.data, a.datagramID, a.nowMS);
      acts := [QueueData(UdpDataFrame(c.openers[a.k].id, d))];
      RunOne(c.session, acts[0]);
    } else if a.SendClose? && At(c, a.k, Opened) && c.openers[a.k].kind.Tcp? {
      acts := [QueueControl(CloseFrame(c.openers[a.k].id))];
      RunOne(c.session, acts[0]);
    } else {
      QuietAct(c, a);
    }
  }

  lemma QuietAct(c: Client, a: Act)
    requires !a.Loops? || a.action.QueueControl? || a.action.QueueData?
    requires a.QueueOpen? && At(c, a.k, ResultStored) ==>
               !c.session.control.Accepts(OpenFrame(c.openers[a.k], a.address))
    requires a.SendData? ==> !MayOffer(c, a.k, a.payload)
    requires a.SendUdp? ==> !MaySendUdp(c, a.k, a.data)
    requires a.SendClose? ==> !At(c, a.k, Opened) || c.openers[a.k].kind.Udp?
    ensures Perform(c, a).session == c.session
  {
    hide Step, PushControl, PushData, Fifo.Accepts, OpenFrame;
  }

  lemma HandleSession(c: Client, f: Frame, room: nat) returns (acts: seq<Action>)
    ensures Handle(c, f, room).session == Run(c.session, acts)
  {
    hide Step, PushControl, Fifo.Accepts, DecodeDatagram;
    var pong := QueueControl(ZERO_FRAME.(kind := PONG));
    acts := if f.kind == PING then [pong] else [];
    RunOne(c.session, pong);
    StepNames(c.session);
  }

  lemma RunOne(s: Session, a: Action)
    ensures Run(s, [a]) == Step(s, a) && Run(s, []) == s
  {
    hide Step;
    assert [a][1..] == [];
    assert Run(Step(s, a), []) == Step(s, a);
  }

  lemma StepNames(s: Session)
    ensures forall f :: Step(s, QueueControl(f)) == PushControl(s, f)
    ensures forall f :: Step(s, QueueData(f)) == PushData(s, f)
  {
    hide PushControl, PushData;
  }

  lemma {:induction false} SessionRun(t: State, es: seq<Event>) returns (acts: seq<Action>)
    ensures RunTunnel(t, es).client.session == Run(t.client.session, acts)
    decreases |es|
  {
    hide Next, Step;
    acts := [];
    if es != [] {
      var first := NextSession(t, es[0]);
      var rest := SessionRun(Next(t, es[0]), es[1..]);
      RunAppend(t.client.session, first, rest);
      acts := first + rest;
    }
  }

  // ---- After its close was offered a channel sends no more data ----

  predicate Hung(c: Client, k: nat) {
    k < |c.openers| && (c.openers[k].stage.CloseSent? || c.openers[k].stage.Finished?)
  }

  lemma HungStage(c: Client, a: Act, k: nat)
    requires Hung(c, k)
    ensures Hung(Perform(c, a), k)
  {
    hide Step, PushControl, PushData, Fifo.Accepts, OpenFrame, CloseFrame, DataFrame, UdpDataFrame;
  }

  lemma HungStep(t: State, e: Event, auth: Auth, k: nat)
    requires TunnelInv(t, auth) && Hung(t.client, k)
    ensures var u, id := Next(t, e), t.client.openers[k].id;
            && Hung(u.client, k) && u.client.openers[k].id == id
            && u.client.openers[k].kind == t.client.openers[k].kind
            && DataOf(u.client.session.acceptedData, id) == DataOf(t.client.session.acceptedData, id)
  {
    hide Inv, KindsInv, AllSentOk, Rendezvous, Upstream, Accounts, ServerSent, GrantsCounted, Downstream, SP.Opens,
      Perform, Handle, DataOf, IdsInv, SH.HandleFrame, SH.React;
    match e
    case ClientActs(a) =>
      HungStage(t.client, a, k);
      PerformGrows(t.client, a);
      HungData(t.client, a, k);
    case ClientReads(room) =>
      if t.down < |t.server.session.wire| {
        HandleKeepsQueues(t.client, DownFrame(t), room);
        HandleStages(t.client, DownFrame(t), room);
      }
    case _ =>
  }

  lemma HandleStages(c: Client, f: Frame, room: nat)
    ensures var d := Handle(c, f, room);
            |d.openers| == |c.openers| && forall k :: 0 <= k < |c.openers| ==> d.openers[k].stage == c.openers[k].stage
  {
    hide Fifo.Accepts, PushControl, DecodeDatagram;
  }

  lemma HungData(c: Client, a: Act, k: nat)
    requires IdsInv(c) && |c.openers| <= TWO_32 && Hung(c, k)
    ensures DataOf(Perform(c, a).session.acceptedData, c.openers[k].id)
            == DataOf(c.session.acceptedData, c.openers[k].id)
  {
    hide Perform, DataOf, IdsInv;
    var f := PerformData(c, a);
    DataSnoc(c.session.acceptedData, f, c.openers[k].id);
    if f.kind == TCPDATA && f.channelID == c.openers[k].id {
      IdsDistinct(c, a.k, k);
    }
  }

  lemma {:induction false} HungRun(t: State, es: seq<Event>, auth: Auth, k: nat)
    requires TunnelInv(t, auth) && Hung(t.client, k) && |RunTunnel(t, es).client.openers| <= TWO_32
    ensures var u, id := RunTunnel(t, es), t.client.openers[k].id;
            && k < |u.client.openers| && u.client.openers[k].id == id
            && u.client.openers[k].kind == t.client.openers[k].kind
            && DataOf(u.client.session.acceptedData, id) == DataOf(t.client.session.acceptedData, id)
    decreases |es|
  {
    hide TunnelInv, Next, DataOf, Hung;
    if es != [] {
      OpenersGrowInRun(Next(t, es[0]), es[1..]);
      NextInv(t, es[0], auth);
      HungStep(t, es[0], auth, k);
      HungRun(Next(t, es[0]), es[1..], auth, k);
    }
    HungExists(t.client, k);
  }

  lemma HungExists(c: Client, k: nat)
    ensures Hung(c, k) ==> k < |c.openers|
  {
  }

  // ---- Where the close stands on the client's wire ----

  /** The data frames accepted so far that are bound to go before a control frame accepted now: those the writer has
      popped, and the oldest queued one if the writer has found control empty. */
  function BoundToPrecede(s: Session): seq<Frame>
    requires |s.data.items| <= |s.acceptedData|
  {
    s.acceptedData[..Min(PoppedData(s) + (if s.writer.ControlEmpty? then 1 else 0), |s.acceptedData|)]
  }

  lemma QueuedWithin(s: Session)
    requires Inv(s)
    ensures |s.data.items| <= |s.acceptedData|
  {
  }

  /** Of frames that mark a channel closed at most one was accepted, so the one on the wire is the one queued here. */
  lemma OneClose(control: seq<Frame>, i: nat, j: nat, channel: uint32)
    requires i < |control| && j < |control| && Count(control, CloseMark, channel) <= 1
    requires Marks(control[i], CloseMark, channel) && Marks(control[j], CloseMark, channel)
    ensures i == j
  {
    if i < j {
      TwoMarks(control, i, j, channel);
    } else if j < i {
      TwoMarks(control, j, i, channel);
    }
  }

  lemma {:induction false} TwoMarks(fs: seq<Frame>, i: nat, j: nat, channel: uint32)
    requires i < j < |fs| && Marks(fs[i], CloseMark, channel) && Marks(fs[j], CloseMark, channel)
    ensures Count(fs, CloseMark, channel) >= 2
    decreases |fs|
  {
    if j == |fs| - 1 {
      CountPositive(fs[..j], i, CloseMark, channel);
    } else {
      TwoMarks(fs[..|fs| - 1], i, j, channel);
    }
  }

  /** The frames counted on both sides agree, and the channel got no data since. */
  lemma SameBytes(before: seq<Frame>, after: seq<Frame>, b: nat, n: int, channel: uint32)
    requires before <= after && b <= |after| && 0 <= n && Agree(b, n, |before|)
    requires DataOf(after, channel) == DataOf(before, channel)
    ensures DataOf(after[..b], channel) == DataOf(before[..Min(n, |before|)], channel)
  {
    hide DataOf;
    if n < |before| {
      assert after[..b] == before[..n];
    } else {
      assert before[..|before|] == before && before <= after[..b];
      DataPrefix(before, after[..b], channel);
      DataPrefix(after[..b], after, channel);
    }
  }

  /** The data seen ahead of a position of the wire. */
  lemma SeenAhead(s: Session, p: nat, channel: uint32)
    requires Inv(s) && NoControlData(s) && p <= |s.wire|
    ensures Written(s.wire[..p], Data) <= s.acceptedData
    ensures DataOf(SeenFrames(s, p), channel) == DataOf(Written(s.wire[..p], Data), channel)
  {
    hide Inv, Written, DataOf, WireFrames;
    SeenFaithful(s, p);
    assert Written(s.wire[..p], Control) <= Accepted(s, Control);
    assert Written(s.wire[..p], Data) <= Accepted(s, Data);
    DataWire(s.wire[..p], channel);
  }

  /** The first close of a channel on the wire, and what stands before it. */
  lemma FirstClose(s: Session, n: nat, channel: uint32) returns (p: nat)
    requires n <= |s.wire| && HasKind(SeenFrames(s, n), TCPCLOSE, channel)
    ensures p < n && s.wire[p].stamped.kind == TCPCLOSE && s.wire[p].stamped.channelID == channel
    ensures DataBefore(SeenFrames(s, n), TCPCLOSE, channel) == DataOf(SeenFrames(s, p), channel)
  {
    hide DataOf, DataBefore;
    p := n - 1;
    if HasKind(SeenFrames(s, n - 1), TCPCLOSE, channel) {
      p := FirstClose(s, n - 1, channel);
      SeenSnoc(s, n - 1);
      BeforeSnoc(SeenFrames(s, n - 1), s.wire[n - 1].stamped, TCPCLOSE, channel);
    } else {
      SeenSnoc(s, n - 1);
      BeforeSnoc(SeenFrames(s, n - 1), s.wire[n - 1].stamped, TCPCLOSE, channel);
      DataSnoc(SeenFrames(s, n - 1), s.wire[n - 1].stamped, channel);
    }
  }

  lemma SeenSnoc(s: Session, n: nat)
    requires n < |s.wire|
    ensures SeenFrames(s, n + 1) == SeenFrames(s, n) + [s.wire[n].stamped]
  {
    WireFramesSnoc(s.wire, n);
  }

  /** The close found on the wire is the one queued in s, so what stands before it is known. */
  lemma CloseStands(s: Session, acts: seq<Action>, p: nat, id: uint32)
    requires Inv(s) && s.control.Accepts(CloseFrame(id))
    requires var w := Run(Step(s, QueueControl(CloseFrame(id))), acts);
             && p < |w.wire| && w.wire[p].origin == Control && Marks(w.wire[p].original, CloseMark, id)
             && Count(w.acceptedControl, CloseMark, id) <= 1
    ensures var w := Run(Step(s, QueueControl(CloseFrame(id))), acts);
            && Inv(w) && s.acceptedData <= w.acceptedData
            && Agree(|Written(w.wire[..p], Data)|, PoppedData(s) + (if s.writer.ControlEmpty? then 1 else 0),
                     |s.acceptedData|)
  {
    hide Run, Written, PayloadBytes, Placed, Counted, WireFaithful, Count;
    var c := CloseFrame(id);
    var t := Step(s, QueueControl(c));
    var k, m := |s.acceptedControl|, |s.acceptedData|;
    var n := PoppedData(s) + if s.writer.ControlEmpty? then 1 else 0;
    StepInv(s, QueueControl(c));
    RunPlaces(t, acts, k, n, m);
    var w := Run(t, acts);
    ControlPlace(w, p);
    assert w.acceptedControl[k] == c;
    OneClose(w.acceptedControl, |Written(w.wire[..p], Control)|, k, id);
    PlacedAt(w.wire, p, k, n, m);
  }

  lemma WireClose(u: State, p: nat, id: uint32)
    requires Base(u) && p < |u.client.session.wire|
    requires u.client.session.wire[p].stamped.kind == TCPCLOSE && u.client.session.wire[p].stamped.channelID == id
    ensures u.client.session.wire[p].origin == Control && Marks(u.client.session.wire[p].original, CloseMark, id)
    ensures Count(u.client.session.acceptedControl, CloseMark, id) <= 1 && NoControlData(u.client.session)
  {
    hide Inv, IdsInv, Rendezvous, Count;
    var s := u.client.session;
    var i := SeenNext(s, p);
    assert s.wire[p].origin == Data ==> DataKind(s.acceptedData[i]);
    assert SentOk(s.acceptedControl, u.client.openers, CloseMark, id);
    assert forall i :: 0 <= i < |s.acceptedControl| ==> ControlKind(s.acceptedControl[i]);
  }

  lemma CutAt(s: Session, u: State, acts: seq<Action>, id: uint32)
    requires Inv(s) && s.control.Accepts(CloseFrame(id)) && Base(u)
    requires u.client.session == Run(Step(s, QueueControl(CloseFrame(id))), acts)
    requires DataOf(u.client.session.acceptedData, id) == DataOf(s.acceptedData, id)
    requires CutInv(u) && id in u.released && id in u.server.handler.targets
    ensures |s.data.items| <= |s.acceptedData| && u.server.handler.targets[id] == DataOf(BoundToPrecede(s), id)
  {
    hide Run, Step, DataOf, DataBefore, HasKind, Inv, ClientInv, SeenFrames, Written, Count, Marks;
    var w := u.client.session;
    QueuedWithin(s);
    assert CutOk(u.server.handler, u.released, UpSeen(u), id);
    var p := FirstClose(w, u.up, id);
    WireClose(u, p, id);
    CloseStands(s, acts, p, id);
    SeenAhead(w, p, id);
    var b := |Written(w.wire[..p], Data)|;
    assert Written(w.wire[..p], Data) == w.acceptedData[..b];
    SameBytes(s.acceptedData, w.acceptedData, b, PoppedData(s) + (if s.writer.ControlEmpty? then 1 else 0), id);
  }

  /** End to end: what a client's close cuts off.  Take any reachable state in which the close of an open TCP channel
      is accepted, and any continuation in which the server has handled that close without an earlier failure.  The
      target has then, for good, exactly the channel's data among the frames the writer had popped before the close was
      accepted and the one it was then committed to; all data accepted behind that is lost. */
  lemma CloseCutsExactly(clientID: uint32, serverID: uint32, auth: Auth, before: seq<Event>, t: State, k: nat,
                         es: seq<Event>, u: State)
    requires Reaches(clientID, serverID, auth, before, t)
    requires At(t.client, k, Opened) && t.client.openers[k].kind.Tcp?
    requires t.client.session.control.Accepts(CloseFrame(t.client.openers[k].id))
    requires u == RunTunnel(Next(t, ClientActs(SendClose(k))), es) && |u.client.openers| <= TWO_32
    requires t.client.openers[k].id in u.released
    ensures var s, id := t.client.session, t.client.openers[k].id;
            && |s.data.items| <= |s.acceptedData| && id in u.server.handler.targets
            && u.server.handler.targets[id] == DataOf(BoundToPrecede(s), id)
  {
    hide TunnelInv, RelayInv, RunTunnel, Next, DataOf, Run, Step, SeenFrames, HasKind, DataBefore, CutInv;
    var s, id := t.client.session, t.client.openers[k].id;
    var t1, all := Next(t, ClientActs(SendClose(k))), before + [ClientActs(SendClose(k))] + es;
    ReachesOn(clientID, serverID, auth, before, t, ClientActs(SendClose(k)), es);
    ReachedInv(clientID, serverID, auth, before, t);
    ReachedInv(clientID, serverID, auth, before + [ClientActs(SendClose(k))], t1);
    ReachedInv(clientID, serverID, auth, all, u);
    ReachedRelays(clientID, serverID, auth, all, u);
    ReachedCuts(clientID, serverID, auth, all, u);
    CloseQueued(t, k);
    HungRun(t1, es, auth, k);
    DialedTarget(u, auth, k, id);
    var acts := SessionRun(t1, es);
    InvOf(t, auth);
    InvOf(u, auth);
    CutAt(s, u, acts, id);
  }

  lemma InvOf(t: State, auth: Auth)
    requires TunnelInv(t, auth)
    ensures Base(t) && Inv(t.client.session)
  {
  }

  /** Reachability goes on. */
  lemma ReachesOn(clientID: uint32, serverID: uint32, auth: Auth, before: seq<Event>, t: State,
                  e: Event, es: seq<Event>)
    requires Reaches(clientID, serverID, auth, before, t)
    requires |RunTunnel(Next(t, e), es).client.openers| <= TWO_32
    ensures Reaches(clientID, serverID, auth, before + [e], Next(t, e))
    ensures Reaches(clientID, serverID, auth, before + [e] + es, RunTunnel(Next(t, e), es))
  {
    hide RunTunnel, Next;
    var start := Init(clientID, serverID, auth);
    TunnelAppend(start, before, [e]);
    TunnelOne(t, e);
    TunnelAppend(start, before + [e], es);
    OpenersGrowInRun(Next(t, e), es);
  }

  lemma CloseQueued(t: State, k: nat)
    requires At(t.client, k, Opened) && t.client.openers[k].kind.Tcp?
    requires t.client.session.control.Accepts(CloseFrame(t.client.openers[k].id))
    ensures var u := Next(t, ClientActs(SendClose(k)));
            && u.client.session == Step(t.client.session, QueueControl(CloseFrame(t.client.openers[k].id)))
            && Hung(u.client, k) && u.client.openers[k].id == t.client.openers[k].id
            && u.client.openers[k].kind.Tcp?
            && u.client.session.acceptedData == t.client.session.acceptedData
  {
    hide Fifo.Accepts;
  }

  lemma DialedTarget(u: State, auth: Auth, k: nat, id: uint32)
    requires TunnelInv(u, auth) && RelayInv(u) && id in u.released
    requires k < |u.client.openers| && u.client.openers[k].id == id && u.client.openers[k].kind.Tcp?
    ensures id in u.server.handler.targets
  {
    hide Base, Upstream, ServerSent, GrantsCounted, Downstream, SP.Opens, Count;
  }
}
