/** What a client asks for is what the server acts on: the token and nonce it validates, and the address and the kind
    of every channel it dials. */
module TunnelDials {
  import opened Bytes
  import opened FrameCodec
  import opened FrameQueues
  import opened SessionSystem
  import SP = SessionProperties
  import opened Messages
  import opened TunnelClient
  import opened TunnelFrames
  import opened TunnelClientInv
  import opened Tunnel
  import opened TunnelInvariant
  import opened TunnelTheorems
  import opened TunnelRelays
  import SH = ServerHandler

  // ---- What the client sends ----

  predicate Opens(f: Frame) {
    f.kind == OPENTCP || f.kind == OPENUDP
  }

  /** An open frame carries the address that was asked for, in the form for its kind of channel. */
  ghost predicate OpenSent(f: Frame, openers: seq<Opener>, asked: map<uint32, seq<byte>>) {
    Opens(f) ==>
      && f.channelID in asked && f.payload == EncodeAddress(asked[f.channelID])
      && forall k :: 0 <= k < |openers| && openers[k].id == f.channelID ==>
         (openers[k].kind.Tcp? <==> f.kind == OPENTCP)
  }

  ghost predicate OpensSent(control: seq<Frame>, openers: seq<Opener>, asked: map<uint32, seq<byte>>) {
    forall i :: 0 <= i < |control| ==> OpenSent(control[i], openers, asked)
  }

  ghost predicate AskedFor(openers: seq<Opener>, asked: map<uint32, seq<byte>>) {
    forall channel :: channel in asked ==> MarkedBy(openers, OpenMark, channel)
  }

  /** The one AUTH frame carries the client's token and nonce. */
  ghost predicate AuthSent(control: seq<Frame>, auth: Auth) {
    forall i :: 0 <= i < |control| && control[i].kind == AUTH ==> control[i].payload == EncodeAuth(auth)
  }

  // ---- What the server has done ----

  /** An effect fits what the client asked for. */
  ghost predicate EffectOk(e: SH.Effect, openers: seq<Opener>, asked: map<uint32, seq<byte>>, auth: Auth) {
    match e
    case Dialed(net, channel, address, _) =>
      && channel in asked && address == asked[channel] && |address| <= MAX_PAYLOAD_LEN - 2
      && forall k :: 0 <= k < |openers| && openers[k].id == channel ==> (openers[k].kind.Tcp? <==> net == SH.TcpNet)
    case Validated(a, _) => a == auth
    case _ => true
  }

  ghost predicate EffectsOk(trace: seq<SH.Effect>, openers: seq<Opener>, asked: map<uint32, seq<byte>>, auth: Auth) {
    forall i :: 0 <= i < |trace| ==> EffectOk(trace[i], openers, asked, auth)
  }

  ghost predicate DialInv(t: State, auth: Auth) {
    && OpensSent(t.client.session.acceptedControl, t.client.openers, t.asked)
    && AskedFor(t.client.openers, t.asked)
    && AuthSent(t.client.session.acceptedControl, auth)
    && EffectsOk(t.server.handler.trace, t.client.openers, t.asked, auth)
  }

  lemma InitDials(clientID: uint32, serverID: uint32, auth: Auth)
    ensures DialInv(Init(clientID, serverID, auth), auth)
  {
    hide Fifo.Accepts;
  }

  // ---- Steps of the client ----

  /** What a client step adds to the control queue, by kind. */
  lemma PerformOpens(c: Client, a: Act) returns (f: Frame)
    requires KindsInv(c.session)
    ensures var d := Perform(c, a);
            d.session.acceptedControl == c.session.acceptedControl
            || d.session.acceptedControl == c.session.acceptedControl + [f]
    ensures f.kind != AUTH && f.kind != PONG
    ensures Opens(f) ==>
              && a.QueueOpen? && At(c, a.k, ResultStored) && f.channelID == c.openers[a.k].id
              && f.payload == EncodeAddress(a.address) && (f.kind == OPENTCP <==> c.openers[a.k].kind.Tcp?)
  {
    hide Step, Fifo.Accepts;
    f := ZERO_FRAME;
    match a
    case Loops(action) =>
      if !action.QueueControl? && !action.QueueData? {
        InternalAccepts(c.session, action);
        if c.session.heartbeat.Holding? { f := c.session.heartbeat.ping; }
      }
    case QueueOpen(k, address) => if At(c, k, ResultStored) { f := OpenFrame(c.openers[k], address); }
    case SendClose(k) => if At(c, k, Opened) { f := CloseFrame(c.openers[k].id); }
    case _ =>
  }

  /** Channels asked for before keep what was asked, because an opener asks once. */
  lemma AskedOnce(c: Client, a: Act, asked: map<uint32, seq<byte>>)
    requires IdsInv(c) && |c.openers| <= TWO_32 && AskedFor(c.openers, asked)
    requires a.QueueOpen? && At(c, a.k, ResultStored)
    ensures c.openers[a.k].id !in asked
  {
    hide IdsInv;
    var id := c.openers[a.k].id;
    if id in asked {
      var j :| 0 <= j < |c.openers| && c.openers[j].id == id && Marker(OpenMark, c.openers[j]);
      IdsDistinct(c, j, a.k);
    }
  }

  /** New openers have new ids, so nothing known of asked channels changes. */
  lemma StaysSent(c: Client, d: Client, f: Frame, asked: map<uint32, seq<byte>>, more: map<uint32, seq<byte>>)
    requires IdsInv(d) && |d.openers| <= TWO_32 && Grows(c.openers, d.openers) && AskedFor(c.openers, asked)
    requires OpenSent(f, c.openers, asked)
    requires forall channel :: channel in asked ==> channel in more && more[channel] == asked[channel]
    ensures OpenSent(f, d.openers, more)
  {
    hide IdsInv;
    if Opens(f) {
      var j :| 0 <= j < |c.openers| && c.openers[j].id == f.channelID && Marker(OpenMark, c.openers[j]);
      forall k | 0 <= k < |d.openers| && d.openers[k].id == f.channelID
        ensures k == j
      {
        IdsDistinct(d, j, k);
      }
    }
  }

  lemma StaysOk(c: Client, d: Client, e: SH.Effect, auth: Auth, asked: map<uint32, seq<byte>>,
                more: map<uint32, seq<byte>>)
    requires IdsInv(d) && |d.openers| <= TWO_32 && Grows(c.openers, d.openers) && AskedFor(c.openers, asked)
    requires EffectOk(e, c.openers, asked, auth)
    requires forall channel :: channel in asked ==> channel in more && more[channel] == asked[channel]
    ensures EffectOk(e, d.openers, more, auth)
  {
    hide IdsInv;
    if e.Dialed? {
      var j :| 0 <= j < |c.openers| && c.openers[j].id == e.channel && Marker(OpenMark, c.openers[j]);
      forall k | 0 <= k < |d.openers| && d.openers[k].id == e.channel
        ensures k == j
      {
        IdsDistinct(d, j, k);
      }
    }
  }

  lemma AskedGrows(c: Client, d: Client, asked: map<uint32, seq<byte>>)
    requires Grows(c.openers, d.openers) && AskedFor(c.openers, asked)
    ensures AskedFor(d.openers, asked)
  {
    hide MarkedBy, Grows;
    forall channel | channel in asked
      ensures MarkedBy(d.openers, OpenMark, channel)
    {
      MarkedGrows(c.openers, d.openers, OpenMark, channel);
    }
  }

  lemma AskingMarks(c: Client, k: nat, address: seq<byte>)
    requires At(c, k, ResultStored)
    ensures MarkedBy(Perform(c, QueueOpen(k, address)).openers, OpenMark, c.openers[k].id)
  {
    hide Fifo.Accepts;
    var d := Perform(c, QueueOpen(k, address));
    assert d.openers[k].id == c.openers[k].id && Marker(OpenMark, d.openers[k]);
  }

  lemma NewOpenSent(c: Client, d: Client, a: Act, f: Frame, asked: map<uint32, seq<byte>>)
    requires IdsInv(d) && |d.openers| <= TWO_32 && Grows(c.openers, d.openers)
    requires Opens(f) ==>
               && a.QueueOpen? && At(c, a.k, ResultStored) && f.channelID == c.openers[a.k].id
               && f.payload == EncodeAddress(a.address) && (f.kind == OPENTCP <==> c.openers[a.k].kind.Tcp?)
               && f.channelID in asked && asked[f.channelID] == a.address
    ensures OpenSent(f, d.openers, asked)
  {
    hide IdsInv;
    if Opens(f) {
      forall k | 0 <= k < |d.openers| && d.openers[k].id == f.channelID
        ensures k == a.k
      {
        IdsDistinct(d, k, a.k);
      }
    }
  }

  lemma ClientActsDials(t: State, a: Act, auth: Auth)
    requires TunnelInv(t, auth) && DialInv(t, auth) && |ClientActStep(t, a).client.openers| <= TWO_32
    ensures DialInv(ClientActStep(t, a), auth)
  {
    hide Perform, Inv, IdsInv, KindsInv, AllSentOk, Rendezvous, Upstream, Accounts, ServerSent, GrantsCounted,
      Downstream, SP.Opens, OpenSent, EffectOk, AskedFor, Grows;
    var c, d, u := t.client, Perform(t.client, a), ClientActStep(t, a);
    PerformGrows(c, a);
    PerformIds(c, a);
    AskedGrows(c, d, t.asked);
    if a.QueueOpen? && At(c, a.k, ResultStored) {
      AskedOnce(c, a, t.asked);
      AskingMarks(c, a.k, a.address);
      AskedMore(d.openers, t.asked, c.openers[a.k].id, a.address);
    }
    var f := PerformOpens(c, a);
    NewOpenSent(c, d, a, f, u.asked);
    forall i | 0 <= i < |c.session.acceptedControl|
      ensures OpenSent(c.session.acceptedControl[i], d.openers, u.asked)
    {
      StaysSent(c, d, c.session.acceptedControl[i], t.asked, u.asked);
    }
    forall i | 0 <= i < |t.server.handler.trace|
      ensures EffectOk(t.server.handler.trace[i], d.openers, u.asked, auth)
    {
      StaysOk(c, d, t.server.handler.trace[i], auth, t.asked, u.asked);
    }
  }

  lemma AskedMore(openers: seq<Opener>, asked: map<uint32, seq<byte>>, channel: uint32, address: seq<byte>)
    requires AskedFor(openers, asked) && MarkedBy(openers, OpenMark, channel)
    ensures AskedFor(openers, asked[channel := address])
  {
    hide MarkedBy;
  }

  // ---- Frames from the server ----

  lemma HandleNames(c: Client, f: Frame, room: nat)
    ensures var d := Handle(c, f, room);
            && |d.openers| == |c.openers|
            && forall k :: 0 <= k < |c.openers| ==>
                 && d.openers[k].id == c.openers[k].id && d.openers[k].kind == c.openers[k].kind
                 && d.openers[k].stage == c.openers[k].stage
  {
    hide Fifo.Accepts, PushControl, DecodeDatagram, DeliverPacket;
    PacketTouches(c, f, room);
  }

  lemma SameNames(before: seq<Opener>, after: seq<Opener>, asked: map<uint32, seq<byte>>)
    requires |after| == |before|
    requires forall k :: 0 <= k < |before| ==>
               after[k].id == before[k].id && after[k].kind == before[k].kind && after[k].stage == before[k].stage
    ensures AskedFor(before, asked) ==> AskedFor(after, asked)
    ensures forall f :: OpenSent(f, before, asked) ==> OpenSent(f, after, asked)
    ensures forall e, auth :: EffectOk(e, before, asked, auth) ==> EffectOk(e, after, asked, auth)
  {
    forall channel | AskedFor(before, asked) && channel in asked
      ensures MarkedBy(after, OpenMark, channel)
    {
      var k :| 0 <= k < |before| && before[k].id == channel && Marker(OpenMark, before[k]);
      assert after[k].id == channel && Marker(OpenMark, after[k]);
    }
  }

  lemma ClientReadsDials(t: State, room: nat, auth: Auth)
    requires DialInv(t, auth)
    ensures DialInv(ClientReadStep(t, room), auth)
  {
    hide Handle, AskedFor, EffectOk, OpenSent;
    if t.down < |t.server.session.wire| {
      HandleKeepsQueues(t.client, DownFrame(t), room);
      HandleNames(t.client, DownFrame(t), room);
      SameNames(t.client.openers, Handle(t.client, DownFrame(t), room).openers, t.asked);
      PongOpens(t.client.openers, t.asked);
    }
  }

  lemma PongOpens(openers: seq<Opener>, asked: map<uint32, seq<byte>>)
    ensures OpenSent(ZERO_FRAME.(kind := PONG), openers, asked)
  {
  }

  // ---- Frames from the client ----

  /** What a frame adds to the trace. */
  ghost predicate Adds(f: Frame, before: seq<SH.Effect>, after: seq<SH.Effect>) {
    && before <= after
    && forall i :: |before| <= i < |after| ==> FromFrame(f, after[i])
  }

  ghost predicate FromFrame(f: Frame, e: SH.Effect) {
    match e
    case Dialed(net, channel, address, _) =>
      && f.kind == (if net == SH.TcpNet then OPENTCP else OPENUDP) && channel == f.channelID
      && DecodeAddress(f.payload) == Success(address)
    case Validated(a, _) => f.kind == AUTH && DecodeAuth(f.payload) == Success(a)
    case _ => true
  }

  lemma AuthEffects(v: SH.Server, f: Frame, env: SH.Env)
    requires f.kind == AUTH
    ensures Adds(f, v.handler.trace, SH.HandleAuth(v, f, env).handler.trace)
  {
    hide PushControl, DecodeAuth;
  }

  lemma OpenEffects(v: SH.Server, f: Frame, env: SH.Env)
    ensures f.kind == OPENTCP ==> Adds(f, v.handler.trace, SH.HandleOpenTCP(v, f, env).handler.trace)
    ensures f.kind == OPENUDP ==> Adds(f, v.handler.trace, SH.HandleOpenUDP(v, f, env).handler.trace)
  {
    hide PushControl, DecodeAddress;
  }

  lemma OtherFrameEffects(v: SH.Server, f: Frame, env: SH.Env)
    ensures Adds(f, v.handler.trace, SH.HandleTCPData(v, f, env).handler.trace)
    ensures Adds(f, v.handler.trace, SH.HandleUDPData(v, f, env).handler.trace)
    ensures Adds(f, v.handler.trace, SH.HandleTCPClose(v, f).handler.trace)
    ensures Adds(f, v.handler.trace, SH.HandleUDPClose(v, f).handler.trace)
  {
    hide DecodeDatagram;
  }

  lemma HandleEffects(v: SH.Server, f: Frame, env: SH.Env)
    requires SH.Ready(v)
    ensures Adds(f, v.handler.trace, SH.HandleFrame(v, f, env).handler.trace)
  {
    hide PushControl, SH.HandleAuth, SH.HandleOpenTCP, SH.HandleOpenUDP, SH.HandleTCPData, SH.HandleUDPData,
      SH.HandleTCPClose, SH.HandleUDPClose, FromFrame;
    OpenEffects(v, f, env);
    OtherFrameEffects(v, f, env);
    if f.kind == AUTH {
      AuthEffects(v, f, env);
    }
  }

  /** An open or an AUTH on the client's wire has the payload that was queued. */
  lemma WireAsks(t: State, auth: Auth)
    requires Base(t) && DialInv(t, auth) && t.up < |t.client.session.wire|
    ensures Opens(UpFrame(t)) ==>
              && OpenSent(UpFrame(t), t.client.openers, t.asked) && |UpFrame(t).payload| <= MAX_PAYLOAD_LEN
    ensures UpFrame(t).kind == AUTH ==>
              UpFrame(t).payload == EncodeAuth(auth) && |UpFrame(t).payload| <= MAX_PAYLOAD_LEN
  {
    hide Merged, Counted, Rendezvous, AllSentOk, IdsInv, AskedFor, EffectsOk;
    var s := t.client.session;
    var i := SeenNext(s, t.up);
    var x := s.wire[t.up];
    assert Encodable(x.stamped);
    assert x.origin == Control ==> OpenSent(s.acceptedControl[i], t.client.openers, t.asked);
    assert x.origin == Data ==> DataKind(s.acceptedData[i]);
  }

  /** Addresses and tokens that fit a frame come out as they went in. */
  lemma FitsDecodes(address: seq<byte>, auth: Auth)
    ensures |EncodeAddress(address)| <= MAX_PAYLOAD_LEN ==>
              DecodeAddress(EncodeAddress(address)) == Success(address) && |address| <= MAX_PAYLOAD_LEN - 2
    ensures |EncodeAuth(auth)| <= MAX_PAYLOAD_LEN ==> DecodeAuth(EncodeAuth(auth)) == Success(auth)
  {
    AddressRoundTrip(address, []);
    AuthRoundTrip(auth, []);
    assert EncodeAddress(address) + [] == EncodeAddress(address) && EncodeAuth(auth) + [] == EncodeAuth(auth);
  }

  lemma ServerReadsDials(t: State, env: SH.Env, auth: Auth)
    requires TunnelInv(t, auth) && DialInv(t, auth)
    ensures DialInv(ServerReadStep(t, env), auth)
  {
    hide SH.HandleFrame, Inv, ClientInv, Upstream, Accounts, ServerSent, GrantsCounted, Downstream, SP.Opens,
      AskedFor, EncodeAddress, EncodeAuth, DecodeAuth, DecodeAddress;
    if t.up < |t.client.session.wire| && SH.Ready(t.server) {
      var f := UpFrame(t);
      WireAsks(t, auth);
      HandleEffects(t.server, f, env);
      var before, after := t.server.handler.trace, SH.HandleFrame(t.server, f, env).handler.trace;
      forall i | 0 <= i < |after|
        ensures EffectOk(after[i], t.client.openers, t.asked, auth)
      {
        if i < |before| {
          assert after[i] == before[i];
        } else {
          assert FromFrame(f, after[i]);
          NewEffect(after[i], f, t.client.openers, t.asked, auth);
        }
      }
    }
  }

  lemma NewEffect(e: SH.Effect, f: Frame, openers: seq<Opener>, asked: map<uint32, seq<byte>>, auth: Auth)
    requires e.Dialed? ==>
               && f.kind == (if e.net == SH.TcpNet then OPENTCP else OPENUDP) && e.channel == f.channelID
               && DecodeAddress(f.payload) == Success(e.address)
               && OpenSent(f, openers, asked) && |f.payload| <= MAX_PAYLOAD_LEN
    requires e.Validated? ==>
               && DecodeAuth(f.payload) == Success(e.auth)
               && f.payload == EncodeAuth(auth) && |f.payload| <= MAX_PAYLOAD_LEN
    ensures EffectOk(e, openers, asked, auth)
  {
    hide EncodeAddress, EncodeAuth, DecodeAuth, DecodeAddress;
    FitsDecodes(if e.Dialed? then asked[e.channel] else [], auth);
  }

  // ---- The server's other steps ----

  lemma OtherEffects(v: SH.Server, w: SH.Server, e: SH.Event)
    requires !e.Receive? && w == SH.React(v, e)
    ensures v.handler.trace <= w.handler.trace
    ensures forall i :: |v.handler.trace| <= i < |w.handler.trace| ==>
              !w.handler.trace[i].Dialed? && !w.handler.trace[i].Validated?
  {
    hide PushControl, PushData, Step;
  }

  lemma OtherDials(t: State, e: Event, auth: Auth)
    requires DialInv(t, auth) && (e.ServerAnswers? || e.ServerActs?)
    ensures DialInv(Next(t, e), auth)
  {
    hide SH.React, SH.FinishOpen, OpensSent, AskedFor, AuthSent;
    var ev := if e.ServerActs? then e.event else SH.Answer;
    if !ev.Receive? && !(e.ServerActs? && ev.Answer?) {
      AnswerIsFinish(t.server);
      OtherEffects(t.server, SH.React(t.server, ev), ev);
    }
  }

  lemma AnswerIsFinish(v: SH.Server)
    ensures SH.React(v, SH.Answer) == SH.FinishOpen(v)
  {
  }

  lemma NextDials(t: State, e: Event, auth: Auth)
    requires TunnelInv(t, auth) && DialInv(t, auth) && |Next(t, e).client.openers| <= TWO_32
    ensures DialInv(Next(t, e), auth)
  {
    hide TunnelInv, DialInv, ClientActStep, ClientReadStep, ServerReadStep, ServerAnswerStep, ServerActStep;
    match e
    case ClientActs(a) => ClientActsDials(t, a, auth);
    case ClientReads(room) => ClientReadsDials(t, room, auth);
    case ServerReads(env) => ServerReadsDials(t, env, auth);
    case _ => OtherDials(t, e, auth);
  }

  lemma {:induction false} RunDials(t: State, es: seq<Event>, auth: Auth)
    requires TunnelInv(t, auth) && DialInv(t, auth) && |RunTunnel(t, es).client.openers| <= TWO_32
    ensures DialInv(RunTunnel(t, es), auth)
    decreases |es|
  {
    hide TunnelInv, DialInv, Next;
    if es != [] {
      OpenersGrowInRun(Next(t, es[0]), es[1..]);
      NextInv(t, es[0], auth);
      NextDials(t, es[0], auth);
      RunDials(Next(t, es[0]), es[1..], auth);
    }
  }

  /** In every reachable state, every dial of the server, TCP or UDP, successful or not, was to the very address the
      opener of its channel asked for, over the network of its channel; whatever the length of the address, because one
      that does not fit a frame is never written. */
  lemma DialsWhatWasAsked(clientID: uint32, serverID: uint32, auth: Auth, es: seq<Event>, t: State, i: nat)
    requires Reaches(clientID, serverID, auth, es, t)
    requires i < |t.server.handler.trace| && t.server.handler.trace[i].Dialed?
    ensures var e := t.server.handler.trace[i];
            && e.channel in t.asked && e.address == t.asked[e.channel]
            && exists k :: 0 <= k < |t.client.openers| && t.client.openers[k].id == e.channel
                           && (t.client.openers[k].kind.Tcp? <==> e.net == SH.TcpNet)
  {
    hide TunnelInv, RunTunnel;
    InitTunnelInv(clientID, serverID, auth);
    InitDials(clientID, serverID, auth);
    RunDials(Init(clientID, serverID, auth), es, auth);
    var e := t.server.handler.trace[i];
    assert EffectOk(e, t.client.openers, t.asked, auth);
    assert MarkedBy(t.client.openers, OpenMark, e.channel);
  }

  /** In every reachable state, whatever the server has validated is the client's own token and nonce. */
  lemma ValidatesTheClient(clientID: uint32, serverID: uint32, auth: Auth, es: seq<Event>, t: State, i: nat)
    requires Reaches(clientID, serverID, auth, es, t)
    requires i < |t.server.handler.trace| && t.server.handler.trace[i].Validated?
    ensures t.server.handler.trace[i].auth == auth
  {
    hide TunnelInv, RunTunnel;
    InitTunnelInv(clientID, serverID, auth);
    InitDials(clientID, serverID, auth);
    RunDials(Init(clientID, serverID, auth), es, auth);
    assert EffectOk(t.server.handler.trace[i], t.client.openers, t.asked, auth);
  }
}
