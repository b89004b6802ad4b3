/** Three runs of client and server.  In the first an honest client sends data and closes, the close overtakes the
    data, and the server drops it and ends the session.  In the second a target sends data and closes, the close
    overtakes the data, and the client drops it without anyone noticing.  In the third a target speaks first and its
    data reaches the local connection ahead of the SOCKS reply. */
module TunnelRuns {
  import opened Bytes
  import opened FrameCodec
  import opened FrameQueues
  import opened SessionSystem
  import opened Messages
  import opened TunnelClient
  import opened Tunnel
  import opened SessionTurns
  import SH = ServerHandler

  // ---- Turns of the two write loops inside the tunnel ----

  predicate Internal(acts: seq<Action>) {
    forall i :: 0 <= i < |acts| ==> !acts[i].QueueControl? && !acts[i].QueueData?
  }

  function ClientLoop(acts: seq<Action>): (es: seq<Event>)
    ensures |es| == |acts|
  {
    seq(|acts|, i requires 0 <= i < |acts| => ClientActs(Loops(acts[i])))
  }

  function ServerLoop(acts: seq<Action>): (es: seq<Event>)
    ensures |es| == |acts|
  {
    seq(|acts|, i requires 0 <= i < |acts| => ServerActs(SH.Loop(acts[i])))
  }

  lemma {:induction false} ClientLoopRuns(t: State, acts: seq<Action>)
    requires Internal(acts)
    ensures RunTunnel(t, ClientLoop(acts)) == t.(client := t.client.(session := Run(t.client.session, acts)))
    decreases |acts|
  {
    hide Step;
    if acts != [] {
      assert ClientLoop(acts)[1..] == ClientLoop(acts[1..]);
      ClientLoopRuns(Next(t, ClientLoop(acts)[0]), acts[1..]);
    }
  }

  lemma {:induction false} ServerLoopRuns(t: State, acts: seq<Action>)
    requires Internal(acts)
    ensures RunTunnel(t, ServerLoop(acts)) == t.(server := t.server.(session := Run(t.server.session, acts)))
    decreases |acts|
  {
    hide Step;
    if acts != [] {
      assert ServerLoop(acts)[1..] == ServerLoop(acts[1..]);
      ServerLoopRuns(Next(t, ServerLoop(acts)[0]), acts[1..]);
    }
  }

  /** A run that leads from one state to another. */
  ghost predicate Leads(t: State, es: seq<Event>, u: State) {
    RunTunnel(t, es) == u
  }

  lemma Then(t: State, es: seq<Event>, u: State, more: seq<Event>, v: State)
    requires Leads(t, es, u) && Leads(u, more, v)
    ensures Leads(t, es + more, v)
  {
    TunnelAppend(t, es, more);
  }

  /** Extends a run by one event. */
  lemma Extend(t: State, es: seq<Event>, u: State, e: Event) returns (longer: seq<Event>, v: State)
    requires Leads(t, es, u)
    ensures v == Next(u, e) && Leads(t, longer, v)
  {
    hide Next;
    TunnelOne(u, e);
    longer, v := es + [e], Next(u, e);
    Then(t, es, u, [e], v);
  }

  /** Extends a run by a turn of the client's write loop. */
  lemma ClientSends(t: State, es: seq<Event>, u: State, o: Origin, f: Frame) returns (longer: seq<Event>, v: State)
    requires Leads(t, es, u) && AtTop(u.client.session) && Encodable(f)
    requires o == Control ==> u.client.session.control.items != [] && u.client.session.control.items[0] == f
    requires o == Data ==> u.client.session.control.items == [] && u.client.session.data.items != []
                           && u.client.session.data.items[0] == f
    ensures v == u.(client := u.client.(session := v.client.session)) && Leads(t, longer, v)
    ensures Sends(u.client.session, v.client.session, o, f)
  {
    hide Run, RunTunnel, Encodable, Sends;
    var acts := if o == Control then CONTROL_TURN else DATA_TURN;
    if o == Control { ControlTurn(u.client.session, f); } else { DataTurn(u.client.session, f); }
    ClientLoopRuns(u, acts);
    longer, v := es + ClientLoop(acts), RunTunnel(u, ClientLoop(acts));
    Then(t, es, u, ClientLoop(acts), v);
  }

  /** Extends a run by a turn of the server's write loop. */
  lemma ServerSends(t: State, es: seq<Event>, u: State, o: Origin, f: Frame) returns (longer: seq<Event>, v: State)
    requires Leads(t, es, u) && AtTop(u.server.session) && Encodable(f)
    requires o == Control ==> u.server.session.control.items != [] && u.server.session.control.items[0] == f
    requires o == Data ==> u.server.session.control.items == [] && u.server.session.data.items != []
                           && u.server.session.data.items[0] == f
    ensures v == u.(server := u.server.(session := v.server.session)) && Leads(t, longer, v)
    ensures Sends(u.server.session, v.server.session, o, f)
  {
    hide Run, RunTunnel, Encodable, Sends;
    var acts := if o == Control then CONTROL_TURN else DATA_TURN;
    if o == Control { ControlTurn(u.server.session, f); } else { DataTurn(u.server.session, f); }
    ServerLoopRuns(u, acts);
    longer, v := es + ServerLoop(acts), RunTunnel(u, ServerLoop(acts));
    Then(t, es, u, ServerLoop(acts), v);
  }

  // ---- Stages of a run with one TCP channel ----

  const NO_CONTROL := Fifo([], CONTROL_CAPACITY, MAX_QUEUED_BYTES_SESSION)
  const NO_DATA := Fifo([], DATA_CAPACITY, MAX_QUEUED_BYTES_SESSION)

  predicate Quiet(s: Session) {
    AtTop(s) && s.control == NO_CONTROL && s.data == NO_DATA
  }

  /** Everything on the two wires has been handled. */
  predicate CaughtUp(t: State) {
    t.up == |t.client.session.wire| && t.down == |t.server.session.wire|
  }

  predicate ReadsOn(c: Client) {
    !c.stopped && c.reader.Reading?
  }

  /** The client is authenticated and has no channel yet. */
  predicate Authenticated(t: State) {
    && Quiet(t.client.session) && Quiet(t.server.session) && CaughtUp(t) && ReadsOn(t.client)
    && t.client.openers == [] && t.client.nextID == 1
    && SH.Ready(t.server) && t.server.handler.authOK
  }

  /** Channel 2 was dialed, the client waits for the answer, and its connection has received `got`. */
  predicate Dialed(t: State, got: seq<byte>) {
    && Quiet(t.client.session) && Quiet(t.server.session) && CaughtUp(t) && ReadsOn(t.client)
    && t.client.openers == [Opener(Tcp, 2, Waiting, EMPTY_CHANNEL, got, None, [])]
    && 2 in t.client.tcpConns && t.client.tcpConns[2] == 0
    && 2 in t.client.openResults && t.client.openResults[2] == 0
    && t.server.stopped.None? && t.server.opening == Some(2) && t.server.handler.authOK
    && 2 in t.server.handler.conns && 2 in t.server.handler.copying
    && 2 in t.server.handler.targets && t.server.handler.targets[2] == []
  }

  /** Channel 2 is open and its connection was answered after it had received `got`. */
  predicate Open(t: State, got: seq<byte>) {
    && Quiet(t.client.session) && Quiet(t.server.session) && CaughtUp(t) && ReadsOn(t.client)
    && 2 in t.client.tcpConns && t.client.tcpConns[2] == 0 && 2 in t.server.handler.copying
    && |t.client.openers| == 1 && t.client.openers[0].kind.Tcp? && t.client.openers[0].id == 2
    && t.client.openers[0].stage.Opened? && t.client.openers[0].received == got
    && t.client.openers[0].replied == Some(|got|)
    && SH.Ready(t.server) && t.server.handler.authOK && 2 in t.server.handler.conns
    && 2 in t.server.handler.targets && t.server.handler.targets[2] == []
  }

  const GRANT := SH.Env(None, None, 0, 0)

  /** A token that fits an AUTH frame. */
  predicate Fits(auth: Auth) {
    |EncodeAuth(auth)| <= MAX_PAYLOAD_LEN
  }

  lemma Authenticate(clientID: uint32, serverID: uint32, auth: Auth) returns (es: seq<Event>, t: State)
    requires Fits(auth)
    ensures Leads(Init(clientID, serverID, auth), es, t) && Authenticated(t)
  {
    hide RunTunnel, Encoding, EncodeAuth, DecodeAuth;
    var start := Init(clientID, serverID, auth);
    assert NewSession(clientID).control.Accepts(AuthFrame(auth));
    assert start.client.session.control.items == [AuthFrame(auth)];
    AuthFits(auth);
    es, t := [], start;
    assert Leads(start, es, t) by { NoEvents(start); }
    es, t := ClientSends(start, es, t, Control, AuthFrame(auth));
    assert t.client.session.control.items == [];
    var u := t;
    es, t := Extend(start, es, t, ServerReads(GRANT));
    ServerAuthenticates(u);
    assert t.server.session.control.items == [SH.ControlFrame(AUTHOK, 0, [])];
    es, t := ServerSends(start, es, t, Control, SH.ControlFrame(AUTHOK, 0, []));
    es, t := Extend(start, es, t, ClientReads(0));
  }

  lemma NoEvents(t: State)
    ensures Leads(t, [], t)
  {
  }

  lemma AuthFits(auth: Auth)
    requires Fits(auth)
    ensures DecodeAuth(EncodeAuth(auth)) == Success(auth)
    ensures Encodable(AuthFrame(auth))
  {
    AuthRoundTrip(auth, []);
    assert EncodeAuth(auth) + [] == EncodeAuth(auth);
  }

  lemma ServerAuthenticates(t: State)
    requires t.up < |t.client.session.wire| && UpFrame(t).kind == AUTH && DecodeAuth(UpFrame(t).payload).Success?
    requires SH.Ready(t.server) && t.server.session.control == NO_CONTROL
    ensures var u := Next(t, ServerReads(GRANT));
            && u.server.session == PushControl(t.server.session, SH.ControlFrame(AUTHOK, 0, []))
            && u.server.session.control.items == [SH.ControlFrame(AUTHOK, 0, [])]
            && SH.Ready(u.server) && u.server.handler.authOK && u.client == t.client
            && u.up == t.up + 1 && u.down == t.down
  {
    hide DecodeAuth;
    assert t.server.session.control.Accepts(SH.ControlFrame(AUTHOK, 0, []));
  }

  /** The opener of channel 2 asks for it. */
  lemma AskForChannel(t: State)
    requires Authenticated(t)
    ensures var c := Perform(Perform(Perform(Perform(t.client, Allocate(Tcp)), StoreConn(0)), StoreResult(0)),
                             QueueOpen(0, []));
            var f := ControlOpen();
            && c.session == PushControl(t.client.session, f) && c.session.control.items == [f]
            && c.openers == [Opener(Tcp, 2, Waiting, EMPTY_CHANNEL, [], None, [])]
            && 2 in c.tcpConns && c.tcpConns[2] == 0 && 2 in c.openResults && c.openResults[2] == 0 && ReadsOn(c)
  {
    hide EncodeAddress;
    var f := ControlOpen();
    EmptyAddress();
    assert t.client.session.control.Accepts(f);
    var c := Perform(Perform(Perform(t.client, Allocate(Tcp)), StoreConn(0)), StoreResult(0));
    assert c.openers == [Opener(Tcp, 2, ResultStored, EMPTY_CHANNEL, [], None, [])] && c.session == t.client.session;
    assert OpenFrame(c.openers[0], []) == f;
  }

  function ControlOpen(): Frame {
    ZERO_FRAME.(kind := OPENTCP, channelID := 2, payload := EncodeAddress([]))
  }

  lemma EmptyAddress()
    ensures |EncodeAddress([])| == 2 && DecodeAddress(EncodeAddress([])).Success? && Encodable(ControlOpen())
  {
    AddressRoundTrip([], []);
    assert EncodeAddress([]) + [] == EncodeAddress([]);
  }

  lemma Dial(start: State, before: seq<Event>, t: State) returns (es: seq<Event>, u: State)
    requires Leads(start, before, t) && Authenticated(t)
    ensures Leads(start, es, u) && Dialed(u, [])
  {
    hide RunTunnel, Encoding, EncodeAddress, DecodeAddress, Perform, Encodable, PushControl;
    AskForChannel(t);
    EmptyAddress();
    es, u := Extend(start, before, t, ClientActs(Allocate(Tcp)));
    es, u := Extend(start, es, u, ClientActs(StoreConn(0)));
    es, u := Extend(start, es, u, ClientActs(StoreResult(0)));
    es, u := Extend(start, es, u, ClientActs(QueueOpen(0, [])));
    assert u.client.session == Step(t.client.session, QueueControl(ControlOpen()));
    KeepsTop(t.client.session, ControlOpen());
    es, u := ClientSends(start, es, u, Control, ControlOpen());
    es, u := Extend(start, es, u, ServerReads(GRANT));
  }

  lemma KeepsTop(s: Session, f: Frame)
    ensures var t := PushControl(s, f);
            t == s.(control := t.control, acceptedControl := t.acceptedControl)
            && t.control == s.control.(items := t.control.items)
  {
  }

  /** The target speaks before the open is answered. */
  lemma TargetSpeaks(start: State, before: seq<Event>, t: State, x: byte) returns (es: seq<Event>, u: State)
    requires Leads(start, before, t) && Dialed(t, [])
    ensures Leads(start, es, u) && Dialed(u, [x])
  {
    hide RunTunnel, Encoding;
    var d := ZERO_FRAME.(kind := TCPDATA, channelID := 2, payload := [x]);
    es, u := Extend(start, before, t, ServerActs(SH.TargetData(2, [x])));
    assert t.server.session.data.Accepts(d);
    assert u.server.session.data.items == [d];
    es, u := ServerSends(start, es, u, Data, d);
    es, u := Extend(start, es, u, ClientReads(1));
    assert u.client.openers[0].received == [] + [x][..1] == [x];
  }

  /** The open is answered, and the client hears of it and answers its own connection. */
  lemma AnswerChannel(start: State, before: seq<Event>, t: State, got: seq<byte>) returns (es: seq<Event>, u: State)
    requires Leads(start, before, t) && Dialed(t, got)
    ensures Leads(start, es, u) && Open(u, got)
  {
    hide RunTunnel, Encoding;
    var ok := SH.ControlFrame(OPENOK, 2, []);
    assert t.server.session.control.Accepts(ok);
    es, u := Extend(start, before, t, ServerAnswers);
    assert u.server.session.control.items == [ok];
    es, u := ServerSends(start, es, u, Control, ok);
    es, u := Extend(start, es, u, ClientReads(0));
    assert u.client.reader == Sending(0, Granted);
    es, u := TakeGrant(start, es, u, got);
  }

  /** The read loop passes the grant on, and the opener answers its own connection. */
  lemma TakeGrant(start: State, before: seq<Event>, t: State, got: seq<byte>) returns (es: seq<Event>, u: State)
    requires Leads(start, before, t) && t.client.reader == Sending(0, Granted)
    requires t.client.openers == [Opener(Tcp, 2, Waiting, EMPTY_CHANNEL, got, None, [])]
    ensures Leads(start, es, u)
    ensures u == t.(client := t.client.(openers := u.client.openers, reader := Reading))
    ensures |u.client.openers| == 1
            && u.client.openers[0] == Opener(Tcp, 2, Opened, ResultChannel(None, 1, 1), got, Some(|got|), [])
  {
    hide RunTunnel, Perform;
    GrantTaken(t.client, got);
    es, u := Extend(start, before, t, ClientActs(SendResult));
    es, u := Extend(start, es, u, ClientActs(SealResult));
    es, u := Extend(start, es, u, ClientActs(AwaitResult(0)));
    es, u := Extend(start, es, u, ClientActs(WriteReply(0)));
  }

  lemma GrantTaken(c: Client, got: seq<byte>)
    requires c.reader == Sending(0, Granted)
    requires c.openers == [Opener(Tcp, 2, Waiting, EMPTY_CHANNEL, got, None, [])]
    ensures var d := Perform(Perform(Perform(Perform(c, SendResult), SealResult), AwaitResult(0)), WriteReply(0));
            d == c.(openers := [Opener(Tcp, 2, Opened, ResultChannel(None, 1, 1), got, Some(|got|), [])],
                    reader := Reading)
  {
    var d := Perform(Perform(Perform(c, SendResult), SealResult), AwaitResult(0));
    assert d.openers == [Opener(Tcp, 2, Admitted, ResultChannel(None, 1, 1), got, None, [])];
  }

  /** The client sends two chunks and closes. */
  lemma SendAndClose(t: State)
    requires Open(t, [])
    ensures var c := Perform(Perform(Perform(t.client, SendData(0, [1])), SendData(0, [2])), SendClose(0));
            && c.session.control.items == [CloseFrame(2)]
            && c.session.data.items == [DataFrame(2, [1]), DataFrame(2, [2])]
            && c.session.acceptedData == t.client.session.acceptedData + [DataFrame(2, [1]), DataFrame(2, [2])]
            && c.session.wire == t.client.session.wire && AtTop(c.session)
  {
    var c1 := Perform(t.client, SendData(0, [1]));
    assert t.client.session.data.Accepts(DataFrame(2, [1]));
    assert c1.session.data.items == [DataFrame(2, [1])];
    PayloadBytesOne(DataFrame(2, [1]));
    var c2 := Perform(c1, SendData(0, [2]));
    assert c1.session.data.Accepts(DataFrame(2, [2]));
    assert c2.session.data.items == [DataFrame(2, [1]), DataFrame(2, [2])];
    assert c2.session.control.Accepts(CloseFrame(2));
  }

  /** An honest close loses accepted data and ends the session: a run in which the client opens a channel, has two
      chunks accepted and closes, all three frames are written and read, and the target has received nothing while
      the server has stopped for want of a relay. */
  lemma CloseLosesData(clientID: uint32, serverID: uint32, auth: Auth) returns (es: seq<Event>, t: State)
    requires Fits(auth)
    ensures t == RunTunnel(Init(clientID, serverID, auth), es)
    ensures t.client.session.data.items == [] && t.client.session.writer.Top?
    ensures |t.client.session.acceptedData| >= 2
            && t.client.session.acceptedData[|t.client.session.acceptedData| - 2..]
               == [DataFrame(2, [1]), DataFrame(2, [2])]
    ensures 2 in t.server.handler.targets && t.server.handler.targets[2] == []
    ensures t.server.stopped == Some(SH.RelayGone)
  {
    hide RunTunnel, Encoding, Perform;
    var start := Init(clientID, serverID, auth);
    var before, a := Authenticate(clientID, serverID, auth);
    var b;
    before, b := Dial(start, before, a);
    before, b := AnswerChannel(start, before, b, []);
    SendAndClose(b);
    es, t := Extend(start, before, b, ClientActs(SendData(0, [1])));
    es, t := Extend(start, es, t, ClientActs(SendData(0, [2])));
    es, t := Extend(start, es, t, ClientActs(SendClose(0)));
    var d1, d2 := DataFrame(2, [1]), DataFrame(2, [2]);
    es, t := ClientSends(start, es, t, Control, CloseFrame(2));
    es, t := ClientSends(start, es, t, Data, d1);
    es, t := ClientSends(start, es, t, Data, d2);
    es, t := ReadCloseThenData(start, es, t);
  }

  /** The server reads a close and then data of the same channel. */
  lemma ReadCloseThenData(start: State, before: seq<Event>, t: State) returns (es: seq<Event>, u: State)
    requires Leads(start, before, t) && SH.Ready(t.server) && t.server.handler.authOK
    requires t.up + 3 == |t.client.session.wire|
    requires var w := t.client.session.wire;
             && w[t.up].stamped.kind == TCPCLOSE && w[t.up].stamped.channelID == 2
             && w[t.up + 1].stamped.kind == TCPDATA && w[t.up + 1].stamped.channelID == 2
    ensures Leads(start, es, u) && u.client == t.client && u.server.stopped == Some(SH.RelayGone)
    ensures u.server.handler.targets == t.server.handler.targets
  {
    hide RunTunnel;
    es, u := Extend(start, before, t, ServerReads(GRANT));
    es, u := Extend(start, es, u, ServerReads(GRANT));
    es, u := Extend(start, es, u, ServerReads(GRANT));
  }

  /** The target sends a byte and ends. */
  lemma SpeakAndEnd(t: State, x: byte)
    requires Open(t, [])
    ensures var v := SH.React(SH.React(t.server, SH.TargetData(2, [x])), SH.TargetEnd(2));
            var d := ZERO_FRAME.(kind := TCPDATA, channelID := 2, payload := [x]);
            && v.session.control.items == [SH.ControlFrame(TCPCLOSE, 2, [])] && v.session.data.items == [d]
            && v.session.acceptedData == t.server.session.acceptedData + [d]
            && v.session.wire == t.server.session.wire && AtTop(v.session) && v.stopped.None?
  {
    var d := ZERO_FRAME.(kind := TCPDATA, channelID := 2, payload := [x]);
    assert t.server.session.data.Accepts(d);
    var v := SH.React(t.server, SH.TargetData(2, [x]));
    assert v.session.data.items == [d] && 2 in v.handler.copying;
    assert v.session.control.Accepts(SH.ControlFrame(TCPCLOSE, 2, []));
  }

  /** A target's honest close loses its data, and nobody notices: a run in which the target of an open channel sends a
      byte, which is accepted, and ends; both frames are written and read, the local connection has received nothing
      and both sides carry on. */
  lemma TargetCloseLosesData(clientID: uint32, serverID: uint32, auth: Auth, x: byte) returns (es: seq<Event>, t: State)
    requires Fits(auth)
    ensures t == RunTunnel(Init(clientID, serverID, auth), es)
    ensures var data := t.server.session.acceptedData;
            |data| >= 1 && data[|data| - 1] == ZERO_FRAME.(kind := TCPDATA, channelID := 2, payload := [x])
    ensures t.server.session.control.items == [] && t.server.session.data.items == [] && t.server.session.writer.Top?
    ensures t.down == |t.server.session.wire| && !t.client.stopped && t.server.stopped.None?
    ensures |t.client.openers| == 1 && t.client.openers[0].id == 2 && t.client.openers[0].received == []
  {
    hide RunTunnel, Encoding, SH.React;
    var start := Init(clientID, serverID, auth);
    var before, a := Authenticate(clientID, serverID, auth);
    var b;
    before, b := Dial(start, before, a);
    before, b := AnswerChannel(start, before, b, []);
    SpeakAndEnd(b, x);
    es, t := Extend(start, before, b, ServerActs(SH.TargetData(2, [x])));
    es, t := Extend(start, es, t, ServerActs(SH.TargetEnd(2)));
    var d := ZERO_FRAME.(kind := TCPDATA, channelID := 2, payload := [x]);
    es, t := ServerSends(start, es, t, Control, SH.ControlFrame(TCPCLOSE, 2, []));
    es, t := ServerSends(start, es, t, Data, d);
    es, t := Extend(start, es, t, ClientReads(1));
    es, t := Extend(start, es, t, ClientReads(1));
  }

  /** Data may reach a local connection ahead of the SOCKS reply: a run in which the reply is written when the
      target's first byte has already been delivered. */
  lemma DataPrecedesReply(clientID: uint32, serverID: uint32, auth: Auth, x: byte) returns (es: seq<Event>, t: State)
    requires Fits(auth)
    ensures t == RunTunnel(Init(clientID, serverID, auth), es)
    ensures |t.client.openers| == 1 && t.client.openers[0].received == [x] && t.client.openers[0].replied == Some(1)
  {
    hide RunTunnel;
    var start := Init(clientID, serverID, auth);
    es, t := Authenticate(clientID, serverID, auth);
    es, t := Dial(start, es, t);
    es, t := TargetSpeaks(start, es, t, x);
    es, t := AnswerChannel(start, es, t, [x]);
  }
}
