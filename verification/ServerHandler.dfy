/** The server side of a session: the frame handler, its relays and the goroutines that copy from the
    targets back into the tunnel. */
module ServerHandler {
  import opened Bytes
  import opened FrameCodec
  import opened SessionSystem
  import opened Messages
  import opened Reassembly

  datatype HandlerError =
    | AuthRequired
    | BadPayload
    | AuthRejected
    | QueueFull
    | RelayGone
    | TargetWriteFailed
    | Cancelled

  datatype Network = TcpNet | UdpNet

  /** What the handler does beyond answering: a dial comes with the address dialed and the error if it failed, a
      write with the bytes the target took. */
  datatype Effect =
    | Validated(auth: Auth, accepted: bool)
    | Dialed(net: Network, channel: uint32, address: seq<byte>, error: Option<seq<byte>>)
    | Wrote(net: Network, channel: uint32, data: seq<byte>)
    | Closed(net: Network, channel: uint32)
    | Counted(delta: int)

  /** Replies of the outside world while one frame is handled: the validator's verdict, a failed dial,
      how many bytes a target takes, and the clock. */
  datatype Env = Env(rejection: Option<seq<byte>>, dialError: Option<seq<byte>>, room: nat, nowMS: uint32)

  datatype Handler = Handler(
    authOK: bool,
    conns: set<uint32>,                  // open TCP relays
    targets: map<uint32, seq<byte>>,     // bytes received by the target of each dialed channel
    assocs: set<uint32>,                 // open UDP relays
    copying: multiset<uint32>,           // goroutines reading from a TCP target
    closing: multiset<uint32>,           // those that have reported the end and will drop the relay
    udpReading: multiset<uint32>,        // the same for UDP
    udpClosing: multiset<uint32>,
    activeChannels: int,                 // this session's contribution
    authFailures: nat,
    expiredUDP: nat,
    trace: seq<Effect>)

  /** `opening` is a channel that was dialed, whose copying goroutine already runs, but which the read loop has
      not yet counted and answered. */
  datatype Server = Server(session: Session, handler: Handler, opening: Option<uint32>, stopped: Option<HandlerError>)

  function NewHandler(): Handler {
    Handler(false, {}, map[], {}, multiset{}, multiset{}, multiset{}, multiset{}, 0, 0, 0, [])
  }

  function NewServer(id: uint32): Server {
    Server(NewSession(id), NewHandler(), None, None)
  }

  function Log(h: Handler, e: Effect): Handler {
    h.(trace := h.trace + [e])
  }

  function AddActive(h: Handler, delta: int): Handler {
    Log(h.(activeChannels := h.activeChannels + delta), Counted(delta))
  }

  function ControlFrame(kind: byte, channel: uint32, payload: seq<byte>): Frame {
    ZERO_FRAME.(kind := kind, channelID := channel, payload := payload)
  }

  // ---- Handling one frame ----

  /** The handler's verdict is the error of its last QueueControl, if any. */
  function Reply(v: Server, f: Frame): Server {
    Server(PushControl(v.session, f), v.handler, v.opening,
           if v.session.control.Accepts(f) then None else Some(QueueFull))
  }

  function Fail(v: Server, e: HandlerError): Server {
    v.(stopped := Some(e))
  }

  function HandleAuth(v: Server, f: Frame, env: Env): Server {
    match DecodeAuth(f.payload)
    case Failure(_) => Fail(v, BadPayload)
    case Success(auth) =>
      match env.rejection
      case Some(msg) =>
        var h := Log(v.handler, Validated(auth, false));
        Fail(Reply(v.(handler := h.(authFailures := h.authFailures + 1)), ControlFrame(AUTHERR, 0, msg)), AuthRejected)
      case None =>
        var h := Log(v.handler, Validated(auth, true));
        Reply(v.(handler := h.(authOK := true)), ControlFrame(AUTHOK, 0, []))
  }

  /** A dialed connection is in the table and one more goroutine copies from it. */
  function Registered(h: Handler, ch: uint32): Handler {
    h.(conns := h.conns + {ch}, targets := h.targets[ch := []], copying := h.copying + multiset{ch})
  }

  function Associated(h: Handler, ch: uint32): Handler {
    h.(assocs := h.assocs + {ch}, udpReading := h.udpReading + multiset{ch})
  }

  function HandleOpenTCP(v: Server, f: Frame, env: Env): Server {
    var ch := f.channelID;
    if DecodeAddress(f.payload).Failure? then Fail(v, BadPayload)
    else
      var dialed := Dialed(TcpNet, ch, DecodeAddress(f.payload).value, env.dialError);
      match env.dialError
      case Some(msg) => Reply(v.(handler := Log(v.handler, dialed)), ControlFrame(OPENERR, ch, msg))
      case None => v.(handler := Registered(Log(v.handler, dialed), ch), opening := Some(ch))
  }

  function HandleOpenUDP(v: Server, f: Frame, env: Env): Server {
    var ch := f.channelID;
    if DecodeAddress(f.payload).Failure? then Fail(v, BadPayload)
    else
      var dialed := Dialed(UdpNet, ch, DecodeAddress(f.payload).value, env.dialError);
      match env.dialError
      case Some(msg) => Reply(v.(handler := Log(v.handler, dialed)), ControlFrame(OPENERR, ch, msg))
      case None => v.(handler := Associated(Log(v.handler, dialed), ch), opening := Some(ch))
  }

  /** The second half of an open: count the channel and answer OPENOK.  Data from the target may already be on
      its way by then. */
  function FinishOpen(v: Server): Server {
    if v.opening.None? || v.stopped.Some? then v
    else
      var ch := v.opening.value;
      Reply(v.(handler := AddActive(v.handler, 1), opening := None), ControlFrame(OPENOK, ch, []))
  }

  /** A write to a channel that is not open ends the whole session; so does a target that takes only
      part of the payload. */
  function HandleTCPData(v: Server, f: Frame, env: Env): Server {
    var h, ch := v.handler, f.channelID;
    if ch !in h.conns then Fail(v, RelayGone)
    else
      var before := if ch in h.targets then h.targets[ch] else [];
      var n := Min(|f.payload|, env.room);
      var g := Log(h.(targets := h.targets[ch := before + f.payload[..n]]), Wrote(TcpNet, ch, f.payload[..n]));
      Server(v.session, g, v.opening, if n == |f.payload| then None else Some(TargetWriteFailed))
  }

  function HandleUDPData(v: Server, f: Frame, env: Env): Server {
    match DecodeDatagram(f.payload)
    case Failure(_) => Fail(v, BadPayload)
    case Success(d) =>
      if Elapsed(env.nowMS, d.sentMS) > d.deadlineMS
      then v.(handler := v.handler.(expiredUDP := v.handler.expiredUDP + 1))
      else if f.channelID !in v.handler.assocs then Fail(v, RelayGone)
      else
        var n := Min(|d.data|, env.room);
        Server(v.session, Log(v.handler, Wrote(UdpNet, f.channelID, d.data[..n])), v.opening,
               if n == |d.data| then None else Some(TargetWriteFailed))
  }

  function HandleTCPClose(v: Server, f: Frame): Server {
    v.(handler := AddActive(Log(v.handler.(conns := v.handler.conns - {f.channelID}), Closed(TcpNet, f.channelID)), -1))
  }

  function HandleUDPClose(v: Server, f: Frame): Server {
    v.(handler := AddActive(Log(v.handler.(assocs := v.handler.assocs - {f.channelID}),
                                Closed(UdpNet, f.channelID)), -1))
  }

  /** The read loop is free to take the next frame. */
  predicate Ready(v: Server) {
    v.stopped.None? && v.opening.None?
  }

  function HandleFrame(v: Server, f: Frame, env: Env): Server
    requires Ready(v)
  {
    if !v.handler.authOK && f.kind != AUTH then Fail(v, AuthRequired)
    else if f.kind == AUTH then HandleAuth(v, f, env)
    else if f.kind == PING then Reply(v, ControlFrame(PONG, 0, []))
    else if f.kind == OPENTCP then HandleOpenTCP(v, f, env)
    else if f.kind == TCPDATA then HandleTCPData(v, f, env)
    else if f.kind == TCPCLOSE then HandleTCPClose(v, f)
    else if f.kind == OPENUDP then HandleOpenUDP(v, f, env)
    else if f.kind == UDPDATA then HandleUDPData(v, f, env)
    else if f.kind == UDPCLOSE then HandleUDPClose(v, f)
    else if f.kind == SESSIONCLOSE then Fail(v, Cancelled)
    else v
  }

  /** elapsedMillis32, written as the program computes it. */
  function Elapsed(now: uint32, sent: uint32): uint32 {
    if now >= sent then now - sent else (0xFFFF_FFFF - sent) + now + 1
  }

  /** The age of a datagram is subtraction modulo 2^32: it is the true age whenever that is below 2^32
      milliseconds, wherever the two clock readings lie. */
  lemma ElapsedIsAge(nowMS: nat, sentMS: nat)
    requires sentMS <= nowMS < sentMS + TWO_32
    ensures Elapsed(nowMS % TWO_32, sentMS % TWO_32) == nowMS - sentMS
  {
    var age := nowMS - sentMS;
    var low := sentMS % TWO_32;
    assert nowMS % TWO_32 == (low + age) % TWO_32;
  }

  /** What a datagram does, by its true age in milliseconds: a late one is counted and dropped; one in time for a
      channel without an association ends the session; otherwise the target is sent its data, and the session goes on
      exactly if the target takes it whole.  Nothing is answered in any case. */
  lemma DeadlineHonoured(v: Server, f: Frame, env: Env, nowMS: nat, sentMS: nat)
    requires Ready(v) && v.handler.authOK && f.kind == 0x31
    ensures |f.payload| < 16 ==> HandleFrame(v, f, env) == v.(stopped := Some(BadPayload))
    ensures |f.payload| >= 16 && sentMS <= nowMS < sentMS + 0x1_0000_0000
            && env.nowMS == nowMS % 0x1_0000_0000
            && DecodeDatagram(f.payload).value.sentMS == sentMS % 0x1_0000_0000 ==>
              var d, w, ch := DecodeDatagram(f.payload).value, HandleFrame(v, f, env), f.channelID;
              if nowMS - sentMS > d.deadlineMS
              then w == v.(handler := v.handler.(expiredUDP := v.handler.expiredUDP + 1))
              else if ch !in v.handler.assocs then w == v.(stopped := Some(RelayGone))
              else if |d.data| <= env.room
              then w == v.(handler := v.handler.(trace := v.handler.trace + [Wrote(UdpNet, ch, d.data)]))
              else w == v.(handler := v.handler.(trace := v.handler.trace + [Wrote(UdpNet, ch, d.data[..env.room])]),
                           stopped := Some(TargetWriteFailed))
  {
    if |f.payload| >= 16 && sentMS <= nowMS < sentMS + TWO_32 {
      ElapsedIsAge(nowMS, sentMS);
      var d := DecodeDatagram(f.payload).value;
      assert d.data[..|d.data|] == d.data;
    }
  }

  // ---- Steps of the server ----

  /** What a UDP target sends back is at most 1200 bytes, so fragmenting it makes one datagram; its deadline is one
      second. */
  function ReplyDatagram(data: seq<byte>, id: uint32): Datagram
    requires 0 < |data| <= MAX_LOCAL_DATAGRAM
  {
    Fragments(data, id, 1000)[0]
  }

  datatype Event =
    | Receive(frame: Frame, env: Env)                 // the read loop handles a frame
    | Answer                                          // and finishes an open
    | Loop(action: Action)                            // a step of the session's own loops
    | TargetData(channel: uint32, payload: seq<byte>) // copyRemoteToTunnel read something
    | TargetEnd(channel: uint32)                      // it saw the end and reports it
    | TargetDrop(channel: uint32)                     // and then drops the relay
    | UdpReply(channel: uint32, data: seq<byte>, id: uint32)
    | UdpEnd(channel: uint32)
    | UdpDrop(channel: uint32)

  predicate InternalAction(a: Action) {
    !a.QueueControl? && !a.QueueData?
  }

  function React(v: Server, e: Event): Server {
    var h := v.handler;
    match e
    case Receive(f, env) => if Ready(v) then HandleFrame(v, f, env) else v
    case Answer => FinishOpen(v)
    case Loop(a) => if InternalAction(a) then v.(session := Step(v.session, a)) else v
    case TargetData(ch, p) =>
      if ch in h.copying && 0 < |p| <= MAX_PAYLOAD_LEN
      then v.(session := PushData(v.session, ZERO_FRAME.(kind := TCPDATA, channelID := ch, payload := p))) else v
    case TargetEnd(ch) =>
      if ch in h.copying
      then Server(PushControl(v.session, ControlFrame(TCPCLOSE, ch, [])),
                  h.(copying := h.copying - multiset{ch}, closing := h.closing + multiset{ch}), v.opening, v.stopped)
      else v
    case TargetDrop(ch) =>
      if ch in h.closing
      then v.(handler := Log(h.(closing := h.closing - multiset{ch}, conns := h.conns - {ch}), Closed(TcpNet, ch)))
      else v
    case UdpReply(ch, data, id) =>
      if ch in h.udpReading && 0 < |data| <= MAX_LOCAL_DATAGRAM
      then v.(session := PushData(v.session, UdpDataFrame(ch, ReplyDatagram(data, id)))) else v
    case UdpEnd(ch) =>
      if ch in h.udpReading
      then Server(PushControl(v.session, ControlFrame(UDPCLOSE, ch, [])),
                  h.(udpReading := h.udpReading - multiset{ch}, udpClosing := h.udpClosing + multiset{ch}),
                  v.opening, v.stopped)
      else v
    case UdpDrop(ch) =>
      if ch in h.udpClosing
      then v.(handler := Log(h.(udpClosing := h.udpClosing - multiset{ch}, assocs := h.assocs - {ch}),
                             Closed(UdpNet, ch)))
      else v
  }

  function RunServer(v: Server, es: seq<Event>): Server
    decreases |es|
  {
    if es == [] then v else RunServer(React(v, es[0]), es[1..])
  }

  // ---- The authentication gate ----

  ghost predicate AcceptedBefore(trace: seq<Effect>, i: nat)
    requires i <= |trace|
  {
    exists j :: 0 <= j < i && trace[j].Validated? && trace[j].accepted
  }

  /** Every effect other than a validation comes after an accepted validation. */
  ghost predicate TraceGated(trace: seq<Effect>) {
    forall i :: 0 <= i < |trace| && !trace[i].Validated? ==> AcceptedBefore(trace, i)
  }

  ghost predicate Gated(h: Handler) {
    && (h.authOK <==> AcceptedBefore(h.trace, |h.trace|))
    && (h.copying + h.closing + h.udpReading + h.udpClosing != multiset{} ==> h.authOK)
    && TraceGated(h.trace)
  }

  lemma AcceptedMonotone(trace: seq<Effect>, e: Effect, i: nat)
    requires i <= |trace|
    ensures AcceptedBefore(trace + [e], i) <==> AcceptedBefore(trace, i)
    ensures AcceptedBefore(trace + [e], |trace| + 1)
            <==> AcceptedBefore(trace, |trace|) || (e.Validated? && e.accepted)
  {
    var t := trace + [e];
    if AcceptedBefore(trace, i) {
      var j :| 0 <= j < i && trace[j].Validated? && trace[j].accepted;
      assert t[j].Validated? && t[j].accepted;
    }
    if AcceptedBefore(trace, |trace|) {
      var j :| 0 <= j < |trace| && trace[j].Validated? && trace[j].accepted;
      assert t[j].Validated? && t[j].accepted;
    }
    assert t[|trace|] == e;
  }

  lemma LogGated(trace: seq<Effect>, e: Effect)
    requires TraceGated(trace) && (e.Validated? || AcceptedBefore(trace, |trace|))
    ensures TraceGated(trace + [e])
    ensures AcceptedBefore(trace + [e], |trace| + 1) <==> AcceptedBefore(trace, |trace|) || (e.Validated? && e.accepted)
  {
    AcceptedMonotone(trace, e, |trace|);
    forall i | 0 <= i < |trace + [e]| && !(trace + [e])[i].Validated?
      ensures AcceptedBefore(trace + [e], i)
    {
      AcceptedMonotone(trace, e, i);
    }
  }

  lemma LogKeepsGate(h: Handler, e: Effect)
    requires Gated(h) && h.authOK
    ensures Gated(Log(h, e))
  {
    LogGated(h.trace, e);
  }

  lemma AuthKeepsGate(v: Server, f: Frame, env: Env)
    requires Gated(v.handler)
    ensures Gated(HandleAuth(v, f, env).handler)
    ensures v.handler.authOK ==> HandleAuth(v, f, env).handler.authOK
    ensures HandleAuth(v, f, env).opening == v.opening
  {
    hide AcceptedBefore, TraceGated, PushControl;
    match DecodeAuth(f.payload)
    case Failure(_) =>
    case Success(auth) => LogGated(v.handler.trace, Validated(auth, env.rejection.None?));
  }

  lemma OpenKeepsGate(v: Server, f: Frame, env: Env)
    requires Gated(v.handler) && v.handler.authOK
    ensures Gated(HandleOpenTCP(v, f, env).handler) && Gated(HandleOpenUDP(v, f, env).handler)
  {
    hide AcceptedBefore, TraceGated, PushControl, DecodeAddress;
    var address := DecodeAddress(f.payload);
    if address.Success? {
      LogKeepsGate(v.handler, Dialed(TcpNet, f.channelID, address.value, env.dialError));
      LogKeepsGate(v.handler, Dialed(UdpNet, f.channelID, address.value, env.dialError));
    }
  }

  lemma CloseKeepsGate(v: Server, f: Frame)
    requires Gated(v.handler) && v.handler.authOK
    ensures Gated(HandleTCPClose(v, f).handler) && Gated(HandleUDPClose(v, f).handler)
  {
    hide AcceptedBefore, TraceGated;
    LogKeepsGate(v.handler, Closed(TcpNet, f.channelID));
    LogKeepsGate(Log(v.handler, Closed(TcpNet, f.channelID)), Counted(-1));
    LogKeepsGate(v.handler, Closed(UdpNet, f.channelID));
    LogKeepsGate(Log(v.handler, Closed(UdpNet, f.channelID)), Counted(-1));
  }

  lemma DataKeepsGate(v: Server, f: Frame, env: Env)
    requires Gated(v.handler) && v.handler.authOK
    ensures Gated(HandleTCPData(v, f, env).handler) && Gated(HandleUDPData(v, f, env).handler)
  {
    hide AcceptedBefore, TraceGated, DecodeDatagram;
    LogKeepsGate(v.handler, Wrote(TcpNet, f.channelID, f.payload[..Min(|f.payload|, env.room)]));
    var d := DecodeDatagram(f.payload);
    if d.Success? {
      LogKeepsGate(v.handler, Wrote(UdpNet, f.channelID, d.value.data[..Min(|d.value.data|, env.room)]));
    }
  }

  lemma FrameKeepsGate(v: Server, f: Frame, env: Env)
    requires Ready(v) && Gated(v.handler)
    ensures var w := HandleFrame(v, f, env);
            Gated(w.handler) && (v.handler.authOK ==> w.handler.authOK) && (w.opening.Some? ==> w.handler.authOK)
  {
    hide Gated, HandleAuth, PushControl, DecodeDatagram, DecodeAddress;
    AuthKeepsGate(v, f, env);
    if v.handler.authOK {
      OpenKeepsGate(v, f, env);
      CloseKeepsGate(v, f);
      DataKeepsGate(v, f, env);
    }
  }

  ghost predicate ServerGated(v: Server) {
    Gated(v.handler) && (v.opening.Some? ==> v.handler.authOK)
  }

  /** Steps that neither handle a frame nor finish an open. */
  lemma GoroutinesKeepGate(v: Server, e: Event)
    requires ServerGated(v) && !e.Receive? && !e.Answer?
    ensures ServerGated(React(v, e)) && React(v, e).handler.authOK == v.handler.authOK
    ensures React(v, e).stopped == v.stopped
  {
    hide AcceptedBefore, TraceGated, PushControl, PushData, Step, UdpDataFrame, ReplyDatagram;
    if e.TargetDrop? || e.UdpDrop? {
      DropsKeepGate(v, e);
    }
  }

  lemma DropsKeepGate(v: Server, e: Event)
    requires ServerGated(v) && (e.TargetDrop? || e.UdpDrop?)
    ensures ServerGated(React(v, e)) && React(v, e).handler.authOK == v.handler.authOK
    ensures React(v, e).stopped == v.stopped
  {
    hide AcceptedBefore, TraceGated;
    if v.handler.authOK {
      LogKeepsGate(v.handler, Closed(if e.TargetDrop? then TcpNet else UdpNet, e.channel));
    }
  }

  lemma ReactKeepsGate(v: Server, e: Event)
    requires ServerGated(v)
    ensures ServerGated(React(v, e))
    ensures v.handler.authOK ==> React(v, e).handler.authOK
    ensures v.stopped.Some? ==> React(v, e).stopped == v.stopped
    ensures v.stopped.Some? && (e.Receive? || e.Answer?) ==> React(v, e) == v
  {
    hide AcceptedBefore, TraceGated, HandleFrame, PushControl, PushData, Step;
    match e
    case Receive(f, env) => if Ready(v) { FrameKeepsGate(v, f, env); }
    case Answer => if v.opening.Some? { LogKeepsGate(v.handler, Counted(1)); }
    case _ => GoroutinesKeepGate(v, e);
  }

  lemma {:induction false} RunKeepsGate(v: Server, es: seq<Event>)
    requires ServerGated(v)
    ensures ServerGated(RunServer(v, es))
    ensures v.handler.authOK ==> RunServer(v, es).handler.authOK
    ensures v.stopped.Some? ==> RunServer(v, es).stopped == v.stopped
    decreases |es|
  {
    if es != [] {
      ReactKeepsGate(v, es[0]);
      RunKeepsGate(React(v, es[0]), es[1..]);
    }
  }

  /** In every run of the server, whatever a peer sends and however the goroutines interleave: every dial,
      relay write, relay close and channel-count change comes after an AUTH frame that the validator
      accepted in this session; until then nothing but validations happens.  In any continuation authOK does not
      revert and the first handler error is final: no frame is handled after it. */
  lemma AuthenticationGate(id: uint32, es: seq<Event>, more: seq<Event>)
    ensures var h := RunServer(NewServer(id), es).handler;
            && (forall i :: 0 <= i < |h.trace| && !h.trace[i].Validated? ==> AcceptedBefore(h.trace, i))
            && (h.authOK <==> AcceptedBefore(h.trace, |h.trace|))
            && (!h.authOK ==> h.conns == {} && h.assocs == {} && h.targets == map[] && h.activeChannels == 0)
    ensures var v := RunServer(NewServer(id), es);
            var w := RunServer(v, more);
            && (v.handler.authOK ==> w.handler.authOK)
            && (v.stopped.Some? ==> w.stopped == v.stopped
                                    && forall e: Event :: e.Receive? || e.Answer? ==> React(w, e) == w)
  {
    RunKeepsGate(NewServer(id), es);
    RunIdleUntilAuth(NewServer(id), es);
    var v := RunServer(NewServer(id), es);
    RunKeepsGate(v, more);
    forall e: Event | v.stopped.Some? && (e.Receive? || e.Answer?)
      ensures React(RunServer(v, more), e) == RunServer(v, more)
    {
      ReactKeepsGate(RunServer(v, more), e);
    }
  }

  ghost predicate IdleUntilAuth(v: Server) {
    var h := v.handler;
    !h.authOK ==> v.opening.None? && h.conns == {} && h.assocs == {} && h.targets == map[] && h.activeChannels == 0
                  && h.copying + h.closing + h.udpReading + h.udpClosing == multiset{}
  }

  lemma ReactIdle(v: Server, e: Event)
    requires IdleUntilAuth(v)
    ensures IdleUntilAuth(React(v, e))
  {
    hide PushControl, PushData, Step, DecodeAuth, DecodeDatagram, DecodeAddress;
  }

  lemma {:induction false} RunIdleUntilAuth(v: Server, es: seq<Event>)
    requires IdleUntilAuth(v)
    ensures IdleUntilAuth(RunServer(v, es))
    decreases |es|
  {
    if es != [] {
      ReactIdle(v, es[0]);
      RunIdleUntilAuth(React(v, es[0]), es[1..]);
    }
  }
}
