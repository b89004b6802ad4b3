/** The server handler against the history of its session.  Whatever a peer sends, what the handler holds, has answered
    and has written is determined by the frames its read loop took and the relays its goroutines dropped; the
    definitions here say how, without reference to the handler. */
module ServerConversation {
  import opened Bytes
  import opened FrameCodec
  import opened FrameQueues
  import opened SessionSystem
  import opened Messages
  import opened ServerHandler

  /** The read loop took a frame, with the outside world's replies, or a goroutine dropped a relay. */
  datatype Fact = Took(frame: Frame, env: Env) | Lost(net: Network, channel: uint32)

  datatype Talk = Talk(server: Server, facts: seq<Fact>)

  function Listen(t: Talk, e: Event): Talk {
    var h := t.server.handler;
    Talk(React(t.server, e),
         match e
         case Receive(f, env) => if Ready(t.server) then t.facts + [Took(f, env)] else t.facts
         case TargetDrop(ch) => if ch in h.closing then t.facts + [Lost(TcpNet, ch)] else t.facts
         case UdpDrop(ch) => if ch in h.udpClosing then t.facts + [Lost(UdpNet, ch)] else t.facts
         case _ => t.facts)
  }

  function ListenAll(t: Talk, es: seq<Event>): Talk
    decreases |es|
  {
    if es == [] then t else ListenAll(Listen(t, es[0]), es[1..])
  }

  // ---- What the history says ----

  predicate Accepting(x: Fact) {
    x.Took? && x.frame.kind == 0x01 && DecodeAuth(x.frame.payload).Success? && x.env.rejection.None?
  }

  predicate Authenticated(facts: seq<Fact>) {
    facts != [] && (Accepting(facts[|facts| - 1]) || Authenticated(facts[..|facts| - 1]))
  }

  function OpenKind(net: Network): byte {
    if net == TcpNet then 0x20 else 0x30
  }

  function CloseKind(net: Network): byte {
    if net == TcpNet then 0x24 else 0x32
  }

  predicate Asking(before: seq<Fact>, x: Fact, net: Network) {
    && x.Took? && x.frame.kind == OpenKind(net) && Authenticated(before)
    && DecodeAddress(x.frame.payload).Success?
  }

  predicate Granting(before: seq<Fact>, x: Fact, net: Network) {
    Asking(before, x, net) && x.env.dialError.None?
  }

  predicate Closing(before: seq<Fact>, x: Fact, net: Network) {
    x.Took? && x.frame.kind == CloseKind(net) && Authenticated(before)
  }

  /** A relay is open from a granted open until a close is taken or the target's end drops it. */
  predicate RelayOpen(facts: seq<Fact>, net: Network, channel: uint32) {
    facts != [] &&
    var before, x := facts[..|facts| - 1], facts[|facts| - 1];
    if x == Lost(net, channel) then false
    else if x.Took? && x.frame.channelID == channel && Granting(before, x, net) then true
    else if x.Took? && x.frame.channelID == channel && Closing(before, x, net) then false
    else RelayOpen(before, net, channel)
  }

  function Cut(data: seq<byte>, room: nat): seq<byte> {
    if |data| <= room then data else data[..room]
  }

  /** The bytes a TCP target has taken since its channel was last opened. */
  function Received(facts: seq<Fact>, channel: uint32): seq<byte> {
    if facts == [] then []
    else
      var before, x := facts[..|facts| - 1], facts[|facts| - 1];
      if !x.Took? || x.frame.channelID != channel then Received(before, channel)
      else if Granting(before, x, TcpNet) then []
      else if x.frame.kind == 0x23 && Authenticated(before) && RelayOpen(before, TcpNet, channel)
      then Received(before, channel) + Cut(x.frame.payload, x.env.room)
      else Received(before, channel)
  }

  predicate IsDatagram(before: seq<Fact>, x: Fact) {
    x.Took? && x.frame.kind == 0x31 && Authenticated(before) && |x.frame.payload| >= 16
  }

  function DatagramOf(f: Frame): Datagram
    requires |f.payload| >= 16
  {
    DecodeDatagram(f.payload).value
  }

  /** The age of a datagram by the two 32-bit millisecond clocks. */
  function Age(f: Frame, nowMS: uint32): nat
    requires |f.payload| >= 16
  {
    (nowMS - DatagramOf(f).sentMS) % 0x1_0000_0000
  }

  predicate Late(before: seq<Fact>, x: Fact) {
    IsDatagram(before, x) && Age(x.frame, x.env.nowMS) > DatagramOf(x.frame).deadlineMS
  }

  /** The datagrams a UDP target has been sent. */
  function UdpSent(facts: seq<Fact>, channel: uint32): seq<seq<byte>> {
    if facts == [] then []
    else
      var before, x := facts[..|facts| - 1], facts[|facts| - 1];
      if IsDatagram(before, x) && x.frame.channelID == channel && !Late(before, x) && RelayOpen(before, UdpNet, channel)
      then UdpSent(before, channel) + [Cut(DatagramOf(x.frame).data, x.env.room)]
      else UdpSent(before, channel)
  }

  function LateCount(facts: seq<Fact>): nat {
    if facts == [] then 0
    else
      var before, x := facts[..|facts| - 1], facts[|facts| - 1];
      LateCount(before) + if Late(before, x) then 1 else 0
  }

  function RejectedCount(facts: seq<Fact>): nat {
    if facts == [] then 0
    else
      var x := facts[|facts| - 1];
      RejectedCount(facts[..|facts| - 1])
      + if x.Took? && x.frame.kind == 0x01 && DecodeAuth(x.frame.payload).Success? && x.env.rejection.Some?
           then 1 else 0
  }

  /** Granted opens less closes. */
  function Balance(facts: seq<Fact>): int {
    if facts == [] then 0
    else
      var before, x := facts[..|facts| - 1], facts[|facts| - 1];
      Balance(before)
      + (if Granting(before, x, TcpNet) || Granting(before, x, UdpNet) then 1 else 0)
      - (if Closing(before, x, TcpNet) || Closing(before, x, UdpNet) then 1 else 0)
  }

  /** The answer a request calls for. */
  function AnswerTo(before: seq<Fact>, x: Fact): seq<Frame> {
    if !x.Took? then []
    else if x.frame.kind == 0x01 && DecodeAuth(x.frame.payload).Success? then
      match x.env.rejection
      case None => [ZERO_FRAME.(kind := 0x02)]
      case Some(msg) => [ZERO_FRAME.(kind := 0x03, payload := msg)]
    else if x.frame.kind == 0x11 && Authenticated(before) then [ZERO_FRAME.(kind := 0x12)]
    else if Asking(before, x, TcpNet) || Asking(before, x, UdpNet) then
      match x.env.dialError
      case None => [ZERO_FRAME.(kind := 0x21, channelID := x.frame.channelID)]
      case Some(msg) => [ZERO_FRAME.(kind := 0x22, channelID := x.frame.channelID, payload := msg)]
    else []
  }

  function Due(facts: seq<Fact>): seq<Frame> {
    if facts == [] then []
    else Due(facts[..|facts| - 1]) + AnswerTo(facts[..|facts| - 1], facts[|facts| - 1])
  }

  predicate IsAnswer(f: Frame) {
    f.kind in {0x02, 0x03, 0x12, 0x21, 0x22}
  }

  /** The answers among accepted control frames. */
  function Answers(fs: seq<Frame>): seq<Frame> {
    if fs == [] then []
    else Answers(fs[..|fs| - 1]) + if IsAnswer(fs[|fs| - 1]) then [fs[|fs| - 1]] else []
  }

  lemma AnswersSnoc(fs: seq<Frame>, f: Frame)
    ensures Answers(fs + [f]) == Answers(fs) + if IsAnswer(f) then [f] else []
  {
    assert (fs + [f])[..|fs|] == fs;
  }

  /** What was written to a UDP target, from the handler's trace. */
  function UdpWrites(trace: seq<Effect>, channel: uint32): seq<seq<byte>> {
    if trace == [] then []
    else
      var e := trace[|trace| - 1];
      UdpWrites(trace[..|trace| - 1], channel)
      + if e.Wrote? && e.net == UdpNet && e.channel == channel then [e.data] else []
  }

  lemma WritesSnoc(trace: seq<Effect>, e: Effect, channel: uint32)
    ensures UdpWrites(trace + [e], channel)
            == UdpWrites(trace, channel) + if e.Wrote? && e.net == UdpNet && e.channel == channel then [e.data] else []
  {
    assert (trace + [e])[..|trace|] == trace;
  }

  // ---- The invariant ----

  ghost predicate RelaysTold(h: Handler, facts: seq<Fact>) {
    && (forall channel :: channel in h.conns <==> RelayOpen(facts, TcpNet, channel))
    && (forall channel :: channel in h.assocs <==> RelayOpen(facts, UdpNet, channel))
  }

  ghost predicate BytesTold(h: Handler, facts: seq<Fact>) {
    && (forall channel :: channel in h.conns ==> channel in h.targets)
    && (forall channel :: channel in h.targets ==> h.targets[channel] == Received(facts, channel))
    && (forall channel :: UdpWrites(h.trace, channel) == UdpSent(facts, channel))
  }

  ghost predicate CountsTold(v: Server, facts: seq<Fact>) {
    && v.handler.activeChannels == Balance(facts) - (if v.opening.Some? then 1 else 0)
    && v.handler.authFailures == RejectedCount(facts) && v.handler.expiredUDP == LateCount(facts)
  }

  /** Answers are given in the order of the requests, and at most the last one is missing. */
  ghost predicate AnswersTold(v: Server, facts: seq<Fact>) {
    var given, due := Answers(v.session.acceptedControl), Due(facts);
    && given <= due && |due| <= |given| + 1
    && (v.stopped.None? && v.opening.None? ==> given == due)
    && (v.opening.Some? ==> v.stopped.None? && due == given + [ZERO_FRAME.(kind := 0x21, channelID := v.opening.value)])
    && (v.session.heartbeat.Holding? ==> v.session.heartbeat.ping.kind == PING)
  }

  ghost predicate TalkInv(t: Talk) {
    && (t.server.handler.authOK <==> Authenticated(t.facts))
    && RelaysTold(t.server.handler, t.facts) && BytesTold(t.server.handler, t.facts)
    && CountsTold(t.server, t.facts) && AnswersTold(t.server, t.facts)
  }

  lemma LastFact(facts: seq<Fact>, x: Fact)
    ensures (facts + [x])[..|facts|] == facts && (facts + [x])[|facts|] == x && |facts + [x]| == |facts| + 1
  {
  }

  // ---- A frame is taken ----

  lemma TakeAuth(v: Server, facts: seq<Fact>, f: Frame, env: Env)
    requires Ready(v) && (v.handler.authOK <==> Authenticated(facts))
    ensures HandleFrame(v, f, env).handler.authOK <==> Authenticated(facts + [Took(f, env)])
  {
    hide PushControl, DecodeAuth, DecodeAddress, DecodeDatagram;
    LastFact(facts, Took(f, env));
  }

  /** What a frame does to the relays. */
  lemma HandleRelaySets(v: Server, f: Frame, env: Env)
    requires Ready(v)
    ensures var h, w := v.handler, HandleFrame(v, f, env).handler;
            && w.conns == (if h.authOK && f.kind == 0x20 && DecodeAddress(f.payload).Success? && env.dialError.None?
                           then h.conns + {f.channelID}
                           else if h.authOK && f.kind == 0x24 then h.conns - {f.channelID} else h.conns)
            && w.assocs == (if h.authOK && f.kind == 0x30 && DecodeAddress(f.payload).Success? && env.dialError.None?
                            then h.assocs + {f.channelID}
                            else if h.authOK && f.kind == 0x32 then h.assocs - {f.channelID} else h.assocs)
  {
    hide PushControl, DecodeAuth, DecodeAddress, DecodeDatagram;
  }

  lemma TakeRelays(v: Server, facts: seq<Fact>, f: Frame, env: Env)
    requires Ready(v) && (v.handler.authOK <==> Authenticated(facts)) && RelaysTold(v.handler, facts)
    ensures RelaysTold(HandleFrame(v, f, env).handler, facts + [Took(f, env)])
  {
    hide HandleFrame, Authenticated, DecodeAddress;
    HandleRelaySets(v, f, env);
    LastFact(facts, Took(f, env));
  }

  /** What a frame does to the TCP targets. */
  lemma HandleTargetBytes(v: Server, f: Frame, env: Env)
    requires Ready(v)
    ensures var h, w := v.handler, HandleFrame(v, f, env).handler;
            var ch := f.channelID;
            w.targets == if h.authOK && f.kind == 0x20 && DecodeAddress(f.payload).Success? && env.dialError.None?
                         then h.targets[ch := []]
                         else if h.authOK && f.kind == 0x23 && ch in h.conns
                         then h.targets[ch := (if ch in h.targets then h.targets[ch] else [])
                                 + Cut(f.payload, env.room)]
                         else h.targets
  {
    assert f.payload[..|f.payload|] == f.payload;
    hide PushControl, DecodeAuth, DecodeAddress, DecodeDatagram;
  }

  lemma TakeBytes(v: Server, facts: seq<Fact>, f: Frame, env: Env)
    requires Ready(v) && (v.handler.authOK <==> Authenticated(facts)) && RelaysTold(v.handler, facts)
    requires BytesTold(v.handler, facts)
    ensures var h := HandleFrame(v, f, env).handler;
            && (forall channel :: channel in h.conns ==> channel in h.targets)
            && (forall channel :: channel in h.targets ==>
                  h.targets[channel] == Received(facts + [Took(f, env)], channel))
  {
    hide HandleFrame, Authenticated, DecodeAddress, RelayOpen, UdpSent, UdpWrites;
    HandleRelaySets(v, f, env);
    HandleTargetBytes(v, f, env);
    LastFact(facts, Took(f, env));
  }

  /** The two ways to compute the age agree. */
  lemma ElapsedMod(now: uint32, sent: uint32)
    ensures Elapsed(now, sent) == (now - sent) % 0x1_0000_0000
  {
  }

  lemma HandleUdpTrace(v: Server, f: Frame, env: Env, channel: uint32)
    requires Ready(v)
    ensures var h, w := v.handler, HandleFrame(v, f, env).handler;
            UdpWrites(w.trace, channel)
            == UdpWrites(h.trace, channel)
               + if h.authOK && f.kind == 0x31 && |f.payload| >= 16 && channel == f.channelID && channel in h.assocs
                    && Elapsed(env.nowMS, DecodeDatagram(f.payload).value.sentMS)
                       <= DecodeDatagram(f.payload).value.deadlineMS
                 then [Cut(DecodeDatagram(f.payload).value.data, env.room)] else []
  {
    hide PushControl, DecodeAuth, DecodeAddress, HandleAuth, HandleOpenTCP, HandleOpenUDP, HandleTCPData,
      HandleTCPClose,
      HandleUDPClose, UdpWrites, Elapsed;
    if f.kind == UDPDATA && v.handler.authOK {
      UdpDataTrace(v, f, env, channel);
    } else {
      OtherUdpTrace(v, f, env, channel);
    }
  }

  lemma UdpDataTrace(v: Server, f: Frame, env: Env, channel: uint32)
    ensures var h, w := v.handler, HandleUDPData(v, f, env).handler;
            UdpWrites(w.trace, channel)
            == UdpWrites(h.trace, channel)
               + if |f.payload| >= 16 && channel == f.channelID && channel in h.assocs
                    && Elapsed(env.nowMS, DecodeDatagram(f.payload).value.sentMS)
                       <= DecodeDatagram(f.payload).value.deadlineMS
                 then [Cut(DecodeDatagram(f.payload).value.data, env.room)] else []
  {
    hide UdpWrites, Elapsed;
    if |f.payload| >= 16 {
      var d := DecodeDatagram(f.payload).value;
      assert d.data[..|d.data|] == d.data;
      WritesSnoc(v.handler.trace, Wrote(UdpNet, f.channelID, d.data[..Min(|d.data|, env.room)]), channel);
    }
  }

  lemma OtherUdpTrace(v: Server, f: Frame, env: Env, channel: uint32)
    requires Ready(v) && !(f.kind == UDPDATA && v.handler.authOK)
    ensures UdpWrites(HandleFrame(v, f, env).handler.trace, channel) == UdpWrites(v.handler.trace, channel)
  {
    hide PushControl, DecodeAuth, DecodeAddress, DecodeDatagram, UdpWrites;
    var h := v.handler;
    var ch := f.channelID;
    if f.kind == AUTH && DecodeAuth(f.payload).Success? {
      WritesSnoc(h.trace, Validated(DecodeAuth(f.payload).value, env.rejection.None?), channel);
    } else if f.kind == OPENTCP && DecodeAddress(f.payload).Success? {
      WritesSnoc(h.trace, Dialed(TcpNet, ch, DecodeAddress(f.payload).value, env.dialError), channel);
    } else if f.kind == OPENUDP && DecodeAddress(f.payload).Success? {
      WritesSnoc(h.trace, Dialed(UdpNet, ch, DecodeAddress(f.payload).value, env.dialError), channel);
    } else if f.kind == TCPDATA {
      WritesSnoc(h.trace, Wrote(TcpNet, ch, f.payload[..Min(|f.payload|, env.room)]), channel);
    } else if f.kind == TCPCLOSE || f.kind == UDPCLOSE {
      var net := if f.kind == TCPCLOSE then TcpNet else UdpNet;
      WritesSnoc(h.trace, Closed(net, ch), channel);
      WritesSnoc(h.trace + [Closed(net, ch)], Counted(-1), channel);
    }
  }

  lemma TakeUdp(v: Server, facts: seq<Fact>, f: Frame, env: Env, channel: uint32)
    requires Ready(v) && (v.handler.authOK <==> Authenticated(facts)) && RelaysTold(v.handler, facts)
    requires UdpWrites(v.handler.trace, channel) == UdpSent(facts, channel)
    ensures UdpWrites(HandleFrame(v, f, env).handler.trace, channel) == UdpSent(facts + [Took(f, env)], channel)
  {
    hide HandleFrame, Authenticated, UdpWrites, RelayOpen, Received, Elapsed;
    HandleUdpTrace(v, f, env, channel);
    LastFact(facts, Took(f, env));
    if |f.payload| >= 16 {
      ElapsedMod(env.nowMS, DatagramOf(f).sentMS);
    }
  }

  /** What a frame does to the counters. */
  lemma HandleCounters(v: Server, f: Frame, env: Env)
    requires Ready(v)
    ensures var h, w := v.handler, HandleFrame(v, f, env);
            var open := h.authOK && (f.kind == 0x20 || f.kind == 0x30)
                        && DecodeAddress(f.payload).Success? && env.dialError.None?;
            && (w.opening == if open then Some(f.channelID) else None)
            && w.handler.activeChannels
               == h.activeChannels - (if h.authOK && (f.kind == 0x24 || f.kind == 0x32) then 1 else 0)
            && w.handler.authFailures
               == h.authFailures
                  + (if f.kind == 0x01 && DecodeAuth(f.payload).Success? && env.rejection.Some? then 1 else 0)
            && w.handler.expiredUDP
               == h.expiredUDP
                  + (if h.authOK && f.kind == 0x31 && |f.payload| >= 16
                        && Elapsed(env.nowMS, DecodeDatagram(f.payload).value.sentMS)
                           > DecodeDatagram(f.payload).value.deadlineMS
                     then 1 else 0)
  {
    hide PushControl, DecodeAuth, DecodeAddress, Elapsed;
  }

  lemma TakeCounts(v: Server, facts: seq<Fact>, f: Frame, env: Env)
    requires Ready(v) && (v.handler.authOK <==> Authenticated(facts)) && CountsTold(v, facts)
    ensures CountsTold(HandleFrame(v, f, env), facts + [Took(f, env)])
  {
    hide HandleFrame, Authenticated, DecodeAuth, DecodeAddress, Elapsed;
    HandleCounters(v, f, env);
    LastFact(facts, Took(f, env));
    if |f.payload| >= 16 {
      ElapsedMod(env.nowMS, DatagramOf(f).sentMS);
    }
  }

  /** How a frame is answered, or what stops the handler from answering. */
  lemma HandleAnswers(v: Server, facts: seq<Fact>, f: Frame, env: Env)
    requires Ready(v) && (v.handler.authOK <==> Authenticated(facts))
    ensures var w, due := HandleFrame(v, f, env), AnswerTo(facts, Took(f, env));
            && |due| <= 1
            && (w.opening.Some? ==> w.stopped.None? && w.session == v.session
                                    && due == [ZERO_FRAME.(kind := 0x21, channelID := w.opening.value)])
            && (w.opening.None? && due == [] ==> w.session == v.session)
            && (w.opening.None? && due != [] ==>
                  w.session == PushControl(v.session, due[0])
                  && (w.stopped.None? ==> v.session.control.Accepts(due[0])))
  {
    hide PushControl, DecodeAuth, DecodeAddress, DecodeDatagram, Authenticated, Fifo.Accepts;
  }

  lemma AnswerIsAnswer(before: seq<Fact>, x: Fact)
    ensures forall i :: 0 <= i < |AnswerTo(before, x)| ==> IsAnswer(AnswerTo(before, x)[i])
  {
    hide Authenticated, DecodeAuth, DecodeAddress;
  }

  lemma TakeAnswers(v: Server, facts: seq<Fact>, f: Frame, env: Env)
    requires Ready(v) && (v.handler.authOK <==> Authenticated(facts)) && AnswersTold(v, facts)
    ensures AnswersTold(HandleFrame(v, f, env), facts + [Took(f, env)])
  {
    hide HandleFrame, Authenticated, Answers, AnswerTo, Fifo.Accepts;
    HandleAnswers(v, facts, f, env);
    AnswerIsAnswer(facts, Took(f, env));
    LastFact(facts, Took(f, env));
    var due := AnswerTo(facts, Took(f, env));
    if due != [] {
      assert due == [due[0]];
      AnswersSnoc(v.session.acceptedControl, due[0]);
    }
  }

  lemma TakeTold(t: Talk, f: Frame, env: Env)
    requires TalkInv(t) && Ready(t.server)
    ensures TalkInv(Talk(HandleFrame(t.server, f, env), t.facts + [Took(f, env)]))
  {
    hide HandleFrame, Authenticated, RelayOpen, Received, UdpSent, UdpWrites, CountsTold, AnswersTold;
    var v, w := t.server, HandleFrame(t.server, f, env);
    TakeAuth(v, t.facts, f, env);
    TakeRelays(v, t.facts, f, env);
    TakeBytes(v, t.facts, f, env);
    forall channel
      ensures UdpWrites(w.handler.trace, channel) == UdpSent(t.facts + [Took(f, env)], channel)
    {
      TakeUdp(v, t.facts, f, env, channel);
    }
    TakeCounts(v, t.facts, f, env);
    TakeAnswers(v, t.facts, f, env);
  }

  // ---- Everything else ----

  lemma FinishTold(t: Talk)
    requires TalkInv(t)
    ensures TalkInv(Talk(FinishOpen(t.server), t.facts))
  {
    hide Authenticated, RelayOpen, Received, UdpSent, UdpWrites, Answers, Due, Balance, Fifo.Accepts;
    var v := t.server;
    if v.opening.Some? && v.stopped.None? {
      var ok := ControlFrame(OPENOK, v.opening.value, []);
      AnswersSnoc(v.session.acceptedControl, ok);
      forall channel
        ensures UdpWrites(v.handler.trace + [Counted(1)], channel) == UdpWrites(v.handler.trace, channel)
      {
        WritesSnoc(v.handler.trace, Counted(1), channel);
      }
    }
  }

  /** A relay dropped by a goroutine. */
  lemma DropTold(t: Talk, net: Network, channel: uint32, h: Handler)
    requires TalkInv(t)
    requires h == Log(t.server.handler.(conns := h.conns, assocs := h.assocs, closing := h.closing,
                                        udpClosing := h.udpClosing), Closed(net, channel))
    requires h.conns == (if net == TcpNet then t.server.handler.conns - {channel} else t.server.handler.conns)
    requires h.assocs == (if net == UdpNet then t.server.handler.assocs - {channel} else t.server.handler.assocs)
    ensures TalkInv(Talk(t.server.(handler := h), t.facts + [Lost(net, channel)]))
  {
    hide UdpWrites, Answers;
    LastFact(t.facts, Lost(net, channel));
    forall ch
      ensures UdpWrites(h.trace, ch) == UdpWrites(t.server.handler.trace, ch)
    {
      WritesSnoc(t.server.handler.trace, Closed(net, channel), ch);
    }
  }

  /** Steps that change the queues only. */
  lemma QueueTold(t: Talk, v: Server)
    requires TalkInv(t) && v.handler == t.server.handler.(copying := v.handler.copying, closing := v.handler.closing,
                                                          udpReading := v.handler.udpReading,
                                                          udpClosing := v.handler.udpClosing)
    requires v.opening == t.server.opening && v.stopped == t.server.stopped
    requires Answers(v.session.acceptedControl) == Answers(t.server.session.acceptedControl)
    requires v.session.heartbeat.Holding? ==> v.session.heartbeat.ping.kind == PING
    ensures TalkInv(Talk(v, t.facts))
  {
    hide Authenticated, RelayOpen, Received, UdpSent, UdpWrites, Answers, Due, Balance, RejectedCount, LateCount;
  }

  lemma LoopAnswers(s: Session, a: Action)
    requires InternalAction(a) && (s.heartbeat.Holding? ==> s.heartbeat.ping.kind == PING)
    ensures Answers(Step(s, a).acceptedControl) == Answers(s.acceptedControl)
    ensures Step(s, a).heartbeat.Holding? ==> Step(s, a).heartbeat.ping.kind == PING
  {
    hide Encoding, EncodeError, StampFrame, Answers, Fifo.Accepts;
    if a.PushPing? && s.heartbeat.Holding? {
      AnswersSnoc(s.acceptedControl, s.heartbeat.ping);
    }
  }

  lemma PushAnswers(s: Session, f: Frame)
    requires !IsAnswer(f)
    ensures Answers(PushControl(s, f).acceptedControl) == Answers(s.acceptedControl)
    ensures PushData(s, f).acceptedControl == s.acceptedControl
    ensures PushControl(s, f).heartbeat == PushData(s, f).heartbeat == s.heartbeat
  {
    hide Answers, Fifo.Accepts;
    AnswersSnoc(s.acceptedControl, f);
  }

  lemma QuietAnswers(v: Server, e: Event)
    requires !e.Receive? && !e.Answer? && !e.TargetDrop? && !e.UdpDrop?
    requires v.session.heartbeat.Holding? ==> v.session.heartbeat.ping.kind == PING
    ensures var w := React(v, e);
            && Answers(w.session.acceptedControl) == Answers(v.session.acceptedControl)
            && (w.session.heartbeat.Holding? ==> w.session.heartbeat.ping.kind == PING)
            && w.opening == v.opening && w.stopped == v.stopped
            && w.handler == v.handler.(copying := w.handler.copying, closing := w.handler.closing,
                                       udpReading := w.handler.udpReading, udpClosing := w.handler.udpClosing)
  {
    hide Answers, Step, PushControl, PushData, UdpDataFrame, ReplyDatagram;
    var s := v.session;
    match e
    case Loop(a) => if InternalAction(a) { LoopAnswers(s, a); }
    case TargetData(ch, p) => PushAnswers(s, ZERO_FRAME.(kind := TCPDATA, channelID := ch, payload := p));
    case TargetEnd(ch) => PushAnswers(s, ControlFrame(TCPCLOSE, ch, []));
    case UdpReply(ch, data, id) =>
      if 0 < |data| <= MAX_LOCAL_DATAGRAM {
        UdpFrameKind(ch, ReplyDatagram(data, id));
        PushAnswers(s, UdpDataFrame(ch, ReplyDatagram(data, id)));
      }
    case UdpEnd(ch) => PushAnswers(s, ControlFrame(UDPCLOSE, ch, []));
    case _ =>
  }

  lemma QuietTold(t: Talk, e: Event)
    requires TalkInv(t) && !e.Receive? && !e.Answer? && !e.TargetDrop? && !e.UdpDrop?
    ensures TalkInv(Talk(React(t.server, e), t.facts))
  {
    hide TalkInv, React;
    HeartbeatPing(t);
    QuietAnswers(t.server, e);
    QueueTold(t, React(t.server, e));
  }

  lemma UdpFrameKind(channel: uint32, d: Datagram)
    ensures UdpDataFrame(channel, d).kind == UDPDATA
  {
  }

  lemma HeartbeatPing(t: Talk)
    requires TalkInv(t)
    ensures t.server.session.heartbeat.Holding? ==> t.server.session.heartbeat.ping.kind == PING
  {
  }

  lemma ListenTold(t: Talk, e: Event)
    requires TalkInv(t)
    ensures TalkInv(Listen(t, e))
  {
    hide TalkInv, HandleFrame, FinishOpen;
    match e
    case Receive(f, env) => if Ready(t.server) { TakeTold(t, f, env); }
    case Answer => FinishTold(t);
    case TargetDrop(ch) =>
      if ch in t.server.handler.closing {
        DropTold(t, TcpNet, ch, React(t.server, e).handler);
      }
    case UdpDrop(ch) =>
      if ch in t.server.handler.udpClosing {
        DropTold(t, UdpNet, ch, React(t.server, e).handler);
      }
    case _ => QuietTold(t, e);
  }

  lemma {:induction false} ListenAllTold(t: Talk, es: seq<Event>)
    requires TalkInv(t)
    ensures TalkInv(ListenAll(t, es)) && ListenAll(t, es).server == RunServer(t.server, es)
    decreases |es|
  {
    hide TalkInv, React;
    if es != [] {
      ListenTold(t, es[0]);
      ListenAllTold(Listen(t, es[0]), es[1..]);
    }
  }

  lemma NothingTold(id: uint32)
    ensures TalkInv(Talk(NewServer(id), []))
  {
  }

  /** In every run of the server, whatever a peer sends and however the goroutines interleave, the history of the
      session determines: whether it is authenticated, which relays are open, what every TCP target has taken since
      its channel was opened, which datagrams every UDP target was sent, the channel count (an open counts from the
      moment it is answered), and the counts of rejected tokens and late datagrams. */
  lemma HistoryTellsState(id: uint32, es: seq<Event>, channel: uint32)
    ensures var t := ListenAll(Talk(NewServer(id), []), es);
            var h := t.server.handler;
            && t.server == RunServer(NewServer(id), es)
            && (h.authOK <==> Authenticated(t.facts))
            && (channel in h.conns <==> RelayOpen(t.facts, TcpNet, channel))
            && (channel in h.assocs <==> RelayOpen(t.facts, UdpNet, channel))
            && (channel in h.targets ==> h.targets[channel] == Received(t.facts, channel))
            && UdpWrites(h.trace, channel) == UdpSent(t.facts, channel)
            && h.activeChannels == Balance(t.facts) - (if t.server.opening.Some? then 1 else 0)
            && h.authFailures == RejectedCount(t.facts) && h.expiredUDP == LateCount(t.facts)
  {
    hide React, ListenAll, Authenticated, RelayOpen, Received, UdpSent, UdpWrites;
    NothingTold(id);
    ListenAllTold(Talk(NewServer(id), []), es);
  }

  /** In every run of the server, every request has its answer: the answers its control queue accepted are, in order,
      those its requests call for, all of them as long as the handler is ready for the next frame, and all but at most
      the last in any case.  An AUTH is answered AUTHOK, or AUTHERR with the reason, a PING by a PONG, an open by
      OPENOK,
      or OPENERR with the reason, and nothing else is answered. */
  lemma RequestsAnsweredInOrder(id: uint32, es: seq<Event>)
    ensures var t := ListenAll(Talk(NewServer(id), []), es);
            var given, due := Answers(t.server.session.acceptedControl), Due(t.facts);
            && given <= due && |due| <= |given| + 1
            && (Ready(t.server) ==> given == due)
            && (t.server.opening.Some? ==>
                  due == given + [ZERO_FRAME.(kind := 0x21, channelID := t.server.opening.value)])
  {
    hide React, ListenAll, Authenticated, RelayOpen, Received, UdpSent, UdpWrites, Answers, Due, RelaysTold, BytesTold;
    NothingTold(id);
    ListenAllTold(Talk(NewServer(id), []), es);
  }

  // ---- What ends the session ----

  /** A length field of two bytes that promises more than follows it. */
  predicate Overruns(p: seq<byte>, header: nat) {
    |p| < 2 + header ||
    var hi: int, lo: int := p[0], p[1];
    |p| < 2 + header + 0x100 * hi + lo
  }

  predicate InTime(f: Frame, nowMS: uint32) {
    |f.payload| >= 16 && Age(f, nowMS) <= DatagramOf(f).deadlineMS
  }

  lemma Malformed(p: seq<byte>)
    ensures DecodeAuth(p).Failure? <==> Overruns(p, 12)
    ensures DecodeAddress(p).Failure? <==> Overruns(p, 0)
    ensures DecodeDatagram(p).Failure? <==> |p| < 16
  {
  }

  /** What stops the handler at a frame, in terms of the handler's own flags and tables. */
  lemma HandleStops(v: Server, f: Frame, env: Env)
    requires Ready(v)
    ensures var h, w, ch := v.handler, HandleFrame(v, f, env), f.channelID;
            && (w.stopped == Some(AuthRequired) <==> !h.authOK && f.kind != 0x01)
            && (w.stopped == Some(AuthRejected) <==>
                  f.kind == 0x01 && DecodeAuth(f.payload).Success? && env.rejection.Some?)
            && (w.stopped == Some(Cancelled) <==> h.authOK && f.kind == 0x7F)
            && (w.stopped == Some(BadPayload) <==>
                  (f.kind == 0x01 && DecodeAuth(f.payload).Failure?)
                  || (h.authOK && (f.kind == 0x20 || f.kind == 0x30) && DecodeAddress(f.payload).Failure?)
                  || (h.authOK && f.kind == 0x31 && |f.payload| < 16))
  {
    hide PushControl, DecodeAuth, DecodeAddress, Fifo.Accepts, Elapsed, Registered, Associated;
  }

  lemma HandleWriteStops(v: Server, f: Frame, env: Env)
    requires Ready(v)
    ensures var h, w, ch := v.handler, HandleFrame(v, f, env), f.channelID;
            && (w.stopped == Some(RelayGone) <==>
                  h.authOK && ((f.kind == 0x23 && ch !in h.conns)
                               || (f.kind == 0x31 && InTime(f, env.nowMS) && ch !in h.assocs)))
            && (w.stopped == Some(TargetWriteFailed) <==>
                  h.authOK && ((f.kind == 0x23 && ch in h.conns && env.room < |f.payload|)
                               || (f.kind == 0x31 && InTime(f, env.nowMS) && ch in h.assocs
                                   && env.room < |f.payload| - 16)))
            && (f.kind !in {0x01, 0x11, 0x20, 0x30} ==> w.session == v.session)
  {
    hide PushControl, DecodeAuth, DecodeAddress, Fifo.Accepts, Elapsed, Registered, Associated;
    if |f.payload| >= 16 {
      ElapsedMod(env.nowMS, DatagramOf(f).sentMS);
    }
  }

  /** What stops the handler from answering: a full control queue. */
  lemma HandleQueueStops(v: Server, facts: seq<Fact>, f: Frame, env: Env)
    requires Ready(v) && (v.handler.authOK <==> Authenticated(facts))
    ensures var w, due := HandleFrame(v, f, env), AnswerTo(facts, Took(f, env));
            w.stopped == Some(QueueFull) <==>
            due != [] && due[0].kind in {0x02, 0x12, 0x22} && !v.session.control.Accepts(due[0])
  {
    hide PushControl, DecodeAuth, DecodeAddress, DecodeDatagram, Authenticated, Fifo.Accepts, Registered, Associated;
  }

  /** Exactly what makes the server's handler fail, over every run and for every frame it may take next: each of its
      seven errors occurs if and only if the condition given for it here holds of the history, the frame, and the
      outside world's reply; in all other cases the session goes on.  Frames that are neither AUTH, PING nor an open
      leave the session's queues alone. */
  lemma StopsExactly(id: uint32, es: seq<Event>, f: Frame, env: Env)
    requires Ready(RunServer(NewServer(id), es))
    ensures var t := ListenAll(Talk(NewServer(id), []), es);
            var v, w, ch, p := t.server, React(t.server, Receive(f, env)), f.channelID, f.payload;
            var known, due := Authenticated(t.facts), AnswerTo(t.facts, Took(f, env));
            && v == RunServer(NewServer(id), es)
            && (w.stopped == Some(AuthRequired) <==> !known && f.kind != 0x01)
            && (w.stopped == Some(BadPayload) <==>
                  (f.kind == 0x01 && Overruns(p, 12)) || (known && f.kind == 0x20 && Overruns(p, 0))
                  || (known && f.kind == 0x30 && Overruns(p, 0)) || (known && f.kind == 0x31 && |p| < 16))
            && (w.stopped == Some(AuthRejected) <==> f.kind == 0x01 && !Overruns(p, 12) && env.rejection.Some?)
            && (w.stopped == Some(QueueFull) <==>
                  due != [] && due[0].kind in {0x02, 0x12, 0x22} && !v.session.control.Accepts(due[0]))
            && (w.stopped == Some(RelayGone) <==>
                  known && ((f.kind == 0x23 && !RelayOpen(t.facts, TcpNet, ch))
                            || (f.kind == 0x31 && InTime(f, env.nowMS) && !RelayOpen(t.facts, UdpNet, ch))))
            && (w.stopped == Some(TargetWriteFailed) <==>
                  known && ((f.kind == 0x23 && RelayOpen(t.facts, TcpNet, ch) && env.room < |p|)
                            || (f.kind == 0x31 && InTime(f, env.nowMS) && RelayOpen(t.facts, UdpNet, ch)
                                && env.room < |p| - 16)))
            && (w.stopped == Some(Cancelled) <==> known && f.kind == 0x7F)
            && (f.kind !in {0x01, 0x11, 0x20, 0x30} ==> w.session == v.session)
  {
    hide HandleFrame, ListenAll, RunServer, Authenticated, RelayOpen, DecodeAuth, DecodeAddress, AnswerTo, Fifo.Accepts,
      BytesTold, CountsTold, AnswersTold, Age;
    NothingTold(id);
    ListenAllTold(Talk(NewServer(id), []), es);
    var t := ListenAll(Talk(NewServer(id), []), es);
    Malformed(f.payload);
    HandleStops(t.server, f, env);
    HandleWriteStops(t.server, f, env);
    HandleQueueStops(t.server, t.facts, f, env);
  }

  /** The answer to a granted open fails exactly when the control queue refuses it. */
  lemma AnswerStopsExactly(v: Server)
    requires v.stopped.None? && v.opening.Some?
    ensures var ok := ZERO_FRAME.(kind := 0x21, channelID := v.opening.value);
            && (React(v, Answer).stopped == if v.session.control.Accepts(ok) then None else Some(QueueFull))
            && React(v, Answer).opening == None
  {
    hide PushControl, Fifo.Accepts;
  }
}
