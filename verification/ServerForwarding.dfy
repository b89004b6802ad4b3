/** What the server's goroutines do with what they read: every chunk and every datagram of a target is offered to the
    data queue as it is, every target's end to the control queue, once per goroutine, and nothing else gets into the
    data queue. */
module ServerForwarding {
  import opened Bytes
  import opened FrameCodec
  import opened FrameQueues
  import opened SessionSystem
  import opened Messages
  import opened ServerHandler
  import Reassembly

  /** A goroutine began to read from a target, read something and offered it, saw the end and offered a close, or
      dropped the relay; `kept` if the queue took it. */
  datatype Fact =
    | Began(net: Network, channel: uint32)
    | Heard(net: Network, channel: uint32, data: seq<byte>, id: uint32, kept: bool)
    | Ended(net: Network, channel: uint32, kept: bool)
    | Dropped(net: Network, channel: uint32)

  datatype Watch = Watch(server: Server, facts: seq<Fact>)

  /** The frame in which something heard from a target travels. */
  function Carries(net: Network, channel: uint32, data: seq<byte>, id: uint32): Frame {
    if net == TcpNet then ZERO_FRAME.(kind := 0x23, channelID := channel, payload := data)
    else ZERO_FRAME.(kind := 0x31, channelID := channel,
                     payload := EncodeDatagram(Datagram(id, 0, 1000, 0, 1, Low16(|data|), data)))
  }

  function Closes(net: Network, channel: uint32): Frame {
    ZERO_FRAME.(kind := if net == TcpNet then 0x24 else 0x32, channelID := channel)
  }

  /** A ready, authenticated handler takes an open whose address parses and whose dial succeeds. */
  predicate Opens(v: Server, f: Frame, env: Env, net: Network) {
    && Ready(v) && v.handler.authOK && f.kind == (if net == TcpNet then 0x20 else 0x30)
    && DecodeAddress(f.payload).Success? && env.dialError.None?
  }

  function Note(v: Server, e: Event): seq<Fact> {
    var h, s := v.handler, v.session;
    match e
    case Receive(f, env) =>
      if Opens(v, f, env, TcpNet) then [Began(TcpNet, f.channelID)]
      else if Opens(v, f, env, UdpNet) then [Began(UdpNet, f.channelID)] else []
    case TargetData(ch, p) =>
      if ch in h.copying && 0 < |p| <= 16384
      then [Heard(TcpNet, ch, p, 0, s.data.Accepts(Carries(TcpNet, ch, p, 0)))] else []
    case UdpReply(ch, p, id) =>
      if ch in h.udpReading && 0 < |p| <= 1200
      then [Heard(UdpNet, ch, p, id, s.data.Accepts(Carries(UdpNet, ch, p, id)))] else []
    case TargetEnd(ch) =>
      if ch in h.copying then [Ended(TcpNet, ch, s.control.Accepts(Closes(TcpNet, ch)))] else []
    case UdpEnd(ch) =>
      if ch in h.udpReading then [Ended(UdpNet, ch, s.control.Accepts(Closes(UdpNet, ch)))] else []
    case TargetDrop(ch) => if ch in h.closing then [Dropped(TcpNet, ch)] else []
    case UdpDrop(ch) => if ch in h.udpClosing then [Dropped(UdpNet, ch)] else []
    case _ => []
  }

  function Observe(w: Watch, e: Event): Watch {
    Watch(React(w.server, e), w.facts + Note(w.server, e))
  }

  function ObserveAll(w: Watch, es: seq<Event>): Watch
    decreases |es|
  {
    if es == [] then w else ObserveAll(Observe(w, es[0]), es[1..])
  }

  // ---- What the history says ----

  function BeganCount(facts: seq<Fact>, net: Network, channel: uint32): nat {
    if facts == [] then 0
    else BeganCount(facts[..|facts| - 1], net, channel) + if facts[|facts| - 1] == Began(net, channel) then 1 else 0
  }

  function EndedCount(facts: seq<Fact>, net: Network, channel: uint32): nat {
    if facts == [] then 0
    else
      var x := facts[|facts| - 1];
      EndedCount(facts[..|facts| - 1], net, channel)
      + if x.Ended? && x.net == net && x.channel == channel then 1 else 0
  }

  function DroppedCount(facts: seq<Fact>, net: Network, channel: uint32): nat {
    if facts == [] then 0
    else DroppedCount(facts[..|facts| - 1], net, channel) + if facts[|facts| - 1] == Dropped(net, channel) then 1 else 0
  }

  function KeptData(facts: seq<Fact>): seq<Frame> {
    if facts == [] then []
    else
      var x := facts[|facts| - 1];
      KeptData(facts[..|facts| - 1])
      + if x.Heard? && x.kept then [Carries(x.net, x.channel, x.data, x.id)] else []
  }

  function KeptCloses(facts: seq<Fact>): seq<Frame> {
    if facts == [] then []
    else
      var x := facts[|facts| - 1];
      KeptCloses(facts[..|facts| - 1]) + if x.Ended? && x.kept then [Closes(x.net, x.channel)] else []
  }

  /** The closes among control frames. */
  function ClosesIn(fs: seq<Frame>): seq<Frame> {
    if fs == [] then []
    else ClosesIn(fs[..|fs| - 1]) + if fs[|fs| - 1].kind in {0x24, 0x32} then [fs[|fs| - 1]] else []
  }

  lemma ClosesSnoc(fs: seq<Frame>, f: Frame)
    ensures ClosesIn(fs + [f]) == ClosesIn(fs) + if f.kind in {0x24, 0x32} then [f] else []
  {
    assert (fs + [f])[..|fs|] == fs;
  }

  lemma KeptSnoc(facts: seq<Fact>, x: Fact)
    ensures KeptData(facts + [x])
            == KeptData(facts) + if x.Heard? && x.kept then [Carries(x.net, x.channel, x.data, x.id)] else []
    ensures KeptCloses(facts + [x]) == KeptCloses(facts) + if x.Ended? && x.kept then [Closes(x.net, x.channel)] else []
  {
    assert (facts + [x])[..|facts|] == facts;
  }

  lemma CountSnoc(facts: seq<Fact>, x: Fact, net: Network, ch: uint32)
    ensures BeganCount(facts + [x], net, ch) == BeganCount(facts, net, ch) + if x == Began(net, ch) then 1 else 0
    ensures EndedCount(facts + [x], net, ch)
            == EndedCount(facts, net, ch) + if x.Ended? && x.net == net && x.channel == ch then 1 else 0
    ensures DroppedCount(facts + [x], net, ch) == DroppedCount(facts, net, ch) + if x == Dropped(net, ch) then 1 else 0
  {
    assert (facts + [x])[..|facts|] == facts;
  }

  // ---- The invariant ----

  ghost predicate GoroutinesOf(h: Handler, facts: seq<Fact>, channel: uint32) {
    && h.copying[channel] == BeganCount(facts, TcpNet, channel) - EndedCount(facts, TcpNet, channel)
    && h.udpReading[channel] == BeganCount(facts, UdpNet, channel) - EndedCount(facts, UdpNet, channel)
    && h.closing[channel] == EndedCount(facts, TcpNet, channel) - DroppedCount(facts, TcpNet, channel)
    && h.udpClosing[channel] == EndedCount(facts, UdpNet, channel) - DroppedCount(facts, UdpNet, channel)
  }

  ghost predicate Goroutines(h: Handler, facts: seq<Fact>) {
    forall channel: uint32 :: GoroutinesOf(h, facts, channel)
  }

  ghost predicate Queued(s: Session, facts: seq<Fact>) {
    && s.acceptedData == KeptData(facts) && ClosesIn(s.acceptedControl) == KeptCloses(facts)
    && (s.heartbeat.Holding? ==> s.heartbeat.ping.kind == PING)
  }

  ghost predicate WatchInv(w: Watch) {
    Goroutines(w.server.handler, w.facts) && Queued(w.server.session, w.facts)
  }

  // ---- Frames ----

  lemma HandleGoroutines(v: Server, f: Frame, env: Env)
    requires Ready(v)
    ensures var h, w := v.handler, HandleFrame(v, f, env).handler;
            && w.copying == (if Opens(v, f, env, TcpNet) then h.copying + multiset{f.channelID} else h.copying)
            && w.udpReading == (if Opens(v, f, env, UdpNet) then h.udpReading + multiset{f.channelID} else h.udpReading)
            && w.closing == h.closing && w.udpClosing == h.udpClosing
  {
    hide PushControl, DecodeAuth, DecodeAddress, DecodeDatagram, Elapsed;
  }

  /** A frame puts nothing into the data queue and no close into the control queue. */
  lemma HandleQueues(v: Server, f: Frame, env: Env)
    requires Ready(v)
    ensures var s, t := v.session, HandleFrame(v, f, env).session;
            && t.acceptedData == s.acceptedData && t.heartbeat == s.heartbeat
            && ClosesIn(t.acceptedControl) == ClosesIn(s.acceptedControl)
  {
    hide Fifo.Accepts, DecodeAuth, DecodeAddress, DecodeDatagram, Elapsed, ClosesIn;
    forall g: Frame | g.kind !in {0x24, 0x32}
      ensures ClosesIn(v.session.acceptedControl + [g]) == ClosesIn(v.session.acceptedControl)
    {
      ClosesSnoc(v.session.acceptedControl, g);
    }
  }

  /** One more fact, and what it does to the goroutines of each channel. */
  lemma GoroutinesNext(h: Handler, g: Handler, facts: seq<Fact>, x: Fact)
    requires Goroutines(h, facts)
    requires forall ch: uint32 ::
               && g.copying[ch] == h.copying[ch] + (if x == Began(TcpNet, ch) then 1 else 0) - Ends(x, TcpNet, ch)
               && g.udpReading[ch] == h.udpReading[ch] + (if x == Began(UdpNet, ch) then 1 else 0) - Ends(x, UdpNet, ch)
               && g.closing[ch] == h.closing[ch] + Ends(x, TcpNet, ch) - (if x == Dropped(TcpNet, ch) then 1 else 0)
               && g.udpClosing[ch]
                  == h.udpClosing[ch] + Ends(x, UdpNet, ch) - (if x == Dropped(UdpNet, ch) then 1 else 0)
    ensures Goroutines(g, facts + [x])
  {
    hide BeganCount, EndedCount, DroppedCount;
    forall ch: uint32
      ensures GoroutinesOf(g, facts + [x], ch)
    {
      assert GoroutinesOf(h, facts, ch);
      CountSnoc(facts, x, TcpNet, ch);
      CountSnoc(facts, x, UdpNet, ch);
    }
  }

  function Ends(x: Fact, net: Network, channel: uint32): int {
    if x.Ended? && x.net == net && x.channel == channel then 1 else 0
  }

  lemma SameGoroutines(h: Handler, g: Handler, facts: seq<Fact>)
    requires Goroutines(h, facts) && g.copying == h.copying && g.udpReading == h.udpReading
    requires g.closing == h.closing && g.udpClosing == h.udpClosing
    ensures Goroutines(g, facts)
  {
    hide BeganCount, EndedCount, DroppedCount;
    forall ch: uint32
      ensures GoroutinesOf(g, facts, ch)
    {
      assert GoroutinesOf(h, facts, ch);
    }
  }

  lemma ReceiveWatch(w: Watch, f: Frame, env: Env)
    requires WatchInv(w)
    ensures WatchInv(Observe(w, Receive(f, env)))
  {
    hide HandleFrame, DecodeAddress, KeptData, KeptCloses, ClosesIn, Goroutines;
    var v := w.server;
    var x := Began(if Opens(v, f, env, TcpNet) then TcpNet else UdpNet, f.channelID);
    KeptSnoc(w.facts, x);
    assert w.facts + [] == w.facts;
    if Ready(v) {
      HandleGoroutines(v, f, env);
      HandleQueues(v, f, env);
      if Opens(v, f, env, TcpNet) || Opens(v, f, env, UdpNet) {
        GoroutinesNext(v.handler, HandleFrame(v, f, env).handler, w.facts, x);
      } else {
        SameGoroutines(v.handler, HandleFrame(v, f, env).handler, w.facts);
      }
    }
  }

  // ---- Goroutines ----

  /** What a goroutine's step does to the queues. */
  lemma QueuedNext(w: Watch, e: Event)
    requires Queued(w.server.session, w.facts) && (e.TargetData? || e.UdpReply? || e.TargetEnd? || e.UdpEnd?)
    ensures Queued(Observe(w, e).server.session, Observe(w, e).facts)
  {
    hide Fifo.Accepts, KeptData, KeptCloses, ClosesIn, EncodeDatagram;
    assert w.facts + [] == w.facts;
    if Note(w.server, e) != [] {
      var x := Note(w.server, e)[0];
      assert Note(w.server, e) == [x];
      KeptSnoc(w.facts, x);
      if e.UdpReply? {
        ReplyCarried(e.channel, e.data, e.id);
      } else if x.Ended? {
        ClosesSnoc(w.server.session.acceptedControl, Closes(x.net, x.channel));
      }
    }
  }

  lemma ReplyCarried(channel: uint32, data: seq<byte>, id: uint32)
    requires 0 < |data| <= 1200
    ensures UdpDataFrame(channel, ReplyDatagram(data, id)) == Carries(UdpNet, channel, data, id)
  {
    assert Reassembly.FragCount(|data|) == 1;
    assert data[0..|data|] == data;
  }

  /** What a goroutine's step does to the goroutines. */
  lemma HeardGoroutines(w: Watch, e: Event)
    requires Goroutines(w.server.handler, w.facts) && (e.TargetData? || e.UdpReply?)
    ensures Goroutines(Observe(w, e).server.handler, Observe(w, e).facts)
  {
    hide Goroutines, Fifo.Accepts, PushData, UdpDataFrame, ReplyDatagram, Carries;
    assert w.facts + [] == w.facts;
    var h := w.server.handler;
    SameGoroutines(h, h, w.facts);
    if Note(w.server, e) != [] {
      var x := Note(w.server, e)[0];
      assert Note(w.server, e) == [x];
      GoroutinesNext(h, h, w.facts, x);
    }
  }

  lemma EndedGoroutines(w: Watch, e: Event)
    requires Goroutines(w.server.handler, w.facts) && (e.TargetEnd? || e.UdpEnd?)
    ensures Goroutines(Observe(w, e).server.handler, Observe(w, e).facts)
  {
    hide Goroutines, Fifo.Accepts, PushControl, Closes;
    assert w.facts + [] == w.facts;
    var h, g := w.server.handler, React(w.server, e).handler;
    if Note(w.server, e) != [] {
      var x := Note(w.server, e)[0];
      assert Note(w.server, e) == [x];
      GoroutinesNext(h, g, w.facts, x);
    } else {
      SameGoroutines(h, g, w.facts);
    }
  }

  lemma DroppedGoroutines(w: Watch, e: Event)
    requires Goroutines(w.server.handler, w.facts) && (e.TargetDrop? || e.UdpDrop?)
    ensures Goroutines(Observe(w, e).server.handler, Observe(w, e).facts)
  {
    hide Goroutines;
    assert w.facts + [] == w.facts;
    var h, g := w.server.handler, React(w.server, e).handler;
    if Note(w.server, e) != [] {
      var x := Note(w.server, e)[0];
      assert Note(w.server, e) == [x];
      GoroutinesNext(h, g, w.facts, x);
    } else {
      SameGoroutines(h, g, w.facts);
    }
  }

  lemma StepGoroutines(w: Watch, e: Event)
    requires Goroutines(w.server.handler, w.facts) && !e.Receive? && !e.Loop? && !e.Answer?
    ensures Goroutines(Observe(w, e).server.handler, Observe(w, e).facts)
  {
    hide Goroutines, React, Note;
    if e.TargetData? || e.UdpReply? {
      HeardGoroutines(w, e);
    } else if e.TargetEnd? || e.UdpEnd? {
      EndedGoroutines(w, e);
    } else {
      DroppedGoroutines(w, e);
    }
  }

  lemma GoroutineWatch(w: Watch, e: Event)
    requires WatchInv(w) && !e.Receive? && !e.Loop? && !e.Answer?
    ensures WatchInv(Observe(w, e))
  {
    hide Goroutines, Queued, React, Note;
    StepGoroutines(w, e);
    if e.TargetDrop? || e.UdpDrop? {
      DropQueued(w, e);
    } else {
      QueuedNext(w, e);
    }
  }

  lemma DropQueued(w: Watch, e: Event)
    requires Queued(w.server.session, w.facts) && (e.TargetDrop? || e.UdpDrop?)
    ensures Queued(Observe(w, e).server.session, Observe(w, e).facts)
  {
    hide KeptData, KeptCloses, ClosesIn;
    assert w.facts + [] == w.facts;
    KeptSnoc(w.facts, Dropped(if e.TargetDrop? then TcpNet else UdpNet, e.channel));
  }

  lemma LoopCloses(s: Session, a: Action)
    requires InternalAction(a) && (s.heartbeat.Holding? ==> s.heartbeat.ping.kind == PING)
    ensures var t := Step(s, a);
            && ClosesIn(t.acceptedControl) == ClosesIn(s.acceptedControl) && t.acceptedData == s.acceptedData
            && (t.heartbeat.Holding? ==> t.heartbeat.ping.kind == PING)
  {
    hide Encoding, EncodeError, StampFrame, ClosesIn, Fifo.Accepts;
    if a.PushPing? && s.heartbeat.Holding? {
      ClosesSnoc(s.acceptedControl, s.heartbeat.ping);
    }
  }

  lemma OtherWatch(w: Watch, e: Event)
    requires WatchInv(w) && (e.Loop? || e.Answer?)
    ensures WatchInv(Observe(w, e))
  {
    hide Step, Fifo.Accepts, KeptData, KeptCloses, ClosesIn, Goroutines;
    assert w.facts + [] == w.facts;
    var s := w.server.session;
    SameGoroutines(w.server.handler, React(w.server, e).handler, w.facts);
    if e.Loop? && InternalAction(e.action) {
      LoopCloses(s, e.action);
    } else if e.Answer? && w.server.opening.Some? {
      ClosesSnoc(s.acceptedControl, ControlFrame(OPENOK, w.server.opening.value, []));
    }
  }

  lemma {:induction false} ObserveAllInv(w: Watch, es: seq<Event>)
    requires WatchInv(w)
    ensures WatchInv(ObserveAll(w, es)) && ObserveAll(w, es).server == RunServer(w.server, es)
    decreases |es|
  {
    hide WatchInv, React, Note;
    if es != [] {
      match es[0] {
        case Receive(f, env) => ReceiveWatch(w, f, env);
        case Loop(_) => OtherWatch(w, es[0]);
        case Answer => OtherWatch(w, es[0]);
        case _ => GoroutineWatch(w, es[0]);
      }
      ObserveAllInv(Observe(w, es[0]), es[1..]);
    }
  }

  lemma StartWatch(id: uint32)
    ensures WatchInv(Watch(NewServer(id), []))
  {
  }

  /** In every run of the server: the data queue has accepted exactly the chunks and datagrams that its goroutines read
      from targets and that it did not refuse, unchanged and in order; the closes its control queue has accepted are
      exactly those of the goroutines whose target ended; and the goroutines that read from a channel's target are as
      many as granted opens of the channel, less those that have ended. */
  lemma TargetsAreForwarded(id: uint32, es: seq<Event>, channel: uint32)
    ensures var w := ObserveAll(Watch(NewServer(id), []), es);
            var s, h := w.server.session, w.server.handler;
            && w.server == RunServer(NewServer(id), es)
            && s.acceptedData == KeptData(w.facts) && ClosesIn(s.acceptedControl) == KeptCloses(w.facts)
            && h.copying[channel] == BeganCount(w.facts, TcpNet, channel) - EndedCount(w.facts, TcpNet, channel)
            && h.udpReading[channel] == BeganCount(w.facts, UdpNet, channel) - EndedCount(w.facts, UdpNet, channel)
            && h.closing[channel] == EndedCount(w.facts, TcpNet, channel) - DroppedCount(w.facts, TcpNet, channel)
            && h.udpClosing[channel] == EndedCount(w.facts, UdpNet, channel) - DroppedCount(w.facts, UdpNet, channel)
  {
    hide ObserveAll, RunServer, BeganCount, EndedCount, DroppedCount, KeptData, KeptCloses, ClosesIn;
    StartWatch(id);
    ObserveAllInv(Watch(NewServer(id), []), es);
    assert GoroutinesOf(ObserveAll(Watch(NewServer(id), []), es).server.handler,
                        ObserveAll(Watch(NewServer(id), []), es).facts, channel);
  }
}
