/** The client side of a session: channel allocation, the open/reply rendezvous, the local connections,
    and the goroutines that copy from them into the tunnel. */
module TunnelClient {
  import opened Bytes
  import opened FrameCodec
  import opened SessionSystem
  import opened Messages

  datatype Kind = Tcp | Udp

  datatype OpenResult = Granted | Refused(reason: seq<byte>)

  /** A result channel of capacity one, with counts of the sends and closes it has seen. */
  datatype ResultChannel = ResultChannel(buffer: Option<OpenResult>, sends: nat, closes: nat)

  /** How far the goroutine that opens a channel has got. */
  datatype Stage =
    | Allocated      // has its channel id
    | ConnStored     // its connection is in tcpConns or udpRoutes
    | ResultStored   // its result channel is in openResults
    | Waiting        // the open frame is queued
    | Admitted       // the open was granted, the SOCKS reply is not written yet
    | Opened         // data may flow
    | GaveUp         // refused, timed out, or the control queue was full
    | CloseSent      // TCPCLOSE was offered to the control queue
    | Finished

  /** `received` is the channel's data written to the local connection; the SOCKS reply was written to the same
      connection after the first `replied` bytes of it.  `packets` are the payloads of the packets written to the
      local program of a UDP channel. */
  datatype Opener = Opener(kind: Kind, id: uint32, stage: Stage, results: ResultChannel, received: seq<byte>,
                           replied: Option<nat>, packets: seq<seq<byte>>)

  /** The read loop, which between two frames may be in the middle of signalOpen. */
  datatype Reader = Reading | Sending(opener: nat, result: OpenResult) | Sealing(opener: nat)

  datatype Client = Client(
    session: Session,
    nextID: uint32,
    openers: seq<Opener>,             // one per call of nextChannel, oldest first
    tcpConns: map<uint32, nat>,       // channel id to the opener whose connection it is
    udpRoutes: map<uint32, nat>,
    openResults: map<uint32, nat>,
    reader: Reader,
    stopped: bool)

  datatype Act =
    | Loops(action: Action)
    | Allocate(kind: Kind)
    | StoreConn(k: nat)
    | StoreResult(k: nat)
    | QueueOpen(k: nat, address: seq<byte>)
    | AwaitResult(k: nat)
    | TimeOut(k: nat)
    | WriteReply(k: nat)
    | SendData(k: nat, payload: seq<byte>)
    | SendUdp(k: nat, data: seq<byte>, datagramID: uint32, nowMS: uint32)
    | SendClose(k: nat)
    | DropConn(k: nat)
    | StopCopying(k: nat)
    | SendResult
    | SealResult

  const EMPTY_CHANNEL := ResultChannel(None, 0, 0)

  function AuthFrame(auth: Auth): Frame {
    ZERO_FRAME.(kind := AUTH, payload := EncodeAuth(auth))
  }

  /** A client as it is when its loops start: AUTH is already queued. */
  function NewClient(id: uint32, auth: Auth): Client {
    Client(PushControl(NewSession(id), AuthFrame(auth)), 1, [], map[], map[], map[], Reading, false)
  }

  predicate At(c: Client, k: nat, stage: Stage) {
    k < |c.openers| && c.openers[k].stage == stage
  }

  function SetStage(c: Client, k: nat, stage: Stage): Client
    requires k < |c.openers|
  {
    c.(openers := c.openers[k := c.openers[k].(stage := stage)])
  }

  function OpenFrame(o: Opener, address: seq<byte>): Frame {
    ZERO_FRAME.(kind := if o.kind.Tcp? then OPENTCP else OPENUDP, channelID := o.id, payload := EncodeAddress(address))
  }

  function DataFrame(channel: uint32, payload: seq<byte>): Frame {
    ZERO_FRAME.(kind := TCPDATA, channelID := channel, payload := payload)
  }

  function CloseFrame(channel: uint32): Frame {
    ZERO_FRAME.(kind := TCPCLOSE, channelID := channel)
  }

  // ---- Opening, using and closing a channel ----

  function AllocateStep(c: Client, kind: Kind): Client {
    var id := Bump(c.nextID);
    c.(nextID := id, openers := c.openers + [Opener(kind, id, Allocated, EMPTY_CHANNEL, [], None, [])])
  }

  function StoreConnStep(c: Client, k: nat): Client {
    if !At(c, k, Allocated) then c
    else
      var o := c.openers[k];
      var d := SetStage(c, k, ConnStored);
      if o.kind.Tcp? then d.(tcpConns := d.tcpConns[o.id := k]) else d.(udpRoutes := d.udpRoutes[o.id := k])
  }

  function StoreResultStep(c: Client, k: nat): Client {
    if !At(c, k, ConnStored) then c
    else SetStage(c, k, ResultStored).(openResults := c.openResults[c.openers[k].id := k])
  }

  function QueueOpenStep(c: Client, k: nat, address: seq<byte>): Client {
    if !At(c, k, ResultStored) then c
    else
      var f := OpenFrame(c.openers[k], address);
      if c.session.control.Accepts(f)
      then SetStage(c, k, Waiting).(session := PushControl(c.session, f))
      else SetStage(c, k, GaveUp)
  }

  function AwaitResultStep(c: Client, k: nat): Client {
    if !At(c, k, Waiting) || c.openers[k].results.buffer.None? then c
    else
      var o := c.openers[k];
      c.(openers := c.openers[k := o.(stage := AfterResult(o), results := o.results.(buffer := None))])
  }

  function AfterResult(o: Opener): Stage
    requires o.results.buffer.Some?
  {
    if o.results.buffer.value.Refused? then GaveUp else if o.kind.Tcp? then Admitted else Opened
  }

  /** A TCP open is answered on the local connection, whether it was granted or not. */
  predicate Unanswered(c: Client, k: nat) {
    k < |c.openers| && c.openers[k].kind.Tcp? && c.openers[k].replied.None?
    && (c.openers[k].stage.Admitted? || c.openers[k].stage.GaveUp?)
  }

  function WriteReplyStep(c: Client, k: nat): Client {
    if !Unanswered(c, k) then c
    else
      var o := c.openers[k];
      c.(openers := c.openers[k := o.(stage := if o.stage.Admitted? then Opened else GaveUp,
                                      replied := Some(|o.received|))])
  }

  predicate MayOffer(c: Client, k: nat, payload: seq<byte>) {
    At(c, k, Opened) && c.openers[k].kind.Tcp? && 0 < |payload| <= MAX_PAYLOAD_LEN
  }

  /** Errors of QueueData are ignored: a chunk may be dropped when the queue is full. */
  function SendDataStep(c: Client, k: nat, payload: seq<byte>): Client {
    if MayOffer(c, k, payload)
    then c.(session := PushData(c.session, DataFrame(c.openers[k].id, payload))) else c
  }

  /** A packet of a local program, already cut to 1200 bytes, travels as one datagram with a deadline of one second. */
  function RequestDatagram(data: seq<byte>, id: uint32, nowMS: uint32): Datagram {
    Datagram(id, nowMS, 1000, 0, 1, Low16(|data|), data)
  }

  predicate MaySendUdp(c: Client, k: nat, data: seq<byte>) {
    At(c, k, Opened) && c.openers[k].kind.Udp? && |data| <= MAX_LOCAL_DATAGRAM
  }

  function SendUdpStep(c: Client, k: nat, data: seq<byte>, id: uint32, nowMS: uint32): Client {
    if MaySendUdp(c, k, data)
    then c.(session := PushData(c.session, UdpDataFrame(c.openers[k].id, RequestDatagram(data, id, nowMS)))) else c
  }

  /** TCPCLOSE goes to the control queue and may overtake the channel's data. */
  function SendCloseStep(c: Client, k: nat): Client {
    if At(c, k, Opened) && c.openers[k].kind.Tcp?
    then SetStage(c, k, CloseSent).(session := PushControl(c.session, CloseFrame(c.openers[k].id))) else c
  }

  function DropConnStep(c: Client, k: nat): Client {
    if At(c, k, CloseSent)
    then SetStage(c, k, Finished).(tcpConns := c.tcpConns - {c.openers[k].id}) else c
  }

  // ---- signalOpen: take the result channel out of the map, send, close ----

  function Signal(c: Client, channel: uint32, result: OpenResult): Client {
    if channel in c.openResults
    then c.(openResults := c.openResults - {channel}, reader := Sending(c.openResults[channel], result)) else c
  }

  /** A send on a full channel would block, leaving the reader where it is. */
  function SendResultStep(c: Client): Client {
    if !c.reader.Sending? || c.reader.opener >= |c.openers| then c
    else
      var k := c.reader.opener;
      var o := c.openers[k];
      if o.results.buffer.Some? then c
      else
        var sent := ResultChannel(Some(c.reader.result), o.results.sends + 1, o.results.closes);
        c.(openers := c.openers[k := o.(results := sent)], reader := Sealing(k))
  }

  function SealResultStep(c: Client): Client {
    if !c.reader.Sealing? || c.reader.opener >= |c.openers| then c
    else
      var k := c.reader.opener;
      var o := c.openers[k];
      c.(openers := c.openers[k := o.(results := o.results.(closes := o.results.closes + 1))], reader := Reading)
  }

  function Perform(c: Client, a: Act): Client {
    match a
    case Loops(action) =>
      if !action.QueueControl? && !action.QueueData? then c.(session := Step(c.session, action)) else c
    case Allocate(kind) => AllocateStep(c, kind)
    case StoreConn(k) => StoreConnStep(c, k)
    case StoreResult(k) => StoreResultStep(c, k)
    case QueueOpen(k, address) => QueueOpenStep(c, k, address)
    case AwaitResult(k) => AwaitResultStep(c, k)
    case WriteReply(k) => WriteReplyStep(c, k)
    case TimeOut(k) => if At(c, k, Waiting) then SetStage(c, k, GaveUp) else c
    case SendData(k, payload) => SendDataStep(c, k, payload)
    case SendUdp(k, data, id, nowMS) => SendUdpStep(c, k, data, id, nowMS)
    case SendClose(k) => SendCloseStep(c, k)
    case DropConn(k) => DropConnStep(c, k)
    case StopCopying(k) => if At(c, k, Opened) then SetStage(c, k, Finished) else c
    case SendResult => SendResultStep(c)
    case SealResult => SealResultStep(c)
  }

  // ---- Handling a frame from the server ----

  /** The local connection takes `room` bytes; taking fewer than offered ends the session. */
  function DeliverData(c: Client, f: Frame, room: nat): Client {
    if f.channelID !in c.tcpConns || c.tcpConns[f.channelID] >= |c.openers| then c
    else
      var k := c.tcpConns[f.channelID];
      var o := c.openers[k];
      var n := Min(|f.payload|, room);
      c.(openers := c.openers[k := o.(received := o.received + f.payload[..n])], stopped := n < |f.payload|)
  }

  /** The payload of a datagram goes to the route's local program in one SOCKS packet.  Building or writing the packet
      may fail (no room); a datagram without a route is ignored. */
  function DeliverPacket(c: Client, f: Frame, room: nat): Client {
    match DecodeDatagram(f.payload)
    case Failure(_) => c.(stopped := true)
    case Success(d) =>
      if f.channelID !in c.udpRoutes || c.udpRoutes[f.channelID] >= |c.openers| then c
      else if room == 0 then c.(stopped := true)
      else
        var k := c.udpRoutes[f.channelID];
        var o := c.openers[k];
        c.(openers := c.openers[k := o.(packets := o.packets + [d.data])])
  }

  function Handle(c: Client, f: Frame, room: nat): Client {
    if f.kind == AUTHERR then c.(stopped := true)
    else if f.kind == PING then
      var pong := ZERO_FRAME.(kind := PONG);
      c.(session := PushControl(c.session, pong), stopped := !c.session.control.Accepts(pong))
    else if f.kind == OPENOK then Signal(c, f.channelID, Granted)
    else if f.kind == OPENERR then Signal(c, f.channelID, Refused(f.payload))
    else if f.kind == TCPDATA then DeliverData(c, f, room)
    else if f.kind == TCPCLOSE then c.(tcpConns := c.tcpConns - {f.channelID})
    else if f.kind == UDPDATA then
      DeliverPacket(c, f, room)
    else if f.kind == UDPCLOSE then c.(udpRoutes := c.udpRoutes - {f.channelID})
    else c
  }
}
