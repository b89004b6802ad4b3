/** The server handler as the program holds it: a TCP relay with its connection table, flags and counters
    updated in place, on top of a session object.  HandleFrame refines the handler of ServerHandler. */
module ServerObject {
  import opened Bytes
  import opened FrameCodec
  import opened FrameQueues
  import opened SessionSystem
  import opened SessionEngine
  import opened WireDelivery
  import opened Messages
  import SH = ServerHandler

  /** TCPRelay; what a connection's target has received is its byte log. */
  class TcpRelay {
    var conns: set<uint32>
    var targets: map<uint32, seq<byte>>

    constructor ()
      ensures conns == {} && targets == map[]
    {
      conns, targets := {}, map[];
    }

    method Register(channel: uint32)
      modifies this
      ensures conns == old(conns) + {channel} && targets == old(targets)[channel := []]
    {
      conns := conns + {channel};
      targets := targets[channel := []];
    }

    method Close(channel: uint32)
      modifies this`conns
      ensures conns == old(conns) - {channel}
    {
      conns := conns - {channel};
    }

    /** The connection takes at most `room` bytes. */
    method Write(channel: uint32, data: seq<byte>, room: nat) returns (err: Option<SH.HandlerError>)
      modifies this`targets
      ensures channel !in conns ==> err == Some(SH.RelayGone) && targets == old(targets)
      ensures channel in conns ==>
                var before := if channel in old(targets) then old(targets)[channel] else [];
                && targets == old(targets)[channel := before + data[..Min(|data|, room)]]
                && err == if |data| <= room then None else Some(SH.TargetWriteFailed)
    {
      if channel !in conns {
        return Some(SH.RelayGone);
      }
      var before := if channel in targets then targets[channel] else [];
      targets := targets[channel := before + data[..Min(|data|, room)]];
      err := if |data| <= room then None else Some(SH.TargetWriteFailed);
    }
  }

  class ServerSession {
    const session: Engine
    const tcp: TcpRelay
    var authOK: bool
    var assocs: set<uint32>
    var copying: multiset<uint32>
    var closing: multiset<uint32>
    var udpReading: multiset<uint32>
    var udpClosing: multiset<uint32>
    var activeChannels: int
    var authFailures: nat
    var expiredUDP: nat
    var opening: Option<uint32>
    var stopped: Option<SH.HandlerError>
    ghost var trace: seq<SH.Effect>

    ghost predicate Valid()
      reads this, tcp, session, session.controlQ, session.controlQ.items,
            session.dataQ, session.dataQ.items, session.sink
    {
      session.Valid()
    }

    ghost function HandlerState(): SH.Handler
      reads this, tcp
    {
      SH.Handler(authOK, tcp.conns, tcp.targets, assocs, copying, closing, udpReading, udpClosing,
                 activeChannels, authFailures, expiredUDP, trace)
    }

    ghost function State(): SH.Server
      reads this, tcp, session, session.controlQ, session.controlQ.items, session.dataQ, session.dataQ.items
      requires session.controlQ.Valid() && session.dataQ.Valid()
    {
      SH.Server(session.State(), HandlerState(), opening, stopped)
    }

    constructor (id: uint32, room: nat)
      ensures Valid() && State() == SH.NewServer(id)
    {
      hide FrameQueue.Valid, Engine.State, Inv, WireBytes;
      session := new Engine(id, room);
      tcp := new TcpRelay();
      authOK, assocs := false, {};
      copying, closing, udpReading, udpClosing := multiset{}, multiset{}, multiset{}, multiset{};
      activeChannels, authFailures, expiredUDP, opening, stopped, trace := 0, 0, 0, None, None, [];
    }

    method Reply(frame: Frame)
      requires Valid()
      modifies this`stopped, session`acceptedControl, session.controlQ, session.controlQ.items
      ensures Valid() && State() == SH.Reply(old(State()), frame)
    {
      hide FrameQueue.Valid, Engine.State, Inv, WireBytes, PushControl, Fifo.Accepts;
      var ok := session.QueueControl(frame);
      stopped := if ok then None else Some(SH.QueueFull);
    }

    method HandleAuth(frame: Frame, env: SH.Env)
      requires Valid() && stopped.None?
      modifies this, session`acceptedControl, session.controlQ, session.controlQ.items
      ensures Valid() && State() == SH.HandleAuth(old(State()), frame, env)
    {
      hide Step, DecodeAuth, SH.Reply, FrameQueue.Valid, Engine.State, Inv, WireBytes, PushControl, Fifo.Accepts;
      var r := DecodeAuth(frame.payload);
      if r.Failure? {
        stopped := Some(SH.BadPayload);
        return;
      }
      trace := trace + [SH.Validated(r.value, env.rejection.None?)];
      if env.rejection.Some? {
        authFailures := authFailures + 1;
        Reply(SH.ControlFrame(AUTHERR, 0, env.rejection.value));
        stopped := Some(SH.AuthRejected);
        return;
      }
      authOK := true;
      Reply(SH.ControlFrame(AUTHOK, 0, []));
    }

    method AddActiveChannel(delta: int)
      requires Valid()
      modifies this`activeChannels, this`trace
      ensures Valid() && State() == old(State()).(handler := SH.AddActive(old(HandlerState()), delta))
    {
      hide FrameQueue.Valid, Engine.State, Inv, WireBytes, PushControl, Fifo.Accepts;
      activeChannels := activeChannels + delta;
      trace := trace + [SH.Counted(delta)];
    }

    method HandleOpenTCP(frame: Frame, env: SH.Env)
      requires Valid() && stopped.None?
      modifies this, tcp, session`acceptedControl, session.controlQ, session.controlQ.items
      ensures Valid() && State() == SH.HandleOpenTCP(old(State()), frame, env)
    {
      hide Step, DecodeAddress, SH.Registered, SH.Associated, FrameQueue.Valid, Engine.State, Inv, WireBytes,
        PushControl, Fifo.Accepts;
      var addr := DecodeAddress(frame.payload);
      if addr.Failure? {
        stopped := Some(SH.BadPayload);
        return;
      }
      trace := trace + [SH.Dialed(SH.TcpNet, frame.channelID, addr.value, env.dialError)];
      if env.dialError.Some? {
        Reply(SH.ControlFrame(OPENERR, frame.channelID, env.dialError.value));
        return;
      }
      BeginTCP(frame.channelID);
    }

    /** The dialed connection is registered and its copying goroutine started. */
    method BeginTCP(channel: uint32)
      requires Valid()
      modifies this`copying, this`opening, tcp
      ensures Valid() && opening == Some(channel)
      ensures State() == old(State()).(opening := opening, handler := SH.Registered(old(HandlerState()), channel))
    {
      hide FrameQueue.Valid, Engine.State, Inv, WireBytes;
      tcp.Register(channel);
      copying := copying + multiset{channel};
      opening := Some(channel);
    }

    method BeginUDP(channel: uint32)
      requires Valid()
      modifies this`assocs, this`udpReading, this`opening
      ensures Valid() && opening == Some(channel)
      ensures State() == old(State()).(opening := opening, handler := SH.Associated(old(HandlerState()), channel))
    {
      hide FrameQueue.Valid, Engine.State, Inv, WireBytes;
      assocs := assocs + {channel};
      udpReading := udpReading + multiset{channel};
      opening := Some(channel);
    }

    method HandleOpenUDP(frame: Frame, env: SH.Env)
      requires Valid() && stopped.None?
      modifies this, session`acceptedControl, session.controlQ, session.controlQ.items
      ensures Valid() && State() == SH.HandleOpenUDP(old(State()), frame, env)
    {
      hide Step, DecodeAddress, SH.Registered, SH.Associated, FrameQueue.Valid, Engine.State, Inv, WireBytes,
        PushControl, Fifo.Accepts;
      var addr := DecodeAddress(frame.payload);
      if addr.Failure? {
        stopped := Some(SH.BadPayload);
        return;
      }
      trace := trace + [SH.Dialed(SH.UdpNet, frame.channelID, addr.value, env.dialError)];
      if env.dialError.Some? {
        Reply(SH.ControlFrame(OPENERR, frame.channelID, env.dialError.value));
        return;
      }
      BeginUDP(frame.channelID);
    }

    /** The rest of an open: count the channel, then answer. */
    method AnswerOpen()
      requires Valid() && stopped.None? && opening.Some?
      modifies this, session`acceptedControl, session.controlQ, session.controlQ.items
      ensures Valid() && State() == SH.FinishOpen(old(State()))
    {
      hide FrameQueue.Valid, Engine.State, Inv, WireBytes, PushControl, Fifo.Accepts;
      var channel := opening.value;
      opening := None;
      AddActiveChannel(1);
      Reply(SH.ControlFrame(OPENOK, channel, []));
    }

    method HandleTCPData(frame: Frame, env: SH.Env)
      requires Valid() && stopped.None?
      modifies this, tcp
      ensures Valid() && State() == SH.HandleTCPData(old(State()), frame, env)
    {
      hide FrameQueue.Valid, Engine.State, Inv, WireBytes, PushControl, Fifo.Accepts;
      var err := tcp.Write(frame.channelID, frame.payload, env.room);
      if frame.channelID in tcp.conns {
        trace := trace + [SH.Wrote(SH.TcpNet, frame.channelID, frame.payload[..Min(|frame.payload|, env.room)])];
      }
      stopped := err;
    }

    method HandleUDPData(frame: Frame, env: SH.Env)
      requires Valid() && stopped.None?
      modifies this
      ensures Valid() && State() == SH.HandleUDPData(old(State()), frame, env)
    {
      hide DecodeDatagram, FrameQueue.Valid, Engine.State, Inv, WireBytes, PushControl, Fifo.Accepts;
      var r := DecodeDatagram(frame.payload);
      if r.Failure? {
        stopped := Some(SH.BadPayload);
        return;
      }
      if SH.Elapsed(env.nowMS, r.value.sentMS) > r.value.deadlineMS {
        expiredUDP := expiredUDP + 1;
        return;
      }
      if frame.channelID !in assocs {
        stopped := Some(SH.RelayGone);
        return;
      }
      var n := Min(|r.value.data|, env.room);
      trace := trace + [SH.Wrote(SH.UdpNet, frame.channelID, r.value.data[..n])];
      stopped := if n == |r.value.data| then None else Some(SH.TargetWriteFailed);
    }

    method HandleClose(frame: Frame)
      requires Valid() && stopped.None?
      modifies this, tcp
      ensures Valid()
      ensures State() == if frame.kind == TCPCLOSE then SH.HandleTCPClose(old(State()), frame)
                         else SH.HandleUDPClose(old(State()), frame)
    {
      hide FrameQueue.Valid, Engine.State, Inv, WireBytes, PushControl, Fifo.Accepts;
      if frame.kind == TCPCLOSE {
        tcp.Close(frame.channelID);
      } else {
        assocs := assocs - {frame.channelID};
      }
      trace := trace + [SH.Closed(if frame.kind == TCPCLOSE then SH.TcpNet else SH.UdpNet, frame.channelID)];
      AddActiveChannel(-1);
    }

    method HandleFrame(frame: Frame, env: SH.Env)
      requires Valid() && stopped.None? && opening.None?
      modifies this, tcp, session`acceptedControl, session.controlQ, session.controlQ.items
      ensures Valid() && State() == SH.HandleFrame(old(State()), frame, env)
    {
      hide Step, DecodeAuth, DecodeAddress, DecodeDatagram, SH.HandleAuth, SH.HandleOpenTCP, SH.HandleOpenUDP,
        SH.HandleTCPData, SH.HandleUDPData, SH.HandleTCPClose, SH.HandleUDPClose, SH.Reply,
        FrameQueue.Valid, Engine.State, Inv, WireBytes, PushControl, Fifo.Accepts;
      if !authOK && frame.kind != AUTH {
        stopped := Some(SH.AuthRequired);
      } else if frame.kind == AUTH {
        HandleAuth(frame, env);
      } else if frame.kind == PING {
        Reply(SH.ControlFrame(PONG, 0, []));
      } else if frame.kind == OPENTCP {
        HandleOpenTCP(frame, env);
      } else if frame.kind == TCPDATA {
        HandleTCPData(frame, env);
      } else if frame.kind == TCPCLOSE || frame.kind == UDPCLOSE {
        HandleClose(frame);
      } else if frame.kind == OPENUDP {
        HandleOpenUDP(frame, env);
      } else if frame.kind == UDPDATA {
        HandleUDPData(frame, env);
      } else if frame.kind == SESSIONCLOSE {
        stopped := Some(SH.Cancelled);
      }
    }

    // ---- copyRemoteToTunnel, one atomic operation at a time ----

    method ForwardTargetData(channel: uint32, payload: seq<byte>)
      requires Valid() && channel in copying && 0 < |payload| <= MAX_PAYLOAD_LEN
      modifies session`acceptedData, session.dataQ, session.dataQ.items
      ensures Valid() && State() == SH.React(old(State()), SH.TargetData(channel, payload))
    {
      hide FrameQueue.Valid, Engine.State, Inv, WireBytes, PushData, Fifo.Accepts;
      var _ := session.QueueData(ZERO_FRAME.(kind := TCPDATA, channelID := channel, payload := payload));
    }

    method ReportTargetEnd(channel: uint32)
      requires Valid() && channel in copying
      modifies this`copying, this`closing, session`acceptedControl, session.controlQ, session.controlQ.items
      ensures Valid() && State() == SH.React(old(State()), SH.TargetEnd(channel))
    {
      hide FrameQueue.Valid, Engine.State, Inv, WireBytes, PushControl, Fifo.Accepts;
      var _ := session.QueueControl(SH.ControlFrame(TCPCLOSE, channel, []));
      copying := copying - multiset{channel};
      closing := closing + multiset{channel};
    }

    method DropTarget(channel: uint32)
      requires Valid() && channel in closing
      modifies this`closing, this`trace, tcp
      ensures Valid() && State() == SH.React(old(State()), SH.TargetDrop(channel))
    {
      hide FrameQueue.Valid, Engine.State, Inv, WireBytes;
      tcp.Close(channel);
      closing := closing - multiset{channel};
      trace := trace + [SH.Closed(SH.TcpNet, channel)];
    }
  }
}
