/** The tunnel client as the program holds it: maps, an id counter and openers updated in place, on top of a
    session object.  Each method is one atomic operation of one goroutine and refines a step of TunnelClient. */
module ClientObject {
  import opened Bytes
  import opened FrameCodec
  import opened FrameQueues
  import opened SessionSystem
  import opened SessionEngine
  import opened WireDelivery
  import opened Messages
  import opened TunnelClient

  class ClientSession {
    const session: Engine
    var nextID: uint32
    var openers: seq<Opener>
    var tcpConns: map<uint32, nat>
    var udpRoutes: map<uint32, nat>
    var openResults: map<uint32, nat>
    var reader: Reader
    var stopped: bool

    ghost predicate Valid()
      reads this, session, session.controlQ, session.controlQ.items, session.dataQ, session.dataQ.items, session.sink
    {
      session.Valid()
    }

    ghost function State(): Client
      reads this, session, session.controlQ, session.controlQ.items, session.dataQ, session.dataQ.items
      requires session.controlQ.Valid() && session.dataQ.Valid()
    {
      Client(session.State(), nextID, openers, tcpConns, udpRoutes, openResults, reader, stopped)
    }

    /** newTunnelClient, NewSession, and AUTH queued before the loops start. */
    constructor (id: uint32, room: nat, auth: Auth)
      ensures Valid() && State() == NewClient(id, auth)
    {
      hide FrameQueue.Valid, Engine.State, Inv, WireBytes, PushControl, Fifo.Accepts;
      session := new Engine(id, room);
      nextID, openers, tcpConns, udpRoutes, openResults := 1, [], map[], map[], map[];
      reader, stopped := Reading, false;
      new;
      var _ := session.QueueControl(AuthFrame(auth));
    }

    method NextChannel(kind: Kind) returns (k: nat)
      requires Valid()
      modifies this`nextID, this`openers
      ensures Valid() && State() == Perform(old(State()), Allocate(kind))
      ensures k == old(|openers|) && openers[k].id == nextID
    {
      hide FrameQueue.Valid, Engine.State, Inv, WireBytes;
      nextID := (nextID + 1) % TWO_32;
      k := |openers|;
      openers := openers + [Opener(kind, nextID, Allocated, EMPTY_CHANNEL, [], None, [])];
    }

    method Advance(k: nat, stage: Stage)
      requires Valid() && k < |openers|
      modifies this`openers
      ensures Valid() && State() == SetStage(old(State()), k, stage)
    {
      hide FrameQueue.Valid, Engine.State, Inv, WireBytes;
      openers := openers[k := openers[k].(stage := stage)];
    }

    method RegisterConn(k: nat)
      requires Valid() && k < |openers| && openers[k].stage.Allocated?
      modifies this`openers, this`tcpConns, this`udpRoutes
      ensures Valid() && State() == Perform(old(State()), StoreConn(k))
    {
      hide FrameQueue.Valid, Engine.State, Inv, WireBytes;
      if openers[k].kind.Tcp? {
        tcpConns := tcpConns[openers[k].id := k];
      } else {
        udpRoutes := udpRoutes[openers[k].id := k];
      }
      Advance(k, ConnStored);
    }

    method RegisterResult(k: nat)
      requires Valid() && k < |openers| && openers[k].stage.ConnStored?
      modifies this`openers, this`openResults
      ensures Valid() && State() == Perform(old(State()), StoreResult(k))
    {
      hide FrameQueue.Valid, Engine.State, Inv, WireBytes;
      openResults := openResults[openers[k].id := k];
      Advance(k, ResultStored);
    }

    method SendOpen(k: nat, address: seq<byte>)
      requires Valid() && k < |openers| && openers[k].stage.ResultStored?
      modifies this`openers, session`acceptedControl, session.controlQ, session.controlQ.items
      ensures Valid() && State() == Perform(old(State()), QueueOpen(k, address))
    {
      hide FrameQueue.Valid, Engine.State, Inv, WireBytes, Fifo.Accepts, OpenFrame;
      var ok := session.QueueControl(OpenFrame(openers[k], address));
      Advance(k, if ok then Waiting else GaveUp);
    }

    method ReceiveResult(k: nat)
      requires Valid() && k < |openers| && openers[k].stage.Waiting? && openers[k].results.buffer.Some?
      modifies this`openers
      ensures Valid() && State() == Perform(old(State()), AwaitResult(k))
    {
      hide FrameQueue.Valid, Engine.State, Inv, WireBytes;
      var o := openers[k];
      openers := openers[k := o.(stage := AfterResult(o), results := o.results.(buffer := None))];
    }

    /** handleSocksConn answers the local connection before the copying starts. */
    method AnswerLocal(k: nat)
      requires Valid() && Unanswered(State(), k)
      modifies this`openers
      ensures Valid() && State() == Perform(old(State()), WriteReply(k))
    {
      hide FrameQueue.Valid, Engine.State, Inv, WireBytes;
      var o := openers[k];
      openers := openers[k := o.(replied := Some(|o.received|))];
      if o.stage.Admitted? {
        Advance(k, Opened);
      }
    }

    /** copyTCPToTunnel: forward a chunk; the error of a full queue is ignored. */
    method ForwardLocalData(k: nat, payload: seq<byte>)
      requires Valid() && k < |openers| && openers[k].stage.Opened? && openers[k].kind.Tcp?
      requires 0 < |payload| <= MAX_PAYLOAD_LEN
      modifies session`acceptedData, session.dataQ, session.dataQ.items
      ensures Valid() && State() == Perform(old(State()), SendData(k, payload))
    {
      hide FrameQueue.Valid, Engine.State, Inv, WireBytes, PushData, Fifo.Accepts;
      var _ := session.QueueData(DataFrame(openers[k].id, payload));
    }

    method ReportLocalEnd(k: nat)
      requires Valid() && k < |openers| && openers[k].stage.Opened? && openers[k].kind.Tcp?
      modifies this`openers, session`acceptedControl, session.controlQ, session.controlQ.items
      ensures Valid() && State() == Perform(old(State()), SendClose(k))
    {
      hide FrameQueue.Valid, Engine.State, Inv, WireBytes, PushControl, Fifo.Accepts;
      var _ := session.QueueControl(CloseFrame(openers[k].id));
      Advance(k, CloseSent);
    }

    method CloseTCP(channel: uint32)
      requires Valid()
      modifies this`tcpConns
      ensures Valid() && State() == old(State()).(tcpConns := old(tcpConns) - {channel})
    {
      tcpConns := tcpConns - {channel};
    }

    /** signalOpen, first part: take the result channel out of the map. */
    method TakeResultChannel(channel: uint32, result: OpenResult)
      requires Valid() && reader.Reading?
      modifies this`openResults, this`reader
      ensures Valid() && State() == Signal(old(State()), channel, result)
    {
      hide FrameQueue.Valid, Engine.State, Inv, WireBytes;
      if channel in openResults {
        reader := Sending(openResults[channel], result);
        openResults := openResults - {channel};
      }
    }

    /** signalOpen, second and third part: send, then close. */
    method SendOnResultChannel()
      requires Valid() && reader.Sending? && reader.opener < |openers| && openers[reader.opener].results.buffer.None?
      modifies this`openers, this`reader
      ensures Valid() && State() == Perform(old(State()), SendResult)
    {
      hide FrameQueue.Valid, Engine.State, Inv, WireBytes;
      var k := reader.opener;
      var o := openers[k];
      var sent := ResultChannel(Some(reader.result), o.results.sends + 1, o.results.closes);
      openers := openers[k := o.(results := sent)];
      reader := Sealing(k);
    }

    method CloseResultChannel()
      requires Valid() && reader.Sealing? && reader.opener < |openers|
      modifies this`openers, this`reader
      ensures Valid() && State() == Perform(old(State()), SealResult)
    {
      hide FrameQueue.Valid, Engine.State, Inv, WireBytes;
      var k := reader.opener;
      var o := openers[k];
      openers := openers[k := o.(results := o.results.(closes := o.results.closes + 1))];
      reader := Reading;
    }

    method DeliverLocal(frame: Frame, room: nat)
      requires Valid() && !stopped
      modifies this`openers, this`stopped
      ensures Valid() && State() == DeliverData(old(State()), frame, room)
    {
      hide FrameQueue.Valid, Engine.State, Inv, WireBytes;
      if frame.channelID in tcpConns && tcpConns[frame.channelID] < |openers| {
        var k := tcpConns[frame.channelID];
        var o := openers[k];
        var n := Min(|frame.payload|, room);
        openers := openers[k := o.(received := o.received + frame.payload[..n])];
        stopped := n < |frame.payload|;
      }
    }

    method DeliverUdp(frame: Frame, room: nat)
      requires Valid() && !stopped
      modifies this`openers, this`stopped
      ensures Valid() && State() == DeliverPacket(old(State()), frame, room)
    {
      hide FrameQueue.Valid, Engine.State, Inv, WireBytes, DecodeDatagram;
      var dg := DecodeDatagram(frame.payload);
      if dg.Failure? {
        stopped := true;
        return;
      }
      if frame.channelID in udpRoutes && udpRoutes[frame.channelID] < |openers| {
        if room == 0 {
          stopped := true;
          return;
        }
        var k := udpRoutes[frame.channelID];
        var o := openers[k];
        openers := openers[k := o.(packets := o.packets + [dg.value.data])];
      }
    }

    method HandleFrame(frame: Frame, room: nat)
      requires Valid() && !stopped && reader.Reading?
      modifies this, session`acceptedControl, session.controlQ, session.controlQ.items
      ensures Valid() && State() == Handle(old(State()), frame, room)
    {
      hide FrameQueue.Valid, Engine.State, Inv, WireBytes, PushControl, Fifo.Accepts, DecodeDatagram, DeliverData,
        DeliverPacket, Signal;
      if frame.kind == AUTHERR {
        stopped := true;
      } else if frame.kind == PING {
        var ok := session.QueueControl(ZERO_FRAME.(kind := PONG));
        stopped := !ok;
      } else if frame.kind == OPENOK {
        TakeResultChannel(frame.channelID, Granted);
      } else if frame.kind == OPENERR {
        TakeResultChannel(frame.channelID, Refused(frame.payload));
      } else if frame.kind == TCPDATA {
        DeliverLocal(frame, room);
      } else if frame.kind == TCPCLOSE {
        CloseTCP(frame.channelID);
      } else if frame.kind == UDPDATA {
        DeliverUdp(frame, room);
      } else if frame.kind == UDPCLOSE {
        udpRoutes := udpRoutes - {frame.channelID};
      }
    }
  }
}
