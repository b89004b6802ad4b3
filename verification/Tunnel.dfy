/** Client and server together: two sessions whose wires are each other's input. */
module Tunnel {
  import opened Bytes
  import opened FrameCodec
  import opened Messages
  import opened TunnelClient
  import SH = ServerHandler

  /** A chunk the client's copying goroutine offered to the data queue. */
  datatype Offer = Offer(channel: uint32, payload: seq<byte>, accepted: bool)

  /** `up` and `down` count the frames of the client's and of the server's wire handled by the other side.  The rest
      is history: the channels that were added to and taken off the channel count, those whose relay the server
      dropped because the target ended, those whose local connection the client removed, because it handled their
      TCPCLOSE or after its own, those whose route it removed because it handled their UDPCLOSE, the chunks offered,
      and the address each channel was to be opened to. */
  datatype State = State(client: Client, server: SH.Server, up: nat, down: nat,
                         counted: set<uint32>, released: set<uint32>, dropped: set<uint32>, removed: set<uint32>,
                         unrouted: set<uint32>, offers: seq<Offer>, asked: map<uint32, seq<byte>>)

  datatype Event =
    | ClientActs(act: Act)
    | ClientReads(room: nat)
    | ServerReads(env: SH.Env)
    | ServerAnswers
    | ServerActs(event: SH.Event)

  function Init(clientID: uint32, serverID: uint32, auth: Auth): State {
    State(NewClient(clientID, auth), SH.NewServer(serverID), 0, 0, {}, {}, {}, {}, {}, [], map[])
  }

  function UpFrame(t: State): Frame
    requires t.up < |t.client.session.wire|
  {
    Normalise(t.client.session.wire[t.up].stamped)
  }

  function DownFrame(t: State): Frame
    requires t.down < |t.server.session.wire|
  {
    Normalise(t.server.session.wire[t.down].stamped)
  }

  function ServerReadStep(t: State, env: SH.Env): State {
    if t.up >= |t.client.session.wire| || !SH.Ready(t.server) then t
    else
      var f := UpFrame(t);
      var v := SH.HandleFrame(t.server, f, env);
      t.(server := v, up := t.up + 1,
         released := if v.handler.activeChannels < t.server.handler.activeChannels then t.released + {f.channelID}
                     else t.released)
  }

  function ServerAnswerStep(t: State): State {
    var v := SH.FinishOpen(t.server);
    t.(server := v,
       counted := if v.handler.activeChannels > t.server.handler.activeChannels
                  then t.counted + {t.server.opening.value}
                  else t.counted)
  }

  function ServerActStep(t: State, ev: SH.Event): State {
    t.(server := SH.React(t.server, ev),
       dropped := if ev.TargetDrop? && ev.channel in t.server.handler.closing then t.dropped + {ev.channel}
                  else t.dropped)
  }

  function ClientActStep(t: State, a: Act): State {
    t.(client := Perform(t.client, a),
       removed := if a.DropConn? && At(t.client, a.k, CloseSent) then t.removed + {t.client.openers[a.k].id}
                  else t.removed,
       offers := if a.SendData? && MayOffer(t.client, a.k, a.payload)
                 then t.offers + [OfferOf(t.client, a.k, a.payload)]
                 else t.offers,
       asked := if a.QueueOpen? && At(t.client, a.k, ResultStored)
                then t.asked[t.client.openers[a.k].id := a.address] else t.asked)
  }

  function OfferOf(c: Client, k: nat, payload: seq<byte>): Offer
    requires k < |c.openers|
  {
    Offer(c.openers[k].id, payload, c.session.data.Accepts(DataFrame(c.openers[k].id, payload)))
  }

  function ClientReadStep(t: State, room: nat): State {
    if t.down >= |t.server.session.wire| || t.client.stopped || !t.client.reader.Reading? then t
    else
      var f := DownFrame(t);
      t.(client := Handle(t.client, f, room), down := t.down + 1,
         removed := if f.kind == TCPCLOSE then t.removed + {f.channelID} else t.removed,
         unrouted := if f.kind == UDPCLOSE then t.unrouted + {f.channelID} else t.unrouted)
  }

  function Next(t: State, e: Event): State {
    match e
    case ClientActs(a) => ClientActStep(t, a)
    case ClientReads(room) => ClientReadStep(t, room)
    case ServerReads(env) => ServerReadStep(t, env)
    case ServerAnswers => ServerAnswerStep(t)
    case ServerActs(ev) => if ev.Receive? || ev.Answer? then t else ServerActStep(t, ev)
  }

  function RunTunnel(t: State, es: seq<Event>): State
    decreases |es|
  {
    if es == [] then t else RunTunnel(Next(t, es[0]), es[1..])
  }

  lemma {:induction false} TunnelAppend(t: State, es: seq<Event>, more: seq<Event>)
    ensures RunTunnel(t, es + more) == RunTunnel(RunTunnel(t, es), more)
    decreases |es|
  {
    hide Next;
    if es == [] {
      assert es + more == more;
    } else {
      assert (es + more)[1..] == es[1..] + more;
      TunnelAppend(Next(t, es[0]), es[1..], more);
    }
  }

  lemma TunnelOne(t: State, e: Event)
    ensures RunTunnel(t, [e]) == Next(t, e)
  {
    hide Next;
    assert [e][1..] == [];
    assert RunTunnel(Next(t, e), []) == Next(t, e);
  }
}
