/** What a local program has sent against what its channel's data queue accepted.  The error of a full queue is
    ignored, so a refused chunk that is followed by an accepted one leaves a gap. */
module TunnelOffers {
  import opened Bytes
  import opened FrameCodec
  import opened FrameQueues
  import opened Messages
  import opened TunnelClient
  import opened TunnelFrames
  import opened Tunnel
  import opened TunnelTheorems
  import opened TunnelRelays
  import SH = ServerHandler

  function OffersFor(offers: seq<Offer>, channel: uint32): seq<Offer> {
    if offers == [] then []
    else
      var n := |offers| - 1;
      OffersFor(offers[..n], channel) + if offers[n].channel == channel then [offers[n]] else []
  }

  /** Everything offered, and the part of it that was accepted. */
  function OfferedBytes(os: seq<Offer>): seq<byte> {
    if os == [] then [] else OfferedBytes(os[..|os| - 1]) + os[|os| - 1].payload
  }

  function KeptBytes(os: seq<Offer>): seq<byte> {
    if os == [] then []
    else KeptBytes(os[..|os| - 1]) + if os[|os| - 1].accepted then os[|os| - 1].payload else []
  }

  /** A chunk was refused before one that was accepted. */
  ghost predicate Gap(os: seq<Offer>) {
    exists i, j :: 0 <= i < j < |os| && !os[i].accepted && os[j].accepted
  }

  // ---- The history is right ----

  ghost predicate OfferInv(t: State) {
    && (forall channel :: DataOf(t.client.session.acceptedData, channel) == KeptBytes(OffersFor(t.offers, channel)))
    && forall i :: 0 <= i < |t.offers| ==> t.offers[i].payload != []
  }

  lemma OffersSnoc(offers: seq<Offer>, x: Offer, channel: uint32)
    ensures OffersFor(offers + [x], channel) == OffersFor(offers, channel) + if x.channel == channel then [x] else []
  {
    assert (offers + [x])[..|offers|] == offers;
  }

  lemma KeptSnoc(os: seq<Offer>, x: Offer)
    ensures KeptBytes(os + [x]) == KeptBytes(os) + if x.accepted then x.payload else []
    ensures OfferedBytes(os + [x]) == OfferedBytes(os) + x.payload
  {
    assert (os + [x])[..|os|] == os;
  }

  lemma SendShape(t: State, k: nat, payload: seq<byte>)
    requires MayOffer(t.client, k, payload)
    ensures var u, x := ClientActStep(t, SendData(k, payload)), OfferOf(t.client, k, payload);
            && u.offers == t.offers + [x] && x.payload == payload
            && u.client.session.acceptedData
               == if x.accepted then t.client.session.acceptedData + [DataFrame(x.channel, payload)]
                  else t.client.session.acceptedData
  {
    hide Fifo.Accepts;
  }

  lemma SendOffers(t: State, k: nat, payload: seq<byte>)
    requires OfferInv(t) && MayOffer(t.client, k, payload)
    ensures OfferInv(ClientActStep(t, SendData(k, payload)))
  {
    hide ClientActStep, OfferOf, DataOf, KeptBytes, OffersFor;
    var u, x := ClientActStep(t, SendData(k, payload)), OfferOf(t.client, k, payload);
    SendShape(t, k, payload);
    forall channel
      ensures DataOf(u.client.session.acceptedData, channel) == KeptBytes(OffersFor(u.offers, channel))
    {
      OffersSnoc(t.offers, x, channel);
      KeptSnoc(OffersFor(t.offers, channel), x);
      assert OffersFor(t.offers, channel) + [] == OffersFor(t.offers, channel);
      DataSnoc(t.client.session.acceptedData, DataFrame(x.channel, payload), channel);
    }
  }

  lemma OtherActOffers(t: State, a: Act)
    requires OfferInv(t) && !(a.SendData? && MayOffer(t.client, a.k, a.payload))
    ensures OfferInv(ClientActStep(t, a))
  {
    hide Perform, DataOf, KeptBytes, OffersFor;
    var u := ClientActStep(t, a);
    var f := PerformData(t.client, a);
    if f.kind == TCPDATA {
      RefusedSend(t.client, a.k, a.payload);
    }
    forall channel
      ensures DataOf(u.client.session.acceptedData, channel) == DataOf(t.client.session.acceptedData, channel)
    {
      DataSnoc(t.client.session.acceptedData, f, channel);
    }
  }

  lemma RefusedSend(c: Client, k: nat, payload: seq<byte>)
    requires !MayOffer(c, k, payload)
    ensures Perform(c, SendData(k, payload)) == c
  {
  }

  lemma NextOffers(t: State, e: Event)
    requires OfferInv(t)
    ensures OfferInv(Next(t, e))
  {
    hide OfferInv, ClientActStep, Handle, SH.HandleFrame, SH.FinishOpen, SH.React;
    match e
    case ClientActs(a) =>
      if a.SendData? && MayOffer(t.client, a.k, a.payload) {
        SendOffers(t, a.k, a.payload);
      } else {
        OtherActOffers(t, a);
      }
    case ClientReads(room) =>
      if t.down < |t.server.session.wire| {
        HandleKeepsQueues(t.client, DownFrame(t), room);
      }
      SameOffers(t, Next(t, e));
    case _ => SameOffers(t, Next(t, e));
  }

  lemma SameOffers(t: State, u: State)
    requires u.offers == t.offers && u.client.session.acceptedData == t.client.session.acceptedData
    ensures OfferInv(t) ==> OfferInv(u)
  {
    hide DataOf, KeptBytes, OffersFor;
  }

  lemma {:induction false} RunOffers(t: State, es: seq<Event>)
    requires OfferInv(t)
    ensures OfferInv(RunTunnel(t, es))
    decreases |es|
  {
    hide OfferInv, Next;
    if es != [] {
      NextOffers(t, es[0]);
      RunOffers(Next(t, es[0]), es[1..]);
    }
  }

  lemma {:induction false} OffersNonempty(offers: seq<Offer>, channel: uint32)
    requires forall i :: 0 <= i < |offers| ==> offers[i].payload != []
    ensures forall i :: 0 <= i < |OffersFor(offers, channel)| ==> OffersFor(offers, channel)[i].payload != []
  {
    if offers != [] {
      OffersNonempty(offers[..|offers| - 1], channel);
    }
  }

  // ---- Gaps ----

  lemma {:induction false} AllKept(os: seq<Offer>)
    requires forall i :: 0 <= i < |os| ==> os[i].accepted
    ensures KeptBytes(os) == OfferedBytes(os)
  {
    if os != [] {
      AllKept(os[..|os| - 1]);
    }
  }

  lemma {:induction false} NoGapPrefix(os: seq<Offer>)
    requires !Gap(os)
    ensures KeptBytes(os) <= OfferedBytes(os)
  {
    if os != [] {
      var n := |os| - 1;
      if os[n].accepted {
        assert forall i :: 0 <= i < n ==> os[i].accepted;
        AllKept(os);
      } else {
        GapGrows(os, n);
        NoGapPrefix(os[..n]);
      }
    }
  }

  lemma GapGrows(os: seq<Offer>, n: nat)
    requires n <= |os|
    ensures Gap(os[..n]) ==> Gap(os)
  {
    if Gap(os[..n]) {
      var i, j :| 0 <= i < j < n && !os[..n][i].accepted && os[..n][j].accepted;
      assert !os[i].accepted && os[j].accepted;
    }
  }

  /** The same chunks accepted and refused, with other contents. */
  ghost predicate SameShape(os: seq<Offer>, qs: seq<Offer>) {
    && |os| == |qs|
    && forall i :: 0 <= i < |os| ==> os[i].accepted == qs[i].accepted && |os[i].payload| == |qs[i].payload|
  }

  /** Contents that tell accepted from refused chunks. */
  function Telling(os: seq<Offer>): (qs: seq<Offer>)
    ensures |qs| == |os|
    ensures forall i :: 0 <= i < |os| ==>
              && qs[i].accepted == os[i].accepted && |qs[i].payload| == |os[i].payload|
              && forall j :: 0 <= j < |qs[i].payload| ==> qs[i].payload[j] == if os[i].accepted then 1 else 0
  {
    seq(|os|, i requires 0 <= i < |os| =>
      os[i].(payload := seq(|os[i].payload|, _ => if os[i].accepted then 1 else 0)))
  }

  lemma {:induction false} KeptOnes(qs: seq<Offer>)
    requires forall i :: 0 <= i < |qs| && qs[i].accepted ==>
               forall j :: 0 <= j < |qs[i].payload| ==> qs[i].payload[j] == 1
    ensures forall j :: 0 <= j < |KeptBytes(qs)| ==> KeptBytes(qs)[j] == 1
  {
    if qs != [] {
      KeptOnes(qs[..|qs| - 1]);
    }
  }

  lemma {:induction false} OffersMonotone(qs: seq<Offer>, n: nat)
    requires n <= |qs|
    ensures OfferedBytes(qs[..n]) <= OfferedBytes(qs) && KeptBytes(qs[..n]) <= KeptBytes(qs)
    decreases |qs|
  {
    if n == |qs| {
      assert qs[..n] == qs;
    } else {
      var m := |qs| - 1;
      assert qs[..m][..n] == qs[..n];
      OffersMonotone(qs[..m], n);
    }
  }

  lemma OfferedAt(qs: seq<Offer>, i: nat)
    requires i < |qs|
    ensures OfferedBytes(qs[..i + 1]) == OfferedBytes(qs[..i]) + qs[i].payload
    ensures KeptBytes(qs[..i + 1]) == KeptBytes(qs[..i]) + if qs[i].accepted then qs[i].payload else []
  {
    assert qs[..i + 1] == qs[..i] + [qs[i]];
    KeptSnoc(qs[..i], qs[i]);
  }

  /** With telling contents a gap shows at the first refused byte. */
  lemma GapShows(qs: seq<Offer>, r: nat, j: nat)
    requires r < j < |qs| && !qs[r].accepted && qs[j].accepted
    requires forall i :: 0 <= i < |qs| ==> qs[i].payload != []
    requires forall i :: 0 <= i < r ==> qs[i].accepted
    requires forall i :: 0 <= i < |qs| ==>
               forall b :: 0 <= b < |qs[i].payload| ==> qs[i].payload[b] == if qs[i].accepted then 1 else 0
    ensures !(KeptBytes(qs) <= OfferedBytes(qs))
  {
    hide KeptBytes, OfferedBytes;
    AllKept(qs[..r]);
    var p := |OfferedBytes(qs[..r])|;
    OfferedAt(qs, r);
    OffersMonotone(qs, r + 1);
    assert OfferedBytes(qs)[p] == 0;
    OfferedAt(qs, j);
    OffersMonotone(qs, j + 1);
    assert qs[..j][..r] == qs[..r];
    OffersMonotone(qs[..j], r);
    KeptOnes(qs);
    assert KeptBytes(qs)[p] == 1;
  }

  lemma FirstRefused(os: seq<Offer>, n: nat) returns (r: nat)
    requires n < |os| && !os[n].accepted
    ensures r <= n && !os[r].accepted && forall i :: 0 <= i < r ==> os[i].accepted
  {
    r := 0;
    while os[r].accepted
      invariant r <= n && forall i :: 0 <= i < r ==> os[i].accepted
      decreases n - r
    {
      r := r + 1;
    }
  }

  /** Whatever the chunks contain, what was kept is a prefix of what was offered, if and only if no chunk was refused
      before an accepted one. */
  lemma GapExactly(os: seq<Offer>)
    requires forall i :: 0 <= i < |os| ==> os[i].payload != []
    ensures (forall qs :: SameShape(os, qs) ==> KeptBytes(qs) <= OfferedBytes(qs)) <==> !Gap(os)
  {
    hide KeptBytes, OfferedBytes;
    if Gap(os) {
      var i, j :| 0 <= i < j < |os| && !os[i].accepted && os[j].accepted;
      var r := FirstRefused(os, i);
      GapShows(Telling(os), r, j);
      assert SameShape(os, Telling(os));
    } else {
      forall qs | SameShape(os, qs)
        ensures KeptBytes(qs) <= OfferedBytes(qs)
      {
        NoGapPrefix(qs);
      }
    }
  }

  /** In every run: what a target has received is a prefix of the accepted part of what the local program sent on its
      channel, and a prefix of all of it if no chunk was refused before an accepted one.  By GapExactly that condition
      is exact for contents that may be anything. */
  lemma TargetsReceiveOffered(clientID: uint32, serverID: uint32, auth: Auth, es: seq<Event>, t: State, channel: uint32)
    requires Reaches(clientID, serverID, auth, es, t) && channel in t.server.handler.targets
    ensures var os := OffersFor(t.offers, channel);
            && t.server.handler.targets[channel] <= KeptBytes(os)
            && (forall i :: 0 <= i < |os| ==> os[i].payload != [])
            && (!Gap(os) ==> t.server.handler.targets[channel] <= OfferedBytes(os))
  {
    hide RunTunnel, DataOf, KeptBytes, OfferedBytes, Gap, OffersFor;
    TargetsReceivePrefix(clientID, serverID, auth, es, t, channel);
    InitOffers(clientID, serverID, auth);
    RunOffers(Init(clientID, serverID, auth), es);
    OffersNonempty(t.offers, channel);
    if !Gap(OffersFor(t.offers, channel)) {
      NoGapPrefix(OffersFor(t.offers, channel));
    }
  }

  lemma InitOffers(clientID: uint32, serverID: uint32, auth: Auth)
    ensures OfferInv(Init(clientID, serverID, auth))
  {
  }
}
