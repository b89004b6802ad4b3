/** One server process: any number of sessions, opened and closed at will by arbitrary peers, that share one token
    store.  The verdict on an AUTH frame is the store's. */
module ServerProcess {
  import opened Bytes
  import opened FrameCodec
  import opened SessionSystem
  import opened Messages
  import opened TokenStore
  import SH = ServerHandler

  /** An acceptance by the store: the session it was for, how many effects that session had shown by then, the record
      found, and the two clock readings. */
  datatype Acceptance = Acceptance(session: nat, place: nat, auth: Auth, rec: TokenRecord, now: int, later: int)

  datatype Process = Process(store: Store, sessions: map<nat, SH.Server>, log: seq<Acceptance>, clock: int)

  /** A session begins, its read loop handles a frame, or something else happens in it.  The clock readings and the
      record the scan of the token map stops at are those of the validation, if there is one. */
  datatype Event =
    | Begin(session: nat, id: uint32)
    | Receive(session: nat, frame: Frame, env: SH.Env, now: int, later: int, found: Option<string>)
    | Other(session: nat, event: SH.Event)

  /** A Go string is a sequence of bytes. */
  function Text(b: seq<byte>): (s: string)
    ensures |s| == |b| && forall i :: 0 <= i < |b| ==> s[i] == b[i] as char
  {
    seq(|b|, i requires 0 <= i < |b| => b[i] as char)
  }

  function Asks(f: Frame): Option<Auth> {
    if f.kind == AUTH && DecodeAuth(f.payload).Success? then Some(DecodeAuth(f.payload).value) else None
  }

  ghost predicate Possible(p: Process, e: Event) {
    e.Receive? && Asks(e.frame).Some? ==> FoundBy(p.store.tokens, Text(Asks(e.frame).value.token), e.found)
  }

  function Verdict(p: Process, auth: Auth, e: Event): Outcome
    requires e.Receive?
  {
    Judge(p.store, Text(auth.token), auth.nonce, e.now, e.found)
  }

  function Ascii(s: string): seq<byte> {
    seq(|s|, i requires 0 <= i < |s| => s[i] as int % 0x80)
  }

  /** The text of the store's error, which becomes the payload of AUTHERR. */
  function Message(outcome: Outcome): seq<byte> {
    match outcome
    case InvalidToken => Ascii("invalid token")
    case ExpiredOrRevoked => Ascii("token expired or revoked")
    case ReplayedNonce => Ascii("replayed nonce")
    case Accepted => []
  }

  function ReceiveStep(p: Process, e: Event): Process
    requires e.Receive? && e.session in p.sessions && SH.Ready(p.sessions[e.session])
  {
    var v := p.sessions[e.session];
    match Asks(e.frame)
    case None => p.(sessions := p.sessions[e.session := SH.HandleFrame(v, e.frame, e.env)])
    case Some(auth) =>
      var outcome := Verdict(p, auth, e);
      var env := e.env.(rejection := if outcome == Accepted then None else Some(Message(outcome)));
      var w := SH.HandleFrame(v, e.frame, env);
      Process(TokenStore.Validate(p.store, Text(auth.token), auth.nonce, e.now, e.later, e.found).0,
              p.sessions[e.session := w],
              if outcome == Accepted
              then p.log + [Acceptance(e.session, |v.handler.trace|, auth,
                                  p.store.tokens[e.found.value], e.now, e.later)]
              else p.log,
              e.now)
  }

  function Next(p: Process, e: Event): Process {
    match e
    case Begin(i, id) => if i in p.sessions then p else p.(sessions := p.sessions[i := SH.NewServer(id)])
    case Receive(i, _, _, _, _, _) =>
      if i in p.sessions && SH.Ready(p.sessions[i]) then ReceiveStep(p, e) else p
    case Other(i, ev) =>
      if i in p.sessions && !ev.Receive? then p.(sessions := p.sessions[i := SH.React(p.sessions[i], ev)]) else p
  }

  ghost predicate Runs(p: Process, es: seq<Event>)
    decreases |es|
  {
    es != [] ==> Possible(p, es[0]) && Runs(Next(p, es[0]), es[1..])
  }

  function Final(p: Process, es: seq<Event>): Process
    decreases |es|
  {
    if es == [] then p else Final(Next(p, es[0]), es[1..])
  }

  /** A process whose store has just been opened. */
  function Fresh(store: Store, clock: int): Process {
    Process(store.(replay := map[]), map[], [], clock)
  }

  // ---- The gate goes back to the store ----

  /** The store accepted this token and nonce for this session, at this place of its trace, on a record that was
      neither revoked nor expired. */
  predicate Backs(a: Acceptance, session: nat, place: nat, auth: Auth, tokens: map<string, TokenRecord>) {
    && a.session == session && a.place == place && a.auth == auth
    && a.rec in tokens.Values && a.rec.token == Text(auth.token) && !a.rec.revoked && a.now <= a.rec.expiresAt
  }

  ghost predicate Backed(log: seq<Acceptance>, session: nat, place: nat, auth: Auth, tokens: map<string, TokenRecord>) {
    exists l :: 0 <= l < |log| && Backs(log[l], session, place, auth, tokens)
  }

  ghost predicate TraceBacked(log: seq<Acceptance>, session: nat, trace: seq<SH.Effect>,
                              tokens: map<string, TokenRecord>) {
    forall y :: 0 <= y < |trace| && trace[y].Validated? && trace[y].accepted ==>
      Backed(log, session, y, trace[y].auth, tokens)
  }

  ghost predicate AllBacked(p: Process) {
    forall i :: i in p.sessions ==>
      SH.ServerGated(p.sessions[i]) && TraceBacked(p.log, i, p.sessions[i].handler.trace, p.store.tokens)
  }

  /** What a frame adds to the trace of its session. */
  lemma AuthTrace(v: SH.Server, f: Frame, env: SH.Env)
    requires f.kind == AUTH
    ensures var t, u := v.handler.trace, SH.HandleAuth(v, f, env).handler.trace;
            && t <= u
            && forall y :: |t| <= y < |u| && u[y].Validated? && u[y].accepted ==>
                 y == |t| && Asks(f) == Some(u[y].auth) && env.rejection.None?
  {
    hide PushControl, DecodeAuth;
  }

  lemma HandleTrace(v: SH.Server, f: Frame, env: SH.Env)
    requires SH.Ready(v)
    ensures var t, u := v.handler.trace, SH.HandleFrame(v, f, env).handler.trace;
            && t <= u
            && forall y :: |t| <= y < |u| && u[y].Validated? && u[y].accepted ==>
                 y == |t| && Asks(f) == Some(u[y].auth) && env.rejection.None?
  {
    hide PushControl, SH.HandleAuth, DecodeAuth, DecodeAddress, DecodeDatagram;
    if f.kind == AUTH {
      AuthTrace(v, f, env);
    }
  }

  lemma OtherTrace(v: SH.Server, e: SH.Event)
    requires !e.Receive?
    ensures var t, u := v.handler.trace, SH.React(v, e).handler.trace;
            t <= u && forall y :: |t| <= y < |u| ==> !u[y].Validated?
  {
    hide PushControl, PushData, Step;
  }

  lemma BackedGrows(log: seq<Acceptance>, more: seq<Acceptance>, session: nat, trace: seq<SH.Effect>,
                    tokens: map<string, TokenRecord>)
    requires TraceBacked(log, session, trace, tokens)
    ensures TraceBacked(log + more, session, trace, tokens)
  {
    forall y | 0 <= y < |trace| && trace[y].Validated? && trace[y].accepted
      ensures Backed(log + more, session, y, trace[y].auth, tokens)
    {
      var l :| 0 <= l < |log| && Backs(log[l], session, y, trace[y].auth, tokens);
      assert (log + more)[l] == log[l];
    }
  }

  lemma ReceiveBacked(p: Process, e: Event)
    requires AllBacked(p) && e.Receive? && e.session in p.sessions && SH.Ready(p.sessions[e.session]) && Possible(p, e)
    ensures AllBacked(ReceiveStep(p, e))
  {
    hide SH.ServerGated, SH.HandleFrame, DecodeAuth, Judge;
    var q, i := ReceiveStep(p, e), e.session;
    var v, w := p.sessions[i], q.sessions[i];
    var more := q.log[|p.log|..];
    assert q.log == p.log + more && q.store.tokens == p.store.tokens;
    forall j | j in q.sessions
      ensures SH.ServerGated(q.sessions[j]) && TraceBacked(q.log, j, q.sessions[j].handler.trace, q.store.tokens)
    {
      BackedGrows(p.log, more, j, p.sessions[j].handler.trace, p.store.tokens);
      if j == i {
        SessionBacked(p, e);
      }
    }
  }

  /** The environment a frame is handled in: the store's verdict if the frame asks for one. */
  function EnvOf(p: Process, e: Event): SH.Env
    requires e.Receive?
  {
    match Asks(e.frame)
    case None => e.env
    case Some(auth) =>
      var outcome := Verdict(p, auth, e);
      e.env.(rejection := if outcome == Accepted then None else Some(Message(outcome)))
  }

  lemma SessionBacked(p: Process, e: Event)
    requires e.Receive? && e.session in p.sessions && SH.Ready(p.sessions[e.session]) && Possible(p, e)
    requires SH.ServerGated(p.sessions[e.session])
    requires TraceBacked(ReceiveStep(p, e).log, e.session, p.sessions[e.session].handler.trace, p.store.tokens)
    ensures var q := ReceiveStep(p, e);
            && SH.ServerGated(q.sessions[e.session])
            && TraceBacked(q.log, e.session, q.sessions[e.session].handler.trace, p.store.tokens)
  {
    hide SH.ServerGated, SH.HandleFrame, DecodeAuth;
    var q, env := ReceiveStep(p, e), EnvOf(p, e);
    var v := p.sessions[e.session];
    var w := SH.HandleFrame(v, e.frame, env);
    assert q.sessions[e.session] == w;
    HandleTrace(v, e.frame, env);
    HandleGated(v, e.frame, env);
    var t, u := v.handler.trace, w.handler.trace;
    forall y | 0 <= y < |u| && u[y].Validated? && u[y].accepted
      ensures Backed(q.log, e.session, y, u[y].auth, p.store.tokens)
    {
      if y < |t| {
        assert t[y] == u[y];
      } else {
        assert Verdict(p, u[y].auth, e) == Accepted;
        assert Backs(q.log[|p.log|], e.session, y, u[y].auth, p.store.tokens);
      }
    }
  }

  lemma HandleGated(v: SH.Server, f: Frame, env: SH.Env)
    requires SH.Ready(v) && SH.ServerGated(v)
    ensures SH.ServerGated(SH.HandleFrame(v, f, env))
  {
    hide SH.Gated, SH.HandleFrame;
    SH.FrameKeepsGate(v, f, env);
  }

  /** The session's verdict is the store's: a ready session that takes a well-formed AUTH records it as accepted exactly
      when the store accepts its token and nonce, goes on to be authenticated then, and otherwise stops and answers with
      the store's reason. */
  lemma VerdictIsTheStores(p: Process, e: Event)
    requires e.Receive? && e.session in p.sessions && SH.Ready(p.sessions[e.session]) && Asks(e.frame).Some?
    ensures var auth, v, w := Asks(e.frame).value, p.sessions[e.session], Next(p, e).sessions[e.session];
            var outcome := Judge(p.store, Text(auth.token), auth.nonce, e.now, e.found);
            && w.handler.trace == v.handler.trace + [SH.Validated(auth, outcome == Accepted)]
            && (outcome == Accepted ==>
                  w.handler.authOK && w.session == Step(v.session, QueueControl(ZERO_FRAME.(kind := 0x02))))
            && (outcome != Accepted ==>
                  && w.handler.authOK == v.handler.authOK && w.stopped == Some(SH.AuthRejected)
                  && w.session == Step(v.session, QueueControl(ZERO_FRAME.(kind := 0x03, payload := Message(outcome)))))
            && Message(InvalidToken) == Ascii("invalid token")
            && Message(ExpiredOrRevoked) == Ascii("token expired or revoked")
            && Message(ReplayedNonce) == Ascii("replayed nonce")
  {
    hide DecodeAuth, Judge, PushControl, Ascii;
  }

  lemma NextBacked(p: Process, e: Event)
    requires AllBacked(p) && Possible(p, e)
    ensures AllBacked(Next(p, e))
  {
    hide SH.ServerGated, ReceiveStep, SH.React, Possible;
    match e
    case Begin(i, id) => BeginGated(id);
    case Receive(i, _, _, _, _, _) => if i in p.sessions && SH.Ready(p.sessions[i]) { ReceiveBacked(p, e); }
    case Other(i, ev) =>
      if i in p.sessions && !ev.Receive? {
        SH.ReactKeepsGate(p.sessions[i], ev);
        OtherTrace(p.sessions[i], ev);
      }
  }

  lemma BeginGated(id: uint32)
    ensures SH.ServerGated(SH.NewServer(id)) && SH.NewServer(id).handler.trace == []
  {
  }

  lemma {:induction false} RunBacked(p: Process, es: seq<Event>)
    requires AllBacked(p) && Runs(p, es)
    ensures AllBacked(Final(p, es)) && Final(p, es).store.tokens == p.store.tokens
    decreases |es|
  {
    hide AllBacked, Possible, ReceiveStep, SH.React;
    if es != [] {
      NextBacked(p, es[0]);
      TokensStay(p, es[0]);
      RunBacked(Next(p, es[0]), es[1..]);
    }
  }

  lemma TokensStay(p: Process, e: Event)
    ensures Next(p, e).store.tokens == p.store.tokens
  {
    hide SH.HandleFrame, SH.React, Judge;
  }

  /** The gate over a whole process.  In every run of a server, for every session and every dial, relay write, relay
      close or channel-count change in it: earlier in the same session came an AUTH frame that was accepted, and at
      that point of the session the store had accepted its token and nonce, on a record of its list that was neither
      revoked nor past its expiry. */
  lemma EffectsAreBacked(store: Store, clock: int, es: seq<Event>, session: nat, x: nat) returns (y: nat)
    requires Runs(Fresh(store, clock), es)
    requires var p := Final(Fresh(store, clock), es);
             session in p.sessions && x < |p.sessions[session].handler.trace|
             && !p.sessions[session].handler.trace[x].Validated?
    ensures var p := Final(Fresh(store, clock), es);
            var trace := p.sessions[session].handler.trace;
            && y < x && trace[y].Validated? && trace[y].accepted
            && Backed(p.log, session, y, trace[y].auth, store.tokens)
  {
    hide Final, Runs;
    RunBacked(Fresh(store, clock), es);
    var trace := Final(Fresh(store, clock), es).sessions[session].handler.trace;
    assert SH.AcceptedBefore(trace, x);
    y :| 0 <= y < x && trace[y].Validated? && trace[y].accepted;
  }

  // ---- No nonce serves two sessions ----

  /** The time until which an accepted nonce is to be remembered. */
  function Horizon(a: Acceptance): int {
    a.now + Until(a.rec.expiresAt, a.later)
  }

  function Key(a: Acceptance): string {
    ReplayKey(Text(a.auth.token), a.auth.nonce)
  }

  /** Every accepted nonce is still remembered, or the clock has passed the time it was to be remembered until. */
  ghost predicate Remembered(p: Process) {
    forall l :: 0 <= l < |p.log| ==>
      p.clock >= Horizon(p.log[l])
      || (Key(p.log[l]) in p.store.replay && p.store.replay[Key(p.log[l])] >= Horizon(p.log[l]))
  }

  /** A nonce accepted again was accepted no earlier than the first acceptance was to be remembered. */
  ghost predicate Apart(log: seq<Acceptance>) {
    forall k, l :: 0 <= k < l < |log| && log[k].auth == log[l].auth ==> log[l].now >= Horizon(log[k])
  }

  /** The clock does not run backwards from one validation to the next. */
  predicate Forward(p: Process, e: Event) {
    e.Receive? ==> p.clock <= e.now
  }

  ghost predicate AllForward(p: Process, es: seq<Event>)
    decreases |es|
  {
    es != [] ==> Forward(p, es[0]) && AllForward(Next(p, es[0]), es[1..])
  }

  lemma ReceiveApart(p: Process, e: Event)
    requires Remembered(p) && Apart(p.log) && Forward(p, e) && e.Receive? && e.session in p.sessions
    requires SH.Ready(p.sessions[e.session])
    ensures Remembered(ReceiveStep(p, e)) && Apart(ReceiveStep(p, e).log)
  {
    hide SH.HandleFrame, DecodeAuth, ReplayKey;
    var q := ReceiveStep(p, e);
    assert p.log <= q.log;
    forall k | 0 <= k < |p.log|
      ensures p.log[k] == q.log[k]
      ensures q.clock >= Horizon(p.log[k])
              || (Key(p.log[k]) in q.store.replay && q.store.replay[Key(p.log[k])] >= Horizon(p.log[k]))
    {
    }
  }

  lemma {:induction false} RunApart(p: Process, es: seq<Event>)
    requires Remembered(p) && Apart(p.log) && AllForward(p, es)
    ensures Apart(Final(p, es).log)
    decreases |es|
  {
    hide Remembered, Apart, ReceiveStep, SH.React;
    if es != [] {
      var e := es[0];
      if e.Receive? && e.session in p.sessions && SH.Ready(p.sessions[e.session]) {
        ReceiveApart(p, e);
      } else {
        QuietStep(p, e);
      }
      RunApart(Next(p, e), es[1..]);
    }
  }

  lemma QuietStep(p: Process, e: Event)
    requires Remembered(p) && Apart(p.log)
    requires !(e.Receive? && e.session in p.sessions && SH.Ready(p.sessions[e.session]))
    ensures Remembered(Next(p, e)) && Apart(Next(p, e).log)
  {
    hide SH.React;
  }

  /** In every run of a server with a clock that does not run backwards: if two AUTH frames, of whatever sessions,
      are accepted with the same token and nonce, the second is no earlier than the expiry of the first one's record
      less the gap between its two clock readings. */
  lemma NonceServesOnce(store: Store, clock: int, es: seq<Event>, k: nat, l: nat)
    requires AllForward(Fresh(store, clock), es)
    requires var log := Final(Fresh(store, clock), es).log; k < l < |log| && log[k].auth == log[l].auth
    ensures var log := Final(Fresh(store, clock), es).log;
            && log[l].now >= log[k].now + Until(log[k].rec.expiresAt, log[k].later)
            && (log[k].rec.expiresAt - log[k].later <= MAX_DURATION ==>
                  log[l].now >= log[k].rec.expiresAt - (log[k].later - log[k].now))
  {
    RunApart(Fresh(store, clock), es);
  }
}
