/** The token store: bearer tokens with expiry and revocation, replay memory, and the token file. */
module TokenStore {
  import opened Bytes
  import Base64

  type Nonce = n: seq<byte> | |n| == 12 witness [0, 0, 0, 0, 0, 0, 0, 0, 0, 0, 0, 0]

  /** Times are in nanoseconds. */
  datatype TokenRecord = TokenRecord(id: string, token: string, expiresAt: int, revoked: bool)

  datatype File = Absent | Records(list: seq<TokenRecord>) | Corrupt

  datatype Store = Store(path: string, tokens: map<string, TokenRecord>, replay: map<string, int>, file: File)

  datatype Outcome = Accepted | InvalidToken | ExpiredOrRevoked | ReplayedNonce

  /** What happens to the file when the store is flushed: it is rewritten from the records in some key
      order (and may still be reported as failed when closing it fails), cannot be opened, or is left cut
      short. */
  datatype Flush = Rewritten(keys: seq<string>, ok: bool) | NotOpened | CutShort

  const MAX_DURATION: int := 0x7FFF_FFFF_FFFF_FFFF

  /** time.Until saturates at the range of a duration. */
  function Until(t: int, now: int): int {
    var d := t - now;
    if d > MAX_DURATION then MAX_DURATION else if d < -MAX_DURATION - 1 then -MAX_DURATION - 1 else d
  }

  function ReplayKey(token: string, nonce: Nonce): string {
    token + ":" + Base64.Encode(nonce)
  }

  /** Twelve bytes always encode to sixteen characters, so the key determines token and nonce. */
  lemma ReplayKeyInjective(token: string, nonce: Nonce, token': string, nonce': Nonce)
    requires ReplayKey(token, nonce) == ReplayKey(token', nonce')
    ensures token == token' && nonce == nonce'
  {
    var a, b := ReplayKey(token, nonce), ReplayKey(token', nonce');
    assert |a| == |token| + 17 && |b| == |token'| + 17;
    assert a[..|token|] == token && b[..|token'|] == token';
    assert a[|token| + 1..] == Base64.Encode(nonce) && b[|token'| + 1..] == Base64.Encode(nonce');
    Base64.EncodeInjective(nonce, nonce');
  }

  // ---- Operations ----

  /** The record the scan of the token map stops at; with several records for one token it may be any. */
  ghost predicate FoundBy(tokens: map<string, TokenRecord>, token: string, found: Option<string>) {
    match found
    case None => forall k :: k in tokens ==> tokens[k].token != token
    case Some(k) => k in tokens && tokens[k].token == token
  }

  function Judge(s: Store, token: string, nonce: Nonce, now: int, found: Option<string>): Outcome {
    if found.None? || found.value !in s.tokens then InvalidToken
    else
      var rec := s.tokens[found.value];
      var key := ReplayKey(token, nonce);
      if rec.revoked || now > rec.expiresAt then ExpiredOrRevoked
      else if key in s.replay && s.replay[key] > now then ReplayedNonce
      else Accepted
  }

  /** Validate reads the clock twice: `now` to judge, `later` to compute how long to remember. */
  function Validate(s: Store, token: string, nonce: Nonce, now: int, later: int, found: Option<string>)
    : (Store, Outcome) {
    var outcome := Judge(s, token, nonce, now, found);
    if outcome != Accepted then (s, outcome)
    else
      var until := now + Until(s.tokens[found.value].expiresAt, later);
      (s.(replay := s.replay[ReplayKey(token, nonce) := until]), Accepted)
  }

  function ListOf(tokens: map<string, TokenRecord>, keys: seq<string>): (list: seq<TokenRecord>)
    requires forall i :: 0 <= i < |keys| ==> keys[i] in tokens
    ensures |list| == |keys| && forall i :: 0 <= i < |keys| ==> list[i] == tokens[keys[i]]
  {
    seq(|keys|, i requires 0 <= i < |keys| => tokens[keys[i]])
  }

  /** A full iteration of the token map. */
  ghost predicate Enumerates(keys: seq<string>, tokens: map<string, TokenRecord>) {
    && (forall i :: 0 <= i < |keys| ==> keys[i] in tokens)
    && (forall k :: k in tokens ==> k in keys)
    && (forall i, j :: 0 <= i < j < |keys| ==> keys[i] != keys[j])
  }

  ghost predicate LegalFlush(tokens: map<string, TokenRecord>, flush: Flush) {
    flush.Rewritten? ==> Enumerates(flush.keys, tokens)
  }

  predicate FlushOk(s: Store, flush: Flush) {
    s.path == "" || (flush.Rewritten? && flush.ok)
  }

  ghost function Flushed(s: Store, flush: Flush): Store
    requires LegalFlush(s.tokens, flush)
  {
    if s.path == "" then s
    else
      match flush
      case Rewritten(keys, _) => s.(file := Records(ListOf(s.tokens, keys)))
      case NotOpened => s
      case CutShort => s.(file := Corrupt)
  }

  /** What a flush leaves behind and what it reports: without a path nothing is written and all is well; otherwise the
      file holds the list if it could be written, is unchanged if it could not be opened and does not parse if the write
      broke off; and only a list that was written, with the file closed, is reported as a success. */
  lemma FlushExactly(s: Store, flush: Flush)
    requires LegalFlush(s.tokens, flush)
    ensures s.path == "" ==> Flushed(s, flush) == s && FlushOk(s, flush)
    ensures s.path != "" && flush == NotOpened ==> Flushed(s, flush) == s && !FlushOk(s, flush)
    ensures s.path != "" && flush == CutShort ==> Flushed(s, flush) == s.(file := Corrupt) && !FlushOk(s, flush)
    ensures s.path != "" && flush.Rewritten? ==>
              && Flushed(s, flush) == s.(file := Records(ListOf(s.tokens, flush.keys)))
              && (FlushOk(s, flush) <==> flush.ok)
  {
  }

  function Marked(s: Store, id: string): Store
    requires id in s.tokens
  {
    s.(tokens := s.tokens[id := s.tokens[id].(revoked := true)])
  }

  function Added(s: Store, rec: TokenRecord): Store {
    s.(tokens := s.tokens[rec.id := rec])
  }

  /** NewStore's loop: later records replace earlier ones with the same id. */
  function Load(list: seq<TokenRecord>): map<string, TokenRecord> {
    if list == [] then map[]
    else
      var n := |list| - 1;
      Load(list[..n])[list[n].id := list[n]]
  }

  /** A fresh store for a path, unless the file cannot be read or does not parse. */
  function Opened(path: string, file: File, readable: bool): Option<Store> {
    if path == "" then Some(Store(path, map[], map[], file))
    else if !readable || file.Corrupt? then None
    else if file.Absent? then Some(Store(path, map[], map[], file))
    else Some(Store(path, Load(file.list), map[], file))
  }

  // ---- Reloading what was flushed ----

  ghost predicate KeyedById(tokens: map<string, TokenRecord>) {
    forall k :: k in tokens ==> tokens[k].id == k
  }

  lemma {:induction false} LoadListOf(tokens: map<string, TokenRecord>, keys: seq<string>)
    requires KeyedById(tokens) && forall i :: 0 <= i < |keys| ==> keys[i] in tokens
    ensures Load(ListOf(tokens, keys)) == map k | k in keys :: tokens[k]
  {
    if keys != [] {
      var n := |keys| - 1;
      LoadListOf(tokens, keys[..n]);
      assert ListOf(tokens, keys)[..n] == ListOf(tokens, keys[..n]);
      assert keys == keys[..n] + [keys[n]];
    }
  }

  /** Flushing and reopening rebuilds the same token map, in whatever order the records were listed. */
  lemma ReloadRebuilds(s: Store, flush: Flush)
    requires KeyedById(s.tokens) && LegalFlush(s.tokens, flush) && flush.Rewritten? && s.path != ""
    ensures var t := Flushed(s, flush);
            Opened(t.path, t.file, true) == Some(t.(replay := map[]))
  {
    LoadListOf(s.tokens, flush.keys);
    assert (map k | k in flush.keys :: s.tokens[k]) == s.tokens;
  }

  // ---- Starting ----

  /** Of several records with one id the last one counts, and no other record gets in. */
  lemma {:induction false} LastRecordWins(list: seq<TokenRecord>, id: string)
    ensures id in Load(list) <==> exists i :: 0 <= i < |list| && list[i].id == id
    ensures forall i :: 0 <= i < |list| && list[i].id == id && (forall j :: i < j < |list| ==> list[j].id != id) ==>
              id in Load(list) && Load(list)[id] == list[i]
  {
    if list != [] {
      var n := |list| - 1;
      LastRecordWins(list[..n], id);
      assert forall i :: 0 <= i < n ==> list[..n][i] == list[i];
      if list[n].id != id && exists i :: 0 <= i < |list| && list[i].id == id {
        var i :| 0 <= i < |list| && list[i].id == id;
        assert list[..n][i].id == id;
      }
    }
  }

  /** A store fails to open exactly when it has a path and the file there cannot be read or does not parse.  A missing
      file, like a missing path, makes an empty store; in every case no nonce is remembered. */
  lemma OpensExactly(path: string, file: File, readable: bool)
    ensures Opened(path, file, readable).None? <==> path != "" && (!readable || file.Corrupt?)
    ensures Opened(path, file, readable).Some? ==>
              var s := Opened(path, file, readable).value;
              && s.path == path && s.file == file && s.replay == map[]
              && (path == "" || file.Absent? ==> s.tokens == map[])
              && (path != "" && file.Records? ==> s.tokens == Load(file.list))
  {
  }

  // ---- Whole runs ----

  datatype Op =
    | DoValidate(token: string, nonce: Nonce, now: int, later: int, found: Option<string>)
    | DoRevoke(id: string, flush: Flush)
    | DoGenerate(rec: TokenRecord, flush: Flush)
    | Restart(readable: bool)

  /** A process with its store, or one without because the token file could not be loaded. */
  datatype Server = Up(store: Store) | Down(path: string, file: File)

  ghost predicate Enabled(v: Server, op: Op) {
    v.Up? ==>
      match op
      case DoValidate(token, _, _, _, found) => FoundBy(v.store.tokens, token, found)
      case DoRevoke(id, flush) => id in v.store.tokens ==> LegalFlush(Marked(v.store, id).tokens, flush)
      case DoGenerate(rec, flush) => !rec.revoked && LegalFlush(Added(v.store, rec).tokens, flush)
      case Restart(_) => true
  }

  function Start(path: string, file: File, readable: bool): Server {
    match Opened(path, file, readable)
    case Some(s) => Up(s)
    case None => Down(path, file)
  }

  ghost function Next(v: Server, op: Op): Server
    requires Enabled(v, op)
  {
    match v
    case Down(path, file) => if op.Restart? then Start(path, file, op.readable) else v
    case Up(s) =>
      match op
      case DoValidate(token, nonce, now, later, found) => Up(Validate(s, token, nonce, now, later, found).0)
      case DoRevoke(id, flush) => if id in s.tokens then Up(Flushed(Marked(s, id), flush)) else v
      case DoGenerate(rec, flush) => Up(Flushed(Added(s, rec), flush))
      case Restart(readable) => Start(s.path, s.file, readable)
  }

  ghost predicate Runs(v: Server, ops: seq<Op>)
    decreases |ops|
  {
    ops != [] ==> Enabled(v, ops[0]) && Runs(Next(v, ops[0]), ops[1..])
  }

  ghost function Final(v: Server, ops: seq<Op>): Server
    requires Runs(v, ops)
    decreases |ops|
  {
    if ops == [] then v else Final(Next(v, ops[0]), ops[1..])
  }

  predicate Accepts(v: Server, op: Op) {
    v.Up? && op.DoValidate? && Judge(v.store, op.token, op.nonce, op.now, op.found) == Accepted
  }

  lemma {:induction false} LoadKeyed(list: seq<TokenRecord>)
    ensures KeyedById(Load(list))
  {
    if list != [] {
      LoadKeyed(list[..|list| - 1]);
    }
  }

  // ---- Replay ----

  /** The operations of one server process. */
  ghost predicate NoRestart(ops: seq<Op>) {
    forall i :: 0 <= i < |ops| ==> !ops[i].Restart?
  }

  /** Clock readings do not run backwards past a given last reading. */
  ghost predicate Before(ops: seq<Op>, last: int) {
    forall i :: 0 <= i < |ops| && ops[i].DoValidate? ==> ops[i].now <= last
  }

  /** Either the nonce is still remembered at least until v, or the clock has passed v already. */
  lemma {:induction false} Remembered(v: Server, ops: seq<Op>, key: string, until: int, last: int)
    requires Runs(v, ops) && NoRestart(ops) && Before(ops, last) && v.Up?
    requires last >= until || (key in v.store.replay && v.store.replay[key] >= until)
    ensures Final(v, ops).Up?
    ensures last >= until || (key in Final(v, ops).store.replay && Final(v, ops).store.replay[key] >= until)
    decreases |ops|
  {
    if ops != [] {
      var w := Next(v, ops[0]);
      assert w.Up?;
      Remembered(w, ops[1..], key, until, last);
    }
  }

  /** If one process accepts the same token and nonce twice, with anything in between, the second
      acceptance reads the clock no earlier than the first acceptance's expiry less the gap between its
      two clock readings (or MAX_DURATION after the first, if that is sooner). */
  lemma ReplayBound(v: Server, first: Op, between: seq<Op>, second: Op)
    requires Enabled(v, first) && Accepts(v, first)
    requires Runs(Next(v, first), between) && NoRestart(between)
    requires second.DoValidate? && second.token == first.token && second.nonce == first.nonce
    requires Before(between, second.now)
    requires Accepts(Final(Next(v, first), between), second)
    ensures second.now >= first.now + Until(v.store.tokens[first.found.value].expiresAt, first.later)
    ensures v.store.tokens[first.found.value].expiresAt - first.later <= MAX_DURATION ==>
              second.now >= v.store.tokens[first.found.value].expiresAt - (first.later - first.now)
  {
    var key := ReplayKey(first.token, first.nonce);
    var until := first.now + Until(v.store.tokens[first.found.value].expiresAt, first.later);
    Remembered(Next(v, first), between, key, until, second.now);
  }

  /** Until when the last acceptance of a token and nonce in a run was to be remembered, if there was one. */
  ghost function LastHorizon(v: Server, ops: seq<Op>, token: string, nonce: Nonce): Option<int>
    requires Runs(v, ops)
    decreases |ops|
  {
    if ops == [] then None
    else
      var later := LastHorizon(Next(v, ops[0]), ops[1..], token, nonce);
      if later.None? && Accepts(v, ops[0]) && ops[0].token == token && ops[0].nonce == nonce
      then Some(ops[0].now + Saturated(v.store.tokens[ops[0].found.value].expiresAt - ops[0].later))
      else later
  }

  /** A difference of times in a signed 64-bit number of nanoseconds: about 292 years either way. */
  function Saturated(d: int): int {
    if d > 0x7FFF_FFFF_FFFF_FFFF then 0x7FFF_FFFF_FFFF_FFFF
    else if d < -0x8000_0000_0000_0000 then -0x8000_0000_0000_0000
    else d
  }

  /** The replay memory holds exactly the last horizon of each pair. */
  lemma {:induction false} LastIsRemembered(v: Server, ops: seq<Op>, token: string, nonce: Nonce)
    requires Runs(v, ops) && NoRestart(ops) && v.Up?
    ensures Final(v, ops).Up?
    ensures var key, replay := ReplayKey(token, nonce), Final(v, ops).store.replay;
            match LastHorizon(v, ops, token, nonce)
            case Some(horizon) => key in replay && replay[key] == horizon
            case None => if key in v.store.replay then key in replay && replay[key] == v.store.replay[key]
                         else key !in replay
    decreases |ops|
  {
    hide ReplayKey;
    if ops != [] {
      var w := Next(v, ops[0]);
      assert w.Up?;
      LastIsRemembered(w, ops[1..], token, nonce);
      if Accepts(v, ops[0]) && ReplayKey(ops[0].token, ops[0].nonce) == ReplayKey(token, nonce) {
        ReplayKeyInjective(ops[0].token, ops[0].nonce, token, nonce);
      }
    }
  }

  predicate Usable(tokens: map<string, TokenRecord>, found: Option<string>, now: int) {
    found.Some? && found.value in tokens && !tokens[found.value].revoked && now <= tokens[found.value].expiresAt
  }

  /** Over every run of a process: a validation accepts exactly when the record found is neither revoked nor expired
      and the pair was not accepted before in the process, or was last accepted with a horizon that has passed.  The
      three refusals are told apart: no record, a record that is revoked or expired, a nonce that is remembered. */
  lemma AcceptedExactly(path: string, file: File, ops: seq<Op>, op: Op)
    requires Start(path, file, true).Up? && Runs(Start(path, file, true), ops) && NoRestart(ops)
    requires op.DoValidate?
    ensures Final(Start(path, file, true), ops).Up?
    ensures var u, last := Final(Start(path, file, true), ops),
                           LastHorizon(Start(path, file, true), ops, op.token, op.nonce);
            && (Accepts(u, op)
                <==> Usable(u.store.tokens, op.found, op.now) && (last.Some? ==> last.value <= op.now))
            && (Judge(u.store, op.token, op.nonce, op.now, op.found) == ReplayedNonce
                <==> Usable(u.store.tokens, op.found, op.now) && last.Some? && last.value > op.now)
            && (Judge(u.store, op.token, op.nonce, op.now, op.found) == InvalidToken
                <==> op.found.None? || op.found.value !in u.store.tokens)
            && (Judge(u.store, op.token, op.nonce, op.now, op.found) == ExpiredOrRevoked
                <==> op.found.Some? && op.found.value in u.store.tokens
                     && (u.store.tokens[op.found.value].revoked || op.now > u.store.tokens[op.found.value].expiresAt))
  {
    hide ReplayKey;
    LastIsRemembered(Start(path, file, true), ops, op.token, op.nonce);
  }

  /** A nonce can serve twice: it is accepted again at the moment its token expires, and a little earlier if the clock
      moved between the two readings of the first validation. */
  lemma AcceptedTwice(path: string, rec: TokenRecord, nonce: Nonce, now: int, later: int, again: int)
    requires path != "" && !rec.revoked && now <= later <= rec.expiresAt && rec.expiresAt - later <= MAX_DURATION
    requires rec.expiresAt - (later - now) <= again <= rec.expiresAt
    ensures var v := Start(path, Records([rec]), true);
            var first := DoValidate(rec.token, nonce, now, later, Some(rec.id));
            var second := DoValidate(rec.token, nonce, again, again, Some(rec.id));
            && Enabled(v, first) && Accepts(v, first)
            && Enabled(Next(v, first), second) && Accepts(Next(v, first), second)
  {
    hide ReplayKey;
    assert [rec][..0] == [];
    assert Load([rec]) == map[rec.id := rec];
  }
}
