/** Several processes over one token file.  A server loads the file once when it starts; each command that
    issues or revokes a token loads it, changes its own copy and writes the whole list back.  Whether a
    revocation reaches a process is therefore a matter of the order of loads and writes. */
module TokenProcesses {
  import opened Bytes
  import opened TokenStore

  datatype World = World(path: string, file: File, stores: map<nat, Store>)

  datatype Step = Step(who: nat, op: Op)

  /** One process as it sees itself and the shared file. */
  function View(w: World, who: nat): Server {
    if who in w.stores then Up(w.stores[who].(path := w.path, file := w.file)) else Down(w.path, w.file)
  }

  ghost predicate Possible(w: World, st: Step) {
    Enabled(View(w, st.who), st.op)
  }

  ghost function Act(w: World, st: Step): World
    requires Possible(w, st)
  {
    match Next(View(w, st.who), st.op)
    case Up(s) => World(w.path, s.file, w.stores[st.who := s])
    case Down(_, file) => World(w.path, file, w.stores - {st.who})
  }

  ghost predicate Legal(w: World, steps: seq<Step>)
    decreases |steps|, 0
  {
    steps != [] ==>
      var n := |steps| - 1;
      Legal(w, steps[..n]) && Possible(After(w, steps[..n]), steps[n])
  }

  ghost function After(w: World, steps: seq<Step>): World
    requires Legal(w, steps)
    decreases |steps|, 1
  {
    if steps == [] then w
    else
      var n := |steps| - 1;
      Act(After(w, steps[..n]), steps[n])
  }

  lemma AfterSnoc(w: World, steps: seq<Step>, st: Step)
    requires Legal(w, steps) && Possible(After(w, steps), st)
    ensures Legal(w, steps + [st]) && After(w, steps + [st]) == Act(After(w, steps), st)
  {
    assert (steps + [st])[..|steps|] == steps;
  }

  // ---- A record that was issued once ----

  /** The record may be there, revoked or not, and nothing else has its id or its token. */
  ghost predicate Sole(tokens: map<string, TokenRecord>, rec: TokenRecord) {
    forall k :: k in tokens && (k == rec.id || tokens[k].token == rec.token) ==>
      k == rec.id && tokens[k].(revoked := false) == rec
  }

  /** A copy of the token list in which the record is not revoked. */
  ghost predicate Holds(tokens: map<string, TokenRecord>, rec: TokenRecord) {
    rec.id in tokens && tokens[rec.id] == rec
  }

  /** What a process that loads the file now would hold. */
  function FileTokens(w: World): map<string, TokenRecord> {
    if w.path != "" && w.file.Records? then Load(w.file.list) else map[]
  }

  ghost predicate IssuedOnce(w: World, rec: TokenRecord) {
    && Sole(FileTokens(w), rec)
    && forall i :: i in w.stores ==> KeyedById(w.stores[i].tokens) && Sole(w.stores[i].tokens, rec)
  }

  /** Tokens and ids are drawn at random: nothing that is issued repeats the token or the id of the record. */
  ghost predicate Fresh(op: Op, rec: TokenRecord) {
    op.DoGenerate? ==> op.rec.id != rec.id && op.rec.token != rec.token
  }

  /** The record itself may be issued, too. */
  ghost predicate Expected(op: Op, rec: TokenRecord) {
    Fresh(op, rec) || op.rec == rec
  }

  ghost predicate AllFresh(steps: seq<Step>, rec: TokenRecord) {
    forall i :: 0 <= i < |steps| ==> Fresh(steps[i].op, rec)
  }

  predicate Saves(w: World, flush: Flush) {
    w.path != "" && flush.Rewritten?
  }

  /** A step in which a process that has the file open changes its copy and flushes it. */
  predicate Writes(w: World, st: Step) {
    && st.who in w.stores
    && (st.op.DoGenerate? || (st.op.DoRevoke? && st.op.id in w.stores[st.who].tokens))
  }

  /** What is written can be loaded again, whatever the order of the list. */
  lemma SavedTokens(w: World, st: Step)
    requires Possible(w, st) && Writes(w, st) && KeyedById(Act(w, st).stores[st.who].tokens)
    ensures Saves(w, st.op.flush) ==> FileTokens(Act(w, st)) == Act(w, st).stores[st.who].tokens
    ensures st.op.flush.NotOpened? || w.path == "" ==> FileTokens(Act(w, st)) == FileTokens(w)
    ensures st.op.flush.CutShort? && w.path != "" ==> FileTokens(Act(w, st)) == map[]
  {
    var u := Act(w, st);
    if Saves(w, st.op.flush) {
      var tokens, keys := u.stores[st.who].tokens, st.op.flush.keys;
      LoadListOf(tokens, keys);
      assert (map k | k in keys :: tokens[k]) == tokens;
    }
  }

  lemma WriteIssuedOnce(w: World, st: Step, rec: TokenRecord)
    requires IssuedOnce(w, rec) && Possible(w, st) && Writes(w, st) && Expected(st.op, rec)
    ensures IssuedOnce(Act(w, st), rec)
  {
    hide Enumerates, Load;
    var u, before := Act(w, st), w.stores[st.who].tokens;
    var after := u.stores[st.who].tokens;
    assert u.stores == w.stores[st.who := u.stores[st.who]];
    assert KeyedById(after) && Sole(after, rec);
    SavedTokens(w, st);
  }

  lemma StepIssuedOnce(w: World, st: Step, rec: TokenRecord)
    requires IssuedOnce(w, rec) && Possible(w, st) && Expected(st.op, rec)
    ensures IssuedOnce(Act(w, st), rec)
  {
    hide Load, Sole, KeyedById, Enumerates;
    if Writes(w, st) {
      WriteIssuedOnce(w, st, rec);
    } else if st.op.Restart? {
      RestartIssuedOnce(w, st, rec);
    }
  }

  lemma RestartIssuedOnce(w: World, st: Step, rec: TokenRecord)
    requires IssuedOnce(w, rec) && Possible(w, st) && st.op.Restart?
    ensures IssuedOnce(Act(w, st), rec)
  {
    hide Load;
    if w.file.Records? {
      LoadKeyed(w.file.list);
    }
  }

  /** In every run in which no other token repeats its id or token string, a record stays the only one of its
      kind in every process and in the file. */
  lemma {:induction false} RunIssuedOnce(w: World, steps: seq<Step>, rec: TokenRecord)
    requires IssuedOnce(w, rec) && Legal(w, steps)
    requires forall i :: 0 <= i < |steps| ==> Expected(steps[i].op, rec)
    ensures IssuedOnce(After(w, steps), rec)
    decreases |steps|
  {
    if steps != [] {
      var n := |steps| - 1;
      RunIssuedOnce(w, steps[..n], rec);
      StepIssuedOnce(After(w, steps[..n]), steps[n], rec);
    }
  }

  /** In every run of any number of processes: a process that loads the file right after a Generate that was
      written has exactly the tokens of the generating process, the new one included. */
  lemma OpenAfterGenerate(w: World, steps: seq<Step>, rec: TokenRecord, st: Step, reader: nat)
    requires Legal(w, steps) && w.stores == map[] && w.path != ""
    requires Possible(After(w, steps), st) && st.who in After(w, steps).stores
    requires st.op.DoGenerate? && st.op.rec == rec && st.op.flush.Rewritten?
    ensures var u := Act(After(w, steps), st);
            var v := Act(u, Step(reader, Restart(true)));
            && reader in v.stores && v.stores[reader].tokens == u.stores[st.who].tokens
            && rec.id in v.stores[reader].tokens && v.stores[reader].tokens[rec.id] == rec
  {
    RunKeyed(w, steps);
    var u := Act(After(w, steps), st);
    assert After(w, steps).path == w.path;
    SavedTokens(After(w, steps), st);
  }

  /** The first token on a new machine: a process started on a missing file comes up with no tokens; after one Generate
      that was written, a process started on that file accepts the new token, with any nonce, exactly until its
      expiry. */
  lemma Bootstrap(path: string, rec: TokenRecord, closed: bool, nonce: Nonce, now: int, later: int)
    requires path != "" && !rec.revoked
    ensures var w := World(path, Absent, map[]);
            var first := Act(w, Step(0, Restart(true)));
            var issue := Step(0, DoGenerate(rec, Rewritten([rec.id], closed)));
            var op := DoValidate(rec.token, nonce, now, later, Some(rec.id));
            && 0 in first.stores && first.stores[0].tokens == map[] && Possible(first, issue)
            && var u := Act(Act(first, issue), Step(1, Restart(true)));
               && 1 in u.stores && u.stores[1].tokens == map[rec.id := rec] && Possible(u, Step(1, op))
               && (Accepts(View(u, 1), op) <==> now <= rec.expiresAt)
  {
    var first := Act(World(path, Absent, map[]), Step(0, Restart(true)));
    var issue := Step(0, DoGenerate(rec, Rewritten([rec.id], closed)));
    assert Added(View(first, 0).store, rec).tokens == map[rec.id := rec];
    assert Enumerates([rec.id], map[rec.id := rec]);
    SavedTokens(first, issue);
  }

  ghost predicate AllKeyed(w: World) {
    forall i :: i in w.stores ==> KeyedById(w.stores[i].tokens)
  }

  lemma {:induction false} RunKeyed(w: World, steps: seq<Step>)
    requires Legal(w, steps) && AllKeyed(w)
    ensures AllKeyed(After(w, steps)) && After(w, steps).path == w.path
    decreases |steps|
  {
    hide Act, AllKeyed, Possible;
    if steps != [] {
      var n := |steps| - 1;
      RunKeyed(w, steps[..n]);
      StepKeyed(After(w, steps[..n]), steps[n]);
    }
  }

  lemma StepKeyed(w: World, st: Step)
    requires Possible(w, st) && AllKeyed(w)
    ensures AllKeyed(Act(w, st)) && Act(w, st).path == w.path
  {
    hide Load, Enumerates;
    if w.file.Records? {
      LoadKeyed(w.file.list);
    }
  }

  // ---- Who still holds the unrevoked record, by the order of loads and writes ----

  datatype Effect =
    | Loaded    // the process read the file
    | Ended     // the process tried to and is without a store
    | Saved     // the file is now this process's list
    | Spoiled   // the file was left cut short
    | Quiet

  /** What a step did to the file and its own copy; `revoking` if it revoked the record in question. */
  datatype FileEvent = FileEvent(who: nat, effect: Effect, revoking: bool)

  function WriteEffect(w: World, flush: Flush): Effect {
    if Saves(w, flush) then Saved else if w.path != "" && flush.CutShort? then Spoiled else Quiet
  }

  function EventOf(w: World, st: Step, id: string): FileEvent {
    if st.op.Restart? then
      FileEvent(st.who, if Opened(w.path, w.file, st.op.readable).Some? then Loaded else Ended, false)
    else if Writes(w, st) then FileEvent(st.who, WriteEffect(w, st.op.flush), st.op.DoRevoke? && st.op.id == id)
    else FileEvent(st.who, Quiet, false)
  }

  ghost function Events(w: World, steps: seq<Step>, id: string): (es: seq<FileEvent>)
    requires Legal(w, steps)
    ensures |es| == |steps|
    decreases |steps|
  {
    if steps == [] then []
    else
      var n := |steps| - 1;
      Events(w, steps[..n], id) + [EventOf(After(w, steps[..n]), steps[n], id)]
  }

  /** A process has an old copy if it had one at the time of the revocation and has neither loaded the file nor
      revoked the record itself since, or if the file was old when it last loaded it. */
  predicate OldCopy(holders: set<nat>, es: seq<FileEvent>, who: nat)
    decreases |es|, 0
  {
    if es == [] then who in holders
    else
      var n := |es| - 1;
      if es[n].who != who then OldCopy(holders, es[..n], who)
      else
        match es[n].effect
        case Loaded => OldFile(holders, es[..n])
        case Ended => false
        case _ => !es[n].revoking && OldCopy(holders, es[..n], who)
  }

  /** The file is old if it was last written by a process with an old copy. */
  predicate OldFile(holders: set<nat>, es: seq<FileEvent>)
    decreases |es|, 1
  {
    if es == [] then false
    else
      var n := |es| - 1;
      match es[n].effect
      case Saved => OldCopy(holders, es, es[n].who)
      case Spoiled => false
      case _ => OldFile(holders, es[..n])
  }

  ghost predicate Tracked(w: World, rec: TokenRecord, holders: set<nat>, es: seq<FileEvent>) {
    && (forall i :: OldCopy(holders, es, i) <==> i in w.stores && Holds(w.stores[i].tokens, rec))
    && (OldFile(holders, es) <==> Holds(FileTokens(w), rec))
  }

  lemma LastEvent(holders: set<nat>, es: seq<FileEvent>, e: FileEvent, i: nat)
    ensures i != e.who ==> OldCopy(holders, es + [e], i) == OldCopy(holders, es, i)
    ensures OldCopy(holders, es + [e], e.who)
            == match e.effect {
                 case Loaded => OldFile(holders, es)
                 case Ended => false
                 case _ => !e.revoking && OldCopy(holders, es, e.who)
               }
    ensures OldFile(holders, es + [e])
            == match e.effect {
                 case Saved => !e.revoking && OldCopy(holders, es, e.who)
                 case Spoiled => false
                 case _ => OldFile(holders, es)
               }
  {
    assert (es + [e])[..|es|] == es;
  }

  lemma StepTracked(w: World, st: Step, rec: TokenRecord, holders: set<nat>, es: seq<FileEvent>)
    requires Tracked(w, rec, holders, es) && IssuedOnce(w, rec) && !rec.revoked
    requires Possible(w, st) && Fresh(st.op, rec)
    ensures Tracked(Act(w, st), rec, holders, es + [EventOf(w, st, rec.id)])
  {
    hide OldCopy, OldFile;
    var e, u := EventOf(w, st, rec.id), Act(w, st);
    StepIssuedOnce(w, st, rec);
    if Writes(w, st) {
      SavedTokens(w, st);
    }
    LastEvent(holders, es, e, st.who);
    forall i
      ensures OldCopy(holders, es + [e], i) <==> i in u.stores && Holds(u.stores[i].tokens, rec)
    {
      LastEvent(holders, es, e, i);
    }
  }

  lemma {:induction false} RunTracked(w: World, steps: seq<Step>, rec: TokenRecord, holders: set<nat>)
    requires Tracked(w, rec, holders, []) && IssuedOnce(w, rec) && !rec.revoked
    requires Legal(w, steps) && AllFresh(steps, rec)
    ensures Tracked(After(w, steps), rec, holders, Events(w, steps, rec.id)) && IssuedOnce(After(w, steps), rec)
    decreases |steps|
  {
    if steps != [] {
      var n := |steps| - 1;
      RunTracked(w, steps[..n], rec, holders);
      StepTracked(After(w, steps[..n]), steps[n], rec, holders, Events(w, steps[..n], rec.id));
      StepIssuedOnce(After(w, steps[..n]), steps[n], rec);
    }
  }

  // ---- Revocation ----

  /** A Revoke that reports success: the record was found and the flush succeeded. */
  ghost predicate Revokes(w: World, st: Step, rec: TokenRecord) {
    && Possible(w, st) && st.who in w.stores && st.op.DoRevoke? && st.op.id == rec.id
    && rec.id in w.stores[st.who].tokens && FlushOk(View(w, st.who).store, st.op.flush)
  }

  /** The other processes that hold the record unrevoked. */
  function Holders(w: World, who: nat, rec: TokenRecord): set<nat> {
    set i | i in w.stores && i != who && rec.id in w.stores[i].tokens && w.stores[i].tokens[rec.id] == rec
  }

  lemma RevokeTracked(w: World, st: Step, rec: TokenRecord)
    requires IssuedOnce(w, rec) && !rec.revoked && Revokes(w, st, rec)
    ensures Tracked(Act(w, st), rec, Holders(w, st.who, rec), []) && IssuedOnce(Act(w, st), rec)
  {
    StepIssuedOnce(w, st, rec);
    SavedTokens(w, st);
  }

  predicate Replayed(v: Server, op: Op)
    requires op.DoValidate?
  {
    var key := ReplayKey(op.token, op.nonce);
    v.Up? && key in v.store.replay && v.store.replay[key] > op.now
  }

  /** How far a revocation reaches, exactly.  After a Revoke that succeeded and any further run of any number of
      processes, a process accepts the token if and only if it has an old copy by the order of loads and writes,
      the record has not expired, and the nonce is not remembered. */
  lemma RevocationReaches(w: World, st: Step, rec: TokenRecord, steps: seq<Step>, who: nat, op: Op)
    requires IssuedOnce(w, rec) && !rec.revoked && Revokes(w, st, rec)
    requires Legal(Act(w, st), steps) && AllFresh(steps, rec)
    requires op.DoValidate? && op.token == rec.token && Possible(After(Act(w, st), steps), Step(who, op))
    ensures var u := After(Act(w, st), steps);
            Accepts(View(u, who), op)
            <==> && OldCopy(Holders(w, st.who, rec), Events(Act(w, st), steps, rec.id), who)
                 && op.now <= rec.expiresAt && !Replayed(View(u, who), op)
  {
    hide OldCopy, OldFile;
    RevokeTracked(w, st, rec);
    RunTracked(Act(w, st), steps, rec, Holders(w, st.who, rec));
    var u := After(Act(w, st), steps);
    if who in u.stores {
      var tokens := u.stores[who].tokens;
      assert Sole(tokens, rec);
      if op.found.Some? {
        assert op.found.value == rec.id;
      } else {
        assert rec.id in tokens ==> tokens[rec.id].token == rec.token;
      }
    }
  }

  // ---- A condition that is enough ----

  predicate Reloaded(es: seq<FileEvent>, who: nat) {
    exists i :: 0 <= i < |es| && es[i].who == who && (es[i].effect.Loaded? || es[i].effect.Ended?)
  }

  /** No process that was open at the revocation writes the file before loading it again. */
  predicate NoOldWrites(holders: set<nat>, es: seq<FileEvent>) {
    forall i :: 0 <= i < |es| && es[i].effect.Saved? ==> es[i].who !in holders || Reloaded(es[..i], es[i].who)
  }

  lemma {:induction false} NothingOld(holders: set<nat>, es: seq<FileEvent>, who: nat)
    requires NoOldWrites(holders, es)
    ensures !OldFile(holders, es)
    ensures who !in holders || Reloaded(es, who) ==> !OldCopy(holders, es, who)
    decreases |es|
  {
    if es != [] {
      var n := |es| - 1;
      var e := es[n];
      assert forall i :: 0 <= i < n ==> es[..n][i] == es[i] && es[..n][..i] == es[..i];
      assert NoOldWrites(holders, es[..n]);
      NothingOld(holders, es[..n], e.who);
      NothingOld(holders, es[..n], who);
      if Reloaded(es, who) && !(e.who == who && (e.effect.Loaded? || e.effect.Ended?)) {
        var i :| 0 <= i < |es| && es[i].who == who && (es[i].effect.Loaded? || es[i].effect.Ended?);
        assert es[..n][i] == es[i];
        assert Reloaded(es[..n], who);
      }
    }
  }

  /** A revocation persists: as long as no process that held the record when it was revoked writes the file
      without loading it again, every process that was not such a holder or has loaded the file since refuses
      the token, over every run of validations, revocations, new tokens, failed writes and restarts. */
  lemma RevocationPersists(w: World, st: Step, rec: TokenRecord, steps: seq<Step>, who: nat, op: Op)
    requires IssuedOnce(w, rec) && !rec.revoked && Revokes(w, st, rec)
    requires Legal(Act(w, st), steps) && AllFresh(steps, rec)
    requires op.DoValidate? && op.token == rec.token && Possible(After(Act(w, st), steps), Step(who, op))
    requires var es := Events(Act(w, st), steps, rec.id);
             && NoOldWrites(Holders(w, st.who, rec), es)
             && (who !in Holders(w, st.who, rec) || Reloaded(es, who))
    ensures !Accepts(View(After(Act(w, st), steps), who), op)
  {
    RevocationReaches(w, st, rec, steps, who, op);
    NothingOld(Holders(w, st.who, rec), Events(Act(w, st), steps, rec.id), who);
  }

  /** That condition is not necessary: what counts is the last write before a load.  Here process 1 held the record
      and writes it back, but process 3, which loaded the file before that, writes after it. */
  lemma OldWriteUndone()
    ensures var es := [FileEvent(3, Loaded, false), FileEvent(1, Saved, false), FileEvent(3, Saved, false),
                       FileEvent(0, Loaded, false)];
            !NoOldWrites({1}, es) && !OldCopy({1}, es, 0)
  {
    hide OldCopy, OldFile;
    var e0, e1 := FileEvent(3, Loaded, false), FileEvent(1, Saved, false);
    var e2, e3 := FileEvent(3, Saved, false), FileEvent(0, Loaded, false);
    assert !OldFile({1}, []) by { NothingOld({1}, [], 0); }
    LastEvent({1}, [], e0, 3);
    LastEvent({1}, [] + [e0], e1, 3);
    LastEvent({1}, [] + [e0] + [e1], e2, 3);
    LastEvent({1}, [] + [e0] + [e1] + [e2], e3, 0);
    var es := [e0, e1, e2, e3];
    assert [] + [e0] + [e1] + [e2] + [e3] == es;
    assert es[1].effect.Saved? && es[1].who in {1};
    assert es[..1] == [e0];
    assert !Reloaded(es[..1], es[1].who);
  }

  // ---- What goes wrong otherwise ----

  /** A token file with one record, loaded by two processes, of which the second revokes it. */
  ghost predicate RevokedBehind(path: string, rec: TokenRecord, u: World) {
    && u.path == path && u.file == Records([rec.(revoked := true)])
    && u.stores.Keys == {1, 2}
    && u.stores[1].tokens == map[rec.id := rec] && u.stores[1].replay == map[]
    && u.stores[2].tokens == map[rec.id := rec.(revoked := true)]
  }

  function RevokeBehind(rec: TokenRecord): seq<Step> {
    [Step(1, Restart(true)), Step(2, Restart(true)), Step(2, DoRevoke(rec.id, Rewritten([rec.id], true)))]
  }

  lemma LoadOne(rec: TokenRecord)
    ensures Load([rec]) == map[rec.id := rec]
  {
    assert [rec][..0] == [];
  }

  lemma RevokingBehind(path: string, rec: TokenRecord)
    requires path != ""
    ensures Legal(World(path, Records([rec]), map[]), RevokeBehind(rec))
    ensures RevokedBehind(path, rec, After(World(path, Records([rec]), map[]), RevokeBehind(rec)))
    ensures Revokes(After(World(path, Records([rec]), map[]), RevokeBehind(rec)[..2]), RevokeBehind(rec)[2], rec)
  {
    var w, steps := World(path, Records([rec]), map[]), RevokeBehind(rec);
    LoadOne(rec);
    AfterSnoc(w, [], steps[0]);
    var w1 := Act(w, steps[0]);
    assert steps[..1] == [] + [steps[0]];
    AfterSnoc(w, steps[..1], steps[1]);
    var w2 := Act(w1, steps[1]);
    assert steps[..2] == steps[..1] + [steps[1]];
    assert w2.stores[2].tokens == map[rec.id := rec];
    assert Enumerates([rec.id], Marked(View(w2, 2).store, rec.id).tokens);
    assert Possible(w2, steps[2]);
    AfterSnoc(w, steps[..2], steps[2]);
    assert steps == steps[..2] + [steps[2]];
    var w3 := Act(w2, steps[2]);
    assert w3.file.list == [rec.(revoked := true)];
  }

  /** A server that loaded the file before the revocation goes on accepting the token until it expires, although
      the manual test procedure expects its next session to fail. */
  lemma RunningServerStillAccepts(path: string, rec: TokenRecord, nonce: Nonce, now: int, later: int)
    requires path != "" && !rec.revoked && now <= rec.expiresAt
    ensures Legal(World(path, Records([rec]), map[]), RevokeBehind(rec))
    ensures var u := After(World(path, Records([rec]), map[]), RevokeBehind(rec));
            var op := DoValidate(rec.token, nonce, now, later, Some(rec.id));
            Possible(u, Step(1, op)) && Accepts(View(u, 1), op)
  {
    RevokingBehind(path, rec);
  }

  function IssueBehind(rec: TokenRecord, other: TokenRecord): Step {
    Step(1, DoGenerate(other, Rewritten([rec.id, other.id], true)))
  }

  /** The process with the old copy issues another token and writes both records. */
  lemma IssuingBehind(path: string, rec: TokenRecord, other: TokenRecord, u: World)
    requires path != "" && RevokedBehind(path, rec, u) && !other.revoked && Fresh(DoGenerate(other, NotOpened), rec)
    ensures Possible(u, IssueBehind(rec, other))
    ensures FileTokens(Act(u, IssueBehind(rec, other))) == map[rec.id := rec, other.id := other]
    ensures Act(u, IssueBehind(rec, other)).path == path && Act(u, IssueBehind(rec, other)).file.Records?
  {
    hide Load;
    var st, tokens := IssueBehind(rec, other), map[rec.id := rec, other.id := other];
    assert Added(View(u, 1).store, other).tokens == tokens;
    assert Enumerates([rec.id, other.id], tokens);
    SavedTokens(u, st);
  }

  /** A process that loaded the file before the revocation and issues a token after it writes the unrevoked
      record back, and a server started then accepts the revoked token. */
  lemma LostUpdateRevives(path: string, rec: TokenRecord, other: TokenRecord, nonce: Nonce, now: int, later: int)
    requires path != "" && !rec.revoked && now <= rec.expiresAt
    requires !other.revoked && Fresh(DoGenerate(other, NotOpened), rec)
    ensures var w := World(path, Records([rec]), map[]);
            var steps := RevokeBehind(rec) + [IssueBehind(rec, other)] + [Step(0, Restart(true))];
            var op := DoValidate(rec.token, nonce, now, later, Some(rec.id));
            && Legal(w, steps) && Possible(After(w, steps), Step(0, op)) && Accepts(View(After(w, steps), 0), op)
  {
    hide Load, RevokeBehind, IssueBehind, RevokedBehind;
    var w, st := World(path, Records([rec]), map[]), IssueBehind(rec, other);
    RevokingBehind(path, rec);
    var u := After(w, RevokeBehind(rec));
    IssuingBehind(path, rec, other, u);
    AfterSnoc(w, RevokeBehind(rec), st);
    AfterSnoc(w, RevokeBehind(rec) + [st], Step(0, Restart(true)));
  }
}
