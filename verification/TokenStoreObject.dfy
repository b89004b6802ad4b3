/** The token store as the program holds it: maps updated under one lock, with loops over the token map.
    Each method is tied to the store operation whose whole runs are studied in TokenStore. */
module TokenStoreObject {
  import opened Bytes
  import opened TokenStore

  /** What the file system does with a write. */
  datatype Disk = Working | Unopenable | Failing | Unclosable

  class LiveStore {
    const path: string
    var tokens: map<string, TokenRecord>
    var replay: map<string, int>
    var file: File

    function State(): Store
      reads this
    {
      Store(path, tokens, replay, file)
    }

    constructor (path: string, tokens: map<string, TokenRecord>, file: File)
      ensures State() == Store(path, tokens, map[], file)
    {
      this.path := path;
      this.tokens := tokens;
      replay := map[];
      this.file := file;
    }

    /** The scan for a token; the map is iterated in no particular order. */
    method FindToken(token: string) returns (found: Option<string>)
      ensures FoundBy(tokens, token, found)
    {
      var left := tokens.Keys;
      while left != {}
        invariant left <= tokens.Keys
        invariant forall k :: k in tokens && k !in left ==> tokens[k].token != token
        decreases left
      {
        var k :| k in left;
        if tokens[k].token == token {
          return Some(k);
        }
        left := left - {k};
      }
      found := None;
    }

    method Validate(token: string, nonce: Nonce, now: int, later: int)
      returns (outcome: Outcome, ghost found: Option<string>)
      modifies this`replay
      ensures FoundBy(tokens, token, found)
      ensures State() == TokenStore.Validate(old(State()), token, nonce, now, later, found).0
      ensures outcome == TokenStore.Validate(old(State()), token, nonce, now, later, found).1
    {
      var hit := FindToken(token);
      found := hit;
      if hit.None? {
        return InvalidToken, found;
      }
      var rec := tokens[hit.value];
      if rec.revoked || now > rec.expiresAt {
        return ExpiredOrRevoked, found;
      }
      var key := ReplayKey(token, nonce);
      if key in replay && replay[key] > now {
        return ReplayedNonce, found;
      }
      replay := replay[key := now + Until(rec.expiresAt, later)];
      outcome := Accepted;
    }

    method ListRecords() returns (list: seq<TokenRecord>, ghost keys: seq<string>)
      ensures Enumerates(keys, tokens) && list == ListOf(tokens, keys)
    {
      list, keys := [], [];
      var left := tokens.Keys;
      while left != {}
        invariant left <= tokens.Keys
        invariant forall i :: 0 <= i < |keys| ==> keys[i] in tokens && keys[i] !in left
        invariant forall k :: k in tokens && k !in left ==> k in keys
        invariant forall i, j :: 0 <= i < j < |keys| ==> keys[i] != keys[j]
        invariant |list| == |keys| && forall i :: 0 <= i < |keys| ==> list[i] == tokens[keys[i]]
        decreases left
      {
        var k :| k in left;
        list, keys := list + [tokens[k]], keys + [k];
        left := left - {k};
      }
    }

    method FlushLocked(disk: Disk) returns (ok: bool, ghost flush: Flush)
      modifies this`file
      ensures LegalFlush(tokens, flush) && ok == FlushOk(old(State()), flush)
      ensures State() == Flushed(old(State()), flush)
    {
      flush := NotOpened;
      if path == "" {
        return true, flush;
      }
      var list, keys := ListRecords();
      if disk.Working? || disk.Unclosable? {
        flush := Rewritten(keys, disk.Working?);
        file := Records(list);
      } else if disk.Failing? {
        flush := CutShort;
        file := Corrupt;
      }
      ok := disk.Working?;
    }

    method Revoke(id: string, disk: Disk) returns (ok: bool, ghost flush: Flush)
      modifies this`tokens, this`file
      ensures Enabled(Up(old(State())), DoRevoke(id, flush))
      ensures Up(State()) == Next(Up(old(State())), DoRevoke(id, flush))
      ensures ok <==> id in old(tokens) && FlushOk(old(State()), flush)
    {
      flush := NotOpened;
      if id !in tokens {
        return false, flush;
      }
      tokens := tokens[id := tokens[id].(revoked := true)];
      ok, flush := FlushLocked(disk);
    }

    /** The random id and token and the expiry are inputs. */
    method Generate(id: string, token: string, expiresAt: int, disk: Disk)
      returns (rec: TokenRecord, ok: bool, ghost flush: Flush)
      modifies this`tokens, this`file
      ensures rec == TokenRecord(id, token, expiresAt, false)
      ensures Enabled(Up(old(State())), DoGenerate(rec, flush))
      ensures Up(State()) == Next(Up(old(State())), DoGenerate(rec, flush))
      ensures ok == FlushOk(old(State()), flush)
    {
      rec := TokenRecord(id, token, expiresAt, false);
      tokens := tokens[id := rec];
      ok, flush := FlushLocked(disk);
    }
  }

  method LoadList(list: seq<TokenRecord>) returns (tokens: map<string, TokenRecord>)
    ensures tokens == Load(list)
  {
    tokens := map[];
    for i := 0 to |list|
      invariant tokens == Load(list[..i])
    {
      assert list[..i + 1][..i] == list[..i];
      tokens := tokens[list[i].id := list[i]];
    }
    assert list[..|list|] == list;
  }

  /** NewStore: none when the file cannot be read or does not parse. */
  method NewStore(path: string, file: File, readable: bool) returns (store: LiveStore?)
    ensures store == null <==> Opened(path, file, readable).None?
    ensures store != null ==> fresh(store) && Opened(path, file, readable) == Some(store.State())
  {
    if path == "" {
      store := new LiveStore(path, map[], file);
    } else if !readable || file.Corrupt? {
      store := null;
    } else if file.Absent? {
      store := new LiveStore(path, map[], file);
    } else {
      var tokens := LoadList(file.list);
      store := new LiveStore(path, tokens, file);
    }
  }
}
