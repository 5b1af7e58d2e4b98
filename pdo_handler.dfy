/**
 * The database backend of src/Handler/PdoHandler.php. Each table is a map from
 * `owner_id` (its primary key) to the rest of the row. The functions below give
 * what each SQL statement selects or leaves behind; the PdoHandler class runs
 * the operations over a Database object whose tables it updates in place.
 */
module PdoStore {
  import opened Wrappers
  import opened Php
  import opened Collaborators
  import opened TokenModel
  import opened Handler

  /** One row: `access_token`, `expires` (nullable), `is_locked`, `error_count`. */
  datatype Row = Row(accessToken: Blob, expires: Option<int>, isLocked: bool, errorCount: int)

  /** A table keyed by `owner_id`. */
  type Table = map<string, Row>

  /** The table used when the options do not name one. */
  const DefaultTable := "auth-tokens"

  /**
   * `configure($options)`: an empty `table` option (missing, null, "", "0", ...)
   * selects the default; a non-empty string names the table; any other non-empty
   * value cannot be assigned to the string-typed property.
   */
  function TableName(options: PhpArray): (r: Result<string, Fault>)
    ensures IsEmpty(Lookup(options, "table")) ==> r == Success(DefaultTable)
    ensures r.Failure? <==> !IsEmpty(Lookup(options, "table")) && !Lookup(options, "table").Str?
    ensures r.Failure? ==> r.error == BadOption
    ensures r.Success? && r.value != DefaultTable ==> Lookup(options, "table") == Str(r.value)
    ensures Lookup(options, "table").Str? && !IsEmpty(Lookup(options, "table")) ==>
      r == Success(Lookup(options, "table").s)
  {
    var v := Lookup(options, "table");
    if IsEmpty(v) then Success(DefaultTable)
    else if v.Str? then Success(v.s)
    else Failure(BadOption)
  }

  /** `CREATE TABLE IF NOT EXISTS`. */
  function Created(tables: map<string, Table>, name: string): (r: map<string, Table>)
    ensures name in r
    ensures name in tables ==> r == tables
    ensures name !in tables ==> r[name] == map[] && r - {name} == tables
  {
    if name in tables then tables else tables[name := map[]]
  }

  /**
   * `loadToken($ownerId)`: the unlocked row of that owner, decrypted and decoded.
   * A null owner matches no row (`owner_id = NULL` is never true).
   */
  function Load(t: Table, id: OwnerId): (r: LoadResult)
    ensures id.None? ==> r == Success(None)
    ensures id.Some? && (id.value !in t || t[id.value].isLocked) ==> r == Success(None)
    ensures r != Success(None) ==> id.Some? && id.value in t && !t[id.value].isLocked
    ensures id.Some? && id.value in t && !t[id.value].isLocked ==> r == Unseal(t[id.value].accessToken)
  {
    if id.None? || id.value !in t || t[id.value].isLocked then Success(None)
    else Unseal(t[id.value].accessToken)
  }

  /**
   * `saveToken($token, $ownerId)`: nothing for a null owner; otherwise
   * `REPLACE INTO` a row holding the sealed JSON and the expiry, unlocked and
   * with its error count reset.
   */
  function Save(t: Table, e: Encrypter, c: Codec, f: TokenFields, id: OwnerId): (r: (Table, Result<bool, Fault>))
    ensures id.None? ==> r == (t, Success(true))
    ensures r.1.Failure? ==> r.0 == t
    ensures r.1.Success? ==> r.1.value
    ensures id.Some? ==> (r.1.Failure? <==> !SerializeToken(c, f).Encoded?)
    ensures id.Some? && r.1.Failure? ==>
      r.1.error == if ArrayForm(f).Failure? then InvalidToken(ArrayForm(f).error) else JsonEncodeFailed
    ensures id.Some? && r.1.Success? ==>
      && r.0.Keys == t.Keys + {id.value}
      && (forall x :: x in t && x != id.value ==> r.0[x] == t[x])
      && r.0[id.value].accessToken == Encrypt(e, SerializeToken(c, f).plain)
      && r.0[id.value].expires == f.expires
      && !r.0[id.value].isLocked
      && r.0[id.value].errorCount == 0
  {
    if id.None? then (t, Success(true))
    else
      match SerializeToken(c, f)
      case Raised(err) => (t, Failure(InvalidToken(err)))
      case EncodeError => (t, Failure(JsonEncodeFailed))
      case Encoded(p) => (t[id.value := Row(Encrypt(e, p), f.expires, false, 0)], Success(true))
  }

  /** `removeToken($ownerId)`: deletes the owner's row, if any; always reports success. */
  function Remove(t: Table, id: OwnerId): (r: (Table, bool))
    ensures r.1
    ensures id.None? ==> r.0 == t
    ensures id.Some? ==> id.value !in r.0 && r.0 == t - {id.value}
  {
    if id.None? then (t, true) else (t - {id.value}, true)
  }

  /**
   * `updateLock($ownerId, $isLocked)`: false for a null owner; otherwise sets
   * `is_locked` on the owner's row if there is one, and reports true either way.
   */
  function UpdateLock(t: Table, id: OwnerId, flag: bool): (r: (Table, bool))
    ensures r.1 <==> id.Some?
    ensures id.None? || id.value !in t ==> r.0 == t
    ensures id.Some? && id.value in t ==>
      && r.0.Keys == t.Keys
      && r.0[id.value] == t[id.value].(isLocked := flag)
      && (forall x :: x in t && x != id.value ==> r.0[x] == t[x])
  {
    if id.None? then (t, false)
    else if id.value in t then (t[id.value := t[id.value].(isLocked := flag)], true)
    else (t, true)
  }

  /** `isLocked($ownerId)`: the owner's `is_locked` column; false for a null or missing owner. */
  predicate LockedIn(t: Table, id: OwnerId)
  {
    id.Some? && id.value in t && t[id.value].isLocked
  }

  /** The owners `loadTokens($ownerIds)` selects: listed, present and unlocked. */
  function InMatches(t: Table, ids: seq<string>): set<string>
  {
    set x | x in t.Keys && x in ids && !t[x].isLocked
  }

  /**
   * The owners `loadTokensThatExpiresIn($seconds)` selects at time `now`:
   * unlocked rows with `expires <= now + seconds`. A NULL `expires` compares
   * as unknown, so such a row is never selected.
   */
  function ExpiringMatches(t: Table, now: int, seconds: int): set<string>
  {
    set x | x in t.Keys && !t[x].isLocked && t[x].expires.Some? && t[x].expires.value <= now + seconds
  }

  /** `dataToToken` applied to each fetched row, in fetch order. */
  function FetchOutcomes(t: Table, keys: seq<string>): seq<LoadResult>
    requires forall k :: k in keys ==> k in t
  {
    seq(|keys|, i requires 0 <= i < |keys| => Unseal(t[keys[i]].accessToken))
  }

  /** The tables reachable through one PDO connection. */
  class Database {
    var tables: map<string, Table>

    constructor (tables: map<string, Table>)
      ensures this.tables == tables
    {
      this.tables := tables;
    }
  }

  /** A PdoHandler bound to a connection, an encrypter, the JSON codec and a table name. */
  class PdoHandler {
    const db: Database
    const encrypter: Encrypter
    const codec: Codec
    const table: string

    /** The handler's table exists. */
    ghost predicate Valid()
      reads this, db
    {
      table in db.tables
    }

    /** The rows of the handler's table. */
    function Rows(): Table
      reads this, db
      requires Valid()
    {
      db.tables[table]
    }

    constructor (db: Database, encrypter: Encrypter, codec: Codec, table: string)
      ensures this.db == db && this.encrypter == encrypter && this.codec == codec && this.table == table
    {
      this.db := db;
      this.encrypter := encrypter;
      this.codec := codec;
      this.table := table;
    }

    /**
     * `new PdoHandler($pdo, $encrypter, $options)`: configure the table name,
     * then make sure the table exists.
     */
    static method Open(db: Database, encrypter: Encrypter, codec: Codec, options: PhpArray) returns (r: Result<PdoHandler, Fault>)
      modifies db
      ensures r.Failure? <==> TableName(options).Failure?
      ensures r.Failure? ==> r.error == BadOption && db.tables == old(db.tables)
      ensures r.Success? ==>
        && fresh(r.value) && r.value.db == db && r.value.table == TableName(options).value
        && r.value.Valid()
        && db.tables == Created(old(db.tables), r.value.table)
    {
      var name := TableName(options);
      if name.Failure? {
        return Failure(name.error);
      }
      var h := new PdoHandler(db, encrypter, codec, name.value);
      h.CheckDatabase();
      return Success(h);
    }

    /** `checkDatabase()`. */
    method CheckDatabase()
      modifies db
      ensures Valid()
      ensures db.tables == Created(old(db.tables), table)
    {
      if table !in db.tables {
        db.tables := db.tables[table := map[]];
      }
    }

    /** `loadToken($ownerId)`. */
    method LoadToken(id: OwnerId) returns (r: LoadResult)
      requires Valid()
      ensures r == Load(Rows(), id)
    {
      var rows := db.tables[table];
      if id.None? || id.value !in rows || rows[id.value].isLocked {
        return Success(None);
      }
      r := DataToToken(rows[id.value].accessToken);
    }

    /** Decode the fetched rows in turn, skipping null results and stopping at the first fault. */
    method DecodeRows(rows: Table, keys: seq<string>) returns (r: LoadManyResult)
      requires forall k :: k in keys ==> k in rows
      ensures r == Gather(FetchOutcomes(rows, keys))
    {
      ghost var outs := FetchOutcomes(rows, keys);
      var tokens: seq<TokenFields> := [];
      for i := 0 to |keys|
        invariant Gather(outs[..i]) == Success(tokens)
      {
        assert outs[..i + 1] == outs[..i] + [outs[i]];
        GatherSnoc(outs[..i], outs[i]);
        assert [outs[i]][..0] == [];
        assert keys[i] in keys;
        var t := DataToToken(rows[keys[i]].accessToken);
        if t.Failure? {
          GatherStopsAtFault(outs, i);
          return Failure(t.error);
        }
        if t.value.Some? {
          tokens := tokens + [t.value.value];
        }
      }
      assert outs[..|keys|] == outs;
      r := Success(tokens);
    }

    /**
     * `loadTokens($ownerIds)`: no query for an empty list; otherwise the rows the
     * `IN (...)` query fetches, in the order `keys` the database returns them.
     */
    method LoadTokens(ids: seq<string>) returns (r: LoadManyResult, ghost keys: seq<string>)
      requires Valid()
      ensures |ids| == 0 ==> r == Success([])
      ensures Enumerates(keys, InMatches(Rows(), ids))
      ensures r == Gather(FetchOutcomes(Rows(), keys))
      ensures r.Failure? <==> exists x :: x in InMatches(Rows(), ids) && Unseal(Rows()[x].accessToken).Failure?
      ensures r.Success? ==> forall f :: f in r.value ==>
        exists x :: x in InMatches(Rows(), ids) && Unseal(Rows()[x].accessToken) == Success(Some(f))
      ensures r.Success? ==> forall x ::
        (x in InMatches(Rows(), ids) && Unseal(Rows()[x].accessToken).Success? && Unseal(Rows()[x].accessToken).value.Some?) ==>
          Unseal(Rows()[x].accessToken).value.value in r.value
      ensures r.Success? ==> |r.value| <= |InMatches(Rows(), ids)|
    {
      var rows := db.tables[table];
      if |ids| == 0 {
        keys := [];
        assert InMatches(rows, ids) == {};
        return Success([]), keys;
      }
      var fetched := Enumerate(InMatches(rows, ids));
      keys := fetched;
      r := DecodeRows(rows, fetched);
      FetchFaultsIff(rows, InMatches(rows, ids), fetched);
      if r.Success? {
        FetchSoundAndComplete(rows, InMatches(rows, ids), fetched);
      }
    }

    /**
     * `loadTokensThatExpiresIn($seconds)` at time `now`: the tokens of the unlocked
     * rows whose expiry is set and within the window, in the order `keys` the
     * database returns them.
     */
    method LoadTokensThatExpiresIn(now: int, seconds: int) returns (r: LoadManyResult, ghost keys: seq<string>)
      requires Valid()
      ensures Enumerates(keys, ExpiringMatches(Rows(), now, seconds))
      ensures r == Gather(FetchOutcomes(Rows(), keys))
      ensures r.Failure? <==>
        exists x :: x in ExpiringMatches(Rows(), now, seconds) && Unseal(Rows()[x].accessToken).Failure?
      ensures r.Success? ==> forall f :: f in r.value ==>
        exists x :: x in ExpiringMatches(Rows(), now, seconds) && Unseal(Rows()[x].accessToken) == Success(Some(f))
      ensures r.Success? ==> forall x ::
        (x in ExpiringMatches(Rows(), now, seconds) && Unseal(Rows()[x].accessToken).Success? && Unseal(Rows()[x].accessToken).value.Some?) ==>
          Unseal(Rows()[x].accessToken).value.value in r.value
      ensures r.Success? ==> |r.value| <= |ExpiringMatches(Rows(), now, seconds)|
    {
      var rows := db.tables[table];
      var fetched := Enumerate(ExpiringMatches(rows, now, seconds));
      keys := fetched;
      r := DecodeRows(rows, fetched);
      FetchFaultsIff(rows, ExpiringMatches(rows, now, seconds), fetched);
      if r.Success? {
        FetchSoundAndComplete(rows, ExpiringMatches(rows, now, seconds), fetched);
      }
    }

    /** `isLocked($ownerId)`. */
    method IsLocked(id: OwnerId) returns (b: bool)
      requires Valid()
      ensures b == LockedIn(Rows(), id)
    {
      if id.None? {
        return false;
      }
      var rows := db.tables[table];
      if id.value !in rows {
        return false;
      }
      b := rows[id.value].isLocked;
    }

    /** `saveToken($token, $ownerId)`. */
    method SaveToken(t: Token, id: OwnerId) returns (r: Result<bool, Fault>)
      requires Valid()
      modifies db
      ensures Valid()
      ensures db.tables == old(db.tables)[table := Save(old(Rows()), encrypter, codec, t.Fields(), id).0]
      ensures r == Save(old(Rows()), encrypter, codec, t.Fields(), id).1
    {
      if id.None? {
        return Success(true);
      }
      var data := t.JsonSerialize();
      if data.Failure? {
        return Failure(InvalidToken(data.error));
      }
      var json := JsonEncode(codec, Arr(data.value));
      if json.None? {
        return Failure(JsonEncodeFailed);
      }
      var sealed := Encrypt(encrypter, json.value);
      var expires := t.GetExpires();
      assert expires.Success?;
      var rows := db.tables[table];
      db.tables := db.tables[table := rows[id.value := Row(sealed, Some(expires.value), false, 0)]];
      return Success(true);
    }

    /** `removeToken($ownerId)`. */
    method RemoveToken(id: OwnerId) returns (ok: bool)
      requires Valid()
      modifies db
      ensures Valid()
      ensures db.tables == old(db.tables)[table := Remove(old(Rows()), id).0]
      ensures ok == Remove(old(Rows()), id).1
    {
      if id.None? {
        return true;
      }
      db.tables := db.tables[table := db.tables[table] - {id.value}];
      return true;
    }

    /** `updateLock($ownerId, $isLocked)`. */
    method UpdateLockFlag(id: OwnerId, flag: bool) returns (ok: bool)
      requires Valid()
      modifies db
      ensures Valid()
      ensures db.tables == old(db.tables)[table := UpdateLock(old(Rows()), id, flag).0]
      ensures ok == UpdateLock(old(Rows()), id, flag).1
    {
      if id.None? {
        return false;
      }
      var rows := db.tables[table];
      if id.value in rows {
        db.tables := db.tables[table := rows[id.value := rows[id.value].(isLocked := flag)]];
      } else {
        assert db.tables[table := rows] == db.tables;
      }
      return true;
    }

    /** `lockToken($ownerId)`. */
    method LockToken(id: OwnerId) returns (ok: bool)
      requires Valid()
      modifies db
      ensures Valid()
      ensures db.tables == old(db.tables)[table := UpdateLock(old(Rows()), id, true).0]
      ensures ok == UpdateLock(old(Rows()), id, true).1
    {
      ok := UpdateLockFlag(id, true);
    }

    /** `unlockToken($ownerId)`. */
    method UnlockToken(id: OwnerId) returns (ok: bool)
      requires Valid()
      modifies db
      ensures Valid()
      ensures db.tables == old(db.tables)[table := UpdateLock(old(Rows()), id, false).0]
      ensures ok == UpdateLock(old(Rows()), id, false).1
    {
      ok := UpdateLockFlag(id, false);
    }
  }

  /** The table option: absent or empty-by-PHP's-rule ("0" included) selects "auth-tokens". */
  lemma TableNameDefaults()
    ensures TableName(map[]) == Success("auth-tokens")
    ensures TableName(map["table" := Str("")]) == Success("auth-tokens")
    ensures TableName(map["table" := Str("0")]) == Success("auth-tokens")
    ensures TableName(map["table" := Str("tokens")]) == Success("tokens")
    ensures TableName(map["table" := Int(7)]) == Failure(BadOption)
  {
  }

  /** A null owner: save and remove succeed without touching the table, lock and unlock fail, load gives null. */
  lemma NullOwnerTouchesNothing(t: Table, e: Encrypter, c: Codec, f: TokenFields, flag: bool)
    ensures Save(t, e, c, f, None) == (t, Success(true))
    ensures Remove(t, None) == (t, true)
    ensures UpdateLock(t, None, flag) == (t, false)
    ensures !LockedIn(t, None)
    ensures Load(t, None) == Success(None)
  {
  }

  /** Saving a storable token and loading it back gives the token; the saved row is unlocked. */
  lemma {:induction false} SaveThenLoad(t: Table, e: Encrypter, c: Codec, f: TokenFields, x: string)
    requires Storable(e, c, f)
    ensures Save(t, e, c, f, Some(x)).1 == Success(true)
    ensures !LockedIn(Save(t, e, c, f, Some(x)).0, Some(x))
    ensures Load(Save(t, e, c, f, Some(x)).0, Some(x)) == Success(Some(f))
  {
    SealThenUnseal(e, c, f);
  }

  /** Saving over a locked row unlocks it and resets its error count. */
  lemma {:induction false} SaveResetsLock(t: Table, e: Encrypter, c: Codec, f: TokenFields, x: string)
    requires LockedIn(t, Some(x))
    requires SerializeToken(c, f).Encoded?
    ensures !LockedIn(Save(t, e, c, f, Some(x)).0, Some(x))
    ensures Save(t, e, c, f, Some(x)).0[x].errorCount == 0
  {
  }

  /** Locking and unlocking a missing owner report success and change nothing. */
  lemma LockMissingOwner(t: Table, x: string, flag: bool)
    requires x !in t
    ensures UpdateLock(t, Some(x), flag) == (t, true)
    ensures !LockedIn(UpdateLock(t, Some(x), flag).0, Some(x))
  {
  }

  /** save, lock, load, unlock, load: null while locked, the saved token again once unlocked. */
  lemma {:induction false} LockGatesLoad(t: Table, e: Encrypter, c: Codec, f: TokenFields, x: string)
    requires Storable(e, c, f)
    ensures var saved := Save(t, e, c, f, Some(x)).0;
      && UpdateLock(saved, Some(x), true).1
      && LockedIn(UpdateLock(saved, Some(x), true).0, Some(x))
      && Load(UpdateLock(saved, Some(x), true).0, Some(x)) == Success(None)
      && UpdateLock(UpdateLock(saved, Some(x), true).0, Some(x), false).1
      && !LockedIn(UpdateLock(UpdateLock(saved, Some(x), true).0, Some(x), false).0, Some(x))
      && Load(UpdateLock(UpdateLock(saved, Some(x), true).0, Some(x), false).0, Some(x)) == Success(Some(f))
  {
    SaveThenLoad(t, e, c, f, x);
    var saved := Save(t, e, c, f, Some(x)).0;
    var unlocked := UpdateLock(UpdateLock(saved, Some(x), true).0, Some(x), false).0;
    assert unlocked[x] == saved[x];
  }

  /** Removing is idempotent, and a removed owner loads as null. */
  lemma RemoveIdempotent(t: Table, id: OwnerId)
    ensures Remove(Remove(t, id).0, id) == Remove(t, id)
    ensures Load(Remove(t, id).0, id) == Success(None)
  {
    if id.Some? {
      assert Remove(t, id).0 - {id.value} == Remove(t, id).0;
    }
  }

  /** The owners loadTokens selects depend only on which ids are listed, not on their order or repetition. */
  lemma InMatchesIgnoresOrder(t: Table, a: seq<string>, b: seq<string>)
    requires forall x :: x in a <==> x in b
    ensures InMatches(t, a) == InMatches(t, b)
  {
  }

  /** A locked owner is left out of loadTokens just as loadToken gives null for it. */
  lemma LockedOwnerNotSelected(t: Table, ids: seq<string>, x: string, now: int, seconds: int)
    requires LockedIn(t, Some(x))
    ensures x !in InMatches(t, ids) && x !in ExpiringMatches(t, now, seconds)
    ensures Load(t, Some(x)) == Success(None)
  {
  }

  /**
   * A batch fetch over an enumeration `keys` of the selected owners `s` that does
   * not fault returns exactly the tokens of the selected rows that decode to one,
   * and no more tokens than rows.
   */
  lemma {:induction false} FetchSoundAndComplete(t: Table, s: set<string>, keys: seq<string>)
    requires Enumerates(keys, s)
    requires forall k :: k in s ==> k in t
    requires Gather(FetchOutcomes(t, keys)).Success?
    ensures forall f :: f in Gather(FetchOutcomes(t, keys)).value ==>
      exists k :: k in s && Unseal(t[k].accessToken) == Success(Some(f))
    ensures forall k :: k in s && Unseal(t[k].accessToken).Success? && Unseal(t[k].accessToken).value.Some? ==>
      Unseal(t[k].accessToken).value.value in Gather(FetchOutcomes(t, keys)).value
    ensures |Gather(FetchOutcomes(t, keys)).value| <= |s|
  {
    var outs := FetchOutcomes(t, keys);
    GatherSound(outs);
    GatherComplete(outs);
    forall f | f in Gather(outs).value
      ensures exists k :: k in s && Unseal(t[k].accessToken) == Success(Some(f))
    {
      var i :| 0 <= i < |outs| && outs[i] == Success(Some(f));
      assert keys[i] in keys;
    }
    forall k | k in s && Unseal(t[k].accessToken).Success? && Unseal(t[k].accessToken).value.Some?
      ensures Unseal(t[k].accessToken).value.value in Gather(outs).value
    {
      var i :| 0 <= i < |keys| && keys[i] == k;
      assert outs[i] == Unseal(t[k].accessToken);
    }
  }

  /** A batch fetch faults exactly when one selected row's payload does not decrypt or does not build a token. */
  lemma {:induction false} FetchFaultsIff(t: Table, s: set<string>, keys: seq<string>)
    requires Enumerates(keys, s)
    requires forall k :: k in s ==> k in t
    ensures Gather(FetchOutcomes(t, keys)).Failure? <==>
      exists k :: k in s && Unseal(t[k].accessToken).Failure?
  {
    var outs := FetchOutcomes(t, keys);
    GatherFaultsIff(outs);
    if exists k :: k in s && Unseal(t[k].accessToken).Failure? {
      var k :| k in s && Unseal(t[k].accessToken).Failure?;
      var i :| 0 <= i < |keys| && keys[i] == k;
      assert outs[i].Failure?;
    }
  }
}
