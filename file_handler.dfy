/**
 * src/Handler/FileHandler.php: one encrypted file per owner in a directory, the
 * literal name `token` for a null owner, and an empty `<name>.locked` marker
 * file whose mere existence locks the owner.
 *
 * The directory is a map from file name to entry. The functions below give the
 * effect of each operation on that map; the FileHandler class performs the
 * operations on a Directory object and is proved to have exactly those effects.
 */
module FileStore {
  import opened Wrappers
  import opened Php
  import opened Collaborators
  import opened TokenModel
  import opened Handler

  /** A directory entry: a regular file with its bytes, or a sub-directory. */
  datatype Entry = File(content: Blob) | Dir

  /** The storage directory: file name to entry. */
  type Listing = map<string, Entry>

  const Separator := "/"
  const DefaultSlot := "token"
  const LockSuffix := ".locked"

  /** The data file name of an owner: `$ownerId ?? 'token'`. */
  function DataName(id: OwnerId): string
  {
    if id.Some? then id.value else DefaultSlot
  }

  /** The lock marker name of an owner: `token.locked` for null, `<id>.locked` otherwise. */
  function LockName(id: OwnerId): string
  {
    if id.Some? then id.value + LockSuffix else DefaultSlot + LockSuffix
  }

  /**
   * The names that do not denote an entry of the directory: `<path>/` and
   * `<path>/.` are the storage directory itself, `<path>/..` its parent.
   */
  predicate SelfOrParent(name: string)
  {
    name == "" || name == "." || name == ".."
  }

  /** What a name inside the storage directory resolves to. */
  function EntryAt(d: Listing, name: string): Option<Entry>
  {
    if SelfOrParent(name) then Some(Dir)
    else if name in d then Some(d[name])
    else None
  }

  /** `is_dir` on a name inside the storage directory. */
  predicate IsDir(d: Listing, name: string)
  {
    EntryAt(d, name) == Some(Dir)
  }

  /** A regular file. */
  predicate IsFileAt(d: Listing, name: string)
  {
    EntryAt(d, name).Some? && EntryAt(d, name).value.File?
  }

  /** `isLocked`: the marker exists (file_exists holds for a directory too). */
  predicate Locked(d: Listing, id: OwnerId)
  {
    LockName(id) in d
  }

  /** What `file_get_contents` returns for an entry: reading a directory yields "". */
  function Read(e: Entry): Blob
  {
    match e
    case File(b) => b
    case Dir => Garbage("")
  }

  /** The effect of `loadToken($ownerId)`. */
  function Load(d: Listing, id: OwnerId): (r: LoadResult)
    ensures Locked(d, id) ==> r == Success(None)
    ensures EntryAt(d, DataName(id)).None? || IsDir(d, DataName(id)) ==> r == Success(None)
    ensures r != Success(None) ==> !Locked(d, id) && IsFileAt(d, DataName(id))
    ensures !Locked(d, id) && IsFileAt(d, DataName(id)) ==>
      r == var b := d[DataName(id)].content; if IsEmptyText(b) then Success(None) else Unseal(b)
  {
    if Locked(d, id) then Success(None)
    else match EntryAt(d, DataName(id))
      case None => Success(None)
      case Some(entry) =>
        var content := Read(entry);
        if IsEmptyText(content) then Success(None) else Unseal(content)
  }

  /** The effect of `saveToken($token, $ownerId)`: the new directory and the return value or fault. */
  function Save(d: Listing, e: Encrypter, c: Codec, f: TokenFields, id: OwnerId): (r: (Listing, Result<bool, Fault>))
    ensures r.1.Failure? <==> ArrayForm(f).Failure?
    ensures r.1.Failure? ==> r.1.error == InvalidToken(ArrayForm(f).error)
    ensures r.1 == Success(false) <==>
      || SerializeToken(c, f).EncodeError?
      || (SerializeToken(c, f).Encoded?
          && (Encrypt(e, SerializeToken(c, f).plain) == Garbage("") || IsDir(d, DataName(id))))
    ensures r.1 != Success(true) ==> r.0 == d
    ensures r.1 == Success(true) ==>
      SerializeToken(c, f).Encoded? && r.0 == d[DataName(id) := File(Encrypt(e, SerializeToken(c, f).plain))]
    ensures forall n :: n != DataName(id) ==> (n in r.0 <==> n in d)
    ensures forall n :: n in d && n != DataName(id) ==> r.0[n] == d[n]
  {
    match SerializeToken(c, f)
    case Raised(err) => (d, Failure(InvalidToken(err)))
    case EncodeError => (d, Success(false))
    case Encoded(p) =>
      var b := Encrypt(e, p);
      if b == Garbage("") then (d, Success(false))
      else if IsDir(d, DataName(id)) then (d, Success(false))
      else (d[DataName(id) := File(b)], Success(true))
  }

  /** The effect of `removeToken($ownerId)`. */
  function Remove(d: Listing, id: OwnerId): (r: (Listing, bool))
    ensures r.1 <==> !IsDir(d, DataName(id))
    ensures r.1 ==> r.0 == d - {DataName(id)}
    ensures !r.1 ==> r.0 == d
  {
    match EntryAt(d, DataName(id))
    case None => (d, true)
    case Some(Dir) => (d, false)
    case Some(File(_)) => (d - {DataName(id)}, true)
  }

  /** The effect of `lockToken($ownerId)`: write an empty marker. */
  function Lock(d: Listing, id: OwnerId): (r: (Listing, bool))
    ensures Locked(r.0, id)
    ensures r.1 <==> !IsDir(d, LockName(id))
    ensures r.1 ==> r.0 == d[LockName(id) := File(Garbage(""))]
    ensures !r.1 ==> r.0 == d
  {
    if IsDir(d, LockName(id)) then (d, false)
    else (d[LockName(id) := File(Garbage(""))], true)
  }

  /** The effect of `unlockToken($ownerId)`: delete the marker if there is one. */
  function Unlock(d: Listing, id: OwnerId): (r: (Listing, bool))
    ensures r.1 <==> !IsDir(d, LockName(id))
    ensures r.1 ==> r.0 == d - {LockName(id)} && !Locked(r.0, id)
    ensures !r.1 ==> r.0 == d && Locked(r.0, id)
  {
    match EntryAt(d, LockName(id))
    case None => (d, true)
    case Some(Dir) => (d, false)
    case Some(File(_)) => (d - {LockName(id)}, true)
  }

  /** The per-owner results `loadTokens($ownerIds)` collects. */
  function LoadOutcomes(d: Listing, ids: seq<string>): seq<LoadResult>
  {
    seq(|ids|, i requires 0 <= i < |ids| => Load(d, Some(ids[i])))
  }

  /** `glob` over the directory does not match names that start with a dot. */
  predicate Listed(name: string)
  {
    name != "" && name[0] != '.'
  }

  /** The names the scan enumerates. */
  function Visible(d: Listing): set<string>
  {
    set n | n in d && Listed(n)
  }

  /** The position of the last '.' in a name, if any. */
  function LastDot(n: string): (k: Option<nat>)
    ensures k.Some? ==> k.value < |n| && n[k.value] == '.' && '.' !in n[k.value + 1..]
    ensures k.None? ==> '.' !in n
    decreases |n|
  {
    if n == [] then None
    else if n[|n| - 1] == '.' then Some(|n| - 1)
    else
      var k := LastDot(n[..|n| - 1]);
      assert forall i :: 0 <= i < |n| - 1 ==> n[i] == n[..|n| - 1][i];
      if k.Some? then
        assert n[k.value + 1..] == n[..|n| - 1][k.value + 1..] + [n[|n| - 1]];
        k
      else
        k
  }

  /** `pathinfo($file, PATHINFO_FILENAME)`: the name without its last extension. */
  function StripExtension(n: string): (r: string)
    ensures '.' !in n ==> r == n
    ensures '.' in n ==> |r| < |n| && n[|r|] == '.' && '.' !in n[|r| + 1..]
    ensures r == n[..|r|]
  {
    match LastDot(n)
    case None => n
    case Some(k) => n[..k]
  }

  /**
   * One iteration of `loadTokensThatExpiresIn($seconds)` at time `now`: skip
   * directories, derive the owner from the file name, skip locked owners, load,
   * and keep the token when it expires within the window. Reading the expiry of
   * a token built from an empty array raises.
   */
  function ScanHit(d: Listing, name: string, now: int, seconds: int): LoadResult
  {
    if !IsFileAt(d, name) then Success(None)
    else
      var owner := Some(StripExtension(name));
      if Locked(d, owner) then Success(None)
      else match Load(d, owner)
        case Failure(e) => Failure(e)
        case Success(None) => Success(None)
        case Success(Some(t)) =>
          if t.expires.None? then Failure(InvalidToken(Uninitialized(ExpiresProp)))
          else if t.expires.value <= now + seconds then Success(Some(t))
          else Success(None)
  }

  /** The per-file results the scan collects, in the order the files are listed. */
  function ScanOutcomes(d: Listing, names: seq<string>, now: int, seconds: int): seq<LoadResult>
  {
    seq(|names|, i requires 0 <= i < |names| => ScanHit(d, names[i], now, seconds))
  }

  /**
   * File `n` qualifies for the scan with token `t`: a regular file whose name
   * without extension is an unlocked owner whose token `t` expires within the window.
   */
  predicate Qualifies(d: Listing, n: string, now: int, seconds: int, t: TokenFields)
  {
    && IsFileAt(d, n)
    && !Locked(d, Some(StripExtension(n)))
    && Load(d, Some(StripExtension(n))) == Success(Some(t))
    && t.expires.Some? && t.expires.value <= now + seconds
  }

  /** The storage directory, shared by every handler opened on it. */
  class Directory {
    const writable: bool
    var entries: Listing

    constructor (writable: bool, entries: Listing)
      ensures this.writable == writable && this.entries == entries
    {
      this.writable := writable;
      this.entries := entries;
    }
  }

  /** A FileHandler bound to a directory, an encrypter and the JSON codec. */
  class FileHandler {
    const path: string
    const dir: Directory
    const encrypter: Encrypter
    const codec: Codec

    /** The constructor, past its writability check. */
    constructor (path: string, dir: Directory, encrypter: Encrypter, codec: Codec)
      requires dir.writable
      ensures this.path == path && this.dir == dir && this.encrypter == encrypter && this.codec == codec
    {
      this.path := path;
      this.dir := dir;
      this.encrypter := encrypter;
      this.codec := codec;
    }

    /** `new FileHandler($path, $encrypter)`: raises unless the directory is writable. */
    static method Open(path: string, dir: Directory, encrypter: Encrypter, codec: Codec) returns (r: Result<FileHandler, Fault>)
      ensures r.Failure? <==> !dir.writable
      ensures r.Failure? ==> r.error == NotWritable
      ensures r.Success? ==> fresh(r.value) && r.value.dir == dir && r.value.path == path
    {
      if !dir.writable {
        return Failure(NotWritable);
      }
      var h := new FileHandler(path, dir, encrypter, codec);
      return Success(h);
    }

    /** `filePath($ownerId)`. */
    function FilePath(id: OwnerId): (p: string)
      ensures id.None? ==> p == path + "/token"
      ensures id.Some? ==> p == path + "/" + id.value
    {
      path + Separator + DataName(id)
    }

    /** `getLockPath($ownerId)`. */
    function LockPath(id: OwnerId): (p: string)
      ensures id.None? ==> p == path + "/token.locked"
      ensures id.Some? ==> p == path + "/" + id.value + ".locked"
    {
      path + Separator + LockName(id)
    }

    /** `isLocked($ownerId)`: whether the marker file exists. */
    method IsLocked(id: OwnerId) returns (b: bool)
      ensures b == Locked(dir.entries, id)
    {
      b := LockName(id) in dir.entries;
    }

    /** `loadToken($ownerId)`. */
    method LoadToken(id: OwnerId) returns (r: LoadResult)
      ensures r == Load(dir.entries, id)
    {
      var locked := IsLocked(id);
      if locked {
        return Success(None);
      }
      var entry := EntryAt(dir.entries, DataName(id));
      if entry.None? {
        return Success(None);
      }
      var content := Read(entry.value);
      if IsEmptyText(content) {
        return Success(None);
      }
      r := DataToToken(content);
    }

    /** `loadTokens($ownerIds)`: load each owner in turn, skipping the locked and the null results. */
    method LoadTokens(ids: seq<string>) returns (r: LoadManyResult)
      ensures r == Gather(LoadOutcomes(dir.entries, ids))
    {
      ghost var outs := LoadOutcomes(dir.entries, ids);
      var tokens: seq<TokenFields> := [];
      for i := 0 to |ids|
        invariant Gather(outs[..i]) == Success(tokens)
      {
        assert outs[..i + 1] == outs[..i] + [outs[i]];
        GatherSnoc(outs[..i], outs[i]);
        assert [outs[i]][..0] == [];
        var id := Some(ids[i]);
        var locked := IsLocked(id);
        if locked {
          continue;
        }
        var t := LoadToken(id);
        if t.Failure? {
          GatherStopsAtFault(outs, i);
          return Failure(t.error);
        }
        if t.value.Some? {
          tokens := tokens + [t.value.value];
        }
      }
      assert outs[..|ids|] == outs;
      r := Success(tokens);
    }

    /** `glob` over the directory: every listed name once, in some order. */
    method Glob() returns (names: seq<string>)
      ensures Enumerates(names, Visible(dir.entries))
    {
      names := Enumerate(Visible(dir.entries));
    }

    /** The loop of `loadTokensThatExpiresIn($seconds)` at time `now`, over the listed files `files`. */
    method ScanFiles(files: seq<string>, now: int, seconds: int) returns (r: LoadManyResult)
      ensures r == Gather(ScanOutcomes(dir.entries, files, now, seconds))
    {
      ghost var outs := ScanOutcomes(dir.entries, files, now, seconds);
      var tokens: seq<TokenFields> := [];
      for i := 0 to |files|
        invariant Gather(outs[..i]) == Success(tokens)
      {
        assert outs[..i + 1] == outs[..i] + [outs[i]];
        GatherSnoc(outs[..i], outs[i]);
        assert [outs[i]][..0] == [];
        var file := files[i];
        if !IsFileAt(dir.entries, file) {
          continue;
        }
        var owner := Some(StripExtension(file));
        var locked := IsLocked(owner);
        if locked {
          continue;
        }
        var t := LoadToken(owner);
        if t.Failure? {
          GatherStopsAtFault(outs, i);
          return Failure(t.error);
        }
        if t.value.None? {
          continue;
        }
        var token := t.value.value;
        if token.expires.None? {
          GatherStopsAtFault(outs, i);
          return Failure(InvalidToken(Uninitialized(ExpiresProp)));
        }
        if token.expires.value <= now + seconds {
          tokens := tokens + [token];
        }
      }
      assert outs[..|files|] == outs;
      r := Success(tokens);
    }

    /**
     * `loadTokensThatExpiresIn($seconds)` at time `now`: the tokens of the
     * qualifying files, in the order `listing` of the directory scan; the first
     * file whose step raises aborts the scan.
     */
    method LoadTokensThatExpiresIn(now: int, seconds: int) returns (r: LoadManyResult, ghost listing: seq<string>)
      ensures Enumerates(listing, Visible(dir.entries))
      ensures r == Gather(ScanOutcomes(dir.entries, listing, now, seconds))
      ensures r.Failure? <==> exists n :: n in Visible(dir.entries) && ScanHit(dir.entries, n, now, seconds).Failure?
      ensures r.Success? ==> forall t :: t in r.value ==>
        exists n :: n in Visible(dir.entries) && Qualifies(dir.entries, n, now, seconds, t)
      ensures r.Success? ==> forall n, t :: n in Visible(dir.entries) && Qualifies(dir.entries, n, now, seconds, t) ==>
        t in r.value
      ensures r.Success? ==> |r.value| <= |Visible(dir.entries)|
    {
      var files := Glob();
      listing := files;
      r := ScanFiles(files, now, seconds);
      ScanFaultsIff(dir.entries, files, now, seconds);
      if r.Success? {
        ScanSound(dir.entries, files, now, seconds);
        ScanComplete(dir.entries, files, now, seconds);
      }
    }

    /** `saveToken($token, $ownerId)`. */
    method SaveToken(t: Token, id: OwnerId) returns (r: Result<bool, Fault>)
      modifies dir
      ensures (dir.entries, r) == Save(old(dir.entries), encrypter, codec, t.Fields(), id)
    {
      var data := t.JsonSerialize();
      if data.Failure? {
        return Failure(InvalidToken(data.error));
      }
      var json := JsonEncode(codec, Arr(data.value));
      if json.None? {
        return Success(false);
      }
      var content := Encrypt(encrypter, json.value);
      if content == Garbage("") {
        return Success(false);
      }
      var name := DataName(id);
      if IsDir(dir.entries, name) {
        return Success(false);
      }
      dir.entries := dir.entries[name := File(content)];
      return Success(true);
    }

    /** `removeToken($ownerId)`. */
    method RemoveToken(id: OwnerId) returns (ok: bool)
      modifies dir
      ensures (dir.entries, ok) == Remove(old(dir.entries), id)
    {
      var name := DataName(id);
      var entry := EntryAt(dir.entries, name);
      if entry.None? {
        return true;
      }
      if entry.value.Dir? {
        return false;
      }
      dir.entries := dir.entries - {name};
      return true;
    }

    /** `lockToken($ownerId)`. */
    method LockToken(id: OwnerId) returns (ok: bool)
      modifies dir
      ensures (dir.entries, ok) == Lock(old(dir.entries), id)
    {
      var name := LockName(id);
      if IsDir(dir.entries, name) {
        return false;
      }
      dir.entries := dir.entries[name := File(Garbage(""))];
      return true;
    }

    /** `unlockToken($ownerId)`. */
    method UnlockToken(id: OwnerId) returns (ok: bool)
      modifies dir
      ensures (dir.entries, ok) == Unlock(old(dir.entries), id)
    {
      var name := LockName(id);
      var entry := EntryAt(dir.entries, name);
      if entry.None? {
        return true;
      }
      if entry.value.Dir? {
        return false;
      }
      dir.entries := dir.entries - {name};
      return true;
    }
  }

  /** A marker name is its owner's data file name plus ".locked", so the two never coincide. */
  lemma LockNameExtendsDataName(id: OwnerId)
    ensures LockName(id) == DataName(id) + LockSuffix
    ensures LockName(id) != DataName(id)
  {
    assert |LockName(id)| == |DataName(id)| + 7;
  }

  /** The null owner's default slot is the slot of the owner literally named "token". */
  lemma DefaultSlotIsOwnerToken()
    ensures DataName(None) == DataName(Some("token"))
    ensures LockName(None) == LockName(Some("token"))
  {
  }

  /** The data file of owner `x.locked` is the lock marker of owner `x`: saving the one locks the other. */
  lemma SaveUnderMarkerNameLocks(d: Listing, e: Encrypter, c: Codec, f: TokenFields, x: string)
    requires Save(d, e, c, f, Some(x + LockSuffix)).1 == Success(true)
    ensures Locked(Save(d, e, c, f, Some(x + LockSuffix)).0, Some(x))
  {
  }

  /** Saving then loading an unlocked owner yields the saved token. */
  lemma {:induction false} SaveThenLoad(d: Listing, e: Encrypter, c: Codec, f: TokenFields, id: OwnerId)
    requires Storable(e, c, f)
    requires !Locked(d, id)
    requires !IsDir(d, DataName(id))
    ensures Save(d, e, c, f, id).1 == Success(true)
    ensures Load(Save(d, e, c, f, id).0, id) == Success(Some(f))
  {
    SealThenUnseal(e, c, f);
    LockNameExtendsDataName(id);
  }

  /** Saving leaves the owner's marker alone, and so does removing. */
  lemma {:induction false} DataOperationsKeepMarker(d: Listing, e: Encrypter, c: Codec, f: TokenFields, id: OwnerId)
    ensures Locked(Save(d, e, c, f, id).0, id) == Locked(d, id)
    ensures Locked(Remove(d, id).0, id) == Locked(d, id)
  {
    LockNameExtendsDataName(id);
  }

  /** Locking a slot that was not locked and unlocking it again restores the directory. */
  lemma LockThenUnlockRestores(d: Listing, id: OwnerId)
    requires !Locked(d, id)
    ensures Lock(d, id).1
    ensures Unlock(Lock(d, id).0, id) == (d, true)
  {
    assert d[LockName(id) := File(Garbage(""))] - {LockName(id)} == d;
  }

  /** save, lock, load, unlock, load: null while locked, the saved token again once unlocked. */
  lemma {:induction false} LockGatesLoad(d: Listing, e: Encrypter, c: Codec, f: TokenFields, id: OwnerId)
    requires Storable(e, c, f)
    requires !Locked(d, id)
    requires !IsDir(d, DataName(id))
    ensures var saved := Save(d, e, c, f, id).0;
      && Lock(saved, id).1
      && Load(Lock(saved, id).0, id) == Success(None)
      && Unlock(Lock(saved, id).0, id).1
      && Load(Unlock(Lock(saved, id).0, id).0, id) == Success(Some(f))
  {
    SaveThenLoad(d, e, c, f, id);
    DataOperationsKeepMarker(d, e, c, f, id);
    LockThenUnlockRestores(Save(d, e, c, f, id).0, id);
  }

  /** Unlocking twice is unlocking once; so is removing. */
  lemma UnlockAndRemoveIdempotent(d: Listing, id: OwnerId)
    ensures Unlock(d, id).1 ==> Unlock(Unlock(d, id).0, id) == (Unlock(d, id).0, true)
    ensures Remove(d, id).1 ==> Remove(Remove(d, id).0, id) == (Remove(d, id).0, true)
  {
  }

  /** An empty data file loads as null; a non-empty one the encrypter did not produce raises. */
  lemma EmptyFileVersusGarbage(d: Listing, id: OwnerId, text: string)
    requires !Locked(d, id) && EntryAt(d, DataName(id)) == Some(File(Garbage(text)))
    ensures Load(d, id) == if text == "" || text == "0" then Success(None) else Failure(DecryptFailed)
  {
  }

  /**
   * The owner ids "", "." and ".." put the data path on the storage directory
   * or its parent: saving and removing report false and change nothing, and
   * loading finds no token, whatever the listing holds.
   */
  lemma SelfOrParentOwner(d: Listing, e: Encrypter, c: Codec, f: TokenFields, o: string)
    requires SelfOrParent(o)
    ensures Save(d, e, c, f, Some(o)).1 != Success(true) && Save(d, e, c, f, Some(o)).0 == d
    ensures ArrayForm(f).Success? ==> Save(d, e, c, f, Some(o)).1 == Success(false)
    ensures Remove(d, Some(o)) == (d, false)
    ensures Load(d, Some(o)) == Success(None)
  {
  }

  /** loadTokens keeps the order of its ids: the result for `a + b` is that for `a` followed by that for `b`. */
  lemma {:induction false} LoadTokensConcat(d: Listing, a: seq<string>, b: seq<string>)
    ensures Gather(LoadOutcomes(d, a + b)) == Join(Gather(LoadOutcomes(d, a)), Gather(LoadOutcomes(d, b)))
  {
    assert LoadOutcomes(d, a + b) == LoadOutcomes(d, a) + LoadOutcomes(d, b);
    GatherAppend(LoadOutcomes(d, a), LoadOutcomes(d, b));
  }

  /** loadTokens skips an id whose load gives null (locked, missing or empty). */
  lemma {:induction false} LoadTokensSkipsNull(d: Listing, a: seq<string>, x: string, b: seq<string>)
    requires Load(d, Some(x)) == Success(None)
    ensures Gather(LoadOutcomes(d, a + [x] + b)) == Gather(LoadOutcomes(d, a + b))
  {
    LoadTokensConcat(d, a + [x], b);
    LoadTokensConcat(d, a, [x]);
    LoadTokensConcat(d, a, b);
    assert Gather(LoadOutcomes(d, [x])) == Success([]) by {
      assert LoadOutcomes(d, [x]) == [Success(None)];
      GatherOne(Success(None));
    }
    match Gather(LoadOutcomes(d, a))
    case Failure(_) =>
    case Success(ts) =>
      assert ts + [] == ts;
  }

  /** loadTokens keeps duplicate ids: asking twice for an owner gives its token twice. */
  lemma {:induction false} LoadTokensKeepsDuplicates(d: Listing, x: string, t: TokenFields)
    requires Load(d, Some(x)) == Success(Some(t))
    ensures Gather(LoadOutcomes(d, [x, x])) == Success([t, t])
  {
    var o := LoadOutcomes(d, [x, x]);
    assert o == [Success(Some(t))] + [Success(Some(t))];
    GatherSnoc([Success(Some(t))], Success(Some(t)));
    GatherOne(Success(Some(t)));
    assert LoadOutcomes(d, [x, x]) == [Success(Some(t)), Success(Some(t))];
    assert [t] + [t] == [t, t];
  }

  /** Every token the scan returns comes from a qualifying listed file, and there are no more tokens than files. */
  lemma {:induction false} ScanSound(d: Listing, names: seq<string>, now: int, seconds: int)
    requires Gather(ScanOutcomes(d, names, now, seconds)).Success?
    ensures forall t :: t in Gather(ScanOutcomes(d, names, now, seconds)).value ==>
      exists n :: n in names && Qualifies(d, n, now, seconds, t)
    ensures |Gather(ScanOutcomes(d, names, now, seconds)).value| <= |names|
  {
    var outs := ScanOutcomes(d, names, now, seconds);
    GatherSound(outs);
    forall t | t in Gather(outs).value
      ensures exists n :: n in names && Qualifies(d, n, now, seconds, t)
    {
      var i :| 0 <= i < |outs| && outs[i] == Success(Some(t));
      assert names[i] in names;
    }
  }

  /** Every qualifying listed file contributes its token to a scan that does not fault. */
  lemma {:induction false} ScanComplete(d: Listing, names: seq<string>, now: int, seconds: int)
    requires Gather(ScanOutcomes(d, names, now, seconds)).Success?
    ensures forall n, t :: n in names && Qualifies(d, n, now, seconds, t) ==>
      t in Gather(ScanOutcomes(d, names, now, seconds)).value
  {
    var outs := ScanOutcomes(d, names, now, seconds);
    GatherComplete(outs);
    forall n, t | n in names && Qualifies(d, n, now, seconds, t)
      ensures t in Gather(outs).value
    {
      var i :| 0 <= i < |names| && names[i] == n;
      assert outs[i] == Success(Some(t));
    }
  }

  /** The scan raises exactly when one file's iteration raises: one corrupt file aborts it. */
  lemma {:induction false} ScanFaultsIff(d: Listing, names: seq<string>, now: int, seconds: int)
    ensures Gather(ScanOutcomes(d, names, now, seconds)).Failure? <==>
      exists n :: n in names && ScanHit(d, n, now, seconds).Failure?
  {
    var outs := ScanOutcomes(d, names, now, seconds);
    GatherFaultsIff(outs);
    if exists n :: n in names && ScanHit(d, n, now, seconds).Failure? {
      var n :| n in names && ScanHit(d, n, now, seconds).Failure?;
      var i :| 0 <= i < |names| && names[i] == n;
      assert outs[i].Failure?;
    }
  }

  /** The stored payload of a token. */
  function Sealed(e: Encrypter, c: Codec, f: TokenFields): Blob
    requires SerializeToken(c, f).Encoded?
  {
    Encrypt(e, SerializeToken(c, f).plain)
  }

  /**
   * A token saved under an owner id containing a dot is loadable but never
   * returned by the scan: the scan looks the file up under the name without its
   * extension.
   */
  lemma {:induction false} ScanMissesDottedOwner(e: Encrypter, c: Codec, f: TokenFields, o: string, now: int, seconds: int, listing: seq<string>)
    requires Storable(e, c, f) && f.expires.value <= now + seconds
    requires Listed(o) && '.' in o
    requires Enumerates(listing, Visible(map[o := File(Sealed(e, c, f))]))
    ensures Load(map[o := File(Sealed(e, c, f))], Some(o)) == Success(Some(f))
    ensures Gather(ScanOutcomes(map[o := File(Sealed(e, c, f))], listing, now, seconds)) == Success([])
  {
    var d := map[o := File(Sealed(e, c, f))];
    SealThenUnseal(e, c, f);
    LockNameExtendsDataName(Some(o));
    assert Save(map[], e, c, f, Some(o)).0 == d;
    SaveThenLoad(map[], e, c, f, Some(o));
    assert Visible(d) == {o};
    var outs := ScanOutcomes(d, listing, now, seconds);
    assert StripExtension(o) != o;
    assert forall i :: 0 <= i < |outs| ==> outs[i] == Success(None);
    GatherFaultsIff(outs);
    GatherSound(outs);
    assert Gather(outs).value == [];
  }

  /**
   * A token expiring 255 seconds from now is returned by a 300-second scan and
   * not by a 100-second one.
   */
  lemma {:induction false} ScanWindowExample(e: Encrypter, c: Codec, f: TokenFields, o: string, now: int, listing: seq<string>)
    requires Storable(e, c, f) && f.expires == Some(now + 255)
    requires Listed(o) && '.' !in o
    requires Enumerates(listing, Visible(map[o := File(Sealed(e, c, f))]))
    ensures Gather(ScanOutcomes(map[o := File(Sealed(e, c, f))], listing, now, 300)) == Success([f])
    ensures Gather(ScanOutcomes(map[o := File(Sealed(e, c, f))], listing, now, 100)) == Success([])
  {
    var d := map[o := File(Sealed(e, c, f))];
    LockNameExtendsDataName(Some(o));
    assert Save(map[], e, c, f, Some(o)).0 == d;
    SaveThenLoad(map[], e, c, f, Some(o));
    assert Visible(d) == {o};
    assert listing == [o];
    assert ScanOutcomes(d, listing, now, 300) == [Success(Some(f))];
    GatherOne(Success(Some(f)));
    assert ScanOutcomes(d, listing, now, 100) == [Success(None)];
    GatherOne(Success(None));
  }
}
