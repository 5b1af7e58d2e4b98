/**
 * The three implementations of src/Handler/HandlerInterface.php side by side.
 * The interface leaves the null owner's meaning open, and the backends disagree
 * on it.
 */
module Backends {
  import opened Wrappers
  import opened Collaborators
  import opened TokenModel
  import opened Handler
  import FileStore
  import PdoStore
  import NullStore

  /**
   * For a null owner the file backend uses the slot "token" and its marker,
   * the database backend saves and removes nothing and refuses to lock, and
   * the null backend reports success.
   */
  lemma NullOwnerAcrossBackends(d: FileStore.Listing, t: PdoStore.Table, e: Encrypter, c: Codec, f: TokenFields)
    requires Storable(e, c, f)
    requires !FileStore.Locked(d, None)
    requires !FileStore.IsDir(d, FileStore.DataName(None))
    ensures FileStore.Save(d, e, c, f, None).1 == Success(true)
    ensures FileStore.Load(FileStore.Save(d, e, c, f, None).0, Some("token")) == Success(Some(f))
    ensures PdoStore.Save(t, e, c, f, None) == (t, Success(true))
    ensures PdoStore.Load(PdoStore.Save(t, e, c, f, None).0, None) == Success(None)
    ensures FileStore.Lock(d, None).1 && FileStore.Locked(FileStore.Lock(d, None).0, None)
    ensures PdoStore.UpdateLock(t, None, true) == (t, false)
    ensures NullStore.LockToken(None) && !NullStore.IsLocked(None)
  {
    FileStore.SaveThenLoad(d, e, c, f, None);
    FileStore.DefaultSlotIsOwnerToken();
  }

  /**
   * The database backend saves a token whatever its lock state, the file
   * backend saves it too but keeps the marker: after saving over a locked
   * owner, the file backend still loads null while the database backend
   * loads the token.
   */
  lemma {:induction false} SaveOverLockDiffers(d: FileStore.Listing, t: PdoStore.Table, e: Encrypter, c: Codec, f: TokenFields, x: string)
    requires Storable(e, c, f)
    requires FileStore.Locked(d, Some(x)) && PdoStore.LockedIn(t, Some(x))
    requires !FileStore.IsDir(d, FileStore.DataName(Some(x)))
    ensures FileStore.Save(d, e, c, f, Some(x)).1 == Success(true)
    ensures FileStore.Load(FileStore.Save(d, e, c, f, Some(x)).0, Some(x)) == Success(None)
    ensures PdoStore.Load(PdoStore.Save(t, e, c, f, Some(x)).0, Some(x)) == Success(Some(f))
  {
    SealThenUnseal(e, c, f);
    FileStore.DataOperationsKeepMarker(d, e, c, f, Some(x));
    PdoStore.SaveThenLoad(t, e, c, f, x);
  }
}
