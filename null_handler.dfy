/**
 * src/Handler/NullTokenHandler.php: a backend that stores nothing. Loads give
 * null or an empty array, every change reports success, nothing is locked.
 */
module NullStore {
  import opened Wrappers
  import opened TokenModel
  import opened Handler

  /** `loadToken($ownerId)`. */
  function LoadToken(id: OwnerId): LoadResult
  {
    Success(None)
  }

  /** `loadTokens($ownerIds)`. */
  function LoadTokens(ids: seq<string>): LoadManyResult
  {
    Success([])
  }

  /** `loadTokensThatExpiresIn($seconds)`. */
  function LoadTokensThatExpiresIn(now: int, seconds: int): LoadManyResult
  {
    Success([])
  }

  /** `saveToken($token, $ownerId)`: accepts any token, complete or not. */
  function SaveToken(f: TokenFields, id: OwnerId): Result<bool, Fault>
  {
    Success(true)
  }

  /** `removeToken($ownerId)`. */
  function RemoveToken(id: OwnerId): bool
  {
    true
  }

  /** `lockToken($ownerId)`. */
  function LockToken(id: OwnerId): bool
  {
    true
  }

  /** `unlockToken($ownerId)`. */
  function UnlockToken(id: OwnerId): bool
  {
    true
  }

  /** `isLocked($ownerId)`. */
  function IsLocked(id: OwnerId): bool
  {
    false
  }

  /**
   * Whatever was saved, loading gives null and every batch load is empty; every
   * change succeeds, even for a null owner or an incomplete token; locking does
   * not make an owner locked.
   */
  lemma StoresNothing(f: TokenFields, id: OwnerId, ids: seq<string>, now: int, seconds: int)
    ensures SaveToken(f, id) == Success(true) && LoadToken(id) == Success(None)
    ensures LoadTokens(ids) == Success([]) && LoadTokensThatExpiresIn(now, seconds) == Success([])
    ensures RemoveToken(id) && LockToken(id) && UnlockToken(id)
    ensures LockToken(id) && !IsLocked(id)
  {
  }
}
