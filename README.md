# token-handler in Dafny

A model of the core of the PHP library `izzle/token-handler`. The library stores
OAuth-style access tokens for owners (users, accounts), encrypted at rest. There
are three interchangeable storage backends behind one handler interface:

- a **file backend**, with one encrypted file per owner and an empty
  `<owner>.locked` marker file acting as a lock;
- a **database backend**, with one row per owner holding the encrypted token,
  its expiry, a lock flag and an error count;
- a **null backend**, which stores nothing.

Every backend can load one token, load several, load the ones that expire within
a time window, save, remove, lock, unlock and report whether an owner is locked.
A locked owner's token is not handed out.

## Layout

| file | module | what it holds |
|---|---|---|
| `wrappers.dfy` | `Wrappers` | `Option` and `Result` |
| `php.dfy` | `Php` | PHP values and PHP's `empty()` rule |
| `collaborators.dfy` | `Collaborators` | the encrypter and the JSON codec, as abstract values |
| `token.dfy` | `TokenModel` | the token record: `fromArray`, `toArray`, `hasExpired`, getters and setters, as functions and as the `Token` class |
| `handler.dfy` | `Handler` | what the backends share: owner ids, faults, the decrypt-decode-construct path, JSON encoding of a token, and the fold behind the batch loads |
| `file_handler.dfy` | `FileStore` | the directory as a map from file name to entry, its operations as functions, and the `FileHandler` class |
| `pdo_handler.dfy` | `PdoStore` | each table as a map from `owner_id` to row, its statements as functions, and the `PdoHandler` class over a `Database` object |
| `null_handler.dfy` | `NullStore` | the null backend |
| `backends.dfy` | `Backends` | where the backends differ |

The two persistent backends are classes whose methods change the directory or
the database in place. Each method is proved against a function on the stored
state (`SaveToken` leaves `Save(old state, ...)`, `LoadTokens` returns
`Gather(...)` of the per-owner loads), and the lemmas about those functions
state what the library promises: a save followed by a load gives the token
back, a lock hides it, an unlock restores it, and the expiry scan returns
exactly the tokens that qualify.

Abstractions:

- A plaintext is represented by the JSON value it parses to (or "not JSON", or
  the null an encrypter may return). A ciphertext is represented by the
  plaintext it seals, and any other stored string is `Garbage`. Decryption
  succeeds exactly on what the encrypter produced. Whether the encrypter ever
  yields `""`, and whether `json_encode` fails on a value, are parameters.
- The current time (`time()`) is a parameter `now`.
- `glob` (called without `GLOB_NOSORT`) lists a directory in sorted order, and
  the database returns rows in an order SQL leaves open. The model leaves both
  orders open: the batch methods return, as a ghost out-parameter, the
  order they used, together with a proof that it lists every selected name
  exactly once.
- Handlers return the fields of the token they construct (`TokenFields`)
  rather than the `Token` object itself.

Facts about the code that the model keeps, some of which the repository's own
tests do not respect:

- `fromArray` requires `expires` as well as the token and the owner
  (src/Model/Token.php:131-134). A token built without `expires` is rejected.
  tests/Handler/PdoHandlerTest.php:83-86 constructs such a token; under this
  code that construction raises, before the save at line 88 is reached.
- `PdoHandler::dataToToken` does not catch the encrypter's decrypt exception
  (src/Handler/PdoHandler.php:389-402). A row whose payload does not decrypt
  makes `loadToken` and both batch loads raise; it does not give "no token".
- `new Token($data)` raises for a decoded array that misses a required value,
  and neither handler catches it (src/Model/Token.php:118-123,
  src/Handler/FileHandler.php:72). A stored payload that decodes to such an
  array makes the load raise (`InvalidToken`); it does not give "no token".
  An empty decoded array builds a token with nothing assigned.
- `hasExpired` raises when `expires` is unset or 0 (src/Model/Token.php:192-201);
  it does not answer "not expired" for a token without an expiry.
- The token has no `meta` field: src/Model/Token.php declares only `token`,
  `refreshToken`, `expires` and `ownerId`, and no `getMeta`.
  tests/Handler/FileHandlerTest.php:97 calls `getMeta()`, which this code does
  not have.
- The file backend builds its data path as `<path>/<owner>`
  (src/Handler/FileHandler.php:214-217). For the owner ids "", "." and ".." that
  path is the storage directory itself or its parent, so saving and removing
  report false and loading finds nothing.

## Model

| member | source | states |
|---|---|---|
| `Collaborators.Encrypt` | src/Handler/FileHandler.php:142-145 | the payload is a sealed plaintext unless the encrypter yields the empty string, which is the only other outcome |
| `Collaborators.Decrypt` | src/Handler/FileHandler.php:62 | decryption succeeds exactly on payloads the encrypter produced |
| `Collaborators.JsonEncode` | src/Handler/FileHandler.php:137-140 | encoding succeeds exactly when `json_last_error()` would report no error |
| `Collaborators.JsonDecode` | src/Handler/FileHandler.php:67-70 | decoding succeeds exactly on JSON text |
| `Collaborators.SealOpenRoundTrip` | src/Handler/FileHandler.php:62-67 | decrypting what was encrypted and decoding what was encoded give the original value back |
| `TokenModel.ApplyArray` | src/Model/Token.php:129-144 | `fromArray`: success implies the three required values are present, non-empty and well typed and are the new field values; an empty token fails first and changes nothing; a non-empty refreshToken is a string and is copied, an empty one leaves the old value |
| `TokenModel.ApplyArrayCheckOrder` | src/Model/Token.php:131-137 | checks run token, expires, ownerId; a failure keeps the values assigned before it, whether the value is empty (missing-value error) or of the wrong type (type error for token, expires or ownerId) |
| `TokenModel.ApplyArraySucceedsIff` | src/Model/Token.php:129-144 | `fromArray` succeeds exactly when the required values are acceptable and refreshToken is empty or a string |
| `TokenModel.ApplyRequiredReadsOnly` | src/Model/Token.php:131-137 | the required-value loop reads only the keys of the properties it checks |
| `TokenModel.NewToken` | src/Model/Token.php:118-123 | the empty array builds a token with nothing assigned; a non-array is a type error; a non-empty array succeeds exactly when its required values are acceptable and refreshToken is empty or a string, and then assigns exactly the array's token, expires and ownerId, and its refreshToken when non-empty |
| `TokenModel.ArrayForm` | src/Model/Token.php:149-157 | `toArray` succeeds exactly when token, expires and ownerId are assigned, raises the uninitialised-property error for the first unassigned one in that order, and otherwise has exactly the four keys, each holding its property's value (refreshToken null when unset) |
| `TokenModel.BuildArrayPrefixes` | src/Model/Token.php:152-154 | the array after each of the four loop steps |
| `TokenModel.RoundTrip` | src/Model/Token.php:118-157 | `new Token(toArray())` reproduces every complete token |
| `TokenModel.EmptyRefreshTokenLost` | src/Model/Token.php:139-141 | a refreshToken of "" or "0" does not survive the round trip |
| `TokenModel.Token.constructor` | src/Model/Token.php:118-123 | `new Token()` has nothing assigned |
| `TokenModel.Token.New` | src/Model/Token.php:118-123 | `new Token($data)` is `NewToken`: fromArray only for a non-empty array, its error aborting construction |
| `TokenModel.Token.Write` | src/Model/Token.php:136 | a typed-property write under strict types: the value is stored or a type error is raised |
| `TokenModel.Token.FromArray` | src/Model/Token.php:129-144 | the loop leaves exactly the state and error `ApplyArray` gives |
| `TokenModel.Token.ToArray` | src/Model/Token.php:149-157 | the loop returns `ArrayForm` of the current state |
| `TokenModel.Token.JsonSerialize` | src/Model/Token.php:184-187 | the JSON form is the array form |
| `TokenModel.Token.HasExpired` | src/Model/Token.php:192-201 | raises for unassigned expires and for 0; otherwise true exactly when expires is strictly before now |
| `TokenModel.Token.GetToken` | src/Model/Token.php:45-48 | the token, or an error when unassigned |
| `TokenModel.Token.GetRefreshToken` | src/Model/Token.php:63-66 | the refresh token when set; the type error for the refreshToken property when it is null |
| `TokenModel.Token.GetExpires` | src/Model/Token.php:81-84 | the expiry, or an error when unassigned |
| `TokenModel.Token.GetOwnerId` | src/Model/Token.php:99-102 | the owner, or an error when unassigned |
| `TokenModel.Token.SetToken` | src/Model/Token.php:53-58 | changes the token and nothing else |
| `TokenModel.Token.SetRefreshToken` | src/Model/Token.php:71-76 | changes the refresh token and nothing else |
| `TokenModel.Token.SetExpires` | src/Model/Token.php:89-94 | changes the expiry and nothing else |
| `TokenModel.Token.SetOwnerId` | src/Model/Token.php:107-112 | changes the owner and nothing else |
| `Handler.Unseal` | src/Handler/PdoHandler.php:389-402 | a payload that does not decrypt raises; a null or non-JSON plaintext gives null; JSON that builds a token gives exactly that token, and only such JSON gives a token; a construction error is raised |
| `Handler.DataToToken` | src/Handler/PdoHandler.php:389-402 | the imperative decrypt, decode and construct steps compute `Unseal` |
| `Handler.SerializeToken` | src/Handler/FileHandler.php:137-140 | `json_encode($token)` raises exactly when `toArray` does; it fails (`json_last_error()` set) exactly when `toArray` succeeds and the codec cannot encode the array; otherwise it encodes the array form |
| `Handler.SealThenUnseal` | src/Handler/FileHandler.php:57-72 | what saving seals, loading opens to the same token, for every storable token |
| `Handler.GatherOne` | src/Handler/FileHandler.php:83-94 | one result contributes its token, nothing, or its fault |
| `Handler.GatherSnoc` | src/Handler/FileHandler.php:83-94 | one more loop step appends the token, skips a null, or stops at the fault |
| `Handler.JoinAssoc` | src/Handler/FileHandler.php:83-94 | joining partial results is associative |
| `Handler.GatherAppend` | src/Handler/FileHandler.php:83-94 | the loop over a concatenation is the join of the loops over the parts |
| `Handler.GatherSound` | src/Handler/PdoHandler.php:197-207 | every collected token came from some iteration, and there are no more tokens than iterations |
| `Handler.GatherComplete` | src/Handler/PdoHandler.php:197-207 | every token some iteration produced is collected when the loop does not raise |
| `Handler.GatherFaultsIff` | src/Handler/PdoHandler.php:197-207 | the loop raises exactly when some iteration raises |
| `Handler.GatherStopsAtFault` | src/Handler/PdoHandler.php:197-207 | the first raising iteration decides the loop's fault |
| `Handler.Enumerate` | src/Handler/FileHandler.php:106 | lists every element of a set exactly once |
| `FileStore.Load` | src/Handler/FileHandler.php:47-73 | null when locked, missing or a directory; for an unlocked regular file, null when its content is empty and otherwise the decrypt-decode-construct result of its content |
| `FileStore.Save` | src/Handler/FileHandler.php:135-148 | raises (with the `toArray` error) exactly when `toArray` raises; false, changing nothing, exactly on an encoding error, an empty ciphertext or a data path that is a directory; true exactly when the data file now holds the sealed token and nothing else changed |
| `FileStore.Remove` | src/Handler/FileHandler.php:154-161 | true exactly when the data path is not a directory: an existing data file is deleted, a missing one is not needed; false changes nothing |
| `FileStore.Lock` | src/Handler/FileHandler.php:167-170 | the owner is locked afterwards; true exactly when the marker path is not a directory, in which case an empty marker is written (an existing one overwritten) and nothing else changes; false changes nothing |
| `FileStore.Unlock` | src/Handler/FileHandler.php:176-183 | true exactly when the marker path is not a directory, in which case the marker is deleted if present and the owner is unlocked; false changes nothing and the owner stays locked |
| `FileStore.LastDot` | src/Handler/FileHandler.php:111 | the position of a dot with no dot after it, or none when the name has no dot |
| `FileStore.StripExtension` | src/Handler/FileHandler.php:111 | `pathinfo(..., PATHINFO_FILENAME)`: the whole name when it has no dot; otherwise the prefix followed by the last dot of the name |
| `FileStore.Directory.constructor` | src/Handler/FileHandler.php:30-40 | a directory with the given contents and writability |
| `FileStore.FileHandler.constructor` | src/Handler/FileHandler.php:30-40 | binds the path and the encrypter |
| `FileStore.FileHandler.Open` | src/Handler/FileHandler.php:30-40 | raises exactly when the directory is not writable |
| `FileStore.FileHandler.FilePath` | src/Handler/FileHandler.php:214-217 | `<path>/<owner>`, and `<path>/token` for the null owner |
| `FileStore.FileHandler.LockPath` | src/Handler/FileHandler.php:223-231 | `<path>/<owner>.locked`, and `<path>/token.locked` for the null owner |
| `FileStore.FileHandler.IsLocked` | src/Handler/FileHandler.php:189-192 | the result is `Locked` of the directory: the marker exists |
| `FileStore.FileHandler.LoadToken` | src/Handler/FileHandler.php:47-73 | the result is `Load` of the directory |
| `FileStore.FileHandler.LoadTokens` | src/Handler/FileHandler.php:79-97 | the loop returns `Gather` of the per-owner loads, in order |
| `FileStore.FileHandler.Glob` | src/Handler/FileHandler.php:106 | every visible name once |
| `FileStore.FileHandler.ScanFiles` | src/Handler/FileHandler.php:106-124 | the loop returns `Gather` of the scan steps over the listed files |
| `FileStore.FileHandler.LoadTokensThatExpiresIn` | src/Handler/FileHandler.php:103-127 | raises exactly when some visible file's step raises; otherwise returns every token of a qualifying visible file (a regular file whose name without extension is an unlocked owner whose token expires within the window) and nothing else, at most one per file |
| `FileStore.FileHandler.SaveToken` | src/Handler/FileHandler.php:135-148 | the new directory and result are `Save` of the old directory |
| `FileStore.FileHandler.RemoveToken` | src/Handler/FileHandler.php:154-161 | the new directory and result are `Remove` of the old |
| `FileStore.FileHandler.LockToken` | src/Handler/FileHandler.php:167-170 | the new directory and result are `Lock` of the old |
| `FileStore.FileHandler.UnlockToken` | src/Handler/FileHandler.php:176-183 | the new directory and result are `Unlock` of the old |
| `FileStore.LockNameExtendsDataName` | src/Handler/FileHandler.php:214-231 | the marker is the data file name plus ".locked", never the data file itself |
| `FileStore.DefaultSlotIsOwnerToken` | src/Handler/FileHandler.php:216 | the null owner shares its file and marker with the owner named "token" |
| `FileStore.SaveUnderMarkerNameLocks` | src/Handler/FileHandler.php:147 | saving for owner `x.locked` creates owner `x`'s marker |
| `FileStore.SaveThenLoad` | src/Handler/FileHandler.php:47-73 | after saving a storable token for an unlocked owner, loading gives that token back |
| `FileStore.DataOperationsKeepMarker` | src/Handler/FileHandler.php:135-161 | save and remove leave the lock state alone |
| `FileStore.LockThenUnlockRestores` | src/Handler/FileHandler.php:167-183 | unlocking after locking an unlocked owner restores the directory |
| `FileStore.LockGatesLoad` | tests/Handler/FileHandlerTest.php:120-129 | save, lock, load gives null, unlock, load gives the token |
| `FileStore.UnlockAndRemoveIdempotent` | src/Handler/FileHandler.php:154-183 | a second unlock or remove changes nothing and succeeds |
| `FileStore.EmptyFileVersusGarbage` | src/Handler/FileHandler.php:57-62 | an empty or "0" file loads as null; any other undecryptable content raises |
| `FileStore.SelfOrParentOwner` | src/Handler/FileHandler.php:135-161 | for the owner ids "", "." and "..", whose data path is the storage directory or its parent, saving never reports true and changes nothing (false when `toArray` succeeds), removing reports false and changes nothing, and loading gives null |
| `FileStore.LoadTokensConcat` | src/Handler/FileHandler.php:79-97 | results keep the order of the ids |
| `FileStore.LoadTokensSkipsNull` | src/Handler/FileHandler.php:84-91 | an id that loads as null contributes nothing |
| `FileStore.LoadTokensKeepsDuplicates` | src/Handler/FileHandler.php:83-94 | a repeated id yields its token twice |
| `FileStore.ScanSound` | src/Handler/FileHandler.php:103-127 | every returned token belongs to a qualifying listed file, and there are no more tokens than files |
| `FileStore.ScanComplete` | src/Handler/FileHandler.php:103-127 | every qualifying listed file's token is returned when the scan does not raise |
| `FileStore.ScanFaultsIff` | src/Handler/FileHandler.php:103-127 | the scan raises exactly when one file's step raises |
| `FileStore.ScanMissesDottedOwner` | src/Handler/FileHandler.php:111-116 | a token saved for an owner whose id contains a dot loads but is never returned by the scan |
| `FileStore.ScanWindowExample` | tests/Handler/FileHandlerTest.php:131-158 | a token expiring in 255 seconds is in a 300-second window and not in a 100-second one |
| `PdoStore.TableName` | src/Handler/PdoHandler.php:355-358 | an empty option selects "auth-tokens"; a non-empty string is itself the table name; any other non-empty value is a type error |
| `PdoStore.Created` | src/Handler/PdoHandler.php:364-383 | the table exists afterwards; an existing table is kept as it was |
| `PdoStore.Load` | src/Handler/PdoHandler.php:90-113 | null for a null, missing or locked owner; for an unlocked present row, the decrypt-decode-construct result of its payload |
| `PdoStore.Save` | src/Handler/PdoHandler.php:218-250 | nothing for a null owner; a JSON or `toArray` error raises and changes nothing; otherwise the owner's row is replaced by one with the sealed token and its expiry, unlocked and with error count 0, and every other row is kept |
| `PdoStore.Remove` | src/Handler/PdoHandler.php:257-275 | always true; deletes only the owner's row |
| `PdoStore.UpdateLock` | src/Handler/PdoHandler.php:330-350 | false and nothing for a null owner; otherwise true, setting only the lock flag of an existing row |
| `PdoStore.Database.constructor` | src/Handler/PdoHandler.php:77-84 | a connection with the given tables |
| `PdoStore.PdoHandler.constructor` | src/Handler/PdoHandler.php:77-84 | binds the connection, the encrypter and the table name |
| `PdoStore.PdoHandler.Open` | src/Handler/PdoHandler.php:77-84 | raises exactly when the table option is non-empty and not a string (an empty option such as 0, null or false selects the default); otherwise uses `TableName` and creates the table if absent |
| `PdoStore.PdoHandler.CheckDatabase` | src/Handler/PdoHandler.php:364-383 | the tables afterwards are `Created` of those before |
| `PdoStore.PdoHandler.LoadToken` | src/Handler/PdoHandler.php:90-113 | the result is `Load` of the table |
| `PdoStore.PdoHandler.DecodeRows` | src/Handler/PdoHandler.php:157-167 | the loop returns `Gather` of the decodes of the fetched rows |
| `PdoStore.PdoHandler.LoadTokens` | src/Handler/PdoHandler.php:119-168 | the empty list gives the empty result; otherwise raises exactly when a listed, present, unlocked row does not decode, and returns exactly the tokens of those rows, at most one per row |
| `PdoStore.PdoHandler.LoadTokensThatExpiresIn` | src/Handler/PdoHandler.php:174-208 | raises exactly when a row in the window does not decode, and returns exactly the tokens of the unlocked rows whose expiry is set and at most now plus the window, at most one per row |
| `PdoStore.PdoHandler.IsLocked` | src/Handler/PdoHandler.php:299-322 | the result is `LockedIn` of the table |
| `PdoStore.PdoHandler.SaveToken` | src/Handler/PdoHandler.php:218-250 | the new table and result are `Save` of the old; other tables are unchanged |
| `PdoStore.PdoHandler.RemoveToken` | src/Handler/PdoHandler.php:257-275 | the new table and result are `Remove` of the old |
| `PdoStore.PdoHandler.UpdateLockFlag` | src/Handler/PdoHandler.php:330-350 | the new table and result are `UpdateLock` of the old |
| `PdoStore.PdoHandler.LockToken` | src/Handler/PdoHandler.php:281-284 | `UpdateLock` with the flag set |
| `PdoStore.PdoHandler.UnlockToken` | src/Handler/PdoHandler.php:290-293 | `UpdateLock` with the flag cleared |
| `PdoStore.TableNameDefaults` | src/Handler/PdoHandler.php:357 | no option, "" and "0" all select "auth-tokens"; an integer is refused |
| `PdoStore.NullOwnerTouchesNothing` | src/Handler/PdoHandler.php:220-222 | for a null owner save and remove succeed without change, lock and unlock fail, load gives null, nothing is locked |
| `PdoStore.SaveThenLoad` | src/Handler/PdoHandler.php:218-250 | after saving a storable token, the owner is unlocked and loading gives the token back |
| `PdoStore.SaveResetsLock` | src/Handler/PdoHandler.php:224-243 | saving over a locked row unlocks it and resets its error count |
| `PdoStore.LockMissingOwner` | src/Handler/PdoHandler.php:336-349 | locking or unlocking an owner without a row succeeds and changes nothing |
| `PdoStore.LockGatesLoad` | tests/Handler/PdoHandlerTest.php:119-128 | save, lock (now locked), load gives null, unlock (now unlocked), load gives the token |
| `PdoStore.RemoveIdempotent` | src/Handler/PdoHandler.php:257-275 | a second remove changes nothing, and a removed owner loads as null |
| `PdoStore.InMatchesIgnoresOrder` | src/Handler/PdoHandler.php:134-139 | which rows are selected depends only on which ids are listed, not on order or repetition |
| `PdoStore.LockedOwnerNotSelected` | src/Handler/PdoHandler.php:96-180 | a locked owner is never selected and loads as null |
| `PdoStore.FetchSoundAndComplete` | src/Handler/PdoHandler.php:157-167 | a batch over the selected rows that does not raise returns exactly the tokens of the rows that decode to one, and no more tokens than rows |
| `PdoStore.FetchFaultsIff` | src/Handler/PdoHandler.php:157-167 | a batch raises exactly when one selected row does not decrypt or does not build a token |
| `NullStore.StoresNothing` | src/Handler/NullTokenHandler.php:13-80 | loads give null and empty arrays, every change succeeds, nothing is ever locked |
| `Backends.NullOwnerAcrossBackends` | src/Handler/HandlerInterface.php:11-61 | for a null owner the file backend uses the "token" slot, the database backend saves nothing and refuses to lock, the null backend succeeds |
| `Backends.SaveOverLockDiffers` | src/Handler/HandlerInterface.php:36 | after saving over a locked owner the file backend still loads null and the database backend loads the token |

## Definitions

Functions and predicates that the contracts above are written in. Their
bodies are the definition; they carry no contract of their own.

| member | source | what it computes |
|---|---|---|
| `Php.IsEmpty` | src/Model/Token.php:132 | PHP's `empty()`: null, false, 0, "", "0" and the empty array |
| `Php.Lookup` | src/Model/Token.php:132 | `$data[$key]`, null for a missing key |
| `Collaborators.IsEmptyText` | src/Handler/FileHandler.php:57-59 | `empty()` on file content: "" or "0" |
| `TokenModel.Key` | src/Model/Token.php:17-20 | the `PROP_*` array key of a property |
| `TokenModel.Complete` | src/Model/Token.php:129-157 | the field values that survive `toArray` followed by `fromArray` |
| `TokenModel.Assigned` | src/Model/Token.php:136 | a typed-property write: the new fields, or a type error |
| `TokenModel.ApplyRequired` | src/Model/Token.php:131-137 | the required-value loop of `fromArray`, stopping at the first error |
| `TokenModel.Acceptable` | src/Model/Token.php:131-137 | the arrays whose required values pass the loop |
| `TokenModel.ReadProp` | src/Model/Token.php:153 | one property read for `toArray`: its value, null for an unset refresh token, or an uninitialised-property error |
| `TokenModel.BuildArray` | src/Model/Token.php:151-156 | the array `toArray` has built after the given properties |
| `TokenModel.Token.Fields` | src/Model/Token.php:24-40 | the current property values of a `Token` object |
| `Handler.Storable` | src/Handler/FileHandler.php:135-148 | a complete token that encodes and seals to a non-empty payload |
| `Handler.Gather` | src/Handler/FileHandler.php:83-94 | the collect-tokens loop over per-item results: tokens in order, nulls skipped, the first fault raised |
| `Handler.Join` | src/Handler/FileHandler.php:83-94 | two partial loop results one after the other |
| `Handler.Enumerates` | src/Handler/FileHandler.php:106 | a sequence lists a set, each element once |
| `FileStore.DataName` | src/Handler/FileHandler.php:214-217 | the data file name: the owner id, "token" for the null owner |
| `FileStore.LockName` | src/Handler/FileHandler.php:223-231 | the marker name: data name plus ".locked" |
| `FileStore.SelfOrParent` | src/Handler/FileHandler.php:214-217 | the names "", "." and "..", which do not denote an entry of the directory |
| `FileStore.EntryAt` | src/Handler/FileHandler.php:53-57 | what a name in the directory resolves to; the directory itself or its parent for "", "." and ".." |
| `FileStore.IsDir` | src/Handler/FileHandler.php:107 | `is_dir` on a name in the directory |
| `FileStore.IsFileAt` | src/Handler/FileHandler.php:107 | a regular file at a name in the directory |
| `FileStore.Locked` | src/Handler/FileHandler.php:189-192 | `file_exists` on the marker |
| `FileStore.Read` | src/Handler/FileHandler.php:57 | `file_get_contents`: a file's content, empty for a directory |
| `FileStore.LoadOutcomes` | src/Handler/FileHandler.php:83-94 | one load per listed owner, in order |
| `FileStore.Listed` | src/Handler/FileHandler.php:106 | the names `glob('*')` lists: not empty, not starting with a dot |
| `FileStore.Visible` | src/Handler/FileHandler.php:106 | the listed names of a directory |
| `FileStore.ScanHit` | src/Handler/FileHandler.php:107-123 | one scan step: skip a directory or a locked owner, load, raise when `expires` is unset, keep a token expiring within the window |
| `FileStore.ScanOutcomes` | src/Handler/FileHandler.php:106-124 | one scan step per listed file, in listing order |
| `FileStore.Qualifies` | src/Handler/FileHandler.php:107-123 | a file whose scan step keeps the given token |
| `FileStore.Sealed` | src/Handler/FileHandler.php:137-145 | the payload saving writes for a token |
| `PdoStore.LockedIn` | src/Handler/PdoHandler.php:299-322 | an existing row with the lock flag set |
| `PdoStore.InMatches` | src/Handler/PdoHandler.php:134-139 | the listed owners with a present, unlocked row |
| `PdoStore.ExpiringMatches` | src/Handler/PdoHandler.php:176-183 | the unlocked rows whose expiry is set and at most now plus the window |
| `PdoStore.FetchOutcomes` | src/Handler/PdoHandler.php:197-207 | one decode per fetched row, in fetch order |
| `PdoStore.PdoHandler.Rows` | src/Handler/PdoHandler.php:77-84 | the rows of the handler's table |
| `PdoStore.PdoHandler.Valid` | src/Handler/PdoHandler.php:77-84 | the handler's table exists |
| `NullStore.LoadToken` | src/Handler/NullTokenHandler.php:13-16 | null |
| `NullStore.LoadTokens` | src/Handler/NullTokenHandler.php:22-25 | the empty array |
| `NullStore.LoadTokensThatExpiresIn` | src/Handler/NullTokenHandler.php:31-34 | the empty array |
| `NullStore.SaveToken` | src/Handler/NullTokenHandler.php:41-44 | true |
| `NullStore.RemoveToken` | src/Handler/NullTokenHandler.php:50-53 | true |
| `NullStore.LockToken` | src/Handler/NullTokenHandler.php:59-62 | true |
| `NullStore.UnlockToken` | src/Handler/NullTokenHandler.php:68-71 | true |
| `NullStore.IsLocked` | src/Handler/NullTokenHandler.php:77-80 | false |

## Left out

- Encryption and JSON text: the encrypter and `json_encode`/`json_decode` are abstract. A ciphertext is represented by the plaintext it seals.
- I/O failures: a failed SQL statement (`PDOException`) and a failed `file_get_contents` are not modelled. A failed `file_put_contents` or `unlink` is modelled only where the path names a directory: an entry that is a directory, or the storage directory itself or its parent for the owner ids "", "." and "..".
- The SQL text, parameter binding, DDL column types and the database's string collation: the database is a map from table name to a map keyed by owner id, compared by exact string equality.
- File paths other than names directly in the handler's directory: owner ids containing a separator are not modelled.
- The sorted order of `glob` results, and the order of fetched rows: the model leaves both open, chosen by the enumeration and recorded. So the order of the scan's result, and which of several faulting files raises first, are not modelled for the file backend.
- Encrypt: the encrypter's `EncryptException` (declared for `saveToken` at src/Handler/FileHandler.php:132 and propagated by both saves, src/Handler/FileHandler.php:142 and src/Handler/PdoHandler.php:233) is not modelled; encryption here either seals the plaintext or yields "".
- `time()` is the parameter `now`. Overflow of `time() + $seconds` beyond PHP's integer range is not modelled.
- PHP floats, and the integer width of `expires`: integers are unbounded.
- `Token::serialize`/`unserialize` and `__toString`: PHP's native serialisation format is not modelled.
- The trivial accessors `getPdo`, `getEncrypter`, `getPath` and `getTable`.
- Concurrency between processes sharing a directory or a table.
- `HandlerInterface` is not a Dafny type: the three backends expose the same operations by name, and `Backends` compares them.
- Handlers return the fields of the token they build (`TokenFields`), not a `Token` object, so the identity of the returned objects is not modelled.
