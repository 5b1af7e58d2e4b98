/**
 * The two collaborators every persistent handler calls: the symmetric
 * encrypter (Illuminate's Encrypter contract) and PHP's JSON codec. Both are
 * abstract: a plaintext is represented by the document it parses to, and a
 * ciphertext by the plaintext it seals.
 */
module Collaborators {
  import opened Wrappers
  import opened Php

  /**
   * A plaintext string handed to or returned by the encrypter: JSON text
   * (represented by the value `json_decode(..., true)` gives for it), text that
   * is not JSON, or the null an encrypter implementation may return.
   */
  datatype Plain = Json(doc: Value) | NotJson | NullText

  /**
   * Stored bytes: a payload the encrypter produced from a plaintext, or any
   * other string (an empty lock marker, a hand-written file, a corrupted row).
   */
  datatype Blob = Cipher(plain: Plain) | Garbage(text: string)

  /** The encrypter, through the one thing the handlers check of it: whether it yields "". */
  datatype Encrypter = Encrypter(yieldsEmpty: Plain -> bool)

  /** The JSON encoder, through the one thing the handlers check of it: whether it reports an error. */
  datatype Codec = Codec(encodes: Value -> bool)

  /** The encrypter's DecryptException. */
  datatype DecryptError = DecryptError

  /** `$encrypter->encrypt($plain, false)`. */
  function Encrypt(e: Encrypter, p: Plain): (b: Blob)
    ensures b.Cipher? <==> !e.yieldsEmpty(p)
    ensures b.Garbage? ==> b.text == ""
  {
    if e.yieldsEmpty(p) then Garbage("") else Cipher(p)
  }

  /** `$encrypter->decrypt($blob, false)`: only what this encrypter sealed decrypts. */
  function Decrypt(b: Blob): (r: Result<Plain, DecryptError>)
    ensures r.Success? <==> b.Cipher?
  {
    match b
    case Cipher(p) => Success(p)
    case Garbage(_) => Failure(DecryptError)
  }

  /** PHP's `empty()` on the stored string; a sealed payload is never empty. */
  predicate IsEmptyText(b: Blob)
  {
    b.Garbage? && IsEmpty(Str(b.text))
  }

  /** `json_encode($v)`; None when `json_last_error()` reports a failure. */
  function JsonEncode(c: Codec, v: Value): (r: Option<Plain>)
    ensures r.Some? <==> c.encodes(v)
  {
    if c.encodes(v) then Some(Json(v)) else None
  }

  /** `json_decode($text, true)`; None when `json_last_error()` reports a failure. */
  function JsonDecode(p: Plain): (r: Option<Value>)
    ensures r.Some? <==> p.Json?
  {
    match p
    case Json(doc) => Some(doc)
    case _ => None
  }

  /** Sealing then opening returns the plaintext, and decoding undoes encoding. */
  lemma SealOpenRoundTrip(e: Encrypter, c: Codec, v: Value)
    requires c.encodes(v) && !e.yieldsEmpty(Json(v))
    ensures JsonEncode(c, v).Some?
    ensures Decrypt(Encrypt(e, JsonEncode(c, v).value)) == Success(Json(v))
    ensures JsonDecode(JsonEncode(c, v).value) == Some(v)
  {
  }
}
