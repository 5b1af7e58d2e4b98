/**
 * What the backends of src/Handler/HandlerInterface.php share: owner ids, the
 * faults an operation raises, the decrypt/decode/construct path that turns a
 * stored payload back into a token, the JSON encoding of a token, and the fold
 * that collects per-item load results into the array the batch operations return.
 */
module Handler {
  import opened Wrappers
  import opened Php
  import opened Collaborators
  import opened TokenModel

  /** `?string $ownerId`: None is PHP's null. */
  type OwnerId = Option<string>

  /** What an operation raises to its caller. */
  datatype Fault =
    | DecryptFailed              // DecryptException from the encrypter
    | InvalidToken(error: TokenError)  // raised while building or serialising a Token
    | JsonEncodeFailed           // JsonException thrown by PdoHandler::saveToken
    | NotWritable                // InvalidArgumentException from the FileHandler constructor
    | BadOption                  // TypeError: a non-string table name given to PdoHandler

  /** A single load: a token, null, or a fault. */
  type LoadResult = Result<Option<TokenFields>, Fault>

  /** A batch load: the tokens collected, or the first fault. */
  type LoadManyResult = Result<seq<TokenFields>, Fault>

  /**
   * Decrypt a stored payload, JSON-decode it and construct a Token from it:
   * a decrypt failure and an invalid token raise, a null plaintext and a JSON
   * error give null.
   */
  function Unseal(b: Blob): (r: LoadResult)
    ensures b.Garbage? ==> r == Failure(DecryptFailed)
    ensures b == Cipher(NullText) || b == Cipher(NotJson) ==> r == Success(None)
    ensures r.Success? && r.value.Some? ==> b.Cipher? && b.plain.Json? && NewToken(b.plain.doc) == Success(r.value.value)
    ensures b.Cipher? && b.plain.Json? && NewToken(b.plain.doc).Failure? ==> r == Failure(InvalidToken(NewToken(b.plain.doc).error))
    ensures b.Cipher? && b.plain.Json? && NewToken(b.plain.doc).Success? ==> r == Success(Some(NewToken(b.plain.doc).value))
  {
    match Decrypt(b)
    case Failure(_) => Failure(DecryptFailed)
    case Success(plain) =>
      if plain == NullText then Success(None)
      else match JsonDecode(plain)
        case None => Success(None)
        case Some(doc) =>
          match NewToken(doc)
          case Failure(e) => Failure(InvalidToken(e))
          case Success(t) => Success(Some(t))
  }

  /**
   * `PdoHandler::dataToToken`, whose steps FileHandler::loadToken repeats inline:
   * decrypt, JSON-decode, `new Token($data)`.
   */
  method DataToToken(b: Blob) returns (r: LoadResult)
    ensures r == Unseal(b)
  {
    var plain := Decrypt(b);
    if plain.Failure? {
      return Failure(DecryptFailed);
    }
    if plain.value == NullText {
      return Success(None);
    }
    var doc := JsonDecode(plain.value);
    if doc.None? {
      return Success(None);
    }
    if !doc.value.Arr? {
      return Failure(InvalidToken(NotAnArray));
    }
    var t := Token.New(doc.value.entries);
    if t.Failure? {
      return Failure(InvalidToken(t.error));
    }
    return Success(Some(t.value.Fields()));
  }

  /** The outcome of `json_encode($token)`. */
  datatype Encoded =
    | Encoded(plain: Plain)        // the JSON text
    | EncodeError                  // json_last_error() reports an error
    | Raised(error: TokenError)    // jsonSerialize() raised

  /** `json_encode($token)`: jsonSerialize builds the array, the codec encodes it. */
  function SerializeToken(c: Codec, f: TokenFields): (r: Encoded)
    ensures r.Raised? <==> ArrayForm(f).Failure?
    ensures r.EncodeError? <==> ArrayForm(f).Success? && !c.encodes(Arr(ArrayForm(f).value))
    ensures r.Encoded? ==> r.plain == Json(Arr(ArrayForm(f).value)) && c.encodes(Arr(ArrayForm(f).value))
  {
    match ArrayForm(f)
    case Failure(e) => Raised(e)
    case Success(a) =>
      match JsonEncode(c, Arr(a))
      case None => EncodeError
      case Some(p) => Encoded(p)
  }

  /** A token survives being stored: complete, encodable, and sealed to a non-empty payload. */
  predicate Storable(e: Encrypter, c: Codec, f: TokenFields)
  {
    Complete(f) && c.encodes(Arr(ArrayForm(f).value)) && !e.yieldsEmpty(Json(Arr(ArrayForm(f).value)))
  }

  /** Opening what saving seals gives back the token that was saved. */
  lemma {:induction false} SealThenUnseal(e: Encrypter, c: Codec, f: TokenFields)
    requires Storable(e, c, f)
    ensures SerializeToken(c, f).Encoded?
    ensures Unseal(Encrypt(e, SerializeToken(c, f).plain)) == Success(Some(f))
  {
    RoundTrip(f);
  }

  /**
   * The loop the batch operations run over their per-item results: append each
   * token, skip each null, stop at the first fault.
   */
  function Gather(outs: seq<LoadResult>): LoadManyResult
    decreases |outs|
  {
    if outs == [] then Success([])
    else
      match Gather(outs[..|outs| - 1])
      case Failure(e) => Failure(e)
      case Success(ts) =>
        match outs[|outs| - 1]
        case Failure(e) => Failure(e)
        case Success(None) => Success(ts)
        case Success(Some(t)) => Success(ts + [t])
  }

  /** Two batch results joined, the first fault winning. */
  function Join(a: LoadManyResult, b: LoadManyResult): LoadManyResult
  {
    match a
    case Failure(e) => Failure(e)
    case Success(xs) =>
      match b
      case Failure(e) => Failure(e)
      case Success(ys) => Success(xs + ys)
  }

  /** A single result gathers to its token, to nothing, or to its fault. */
  lemma GatherOne(o: LoadResult)
    ensures Gather([o]) == match o
      case Failure(e) => Failure(e)
      case Success(None) => Success([])
      case Success(Some(t)) => Success([t])
  {
    assert [o][..0] == [];
    assert Gather([o][..0]) == Success([]);
    match o
    case Failure(_) =>
    case Success(None) =>
    case Success(Some(t)) =>
      assert [] + [t] == [t];
  }

  /** Gathering one more result extends the gathered prefix. */
  lemma GatherSnoc(outs: seq<LoadResult>, o: LoadResult)
    ensures Gather(outs + [o]) == Join(Gather(outs), Gather([o]))
  {
    assert (outs + [o])[..|outs|] == outs;
    assert [o][..0] == [];
    match Gather(outs)
    case Failure(_) =>
    case Success(ts) =>
      var g := Gather([o]);
      assert Gather([o][..0]) == Success([]);
      match o
      case Failure(e) =>
        assert g == Failure(e);
      case Success(None) =>
        assert g == Success([]);
        assert ts + [] == ts;
      case Success(Some(t)) =>
        assert [] + [t] == [t];
        assert g == Success([t]);
        assert Gather(outs + [o]) == Success(ts + [t]);
  }

  /** Joining batch results is associative. */
  lemma JoinAssoc(a: LoadManyResult, b: LoadManyResult, c: LoadManyResult)
    ensures Join(Join(a, b), c) == Join(a, Join(b, c))
  {
    if a.Success? && b.Success? && c.Success? {
      assert (a.value + b.value) + c.value == a.value + (b.value + c.value);
    }
  }

  /** Gathering keeps order and duplicates: it distributes over concatenation. */
  lemma {:induction false} GatherAppend(xs: seq<LoadResult>, ys: seq<LoadResult>)
    ensures Gather(xs + ys) == Join(Gather(xs), Gather(ys))
    decreases |ys|
  {
    if ys == [] {
      assert xs + ys == xs;
      if Gather(xs).Success? {
        assert Gather(xs).value + [] == Gather(xs).value;
      }
    } else {
      var init, last := ys[..|ys| - 1], ys[|ys| - 1];
      assert ys == init + [last];
      assert xs + ys == (xs + init) + [last];
      GatherAppend(xs, init);
      GatherSnoc(xs + init, last);
      GatherSnoc(init, last);
      JoinAssoc(Gather(xs), Gather(init), Gather([last]));
    }
  }

  /** Every token gathered is the token of some item. */
  lemma {:induction false} GatherSound(outs: seq<LoadResult>)
    requires Gather(outs).Success?
    ensures forall t :: t in Gather(outs).value ==> exists i :: 0 <= i < |outs| && outs[i] == Success(Some(t))
    ensures |Gather(outs).value| <= |outs|
    decreases |outs|
  {
    if outs != [] {
      var init := outs[..|outs| - 1];
      GatherSound(init);
      forall t | t in Gather(outs).value
        ensures exists i :: 0 <= i < |outs| && outs[i] == Success(Some(t))
      {
        if t in Gather(init).value {
          var i :| 0 <= i < |init| && init[i] == Success(Some(t));
          assert outs[i] == init[i];
        } else {
          assert outs[|outs| - 1] == Success(Some(t));
        }
      }
    }
  }

  /** A successful gather saw no fault and kept the token of every item that had one. */
  lemma {:induction false} GatherComplete(outs: seq<LoadResult>)
    requires Gather(outs).Success?
    ensures forall i :: 0 <= i < |outs| ==> outs[i].Success?
    ensures forall i :: 0 <= i < |outs| && outs[i].Success? && outs[i].value.Some? ==> outs[i].value.value in Gather(outs).value
    decreases |outs|
  {
    if outs != [] {
      var init := outs[..|outs| - 1];
      GatherComplete(init);
      forall i | 0 <= i < |outs| - 1
        ensures outs[i] == init[i]
      {
      }
    }
  }

  /** A gather faults exactly when some item faults. */
  lemma {:induction false} GatherFaultsIff(outs: seq<LoadResult>)
    ensures Gather(outs).Failure? <==> exists i :: 0 <= i < |outs| && outs[i].Failure?
    decreases |outs|
  {
    if outs != [] {
      var init := outs[..|outs| - 1];
      GatherFaultsIff(init);
      if Gather(init).Failure? {
        var i :| 0 <= i < |init| && init[i].Failure?;
        assert outs[i] == init[i];
      } else if exists i :: 0 <= i < |outs| && outs[i].Failure? {
        forall i | 0 <= i < |outs| - 1
          ensures outs[i] == init[i]
        {
        }
      }
    }
  }

  /** A fault stops the loop: the first faulting item decides the gather. */
  lemma GatherStopsAtFault(outs: seq<LoadResult>, i: nat)
    requires i < |outs| && Gather(outs[..i]).Success? && outs[i].Failure?
    ensures Gather(outs) == Failure(outs[i].error)
  {
    assert outs == outs[..i] + ([outs[i]] + outs[i + 1..]);
    GatherAppend(outs[..i], [outs[i]] + outs[i + 1..]);
    GatherAppend([outs[i]], outs[i + 1..]);
    assert Gather([outs[i]]) == Failure(outs[i].error) by {
      assert [outs[i]][..0] == [];
    }
  }

  /** `xs` lists every element of `s` exactly once. */
  ghost predicate Enumerates(xs: seq<string>, s: set<string>)
  {
    && |xs| == |s|
    && (forall i, j :: 0 <= i < j < |xs| ==> xs[i] != xs[j])
    && (forall x :: x in xs <==> x in s)
  }

  /** A listing of a finite set in some order (the order of a directory listing or of a result set). */
  method Enumerate(s: set<string>) returns (xs: seq<string>)
    ensures Enumerates(xs, s)
  {
    xs := [];
    var rest := s;
    while rest != {}
      invariant rest <= s
      invariant forall x :: x in xs <==> x in s - rest
      invariant forall i, j :: 0 <= i < j < |xs| ==> xs[i] != xs[j]
      invariant |xs| + |rest| == |s|
      decreases |rest|
    {
      var x :| x in rest;
      assert x !in xs;
      ghost var before := xs;
      xs := xs + [x];
      assert forall y :: y in xs <==> y in before || y == x;
      assert forall i :: 0 <= i < |before| ==> xs[i] == before[i] && xs[i] != x;
      rest := rest - {x};
    }
  }
}
