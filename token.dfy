/**
 * The token record of src/Model/Token.php: four typed properties, filled from a
 * PHP array by `fromArray` (PHP's `empty()` rule decides what is missing) and
 * exported by `toArray`/`jsonSerialize`.
 *
 * A property that was never assigned is `None`: reading it raises PHP's Error
 * ("must not be accessed before initialization"). `refreshToken` is nullable and
 * starts out null, which is also `None`.
 */
module TokenModel {
  import opened Wrappers
  import opened Php

  /** The four properties, named by the keys of the array form. */
  datatype Prop = TokenProp | RefreshTokenProp | ExpiresProp | OwnerIdProp

  /** The array key of a property (the PROP_* constants). */
  function Key(p: Prop): string
  {
    match p
    case TokenProp => "token"
    case RefreshTokenProp => "refreshToken"
    case ExpiresProp => "expires"
    case OwnerIdProp => "ownerId"
  }

  /** The properties `fromArray` requires, in the order it checks them. */
  const Required: seq<Prop> := [TokenProp, ExpiresProp, OwnerIdProp]

  /** The properties `toArray` exports, in the order it writes them. */
  const Exported: seq<Prop> := [TokenProp, RefreshTokenProp, ExpiresProp, OwnerIdProp]

  /** What the token code raises. */
  datatype TokenError =
    | MissingRequired(prop: Prop)  // InvalidArgumentException from fromArray
    | WrongType(prop: Prop)        // TypeError: value of the wrong type for a typed property (strict_types)
    | Uninitialized(prop: Prop)    // Error: typed property read before it was assigned
    | ExpiresNotSet                // RuntimeException from hasExpired
    | NotAnArray                   // TypeError: the constructor was given something other than an array

  /** The state of a Token object. */
  datatype TokenFields = TokenFields(
    token: Option<string>,
    refreshToken: Option<string>,
    expires: Option<int>,
    ownerId: Option<string>)

  /** A freshly allocated Token: nothing assigned, refreshToken null. */
  const Blank := TokenFields(None, None, None, None)

  /** The field values a token must hold for `fromArray(toArray())` to reproduce it. */
  predicate Complete(f: TokenFields)
  {
    && f.token.Some? && !IsEmpty(Str(f.token.value))
    && f.expires.Some? && f.expires.value != 0
    && f.ownerId.Some? && !IsEmpty(Str(f.ownerId.value))
    && (f.refreshToken.Some? ==> !IsEmpty(Str(f.refreshToken.value)))
  }

  /** `$this->{$prop} = $v` under strict_types: only a value of the property's type is accepted. */
  function Assigned(f: TokenFields, p: Prop, v: Value): (r: Result<TokenFields, TokenError>)
  {
    match (p, v)
    case (TokenProp, Str(s)) => Success(f.(token := Some(s)))
    case (RefreshTokenProp, Str(s)) => Success(f.(refreshToken := Some(s)))
    case (RefreshTokenProp, Null) => Success(f.(refreshToken := None))
    case (ExpiresProp, Int(i)) => Success(f.(expires := Some(i)))
    case (OwnerIdProp, Str(s)) => Success(f.(ownerId := Some(s)))
    case _ => Failure(WrongType(p))
  }

  /** The property values after a `fromArray` call, and the error it raised, if any. */
  datatype Applied = Applied(fields: TokenFields, error: Option<TokenError>)

  /** The required-property loop of `fromArray`: check one property, assign it, go on. */
  function ApplyRequired(f: TokenFields, data: PhpArray, props: seq<Prop>): Applied
    decreases |props|
  {
    if props == [] then Applied(f, None)
    else
      var v := Lookup(data, Key(props[0]));
      if IsEmpty(v) then Applied(f, Some(MissingRequired(props[0])))
      else match Assigned(f, props[0], v)
        case Failure(e) => Applied(f, Some(e))
        case Success(g) => ApplyRequired(g, data, props[1..])
  }

  /** The required-property values fromArray accepts: present, non-empty, of the right type. */
  predicate Acceptable(data: PhpArray)
  {
    && Lookup(data, "token").Str? && !IsEmpty(Lookup(data, "token"))
    && Lookup(data, "expires").Int? && !IsEmpty(Lookup(data, "expires"))
    && Lookup(data, "ownerId").Str? && !IsEmpty(Lookup(data, "ownerId"))
  }

  /**
   * `fromArray($data)` applied to a token in state `f`. Required properties are
   * checked and assigned one by one, so a failure keeps the ones assigned before
   * it; refreshToken is copied only when non-empty.
   */
  function ApplyArray(f: TokenFields, data: PhpArray): (r: Applied)
    ensures r.error.None? ==> Acceptable(data)
    ensures IsEmpty(Lookup(data, "token")) ==> r == Applied(f, Some(MissingRequired(TokenProp)))
    ensures IsEmpty(Lookup(data, "refreshToken")) ==> r.fields.refreshToken == f.refreshToken
    ensures r.error.None? && !IsEmpty(Lookup(data, "refreshToken")) ==>
      Lookup(data, "refreshToken").Str? && r.fields.refreshToken == Some(Lookup(data, "refreshToken").s)
    ensures r.error.None? ==>
      && r.fields.token == Some(Lookup(data, "token").s)
      && r.fields.expires == Some(Lookup(data, "expires").i)
      && r.fields.ownerId == Some(Lookup(data, "ownerId").s)
  {
    var a := ApplyRequired(f, data, Required);
    if a.error.Some? then a
    else
      var v := Lookup(data, Key(RefreshTokenProp));
      if IsEmpty(v) then a
      else match Assigned(a.fields, RefreshTokenProp, v)
        case Failure(e) => Applied(a.fields, Some(e))
        case Success(g) => Applied(g, None)
  }

  /** `new Token($data)`: an empty array assigns nothing, any other array goes through fromArray. */
  function NewToken(data: Value): (r: Result<TokenFields, TokenError>)
    ensures data == Arr(map[]) ==> r == Success(Blank)
    ensures !data.Arr? ==> r == Failure(NotAnArray)
    ensures data.Arr? && data.entries != map[] ==>
      (r.Success? <==>
        && Acceptable(data.entries)
        && (IsEmpty(Lookup(data.entries, "refreshToken")) || Lookup(data.entries, "refreshToken").Str?))
    ensures r.Success? && data != Arr(map[]) ==>
      && r.value.token == Some(Lookup(data.entries, "token").s)
      && r.value.expires == Some(Lookup(data.entries, "expires").i)
      && r.value.ownerId == Some(Lookup(data.entries, "ownerId").s)
      && r.value.refreshToken ==
        (if IsEmpty(Lookup(data.entries, "refreshToken")) then None else Some(Lookup(data.entries, "refreshToken").s))
  {
    match data
    case Arr(m) =>
      if m == map[] then Success(Blank)
      else
        ApplyArraySucceedsIff(Blank, m);
        var a := ApplyArray(Blank, m);
        if a.error.Some? then Failure(a.error.value) else Success(a.fields)
    case _ => Failure(NotAnArray)
  }

  /** Reading one property for the array form. */
  function ReadProp(f: TokenFields, p: Prop): Result<Value, TokenError>
  {
    match p
    case TokenProp => if f.token.Some? then Success(Str(f.token.value)) else Failure(Uninitialized(p))
    case RefreshTokenProp => if f.refreshToken.Some? then Success(Str(f.refreshToken.value)) else Success(Null)
    case ExpiresProp => if f.expires.Some? then Success(Int(f.expires.value)) else Failure(Uninitialized(p))
    case OwnerIdProp => if f.ownerId.Some? then Success(Str(f.ownerId.value)) else Failure(Uninitialized(p))
  }

  /** The array `toArray` has built after writing the given properties, in order. */
  function BuildArray(f: TokenFields, props: seq<Prop>): Result<PhpArray, TokenError>
    decreases |props|
  {
    if props == [] then Success(map[])
    else
      var last := props[|props| - 1];
      match BuildArray(f, props[..|props| - 1])
      case Failure(e) => Failure(e)
      case Success(a) =>
        match ReadProp(f, last)
        case Failure(e) => Failure(e)
        case Success(v) => Success(a[Key(last) := v])
  }

  /** `toArray()` (and `jsonSerialize()`): exactly the four keys, holding the current values. */
  function ArrayForm(f: TokenFields): (r: Result<PhpArray, TokenError>)
    ensures r.Success? <==> f.token.Some? && f.expires.Some? && f.ownerId.Some?
    ensures f.token.None? ==> r == Failure(Uninitialized(TokenProp))
    ensures f.token.Some? && f.expires.None? ==> r == Failure(Uninitialized(ExpiresProp))
    ensures f.token.Some? && f.expires.Some? && f.ownerId.None? ==> r == Failure(Uninitialized(OwnerIdProp))
    ensures r.Success? ==>
      && r.value.Keys == {"token", "refreshToken", "expires", "ownerId"}
      && r.value["token"] == Str(f.token.value)
      && r.value["refreshToken"] == (if f.refreshToken.Some? then Str(f.refreshToken.value) else Null)
      && r.value["expires"] == Int(f.expires.value)
      && r.value["ownerId"] == Str(f.ownerId.value)
  {
    BuildArrayPrefixes(f);
    BuildArray(f, Exported)
  }

  /** Unfolds the four steps of the toArray loop. */
  lemma BuildArrayPrefixes(f: TokenFields)
    ensures BuildArray(f, Exported[..1]) ==
      if f.token.None? then Failure(Uninitialized(TokenProp)) else Success(map["token" := Str(f.token.value)])
    ensures BuildArray(f, Exported[..2]) ==
      if f.token.None? then Failure(Uninitialized(TokenProp))
      else Success(map["token" := Str(f.token.value),
                       "refreshToken" := if f.refreshToken.Some? then Str(f.refreshToken.value) else Null])
    ensures BuildArray(f, Exported[..3]) ==
      if f.token.None? then Failure(Uninitialized(TokenProp))
      else if f.expires.None? then Failure(Uninitialized(ExpiresProp))
      else Success(map["token" := Str(f.token.value),
                       "refreshToken" := if f.refreshToken.Some? then Str(f.refreshToken.value) else Null,
                       "expires" := Int(f.expires.value)])
    ensures BuildArray(f, Exported) ==
      if f.token.None? then Failure(Uninitialized(TokenProp))
      else if f.expires.None? then Failure(Uninitialized(ExpiresProp))
      else if f.ownerId.None? then Failure(Uninitialized(OwnerIdProp))
      else Success(map["token" := Str(f.token.value),
                       "refreshToken" := if f.refreshToken.Some? then Str(f.refreshToken.value) else Null,
                       "expires" := Int(f.expires.value),
                       "ownerId" := Str(f.ownerId.value)])
  {
    assert Exported[..1][..0] == [];
    assert Exported[..2][..1] == Exported[..1];
    assert Exported[..3][..2] == Exported[..2];
    assert Exported[..3] == Exported[..|Exported| - 1];
  }

  /** The array form read back by fromArray reproduces every complete token. */
  lemma RoundTrip(f: TokenFields)
    requires Complete(f)
    ensures ArrayForm(f).Success?
    ensures ApplyArray(Blank, ArrayForm(f).value) == Applied(f, None)
    ensures NewToken(Arr(ArrayForm(f).value)) == Success(f)
  {
    var a := ArrayForm(f).value;
    assert Required[1..] == [ExpiresProp, OwnerIdProp];
    assert Required[1..][1..] == [OwnerIdProp];
    var g1 := Blank.(token := f.token);
    var g2 := g1.(expires := f.expires);
    var g3 := g2.(ownerId := f.ownerId);
    assert ApplyRequired(g3, a, []) == Applied(g3, None);
    assert ApplyRequired(Blank, a, Required) == Applied(g3, None);
    assert "token" in a;
  }

  /** A refresh token that PHP considers empty ("" or "0") does not survive the round trip. */
  lemma EmptyRefreshTokenLost(f: TokenFields)
    requires Complete(f.(refreshToken := None))
    requires f.refreshToken == Some("") || f.refreshToken == Some("0")
    ensures ArrayForm(f).Success?
    ensures NewToken(Arr(ArrayForm(f).value)) == Success(f.(refreshToken := None))
  {
    var g := f.(refreshToken := None);
    RoundTrip(g);
    var a := ArrayForm(f).value;
    assert a == ArrayForm(g).value[Key(RefreshTokenProp) := Str(f.refreshToken.value)];
    assert forall k :: k in {"token", "expires", "ownerId"} ==> Lookup(a, k) == Lookup(ArrayForm(g).value, k);
    assert ApplyRequired(Blank, a, Required) == ApplyRequired(Blank, ArrayForm(g).value, Required) by {
      ApplyRequiredReadsOnly(Blank, a, ArrayForm(g).value, Required);
    }
  }

  /** fromArray's required-property loop sees only the keys of the properties it checks. */
  lemma {:induction false} ApplyRequiredReadsOnly(f: TokenFields, a: PhpArray, b: PhpArray, props: seq<Prop>)
    requires forall i :: 0 <= i < |props| ==> Lookup(a, Key(props[i])) == Lookup(b, Key(props[i]))
    ensures ApplyRequired(f, a, props) == ApplyRequired(f, b, props)
    decreases |props|
  {
    if props != [] {
      var v := Lookup(a, Key(props[0]));
      if !IsEmpty(v) && Assigned(f, props[0], v).Success? {
        ApplyRequiredReadsOnly(Assigned(f, props[0], v).value, a, b, props[1..]);
      }
    }
  }

  /** The order of fromArray's checks: a failure keeps the properties assigned before it. */
  lemma ApplyArrayCheckOrder(f: TokenFields, data: PhpArray)
    ensures var t := Lookup(data, "token");
      t.Str? && !IsEmpty(t) && IsEmpty(Lookup(data, "expires")) ==>
        ApplyArray(f, data) == Applied(f.(token := Some(t.s)), Some(MissingRequired(ExpiresProp)))
    ensures var t := Lookup(data, "token"); var e := Lookup(data, "expires");
      t.Str? && !IsEmpty(t) && e.Int? && !IsEmpty(e) && IsEmpty(Lookup(data, "ownerId")) ==>
        ApplyArray(f, data) == Applied(f.(token := Some(t.s), expires := Some(e.i)), Some(MissingRequired(OwnerIdProp)))
    ensures var t := Lookup(data, "token");
      !IsEmpty(t) && !t.Str? ==> ApplyArray(f, data) == Applied(f, Some(WrongType(TokenProp)))
    ensures var t := Lookup(data, "token"); var e := Lookup(data, "expires");
      t.Str? && !IsEmpty(t) && !IsEmpty(e) && !e.Int? ==>
        ApplyArray(f, data) == Applied(f.(token := Some(t.s)), Some(WrongType(ExpiresProp)))
    ensures var t := Lookup(data, "token"); var e := Lookup(data, "expires"); var o := Lookup(data, "ownerId");
      t.Str? && !IsEmpty(t) && e.Int? && !IsEmpty(e) && !IsEmpty(o) && !o.Str? ==>
        ApplyArray(f, data) == Applied(f.(token := Some(t.s), expires := Some(e.i)), Some(WrongType(OwnerIdProp)))
  {
    assert Required[1..] == [ExpiresProp, OwnerIdProp];
    assert Required[1..][1..] == [OwnerIdProp];
  }

  /** fromArray succeeds exactly when the three required values are present, non-empty and well typed,
      and refreshToken is empty or a string. */
  lemma ApplyArraySucceedsIff(f: TokenFields, data: PhpArray)
    ensures ApplyArray(f, data).error.None? <==>
      Acceptable(data) && (IsEmpty(Lookup(data, "refreshToken")) || Lookup(data, "refreshToken").Str?)
  {
    assert Required[1..] == [ExpiresProp, OwnerIdProp];
    assert Required[1..][1..] == [OwnerIdProp];
  }

  /** A Token object (src/Model/Token.php); `Fields()` is its state. */
  class Token {
    var token: Option<string>
    var refreshToken: Option<string>
    var expires: Option<int>
    var ownerId: Option<string>

    function Fields(): TokenFields
      reads this
    {
      TokenFields(token, refreshToken, expires, ownerId)
    }

    /** `new Token()`: with the default empty array nothing is validated or assigned. */
    constructor ()
      ensures Fields() == Blank
    {
      token, refreshToken, expires, ownerId := None, None, None, None;
    }

    /** `new Token($data)`: fromArray runs only for a non-empty array, and its error aborts construction. */
    static method New(data: PhpArray) returns (r: Result<Token, TokenError>)
      ensures r.Success? <==> NewToken(Arr(data)).Success?
      ensures r.Success? ==> fresh(r.value) && r.value.Fields() == NewToken(Arr(data)).value
      ensures r.Failure? ==> r.error == NewToken(Arr(data)).error
    {
      var t := new Token();
      if data != map[] {
        var err := t.FromArray(data);
        if err.Some? {
          return Failure(err.value);
        }
      }
      return Success(t);
    }

    /** `$this->{$prop} = $v` under strict_types. */
    method Write(p: Prop, v: Value) returns (err: Option<TokenError>)
      modifies this
      ensures var r := Assigned(old(Fields()), p, v);
        if r.Success? then err.None? && Fields() == r.value else err == Some(r.error) && Fields() == old(Fields())
    {
      match (p, v)
      case (TokenProp, Str(s)) => token := Some(s); err := None;
      case (RefreshTokenProp, Str(s)) => refreshToken := Some(s); err := None;
      case (RefreshTokenProp, Null) => refreshToken := None; err := None;
      case (ExpiresProp, Int(i)) => expires := Some(i); err := None;
      case (OwnerIdProp, Str(s)) => ownerId := Some(s); err := None;
      case _ => err := Some(WrongType(p));
    }

    /** `fromArray($data)`: the loop over the required properties, then the optional refresh token. */
    method FromArray(data: PhpArray) returns (err: Option<TokenError>)
      modifies this
      ensures Applied(Fields(), err) == ApplyArray(old(Fields()), data)
    {
      var i := 0;
      while i < |Required|
        invariant 0 <= i <= |Required|
        invariant ApplyRequired(Fields(), data, Required[i..]) == ApplyRequired(old(Fields()), data, Required)
      {
        var p := Required[i];
        var v := Lookup(data, Key(p));
        if IsEmpty(v) {
          return Some(MissingRequired(p));
        }
        err := Write(p, v);
        if err.Some? {
          return;
        }
        assert Required[i..][1..] == Required[i + 1..];
        i := i + 1;
      }
      err := None;
      var v := Lookup(data, Key(RefreshTokenProp));
      if !IsEmpty(v) {
        err := Write(RefreshTokenProp, v);
      }
    }

    /** `toArray()`: the loop copying each exported property into the result. */
    method ToArray() returns (r: Result<PhpArray, TokenError>)
      ensures r == ArrayForm(Fields())
    {
      BuildArrayPrefixes(Fields());
      var data: PhpArray := map[];
      for i := 0 to |Exported|
        invariant BuildArray(Fields(), Exported[..i]) == Success(data)
      {
        var p := Exported[i];
        var v := ReadProp(Fields(), p);
        if v.Failure? {
          return Failure(v.error);
        }
        assert Exported[..i + 1][..i] == Exported[..i];
        data := data[Key(p) := v.value];
      }
      assert Exported[..|Exported|] == Exported;
      r := Success(data);
    }

    /** `jsonSerialize()`: the same array as toArray. */
    method JsonSerialize() returns (r: Result<PhpArray, TokenError>)
      ensures r == ArrayForm(Fields())
    {
      r := ToArray();
    }

    /** `hasExpired()` at time `now`: strictly before now; raises when expires is unset or 0. */
    function HasExpired(now: int): (r: Result<bool, TokenError>)
      reads this
      ensures expires.None? ==> r == Failure(Uninitialized(ExpiresProp))
      ensures expires == Some(0) ==> r == Failure(ExpiresNotSet)
      ensures r.Success? <==> expires.Some? && expires.value != 0
      ensures r.Success? ==> (r.value <==> expires.value < now)
    {
      if expires.None? then Failure(Uninitialized(ExpiresProp))
      else if IsEmpty(Int(expires.value)) then Failure(ExpiresNotSet)
      else Success(expires.value < now)
    }

    /** `getToken()`. */
    function GetToken(): (r: Result<string, TokenError>)
      reads this
      ensures r.Success? <==> token.Some?
      ensures r.Success? ==> r.value == token.value
    {
      if token.Some? then Success(token.value) else Failure(Uninitialized(TokenProp))
    }

    /** `getRefreshToken()`: declared to return a string, so a null refresh token is a TypeError. */
    function GetRefreshToken(): (r: Result<string, TokenError>)
      reads this
      ensures r.Success? <==> refreshToken.Some?
      ensures r.Success? ==> r.value == refreshToken.value
      ensures r.Failure? ==> r.error == WrongType(RefreshTokenProp)
    {
      if refreshToken.Some? then Success(refreshToken.value) else Failure(WrongType(RefreshTokenProp))
    }

    /** `getExpires()`. */
    function GetExpires(): (r: Result<int, TokenError>)
      reads this
      ensures r.Success? <==> expires.Some?
      ensures r.Success? ==> r.value == expires.value
    {
      if expires.Some? then Success(expires.value) else Failure(Uninitialized(ExpiresProp))
    }

    /** `getOwnerId()`. */
    function GetOwnerId(): (r: Result<string, TokenError>)
      reads this
      ensures r.Success? <==> ownerId.Some?
      ensures r.Success? ==> r.value == ownerId.value
    {
      if ownerId.Some? then Success(ownerId.value) else Failure(Uninitialized(OwnerIdProp))
    }

    /** `setToken($token)`: changes that one property, without validation. */
    method SetToken(v: string)
      modifies this
      ensures Fields() == old(Fields()).(token := Some(v))
    {
      token := Some(v);
    }

    /** `setRefreshToken($refreshToken)`. */
    method SetRefreshToken(v: string)
      modifies this
      ensures Fields() == old(Fields()).(refreshToken := Some(v))
    {
      refreshToken := Some(v);
    }

    /** `setExpires($expires)`. */
    method SetExpires(v: int)
      modifies this
      ensures Fields() == old(Fields()).(expires := Some(v))
    {
      expires := Some(v);
    }

    /** `setOwnerId($ownerId)`. */
    method SetOwnerId(v: string)
      modifies this
      ensures Fields() == old(Fields()).(ownerId := Some(v))
    {
      ownerId := Some(v);
    }
  }
}
