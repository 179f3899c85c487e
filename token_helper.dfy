/** Access-token creation and decoding. The JWT codec and the clock are not
    interpreted: encoding and decoding are function parameters and the
    current time is an argument. */
module TokenHelpers {
  import opened Base
  import opened Text
  import opened Dicts

  /** A configured helper: signing secret, algorithm name, token lifetime. */
  datatype TokenHelper = TokenHelper(secretKey: string, algo: string, accessTokenExpireMinutes: int)

  const DefaultExpireMinutes := 30
  const SecretKeyMissing := ValueError("secret_key must be defined.")
  const AlgoMissing := ValueError("algo must be defined.")
  const SubMissing := CredentialNotInJwtError("Expected 'sub' credential in the payload, but it was not found.")

  /** `jwt.encode(claims, secret, algorithm)`, which may raise. */
  type Encoder = (Dict, string, string) -> Result<string>
  /** `jwt.decode(token, secret, algorithms=[algo])`, which may raise. */
  type Decoder = (string, string, string) -> Result<Dict>

  /** `TokenHelper(secret_key, algo, access_token_expire_minutes=30)`:
      `None` or a whitespace-only secret raises, then the same for the
      algorithm; the empty string is accepted for both. */
  function NewTokenHelper(secretKey: Option<string>, algo: Option<string>,
                          accessTokenExpireMinutes: int := DefaultExpireMinutes): (r: Result<TokenHelper>)
    ensures r.Success? <==> secretKey.Some? && !IsSpace(secretKey.value) && algo.Some? && !IsSpace(algo.value)
    ensures (secretKey.None? || IsSpace(secretKey.value)) ==> r == Failure(SecretKeyMissing)
    ensures (secretKey.Some? && !IsSpace(secretKey.value) && (algo.None? || IsSpace(algo.value))) ==>
      r == Failure(AlgoMissing)
    ensures r.Success? ==> r.value.secretKey == secretKey.value && r.value.algo == algo.value &&
                           r.value.accessTokenExpireMinutes == accessTokenExpireMinutes
  {
    if secretKey.None? || IsSpace(secretKey.value) then Failure(SecretKeyMissing)
    else if algo.None? || IsSpace(algo.value) then Failure(AlgoMissing)
    else Success(TokenHelper(secretKey.value, algo.value, accessTokenExpireMinutes))
  }

  /** The claims `create_access_token` encodes: a copy of `data`, plus
      `"exp"` set to `now` and the lifetime in minutes when `expires`. */
  function Claims(helper: TokenHelper, data: Dict, expires: bool, now: int): (r: Dict)
    ensures !expires ==> r == data
    ensures expires ==> Get(r, "exp") == Some(DateTime(now + 60 * helper.accessTokenExpireMinutes))
    ensures expires ==> Keys(r) == if "exp" in Keys(data) then Keys(data) else Keys(data) + ["exp"]
    ensures forall k :: k != "exp" ==> Get(r, k) == Get(data, k)
  {
    if expires then Set(data, "exp", DateTime(now + 60 * helper.accessTokenExpireMinutes)) else data
  }

  /** `create_access_token(data, expires=True)`: the caller's dictionary is
      copied before `"exp"` is added, so it is left as it was (dictionaries
      are values here); `None` data fails on the copy. */
  method CreateAccessToken(helper: TokenHelper, data: Option<Dict>, expires: bool, now: int, encode: Encoder)
    returns (r: Result<string>)
    ensures data.None? ==> r == Failure(AttributeError("'NoneType' object has no attribute 'copy'"))
    ensures data.Some? ==> r == encode(Claims(helper, data.value, expires, now), helper.secretKey, helper.algo)
  {
    if data.None? {
      return Failure(AttributeError("'NoneType' object has no attribute 'copy'"));
    }
    var toEncode := data.value;
    if expires {
      var expire := DateTime(now + 60 * helper.accessTokenExpireMinutes);
      toEncode := Set(toEncode, "exp", expire);
    }
    r := encode(toEncode, helper.secretKey, helper.algo);
  }

  /** Python's name for the type of a non-string claim. */
  function TypeName(v: Value): string {
    match v
    case Null => "NoneType"
    case Bool(_) => "bool"
    case Int(_) => "int"
    case Str(_) => "str"
    case Dec(_) => "decimal.Decimal"
    case DateTime(_) => "datetime.datetime"
  }

  /** `decode_access_token(token)`: decoding errors are re-raised; a missing
      or `None` `"sub"` claim, or a whitespace-only one, raises
      `CredentialNotInJwtError`; an empty `"sub"` passes; a claim that is not
      a string fails on `isspace`. The claim is returned unchanged. */
  function DecodeAccessToken(helper: TokenHelper, token: string, decode: Decoder): (r: Result<string>)
    ensures decode(token, helper.secretKey, helper.algo).Failure? ==>
      r == Failure(decode(token, helper.secretKey, helper.algo).error)
    ensures r.Success? <==> decode(token, helper.secretKey, helper.algo).Success? &&
                            exists s :: Get(decode(token, helper.secretKey, helper.algo).value, "sub") == Some(Str(s)) &&
                                        !IsSpace(s)
    ensures r.Success? ==> Get(decode(token, helper.secretKey, helper.algo).value, "sub") == Some(Str(r.value))
    ensures (decode(token, helper.secretKey, helper.algo).Success? &&
             Get(decode(token, helper.secretKey, helper.algo).value, "sub") in {None, Some(Null)}) ==>
      r == Failure(SubMissing)
    ensures decode(token, helper.secretKey, helper.algo).Success? ==>
      var sub := Get(decode(token, helper.secretKey, helper.algo).value, "sub");
      (sub.Some? && sub.value.Str? && IsSpace(sub.value.s) ==> r == Failure(SubMissing)) &&
      (sub.Some? && !sub.value.Null? && !sub.value.Str? ==>
         r == Failure(AttributeError("'" + TypeName(sub.value) + "' object has no attribute 'isspace'")))
  {
    var payload :- decode(token, helper.secretKey, helper.algo);
    match Get(payload, "sub")
    case None => Failure(SubMissing)
    case Some(Null) => Failure(SubMissing)
    case Some(Str(s)) => if IsSpace(s) then Failure(SubMissing) else Success(s)
    case Some(v) => Failure(AttributeError("'" + TypeName(v) + "' object has no attribute 'isspace'"))
  }

  /** A token made from claims carrying a usable `"sub"` decodes back to that
      subject, whenever the codec returns what it was given. */
  lemma SubjectRoundTrip(helper: TokenHelper, data: Dict, expires: bool, now: int,
                         encode: Encoder, decode: Decoder, subject: string)
    requires Get(data, "sub") == Some(Str(subject)) && !IsSpace(subject)
    requires encode(Claims(helper, data, expires, now), helper.secretKey, helper.algo).Success?
    requires decode(encode(Claims(helper, data, expires, now), helper.secretKey, helper.algo).value,
                    helper.secretKey, helper.algo) == Success(Claims(helper, data, expires, now))
    ensures DecodeAccessToken(helper, encode(Claims(helper, data, expires, now), helper.secretKey, helper.algo).value,
                              decode) == Success(subject)
  {
    assert Get(Claims(helper, data, expires, now), "sub") == Get(data, "sub");
  }
}
