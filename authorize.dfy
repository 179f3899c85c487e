/** The access gate in front of the routes: the bearer token is taken from
    the `Authorization` header, its subject decoded, and the subject looked up
    in the users container under its derived user id. */
module Authorize {
  import opened Base
  import opened Text
  import opened TokenHelpers
  import opened Users
  import opened DbServices

  const HeaderMissing := KeyError("Authorization")
  const NoToken := IndexError("list index out of range")
  const Unauthorized := HttpException(403, "Unauthorized.")
  const CannotProcess := HttpException(500, "Authorization token cannot be processed.")

  /** The lookup `authorize_access` performs for a decoded subject: the id of
      `User(subject, "_")` and the subject itself as partition key. */
  function UserLookup(subject: string): (r: Result<ItemKey>)
    ensures r.Success? <==> !IsBlank(Some(subject))
    ensures r.Success? ==> r.value.partitionKey == subject &&
                           r.value.id == Users.CollectionName + "::" + ToLower(RemoveWhitespace(subject))
    ensures r.Success? ==> ValidateIdAndPartitionKey(Some(r.value.id), Some(r.value.partitionKey)).Pass?
  {
    assert !IsWhitespace("_"[0]);
    var id :- NewUserId(Some(subject), Some("_"));
    assert id[0] == 'u' && !IsWhitespace(id[0]);
    Success(ItemKey(id, subject))
  }

  /** The body of the `try` in `authorize_access`: what it returns or raises
      before the blanket handler sees it. */
  function AuthorizeTry(header: Option<string>, helper: TokenHelper, decode: Decoder, usersDb: DbService)
    : (r: Result<string>)
    reads usersDb
    ensures header.None? ==> r == Failure(HeaderMissing)
    ensures header.Some? && |Split(header.value)| < 2 ==> r == Failure(NoToken)
    ensures r.Success? ==>
      header.Some? && |Split(header.value)| >= 2 &&
      DecodeAccessToken(helper, Split(header.value)[1], decode) == Success(r.value) &&
      UserLookup(r.value).Success? &&
      GetResult(usersDb.Connected(), usersDb.items, Some(UserLookup(r.value).value.id), Some(r.value)).Success? &&
      GetResult(usersDb.Connected(), usersDb.items, Some(UserLookup(r.value).value.id), Some(r.value)).value.Some?
    ensures (header.Some? && |Split(header.value)| >= 2 &&
             DecodeAccessToken(helper, Split(header.value)[1], decode).Success? &&
             UserLookup(DecodeAccessToken(helper, Split(header.value)[1], decode).value).Success? &&
             usersDb.Connected() &&
             UserLookup(DecodeAccessToken(helper, Split(header.value)[1], decode).value).value !in usersDb.items) ==>
      r == Failure(Unauthorized)
  {
    if header.None? then Failure(HeaderMissing)
    else
      var words := Split(header.value);
      if |words| < 2 then Failure(NoToken)
      else
        var subject :- DecodeAccessToken(helper, words[1], decode);
        var key :- UserLookup(subject);
        var record :- GetResult(usersDb.Connected(), usersDb.items, Some(key.id), Some(key.partitionKey));
        if record.None? then Failure(Unauthorized) else Success(subject)
  }

  /** `authorize_access` as written: the blanket `except` turns every
      failure of the body, the intended 403 included, into a 500. */
  function AuthorizeAccess(header: Option<string>, helper: TokenHelper, decode: Decoder, usersDb: DbService)
    : (r: Result<string>)
    reads usersDb
    ensures r.Success? <==> AuthorizeTry(header, helper, decode, usersDb).Success?
    ensures r.Success? ==> r.value == AuthorizeTry(header, helper, decode, usersDb).value
    ensures r.Failure? ==> r.error == CannotProcess
  {
    match AuthorizeTry(header, helper, decode, usersDb)
    case Success(subject) => Success(subject)
    case Failure(_) => Failure(CannotProcess)
  }

  /** An unknown user is answered with 500, not the documented 403. */
  lemma UnknownUserGets500(header: string, helper: TokenHelper, decode: Decoder, usersDb: DbService)
    requires |Split(header)| >= 2
    requires DecodeAccessToken(helper, Split(header)[1], decode).Success?
    requires UserLookup(DecodeAccessToken(helper, Split(header)[1], decode).value).Success?
    requires usersDb.Connected()
    requires UserLookup(DecodeAccessToken(helper, Split(header)[1], decode).value).value !in usersDb.items
    ensures AuthorizeTry(Some(header), helper, decode, usersDb) == Failure(Unauthorized)
    ensures AuthorizeAccess(Some(header), helper, decode, usersDb) == Failure(CannotProcess)
    ensures AuthorizeAccess(Some(header), helper, decode, usersDb) != Failure(Unauthorized)
  {
  }

  /** `authorize_access` as documented: a 403 raised by the body reaches the
      caller; every other failure becomes a 500. */
  function AuthorizeAccessFixed(header: Option<string>, helper: TokenHelper, decode: Decoder, usersDb: DbService)
    : (r: Result<string>)
    reads usersDb
    ensures r.Success? <==> AuthorizeTry(header, helper, decode, usersDb).Success?
    ensures r.Success? ==> r.value == AuthorizeTry(header, helper, decode, usersDb).value
    ensures r.Failure? ==> r.error in {Unauthorized, CannotProcess}
    ensures r == Failure(Unauthorized) <==> AuthorizeTry(header, helper, decode, usersDb) == Failure(Unauthorized)
  {
    match AuthorizeTry(header, helper, decode, usersDb)
    case Success(subject) => Success(subject)
    case Failure(e) => if e == Unauthorized then Failure(Unauthorized) else Failure(CannotProcess)
  }

  /** With the fix, an unknown user is answered with 403. */
  lemma UnknownUserGets403Fixed(header: string, helper: TokenHelper, decode: Decoder, usersDb: DbService)
    requires |Split(header)| >= 2
    requires DecodeAccessToken(helper, Split(header)[1], decode).Success?
    requires UserLookup(DecodeAccessToken(helper, Split(header)[1], decode).value).Success?
    requires usersDb.Connected()
    requires UserLookup(DecodeAccessToken(helper, Split(header)[1], decode).value).value !in usersDb.items
    ensures AuthorizeAccessFixed(Some(header), helper, decode, usersDb) == Failure(Unauthorized)
  {
  }

  /** A known user gets through, with the decoded subject returned unchanged. */
  lemma KnownUserAdmitted(header: string, helper: TokenHelper, decode: Decoder, usersDb: DbService)
    requires |Split(header)| >= 2
    requires DecodeAccessToken(helper, Split(header)[1], decode).Success?
    requires UserLookup(DecodeAccessToken(helper, Split(header)[1], decode).value).Success?
    requires usersDb.Connected()
    requires UserLookup(DecodeAccessToken(helper, Split(header)[1], decode).value).value in usersDb.items
    requires Json.Serialisable(usersDb.items[UserLookup(DecodeAccessToken(helper, Split(header)[1], decode).value).value])
    ensures AuthorizeAccess(Some(header), helper, decode, usersDb) ==
            Success(DecodeAccessToken(helper, Split(header)[1], decode).value)
  {
  }
}
