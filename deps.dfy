/** `require_auth`: the Bearer header check in front of every protected route. */
module Deps {
  import opened Wrappers
  import opened Text
  import opened Config
  import opened Security
  import opened HttpErrors

  const BearerPrefix := "Bearer "
  const MissingToken := HttpException(401, "missing_token")
  const InvalidTokenError := HttpException(401, "invalid_token")

  /** The module-level `_token_service`, keyed with the configured secret. */
  function TokenServiceFor(settings: Settings, serializer: Serializer): TokenService
  {
    NewTokenService(settings.tokenSecret, serializer)
  }

  /**
   * The token `require_auth` passes on: the header with the exact, case-sensitive
   * prefix `"Bearer "` removed and then stripped; `None` for a missing header or
   * one without that prefix.
   */
  function BearerToken(authorization: Option<string>): (t: Option<string>)
    ensures t.None? <==> authorization.None? || !StartsWith(authorization.value, BearerPrefix)
    ensures t.Some? ==>
      && authorization.value == BearerPrefix + authorization.value[|BearerPrefix|..]
      && t.value == Strip(authorization.value[|BearerPrefix|..])
  {
    if authorization.None? || !StartsWith(authorization.value, BearerPrefix) then None
    else Some(Strip(RemovePrefix(authorization.value, BearerPrefix)))
  }

  /** A header made of the prefix and a token yields that token, stripped. */
  lemma BearerTokenOfPrefixed(token: string)
    ensures BearerToken(Some(BearerPrefix + token)) == Some(Strip(token))
  {
    var h := BearerPrefix + token;
    assert h[..|BearerPrefix|] == BearerPrefix;
    assert h[|BearerPrefix|..] == token;
  }

  /** `require_auth(authorization)`, verifying against the configured TTL. */
  function RequireAuth(authorization: Option<string>, settings: Settings, serializer: Serializer)
    : (r: Result<TokenPayload, ApiError>)
    ensures BearerToken(authorization).None? ==> r == Failure(MissingToken)
    ensures BearerToken(authorization).Some? ==>
      var v := Verify(TokenServiceFor(settings, serializer), BearerToken(authorization).value, settings.tokenTtlSeconds);
      && (v.Success? <==> r.Success?)
      && (v.Success? ==> r.value == v.value)
      && (v == Failure(InvalidToken) <==> r == Failure(InvalidTokenError))
      && (v == Failure(PayloadNotObject) <==> r == Failure(InternalServerError))
    ensures r == Failure(MissingToken) ==> BearerToken(authorization).None?
    ensures r.Success? ==> r.value.sub != []
    ensures r.Failure? ==> r.error.Status() in {401, 500}
  {
    match BearerToken(authorization)
    case None => Failure(MissingToken)
    case Some(token) =>
      match Verify(TokenServiceFor(settings, serializer), token, settings.tokenTtlSeconds)
      case Success(payload) => Success(payload)
      case Failure(InvalidToken) => Failure(InvalidTokenError)
      case Failure(PayloadNotObject) => Failure(InternalServerError)  // the AttributeError is not a ValueError
  }

  /** A missing or non-Bearer header is refused without consulting the serializer at all. */
  lemma MissingTokenWithoutVerify(authorization: Option<string>, settings: Settings, s1: Serializer, s2: Serializer)
    requires authorization.None? || !StartsWith(authorization.value, BearerPrefix)
    ensures RequireAuth(authorization, settings, s1) == RequireAuth(authorization, settings, s2) == Failure(MissingToken)
  {
  }

  /** The prefix test is case-sensitive. */
  lemma LowercaseBearerIsMissing(rest: string, settings: Settings, serializer: Serializer)
    ensures RequireAuth(Some("bearer " + rest), settings, serializer) == Failure(MissingToken)
  {
    assert ("bearer " + rest)[0] == 'b';
  }

  /**
   * The bare header `"Bearer "` passes the prefix test and has an empty token
   * verified, so it is never `missing_token`; a serializer that rejects the empty
   * token makes it `invalid_token`.
   */
  lemma BarePrefixVerifiesEmptyToken(settings: Settings, serializer: Serializer)
    ensures BearerToken(Some("Bearer ")) == Some("")
    ensures RequireAuth(Some("Bearer "), settings, serializer) != Failure(MissingToken)
    ensures serializer.loads(settings.tokenSecret, DefaultSalt, "", settings.tokenTtlSeconds).None? ==>
      RequireAuth(Some("Bearer "), settings, serializer) == Failure(InvalidTokenError)
  {
    assert Strip("") == "";
    assert "Bearer "[|BearerPrefix|..] == "";
  }
}
