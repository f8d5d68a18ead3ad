/** The `/auth` routes: `login` and `validate`. */
module AuthRoutes {
  import opened Wrappers
  import opened Text
  import opened Config
  import opened Security
  import opened HttpErrors
  import opened Deps

  const AccessSubject := "access"
  const InvalidKeyFormat := HttpException(400, "invalid_key_format")
  const WrongKey := HttpException(401, "wrong_key")

  datatype LoginOut = LoginOut(token: string, expiresIn: int)

  /**
   * `login`: a malformed key is refused before it is compared, a well-formed but
   * different key is refused next, and the right key is answered with a token for
   * the subject `"access"` and the configured lifetime.
   */
  function Login(accessKey: string, settings: Settings, serializer: Serializer): (r: Result<LoginOut, ApiError>)
    ensures !ValidateAccessKeyFormat(Some(accessKey)) ==> r == Failure(InvalidKeyFormat)
    ensures ValidateAccessKeyFormat(Some(accessKey)) && accessKey != settings.accessKey ==> r == Failure(WrongKey)
    ensures r.Success? <==> ValidateAccessKeyFormat(Some(accessKey)) && accessKey == settings.accessKey
    ensures r.Success? ==>
      && 8 <= |accessKey| <= 255
      && r.value == LoginOut(Issue(TokenServiceFor(settings, serializer), "access"), settings.tokenTtlSeconds)
  {
    var key := accessKey;
    if !ValidateAccessKeyFormat(Some(key)) then Failure(InvalidKeyFormat)
    else if key != settings.accessKey then Failure(WrongKey)
    else Success(LoginOut(Issue(TokenServiceFor(settings, serializer), AccessSubject), settings.tokenTtlSeconds))
  }

  /** A malformed key never reaches the comparison, whatever the configured key is. */
  lemma MalformedKeyNeverWrong(accessKey: string, settings: Settings, serializer: Serializer)
    requires !ValidateAccessKeyFormat(Some(accessKey))
    ensures Login(accessKey, settings, serializer) != Failure(WrongKey)
    ensures Login(accessKey, settings, serializer) == Login(accessKey, settings.(accessKey := accessKey), serializer)
  {
  }

  /** `GET /auth/validate`: `{"ok": true}` for any request `require_auth` lets through. */
  function Validate(authorization: Option<string>, settings: Settings, serializer: Serializer): (r: Result<bool, ApiError>)
    ensures r.Success? <==> RequireAuth(authorization, settings, serializer).Success?
    ensures r.Success? ==> r.value
    ensures r.Failure? ==> r.error == RequireAuth(authorization, settings, serializer).error
  {
    match RequireAuth(authorization, settings, serializer)
    case Success(_) => Success(true)
    case Failure(e) => Failure(e)
  }

  /**
   * End to end: the token a successful login hands out authenticates as
   * `"access"`, provided the serializer accepts it within the configured
   * lifetime and it has no whitespace at either end (itsdangerous tokens are
   * non-empty URL-safe text).
   */
  lemma LoginThenAuthenticate(accessKey: string, settings: Settings, serializer: Serializer, token: string)
    requires Login(accessKey, settings, serializer) == Success(LoginOut(token, settings.tokenTtlSeconds))
    requires Trimmed(token)
    requires serializer.loads(settings.tokenSecret, DefaultSalt, token, settings.tokenTtlSeconds) == Some(SubjectClaim("access"))
    ensures RequireAuth(Some(BearerPrefix + token), settings, serializer) == Success(TokenPayload("access"))
    ensures Validate(Some(BearerPrefix + token), settings, serializer) == Success(true)
  {
    var svc := TokenServiceFor(settings, serializer);
    assert token == Issue(svc, AccessSubject);
    StripTrimmed(token);
    BearerTokenOfPrefixed(token);
    VerifyIssued(svc, AccessSubject, settings.tokenTtlSeconds);
  }
}
