/**
 * The access-key format and the signed-token service. The itsdangerous
 * serializer is the abstract `Serializer`: `dumps` signs a JSON payload with the
 * secret, the salt and the current time; `loads` checks signature and age and
 * gives back the payload, or `None` where itsdangerous raises `BadSignature`
 * (which covers an expired token).
 */
module Security {
  import opened Wrappers
  import opened Json

  const MinKeyLength: nat := 8
  const MaxKeyLength: nat := 255
  const DefaultSalt := "chatgemini-token"

  /** `[A-Za-z0-9_-]`. */
  predicate IsKeyChar(c: char)
  {
    ('A' <= c <= 'Z') || ('a' <= c <= 'z') || ('0' <= c <= '9') || c == '_' || c == '-'
  }

  /**
   * Whether all of `s` matches `[A-Za-z0-9_-]{lo,hi}`: one class character is
   * consumed per step while the repetition bounds count down.
   */
  function MatchesRepeat(s: string, lo: nat, hi: nat): bool
  {
    if s == [] then lo == 0
    else hi > 0 && IsKeyChar(s[0]) && MatchesRepeat(s[1..], if lo > 0 then lo - 1 else 0, hi - 1)
  }

  /** The repetition matches exactly the strings of class characters with a length between the bounds. */
  lemma {:induction false} MatchesRepeatSpec(s: string, lo: nat, hi: nat)
    ensures MatchesRepeat(s, lo, hi) <==> lo <= |s| <= hi && forall i :: 0 <= i < |s| ==> IsKeyChar(s[i])
  {
    if s != [] && hi > 0 {
      MatchesRepeatSpec(s[1..], if lo > 0 then lo - 1 else 0, hi - 1);
      assert forall i :: 1 <= i < |s| ==> s[i] == s[1..][i - 1];
    }
  }

  /** `validate_access_key_format`: `ACCESS_KEY_RE.fullmatch(value or "")`. */
  function ValidateAccessKeyFormat(value: Option<string>): (ok: bool)
    ensures ok <==>
      && value.Some?
      && MinKeyLength <= |value.value| <= MaxKeyLength
      && forall i :: 0 <= i < |value.value| ==> IsKeyChar(value.value[i])
  {
    var s := if value.Some? then value.value else "";
    MatchesRepeatSpec(s, MinKeyLength, MaxKeyLength);
    MatchesRepeat(s, MinKeyLength, MaxKeyLength)
  }

  /** `None` and the empty string are never well-formed keys. */
  lemma NoKeyIsMalformed()
    ensures !ValidateAccessKeyFormat(None)
    ensures !ValidateAccessKeyFormat(Some(""))
  {
  }

  /** `dumps(secret, salt, payload)` and `loads(secret, salt, token, maxAgeSeconds)`. */
  datatype Serializer = Serializer(
    dumps: (string, string, Json) -> string,
    loads: (string, string, string, int) -> Option<Json>)

  datatype TokenPayload = TokenPayload(sub: string)

  datatype TokenService = TokenService(secret: string, salt: string, serializer: Serializer)

  /** `TokenService(secret)`, with the default salt. */
  function NewTokenService(secret: string, serializer: Serializer): (svc: TokenService)
    ensures svc.secret == secret && svc.salt == "chatgemini-token" && svc.serializer == serializer
  {
    TokenService(secret, DefaultSalt, serializer)
  }

  function SubjectClaim(sub: string): Json
  {
    JObject([("sub", JString(sub))])
  }

  /** `issue(sub)`: the signed form of `{"sub": sub}`. */
  function Issue(svc: TokenService, sub: string): string
  {
    svc.serializer.dumps(svc.secret, svc.salt, SubjectClaim(sub))
  }

  /** How `verify` fails: `ValueError("invalid_token")`, or `AttributeError` when the payload is no dict. */
  datatype VerifyError = InvalidToken | PayloadNotObject

  /** `verify(token, maxAgeSeconds)`. */
  function Verify(svc: TokenService, token: string, maxAgeSeconds: int): (r: Result<TokenPayload, VerifyError>)
    ensures r.Success? ==> r.value.sub != []
    ensures svc.serializer.loads(svc.secret, svc.salt, token, maxAgeSeconds).None? ==> r == Failure(InvalidToken)
    ensures r.Success? ==>
      match svc.serializer.loads(svc.secret, svc.salt, token, maxAgeSeconds)
      case Some(JObject(fields)) => Get(fields, "sub") == JString(r.value.sub)
      case _ => false
    ensures
      (match svc.serializer.loads(svc.secret, svc.salt, token, maxAgeSeconds)
       case Some(JObject(fields)) => Get(fields, "sub").JString? && Get(fields, "sub").s != []
       case _ => false)
      ==> r.Success?
  {
    match svc.serializer.loads(svc.secret, svc.salt, token, maxAgeSeconds)
    case None => Failure(InvalidToken)
    case Some(data) =>
      if !data.JObject? then Failure(PayloadNotObject)
      else
        match Get(data.fields, "sub")
        case JString(sub) => if sub != [] then Success(TokenPayload(sub)) else Failure(InvalidToken)
        case _ => Failure(InvalidToken)
  }

  /**
   * A rejected signature or age, and a dict payload whose `sub` is missing, not
   * a string or empty, all give the one `InvalidToken` error.
   */
  lemma VerifyInvalidCases(svc: TokenService, token: string, maxAgeSeconds: int)
    ensures Verify(svc, token, maxAgeSeconds) == Failure(InvalidToken) <==>
      match svc.serializer.loads(svc.secret, svc.salt, token, maxAgeSeconds)
      case None => true
      case Some(JObject(fields)) => !(Get(fields, "sub").JString? && Get(fields, "sub").s != [])
      case Some(_) => false
  {
  }

  /**
   * Round trip: a freshly issued token that the serializer accepts within the
   * given age verifies to its subject.
   */
  lemma VerifyIssued(svc: TokenService, sub: string, maxAgeSeconds: int)
    requires sub != []
    requires svc.serializer.loads(svc.secret, svc.salt, Issue(svc, sub), maxAgeSeconds) == Some(SubjectClaim(sub))
    ensures Verify(svc, Issue(svc, sub), maxAgeSeconds) == Success(TokenPayload(sub))
  {
  }
}
