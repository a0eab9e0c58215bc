/** The token gate `verifyToken` (server/middleware/auth.js): it reads the
    `Authorization` header, strips an optional `Bearer ` prefix, verifies the
    token and either attaches the claims to the request and passes it on, or
    answers the request itself. */
module AuthMiddleware {
  import opened Common
  import opened Jwt
  import opened Http

  /** The characters `trimLeft` removes: ECMAScript WhiteSpace (tab, vertical
      tab, form feed, the byte order mark and every space separator) and
      LineTerminator. */
  predicate IsJsSpace(c: char)
  {
    || c == '\t' || c == '\n' || c == '\U{000B}' || c == '\U{000C}' || c == '\r'
    || c == ' ' || c == '\U{00A0}' || c == '\U{1680}'
    || ('\U{2000}' <= c <= '\U{200A}')
    || c == '\U{2028}' || c == '\U{2029}' || c == '\U{202F}' || c == '\U{205F}'
    || c == '\U{3000}' || c == '\U{FEFF}'
  }

  /** `s.trimLeft()`: the suffix of `s` after its leading white space. */
  function TrimLeft(s: string): (r: string)
    ensures |r| <= |s| && r == s[|s| - |r|..]
    ensures r == "" || !IsJsSpace(r[0])
    ensures forall i :: 0 <= i < |s| - |r| ==> IsJsSpace(s[i])
  {
    if s != "" && IsJsSpace(s[0]) then TrimLeft(s[1..]) else s
  }

  const BearerPrefix: string := "Bearer "

  /** `token.startsWith("Bearer ")`, case-sensitive. */
  predicate HasBearerPrefix(header: string)
  {
    |header| >= |BearerPrefix| && header[..|BearerPrefix|] == BearerPrefix
  }

  /** The token the gate hands to `jwt.verify`: a header starting with
      `Bearer ` loses those seven characters and then its leading white space;
      any other header is used as it is. */
  function StripBearer(header: string): (token: string)
    ensures |token| <= |header| && token == header[|header| - |token|..]
    ensures !HasBearerPrefix(header) ==> token == header
    ensures HasBearerPrefix(header) ==>
              && |token| <= |header| - 7
              && (forall i :: 7 <= i < |header| - |token| ==> IsJsSpace(header[i]))
              && (token == "" || !IsJsSpace(token[0]))
  {
    if HasBearerPrefix(header) then TrimLeft(header[|BearerPrefix|..]) else header
  }

  /** What the gate does with a request: call `next` with the claims
      attached, or send a response and stop. Exactly one of the two. */
  datatype GateOutcome = Continue(user: Claims) | Reject(response: Response)

  const AccessDenied: Response := Text(403, "Access Denied")
  const GateError: Response := Text(500, "Internal Server Error")

  /** The gate's decision for an `Authorization` header: 403 when the header
      is absent or empty, 500 whenever verification throws, and otherwise the
      verified claims. */
  function Gate(header: Option<string>, keys: Keys, secret: Option<string>, now: int): (g: GateOutcome)
    ensures !Truthy(header) <==> g == Reject(AccessDenied)
    ensures Truthy(header) ==>
              match Verify(keys, StripBearer(header.value), secret, now)
              case None => g == Reject(GateError)
              case Some(c) => g == Continue(c)
  {
    if !Truthy(header) then Reject(AccessDenied)
    else
      match Verify(keys, StripBearer(header.value), secret, now)
      case None => Reject(GateError)
      case Some(c) => Continue(c)
  }

  /** `verifyToken(request, response, next)`. */
  method VerifyToken(request: Request, keys: Keys, secret: Option<string>, now: int) returns (outcome: GateOutcome)
    modifies request`user
    ensures outcome == Gate(request.authorization, keys, secret, now)
    ensures outcome.Continue? ==> request.user == Some(outcome.user)
    ensures outcome.Reject? ==> request.user == old(request.user)
  {
    var token := request.authorization;
    if !Truthy(token) {
      return Reject(AccessDenied);
    }
    var t := token.value;
    if HasBearerPrefix(t) {
      t := TrimLeft(t[|BearerPrefix|..]);
    }
    var verified := Verify(keys, t, secret, now);
    if verified.None? {
      return Reject(GateError);
    }
    request.user := verified;
    outcome := Continue(verified.value);
  }

  /** Stripping `Bearer `, white space and a compact token gives back the token. */
  lemma StripIssuedHeader(spaces: string, token: string)
    requires forall i :: 0 <= i < |spaces| ==> IsJsSpace(spaces[i])
    requires token != "" && IsCompact(token)
    ensures StripBearer(BearerPrefix + spaces + token) == token
  {
    assert IsCompactChar(token[0]);
    TrimSpacesBeforeToken(spaces, token);
    var header := BearerPrefix + spaces + token;
    assert header[..|BearerPrefix|] == BearerPrefix;
    assert header[|BearerPrefix|..] == spaces + token;
  }

  /** A token the server issued, sent as `Bearer <token>` (with any white
      space between prefix and token), passes the gate for seven days with
      the claims it was signed over. */
  lemma {:induction false} IssuedTokenPasses(keys: Keys, secret: Option<string>, id: string, iat: int, now: int, spaces: string)
    requires Sound(keys) && Truthy(secret)
    requires forall i :: 0 <= i < |spaces| ==> IsJsSpace(spaces[i])
    requires now < iat + SevenDays
    ensures Sign(keys, secret, id, iat).Some?
    ensures Gate(Some(BearerPrefix + spaces + Sign(keys, secret, id, iat).value), keys, secret, now)
            == Continue(Claims(id, iat, iat + SevenDays))
  {
    var c := Claims(id, iat, iat + SevenDays);
    var token := keys.encode(c, secret.value);
    assert token != "" && IsCompact(token);
    SignedTokenLastsSevenDays(keys, secret, id, iat, now);
    StripIssuedHeader(spaces, token);
  }

  /** After the seven days, the same header makes the gate answer 500, not
      401: an expired token is treated as a server error. */
  lemma {:induction false} ExpiredTokenIsServerError(keys: Keys, secret: Option<string>, id: string, iat: int, now: int, spaces: string)
    requires Sound(keys) && Truthy(secret)
    requires forall i :: 0 <= i < |spaces| ==> IsJsSpace(spaces[i])
    requires now >= iat + SevenDays
    ensures Sign(keys, secret, id, iat).Some?
    ensures Gate(Some(BearerPrefix + spaces + Sign(keys, secret, id, iat).value), keys, secret, now)
            == Reject(GateError)
  {
    var c := Claims(id, iat, iat + SevenDays);
    var token := keys.encode(c, secret.value);
    assert token != "" && IsCompact(token);
    SignedTokenLastsSevenDays(keys, secret, id, iat, now);
    StripIssuedHeader(spaces, token);
  }

  /** A header that is `Bearer ` followed only by white space leaves the
      empty token, which verification rejects: 500. */
  lemma {:induction false} BareBearerIsServerError(keys: Keys, secret: Option<string>, now: int, spaces: string)
    requires forall i :: 0 <= i < |spaces| ==> IsJsSpace(spaces[i])
    ensures Gate(Some(BearerPrefix + spaces), keys, secret, now) == Reject(GateError)
  {
    TrimSpacesBeforeToken(spaces, "");
    assert (BearerPrefix + spaces)[|BearerPrefix|..] == spaces + "";
  }

  lemma {:induction false} TrimSpacesBeforeToken(spaces: string, token: string)
    requires forall i :: 0 <= i < |spaces| ==> IsJsSpace(spaces[i])
    requires token == "" || !IsJsSpace(token[0])
    ensures TrimLeft(spaces + token) == token
  {
    if spaces != "" {
      assert (spaces + token)[1..] == spaces[1..] + token;
      TrimSpacesBeforeToken(spaces[1..], token);
    } else {
      assert spaces + token == token;
    }
  }
}
