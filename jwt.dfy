/** Session tokens as issued and checked through the jsonwebtoken library.
    The signature scheme is abstract: `Keys` carries an encoder and a decoder
    as function values, and the one law the model relies on (a token decodes
    with the secret it was signed with to the claims it carries) is the
    predicate `Sound`, assumed only by the lemmas that need it. What the
    library itself decides around the signature check (an empty token, a
    missing secret, the expiry time) is modelled exactly. Times are whole
    seconds, as in the library's `iat` and `exp` claims. */
module Jwt {
  import opened Common

  /** `expiresIn: '7d'` in seconds. */
  const SevenDays: int := 7 * 24 * 60 * 60

  /** The payload `{ id }` the server signs, with the issue and expiry times
      the library adds. */
  datatype Claims = Claims(id: string, iat: int, exp: int)

  datatype Keys = Keys(
    encode: (Claims, string) -> string,          // sign the claims with a secret
    decode: (string, string) -> Option<Claims>)  // check the signature and parse; None when malformed or forged

  /** A character of a compact token: the base64url alphabet and the dots
      between header, payload and signature. */
  predicate IsCompactChar(c: char)
  {
    'A' <= c <= 'Z' || 'a' <= c <= 'z' || '0' <= c <= '9' || c == '-' || c == '_' || c == '.'
  }

  predicate IsCompact(token: string)
  {
    forall i :: 0 <= i < |token| ==> IsCompactChar(token[i])
  }

  /** The law of the signature scheme: an issued token is a non-empty
      compact string that decodes, with the secret it was signed with, to the
      claims it was signed over. */
  ghost predicate Sound(keys: Keys)
  {
    forall c, secret {:trigger keys.encode(c, secret)} ::
      && keys.encode(c, secret) != ""
      && IsCompact(keys.encode(c, secret))
      && keys.decode(keys.encode(c, secret), secret) == Some(c)
  }

  /** `jwt.sign({ id }, secret, { expiresIn: '7d' })` at time `now`; None when
      the library throws because the secret is missing or empty. */
  function Sign(keys: Keys, secret: Option<string>, id: string, now: int): (token: Option<string>)
    ensures token.Some? <==> Truthy(secret)
    ensures token.Some? ==> token.value == keys.encode(Claims(id, now, now + SevenDays), secret.value)
    ensures Sound(keys) && token.Some? ==>
              && IsCompact(token.value) && token.value != ""
              && keys.decode(token.value, secret.value) == Some(Claims(id, now, now + 7 * 24 * 60 * 60))
  {
    if Truthy(secret) then Some(keys.encode(Claims(id, now, now + SevenDays), secret.value)) else None
  }

  /** `jwt.verify(token, secret)` at time `now`: the decoded claims, or None
      for each case in which the library throws (no token, no secret, bad
      signature or shape, expired). */
  function Verify(keys: Keys, token: string, secret: Option<string>, now: int): (claims: Option<Claims>)
    ensures token == "" || !Truthy(secret) ==> claims.None?
    ensures claims.Some? ==> keys.decode(token, secret.value) == claims && now < claims.value.exp
    ensures (Truthy(secret) && token != "" && keys.decode(token, secret.value).Some? &&
             now < keys.decode(token, secret.value).value.exp) ==> claims.Some?
  {
    if token == "" || !Truthy(secret) then None
    else
      match keys.decode(token, secret.value)
      case None => None
      case Some(c) => if now >= c.exp then None else Some(c)
  }

  /** A token issued at `iat` verifies, with the same secret, to the claims it
      was signed over for exactly seven days, and is rejected from then on. */
  lemma SignedTokenLastsSevenDays(keys: Keys, secret: Option<string>, id: string, iat: int, now: int)
    requires Sound(keys) && Truthy(secret)
    ensures Sign(keys, secret, id, iat).Some?
    ensures var token := Sign(keys, secret, id, iat).value;
            Verify(keys, token, secret, now) ==
              if now < iat + SevenDays then Some(Claims(id, iat, iat + SevenDays)) else None
  {
    var c := Claims(id, iat, iat + SevenDays);
    assert keys.decode(keys.encode(c, secret.value), secret.value) == Some(c);
  }
}
