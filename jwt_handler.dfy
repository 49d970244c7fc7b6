/**
 * Claim construction and subject extraction for the service's access tokens
 * (app/services/jwt_handler.py).
 *
 * The signing scheme (a JWS compact token signed with HMAC-SHA256, RFC 7515 and
 * section 3.2 of RFC 7518) is not modelled: the encoder and the decoder are
 * parameters, with the signing secret and the algorithm fixed inside them.
 * Instants and durations are whole seconds; the clock is a parameter `now`.
 */
module JwtHandler {
  import opened Wrappers

  /** The JSON values a claim can hold, as far as this service uses them. */
  datatype Value = Null | Str(s: string) | Num(n: int)

  /** A claim set: a JSON object from claim names to values. */
  type Claims = map<string, Value>

  type Token = string

  /** The ways a decode attempt fails; in the decoding library each is a `JWTError`. */
  datatype DecodeError = BadSignature | Malformed | Expired | InvalidClaims

  /** What the decoder gives back for a token at a given instant. */
  datatype Decoded = Payload(claims: Claims) | Rejected(reason: DecodeError)

  /** Lifetime used when the caller gives no (or a zero) lifetime: 15 minutes. */
  const DefaultLifetime: int := 15 * 60

  /** Python truthiness of an `Optional[timedelta]`: `None` and the zero duration are false. */
  predicate Truthy(expiresDelta: Option<int>)
  {
    expiresDelta.Some? && expiresDelta.value != 0
  }

  /** The expiry instant `create_access_token` computes. */
  function ExpiresAt(now: int, expiresDelta: Option<int>): (r: int)
  {
    if Truthy(expiresDelta) then now + expiresDelta.value else now + DefaultLifetime
  }

  /**
   * The claim set handed to the encoder: a copy of the caller's `data` in which
   * `exp` is added, or overwritten when the caller supplied one.
   */
  function ClaimsToEncode(data: Claims, now: int, expiresDelta: Option<int>): (c: Claims)
    ensures c.Keys == data.Keys + {"exp"}
    ensures forall k :: k in data && k != "exp" ==> c[k] == data[k]
    ensures expiresDelta.Some? && expiresDelta.value != 0 ==> c["exp"] == Num(now + expiresDelta.value)
    ensures expiresDelta == None || expiresDelta == Some(0) ==> c["exp"] == Num(now + DefaultLifetime)
  {
    data["exp" := Num(ExpiresAt(now, expiresDelta))]
  }

  /**
   * `create_access_token`: the signed form of the caller's claims with `exp`
   * set to now plus the lifetime, or plus 15 minutes for a falsy lifetime.
   */
  function CreateAccessToken(encode: Claims -> Token, data: Claims, now: int, expiresDelta: Option<int>): (r: Token)
    ensures expiresDelta.Some? && expiresDelta.value != 0 ==>
      r == encode(data["exp" := Num(now + expiresDelta.value)])
    ensures expiresDelta == None || expiresDelta == Some(0) ==>
      r == encode(data["exp" := Num(now + DefaultLifetime)])
  {
    encode(ClaimsToEncode(data, now, expiresDelta))
  }

  /**
   * `verify_token`: the `sub` claim of a token that decodes, and `None` for a
   * token the decoder rejects or whose `sub` is missing or null.
   */
  function VerifyToken(decode: (Token, int) -> Decoded, token: Token, now: int): (r: Option<Value>)
    ensures decode(token, now).Rejected? ==> r == None
    ensures r.Some? <==>
      decode(token, now).Payload? && "sub" in decode(token, now).claims && decode(token, now).claims["sub"] != Null
    ensures r.Some? ==> r.value == decode(token, now).claims["sub"]
  {
    match decode(token, now)
    case Rejected(_) => None
    case Payload(claims) =>
      // `payload.get("sub")` is None both for a missing and for a null claim
      if "sub" in claims && claims["sub"] != Null then Some(claims["sub"]) else None
  }

  /** The shape of the claim sets this service mints: a string `sub` and a numeric `exp`, nothing else. */
  predicate MintedShape(c: Claims)
  {
    c.Keys == {"sub", "exp"} && c["sub"].Str? && c["exp"].Num?
  }

  /**
   * The round trip the lemmas below take as a hypothesis, for the claim sets the
   * service mints only: signed with the configured key and algorithm, such a set
   * decodes back unchanged up to and including its `exp` instant, and is
   * rejected as expired after it. Claim sets of other shapes (a non-string
   * `sub`, an `aud`, an `nbf`, ...) are subject to further checks in the
   * decoding library and are not covered. It is not proved here.
   */
  ghost predicate Sound(encode: Claims -> Token, decode: (Token, int) -> Decoded)
  {
    forall c: Claims, now: int ::
      MintedShape(c) ==>
        decode(encode(c), now) == if now <= c["exp"].n then Payload(c) else Rejected(Expired)
  }

  /** A token issued for a string subject verifies to that subject until its expiry, and to nothing after it. */
  lemma IssuedTokenVerifiesUntilExpiry(encode: Claims -> Token, decode: (Token, int) -> Decoded,
                                       data: Claims, issuedAt: int, expiresDelta: Option<int>, now: int)
    requires Sound(encode, decode)
    requires data.Keys == {"sub"} && data["sub"].Str?
    ensures VerifyToken(decode, CreateAccessToken(encode, data, issuedAt, expiresDelta), now) ==
      if now <= ExpiresAt(issuedAt, expiresDelta) then Some(data["sub"]) else None
  {
    var c := ClaimsToEncode(data, issuedAt, expiresDelta);
    assert decode(encode(c), now) == if now <= ExpiresAt(issuedAt, expiresDelta) then Payload(c) else Rejected(Expired);
  }
}
