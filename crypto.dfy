/** The cryptographic calls both stacks make, kept abstract: werkzeug's
    salted password hashing and PyJWT's HS256 signing and decoding. They are
    passed in as a record of functions, and `Sound` collects the only facts
    the model assumes about them. */
module Crypto {
  import opened Common

  /** A JWT payload: claim names to values. The registered claims `iat` and
      `exp` (section 4.1 of RFC 7519) hold NumericDate values, in seconds. */
  type Claims = map<string, Json>

  /** The fixed token lifetime of both stacks, `timedelta(hours=1)`. */
  const OneHour: int := 3600

  datatype Primitives = Primitives(
    /** `generate_password_hash(password)` with the salt it draws at random
        given as the first argument. */
    hash: (string, string) -> string,
    /** `check_password_hash(pwhash, password)`. */
    check: (string, string) -> bool,
    /** `jwt.encode(claims, secret, algorithm="HS256")`, as text. */
    sign: (Claims, string) -> string,
    /** `jwt.decode(token, secret, algorithms=["HS256"])` at clock time `now`. */
    decode: (string, string, int) -> Result<Claims>
  )

  /** Claims whose values are all strings or integers, the only kinds the
      tokens of this system carry. */
  predicate PlainClaims(c: Claims) {
    forall k :: k in c ==> c[k].Str? || c[k].Int?
  }

  /** The assumptions: a hash checks against its own password and no other
      and is never the plaintext itself; a token signed over plain claims
      with an integer `exp` and no `aud` decodes, under the same secret, to
      those claims before `exp` and fails as expired after it. (PyJWT
      rejects an `aud` claim when no audience is given, so no round trip is
      assumed for such claims.) */
  ghost predicate Sound(p: Primitives) {
    && (forall salt, pw :: p.check(p.hash(salt, pw), pw))
    && (forall salt, pw, other :: other != pw ==> !p.check(p.hash(salt, pw), other))
    && (forall salt, pw :: p.hash(salt, pw) != pw)
    && (forall c: Claims, key, now ::
          PlainClaims(c) && "aud" !in c && "exp" in c && c["exp"].Int? && now < c["exp"].i ==>
            p.decode(p.sign(c, key), key, now) == Ok(c))
    && (forall c: Claims, key, now ::
          PlainClaims(c) && "aud" !in c && "exp" in c && c["exp"].Int? && now > c["exp"].i ==>
            p.decode(p.sign(c, key), key, now) == Err(ExpiredSignature))
  }
}
