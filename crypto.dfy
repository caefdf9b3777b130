/** Symbolic cryptography. `jwt.sign`/`jwt.verify`, HMAC-SHA256 and bcrypt are
    modelled as free constructions: a signed token records its claims and the key
    it was signed with, a digest records its key and message, a bcrypt hash records
    its input and salt. What the backend relies on is then provable: verification
    accepts exactly the tokens signed with the same key that have not expired, a
    digest is a deterministic function of key and message, and bcrypt's `compare`
    holds for the hash of the same plaintext and for nothing else. The model is
    idealised in that distinct messages never collide. */
module Crypto {
  import opened Wrappers

  /** The payload `jwt.sign` produces: the `_id` and `email` claims, the `sub` taken
      from the `subject` option, and the `iat`/`exp` it adds (in seconds). */
  datatype Claims = Claims(id: string, email: string, subject: string, issuedAt: int, expiresAt: int)

  /** A token as a client presents it: either one that `jwt.sign` produced with
      some key, or any other text. */
  datatype RawToken = Signed(claims: Claims, key: string) | Opaque(text: string)

  /** The errors `jwt.verify` throws: JsonWebTokenError for a malformed token or a
      bad signature, TokenExpiredError once `exp` is reached. */
  datatype JwtError = JwtMalformed | JwtInvalidSignature | JwtExpired

  /** `jwt.sign({ _id, email }, key, { expiresIn, subject })` at clock time `now`. */
  function Sign(id: string, email: string, key: string, expiresIn: int, subject: string, now: int): (t: RawToken)
    ensures t.Signed? && t.key == key
    ensures t.claims == Claims(id, email, subject, now, now + expiresIn)
    ensures forall k, later :: Verify(t, k, later).Success? <==> k == key && later < now + expiresIn
  {
    Signed(Claims(id, email, subject, now, now + expiresIn), key)
  }

  /** `jwt.verify(t, key)` at clock time `now`: it throws unless the token was signed
      with `key` and the clock is still before `exp`. */
  function Verify(t: RawToken, key: string, now: int): (r: Result<Claims, JwtError>)
    ensures r.Success? <==> t.Signed? && t.key == key && now < t.claims.expiresAt
    ensures r.Success? ==> r.value == t.claims
  {
    match t
    case Opaque(_) => Failure(JwtMalformed)
    case Signed(claims, k) =>
      if k != key then Failure(JwtInvalidSignature)
      else if now >= claims.expiresAt then Failure(JwtExpired)
      else Success(claims)
  }

  /** The hex digest of HMAC-SHA256 keyed by `key` over a token's text. */
  datatype Digest = HmacSha256(key: string, message: RawToken)

  /** The cost factor the pre-save hook passes to `bcrypt.hash`. */
  const SaltRounds: nat := 10

  /** A stored password: the plaintext a new document was created with, or the
      bcrypt hash of an earlier value. */
  datatype Password = Plain(text: string) | Hashed(input: Password, salt: nat, rounds: nat)

  /** `bcrypt.hash(p, SaltRounds)` with the random salt made explicit. */
  function BcryptHash(p: Password, salt: nat): (h: Password)
    ensures forall q :: BcryptCompare(q, h) <==> p == Plain(q)
    ensures h.Hashed? && h.salt == salt
  {
    Hashed(p, salt, SaltRounds)
  }

  /** `bcrypt.compare(candidate, stored)`: true only for a hash of that very plaintext. */
  function BcryptCompare(candidate: string, stored: Password): (r: bool)
    ensures r ==> stored.Hashed?
  {
    stored.Hashed? && stored.input == Plain(candidate)
  }
}
