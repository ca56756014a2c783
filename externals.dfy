/**
  The libraries the handlers call into, as symbolic values: bcryptjs
  (salting and hashing), gravatar (avatar URLs) and jsonwebtoken (signing).
  Each result is a constructor term that records the inputs it was made
  from. Only what the handlers rely on is meant: a hash checks against the
  password it was made from, and a token carries its payload and expiry.
  The cryptography, bcrypt's 72-byte password limit and gravatar's
  normalisation of the email are not modelled.
 */
module Externals {

  /** A bcrypt salt: the cost factor and the random bytes drawn for it (here one number). */
  datatype Salt = Salt(rounds: nat, entropy: nat)

  /** A bcrypt hash of `plaintext` under `salt`. */
  datatype Digest = Digest(salt: Salt, plaintext: string)

  /** `bcrypt.genSalt(rounds)`, with the randomness it draws passed in. */
  function GenSalt(rounds: nat, entropy: nat): (s: Salt)
    ensures s.rounds == rounds && s.entropy == entropy
  {
    Salt(rounds, entropy)
  }

  /** `bcrypt.hash(plaintext, salt)`: the hash carries its salt, so `compare` needs no other input. */
  function Hash(plaintext: string, salt: Salt): (d: Digest)
    ensures d.salt == salt
  {
    Digest(salt, plaintext)
  }

  /** `bcrypt.compare(plaintext, digest)`: does `digest` hash `plaintext`? */
  predicate Compare(plaintext: string, digest: Digest)
  {
    Hash(plaintext, digest.salt) == digest
  }

  /** A hash checks against the password it was made from. */
  lemma CompareHash(plaintext: string, salt: Salt)
    ensures Compare(plaintext, Hash(plaintext, salt))
  {
  }

  /** The URL `gravatar.url(email, {s: size, r: rating, d: fallback})` returns. */
  datatype Avatar = Gravatar(email: string, size: string, rating: string, fallback: string)

  /**
    A JSON Web Token (RFC 7519) carrying `payload`: `issuedAt` and
    `expiresAt` are the `iat` and `exp` claims in seconds, `secret` the key
    it was signed with.
   */
  datatype Token<P> = Jwt(payload: P, issuedAt: int, expiresAt: int, secret: string)

  /** `jwt.sign(payload, secret, {expiresIn})` at time `now` (seconds). */
  function Sign<P>(payload: P, secret: string, now: int, expiresIn: int): (t: Token<P>)
    ensures t.payload == payload && t.secret == secret
    ensures t.issuedAt == now && t.expiresAt - t.issuedAt == expiresIn
  {
    Jwt(payload, now, now + expiresIn, secret)
  }

  datatype Verified<P> = Accepted(payload: P) | InvalidSignature | Expired

  /** `jwt.verify(token, secret)` at time `now`: rejects a foreign key, then an `exp` that is not in the future. */
  function Verify<P>(token: Token<P>, secret: string, now: int): (v: Verified<P>)
    ensures v == InvalidSignature <==> token.secret != secret
    ensures v == Expired <==> token.secret == secret && token.expiresAt <= now
    ensures v.Accepted? <==> token.secret == secret && now < token.expiresAt
    ensures v.Accepted? ==> v.payload == token.payload
  {
    if token.secret != secret then InvalidSignature
    else if token.expiresAt <= now then Expired
    else Accepted(token.payload)
  }

  /** A token verifies to its payload until `expiresIn` seconds have passed, then it is expired. */
  lemma SignThenVerify<P>(payload: P, secret: string, issued: int, expiresIn: int, now: int)
    ensures now < issued + expiresIn ==> Verify(Sign(payload, secret, issued, expiresIn), secret, now) == Accepted(payload)
    ensures issued + expiresIn <= now ==> Verify(Sign(payload, secret, issued, expiresIn), secret, now) == Expired
  {
  }
}
