/**
 * The two foreign libraries the authentication code relies on, reduced to
 * what the code depends on: bcrypt's `hash`/`compare`, and JWT signing and
 * verification of the claims `{ sub, username, role }`.
 */
module Crypto {
  import opened Wrappers
  import opened Common

  /** A bcrypt hash; the salt and cost are not modelled, only what was hashed. */
  datatype Hash<T> = Hashed(preimage: T)

  /** `bcrypt.hash(x, 10)`. */
  function BcryptHash<T>(x: T): Hash<T> {
    Hashed(x)
  }

  /** `bcrypt.compare(x, h)`. */
  predicate BcryptCompare<T(==)>(x: T, h: Hash<T>) {
    h.preimage == x
  }

  /** A hash matches exactly the value it was made from. */
  lemma CompareIsExact<T>(t: T, u: T)
    ensures BcryptCompare(t, BcryptHash(u)) <==> t == u
  {
  }

  /** An octet. */
  type byte = b: int | 0 <= b < 256

  /** The bcrypt library reads at most this many bytes of the value it hashes or compares. */
  const BcryptInputLimit: nat := 72

  /** The part of an input that bcrypt reads. */
  function BcryptInput(bs: seq<byte>): (r: seq<byte>)
    ensures |r| == if |bs| <= BcryptInputLimit then |bs| else BcryptInputLimit
    ensures r == bs[..|r|]
  {
    if |bs| <= BcryptInputLimit then bs else bs[..BcryptInputLimit]
  }

  /** `bcrypt.hash(text, 10)` as the library computes it, on the text's bytes. */
  function BcryptHashBytes(bs: seq<byte>): Hash<seq<byte>> {
    Hashed(BcryptInput(bs))
  }

  /** `bcrypt.compare(text, h)` as the library computes it, on the text's bytes. */
  predicate BcryptCompareBytes(bs: seq<byte>, h: Hash<seq<byte>>) {
    h.preimage == BcryptInput(bs)
  }

  /** Two inputs match exactly when their first 72 bytes agree. */
  lemma CompareReadsFirst72(x: seq<byte>, y: seq<byte>)
    ensures BcryptCompareBytes(x, BcryptHashBytes(y)) <==> BcryptInput(x) == BcryptInput(y)
  {
  }

  /** On inputs of at most 72 bytes the library's compare is the exact one. */
  lemma CompareExactUpTo72(x: seq<byte>, y: seq<byte>)
    requires |x| <= BcryptInputLimit && |y| <= BcryptInputLimit
    ensures BcryptCompareBytes(x, BcryptHashBytes(y)) <==> x == y
  {
  }

  /**
   * A presented input shorter than 72 bytes is compared exactly, however
   * long the hashed one was.
   */
  lemma CompareExactBelow72(x: seq<byte>, y: seq<byte>)
    requires |x| < BcryptInputLimit
    ensures BcryptCompareBytes(x, BcryptHashBytes(y)) <==> x == y
  {
  }

  /** Bytes after the first 72 are never read. */
  lemma BcryptInputOfLonger(a: seq<byte>, b: seq<byte>)
    requires |a| >= BcryptInputLimit
    ensures BcryptInput(a + b) == BcryptInput(a)
  {
    assert (a + b)[..BcryptInputLimit] == a[..BcryptInputLimit];
  }

  /** The payload both tokens carry. */
  datatype Claims = Claims(sub: Uuid, username: string, role: Role)

  /**
   * A token string: either one `signAsync` produced, recording its payload,
   * the secret it was signed with, its issue time and its lifetime, or any
   * other string.
   */
  datatype Token =
    | Signed(claims: Claims, secret: string, issuedAt: Timestamp, expiresIn: nat)
    | Garbage(text: string)

  /** `jwtService.signAsync(payload, { secret, expiresIn })`. */
  function Sign(claims: Claims, secret: string, expiresIn: nat, now: Timestamp): (t: Token)
    ensures t.Signed? && t.claims == claims && t.secret == secret && t.expiresIn == expiresIn
  {
    Signed(claims, secret, now, expiresIn)
  }

  /**
   * `jwtService.verify(token, { secret })`: the payload of a token signed with
   * that secret, and a failure for anything else. Expiry is not checked here.
   */
  function Verify(t: Token, secret: string): (r: Option<Claims>)
    ensures r.Some? <==> t.Signed? && t.secret == secret
    ensures r.Some? ==> r.value == t.claims
  {
    if t.Signed? && t.secret == secret then Some(t.claims) else None
  }

  /** Verification undoes signing with the same secret and fails with another. */
  lemma VerifySign(claims: Claims, secret: string, other: string, expiresIn: nat, now: Timestamp)
    ensures Verify(Sign(claims, secret, expiresIn, now), secret) == Some(claims)
    ensures other != secret ==> Verify(Sign(claims, secret, expiresIn, now), other).None?
  {
  }
}
