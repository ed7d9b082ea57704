/** The token triple both packages build with `generateToken(ttl)`. That
    function and the `Token` struct are not among the modelled files; they
    are modelled on the generation written out inline in
    internal/models/verification_token.go (`New`) and
    internal/models/verification.go (`generateVerification`). */
module Tokens {
  import opened Base
  import Base32

  /** `Token{Plaintext, Hash, Expiry}`: only the hash is ever stored. */
  datatype Token = Token(plaintext: string, hash: seq<byte>, expiry: Time)

  /** A plaintext as the generator produces it: 26 letters of the base-32 alphabet. */
  predicate IsPlaintext(s: string) {
    |s| == 26 && forall i :: 0 <= i < |s| ==> Base32.IsSymbol(s[i])
  }

  /** `generateToken(ttl)`: read 16 random bytes, encode them as unpadded
      base 32 for the plaintext, hash the plaintext with SHA-256 and set the
      expiry `ttl` after `now`. It fails only when the entropy source does. */
  function Generate(ttl: int, random: Entropy, now: Time, sha256: string -> Digest): (r: Result<Token>)
    ensures r.Fail? <==> random.ReadFailed?
    ensures r.Fail? ==> r.error == EntropyFailed(random.reason)
    ensures r.Ok? ==> IsPlaintext(r.value.plaintext)
    ensures r.Ok? ==> Base32.Decode(r.value.plaintext) == Some(random.block)
    ensures r.Ok? ==> r.value.hash == sha256(r.value.plaintext) && |r.value.hash| == 32
    ensures r.Ok? ==> r.value.expiry == now + ttl
  {
    match random
    case ReadFailed(reason) => Fail(EntropyFailed(reason))
    case Filled(block) =>
      Base32.DecodeEncode(block);
      var plaintext := Base32.Encode(block);
      Ok(Token(plaintext, sha256(plaintext), now + ttl))
  }
}
