/** internal/models/verification.go: the oldest token store, over the
    `verification_` table. Its `Verification` carries the plaintext next to
    the stored columns, `Insert` writes without validating, and `New` hands
    back the generated verification even when the insert failed. */
module ModelsVerification {
  import opened Base
  import opened TokenTable
  import Base32
  import Tokens

  /** The `ttl` that `New` uses: 36 hours. */
  const TTL: int := 36 * Hour

  /** `Verification{Plaintext, Hash, Email, Expiry}`. */
  datatype Verification = Verification(plaintext: string, hash: seq<byte>, email: string, expiry: Time) {
    /** The row `Insert` writes: `(hash_, email_, expiry_)`. */
    function AsRow(): Row {
      Row(hash, email, expiry)
    }
  }

  /** `generateVerification(email, ttl)`: fill in the address and the expiry,
      read 16 random bytes, then set the plaintext to their unpadded base-32
      text and the hash to the plaintext's SHA-256. A failed read gives no
      verification and the error. */
  method GenerateVerification(email: string, ttl: int, random: Entropy, now: Time, sha256: string -> Digest)
    returns (v: Option<Verification>, err: Option<Error>)
    ensures v.None? <==> random.ReadFailed?
    ensures err.Some? <==> random.ReadFailed?
    ensures random.ReadFailed? ==> err == Some(EntropyFailed(random.reason))
    ensures v.Some? ==> v.value.email == email && v.value.expiry == now + ttl
    ensures v.Some? ==> Tokens.IsPlaintext(v.value.plaintext) && Base32.Decode(v.value.plaintext) == Some(random.block)
    ensures v.Some? ==> v.value.hash == sha256(v.value.plaintext) && |v.value.hash| == 32
  {
    var w := Verification("", [], email, now + ttl);
    if random.ReadFailed? {
      return None, Some(EntropyFailed(random.reason));
    }
    w := w.(plaintext := Base32.Encode(random.block));
    Base32.DecodeEncode(random.block);
    w := w.(hash := sha256(w.plaintext));
    return Some(w), None;
  }

  class VerificationModel {
    /** The `verification_` table, in scan order. */
    var rows: seq<Row>
    /** SHA-256 over the bytes of a string. */
    const sha256: string -> Digest

    constructor (sha256: string -> Digest)
      ensures rows == [] && this.sha256 == sha256
    {
      rows := [];
      this.sha256 := sha256;
    }

    /** Generate a verification for `email` with the 36-hour ttl and insert
        it. A failed generation returns nil; otherwise the verification is
        returned together with whatever `Insert` returned. */
    method New(email: string, random: Entropy, now: Time, conn: Conn) returns (v: Option<Verification>, err: Option<Error>)
      modifies this
      ensures random.ReadFailed? ==> v.None? && err == Some(EntropyFailed(random.reason)) && rows == old(rows)
      ensures random.Filled? ==> v.Some? && v.value.email == email && v.value.expiry == now + TTL
      ensures random.Filled? ==> Tokens.IsPlaintext(v.value.plaintext) && v.value.hash == sha256(v.value.plaintext)
      ensures random.Filled? && conn.Down? ==> err == Some(Db(conn.code)) && rows == old(rows)
      ensures random.Filled? && conn.Up? ==> err.None? && rows == old(rows) + [v.value.AsRow()]
    {
      v, err := GenerateVerification(email, TTL, random, now, sha256);
      if err.Some? {
        return None, err;
      }
      err := Insert(v.value, conn);
    }

    /** Append the row; no validation. */
    method Insert(v: Verification, conn: Conn) returns (err: Option<Error>)
      modifies this
      ensures conn.Down? ==> err == Some(Db(conn.code)) && rows == old(rows)
      ensures conn.Up? ==> err.None? && rows == old(rows) + [v.AsRow()]
    {
      if conn.Down? {
        return Some(Db(conn.code));
      }
      rows := rows + [v.AsRow()];
      return None;
    }

    /** Delete every row of the address and no other. */
    method Purge(email: string, conn: Conn) returns (err: Option<Error>)
      modifies this
      ensures conn.Down? ==> err == Some(Db(conn.code)) && rows == old(rows)
      ensures conn.Up? ==> err.None? && rows == Purged(old(rows), ViewOf, email)
    {
      if conn.Down? {
        return Some(Db(conn.code));
      }
      rows := Purged(rows, ViewOf, email);
      return None;
    }

    /** `ErrRecordNotFound` when no row has the token's hash and the
        address, `ErrExpiredVerification` when `now` is strictly after the
        first such row's expiry, nil otherwise. */
    method Verify(email: string, token: string, now: Time, conn: Conn) returns (err: Option<Error>)
      ensures conn.Down? ==> err == Some(Db(conn.code))
      ensures conn.Up? ==> err == Verdict(rows, ViewOf, sha256(token), email, now, ExpiredVerification)
    {
      var hash := sha256(token);
      if conn.Down? {
        return Some(Db(conn.code));
      }
      match Lookup(rows, ViewOf, hash, email)
      case None =>
        return Some(RecordNotFound);
      case Some(expiry) =>
        if After(now, expiry) {
          return Some(ExpiredVerification);
        }
        return None;
    }
  }
}
