/** internal/models/verification_token.go: the `verification_token_` table,
    keyed by address. `New` draws the token itself and returns only its
    plaintext; `Insert` validates the row before writing it. */
module ModelsVerificationToken {
  import opened Base
  import opened TokenTable
  import Base32
  import Tokens

  /** `ttl`: a verification token expires 36 hours after it is made. */
  const TTL: int := 36 * Hour

  /** The `Verification` struct of this file has exactly the table's columns. */
  type Verification = Row

  class VerificationTokenModel {
    /** The `verification_token_` table, in scan order. */
    var rows: seq<Row>
    /** SHA-256 over the bytes of a string (FIPS 180-4). */
    const sha256: string -> Digest
    /** ozzo's `is.Email` rule. */
    const isEmail: string -> bool

    constructor (sha256: string -> Digest, isEmail: string -> bool)
      ensures rows == [] && this.sha256 == sha256 && this.isEmail == isEmail
    {
      rows := [];
      this.sha256 := sha256;
      this.isEmail := isEmail;
    }

    /** Make a token for `email`, store its hash and return its plaintext.
        Every failure returns "" with the error; a failed read of the
        entropy source leaves the table alone. */
    method New(email: string, random: Entropy, now: Time, conn: Conn) returns (token: string, err: Option<Error>)
      modifies this
      ensures random.ReadFailed? ==> token == "" && err == Some(EntropyFailed(random.reason)) && rows == old(rows)
      ensures random.Filled? ==>
        var plaintext := Base32.Encode(random.block);
        var v := Row(sha256(plaintext), email, now + TTL);
        if Validate(v, isEmail).Some? then token == "" && err == Validate(v, isEmail) && rows == old(rows)
        else if conn.Down? then token == "" && err == Some(Db(conn.code)) && rows == old(rows)
        else token == plaintext && err.None? && rows == old(rows) + [v]
      ensures err.None? ==> Tokens.IsPlaintext(token) && Base32.Decode(token) == Some(random.block)
      ensures err.None? ==> Lookup(rows, ViewOf, sha256(token), email).Some?
      ensures err.None? && Lookup(old(rows), ViewOf, sha256(token), email).None? ==>
                Lookup(rows, ViewOf, sha256(token), email) == Some(now + TTL)
    {
      if random.ReadFailed? {
        return "", Some(EntropyFailed(random.reason));
      }
      token := Base32.Encode(random.block);
      Base32.DecodeEncode(random.block);
      var hash := sha256(token);
      var v := Row(hash, email, now + TTL);
      ghost var before := rows;
      err := Insert(v, conn);
      if err.Some? {
        return "", err;
      }
      AppendVerdict(before, ViewOf, v, email, now, ExpiredVerification);
    }

    /** Validate, then append the row. */
    method Insert(v: Verification, conn: Conn) returns (err: Option<Error>)
      modifies this
      ensures Validate(v, isEmail).Some? ==> err == Validate(v, isEmail) && rows == old(rows)
      ensures Validate(v, isEmail).None? && conn.Down? ==> err == Some(Db(conn.code)) && rows == old(rows)
      ensures Validate(v, isEmail).None? && conn.Up? ==> err.None? && rows == old(rows) + [v]
    {
      err := Validate(v, isEmail);
      if err.Some? {
        return;
      }
      if conn.Down? {
        return Some(Db(conn.code));
      }
      rows := rows + [v];
    }

    /** Whether any row has the address, expired or not. */
    method Exists(email: string, conn: Conn) returns (found: bool, err: Option<Error>)
      ensures conn.Down? ==> !found && err == Some(Db(conn.code))
      ensures conn.Up? ==> err.None? && (found <==> exists i :: 0 <= i < |rows| && rows[i].email == email)
    {
      if conn.Down? {
        return false, Some(Db(conn.code));
      }
      return HasEmail(rows, ViewOf, email), None;
    }

    /** Delete every row of the address. */
    method Purge(email: string, conn: Conn) returns (err: Option<Error>)
      modifies this
      ensures conn.Down? ==> err == Some(Db(conn.code)) && rows == old(rows)
      ensures conn.Up? ==> err.None? && rows == Purged(old(rows), ViewOf, email)
    {
      if conn.Down? {
        return Some(Db(conn.code));
      }
      rows := Purged(rows, ViewOf, email);
      return None;
    }

    /** Check `token` against the address: `ErrRecordNotFound` when no row
        has its hash and the address, `ErrExpiredVerification` when `now`
        is strictly after the first such row's expiry, nil otherwise. */
    method Verify(email: string, token: string, now: Time, conn: Conn) returns (err: Option<Error>)
      ensures conn.Down? ==> err == Some(Db(conn.code))
      ensures conn.Up? ==> err == Verdict(rows, ViewOf, sha256(token), email, now, ExpiredVerification)
    {
      var hash := sha256(token);
      if conn.Down? {
        return Some(Db(conn.code));
      }
      var found := Lookup(rows, ViewOf, hash, email);
      match found
      case None =>
        return Some(RecordNotFound);
      case Some(expiry) =>
        if After(now, expiry) {
          return Some(ExpiredVerification);
        }
        return None;
    }
  }
}
