/** internal/models/token_verification.go: the second generation of the
    `verification_token_` store. `New` builds the token with
    `generateToken(VerificationTokenTTL)` and stores the pair
    `{email, token}`; the other operations are the table queries of the
    first generation, with `ErrExpiredToken` as the expiry error. */
module ModelsTokenVerification {
  import opened Base
  import opened TokenTable
  import Tokens

  /** `VerificationTokenTTL`: 36 hours. */
  const VerificationTokenTTL: int := 36 * Hour

  /** `VerificationToken{Email, *Token}`. */
  datatype VerificationToken = VerificationToken(email: string, token: Tokens.Token) {
    /** The row `Insert` writes: `(hash_, email_, expiry_)`. */
    function AsRow(): Row {
      Row(token.hash, email, token.expiry)
    }
  }

  class VerificationTokenModel {
    /** The `verification_token_` table, in scan order. */
    var rows: seq<Row>
    /** `generateHash`: SHA-256 over the bytes of a string. */
    const sha256: string -> Digest
    /** ozzo's `is.Email` rule. */
    const isEmail: string -> bool

    constructor (sha256: string -> Digest, isEmail: string -> bool)
      ensures rows == [] && this.sha256 == sha256 && this.isEmail == isEmail
    {
      rows := [];
      this.sha256 := sha256;
      this.isEmail := isEmail;
    }

    /** Generate a token for `email` and insert it. A failed generation
        inserts nothing; any failure returns a nil token. */
    method New(email: string, random: Entropy, now: Time, conn: Conn) returns (t: Option<Tokens.Token>, err: Option<Error>)
      modifies this
      ensures t.Some? <==> err.None?
      ensures random.ReadFailed? ==> err == Some(EntropyFailed(random.reason)) && rows == old(rows)
      ensures random.Filled? ==>
        var g := Tokens.Generate(VerificationTokenTTL, random, now, sha256).value;
        var vt := VerificationToken(email, g);
        if Validate(vt.AsRow(), isEmail).Some? then err == Validate(vt.AsRow(), isEmail) && rows == old(rows)
        else if conn.Down? then err == Some(Db(conn.code)) && rows == old(rows)
        else t == Some(g) && rows == old(rows) + [vt.AsRow()]
      ensures t.Some? ==> Tokens.IsPlaintext(t.value.plaintext) && t.value.hash == sha256(t.value.plaintext)
      ensures t.Some? ==> t.value.expiry == now + VerificationTokenTTL
      ensures t.Some? ==> Lookup(rows, ViewOf, sha256(t.value.plaintext), email).Some?
    {
      var g := Tokens.Generate(VerificationTokenTTL, random, now, sha256);
      if g.Fail? {
        return None, Some(g.error);
      }
      var vt := VerificationToken(email, g.value);
      ghost var before := rows;
      err := Insert(vt, conn);
      if err.Some? {
        return None, err;
      }
      t := Some(g.value);
      AppendVerdict(before, ViewOf, vt.AsRow(), email, now, ExpiredToken);
    }

    /** Validate (hash, address, expiry), then append the row. */
    method Insert(vt: VerificationToken, conn: Conn) returns (err: Option<Error>)
      modifies this
      ensures Validate(vt.AsRow(), isEmail).Some? ==> err == Validate(vt.AsRow(), isEmail) && rows == old(rows)
      ensures Validate(vt.AsRow(), isEmail).None? && conn.Down? ==> err == Some(Db(conn.code)) && rows == old(rows)
      ensures Validate(vt.AsRow(), isEmail).None? && conn.Up? ==> err.None? && rows == old(rows) + [vt.AsRow()]
    {
      err := Validate(vt.AsRow(), isEmail);
      if err.Some? {
        return;
      }
      if conn.Down? {
        return Some(Db(conn.code));
      }
      rows := rows + [vt.AsRow()];
    }

    /** Whether any row has the address; expiry is not looked at. */
    method Exists(email: string, conn: Conn) returns (found: bool, err: Option<Error>)
      ensures conn.Down? ==> !found && err == Some(Db(conn.code))
      ensures conn.Up? ==> err.None? && (found <==> exists i :: 0 <= i < |rows| && rows[i].email == email)
    {
      if conn.Down? {
        return false, Some(Db(conn.code));
      }
      return HasEmail(rows, ViewOf, email), None;
    }

    /** Delete exactly the rows of the address. */
    method Purge(email: string, conn: Conn) returns (err: Option<Error>)
      modifies this
      ensures conn.Down? ==> err == Some(Db(conn.code)) && rows == old(rows)
      ensures conn.Up? ==> err.None? && rows == Purged(old(rows), ViewOf, email)
    {
      if conn.Down? {
        return Some(Db(conn.code));
      }
      rows := Purged(rows, ViewOf, email);
      return None;
    }

    /** `ErrRecordNotFound` when no row has the token's hash and the
        address, `ErrExpiredToken` when `now` is strictly after the first
        such row's expiry, nil otherwise. */
    method Verify(email: string, token: string, now: Time, conn: Conn) returns (err: Option<Error>)
      ensures conn.Down? ==> err == Some(Db(conn.code))
      ensures conn.Up? ==> err == Verdict(rows, ViewOf, sha256(token), email, now, ExpiredToken)
    {
      var hash := sha256(token);
      if conn.Down? {
        return Some(Db(conn.code));
      }
      match Lookup(rows, ViewOf, hash, email)
      case None =>
        return Some(RecordNotFound);
      case Some(expiry) =>
        if After(now, expiry) {
          return Some(ExpiredToken);
        }
        return None;
    }
  }
}
