/** internal/data/token_authentication.go: bearer tokens bound to a user id,
    in the `authentication_token_` table. `Insert` writes `hash_`, `user_id_`
    and `expiry_`; `Exists`, `Purge` and `Verify` filter on an `email_`
    column that `Insert` never writes, so a row made by `Insert` carries no
    address (`None`) and those three queries never see it
    (`NewRowsAreInvisibleByEmail`). */
module DataTokenAuthentication {
  import opened Base
  import opened TokenTable
  import Tokens

  /** `AuthenticationTokenTTL`: 36 hours. */
  const AuthenticationTokenTTL: int := 36 * Hour

  /** `AuthenticationToken{UserID, *Token}`. */
  datatype AuthenticationToken = AuthenticationToken(userID: int, token: Tokens.Token) {
    /** ozzo's `Required` on the hash, the user id (non-zero) and the expiry. */
    function Validate(): (r: Option<Error>)
      ensures r.None? <==> token.hash != [] && userID != 0 && token.expiry != ZeroTime
      ensures r.Some? ==> r.value.Invalid?
      ensures r.Some? ==> (HashField in r.value.fields <==> token.hash == [])
      ensures r.Some? ==> (UserIDField in r.value.fields <==> userID == 0)
      ensures r.Some? ==> (ExpiryField in r.value.fields <==> token.expiry == ZeroTime)
      ensures r.Some? ==> EmailField !in r.value.fields
    {
      var fields := (if token.hash == [] then {HashField} else {})
                  + (if userID == 0 then {UserIDField} else {})
                  + (if token.expiry == ZeroTime then {ExpiryField} else {});
      if fields == {} then None else Some(Invalid(fields))
    }
  }

  /** A row of `authentication_token_`: `hash_`, `user_id_`, the `email_`
      column the queries read (`None`: never written) and `expiry_`. */
  datatype AuthRow = AuthRow(hash: seq<byte>, userID: int, email: Option<string>, expiry: Time)

  function AuthView(r: AuthRow): View {
    View(r.hash, r.email, r.expiry)
  }

  /** The row `Insert` writes for a token: no address. */
  function RowOf(at: AuthenticationToken): (r: AuthRow)
    ensures r.email.None?
  {
    AuthRow(at.token.hash, at.userID, None, at.token.expiry)
  }

  class AuthenticationTokenModel {
    /** The `authentication_token_` table, in scan order. */
    var rows: seq<AuthRow>
    /** `generateHash`: SHA-256 over the bytes of a string. */
    const sha256: string -> Digest

    constructor (sha256: string -> Digest)
      ensures rows == [] && this.sha256 == sha256
    {
      rows := [];
      this.sha256 := sha256;
    }

    /** Generate a token with the 36-hour ttl and bind it to `userID`. */
    method New(userID: int, random: Entropy, now: Time, conn: Conn) returns (t: Option<Tokens.Token>, err: Option<Error>)
      modifies this
      ensures t.Some? <==> err.None?
      ensures err.Some? ==> rows == old(rows)
      ensures random.ReadFailed? ==> err == Some(EntropyFailed(random.reason)) && rows == old(rows)
      ensures random.Filled? ==>
        var g := Tokens.Generate(AuthenticationTokenTTL, random, now, sha256).value;
        var at := AuthenticationToken(userID, g);
        if at.Validate().Some? then err == at.Validate() && rows == old(rows)
        else if conn.Down? then err == Some(Db(conn.code)) && rows == old(rows)
        else t == Some(g) && rows == old(rows) + [RowOf(at)]
      ensures t.Some? ==> Tokens.IsPlaintext(t.value.plaintext) && t.value.hash == sha256(t.value.plaintext)
      ensures t.Some? ==> t.value.expiry == now + AuthenticationTokenTTL && userID != 0
    {
      var g := Tokens.Generate(AuthenticationTokenTTL, random, now, sha256);
      if g.Fail? {
        return None, Some(g.error);
      }
      var at := AuthenticationToken(userID, g.value);
      err := Insert(at, conn);
      if err.Some? {
        return None, err;
      }
      t := Some(g.value);
    }

    /** Validate, then append `(hash, userID, expiry)`; no address is written. */
    method Insert(at: AuthenticationToken, conn: Conn) returns (err: Option<Error>)
      modifies this
      ensures at.Validate().Some? ==> err == at.Validate() && rows == old(rows)
      ensures at.Validate().None? && conn.Down? ==> err == Some(Db(conn.code)) && rows == old(rows)
      ensures at.Validate().None? && conn.Up? ==> err.None? && rows == old(rows) + [RowOf(at)]
    {
      err := at.Validate();
      if err.Some? {
        return;
      }
      if conn.Down? {
        return Some(Db(conn.code));
      }
      rows := rows + [RowOf(at)];
    }

    /** Whether any row's `email_` is the address. */
    method Exists(email: string, conn: Conn) returns (found: bool, err: Option<Error>)
      ensures conn.Down? ==> !found && err == Some(Db(conn.code))
      ensures conn.Up? ==> err.None? && (found <==> exists i :: 0 <= i < |rows| && rows[i].email == Some(email))
    {
      if conn.Down? {
        return false, Some(Db(conn.code));
      }
      return HasEmail(rows, AuthView, email), None;
    }

    /** Delete exactly the rows whose `email_` is the address. */
    method Purge(email: string, conn: Conn) returns (err: Option<Error>)
      modifies this
      ensures conn.Down? ==> err == Some(Db(conn.code)) && rows == old(rows)
      ensures conn.Up? ==> err.None? && rows == Purged(old(rows), AuthView, email)
    {
      if conn.Down? {
        return Some(Db(conn.code));
      }
      rows := Purged(rows, AuthView, email);
      return None;
    }

    /** `ErrRecordNotFound` when no row has the token's hash and the
        address, `ErrExpiredToken` when `now` is strictly after the first
        such row's expiry, nil otherwise. */
    method Verify(email: string, token: string, now: Time, conn: Conn) returns (err: Option<Error>)
      ensures conn.Down? ==> err == Some(Db(conn.code))
      ensures conn.Up? ==> err == Verdict(rows, AuthView, sha256(token), email, now, ExpiredToken)
    {
      var hash := sha256(token);
      if conn.Down? {
        return Some(Db(conn.code));
      }
      match Lookup(rows, AuthView, hash, email)
      case None =>
        return Some(RecordNotFound);
      case Some(expiry) =>
        if After(now, expiry) {
          return Some(ExpiredToken);
        }
        return None;
    }
  }

  /** Rows written by `Insert` are invisible to the three address-keyed
      queries: no address exists and no token verifies against one. */
  lemma {:induction false} NewRowsAreInvisibleByEmail(rows: seq<AuthRow>, email: string, hash: seq<byte>, now: Time)
    requires forall i :: 0 <= i < |rows| ==> rows[i].email.None?
    ensures !HasEmail(rows, AuthView, email)
    ensures Purged(rows, AuthView, email) == rows
    ensures Verdict(rows, AuthView, hash, email, now, ExpiredToken) == Some(RecordNotFound)
  {
    if rows != [] {
      NewRowsAreInvisibleByEmail(rows[1..], email, hash, now);
      assert rows == [rows[0]] + rows[1..];
    }
  }
}
