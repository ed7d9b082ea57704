/** The `data.VerificationTokenModel` that cmd/api/tokens.go and
    cmd/api/users.go call with a `(scope, email, *userID)` signature. Its
    source is not part of this model, so this class mirrors the shown token
    stores: a table of `(hash, scope, email, user id, expiry)` rows, a
    generator-then-validated-insert `New`, an `Exists` on the scope, address
    and owner, and the address-keyed `Verify` and `Purge` of the other
    stores (with `ErrExpiredToken`, the only expiry error the `data`
    package declares). Its ttl is a parameter, since its value is not shown. */
module DataVerificationToken {
  import opened Base
  import opened TokenTable
  import Tokens

  /** `data.ScopeRegistration` and `data.ScopeChangeEmail`. */
  datatype Scope = Registration | ChangeEmail

  /** A row: the hash, the scope, the address, the owning user's id (`None`
      for a registration, which has no user yet) and the expiry. */
  datatype ScopedRow = ScopedRow(hash: seq<byte>, scope: Scope, email: string, owner: Option<int>, expiry: Time)

  function ScopedView(r: ScopedRow): View {
    View(r.hash, Some(r.email), r.expiry)
  }

  /** Whether some row has the scope, the address and the owner. */
  predicate HasScoped(rows: seq<ScopedRow>, scope: Scope, email: string, owner: Option<int>) {
    exists i :: 0 <= i < |rows| && rows[i].scope == scope && rows[i].email == email && rows[i].owner == owner
  }

  class VerificationTokenModel {
    var rows: seq<ScopedRow>
    const ttl: int
    /** `generateHash`: SHA-256 over the bytes of a string. */
    const sha256: string -> Digest
    /** ozzo's `is.Email` rule. */
    const isEmail: string -> bool

    constructor (ttl: int, sha256: string -> Digest, isEmail: string -> bool)
      ensures rows == [] && this.ttl == ttl && this.sha256 == sha256 && this.isEmail == isEmail
    {
      rows := [];
      this.ttl := ttl;
      this.sha256 := sha256;
      this.isEmail := isEmail;
    }

    /** Whether a token of the scope for the address and owner exists;
        expiry is not looked at. */
    method Exists(scope: Scope, email: string, owner: Option<int>, conn: Conn) returns (found: bool, err: Option<Error>)
      ensures conn.Down? ==> !found && err == Some(Db(conn.code))
      ensures conn.Up? ==> err.None? && (found <==> HasScoped(rows, scope, email, owner))
    {
      if conn.Down? {
        return false, Some(Db(conn.code));
      }
      found := exists i :: 0 <= i < |rows| && rows[i].scope == scope && rows[i].email == email && rows[i].owner == owner;
      return found, None;
    }

    /** What `New` has in hand before it reaches the database: the
        generated token and the row it will append, or the generator's or
        the validation's error. */
    function Prepare(scope: Scope, email: string, owner: Option<int>, random: Entropy, now: Time)
      : (r: Result<(Tokens.Token, ScopedRow)>)
      ensures random.ReadFailed? ==> r == Fail(EntropyFailed(random.reason))
      ensures r.Fail? && random.Filled? ==> r.error.Invalid?
      ensures r.Ok? <==> random.Filled? && email != "" && isEmail(email) && now + ttl != ZeroTime
      ensures r.Ok? ==> Tokens.IsPlaintext(r.value.0.plaintext) && r.value.0.hash == sha256(r.value.0.plaintext)
      ensures r.Ok? ==> r.value.1 == ScopedRow(sha256(r.value.0.plaintext), scope, email, owner, now + ttl)
      ensures r.Ok? ==> r.value.0.expiry == now + ttl
    {
      match Tokens.Generate(ttl, random, now, sha256)
      case Fail(e) => Fail(e)
      case Ok(g) =>
        match Validate(Row(g.hash, email, g.expiry), isEmail)
        case Some(e) => Fail(e)
        case None => Ok((g, ScopedRow(g.hash, scope, email, owner, g.expiry)))
    }

    /** Generate a token, validate (hash, address, expiry) and append a row
        of the scope bound to the owner. Any failure returns no token and
        leaves the table as it was. */
    method New(scope: Scope, email: string, owner: Option<int>, random: Entropy, now: Time, conn: Conn)
      returns (t: Option<Tokens.Token>, err: Option<Error>)
      modifies this
      ensures t.Some? <==> err.None?
      ensures err.Some? ==> rows == old(rows)
      ensures Prepare(scope, email, owner, random, now).Fail? ==> err == Some(Prepare(scope, email, owner, random, now).error)
      ensures Prepare(scope, email, owner, random, now).Ok? && conn.Down? ==> err == Some(Db(conn.code))
      ensures Prepare(scope, email, owner, random, now).Ok? && conn.Up? ==>
                t == Some(Prepare(scope, email, owner, random, now).value.0)
                && rows == old(rows) + [Prepare(scope, email, owner, random, now).value.1]
      ensures t.Some? ==> HasScoped(rows, scope, email, owner)
      ensures t.Some? ==> Verdict(rows, ScopedView, sha256(t.value.plaintext), email, now, ExpiredToken) != Some(RecordNotFound)
    {
      var p := Prepare(scope, email, owner, random, now);
      if p.Fail? {
        return None, Some(p.error);
      }
      if conn.Down? {
        return None, Some(Db(conn.code));
      }
      var row := p.value.1;
      AppendVerdict(rows, ScopedView, row, email, now, ExpiredToken);
      rows := rows + [row];
      assert rows[|rows| - 1] == row;
      return Some(p.value.0), None;
    }

    /** Delete every token of the address, whatever its scope. */
    method Purge(email: string, conn: Conn) returns (err: Option<Error>)
      modifies this
      ensures conn.Down? ==> err == Some(Db(conn.code)) && rows == old(rows)
      ensures conn.Up? ==> err.None? && rows == Purged(old(rows), ScopedView, email)
    {
      if conn.Down? {
        return Some(Db(conn.code));
      }
      rows := Purged(rows, ScopedView, email);
      return None;
    }

    /** `ErrRecordNotFound` when no row has the token's hash and the
        address, `ErrExpiredToken` when `now` is strictly after the first
        such row's expiry, nil otherwise. */
    method Verify(email: string, token: string, now: Time, conn: Conn) returns (err: Option<Error>)
      ensures conn.Down? ==> err == Some(Db(conn.code))
      ensures conn.Up? ==> err == Verdict(rows, ScopedView, sha256(token), email, now, ExpiredToken)
    {
      var hash := sha256(token);
      if conn.Down? {
        return Some(Db(conn.code));
      }
      var found := Lookup(rows, ScopedView, hash, email);
      if found.None? {
        return Some(RecordNotFound);
      }
      if After(now, found.value) {
        return Some(ExpiredToken);
      }
      return None;
    }
  }
}
