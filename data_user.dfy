/** internal/data/user.go: the user store the current handlers use. */
module DataUser {
  import opened Base
  import opened UserTable
  import DataTokenAuthentication

  /** `(*User).IsAnonymous`: object identity with the `AnonymousUser`
      sentinel, never a comparison of field values. */
  predicate IsAnonymous(u: User, anonymousUser: User): (r: bool)
    reads u, anonymousUser
    ensures r ==> u.Row() == anonymousUser.Row()
  {
    u == anonymousUser
  }

  /** A user built separately with the sentinel's (all-zero) fields is still
      not the anonymous user. */
  method NewEmptyUser(anonymousUser: User) returns (u: User)
    ensures u.Row() == UserRow(0, ZeroTime, "", [], 0)
    ensures !IsAnonymous(u, anonymousUser)
  {
    u := new User("", []);
  }

  /** The joined row `GetForAuthToken` reads: the first `authentication_token_`
      row with the hash whose `user_id_` has a user, with that user's row and
      the token's expiry. */
  function JoinLookup(users: seq<UserRow>, tokens: seq<DataTokenAuthentication.AuthRow>, hash: seq<byte>)
    : (r: Option<(UserRow, Time)>)
    ensures r.None? <==> forall i :: 0 <= i < |tokens| && tokens[i].hash == hash ==> FindId(users, tokens[i].userID).None?
    ensures r.Some? ==> exists i :: 0 <= i < |tokens| && tokens[i].hash == hash
                                    && FindId(users, tokens[i].userID).Some?
                                    && r.value == (users[FindId(users, tokens[i].userID).value], tokens[i].expiry)
  {
    if tokens == [] then None
    else if tokens[0].hash == hash && FindId(users, tokens[0].userID).Some? then
      Some((users[FindId(users, tokens[0].userID).value], tokens[0].expiry))
    else
      var r := JoinLookup(users, tokens[1..], hash);
      assert forall i :: 1 <= i < |tokens| ==> tokens[i] == tokens[1..][i - 1];
      r
  }

  class UserModel {
    /** The `user_` table, in scan order. */
    var rows: seq<UserRow>
    /** The next value of the `id_` sequence. */
    var nextID: int
    /** The default of `version_` for a new row. */
    const initialVersion: int
    const argon2: Argon2
    /** `generateHash`: SHA-256 over the bytes of a string. */
    const sha256: string -> Digest

    /** The table's constraints: unique addresses, a primary key, and ids
        below the sequence's next value. */
    ghost predicate Valid()
      reads this
    {
      UniqueEmails(rows) && UniqueIds(rows) && forall i :: 0 <= i < |rows| ==> rows[i].id < nextID
    }

    constructor (initialVersion: int, argon2: Argon2, sha256: string -> Digest)
      ensures Valid() && rows == []
      ensures this.initialVersion == initialVersion && this.argon2 == argon2 && this.sha256 == sha256
    {
      rows := [];
      nextID := 1;
      this.initialVersion := initialVersion;
      this.argon2 := argon2;
      this.sha256 := sha256;
    }

    /** Hash the password with argon2id, then insert a user with the address
        and the hash; on any failure there is no user. The stored hash is
        the argon2id output, never the password. */
    method New(email: string, password: string, salt: Entropy, now: Time, conn: Conn) returns (user: User?, err: Option<Error>)
      requires Valid()
      modifies this
      ensures Valid()
      ensures user == null <==> err.Some?
      ensures err.Some? ==> rows == old(rows)
      ensures salt.ReadFailed? ==> err == Some(HashingFailed(salt.reason)) && rows == old(rows)
      ensures salt.Filled? && conn.Down? ==> err == Some(Db(conn.code)) && rows == old(rows)
      ensures salt.Filled? && conn.Up? && HasUserEmail(old(rows), email) ==> err == Some(DuplicateEmail) && rows == old(rows)
      ensures salt.Filled? && conn.Up? && !HasUserEmail(old(rows), email) ==> err.None?
      ensures err.None? ==> fresh(user) && salt.Filled?
      ensures err.None? ==>
        user.Row() == UserRow(old(nextID), now, email, argon2.derive(password, salt.block), initialVersion)
        && rows == old(rows) + [user.Row()]
    {
      if salt.ReadFailed? {
        return null, Some(HashingFailed(salt.reason));
      }
      var hash := argon2.derive(password, salt.block);
      var u := new User(email, hash);
      err := Insert(u, now, conn);
      if err.Some? {
        return null, err;
      }
      return u, None;
    }

    /** `INSERT INTO user_ (email_, password_hash_) ... RETURNING id_,
        created_at_, version_`, scanned back into the struct. An address
        already taken is the unique violation, reported as `ErrDuplicateEmail`. */
    method Insert(user: User, now: Time, conn: Conn) returns (err: Option<Error>)
      requires Valid()
      modifies this, user
      ensures Valid()
      ensures conn.Down? ==> err == Some(Db(conn.code))
      ensures conn.Up? && HasUserEmail(old(rows), old(user.email)) ==> err == Some(DuplicateEmail)
      ensures err.Some? ==> rows == old(rows) && nextID == old(nextID) && user.Row() == old(user.Row())
      ensures conn.Up? && !HasUserEmail(old(rows), old(user.email)) ==>
        err.None? && nextID == old(nextID) + 1
        && user.Row() == UserRow(old(nextID), now, old(user.email), old(user.passwordHash), initialVersion)
        && rows == old(rows) + [user.Row()]
    {
      if conn.Down? {
        return Some(Db(conn.code));
      }
      if HasUserEmail(rows, user.email) {
        return Some(DuplicateEmail);
      }
      var row := UserRow(nextID, now, user.email, user.passwordHash, initialVersion);
      rows := rows + [row];
      nextID := nextID + 1;
      user.id, user.createdAt, user.version := row.id, row.createdAt, row.version;
      return None;
    }

    /** Look the address up and check the password against its hash. An
        unknown address and a wrong password give the same
        `ErrInvalidCredentials`; a malformed stored hash gives argon2id's error. */
    method GetForCredentials(email: string, password: string, conn: Conn) returns (u: User?, err: Option<Error>)
      ensures u == null <==> err.Some?
      ensures conn.Down? ==> err == Some(Db(conn.code))
      ensures err == Some(InvalidCredentials) <==>
                conn.Up? && (!HasUserEmail(rows, email)
                             || argon2.compare(password, rows[FindEmail(rows, email).value].passwordHash) == Mismatch)
      ensures conn.Up? && FindEmail(rows, email).Some?
              && argon2.compare(password, rows[FindEmail(rows, email).value].passwordHash).Malformed? ==>
                err == Some(HashingFailed(argon2.compare(password, rows[FindEmail(rows, email).value].passwordHash).reason))
      ensures err.None? <==> conn.Up? && FindEmail(rows, email).Some?
                             && argon2.compare(password, rows[FindEmail(rows, email).value].passwordHash) == Match
      ensures err.None? ==> u.Row() == rows[FindEmail(rows, email).value]
                            && argon2.compare(password, u.passwordHash) == Match
    {
      if conn.Down? {
        return null, Some(Db(conn.code));
      }
      var k := FindEmail(rows, email);
      if k.None? {
        return null, Some(InvalidCredentials);
      }
      var row := rows[k.value];
      var verdict := argon2.compare(password, row.passwordHash);
      if verdict.Malformed? {
        return null, Some(HashingFailed(verdict.reason));
      } else if verdict.Mismatch? {
        return null, Some(InvalidCredentials);
      }
      u := new User.FromRow(row);
      return u, None;
    }

    /** The bearer check: join the token's hash with its user. No joined row
        is `ErrRecordNotFound`, `now` strictly after the token's expiry is
        `ErrExpiredToken`, otherwise the user. */
    method GetForAuthToken(token: string, tokens: DataTokenAuthentication.AuthenticationTokenModel, now: Time, conn: Conn)
      returns (u: User?, err: Option<Error>)
      ensures u == null <==> err.Some?
      ensures conn.Down? ==> err == Some(Db(conn.code))
      ensures conn.Up? ==>
        match JoinLookup(rows, tokens.rows, sha256(token))
        case None => err == Some(RecordNotFound)
        case Some(joined) =>
          if After(now, joined.1) then err == Some(ExpiredToken) else err.None? && u.Row() == joined.0
    {
      var hash := sha256(token);
      if conn.Down? {
        return null, Some(Db(conn.code));
      }
      var joined := JoinLookup(rows, tokens.rows, hash);
      if joined.None? {
        return null, Some(RecordNotFound);
      }
      if After(now, joined.value.1) {
        return null, Some(ExpiredToken);
      }
      u := new User.FromRow(joined.value.0);
      return u, None;
    }

    /** Whether a user has the address (the handlers' `ExistsWithEmail`). */
    method Exists(email: string, conn: Conn) returns (found: bool, err: Option<Error>)
      ensures conn.Down? ==> !found && err == Some(Db(conn.code))
      ensures conn.Up? ==> err.None? && (found <==> exists i :: 0 <= i < |rows| && rows[i].email == email)
    {
      if conn.Down? {
        return false, Some(Db(conn.code));
      }
      return HasUserEmail(rows, email), None;
    }

    /** The compare-and-swap update keyed on the struct's id and version:
        on success the row takes the struct's address and hash, its version
        goes up by exactly one and the new version is written back into the
        struct. A stale version surfaces the raw "no rows" error. (The SQL
        names the table `users` and the column `version`, while `Insert`
        uses `user_` and `version_`; the model runs both on one table.) */
    method Update(user: User, conn: Conn) returns (err: Option<Error>)
      requires Valid()
      modifies this, user
      ensures Valid()
      ensures nextID == old(nextID)
      ensures user.id == old(user.id) && user.email == old(user.email) && user.passwordHash == old(user.passwordHash)
      ensures user.createdAt == old(user.createdAt)
      ensures conn.Down? ==> err == Some(Db(conn.code)) && rows == old(rows) && user.version == old(user.version)
      ensures conn.Up? ==>
        match old(ApplyUpdate(rows, user.id, user.version, user.email, user.passwordHash))
        case Rejected(e) => err == Some(e) && rows == old(rows) && user.version == old(user.version)
        case Updated(table, version) => err.None? && rows == table && user.version == version == old(user.version) + 1
    {
      if conn.Down? {
        return Some(Db(conn.code));
      }
      var outcome := ApplyUpdate(rows, user.id, user.version, user.email, user.passwordHash);
      match outcome
      case Rejected(e) =>
        return Some(e);
      case Updated(table, version) =>
        UpdateKeepsConstraints(rows, user.id, user.version, user.email, user.passwordHash);
        rows := table;
        user.version := version;
        return None;
    }
  }
}
