/** internal/models/user.go: the older user store over the same `user_`
    table. `Insert` hashes the password itself and does not keep the hash
    in the struct; `Authenticate` answers with the user's id only. */
module ModelsUser {
  import opened Base
  import opened UserTable

  class UserModel {
    /** The `user_` table, in scan order. */
    var rows: seq<UserRow>
    /** The next value of the `id_` sequence. */
    var nextID: int
    /** The default of `version_` for a new row. */
    const initialVersion: int
    const argon2: Argon2

    /** Unique addresses, a primary key, ids below the sequence's next value. */
    ghost predicate Valid()
      reads this
    {
      UniqueEmails(rows) && UniqueIds(rows) && forall i :: 0 <= i < |rows| ==> rows[i].id < nextID
    }

    constructor (initialVersion: int, argon2: Argon2)
      ensures Valid() && rows == []
      ensures this.initialVersion == initialVersion && this.argon2 == argon2
    {
      rows := [];
      nextID := 1;
      this.initialVersion := initialVersion;
      this.argon2 := argon2;
    }

    /** Hash the password with argon2id and insert `(user.Email, hash)`; scan
        the new id, creation time and version back into the struct. The
        struct's own `PasswordHash` is left as it was. */
    method Insert(user: User, password: string, salt: Entropy, now: Time, conn: Conn) returns (err: Option<Error>)
      requires Valid()
      modifies this, user
      ensures Valid()
      ensures salt.ReadFailed? ==> err == Some(HashingFailed(salt.reason))
      ensures salt.Filled? && conn.Down? ==> err == Some(Db(conn.code))
      ensures salt.Filled? && conn.Up? && HasUserEmail(old(rows), old(user.email)) ==> err == Some(DuplicateEmail)
      ensures err.Some? ==> rows == old(rows) && nextID == old(nextID) && user.Row() == old(user.Row())
      ensures salt.Filled? && conn.Up? && !HasUserEmail(old(rows), old(user.email)) ==>
        err.None? && nextID == old(nextID) + 1
        && user.Row() == UserRow(old(nextID), now, old(user.email), old(user.passwordHash), initialVersion)
        && rows == old(rows) + [UserRow(old(nextID), now, old(user.email), argon2.derive(password, salt.block), initialVersion)]
    {
      if salt.ReadFailed? {
        return Some(HashingFailed(salt.reason));
      }
      var hash := argon2.derive(password, salt.block);
      if conn.Down? {
        return Some(Db(conn.code));
      }
      if HasUserEmail(rows, user.email) {
        return Some(DuplicateEmail);
      }
      var row := UserRow(nextID, now, user.email, hash, initialVersion);
      rows := rows + [row];
      nextID := nextID + 1;
      user.id, user.createdAt, user.version := row.id, row.createdAt, row.version;
      return None;
    }

    /** The user with the address, or `ErrRecordNotFound`. (The query filters
        on a column named `email` where the table's column is `email_`; the
        model runs it against `email_`.) */
    method GetByEmail(email: string, conn: Conn) returns (u: User?, err: Option<Error>)
      ensures u == null <==> err.Some?
      ensures conn.Down? ==> err == Some(Db(conn.code))
      ensures err == Some(RecordNotFound) <==> conn.Up? && !HasUserEmail(rows, email)
      ensures conn.Up? && HasUserEmail(rows, email) ==> err.None?
      ensures err.None? ==> FindEmail(rows, email).Some? && u.Row() == rows[FindEmail(rows, email).value]
      ensures err.None? ==> fresh(u) && u.email == email
    {
      if conn.Down? {
        return null, Some(Db(conn.code));
      }
      var k := FindEmail(rows, email);
      if k.None? {
        return null, Some(RecordNotFound);
      }
      u := new User.FromRow(rows[k.value]);
      return u, None;
    }

    /** The compare-and-swap update on the struct's id and version; the new
        version is scanned back into the struct. (The SQL names the table
        `users` and the columns without their trailing underscore; the model
        runs it on `user_`.) */
    method Update(user: User, conn: Conn) returns (err: Option<Error>)
      requires Valid()
      modifies this, user
      ensures Valid()
      ensures nextID == old(nextID)
      ensures user.id == old(user.id) && user.email == old(user.email) && user.passwordHash == old(user.passwordHash)
      ensures user.createdAt == old(user.createdAt)
      ensures conn.Down? ==> err == Some(Db(conn.code)) && rows == old(rows) && user.version == old(user.version)
      ensures conn.Up? ==>
        match old(ApplyUpdate(rows, user.id, user.version, user.email, user.passwordHash))
        case Rejected(e) => err == Some(e) && rows == old(rows) && user.version == old(user.version)
        case Updated(table, version) => err.None? && rows == table && user.version == version == old(user.version) + 1
    {
      if conn.Down? {
        return Some(Db(conn.code));
      }
      var outcome := ApplyUpdate(rows, user.id, user.version, user.email, user.passwordHash);
      if outcome.Rejected? {
        return Some(outcome.error);
      }
      UpdateKeepsConstraints(rows, user.id, user.version, user.email, user.passwordHash);
      rows := outcome.table;
      user.version := outcome.version;
      return None;
    }

    /** The id of the user whose address and password match. An unknown
        address and a wrong password both give `ErrInvalidCredentials` and
        id 0; a malformed stored hash gives argon2id's error. */
    method Authenticate(email: string, password: string, conn: Conn) returns (id: int, err: Option<Error>)
      ensures err.Some? ==> id == 0
      ensures conn.Down? ==> err == Some(Db(conn.code))
      ensures err == Some(InvalidCredentials) <==>
                conn.Up? && (!HasUserEmail(rows, email)
                             || argon2.compare(password, rows[FindEmail(rows, email).value].passwordHash) == Mismatch)
      ensures err.None? <==>
                conn.Up? && HasUserEmail(rows, email)
                && argon2.compare(password, rows[FindEmail(rows, email).value].passwordHash) == Match
      ensures err.None? ==> id == rows[FindEmail(rows, email).value].id
      ensures conn.Up? && HasUserEmail(rows, email)
              && argon2.compare(password, rows[FindEmail(rows, email).value].passwordHash).Malformed? ==>
                err == Some(HashingFailed(argon2.compare(password, rows[FindEmail(rows, email).value].passwordHash).reason))
    {
      if conn.Down? {
        return 0, Some(Db(conn.code));
      }
      var k := FindEmail(rows, email);
      if k.None? {
        return 0, Some(InvalidCredentials);
      }
      var row := rows[k.value];
      var verdict := argon2.compare(password, row.passwordHash);
      if verdict.Malformed? {
        return 0, Some(HashingFailed(verdict.reason));
      } else if verdict.Mismatch? {
        return 0, Some(InvalidCredentials);
      }
      return row.id, None;
    }
  }
}
