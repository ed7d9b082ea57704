/** The `user_` table and the `User` struct, which internal/data/user.go and
    internal/models/user.go each declare with the same fields, and the
    compare-and-swap update both of them run. */
module UserTable {
  import opened Base

  /** A row of `user_`: `id_`, `created_at_`, `email_`, `password_hash_`, `version_`. */
  datatype UserRow = UserRow(id: int, createdAt: Time, email: string, passwordHash: seq<byte>, version: int)

  /** `User{ID, CreatedAt, Email, PasswordHash, Version}`. The stores write
      into the caller's struct by reference, so it is an object. */
  class User {
    var id: int
    var createdAt: Time
    var email: string
    var passwordHash: seq<byte>
    var version: int

    /** `&User{Email: email, PasswordHash: hash}`: every other field is zero. */
    constructor (email: string, passwordHash: seq<byte>)
      ensures Row() == UserRow(0, ZeroTime, email, passwordHash, 0)
    {
      this.id := 0;
      this.createdAt := ZeroTime;
      this.email := email;
      this.passwordHash := passwordHash;
      this.version := 0;
    }

    /** A `User` scanned from a row. */
    constructor FromRow(r: UserRow)
      ensures Row() == r
    {
      this.id := r.id;
      this.createdAt := r.createdAt;
      this.email := r.email;
      this.passwordHash := r.passwordHash;
      this.version := r.version;
    }

    function Row(): UserRow
      reads this
    {
      UserRow(id, createdAt, email, passwordHash, version)
    }
  }

  /** The argon2id functions the stores call (RFC 9106): `derive` is
      `CreateHash` once its random salt is drawn, `compare` is
      `ComparePasswordAndHash`. */
  datatype Argon2 = Argon2(derive: (string, RandomBlock) -> seq<byte>,
                           compare: (string, seq<byte>) -> Comparison)

  /** The unique constraint on `email_`. */
  predicate UniqueEmails(rows: seq<UserRow>) {
    forall i, j :: 0 <= i < |rows| && 0 <= j < |rows| && rows[i].email == rows[j].email ==> i == j
  }

  /** The primary key `id_`. */
  predicate UniqueIds(rows: seq<UserRow>) {
    forall i, j :: 0 <= i < |rows| && 0 <= j < |rows| && rows[i].id == rows[j].id ==> i == j
  }

  predicate HasUserEmail(rows: seq<UserRow>, email: string) {
    exists i :: 0 <= i < |rows| && rows[i].email == email
  }

  /** Where the row with the address is, if any. */
  function FindEmail(rows: seq<UserRow>, email: string): (r: Option<nat>)
    ensures r.None? <==> !HasUserEmail(rows, email)
    ensures r.Some? ==> r.value < |rows| && rows[r.value].email == email
  {
    if rows == [] then None
    else if rows[0].email == email then Some(0)
    else match FindEmail(rows[1..], email)
         case None => None
         case Some(k) => Some(k + 1)
  }

  /** Where the row with the id is, if any. */
  function FindId(rows: seq<UserRow>, id: int): (r: Option<nat>)
    ensures r.None? <==> forall i :: 0 <= i < |rows| ==> rows[i].id != id
    ensures r.Some? ==> r.value < |rows| && rows[r.value].id == id
  {
    if rows == [] then None
    else if rows[0].id == id then Some(0)
    else match FindId(rows[1..], id)
         case None => None
         case Some(k) => Some(k + 1)
  }

  /** What `UPDATE ... SET email_, password_hash_, version_ = version_ + 1
      WHERE id_ = $3 AND version_ = $4 RETURNING version` did. */
  datatype UpdateOutcome = Updated(table: seq<UserRow>, version: int) | Rejected(error: Error)

  /** The compare-and-swap update: the row with the id must still carry the
      version the caller read. No such row surfaces the driver's raw "no
      rows" error (never `ErrEditConflict`); an address another row already
      has violates the unique constraint (`ErrDuplicateEmail`); otherwise
      that one row gets the new address and hash and its version plus one. */
  function ApplyUpdate(rows: seq<UserRow>, id: int, version: int, email: string, hash: seq<byte>): (r: UpdateOutcome)
    requires UniqueIds(rows)
    ensures r == Rejected(NoRows) <==> forall i :: 0 <= i < |rows| && rows[i].id == id ==> rows[i].version != version
    ensures r.Rejected? ==> r.error == NoRows || r.error == DuplicateEmail
    ensures r == Rejected(DuplicateEmail) ==> exists j :: 0 <= j < |rows| && rows[j].email == email && rows[j].id != id
    ensures r.Updated? ==> r.version == version + 1 && |r.table| == |rows|
    ensures r.Updated? ==>
              exists k :: 0 <= k < |rows| && rows[k].id == id && rows[k].version == version
                          && r.table == rows[k := UserRow(id, rows[k].createdAt, email, hash, version + 1)]
  {
    match FindId(rows, id)
    case None => Rejected(NoRows)
    case Some(k) =>
      if rows[k].version != version then
        Rejected(NoRows)
      else if exists j :: 0 <= j < |rows| && j != k && rows[j].email == email then
        Rejected(DuplicateEmail)
      else
        Updated(rows[k := UserRow(id, rows[k].createdAt, email, hash, version + 1)], version + 1)
  }

  /** The optimistic lock: once an update from `version` went through, a
      second update from the same `version` finds no row, whatever it
      writes. Of two writers that read the same version, only one wins. */
  lemma StaleVersionLoses(rows: seq<UserRow>, id: int, version: int,
                          email1: string, hash1: seq<byte>, email2: string, hash2: seq<byte>)
    requires UniqueIds(rows)
    requires ApplyUpdate(rows, id, version, email1, hash1).Updated?
    ensures ApplyUpdate(ApplyUpdate(rows, id, version, email1, hash1).table, id, version, email2, hash2) == Rejected(NoRows)
  {
    var t := ApplyUpdate(rows, id, version, email1, hash1).table;
    var k :| 0 <= k < |rows| && rows[k].id == id && rows[k].version == version
             && t == rows[k := UserRow(id, rows[k].createdAt, email1, hash1, version + 1)];
    assert forall i :: 0 <= i < |t| && i != k ==> t[i] == rows[i];
  }

  /** An update keeps the table's constraints. */
  lemma UpdateKeepsConstraints(rows: seq<UserRow>, id: int, version: int, email: string, hash: seq<byte>)
    requires UniqueIds(rows) && UniqueEmails(rows)
    requires ApplyUpdate(rows, id, version, email, hash).Updated?
    ensures UniqueIds(ApplyUpdate(rows, id, version, email, hash).table)
    ensures UniqueEmails(ApplyUpdate(rows, id, version, email, hash).table)
  {
    var k := FindId(rows, id).value;
    assert rows[k].version == version;
    assert forall j :: 0 <= j < |rows| && j != k ==> rows[j].email != email;
  }

  /** Only the updated user's row changes; every other row stays as it was. */
  lemma UpdateTouchesOneRow(rows: seq<UserRow>, id: int, version: int, email: string, hash: seq<byte>, i: int)
    requires UniqueIds(rows)
    requires ApplyUpdate(rows, id, version, email, hash).Updated?
    requires 0 <= i < |rows| && rows[i].id != id
    ensures ApplyUpdate(rows, id, version, email, hash).table[i] == rows[i]
  {
  }
}
