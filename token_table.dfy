/** What the token stores have in common. Every token table is queried the
    same way, whatever else its rows hold: `Exists` asks whether some row's
    `email_` column is the address, `Purge` deletes the rows whose `email_` is
    the address, and `Verify` selects the expiry of the first row whose
    `hash_` and `email_` match and compares it with the clock. The functions
    below state those queries once, over any row type, through a `View` of
    the three columns they read. */
module TokenTable {
  import opened Base

  /** The columns the queries read: `hash_`, `email_` (`None` when the row
      has no address, i.e. the column is NULL) and `expiry_`. */
  datatype View = View(hash: seq<byte>, email: Option<string>, expiry: Time)

  /** A row of the three email-keyed tables (`verification_` and both
      generations of `verification_token_`): the columns `hash_`, `email_`,
      `expiry_`. It is also the `Verification` struct those stores insert. */
  datatype Row = Row(hash: seq<byte>, email: string, expiry: Time)

  function ViewOf(r: Row): View {
    View(r.hash, Some(r.email), r.expiry)
  }

  predicate Matches(v: View, hash: seq<byte>, email: string) {
    v.hash == hash && v.email == Some(email)
  }

  /** `SELECT EXISTS (SELECT 1 FROM t WHERE email_ = $1)`. */
  predicate HasEmail<R>(rows: seq<R>, view: R -> View, email: string) {
    exists i :: 0 <= i < |rows| && view(rows[i]).email == Some(email)
  }

  /** `DELETE FROM t WHERE email_ = $1`: the table without the address's rows. */
  function Purged<R>(rows: seq<R>, view: R -> View, email: string): (r: seq<R>)
    ensures forall i :: 0 <= i < |r| ==> r[i] in rows && view(r[i]).email != Some(email)
    ensures forall i :: 0 <= i < |rows| && view(rows[i]).email != Some(email) ==> rows[i] in r
    ensures |r| <= |rows|
  {
    if rows == [] then []
    else (if view(rows[0]).email == Some(email) then [] else [rows[0]]) + Purged(rows[1..], view, email)
  }

  /** `SELECT expiry_ FROM t WHERE hash_ = $1 AND email_ = $2` read with
      `QueryRow`: the expiry of the first matching row, `None` for no rows. */
  function Lookup<R>(rows: seq<R>, view: R -> View, hash: seq<byte>, email: string): (r: Option<Time>)
    ensures r.None? <==> forall i :: 0 <= i < |rows| ==> !Matches(view(rows[i]), hash, email)
    ensures r.Some? ==> exists i :: 0 <= i < |rows| && Matches(view(rows[i]), hash, email)
                                    && view(rows[i]).expiry == r.value
                                    && forall j :: 0 <= j < i ==> !Matches(view(rows[j]), hash, email)
  {
    if rows == [] then None
    else if Matches(view(rows[0]), hash, email) then Some(view(rows[0]).expiry)
    else
      var r := Lookup(rows[1..], view, hash, email);
      if r.Some? then
        var i :| 0 <= i < |rows[1..]| && Matches(view(rows[1..][i]), hash, email)
                 && view(rows[1..][i]).expiry == r.value
                 && forall j :: 0 <= j < i ==> !Matches(view(rows[1..][j]), hash, email);
        assert Matches(view(rows[i + 1]), hash, email);
        r
      else r
  }

  /** The outcome of `Verify` once its query went through: `ErrRecordNotFound`
      when no row matches, the store's expiry error when the clock is strictly
      after the found expiry, nil otherwise. */
  function Verdict<R>(rows: seq<R>, view: R -> View, hash: seq<byte>, email: string,
                      now: Time, expired: Error): (r: Option<Error>)
    requires expired != RecordNotFound
    ensures r == Some(RecordNotFound) <==> forall i :: 0 <= i < |rows| ==> !Matches(view(rows[i]), hash, email)
    ensures r == None || r == Some(RecordNotFound) || r == Some(expired)
    ensures r.None? ==> exists i :: 0 <= i < |rows| && Matches(view(rows[i]), hash, email) && !After(now, view(rows[i]).expiry)
    ensures r == Some(expired) ==> exists i :: 0 <= i < |rows| && Matches(view(rows[i]), hash, email) && After(now, view(rows[i]).expiry)
  {
    match Lookup(rows, view, hash, email)
    case None => Some(RecordNotFound)
    case Some(expiry) => if After(now, expiry) then Some(expired) else None
  }

  /** ozzo's `Required` on the hash, `Required, is.Email` on the address and
      `Required` on the expiry. The error names every field that failed
      (`is.Email` lets an empty string through; `Required` catches it). */
  function Validate(v: Row, isEmail: string -> bool): (r: Option<Error>)
    ensures r.None? <==> v.hash != [] && v.email != "" && isEmail(v.email) && v.expiry != ZeroTime
    ensures r.Some? ==> r.value.Invalid?
    ensures r.Some? ==> (HashField in r.value.fields <==> v.hash == [])
    ensures r.Some? ==> (EmailField in r.value.fields <==> (v.email == "" || !isEmail(v.email)))
    ensures r.Some? ==> (ExpiryField in r.value.fields <==> v.expiry == ZeroTime)
    ensures r.Some? ==> UserIDField !in r.value.fields
  {
    var fields := (if v.hash == [] then {HashField} else {})
                + (if v.email == "" || !isEmail(v.email) then {EmailField} else {})
                + (if v.expiry == ZeroTime then {ExpiryField} else {});
    if fields == {} then None else Some(Invalid(fields))
  }

  // ---------------------------------------------------------------------
  // Properties of the queries

  /** Purging keeps the order of the remaining rows: it is a filter. */
  lemma {:induction false} PurgedAppend<R>(a: seq<R>, b: seq<R>, view: R -> View, email: string)
    ensures Purged(a + b, view, email) == Purged(a, view, email) + Purged(b, view, email)
  {
    if a != [] {
      assert (a + b)[0] == a[0] && (a + b)[1..] == a[1..] + b;
      PurgedAppend(a[1..], b, view, email);
    } else {
      assert a + b == b;
    }
  }

  /** Purging deletes every copy of every row with the address and keeps
      every copy of every other row. */
  lemma {:induction false} PurgedCounts<R>(rows: seq<R>, view: R -> View, email: string, x: R)
    ensures multiset(Purged(rows, view, email))[x]
            == if view(x).email == Some(email) then 0 else multiset(rows)[x]
  {
    if rows != [] {
      PurgedCounts(rows[1..], view, email, x);
      assert rows == [rows[0]] + rows[1..];
    }
  }

  /** A second purge of the same address changes nothing. */
  lemma {:induction false} PurgeIdempotent<R>(rows: seq<R>, view: R -> View, email: string)
    ensures Purged(Purged(rows, view, email), view, email) == Purged(rows, view, email)
  {
    if rows != [] {
      PurgeIdempotent(rows[1..], view, email);
      var head := if view(rows[0]).email == Some(email) then [] else [rows[0]];
      PurgedAppend(head, Purged(rows[1..], view, email), view, email);
      if head != [] {
        assert Purged(head, view, email) == head by {
          assert head[1..] == [];
        }
      }
    }
  }

  /** After a purge the address has no rows and no token for it verifies. */
  lemma PurgeThenQuery<R>(rows: seq<R>, view: R -> View, email: string, hash: seq<byte>, now: Time, expired: Error)
    requires expired != RecordNotFound
    ensures !HasEmail(Purged(rows, view, email), view, email)
    ensures Verdict(Purged(rows, view, email), view, hash, email, now, expired) == Some(RecordNotFound)
  {
    var p := Purged(rows, view, email);
  }

  /** Rows of other addresses are untouched, so their tokens verify exactly as before. */
  lemma {:induction false} PurgeKeepsOtherVerdicts<R>(rows: seq<R>, view: R -> View, email: string,
                                                      other: string, hash: seq<byte>)
    requires other != email
    ensures Lookup(Purged(rows, view, email), view, hash, other) == Lookup(rows, view, hash, other)
    ensures HasEmail(Purged(rows, view, email), view, other) == HasEmail(rows, view, other)
  {
    if rows != [] {
      PurgeKeepsOtherVerdicts(rows[1..], view, email, other, hash);
      var p := Purged(rows, view, email);
      if view(rows[0]).email != Some(email) {
        assert p == [rows[0]] + Purged(rows[1..], view, email);
        assert p[1..] == Purged(rows[1..], view, email);
      } else {
        assert p == Purged(rows[1..], view, email);
      }
      if HasEmail(rows, view, other) {
        var i :| 0 <= i < |rows| && view(rows[i]).email == Some(other);
        assert rows[i] in p;
        var k :| 0 <= k < |p| && p[k] == rows[i];
      }
    }
  }

  /** An inserted row makes its address exist, whatever the other rows. */
  lemma AppendHasEmail<R>(rows: seq<R>, view: R -> View, row: R, email: string)
    requires view(row).email == Some(email)
    ensures HasEmail(rows + [row], view, email)
  {
    assert (rows + [row])[|rows|] == row;
  }

  /** Appending a row never hides an earlier match, and a new row verifies
      before its expiry when no earlier row has the same hash and address. */
  lemma {:induction false} AppendVerdict<R>(rows: seq<R>, view: R -> View, row: R, email: string, now: Time, expired: Error)
    requires expired != RecordNotFound && view(row).email == Some(email)
    ensures Verdict(rows + [row], view, view(row).hash, email, now, expired) != Some(RecordNotFound)
    ensures Lookup(rows, view, view(row).hash, email).None? ==>
              Verdict(rows + [row], view, view(row).hash, email, now, expired)
                == if After(now, view(row).expiry) then Some(expired) else None
  {
    var all := rows + [row];
    assert Matches(view(all[|rows|]), view(row).hash, email);
    if Lookup(rows, view, view(row).hash, email).None? {
      LookupAppendMiss(rows, view, row, view(row).hash, email);
    }
  }

  lemma {:induction false} LookupAppendMiss<R>(rows: seq<R>, view: R -> View, row: R, hash: seq<byte>, email: string)
    requires Lookup(rows, view, hash, email).None? && Matches(view(row), hash, email)
    ensures Lookup(rows + [row], view, hash, email) == Some(view(row).expiry)
  {
    if rows != [] {
      assert (rows + [row])[1..] == rows[1..] + [row];
      assert !Matches(view(rows[0]), hash, email);
      LookupAppendMiss(rows[1..], view, row, hash, email);
    }
  }

  /** The expiry boundary: the token still verifies at exactly its expiry and
      is expired one second later. */
  lemma ExpiryBoundary<R>(rows: seq<R>, view: R -> View, hash: seq<byte>, email: string, expiry: Time, expired: Error)
    requires expired != RecordNotFound
    requires Lookup(rows, view, hash, email) == Some(expiry)
    ensures Verdict(rows, view, hash, email, expiry, expired) == None
    ensures Verdict(rows, view, hash, email, expiry + Second, expired) == Some(expired)
  {
  }

  /** Existence ignores expiry: an expired row still counts, although it no
      longer verifies. */
  lemma ExpiredRowStillExists<R>(rows: seq<R>, view: R -> View, hash: seq<byte>, email: string,
                                 expiry: Time, now: Time, expired: Error)
    requires expired != RecordNotFound
    requires Lookup(rows, view, hash, email) == Some(expiry) && After(now, expiry)
    ensures HasEmail(rows, view, email)
    ensures Verdict(rows, view, hash, email, now, expired) == Some(expired)
  {
  }

  /** Into a table with no row for the address, only the hash just inserted
      verifies: every other hash is not found. */
  lemma {:induction false} OnlyIssuedHashVerifies<R>(rows: seq<R>, view: R -> View, row: R, email: string,
                                                     hash: seq<byte>, now: Time, expired: Error)
    requires expired != RecordNotFound && view(row).email == Some(email)
    requires !HasEmail(rows, view, email) && hash != view(row).hash
    ensures Verdict(rows + [row], view, hash, email, now, expired) == Some(RecordNotFound)
  {
    var all := rows + [row];
    forall i | 0 <= i < |all| ensures !Matches(view(all[i]), hash, email) {
      if i < |rows| {
        assert all[i] == rows[i];
      }
    }
  }
}
