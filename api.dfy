/** The request flows of cmd/api/tokens.go, cmd/api/users.go and
    cmd/api/auth.go. Each handler is a method of the application: it reads
    the decoded request body (or the error `readJSON` returned), calls the
    stores, queues mail, writes the response, and returns the error it
    hands to `handle`. Every store call gets its own `Conn`, so each query
    can fail on its own. */
module Api {
  import opened Base
  import opened Http
  import opened UserTable
  import opened TokenTable
  import Tokens
  import DataUser
  import DataVerificationToken
  import DataTokenAuthentication
  import ModelsVerification

  /** `verificationMsg`. */
  const VerificationMessage := "A verification email has been sent. Please check your inbox."
  const ExpiredTokenMessage := "Expired token. Please signup again."
  const CreatedUserMessage := "Created user"
  const RegistrationTemplate := "registration.tmpl"
  const ChangeEmailTemplate := "change-email.tmpl"
  const EmailVerificationTemplate := "email-verification.tmpl"

  /** A mail handed to `app.background`: recipient, template and template data. */
  datatype Mail = Mail(to: string, template: string, data: map<string, string>)

  /** `envelope{"message": msg}`. */
  function MessageEnvelope(msg: string): (r: Json)
    ensures r.Object? && r.fields.Keys == {"message"} && r.fields["message"] == Str(msg)
    ensures Encodable(r)
  {
    Envelope("message", Str(msg))
  }

  /** A `User` as `encoding/json` renders it: `id`, `created_at` and `email`;
      the password hash and the version are tagged `json:"-"`. The time is
      shown as its number of seconds. */
  function UserJson(u: UserRow): (r: Json)
    ensures r.Object? && r.fields.Keys == {"id", "created_at", "email"}
    ensures r.fields["id"] == Num(u.id) && r.fields["email"] == Str(u.email)
    ensures Encodable(r)
  {
    Object(map["id" := Num(u.id), "created_at" := Num(u.createdAt), "email" := Str(u.email)])
  }

  /** The body of `tokensAuthenticationPost`. */
  datatype Credentials = Credentials(email: string, password: string)
  /** The body of `usersPost` and `handleAuthRegister`. */
  datatype Registration = Registration(email: string, password: string, token: string)

  class Application {
    const users: DataUser.UserModel
    const verificationTokens: DataVerificationToken.VerificationTokenModel
    const authenticationTokens: DataTokenAuthentication.AuthenticationTokenModel
    /** The older store `handleAuthSignup` and `handleAuthRegister` use. */
    const verifications: ModelsVerification.VerificationModel
    /** `InvalidCredentailsMessage`, declared outside the modelled files. */
    const invalidCredentialsMessage: string
    /** The mails queued with `app.background`, in order. */
    var outbox: seq<Mail>

    constructor (users: DataUser.UserModel, verificationTokens: DataVerificationToken.VerificationTokenModel,
                 authenticationTokens: DataTokenAuthentication.AuthenticationTokenModel,
                 verifications: ModelsVerification.VerificationModel, invalidCredentialsMessage: string)
      ensures this.users == users && this.verificationTokens == verificationTokens
      ensures this.authenticationTokens == authenticationTokens && this.verifications == verifications
      ensures this.invalidCredentialsMessage == invalidCredentialsMessage && outbox == []
    {
      this.users := users;
      this.verificationTokens := verificationTokens;
      this.authenticationTokens := authenticationTokens;
      this.verifications := verifications;
      this.invalidCredentialsMessage := invalidCredentialsMessage;
      outbox := [];
    }

    /** `tokensVerificaitonPost`: the registration signup. Whether or not a
        user or a recent token already has the address, every outcome that
        is not an error is the same 200 with the same message, so the
        response tells nothing about which addresses are known. A token is
        created, and its plaintext mailed to the address, only when neither
        check hits. */
    method TokensVerificationPost(w: ResponseWriter, input: Result<string>, random: Entropy, now: Time,
                                  userConn: Conn, existsConn: Conn, newConn: Conn)
      returns (err: Option<Error>)
      modifies w, verificationTokens, this
      ensures err.Some? ==> w.status == old(w.status) && w.body == old(w.body)
      ensures err.None? ==> w.status == StatusAfter(old(w.status), StatusOK)
                            && w.body == old(w.body) + [MessageEnvelope(VerificationMessage)]
      ensures input.Fail? ==> err == Some(input.error)
      ensures input.Ok? && userConn.Down? ==> err == Some(Db(userConn.code))
      ensures input.Ok? && userConn.Up? && !HasUserEmail(users.rows, input.value) && existsConn.Down? ==>
                err == Some(Db(existsConn.code))
      ensures verificationTokens.rows != old(verificationTokens.rows) || outbox != old(outbox) ==>
                input.Ok? && userConn.Up? && !HasUserEmail(users.rows, input.value) && existsConn.Up?
                && !DataVerificationToken.HasScoped(old(verificationTokens.rows), DataVerificationToken.Registration, input.value, None)
      ensures input.Ok? && userConn.Up? && HasUserEmail(users.rows, input.value) ==> err.None?
      ensures input.Ok? && userConn.Up? && !HasUserEmail(users.rows, input.value) && existsConn.Up?
              && DataVerificationToken.HasScoped(old(verificationTokens.rows), DataVerificationToken.Registration, input.value, None) ==>
                err.None?
      ensures input.Ok? && userConn.Up? && !HasUserEmail(users.rows, input.value) && existsConn.Up?
              && !DataVerificationToken.HasScoped(old(verificationTokens.rows), DataVerificationToken.Registration, input.value, None) ==>
                var p := verificationTokens.Prepare(DataVerificationToken.Registration, input.value, None, random, now);
                if p.Fail? then err == Some(p.error)
                else if newConn.Down? then err == Some(Db(newConn.code))
                else err.None? && verificationTokens.rows == old(verificationTokens.rows) + [p.value.1]
                     && outbox == old(outbox) + [Mail(input.value, RegistrationTemplate, map["token" := p.value.0.plaintext])]
      ensures verificationTokens.rows == old(verificationTokens.rows) <==> outbox == old(outbox)
    {
      if input.Fail? {
        return Some(input.error);
      }
      var email := input.value;
      var msg := MessageEnvelope(VerificationMessage);
      var scope := DataVerificationToken.Registration;
      var exists_, e := users.Exists(email, userConn);
      if e.Some? {
        return e;
      }
      if exists_ {
        err := WriteJSON(w, StatusOK, msg, map[]);
        return;
      }
      exists_, e := verificationTokens.Exists(scope, email, None, existsConn);
      if e.Some? {
        return e;
      }
      if exists_ {
        err := WriteJSON(w, StatusOK, msg, map[]);
        return;
      }
      var t;
      t, e := verificationTokens.New(scope, email, None, random, now, newConn);
      if e.Some? {
        return e;
      }
      outbox := outbox + [Mail(email, RegistrationTemplate, map["token" := t.value.plaintext])];
      err := WriteJSON(w, StatusOK, msg, map[]);
    }

    /** `tokensVerificaitonUserEmailPost`: the change-email flow of the
        authenticated `user`. The same branches and the same single
        response as the signup flow; the token has the change-email scope,
        is bound to the user's id and is mailed to the new address. */
    method TokensVerificationUserEmailPost(w: ResponseWriter, user: User, input: Result<string>, random: Entropy,
                                           now: Time, userConn: Conn, existsConn: Conn, newConn: Conn)
      returns (err: Option<Error>)
      modifies w, verificationTokens, this
      ensures err.Some? ==> w.status == old(w.status) && w.body == old(w.body)
      ensures err.None? ==> w.status == StatusAfter(old(w.status), StatusOK)
                            && w.body == old(w.body) + [MessageEnvelope(VerificationMessage)]
      ensures input.Fail? ==> err == Some(input.error)
      ensures input.Ok? && userConn.Down? ==> err == Some(Db(userConn.code))
      ensures input.Ok? && userConn.Up? && !HasUserEmail(users.rows, input.value) && existsConn.Down? ==>
                err == Some(Db(existsConn.code))
      ensures verificationTokens.rows != old(verificationTokens.rows) || outbox != old(outbox) ==>
                input.Ok? && userConn.Up? && !HasUserEmail(users.rows, input.value) && existsConn.Up?
                && !DataVerificationToken.HasScoped(old(verificationTokens.rows), DataVerificationToken.ChangeEmail, input.value, Some(user.id))
      ensures input.Ok? && userConn.Up? && HasUserEmail(users.rows, input.value) ==> err.None?
      ensures input.Ok? && userConn.Up? && !HasUserEmail(users.rows, input.value) && existsConn.Up?
              && DataVerificationToken.HasScoped(old(verificationTokens.rows), DataVerificationToken.ChangeEmail, input.value, Some(user.id)) ==>
                err.None?
      ensures input.Ok? && userConn.Up? && !HasUserEmail(users.rows, input.value) && existsConn.Up?
              && !DataVerificationToken.HasScoped(old(verificationTokens.rows), DataVerificationToken.ChangeEmail, input.value, Some(user.id)) ==>
                var p := verificationTokens.Prepare(DataVerificationToken.ChangeEmail, input.value, Some(user.id), random, now);
                if p.Fail? then err == Some(p.error)
                else if newConn.Down? then err == Some(Db(newConn.code))
                else err.None? && verificationTokens.rows == old(verificationTokens.rows) + [p.value.1]
                     && outbox == old(outbox) + [Mail(input.value, ChangeEmailTemplate, map["token" := p.value.0.plaintext])]
      ensures verificationTokens.rows == old(verificationTokens.rows) <==> outbox == old(outbox)
    {
      if input.Fail? {
        return Some(input.error);
      }
      var email := input.value;
      var msg := MessageEnvelope(VerificationMessage);
      var scope := DataVerificationToken.ChangeEmail;
      var exists_, e := users.Exists(email, userConn);
      if e.Some? {
        return e;
      }
      if exists_ {
        err := WriteJSON(w, StatusOK, msg, map[]);
        return;
      }
      var owner := Some(user.id);
      exists_, e := verificationTokens.Exists(scope, email, owner, existsConn);
      if e.Some? {
        return e;
      }
      if exists_ {
        err := WriteJSON(w, StatusOK, msg, map[]);
        return;
      }
      var t;
      t, e := verificationTokens.New(scope, email, owner, random, now, newConn);
      if e.Some? {
        return e;
      }
      outbox := outbox + [Mail(email, ChangeEmailTemplate, map["token" := t.value.plaintext])];
      err := WriteJSON(w, StatusOK, msg, map[]);
    }

    /** `tokensAuthenticationPost`: log in. Bad credentials (unknown address
        or wrong password alike) are answered 401 with the fixed message and
        create no token; other errors are returned. On success exactly one
        authentication token is created for the user's id and returned with
        201 under "authentication_token". */
    method TokensAuthenticationPost(w: ResponseWriter, input: Result<Credentials>, random: Entropy, now: Time,
                                    credConn: Conn, newConn: Conn)
      returns (err: Option<Error>)
      modifies w, authenticationTokens
      ensures err.Some? ==> w.status == old(w.status) && w.body == old(w.body)
      ensures err.Some? ==> authenticationTokens.rows == old(authenticationTokens.rows)
      ensures input.Fail? ==> err == Some(input.error)
      ensures input.Ok? && credConn.Down? ==> err == Some(Db(credConn.code))
      ensures input.Ok? && credConn.Up?
              && (!HasUserEmail(users.rows, input.value.email)
                  || users.argon2.compare(input.value.password, users.rows[FindEmail(users.rows, input.value.email).value].passwordHash) == Mismatch) ==>
                err.None? && authenticationTokens.rows == old(authenticationTokens.rows)
                && w.status == StatusAfter(old(w.status), StatusUnauthorized)
                && w.body == old(w.body) + [ErrorEnvelope(StatusUnauthorized, Some(Str(invalidCredentialsMessage)))]
      ensures input.Ok? && credConn.Up? && HasUserEmail(users.rows, input.value.email)
              && users.argon2.compare(input.value.password, users.rows[FindEmail(users.rows, input.value.email).value].passwordHash).Malformed? ==>
                err == Some(HashingFailed(users.argon2.compare(input.value.password,
                                                               users.rows[FindEmail(users.rows, input.value.email).value].passwordHash).reason))
      ensures input.Ok? && credConn.Up? && FindEmail(users.rows, input.value.email).Some?
              && users.argon2.compare(input.value.password, users.rows[FindEmail(users.rows, input.value.email).value].passwordHash) == Match ==>
                var id := users.rows[FindEmail(users.rows, input.value.email).value].id;
                (random.ReadFailed? ==> err == Some(EntropyFailed(random.reason)))
                && (random.Filled? ==>
                      var at := DataTokenAuthentication.AuthenticationToken(
                                  id, Tokens.Generate(DataTokenAuthentication.AuthenticationTokenTTL, random, now, authenticationTokens.sha256).value);
                      (at.Validate().Some? ==> err == at.Validate())
                      && (at.Validate().None? && newConn.Down? ==> err == Some(Db(newConn.code))))
      ensures authenticationTokens.rows != old(authenticationTokens.rows) ==>
                input.Ok? && credConn.Up? && FindEmail(users.rows, input.value.email).Some?
                && users.argon2.compare(input.value.password, users.rows[FindEmail(users.rows, input.value.email).value].passwordHash) == Match
                && random.Filled? && newConn.Up?
                && var g := Tokens.Generate(DataTokenAuthentication.AuthenticationTokenTTL, random, now, authenticationTokens.sha256).value;
                   var id := users.rows[FindEmail(users.rows, input.value.email).value].id;
                   authenticationTokens.rows == old(authenticationTokens.rows)
                                                + [DataTokenAuthentication.RowOf(DataTokenAuthentication.AuthenticationToken(id, g))]
                   && err.None? && w.status == StatusAfter(old(w.status), StatusCreated)
                   && w.body == old(w.body) + [Envelope("authentication_token", TokenValue(g))]
      ensures input.Ok? && credConn.Up? && FindEmail(users.rows, input.value.email).Some?
              && users.argon2.compare(input.value.password, users.rows[FindEmail(users.rows, input.value.email).value].passwordHash) == Match
              && users.rows[FindEmail(users.rows, input.value.email).value].id != 0
              && random.Filled? && newConn.Up? && now + DataTokenAuthentication.AuthenticationTokenTTL != ZeroTime ==>
                authenticationTokens.rows != old(authenticationTokens.rows)
    {
      if input.Fail? {
        return Some(input.error);
      }
      var user, e := users.GetForCredentials(input.value.email, input.value.password, credConn);
      if e.Some? {
        if e == Some(InvalidCredentials) {
          err := WriteError(w, StatusUnauthorized, Some(Str(invalidCredentialsMessage)));
          return;
        }
        return e;
      }
      var t;
      t, e := authenticationTokens.New(user.id, random, now, newConn);
      if e.Some? {
        return e;
      }
      err := WriteJSON(w, StatusCreated, Envelope("authentication_token", TokenValue(t.value)), map[]);
    }

    /** `usersPost`: register. The token is checked against the address
        first (unknown: 401 with the status text; expired: 401 with the
        expiry message; any other error returned). Then every verification
        token of the address is purged, and only then is the user created;
        a failed purge creates nobody, a failed creation leaves the tokens
        purged. The new user is answered 201 under "user". */
    method UsersPost(w: ResponseWriter, input: Result<Registration>, salt: Entropy, now: Time,
                     verifyConn: Conn, purgeConn: Conn, newConn: Conn)
      returns (err: Option<Error>)
      requires users.Valid()
      modifies w, verificationTokens, users
      ensures users.Valid()
      ensures err.Some? ==> w.status == old(w.status) && w.body == old(w.body)
      ensures input.Fail? ==> err == Some(input.error)
      ensures input.Fail? || verifyConn.Down? ==>
                verificationTokens.rows == old(verificationTokens.rows) && users.rows == old(users.rows)
      ensures input.Ok? && verifyConn.Down? ==> err == Some(Db(verifyConn.code))
      ensures input.Ok? && verifyConn.Up? ==>
                var v := Verdict(old(verificationTokens.rows), DataVerificationToken.ScopedView,
                                 verificationTokens.sha256(input.value.token), input.value.email, now, ExpiredToken);
                (v == Some(RecordNotFound) ==>
                   err.None? && w.status == StatusAfter(old(w.status), StatusUnauthorized)
                   && w.body == old(w.body) + [ErrorEnvelope(StatusUnauthorized, None)])
                && (v == Some(ExpiredToken) ==>
                   err.None? && w.status == StatusAfter(old(w.status), StatusUnauthorized)
                   && w.body == old(w.body) + [ErrorEnvelope(StatusUnauthorized, Some(Str(ExpiredTokenMessage)))])
                && (v.Some? ==> verificationTokens.rows == old(verificationTokens.rows) && users.rows == old(users.rows))
                && (v.None? && purgeConn.Down? ==>
                   err == Some(Db(purgeConn.code))
                   && verificationTokens.rows == old(verificationTokens.rows) && users.rows == old(users.rows))
                && (v.None? && purgeConn.Up? ==>
                   verificationTokens.rows == Purged(old(verificationTokens.rows), DataVerificationToken.ScopedView, input.value.email))
                && (v.None? && purgeConn.Up? && salt.ReadFailed? ==>
                   err == Some(HashingFailed(salt.reason)) && users.rows == old(users.rows))
                && (v.None? && purgeConn.Up? && salt.Filled? && newConn.Down? ==>
                   err == Some(Db(newConn.code)) && users.rows == old(users.rows))
                && (v.None? && purgeConn.Up? && salt.Filled? && newConn.Up? && HasUserEmail(old(users.rows), input.value.email) ==>
                   err == Some(DuplicateEmail) && users.rows == old(users.rows))
      ensures users.rows != old(users.rows) ==>
                input.Ok? && verifyConn.Up? && purgeConn.Up?
                && verificationTokens.rows == Purged(old(verificationTokens.rows), DataVerificationToken.ScopedView, input.value.email)
                && salt.Filled? && err.None? && |users.rows| > 0
                && users.rows == old(users.rows) + [users.rows[|users.rows| - 1]]
                && users.rows[|users.rows| - 1]
                   == UserRow(old(users.nextID), now, input.value.email, users.argon2.derive(input.value.password, salt.block), users.initialVersion)
                && w.status == StatusAfter(old(w.status), StatusCreated)
                && w.body == old(w.body) + [Envelope("user", UserJson(users.rows[|users.rows| - 1]))]
      ensures input.Ok? && verifyConn.Up? && purgeConn.Up? && salt.Filled? && newConn.Up?
              && Verdict(old(verificationTokens.rows), DataVerificationToken.ScopedView,
                         verificationTokens.sha256(input.value.token), input.value.email, now, ExpiredToken).None?
              && !HasUserEmail(old(users.rows), input.value.email) ==>
                users.rows != old(users.rows)
    {
      if input.Fail? {
        return Some(input.error);
      }
      var reg := input.value;
      var e := verificationTokens.Verify(reg.email, reg.token, now, verifyConn);
      if e.Some? {
        if e == Some(RecordNotFound) {
          err := WriteError(w, StatusUnauthorized, None);
          return;
        } else if e == Some(ExpiredToken) {
          err := WriteError(w, StatusUnauthorized, Some(Str(ExpiredTokenMessage)));
          return;
        }
        return e;
      }
      e := verificationTokens.Purge(reg.email, purgeConn);
      if e.Some? {
        return e;
      }
      var user;
      user, e := users.New(reg.email, reg.password, salt, now, newConn);
      if e.Some? {
        return e;
      }
      err := WriteJSON(w, StatusCreated, Envelope("user", UserJson(user.Row())), map[]);
    }

    /** `usersMeGet`: the request's user with 200 under "user". */
    method UsersMeGet(w: ResponseWriter, user: User) returns (err: Option<Error>)
      modifies w
      ensures err.None?
      ensures w.status == StatusAfter(old(w.status), StatusOK)
      ensures w.body == old(w.body) + [Envelope("user", UserJson(user.Row()))]
    {
      err := WriteJSON(w, StatusOK, Envelope("user", UserJson(user.Row())), map[]);
    }

    /** `handleAuthSignup`: the older signup. It makes a new verification on
        every call, with no check for an existing user or verification,
        mails its address and plaintext, and answers 200 with the fixed
        message. */
    method HandleAuthSignup(w: ResponseWriter, input: Result<string>, random: Entropy, now: Time, conn: Conn)
      returns (err: Option<Error>)
      modifies w, verifications, this
      ensures err.Some? ==> w.status == old(w.status) && w.body == old(w.body) && outbox == old(outbox)
      ensures input.Fail? ==> err == Some(input.error) && verifications.rows == old(verifications.rows)
      ensures input.Ok? && random.ReadFailed? ==>
                err == Some(EntropyFailed(random.reason)) && verifications.rows == old(verifications.rows)
      ensures input.Ok? && random.Filled? && conn.Down? ==>
                err == Some(Db(conn.code)) && verifications.rows == old(verifications.rows)
      ensures input.Ok? && random.Filled? && conn.Up? ==>
                err.None? && |outbox| == |old(outbox)| + 1
                && var m := outbox[|outbox| - 1];
                   outbox == old(outbox) + [m] && m.to == input.value && m.template == EmailVerificationTemplate
                   && m.data.Keys == {"email", "token"} && m.data["email"] == input.value
                   && Tokens.IsPlaintext(m.data["token"])
                   && verifications.rows == old(verifications.rows)
                                            + [Row(verifications.sha256(m.data["token"]), input.value, now + ModelsVerification.TTL)]
                   && w.status == StatusAfter(old(w.status), StatusOK)
                   && w.body == old(w.body) + [MessageEnvelope(VerificationMessage)]
    {
      if input.Fail? {
        return Some(input.error);
      }
      var v, e := verifications.New(input.value, random, now, conn);
      if e.Some? {
        return e;
      }
      outbox := outbox + [Mail(v.value.email, EmailVerificationTemplate,
                               map["email" := v.value.email, "token" := v.value.plaintext])];
      err := WriteJSON(w, StatusOK, MessageEnvelope(VerificationMessage), map[]);
    }

    /** `handleAuthRegister`: checks the token and returns `Verify`'s error
        unchanged; on success it answers 200 "Created user" without creating
        a user or purging anything. */
    method HandleAuthRegister(w: ResponseWriter, input: Result<Registration>, now: Time, conn: Conn)
      returns (err: Option<Error>)
      modifies w
      ensures err.Some? ==> w.status == old(w.status) && w.body == old(w.body)
      ensures input.Fail? ==> err == Some(input.error)
      ensures input.Ok? && conn.Down? ==> err == Some(Db(conn.code))
      ensures input.Ok? && conn.Up? && err.Some? ==>
                err == Verdict(verifications.rows, ViewOf, verifications.sha256(input.value.token), input.value.email,
                               now, ExpiredVerification)
      ensures err.None? <==>
                input.Ok? && conn.Up?
                && Verdict(verifications.rows, ViewOf, verifications.sha256(input.value.token), input.value.email,
                           now, ExpiredVerification).None?
      ensures err.None? ==> w.status == StatusAfter(old(w.status), StatusOK)
                            && w.body == old(w.body) + [MessageEnvelope(CreatedUserMessage)]
    {
      if input.Fail? {
        return Some(input.error);
      }
      var e := verifications.Verify(input.value.email, input.value.token, now, conn);
      if e.Some? {
        return e;
      }
      err := WriteJSON(w, StatusOK, MessageEnvelope(CreatedUserMessage), map[]);
    }
  }
}
