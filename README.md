# Token and user stores of a Go JSON API, modelled in Dafny

The system is a small Go HTTP API over PostgreSQL. Users sign up by
address, receive a mailed verification token, register with that token
and a password, log in for a bearer authentication token, and change
their address through a second scoped token. This project models:

- the token stores: `verification_token_` in two generations
  (`internal/models/verification_token.go`, `internal/models/token_verification.go`),
  the oldest `verification_` table (`internal/models/verification.go`) and
  `authentication_token_` (`internal/data/token_authentication.go`);
- the two user stores over `user_` (`internal/data/user.go`, `internal/models/user.go`);
- the handlers that drive them (`cmd/api/tokens.go`, `cmd/api/users.go`,
  `cmd/api/auth.go`), and the response and error plumbing they share
  (`cmd/api/response.go`, `cmd/api/handler.go`).

Every store is a `class` whose table is a `seq` of rows. Its methods
change that table in place (`modifies this`) and promise the new table
in terms of `old` rows. The SQL they run is stated once, in `TokenTable`
(`Purged`, `Lookup`, `Verdict`) and `UserTable` (`FindEmail`, `FindId`,
`ApplyUpdate`). Lemmas about those functions carry the properties:

- purging is a filter, is idempotent and touches no other address;
- only the issued hash verifies;
- the expiry boundary is inclusive;
- the compare-and-swap update rejects a stale version and keeps the
  table's constraints;
- base-32 token plaintexts decode back to their random bytes.

Some inputs are parameters of each call, with one value per call:

- whether a query reaches the database (`Conn = Up | Down(code)`);
- the entropy source's outcome (`Entropy`);
- the clock (`now`, an integer count of seconds; `ZeroTime` is Go's zero
  `time.Time`).

SHA-256, argon2id and `is.Email` are function-valued constants given to
each store's constructor. Each handler is a method of `Api.Application`.
It takes the decoded body, or the decode error, as a `Result`. It writes
to a modelled `ResponseWriter`, queues mail in `outbox`, and returns the
error it hands to `handle`.

## Model

| member | source | states |
|---|---|---|
| Base32.Encode | internal/models/verification_token.go:45 | the unpadded RFC 4648 encoding has `ceil(8n/5)` letters, all from the base-32 alphabet |
| Base32.DecodeEncode | internal/models/verification_token.go:45 | decoding an encoding gives back exactly the bytes (round trip) |
| Base32.EncodeVectorF | internal/models/verification_token.go:45 | the RFC 4648 test vector "f" encodes as "MY", which fixes the bit order: most significant bit first, first group first |
| Base32.TokenShape | internal/models/verification_token.go:39-45 | 16 random bytes always give a 26-letter plaintext over the alphabet |
| Base32.EncodeInjective | internal/models/verification_token.go:45 | two different random blocks never give the same plaintext |
| Tokens.Generate | internal/models/verification.go:95-113 | fails exactly when the entropy read fails; otherwise the plaintext is 26 base-32 letters that decode to the random block, the hash is SHA-256 of the plaintext (32 bytes) and the expiry is `now + ttl` |
| TokenTable.Purged | internal/models/verification_token.go:101-111 | `DELETE ... WHERE email_ = $1`: no row of the address survives, every row of another address does, and nothing is added |
| TokenTable.Lookup | internal/models/verification_token.go:115-131 | `QueryRow` on hash and address: `None` iff no row matches; otherwise the expiry of the first matching row |
| TokenTable.Verdict | internal/models/verification_token.go:113-143 | `ErrRecordNotFound` iff no row matches; otherwise judged on the first matching row (`Lookup`): the store's expiry error when `now` is strictly after its expiry, nil otherwise |
| TokenTable.Validate | internal/models/verification_token.go:30-35 | nil iff the hash, the address and the expiry are all present and the address is an email; the error names exactly the failing fields |
| TokenTable.PurgedAppend | internal/models/verification_token.go:101-111 | purging distributes over concatenation, so the order of the surviving rows is kept |
| TokenTable.PurgedCounts | internal/models/verification_token.go:101-111 | purging removes every copy of every row of the address and keeps every copy of every other row (multiset counts) |
| TokenTable.PurgeIdempotent | internal/models/verification_token.go:101-111 | a second purge of the same address changes nothing |
| TokenTable.PurgeThenQuery | internal/models/verification_token.go:81-143 | after a purge, `Exists` is false for the address and every token of it is not found |
| TokenTable.PurgeKeepsOtherVerdicts | internal/models/verification_token.go:101-143 | a purge leaves `Lookup` and `Exists` for every other address exactly as they were |
| TokenTable.AppendHasEmail | internal/models/verification_token.go:62-99 | an inserted row makes its address exist |
| TokenTable.AppendVerdict | internal/models/verification_token.go:62-143 | after an insert, the inserted hash is never not-found for its address; when no earlier row matches, it verifies exactly until its expiry |
| TokenTable.LookupAppendMiss | internal/models/verification_token.go:115-131 | when no earlier row matches, the lookup finds the appended row's expiry |
| TokenTable.ExpiryBoundary | internal/models/verification_token.go:138 | `After` is strict: a token verifies at exactly its expiry and is expired one second later |
| TokenTable.ExpiredRowStillExists | internal/models/verification_token.go:81-99 | `Exists` ignores expiry: an expired row still makes its address exist while it no longer verifies |
| TokenTable.OnlyIssuedHashVerifies | internal/models/verification_token.go:113-143 | into a table with no row for the address, only the hash just inserted can verify; every other hash is not found |
| ModelsVerificationToken.VerificationTokenModel.New | internal/models/verification_token.go:38-60 | an entropy failure returns "" and its error; otherwise the row `(sha256(plaintext), email, now+36h)` goes through `Insert`, and on success the plaintext decodes to the random bytes and is findable for the address |
| ModelsVerificationToken.VerificationTokenModel.Insert | internal/models/verification_token.go:62-79 | a validation failure or a database failure leaves the table unchanged; otherwise exactly the row is appended |
| ModelsVerificationToken.VerificationTokenModel.Exists | internal/models/verification_token.go:81-99 | true iff some row has the address |
| ModelsVerificationToken.VerificationTokenModel.Purge | internal/models/verification_token.go:101-111 | the table becomes `Purged(old table, address)` |
| ModelsVerificationToken.VerificationTokenModel.Verify | internal/models/verification_token.go:113-143 | the result is `Verdict` with `ErrExpiredVerification` |
| ModelsTokenVerification.VerificationTokenModel.New | internal/models/token_verification.go:36-50 | a token is returned iff there is no error; the token is 26 base-32 letters whose SHA-256 is stored for the address with a 36-hour expiry |
| ModelsTokenVerification.VerificationTokenModel.Insert | internal/models/token_verification.go:52-69 | validate (hash, address, expiry), then append exactly `(hash, email, expiry)`; any failure leaves the table unchanged |
| ModelsTokenVerification.VerificationTokenModel.Exists | internal/models/token_verification.go:71-89 | true iff some row has the address |
| ModelsTokenVerification.VerificationTokenModel.Purge | internal/models/token_verification.go:91-101 | the table becomes `Purged(old table, address)` |
| ModelsTokenVerification.VerificationTokenModel.Verify | internal/models/token_verification.go:103-133 | the result is `Verdict` with `ErrExpiredToken` |
| ModelsVerification.GenerateVerification | internal/models/verification.go:95-113 | fails iff the entropy read fails; otherwise the address and the expiry `now + ttl` are set, and the plaintext is 26 base-32 letters decoding to the random block, with its SHA-256 as the hash |
| ModelsVerification.VerificationModel.New | internal/models/verification.go:26-35 | uses the 36-hour ttl; the verification is returned even when the insert fails; only a successful insert appends its row |
| ModelsVerification.VerificationModel.Insert | internal/models/verification.go:37-49 | no validation: appends `(hash, email, expiry)` unless the database fails |
| ModelsVerification.VerificationModel.Purge | internal/models/verification.go:51-61 | the table becomes `Purged(old table, address)` |
| ModelsVerification.VerificationModel.Verify | internal/models/verification.go:63-93 | the result is `Verdict` with `ErrExpiredVerification` |
| DataTokenAuthentication.AuthenticationToken.Validate | internal/data/token_authentication.go:25-30 | nil iff the hash is present, the user id is non-zero and the expiry is set; the error names exactly the failing fields |
| DataTokenAuthentication.RowOf | internal/data/token_authentication.go:56-60 | the inserted row has no address (`email_` is never written) |
| DataTokenAuthentication.AuthenticationTokenModel.New | internal/data/token_authentication.go:32-46 | a token is returned iff there is no error, and any error leaves the table unchanged; on success exactly `(hash, userID, now+36h)` is appended and the user id is non-zero |
| DataTokenAuthentication.AuthenticationTokenModel.Insert | internal/data/token_authentication.go:48-65 | validate, then append the row without an address; any failure leaves the table unchanged |
| DataTokenAuthentication.AuthenticationTokenModel.Exists | internal/data/token_authentication.go:67-85 | true iff some row's `email_` is the address |
| DataTokenAuthentication.AuthenticationTokenModel.Purge | internal/data/token_authentication.go:87-97 | the table becomes `Purged(old table, address)` |
| DataTokenAuthentication.AuthenticationTokenModel.Verify | internal/data/token_authentication.go:99-129 | the result is `Verdict` with `ErrExpiredToken` |
| DataTokenAuthentication.NewRowsAreInvisibleByEmail | internal/data/token_authentication.go:56-129 | over rows written by `Insert`, `Exists` is false, `Purge` deletes nothing and `Verify` is always not-found |
| UserTable.User.constructor | internal/data/user.go:18-24 | `&User{Email, PasswordHash}`: every other field is zero |
| UserTable.User.FromRow | internal/data/user.go:84-90 | a scanned user carries exactly the row's columns |
| UserTable.FindEmail | internal/data/user.go:79-81 | `None` iff no row has the address; otherwise the position of a row that has it |
| UserTable.FindId | internal/data/user.go:117-123 | `None` iff no row has the id; otherwise the position of a row that has it |
| UserTable.ApplyUpdate | internal/data/user.go:171-199 | no row with the id and version gives the "no rows" error; an address taken by another user gives `ErrDuplicateEmail`; otherwise only that row changes, to the new address and hash with version + 1 |
| UserTable.StaleVersionLoses | internal/data/user.go:175-178 | once an update from a version went through, a second update from the same version is rejected with no rows |
| UserTable.UpdateKeepsConstraints | internal/data/user.go:186-196 | an update keeps the primary key and the unique address constraint |
| UserTable.UpdateTouchesOneRow | internal/data/user.go:175-178 | every row of another user is unchanged by an update |
| DataUser.IsAnonymous | internal/data/user.go:26-30 | `IsAnonymous` is object identity with the `AnonymousUser` sentinel, so a user it accepts has the sentinel's fields |
| DataUser.NewEmptyUser | internal/data/user.go:26-30 | a user with the sentinel's all-zero fields is still not anonymous: `IsAnonymous` is object identity |
| DataUser.JoinLookup | internal/data/user.go:117-123 | the join is `None` iff every token row with the hash names a missing user; otherwise the user and expiry of some token row with the hash |
| DataUser.UserModel.New | internal/data/user.go:32-49 | a salt failure or a database failure creates nobody; a taken address gives `ErrDuplicateEmail`; otherwise exactly one row is appended, holding the argon2id hash of the password, never the password |
| DataUser.UserModel.Insert | internal/data/user.go:51-73 | a taken address gives `ErrDuplicateEmail` and changes nothing; otherwise appends the row with the next id and scans id, created-at and version back into the struct; constraints are kept |
| DataUser.UserModel.GetForCredentials | internal/data/user.go:75-109 | an unknown address and a wrong password give the same `ErrInvalidCredentials`; success iff the address is known and the password matches, with the user being that row; a malformed hash gives argon2id's error |
| DataUser.UserModel.GetForAuthToken | internal/data/user.go:111-149 | no joined row is not-found; `now` strictly after the token's expiry is `ErrExpiredToken`; otherwise the joined user |
| DataUser.UserModel.Exists | internal/data/user.go:151-169 | true iff some user has the address |
| DataUser.UserModel.Update | internal/data/user.go:171-199 | the table and version become what `ApplyUpdate` gives, or stay as they were on rejection; constraints are kept |
| ModelsUser.UserModel.Insert | internal/models/user.go:26-53 | hashes first (a salt failure changes nothing); the stored row holds the argon2id hash; the struct's own hash is left as it was |
| ModelsUser.UserModel.GetByEmail | internal/models/user.go:55-83 | `ErrRecordNotFound` iff the database is up and the address is unknown; a known address on a working connection succeeds with that user's row |
| ModelsUser.UserModel.Update | internal/models/user.go:85-113 | same compare-and-swap as the data store, via `ApplyUpdate` |
| ModelsUser.UserModel.Authenticate | internal/models/user.go:115-143 | success iff the address is known and the password matches, giving that user's id; an unknown address and a wrong password give the same `ErrInvalidCredentials` with id 0; a malformed stored hash gives argon2id's error |
| DataVerificationToken.VerificationTokenModel.Exists | cmd/api/tokens.go:40 | true iff a row has the scope, the address and the owner |
| DataVerificationToken.VerificationTokenModel.Prepare | cmd/api/tokens.go:50 | succeeds iff the entropy read succeeds, the address is a non-empty email and the expiry is set; the token and the row share the SHA-256 of a 26-letter plaintext |
| DataVerificationToken.VerificationTokenModel.New | cmd/api/tokens.go:50 | any failure leaves the table unchanged; success appends exactly the prepared row, and that token is then findable for the address |
| DataVerificationToken.VerificationTokenModel.Purge | cmd/api/users.go:35 | the table becomes `Purged(old table, address)`, across all scopes |
| DataVerificationToken.VerificationTokenModel.Verify | cmd/api/users.go:23 | the result is `Verdict` with `ErrExpiredToken` |
| Http.StatusText | cmd/api/response.go:31-33 | `http.StatusText` gives a reason phrase exactly for the codes `net/http` registers (1xx to 103, 2xx to 208 and 226, 3xx to 308 but 306, 4xx to 418 and 421-426, 428, 429, 431, 451, 5xx to 511 but 509) and "" for any other |
| Http.ResponseWriter.WriteHeader | cmd/api/response.go:24 | only the first call sets the status |
| Http.ResponseWriter.Write | cmd/api/response.go:25 | a body write with no status yet implies 200 |
| Http.WriteJSON | cmd/api/response.go:11-28 | a value that cannot be encoded returns the error and touches nothing; otherwise the caller's headers are copied, `Content-Type` is forced to JSON, and the status and body are written |
| Http.Envelope | cmd/api/response.go:9 | a one-key envelope that is encodable iff its value is |
| Http.ErrorEnvelope | cmd/api/response.go:30-35 | the single key "error", holding the message, or the status text when the message is nil |
| Http.WriteError | cmd/api/response.go:30-38 | fails iff the message cannot be encoded; otherwise the error envelope with the status |
| Http.WriteInvalid | cmd/api/response.go:54-56 | always 422, carrying the list of messages |
| Http.ErrorResponse | cmd/api/response.go:40-52 | a write failure is logged and answered with a bare 500; otherwise it is `writeError` with nothing logged |
| Http.ServerErrorResponse | cmd/api/response.go:58-62 | logs the error under the caller's message, then answers 500 with the status text |
| Http.Message | cmd/api/handler.go:109-116 | the error's own message when it has one, else the status text of its code; "" only for an empty message with an unregistered code |
| Http.Itoa | cmd/api/handler.go:98 | `%d` renders at least one character and never a closing bracket |
| Http.AtoiItoa | cmd/api/handler.go:98 | the decimal rendering of an integer reads back as that integer |
| Http.ErrorString | cmd/api/handler.go:97-99 | `respErr.Error` starts with the "respErr [" prefix |
| Http.ErrorStringRoundTrip | cmd/api/handler.go:97-99 | the status code and the message can both be read back from `respErr.Error()` |
| Http.ShadowedErrorIsLost | cmd/api/handler.go:63-80 | for an error that is not a respErr, the as-written and the corrected `handle` answer with the same 500 status and body, but the as-written log entry carries no error where the corrected one carries the handler's error |
| Http.HandleAsWritten | cmd/api/handler.go:33-83 | nil writes and logs nothing; a respErr logs only its wrapped error and is written as its status and message; any other error is 500 with the status text and a log entry with no error |
| Http.Handle | cmd/api/handler.go:33-83 | as `HandleAsWritten`, except that the 500 branch logs the handler's error |
| Api.MessageEnvelope | cmd/api/tokens.go:9 | `{"message": msg}`, always encodable |
| Api.UserJson | internal/data/user.go:18-24 | a user renders as `id`, `created_at` and `email` only; the password hash and the version are hidden |
| Api.Application.TokensVerificationPost | cmd/api/tokens.go:13-70 | every non-error outcome is the same 200 and message, whether or not the address is known; a known address, and an address with a pending registration token, return no error and change nothing; a token is created and mailed iff no user has the address and no registration token exists for it, and then exactly the prepared row is appended and its plaintext mailed |
| Api.Application.TokensVerificationUserEmailPost | cmd/api/tokens.go:72-133 | the same as the signup, with the change-email scope, the owner's id and the change-email template; a taken address, and one with a pending change-email token of this user, return no error and change nothing |
| Api.Application.TokensAuthenticationPost | cmd/api/tokens.go:135-161 | bad credentials are a 401 with the fixed message and create no token; a token is created iff the credentials match (and its generation and insert succeed), and then it is bound to that user's id and answered 201; a malformed stored hash, a failed entropy read, a failed validation and a failed insert each return their own error |
| Api.Application.UsersPost | cmd/api/users.go:11-46 | an unknown token is a 401 with the status text and an expired one a 401 with the expiry message, and neither changes anything; otherwise the address's tokens are purged before the user is created; a user is created iff the token verifies, the purge and the insert succeed and the address is free; it is answered 201; after the purge a failed salt read, a failed insert and a taken address return their own error (`ErrDuplicateEmail` for the last) and create nobody |
| Api.Application.UsersMeGet | cmd/api/users.go:48-52 | 200 with the request's user under "user" |
| Api.Application.HandleAuthSignup | cmd/api/auth.go:5-37 | with no existence check, every successful call appends one verification row and mails its plaintext to the address, then answers 200 |
| Api.Application.HandleAuthRegister | cmd/api/auth.go:39-59 | success iff the token verifies against `verification_`; otherwise `Verify`'s error is returned unchanged; it creates no user and purges nothing |

## Left out

- Database I/O, contexts and timeouts are not modelled. A query either
  reaches the table (`Conn.Up`) or fails with a driver error code
  (`Conn.Down`). `pgErrCode` is not modelled: a unique violation is
  derived from the table's own state.
- SHA-256, argon2id and ozzo's `is.Email` are injected functions. The
  modelled properties hold for any such function. `crypto/rand` is not a
  function of the model: each call receives its outcome as an `Entropy`
  value.
- `generateToken` and the `Token` struct are not part of this model. They
  follow the generation written out in
  `internal/models/verification_token.go:38-60`.
- `data.VerificationTokenModel` and its scope constants are not part of
  this model. `DataVerificationToken` is built on the shown stores:
  - its ttl is a parameter;
  - the owner is matched by equality;
  - `Purge` deletes every scope of the address.
- `ExistsWithEmail`, which the handlers call, is not part of this model.
  It is taken to be `data.UserModel.Exists`.
- The SQL of `internal/data/user.go:176-179` names the table `users`
  and returns the column `version`. The `Update` SQL of
  `internal/models/user.go:90-93` names the table `users` and the
  columns `email`, `password_hash`, `version` and `id`. The SQL of
  `internal/models/user.go:62` filters on `email`. The schema's names
  are `user_`, `email_`, `password_hash_`, `version_` and `id_`. The
  model runs every query against `user_`, so it does not capture the
  failures these names would cause against that schema.
- The `email_` column of `authentication_token_` is never written by
  `Insert`. The model keeps it as `None`, and
  `NewRowsAreInvisibleByEmail` states the consequence.
- `QueryRow` without `ORDER BY` reads an unspecified row. The model reads
  the first row in table order.
- Time is an integer number of seconds. `created_at` is rendered as that
  number, not as an RFC 3339 string.
- JSON is a small value type with an `Unencodable` case. Its bytes,
  indentation and `readJSON` are not modelled: the decoded body, or the
  decode error, is an input of each handler.
- `respErr`'s `Unwrap` and `StatusCode` are the fields of the `Resp`
  error.
- The write-failure fallbacks of `handle` (`cmd/api/handler.go:51-57`,
  `69-75`) are not modelled. They write strings, which always encode.
- `writeJSON` is declared both in `cmd/api/handler.go:11` and in
  `cmd/api/response.go:11`. One `Http.WriteJSON` stands for both.
- `app.background` goroutines and the mailer become the `outbox`
  sequence. The mail is queued at once, and the closures' shared `err`
  variable is not modelled.
- `contextGetUser` becomes the `user` parameter.
  `InvalidCredentailsMessage` becomes the constant
  `invalidCredentialsMessage`.
- Integers are unbounded. The source's user ids and versions are Go
  `int` (64 bits on the supported platforms), and
  `AuthenticationToken.UserID` is `int64`
  (`internal/data/token_authentication.go:21`). The model gives both one
  integer type, and they cannot overflow in practice.
- `ErrEditConflict` is declared but never returned by the modelled code.
- DataVerificationToken.VerificationTokenModel.Verify: matches hash and
  address only; any scope and owner verify, so a change-email token
  completes a registration in the model. The handler calls it with the
  address and the token only (`cmd/api/users.go:23`), and the store that
  defines it is not part of this model.
- Api.Application.TokensAuthenticationPost: a created token is tied to
  credentials that match and to generation and insert outcomes that
  succeed. The converse holds only for a non-zero id, which the
  `id_` sequence guarantees but the contract assumes.

## Findings

| source | as written | input that shows it | evidently intended | confidence | as-written member | corrected member |
|---|---|---|---|---|---|---|
| cmd/api/handler.go:63 | `err := app.writeJSON(...)` declares a new `err` inside the 500 branch, so lines 77-80 log `writeJSON`'s nil result | any handler returning a non-`respErr` error, e.g. a database error from `Exists` | log the handler's error under "handled unexpected error" | not executed | Http.HandleAsWritten, Http.ShadowedErrorIsLost | Http.Handle |
