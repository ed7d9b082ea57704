/** Values shared by every store and handler: the optional/error wrappers, the
    sentinel errors of the `data` and `models` packages, time, digests and the
    inputs that stand for the database, the entropy source and the password
    hasher. */
module Base {

  datatype Option<+T> = None | Some(value: T)

  /** A Go `(value, error)` pair where the value is meaningless on error. */
  datatype Result<+T> = Ok(value: T) | Fail(error: Error)

  /** An octet, as in a Go `[]byte`. */
  type byte = x: int | 0 <= x < 256

  /** A SHA-256 digest: always 32 bytes (FIPS 180-4). */
  type Digest = d: seq<byte> | |d| == 32 witness seq(32, _ => 0)

  /** Number of random bytes behind every token plaintext. */
  const RandomBytes: nat := 16

  /** What `crypto/rand.Read` filled a 16-byte buffer with. */
  type RandomBlock = s: seq<byte> | |s| == RandomBytes witness seq(RandomBytes, _ => 0)

  /** Outcome of `rand.Read`: it fills the whole buffer or reports an error. */
  datatype Entropy = ReadFailed(reason: string) | Filled(block: RandomBlock)

  /** Outcome of `argon2id.ComparePasswordAndHash`. */
  datatype Comparison = Match | Mismatch | Malformed(reason: string)

  /** Time as an integer number of seconds; `ZeroTime` stands for Go's zero
      `time.Time`, the value ozzo's `Required` rule rejects. */
  type Time = int
  const ZeroTime: Time := 0
  const Second: int := 1
  const Hour: int := 3600 * Second

  /** `time.Now().After(expiry)`: strictly later. */
  predicate After(now: Time, expiry: Time) { now > expiry }

  /** Whether the database round trip of one call went through, or which
      driver error it produced instead (timeout, lost connection, ...).
      "No rows" and "unique violation" are not inputs: they follow from the
      table contents. */
  datatype Conn = Up | Down(code: string)

  /** A struct field named in an ozzo validation error. */
  datatype Field = HashField | EmailField | ExpiryField | UserIDField

  datatype Error =
    | RecordNotFound                 // ErrRecordNotFound
    | ExpiredVerification            // models.ErrExpiredVerification
    | ExpiredToken                   // ErrExpiredToken
    | InvalidCredentials             // ErrInvalidCredentials
    | DuplicateEmail                 // ErrDuplicateEmail
    | NoRows                         // pgx.ErrNoRows, passed through unmapped
    | Db(code: string)               // any other driver error, passed through
    | Invalid(fields: set<Field>)    // ozzo validation.Errors, one entry per failed field
    | EntropyFailed(reason: string)  // crypto/rand
    | HashingFailed(reason: string)  // argon2id
    | BadRequest(reason: string)     // readJSON
    | MarshalFailed                  // json.MarshalIndent on a value it cannot encode
    | Resp(statusCode: int, message: string, wrapped: Option<Error>)  // cmd/api respErr
}
