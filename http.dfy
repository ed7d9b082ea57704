/** cmd/api/response.go and cmd/api/handler.go: how a handler's outcome
    becomes an HTTP response. A response is the writer's header map, its
    status and the JSON values written to its body; the logger is the list
    of entries it received. */
module Http {
  import opened Base
  import Tokens

  /** The values handlers put in a response body. `TokenValue` is a token
      encoded by its own struct tags (not part of this model); `Unencodable`
      stands for any value `json.MarshalIndent` refuses (a channel, a
      function, ...). */
  datatype Json =
    | Str(s: string)
    | Num(n: int)
    | Strs(items: seq<string>)
    | Object(fields: map<string, Json>)
    | TokenValue(token: Tokens.Token)
    | Unencodable

  /** Whether `json.MarshalIndent` accepts the value. */
  predicate Encodable(j: Json) {
    match j
    case Unencodable => false
    case Object(fields) => forall k :: k in fields ==> Encodable(fields[k])
    case _ => true
  }

  const StatusOK := 200
  const StatusCreated := 201
  const StatusUnauthorized := 401
  const StatusUnprocessableEntity := 422
  const StatusInternalServerError := 500

  /** The codes `net/http` registers a reason phrase for, class by class:
      1xx up to 103, 2xx up to 208 and 226, 3xx up to 308 without the unused
      306, 4xx up to 418 and the later additions, 5xx up to 511 without 509. */
  predicate Registered(code: int) {
    || 100 <= code <= 103
    || 200 <= code <= 208 || code == 226
    || (300 <= code <= 308 && code != 306)
    || 400 <= code <= 418 || 421 <= code <= 426 || code == 428 || code == 429 || code == 431 || code == 451
    || (500 <= code <= 511 && code != 509)
  }

  /** `http.StatusText`: `net/http`'s reason phrase for a registered code,
      "" for any other. */
  function StatusText(code: int): (r: string)
    ensures r == "" <==> !Registered(code)
  {
    if code == 100 then "Continue"
    else if code == 101 then "Switching Protocols"
    else if code == 102 then "Processing"
    else if code == 103 then "Early Hints"
    else if code == 200 then "OK"
    else if code == 201 then "Created"
    else if code == 202 then "Accepted"
    else if code == 203 then "Non-Authoritative Information"
    else if code == 204 then "No Content"
    else if code == 205 then "Reset Content"
    else if code == 206 then "Partial Content"
    else if code == 207 then "Multi-Status"
    else if code == 208 then "Already Reported"
    else if code == 226 then "IM Used"
    else if code == 300 then "Multiple Choices"
    else if code == 301 then "Moved Permanently"
    else if code == 302 then "Found"
    else if code == 303 then "See Other"
    else if code == 304 then "Not Modified"
    else if code == 305 then "Use Proxy"
    else if code == 307 then "Temporary Redirect"
    else if code == 308 then "Permanent Redirect"
    else if code == 400 then "Bad Request"
    else if code == 401 then "Unauthorized"
    else if code == 402 then "Payment Required"
    else if code == 403 then "Forbidden"
    else if code == 404 then "Not Found"
    else if code == 405 then "Method Not Allowed"
    else if code == 406 then "Not Acceptable"
    else if code == 407 then "Proxy Authentication Required"
    else if code == 408 then "Request Timeout"
    else if code == 409 then "Conflict"
    else if code == 410 then "Gone"
    else if code == 411 then "Length Required"
    else if code == 412 then "Precondition Failed"
    else if code == 413 then "Request Entity Too Large"
    else if code == 414 then "Request URI Too Long"
    else if code == 415 then "Unsupported Media Type"
    else if code == 416 then "Requested Range Not Satisfiable"
    else if code == 417 then "Expectation Failed"
    else if code == 418 then "I'm a teapot"
    else if code == 421 then "Misdirected Request"
    else if code == 422 then "Unprocessable Entity"
    else if code == 423 then "Locked"
    else if code == 424 then "Failed Dependency"
    else if code == 425 then "Too Early"
    else if code == 426 then "Upgrade Required"
    else if code == 428 then "Precondition Required"
    else if code == 429 then "Too Many Requests"
    else if code == 431 then "Request Header Fields Too Large"
    else if code == 451 then "Unavailable For Legal Reasons"
    else if code == 500 then "Internal Server Error"
    else if code == 501 then "Not Implemented"
    else if code == 502 then "Bad Gateway"
    else if code == 503 then "Service Unavailable"
    else if code == 504 then "Gateway Timeout"
    else if code == 505 then "HTTP Version Not Supported"
    else if code == 506 then "Variant Also Negotiates"
    else if code == 507 then "Insufficient Storage"
    else if code == 508 then "Loop Detected"
    else if code == 510 then "Not Extended"
    else if code == 511 then "Network Authentication Required"
    else ""
  }

  /** An `http.ResponseWriter`: headers, the status once written (`None`
      before), and the values written to the body. */
  class ResponseWriter {
    var header: map<string, seq<string>>
    var status: Option<int>
    var body: seq<Json>

    constructor ()
      ensures header == map[] && status == None && body == []
    {
      header := map[];
      status := None;
      body := [];
    }

    /** `WriteHeader`: only the first call sets the status. */
    method WriteHeader(code: int)
      modifies this
      ensures status == if old(status).None? then Some(code) else old(status)
      ensures header == old(header) && body == old(body)
    {
      if status.None? {
        status := Some(code);
      }
    }

    /** `Write`: a body write with no status yet implies 200. */
    method Write(data: Json)
      modifies this
      ensures status == if old(status).None? then Some(StatusOK) else old(status)
      ensures header == old(header) && body == old(body) + [data]
    {
      if status.None? {
        status := Some(StatusOK);
      }
      body := body + [data];
    }
  }

  /** One `logger.Error(msg, slog.Any("err", err))` call. */
  datatype LogEntry = LogEntry(message: string, err: Option<Error>)

  class Logger {
    var entries: seq<LogEntry>

    constructor ()
      ensures entries == []
    {
      entries := [];
    }

    method Error(message: string, err: Option<Error>)
      modifies this
      ensures entries == old(entries) + [LogEntry(message, err)]
    {
      entries := entries + [LogEntry(message, err)];
    }
  }

  const ContentType := "Content-Type"
  const ApplicationJson := "application/json"

  /** The status a first `WriteHeader(code)` leaves on a writer whose status was `s`. */
  function StatusAfter(s: Option<int>, code: int): Option<int> {
    if s.None? then Some(code) else s
  }

  /** `writeJSON`: encode the value (on failure return the error and touch
      nothing), copy every caller header over the writer's, force
      `Content-Type: application/json`, write the status and then the body. */
  method WriteJSON(w: ResponseWriter, statusCode: int, data: Json, headers: map<string, seq<string>>)
    returns (err: Option<Error>)
    modifies w
    ensures !Encodable(data) ==> err == Some(MarshalFailed)
    ensures !Encodable(data) ==> w.header == old(w.header) && w.status == old(w.status) && w.body == old(w.body)
    ensures Encodable(data) ==> err.None?
    ensures Encodable(data) ==> w.header == (old(w.header) + headers)[ContentType := [ApplicationJson]]
    ensures Encodable(data) ==> w.status == StatusAfter(old(w.status), statusCode) && w.body == old(w.body) + [data]
  {
    if !Encodable(data) {
      return Some(MarshalFailed);
    }
    var pending := headers.Keys;
    while pending != {}
      invariant pending <= headers.Keys
      invariant w.header == old(w.header) + map k | k in headers.Keys - pending :: headers[k]
      invariant w.status == old(w.status) && w.body == old(w.body)
      decreases pending
    {
      var key :| key in pending;
      w.header := w.header[key := headers[key]];
      pending := pending - {key};
      assert w.header == old(w.header) + map k | k in headers.Keys - pending :: headers[k];
    }
    assert w.header == old(w.header) + headers;
    w.header := w.header[ContentType := [ApplicationJson]];
    w.WriteHeader(statusCode);
    w.Write(data);
    return None;
  }

  /** An `envelope` with one key. */
  function Envelope(key: string, value: Json): (r: Json)
    ensures r.Object? && r.fields.Keys == {key} && r.fields[key] == value
    ensures Encodable(r) <==> Encodable(value)
  {
    Object(map[key := value])
  }

  /** The envelope `writeError` and `errorResponse` write: the single key
      "error", holding the message, or the status text when the message is nil. */
  function ErrorEnvelope(statusCode: int, message: Option<Json>): (r: Json)
    ensures r.Object? && r.fields.Keys == {"error"}
    ensures message.None? ==> r.fields["error"] == Str(StatusText(statusCode))
    ensures message.Some? ==> r.fields["error"] == message.value
    ensures Encodable(r) <==> message.None? || Encodable(message.value)
  {
    Envelope("error", if message.None? then Str(StatusText(statusCode)) else message.value)
  }

  /** `writeError`: the error envelope with the status; a write failure is returned. */
  method WriteError(w: ResponseWriter, statusCode: int, message: Option<Json>) returns (err: Option<Error>)
    modifies w
    ensures err.Some? <==> message.Some? && !Encodable(message.value)
    ensures err.Some? ==> err == Some(MarshalFailed) && w.status == old(w.status) && w.body == old(w.body)
    ensures err.None? ==> w.status == StatusAfter(old(w.status), statusCode)
    ensures err.None? ==> w.body == old(w.body) + [ErrorEnvelope(statusCode, message)]
    ensures err.None? ==> w.header == old(w.header)[ContentType := [ApplicationJson]]
  {
    err := WriteJSON(w, statusCode, ErrorEnvelope(statusCode, message), map[]);
    assert old(w.header) + map[] == old(w.header);
  }

  /** `writeInvalid`: always 422, carrying the list of messages. */
  method WriteInvalid(w: ResponseWriter, errors: seq<string>) returns (err: Option<Error>)
    modifies w
    ensures err.None?
    ensures w.status == StatusAfter(old(w.status), StatusUnprocessableEntity)
    ensures w.body == old(w.body) + [Envelope("error", Strs(errors))]
  {
    err := WriteError(w, StatusUnprocessableEntity, Some(Strs(errors)));
  }

  /** `errorResponse`: like `writeError`, but a write failure is logged and
      answered with a bare 500 instead of being returned. */
  method ErrorResponse(w: ResponseWriter, logger: Logger, statusCode: int, message: Option<Json>)
    modifies w, logger
    ensures message.Some? && !Encodable(message.value) ==>
              w.status == StatusAfter(old(w.status), StatusInternalServerError) && w.body == old(w.body)
              && logger.entries == old(logger.entries) + [LogEntry("unable to write error response", Some(MarshalFailed))]
    ensures message.None? || Encodable(message.value) ==>
              w.status == StatusAfter(old(w.status), statusCode)
              && w.body == old(w.body) + [ErrorEnvelope(statusCode, message)]
              && logger.entries == old(logger.entries)
  {
    var err := WriteError(w, statusCode, message);
    if err.Some? {
      logger.Error("unable to write error response", err);
      w.WriteHeader(StatusInternalServerError);
    }
  }

  /** `serverErrorResponse`: log the error under the caller's message, then
      answer 500 with the status text. */
  method ServerErrorResponse(w: ResponseWriter, logger: Logger, logMessage: string, err: Option<Error>)
    modifies w, logger
    ensures w.status == StatusAfter(old(w.status), StatusInternalServerError)
    ensures w.body == old(w.body) + [Envelope("error", Str("Internal Server Error"))]
    ensures logger.entries == old(logger.entries) + [LogEntry(logMessage, err)]
  {
    logger.Error(logMessage, err);
    ErrorResponse(w, logger, StatusInternalServerError, Some(Str(StatusText(StatusInternalServerError))));
  }

  // ---------------------------------------------------------------------
  // respErr

  /** `respErr.Message`: the error's own message when it has one, else the
      status text of its code. */
  function Message(e: Error): (r: string)
    requires e.Resp?
    ensures e.message != "" ==> r == e.message
    ensures e.message == "" ==> r == StatusText(e.statusCode)
    ensures r == "" <==> e.message == "" && !Registered(e.statusCode)
  {
    if e.message != "" then e.message else StatusText(e.statusCode)
  }

  predicate IsDigit(c: char) { '0' <= c <= '9' }

  function DigitChar(d: nat): (c: char)
    requires d < 10
    ensures IsDigit(c) && (c as int) - ('0' as int) == d
  {
    (('0' as int) + d) as char
  }

  /** The decimal digits of `n`, most significant first, with no leading zero. */
  function Digits(n: nat): (r: string)
    ensures |r| >= 1 && forall i :: 0 <= i < |r| ==> IsDigit(r[i])
  {
    if n < 10 then [DigitChar(n)] else Digits(n / 10) + [DigitChar(n % 10)]
  }

  /** The number a string of decimal digits denotes. */
  function DigitsValue(s: string): int {
    if s == [] then 0 else DigitsValue(s[..|s| - 1]) * 10 + ((s[|s| - 1] as int) - ('0' as int))
  }

  lemma {:induction false} DigitsValueOfDigits(n: nat)
    ensures DigitsValue(Digits(n)) == n
  {
    if n >= 10 {
      var s := Digits(n);
      assert s[..|s| - 1] == Digits(n / 10);
      DigitsValueOfDigits(n / 10);
    }
  }

  /** `%d`: an optional minus sign, then the digits. */
  function Itoa(n: int): (r: string)
    ensures |r| >= 1 && forall i :: 0 <= i < |r| ==> r[i] != ']'
  {
    if n < 0 then "-" + Digits(-n) else Digits(n)
  }

  function Atoi(s: string): int {
    if |s| > 0 && s[0] == '-' then -DigitsValue(s[1..]) else DigitsValue(s)
  }

  lemma AtoiItoa(n: int)
    ensures Atoi(Itoa(n)) == n
  {
    if n < 0 {
      assert ("-" + Digits(-n))[1..] == Digits(-n);
      DigitsValueOfDigits(-n);
    } else {
      DigitsValueOfDigits(n);
    }
  }

  const RespErrPrefix := "respErr ["

  /** `respErr.Error`: "respErr [code]: message". */
  function ErrorString(e: Error): (r: string)
    requires e.Resp?
    ensures |r| >= |RespErrPrefix| + 3 && r[..|RespErrPrefix|] == RespErrPrefix
  {
    RespErrPrefix + Itoa(e.statusCode) + "]: " + e.message
  }

  /** The first position of `c` in `s`, if any. */
  function IndexOf(s: string, c: char): (r: Option<nat>)
    ensures r.None? <==> forall i :: 0 <= i < |s| ==> s[i] != c
    ensures r.Some? ==> r.value < |s| && s[r.value] == c && forall i :: 0 <= i < r.value ==> s[i] != c
  {
    if s == [] then None
    else if s[0] == c then Some(0)
    else match IndexOf(s[1..], c)
         case None => None
         case Some(k) => Some(k + 1)
  }

  /** Read the code and the message back out of a rendered respErr. */
  function ParseErrorString(s: string): Option<(int, string)> {
    if |s| < |RespErrPrefix| || s[..|RespErrPrefix|] != RespErrPrefix then None
    else
      var rest := s[|RespErrPrefix|..];
      match IndexOf(rest, ']')
      case None => None
      case Some(j) =>
        if |rest| < j + 3 || rest[j + 1..j + 3] != ": " then None
        else Some((Atoi(rest[..j]), rest[j + 3..]))
  }

  /** The rendering loses nothing: the code and the message can be read back
      from it (the code's digits never contain the closing bracket). */
  lemma ErrorStringRoundTrip(e: Error)
    requires e.Resp?
    ensures ParseErrorString(ErrorString(e)) == Some((e.statusCode, e.message))
  {
    var s := ErrorString(e);
    var digits := Itoa(e.statusCode);
    var rest := s[|RespErrPrefix|..];
    assert rest == digits + "]: " + e.message;
    assert rest[|digits|] == ']';
    assert forall i :: 0 <= i < |digits| ==> rest[i] == digits[i];
    assert IndexOf(rest, ']') == Some(|digits|);
    assert rest[..|digits|] == digits;
    assert rest[|digits| + 1..|digits| + 3] == ": ";
    assert rest[|digits| + 3..] == e.message;
    AtoiItoa(e.statusCode);
  }

  // ---------------------------------------------------------------------
  // handle

  const UnwrappedMessage := "handled unwrapped error(s)"
  const UnexpectedMessage := "handled unexpected error"

  /** `handle`, as written. A nil handler error writes and logs nothing. A
      respErr logs only its wrapped error (when there is one) and is written
      as its status and `Message`. Any other error is answered 500 with the
      status text, and the log entry carries `writeJSON`'s nil instead of
      the error. */
  method HandleAsWritten(w: ResponseWriter, logger: Logger, herr: Option<Error>)
    modifies w, logger
    ensures herr.None? ==> w.header == old(w.header) && w.status == old(w.status) && w.body == old(w.body)
    ensures herr.None? ==> logger.entries == old(logger.entries)
    ensures herr.Some? && herr.value.Resp? ==>
              w.status == StatusAfter(old(w.status), herr.value.statusCode)
              && w.body == old(w.body) + [Str(Message(herr.value))]
              && logger.entries == old(logger.entries)
                   + (if herr.value.wrapped.Some? then [LogEntry(UnwrappedMessage, herr.value.wrapped)] else [])
    ensures herr.Some? && !herr.value.Resp? ==>
              w.status == StatusAfter(old(w.status), StatusInternalServerError)
              && w.body == old(w.body) + [Str("Internal Server Error")]
              && logger.entries == old(logger.entries) + [LogEntry(UnexpectedMessage, None)]
  {
    if herr.None? {
      return;
    }
    var e := herr.value;
    if e.Resp? {
      if e.wrapped.Some? {
        logger.Error(UnwrappedMessage, e.wrapped);
      }
      var err := WriteJSON(w, e.statusCode, Str(Message(e)), map[]);
      assert err.None?;
      return;
    }
    var err := WriteJSON(w, StatusInternalServerError, Str(StatusText(StatusInternalServerError)), map[]);
    assert err.None?;
    // The `err :=` above declares a new variable that shadows the handler's
    // error, so what is logged here is `writeJSON`'s result.
    logger.Error(UnexpectedMessage, err);
  }

  /** `handle` with the handler's error logged in the 500 branch; in every
      other respect the same as `HandleAsWritten`. */
  method Handle(w: ResponseWriter, logger: Logger, herr: Option<Error>)
    modifies w, logger
    ensures herr.None? ==> w.header == old(w.header) && w.status == old(w.status) && w.body == old(w.body)
    ensures herr.None? ==> logger.entries == old(logger.entries)
    ensures herr.Some? && herr.value.Resp? ==>
              w.status == StatusAfter(old(w.status), herr.value.statusCode)
              && w.body == old(w.body) + [Str(Message(herr.value))]
              && logger.entries == old(logger.entries)
                   + (if herr.value.wrapped.Some? then [LogEntry(UnwrappedMessage, herr.value.wrapped)] else [])
    ensures herr.Some? && !herr.value.Resp? ==>
              w.status == StatusAfter(old(w.status), StatusInternalServerError)
              && w.body == old(w.body) + [Str("Internal Server Error")]
              && logger.entries == old(logger.entries) + [LogEntry(UnexpectedMessage, herr)]
  {
    if herr.None? {
      return;
    }
    var e := herr.value;
    if e.Resp? {
      if e.wrapped.Some? {
        logger.Error(UnwrappedMessage, e.wrapped);
      }
      var err := WriteJSON(w, e.statusCode, Str(Message(e)), map[]);
      assert err.None?;
      return;
    }
    var err := WriteJSON(w, StatusInternalServerError, Str(StatusText(StatusInternalServerError)), map[]);
    assert err.None?;
    logger.Error(UnexpectedMessage, herr);
  }

  /** The shadowing on the modelled handler: for an error that is not a
      respErr, `HandleAsWritten` and `Handle` give the same response, but the
      as-written log entry carries no error where the intended one carries
      the handler's error. */
  method ShadowedErrorIsLost(e: Error)
    returns (asWritten: LogEntry, intended: LogEntry, statusAsWritten: Option<int>, statusIntended: Option<int>,
             bodyAsWritten: seq<Json>, bodyIntended: seq<Json>)
    requires !e.Resp?
    ensures asWritten == LogEntry(UnexpectedMessage, None)
    ensures intended == LogEntry(UnexpectedMessage, Some(e))
    ensures asWritten != intended
    ensures statusAsWritten == statusIntended == Some(StatusInternalServerError)
    ensures bodyAsWritten == bodyIntended == [Str("Internal Server Error")]
  {
    var w1 := new ResponseWriter();
    var l1 := new Logger();
    HandleAsWritten(w1, l1, Some(e));
    var w2 := new ResponseWriter();
    var l2 := new Logger();
    Handle(w2, l2, Some(e));
    asWritten := l1.entries[|l1.entries| - 1];
    intended := l2.entries[|l2.entries| - 1];
    statusAsWritten, statusIntended := w1.status, w2.status;
    bodyAsWritten, bodyIntended := w1.body, w2.body;
  }
}
