/** The response handling the API clients in src/api share: a request either
    succeeds with its decoded body, or fails with an error body that is read
    as JSON before a message is chosen. */
module Http {
  import opened Wrappers
  import Text
  import Query

  /** A failed response's body as `res.json()` sees it: JSON with an optional
      `error` field, or text the JSON parser rejects with its own message. */
  datatype ErrorBody = JsonBody(error: Option<string>) | NotJson(parserMessage: string)

  /** The outcome of one `fetch`: `res.ok` with the decoded value, a status
      that is not ok with its error body, or a promise that rejects before a
      value is decoded (`fetch` itself fails, or an ok body is not JSON), with
      that error's own message. */
  datatype Response<T> = Ok(value: T) | NotOk(body: ErrorBody) | Rejected(message: string)

  /** `throw new Error(err.error || fallback)` after `await res.json()`; a
      body that is not JSON rejects inside `res.json()` with the parser's
      message instead. */
  function BodyMessage(body: ErrorBody, fallback: string): (m: string)
    ensures body.JsonBody? && body.error.Some? && body.error.value != "" ==> m == body.error.value
    ensures body.JsonBody? && (body.error.None? || body.error.value == "") ==> m == fallback
    ensures body.NotJson? ==> m == body.parserMessage
  {
    match body
    case JsonBody(e) => if e.Some? && e.value != "" then e.value else fallback
    case NotJson(p) => p
  }

  /** A call that reports the server's `error` field, else `fallback`. */
  function Reported<T>(r: Response<T>, fallback: string): (o: Result<T, string>)
    ensures r.Ok? <==> o.Success?
    ensures r.Ok? ==> o.value == r.value
    ensures r.NotOk? ==> o.error == BodyMessage(r.body, fallback)
    ensures r.Rejected? ==> o.error == r.message
  {
    match r
    case Ok(v) => Success(v)
    case NotOk(b) => Failure(BodyMessage(b, fallback))
    case Rejected(m) => Failure(m)
  }

  /** A call that throws one fixed message and never reads the error body. */
  function Fixed<T>(r: Response<T>, message: string): (o: Result<T, string>)
    ensures r.Ok? <==> o.Success?
    ensures r.Ok? ==> o.value == r.value
    ensures r.NotOk? ==> o.error == message
    ensures r.Rejected? ==> o.error == r.message
  {
    match r
    case Ok(v) => Success(v)
    case NotOk(_) => Failure(message)
    case Rejected(m) => Failure(m)
  }

  /** A fixed-message call fails identically whatever the server sent;
      a reporting call falls back exactly when the server gave no message. */
  lemma FixedIgnoresBody<T>(b1: ErrorBody, b2: ErrorBody, message: string, fallback: string)
    ensures Fixed(Response<T>.NotOk(b1), message) == Fixed(Response<T>.NotOk(b2), message)
    ensures b1.JsonBody? ==>
      (Reported(Response<T>.NotOk(b1), fallback) == Failure(fallback) <==>
         b1.error.None? || b1.error.value == "" || b1.error.value == fallback)
  {
  }

  /** `userId ? ... : ...`: a user id was derived (a non-zero number). */
  predicate HasUser(userId: Option<int>) {
    userId.Some? && userId.value != 0
  }

  /** The `?user_id=N` suffix of the URLs that scope a request to the user. */
  function UserQuery(userId: Option<int>): string {
    if HasUser(userId) then "?user_id=" + Text.IntToString(userId.value) else ""
  }

  /** The suffix is there exactly when a user id was derived, and then it is
      a query string holding that one parameter, which reads back as the id. */
  lemma UserQueryReadsBack(userId: Option<int>)
    ensures UserQuery(userId) == "" <==> !HasUser(userId)
    ensures HasUser(userId) ==>
      && UserQuery(userId)[0] == '?'
      && Query.Decode(UserQuery(userId)[1..]) == [("user_id", Text.IntToString(userId.value))]
      && Text.ParseInt(Text.IntToString(userId.value)) == Some(userId.value)
  {
    if HasUser(userId) {
      var n := Text.IntToString(userId.value);
      var params := [("user_id", n)];
      Query.NumberSafe(userId.value);
      Query.DecodeEncode(params);
      Query.EncodeOne(("user_id", n));
      assert UserQuery(userId) == "?" + ("user_id=" + n);
      assert UserQuery(userId)[1..] == Query.Encode(params);
      Text.IntToStringRoundTrip(userId.value);
    }
  }
}
