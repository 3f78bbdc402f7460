/** Values shared by every part of the backend: Python's nullable strings,
    JSON payloads, HTTP responses and the two clocks the code reads. */
module Common {

  datatype Option<T> = None | Some(value: T)

  /** The outcome of a call into the Spotify Web API: the decoded JSON, or
      the text of the exception it raised. */
  datatype Result<T> = Ok(value: T) | Err(message: string)

  /** A Python `str` that may also be `None`. */
  type Text = Option<string>

  /** Python truthiness of a `str` or `None`: `not t` is false exactly here. */
  predicate Truthy(t: Text) {
    t.Some? && t.value != []
  }

  /** JSON as `jsonify` renders it. `JTime(t)` is the string that
      `datetime.isoformat()` gives for the instant `t`. */
  datatype Json =
    | JNull
    | JBool(b: bool)
    | JInt(i: int)
    | JStr(s: string)
    | JTime(t: int)
    | JArr(items: seq<Json>)
    | JObj(fields: map<string, Json>)

  /** A nullable string column as JSON: `None` becomes `null`. */
  function TextJson(t: Text): Json {
    if t.Some? then JStr(t.value) else JNull
  }

  /** A nullable timestamp as JSON: `x.isoformat() if x else None`. */
  function TimeJson(t: Option<int>): Json {
    if t.Some? then JTime(t.value) else JNull
  }

  /** A Flask response: `jsonify(body), status` or `redirect(location)`. */
  datatype Response = JsonResponse(status: int, body: Json) | Redirect(location: string)

  /** The message of every 401 the endpoints return. */
  const NotAuthenticated: string := "Not authenticated"

  /** `jsonify({"error": message}), status` */
  function ErrorResponse(status: int, message: string): Response {
    JsonResponse(status, JObj(map["error" := JStr(message)]))
  }

  /** `jsonify({"message": message})` */
  function MessageResponse(message: string): Response {
    JsonResponse(200, JObj(map["message" := JStr(message)]))
  }

  /** The two clocks of a request, in seconds: `datetime.now()` (local time,
      used for token expiry) and `datetime.utcnow()` (the column defaults). */
  datatype Clock = Clock(local: int, utc: int)
}
