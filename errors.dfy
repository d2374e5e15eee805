/**
 * src/middlewares/error.js: the Express error handler. It answers with the
 * error's status (500 when unset), its code (or one derived from the
 * status), and its message only when the error is marked for exposure.
 */
module ErrorMiddleware {
  import opened Wrappers

  /**
   * The fields of a thrown error the handler reads. `status` is `None` when
   * absent; `message` is `None` when it is not a string;
   * `expose` is `Some(true)` only for the boolean `true`, and any other
   * value (absent, `false`, or a truthy non-boolean) is `None` or `Some(false)`.
   */
  datatype HttpError = HttpError(status: Option<int>, code: Option<string>, expose: Option<bool>, message: Option<string>)

  /** `res.status(status).json({ ok, code, message })`, with `message: undefined` as `None`. */
  datatype ErrorResponse = ErrorResponse(status: int, ok: bool, code: string, message: Option<string>)

  /** The code used when the error carries none. */
  function DefaultCode(status: int): string {
    if status == 401 then "E_AUTH_INVALID" else if status == 400 then "E_VALIDATION" else "E_UNKNOWN"
  }

  function ErrorHandler(err: HttpError): (r: ErrorResponse)
    ensures !r.ok
    ensures r.status != 0
    ensures err.status.Some? && err.status.value != 0 ==> r.status == err.status.value
    ensures err.status.None? || err.status.value == 0 ==> r.status == 500
    ensures Truthy(err.code) ==> r.code == err.code.value
    ensures !Truthy(err.code) ==> r.code in {"E_AUTH_INVALID", "E_VALIDATION", "E_UNKNOWN"}
    ensures !Truthy(err.code) ==> (r.code == "E_AUTH_INVALID" <==> r.status == 401)
    ensures !Truthy(err.code) ==> (r.code == "E_VALIDATION" <==> r.status == 400)
    ensures r.message.Some? <==> err.expose == Some(true) && err.message.Some?
    ensures r.message.Some? ==> r.message == err.message
  {
    var status := if err.status.Some? && err.status.value != 0 then err.status.value else 500;
    var code := if Truthy(err.code) then err.code.value else DefaultCode(status);
    var message := if err.expose == Some(true) && err.message.Some? then err.message else None;
    ErrorResponse(status, false, code, message)
  }

  /**
   * Internal errors stay internal: when an error is not exposed, its message
   * has no influence on the response.
   */
  lemma HiddenMessageIgnored(err: HttpError, otherMessage: Option<string>)
    requires err.expose != Some(true)
    ensures ErrorHandler(err) == ErrorHandler(err.(message := otherMessage))
    ensures ErrorHandler(err).message.None?
  {
  }

  /** With `expose === true` a string message is passed through as it is, the empty string included. */
  lemma ExposedMessageShown(err: HttpError, m: string)
    requires err.expose == Some(true)
    ensures ErrorHandler(err.(message := Some(m))).message == Some(m)
  {
  }

  /** A bare error is an unknown server error. */
  lemma BareErrorExample()
    ensures ErrorHandler(HttpError(None, None, None, None)) == ErrorResponse(500, false, "E_UNKNOWN", None)
    ensures ErrorHandler(HttpError(Some(0), Some(""), Some(false), Some("db down"))) == ErrorResponse(500, false, "E_UNKNOWN", None)
  {
  }

  /** The status-derived codes, and an explicit code winning over them. */
  lemma CodeExamples()
    ensures ErrorHandler(HttpError(Some(401), None, None, None)).code == "E_AUTH_INVALID"
    ensures ErrorHandler(HttpError(Some(400), None, None, None)).code == "E_VALIDATION"
    ensures ErrorHandler(HttpError(Some(404), None, None, None)).code == "E_UNKNOWN"
    ensures ErrorHandler(HttpError(Some(401), Some("E_TOKEN"), None, None)).code == "E_TOKEN"
  {
  }
}
