/** HTTP responses as the handlers produce them: a status code and the JSON
    envelope `{success, ...}` sent with `res.status(..).json(..)`. */
module Http {
  import opened Json

  datatype Response = Response(status: int, body: Object)

  /** `res.status(status).json({ success: false, error: message })`. */
  function Failure(status: int, message: string): (r: Response)
    ensures r.status == status
    ensures r.body.Keys == {"success", "error"}
    ensures r.body["success"] == Bool(false) && r.body["error"] == Str(message)
  {
    Response(status, map["success" := Bool(false), "error" := Str(message)])
  }

  /** The answer of the error middleware (server.js:598-605) to an exception a
      middleware threw: here always the TypeError of a failed conversion to a
      primitive. `development` is `process.env.NODE_ENV === 'development'`. */
  function UnhandledError(development: bool): (r: Response)
    ensures r.status == 500
    ensures r.body.Keys == {"success", "error", "message"}
    ensures r.body["success"] == Bool(false) && r.body["error"] == Str("Internal server error")
    ensures !development ==> r.body["message"] == Str("Something went wrong")
  {
    Response(500, map[
      "success" := Bool(false),
      "error" := Str("Internal server error"),
      "message" := Str(if development then "Cannot convert object to primitive value" else "Something went wrong")])
  }

  /** A response whose envelope reports success. */
  predicate Succeeded(r: Response) {
    "success" in r.body && r.body["success"] == Bool(true)
  }
}
