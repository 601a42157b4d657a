/** What an Express handler or middleware does with a request: answer it, pass it on
    with `next()`, or hand an error to the error handler with `next(error)`. */
module Http {
  import opened Json

  /** An answered request: status code, the headers set with `res.set`, the JSON body. */
  datatype Response = Response(status: int, headers: map<string, string>, body: Json)

  datatype Outcome =
    | Respond(resp: Response)
    | Next
    | Forward(error: string)

  /** `res.status(status).json(body)` with no extra headers. */
  function Reply(status: int, body: map<string, Json>): Response {
    Response(status, map[], Obj(body))
  }

  /** A top-level property of the JSON body. */
  function BodyField(r: Response, key: string): Option<Json> {
    Member(Some(r.body), key)
  }

  /** The `{ error, message }` body most routes answer a rejected request with. */
  function ErrorReply(status: int, error: string, message: string): Outcome {
    Respond(Reply(status, map["error" := Str(error), "message" := Str(message)]))
  }
}
