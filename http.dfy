/** Outbound HTTP as the services see it. Nothing is sent: a request is a value,
    and what the remote side answered is an input. */
module Http {
  import opened Wrappers
  import opened Json

  /** An outgoing request: method, URL, headers and body. */
  datatype Request = Request(verb: string, url: string, headers: map<string, string>, body: Json)

  /** A response: status code, what `response.json()` gives (the parsed body, or
      the message of the `JSONDecodeError` it raises when the body is not JSON
      text, such as "Expecting value: line 1 column 1 (char 0)" for an empty or
      an HTML body) and the raw text (`response.text`; `response.content` is
      empty iff it is). */
  datatype Response = Response(status: int, body: Result<Json, string>, text: string)

  /** How a `requests`/`httpx` call ended. */
  datatype Outcome =
    | Received(response: Response)
    | TimedOut(message: string)
    | TransportError(message: string)

  /** What a FastAPI route answers: a status code and a JSON body. */
  datatype Reply = Reply(status: int, body: Json)

  /** The answer to `raise HTTPException(status_code, detail)`. */
  function HttpError(status: int, detail: string): (r: Reply)
    ensures r.status == status && r.body.JObj? && "detail" in r.body.fields && r.body.fields["detail"] == JStr(detail)
  {
    Reply(status, JObj(map["detail" := JStr(detail)]))
  }

  /** `HTTPException` with a structured `detail`. */
  function HttpErrorWith(status: int, detail: Json): (r: Reply)
    ensures r.status == status && r.body == JObj(map["detail" := detail])
  {
    Reply(status, JObj(map["detail" := detail]))
  }

  /** What a route sent, in order, and what it answered. */
  datatype Exchange = Exchange(sent: seq<Request>, reply: Reply)

  /** An unexpected exception in a route: `HTTPException(500, "Internal server error: ...")`. */
  function Internal(sent: seq<Request>, message: string): (x: Exchange)
    ensures x.sent == sent && x.reply.status == 500
  {
    Exchange(sent, HttpError(500, "Internal server error: " + message))
  }
}
