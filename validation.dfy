/**
 * Request-body validation (template/src/Core/Configs/global.validation.ts).
 * The schema is a parameter: a function of the request body alone.
 */
module Validation {
  import opened Wrappers
  import opened Json
  import opened Responses
  import opened ZodFormat

  /** The result of `schema.safeParse(body)`. */
  datatype ParseResult = Parsed(data: Json) | Rejected(error: ZodError)

  /** What the middleware does: call `next()` or send a response. */
  datatype Reply = CallNext | Respond(reply: HttpReply)

  /** The decision for a parse result and the request body afterwards. */
  function Validate(parsed: ParseResult, overrideRequestBody: bool, body: Json): (r: (Reply, Json))
  {
    match parsed
    case Rejected(error) => (Respond(SendError(400, FormatError(error))), body)
    case Parsed(data) => (CallNext, if overrideRequestBody then data else body)
  }

  /**
   * A failed parse answers 400 with the formatted error (its first issue, or
   * `Invalid data`) and leaves the body alone; a successful one calls `next`,
   * sends nothing, and replaces the body by the parsed data exactly when the
   * override flag is set.
   */
  lemma ValidateOutcomes(parsed: ParseResult, overrideRequestBody: bool, body: Json)
    ensures var (reply, body') := Validate(parsed, overrideRequestBody, body);
      && (parsed.Rejected? ==>
            && reply.Respond? && reply.reply.statusCode == 400
            && Parse(reply.reply.body) == Some(Error(FormatError(parsed.error)))
            && body' == body)
      && (parsed.Parsed? ==>
            && reply == CallNext
            && (overrideRequestBody ==> body' == parsed.data)
            && (!overrideRequestBody ==> body' == body))
  {
  }

  /** A rejection with at least one issue reports exactly the first one. */
  lemma RejectionReportsFirstIssue(error: ZodError, overrideRequestBody: bool, body: Json)
    requires error.issues != []
    ensures Validate(Rejected(error), overrideRequestBody, body).0
         == Respond(SendError(400, PathText(error.issues[0].path) + ": " + error.issues[0].message))
  {
  }

  /** The request object; only its body is modelled. */
  class Request {
    var body: Json

    constructor (body: Json)
      ensures this.body == body
    {
      this.body := body;
    }
  }

  /** `validateSchema(schema, overrideRequestBody)` applied to a request: only the
      body is handed to the schema, and only the body may change. */
  method ValidateSchema(schema: Json -> ParseResult, overrideRequestBody: bool, req: Request) returns (reply: Reply)
    modifies req
    ensures (reply, req.body) == Validate(schema(old(req.body)), overrideRequestBody, old(req.body))
  {
    var parsed := schema(req.body);
    if parsed.Rejected? {
      return Respond(SendError(400, FormatError(parsed.error)));
    }
    if overrideRequestBody {
      req.body := parsed.data;
    }
    reply := CallNext;
  }
}
