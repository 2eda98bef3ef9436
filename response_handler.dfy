/**
 * The response body builders (template/src/Core/Response/response.handler.ts).
 * A response write is modelled as the status code and the JSON body it sends.
 */
module Responses {
  import opened Wrappers
  import opened Json

  /** `ApiResponse`: `status`, an optional `message` and optional `data`. */
  datatype ApiResponse = ApiResponse(status: bool, message: Option<string>, data: Option<Json>)

  /** A response as written: `res.status(statusCode).json(body)`. */
  datatype HttpReply = HttpReply(statusCode: int, body: Json)

  /** `success(data, message)`: the JSON sent reads back as the response, with
      `status: true`, and has a `message` or `data` field exactly when that
      argument was given. */
  function Success(data: Option<Json>, message: Option<string>): (r: ApiResponse)
    ensures Parse(Body(r)) == Some(r)
    ensures Lookup(Body(r).fields, "status") == Some(JBool(true))
    ensures Lookup(Body(r).fields, "message").Some? <==> message.Some?
    ensures message.Some? ==> Lookup(Body(r).fields, "message") == Some(JString(message.value))
    ensures Lookup(Body(r).fields, "data") == data
  {
    var r := ApiResponse(true, message, data);
    BodyRoundTrip(r);
    r
  }

  /** `error(message)`: the JSON sent is exactly `status: false` and the
      message, with no `data` field. */
  function Error(message: string): (r: ApiResponse)
    ensures Parse(Body(r)) == Some(r)
    ensures Body(r) == JObject([("status", JBool(false)), ("message", JString(message))])
    ensures Lookup(Body(r).fields, "data").None?
  {
    var r := ApiResponse(false, Some(message), None);
    BodyRoundTrip(r);
    r
  }

  /** The JSON `res.json` sends for a response object: fields that are
      `undefined` are left out. */
  function Body(r: ApiResponse): Json {
    JObject(
      [("status", JBool(r.status))]
      + (if r.message.Some? then [("message", JString(r.message.value))] else [])
      + (if r.data.Some? then [("data", r.data.value)] else []))
  }

  /** Reads a response object back from a JSON body. */
  function Parse(j: Json): Option<ApiResponse> {
    if !j.JObject? then None
    else
      var status := Lookup(j.fields, "status");
      var message := Lookup(j.fields, "message");
      if status.Some? && status.value.JBool? && (message.None? || message.value.JString?) then
        Some(ApiResponse(status.value.b,
                         if message.Some? then Some(message.value.s) else None,
                         Lookup(j.fields, "data")))
      else None
  }

  /** The body sent for a response object reads back as that object. */
  lemma BodyRoundTrip(r: ApiResponse)
    ensures Parse(Body(r)) == Some(r)
  {
    var fields := Body(r).fields;
    var rest := fields[1..];
    assert Lookup(fields, "status") == Some(JBool(r.status));
    assert Lookup(fields, "data") == Lookup(rest, "data");
    assert Lookup(fields, "message") == Lookup(rest, "message");
    if r.message.Some? {
      assert rest[0] == ("message", JString(r.message.value));
      assert Lookup(rest, "data") == Lookup(rest[1..], "data");
      assert rest[1..] == if r.data.Some? then [("data", r.data.value)] else [];
    } else {
      assert rest == if r.data.Some? then [("data", r.data.value)] else [];
    }
  }

  /** `sendSuccess(res, statusCode, message, data)`. */
  function SendSuccess(statusCode: int, message: Option<string>, data: Option<Json>): (h: HttpReply)
    ensures h.statusCode == statusCode && Parse(h.body) == Some(Success(data, message))
  {
    BodyRoundTrip(Success(data, message));
    HttpReply(statusCode, Body(Success(data, message)))
  }

  /** `sendError(res, statusCode, message)`. */
  function SendError(statusCode: int, message: string): (h: HttpReply)
    ensures h.statusCode == statusCode && Parse(h.body) == Some(Error(message))
  {
    BodyRoundTrip(Error(message));
    HttpReply(statusCode, Body(Error(message)))
  }

  /** An error body has exactly the fields `status` (false) and `message`. */
  lemma ErrorBodyFields(message: string)
    ensures Body(Error(message)) == JObject([("status", JBool(false)), ("message", JString(message))])
  {
  }
}
