/**
 * accounts/utils/responses.py: the two envelopes every endpoint answers with,
 * `{success, message, errors?}` for errors and `{success, message, **extra}` for successes.
 */
module Responses {
  import opened PyData

  /** An HTTP response: the JSON body as a dict, and the status code. */
  datatype Response = Response(data: map<string, Value>, status: int)

  /** `error_response(message, code=400, errors=None)`. */
  function ErrorResponse(message: Value, code: int := 400, errors: Value := NoneV): (r: Response)
    ensures r.status == code
    ensures r.data.Keys == {"success", "message"} + (if errors != NoneV then {"errors"} else {})
    ensures r.data["success"] == BoolV(false) && r.data["message"] == message
    ensures errors != NoneV ==> r.data["errors"] == errors
  {
    var body := map["success" := BoolV(false), "message" := message];
    Response(if errors != NoneV then body["errors" := errors] else body, code)
  }

  /**
   * `success_response(message, code=200, **kwargs)`. The extra fields are merged after
   * the flag is set, so one named `success` replaces it; `message` and `code` cannot be
   * passed as extra fields because they bind the named parameters.
   */
  function SuccessResponse(message: Value, code: int := 200, kwargs: map<string, Value> := map[]): (r: Response)
    requires "message" !in kwargs && "code" !in kwargs
    ensures r.status == code
    ensures r.data.Keys == {"success", "message"} + kwargs.Keys
    ensures r.data["success"] == (if "success" in kwargs then kwargs["success"] else BoolV(true))
    ensures r.data["message"] == message
    ensures forall f :: f in kwargs ==> r.data[f] == kwargs[f]
  {
    var body := map["success" := BoolV(true), "message" := message];
    Response(if |kwargs| > 0 then body + kwargs else body, code)
  }

  /** An error envelope never reads as a success, and a success envelope built without a
      `success` field never reads as an error: the flag tells the two apart. */
  lemma EnvelopesAreDistinguishable(m1: Value, c1: int, e: Value, m2: Value, c2: int, kwargs: map<string, Value>)
    requires "message" !in kwargs && "code" !in kwargs && "success" !in kwargs
    ensures ErrorResponse(m1, c1, e) != SuccessResponse(m2, c2, kwargs)
  {
    assert ErrorResponse(m1, c1, e).data["success"] != SuccessResponse(m2, c2, kwargs).data["success"];
  }
}
