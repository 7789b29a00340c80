/**
 * The response parser `parseApiResponse` (src/lib/parseApiResponse.ts): a
 * transport response (status and body) plus a domain schema give either the
 * validated data or a thrown canonical error. The domain schema is a parameter:
 * `Some(value)` is a successful `safeParse`, `None` a failed one.
 */
module ParseApiResponse {
  import opened Wrappers
  import opened JsonValue
  import opened ApiErrorType
  import opened EnvelopeSchema
  import NormalizeApiError
  import ToApiError

  const UnexpectedResponseMessage := "Unexpected API response"

  /** What the parser returns: `undefined` for a 204, the validated data otherwise. */
  datatype Parsed<T> = NoContent | Data(value: T)

  /** The error thrown for a body the contract does not allow. */
  function Unexpected(status: int): ApiError {
    ApiError(status, UnexpectedResponseMessage, None, JUndefined, false)
  }

  /**
   * `parseApiResponse`: the 204 short-circuit, then the success envelope with the
   * domain schema, then the error envelope, then "unexpected". `Err` holds the
   * thrown value.
   */
  function Parse<T>(status: int, body: Json, schema: Json -> Option<T>): (r: Result<Parsed<T>, Json>)
    ensures status == 204 ==> r == Ok(NoContent)
    ensures r.Ok? && status != 204 ==> IsSuccessEnvelope(body) && r.value.Data?
  {
    if status == 204 then Ok(NoContent)
    else if IsSuccessEnvelope(body) then
      match schema(SuccessData(body))
      case Some(value) => Ok(Data(value))
      case None => Err(ToJson(Unexpected(500)))
    else if IsErrorEnvelope(body) then
      Err(NormalizeApiError.Normalize(NormalizeApiError.ResponseFailure(status, ParsedErrorEnvelope(body))))
    else Err(ToJson(Unexpected(status)))
  }

  /** Status 204 returns "no content" whatever the body and the schema. */
  lemma NoContentIgnoresBody<T>(body: Json, schema: Json -> Option<T>)
    ensures Parse(204, body, schema) == Ok(NoContent)
  {
  }

  /**
   * Apart from 204 the only non-throwing path is a success envelope whose `data`
   * passes the schema, and it returns what the schema produced.
   */
  lemma OkIff<T>(status: int, body: Json, schema: Json -> Option<T>)
    requires status != 204
    ensures Parse(status, body, schema).Ok? <==> IsSuccessEnvelope(body) && schema(Get(body, "data")).Some?
    ensures Parse(status, body, schema).Ok? ==> Parse(status, body, schema) == Ok(Data(schema(Get(body, "data")).value))
  {
  }

  /**
   * A success envelope whose data fails the schema throws status 500, not
   * retriable, whatever the transport status: it is never routed to the normaliser.
   */
  lemma DomainMismatchIs500<T>(status: int, body: Json, schema: Json -> Option<T>)
    requires status != 204 && IsSuccessEnvelope(body) && schema(Get(body, "data")).None?
    ensures Parse(status, body, schema) == Err(ToJson(ApiError(500, UnexpectedResponseMessage, None, JUndefined, false)))
  {
  }

  /**
   * An error envelope is normalised with the transport status: the thrown error
   * keeps that status, takes its message from the status table or the envelope,
   * and is retriable exactly for 429, 500, 502, 503 (and 0).
   */
  lemma ErrorEnvelopeNormalised<T>(status: int, body: Json, schema: Json -> Option<T>)
    requires status != 204 && IsErrorEnvelope(body)
    ensures Parse(status, body, schema).Err?
    ensures var thrown := FromJson(Parse(status, body, schema).error);
      && thrown.Some?
      && thrown.value.status == status
      && thrown.value.message ==
           (if NormalizeApiError.ForcedMessage(status).Some? then NormalizeApiError.ForcedMessage(status).value
            else Get(body, "message").s)
      && thrown.value.retriable == (status in {429, 500, 502, 503, 0})
      && thrown.value.rawErrors == Get(body, "errors")
      && thrown.value.fieldErrors ==
           (if status == 422 then NormalizeApiError.FieldErrorsOf(Get(body, "errors")) else None)
  {
    var failure := NormalizeApiError.ResponseFailure(status, ParsedErrorEnvelope(body));
    assert Get(Get(failure, "response"), "status") == JNum(status);
    assert !NormalizeApiError.PassesThrough(failure);
    NormalizeApiError.NormalizeBuilds(failure);
  }

  /** A body of neither shape throws the transport status with "Unexpected API response", not retriable, no field errors. */
  lemma NeitherShapeIsUnexpected<T>(status: int, body: Json, schema: Json -> Option<T>)
    requires status != 204 && !IsSuccessEnvelope(body) && !IsErrorEnvelope(body)
    ensures Parse(status, body, schema).Err?
    ensures FromJson(Parse(status, body, schema).error) == Some(ApiError(status, UnexpectedResponseMessage, None, JUndefined, false))
  {
    ToJsonRoundTrip(Unexpected(status));
  }

  /**
   * Every thrown value is a canonical error: numeric status, string message and
   * boolean retriable, recognised by `toApiError`; and normalising it again (as
   * the endpoint wrappers do) returns it unchanged.
   */
  lemma ThrownIsCanonical<T>(status: int, body: Json, schema: Json -> Option<T>)
    requires Parse(status, body, schema).Err?
    ensures var thrown := Parse(status, body, schema).error;
      && FromJson(thrown).Some?
      && ToApiError.Recognise(thrown) == Some(thrown)
      && NormalizeApiError.WellFormedFailure(thrown)
      && NormalizeApiError.Normalize(thrown) == thrown
  {
    var thrown := Parse(status, body, schema).error;
    if IsSuccessEnvelope(body) {
      ToJsonRoundTrip(Unexpected(500));
      ToApiError.RecognisesCanonical(Unexpected(500));
    } else if IsErrorEnvelope(body) {
      var failure := NormalizeApiError.ResponseFailure(status, ParsedErrorEnvelope(body));
      assert Get(Get(failure, "response"), "status") == JNum(status);
      NormalizeApiError.NormalizeBuilds(failure);
      ToApiError.RecognisesNormalized(failure);
      NormalizeApiError.NormalizeOutputPassesThrough(failure);
    } else {
      ToJsonRoundTrip(Unexpected(status));
      ToApiError.RecognisesCanonical(Unexpected(status));
    }
  }

  /** The test cases: `{foo: "bar"}` parses, `{foo: 123}` against a string schema throws 500. */
  function FooIsString(data: Json): Option<string> {
    match Get(data, "foo")
    case JStr(s) => Some(s)
    case _ => None
  }

  lemma FooCases()
    ensures Parse(200, JObj(map["success" := JBool(true), "message" := JStr("ok"), "data" := JObj(map["foo" := JStr("bar")])]), FooIsString)
      == Ok(Data("bar"))
    ensures Parse(200, JObj(map["success" := JBool(true), "message" := JStr("ok"), "data" := JObj(map["foo" := JNum(123)])]), FooIsString)
      == Err(ToJson(Unexpected(500)))
  {
  }
}
