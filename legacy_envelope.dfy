/** The older envelope helpers `unwrap` and `toArray` (src/lib/envelope.ts). */
module LegacyEnvelope {
  import opened Wrappers
  import opened JsonValue
  import EnvelopeSchema

  const DefaultFailureMessage := "Request failed"

  /**
   * What `unwrap` throws: an `Error` with its message and the `errors` property it
   * attaches, or the runtime's TypeError when `in` is applied to a primitive.
   */
  datatype Thrown = RequestError(message: string, errors: Json) | InOperatorTypeError

  /** `new Error(m).message`: empty for `undefined`, `String(m)` otherwise. */
  function ErrorText(m: Json): string {
    if m.JUndefined? then "" else JsString(m)
  }

  /** `unwrap(payload)`: the payload's `data` when `success` is exactly true; otherwise it throws. */
  function Unwrap(payload: Json): (r: Result<Json, Thrown>)
    ensures r.Ok? ==> payload.JObj? && Get(payload, "success") == JBool(true)
    ensures !Truthy(payload) ==> r == Err(RequestError(DefaultFailureMessage, JUndefined))
  {
    if Truthy(payload) && Get(payload, "success") == JBool(true) then Ok(Get(payload, "data"))
    else if Truthy(payload) && !IsObjectType(payload) then Err(InOperatorTypeError)
    else
      var message := if Truthy(payload) && Has(payload, "message") then ErrorText(Get(payload, "message")) else DefaultFailureMessage;
      var errors := if Truthy(payload) && Has(payload, "errors") then Get(payload, "errors") else JUndefined;
      Err(RequestError(message, errors))
  }

  /** `toArray(data)`: an array as it is, else the `items` array of an object, else `null` (None). */
  function ToArray(data: Json): (r: Option<seq<Json>>)
    ensures r.Some? ==> data == JArr(r.value) || (data.JObj? && Get(data, "items") == JArr(r.value))
  {
    if data.JArr? then Some(data.elems)
    else if Truthy(data) && IsObjectType(data) && Has(data, "items") && Get(data, "items").JArr? then
      Some(Get(data, "items").elems)
    else None
  }

  /** `unwrap` returns exactly when the payload is truthy and its `success` is the boolean true, and then returns its `data`. */
  lemma UnwrapOkIff(payload: Json)
    ensures Unwrap(payload).Ok? <==> payload.JObj? && Get(payload, "success") == JBool(true)
    ensures Unwrap(payload).Ok? ==> Unwrap(payload).value == Get(payload, "data")
  {
  }

  /**
   * For an object whose `success` is not exactly true, the thrown message is its
   * `message` when that key is present (else "Request failed"), and the attached
   * `errors` is its `errors` when present (else undefined).
   */
  lemma UnwrapFailureFromObject(payload: Json)
    requires (payload.JObj? || payload.JArr?) && Get(payload, "success") != JBool(true)
    ensures Unwrap(payload) == Err(RequestError(
      if Has(payload, "message") then ErrorText(Get(payload, "message")) else DefaultFailureMessage,
      if Has(payload, "errors") then Get(payload, "errors") else JUndefined))
  {
  }

  /** A falsy payload throws "Request failed" with no errors; a truthy primitive makes `in` throw a TypeError. */
  lemma UnwrapNonObject(payload: Json)
    requires !payload.JObj? && !payload.JArr?
    ensures !Truthy(payload) ==> Unwrap(payload) == Err(RequestError(DefaultFailureMessage, JUndefined))
    ensures Truthy(payload) ==> Unwrap(payload) == Err(InOperatorTypeError)
  {
  }

  /** On the two envelope shapes: a success envelope unwraps to its data, an error envelope throws its own message and errors. */
  lemma UnwrapEnvelopes(payload: Json)
    ensures EnvelopeSchema.IsSuccessEnvelope(payload) ==> Unwrap(payload) == Ok(EnvelopeSchema.SuccessData(payload))
    ensures EnvelopeSchema.IsErrorEnvelope(payload) ==>
      Unwrap(payload) == Err(RequestError(Get(payload, "message").s,
                                          if Has(payload, "errors") then Get(payload, "errors") else JUndefined))
  {
  }

  /** An array is returned unchanged, without looking at any `items`. */
  lemma ToArrayKeepsArrays(elems: seq<Json>)
    ensures ToArray(JArr(elems)) == Some(elems)
  {
  }

  /** `toArray` finds an array exactly in an array or in the `items` of an object, and returns that array. */
  lemma ToArrayIff(data: Json)
    ensures ToArray(data).Some? <==> data.JArr? || (data.JObj? && Get(data, "items").JArr?)
    ensures ToArray(data).Some? ==> ToArray(data).value == (if data.JArr? then data.elems else Get(data, "items").elems)
  {
  }
}
