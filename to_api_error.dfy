/** The shape recogniser `toApiError` (src/lib/toApiError.ts). */
module ToApiError {
  import opened Wrappers
  import opened JsonValue
  import opened ApiErrorType
  import NormalizeApiError

  /** The three `typeof` tests on `status`, `message` and `retriable`. */
  predicate HasCanonicalShape(v: Json) {
    IsNumber(Get(v, "status")) && IsString(Get(v, "message")) && IsBoolean(Get(v, "retriable"))
  }

  /** `toApiError`: the value itself when it is an object with the canonical shape, `undefined` otherwise. */
  function Recognise(error: Json): (r: Option<Json>)
    ensures r.Some? ==> r.value == error
  {
    if !Truthy(error) || !IsObjectType(error) then None
    else if HasCanonicalShape(error) then Some(error)
    else None
  }

  /** The input value is returned exactly for objects with a numeric status, a string message and a boolean retriable. */
  lemma RecogniseIff(error: Json)
    ensures Recognise(error) == Some(error) <==>
      (error.JObj? && "status" in error.fields && error.fields["status"].JNum?
       && "message" in error.fields && error.fields["message"].JStr?
       && "retriable" in error.fields && error.fields["retriable"].JBool?)
    ensures Recognise(error) != Some(error) ==> Recognise(error) == None
  {
  }

  /** Null, undefined and every primitive are rejected. */
  lemma PrimitivesRejected(error: Json)
    requires !error.JObj? && !error.JArr?
    ensures Recognise(error) == None
  {
  }

  /** Every canonical error in object form is recognised. */
  lemma RecognisesCanonical(e: ApiError)
    ensures Recognise(ToJson(e)) == Some(ToJson(e))
  {
    ToJsonShape(e);
  }

  /**
   * The recogniser is stricter than the normaliser's pass-through check: a numeric
   * status and a string message without a boolean `retriable` pass through
   * normalisation unchanged but are not recognised here.
   */
  lemma StricterThanPassThrough()
    ensures var v := JObj(map["status" := JNum(503), "message" := JStr("down")]);
      NormalizeApiError.PassesThrough(v) && NormalizeApiError.Normalize(v) == v && Recognise(v) == None
  {
  }

  /** Whatever the normaliser builds (rather than passes through) is recognised. */
  lemma RecognisesNormalized(error: Json)
    requires NormalizeApiError.WellFormedFailure(error) && !NormalizeApiError.PassesThrough(error)
    ensures Recognise(NormalizeApiError.Normalize(error)) == Some(NormalizeApiError.Normalize(error))
  {
    RecognisesCanonical(NormalizeApiError.Build(error));
  }
}
