/**
 * The error normaliser (src/lib/normalizeApiError.ts): maps any caught failure to
 * a canonical error, classifying it by HTTP status.
 */
module NormalizeApiError {
  import opened Wrappers
  import opened JsonValue
  import opened ApiErrorType
  import opened EnvelopeSchema

  const UnauthorizedMessage := "Unauthorized / session expired"
  const ForbiddenMessage := "You do not have permission to access this resource."
  const NotFoundMessage := "Resource not found."
  const TooManyRequestsMessage := "Too many requests. Please try again."
  const ServerErrorMessage := "Server error. Please try again."
  const RequestFailedMessage := "Request failed."

  /**
   * The one key an assignment to a plain object does not store: `obj["__proto__"] = v`
   * calls the prototype setter, which ignores a string `v`.
   */
  const ProtoKey := "__proto__"

  /** `isRetriableStatus`: the statuses worth retrying when a response did arrive. */
  predicate IsRetriableStatus(status: int)
    ensures IsRetriableStatus(status) ==> ForcedMessage(status).Some?
  {
    status == 429 || status == 500 || status == 502 || status == 503
  }

  /** The check that returns the input unchanged: it already looks like a canonical error. */
  predicate PassesThrough(error: Json) {
    Truthy(error) && IsNumber(Get(error, "status")) && IsString(Get(error, "message"))
  }

  /** `axiosError.response?.status ?? 0`, when that status is a number or absent. */
  function ResponseStatus(error: Json): int {
    match Get(Get(error, "response"), "status")
    case JNum(n) => n
    case _ => 0
  }

  /**
   * What a transport failure promises: when it carries a response, the response's
   * `status` is a number (or, for a hand-made failure, absent). A value that already
   * passes through needs nothing.
   */
  predicate WellFormedFailure(error: Json) {
    PassesThrough(error) ||
    var status := Get(Get(error, "response"), "status");
    status.JNum? || status.JNull? || status.JUndefined?
  }

  /** A failure that carries a response: `{response: {status, data}}`. */
  function ResponseFailure(status: int, data: Json): (error: Json)
    ensures WellFormedFailure(error) && ResponseStatus(error) == status
  {
    JObj(map["response" := JObj(map["status" := JNum(status), "data" := data])])
  }

  /** `fallbackMessage`. */
  function FallbackMessage(status: int): string {
    if status == 401 then UnauthorizedMessage
    else if status == 403 then ForbiddenMessage
    else if status == 404 then NotFoundMessage
    else if status == 429 then TooManyRequestsMessage
    else if status >= 500 || status == 0 then ServerErrorMessage
    else RequestFailedMessage
  }

  /** `forcedMessage`: the fixed message a status imposes, whatever the server said. */
  function ForcedMessage(status: int): Option<string> {
    if status == 401 then Some(UnauthorizedMessage)
    else if status == 403 then Some(ForbiddenMessage)
    else if status == 404 then Some(NotFoundMessage)
    else if status == 429 then Some(TooManyRequestsMessage)
    else if status >= 500 || status == 0 then Some(ServerErrorMessage)
    else None
  }

  /**
   * `Object.entries` of an object or an array: an object's own properties, or an
   * array's indices in decimal, each mapped to its element, and no other key.
   */
  function OwnEntries(v: Json): (entries: map<string, Json>)
    requires v.JObj? || v.JArr?
    ensures v.JObj? ==> entries == v.fields
    ensures v.JArr? ==> forall i :: 0 <= i < |v.elems| ==> NatToDecimal(i) in entries && entries[NatToDecimal(i)] == v.elems[i]
  {
    if v.JObj? then v.fields
    else
      NatToDecimalInjectiveAll();
      map i | 0 <= i < |v.elems| :: NatToDecimal(i) := v.elems[i]
  }

  /** An array's entries have no key other than its indices in decimal. */
  lemma OwnEntriesOfArray(elems: seq<Json>, k: string)
    ensures k in OwnEntries(JArr(elems)) <==> exists i :: 0 <= i < |elems| && k == NatToDecimal(i)
  {
    var entries := OwnEntries(JArr(elems));
    if exists i :: 0 <= i < |elems| && k == NatToDecimal(i) {
      var i :| 0 <= i < |elems| && k == NatToDecimal(i);
      assert NatToDecimal(i) in entries;
    }
  }

  /** The message one entry of `errors` contributes: the first element of an array, stringified, or a string itself. */
  function FieldMessage(value: Json): Option<string> {
    match value
    case JArr(elems) => Some(JsString(if |elems| > 0 then elems[0] else JUndefined))
    case JStr(s) => Some(s)
    case _ => None
  }

  /**
   * The messages stored once the entries under `done` have been visited: every one
   * that contributes a message, except one keyed `"__proto__"`, which the
   * assignment does not store.
   */
  function StoredMessages(entries: map<string, Json>, done: set<string>): map<string, string> {
    map k | k in entries && k in done && k != ProtoKey && FieldMessage(entries[k]).Some? :: FieldMessage(entries[k]).value
  }

  /** Visiting one more entry stores its message, unless it has none or is keyed `"__proto__"`. */
  lemma StoredMessagesStep(entries: map<string, Json>, done: set<string>, key: string)
    requires key in entries && key !in done
    ensures StoredMessages(entries, done + {key}) ==
      if key == ProtoKey || FieldMessage(entries[key]).None? then StoredMessages(entries, done)
      else StoredMessages(entries, done)[key := FieldMessage(entries[key]).value]
  {
  }

  /** What `parseFieldErrors` computes: the messages stored after visiting every entry; absent when none is stored. */
  function FieldErrorsOf(errors: Json): Option<map<string, string>> {
    if !Truthy(errors) || !IsObjectType(errors) then None
    else
      var entries := OwnEntries(errors);
      var fieldErrors := StoredMessages(entries, entries.Keys);
      if |fieldErrors| == 0 then None else Some(fieldErrors)
  }

  /** `parseFieldErrors`: fills a dictionary entry by entry. */
  method ParseFieldErrors(errors: Json) returns (r: Option<map<string, string>>)
    ensures r == FieldErrorsOf(errors)
  {
    if !Truthy(errors) || !IsObjectType(errors) {
      return None;
    }
    var entries := OwnEntries(errors);
    var fieldErrors: map<string, string> := map[];
    var pending := entries.Keys;
    while pending != {}
      invariant pending <= entries.Keys
      invariant fieldErrors == StoredMessages(entries, entries.Keys - pending)
      decreases pending
    {
      var key :| key in pending;
      var value := entries[key];
      StoredMessagesStep(entries, entries.Keys - pending, key);
      assert (entries.Keys - pending) + {key} == entries.Keys - (pending - {key});
      if key == ProtoKey {
        // the prototype setter ignores the string: nothing is stored
      } else if value.JArr? {
        fieldErrors := fieldErrors[key := JsString(if |value.elems| > 0 then value.elems[0] else JUndefined)];
      } else if value.JStr? {
        fieldErrors := fieldErrors[key := value.s];
      }
      pending := pending - {key};
    }
    assert entries.Keys - pending == entries.Keys;
    r := if |fieldErrors| == 0 then None else Some(fieldErrors);
  }

  /** The error object the normaliser builds when the input does not pass through. */
  function Build(error: Json): (e: ApiError)
    ensures e.retriable ==> ForcedMessage(e.status) == Some(e.message)
    ensures e.fieldErrors.Some? ==> e.status == 422
  {
    var status := ResponseStatus(error);
    var data := Get(Get(error, "response"), "data");
    var valid := IsErrorEnvelope(data);
    var forced := ForcedMessage(status);
    ApiError(
      status,
      if forced.Some? then forced.value
      else if valid then Get(ParsedErrorEnvelope(data), "message").s
      else FallbackMessage(status),
      if status == 422 && valid then FieldErrorsOf(Get(ParsedErrorEnvelope(data), "errors")) else None,
      if valid then Get(ParsedErrorEnvelope(data), "errors") else data,
      IsRetriableStatus(status) || status == 0)
  }

  /**
   * `normalizeApiError`: returns a value that already looks canonical unchanged,
   * builds a canonical error otherwise. A `null` or `undefined` input is treated as
   * a failure with no response (see NormalizeAsWritten for what the source does).
   */
  function Normalize(error: Json): (r: Json)
    requires WellFormedFailure(error)
    ensures PassesThrough(r)
  {
    if PassesThrough(error) then error
    else
      ToJsonShape(Build(error));
      ToJson(Build(error))
  }

  /** The source as written: reading `.response` off `null` or `undefined` throws. */
  function NormalizeAsWritten(error: Json): (r: Result<Json, TypeError>)
    requires WellFormedFailure(error)
    ensures r.Err? <==> error.JNull? || error.JUndefined?
    ensures r.Ok? ==> PassesThrough(r.value)
  {
    if PassesThrough(error) then Ok(error)
    else if error.JNull? || error.JUndefined? then Err(TypeError)
    else
      ToJsonShape(Build(error));
      Ok(ToJson(Build(error)))
  }

  // ---------------------------------------------------------------- messages

  /** `fallbackMessage` and `forcedMessage` agree wherever a message is forced; elsewhere the fallback is "Request failed.". */
  lemma FallbackAgreesWithForced(status: int)
    ensures ForcedMessage(status).Some? ==> FallbackMessage(status) == ForcedMessage(status).value
    ensures ForcedMessage(status).None? ==> FallbackMessage(status) == RequestFailedMessage
  {
  }

  /** Exactly 401, 403, 404, 429, 0 and every status from 500 up force a message. */
  lemma ForcedMessageTable(status: int)
    ensures status == 401 <==> ForcedMessage(status) == Some(UnauthorizedMessage)
    ensures status == 403 <==> ForcedMessage(status) == Some(ForbiddenMessage)
    ensures status == 404 <==> ForcedMessage(status) == Some(NotFoundMessage)
    ensures status == 429 <==> ForcedMessage(status) == Some(TooManyRequestsMessage)
    ensures (status >= 500 || status == 0) <==> ForcedMessage(status) == Some(ServerErrorMessage)
    ensures ForcedMessage(status).None? <==>
      status !in {401, 403, 404, 429} && status < 500 && status != 0
  {
  }

  /** A forced message overrides whatever message the server's envelope carries. */
  lemma ForcedMessageOverridesEnvelope(error: Json)
    requires ForcedMessage(ResponseStatus(error)).Some?
    ensures Build(error).message == ForcedMessage(ResponseStatus(error)).value
  {
  }

  /** Any other status uses the envelope's message when the body is an error envelope, else "Request failed.". */
  lemma UnforcedMessage(error: Json)
    requires ForcedMessage(ResponseStatus(error)).None?
    ensures var data := Get(Get(error, "response"), "data");
      Build(error).message == if IsErrorEnvelope(data) then Get(data, "message").s else RequestFailedMessage
  {
  }

  // ---------------------------------------------------------------- status and retriability

  /** The status is the response's, or 0 when no response (or no status) came back. */
  lemma StatusFromResponse(error: Json)
    ensures Get(Get(error, "response"), "status").JNum? ==> Build(error).status == Get(Get(error, "response"), "status").n
    ensures !Truthy(Get(error, "response")) ==> Build(error).status == 0
  {
  }

  /** Retriability is a function of the status alone: 429, 500, 502, 503 and 0. */
  lemma RetriableIff(error: Json)
    ensures Build(error).retriable <==> Build(error).status in {429, 500, 502, 503, 0}
  {
  }

  /** 501 and 504 get the server-error message but are not retried. */
  lemma ServerErrorsNotAllRetriable(error: Json)
    requires ResponseStatus(error) == 501 || ResponseStatus(error) == 504
    ensures Build(error).message == ServerErrorMessage && !Build(error).retriable
  {
  }

  /** A failure with no response at all is status 0, a server error, and retriable. */
  lemma NoResponseIsRetriable(error: Json)
    requires !Truthy(Get(error, "response"))
    ensures Build(error) == ApiError(0, ServerErrorMessage, None, JUndefined, true)
  {
  }

  // ---------------------------------------------------------------- field errors and raw errors

  /** Field errors appear only for a 422 whose body is an error envelope, and then come from its `errors`. */
  lemma FieldErrorsOnlyFor422(error: Json)
    ensures var data := Get(Get(error, "response"), "data");
      Build(error).fieldErrors ==
        if ResponseStatus(error) == 422 && IsErrorEnvelope(data) then FieldErrorsOf(Get(data, "errors")) else None
  {
  }

  /** `rawErrors` is the envelope's `errors` for an error envelope, the raw response body otherwise. */
  lemma RawErrorsKept(error: Json)
    ensures var data := Get(Get(error, "response"), "data");
      Build(error).rawErrors == if IsErrorEnvelope(data) then Get(data, "errors") else data
  {
  }

  /** An array entry under any key but `"__proto__"` contributes its first element, stringified. */
  lemma FieldErrorFromArray(errors: Json, key: string)
    requires errors.JObj? && key in errors.fields && errors.fields[key].JArr? && key != ProtoKey
    ensures FieldErrorsOf(errors).Some? && key in FieldErrorsOf(errors).value
    ensures var elems := errors.fields[key].elems;
      FieldErrorsOf(errors).value[key] == JsString(if |elems| > 0 then elems[0] else JUndefined)
  {
    var m := StoredMessages(errors.fields, errors.fields.Keys);
    assert key in m;
  }

  /** A string entry under any key but `"__proto__"` is kept verbatim. */
  lemma FieldErrorFromString(errors: Json, key: string)
    requires errors.JObj? && key in errors.fields && errors.fields[key].JStr? && key != ProtoKey
    ensures FieldErrorsOf(errors).Some? && key in FieldErrorsOf(errors).value
    ensures FieldErrorsOf(errors).value[key] == errors.fields[key].s
  {
    var m := StoredMessages(errors.fields, errors.fields.Keys);
    assert key in m;
  }

  /** An entry keyed `"__proto__"` is never stored, whatever its value. */
  lemma FieldErrorProtoIgnored(errors: Json)
    ensures FieldErrorsOf(errors).Some? ==> ProtoKey !in FieldErrorsOf(errors).value
  {
  }

  /** Any other entry is dropped. */
  lemma FieldErrorDropped(errors: Json, key: string)
    requires errors.JObj? && key in errors.fields && !errors.fields[key].JArr? && !errors.fields[key].JStr?
    ensures FieldErrorsOf(errors).Some? ==> key !in FieldErrorsOf(errors).value
  {
  }

  /**
   * Field errors are absent exactly when `errors` is not an object or no entry
   * other than one keyed `"__proto__"` contributes a message.
   */
  lemma FieldErrorsAbsentIff(errors: Json)
    ensures FieldErrorsOf(errors).None? <==>
      (!Truthy(errors) || !IsObjectType(errors) ||
       forall k :: k in OwnEntries(errors) && k != ProtoKey ==> FieldMessage(OwnEntries(errors)[k]).None?)
  {
    if Truthy(errors) && IsObjectType(errors) {
      var entries := OwnEntries(errors);
      var m := StoredMessages(entries, entries.Keys);
      if exists k :: k in entries && k != ProtoKey && FieldMessage(entries[k]).Some? {
        var k :| k in entries && k != ProtoKey && FieldMessage(entries[k]).Some?;
        assert k in m;
      } else {
        assert m == map[];
      }
    }
  }

  // ---------------------------------------------------------------- the normaliser as a whole

  /** Whatever the input, the output has a numeric `status` and a string `message`. */
  lemma NormalizeOutputPassesThrough(error: Json)
    requires WellFormedFailure(error)
    ensures PassesThrough(Normalize(error)) && WellFormedFailure(Normalize(error))
  {
    if !PassesThrough(error) {
      ToJsonShape(Build(error));
    }
  }

  /** Normalising twice is normalising once: the normaliser never wraps its own output. */
  lemma NormalizeIdempotent(error: Json)
    requires WellFormedFailure(error)
    ensures WellFormedFailure(Normalize(error)) && Normalize(Normalize(error)) == Normalize(error)
  {
    NormalizeOutputPassesThrough(error);
  }

  /** An input that does not pass through becomes exactly the built canonical error. */
  lemma NormalizeBuilds(error: Json)
    requires WellFormedFailure(error) && !PassesThrough(error)
    ensures FromJson(Normalize(error)) == Some(Build(error))
  {
    ToJsonRoundTrip(Build(error));
  }

  /** The source throws a TypeError on `null` and `undefined`; on every other input the model agrees with it. */
  lemma NormalizeAsWrittenDiffersOnlyOnNullish(error: Json)
    requires WellFormedFailure(error)
    ensures error.JNull? || error.JUndefined? ==> NormalizeAsWritten(error) == Err(TypeError)
    ensures !(error.JNull? || error.JUndefined?) ==> NormalizeAsWritten(error) == Ok(Normalize(error))
  {
  }

  /** `null` and `undefined` normalise to the no-response error instead of throwing. */
  lemma NormalizeNullishIsNoResponse(error: Json)
    requires error.JNull? || error.JUndefined?
    ensures WellFormedFailure(error)
    ensures FromJson(Normalize(error)) == Some(ApiError(0, ServerErrorMessage, None, JUndefined, true))
  {
    NoResponseIsRetriable(error);
    NormalizeBuilds(error);
  }

  // ---------------------------------------------------------------- the test cases

  function ValidationEnvelope(errors: Json): Json {
    JObj(map["success" := JBool(false), "message" := JStr("Validation error"), "errors" := errors])
  }

  /** A 422 whose `errors` maps a field to an array of messages reports the first one. */
  lemma FieldErrorsArrayCase()
    ensures var e := Build(ResponseFailure(422, ValidationEnvelope(JObj(map["email" := JArr([JStr("Invalid email")])]))));
      e.fieldErrors == Some(map["email" := "Invalid email"]) && e.message == "Validation error" && !e.retriable
  {
    var errors := JObj(map["email" := JArr([JStr("Invalid email")])]);
    var data := ValidationEnvelope(errors);
    assert IsErrorEnvelope(data) && Get(ParsedErrorEnvelope(data), "errors") == errors;
    FieldErrorFromArray(errors, "email");
    assert FieldErrorsOf(errors).value.Keys == {"email"};
    assert FieldErrorsOf(errors).value == map["email" := "Invalid email"];
  }

  /** A 422 whose `errors` maps a field to a string reports that string. */
  lemma FieldErrorsStringCase()
    ensures var e := Build(ResponseFailure(422, ValidationEnvelope(JObj(map["email" := JStr("Invalid email")]))));
      e.fieldErrors == Some(map["email" := "Invalid email"]) && e.message == "Validation error" && !e.retriable
  {
    var errors := JObj(map["email" := JStr("Invalid email")]);
    var data := ValidationEnvelope(errors);
    assert IsErrorEnvelope(data) && Get(ParsedErrorEnvelope(data), "errors") == errors;
    FieldErrorFromString(errors, "email");
    assert FieldErrorsOf(errors).value.Keys == {"email"};
    assert FieldErrorsOf(errors).value == map["email" := "Invalid email"];
  }

  /** A 422 whose only field error is keyed `"__proto__"` reports no field errors. */
  lemma ProtoKeyCase()
    ensures var e := Build(ResponseFailure(422, ValidationEnvelope(JObj(map[ProtoKey := JStr("bad")]))));
      e.fieldErrors == None && e.message == "Validation error"
  {
    var errors := JObj(map[ProtoKey := JStr("bad")]);
    assert Get(ParsedErrorEnvelope(ValidationEnvelope(errors)), "errors") == errors;
    FieldErrorsAbsentIff(errors);
  }

  /** 401 with an empty body, 429 and 500 retriable, and an empty failure object as a network error. */
  lemma StatusCases()
    ensures Build(ResponseFailure(401, JObj(map[]))).message == UnauthorizedMessage
    ensures Build(ResponseFailure(429, JObj(map[]))).retriable
    ensures Build(ResponseFailure(500, JObj(map[]))).retriable
    ensures Build(JObj(map[])).status == 0 && Build(JObj(map[])).retriable
  {
  }
}
