/**
 * The canonical error every failure path produces (src/types/apiError.ts), and its
 * shape as a JavaScript object.
 */
module ApiErrorType {
  import opened Wrappers
  import opened JsonValue

  /**
   * `status` is an HTTP status, or 0 for "no response"; `fieldErrors` maps a form
   * field to one message; `rawErrors` is JUndefined when absent.
   */
  datatype ApiError = ApiError(
    status: int,
    message: string,
    fieldErrors: Option<map<string, string>>,
    rawErrors: Json,
    retriable: bool)

  /** A `Record<string, string>` as an object of strings. */
  function FieldErrorsToJson(m: map<string, string>): Json {
    JObj(map k | k in m :: JStr(m[k]))
  }

  /**
   * The error as the object a `throw` carries. A property whose value would be
   * `undefined` is left out, which no property read can tell apart.
   */
  function ToJson(e: ApiError): Json {
    var base := map["status" := JNum(e.status), "message" := JStr(e.message), "retriable" := JBool(e.retriable)];
    var withFields := if e.fieldErrors.Some? then base["fieldErrors" := FieldErrorsToJson(e.fieldErrors.value)] else base;
    JObj(if e.rawErrors.JUndefined? then withFields else withFields["rawErrors" := e.rawErrors])
  }

  /**
   * Reads a canonical error back from an object: numeric `status`, string
   * `message`, boolean `retriable`, and `fieldErrors`, when present, an object of
   * strings. This is the typed view `ApiError` that callers read.
   */
  function FromJson(v: Json): Option<ApiError> {
    var status, message, retriable, fields := Get(v, "status"), Get(v, "message"), Get(v, "retriable"), Get(v, "fieldErrors");
    if !(status.JNum? && message.JStr? && retriable.JBool?) then None
    else if fields.JUndefined? then Some(ApiError(status.n, message.s, None, Get(v, "rawErrors"), retriable.b))
    else if fields.JObj? && forall k :: k in fields.fields ==> fields.fields[k].JStr? then
      Some(ApiError(status.n, message.s, Some(map k | k in fields.fields :: fields.fields[k].s), Get(v, "rawErrors"), retriable.b))
    else None
  }

  /** The object form loses nothing: reading it back gives the same error. */
  lemma ToJsonRoundTrip(e: ApiError)
    ensures FromJson(ToJson(e)) == Some(e)
  {
    var v := ToJson(e);
    if e.fieldErrors.Some? {
      var m := e.fieldErrors.value;
      var f := Get(v, "fieldErrors");
      assert f == FieldErrorsToJson(m);
      assert (map k | k in f.fields :: f.fields[k].s) == m;
    }
  }

  /** The three properties every consumer reads are present and well typed. */
  lemma ToJsonShape(e: ApiError)
    ensures Get(ToJson(e), "status") == JNum(e.status)
    ensures Get(ToJson(e), "message") == JStr(e.message)
    ensures Get(ToJson(e), "retriable") == JBool(e.retriable)
    ensures Truthy(ToJson(e)) && IsObjectType(ToJson(e))
  {
  }
}
