/**
 * The two response-body shapes (src/lib/schemas/envelope.ts), as zod's
 * `z.object` checks them: the value must be a plain object (not null, not an
 * array), `success` must be the boolean literal, `message` a string; `data` and
 * `errors` are unconstrained and may be absent.
 */
module EnvelopeSchema {
  import opened JsonValue

  /** `SuccessEnvelopeSchema.safeParse(v).success`. */
  predicate IsSuccessEnvelope(v: Json)
    ensures IsSuccessEnvelope(v) ==> Truthy(v) && IsObjectType(v) && !IsErrorEnvelope(v)
  {
    v.JObj? && Get(v, "success") == JBool(true) && IsString(Get(v, "message"))
  }

  /** `ErrorEnvelopeSchema.safeParse(v).success`. */
  predicate IsErrorEnvelope(v: Json)
    ensures IsErrorEnvelope(v) ==> Truthy(v) && IsObjectType(v) && IsString(Get(v, "message"))
  {
    v.JObj? && Get(v, "success") == JBool(false) && IsString(Get(v, "message"))
  }

  /** The `data` of a successful `SuccessEnvelopeSchema` parse. */
  function SuccessData(v: Json): (d: Json)
    requires IsSuccessEnvelope(v)
    ensures if "data" in v.fields then d == v.fields["data"] else d == JUndefined
  {
    Get(v, "data")
  }

  /**
   * The output of a successful `ErrorEnvelopeSchema` parse: the input stripped of
   * unknown keys, with `errors` kept whenever the input has that key.
   */
  function ParsedErrorEnvelope(v: Json): (r: Json)
    requires IsErrorEnvelope(v)
    ensures IsErrorEnvelope(r)
    ensures Get(r, "message") == Get(v, "message") && Get(r, "errors") == Get(v, "errors")
    ensures r.fields.Keys <= {"success", "message", "errors"}
  {
    var base := map["success" := JBool(false), "message" := Get(v, "message")];
    JObj(if Has(v, "errors") then base["errors" := Get(v, "errors")] else base)
  }

  /** A value matches the success shape exactly when it is an object with a literal true `success` and a string `message`. */
  lemma SuccessEnvelopeIff(v: Json)
    ensures IsSuccessEnvelope(v) <==>
      (v.JObj? && "success" in v.fields && v.fields["success"] == JBool(true)
       && "message" in v.fields && v.fields["message"].JStr?)
  {
  }

  /** A value matches the error shape exactly when it is an object with a literal false `success` and a string `message`, whatever its `errors`. */
  lemma ErrorEnvelopeIff(v: Json)
    ensures IsErrorEnvelope(v) <==>
      (v.JObj? && "success" in v.fields && v.fields["success"] == JBool(false)
       && "message" in v.fields && v.fields["message"].JStr?)
  {
  }

  /** Adding, removing or changing `errors` never decides the error shape. */
  lemma ErrorsUnconstrained(v: Json, errors: Json)
    requires v.JObj?
    ensures IsErrorEnvelope(v) <==> IsErrorEnvelope(JObj(v.fields["errors" := errors]))
    ensures IsErrorEnvelope(v) <==> IsErrorEnvelope(JObj(v.fields - {"errors"}))
  {
    var w, u := JObj(v.fields["errors" := errors]), JObj(v.fields - {"errors"});
    assert Get(w, "success") == Get(v, "success") && Get(w, "message") == Get(v, "message");
    assert Get(u, "success") == Get(v, "success") && Get(u, "message") == Get(v, "message");
  }

  /** No value has both shapes: the `success` literals differ. */
  lemma EnvelopesDisjoint(v: Json)
    ensures !(IsSuccessEnvelope(v) && IsErrorEnvelope(v))
  {
  }

  /** Without a string `message`, neither shape matches. */
  lemma MessageRequired(v: Json)
    requires !IsString(Get(v, "message"))
    ensures !IsSuccessEnvelope(v) && !IsErrorEnvelope(v)
  {
  }

  /** No coercion: a `success` that is not a boolean, however truthy, matches neither shape. */
  lemma SuccessNotCoerced(v: Json)
    requires !IsBoolean(Get(v, "success"))
    ensures !IsSuccessEnvelope(v) && !IsErrorEnvelope(v)
  {
  }

  /** The string "true" is not the literal `true`. */
  lemma StringTrueRejected()
    ensures !IsSuccessEnvelope(JObj(map["success" := JStr("true"), "message" := JStr("ok")]))
  {
  }
}
