/**
 * JavaScript values as the core sees them: the body of an HTTP response, a caught
 * failure, a payload. JSON plus `undefined`, which stands for an absent property
 * and for a thrown or returned `undefined`. Numbers are integers (see README).
 */
module JsonValue {

  /** A TypeError raised by the JavaScript runtime (a property read on null, `in` on a primitive). */
  datatype TypeError = TypeError

  datatype Json =
    | JUndefined
    | JNull
    | JBool(b: bool)
    | JNum(n: int)
    | JStr(s: string)
    | JArr(elems: seq<Json>)
    | JObj(fields: map<string, Json>)

  /** JavaScript truthiness: `undefined`, `null`, `false`, `0` and `""` are falsy. */
  predicate Truthy(v: Json) {
    match v
    case JUndefined => false
    case JNull => false
    case JBool(b) => b
    case JNum(n) => n != 0
    case JStr(s) => s != ""
    case JArr(_) => true
    case JObj(_) => true
  }

  /** `typeof v === "object"`, which also holds of `null` and of arrays. */
  predicate IsObjectType(v: Json) {
    v.JNull? || v.JArr? || v.JObj?
  }

  /** `key in v` for an object or an array and a key that is not an array index. */
  predicate Has(v: Json, key: string) {
    v.JObj? && key in v.fields
  }

  /**
   * The property read `v?.[key]` for a key that is not an array index: `undefined`
   * when `v` is not an object or has no such property.
   */
  function Get(v: Json, key: string): (r: Json)
    ensures Has(v, key) ==> r == v.fields[key]
    ensures !Has(v, key) ==> r == JUndefined
  {
    if v.JObj? && key in v.fields then v.fields[key] else JUndefined
  }

  /** The `typeof x === "number"` / `"string"` / `"boolean"` tests. */
  predicate IsNumber(v: Json) { v.JNum? }
  predicate IsString(v: Json) { v.JStr? }
  predicate IsBoolean(v: Json) { v.JBool? }

  function DigitChar(d: nat): (c: char)
    requires d < 10
    ensures '0' <= c <= '9'
  {
    (48 + d) as char
  }

  /** Decimal notation of a natural number, without leading zeros. */
  function NatToDecimal(n: nat): (s: string)
    ensures 1 <= |s|
    ensures |s| == 1 <==> n < 10
    ensures forall i :: 0 <= i < |s| ==> '0' <= s[i] <= '9'
    decreases n
  {
    if n < 10 then [DigitChar(n)] else NatToDecimal(n / 10) + [DigitChar(n % 10)]
  }

  /** Distinct numbers print differently; needed for array indices as property names. */
  lemma {:induction false} NatToDecimalInjective(a: nat, b: nat)
    requires NatToDecimal(a) == NatToDecimal(b)
    ensures a == b
    decreases a
  {
    var sa, sb := NatToDecimal(a), NatToDecimal(b);
    if a < 10 {
      assert sa[0] == sb[0];
    } else {
      assert b >= 10;
      assert sa[|sa| - 1] == sb[|sb| - 1];
      assert a % 10 == b % 10;
      assert sa[..|sa| - 1] == NatToDecimal(a / 10);
      assert sb[..|sb| - 1] == NatToDecimal(b / 10);
      NatToDecimalInjective(a / 10, b / 10);
    }
  }

  lemma NatToDecimalInjectiveAll()
    ensures forall a: nat, b: nat :: NatToDecimal(a) == NatToDecimal(b) ==> a == b
  {
    forall a: nat, b: nat | NatToDecimal(a) == NatToDecimal(b)
      ensures a == b
    {
      NatToDecimalInjective(a, b);
    }
  }

  /** `String(n)` for an integer `n`. */
  function IntToDecimal(n: int): (s: string)
    ensures n < 0 <==> (|s| > 0 && s[0] == '-')
  {
    if n < 0 then "-" + NatToDecimal(-n) else NatToDecimal(n)
  }

  /**
   * `String(v)`: strings as they are, integers in decimal, arrays joined by ","
   * with `null` and `undefined` elements printed empty, any other object as
   * "[object Object]".
   */
  function JsString(v: Json): (s: string)
    ensures v.JArr? && |v.elems| == 0 ==> s == ""
    ensures v.JArr? && |v.elems| == 1 && v.elems[0].JStr? ==> s == v.elems[0].s
    decreases v
  {
    match v
    case JUndefined => "undefined"
    case JNull => "null"
    case JBool(b) => if b then "true" else "false"
    case JNum(n) => IntToDecimal(n)
    case JStr(s) => s
    case JArr(elems) => JoinElements(elems)
    case JObj(_) => "[object Object]"
  }

  /** `elems.join(",")`. */
  function JoinElements(elems: seq<Json>): (s: string)
    ensures |elems| == 1 && elems[0].JStr? ==> s == elems[0].s
    decreases elems
  {
    if |elems| == 0 then ""
    else
      var last := elems[|elems| - 1];
      var shown := if last.JNull? || last.JUndefined? then "" else JsString(last);
      if |elems| == 1 then shown else JoinElements(elems[..|elems| - 1]) + "," + shown
  }
}
