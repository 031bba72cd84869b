/**
 * The JavaScript values a parsed JSON response can hold, with the three
 * pieces of JavaScript semantics the workers depend on: nullish (`??`),
 * falsy (`||`) and the `String(v)` conversion used by template literals.
 */
module JsValues {
  import opened Wrappers

  /**
   * A JSON value as JavaScript sees it after `JSON.parse`, plus `undefined`
   * (what reading an absent property gives). Numbers are limited to integers.
   */
  datatype JsonLike =
    | Undefined
    | Null
    | Bool(b: bool)
    | Num(n: int)
    | Str(s: string)
    | Array(items: seq<JsonLike>)
    | Record(fields: map<string, JsonLike>)

  /** The exceptions the modelled code can throw. */
  datatype JsError =
    | TypeError     // reading a property of null or undefined
    | SyntaxError   // a response body that is not JSON
    | NetworkError  // stands in for the TypeError a rejected `fetch` gives (Fetch standard)

  /** `v ?? d` takes `d` exactly when `v` is nullish. */
  predicate Nullish(v: JsonLike) {
    v.Undefined? || v.Null?
  }

  /** `v || d` takes `d` exactly when `v` is falsy. */
  predicate Falsy(v: JsonLike) {
    match v
    case Undefined => true
    case Null => true
    case Bool(b) => !b
    case Num(n) => n == 0
    case Str(s) => s == ""
    case Array(_) => false
    case Record(_) => false
  }

  predicate Truthy(v: JsonLike) {
    !Falsy(v)
  }

  /** The five falsy values JSON can produce, plus `undefined`. */
  const FalsyValues: set<JsonLike> := {Undefined, Null, Bool(false), Num(0), Str("")}

  /**
   * `v || Str(d)`: JavaScript's logical or with a string literal fallback.
   * Only `undefined`, `null`, `false`, `0` and `""` fall back; every array
   * and record is kept, the empty ones included.
   */
  function OrElse(v: JsonLike, d: string): (r: JsonLike)
    ensures v in FalsyValues ==> r == Str(d)
    ensures v !in FalsyValues ==> r == v
    ensures d != "" ==> Truthy(r)
  {
    if Truthy(v) then v else Str(d)
  }

  /**
   * `v.key` for the own-property keys the workers read (none of them is
   * inherited from a prototype): null and undefined throw, a record gives its
   * entry or undefined, every other value gives undefined.
   */
  function Member(v: JsonLike, key: string): (r: Result<JsonLike, JsError>)
    ensures r.Failure? <==> Nullish(v)
    ensures r.Failure? ==> r.error == TypeError
    ensures v.Record? && key in v.fields ==> r == Success(v.fields[key])
    ensures r.Success? && !(v.Record? && key in v.fields) ==> r.value == Undefined
  {
    match v
    case Undefined => Failure(TypeError)
    case Null => Failure(TypeError)
    case Record(fields) => Success(if key in fields then fields[key] else Undefined)
    case _ => Success(Undefined)
  }

  /** Decimal digits of a natural number, most significant first. */
  function NatToDecimal(n: nat): (r: string)
    ensures |r| >= 1
    ensures forall k :: 0 <= k < |r| ==> '0' <= r[k] <= '9'
    decreases n
  {
    var d := [('0' as int + n % 10) as char];
    if n < 10 then d else NatToDecimal(n / 10) + d
  }

  /** Value of a string of decimal digits. */
  function DecimalValue(s: string): int
    decreases |s|
  {
    if s == [] then 0 else DecimalValue(s[..|s| - 1]) * 10 + (s[|s| - 1] as int - '0' as int)
  }

  lemma {:induction false} NatToDecimalValue(n: nat)
    ensures DecimalValue(NatToDecimal(n)) == n
    decreases n
  {
    var r := NatToDecimal(n);
    if n >= 10 {
      NatToDecimalValue(n / 10);
      assert r[..|r| - 1] == NatToDecimal(n / 10);
    }
  }

  function IntToDecimal(n: int): (r: string)
    ensures |r| >= 1
  {
    if n < 0 then "-" + NatToDecimal(-n) else NatToDecimal(n)
  }

  /**
   * `String(v)`, the conversion a template literal applies to each
   * substitution: arrays join their elements with commas (null and undefined
   * elements as empty text), records become "[object Object]".
   */
  function ToJsString(v: JsonLike): string
    decreases v
  {
    match v
    case Undefined => "undefined"
    case Null => "null"
    case Bool(b) => if b then "true" else "false"
    case Num(n) => IntToDecimal(n)
    case Str(s) => s
    case Array(items) => JoinElements(items)
    case Record(_) => "[object Object]"
  }

  /** `items.join(",")` applied to the converted elements. */
  function JoinElements(items: seq<JsonLike>): string
    decreases items
  {
    if items == [] then []
    else
      var first := if Nullish(items[0]) then [] else ToJsString(items[0]);
      if |items| == 1 then first else first + "," + JoinElements(items[1..])
  }

  /** A truthy value converts to non-empty text unless it is an array (`[]` and `[null]` are truthy and print as ""). */
  lemma TruthyNonEmptyText(v: JsonLike)
    requires Truthy(v) && !v.Array?
    ensures ToJsString(v) != ""
  {
  }

  /** A converted string is the string itself. */
  lemma StrText(s: string)
    ensures ToJsString(Str(s)) == s
  {
  }

  /** An empty array is truthy, so `[] || d` keeps `[]`, and yet it prints as empty text. */
  lemma EmptyArrayTruthyButEmpty()
    ensures Truthy(Array([])) && OrElse(Array([]), "x") == Array([]) && ToJsString(Array([])) == ""
  {
  }
}
