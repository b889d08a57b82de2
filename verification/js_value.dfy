/**
 * The JavaScript values the order form reads out of the order service's JSON
 * reply (`data.id`, `data.detail`), with the two operations the form applies
 * to them: truthiness (`detail || ...`, `savedId && ...`) and conversion to a
 * string (`new Error(detail)` stores `String(detail)` as its message).
 */
module JsValue {

  /** A value parsed from JSON, or `undefined` for a member the reply does not have. */
  datatype Value =
    | Undefined
    | Null
    | Bool(b: bool)
    | Number(n: int)
    | Str(s: string)
    | Array(items: seq<Value>)
    | Object(members: seq<(string, Value)>)

  /** JavaScript truthiness: `undefined`, `null`, `false`, `0` and `""` are falsy, everything else is truthy. */
  predicate Truthy(v: Value) {
    match v
    case Undefined => false
    case Null => false
    case Bool(b) => b
    case Number(n) => n != 0
    case Str(s) => s != ""
    case Array(_) => true
    case Object(_) => true
  }

  /** `String(v)`: arrays join their elements' strings with commas, plain objects print as "[object Object]". */
  function ToText(v: Value): string {
    match v
    case Undefined => "undefined"
    case Null => "null"
    case Bool(b) => if b then "true" else "false"
    case Number(n) => IntToDecimal(n)
    case Str(s) => s
    case Array(items) =>
      // `Array.prototype.join` prints `undefined` and `null` elements as ""
      JoinWithCommas(seq(|items|, i requires 0 <= i < |items| =>
        if items[i].Undefined? || items[i].Null? then "" else ToText(items[i])))
    case Object(_) => "[object Object]"
  }

  /** The strings `parts` separated by single commas. */
  function JoinWithCommas(parts: seq<string>): string {
    if |parts| == 0 then ""
    else if |parts| == 1 then parts[0]
    else parts[0] + "," + JoinWithCommas(parts[1..])
  }

  function DigitChar(d: nat): (c: char)
    requires d < 10
  {
    "0123456789"[d]
  }

  /** The decimal digits of `n`, most significant first, with no leading zero. */
  function NatToDecimal(n: nat): (r: string)
    ensures |r| >= 1
    ensures forall i :: 0 <= i < |r| ==> '0' <= r[i] <= '9'
    ensures r[0] == '0' ==> n == 0
  {
    if n < 10 then [DigitChar(n)] else NatToDecimal(n / 10) + [DigitChar(n % 10)]
  }

  /** `String(n)` for an integer `n`. */
  function IntToDecimal(n: int): string {
    if n < 0 then "-" + NatToDecimal(-n) else NatToDecimal(n)
  }

  /** The number a string of decimal digits denotes: the inverse of `NatToDecimal`. */
  function DecimalValue(s: string): nat
    requires forall i :: 0 <= i < |s| ==> '0' <= s[i] <= '9'
  {
    if s == [] then 0 else 10 * DecimalValue(s[..|s| - 1]) + (s[|s| - 1] as int - '0' as int)
  }

  lemma {:induction false} DecimalRoundTrip(n: nat)
    ensures DecimalValue(NatToDecimal(n)) == n
  {
    if n >= 10 {
      var r := NatToDecimal(n);
      assert r[..|r| - 1] == NatToDecimal(n / 10);
      DecimalRoundTrip(n / 10);
    }
  }

  /** A truthy string prints as itself; a falsy value is never a non-empty string. */
  lemma TruthyStringText(s: string)
    ensures Truthy(Str(s)) <==> s != ""
    ensures ToText(Str(s)) == s
  {
  }

  /** The strings of a non-zero number and of `true` are never empty. */
  lemma TruthyScalarTextNonEmpty(v: Value)
    requires Truthy(v) && !v.Array?
    ensures ToText(v) != ""
  {
  }

  /** Truthiness does not follow the printed form: the empty array is truthy yet prints as "". */
  lemma EmptyArrayTruthyButBlank()
    ensures Truthy(Array([])) && ToText(Array([])) == ""
  {
  }

  /** A list of two objects, the shape of a validation-error `detail`, prints as two "[object Object]". */
  lemma ObjectListText(a: seq<(string, Value)>, b: seq<(string, Value)>)
    ensures ToText(Array([Object(a), Object(b)])) == "[object Object],[object Object]"
  {
    var items := [Object(a), Object(b)];
    var parts := ["[object Object]", "[object Object]"];
    assert seq(|items|, i requires 0 <= i < |items| =>
      if items[i].Undefined? || items[i].Null? then "" else ToText(items[i])) == parts;
    assert parts[1..] == ["[object Object]"];
  }
}
