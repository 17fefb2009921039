/**
 * Parsed JSON values, as `JSON.parse` produces them, with the JavaScript
 * operations the hooks apply to them: property access that yields
 * `undefined`, truthiness, and `String(value)`.
 *
 * An integral number is `JNum`, any other number `JFloat`; a line of a JSONL
 * file that does not parse is `None` in the sequence of parsed lines.
 */
module Json {
  import opened JsString

  datatype Json =
    | JNull
    | JBool(b: bool)
    | JNum(n: int)
    | JFloat(x: real)
    | JStr(s: string)
    | JArr(items: seq<Json>)
    | JObj(fields: map<string, Json>)

  /** `value?.key`; `None` is `undefined`. */
  function Get(value: Option<Json>, key: string): (r: Option<Json>)
    ensures r.Some? ==> value.Some? && value.value.JObj? && key in value.value.fields
  {
    if value.Some? && value.value.JObj? && key in value.value.fields then Some(value.value.fields[key]) else None
  }

  /** JavaScript truthiness; `undefined` is falsy. */
  predicate Truthy(v: Option<Json>) {
    match v
    case None => false
    case Some(j) =>
      match j
      case JNull => false
      case JBool(b) => b
      case JNum(n) => n != 0
      case JFloat(x) => x != 0.0
      case JStr(s) => s != []
      case JArr(_) => true
      case JObj(_) => true
  }

  /** `String(value)` for a defined value. */
  function ToJsString(j: Json): string
    decreases j
  {
    match j
    case JNull => "null"
    case JBool(b) => if b then "true" else "false"
    case JNum(n) => IntToString(n)
    case JFloat(x) => RealToString(x)
    case JStr(s) => s
    case JObj(_) => "[object Object]"
    case JArr(items) =>
      Join(seq(|items|, i requires 0 <= i < |items| => if items[i].JNull? then "" else ToJsString(items[i])), ",")
  }

  /** `typeof value === 'number'`, and its value. */
  function AsNumber(value: Option<Json>): (r: Option<real>)
    ensures r.Some? <==> value.Some? && (value.value.JNum? || value.value.JFloat?)
  {
    match value
    case Some(JNum(n)) => Some(n as real)
    case Some(JFloat(x)) => Some(x)
    case _ => None
  }

  /** `Array.isArray(value)` */
  predicate IsArray(value: Option<Json>) {
    value.Some? && value.value.JArr?
  }

  /**
   * A decimal rendering of a number: the integer part, then up to nine
   * fraction digits without trailing zeros.
   */
  function RealToString(x: real): string {
    if x < 0.0 then "-" + UnsignedRealToString(-x) else UnsignedRealToString(x)
  }

  function UnsignedRealToString(x: real): string
    requires x >= 0.0
  {
    var whole := x.Floor;
    var digits := DropTrailingZeros(FractionDigits(x - whole as real, 9));
    NatToString(whole) + (if digits == [] then "" else "." + digits)
  }

  function FractionDigits(f: real, count: nat): (r: string)
    requires 0.0 <= f < 1.0
    decreases count
    ensures |r| == count
  {
    if count == 0 then []
    else
      var d := (f * 10.0).Floor;
      [('0' as int + d) as char] + FractionDigits(f * 10.0 - d as real, count - 1)
  }

  function DropTrailingZeros(s: string): (r: string)
    ensures |r| <= |s|
  {
    if s != [] && s[|s| - 1] == '0' then DropTrailingZeros(s[..|s| - 1]) else s
  }

  /** The string held by `value`, if it is a string. */
  function AsString(value: Option<Json>): Option<string> {
    if value.Some? && value.value.JStr? then Some(value.value.s) else None
  }

  /** `value === s` for a string literal `s`. */
  predicate IsString(value: Option<Json>, s: string) {
    value == Some(JStr(s))
  }

  /**
   * The text `safeParse` hands to `JSON.parse`: from the first `{` to the last `}` of the
   * trimmed response; `None` when there is no `{` or the last `}` comes before it.
   */
  function JsonSpan(text: string): (r: Option<string>)
    ensures r.None? <==> IndexOf(Trim(text), "{") < 0 || LastIndexOfChar(Trim(text), '}') < IndexOf(Trim(text), "{")
    ensures r.Some? ==> |r.value| >= 1 && r.value[0] == '{' && r.value[|r.value| - 1] == '}' &&
                        Contains(Trim(text), r.value)
    ensures r.Some? ==>
              var t := Trim(text);
              r.value == t[IndexOf(t, "{")..LastIndexOfChar(t, '}') + 1]
  {
    var trimmed := Trim(text);
    var first := IndexOf(trimmed, "{");
    var last := LastIndexOfChar(trimmed, '}');
    if first < 0 || last < first then None
    else
      var span := trimmed[first..last + 1];
      assert OccursAt(trimmed, "{", first);
      assert trimmed[first] == trimmed[first..first + 1][0] == '{';
      assert span[0] == '{' && span[|span| - 1] == trimmed[last] == '}';
      assert OccursAt(trimmed, span, first);
      Some(span)
  }

  /** A response that is exactly one braced text, without surrounding blanks, is passed whole. */
  lemma BracedTextIsItsOwnSpan(text: string)
    requires Trim(text) == text && |text| >= 1 && text[0] == '{' && text[|text| - 1] == '}'
    ensures JsonSpan(text) == Some(text)
  {
    assert OccursAt(text, "{", 0);
    assert IndexOf(text, "{") == 0;
    assert text[0..|text|] == text;
  }

  /** `safeParse(text)` with `JSON.parse` given as `parse` (`None` when it throws). */
  function SafeParse(text: string, parse: string -> Option<Json>): (r: Option<Json>)
    ensures JsonSpan(text).None? ==> r.None?
    ensures JsonSpan(text).Some? ==> r == parse(JsonSpan(text).value)
  {
    match JsonSpan(text)
    case None => None
    case Some(span) => parse(span)
  }
}
