/** The JavaScript values that reach the validators, with the two coercions
    the validators apply to them: `String(v)` and `Number(v)`. */
module Js {
  import opened Wrappers
  import opened Text

  /** A JavaScript value as far as the validators observe it. Numbers are
      integral (GraphQL `Int`); objects keep their own enumerable entries in
      insertion order. */
  datatype JsValue =
    | JsUndefined
    | JsNull
    | JsNumber(n: int)
    | JsString(s: string)
    | JsArray(items: seq<JsValue>)
    | JsObject(entries: seq<(string, JsValue)>)

  /** `String(v)`, which is also what a template literal `${v}` produces. */
  function Show(v: JsValue): string
    decreases v, 1
  {
    match v
    case JsUndefined => "undefined"
    case JsNull => "null"
    case JsNumber(n) => IntToString(n)
    case JsString(s) => s
    case JsArray(items) => Join(ShowItems(v, items), ",")
    case JsObject(_) => "[object Object]"
  }

  /** `Array.prototype.join` prints null and undefined elements as "". */
  function ShowItems(owner: JsValue, items: seq<JsValue>): seq<string>
    requires owner.JsArray? && items == owner.items
    decreases owner, 0
  {
    seq(|items|, i requires 0 <= i < |items| =>
      if items[i].JsUndefined? || items[i].JsNull? then "" else Show(items[i]))
  }

  /** `Number(s)` for the plain forms of integer text: the empty string is 0,
      an optional sign followed by decimal digits is that integer. Any other
      text is reported as `None` (NaN, or a form this model does not read). */
  function StringToInteger(s: string): Option<int> {
    if |s| == 0 then Some(0)
    else if s[0] == '-' || s[0] == '+' then
      var digits := s[1..];
      if |digits| > 0 && forall i :: 0 <= i < |digits| ==> IsDigit(digits[i]) then
        var magnitude: int := DigitsValue(digits);
        Some(if s[0] == '-' then -magnitude else magnitude)
      else None
    else if forall i :: 0 <= i < |s| ==> IsDigit(s[i]) then Some(DigitsValue(s))
    else None
  }

  /** `Number(v)` when that is an integer: null and [] are 0, undefined and
      objects are NaN, a one-element array reads as its element's text. */
  function ToInteger(v: JsValue): Option<int> {
    match v
    case JsUndefined => None
    case JsNull => Some(0)
    case JsNumber(n) => Some(n)
    case JsString(s) => StringToInteger(s)
    case JsArray(items) =>
      if |items| == 0 then Some(0)
      else if |items| == 1 then StringToInteger(Show(v))
      else None
    case JsObject(_) => None
  }

  lemma ShowInteger(n: int)
    ensures StringToInteger(Show(JsNumber(n))) == Some(n)
  {
    if n < 0 {
      NatToStringRoundTrip(-n);
      assert ("-" + NatToString(-n))[1..] == NatToString(-n);
    } else {
      NatToStringRoundTrip(n);
    }
  }
}
