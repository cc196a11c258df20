/**
  The few JavaScript notions both client helpers rely on: JSON-like values,
  plain objects and their shallow spread, the outcome of a `fetch` call taken
  as an input, and the text of an `HTTP <status>: <detail>` error.
 */
module Js {

  /** A JavaScript value as it travels through the helpers; objects are maps from key to value. */
  datatype Value =
    | Undefined
    | Null
    | Bool(b: bool)
    | Num(n: real)
    | Str(s: string)
    | Arr(items: seq<Value>)
    | Obj(fields: map<string, Value>)

  /** The object literal `{ ...left, ...right }`: every key of either side, the right side winning. */
  function Spread(left: map<string, Value>, right: map<string, Value>): (r: map<string, Value>)
    ensures r.Keys == left.Keys + right.Keys
    ensures forall k :: k in right ==> r[k] == right[k]
    ensures forall k :: k in left && k !in right ==> r[k] == left[k]
  {
    left + right
  }

  /** The own keys that `...v` contributes to an object literal: an object's fields; nothing for
      `undefined`, `null`, booleans and numbers. */
  function SpreadFields(v: Value): (fields: map<string, Value>)
    ensures v.Obj? ==> fields == v.fields
    ensures v.Undefined? || v.Null? ==> fields == map[]
  {
    match v
    case Obj(m) => m
    case _ => map[]
  }

  /** What `await fetch(url, init)` and the body read after it produce, taken as an input:
      a response with `ok` set and a body that parses as JSON, a response without `ok`
      (its status, the text of its body and its status text), or a rejection (network failure or
      a body that does not parse) with its message. */
  datatype FetchOutcome =
    | Ok(body: Value)
    | NotOk(status: nat, bodyText: string, statusText: string)
    | Fail(message: string)

  /** How an async helper settles: it returns a value or throws an error with a message. */
  datatype ApiResult = Returned(value: Value) | Threw(error: string)

  /** One call of a `fetchApi` helper: the URL and options it passes to `fetch`, and how it settles. */
  datatype Exchange = Exchange(url: string, init: map<string, Value>, result: ApiResult)

  function DigitChar(d: nat): (c: char)
    requires d < 10
    ensures '0' <= c <= '9' && c as int - '0' as int == d
  {
    "0123456789"[d]
  }

  /** The value of a string of decimal digits. */
  function DigitsValue(s: string): nat
    requires forall i :: 0 <= i < |s| ==> '0' <= s[i] <= '9'
  {
    if s == [] then 0
    else 10 * DigitsValue(s[..|s| - 1]) + (s[|s| - 1] as int - '0' as int)
  }

  /** The decimal text of a number, as a template literal renders `response.status`. */
  function NatToString(n: nat): (s: string)
    ensures |s| > 0
    ensures forall i :: 0 <= i < |s| ==> '0' <= s[i] <= '9'
    ensures |s| > 1 ==> s[0] != '0'
  {
    if n < 10 then [DigitChar(n)] else NatToString(n / 10) + [DigitChar(n % 10)]
  }

  /** Reading the rendered digits back gives the number: the rendering loses nothing. */
  lemma {:induction false} NatToStringRoundTrip(n: nat)
    ensures DigitsValue(NatToString(n)) == n
  {
    var s := NatToString(n);
    if n >= 10 {
      NatToStringRoundTrip(n / 10);
      assert s[..|s| - 1] == NatToString(n / 10);
    }
  }

  /** Different statuses give different texts. */
  lemma NatToStringInjective(m: nat, n: nat)
    requires NatToString(m) == NatToString(n)
    ensures m == n
  {
    NatToStringRoundTrip(m);
    NatToStringRoundTrip(n);
  }

  /** The message of the error thrown for a response whose `ok` is false. */
  function HttpError(status: nat, detail: string): (msg: string)
    ensures |msg| == 7 + |NatToString(status)| + |detail|
    ensures msg[..5] == "HTTP "
    ensures msg[5..5 + |NatToString(status)|] == NatToString(status)
    ensures msg[5 + |NatToString(status)|..7 + |NatToString(status)|] == ": "
    ensures msg[|msg| - |detail|..] == detail
  {
    "HTTP " + NatToString(status) + ": " + detail
  }

  /** For a fixed detail, the error text determines the status. */
  lemma HttpErrorInjective(s1: nat, s2: nat, detail: string)
    requires HttpError(s1, detail) == HttpError(s2, detail)
    ensures s1 == s2
  {
    var m := HttpError(s1, detail);
    assert |NatToString(s1)| == |NatToString(s2)|;
    assert NatToString(s1) == m[5..5 + |NatToString(s1)|] == NatToString(s2);
    NatToStringInjective(s1, s2);
  }
}
