/** The JavaScript value semantics the components lean on: truthiness of
    optional strings, the `||` fallback, parsed JSON values, and `Number(s)`
    on strings. */
module Js {
  import opened Wrappers
  import opened Strings

  /** A possibly missing string is truthy when present and non-empty. */
  predicate Truthy(o: Option<string>) {
    o.Some? && o.value != ""
  }

  /** `o || fallback` for a possibly missing string. */
  function Or(o: Option<string>, fallback: string): string {
    if Truthy(o) then o.value else fallback
  }

  /** A possibly missing string inside a template literal: a missing value
      is written as `undefined`. */
  function TemplateText(o: Option<string>): string {
    if o.Some? then o.value else "undefined"
  }

  /** `o ?? fallback`: only a missing value falls back; an empty string stays. */
  function Coalesce<T>(o: Option<T>, fallback: T): (r: T)
    ensures o.Some? ==> r == o.value
    ensures o.None? ==> r == fallback
  {
    if o.Some? then o.value else fallback
  }

  /** A value produced by `JSON.parse`; arrays and objects nested inside a
      field are not looked into. */
  datatype Value = Str(s: string) | Num(n: int) | Bool(b: bool) | Null | Compound

  /** A parsed JSON object. */
  type Object = map<string, Value>

  /** `obj.key` read as a string; a missing key, `null` or a non-string value gives `None`. */
  function StrField(obj: Object, key: string): (r: Option<string>)
    ensures r.Some? <==> key in obj && obj[key].Str?
    ensures r.Some? ==> obj[key] == Str(r.value)
  {
    if key in obj && obj[key].Str? then Some(obj[key].s) else None
  }

  /** `obj.key` read as a number. */
  function NumField(obj: Object, key: string): (r: Option<int>)
    ensures r.Some? <==> key in obj && obj[key].Num?
    ensures r.Some? ==> obj[key] == Num(r.value)
  {
    if key in obj && obj[key].Num? then Some(obj[key].n) else None
  }

  /** The result of `Number(s)` on a string: an integer or `NaN`. */
  datatype NumberValue = Finite(v: int) | NaN

  predicate AllDigits(s: string) {
    forall i :: 0 <= i < |s| ==> IsDigit(s[i])
  }

  /** `Number(s)`: surrounding white space is ignored, the empty string is 0,
      and an optional sign followed by decimal digits is that integer. */
  function NumberOf(s: string): NumberValue {
    var t := Trim(s);
    if t == "" then Finite(0)
    else if (t[0] == '-' || t[0] == '+') && |t| > 1 && AllDigits(t[1..]) then
      var v: int := DigitsValue(t[1..]);
      Finite(if t[0] == '-' then -v else v)
    else if AllDigits(t) then Finite(DigitsValue(t))
    else NaN
  }

  /** Trimming leaves a string alone whose ends are not white space. */
  lemma TrimUnpadded(s: string)
    requires s != [] && !IsSpace(s[0]) && !IsSpace(s[|s| - 1])
    ensures Trim(s) == s
  {
    assert TrimStart(s) == s;
  }

  /** `Number(String(n)) === n` for every integer `n`. */
  lemma NumberOfIntToString(n: int)
    ensures NumberOf(IntToString(n)) == Finite(n)
  {
    var s := IntToString(n);
    var m: nat := if n < 0 then -n else n;
    var digits := NatToString(m);
    DigitsValueOfNat(m);
    if n < 0 {
      assert s == "-" + digits && s[1..] == digits;
      assert s[|s| - 1] == digits[|digits| - 1];
    }
    TrimUnpadded(s);
  }
}
