/** The pieces of JavaScript's built-in behaviour that the components rely
    on: parsed JSON values and their truthiness, `a || b` on an optional
    string, `String.prototype.trim`, and the decimal text of a number in a
    template literal. */
module Js {
  import opened Wrappers

  /** A value as `response.json()` produces it. */
  datatype Json =
    | JNull
    | JBool(b: bool)
    | JNum(n: real)
    | JStr(s: string)
    | JArr(items: seq<Json>)
    | JObj(fields: map<string, Json>)

  /** JavaScript's ToBoolean on a JSON value: `null`, `false`, `0` and `""`
      are falsy; arrays and objects are truthy even when empty. */
  predicate Truthy(v: Json) {
    match v
    case JNull => false
    case JBool(b) => b
    case JNum(n) => n != 0.0
    case JStr(s) => s != ""
    case JArr(_) => true
    case JObj(_) => true
  }

  /** Property read `v.key` for a key that no prototype defines: the own
      property of an object, otherwise `undefined` (None). */
  function Prop(v: Json, key: string): (r: Option<Json>)
    ensures r.Some? <==> v.JObj? && key in v.fields
    ensures r.Some? ==> r.value == v.fields[key]
  {
    if v.JObj? && key in v.fields then Some(v.fields[key]) else None
  }

  /** `Array.isArray(x)` where `x` may be `undefined`. */
  predicate IsArray(x: Option<Json>) {
    x.Some? && x.value.JArr?
  }

  /** `a || b` where `a` is a string or `undefined` and `b` a string. */
  function OrElse(a: Option<string>, b: string): (r: string)
    ensures a.Some? && a.value != "" ==> r == a.value
    ensures a.None? || a.value == "" ==> r == b
  {
    if a.Some? && a.value != "" then a.value else b
  }

  /** The characters `String.prototype.trim` removes: the WhiteSpace and
      LineTerminator productions of ECMAScript (section 12.2 and 12.3 of
      ECMA-262). */
  predicate IsTrimmable(c: char) {
    || c in {'\t', '\U{000B}', '\U{000C}', ' ', '\U{00A0}', '\U{FEFF}'}
    || c in {'\U{1680}', '\U{202F}', '\U{205F}', '\U{3000}'}
    || ('\U{2000}' <= c <= '\U{200A}')
    || c in {'\n', '\r', '\U{2028}', '\U{2029}'}
  }

  /** Number of trimmable characters at the start of `s`. */
  function LeadingTrimmable(s: string): (n: nat)
    ensures n <= |s|
    ensures forall i :: 0 <= i < n ==> IsTrimmable(s[i])
    ensures n < |s| ==> !IsTrimmable(s[n])
  {
    if s == [] || !IsTrimmable(s[0]) then 0 else 1 + LeadingTrimmable(s[1..])
  }

  /** Number of trimmable characters at the end of `s`. */
  function TrailingTrimmable(s: string): (n: nat)
    ensures n <= |s|
    ensures forall i :: |s| - n <= i < |s| ==> IsTrimmable(s[i])
    ensures n < |s| ==> !IsTrimmable(s[|s| - n - 1])
  {
    if s == [] || !IsTrimmable(s[|s| - 1]) then 0
    else 1 + TrailingTrimmable(s[..|s| - 1])
  }

  /** `s.trim()`: the longest infix of `s` that neither starts nor ends with
      a trimmable character; everything cut off is trimmable. */
  function Trim(s: string): (t: string)
    ensures LeadingTrimmable(s) + |t| <= |s|
    ensures t == s[LeadingTrimmable(s)..LeadingTrimmable(s) + |t|]
    ensures forall i :: 0 <= i < LeadingTrimmable(s) ==> IsTrimmable(s[i])
    ensures forall i :: LeadingTrimmable(s) + |t| <= i < |s| ==> IsTrimmable(s[i])
    ensures t != [] ==> !IsTrimmable(t[0]) && !IsTrimmable(t[|t| - 1])
    ensures t == [] <==> forall i :: 0 <= i < |s| ==> IsTrimmable(s[i])
  {
    var a := LeadingTrimmable(s);
    var rest := s[a..];
    var b := TrailingTrimmable(rest);
    assert forall i :: a + |rest| - b <= i < |s| ==> s[i] == rest[i - a];
    rest[..|rest| - b]
  }

  /** A string with untrimmable ends is left as it is. */
  lemma TrimKeepsClean(s: string)
    requires s != [] && !IsTrimmable(s[0]) && !IsTrimmable(s[|s| - 1])
    ensures Trim(s) == s
  {
    assert LeadingTrimmable(s) == 0;
    assert TrailingTrimmable(s) == 0;
  }

  /** Trimming twice is trimming once. */
  lemma TrimIdempotent(s: string)
    ensures Trim(Trim(s)) == Trim(s)
  {
    if Trim(s) != [] {
      TrimKeepsClean(Trim(s));
    }
  }

  function Digit(d: nat): (c: char)
    requires d < 10
    ensures '0' <= c <= '9'
  {
    "0123456789"[d]
  }

  /** Decimal text of `n` as a template literal `${n}` writes it. */
  function DecimalString(n: nat): (s: string)
    ensures |s| >= 1
    ensures forall i :: 0 <= i < |s| ==> '0' <= s[i] <= '9'
    ensures s[0] == '0' ==> n == 0
    ensures n == 0 ==> s == "0"
  {
    if n < 10 then [Digit(n)] else DecimalString(n / 10) + [Digit(n % 10)]
  }

  /** The number a string of decimal digits denotes. */
  function DecimalValue(s: string): nat
    requires forall i :: 0 <= i < |s| ==> '0' <= s[i] <= '9'
  {
    if s == [] then 0
    else 10 * DecimalValue(s[..|s| - 1]) + (s[|s| - 1] as int - '0' as int)
  }

  /** The status text reads back as the status: formatting loses nothing. */
  lemma {:induction false} DecimalRoundTrip(n: nat)
    ensures DecimalValue(DecimalString(n)) == n
  {
    if n >= 10 {
      var s := DecimalString(n);
      assert s[..|s| - 1] == DecimalString(n / 10);
      DecimalRoundTrip(n / 10);
    }
  }
}
