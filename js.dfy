/** JavaScript values as the front end handles them (decoded JSON, form input, query
    parameters), the language rules the components rely on (truthiness, `||`, `===`,
    optional property access, `Number(..)`, template interpolation, `split(sep)[0]`),
    and a few sequence and decimal helpers shared by the other modules. */
module Js {

  datatype Option<+T> = None | Some(value: T)

  /** A JavaScript value. Arrays from JSON are represented as objects keyed by index;
      `Num` holds finite numbers and `NaN` stands for NaN. The infinities are not
      represented. */
  datatype Value =
    | Undefined
    | Null
    | Bool(b: bool)
    | Num(n: real)
    | NaN
    | Str(s: string)
    | Obj(fields: map<string, Value>)

  /** A plain object, such as a form's state or a decoded record. */
  type Object = map<string, Value>

  /** `false`, `0`, `NaN`, `""`, `null` and `undefined` are falsy; everything else is truthy. */
  predicate Truthy(v: Value) {
    match v
    case Undefined => false
    case Null => false
    case Bool(b) => b
    case Num(n) => n != 0.0
    case NaN => false
    case Str(s) => s != ""
    case Obj(_) => true
  }

  predicate Nullish(v: Value) {
    v.Undefined? || v.Null?
  }

  /** `a || b`: the left operand when it is truthy, the right one otherwise. */
  function Or(a: Value, b: Value): Value {
    if Truthy(a) then a else b
  }

  /** Reading `o.key` on a plain object: a missing key reads as `undefined`. */
  function Prop(o: Object, key: string): Value {
    if key in o then o[key] else Undefined
  }

  /** `v?.key`: `undefined` on a nullish value; a primitive owns none of the data keys
      the components look up, so reading one of them on it gives `undefined` too. */
  function Member(v: Value, key: string): Value {
    match v
    case Obj(fields) => Prop(fields, key)
    case _ => Undefined
  }

  /** `a === b`. Two objects decoded from JSON are distinct references, so never identical. */
  predicate StrictEquals(a: Value, b: Value) {
    match (a, b)
    case (Undefined, Undefined) => true
    case (Null, Null) => true
    case (Bool(x), Bool(y)) => x == y
    case (Num(x), Num(y)) => x == y
    case (Str(x), Str(y)) => x == y
    case _ => false
  }

  /** The value of a query parameter: `searchParams.get` gives `null` when it is absent. */
  function Param(p: Option<string>): Value {
    match p
    case None => Null
    case Some(s) => Str(s)
  }

  /** `Number(v)`. How a string is read as a decimal number is the `parseDecimal`
      parameter (`None` is a string that is not a number). */
  function NumberOf(v: Value, parseDecimal: string -> Option<real>): Value {
    match v
    case Undefined => NaN
    case Null => Num(0.0)
    case Bool(b) => Num(if b then 1.0 else 0.0)
    case Num(n) => Num(n)
    case NaN => NaN
    case Str(s) => (match parseDecimal(s) case Some(r) => Num(r) case None => NaN)
    case Obj(_) => NaN
  }

  /** `${v}` inside a template string (and `String(v)`). Strings, `undefined`, `null`,
      booleans and `NaN` are written as JavaScript writes them, and so are integers below
      10^21. A fraction is cut to its integer part, and every object, arrays included,
      is written "[object Object]". The components interpolate only string identifiers. */
  function TemplateText(v: Value): string {
    match v
    case Undefined => "undefined"
    case Null => "null"
    case Bool(b) => if b then "true" else "false"
    case Num(n) => IntText(n.Floor)
    case NaN => "NaN"
    case Str(s) => s
    case Obj(_) => "[object Object]"
  }

  /** `s.split(sep)[0]`: the part of `s` before the first `sep`. */
  function SplitHead(s: string, sep: char): (r: string)
    ensures r <= s
    ensures sep !in r
    ensures |r| < |s| ==> s[|r|] == sep
  {
    if s == [] then []
    else if s[0] == sep then []
    else [s[0]] + SplitHead(s[1..], sep)
  }

  /** The only prefix of `s` that ends at the first `sep` (or at the end of `s`) is `SplitHead`. */
  lemma SplitHeadIsFirstSegment(s: string, sep: char, p: string)
    requires p <= s && sep !in p
    requires |p| == |s| || s[|p|] == sep
    ensures SplitHead(s, sep) == p
  {
    var r := SplitHead(s, sep);
    assert forall i :: 0 <= i < |r| && i < |p| ==> r[i] == p[i];
  }

  /** A string without `sep` is left unchanged by `split(sep)[0]`. */
  lemma SplitHeadWithoutSeparator(s: string, sep: char)
    requires sep !in s
    ensures SplitHead(s, sep) == s
  {
    SplitHeadIsFirstSegment(s, sep, s);
  }

  /** `s` with `prefix` removed from its front, when `s` starts with it. */
  function StripPrefix(prefix: string, s: string): Option<string> {
    if prefix <= s then Some(s[|prefix|..]) else None
  }

  lemma StripPrefixRoundTrip(prefix: string, rest: string)
    ensures StripPrefix(prefix, prefix + rest) == Some(rest)
  {
    assert (prefix + rest)[|prefix|..] == rest;
  }

  /** `a` is `b` with zero or more elements left out, the rest in their order. */
  predicate IsSubsequence<T(==)>(a: seq<T>, b: seq<T>)
    decreases |b|
  {
    if b == [] then a == []
    else (a != [] && a[0] == b[0] && IsSubsequence(a[1..], b[1..])) || IsSubsequence(a, b[1..])
  }

  // Decimal notation of integers, as `toString()` writes it.

  predicate IsDigit(c: char) {
    '0' <= c <= '9'
  }

  predicate AllDigits(s: string) {
    forall i :: 0 <= i < |s| ==> IsDigit(s[i])
  }

  function DigitChar(d: nat): char
    requires d < 10
  {
    ['0', '1', '2', '3', '4', '5', '6', '7', '8', '9'][d]
  }

  function DigitValue(c: char): nat
    requires IsDigit(c)
  {
    (c as int - '0' as int) as nat
  }

  /** A decimal text as JavaScript prints one: "0", or digits without a leading zero. */
  predicate Canonical(s: string) {
    |s| >= 1 && (s[0] == '0' ==> |s| == 1)
  }

  /** `n.toString()` for a natural number: decimal digits, no leading zero (`NatTextCanonical`). */
  function NatText(n: nat): (r: string)
    ensures |r| >= 1 && AllDigits(r)
    ensures n < 10 <==> |r| == 1
  {
    if n < 10 then [DigitChar(n)] else NatText(n / 10) + [DigitChar(n % 10)]
  }

  /** `toString()` never writes a leading zero, so a text and its value fix each other. */
  lemma {:induction false} NatTextCanonical(n: nat)
    ensures Canonical(NatText(n))
  {
    if n >= 10 {
      NatTextCanonical(n / 10);
      assert NatText(n)[0] == NatText(n / 10)[0];
    }
  }

  /** A digit string whose first digit is not 0 denotes at least that digit. */
  lemma {:induction false} LeadingDigitBound(s: string)
    requires |s| >= 1 && AllDigits(s)
    ensures DigitsValue(s) >= DigitValue(s[0])
  {
    if |s| > 1 {
      var p := s[..|s| - 1];
      assert p[0] == s[0];
      LeadingDigitBound(p);
    }
  }

  lemma DigitCharOfValue(c: char)
    requires IsDigit(c)
    ensures DigitValue(c) < 10 && DigitChar(DigitValue(c)) == c
  {
  }

  /** Every canonical digit string is the text `toString()` writes for its value. */
  lemma {:induction false} CanonicalIsNatText(s: string)
    requires AllDigits(s) && Canonical(s)
    ensures NatText(DigitsValue(s)) == s
  {
    var v := DigitsValue(s);
    var c := s[|s| - 1];
    var p := s[..|s| - 1];
    var d := DigitValue(c);
    assert v == 10 * DigitsValue(p) + d;
    DigitCharOfValue(c);
    if |s| == 1 {
      assert p == [];
      assert s == [c];
    } else {
      assert p[0] == s[0];
      LeadingDigitBound(p);
      CanonicalIsNatText(p);
      assert v / 10 == DigitsValue(p) && v % 10 == d;
      assert s == p + [c];
    }
  }

  function IntText(i: int): string {
    if i < 0 then "-" + NatText(-i) else NatText(i)
  }

  /** The number a string of decimal digits denotes. */
  function DigitsValue(s: string): nat
    requires AllDigits(s)
  {
    if s == [] then 0 else 10 * DigitsValue(s[..|s| - 1]) + DigitValue(s[|s| - 1])
  }

  lemma {:induction false} NatTextRoundTrip(n: nat)
    ensures DigitsValue(NatText(n)) == n
  {
    if n < 10 {
      assert DigitValue(DigitChar(n)) == n;
    } else {
      var t := NatText(n);
      NatTextRoundTrip(n / 10);
      assert t[..|t| - 1] == NatText(n / 10);
      assert DigitValue(t[|t| - 1]) == n % 10;
    }
  }
}
