/**
 * The slice of JavaScript value semantics that the bot's code leans on:
 * dynamically typed JSON scalars, truthiness, `String(x)`, the string
 * built-ins (`toUpperCase`, `toLowerCase`, `trim`, `includes`, `join`) and
 * the lenient number parsers `parseInt(s, 10)` and `parseFloat(s)`.
 * Numbers are exact reals rather than IEEE-754 doubles.
 */
module Js {

  datatype Option<+T> = None | Some(value: T)

  /** How a call ends: with a value, or by throwing an error with a message. */
  datatype Outcome<+T> = Returned(value: T) | Threw(message: string)

  /** A JSON scalar as the AI reply and the record system deliver it. */
  datatype Value = Undefined | Null | Bool(b: bool) | Num(x: real) | Str(s: string)

  /** A plain JavaScript object with scalar fields; an absent key reads as `undefined`. */
  type Data = map<string, Value>

  /** `d[key]` */
  function Get(d: Data, key: string): (v: Value)
    ensures key !in d ==> v == Undefined
    ensures key in d ==> v == d[key]
  {
    if key in d then d[key] else Undefined
  }

  /** JavaScript truthiness (there is no NaN among JSON values): all but the five falsy values. */
  predicate Truthy(v: Value)
    ensures !Truthy(v) <==> v == Undefined || v == Null || v == Bool(false) || v == Num(0.0) || v == Str("")
  {
    match v
    case Undefined => false
    case Null => false
    case Bool(b) => b
    case Num(x) => x != 0.0
    case Str(s) => s != ""
  }

  /** `String(v)`, which is also what a template literal `${v}` inserts. */
  function ToText(v: Value): (r: string)
    ensures v.Str? ==> r == v.s
  {
    match v
    case Undefined => "undefined"
    case Null => "null"
    case Bool(b) => if b then "true" else "false"
    case Num(x) => NumText(x)
    case Str(s) => s
  }

  /** `${v || fallback}` */
  function OrElse(v: Value, fallback: string): (r: string)
    ensures Truthy(v) ==> r == ToText(v)
    ensures !Truthy(v) ==> r == fallback
  {
    if Truthy(v) then ToText(v) else fallback
  }

  // ---------------------------------------------------------------------
  // Number rendering and parsing
  // ---------------------------------------------------------------------

  predicate IsDigit(c: char) { '0' <= c <= '9' }

  function DigitChar(d: nat): (c: char)
    requires d < 10
    ensures IsDigit(c)
  {
    ['0', '1', '2', '3', '4', '5', '6', '7', '8', '9'][d]
  }

  function DigitValue(c: char): (d: nat)
    requires IsDigit(c)
    ensures d < 10
  {
    (c as int - '0' as int) as nat
  }

  /** Decimal digits of `n`, without leading zeros. */
  function NatToString(n: nat): (s: string)
    ensures |s| > 0
    ensures forall i :: 0 <= i < |s| ==> IsDigit(s[i])
    decreases n
  {
    if n < 10 then [DigitChar(n)] else NatToString(n / 10) + [DigitChar(n % 10)]
  }

  function IntToString(i: int): string
  {
    if i < 0 then "-" + NatToString(-i) else NatToString(i)
  }

  /** Up to `fuel` decimal digits of a fraction in [0, 1), stopping when it is exhausted. */
  function FracDigits(f: real, fuel: nat): string
    requires 0.0 <= f < 1.0
    decreases fuel
  {
    if f == 0.0 || fuel == 0 then ""
    else
      var y := f * 10.0;
      var d := y.Floor;
      [DigitChar(d)] + FracDigits(y - d as real, fuel - 1)
  }

  /** `String(x)` for a number in plain decimal notation. */
  function NumText(x: real): string
  {
    if x < 0.0 then "-" + NonNegText(-x) else NonNegText(x)
  }

  function NonNegText(x: real): string
    requires x >= 0.0
  {
    var whole := x.Floor;
    if x == whole as real then NatToString(whole)
    else NatToString(whole) + "." + FracDigits(x - whole as real, 20)
  }

  /** The value of a string of decimal digits, most significant first. */
  function DigitsValue(ds: string): (n: nat)
    requires forall i :: 0 <= i < |ds| ==> IsDigit(ds[i])
  {
    if ds == [] then 0 else 10 * DigitsValue(ds[..|ds| - 1]) + DigitValue(ds[|ds| - 1])
  }

  /** The longest prefix of `s` made of decimal digits. */
  function DigitPrefix(s: string): (p: string)
    ensures p <= s
    ensures forall i :: 0 <= i < |p| ==> IsDigit(p[i])
    ensures |p| < |s| ==> !IsDigit(s[|p|])
  {
    if s == [] || !IsDigit(s[0]) then "" else [s[0]] + DigitPrefix(s[1..])
  }

  /** `s` without its leading white space and line terminators. */
  function TrimStart(s: string): (r: string)
    ensures |r| <= |s|
    ensures r == [] || !IsJsSpace(r[0])
    ensures forall i :: 0 <= i < |s| - |r| ==> IsJsSpace(s[i])
  {
    if s != [] && IsJsSpace(s[0]) then TrimStart(s[1..]) else s
  }

  /** `s` without its trailing white space and line terminators. */
  function TrimEnd(s: string): (r: string)
    ensures |r| <= |s| && r == s[..|r|]
    ensures r == [] || !IsJsSpace(r[|r| - 1])
    ensures forall i :: |r| <= i < |s| ==> IsJsSpace(s[i])
  {
    if s != [] && IsJsSpace(s[|s| - 1]) then TrimEnd(s[..|s| - 1]) else s
  }

  /** `s.trim()`: white space removed from both ends, and only from there. */
  function Trim(s: string): (r: string)
    ensures |r| <= |s|
    ensures r == [] || (!IsJsSpace(r[0]) && !IsJsSpace(r[|r| - 1]))
    ensures (forall i :: 0 <= i < |s| ==> !IsJsSpace(s[i])) ==> r == s
  {
    TrimEnd(TrimStart(s))
  }

  /** Splits off an optional leading sign: whether it was a minus, and the rest. */
  function SplitSign(t: string): (bool, string)
  {
    if |t| > 0 && t[0] == '-' then (true, t[1..])
    else if |t| > 0 && t[0] == '+' then (false, t[1..])
    else (false, t)
  }

  /**
   * `parseInt(s, 10)`: leading white space, an optional sign, then the
   * longest run of digits; `None` stands for NaN.
   */
  function ParseInt(s: string): (r: Option<int>)
    ensures s == "" ==> r.None?
  {
    var signed := SplitSign(TrimStart(s));
    var ds := DigitPrefix(signed.1);
    if ds == "" then None else Some(if signed.0 then -(DigitsValue(ds) as int) else DigitsValue(ds))
  }

  function Pow10(n: nat): (p: real)
    ensures p >= 1.0
  {
    if n == 0 then 1.0 else 10.0 * Pow10(n - 1)
  }

  /** The exponent suffix `e[+-]digits` at the start of `t`, or 0 when there is none. */
  function ExponentOf(t: string): int
  {
    if |t| > 0 && (t[0] == 'e' || t[0] == 'E') then
      var signed := SplitSign(t[1..]);
      var ds := DigitPrefix(signed.1);
      if ds == "" then 0 else if signed.0 then -(DigitsValue(ds) as int) else DigitsValue(ds)
    else 0
  }

  function Scale(m: real, e: int): real
  {
    if e >= 0 then m * Pow10(e) else m / Pow10(-e)
  }

  /**
   * `parseFloat(s)`: leading white space, an optional sign, digits with an
   * optional fraction (at least one digit in all) and an optional exponent,
   * ignoring whatever follows; `None` stands for NaN.
   */
  function ParseFloat(s: string): (r: Option<real>)
    ensures s == "" ==> r.None?
    ensures s != "" && (forall i :: 0 <= i < |s| ==> IsDigit(s[i])) ==> r == Some(DigitsValue(s) as real)
  {
    PlainDigits(s);
    var signed := SplitSign(TrimStart(s));
    match Magnitude(signed.1)
    case None => None
    case Some(m) => Some(if signed.0 then -m else m)
  }

  /** The unsigned number at the start of `t`: digits, an optional fraction and an optional exponent. */
  function Magnitude(t: string): (r: Option<real>)
    ensures t == "" ==> r.None?
    ensures t != "" && DigitPrefix(t) == t ==> r == Some(DigitsValue(t) as real)
  {
    var whole := DigitPrefix(t);
    var after := t[|whole|..];
    assert whole == t ==> after == [] && Scale(DigitsValue(t) as real + 0.0, 0) == DigitsValue(t) as real;
    var frac := if |after| > 0 && after[0] == '.' then DigitPrefix(after[1..]) else "";
    if whole == "" && frac == "" then None
    else
      var mantissa := DigitsValue(whole) as real + DigitsValue(frac) as real / Pow10(|frac|);
      var tail := if |after| > 0 && after[0] == '.' then after[1 + |frac|..] else after;
      Some(Scale(mantissa, ExponentOf(tail)))
  }

  /** `parseFloat(v)`, which first converts `v` with `String(v)`. */
  function ParseFloatValue(v: Value): Option<real>
  {
    match v
    case Num(x) => Some(x)
    case Str(s) => ParseFloat(s)
    case _ => None   // "undefined", "null", "true", "false" are all NaN
  }

  lemma {:induction false} DigitsValueOfNatToString(n: nat)
    ensures DigitsValue(NatToString(n)) == n
    decreases n
  {
    var s := NatToString(n);
    if n >= 10 {
      DigitsValueOfNatToString(n / 10);
      assert s[..|s| - 1] == NatToString(n / 10);
    }
  }

  /** A plain run of digits has no white space, no sign and nothing after its digits. */
  lemma PlainDigits(s: string)
    ensures s != "" && (forall i :: 0 <= i < |s| ==> IsDigit(s[i])) ==>
              TrimStart(s) == s && SplitSign(s) == (false, s) && DigitPrefix(s) == s
  {
    if s != "" && (forall i :: 0 <= i < |s| ==> IsDigit(s[i])) {
      assert TrimStart(s) == s by { assert !IsJsSpace(s[0]); }
      assert SplitSign(s) == (false, s) by { assert s[0] != '-' && s[0] != '+'; }
      assert DigitPrefix(s) == s by { DigitPrefixOfDigits(s); }
    }
  }

  lemma {:induction false} DigitPrefixOfDigits(s: string)
    ensures (forall i :: 0 <= i < |s| ==> IsDigit(s[i])) ==> DigitPrefix(s) == s
  {
    if s != [] && (forall i :: 0 <= i < |s| ==> IsDigit(s[i])) {
      DigitPrefixOfDigits(s[1..]);
    }
  }

  /** Rendering an integer and reading it back with `parseInt` gives the integer. */
  lemma ParseIntOfIntToString(n: int)
    ensures ParseInt(IntToString(n)) == Some(n)
  {
    if n < 0 {
      var text := "-" + NatToString(-n);
      assert IntToString(n) == text;
      ParseIntOfNegative(-n);
    } else {
      assert IntToString(n) == NatToString(n);
      ParseIntOfNat(n);
    }
  }

  lemma ParseIntOfNat(n: nat)
    ensures ParseInt(NatToString(n)) == Some(n as int)
  {
    ParseIntOfDigits(NatToString(n));
    DigitsValueOfNatToString(n);
  }

  lemma ParseIntOfNegative(m: nat)
    ensures ParseInt("-" + NatToString(m)) == Some(-(m as int))
  {
    ParseIntOfMinusDigits(NatToString(m));
    DigitsValueOfNatToString(m);
  }

  lemma ParseIntOfMinusDigits(digits: string)
    requires digits != "" && forall i :: 0 <= i < |digits| ==> IsDigit(digits[i])
    ensures ParseInt("-" + digits) == Some(-(DigitsValue(digits) as int))
  {
    MinusSigned(digits);
    ParseIntOfSigned("-" + digits, true, digits);
  }

  /** Once the sign is split off, `parseInt` reads a plain run of digits whole. */
  lemma ParseIntOfSigned(s: string, negative: bool, digits: string)
    requires digits != "" && forall i :: 0 <= i < |digits| ==> IsDigit(digits[i])
    requires SplitSign(TrimStart(s)) == (negative, digits)
    ensures ParseInt(s) == Some(if negative then -(DigitsValue(digits) as int) else DigitsValue(digits))
  {
    DigitPrefixOfDigits(digits);
  }

  /** A leading minus sign is not white space and is split off as a minus. */
  lemma MinusSigned(t: string)
    ensures SplitSign(TrimStart("-" + t)) == (true, t)
  {
    var s := "-" + t;
    assert TrimStart(s) == s by { assert s[0] == '-' && !IsJsSpace(s[0]); }
    assert s[1..] == t;
  }

  /** `parseInt` of a plain run of digits is the run's decimal value. */
  lemma ParseIntOfDigits(s: string)
    requires s != "" && forall i :: 0 <= i < |s| ==> IsDigit(s[i])
    ensures ParseInt(s) == Some(DigitsValue(s) as int)
  {
    PlainDigits(s);
    ParseIntOfSigned(s, false, s);
  }

  /** `String(n)` of an integral number is its plain decimal rendering. */
  lemma NumTextOfInt(n: int)
    ensures ToText(Num(n as real)) == IntToString(n)
  {
    if n < 0 {
      var m: nat := -n;
      assert n as real < 0.0 && -(n as real) == m as real;
      NonNegTextOfNat(m);
      assert NumText(n as real) == "-" + NonNegText(m as real);
    } else {
      NonNegTextOfNat(n);
    }
  }

  lemma NonNegTextOfNat(m: nat)
    ensures NonNegText(m as real) == NatToString(m)
  {
    assert (m as real).Floor == m;
  }

  // ---------------------------------------------------------------------
  // Characters and strings
  // ---------------------------------------------------------------------

  /** ECMAScript WhiteSpace and LineTerminator code points: what `trim` and `\s` accept. */
  predicate IsJsSpace(c: char)
  {
    c == '\t' || c == '\U{000B}' || c == '\U{000C}' || c == ' ' || c == '\U{00A0}' || c == '\U{FEFF}'
    || c == '\U{1680}' || ('\U{2000}' <= c <= '\U{200A}') || c == '\U{202F}' || c == '\U{205F}'
    || c == '\U{3000}' || IsLineTerminator(c)
  }

  /** The characters that `.` in a regular expression does not match. */
  predicate IsLineTerminator(c: char)
  {
    c == '\n' || c == '\r' || c == '\U{2028}' || c == '\U{2029}'
  }

  predicate IsUpperLetter(c: char) { 'A' <= c <= 'Z' }

  predicate IsLowerLetter(c: char) { 'a' <= c <= 'z' }

  /** The characters `\w` matches; `\b` sits between one of these and anything else. */
  predicate IsWordChar(c: char)
  {
    IsUpperLetter(c) || IsLowerLetter(c) || IsDigit(c) || c == '_'
  }

  function UpperChar(c: char): (u: char)
    ensures !IsLowerLetter(u)
  {
    if IsLowerLetter(c) then (c as int - 32) as char else c
  }

  function LowerChar(c: char): (l: char)
    ensures !IsUpperLetter(l)
  {
    if IsUpperLetter(c) then (c as int + 32) as char else c
  }

  /** `s.toUpperCase()` on the ASCII letters. */
  function ToUpper(s: string): (r: string)
    ensures |r| == |s|
    ensures forall i :: 0 <= i < |s| ==> r[i] == UpperChar(s[i])
  {
    seq(|s|, i requires 0 <= i < |s| => UpperChar(s[i]))
  }

  /** `s.toLowerCase()` on the ASCII letters. */
  function ToLower(s: string): (r: string)
    ensures |r| == |s|
    ensures forall i :: 0 <= i < |s| ==> r[i] == LowerChar(s[i])
  {
    seq(|s|, i requires 0 <= i < |s| => LowerChar(s[i]))
  }

  /** Upper-casing forgets the case the string had: it is idempotent and absorbs a prior lower-casing. */
  lemma ToUpperForgetsCase(s: string)
    ensures ToUpper(ToUpper(s)) == ToUpper(s)
    ensures ToUpper(ToLower(s)) == ToUpper(s)
  {
    assert forall i :: 0 <= i < |s| ==> UpperChar(LowerChar(s[i])) == UpperChar(s[i]);
  }

  /** `s.includes(sub)` */
  predicate Contains(s: string, sub: string)
  {
    sub <= s || (s != [] && Contains(s[1..], sub))
  }

  lemma {:induction false} ContainsAt(s: string, sub: string, i: nat)
    requires i + |sub| <= |s| && s[i..i + |sub|] == sub
    ensures Contains(s, sub)
  {
    if i > 0 {
      ContainsAt(s[1..], sub, i - 1);
      assert s[1..][i - 1..i - 1 + |sub|] == s[i..i + |sub|];
    }
  }

  /** A string contains whatever sits between its start and its end. */
  lemma ContainsInfix(a: string, b: string, c: string)
    ensures Contains(a + b + c, b)
  {
    assert (a + b + c)[|a|..|a| + |b|] == b;
    ContainsAt(a + b + c, b, |a|);
  }

  /** A text put together from pieces opens with the first piece. */
  lemma OpensWith(a: string, b: string, c: string, d: string)
    ensures a <= a + b + c + d
  {
    assert (a + b + c + d)[..|a|] == a;
  }

  /** `parts.join(sep)` */
  function Join(parts: seq<string>, sep: string): string
  {
    if parts == [] then ""
    else if |parts| == 1 then parts[0]
    else parts[0] + sep + Join(parts[1..], sep)
  }

  function Min(a: int, b: int): int { if a < b then a else b }

  /** The next key an enumeration of a non-empty key set visits; which one is left open. */
  method AnyElement<T>(s: set<T>) returns (x: T)
    requires s != {}
    ensures x in s
  {
    x :| x in s;
  }
}
