/** String operations the source borrows from JavaScript's standard library:
    substring search, `trim`, number-to-string conversion, `join`, the
    `.git` suffix test, and the `replace(/([A-Z])/g, ' $1').toLowerCase()`
    rendering of lever names. */
module Text {
  import opened Values

  /** `pat` occurs in `s` starting at index `i`. */
  predicate OccursAt(s: string, pat: string, i: nat) {
    i + |pat| <= |s| && s[i..i + |pat|] == pat
  }

  /** First index at or after `from` where `pat` occurs. */
  function IndexOfFrom(s: string, pat: string, from: nat): (r: Option<nat>)
    ensures r.Some? ==> from <= r.value && OccursAt(s, pat, r.value)
    ensures r.Some? ==> forall j: nat :: from <= j < r.value ==> !OccursAt(s, pat, j)
    ensures r.None? ==> forall j: nat :: from <= j ==> !OccursAt(s, pat, j)
    decreases |s| - from
  {
    if from + |pat| > |s| then None
    else if OccursAt(s, pat, from) then Some(from)
    else IndexOfFrom(s, pat, from + 1)
  }

  /** The first occurrence at or after `from` is the one at `i` when there is
      none in between. */
  lemma IndexOfFromIs(s: string, pat: string, from: nat, i: nat)
    requires from <= i && OccursAt(s, pat, i)
    requires forall j: nat :: from <= j < i ==> !OccursAt(s, pat, j)
    ensures IndexOfFrom(s, pat, from) == Some(i)
  {
  }

  /** `pat` does not occur at `i` when one of its characters differs. */
  lemma MismatchAt(text: string, pat: string, i: nat, k: nat)
    requires k < |pat|
    requires i + k < |text| ==> text[i + k] != pat[k]
    ensures !OccursAt(text, pat, i)
  {
    if i + |pat| <= |text| {
      assert text[i..i + |pat|][k] == text[i + k];
    }
  }

  lemma OccursInConcat(a: string, b: string, c: string)
    ensures OccursAt(a + b + c, b, |a|)
  {
    assert (a + b + c)[|a|..|a| + |b|] == b;
  }

  // ---------------------------------------------------------------------
  // String.prototype.trim

  /** The characters JavaScript's `trim` removes: WhiteSpace and LineTerminator
      of ECMA-262 (tab, VT, FF, space, NBSP, BOM, the Zs separators, LF, CR,
      LS, PS). */
  predicate IsSpace(c: char) {
    c == ' ' || c == '\t' || c == '\n' || c == '\r' || c == '\U{B}' || c == '\U{C}'
    || c == '\U{A0}' || c == '\U{FEFF}' || c == '\U{1680}'
    || ('\U{2000}' <= c <= '\U{200A}')
    || c == '\U{2028}' || c == '\U{2029}' || c == '\U{202F}' || c == '\U{205F}' || c == '\U{3000}'
  }

  /** The first index at or after `i` that does not hold white space, or
      the length of `s` if there is none. */
  function SkipSpace(s: string, i: nat): (k: nat)
    requires i <= |s|
    ensures i <= k <= |s|
    ensures forall j :: i <= j < k ==> IsSpace(s[j])
    ensures k == |s| || !IsSpace(s[k])
    decreases |s| - i
  {
    if i < |s| && IsSpace(s[i]) then SkipSpace(s, i + 1) else i
  }

  /** The end of `s[lo..e]` once its trailing white space is dropped. */
  function SkipSpaceBack(s: string, lo: nat, e: nat): (k: nat)
    requires lo <= e <= |s|
    ensures lo <= k <= e
    ensures forall j :: k <= j < e ==> IsSpace(s[j])
    ensures k == lo || !IsSpace(s[k - 1])
  {
    if lo < e && IsSpace(s[e - 1]) then SkipSpaceBack(s, lo, e - 1) else e
  }

  /** `s.trim()`: the infix of `s` left once the white space on either side
      is removed. Only white space is removed, and the result neither starts
      nor ends with white space. */
  function Trim(s: string): (r: string)
    ensures r == [] || (!IsSpace(r[0]) && !IsSpace(r[|r| - 1]))
    ensures var b := SkipSpace(s, 0);
      && b + |r| <= |s|
      && r == s[b..b + |r|]
      && (forall j :: 0 <= j < b ==> IsSpace(s[j]))
      && (forall j :: b + |r| <= j < |s| ==> IsSpace(s[j]))
  {
    var b := SkipSpace(s, 0);
    s[b..SkipSpaceBack(s, b, |s|)]
  }

  /** A string that already has no white space at either end is left alone. */
  lemma TrimmedIsFixed(s: string)
    requires s == [] || (!IsSpace(s[0]) && !IsSpace(s[|s| - 1]))
    ensures Trim(s) == s
  {
  }

  /** Trimming twice is trimming once. */
  lemma TrimIdempotent(s: string)
    ensures Trim(Trim(s)) == Trim(s)
  {
    TrimmedIsFixed(Trim(s));
  }

  // ---------------------------------------------------------------------
  // Number-to-string conversion

  predicate IsDigit(c: char) { '0' <= c <= '9' }

  function DigitChar(d: nat): (c: char)
    requires d < 10
    ensures IsDigit(c) && c as int - '0' as int == d
  {
    (d + '0' as int) as char
  }

  /** Decimal rendering of a natural number, as `${n}` gives for an integer. */
  function NatToString(n: nat): (r: string)
    ensures |r| >= 1
    ensures forall i :: 0 <= i < |r| ==> IsDigit(r[i])
    ensures r[0] == '0' ==> n == 0
  {
    if n < 10 then [DigitChar(n)] else NatToString(n / 10) + [DigitChar(n % 10)]
  }

  /** The value of a string of decimal digits (the reading direction). */
  function DigitsValue(s: string): nat
    requires forall i :: 0 <= i < |s| ==> IsDigit(s[i])
  {
    if s == [] then 0
    else
      assert IsDigit(s[|s| - 1]);
      DigitsValue(s[..|s| - 1]) * 10 + (s[|s| - 1] as int - '0' as int)
  }

  /** Reading back the rendered digits gives the number. */
  lemma {:induction false} NatToStringRoundTrip(n: nat)
    ensures DigitsValue(NatToString(n)) == n
  {
    if n >= 10 {
      NatToStringRoundTrip(n / 10);
      var r := NatToString(n);
      assert r[..|r| - 1] == NatToString(n / 10);
    }
  }

  /** Two naturals with the same rendering are equal. */
  lemma NatToStringInjective(m: nat, n: nat)
    requires NatToString(m) == NatToString(n)
    ensures m == n
  {
    NatToStringRoundTrip(m);
    NatToStringRoundTrip(n);
  }

  function IntToString(n: int): (r: string)
    ensures |r| >= 1
    ensures (r[0] == '-') <==> n < 0
  {
    if n < 0 then "-" + NatToString(-n) else NatToString(n)
  }

  // ---------------------------------------------------------------------
  // parseInt

  /** The value of `c` as a digit of base 36 (0-9, then a-z or A-Z). */
  function DigitOf(c: char): (r: Option<nat>)
    ensures r.Some? ==> r.value < 36
    ensures IsDigit(c) ==> r == Some(c as int - '0' as int)
    ensures !IsDigit(c) ==> r.None? || r.value >= 10
  {
    if IsDigit(c) then Some(c as int - '0' as int)
    else if 'a' <= c <= 'z' then Some(c as int - 'a' as int + 10)
    else if 'A' <= c <= 'Z' then Some(c as int - 'A' as int + 10)
    else None
  }

  predicate IsRadixDigit(c: char, radix: nat) {
    DigitOf(c).Some? && DigitOf(c).value < radix
  }

  /** The length of the run of base-`radix` digits that starts at `i`. */
  function DigitRun(s: string, i: nat, radix: nat): (n: nat)
    requires i <= |s|
    ensures i + n <= |s|
    ensures forall j :: i <= j < i + n ==> IsRadixDigit(s[j], radix)
    ensures i + n == |s| || !IsRadixDigit(s[i + n], radix)
    decreases |s| - i
  {
    if i < |s| && IsRadixDigit(s[i], radix) then 1 + DigitRun(s, i + 1, radix) else 0
  }

  /** The value of a digit character, in any base up to 36. */
  function DigitValue(c: char): nat {
    match DigitOf(c)
    case Some(v) => v
    case None => 0
  }

  /** The value of a string of base-`radix` digits. */
  function RadixValue(s: string, radix: nat): nat {
    if s == [] then 0 else RadixValue(s[..|s| - 1], radix) * radix + DigitValue(s[|s| - 1])
  }

  /** `parseInt(s)`: leading white space is skipped, then an optional sign,
      then a "0x"/"0X" prefix selects base 16; the longest run of digits
      that follows is read and the rest ignored. No digit at all gives NaN
      (`None`). */
  function ParseInt(s: string): Option<int> {
    var i := SkipSpace(s, 0);
    if i < |s| && s[i] == '-' then ParseMagnitude(s, i + 1, true)
    else if i < |s| && s[i] == '+' then ParseMagnitude(s, i + 1, false)
    else ParseMagnitude(s, i, false)
  }

  /** The part of `parseInt` after the sign, which starts at `j`. */
  function ParseMagnitude(s: string, j: nat, neg: bool): Option<int>
    requires j <= |s|
  {
    var hex := j + 2 <= |s| && s[j] == '0' && (s[j + 1] == 'x' || s[j + 1] == 'X');
    var v := if hex then ReadRun(s, j + 2, 16) else ReadRun(s, j, 10);
    if v.None? then None else Some(if neg then -(v.value as int) else v.value as int)
  }

  /** The longest run of base-`radix` digits from `k`, read as a number;
      nothing when there is no digit there. */
  function ReadRun(s: string, k: nat, radix: nat): Option<nat>
    requires k <= |s|
  {
    var n := DigitRun(s, k, radix);
    if n == 0 then None else Some(RadixValue(s[k..k + n], radix))
  }

  /** Read in base 10, a string of decimal digits has its decimal value. */
  lemma {:induction false} RadixTenIsDigitsValue(s: string)
    requires forall i :: 0 <= i < |s| ==> IsDigit(s[i])
    ensures RadixValue(s, 10) == DigitsValue(s)
  {
    if s != [] {
      RadixTenIsDigitsValue(s[..|s| - 1]);
    }
  }

  /** A run of decimal digits that ends at the end of `s` or before a
      non-digit is exactly the run `DigitRun` measures. */
  lemma DecimalRunAt(s: string, j: nat, d: string)
    requires j + |d| <= |s| && s[j..j + |d|] == d
    requires forall t :: 0 <= t < |d| ==> IsDigit(d[t])
    requires j + |d| == |s| || !IsDigit(s[j + |d|])
    ensures DigitRun(s, j, 10) == |d|
  {
  }

  /** After the sign, a decimal run (one not opening with "0x") gives the
      signed value of the run. */
  lemma ParseMagnitudeDecimal(s: string, j: nat, neg: bool, v: nat)
    requires j <= |s|
    requires j + 1 < |s| ==> s[j + 1] != 'x' && s[j + 1] != 'X'
    requires ReadRun(s, j, 10) == Some(v)
    ensures ParseMagnitude(s, j, neg) == Some(if neg then -(v as int) else v as int)
  {
  }

  /** A run of decimal digits that ends at the end of `s` or before a
      non-digit is read as its decimal value. */
  lemma ReadRunOfDigits(s: string, j: nat, d: string)
    requires |d| >= 1 && j + |d| <= |s| && s[j..j + |d|] == d
    requires forall t :: 0 <= t < |d| ==> IsDigit(d[t])
    requires j + |d| == |s| || !IsDigit(s[j + |d|])
    ensures ReadRun(s, j, 10) == Some(DigitsValue(d))
  {
    DecimalRunAt(s, j, d);
    RadixTenIsDigitsValue(d);
  }

  /** Text that opens with a sign or a digit is read from after the sign. */
  lemma ParseIntAtSign(s: string, j: nat)
    requires j <= 1 && j < |s| && IsDigit(s[j])
    requires j == 1 ==> s[0] == '-'
    ensures ParseInt(s) == ParseMagnitude(s, j, j == 1)
  {
    assert !IsSpace(s[0]);
    assert SkipSpace(s, 0) == 0;
    if j == 0 {
      assert s[0] != '-' && s[0] != '+';
    }
  }

  /** A sign (or none) and a run of decimal digits followed by text that
      does not continue the number are read as the signed decimal value. */
  lemma ParseIntOfSigned(sign: string, d: string, rest: string)
    requires sign == "" || sign == "-"
    requires |d| >= 1 && forall t :: 0 <= t < |d| ==> IsDigit(d[t])
    requires rest == [] || (!IsDigit(rest[0]) && rest[0] != 'x' && rest[0] != 'X')
    ensures ParseInt(sign + d + rest) == Some(if sign == "-" then -(DigitsValue(d) as int) else DigitsValue(d))
  {
    var s := sign + d + rest;
    var j := |sign|;
    assert s[j..j + |d|] == d;
    assert s[j] == d[0];
    assert j == 1 ==> s[0] == '-';
    ParseIntAtSign(s, j);
    assert j + 1 < |s| ==> s[j + 1] != 'x' && s[j + 1] != 'X' by {
      if j + 1 < |s| {
        if 1 < |d| { assert s[j + 1] == d[1]; } else { assert s[j + 1] == rest[0]; }
      }
    }
    assert j + |d| < |s| ==> s[j + |d|] == rest[0];
    DecimalAfterSign(s, j, d, sign == "-");
  }

  /** After the sign, a run of decimal digits not followed by another digit
      (and not opening with "0x") is read as a decimal number. */
  lemma DecimalAfterSign(s: string, j: nat, d: string, neg: bool)
    requires |d| >= 1 && j + |d| <= |s| && s[j..j + |d|] == d
    requires forall t :: 0 <= t < |d| ==> IsDigit(d[t])
    requires j + |d| == |s| || !IsDigit(s[j + |d|])
    requires j + 1 < |s| ==> s[j + 1] != 'x' && s[j + 1] != 'X'
    ensures ParseMagnitude(s, j, neg) == Some(if neg then -(DigitsValue(d) as int) else DigitsValue(d))
  {
    var v := DigitsValue(d);
    ReadRunOfDigits(s, j, d);
    ParseMagnitudeDecimal(s, j, neg, v);
  }

  /** `parseInt` reads back a rendered integer, whatever non-digit text
      follows it (other than an "x" that would turn a lone "0" into a
      hexadecimal prefix). */
  lemma ParseIntOfRendered(n: int, rest: string)
    requires rest == [] || (!IsDigit(rest[0]) && rest[0] != 'x' && rest[0] != 'X')
    ensures ParseInt(IntToString(n) + rest) == Some(n)
  {
    var m: nat := if n < 0 then -n else n;
    var sign := if n < 0 then "-" else "";
    var d := NatToString(m);
    assert IntToString(n) == sign + d;
    assert IntToString(n) + rest == sign + d + rest;
    NatToStringRoundTrip(m);
    ParseIntOfSigned(sign, d, rest);
  }

  // ---------------------------------------------------------------------
  // Number

  predicate AllDigits(s: string) {
    forall i :: 0 <= i < |s| ==> IsDigit(s[i])
  }

  /** `Number(s)` on the strings it reads as whole numbers written in
      decimal: an optional sign and at least one digit with white space
      around them, or white space alone, which reads as 0. `None` stands
      for every other string: those `Number` reads as NaN, and also the
      fractions, exponents, hexadecimal forms and "Infinity" that it reads
      as numbers. */
  function DecimalNumber(s: string): (r: Option<int>)
    ensures Trim(s) == [] ==> r == Some(0)
    ensures r.Some? && Trim(s) != [] ==> IsDigit(Trim(s)[|Trim(s)| - 1])
  {
    var t := Trim(s);
    if t == [] then Some(0)
    else if (t[0] == '-' || t[0] == '+') && |t| >= 2 && AllDigits(t[1..]) then
      assert IsDigit(t[1..][|t| - 2]);
      Some(if t[0] == '-' then -(DigitsValue(t[1..]) as int) else DigitsValue(t[1..]))
    else if AllDigits(t) then Some(DigitsValue(t))
    else None
  }

  /** `Number` reads back a rendered integer. */
  lemma DecimalNumberOfRendered(n: int)
    ensures DecimalNumber(IntToString(n)) == Some(n)
  {
    var t := IntToString(n);
    var m: nat := if n < 0 then -n else n;
    var d := NatToString(m);
    NatToStringRoundTrip(m);
    assert !IsSpace(t[0]) && !IsSpace(t[|t| - 1]) by {
      if n < 0 { assert t[0] == '-' && t[1..] == d && t[|t| - 1] == d[|d| - 1]; }
    }
    TrimmedIsFixed(t);
    if n < 0 {
      assert t[1..] == d;
    }
  }

  /** A non-blank string `Number` reads as a whole number is, once
      trimmed, an optional sign `t[..k]` and the digits `t[k..]`. */
  lemma DecimalShape(s: string) returns (k: nat)
    requires DecimalNumber(s).Some? && Trim(s) != []
    ensures var t := Trim(s);
      && k <= 1 && k < |t| && AllDigits(t[k..])
      && (k == 1 ==> t[0] == '-' || t[0] == '+')
      && DecimalNumber(s) == Some(if k == 1 && t[0] == '-' then -(DigitsValue(t[k..]) as int) else DigitsValue(t[k..]))
  {
    var t := Trim(s);
    if (t[0] == '-' || t[0] == '+') && |t| >= 2 && AllDigits(t[1..]) {
      k := 1;
    } else {
      k := 0;
      assert t[0..] == t;
    }
  }

  /** Where `Number` reads a string as a whole number, other than a blank
      one, `parseInt` reads the same number from it. */
  lemma DecimalNumberIsParseInt(s: string)
    requires DecimalNumber(s).Some? && Trim(s) != []
    ensures ParseInt(s) == DecimalNumber(s)
  {
    var b, j, d, neg := PaddedShape(s);
    ParseIntOfPadded(s, b, j, d, neg);
  }

  /** The same shape located in `s` itself: white space up to `b`, the
      sign (if any) at `b`, the digits `d` from `j`, then white space. */
  lemma PaddedShape(s: string) returns (b: nat, j: nat, d: string, neg: bool)
    requires DecimalNumber(s).Some? && Trim(s) != []
    ensures b == SkipSpace(s, 0) && (j == b || j == b + 1)
    ensures |d| >= 1 && AllDigits(d) && j + |d| <= |s| && s[j..j + |d|] == d
    ensures j + |d| < |s| ==> IsSpace(s[j + |d|])
    ensures j == b ==> !neg
    ensures j == b + 1 ==> (s[b] == '-' && neg) || (s[b] == '+' && !neg)
    ensures DecimalNumber(s) == Some(if neg then -(DigitsValue(d) as int) else DigitsValue(d))
  {
    var k := DecimalShape(s);
    var t := Trim(s);
    b := SkipSpace(s, 0);
    j := b + k;
    d := t[k..];
    neg := k == 1 && t[0] == '-';
    InnerSlice(s, b, t, k);
    assert s[b] == t[0];
  }

  /** A suffix of a slice of `s` is a slice of `s`. */
  lemma InnerSlice<T>(s: seq<T>, b: nat, t: seq<T>, k: nat)
    requires b + |t| <= |s| && t == s[b..b + |t|] && k <= |t|
    ensures s[b + k..b + |t|] == t[k..]
  {
  }

  /** `parseInt` of text that is white space, an optional sign at `b`, the
      digits `d` from `j`, then white space or nothing. */
  lemma ParseIntOfPadded(s: string, b: nat, j: nat, d: string, neg: bool)
    requires b == SkipSpace(s, 0) && (j == b || j == b + 1)
    requires |d| >= 1 && AllDigits(d) && j + |d| <= |s| && s[j..j + |d|] == d
    requires j + |d| < |s| ==> IsSpace(s[j + |d|])
    requires j == b ==> !neg
    requires j == b + 1 ==> (s[b] == '-' && neg) || (s[b] == '+' && !neg)
    ensures ParseInt(s) == Some(if neg then -(DigitsValue(d) as int) else DigitsValue(d))
  {
    var e := j + |d|;
    if e < |s| {
      SpaceEndsNumber(s[e]);
    }
    if j + 1 < |s| && 1 < |d| {
      assert s[j + 1] == d[1];
    }
    DecimalAfterSign(s, j, d, neg);
    if j == b {
      assert s[b] == d[0];
      assert s[b] != '-' && s[b] != '+';
    }
  }

  /** White space ends a run of digits, and is no hexadecimal "x". */
  lemma SpaceEndsNumber(c: char)
    requires IsSpace(c)
    ensures !IsDigit(c) && c != 'x' && c != 'X'
  {
  }

  /** `parseInt` finds no number in a blank string, where `Number`
      finds 0. */
  lemma ParseIntOfBlank(s: string)
    ensures Trim(s) == [] ==> ParseInt(s).None?
  {
    if Trim(s) == [] {
      assert SkipSpace(s, 0) == |s|;
    }
  }

  /** `parseInt` of a query parameter, or its default when it is absent. */
  function ParamOr(param: Option<string>, default: int): (r: Option<int>)
    ensures param.None? ==> r == Some(default)
  {
    if param.Some? then ParseInt(param.value) else Some(default)
  }

  /** A query parameter as arithmetic coerces it (`Number`), or its
      default when it is absent. */
  function NumberOr(param: Option<string>, default: int): (r: Option<int>)
    ensures param.None? ==> r == Some(default)
  {
    if param.Some? then DecimalNumber(param.value) else Some(default)
  }

  /** `parts.join(sep)`. */
  function Join(parts: seq<string>, sep: string): (r: string)
    ensures parts == [] ==> r == ""
    ensures |parts| == 1 ==> r == parts[0]
  {
    if parts == [] then ""
    else if |parts| == 1 then parts[0]
    else parts[0] + sep + Join(parts[1..], sep)
  }

  predicate EndsWith(s: string, suffix: string) {
    |suffix| <= |s| && s[|s| - |suffix|..] == suffix
  }

  // ---------------------------------------------------------------------
  // Lever-name rendering: name.replace(/([A-Z])/g, ' $1').toLowerCase()

  predicate IsUpper(c: char) { 'A' <= c <= 'Z' }

  predicate IsLower(c: char) { 'a' <= c <= 'z' }

  function ToLowerChar(c: char): (d: char)
    ensures IsUpper(c) ==> IsLower(d)
    ensures !IsUpper(c) ==> d == c
  {
    if IsUpper(c) then (c as int + 32) as char else c
  }

  function ToUpperChar(c: char): (d: char)
    ensures IsLower(c) ==> IsUpper(d)
    ensures !IsLower(c) ==> d == c
  {
    if IsLower(c) then (c as int - 32) as char else c
  }

  /** `s.toLowerCase()` on the ASCII letters. */
  function ToLower(s: string): (r: string)
    ensures |r| == |s|
    ensures forall i :: 0 <= i < |r| ==> !IsUpper(r[i])
  {
    seq(|s|, i requires 0 <= i < |s| => ToLowerChar(s[i]))
  }

  /** `s.replace(/([A-Z])/g, ' $1')`: a space in front of every capital. */
  function SpaceBeforeCapitals(s: string): string {
    if s == [] then []
    else (if IsUpper(s[0]) then [' ', s[0]] else [s[0]]) + SpaceBeforeCapitals(s[1..])
  }

  /** How a lever's camel-case key is rendered in suggestion text. */
  function Humanize(name: string): string {
    ToLower(SpaceBeforeCapitals(name))
  }

  /** The reverse rendering: a space followed by a lower-case letter becomes
      that letter in upper case. */
  function Camelize(t: string): string {
    if |t| >= 2 && t[0] == ' ' && IsLower(t[1]) then [ToUpperChar(t[1])] + Camelize(t[2..])
    else if t == [] then []
    else [t[0]] + Camelize(t[1..])
  }

  /** For a name without spaces, the rendering loses nothing: camel-casing
      the rendered text gives the name back. */
  lemma {:induction false} HumanizeRoundTrip(name: string)
    requires forall i :: 0 <= i < |name| ==> name[i] != ' '
    ensures Camelize(Humanize(name)) == name
  {
    if name != [] {
      var c, rest := name[0], name[1..];
      HumanizeRoundTrip(rest);
      var head := if IsUpper(c) then [' ', c] else [c];
      assert SpaceBeforeCapitals(name) == head + SpaceBeforeCapitals(rest);
      assert ToLower(head + SpaceBeforeCapitals(rest)) == ToLower(head) + ToLower(SpaceBeforeCapitals(rest));
      var t := Humanize(name);
      if IsUpper(c) {
        assert t == [' ', ToLowerChar(c)] + Humanize(rest);
        assert t[2..] == Humanize(rest);
      } else {
        assert t == [c] + Humanize(rest);
        assert t[1..] == Humanize(rest);
      }
    }
  }

  /** The rendering contains no capital letters. */
  lemma HumanizeIsLowerCase(name: string)
    ensures forall i :: 0 <= i < |Humanize(name)| ==> !IsUpper(Humanize(name)[i])
  {
  }
}
