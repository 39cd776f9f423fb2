/**
 * Text helpers shared by the Python services and the browser client:
 * decimal rendering of integers (Python f-strings and JavaScript template
 * literals), JavaScript's `String.prototype.trim` whitespace class,
 * JavaScript's `parseInt(text)` without a radix, and join/split on one
 * separator character.
 */
module Texts {
  import opened Wrappers

  function DigitChar(d: nat): (c: char)
    requires d < 10
  {
    ('0' as int + d) as char
  }

  /** Value of one digit in base 16 or less; 16 for a character that is no digit. */
  function DigitValue(c: char): (v: nat)
    ensures v <= 16
  {
    if '0' <= c <= '9' then c as int - '0' as int
    else if 'a' <= c <= 'f' then c as int - 'a' as int + 10
    else if 'A' <= c <= 'F' then c as int - 'A' as int + 10
    else 16
  }

  /** Decimal digits of `n`, most significant first, without leading zeros. */
  function NatToString(n: nat): (s: string)
    ensures |s| > 0
    ensures forall i :: 0 <= i < |s| ==> '0' <= s[i] <= '9'
    ensures |s| > 1 ==> s[0] != '0'
    decreases n
  {
    if n < 10 then [DigitChar(n)] else NatToString(n / 10) + [DigitChar(n % 10)]
  }

  function IntToString(i: int): (t: string) {
    if i < 0 then "-" + NatToString(-i) else NatToString(i)
  }

  /** Python's `str.lower()` on ASCII letters; other characters are kept. */
  function AsciiLower(s: string): (r: string)
    ensures |r| == |s|
  {
    seq(|s|, i requires 0 <= i < |s| => if 'A' <= s[i] <= 'Z' then (s[i] as int + 32) as char else s[i])
  }

  /** The characters JavaScript's `trim` and `parseInt` skip: WhiteSpace and LineTerminator. */
  predicate IsJsWhitespace(c: char) {
    var k := c as int;
    (9 <= k <= 13) || k == 0x20 || k == 0xA0 || k == 0x1680 || (0x2000 <= k <= 0x200A)
    || k == 0x2028 || k == 0x2029 || k == 0x202F || k == 0x205F || k == 0x3000 || k == 0xFEFF
  }

  /** `!s.trim()` in JavaScript: the text is empty once surrounding whitespace is removed. */
  predicate IsBlank(s: string) {
    forall i :: 0 <= i < |s| ==> IsJsWhitespace(s[i])
  }

  function TrimStart(s: string): (r: string)
    ensures |r| <= |s|
    ensures |r| > 0 ==> !IsJsWhitespace(r[0])
    ensures r == [] <==> IsBlank(s)
  {
    if |s| > 0 && IsJsWhitespace(s[0]) then TrimStart(s[1..]) else s
  }

  /** Trimming only removes a prefix of whitespace. */
  lemma {:induction false} TrimStartIsSuffix(s: string)
    ensures TrimStart(s) == s[|s| - |TrimStart(s)|..]
    ensures IsBlank(s[..|s| - |TrimStart(s)|])
  {
    if |s| > 0 && IsJsWhitespace(s[0]) {
      TrimStartIsSuffix(s[1..]);
      var k := |s| - |TrimStart(s)|;
      assert s[1..][..k - 1] == s[1..k];
    }
  }

  /** Length of the longest prefix of `s` made of digits of `base`. */
  function DigitPrefixLength(s: string, base: nat): (n: nat)
    ensures n <= |s|
    ensures forall i :: 0 <= i < n ==> DigitValue(s[i]) < base
    ensures n < |s| ==> DigitValue(s[n]) >= base
  {
    if |s| > 0 && DigitValue(s[0]) < base then 1 + DigitPrefixLength(s[1..], base) else 0
  }

  /** Value of a digit string in `base`, most significant digit first. */
  function DigitsValue(s: string, base: nat): (v: nat)
    requires forall i :: 0 <= i < |s| ==> DigitValue(s[i]) < base
  {
    if s == [] then 0 else DigitsValue(s[..|s| - 1], base) * base + DigitValue(s[|s| - 1])
  }

  /**
   * JavaScript `parseInt(s)` with no radix: leading whitespace is skipped, one
   * sign is accepted, and the rest is read by `ParseUnsigned`; no digit at all
   * gives NaN (None).
   */
  function ParseInt(s: string): (r: Option<int>)
  {
    SignedValue(TrimStart(s))
  }

  /** The value of trimmed text: an optional sign, then what `ParseUnsigned` reads. */
  function SignedValue(t: string): (v: Option<int>) {
    var negative := |t| > 0 && t[0] == '-';
    var u := if |t| > 0 && (t[0] == '-' || t[0] == '+') then t[1..] else t;
    match ParseUnsigned(u)
    case None => None
    case Some(v) => Some(if negative then -(v as int) else v as int)
  }

  /** A "0x"/"0X" prefix selects base 16; the longest run of digits that follows is read. */
  function ParseUnsigned(u: string): (r: Option<nat>)
  {
    var hex := |u| >= 2 && u[0] == '0' && (u[1] == 'x' || u[1] == 'X');
    var base := if hex then 16 else 10;
    var w := if hex then u[2..] else u;
    var n := DigitPrefixLength(w, base);
    if n == 0 then None else Some(DigitsValue(w[..n], base))
  }

  lemma {:induction false} DigitsValueOfNatToString(n: nat)
    ensures DigitsValue(NatToString(n), 10) == n
    decreases n
  {
    var s := NatToString(n);
    if n < 10 {
      assert s[..|s| - 1] == [];
    } else {
      DigitsValueOfNatToString(n / 10);
      assert s[..|s| - 1] == NatToString(n / 10);
    }
  }

  lemma DigitPrefixOfNatToString(n: nat)
    ensures DigitPrefixLength(NatToString(n), 10) == |NatToString(n)|
  {
  }

  /** A decimal rendering has no "0x" prefix and is read back whole. */
  lemma ParseUnsignedOfNatToString(n: nat)
    ensures ParseUnsigned(NatToString(n)) == Some(n)
  {
    var d := NatToString(n);
    assert !(|d| >= 2 && d[0] == '0');
    DigitPrefixOfNatToString(n);
    assert d[..|d|] == d;
    DigitsValueOfNatToString(n);
  }

  /** Text starting with a digit is read by `ParseUnsigned` as is. */
  lemma ParseIntOfDigits(u: string)
    requires |u| > 0 && '0' <= u[0] <= '9'
    ensures ParseInt(u) == (match ParseUnsigned(u) case None => None case Some(v) => Some(v as int))
  {
    assert !IsJsWhitespace(u[0]);
    assert TrimStart(u) == u;
  }

  /** With a '-' in front of its first digit, the value is negated. */
  lemma ParseIntOfNegatedDigits(u: string)
    requires |u| > 0 && '0' <= u[0] <= '9'
    ensures ParseInt("-" + u) == (match ParseUnsigned(u) case None => None case Some(v) => Some(-(v as int)))
  {
    var s := "-" + u;
    assert !IsJsWhitespace(s[0]);
    assert TrimStart(s) == s;
    NegatedValue(u);
  }

  lemma NegatedValue(u: string)
    ensures SignedValue("-" + u) == (match ParseUnsigned(u) case None => None case Some(v) => Some(-(v as int)))
  {
    var s := "-" + u;
    assert s[0] == '-' && s[1..] == u;
  }

  /** Reading back a rendered integer gives the integer: `parseInt(String(i)) === i`. */
  lemma ParseIntOfIntToString(i: int)
    ensures ParseInt(IntToString(i)) == Some(i)
  {
    var n: nat := if i < 0 then -i else i;
    ParseUnsignedOfNatToString(n);
    if i < 0 {
      ParseIntOfNegatedDigits(NatToString(n));
    } else {
      ParseIntOfDigits(NatToString(n));
    }
  }

  function Join(parts: seq<string>, sep: char): (joined: string)
  {
    if |parts| == 0 then "" else if |parts| == 1 then parts[0] else parts[0] + [sep] + Join(parts[1..], sep)
  }

  function FirstIndexOf(s: string, c: char): (k: nat)
    requires c in s
    ensures k < |s| && s[k] == c && c !in s[..k]
  {
    if s[0] == c then 0 else 1 + FirstIndexOf(s[1..], c)
  }

  /** `s.split(sep)`: the pieces between separators, always at least one. */
  function Split(s: string, sep: char): (parts: seq<string>)
    ensures |parts| > 0
    decreases |s|
  {
    if sep !in s then [s]
    else
      var k := FirstIndexOf(s, sep);
      [s[..k]] + Split(s[k + 1..], sep)
  }

  /** Splitting a join at the separator gives back the parts, when no part holds the separator. */
  lemma {:induction false} SplitJoin(parts: seq<string>, sep: char)
    requires |parts| > 0
    requires forall i :: 0 <= i < |parts| ==> sep !in parts[i]
    ensures Split(Join(parts, sep), sep) == parts
  {
    if |parts| > 1 {
      var j := Join(parts, sep);
      var rest := Join(parts[1..], sep);
      assert j == parts[0] + [sep] + rest;
      assert j[|parts[0]|] == sep;
      assert j[..|parts[0]|] == parts[0];
      assert sep !in j[..|parts[0]|];
      assert j[|parts[0]| + 1..] == rest;
      SplitJoin(parts[1..], sep);
    }
  }

  /** Python's `a < b` on strings: code-point lexicographic order. */
  predicate Before(a: string, b: string) {
    if a == [] then b != []
    else if b == [] then false
    else if a[0] != b[0] then a[0] < b[0]
    else Before(a[1..], b[1..])
  }

  lemma {:induction false} BeforeIrreflexive(a: string)
    ensures !Before(a, a)
  {
    if a != [] {
      BeforeIrreflexive(a[1..]);
    }
  }

  lemma {:induction false} BeforeTransitive(a: string, b: string, c: string)
    requires Before(a, b) && Before(b, c)
    ensures Before(a, c)
  {
    if a != [] && b != [] && c != [] && a[0] == b[0] && b[0] == c[0] {
      BeforeTransitive(a[1..], b[1..], c[1..]);
    }
  }

  lemma {:induction false} BeforeTotal(a: string, b: string)
    requires a != b
    ensures Before(a, b) || Before(b, a)
  {
    if a != [] && b != [] && a[0] == b[0] {
      assert a == [a[0]] + a[1..] && b == [b[0]] + b[1..];
      BeforeTotal(a[1..], b[1..]);
    }
  }
}
