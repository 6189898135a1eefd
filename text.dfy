/** Text helpers for the string conversions the source performs implicitly:
    decimal rendering of numbers, `String.prototype.trim`, `Array.prototype.join`,
    ASCII upper-casing of method names and counting characters. */
module Text {

  predicate IsDigit(c: char) { '0' <= c <= '9' }

  predicate AllDigits(s: string) { forall i :: 0 <= i < |s| ==> IsDigit(s[i]) }

  function DigitChar(d: nat): (c: char)
    requires d < 10
    ensures IsDigit(c) && (c as int) - ('0' as int) == d
  {
    (('0' as int) + d) as char
  }

  /** Decimal rendering of a natural number, without leading zeros. */
  function NatToString(n: nat): (s: string)
    ensures |s| > 0 && AllDigits(s)
    ensures n == 0 <==> s == "0"
    ensures |s| > 1 ==> s[0] != '0'
  {
    if n < 10 then [DigitChar(n)] else NatToString(n / 10) + [DigitChar(n % 10)]
  }

  /** Value of a string of decimal digits. */
  function DigitsValue(s: string): nat
    requires AllDigits(s)
  {
    if s == [] then 0
    else DigitsValue(s[..|s| - 1]) * 10 + ((s[|s| - 1] as int) - ('0' as int))
  }

  /** Reading back what NatToString wrote gives the number again. */
  lemma {:induction false} NatToStringRoundTrip(n: nat)
    ensures DigitsValue(NatToString(n)) == n
  {
    if n >= 10 {
      var s := NatToString(n);
      assert s[..|s| - 1] == NatToString(n / 10);
      NatToStringRoundTrip(n / 10);
    }
  }

  /** Decimal rendering of an integer as JavaScript's and Python's `String(n)` / `str(n)`. */
  function IntToString(i: int): (s: string)
    ensures |s| > 0
    ensures i >= 0 ==> s == NatToString(i)
    ensures i < 0 ==> s == "-" + NatToString(-i)
  {
    if i >= 0 then NatToString(i) else "-" + NatToString(-i)
  }

  /** Distinct integers have distinct decimal renderings. */
  lemma IntToStringInjective(a: int, b: int)
    requires IntToString(a) == IntToString(b)
    ensures a == b
  {
    var sa, sb := IntToString(a), IntToString(b);
    if a >= 0 && b >= 0 {
      NatToStringRoundTrip(a);
      NatToStringRoundTrip(b);
    } else if a < 0 && b < 0 {
      assert sa[1..] == NatToString(-a) && sb[1..] == NatToString(-b);
      NatToStringRoundTrip(-a);
      NatToStringRoundTrip(-b);
    }
  }

  /** `String(true)` and `String(false)`. */
  function BoolToString(b: bool): (s: string)
    ensures s == "true" || s == "false"
    ensures b <==> s == "true"
  {
    if b then "true" else "false"
  }

  /** The characters ECMAScript's WhiteSpace and LineTerminator productions name,
      which is what `trim` removes. */
  predicate IsJsWhitespace(c: char) {
    c == '\t' || c == '\n' || c == '\U{000B}' || c == '\U{000C}' || c == '\r' || c == ' '
    || c == '\U{00A0}' || c == '\U{1680}' || ('\U{2000}' <= c <= '\U{200A}')
    || c == '\U{2028}' || c == '\U{2029}' || c == '\U{202F}' || c == '\U{205F}'
    || c == '\U{3000}' || c == '\U{FEFF}'
  }

  predicate AllJsWhitespace(s: string) { forall i :: 0 <= i < |s| ==> IsJsWhitespace(s[i]) }

  /** Number of white-space characters at the start of `s`. */
  function LeadingBlanks(s: string): (k: nat)
    ensures k <= |s| && AllJsWhitespace(s[..k])
    ensures k < |s| ==> !IsJsWhitespace(s[k])
  {
    if s == [] || !IsJsWhitespace(s[0]) then 0
    else
      var k := LeadingBlanks(s[1..]);
      assert s[..k + 1] == [s[0]] + s[1..][..k];
      k + 1
  }

  /** Number of white-space characters at the end of `s`. */
  function TrailingBlanks(s: string): (k: nat)
    ensures k <= |s| && forall i :: |s| - k <= i < |s| ==> IsJsWhitespace(s[i])
    ensures k < |s| ==> !IsJsWhitespace(s[|s| - 1 - k])
  {
    if s == [] || !IsJsWhitespace(s[|s| - 1]) then 0
    else TrailingBlanks(s[..|s| - 1]) + 1
  }

  /** `String.prototype.trim`: the slice of `s` left once its white-space prefix and
      suffix are cut off; neither end of the result is white space. It is empty exactly
      when `s` is all white space. */
  function Trim(s: string): (r: string)
    ensures exists a, b :: 0 <= a <= b <= |s| && r == s[a..b] && AllJsWhitespace(s[..a]) && AllJsWhitespace(s[b..])
    ensures r == "" <==> AllJsWhitespace(s)
    ensures r != "" ==> !IsJsWhitespace(r[0]) && !IsJsWhitespace(r[|r| - 1])
    ensures |r| <= |s|
  {
    var a := LeadingBlanks(s);
    var t := s[a..];
    var b := TrailingBlanks(t);
    if a == |s| then
      assert s == s[..a];
      assert s[a..a] == "" && AllJsWhitespace(s[a..]);
      ""
    else
      assert t[0] == s[a] && !IsJsWhitespace(t[0]);
      assert b < |t|;
      var r := t[..|t| - b];
      var e := a + |r|;
      assert r == s[a..e];
      assert AllJsWhitespace(s[e..]) by {
        forall i | 0 <= i < |s| - e ensures IsJsWhitespace(s[e..][i]) {
          assert s[e..][i] == t[|t| - b + i];
        }
      }
      assert r[0] == t[0];
      r
  }

  /** `Array.prototype.join(sep)` over strings. */
  function Join(parts: seq<string>, sep: string): (r: string)
    ensures parts == [] ==> r == ""
    ensures |parts| == 1 ==> r == parts[0]
  {
    if parts == [] then ""
    else if |parts| == 1 then parts[0]
    else Join(parts[..|parts| - 1], sep) + sep + parts[|parts| - 1]
  }

  /** Number of occurrences of `c` in `s`. */
  function CountChar(s: string, c: char): (n: nat)
    ensures n <= |s|
  {
    if s == [] then 0 else CountChar(s[..|s| - 1], c) + (if s[|s| - 1] == c then 1 else 0)
  }

  lemma {:induction false} CountCharAppend(a: string, b: string, c: char)
    ensures CountChar(a + b, c) == CountChar(a, c) + CountChar(b, c)
  {
    if b == [] {
      assert a + b == a;
    } else {
      assert (a + b)[..|a + b| - 1] == a + b[..|b| - 1];
      CountCharAppend(a, b[..|b| - 1], c);
    }
  }

  lemma {:induction false} CountCharAbsent(s: string, c: char)
    requires forall i :: 0 <= i < |s| ==> s[i] != c
    ensures CountChar(s, c) == 0
  {
    if s != [] { CountCharAbsent(s[..|s| - 1], c); }
  }

  lemma JoinAppend(parts: seq<string>, sep: string, extra: string)
    requires parts != []
    ensures Join(parts + [extra], sep) == Join(parts, sep) + sep + extra
  {
    assert (parts + [extra])[..|parts + [extra]| - 1] == parts;
  }

  function UpperChar(c: char): (u: char)
    ensures !('a' <= c <= 'z') ==> u == c
    ensures 'a' <= c <= 'z' ==> 'A' <= u <= 'Z'
  {
    if 'a' <= c <= 'z' then ((c as int) - 32) as char else c
  }

  /** ASCII case of `toUpperCase` / `upper()`: applied only to the fixed method names. */
  function ToUpper(s: string): (r: string)
    ensures |r| == |s|
    ensures forall i :: 0 <= i < |s| ==> r[i] == UpperChar(s[i])
  {
    seq(|s|, i requires 0 <= i < |s| => UpperChar(s[i]))
  }

  /** Everything before the first occurrence of `c`: `s.split(c)[0]`. */
  function BeforeFirst(s: string, c: char): (r: string)
    ensures |r| <= |s| && r == s[..|r|]
    ensures forall i :: 0 <= i < |r| ==> r[i] != c
    ensures |r| < |s| ==> s[|r|] == c
  {
    if s == [] then "" else if s[0] == c then "" else [s[0]] + BeforeFirst(s[1..], c)
  }

  /** `str.rstrip('/')`: drop every trailing slash. */
  function StripTrailingSlashes(s: string): (r: string)
    ensures |r| <= |s| && r == s[..|r|]
    ensures r == "" || r[|r| - 1] != '/'
    ensures forall i :: |r| <= i < |s| ==> s[i] == '/'
  {
    if s == [] then s
    else if s[|s| - 1] == '/' then StripTrailingSlashes(s[..|s| - 1])
    else s
  }

  // ------------------------------------------------------------------
  // Shapes of generated strings

  predicate IsAlphanumeric(c: char) { ('a' <= c <= 'z') || ('A' <= c <= 'Z') || IsDigit(c) }

  predicate IsHex(c: char) { IsDigit(c) || ('a' <= c <= 'f') }

  /** `YYYY-MM-DD` */
  predicate IsIsoDate(s: string) {
    |s| == 10 && s[4] == '-' && s[7] == '-'
    && forall i :: 0 <= i < 10 && i != 4 && i != 7 ==> IsDigit(s[i])
  }

  /** `Date.prototype.toISOString` of a recent date: `YYYY-MM-DDTHH:mm:ss.sssZ` */
  predicate IsIsoTimestamp(s: string) {
    |s| == 24 && IsIsoDate(s[..10]) && s[10] == 'T' && s[13] == ':' && s[16] == ':'
    && s[19] == '.' && s[23] == 'Z'
    && forall i :: 10 < i < 23 && i != 13 && i != 16 && i != 19 ==> IsDigit(s[i])
  }

  /** A version-4 UUID: `xxxxxxxx-xxxx-4xxx-yxxx-xxxxxxxxxxxx` with `y` in 8, 9, a, b. */
  predicate IsUuidV4(s: string) {
    |s| == 36 && s[8] == '-' && s[13] == '-' && s[18] == '-' && s[23] == '-'
    && s[14] == '4' && (s[19] == '8' || s[19] == '9' || s[19] == 'a' || s[19] == 'b')
    && forall i :: 0 <= i < 36 && i != 8 && i != 13 && i != 18 && i != 23 ==> IsHex(s[i])
  }
}
