/** The JavaScript string operations the core relies on: character classes of
    regular expressions, `toLowerCase`, `includes`, `startsWith`, `trim`,
    `slice`, `parseInt`, `parseFloat`, number-to-text for integers, and the
    code-unit order of the default `Array.prototype.sort`. */
module Text {
  import opened Wrappers

  // ---------------------------------------------------------------------------
  // Character classes

  predicate IsDigit(c: char) { '0' <= c <= '9' }

  predicate IsHexDigit(c: char) { IsDigit(c) || 'a' <= c <= 'f' || 'A' <= c <= 'F' }

  /** LineTerminator: what `.` in a regular expression does not match. */
  predicate IsLineTerminator(c: char) {
    c == '\n' || c == '\r' || c == '\U{2028}' || c == '\U{2029}'
  }

  /** WhiteSpace or LineTerminator: the class `\s`, and what `trim`,
      `parseInt` and `parseFloat` skip. */
  predicate IsSpace(c: char) {
    || c == '\t' || c == '\U{B}' || c == '\U{C}' || c == ' ' || c == '\U{A0}'
    || c == '\U{1680}' || ('\U{2000}' <= c <= '\U{200A}') || c == '\U{202F}'
    || c == '\U{205F}' || c == '\U{3000}' || c == '\U{FEFF}'
    || IsLineTerminator(c)
  }

  predicate AllDigits(s: string) { forall i :: 0 <= i < |s| ==> IsDigit(s[i]) }

  function DigitValue(c: char): (d: nat)
    requires IsDigit(c)
    ensures d < 10
  {
    (c as int) - ('0' as int)
  }

  function HexDigitValue(c: char): (d: nat)
    requires IsHexDigit(c)
    ensures d < 16
  {
    if IsDigit(c) then DigitValue(c)
    else if 'a' <= c <= 'f' then (c as int) - ('a' as int) + 10
    else (c as int) - ('A' as int) + 10
  }

  function DigitChar(d: nat): (c: char)
    requires d < 10
    ensures IsDigit(c) && DigitValue(c) == d
  {
    ((d + '0' as int) as char)
  }

  // ---------------------------------------------------------------------------
  // Case

  /** `toLowerCase` on one character, for the ASCII letters. */
  function LowerChar(c: char): char {
    if 'A' <= c <= 'Z' then ((c as int) + 32) as char else c
  }

  /** `s.toLowerCase()` for the ASCII letters. */
  function Lower(s: string): (r: string)
    ensures |r| == |s|
    ensures forall i :: 0 <= i < |s| ==> r[i] == LowerChar(s[i])
  {
    if s == [] then [] else [LowerChar(s[0])] + Lower(s[1..])
  }

  /** What lowering does to each character. */
  lemma LowerFolds(s: string)
    ensures forall i :: 0 <= i < |Lower(s)| ==> !('A' <= Lower(s)[i] <= 'Z')
    ensures forall i :: 0 <= i < |s| && 'A' <= s[i] <= 'Z' ==> Lower(s)[i] as int == s[i] as int + 32
    ensures forall i :: 0 <= i < |s| && !('A' <= s[i] <= 'Z') ==> Lower(s)[i] == s[i]
  {
  }

  // ---------------------------------------------------------------------------
  // Searching

  /** `s.startsWith(p)`. */
  predicate StartsWith(s: string, p: string) {
    |p| <= |s| && s[..|p|] == p
  }

  /** `s.includes(sub)`. */
  predicate Contains(s: string, sub: string)
    decreases |s|
  {
    StartsWith(s, sub) || (|s| > 0 && Contains(s[1..], sub))
  }

  /** `sub` occurs in `s` at index `i`. */
  predicate OccursAt(s: string, sub: string, i: int) {
    0 <= i && i + |sub| <= |s| && s[i..i + |sub|] == sub
  }

  /** `includes` holds exactly when `sub` occurs at some index. */
  lemma {:induction false} ContainsIff(s: string, sub: string)
    ensures Contains(s, sub) <==> exists i :: OccursAt(s, sub, i)
  {
    if StartsWith(s, sub) {
      assert OccursAt(s, sub, 0);
    } else if |s| > 0 {
      ContainsIff(s[1..], sub);
      if Contains(s[1..], sub) {
        var i :| OccursAt(s[1..], sub, i);
        assert s[i + 1..i + 1 + |sub|] == s[1..][i..i + |sub|];
        assert OccursAt(s, sub, i + 1);
      }
      if exists i :: OccursAt(s, sub, i) {
        var i :| OccursAt(s, sub, i);
        assert i != 0;
        assert s[1..][i - 1..i - 1 + |sub|] == s[i..i + |sub|];
        assert OccursAt(s[1..], sub, i - 1);
      }
    }
  }

  lemma ContainsAt(s: string, sub: string, i: nat)
    requires OccursAt(s, sub, i)
    ensures Contains(s, sub)
  {
    ContainsIff(s, sub);
  }

  /** Every string includes the empty string. */
  lemma ContainsEmpty(s: string)
    ensures Contains(s, "")
  {
    assert StartsWith(s, "");
  }

  // ---------------------------------------------------------------------------
  // Runs of characters, `trim`, `slice`

  /** Length of the longest run of characters in class `cls` starting at `p`. */
  function Run(s: string, p: nat, cls: char -> bool): (n: nat)
    requires p <= |s|
    ensures p + n <= |s|
    ensures forall i :: p <= i < p + n ==> cls(s[i])
    ensures p + n == |s| || !cls(s[p + n])
    decreases |s| - p
  {
    if p == |s| || !cls(s[p]) then 0 else 1 + Run(s, p + 1, cls)
  }

  /** Length of the longest run of characters in class `cls` ending `s`. */
  function RunBack(s: string, cls: char -> bool): (n: nat)
    ensures n <= |s|
    ensures forall i :: |s| - n <= i < |s| ==> cls(s[i])
    ensures n == |s| || !cls(s[|s| - n - 1])
  {
    if s == [] || !cls(s[|s| - 1]) then 0 else 1 + RunBack(s[..|s| - 1], cls)
  }

  /** `trim()`: white space and line terminators removed from both ends. */
  function Trim(s: string): string {
    var a := Run(s, 0, IsSpace);
    var t := s[a..];
    t[..|t| - RunBack(t, IsSpace)]
  }

  /** What `trim` returns: the slice of `s` that starts and ends with a
      non-space character, everything cut off being white space. */
  lemma TrimIsInnerSlice(s: string)
    ensures exists i, j :: (0 <= i <= j <= |s| && Trim(s) == s[i..j]
      && (forall k :: 0 <= k < i ==> IsSpace(s[k]))
      && (forall k :: j <= k < |s| ==> IsSpace(s[k])))
    ensures Trim(s) == [] || (!IsSpace(Trim(s)[0]) && !IsSpace(Trim(s)[|Trim(s)| - 1]))
  {
    var a := Run(s, 0, IsSpace);
    var t := s[a..];
    var b := RunBack(t, IsSpace);
    assert Trim(s) == s[a..|s| - b];
    forall k | |s| - b <= k < |s| ensures IsSpace(s[k]) {
      assert t[k - a] == s[k];
    }
    if Trim(s) != [] {
      assert a < |s|;
      assert Trim(s)[0] == s[a];
      assert Trim(s)[|Trim(s)| - 1] == t[|t| - b - 1];
    }
  }

  /** `trim` leaves a text that neither starts nor ends with white space. */
  lemma TrimPlain(s: string)
    requires |s| > 0 && !IsSpace(s[0]) && !IsSpace(s[|s| - 1])
    ensures Trim(s) == s
  {
    assert Run(s, 0, IsSpace) == 0;
    assert s[0..] == s;
    assert RunBack(s, IsSpace) == 0;
  }

  /** `s.slice(0, n)` for `n >= 0`. */
  function Prefix(s: string, n: nat): (r: string)
    ensures |r| == if n <= |s| then n else |s|
    ensures StartsWith(s, r)
  {
    if n <= |s| then s[..n] else s
  }

  /** `s.slice(-2)`: the last two characters, or all of a shorter string. */
  function LastTwo(s: string): (r: string)
    ensures |r| == if |s| < 2 then |s| else 2
    ensures forall i :: 0 <= i < |r| ==> r[i] == s[|s| - |r| + i]
  {
    if |s| < 2 then s else s[|s| - 2..]
  }

  // ---------------------------------------------------------------------------
  // Numbers and their text

  /** The value of a string of decimal digits. */
  function DigitsValue(s: string): nat
    requires AllDigits(s)
  {
    if s == [] then 0 else DigitsValue(s[..|s| - 1]) * 10 + DigitValue(s[|s| - 1])
  }

  /** The value of a string of hexadecimal digits. */
  function HexValue(s: string): nat
    requires forall i :: 0 <= i < |s| ==> IsHexDigit(s[i])
  {
    if s == [] then 0 else HexValue(s[..|s| - 1]) * 16 + HexDigitValue(s[|s| - 1])
  }

  /** Decimal text of a natural number, as `String(n)` writes an integer. */
  function NatToString(n: nat): (r: string)
    ensures |r| > 0 && AllDigits(r)
    ensures r[0] == '0' ==> n == 0
    decreases n
  {
    if n < 10 then [DigitChar(n)] else NatToString(n / 10) + [DigitChar(n % 10)]
  }

  /** Decimal text of an integer, as `String(n)` (or a template literal)
      writes one. */
  function IntToString(n: int): (r: string)
    ensures |r| > 0
    ensures (r[0] == '-') == (n < 0)
  {
    if n < 0 then "-" + NatToString(-n) else NatToString(n)
  }

  /** Reading the digits of `NatToString(n)` gives back `n`. */
  lemma {:induction false} NatToStringRoundTrip(n: nat)
    ensures DigitsValue(NatToString(n)) == n
    decreases n
  {
    if n >= 10 {
      NatToStringRoundTrip(n / 10);
      var r := NatToString(n);
      assert r[..|r| - 1] == NatToString(n / 10);
    }
  }

  /** 10 to the power `k`, for any integer `k`. */
  function Pow10(k: int): (r: real)
    ensures r > 0.0
    decreases if k < 0 then -k else k
  {
    if k == 0 then 1.0
    else if k > 0 then 10.0 * Pow10(k - 1)
    else Pow10(k + 1) / 10.0
  }

  /** `Math.round`: the nearest integer, halves rounded up. */
  function Round(x: real): (r: int)
    ensures x - 0.5 < r as real <= x + 0.5
  {
    (x + 0.5).Floor
  }

  /** `Math.round(x * 10) / 10`: `x` to the nearest tenth. */
  function RoundTenth(x: real): (r: real)
    ensures x - 0.05 < r <= x + 0.05
    ensures r * 10.0 == (r * 10.0).Floor as real
  {
    var n := Round(x * 10.0);
    assert n as real / 10.0 * 10.0 == n as real;
    n as real / 10.0
  }

  /** Strips the sign that `parseInt` and `parseFloat` accept. */
  function SignAndRest(t: string): (real, string) {
    if |t| > 0 && t[0] == '-' then (-1.0, t[1..])
    else if |t| > 0 && t[0] == '+' then (1.0, t[1..])
    else (1.0, t)
  }

  /** `parseInt(s)` with no radix: leading white space, an optional sign,
      then a `0x` prefix and hexadecimal digits or else decimal digits, up to
      the first character that does not fit; `None` is its `NaN`. */
  function ParseInt(s: string): (r: Option<int>) {
    var (sign, u) := SignAndRest(s[Run(s, 0, IsSpace)..]);
    if |u| >= 2 && u[0] == '0' && (u[1] == 'x' || u[1] == 'X') then
      var n := Run(u, 2, IsHexDigit);
      if n == 0 then None else Some((sign * HexValue(u[2..2 + n]) as real).Floor)
    else
      var n := Run(u, 0, IsDigit);
      if n == 0 then None else Some((sign * DigitsValue(u[..n]) as real).Floor)
  }

  /** The exponent that starts at `e` in `u` (`e`, `E`, an optional sign and
      at least one digit), or 0 when there is none. */
  function ExponentAt(u: string, e: nat): int
    requires e <= |u|
  {
    if e < |u| && (u[e] == 'e' || u[e] == 'E') then
      var f := if e + 1 < |u| && (u[e + 1] == '+' || u[e + 1] == '-') then e + 2 else e + 1;
      if f <= |u| then
        var n := Run(u, f, IsDigit);
        if n == 0 then 0
        else if u[e + 1] == '-' then -(DigitsValue(u[f..f + n]) as int)
        else DigitsValue(u[f..f + n])
      else 0
    else 0
  }

  /** Number of fraction digits after a `.` that follows `a` leading digits,
      or 0 when no `.` follows them. */
  function FractionLength(u: string, a: nat): nat
    requires a <= |u|
  {
    if a < |u| && u[a] == '.' then Run(u, a + 1, IsDigit) else 0
  }

  /** The digits and the fraction, `a` digits before the point and `b`
      after it. */
  function MantissaValue(u: string, a: nat, b: nat): real
    requires a <= |u| && AllDigits(u[..a])
    requires b > 0 ==> a + 1 + b <= |u| && AllDigits(u[a + 1..a + 1 + b])
  {
    DigitsValue(u[..a]) as real
      + (if b > 0 then DigitsValue(u[a + 1..a + 1 + b]) as real / Pow10(b) else 0.0)
  }

  /** What `parseFloat` reads after the sign: digits, an optional `.` and
      fraction digits (at least one digit in all), and an optional exponent. */
  function UnsignedDecimal(u: string): (r: Option<real>) {
    var a := Run(u, 0, IsDigit);
    var b := FractionLength(u, a);
    if a == 0 && b == 0 then None
    else
      var end := if a < |u| && u[a] == '.' then a + 1 + b else a;
      Some(MantissaValue(u, a, b) * Pow10(ExponentAt(u, end)))
  }

  /** `parseFloat(s)`: the longest prefix, after leading white space, that
      reads as a signed decimal literal with optional fraction and exponent;
      `None` is its `NaN`. */
  function ParseFloat(s: string): (r: Option<real>) {
    var (sign, u) := SignAndRest(s[Run(s, 0, IsSpace)..]);
    match UnsignedDecimal(u)
    case None => None
    case Some(v) => Some(sign * v)
  }

  lemma UnsignedDigits(d: string)
    requires |d| > 0 && AllDigits(d)
    ensures UnsignedDecimal(d) == Some(DigitsValue(d) as real)
  {
    var a := Run(d, 0, IsDigit);
    assert a == |d|;
    assert d[..a] == d;
    assert FractionLength(d, a) == 0;
    assert ExponentAt(d, a) == 0;
    assert MantissaValue(d, a, 0) == DigitsValue(d) as real;
  }

  /** A string of digits reads, under `parseFloat`, as its decimal value. */
  lemma ParseFloatDigits(d: string)
    requires |d| > 0 && AllDigits(d)
    ensures ParseFloat(d) == Some(DigitsValue(d) as real)
  {
    assert Run(d, 0, IsSpace) == 0 by { assert !IsSpace(d[0]); }
    assert d[0..] == d;
    assert SignAndRest(d) == (1.0, d) by { assert d[0] != '-' && d[0] != '+'; }
    UnsignedDigits(d);
  }

  /** `parseInt` reads a string of decimal digits as its value, leading
      zeros and all. */
  lemma ParseIntDigits(d: string)
    requires |d| > 0 && AllDigits(d)
    ensures ParseInt(d) == Some(DigitsValue(d))
  {
    assert Run(d, 0, IsSpace) == 0 by { assert !IsSpace(d[0]); }
    assert d[0..] == d;
    assert SignAndRest(d) == (1.0, d) by { assert d[0] != '-' && d[0] != '+'; }
    assert Run(d, 0, IsDigit) == |d|;
    assert d[..|d|] == d;
    if |d| >= 2 {
      assert d[1] != 'x' && d[1] != 'X';
    }
  }

  /** `parseInt` reads back the decimal text of every natural number. */
  lemma ParseIntNatToString(n: nat)
    ensures ParseInt(NatToString(n)) == Some(n)
  {
    var d := NatToString(n);
    assert Run(d, 0, IsSpace) == 0 by { assert !IsSpace(d[0]); }
    assert d[0..] == d;
    assert Run(d, 0, IsDigit) == |d|;
    assert d[..|d|] == d;
    NatToStringRoundTrip(n);
    if |d| >= 2 && d[0] == '0' {
      assert false;
    }
  }

  // ---------------------------------------------------------------------------
  // Order of strings

  /** The order the default `sort` puts strings in: character by character,
      a proper prefix first. */
  predicate StrLe(a: string, b: string)
    decreases |a|
  {
    if a == [] then true
    else if b == [] then false
    else if a[0] != b[0] then a[0] < b[0]
    else StrLe(a[1..], b[1..])
  }

  predicate StrLt(a: string, b: string) { StrLe(a, b) && a != b }

  lemma {:induction false} StrLeTotal(a: string, b: string)
    ensures StrLe(a, b) || StrLe(b, a)
    decreases |a|
  {
    if a != [] && b != [] && a[0] == b[0] { StrLeTotal(a[1..], b[1..]); }
  }

  lemma {:induction false} StrLeAntisymmetric(a: string, b: string)
    requires StrLe(a, b) && StrLe(b, a)
    ensures a == b
    decreases |a|
  {
    if a != [] {
      StrLeAntisymmetric(a[1..], b[1..]);
      assert a == [a[0]] + a[1..] && b == [b[0]] + b[1..];
    }
  }

  lemma {:induction false} StrLeTransitive(a: string, b: string, c: string)
    requires StrLe(a, b) && StrLe(b, c)
    ensures StrLe(a, c)
    decreases |a|
  {
    if a != [] && b != [] && c != [] && a[0] == b[0] && b[0] == c[0] {
      StrLeTransitive(a[1..], b[1..], c[1..]);
    }
  }

  // ---------------------------------------------------------------------------
  // join and split

  /** `parts.join(sep)`. */
  function Join(parts: seq<string>, sep: string): string {
    if parts == [] then ""
    else if |parts| == 1 then parts[0]
    else parts[0] + sep + Join(parts[1..], sep)
  }

  predicate NotNewline(c: char) { c != '\n' }

  /** `s.split('\n')`: the pieces between the newline characters. */
  function Lines(s: string): (r: seq<string>)
    ensures |r| > 0
    decreases |s|
  {
    var n := Run(s, 0, NotNewline);
    if n == |s| then [s] else [s[..n]] + Lines(s[n + 1..])
  }

  /** Joining lines with a newline and splitting the text again gives the
      lines back. */
  lemma {:induction false} LinesOfJoin(parts: seq<string>)
    requires |parts| > 0
    requires forall i, k :: 0 <= i < |parts| && 0 <= k < |parts[i]| ==> parts[i][k] != '\n'
    ensures Lines(Join(parts, "\n")) == parts
  {
    var s := Join(parts, "\n");
    if |parts| == 1 {
      assert Run(s, 0, NotNewline) == |s|;
    } else {
      var rest := Join(parts[1..], "\n");
      assert s == parts[0] + "\n" + rest;
      assert Run(s, 0, NotNewline) == |parts[0]| by {
        assert forall k :: 0 <= k < |parts[0]| ==> NotNewline(s[k]);
        assert !NotNewline(s[|parts[0]|]);
      }
      assert s[..|parts[0]|] == parts[0];
      assert s[|parts[0]| + 1..] == rest;
      LinesOfJoin(parts[1..]);
    }
  }

  /** A text without a newline character is a single line. */
  lemma OneLine(s: string)
    requires forall k :: 0 <= k < |s| ==> s[k] != '\n'
    ensures Lines(s) == [s]
  {
    assert Run(s, 0, NotNewline) == |s|;
  }

  /** Joining with a separator that holds no newline adds none. */
  lemma {:induction false} JoinNoNewline(parts: seq<string>, sep: string)
    requires forall k :: 0 <= k < |sep| ==> sep[k] != '\n'
    requires forall i, k :: 0 <= i < |parts| && 0 <= k < |parts[i]| ==> parts[i][k] != '\n'
    ensures forall k :: 0 <= k < |Join(parts, sep)| ==> Join(parts, sep)[k] != '\n'
  {
    if |parts| > 1 {
      JoinNoNewline(parts[1..], sep);
      var s := Join(parts, sep);
      var rest := Join(parts[1..], sep);
      assert s == parts[0] + sep + rest;
      forall k | 0 <= k < |s| ensures s[k] != '\n' {
        if k < |parts[0]| {
        } else if k < |parts[0]| + |sep| {
          assert s[k] == sep[k - |parts[0]|];
        } else {
          assert s[k] == rest[k - |parts[0]| - |sep|];
        }
      }
    }
  }
}
