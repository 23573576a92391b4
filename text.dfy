/** String helpers with JavaScript's meaning: the whitespace set of
    `String.prototype.trim` and of the regular-expression class `\s`,
    ASCII case folding, decimal rendering of integers. */
module Text {

  /** WhiteSpace and LineTerminator code points of ECMAScript (the set that
      `trim()` removes and that `\s` matches). */
  predicate IsSpace(c: char) {
    c == ' ' || c == '\t' || c == '\n' || c == '\U{000B}' || c == '\U{000C}' || c == '\r'
    || c == '\U{00A0}' || c == '\U{1680}' || ('\U{2000}' <= c <= '\U{200A}')
    || c == '\U{2028}' || c == '\U{2029}' || c == '\U{202F}' || c == '\U{205F}'
    || c == '\U{3000}' || c == '\U{FEFF}'
  }

  /** Characters that `.` in a regular expression does not match. */
  predicate IsLineTerminator(c: char) {
    c == '\n' || c == '\r' || c == '\U{2028}' || c == '\U{2029}'
  }

  predicate AllSpace(s: string) { forall i :: 0 <= i < |s| ==> IsSpace(s[i]) }

  predicate IsBlank(s: string) { AllSpace(s) }

  /** No whitespace at either end. */
  predicate IsTrimmed(s: string) {
    |s| == 0 || (!IsSpace(s[0]) && !IsSpace(s[|s| - 1]))
  }

  function TrimStart(s: string): (r: string)
    ensures |r| <= |s| && r == s[|s| - |r|..]
    ensures AllSpace(s[..|s| - |r|])
    ensures |r| > 0 ==> !IsSpace(r[0])
  {
    if |s| > 0 && IsSpace(s[0]) then TrimStart(s[1..]) else s
  }

  function TrimEnd(s: string): (r: string)
    ensures |r| <= |s| && r == s[..|r|]
    ensures AllSpace(s[|r|..])
    ensures |r| > 0 ==> !IsSpace(r[|r| - 1])
  {
    if |s| > 0 && IsSpace(s[|s| - 1]) then TrimEnd(s[..|s| - 1]) else s
  }

  /** `r` is `s` with whitespace cut off at both ends: an infix of `s` whose
      left and right remainders are all whitespace. */
  ghost predicate CutFrom(s: string, r: string, i: int, j: int) {
    0 <= i <= j <= |s| && r == s[i..j] && AllSpace(s[..i]) && AllSpace(s[j..])
  }

  /** `s.trim()`: no whitespace at either end, and empty exactly when `s`
      is blank (`TrimCutsSpace`: only whitespace was cut off). */
  function Trim(s: string): (r: string)
    ensures IsTrimmed(r) && |r| <= |s|
    ensures r == [] <==> AllSpace(s)
  {
    var a := TrimStart(s);
    var b := TrimEnd(a);
    TrimCut(s, a, b);
    TrimEmpty(s, a, b);
    b
  }

  /** What `Trim` removes is whitespace at both ends, and nothing else. */
  lemma TrimCutsSpace(s: string)
    ensures exists i, j :: CutFrom(s, Trim(s), i, j)
  {
    var a := TrimStart(s);
    var b := TrimEnd(a);
    TrimCut(s, a, b);
    assert Trim(s) == b;
  }

  lemma TrimCut(s: string, a: string, b: string)
    requires |a| <= |s| && a == s[|s| - |a|..] && AllSpace(s[..|s| - |a|])
    requires |a| > 0 ==> !IsSpace(a[0])
    requires |b| <= |a| && b == a[..|b|] && AllSpace(a[|b|..])
    requires |b| > 0 ==> !IsSpace(b[|b| - 1])
    ensures IsTrimmed(b) && CutFrom(s, b, |s| - |a|, |s| - |a| + |b|)
  {
    var i, j := |s| - |a|, |s| - |a| + |b|;
    assert b == s[i..j];
    assert s[j..] == a[|b|..];
    if |b| > 0 { assert b[0] == a[0]; }
  }

  lemma TrimEmpty(s: string, a: string, b: string)
    requires |a| <= |s| && a == s[|s| - |a|..] && AllSpace(s[..|s| - |a|])
    requires |a| > 0 ==> !IsSpace(a[0])
    requires |b| <= |a| && b == a[..|b|] && AllSpace(a[|b|..])
    ensures b == [] <==> AllSpace(s)
  {
    var i := |s| - |a|;
    if |b| > 0 {
      assert b[0] == a[0];
      assert s[i] == a[0];
    } else {
      assert a[|b|..] == a;
      assert s[..i] + a == s;
      SpaceConcat(s[..i], a);
    }
  }

  lemma SpaceConcat(x: string, y: string)
    requires AllSpace(x) && AllSpace(y)
    ensures AllSpace(x + y)
  {
    forall k | 0 <= k < |x + y| ensures IsSpace((x + y)[k]) {
      if k < |x| { assert (x + y)[k] == x[k]; } else { assert (x + y)[k] == y[k - |x|]; }
    }
  }

  lemma {:induction false} TrimOfTrimmed(s: string)
    requires IsTrimmed(s)
    ensures Trim(s) == s
  {
    if |s| > 0 {
      assert TrimStart(s) == s;
      assert TrimEnd(s) == s;
    }
  }

  lemma {:induction false} TrimStartAfterSpace(w: string, x: string)
    requires AllSpace(w)
    ensures TrimStart(w + x) == TrimStart(x)
  {
    if |w| > 0 {
      assert (w + x)[1..] == w[1..] + x;
      TrimStartAfterSpace(w[1..], x);
    } else {
      assert w + x == x;
    }
  }

  lemma {:induction false} TrimEndBeforeSpace(x: string, w: string)
    requires AllSpace(w)
    ensures TrimEnd(x + w) == TrimEnd(x)
  {
    if |w| > 0 {
      assert (x + w)[..|x + w| - 1] == x + w[..|w| - 1];
      TrimEndBeforeSpace(x, w[..|w| - 1]);
    } else {
      assert x + w == x;
    }
  }

  /** Whitespace in front of a string makes no difference once trimmed. */
  lemma TrimAfterSpace(w: string, x: string)
    requires AllSpace(w)
    ensures Trim(w + x) == Trim(x)
  {
    TrimStartAfterSpace(w, x);
  }

  function LowerChar(c: char): char {
    if 'A' <= c <= 'Z' then (c as int - 'A' as int + 'a' as int) as char else c
  }

  /** `toLowerCase()` on the ASCII letters. For the words this code compares
      against (language codes, boolean words, action names, "static"), the
      only non-ASCII character JavaScript would lower-case into ASCII is
      U+212A KELVIN SIGN (to 'k'), and none of those words holds a 'k'. */
  function ToLower(s: string): (r: string)
    ensures |r| == |s|
    ensures forall i :: 0 <= i < |s| ==> r[i] == LowerChar(s[i])
  {
    seq(|s|, i requires 0 <= i < |s| => LowerChar(s[i]))
  }

  function DigitChar(d: nat): char
    requires d < 10
  {
    "0123456789"[d]
  }

  predicate IsDigit(c: char) { '0' <= c <= '9' }

  predicate AllDigits(s: string) { forall i :: 0 <= i < |s| ==> IsDigit(s[i]) }

  /** `String(n)` for a non-negative integer. */
  function NatToString(n: nat): (r: string)
    ensures |r| >= 1 && AllDigits(r)
    ensures r[0] != '0' || n == 0
  {
    if n < 10 then [DigitChar(n)] else NatToString(n / 10) + [DigitChar(n % 10)]
  }

  /** `String(n)` for any integer. */
  function IntToString(n: int): string {
    if n < 0 then "-" + NatToString(-n) else NatToString(n)
  }

  /** `String(n).padStart(2, '0')` for 0 <= n < 100. */
  function Pad2(n: nat): (r: string)
    requires n < 100
    ensures |r| == 2 && AllDigits(r)
  {
    [DigitChar(n / 10), DigitChar(n % 10)]
  }

  /** Number of decimal digits of a natural number. */
  function DigitCount(n: nat): nat {
    if n < 10 then 1 else 1 + DigitCount(n / 10)
  }

  lemma {:induction false} NatToStringLength(n: nat)
    ensures |NatToString(n)| == DigitCount(n)
  {
    if n >= 10 { NatToStringLength(n / 10); }
  }

  /** `lines.join(sep)`. */
  function Join(lines: seq<string>, sep: string): string {
    if |lines| == 0 then "" else if |lines| == 1 then lines[0]
    else lines[0] + sep + Join(lines[1..], sep)
  }

  /** A join starts with the first line. */
  lemma JoinStart(lines: seq<string>, sep: string)
    requires |lines| > 0 && |lines[0]| > 0
    ensures var j := Join(lines, sep); |j| > 0 && j[0] == lines[0][0]
  {
    if |lines| > 1 {
      assert Join(lines, sep) == lines[0] + (sep + Join(lines[1..], sep));
    }
  }

  /** A join ends with the last line. */
  lemma {:induction false} JoinEnd(lines: seq<string>, sep: string)
    requires |lines| > 0 && |lines[|lines| - 1]| > 0
    ensures var j := Join(lines, sep);
      |j| > 0 && j[|j| - 1] == lines[|lines| - 1][|lines[|lines| - 1]| - 1]
  {
    if |lines| > 1 {
      var rest := lines[1..];
      assert rest[|rest| - 1] == lines[|lines| - 1];
      JoinEnd(rest, sep);
      var j := Join(rest, sep);
      assert Join(lines, sep) == (lines[0] + sep) + j;
    }
  }

  /** `sub` occurs in `s` at offset `k`. */
  predicate OccursAt(s: string, sub: string, k: int) {
    0 <= k && k + |sub| <= |s| && s[k..k + |sub|] == sub
  }

  /** `s.includes(sub)`. */
  ghost predicate Contains(s: string, sub: string) {
    exists k :: OccursAt(s, sub, k)
  }

  function ContainsFrom(s: string, sub: string, i: nat): (b: bool)
    requires i <= |s|
    ensures b <==> exists k :: i <= k && OccursAt(s, sub, k)
    decreases |s| - i
  {
    if i + |sub| > |s| then false
    else if OccursAt(s, sub, i) then true
    else
      var rest := ContainsFrom(s, sub, i + 1);
      assert rest <==> exists k :: i <= k && OccursAt(s, sub, k) by {
        if exists k :: i <= k && OccursAt(s, sub, k) {
          var k :| i <= k && OccursAt(s, sub, k);
          assert k != i;
        }
      }
      rest
  }

  function Includes(s: string, sub: string): (b: bool)
    ensures b <==> Contains(s, sub)
  {
    ContainsFrom(s, sub, 0)
  }

  predicate StartsWith(s: string, prefix: string) {
    |prefix| <= |s| && s[..|prefix|] == prefix
  }

  predicate EndsWith(s: string, suffix: string) {
    |suffix| <= |s| && s[|s| - |suffix|..] == suffix
  }
}
