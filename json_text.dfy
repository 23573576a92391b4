/** `JSON.stringify` on the values this server builds: string escaping,
    arrays, objects and numbers. A parsed object here is a map, which does
    not record member order; rendering lists members in ascending key order
    (see `SortedKeys`). */
module JsonText {
  import opened Base
  import opened Text

  // ---------------------------------------------------------------------
  // An order on member names
  // ---------------------------------------------------------------------

  /** Lexicographic order on strings by code point. */
  predicate LexLe(a: string, b: string) {
    |a| == 0 || (|b| > 0 && (a[0] < b[0] || (a[0] == b[0] && LexLe(a[1..], b[1..]))))
  }

  lemma {:induction false} LexRefl(a: string)
    ensures LexLe(a, a)
  {
    if |a| > 0 { LexRefl(a[1..]); }
  }

  lemma {:induction false} LexTotal(a: string, b: string)
    ensures LexLe(a, b) || LexLe(b, a)
  {
    if |a| > 0 && |b| > 0 && a[0] == b[0] { LexTotal(a[1..], b[1..]); }
  }

  lemma {:induction false} LexAntisym(a: string, b: string)
    requires LexLe(a, b) && LexLe(b, a)
    ensures a == b
  {
    if |a| > 0 {
      LexAntisym(a[1..], b[1..]);
      assert a == [a[0]] + a[1..] && b == [b[0]] + b[1..];
    }
  }

  lemma {:induction false} LexTrans(a: string, b: string, c: string)
    requires LexLe(a, b) && LexLe(b, c)
    ensures LexLe(a, c)
  {
    if |a| > 0 && a[0] == b[0] && b[0] == c[0] { LexTrans(a[1..], b[1..], c[1..]); }
  }

  /** `k` is the least member of `s`. */
  predicate IsLeast(s: set<string>, k: string) {
    k in s && forall m :: m in s ==> LexLe(k, m)
  }

  lemma {:induction false} LeastExists(s: set<string>)
    requires s != {}
    ensures exists k :: IsLeast(s, k)
    decreases |s|
  {
    var x :| x in s;
    if s == {x} {
      LexRefl(x);
      assert IsLeast(s, x);
    } else {
      LeastExists(s - {x});
      var m :| IsLeast(s - {x}, m);
      LexTotal(x, m);
      if LexLe(x, m) {
        forall y | y in s ensures LexLe(x, y) {
          if y == x { LexRefl(x); } else { LexTrans(x, m, y); }
        }
        assert IsLeast(s, x);
      } else {
        assert IsLeast(s, m);
      }
    }
  }

  lemma LeastUnique(s: set<string>)
    ensures forall a, b :: IsLeast(s, a) && IsLeast(s, b) ==> a == b
  {
    forall a, b | IsLeast(s, a) && IsLeast(s, b) ensures a == b {
      LexAntisym(a, b);
    }
  }

  function Least(s: set<string>): (k: string)
    requires s != {}
    ensures IsLeast(s, k)
  {
    LeastExists(s);
    LeastUnique(s);
    var k :| IsLeast(s, k);
    k
  }

  /** The members of `s` in ascending order, each once. */
  function SortedKeys(s: set<string>): (r: seq<string>)
    ensures |r| == |s|
    ensures forall k :: k in r <==> k in s
    ensures forall i, j :: 0 <= i < j < |r| ==> LexLe(r[i], r[j]) && r[i] != r[j]
    decreases |s|
  {
    if s == {} then []
    else
      var k := Least(s);
      var rest := SortedKeys(s - {k});
      LeastFirst(s, k, rest);
      [k] + rest
  }

  /** The least member put before the sorted others gives the sorted whole. */
  lemma LeastFirst(s: set<string>, k: string, rest: seq<string>)
    requires IsLeast(s, k)
    requires |rest| == |s - {k}|
    requires forall x :: x in rest <==> x in s - {k}
    requires forall i, j :: 0 <= i < j < |rest| ==> LexLe(rest[i], rest[j]) && rest[i] != rest[j]
    ensures |[k] + rest| == |s|
    ensures forall x :: x in [k] + rest <==> x in s
    ensures forall i, j :: 0 <= i < j < |[k] + rest| ==> LexLe(([k] + rest)[i], ([k] + rest)[j]) && ([k] + rest)[i] != ([k] + rest)[j]
  {
    var r := [k] + rest;
    forall i, j | 0 <= i < j < |r| ensures LexLe(r[i], r[j]) && r[i] != r[j] {
      assert r[j] == rest[j - 1];
      if i == 0 {
        assert rest[j - 1] in s - {k};
      } else {
        assert r[i] == rest[i - 1];
      }
    }
  }

  // ---------------------------------------------------------------------
  // Strings
  // ---------------------------------------------------------------------

  function HexDigit(d: nat): char
    requires d < 16
  {
    "0123456789abcdef"[d]
  }

  /** How `JSON.stringify` writes one character inside a string literal. */
  function EscapeChar(c: char): (r: string)
    ensures |r| >= 1
  {
    if c == '"' then "\\\""
    else if c == '\\' then "\\\\"
    else if c == '\U{0008}' then "\\b"
    else if c == '\U{000C}' then "\\f"
    else if c == '\n' then "\\n"
    else if c == '\r' then "\\r"
    else if c == '\t' then "\\t"
    else if c < ' ' then "\\u00" + [HexDigit(c as int / 16), HexDigit(c as int % 16)]
    else [c]
  }

  function Escape(s: string): string {
    if |s| == 0 then "" else EscapeChar(s[0]) + Escape(s[1..])
  }

  /** A string as a JSON string literal. */
  function Quote(s: string): string {
    "\"" + Escape(s) + "\""
  }

  lemma {:induction false} EscapeConcat(a: string, b: string)
    ensures Escape(a + b) == Escape(a) + Escape(b)
  {
    if |a| > 0 {
      assert (a + b)[0] == a[0];
      assert (a + b)[1..] == a[1..] + b;
      EscapeConcat(a[1..], b);
    } else {
      assert a + b == b;
    }
  }

  /** Characters `JSON.stringify` writes unchanged. */
  predicate Plain(c: char) { c >= ' ' && c != '"' && c != '\\' }

  lemma {:induction false} EscapePlain(s: string)
    requires forall i :: 0 <= i < |s| ==> Plain(s[i])
    ensures Escape(s) == s
  {
    if |s| > 0 {
      EscapePlain(s[1..]);
      assert s == [s[0]] + s[1..];
    }
  }

  function HexValue(c: char): Option<nat> {
    if '0' <= c <= '9' then Some(c as int - '0' as int)
    else if 'a' <= c <= 'f' then Some(c as int - 'a' as int + 10)
    else None
  }

  /** Reading a string literal's body back, for the escapes `Escape` writes. */
  function Unescape(t: string): Option<string> {
    if |t| == 0 then Some("")
    else if t[0] == '"' || t[0] < ' ' then None
    else if t[0] != '\\' then
      var rest :- Unescape(t[1..]);
      Some([t[0]] + rest)
    else if |t| < 2 then None
    else
      var e := t[1];
      if e == 'u' then
        if |t| < 6 || t[2] != '0' || t[3] != '0' then None
        else
          var hi :- HexValue(t[4]);
          var lo :- HexValue(t[5]);
          var rest :- Unescape(t[6..]);
          Some([(hi * 16 + lo) as char] + rest)
      else
        var c :- (if e == '"' then Some('"') else if e == '\\' then Some('\\')
                  else if e == 'b' then Some('\U{0008}') else if e == 'f' then Some('\U{000C}')
                  else if e == 'n' then Some('\n') else if e == 'r' then Some('\r')
                  else if e == 't' then Some('\t') else None);
        var rest :- Unescape(t[2..]);
        Some([c] + rest)
  }

  lemma EscapeCharRoundTrip(c: char, t: string)
    ensures Unescape(EscapeChar(c) + t) == (match Unescape(t) case None => None case Some(r) => Some([c] + r))
  {
    if c < ' ' && c != '\U{0008}' && c != '\U{000C}' && c != '\n' && c != '\r' && c != '\t' {
      ControlRoundTrip(c, t);
    } else if c == '"' || c == '\\' || c == '\U{0008}' || c == '\U{000C}' || c == '\n' || c == '\r' || c == '\t' {
      ShortEscapeRoundTrip(c, t);
    } else {
      PlainRoundTrip(c, t);
    }
  }

  /** A control character written as `\u00XX` reads back. */
  lemma ControlRoundTrip(c: char, t: string)
    requires c < ' ' && c != '\U{0008}' && c != '\U{000C}' && c != '\n' && c != '\r' && c != '\t'
    ensures Unescape(EscapeChar(c) + t) == (match Unescape(t) case None => None case Some(r) => Some([c] + r))
  {
    var x := EscapeChar(c) + t;
    var d := c as int;
    assert HexValue(HexDigit(d / 16)) == Some(d / 16);
    assert HexValue(HexDigit(d % 16)) == Some(d % 16);
    assert x[6..] == t;
    assert (d / 16 * 16 + d % 16) as char == c;
  }

  /** A character written as a two-character escape reads back. */
  lemma ShortEscapeRoundTrip(c: char, t: string)
    requires c == '"' || c == '\\' || c == '\U{0008}' || c == '\U{000C}' || c == '\n' || c == '\r' || c == '\t'
    ensures Unescape(EscapeChar(c) + t) == (match Unescape(t) case None => None case Some(r) => Some([c] + r))
  {
    var x := EscapeChar(c) + t;
    assert x[2..] == t;
  }

  /** A character written as itself reads back. */
  lemma PlainRoundTrip(c: char, t: string)
    requires c >= ' ' && c != '"' && c != '\\'
    ensures Unescape(EscapeChar(c) + t) == (match Unescape(t) case None => None case Some(r) => Some([c] + r))
  {
    var x := EscapeChar(c) + t;
    assert x[1..] == t;
  }

  /** Escaping loses nothing: the literal's body reads back as the string. */
  lemma {:induction false} EscapeRoundTrip(s: string)
    ensures Unescape(Escape(s)) == Some(s)
  {
    if |s| > 0 {
      EscapeRoundTrip(s[1..]);
      EscapeCharRoundTrip(s[0], Escape(s[1..]));
      assert [s[0]] + s[1..] == s;
    }
  }

  // ---------------------------------------------------------------------
  // Values
  // ---------------------------------------------------------------------

  /** A number as `JSON.stringify` writes it. Integers below 1e21 in
      magnitude are written in plain decimal; the shortest round-trip
      decimal of any other number is the parameter `numText`. */
  function NumberText(n: real, numText: real -> string): string {
    if IsInteger(n) && -1e21 < n < 1e21 then IntToString(n.Floor) else numText(n)
  }

  function Render(j: Json, numText: real -> string): string
    decreases j, 1
  {
    match j
    case JNull => "null"
    case JBool(b) => if b then "true" else "false"
    case JNum(n) => NumberText(n, numText)
    case JStr(s) => Quote(s)
    case JArr(items) => "[" + RenderItems(j, 0, numText) + "]"
    case JObj(fields) => "{" + RenderFields(j, SortedKeys(fields.Keys), numText) + "}"
  }

  function RenderItems(j: Json, i: nat, numText: real -> string): string
    requires j.JArr? && i <= |j.items|
    decreases j, 0, |j.items| - i
  {
    if i == |j.items| then ""
    else (if i > 0 then "," else "") + Render(j.items[i], numText) + RenderItems(j, i + 1, numText)
  }

  function RenderFields(j: Json, keys: seq<string>, numText: real -> string): string
    requires j.JObj? && forall k :: k in keys ==> k in j.fields
    decreases j, 0, |keys|
  {
    if |keys| == 0 then ""
    else
      Quote(keys[0]) + ":" + Render(j.fields[keys[0]], numText)
      + (if |keys| > 1 then "," else "") + RenderFields(j, keys[1..], numText)
  }

  /** An object literal written with its members in the given order, as
      `JSON.stringify({a: .., b: ..})` writes an object built in code. */
  function RenderMembers(ms: seq<(string, Json)>, numText: real -> string): string {
    "{" + RenderMemberList(ms, numText) + "}"
  }

  function RenderMemberList(ms: seq<(string, Json)>, numText: real -> string): string {
    if |ms| == 0 then ""
    else
      Quote(ms[0].0) + ":" + Render(ms[0].1, numText)
      + (if |ms| > 1 then "," else "") + RenderMemberList(ms[1..], numText)
  }
}
