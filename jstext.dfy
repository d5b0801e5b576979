/** The JavaScript string operations the screens rely on (`trim`, `startsWith`,
    `indexOf`, `replace` with a string pattern, `substring`, `join`,
    `padStart`, `toLowerCase`, `String(n)`), stated over `seq<char>`. */
module JsText {

  /** The characters `String.prototype.trim` removes and the regular
      expression class `\s` matches: WhiteSpace and LineTerminator. */
  predicate IsSpace(c: char) {
    || c == '\t' || c == '\n' || c == '\U{000B}' || c == '\U{000C}' || c == '\r' || c == ' '
    || c == '\U{00A0}' || c == '\U{1680}' || ('\U{2000}' <= c <= '\U{200A}')
    || c == '\U{2028}' || c == '\U{2029}' || c == '\U{202F}' || c == '\U{205F}'
    || c == '\U{3000}' || c == '\U{FEFF}'
  }

  /** The characters that the regular expression `.` does not match. */
  predicate IsLineTerminator(c: char) {
    c == '\n' || c == '\r' || c == '\U{2028}' || c == '\U{2029}'
  }

  predicate AllSpace(s: string) {
    forall i :: 0 <= i < |s| ==> IsSpace(s[i])
  }

  /** Number of whitespace characters at the front of `s`. */
  function LeadingSpace(s: string): (n: nat)
    ensures n <= |s|
    ensures forall k :: 0 <= k < n ==> IsSpace(s[k])
    ensures n < |s| ==> !IsSpace(s[n])
  {
    if |s| > 0 && IsSpace(s[0]) then 1 + LeadingSpace(s[1..]) else 0
  }

  /** Number of whitespace characters at the back of `s`. */
  function TrailingSpace(s: string): (n: nat)
    ensures n <= |s|
    ensures forall k :: |s| - n <= k < |s| ==> IsSpace(s[k])
    ensures n < |s| ==> !IsSpace(s[|s| - 1 - n])
  {
    if |s| > 0 && IsSpace(s[|s| - 1]) then 1 + TrailingSpace(s[..|s| - 1]) else 0
  }

  /** `s.trim()`: a piece of `s` that neither starts nor ends with
      whitespace, and that is empty exactly when `s` is all whitespace. */
  function Trim(s: string): (r: string)
    ensures |r| <= |s|
    ensures r == "" <==> AllSpace(s)
    ensures r != "" ==> !IsSpace(r[0]) && !IsSpace(r[|r| - 1])
    ensures Contains(s, r)
  {
    var a := LeadingSpace(s);
    var t := s[a..];
    var b := TrailingSpace(t);
    assert a < |s| ==> t[0] == s[a];
    assert t[..|t| - b] == s[a..a + (|t| - b)];
    assert MatchAt(s, t[..|t| - b], a);
    t[..|t| - b]
  }

  /** `!s.trim()` in the source: the text is empty or only whitespace. */
  predicate IsBlank(s: string) {
    Trim(s) == ""
  }

  lemma {:induction false} TrimIdempotent(s: string)
    ensures Trim(Trim(s)) == Trim(s)
  {
    var r := Trim(s);
    if r != "" {
      assert LeadingSpace(r) == 0;
      assert TrailingSpace(r) == 0;
      assert r[0..][..|r|] == r;
    } else {
      assert LeadingSpace(r) == 0;
    }
  }

  lemma {:induction false} LeadingSpaceOfPadded(a: string, x: string)
    requires AllSpace(a) && x != [] && !IsSpace(x[0])
    ensures LeadingSpace(a + x) == |a|
    decreases |a|
  {
    if a != [] {
      assert (a + x)[1..] == a[1..] + x;
      LeadingSpaceOfPadded(a[1..], x);
    }
  }

  lemma {:induction false} TrailingSpaceOfPadded(x: string, b: string)
    requires AllSpace(b) && x != [] && !IsSpace(x[|x| - 1])
    ensures TrailingSpace(x + b) == |b|
    decreases |b|
  {
    if b != [] {
      assert (x + b)[..|x + b| - 1] == x + b[..|b| - 1];
      TrailingSpaceOfPadded(x, b[..|b| - 1]);
    }
  }

  /** Trimming removes exactly the whitespace around a text that starts
      and ends with a visible character. */
  lemma TrimPadded(a: string, x: string, b: string)
    requires AllSpace(a) && AllSpace(b)
    requires x != [] && !IsSpace(x[0]) && !IsSpace(x[|x| - 1])
    ensures Trim(a + x + b) == x
  {
    LeadingSpaceOfPadded(a, x + b);
    assert (a + x + b)[|a|..] == x + b;
    TrailingSpaceOfPadded(x, b);
    assert (x + b)[..|x|] == x;
  }

  predicate StartsWith(s: string, p: string) {
    |p| <= |s| && s[..|p|] == p
  }

  predicate EndsWith(s: string, p: string) {
    |p| <= |s| && s[|s| - |p|..] == p
  }

  /** `p` occurs in `s` at position `i`. */
  predicate MatchAt(s: string, p: string, i: int) {
    0 <= i && i + |p| <= |s| && s[i..i + |p|] == p
  }

  /** `s.includes(p)`. */
  predicate Contains(s: string, p: string) {
    exists i :: 0 <= i <= |s| - |p| && MatchAt(s, p, i)
  }

  function IndexFrom(s: string, p: string, i: nat): (r: int)
    requires i <= |s| + 1
    decreases |s| + 1 - i
    ensures r == -1 ==> forall j :: i <= j <= |s| - |p| ==> !MatchAt(s, p, j)
    ensures r != -1 ==> i <= r && MatchAt(s, p, r) && forall j :: i <= j < r ==> !MatchAt(s, p, j)
  {
    if i + |p| > |s| then -1
    else if s[i..i + |p|] == p then i
    else IndexFrom(s, p, i + 1)
  }

  /** `s.indexOf(p)`: the first position where `p` occurs, or -1. */
  function IndexOf(s: string, p: string): (r: int)
    ensures r == -1 <==> !Contains(s, p)
    ensures r != -1 ==> MatchAt(s, p, r) && forall j :: 0 <= j < r ==> !MatchAt(s, p, j)
  {
    IndexFrom(s, p, 0)
  }

  function LastIndexFrom(s: string, p: string, i: int): (r: int)
    requires i <= |s| - |p|
    decreases i + 1
    ensures r == -1 ==> forall j :: 0 <= j <= i ==> !MatchAt(s, p, j)
    ensures r != -1 ==> 0 <= r <= i && MatchAt(s, p, r) && forall j :: r < j <= i ==> !MatchAt(s, p, j)
  {
    if i < 0 then -1
    else if s[i..i + |p|] == p then i
    else LastIndexFrom(s, p, i - 1)
  }

  /** `s.lastIndexOf(p)`: the last position where `p` occurs, or -1. */
  function LastIndexOf(s: string, p: string): (r: int)
    ensures r == -1 <==> !Contains(s, p)
    ensures r != -1 ==> MatchAt(s, p, r) && forall j :: r < j <= |s| - |p| ==> !MatchAt(s, p, j)
  {
    LastIndexFrom(s, p, |s| - |p|)
  }

  /** `indexOf` finds the first occurrence. */
  lemma IndexOfFirst(s: string, p: string, i: nat)
    requires MatchAt(s, p, i)
    requires forall j :: 0 <= j < i ==> !MatchAt(s, p, j)
    ensures IndexOf(s, p) == i
  {
    var k := IndexOf(s, p);
    assert k != -1;
    assert !(k < i);
    assert !(i < k);
  }

  /** `lastIndexOf` finds the last occurrence. */
  lemma LastIndexOfLast(s: string, p: string, i: nat)
    requires MatchAt(s, p, i)
    requires forall j :: i < j <= |s| - |p| ==> !MatchAt(s, p, j)
    ensures LastIndexOf(s, p) == i
  {
    var k := LastIndexOf(s, p);
    assert k != -1;
    assert !(k < i);
    assert !(i < k);
  }

  /** `s.replace(p, rep)` with a string pattern: only the first occurrence
      is replaced. */
  function ReplaceFirst(s: string, p: string, rep: string): string {
    var i := IndexOf(s, p);
    if i == -1 then s else s[..i] + rep + s[i + |p|..]
  }

  lemma ReplaceFirstOfPrefix(s: string, p: string)
    requires StartsWith(s, p)
    ensures ReplaceFirst(s, p, "") == s[|p|..]
  {
    assert MatchAt(s, p, 0);
  }

  lemma {:induction false} ReplaceFirstAt(s: string, p: string, i: nat)
    requires MatchAt(s, p, i)
    requires forall j :: 0 <= j < i ==> !MatchAt(s, p, j)
    ensures ReplaceFirst(s, p, "") == s[..i] + s[i + |p|..]
  {
    var k := IndexOf(s, p);
    assert k != -1;
    assert !(k < i);
    assert !(i < k);
  }

  /** Removing the first occurrence of a text's own prefix. */
  lemma RemovePrefixOnce(p: string, rest: string)
    ensures ReplaceFirst(p + rest, p, "") == rest
  {
    ReplaceFirstOfPrefix(p + rest, p);
    assert (p + rest)[|p|..] == rest;
  }

  /** Removing the first occurrence of a pattern that ends the text, when no
      earlier character could start it. */
  lemma RemoveSuffixOnce(x: string, p: string)
    requires p != []
    requires forall i :: 0 <= i < |x| ==> x[i] != p[0]
    ensures ReplaceFirst(x + p, p, "") == x
  {
    var s := x + p;
    forall j | 0 <= j < |x|
      ensures !MatchAt(s, p, j)
    {
      assert s[j] == x[j];
    }
    assert s[|x|..|x| + |p|] == p;
    ReplaceFirstAt(s, p, |x|);
    assert s[..|x|] + s[|x| + |p|..] == x;
  }

  /** An index argument of `substring`, clamped to `[0, len]`. */
  function Clamp(i: int, len: nat): (r: nat)
    ensures r <= len
  {
    if i < 0 then 0 else if i > len then len else i
  }

  /** `s.substring(a, b)`: both bounds are clamped, and swapped when the
      first is the larger. */
  function Substring(s: string, a: int, b: int): string {
    var lo, hi := Clamp(a, |s|), Clamp(b, |s|);
    if lo <= hi then s[lo..hi] else s[hi..lo]
  }

  /** `xs.join(sep)`. */
  function Join(xs: seq<string>, sep: string): string
    decreases |xs|
  {
    if |xs| == 0 then ""
    else if |xs| == 1 then xs[0]
    else xs[0] + sep + Join(xs[1..], sep)
  }

  /** With a non-empty separator, a join is empty only when nothing, or one
      empty string, is joined. */
  lemma {:induction false} JoinEmpty(xs: seq<string>, sep: string)
    requires sep != ""
    ensures Join(xs, sep) == "" <==> |xs| == 0 || (|xs| == 1 && xs[0] == "")
  {
    if |xs| >= 2 {
      assert |Join(xs, sep)| >= |sep|;
    }
  }

  function LowerChar(c: char): char {
    if 'A' <= c <= 'Z' then (c as int + 32) as char else c
  }

  /** `s.toLowerCase()` for the ASCII letters; every other character is kept. */
  function ToLower(s: string): (r: string)
    ensures |r| == |s|
    ensures forall i :: 0 <= i < |s| ==> r[i] == LowerChar(s[i])
  {
    if s == [] then [] else [LowerChar(s[0])] + ToLower(s[1..])
  }

  predicate IsDigit(c: char) {
    '0' <= c <= '9'
  }

  function DigitChar(d: nat): (c: char)
    requires d < 10
    ensures IsDigit(c)
  {
    ('0' as int + d) as char
  }

  function DigitValue(c: char): nat
    requires IsDigit(c)
  {
    c as int - '0' as int
  }

  predicate AllDigits(s: string) {
    forall i :: 0 <= i < |s| ==> IsDigit(s[i])
  }

  /** `String(n)` for a non-negative integer: its decimal digits, no
      leading zero. */
  function NatToString(n: nat): (r: string)
    ensures |r| >= 1 && AllDigits(r)
    ensures r[0] == '0' ==> n == 0
    ensures n < 10 ==> |r| == 1
    ensures 10 <= n < 100 ==> |r| == 2
    ensures 100 <= n < 1000 ==> |r| == 3
    ensures 1000 <= n < 10000 ==> |r| == 4
  {
    if n < 10 then [DigitChar(n)] else NatToString(n / 10) + [DigitChar(n % 10)]
  }

  /** The number a string of decimal digits denotes. */
  function DigitsValue(s: string): nat
    requires AllDigits(s)
  {
    if s == [] then 0 else 10 * DigitsValue(s[..|s| - 1]) + DigitValue(s[|s| - 1])
  }

  lemma {:induction false} NatToStringRoundTrip(n: nat)
    ensures DigitsValue(NatToString(n)) == n
  {
    var r := NatToString(n);
    if n >= 10 {
      NatToStringRoundTrip(n / 10);
      assert r[..|r| - 1] == NatToString(n / 10);
    }
  }

  /** Leading zeros do not change the value of a digit string. */
  lemma {:induction false} LeadingZeros(z: nat, s: string)
    requires AllDigits(s)
    ensures AllDigits(seq(z, _ => '0') + s)
    ensures DigitsValue(seq(z, _ => '0') + s) == DigitsValue(s)
    decreases |s|, z
  {
    var t := seq(z, _ => '0') + s;
    if s == [] {
      assert t == seq(z, _ => '0');
      if z > 0 {
        assert t[..|t| - 1] == seq(z - 1, _ => '0') + [];
        LeadingZeros(z - 1, []);
      }
    } else {
      assert t[..|t| - 1] == seq(z, _ => '0') + s[..|s| - 1];
      LeadingZeros(z, s[..|s| - 1]);
    }
  }

  /** `s.padStart(n, c)` with a one-character filler. */
  function PadStart(s: string, n: nat, c: char): (r: string)
    ensures |r| == if |s| >= n then |s| else n
  {
    if |s| >= n then s else seq(n - |s|, _ => c) + s
  }

  /** `String(n).padStart(w, "0")`: for a number that fits in `w` digits, a
      `w`-digit string whose value is `n`. */
  function ZeroPad(n: nat, w: nat): (r: string)
    ensures AllDigits(r)
  {
    var s := NatToString(n);
    LeadingZeros(if |s| >= w then 0 else w - |s|, s);
    PadStart(s, w, '0')
  }

  lemma ZeroPadValue(n: nat, w: nat)
    ensures DigitsValue(ZeroPad(n, w)) == n
  {
    var s := NatToString(n);
    NatToStringRoundTrip(n);
    LeadingZeros(if |s| >= w then 0 else w - |s|, s);
  }

  /** Code-unit lexicographic order: `a` sorts no later than `b`. */
  predicate LexLe(a: string, b: string)
    decreases |a|
  {
    if a == [] then true
    else if b == [] then false
    else if a[0] != b[0] then a[0] < b[0]
    else LexLe(a[1..], b[1..])
  }

  lemma {:induction false} LexLeTotal(a: string, b: string)
    ensures LexLe(a, b) || LexLe(b, a)
    decreases |a|
  {
    if a != [] && b != [] && a[0] == b[0] {
      LexLeTotal(a[1..], b[1..]);
    }
  }

  lemma {:induction false} LexLeTransitive(a: string, b: string, c: string)
    requires LexLe(a, b) && LexLe(b, c)
    ensures LexLe(a, c)
    decreases |a|
  {
    if a != [] && b != [] && c != [] && a[0] == b[0] && b[0] == c[0] {
      LexLeTransitive(a[1..], b[1..], c[1..]);
    }
  }
}
