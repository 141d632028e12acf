/**
 * The JavaScript string operations the client relies on, stated over
 * `string` (a sequence of Unicode scalar values): `trim`, `split` with a
 * one-character separator, `join`, `substring`, `startsWith`, ASCII case
 * mapping, and decimal conversion of digit runs (`parseInt(_, 10)` on a
 * digit string, `Number.prototype.toString` on a natural number).
 */
module JsStrings {

  /** The characters matched by `\s` in a regular expression and removed by
      `String.prototype.trim`: WhiteSpace and LineTerminator of ECMA-262. */
  predicate IsWhitespace(c: char) {
    || c == '\t' || c == '\n' || c == '\U{B}' || c == '\U{C}' || c == '\r' || c == ' '
    || c == '\U{A0}' || c == '\U{1680}' || ('\U{2000}' <= c <= '\U{200A}')
    || c == '\U{2028}' || c == '\U{2029}' || c == '\U{202F}' || c == '\U{205F}'
    || c == '\U{3000}' || c == '\U{FEFF}'
  }

  /** The characters `.` refuses to match outside dotAll mode. */
  predicate IsLineTerminator(c: char) {
    c == '\n' || c == '\r' || c == '\U{2028}' || c == '\U{2029}'
  }

  /** `\d`: an ASCII decimal digit. */
  predicate IsDigit(c: char) {
    '0' <= c <= '9'
  }

  predicate AllWhitespace(s: string) {
    forall i :: 0 <= i < |s| ==> IsWhitespace(s[i])
  }

  predicate AllDigits(s: string) {
    forall i :: 0 <= i < |s| ==> IsDigit(s[i])
  }

  /** No whitespace at either end: what `trim` leaves behind. */
  predicate IsTrimmed(s: string) {
    s == [] || (!IsWhitespace(s[0]) && !IsWhitespace(s[|s| - 1]))
  }

  /** The end of the longest whitespace run that starts at `i`. */
  function SkipWhitespace(s: string, i: nat): (j: nat)
    requires i <= |s|
    ensures i <= j <= |s|
    ensures forall k :: i <= k < j ==> IsWhitespace(s[k])
    ensures j < |s| ==> !IsWhitespace(s[j])
    decreases |s| - i
  {
    if i < |s| && IsWhitespace(s[i]) then SkipWhitespace(s, i + 1) else i
  }

  /** The start of the longest whitespace run that ends at `j`. */
  function BackWhitespace(s: string, j: nat): (i: nat)
    requires j <= |s|
    ensures i <= j
    ensures forall k :: i <= k < j ==> IsWhitespace(s[k])
    ensures 0 < i ==> !IsWhitespace(s[i - 1])
  {
    if 0 < j && IsWhitespace(s[j - 1]) then BackWhitespace(s, j - 1) else j
  }

  /** `s.trim()` */
  function Trim(s: string): (r: string)
    ensures IsTrimmed(r)
    ensures |r| <= |s|
    ensures AllWhitespace(s) ==> r == []
  {
    var i := SkipWhitespace(s, 0);
    var j := BackWhitespace(s, |s|);
    if i < j then s[i..j] else []
  }

  /** Trimming removes exactly the whitespace padding: `Trim(w1 + t + w2) == t`
      for whitespace-only `w1`, `w2` and an already trimmed `t`. */
  lemma TrimPadded(w1: string, t: string, w2: string)
    requires AllWhitespace(w1) && AllWhitespace(w2) && IsTrimmed(t)
    ensures Trim(w1 + t + w2) == t
  {
    var s := w1 + t + w2;
    if t == [] {
      assert AllWhitespace(s) by {
        forall k | 0 <= k < |s| ensures IsWhitespace(s[k]) {
          if k < |w1| { assert s[k] == w1[k]; } else { assert s[k] == w2[k - |w1|]; }
        }
      }
    } else {
      SkipPast(s, 0, |w1|);
      BackPast(s, |w1| + |t|, |s|);
      assert s[|w1|..|w1| + |t|] == t;
    }
  }

  /** Trimming padding off a text that starts with a non-whitespace
      character keeps its start, up to any non-whitespace position `head`,
      and drops only whitespace from its end. */
  lemma TrimKeepsHead(w1: string, core: string, w2: string, head: nat)
    requires AllWhitespace(w1) && AllWhitespace(w2)
    requires 0 < head <= |core| && !IsWhitespace(core[0]) && !IsWhitespace(core[head - 1])
    ensures head <= |Trim(w1 + core + w2)| <= |core|
    ensures core[..|Trim(w1 + core + w2)|] == Trim(w1 + core + w2)
    ensures AllWhitespace(core[|Trim(w1 + core + w2)|..])
  {
    var s := w1 + core + w2;
    var n := |w1|;
    assert s[n] == core[0];
    SkipPast(s, 0, n);
    var j := BackWhitespace(s, |s|);
    assert s[n + head - 1] == core[head - 1];
    assert j <= n + |core| by {
      forall k | n + |core| <= k < |s| ensures IsWhitespace(s[k]) {
        assert s[k] == w2[k - n - |core|];
      }
    }
    assert Trim(s) == s[n..j];
    assert s[n..j] == core[..j - n];
    forall k | j - n <= k < |core| ensures IsWhitespace(core[k]) {
      assert s[n + k] == core[k];
    }
  }

  /** A trimmed string is its own trim. */
  lemma TrimIdempotent(t: string)
    requires IsTrimmed(t)
    ensures Trim(t) == t
  {
    TrimPadded([], t, []);
    assert [] + t + [] == t;
  }

  lemma SkipPast(s: string, i: nat, j: nat)
    requires i <= j < |s|
    requires forall k :: i <= k < j ==> IsWhitespace(s[k])
    requires !IsWhitespace(s[j])
    ensures SkipWhitespace(s, i) == j
    decreases j - i
  {
    if i < j { SkipPast(s, i + 1, j); }
  }

  lemma BackPast(s: string, i: nat, j: nat)
    requires 0 < i <= j <= |s|
    requires forall k :: i <= k < j ==> IsWhitespace(s[k])
    requires !IsWhitespace(s[i - 1])
    ensures BackWhitespace(s, j) == i
    decreases j - i
  {
    if i < j { BackPast(s, i, j - 1); }
  }

  /** `parts.join(sep)` */
  function Join(parts: seq<string>, sep: string): string {
    if |parts| == 0 then ""
    else if |parts| == 1 then parts[0]
    else parts[0] + sep + Join(parts[1..], sep)
  }

  /** The last piece is joined on after the others. */
  lemma {:induction false} JoinLast(parts: seq<string>, sep: string)
    requires |parts| > 1
    ensures Join(parts, sep) == Join(parts[..|parts| - 1], sep) + sep + parts[|parts| - 1]
    decreases |parts|
  {
    var n := |parts|;
    if n > 2 {
      JoinLast(parts[1..], sep);
      assert parts[1..][..n - 2] == parts[..n - 1][1..];
      assert parts[1..][n - 2] == parts[n - 1];
    } else {
      assert parts[1..] == [parts[1]];
    }
  }

  /** `s.split(sep)` for a one-character separator: the maximal separator-free
      pieces, in order, which joined back with the separator give `s`. */
  function Split(s: string, sep: char): (parts: seq<string>)
    ensures |parts| >= 1
    ensures forall i :: 0 <= i < |parts| ==> sep !in parts[i]
    ensures Join(parts, [sep]) == s
    decreases |s|
  {
    if |s| == 0 then [""]
    else
      var rest := Split(s[1..], sep);
      if s[0] == sep then
        assert s == [sep] + Join(rest, [sep]);
        [""] + rest
      else
        var parts := [[s[0]] + rest[0]] + rest[1..];
        assert Join(parts, [sep]) == s by {
          if |rest| > 1 {
            assert Join(rest, [sep]) == rest[0] + [sep] + Join(rest[1..], [sep]);
            assert parts[1..] == rest[1..];
          }
        }
        parts
  }

  /** A separator-free string splits into itself alone. */
  lemma {:induction false} SplitNoSeparator(s: string, sep: char)
    requires sep !in s
    ensures Split(s, sep) == [s]
    decreases |s|
  {
    if |s| > 0 {
      assert sep !in s[1..];
      SplitNoSeparator(s[1..], sep);
    }
  }

  /** Splitting distributes over a separator: the pieces of `a + [sep] + b`
      are those of `a` (separator-free) followed by those of `b`. */
  lemma {:induction false} SplitAtSeparator(a: string, sep: char, b: string)
    requires sep !in a
    ensures Split(a + [sep] + b, sep) == [a] + Split(b, sep)
    decreases |a|
  {
    var s := a + [sep] + b;
    if |a| == 0 {
      assert s[1..] == b;
    } else {
      assert s[1..] == a[1..] + [sep] + b;
      assert sep !in a[1..];
      SplitAtSeparator(a[1..], sep, b);
      assert [a[0]] + a[1..] == a;
    }
  }

  /** Splitting at one separator concatenates the pieces of both sides. */
  lemma {:induction false} SplitConcat(x: string, sep: char, y: string)
    ensures Split(x + [sep] + y, sep) == Split(x, sep) + Split(y, sep)
    decreases |x|
  {
    if |x| == 0 {
      assert x + [sep] + y == [sep] + y;
      SplitConsSeparator(sep, y, sep);
      assert Split(x, sep) == [""];
    } else {
      var t := x[1..] + [sep] + y;
      assert x + [sep] + y == [x[0]] + t;
      assert x == [x[0]] + x[1..];
      SplitConcat(x[1..], sep, y);
      ConsConcat(x[0], sep, x[1..], t, Split(y, sep));
    }
  }

  /** Putting a character in front of two strings keeps a common tail of
      their pieces. */
  lemma ConsConcat(c: char, sep: char, u: string, t: string, tail: seq<string>)
    requires Split(t, sep) == Split(u, sep) + tail
    ensures Split([c] + t, sep) == Split([c] + u, sep) + tail
  {
    if c == sep {
      ConsConcatSeparator(c, sep, u, t, tail);
    } else {
      ConsConcatOther(c, sep, u, t, tail);
    }
  }

  lemma ConsConcatSeparator(c: char, sep: char, u: string, t: string, tail: seq<string>)
    requires c == sep && Split(t, sep) == Split(u, sep) + tail
    ensures Split([c] + t, sep) == Split([c] + u, sep) + tail
  {
    SplitConsSeparator(c, t, sep);
    SplitConsSeparator(c, u, sep);
    EmptyHead(Split(u, sep), Split(t, sep), tail);
  }

  /** The list step behind `ConsConcatSeparator`. */
  lemma EmptyHead(ru: seq<string>, rt: seq<string>, tail: seq<string>)
    requires rt == ru + tail
    ensures [""] + rt == ([""] + ru) + tail
  {
  }

  lemma ConsConcatOther(c: char, sep: char, u: string, t: string, tail: seq<string>)
    requires c != sep && Split(t, sep) == Split(u, sep) + tail
    ensures Split([c] + t, sep) == Split([c] + u, sep) + tail
  {
    SplitConsOther(c, t, sep);
    SplitConsOther(c, u, sep);
    ConsHead(c, Split(u, sep), Split(t, sep), tail);
  }

  /** The list step behind `ConsConcat`: gluing `c` onto the first piece
      keeps a common tail. */
  lemma ConsHead(c: char, ru: seq<string>, rt: seq<string>, tail: seq<string>)
    requires |ru| >= 1 && rt == ru + tail
    ensures [[c] + rt[0]] + rt[1..] == ([[c] + ru[0]] + ru[1..]) + tail
  {
    assert rt[0] == ru[0];
    assert rt[1..] == ru[1..] + tail;
  }

  /** One step of the splitting, at a separator. */
  lemma SplitConsSeparator(c: char, t: string, sep: char)
    requires c == sep
    ensures Split([c] + t, sep) == [""] + Split(t, sep)
  {
    assert ([c] + t)[1..] == t;
  }

  /** One step of the splitting, at any other character. */
  lemma SplitConsOther(c: char, t: string, sep: char)
    requires c != sep
    ensures Split([c] + t, sep) == [[c] + Split(t, sep)[0]] + Split(t, sep)[1..]
  {
    assert ([c] + t)[1..] == t;
  }

  /** `s.split(sep)` has more than one piece exactly when `sep` occurs in `s`. */
  lemma SplitCount(s: string, sep: char)
    ensures |Split(s, sep)| > 1 <==> sep in s
  {
    var parts := Split(s, sep);
    if |parts| > 1 {
      assert s == parts[0] + [sep] + Join(parts[1..], [sep]);
      assert s[|parts[0]|] == sep;
    }
  }

  /** The text before the first `sep`, or all of `s`: `s.split(sep)[0]`. */
  function BeforeFirst(s: string, sep: char): (r: string)
    ensures sep !in r
    ensures r == s || (|r| < |s| && s[..|r| + 1] == r + [sep])
  {
    var parts := Split(s, sep);
    SplitHead(s, sep);
    parts[0]
  }

  lemma {:induction false} SplitHead(s: string, sep: char)
    ensures Split(s, sep)[0] == s || (|Split(s, sep)[0]| < |s| && s[..|Split(s, sep)[0]| + 1] == Split(s, sep)[0] + [sep])
    decreases |s|
  {
    if |s| > 0 && s[0] != sep {
      SplitHead(s[1..], sep);
      var h := Split(s[1..], sep)[0];
      if h != s[1..] {
        assert s[..|h| + 2] == [s[0]] + s[1..][..|h| + 1];
      }
    }
  }

  /** `s.startsWith(p)` */
  predicate StartsWith(s: string, p: string) {
    |p| <= |s| && s[..|p|] == p
  }

  function Clamp(x: int, n: nat): (r: nat)
    ensures r <= n
  {
    if x < 0 then 0 else if x > n then n else x
  }

  /** `s.substring(a, b)`: both bounds are clamped to `0..|s|`, and they are
      swapped when the first exceeds the second. */
  function Substring(s: string, a: int, b: int): (r: string)
    ensures |r| <= |s|
    ensures 0 <= a <= b <= |s| ==> r == s[a..b]
    ensures 0 <= b <= a <= |s| ==> r == s[b..a]
    ensures a <= 0 && |s| <= b ==> r == s
  {
    var x := Clamp(a, |s|);
    var y := Clamp(b, |s|);
    if x <= y then s[x..y] else s[y..x]
  }

  /** `c.toUpperCase()` for ASCII letters (other characters are kept). */
  function UpperChar(c: char): char {
    if 'a' <= c <= 'z' then (c as int - 32) as char else c
  }

  /** `c.toLowerCase()` for ASCII letters (other characters are kept). */
  function LowerChar(c: char): char {
    if 'A' <= c <= 'Z' then (c as int + 32) as char else c
  }

  function ToUpper(s: string): (r: string)
    ensures |r| == |s|
    ensures forall i :: 0 <= i < |s| ==> r[i] == UpperChar(s[i])
  {
    seq(|s|, i requires 0 <= i < |s| => UpperChar(s[i]))
  }

  function ToLower(s: string): (r: string)
    ensures |r| == |s|
    ensures forall i :: 0 <= i < |s| ==> r[i] == LowerChar(s[i])
  {
    seq(|s|, i requires 0 <= i < |s| => LowerChar(s[i]))
  }

  function DigitValue(c: char): nat
    requires IsDigit(c)
  {
    c as int - '0' as int
  }

  function DigitChar(d: nat): (c: char)
    requires d < 10
    ensures IsDigit(c) && DigitValue(c) == d
  {
    ('0' as int + d) as char
  }

  /** `parseInt(digits, 10)` on a non-empty run of decimal digits, with
      unbounded precision. */
  function DecimalValue(digits: string): nat
    requires AllDigits(digits)
  {
    if |digits| == 0 then 0
    else DecimalValue(digits[..|digits| - 1]) * 10 + DigitValue(digits[|digits| - 1])
  }

  /** `n.toString()` for a natural number: its decimal digits, without
      leading zeros. */
  function NatToDecimal(n: nat): (r: string)
    ensures AllDigits(r) && |r| >= 1
    ensures DecimalValue(r) == n
    ensures r[0] != '0' || n == 0
  {
    if n < 10 then [DigitChar(n)]
    else
      var r := NatToDecimal(n / 10) + [DigitChar(n % 10)];
      assert r[..|r| - 1] == NatToDecimal(n / 10);
      r
  }

  /** A number between `10^k` and `10^(k+1)` has `k + 1` decimal digits. */
  lemma {:induction false} DecimalLength(n: nat, k: nat)
    requires Pow10(k) <= n < Pow10(k + 1)
    ensures |NatToDecimal(n)| == k + 1
  {
    if k > 0 {
      DecimalLength(n / 10, k - 1);
    }
  }

  function Pow10(k: nat): (p: nat)
    ensures p >= 1
  {
    if k == 0 then 1 else 10 * Pow10(k - 1)
  }
}
