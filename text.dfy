/**
 * String helpers with the semantics of the Python built-ins both scripts use
 * (`str.strip`, `str.split`, `in`, `str.replace`, slicing with negative bounds,
 * `int()`, `str()` of an integer), over strings of code points.
 */
module Text {

  datatype Option<+T> = None | Some(value: T)

  function Min(a: int, b: int): int { if a <= b then a else b }
  function Max(a: int, b: int): int { if a >= b then a else b }

  // ---------------------------------------------------------------- whitespace

  /** Python's `str.isspace()` for one code point. */
  predicate IsSpace(c: char) {
    c == ' ' || ('\t' <= c <= '\r') || ('\U{1C}' <= c <= '\U{1F}') || c == '\U{85}' || c == '\U{A0}'
    || c == '\U{1680}' || ('\U{2000}' <= c <= '\U{200A}') || c == '\U{2028}' || c == '\U{2029}'
    || c == '\U{202F}' || c == '\U{205F}' || c == '\U{3000}'
  }

  /** `not s.strip()`: the string is empty or only whitespace. */
  predicate IsBlank(s: string) {
    forall i | 0 <= i < |s| :: IsSpace(s[i])
  }

  predicate NoSpace(s: string) {
    forall i | 0 <= i < |s| :: !IsSpace(s[i])
  }

  /** Number of whitespace code points at the front of `s`. */
  function LeadingSpaces(s: string): (n: nat)
    ensures n <= |s|
    ensures forall i | 0 <= i < n :: IsSpace(s[i])
    ensures n < |s| ==> !IsSpace(s[n])
  {
    if |s| > 0 && IsSpace(s[0]) then 1 + LeadingSpaces(s[1..]) else 0
  }

  /** Number of whitespace code points at the end of `s`. */
  function TrailingSpaces(s: string): (n: nat)
    ensures n <= |s|
    ensures forall i | |s| - n <= i < |s| :: IsSpace(s[i])
    ensures n < |s| ==> !IsSpace(s[|s| - n - 1])
  {
    if |s| > 0 && IsSpace(s[|s| - 1]) then 1 + TrailingSpaces(s[..|s| - 1]) else 0
  }

  /** Python's `s.strip()`. */
  function Strip(s: string): (r: string)
    ensures IsBlank(s) <==> r == []
    ensures r != [] ==> !IsSpace(r[0]) && !IsSpace(r[|r| - 1])
    ensures LeadingSpaces(s) + |r| <= |s|
    ensures r == s[LeadingSpaces(s)..LeadingSpaces(s) + |r|]
    ensures IsBlank(s[LeadingSpaces(s) + |r|..])
  {
    var a := LeadingSpaces(s);
    if a == |s| then []
    else
      var t := TrailingSpaces(s);
      assert t <= |s| - a - 1;
      s[a..|s| - t]
  }

  /** Python's `s.rstrip()`: the trailing whitespace goes, nothing else. */
  function RStrip(s: string): (r: string)
    ensures |r| <= |s| && r == s[..|r|] && IsBlank(s[|r|..])
    ensures r != [] ==> !IsSpace(r[|r| - 1])
  {
    s[..|s| - TrailingSpaces(s)]
  }

  // ---------------------------------------------------------------- searching

  predicate StartsWith(s: string, p: string) {
    |p| <= |s| && s[..|p|] == p
  }

  /** Python's `p in s` for strings. */
  predicate Contains(s: string, p: string)
    decreases |s|
  {
    StartsWith(s, p) || (|s| > 0 && Contains(s[1..], p))
  }

  lemma {:induction false} ContainsAt(s: string, p: string, k: nat)
    requires k + |p| <= |s| && s[k..k + |p|] == p
    ensures Contains(s, p)
    decreases k
  {
    if k > 0 {
      assert s[1..][k - 1..k - 1 + |p|] == s[k..k + |p|];
      ContainsAt(s[1..], p, k - 1);
    }
  }

  lemma {:induction false} ContainsWitness(s: string, p: string) returns (k: nat)
    requires Contains(s, p)
    ensures k + |p| <= |s| && s[k..k + |p|] == p
    decreases |s|
  {
    if StartsWith(s, p) {
      k := 0;
    } else {
      var j := ContainsWitness(s[1..], p);
      assert s[1 + j..1 + j + |p|] == s[1..][j..j + |p|];
      k := 1 + j;
    }
  }

  /** A string contains whatever a part of it contains. */
  lemma ContainsWithin(s: string, i: nat, j: nat, p: string)
    requires i <= j <= |s| && Contains(s[i..j], p)
    ensures Contains(s, p)
  {
    var k := ContainsWitness(s[i..j], p);
    SliceOfSlice(s, i, j, k, |p|);
    ContainsAt(s, p, i + k);
  }

  lemma SliceOfSlice(s: string, i: nat, j: nat, k: nat, n: nat)
    requires i <= j <= |s| && k + n <= j - i
    ensures s[i..j][k..k + n] == s[i + k..i + k + n]
  {
    var t := s[i..j];
    assert forall m | 0 <= m < |t| :: t[m] == s[i + m];
    var u := t[k..k + n];
    assert forall m | 0 <= m < n :: u[m] == t[k + m];
  }

  /**
   * `s.replace(p, "")` for a non-empty `p`: the occurrences of `p` found
   * scanning from the left, without overlap, are removed.
   */
  function RemoveAll(s: string, p: string): (r: string)
    requires |p| > 0
    ensures |r| <= |s|
    ensures !Contains(s, p) ==> r == s
    decreases |s|
  {
    if |s| == 0 then []
    else if StartsWith(s, p) then RemoveAll(s[|p|..], p)
    else [s[0]] + RemoveAll(s[1..], p)
  }

  // ---------------------------------------------------------------- slicing

  /** Python's `c * n` for a one-character string. */
  function Repeat(c: char, n: int): (r: string)
    ensures |r| == Max(0, n)
    ensures forall i | 0 <= i < |r| :: r[i] == c
    decreases n
  {
    if n <= 0 then [] else [c] + Repeat(c, n - 1)
  }

  /** Python's `s[:n]`; a negative `n` counts from the end. */
  function Prefix(s: string, n: int): (r: string)
    ensures |r| <= |s| && r == s[..|r|]
    ensures n >= 0 ==> |r| == Min(n, |s|)
    ensures n < 0 ==> |r| == Max(0, |s| + n)
  {
    if n >= 0 then s[..Min(n, |s|)] else s[..Max(0, |s| + n)]
  }

  /** Python's `s[start:]`; a negative `start` counts from the end. */
  function SliceFrom(s: string, start: int): (r: string)
    ensures |r| <= |s| && r == s[|s| - |r|..]
    ensures start >= 0 ==> |r| == Max(0, |s| - start)
    ensures start < 0 ==> |r| == Min(-start, |s|)
  {
    if start >= 0 then s[Min(start, |s|)..] else s[Max(0, |s| + start)..]
  }

  // ---------------------------------------------------------------- split and join

  /** Python's `sep.join(ss)`. */
  function Join(ss: seq<string>, sep: string): string {
    if |ss| == 0 then []
    else if |ss| == 1 then ss[0]
    else ss[0] + sep + Join(ss[1..], sep)
  }

  /** `s.split(c)` for a one-character separator: never empty, no piece holds `c`. */
  function SplitOn(s: string, c: char): (r: seq<string>)
    ensures |r| >= 1
    ensures forall i, j | 0 <= i < |r| && 0 <= j < |r[i]| :: r[i][j] != c
  {
    if |s| == 0 then [[]]
    else if s[0] == c then [[]] + SplitOn(s[1..], c)
    else
      var rest := SplitOn(s[1..], c);
      [[s[0]] + rest[0]] + rest[1..]
  }

  lemma {:induction false} SplitJoin(s: string, c: char)
    ensures Join(SplitOn(s, c), [c]) == s
  {
    if |s| > 0 {
      SplitJoin(s[1..], c);
      var rest := SplitOn(s[1..], c);
      if s[0] == c {
        assert SplitOn(s, c)[1..] == rest;
      } else {
        var r := SplitOn(s, c);
        assert r[1..] == rest[1..];
        if |rest| > 1 {
          assert Join(rest, [c]) == rest[0] + [c] + Join(rest[1..], [c]);
        }
      }
    }
  }

  /** A string without the separator splits into itself. */
  lemma {:induction false} SplitNone(s: string, c: char)
    requires forall i | 0 <= i < |s| :: s[i] != c
    ensures SplitOn(s, c) == [s]
  {
    if |s| > 0 {
      SplitNone(s[1..], c);
      assert [s[0]] + s[1..] == s;
    }
  }

  /** Splitting distributes over one occurrence of the separator. */
  lemma {:induction false} SplitAround(u: string, v: string, c: char)
    ensures SplitOn(u + [c] + v, c) == SplitOn(u, c) + SplitOn(v, c)
  {
    if |u| == 0 {
      assert [c] + v == u + [c] + v;
      assert (u + [c] + v)[1..] == v;
    } else {
      assert (u + [c] + v)[1..] == u[1..] + [c] + v;
      SplitAround(u[1..], v, c);
    }
  }

  /** Python's `s.split()`: the maximal runs of non-whitespace, in order. */
  function Words(s: string): (r: seq<string>)
    ensures forall i | 0 <= i < |r| :: r[i] != [] && NoSpace(r[i])
    decreases |s|
  {
    var a := LeadingSpaces(s);
    if a == |s| then []
    else
      var t := s[a..];
      var k := WordLength(t);
      var w := t[..k];
      assert w != [] && NoSpace(w);
      [w] + Words(t[k..])
  }

  /** Length of the run of non-whitespace at the front of `s`. */
  function WordLength(s: string): (k: nat)
    ensures k <= |s|
    ensures forall i | 0 <= i < k :: !IsSpace(s[i])
    ensures k < |s| ==> IsSpace(s[k])
    ensures |s| > 0 && !IsSpace(s[0]) ==> k > 0
  {
    if |s| > 0 && !IsSpace(s[0]) then 1 + WordLength(s[1..]) else 0
  }

  lemma {:induction false} WordLengthOf(w: string, rest: string)
    requires NoSpace(w) && (rest == [] || IsSpace(rest[0]))
    ensures WordLength(w + rest) == |w|
  {
    if |w| > 0 {
      assert (w + rest)[1..] == w[1..] + rest;
      WordLengthOf(w[1..], rest);
    }
  }

  lemma {:induction false} LeadingSpacesOf(b: string, rest: string)
    requires IsBlank(b) && (rest == [] || !IsSpace(rest[0]))
    ensures LeadingSpaces(b + rest) == |b|
  {
    if |b| > 0 {
      assert (b + rest)[1..] == b[1..] + rest;
      LeadingSpacesOf(b[1..], rest);
    }
  }

  /** Whitespace in front does not change the words. */
  lemma WordsAfterBlank(b: string, rest: string)
    requires IsBlank(b) && (rest == [] || !IsSpace(rest[0]))
    ensures Words(b + rest) == Words(rest)
  {
    LeadingSpacesOf(b, rest);
    assert (b + rest)[|b|..] == rest;
    LeadingSpacesOf([], rest);
    assert [] + rest == rest;
    assert rest[0..] == rest;
  }

  /** A string that starts with a word splits into that word and the words after it. */
  lemma WordsFront(s: string)
    requires s != [] && !IsSpace(s[0])
    ensures Words(s) == [s[..WordLength(s)]] + Words(s[WordLength(s)..])
  {
    assert s[0..] == s;
  }

  /** A word that ends the string after a whitespace character is its last word. */
  lemma {:induction false} WordsEndWith(x: string, c: char, w: string)
    requires IsSpace(c) && w != [] && NoSpace(w)
    ensures Words(x + [c] + w) == Words(x) + [w]
    decreases |x|, 1
  {
    var a := LeadingSpaces(x);
    if a == |x| {
      WordsEndWithBlank(x, c, w);
    } else {
      var b, y := x[..a], x[a..];
      assert x == b + y;
      assert x + [c] + w == b + (y + [c] + w);
      WordsAfterBlank(b, y + [c] + w);
      WordsAfterBlank(b, y);
      WordsEndWithFront(y, c, w);
    }
  }

  /** The same, for a string that starts with a word. */
  lemma {:induction false} WordsEndWithFront(y: string, c: char, w: string)
    requires IsSpace(c) && w != [] && NoSpace(w) && y != [] && !IsSpace(y[0])
    ensures Words(y + [c] + w) == Words(y) + [w]
    decreases |y|, 0
  {
    var k := WordLength(y);
    if k < |y| {
      WordsSplitWord(y, c, w);
      WordsEndWith(y[k..], c, w);
    } else {
      WordsEndWithWord(y, c, w);
    }
  }

  lemma WordsEndWithBlank(x: string, c: char, w: string)
    requires IsSpace(c) && w != [] && NoSpace(w) && LeadingSpaces(x) == |x|
    ensures Words(x + [c] + w) == Words(x) + [w]
  {
    assert IsBlank(x + [c]);
    assert x + [c] + w == (x + [c]) + w;
    WordsAfterBlank(x + [c], w);
    WordsTail(w);
  }

  lemma WordsEndWithWord(y: string, c: char, w: string)
    requires IsSpace(c) && w != [] && NoSpace(w) && y != [] && !IsSpace(y[0]) && WordLength(y) == |y|
    ensures Words(y + [c] + w) == Words(y) + [w]
  {
    assert NoSpace(y);
    var z := y + ([c] + w);
    assert y + [c] + w == z;
    WordLengthOf(y, [c] + w);
    WordsFront(z);
    assert z[..|y|] == y;
    assert z[|y|..] == [c] + w;
    assert Words(z) == [y] + Words([c] + w);
    WordsAfterBlank([c], w);
    WordsTail(w);
    WordsTail(y);
  }

  lemma WordsSplitWord(y: string, c: char, w: string)
    requires y != [] && !IsSpace(y[0]) && WordLength(y) < |y|
    ensures Words(y + [c] + w) == [y[..WordLength(y)]] + Words(y[WordLength(y)..] + [c] + w)
    ensures Words(y) == [y[..WordLength(y)]] + Words(y[WordLength(y)..])
  {
    var k := WordLength(y);
    var y1, y2 := y[..k], y[k..];
    assert y == y1 + y2;
    assert y + [c] + w == y1 + (y2 + [c] + w);
    WordLengthOf(y1, y2 + [c] + w);
    WordsFront(y);
    WordsFront(y + [c] + w);
    assert (y + [c] + w)[..k] == y1;
    assert (y + [c] + w)[k..] == y2 + [c] + w;
  }

  /** A single word with nothing around it. */
  lemma WordsTail(w: string)
    requires w != [] && NoSpace(w)
    ensures Words(w) == [w]
  {
    WordLengthOf(w, []);
    assert w + [] == w;
    WordsFront(w);
    assert w[|w|..] == [];
  }

  // ---------------------------------------------------------------- case

  /** `c.lower()` for ASCII letters; other code points are left as they are. */
  function LowerChar(c: char): char {
    if 'A' <= c <= 'Z' then (c as int + 32) as char else c
  }

  function Lower(s: string): (r: string)
    ensures |r| == |s|
    ensures forall i | 0 <= i < |s| :: r[i] == LowerChar(s[i])
  {
    if |s| == 0 then [] else [LowerChar(s[0])] + Lower(s[1..])
  }

  predicate IsLowerCase(s: string) {
    forall i | 0 <= i < |s| :: !('A' <= s[i] <= 'Z')
  }

  lemma LowerIsLowerCase(s: string)
    ensures IsLowerCase(Lower(s)) && Lower(Lower(s)) == Lower(s)
  {
  }

  /** Lower-casing splits over concatenation and keeps lower-case text. */
  lemma LowerAppend(a: string, b: string)
    ensures Lower(a + b) == Lower(a) + Lower(b)
  {
    var l, m := Lower(a + b), Lower(a) + Lower(b);
    forall i | 0 <= i < |l|
      ensures l[i] == m[i]
    {
      if i < |a| {
        assert (a + b)[i] == a[i];
      } else {
        assert (a + b)[i] == b[i - |a|];
      }
    }
  }

  // ---------------------------------------------------------------- integers

  function DigitChar(d: int): char
    requires 0 <= d < 10
  {
    (48 + d) as char
  }

  predicate IsDigit(c: char) { '0' <= c <= '9' }

  predicate AllDigits(s: string) { forall i | 0 <= i < |s| :: IsDigit(s[i]) }

  /** `str(n)` for a natural number. */
  function NatToString(n: nat): (r: string)
    ensures |r| > 0 && AllDigits(r)
  {
    if n < 10 then [DigitChar(n)] else NatToString(n / 10) + [DigitChar(n % 10)]
  }

  /** `str(i)` for an integer. */
  function IntToString(i: int): (r: string)
    ensures |r| > 0
    ensures forall k | 0 <= k < |r| :: IsDigit(r[k]) || (k == 0 && r[k] == '-')
  {
    if i < 0 then "-" + NatToString(-i) else NatToString(i)
  }

  /** Nothing but digits and a leading minus sign appears in `str(i)`. */
  lemma IntToStringAvoids(i: int, c: char)
    requires c != '-' && !IsDigit(c)
    ensures forall k | 0 <= k < |IntToString(i)| :: IntToString(i)[k] != c
  {
  }

  /** Value of a string of decimal digits, most significant first. */
  function DigitsValue(s: string): nat
    requires AllDigits(s)
  {
    if |s| == 0 then 0 else DigitsValue(s[..|s| - 1]) * 10 + (s[|s| - 1] as int - 48)
  }

  lemma {:induction false} NatToStringValue(n: nat)
    ensures DigitsValue(NatToString(n)) == n
  {
    if n >= 10 {
      NatToStringValue(n / 10);
      var s := NatToString(n);
      assert s[..|s| - 1] == NatToString(n / 10);
    }
  }

  /**
   * A numeral as Python's `int()` accepts it once whitespace is gone: digits,
   * with single underscores allowed between two digits.
   */
  predicate IsNumeral(s: string) {
    |s| > 0 && IsDigit(s[0]) && IsDigit(s[|s| - 1])
    && forall i | 0 <= i < |s| :: IsDigit(s[i]) || (s[i] == '_' && 0 < i < |s| - 1 && IsDigit(s[i + 1]))
  }

  function DropUnderscores(s: string): (r: string)
    ensures forall i | 0 <= i < |r| :: r[i] != '_'
    ensures (forall i | 0 <= i < |s| :: s[i] != '_') ==> r == s
  {
    if |s| == 0 then [] else (if s[0] == '_' then [] else [s[0]]) + DropUnderscores(s[1..])
  }

  lemma {:induction false} DropUnderscoresDigits(s: string)
    requires forall i | 0 <= i < |s| :: IsDigit(s[i]) || s[i] == '_'
    ensures AllDigits(DropUnderscores(s))
  {
    if |s| > 0 { DropUnderscoresDigits(s[1..]); }
  }

  /** Python's `int(t)` on a token with no whitespace; `None` where it raises. */
  function PyInt(t: string): (r: Option<int>)
  {
    var neg := |t| > 0 && t[0] == '-';
    var body := if |t| > 0 && (t[0] == '-' || t[0] == '+') then t[1..] else t;
    if !IsNumeral(body) then None
    else
      DropUnderscoresDigits(body);
      var v: int := DigitsValue(DropUnderscores(body));
      Some(if neg then -v else v)
  }

  /** `int(str(i)) == i`. */
  lemma PyIntRoundTrip(i: int)
    ensures PyInt(IntToString(i)) == Some(i)
  {
    var n := if i < 0 then -i else i;
    var d := NatToString(n);
    NatToStringValue(n);
    assert IsNumeral(d);
    if i < 0 {
      assert IntToString(i)[1..] == d;
    }
  }
}
