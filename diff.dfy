/**
 * The pure half of `show_diff` (bin/ralph-format.py, lines 228-253): the
 * unified-diff text built from a tool result's `structuredPatch` before it is
 * piped through delta, with one `@@ -a,b +c,d @@` header per hunk.
 */
module Diff {
  import opened Text
  import opened JsonValue

  /** `f"@@ -{old_start},{old_count} +{new_start},{new_count} @@"`, missing fields read as 0. */
  function HunkHeader(patch: seq<(string, Json)>): string {
    "@@ -" + Show(Get(patch, "oldStart", JInt(0))) + "," + Show(Get(patch, "oldLines", JInt(0)))
    + " +" + Show(Get(patch, "newStart", JInt(0))) + "," + Show(Get(patch, "newLines", JInt(0))) + " @@"
  }

  /** Reads `a,b` back into two integers. */
  function ReadPair(t: string): Option<(int, int)> {
    var ps := SplitOn(t, ',');
    if |ps| != 2 then None
    else
      match (PyInt(ps[0]), PyInt(ps[1]))
      case (Some(a), Some(b)) => Some((a, b))
      case _ => None
  }

  /** Reads a hunk header back into its four numbers: the partner of HunkHeader. */
  function ReadHunk(h: string): Option<(int, int, int, int)> {
    if |h| < 7 || h[..4] != "@@ -" || h[|h| - 3..] != " @@" then None
    else ReadRanges(h[4..|h| - 3])
  }

  /** Reads `a,b +c,d` back into its two ranges. */
  function ReadRanges(m: string): Option<(int, int, int, int)> {
    var parts := SplitOn(m, ' ');
    if |parts| != 2 || |parts[1]| == 0 || parts[1][0] != '+' then None
    else BothRanges(ReadPair(parts[0]), ReadPair(parts[1][1..]))
  }

  function BothRanges(o: Option<(int, int)>, n: Option<(int, int)>): Option<(int, int, int, int)> {
    if o.Some? && n.Some? then Some((o.value.0, o.value.1, n.value.0, n.value.1)) else None
  }

  lemma ReadPairOf(a: int, b: int)
    ensures ReadPair(IntToString(a) + "," + IntToString(b)) == Some((a, b))
  {
    var x, y := IntToString(a), IntToString(b);
    assert x + "," + y == x + [','] + y;
    SplitAround(x, y, ',');
    IntToStringAvoids(a, ',');
    IntToStringAvoids(b, ',');
    SplitNone(x, ',');
    SplitNone(y, ',');
    PyIntRoundTrip(a);
    PyIntRoundTrip(b);
  }

  /** A header built from two ranges without blanks reads back as those ranges. */
  lemma ReadHunkOf(o: string, n: string)
    requires forall k | 0 <= k < |o| :: o[k] != ' '
    requires forall k | 0 <= k < |n| :: n[k] != ' '
    ensures ReadHunk("@@ -" + o + " +" + n + " @@") == BothRanges(ReadPair(o), ReadPair(n))
  {
    var h := "@@ -" + o + " +" + n + " @@";
    var mid := o + " +" + n;
    assert h == "@@ -" + mid + " @@";
    Framed("@@ -", mid, " @@");
    ReadRangesOf(o, n);
  }

  /** The middle of a header splits at its one blank into the two ranges. */
  lemma ReadRangesOf(o: string, n: string)
    requires forall k | 0 <= k < |o| :: o[k] != ' '
    requires forall k | 0 <= k < |n| :: n[k] != ' '
    ensures ReadRanges(o + " +" + n) == BothRanges(ReadPair(o), ReadPair(n))
  {
    var pn := "+" + n;
    assert o + " +" + n == o + [' '] + pn;
    assert forall k | 0 <= k < |pn| :: pn[k] != ' ';
    SplitAround(o, pn, ' ');
    SplitNone(o, ' ');
    SplitNone(pn, ' ');
    var parts := SplitOn(o + [' '] + pn, ' ');
    assert parts == [o, pn];
    assert parts[1][0] == '+' && parts[1][1..] == n;
  }

  /** The slices of a text framed by a prefix and a suffix. */
  lemma Framed(p: string, m: string, q: string)
    ensures var h := p + m + q;
      && h[..|p|] == p && h[|h| - |q|..] == q && h[|p|..|h| - |q|] == m
  {
    var h := p + m + q;
    assert h[..|p|] == p;
    assert h[|h| - |q|..] == q;
    assert h[|p|..|h| - |q|] == m;
  }

  lemma ShowInt(i: int)
    ensures Show(JInt(i)) == IntToString(i)
  {
  }

  lemma RangeHasNoBlank(a: int, b: int)
    ensures var o := IntToString(a) + "," + IntToString(b);
      forall k | 0 <= k < |o| :: o[k] != ' '
  {
    IntToStringAvoids(a, ' ');
    IntToStringAvoids(b, ' ');
  }

  /**
   * A hunk whose four fields are integers (or missing, hence 0) gets a header
   * that names exactly those four numbers, old range first.
   */
  lemma HunkRoundTrip(patch: seq<(string, Json)>, a: int, b: int, c: int, d: int)
    requires Get(patch, "oldStart", JInt(0)) == JInt(a) && Get(patch, "oldLines", JInt(0)) == JInt(b)
    requires Get(patch, "newStart", JInt(0)) == JInt(c) && Get(patch, "newLines", JInt(0)) == JInt(d)
    ensures ReadHunk(HunkHeader(patch)) == Some((a, b, c, d))
  {
    var o := IntToString(a) + "," + IntToString(b);
    var n := IntToString(c) + "," + IntToString(d);
    ShowInt(a);
    ShowInt(b);
    ShowInt(c);
    ShowInt(d);
    assert HunkHeader(patch) == "@@ -" + o + " +" + n + " @@";
    RangeHasNoBlank(a, b);
    RangeHasNoBlank(c, d);
    ReadHunkOf(o, n);
    ReadPairOf(a, b);
    ReadPairOf(c, d);
  }

  /** A hunk without any of the four fields counts from zero. */
  lemma EmptyHunkHeader()
    ensures HunkHeader([]) == "@@ -0,0 +0,0 @@"
  {
  }

  /** One hunk's lines: its header, then its `lines`; `None` where Python raises. */
  function HunkLines(patch: Json): Option<seq<Json>> {
    if !patch.JObj? then None
    else
      match Iter(Get(patch.entries, "lines", JList([])))
      case None => None
      case Some(ls) => Some([JStr(HunkHeader(patch.entries))] + ls)
  }

  /** What `show_diff` demands of a hunk: a dict whose `lines`, if present, can be iterated. */
  predicate HunkOk(patch: Json) {
    patch.JObj? && Iter(Get(patch.entries, "lines", JList([]))).Some?
  }

  lemma HunkLinesOk(patch: Json)
    ensures HunkLines(patch).Some? <==> HunkOk(patch)
  {
  }

  /**
   * A hunk's lines open with its header, from which its four integer fields
   * read back, and go on with its own `lines` in order.
   */
  lemma HunkLinesHeader(patch: Json, a: int, b: int, c: int, d: int)
    requires patch.JObj?
    requires Get(patch.entries, "oldStart", JInt(0)) == JInt(a) && Get(patch.entries, "oldLines", JInt(0)) == JInt(b)
    requires Get(patch.entries, "newStart", JInt(0)) == JInt(c) && Get(patch.entries, "newLines", JInt(0)) == JInt(d)
    ensures HunkLines(patch).Some? ==>
      var h := HunkLines(patch).value;
      && |h| >= 1 && h[0].JStr? && ReadHunk(h[0].s) == Some((a, b, c, d))
      && h[1..] == Iter(Get(patch.entries, "lines", JList([]))).value
  {
    HunkRoundTrip(patch.entries, a, b, c, d);
    if HunkLines(patch).Some? {
      var ls := Iter(Get(patch.entries, "lines", JList([]))).value;
      assert ([JStr(HunkHeader(patch.entries))] + ls)[1..] == ls;
    }
  }

  /** The lines of the first `n` hunks. */
  function PatchLinesUpTo(ps: seq<Json>, n: nat): Option<seq<Json>>
    requires n <= |ps|
  {
    if n == 0 then Some([])
    else
      match PatchLinesUpTo(ps, n - 1)
      case None => None
      case Some(prev) =>
        match HunkLines(ps[n - 1])
        case None => None
        case Some(h) => Some(prev + h)
  }

  /** The `--- path` and `+++ path` lines. */
  function FileHeaders(filePath: Json): seq<Json> {
    [JStr("--- " + Show(filePath)), JStr("+++ " + Show(filePath))]
  }

  /** `diff_lines`; `None` where building it raises before delta is started. */
  function DiffLines(filePath: Json, patches: Json): Option<seq<Json>> {
    match Iter(patches)
    case None => None
    case Some(ps) =>
      match PatchLinesUpTo(ps, |ps|)
      case None => None
      case Some(body) => Some(FileHeaders(filePath) + body)
  }

  /**
   * The diff is built exactly when `patches` can be iterated and every hunk
   * is a dict whose `lines` can be iterated; it then starts with the two file
   * headers, and a hunk's header directly follows the lines of the hunks
   * before it.
   */
  lemma DiffLinesDefined(filePath: Json, ps: seq<Json>)
    ensures DiffLines(filePath, JList(ps)).Some? <==> forall i | 0 <= i < |ps| :: HunkOk(ps[i])
    ensures DiffLines(filePath, JList(ps)).Some? ==>
      DiffLines(filePath, JList(ps)).value[..2] == FileHeaders(filePath)
  {
    PatchLinesDefined(ps, |ps|);
  }

  lemma {:induction false} PatchLinesDefined(ps: seq<Json>, n: nat)
    requires n <= |ps|
    ensures PatchLinesUpTo(ps, n).Some? <==> forall i | 0 <= i < n :: HunkOk(ps[i])
  {
    if n > 0 {
      PatchLinesDefined(ps, n - 1);
      HunkLinesOk(ps[n - 1]);
    }
  }

  lemma {:induction false} PatchLinesAppend(ps: seq<Json>, p: Json)
    ensures PatchLinesUpTo(ps + [p], |ps| + 1).Some? <==> PatchLinesUpTo(ps, |ps|).Some? && HunkLines(p).Some?
    ensures PatchLinesUpTo(ps + [p], |ps| + 1).Some? ==>
      PatchLinesUpTo(ps + [p], |ps| + 1).value == PatchLinesUpTo(ps, |ps|).value + HunkLines(p).value
  {
    PrefixAgrees(ps + [p], ps, |ps|);
  }

  lemma {:induction false} PrefixAgrees(a: seq<Json>, b: seq<Json>, n: nat)
    requires n <= |a| && n <= |b| && a[..n] == b[..n]
    ensures PatchLinesUpTo(a, n) == PatchLinesUpTo(b, n)
  {
    if n > 0 {
      assert a[n - 1] == a[..n][n - 1] == b[..n][n - 1] == b[n - 1];
      assert a[..n - 1] == a[..n][..n - 1];
      assert b[..n - 1] == b[..n][..n - 1];
      PrefixAgrees(a, b, n - 1);
    }
  }

  /** The text written to delta's input: every line must be a string. */
  predicate AllText(lines: seq<Json>) {
    forall i | 0 <= i < |lines| :: lines[i].JStr?
  }

  function Texts(lines: seq<Json>): (r: seq<string>)
    requires AllText(lines)
    ensures |r| == |lines| && forall i | 0 <= i < |lines| :: lines[i] == JStr(r[i])
  {
    seq(|lines|, i requires 0 <= i < |lines| => lines[i].s)
  }

  /** `"\n".join(diff_lines) + "\n"`; `None` where the join raises (caught by `show_diff`). */
  function DiffInput(lines: seq<Json>): Option<string> {
    if AllText(lines) then Some(Join(Texts(lines), "\n") + "\n") else None
  }

  /** The start of `show_diff`: the two file headers, then the hunks. */
  method BuildDiffLines(filePath: Json, patches: Json) returns (r: Option<seq<Json>>)
    ensures r == DiffLines(filePath, patches)
  {
    var it := Iter(patches);
    if it.None? {
      return None;
    }
    var body := BuildPatchLines(it.value);
    if body.None? {
      return None;
    }
    r := Some(FileHeaders(filePath) + body.value);
  }

  /** The `for patch in patches` loop that extends `diff_lines` hunk by hunk. */
  method BuildPatchLines(ps: seq<Json>) returns (r: Option<seq<Json>>)
    ensures r == PatchLinesUpTo(ps, |ps|)
  {
    var acc: seq<Json> := [];
    var i := 0;
    while i < |ps|
      invariant 0 <= i <= |ps|
      invariant PatchLinesUpTo(ps, i) == Some(acc)
    {
      var patch := ps[i];
      if !patch.JObj? {
        PatchLinesDefined(ps, |ps|);
        return None;
      }
      var lines := Iter(Get(patch.entries, "lines", JList([])));
      if lines.None? {
        PatchLinesDefined(ps, |ps|);
        return None;
      }
      acc := acc + ([JStr(HunkHeader(patch.entries))] + lines.value);
      i := i + 1;
    }
    r := Some(acc);
  }
}
