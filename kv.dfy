/**
 * The formatter's generic rendering of tool inputs and results: `truncate`,
 * `IGNORE_KEYS`, `is_empty` and the recursive `format_kv`
 * (bin/ralph-format.py, lines 178-225).
 */
module KeyValue {
  import opened Text
  import opened JsonValue
  import opened Ansi

  // ---------------------------------------------------------------- truncate

  /** The note `truncate` appends after the kept characters. */
  function OmittedNote(n: int): string {
    Gray + "... [" + IntToString(n) + " more chars]" + Reset
  }

  const NoteOpen := Gray + "... ["
  const NoteClose := " more chars]" + Reset

  /** Reads the count back out of a note: the partner of OmittedNote. */
  function ReadOmitted(tail: string): Option<int> {
    if |tail| >= |NoteOpen| + |NoteClose| && tail[..|NoteOpen|] == NoteOpen
       && tail[|tail| - |NoteClose|..] == NoteClose
    then PyInt(tail[|NoteOpen|..|tail| - |NoteClose|])
    else None
  }

  lemma ReadOmittedNote(n: int)
    ensures ReadOmitted(OmittedNote(n)) == Some(n)
  {
    var d := IntToString(n);
    var note := OmittedNote(n);
    assert note == NoteOpen + d + NoteClose;
    assert note[..|NoteOpen|] == NoteOpen;
    assert note[|note| - |NoteClose|..] == NoteClose;
    assert note[|NoteOpen|..|note| - |NoteClose|] == d;
    PyIntRoundTrip(n);
  }

  /**
   * `truncate(text, limit)`: text within the limit comes back unchanged; longer
   * text keeps its first `limit` characters and then a note from which the
   * number of dropped characters can be read back.
   */
  function Truncate(text: string, limit: nat): (r: string)
    ensures |text| <= limit ==> r == text
    ensures |text| > limit ==>
      |r| > limit && r[..limit] == text[..limit] && ReadOmitted(r[limit..]) == Some(|text| - limit)
  {
    if |text| > limit then
      var r := text[..limit] + OmittedNote(|text| - limit);
      assert r[limit..] == OmittedNote(|text| - limit);
      ReadOmittedNote(|text| - limit);
      r
    else text
  }

  // ---------------------------------------------------------------- ignored keys

  /** `IGNORE_KEYS`, a set of key names. */
  const IgnoreKeys: set<string> := {
    "type", "durationMs", "session_id", "uuid", "interrupted", "truncated",
    "search_path", "total_lines", "lines_returned", "numFiles", "count",
    "is_error", "num_matches", "parent_tool_use_id", "description",
    "subagent_type", "isImage", "isTruncated"
  }

  /** The test as written: `k.lower() in IGNORE_KEYS`. */
  predicate IsIgnoredKeyAsWritten(k: string) {
    Lower(k) in IgnoreKeys
  }

  /** A lower-case key that differs from every listed key in length or in one character. */
  lemma Unlisted(t: string)
    requires || (|t| == 11 && t[1] == 's' && t[2] == 't') || (|t| == 10 && t[8] == 'm')
             || (|t| == 8 && t[3] == 'f') || (|t| == 7 && t[2] == 'i')
    ensures t !in IgnoreKeys
  {
  }

  /** The camelCase keys lose their capital to `lower()` and are then not listed. */
  lemma LoweredUnlisted(k: string)
    requires || (|k| == 11 && k[1] == 's' && k[2] == 'T') || (|k| == 10 && k[8] == 'M')
             || (|k| == 8 && k[3] == 'F') || (|k| == 7 && k[2] == 'I')
    ensures !IsIgnoredKeyAsWritten(k)
  {
    var t := Lower(k);
    assert |t| == |k|;
    if |k| == 11 {
      assert t[1] == 's' && t[2] == 't';
    } else if |k| == 10 {
      assert t[8] == 'm';
    } else if |k| == 8 {
      assert t[3] == 'f';
    } else {
      assert t[2] == 'i';
    }
    Unlisted(t);
  }

  /**
   * `durationMs`, `numFiles`, `isImage` and `isTruncated` are listed, yet the
   * test as written never ignores them: their lower-cased forms are not listed.
   */
  lemma AsWrittenMissesDurationMs()
    ensures "durationMs" in IgnoreKeys && !IsIgnoredKeyAsWritten("durationMs")
  {
    LoweredUnlisted("durationMs");
  }

  lemma AsWrittenMissesNumFiles()
    ensures "numFiles" in IgnoreKeys && !IsIgnoredKeyAsWritten("numFiles")
  {
    LoweredUnlisted("numFiles");
  }

  lemma AsWrittenMissesIsImage()
    ensures "isImage" in IgnoreKeys && !IsIgnoredKeyAsWritten("isImage")
  {
    LoweredUnlisted("isImage");
  }

  lemma AsWrittenMissesIsTruncated()
    ensures "isTruncated" in IgnoreKeys && !IsIgnoredKeyAsWritten("isTruncated")
  {
    LoweredUnlisted("isTruncated");
  }

  /** Two strings that agree once lower-cased, compared character by character. */
  predicate FoldedEq(a: string, b: string) {
    |a| == |b| && (|a| == 0 || (LowerChar(a[0]) == LowerChar(b[0]) && FoldedEq(a[1..], b[1..])))
  }

  /** The evident intent: a key is ignored when it matches a listed key case-insensitively. */
  predicate IsIgnoredKey(k: string) {
    exists key | key in IgnoreKeys :: FoldedEq(k, key)
  }

  lemma {:induction false} FoldedEqIsLowerEq(a: string, b: string)
    ensures FoldedEq(a, b) <==> Lower(a) == Lower(b)
  {
    if |a| == |b| && |a| > 0 {
      FoldedEqIsLowerEq(a[1..], b[1..]);
      assert Lower(a) == [LowerChar(a[0])] + Lower(a[1..]);
      assert Lower(b) == [LowerChar(b[0])] + Lower(b[1..]);
    }
  }

  /**
   * Over any set of keys: matching some key character by character with case
   * folded is matching some key once both are lower-cased. `IsIgnoredKey` is
   * this match against `IGNORE_KEYS`.
   */
  lemma FoldedMatch(k: string, keys: set<string>)
    ensures (exists key | key in keys :: FoldedEq(k, key)) <==> (exists key | key in keys :: Lower(key) == Lower(k))
  {
    if exists key | key in keys :: FoldedEq(k, key) {
      var key :| key in keys && FoldedEq(k, key);
      FoldedEqIsLowerEq(k, key);
    }
    if exists key | key in keys :: Lower(key) == Lower(k) {
      var key :| key in keys && Lower(key) == Lower(k);
      FoldedEqIsLowerEq(k, key);
    }
  }

  /**
   * The corrected test ignores every listed key as listed, and everything the
   * test as written ignores is still ignored.
   */
  lemma IgnoredKeyCorrected(k: string)
    ensures k in IgnoreKeys ==> IsIgnoredKey(k)
    ensures IsIgnoredKeyAsWritten(k) ==> IsIgnoredKey(k)
  {
    FoldedEqIsLowerEq(k, k);
    if IsIgnoredKeyAsWritten(k) {
      LowerIsLowerCase(k);
      FoldedEqIsLowerEq(k, Lower(k));
    }
  }

  /**
   * The key test a rendering uses: the program's own `k.lower() in
   * IGNORE_KEYS`, or the corrected case-insensitive match. The formatter runs
   * `AsWritten`; `Corrected` is what the list evidently intends.
   */
  datatype KeyTest = AsWritten | Corrected

  predicate Ignored(t: KeyTest, k: string) {
    match t
    case AsWritten => IsIgnoredKeyAsWritten(k)
    case Corrected => IsIgnoredKey(k)
  }

  // ---------------------------------------------------------------- is_empty

  /** `is_empty(v)`: None, False, a blank string, or an empty list or dict. */
  predicate IsEmpty(v: Json) {
    match v
    case JNull => true
    case JBool(b) => !b
    case JInt(_) => false
    case JStr(s) => IsBlank(s)
    case JList(items) => items == []
    case JObj(es) => es == []
  }

  /**
   * Emptiness is falsiness except that 0 is not empty, and a whitespace-only
   * string, though truthy, is.
   */
  lemma EmptyVersusFalsy(v: Json)
    ensures IsEmpty(v) <==> (!Truthy(v) && v != JInt(0)) || (v.JStr? && IsBlank(v.s))
    ensures !IsEmpty(JInt(0)) && !IsEmpty(JBool(true))
  {
  }

  // ---------------------------------------------------------------- format_kv

  function Indent(n: nat): string { Repeat(' ', n) }

  function KeyLine(k: string, indent: nat): string { Indent(indent) + Cyan + k + ":" + Reset }

  function Bullet(indent: nat): string { Indent(indent) + Gray + "•" + Reset }

  function MoreItemsLine(indent: nat, n: int): string {
    Indent(indent) + Gray + "... and " + IntToString(n) + " more" + Reset
  }

  /** `format_kv(data, indent)` with key test `t`: the lines joined by newlines. */
  function KvText(t: KeyTest, data: Json, indent: nat): string
    decreases data, 3, 0
  {
    Join(KvLines(t, data, indent), "\n")
  }

  /** The list `lines` that `format_kv` builds before joining it. */
  function KvLines(t: KeyTest, data: Json, indent: nat): seq<string>
    decreases data, 2, 0
  {
    match data
    case JObj(es) => DictLinesUpTo(t, data, |es|, indent)
    case JList(items) =>
      ListLinesUpTo(t, data, Min(|items|, 10), indent)
      + (if |items| > 10 then [MoreItemsLine(indent, |items| - 10)] else [])
    case _ => []
  }

  /** The lines of the first `n` entries of a dict. */
  function DictLinesUpTo(t: KeyTest, data: Json, n: nat, indent: nat): seq<string>
    requires data.JObj? && n <= |data.entries|
    decreases data, 1, n
  {
    if n == 0 then []
    else DictLinesUpTo(t, data, n - 1, indent) + EntryLines(t, data.entries[n - 1].0, data.entries[n - 1].1, indent)
  }

  /** The lines of one dict entry. */
  function EntryLines(t: KeyTest, k: string, v: Json, indent: nat): seq<string>
    decreases v, 4, 0
  {
    if Ignored(t, k) || IsEmpty(v) then []
    else if IsContainer(v) then [KeyLine(k, indent), KvText(t, v, indent + 2)]
    else [KeyLine(k, indent) + " " + Truncate(Show(v), 400)]
  }

  /** The lines of the first `n` items of a list. */
  function ListLinesUpTo(t: KeyTest, data: Json, n: nat, indent: nat): seq<string>
    requires data.JList? && n <= |data.items|
    decreases data, 1, n
  {
    if n == 0 then []
    else ListLinesUpTo(t, data, n - 1, indent) + ItemLines(t, data.items[n - 1], indent)
  }

  /** The lines of one list item. */
  function ItemLines(t: KeyTest, item: Json, indent: nat): seq<string>
    decreases item, 4, 0
  {
    if IsContainer(item) then [Bullet(indent), KvText(t, item, indent + 2)]
    else [Bullet(indent) + " " + Show(item)]
  }

  /** `format_kv` itself: loops over the entries or items and recurses into containers. */
  method FormatKv(data: Json, indent: nat) returns (text: string)
    ensures text == KvText(AsWritten, data, indent)
    decreases data, 1
  {
    var lines: seq<string> := [];
    match data {
      case JObj(es) =>
        lines := FormatEntries(data, indent);
      case JList(items) =>
        lines := FormatItems(data, indent);
        if |items| > 10 {
          lines := lines + [MoreItemsLine(indent, |items| - 10)];
        }
      case _ =>
    }
    assert lines == KvLines(AsWritten, data, indent);
    text := Join(lines, "\n");
  }

  /** The loop over a dict's entries, skipping ignored keys and empty values. */
  method FormatEntries(data: Json, indent: nat) returns (lines: seq<string>)
    requires data.JObj?
    ensures lines == DictLinesUpTo(AsWritten, data, |data.entries|, indent)
    decreases data, 0, 1
  {
    lines := [];
    var i := 0;
    while i < |data.entries|
      invariant 0 <= i <= |data.entries|
      invariant lines == DictLinesUpTo(AsWritten, data, i, indent)
    {
      lines := AppendEntry(data, i, indent, lines);
      i := i + 1;
    }
  }

  /** The first `i + 1` entries render as the first `i`, then entry `i`. */
  lemma DictLinesStep(t: KeyTest, data: Json, i: nat, indent: nat, entry: seq<string>)
    requires data.JObj? && i < |data.entries|
    requires entry == EntryLines(t, data.entries[i].0, data.entries[i].1, indent)
    ensures DictLinesUpTo(t, data, i + 1, indent) == DictLinesUpTo(t, data, i, indent) + entry
  {
  }

  /** One pass of the dict loop over entry `i`, appended to the lines of the entries before it. */
  method AppendEntry(data: Json, i: nat, indent: nat, lines: seq<string>) returns (more: seq<string>)
    requires data.JObj? && i < |data.entries|
    requires lines == DictLinesUpTo(AsWritten, data, i, indent)
    ensures more == DictLinesUpTo(AsWritten, data, i + 1, indent)
    decreases data, 0, 0
  {
    var entry := FormatEntry(data.entries[i].0, data.entries[i].1, indent);
    DictLinesStep(AsWritten, data, i, indent, entry);
    more := lines + entry;
  }

  /** One pass of the dict loop: the lines `format_kv` appends for the entry `k: v`. */
  method FormatEntry(k: string, v: Json, indent: nat) returns (lines: seq<string>)
    ensures lines == EntryLines(AsWritten, k, v, indent)
    decreases v, 2
  {
    if IsIgnoredKeyAsWritten(k) || IsEmpty(v) {
      lines := [];
    } else if v.JObj? || v.JList? {
      var nested := FormatKv(v, indent + 2);
      lines := [KeyLine(k, indent), nested];
    } else {
      lines := [KeyLine(k, indent) + " " + Truncate(Show(v), 400)];
    }
  }

  /** The loop over the first ten items of a list. */
  method FormatItems(data: Json, indent: nat) returns (lines: seq<string>)
    requires data.JList?
    ensures lines == ListLinesUpTo(AsWritten, data, Min(|data.items|, 10), indent)
    decreases data, 0
  {
    var items := data.items;
    lines := [];
    var i := 0;
    while i < Min(|items|, 10)
      invariant 0 <= i <= Min(|items|, 10)
      invariant lines == ListLinesUpTo(AsWritten, data, i, indent)
    {
      var item := items[i];
      assert ListLinesUpTo(AsWritten, data, i + 1, indent) == lines + ItemLines(AsWritten, item, indent);
      if item.JObj? || item.JList? {
        var nested := FormatKv(item, indent + 2);
        lines := lines + [Bullet(indent), nested];
      } else {
        lines := lines + [Bullet(indent) + " " + Show(item)];
      }
      i := i + 1;
    }
  }

  // ---------------------------------------------------------------- properties

  /** The lines of a sequence of entries, independent of any enclosing value. */
  function DictLines(t: KeyTest, es: seq<(string, Json)>, indent: nat): seq<string> {
    if es == [] then []
    else DictLines(t, es[..|es| - 1], indent) + EntryLines(t, es[|es| - 1].0, es[|es| - 1].1, indent)
  }

  function ListLines(t: KeyTest, items: seq<Json>, indent: nat): seq<string> {
    if items == [] then []
    else ListLines(t, items[..|items| - 1], indent) + ItemLines(t, items[|items| - 1], indent)
  }

  lemma {:induction false} DictLinesUpToIs(t: KeyTest, data: Json, n: nat, indent: nat)
    requires data.JObj? && n <= |data.entries|
    ensures DictLinesUpTo(t, data, n, indent) == DictLines(t, data.entries[..n], indent)
  {
    if n > 0 {
      DictLinesUpToIs(t, data, n - 1, indent);
      assert data.entries[..n][..n - 1] == data.entries[..n - 1];
    }
  }

  lemma {:induction false} ListLinesUpToIs(t: KeyTest, data: Json, n: nat, indent: nat)
    requires data.JList? && n <= |data.items|
    ensures ListLinesUpTo(t, data, n, indent) == ListLines(t, data.items[..n], indent)
  {
    if n > 0 {
      ListLinesUpToIs(t, data, n - 1, indent);
      assert data.items[..n][..n - 1] == data.items[..n - 1];
    }
  }

  /** An entry shows iff its key is not ignored and its value is not empty. */
  predicate Shown(t: KeyTest, e: (string, Json)) {
    !Ignored(t, e.0) && !IsEmpty(e.1)
  }

  function Visible(t: KeyTest, es: seq<(string, Json)>): (r: seq<(string, Json)>)
    ensures forall i | 0 <= i < |r| :: Shown(t, r[i])
  {
    if es == [] then []
    else Visible(t, es[..|es| - 1]) + (if Shown(t, es[|es| - 1]) then [es[|es| - 1]] else [])
  }

  /**
   * What one entry contributes: nothing when its key is ignored or its value
   * is empty; otherwise a `k:` header, followed by the value's own rendering
   * two columns further in for a dict or list, or on the same line, cut to 400
   * characters, for a scalar.
   */
  lemma EntryOutput(t: KeyTest, k: string, v: Json, indent: nat)
    ensures EntryLines(t, k, v, indent) == [] <==> Ignored(t, k) || IsEmpty(v)
    ensures !Ignored(t, k) && !IsEmpty(v) && IsContainer(v) ==>
      EntryLines(t, k, v, indent) == [KeyLine(k, indent), KvText(t, v, indent + 2)]
    ensures !Ignored(t, k) && !IsEmpty(v) && !IsContainer(v) ==>
      EntryLines(t, k, v, indent) == [KeyLine(k, indent) + " " + Truncate(Show(v), 400)]
  {
  }

  /**
   * The two key tests part ways on the listed camelCase keys: a scalar under
   * such a key is printed by the program as written and hidden by the
   * corrected test.
   */
  lemma ListedKeyShownAsWritten(k: string, v: Json, indent: nat)
    requires k in IgnoreKeys && !IsIgnoredKeyAsWritten(k)
    requires !IsEmpty(v) && !IsContainer(v)
    ensures EntryLines(AsWritten, k, v, indent) == [KeyLine(k, indent) + " " + Truncate(Show(v), 400)]
    ensures EntryLines(Corrected, k, v, indent) == []
  {
    ListedIsIgnored(k);
  }

  /** Every listed key passes the corrected test. */
  lemma ListedIsIgnored(k: string)
    requires k in IgnoreKeys
    ensures Ignored(Corrected, k)
  {
    IgnoredKeyCorrected(k);
  }

  /**
   * At the level of a whole dict: `format_kv({k: v})` for such a key prints
   * `k: v` as written, and nothing under the corrected test.
   */
  lemma ListedKeyDict(k: string, v: Json, indent: nat)
    requires k in IgnoreKeys && !IsIgnoredKeyAsWritten(k)
    requires !IsEmpty(v) && !IsContainer(v)
    ensures KvText(AsWritten, JObj([(k, v)]), indent) == KeyLine(k, indent) + " " + Truncate(Show(v), 400)
    ensures KvText(Corrected, JObj([(k, v)]), indent) == ""
  {
    ListedKeyShownAsWritten(k, v, indent);
    SingleEntry(AsWritten, k, v, indent);
    SingleEntry(Corrected, k, v, indent);
  }

  /** A dict with one entry renders as that entry. */
  lemma SingleEntry(t: KeyTest, k: string, v: Json, indent: nat)
    ensures KvLines(t, JObj([(k, v)]), indent) == EntryLines(t, k, v, indent)
  {
    var d := JObj([(k, v)]);
    assert DictLinesUpTo(t, d, 1, indent) == DictLinesUpTo(t, d, 0, indent) + EntryLines(t, k, v, indent);
  }

  lemma {:induction false} DictLinesVisible(t: KeyTest, es: seq<(string, Json)>, indent: nat)
    ensures DictLines(t, es, indent) == DictLines(t, Visible(t, es), indent)
  {
    if es != [] {
      var init, last := es[..|es| - 1], es[|es| - 1];
      DictLinesVisible(t, init, indent);
      var v := Visible(t, init);
      if Shown(t, last) {
        assert Visible(t, es) == v + [last];
        assert (v + [last])[..|v|] == v;
      } else {
        assert Visible(t, es) == v;
      }
    }
  }

  /**
   * Dict filtering: a dict renders exactly as the dict of its shown entries,
   * in the same order, so ignored keys and empty values leave no trace.
   */
  lemma DictFilter(t: KeyTest, es: seq<(string, Json)>, indent: nat)
    ensures KvLines(t, JObj(es), indent) == KvLines(t, JObj(Visible(t, es)), indent)
    ensures KvText(t, JObj(es), indent) == KvText(t, JObj(Visible(t, es)), indent)
  {
    DictLinesUpToIs(t, JObj(es), |es|, indent);
    DictLinesUpToIs(t, JObj(Visible(t, es)), |Visible(t, es)|, indent);
    assert es[..|es|] == es;
    assert Visible(t, es)[..|Visible(t, es)|] == Visible(t, es);
    DictLinesVisible(t, es, indent);
  }

  /**
   * List cap: a list of more than 10 items renders as its first 10 items
   * followed by one `... and N more` line with N = len - 10; a shorter list
   * renders all of its items and nothing else.
   */
  lemma ListCap(t: KeyTest, items: seq<Json>, indent: nat)
    ensures |items| > 10 ==>
      KvLines(t, JList(items), indent) == KvLines(t, JList(items[..10]), indent) + [MoreItemsLine(indent, |items| - 10)]
    ensures |items| <= 10 ==> KvLines(t, JList(items), indent) == ListLines(t, items, indent)
  {
    ListLinesUpToIs(t, JList(items), Min(|items|, 10), indent);
    assert items[..|items|] == items;
    if |items| > 10 {
      ListLinesUpToIs(t, JList(items[..10]), 10, indent);
      assert items[..10][..10] == items[..10];
    }
  }

  /** Items past the tenth change the output only through their number. */
  lemma ListTailIrrelevant(t: KeyTest, a: seq<Json>, b: seq<Json>, indent: nat)
    requires |a| == |b| && a[..Min(|a|, 10)] == b[..Min(|b|, 10)]
    ensures KvText(t, JList(a), indent) == KvText(t, JList(b), indent)
  {
    ListLinesUpToIs(t, JList(a), Min(|a|, 10), indent);
    ListLinesUpToIs(t, JList(b), Min(|b|, 10), indent);
  }

  lemma RepeatPrefix(c: char, m: nat, n: nat)
    requires m <= n
    ensures StartsWith(Repeat(c, n), Repeat(c, m))
  {
    assert Repeat(c, n)[..m] == Repeat(c, m);
  }

  lemma {:induction false} JoinStartsWithFirst(ss: seq<string>, sep: string)
    requires |ss| > 0
    ensures StartsWith(Join(ss, sep), ss[0])
  {
    if |ss| > 1 {
      assert Join(ss, sep) == ss[0] + (sep + Join(ss[1..], sep));
    }
  }

  lemma StartsWithTrans(s: string, p: string, q: string)
    requires StartsWith(s, p) && StartsWith(p, q)
    ensures StartsWith(s, q)
  {
    assert s[..|q|] == p[..|q|];
  }

  lemma StartsWithAppend(p: string, rest: string)
    ensures StartsWith(p + rest, p)
  {
    assert (p + rest)[..|p|] == p;
  }

  /** A line that starts with `indent` columns of blanks. */
  predicate IndentedBy(line: string, indent: nat) {
    StartsWith(line, Indent(indent))
  }

  /** Every line is empty or starts at `indent`, and the first one starts there. */
  predicate LinesIndented(lines: seq<string>, indent: nat) {
    && (forall i | 0 <= i < |lines| :: lines[i] == [] || IndentedBy(lines[i], indent))
    && (|lines| > 0 ==> IndentedBy(lines[0], indent))
  }

  lemma AppendIndented(a: seq<string>, b: seq<string>, indent: nat)
    requires LinesIndented(a, indent) && LinesIndented(b, indent)
    ensures LinesIndented(a + b, indent)
  {
    forall i | 0 <= i < |a + b|
      ensures (a + b)[i] == [] || IndentedBy((a + b)[i], indent)
    {
      if i < |a| {
        assert (a + b)[i] == a[i];
      } else {
        assert (a + b)[i] == b[i - |a|];
      }
    }
    if |a| == 0 {
      assert a + b == b;
    }
  }

  /** Every line `format_kv` builds at a given indent is empty or starts at that indent. */
  lemma {:induction false} KvLinesIndented(t: KeyTest, data: Json, indent: nat)
    ensures LinesIndented(KvLines(t, data, indent), indent)
    decreases data, 1, 1
  {
    match data {
      case JObj(es) =>
        DictIndented(t, data, |es|, indent);
      case JList(items) =>
        ListKvIndented(t, data, indent);
      case _ =>
    }
  }

  /** The list case: the first ten items, then the line counting the rest. */
  lemma {:induction false} ListKvIndented(t: KeyTest, data: Json, indent: nat)
    requires data.JList?
    ensures LinesIndented(KvLines(t, data, indent), indent)
    decreases data, 1, 0
  {
    var items := data.items;
    ListIndented(t, data, Min(|items|, 10), indent);
    if |items| > 10 {
      StartsWithAppend(Indent(indent), Gray + "... and " + IntToString(|items| - 10) + " more" + Reset);
      AppendIndented(ListLinesUpTo(t, data, 10, indent), [MoreItemsLine(indent, |items| - 10)], indent);
    } else {
      assert KvLines(t, data, indent) == ListLinesUpTo(t, data, |items|, indent) + [];
    }
  }

  /**
   * Indentation: every line `format_kv` builds at a given indent starts with
   * that many blanks (a nested block may be an empty string), the first line
   * always does, and so the whole text starts at that indent unless it is empty.
   */
  lemma {:induction false} KvIndented(t: KeyTest, data: Json, indent: nat)
    ensures LinesIndented(KvLines(t, data, indent), indent)
    ensures KvText(t, data, indent) == [] || IndentedBy(KvText(t, data, indent), indent)
    decreases data, 1, 2
  {
    KvLinesIndented(t, data, indent);
    var lines := KvLines(t, data, indent);
    if |lines| > 0 {
      JoinStartsWithFirst(lines, "\n");
      StartsWithTrans(KvText(t, data, indent), lines[0], Indent(indent));
    } else {
      assert KvText(t, data, indent) == Join(lines, "\n");
    }
  }

  lemma {:induction false} NestedIndented(t: KeyTest, v: Json, indent: nat)
    requires IsContainer(v)
    ensures KvText(t, v, indent + 2) == [] || IndentedBy(KvText(t, v, indent + 2), indent)
    decreases v, 2
  {
    KvIndented(t, v, indent + 2);
    if KvText(t, v, indent + 2) != [] {
      RepeatPrefix(' ', indent, indent + 2);
      StartsWithTrans(KvText(t, v, indent + 2), Indent(indent + 2), Indent(indent));
    }
  }

  /** The lines of one shown entry start at the dict's indent. */
  lemma {:induction false} EntryIndented(t: KeyTest, k: string, v: Json, indent: nat)
    ensures LinesIndented(EntryLines(t, k, v, indent), indent)
    decreases v, 3
  {
    StartsWithAppend(Indent(indent), Cyan + k + ":" + Reset);
    assert KeyLine(k, indent) == Indent(indent) + (Cyan + k + ":" + Reset);
    if !Ignored(t, k) && !IsEmpty(v) {
      if IsContainer(v) {
        NestedIndented(t, v, indent);
      } else {
        StartsWithAppend(KeyLine(k, indent), " " + Truncate(Show(v), 400));
        StartsWithTrans(KeyLine(k, indent) + " " + Truncate(Show(v), 400), KeyLine(k, indent), Indent(indent));
      }
    }
  }

  /** The lines of one item start at the list's indent. */
  lemma {:induction false} ItemIndented(t: KeyTest, item: Json, indent: nat)
    ensures LinesIndented(ItemLines(t, item, indent), indent)
    decreases item, 3
  {
    StartsWithAppend(Indent(indent), Gray + "•" + Reset);
    assert Bullet(indent) == Indent(indent) + (Gray + "•" + Reset);
    if IsContainer(item) {
      NestedIndented(t, item, indent);
    } else {
      StartsWithAppend(Bullet(indent), " " + Show(item));
      StartsWithTrans(Bullet(indent) + " " + Show(item), Bullet(indent), Indent(indent));
    }
  }

  lemma {:induction false} DictIndented(t: KeyTest, data: Json, n: nat, indent: nat)
    requires data.JObj? && n <= |data.entries|
    ensures LinesIndented(DictLinesUpTo(t, data, n, indent), indent)
    decreases data, 0, n
  {
    if n > 0 {
      DictIndented(t, data, n - 1, indent);
      var (k, v) := data.entries[n - 1];
      EntryIndented(t, k, v, indent);
      AppendIndented(DictLinesUpTo(t, data, n - 1, indent), EntryLines(t, k, v, indent), indent);
    }
  }

  lemma {:induction false} ListIndented(t: KeyTest, data: Json, n: nat, indent: nat)
    requires data.JList? && n <= |data.items|
    ensures LinesIndented(ListLinesUpTo(t, data, n, indent), indent)
    decreases data, 0, n
  {
    if n > 0 {
      ListIndented(t, data, n - 1, indent);
      var item := data.items[n - 1];
      ItemIndented(t, item, indent);
      AppendIndented(ListLinesUpTo(t, data, n - 1, indent), ItemLines(t, item, indent), indent);
    }
  }
}
