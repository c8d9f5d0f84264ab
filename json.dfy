/**
 * The values `json.loads` produces (floats aside) and the Python operations the
 * formatter applies to them: `d.get`, `k in d`, truthiness, iteration, `len`,
 * `str()` and `repr()`.
 */
module JsonValue {
  import opened Text

  /**
   * A JSON object keeps its keys in insertion order, as a Python dict does.
   * A `JObj` stands for a dict only when its keys are distinct: `Lookup`
   * takes the first entry under a key, while `json.loads` keeps the last.
   */
  datatype Json =
    | JNull
    | JBool(b: bool)
    | JInt(i: int)
    | JStr(s: string)
    | JList(items: seq<Json>)
    | JObj(entries: seq<(string, Json)>)

  /** `k in d` */
  predicate HasKey(es: seq<(string, Json)>, k: string) {
    |es| > 0 && (es[0].0 == k || HasKey(es[1..], k))
  }

  /** The entry stored under `k`, if any. */
  function Lookup(es: seq<(string, Json)>, k: string): Option<Json> {
    if |es| == 0 then None
    else if es[0].0 == k then Some(es[0].1)
    else Lookup(es[1..], k)
  }

  /**
   * A key is present exactly when some entry carries it, and the lookup
   * finds the value of the first such entry.
   */
  lemma {:induction false} LookupSpec(es: seq<(string, Json)>, k: string)
    ensures HasKey(es, k) <==> exists i | 0 <= i < |es| :: es[i].0 == k
    ensures Lookup(es, k).Some? <==> HasKey(es, k)
    ensures Lookup(es, k).Some? ==>
      exists i | 0 <= i < |es| :: es[i] == (k, Lookup(es, k).value) && forall j | 0 <= j < i :: es[j].0 != k
  {
    if |es| > 0 {
      LookupSpec(es[1..], k);
      if es[0].0 != k {
        if exists i | 0 <= i < |es| :: es[i].0 == k {
          var i :| 0 <= i < |es| && es[i].0 == k;
          assert es[1..][i - 1].0 == k;
        }
        if exists i | 0 <= i < |es[1..]| :: es[1..][i].0 == k {
          var i :| 0 <= i < |es[1..]| && es[1..][i].0 == k;
          assert es[i + 1].0 == k;
        }
        if Lookup(es, k).Some? {
          var v := Lookup(es, k).value;
          var i :| 0 <= i < |es[1..]| && es[1..][i] == (k, v) && forall j | 0 <= j < i :: es[1..][j].0 != k;
          assert es[i + 1] == (k, v) && forall j | 0 <= j < i + 1 :: es[j].0 != k;
        }
      } else {
        assert es[0] == (k, Lookup(es, k).value);
      }
    }
  }

  /** `d.get(k, default)` */
  function Get(es: seq<(string, Json)>, k: string, default: Json): Json {
    match Lookup(es, k)
    case Some(v) => v
    case None => default
  }

  predicate IsContainer(j: Json) { j.JList? || j.JObj? }

  /** Python truthiness of a value. */
  predicate Truthy(j: Json) {
    match j
    case JNull => false
    case JBool(b) => b
    case JInt(i) => i != 0
    case JStr(s) => s != []
    case JList(items) => items != []
    case JObj(es) => es != []
  }

  /** `j == 0` in Python, where `False == 0` holds too. */
  predicate EqualsZero(j: Json) { j == JInt(0) || j == JBool(false) }

  /**
   * What `for x in j` (or `list(j)`) yields: a list's items, a string's
   * characters, a dict's keys; `None` where Python raises TypeError.
   */
  function Iter(j: Json): (r: Option<seq<Json>>)
    ensures j.JList? ==> r == Some(j.items)
    ensures r.Some? <==> (j.JList? || j.JStr? || j.JObj?)
  {
    match j
    case JList(items) => Some(items)
    case JStr(s) => Some(Chars(s))
    case JObj(es) => Some(Keys(es))
    case _ => None
  }

  /** The one-character strings of `s`, in order. */
  function Chars(s: string): (r: seq<Json>)
    ensures |r| == |s|
  {
    if s == [] then [] else [JStr([s[0]])] + Chars(s[1..])
  }

  /** The keys of a dict, in insertion order. */
  function Keys(es: seq<(string, Json)>): (r: seq<Json>)
    ensures |r| == |es|
  {
    if es == [] then [] else [JStr(es[0].0)] + Keys(es[1..])
  }

  /** `len(j)`; `None` where Python raises TypeError. */
  function Len(j: Json): Option<int> {
    match j
    case JStr(s) => Some(|s|)
    case JList(items) => Some(|items|)
    case JObj(es) => Some(|es|)
    case _ => None
  }

  /** `str(j)`, which is also what an f-string shows. */
  function Show(j: Json): string
    decreases j, 1
  {
    match j
    case JNull => "None"
    case JBool(b) => if b then "True" else "False"
    case JInt(i) => IntToString(i)
    case JStr(s) => s
    case JList(items) =>
      "[" + Join(seq(|items|, n requires 0 <= n < |items| => Repr(items[n])), ", ") + "]"
    case JObj(es) =>
      "{" + Join(seq(|es|, n requires 0 <= n < |es| => ReprString(es[n].0) + ": " + Repr(es[n].1)), ", ") + "}"
  }

  /** `repr(j)`: strings are quoted, everything else shows as with `str`. */
  function Repr(j: Json): string
    decreases j, 2
  {
    if j.JStr? then ReprString(j.s) else Show(j)
  }

  /**
   * `repr(s)` for a string: single quotes unless the text holds a single quote
   * and no double quote; backslash, the chosen quote, newline, carriage return
   * and tab are escaped, and so is every other character up to U+00FF that
   * Python does not print: as `\xNN`, in lower-case hexadecimal.
   */
  function ReprString(s: string): string {
    var q := if '\'' in s && '"' !in s then '"' else '\'';
    [q] + EscapeFor(s, q) + [q]
  }

  /** `repr` quotes the text on both sides and leaves nothing unprintable in it. */
  lemma ReprPrintable(s: string)
    ensures var r := ReprString(s);
      && |r| >= 2 && r[0] == r[|r| - 1] && (r[0] == '\'' || r[0] == '"')
      && forall i | 0 <= i < |r| :: !Unprintable(r[i])
  {
    var q := if '\'' in s && '"' !in s then '"' else '\'';
    EscapePrintable(s, q);
  }

  /**
   * The characters up to U+00FF that `str.isprintable` rejects: the C0
   * controls, DEL, the C1 controls, the no-break space and the soft hyphen.
   */
  predicate Unprintable(c: char) {
    c < ' ' || ('\U{7f}' <= c <= '\U{a0}') || c == '\U{ad}'
  }

  function HexDigit(n: nat): char
    requires n < 16
  {
    if n < 10 then ('0' as int + n) as char else ('a' as int + n - 10) as char
  }

  /** `\xNN` for a character below U+0100. */
  function HexEscape(c: char): string
    requires c as int < 256
  {
    "\\x" + [HexDigit(c as int / 16), HexDigit(c as int % 16)]
  }

  /** `\xNN` is four characters whose two digits read back as the code. */
  lemma HexEscapeReads(c: char)
    requires c as int < 256
    ensures var r := HexEscape(c);
      && |r| == 4 && r[..2] == "\\x"
      && HexValue(r[2]) * 16 + HexValue(r[3]) == c as int
  {
  }

  /** The value of a lower-case hexadecimal digit. */
  function HexValue(d: char): nat {
    if '0' <= d <= '9' then d as int - '0' as int
    else if 'a' <= d <= 'f' then d as int - 'a' as int + 10
    else 0
  }

  function EscapeFor(s: string, q: char): string {
    if |s| == 0 then []
    else
      var c := s[0];
      var e := if c == '\\' then "\\\\"
               else if c == q then ['\\', q]
               else if c == '\n' then "\\n"
               else if c == '\r' then "\\r"
               else if c == '\t' then "\\t"
               else if Unprintable(c) then HexEscape(c)
               else [c];
      e + EscapeFor(s[1..], q)
  }

  /** Escaping never shortens the text and leaves no unprintable character. */
  lemma {:induction false} EscapePrintable(s: string, q: char)
    requires !Unprintable(q)
    ensures |EscapeFor(s, q)| >= |s|
    ensures forall i | 0 <= i < |EscapeFor(s, q)| :: !Unprintable(EscapeFor(s, q)[i])
  {
    if |s| > 0 {
      EscapePrintable(s[1..], q);
    }
  }

  /** An escape sequence that colours text is shown by `repr` with its ESC as `\x1b`. */
  lemma ReprOfEscape()
    ensures ReprString("\U{1b}[31m") == "'\\x1b[31m'"
  {
    assert EscapeFor("m", '\'') == "m";
    assert EscapeFor("1m", '\'') == "1m";
    assert EscapeFor("31m", '\'') == "31m";
    assert EscapeFor("[31m", '\'') == "[31m";
    assert HexEscape('\U{1b}') == "\\x1b";
  }
}
