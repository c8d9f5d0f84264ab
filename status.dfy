/**
 * The layout half of `draw_status_bar` (bin/ralph-format.py, lines 47-145):
 * the progress-bar arithmetic over the token budget, the colour thresholds,
 * the todo section, and the six rows the block occupies at the bottom of the
 * terminal, each clipped to the terminal width.
 */
module StatusBlock {
  import opened Text
  import opened JsonValue
  import opened Ansi

  /** Rows reserved for the block at the bottom of the terminal. */
  const StatusHeight := 6

  /** Cells of the progress bar. */
  const BarCells := 20

  /** Last row of the scroll region that `setup_scroll_region` sets. */
  function ScrollEnd(height: int): int { height - StatusHeight }

  /** First row of the block. */
  function StatusStart(height: int): int { height - StatusHeight + 1 }

  // ---------------------------------------------------------------- percentage

  /** `min((usage * 100) / limit, 100) if limit > 0 else 0`, on exact rationals. */
  function Pct(usage: int, limit: int): (p: real)
    ensures limit <= 0 ==> p == 0.0
    ensures p <= 100.0
    ensures usage >= 0 ==> p >= 0.0
  {
    if limit > 0 then
      var x := (usage * 100) as real / limit as real;
      if x <= 100.0 then x else 100.0
    else 0.0
  }

  /** Python's `int(x)`: the real rounded toward zero. */
  function TruncReal(x: real): (n: int)
    ensures x >= 0.0 ==> n as real <= x < n as real + 1.0
    ensures x < 0.0 ==> n as real - 1.0 < x <= n as real
  {
    if x >= 0.0 then x.Floor else -((-x).Floor)
  }

  /** `int(pct)`, which the bar is built from. */
  function PctValue(usage: int, limit: int): int {
    TruncReal(Pct(usage, limit))
  }

  /** The percentage is a whole number between 0 and 100, and 0 without a limit. */
  lemma PctRange(usage: int, limit: int)
    requires usage >= 0
    ensures 0 <= PctValue(usage, limit) <= 100
    ensures limit <= 0 ==> PctValue(usage, limit) == 0
    ensures limit > 0 && usage >= limit ==> PctValue(usage, limit) == 100
  {
    if limit > 0 && usage >= limit {
      assert usage * 100 >= limit * 100;
      QuotientAtLeast((usage * 100) as real, limit as real, 100.0);
    }
  }

  /** Dividing by a positive number keeps a lower bound found by multiplying. */
  lemma QuotientAtLeast(n: real, l: real, m: real)
    requires l > 0.0 && n >= m * l
    ensures n / l >= m
  {
    assert (n / l) * l == n;
  }

  /** More usage never shows a smaller percentage. */
  lemma PctMonotone(u1: int, u2: int, limit: int)
    requires u1 <= u2
    ensures Pct(u1, limit) <= Pct(u2, limit)
    ensures PctValue(u1, limit) <= PctValue(u2, limit)
  {
    if limit > 0 {
      var l := limit as real;
      assert (u1 * 100) as real <= (u2 * 100) as real;
      assert (u1 * 100) as real / l <= (u2 * 100) as real / l;
    }
  }

  /** Cells drawn full: `min(int(pct) // 5, 20)`. */
  function Filled(usage: int, limit: int): int {
    Min(PctValue(usage, limit) / 5, BarCells)
  }

  /** Cells drawn empty: `20 - filled`. */
  function EmptyCells(usage: int, limit: int): int {
    BarCells - Filled(usage, limit)
  }

  /**
   * The bar always has 20 cells, one per full 5 percent: since the percentage
   * never exceeds 100, the cap of 20 never changes the count.
   */
  lemma BarShape(usage: int, limit: int)
    requires usage >= 0
    ensures 0 <= Filled(usage, limit) <= BarCells
    ensures EmptyCells(usage, limit) >= 0
    ensures Filled(usage, limit) + EmptyCells(usage, limit) == BarCells
    ensures Filled(usage, limit) == PctValue(usage, limit) / 5
    ensures limit <= 0 ==> Filled(usage, limit) == 0
  {
    PctRange(usage, limit);
  }

  lemma FilledMonotone(u1: int, u2: int, limit: int)
    requires u1 <= u2
    ensures Filled(u1, limit) <= Filled(u2, limit)
  {
    PctMonotone(u1, u2, limit);
  }

  /** `bar_color`: green below 50 percent, yellow below 80, red otherwise. */
  function BarColor(usage: int, limit: int): string {
    var p := Pct(usage, limit);
    if p < 50.0 then Green else if p < 80.0 then Yellow else Red
  }

  /**
   * The thresholds hold on the whole percentage too: the colour is green
   * exactly when `int(pct) < 50`, yellow when it is between 50 and 79, red
   * from 80 on, so the colour changes on the same step the bar does.
   */
  lemma BarColorThresholds(usage: int, limit: int)
    ensures BarColor(usage, limit) == Green <==> PctValue(usage, limit) < 50
    ensures BarColor(usage, limit) == Yellow <==> 50 <= PctValue(usage, limit) < 80
    ensures BarColor(usage, limit) == Red <==> PctValue(usage, limit) >= 80
  {
  }

  /**
   * `f"{pct:.0f}"`: the exact percentage rounded to the nearest whole number,
   * ties to even, with Python's "-0" for a negative value that rounds to zero.
   */
  function PctText(usage: int, limit: int): string {
    var p := Pct(usage, limit);
    var n := RoundHalfEven(p);
    if p < 0.0 && n == 0 then "-0" else IntToString(n)
  }

  function RoundHalfEven(x: real): (n: int)
    ensures n as real - 0.5 <= x <= n as real + 0.5
    ensures x == n as real - 0.5 || x == n as real + 0.5 ==> n % 2 == 0
  {
    var f := x.Floor;
    var d := x - f as real;
    if d > 0.5 then f + 1
    else if d < 0.5 then f
    else if f % 2 == 0 then f
    else f + 1
  }

  // ---------------------------------------------------------------- labels

  /** `f"{usage // 1000}k/{limit // 1000}k"` */
  function TokensLabel(usage: int, limit: int): string {
    IntToString(usage / 1000) + "k/" + IntToString(limit / 1000) + "k"
  }

  /** Reads a token label back into its two thousands counts. */
  function ReadTokens(t: string): Option<(int, int)> {
    var parts := SplitOn(t, '/');
    if |parts| != 2 then None
    else
      match (ReadKilo(parts[0]), ReadKilo(parts[1]))
      case (Some(a), Some(b)) => Some((a, b))
      case _ => None
  }

  function ReadKilo(t: string): Option<int> {
    if |t| > 0 && t[|t| - 1] == 'k' then PyInt(t[..|t| - 1]) else None
  }

  lemma ReadKiloOf(i: int)
    ensures ReadKilo(IntToString(i) + "k") == Some(i)
  {
    var t := IntToString(i) + "k";
    assert t[..|t| - 1] == IntToString(i);
    PyIntRoundTrip(i);
  }

  lemma NoSlashIn(i: int)
    ensures forall k | 0 <= k < |IntToString(i) + "k"| :: (IntToString(i) + "k")[k] != '/'
  {
    var s := IntToString(i);
    assert forall k | 0 <= k < |s| :: s[k] != '/';
  }

  /** The label names the usage and the limit in whole thousands, floored. */
  lemma TokensRoundTrip(usage: int, limit: int)
    ensures ReadTokens(TokensLabel(usage, limit)) == Some((usage / 1000, limit / 1000))
  {
    var a := IntToString(usage / 1000) + "k";
    var b := IntToString(limit / 1000) + "k";
    assert TokensLabel(usage, limit) == a + ['/'] + b;
    SplitAround(a, b, '/');
    NoSlashIn(usage / 1000);
    NoSlashIn(limit / 1000);
    SplitNone(a, '/');
    SplitNone(b, '/');
    ReadKiloOf(usage / 1000);
    ReadKiloOf(limit / 1000);
  }

  /** `elapsed_str` over whole seconds: `XmYs` from a minute on, `Ys` before. */
  function ElapsedText(secs: nat): string {
    if secs >= 60 then IntToString(secs / 60) + "m" + IntToString(secs % 60) + "s"
    else IntToString(secs) + "s"
  }

  /** Reads an elapsed label back into seconds. */
  function ReadElapsed(t: string): Option<int> {
    if |t| == 0 || t[|t| - 1] != 's' then None
    else
      var parts := SplitOn(t[..|t| - 1], 'm');
      if |parts| == 1 then PyInt(parts[0])
      else if |parts| == 2 then
        match (PyInt(parts[0]), PyInt(parts[1]))
        case (Some(m), Some(s)) => if 0 <= s < 60 then Some(m * 60 + s) else None
        case _ => None
      else None
  }

  /** The label shows the whole elapsed time, the seconds part below 60. */
  lemma ElapsedRoundTrip(secs: nat)
    ensures ReadElapsed(ElapsedText(secs)) == Some(secs)
  {
    if secs >= 60 {
      MinutesRoundTrip(secs);
    } else {
      SecondsRoundTrip(secs);
    }
  }

  lemma MinutesRoundTrip(secs: nat)
    requires secs >= 60
    ensures ReadElapsed(ElapsedText(secs)) == Some(secs)
  {
    var m, sec := secs / 60, secs % 60;
    var a, b := IntToString(m), IntToString(sec);
    var t := ElapsedText(secs);
    assert t == a + "m" + b + "s";
    assert t[|t| - 1] == 's';
    assert t[..|t| - 1] == a + ['m'] + b;
    SplitAround(a, b, 'm');
    IntToStringAvoids(m, 'm');
    IntToStringAvoids(sec, 'm');
    SplitNone(a, 'm');
    SplitNone(b, 'm');
    PyIntRoundTrip(m);
    PyIntRoundTrip(sec);
  }

  lemma SecondsRoundTrip(secs: nat)
    requires secs < 60
    ensures ReadElapsed(ElapsedText(secs)) == Some(secs)
  {
    var a := IntToString(secs);
    var t := ElapsedText(secs);
    assert t == a + "s";
    assert t[|t| - 1] == 's';
    assert t[..|t| - 1] == a;
    IntToStringAvoids(secs, 'm');
    SplitNone(a, 'm');
    PyIntRoundTrip(secs);
  }

  /**
   * `f"{total_cost:.4f}"` for a cost held in ten-thousandths of a dollar, the
   * precision the status line shows.
   */
  function CostText(cost: nat): string {
    var frac := NatToString(cost % 10000);
    NatToString(cost / 10000) + "." + Repeat('0', 4 - |frac|) + frac
  }

  /** Four decimals always follow the point; no cost at all shows as "0.0000". */
  lemma CostTextShape(cost: nat)
    ensures |CostText(cost)| == |NatToString(cost / 10000)| + 5
    ensures CostText(0) == "0.0000"
  {
    var frac := NatToString(cost % 10000);
    if cost % 10000 >= 10000 / 10 {
      assert |frac| == 4 by {
        assert NatToString(cost % 10000) == NatToString(cost % 10000 / 10) + [DigitChar(cost % 10000 % 10)];
        ThreeDigits(cost % 10000 / 10);
      }
    } else {
      assert |frac| <= 3 by { AtMostThreeDigits(cost % 10000); }
    }
  }

  lemma ThreeDigits(n: nat)
    requires 100 <= n < 1000
    ensures |NatToString(n)| == 3
  {
    assert NatToString(n) == NatToString(n / 10) + [DigitChar(n % 10)];
    assert NatToString(n / 10) == NatToString(n / 100) + [DigitChar(n / 10 % 10)];
  }

  lemma AtMostThreeDigits(n: nat)
    requires n < 1000
    ensures |NatToString(n)| <= 3
  {
    if n >= 10 {
      assert NatToString(n) == NatToString(n / 10) + [DigitChar(n % 10)];
      if n >= 100 {
        assert NatToString(n / 10) == NatToString(n / 100) + [DigitChar(n / 10 % 10)];
      }
    }
  }

  // ---------------------------------------------------------------- lines

  /** A grey rule of `width` box-drawing dashes. */
  function Separator(width: int): string {
    Gray + Repeat('─', width) + Reset
  }

  /** Line 2: bar, percentage and tokens, cost, elapsed time. */
  function ProgressLine(usage: int, limit: int, cost: nat, secs: nat): string {
    " " + BarColor(usage, limit) + "\U{F10D6} " + Repeat('█', Filled(usage, limit))
    + Gray + Repeat('░', EmptyCells(usage, limit)) + Reset + " "
    + Gray + PctText(usage, limit) + "% (" + TokensLabel(usage, limit) + ")" + Reset + "  "
    + Gray + "\U{1F4B0} $" + CostText(cost) + Reset + "  "
    + Gray + "⏱ " + ElapsedText(secs) + Reset
  }

  /** The line that stands for the todos past the third. */
  function MoreTodosLine(remaining: int): string {
    " " + Gray + "... and " + IntToString(remaining) + " more" + Reset
  }

  /** Python's `items[:n]` for a list. */
  function ItemsPrefix(items: seq<Json>, n: int): (r: seq<Json>)
    ensures |r| <= |items| && r == items[..|r|]
  {
    if n >= 0 then items[..Min(n, |items|)] else items[..Max(0, |items| + n)]
  }

  /**
   * `f"{field[:n]}"`: a string or a list can be sliced; anything else raises
   * TypeError, written `None`.
   */
  function ClipField(v: Json, n: int): Option<string> {
    match v
    case JStr(s) => Some(Prefix(s, n))
    case JList(items) => Some(Show(JList(ItemsPrefix(items, n))))
    case _ => None
  }

  /** How a todo's status is marked. */
  datatype Mark = Done | Active | Pending

  function MarkOf(status: Json): Mark {
    if status == JStr("completed") then Done
    else if status == JStr("in_progress") then Active
    else Pending
  }

  /** The field a mark shows: `activeForm` for the todo in progress, `content` otherwise. */
  function FieldOf(m: Mark): string {
    if m == Active then "activeForm" else "content"
  }

  function Decorate(m: Mark, t: string): string {
    match m
    case Done => " " + Green + "✓" + Reset + " " + t
    case Active => " " + Yellow + "▶" + Reset + " " + Bold + t + Reset
    case Pending => " " + Gray + "○" + Reset + " " + t
  }

  /**
   * One todo's line: its mark, then its field clipped to `width - 4`. A todo
   * that is not a dict, or whose field cannot be sliced, raises (`None`).
   */
  function TodoLine(todo: Json, width: int): (r: Option<string>)
    ensures r.Some? ==> todo.JObj?
  {
    if !todo.JObj? then None
    else
      var m := MarkOf(Get(todo.entries, "status", JNull));
      match ClipField(Get(todo.entries, FieldOf(m), JStr("")), width - 4)
      case Some(t) => Some(Decorate(m, t))
      case None => None
  }

  /**
   * A todo whose field is text shows its mark and the first `width - 4`
   * characters of that text; a completed one shows `content` behind a check
   * mark, the one in progress `activeForm` in bold behind a triangle, any
   * other `content` behind a circle.
   */
  lemma TodoLineText(es: seq<(string, Json)>, width: int, s: string)
    requires Get(es, FieldOf(MarkOf(Get(es, "status", JNull))), JStr("")) == JStr(s)
    ensures TodoLine(JObj(es), width).Some?
    ensures var t := Prefix(s, width - 4);
      && StartsWith(s, t) && (width >= 4 ==> |t| == Min(width - 4, |s|))
      && TodoLine(JObj(es), width).value == Decorate(MarkOf(Get(es, "status", JNull)), t)
    ensures Get(es, "status", JNull) == JStr("completed") ==> FieldOf(MarkOf(Get(es, "status", JNull))) == "content"
    ensures Get(es, "status", JNull) == JStr("in_progress") ==> FieldOf(MarkOf(Get(es, "status", JNull))) == "activeForm"
  {
  }

  /** The lines of the first `n` todos; `None` once one of them raises. */
  function TodoLinesUpTo(todos: seq<Json>, n: nat, width: int): (r: Option<seq<string>>)
    requires n <= |todos|
    ensures r.Some? ==> |r.value| == n
    ensures r.Some? <==> forall i | 0 <= i < n :: TodoLine(todos[i], width).Some?
    ensures r.Some? ==> forall i | 0 <= i < n :: r.value[i] == TodoLine(todos[i], width).value
  {
    if n == 0 then Some([])
    else
      match TodoLinesUpTo(todos, n - 1, width)
      case None => None
      case Some(ls) =>
        match TodoLine(todos[n - 1], width)
        case None => None
        case Some(l) => Some(ls + [l])
  }

  /** Lines 3-5 and the overflow line: three blanks without todos. */
  function TodoSection(todos: seq<Json>, width: int): Option<seq<string>> {
    if todos == [] then Some(["", "", ""])
    else
      match TodoLinesUpTo(todos, Min(|todos|, 3), width)
      case None => None
      case Some(ls) =>
        if |todos| > 3 then Some([Separator(width)] + ls + [MoreTodosLine(|todos| - 3)])
        else Some([Separator(width)] + ls)
  }

  /** `while len(lines) < STATUS_HEIGHT: lines.append("")` */
  function PadTo(lines: seq<string>, n: nat): (r: seq<string>)
    ensures |r| == Max(|lines|, n)
    ensures r[..|lines|] == lines
    ensures forall i | 0 <= i < |lines| :: r[i] == lines[i]
    ensures forall i | |lines| <= i < |r| :: r[i] == ""
  {
    if |lines| >= n then lines else lines + seq(n - |lines|, _ => "")
  }

  /** The rule and the progress line, above the todo section. */
  function HeadLines(usage: int, limit: int, cost: nat, width: int, secs: nat): (r: seq<string>)
    ensures |r| == 2
  {
    [Separator(width), ProgressLine(usage, limit, cost, secs)]
  }

  /** All lines built before the block is cut to six. */
  function StatusLines(usage: int, limit: int, todos: seq<Json>, cost: nat, width: int, secs: nat)
    : Option<seq<string>>
  {
    match TodoSection(todos, width)
    case None => None
    case Some(sec) => Some(PadTo(HeadLines(usage, limit, cost, width, secs) + sec, StatusHeight))
  }

  /** A drawn row: its number on the terminal and the text written there. */
  datatype Row = Row(number: int, text: string)

  /** `lines[:STATUS_HEIGHT]`, each line at its row and cut to the width. */
  function RowsOf(lines: seq<string>, height: int, width: int): (rows: seq<Row>)
    requires |lines| >= StatusHeight
    ensures |rows| == StatusHeight
    ensures forall i | 0 <= i < StatusHeight :: rows[i] == Row(StatusStart(height) + i, Prefix(lines[i], width))
  {
    seq(StatusHeight, i requires 0 <= i < StatusHeight => Row(StatusStart(height) + i, Prefix(lines[i], width)))
  }

  /** The rows the block writes. */
  function StatusRows(height: int, width: int, usage: int, limit: int, todos: seq<Json>, cost: nat, secs: nat)
    : Option<seq<Row>>
  {
    match StatusLines(usage, limit, todos, cost, width, secs)
    case None => None
    case Some(lines) => Some(RowsOf(lines, height, width))
  }

  // ---------------------------------------------------------------- properties of the block

  /**
   * Two head lines and a section, padded and cut to six rows: the head lines
   * first, then the section's lines while there are rows left, then blanks.
   */
  lemma BlockRows(head: seq<string>, sec: seq<string>, height: int, width: int)
    requires |head| == 2
    ensures var rows := RowsOf(PadTo(head + sec, StatusHeight), height, width);
      && |rows| == StatusHeight
      && (forall i | 0 <= i < StatusHeight :: rows[i].number == StatusStart(height) + i)
      && (forall i | 0 <= i < StatusHeight :: width >= 0 ==> |rows[i].text| <= width)
      && rows[0].text == Prefix(head[0], width) && rows[1].text == Prefix(head[1], width)
      && (forall i | 0 <= i < |sec| && 2 + i < StatusHeight :: rows[2 + i].text == Prefix(sec[i], width))
      && (forall i | 2 + |sec| <= i < StatusHeight :: rows[i].text == "")
  {
    var pre := head + sec;
    assert forall i | 0 <= i < |sec| :: pre[2 + i] == sec[i];
  }

  /** Lines past the sixth never reach the screen. */
  lemma RowsOfFirstSix(l1: seq<string>, l2: seq<string>, height: int, width: int)
    requires |l1| >= StatusHeight && |l2| >= StatusHeight
    requires l1[..StatusHeight] == l2[..StatusHeight]
    ensures RowsOf(l1, height, width) == RowsOf(l2, height, width)
  {
    assert forall i | 0 <= i < StatusHeight :: l1[i] == l1[..StatusHeight][i] == l2[..StatusHeight][i] == l2[i];
  }

  /** The section fails exactly when one of the first three todos raises. */
  lemma TodoSectionDefined(todos: seq<Json>, width: int)
    ensures TodoSection(todos, width).Some? <==> forall i | 0 <= i < Min(|todos|, 3) :: TodoLine(todos[i], width).Some?
    ensures TodoSection(todos, width).Some? ==>
      |TodoSection(todos, width).value| == if todos == [] then 3 else 1 + Min(|todos|, 3) + (if |todos| > 3 then 1 else 0)
  {
  }

  /**
   * The block is six rows, numbered from the row after the scroll region down
   * to the last row of the terminal, none wider than the terminal; it is
   * drawn unless one of the first three todos raises.
   */
  lemma StatusRowsShape(height: int, width: int, usage: int, limit: int, todos: seq<Json>, cost: nat, secs: nat)
    ensures var rows := StatusRows(height, width, usage, limit, todos, cost, secs);
      && (rows.Some? <==> forall i | 0 <= i < Min(|todos|, 3) :: TodoLine(todos[i], width).Some?)
      && (rows.Some? ==>
        && |rows.value| == StatusHeight
        && rows.value[0].number == ScrollEnd(height) + 1
        && rows.value[StatusHeight - 1].number == height
        && (forall i | 0 <= i < StatusHeight :: rows.value[i].number == StatusStart(height) + i)
        && (forall i | 0 <= i < StatusHeight :: width >= 0 ==> |rows.value[i].text| <= width))
  {
    TodoSectionDefined(todos, width);
    if TodoSection(todos, width).Some? {
      BlockRows(HeadLines(usage, limit, cost, width, secs), TodoSection(todos, width).value, height, width);
    }
  }

  /**
   * What the rows hold: the rule and the progress line, then without todos
   * three blank rows, and with todos a second rule, the first three todos in
   * order, and blank rows up to the sixth; every row cut to the width.
   */
  lemma StatusRowsContent(height: int, width: int, usage: int, limit: int, todos: seq<Json>, cost: nat, secs: nat)
    requires forall i | 0 <= i < Min(|todos|, 3) :: TodoLine(todos[i], width).Some?
    ensures StatusRows(height, width, usage, limit, todos, cost, secs).Some?
    ensures var rows := StatusRows(height, width, usage, limit, todos, cost, secs).value;
      && rows[0].text == Prefix(Separator(width), width)
      && rows[1].text == Prefix(ProgressLine(usage, limit, cost, secs), width)
      && (todos == [] ==> forall i | 2 <= i < StatusHeight :: rows[i].text == "")
      && (todos != [] ==>
        && rows[2].text == Prefix(Separator(width), width)
        && (forall i | 0 <= i < Min(|todos|, 3) :: rows[3 + i].text == Prefix(TodoLine(todos[i], width).value, width))
        && (forall i | 3 + |todos| <= i < StatusHeight :: rows[i].text == ""))
  {
    var p := ProgressLine(usage, limit, cost, secs);
    SectionRows(height, width, p, todos);
    var sec := TodoSection(todos, width).value;
    assert HeadLines(usage, limit, cost, width, secs) == [Separator(width), p];
    assert StatusRows(height, width, usage, limit, todos, cost, secs)
        == Some(RowsOf(PadTo([Separator(width), p] + sec, StatusHeight), height, width));
  }

  /** The rows drawn under a given progress line. */
  lemma SectionRows(height: int, width: int, p: string, todos: seq<Json>)
    requires forall i | 0 <= i < Min(|todos|, 3) :: TodoLine(todos[i], width).Some?
    ensures TodoSection(todos, width).Some?
    ensures var rows := RowsOf(PadTo([Separator(width), p] + TodoSection(todos, width).value, StatusHeight), height, width);
      && rows[0].text == Prefix(Separator(width), width)
      && rows[1].text == Prefix(p, width)
      && (todos == [] ==> forall i | 2 <= i < StatusHeight :: rows[i].text == "")
      && (todos != [] ==>
        && rows[2].text == Prefix(Separator(width), width)
        && (forall i | 0 <= i < Min(|todos|, 3) :: rows[3 + i].text == Prefix(TodoLine(todos[i], width).value, width))
        && (forall i | 3 + |todos| <= i < StatusHeight :: rows[i].text == ""))
  {
    TodoSectionDefined(todos, width);
    var sec := TodoSection(todos, width).value;
    BlockRows([Separator(width), p], sec, height, width);
    if todos != [] {
      TodoSectionLines(todos, width);
    }
  }

  /** With todos, the section is a rule followed by the first three todo lines. */
  lemma TodoSectionLines(todos: seq<Json>, width: int)
    requires todos != [] && TodoSection(todos, width).Some?
    ensures var sec := TodoSection(todos, width).value;
      && |sec| >= 1 + Min(|todos|, 3) && (|todos| <= 3 ==> |sec| == 1 + |todos|)
      && sec[0] == Separator(width)
      && forall i | 0 <= i < Min(|todos|, 3) :: sec[1 + i] == TodoLine(todos[i], width).value
  {
    var ls := TodoLinesUpTo(todos, Min(|todos|, 3), width).value;
    var sec := TodoSection(todos, width).value;
    assert sec[..1 + |ls|] == [Separator(width)] + ls;
    forall i | 0 <= i < Min(|todos|, 3)
      ensures sec[1 + i] == TodoLine(todos[i], width).value
    {
      assert sec[1 + i] == sec[..1 + |ls|][1 + i];
    }
  }

  /**
   * Only the first three todos reach the screen: the `... and N more` line is
   * the seventh line and is cut with the rest by `lines[:STATUS_HEIGHT]`, so a
   * longer list draws exactly as its first three todos do.
   */
  lemma OverflowLineHidden(height: int, width: int, usage: int, limit: int, todos: seq<Json>, cost: nat, secs: nat)
    requires |todos| > 3
    ensures StatusRows(height, width, usage, limit, todos, cost, secs)
         == StatusRows(height, width, usage, limit, todos[..3], cost, secs)
  {
    var short := todos[..3];
    assert forall i | 0 <= i < 3 :: short[i] == todos[i];
    TodoSectionDefined(todos, width);
    TodoSectionDefined(short, width);
    if TodoSection(todos, width).Some? {
      var ls := TodoLinesUpTo(todos, 3, width).value;
      assert ls == TodoLinesUpTo(short, 3, width).value;
      var sec := [Separator(width)] + ls;
      assert TodoSection(todos, width).value == sec + [MoreTodosLine(|todos| - 3)];
      assert TodoSection(short, width).value == sec;
      SeventhLineCut(HeadLines(usage, limit, cost, width, secs), sec, MoreTodosLine(|todos| - 3), height, width);
    }
  }

  lemma SeventhLineCut(head: seq<string>, sec: seq<string>, extra: string, height: int, width: int)
    requires |head| == 2 && |sec| == 4
    ensures RowsOf(PadTo(head + (sec + [extra]), StatusHeight), height, width)
         == RowsOf(PadTo(head + sec, StatusHeight), height, width)
  {
    var l1 := head + (sec + [extra]);
    var l2 := head + sec;
    assert l1[..StatusHeight] == l2;
    RowsOfFirstSix(PadTo(l1, StatusHeight), PadTo(l2, StatusHeight), height, width);
  }

  /** The todo loop of `draw_status_bar`, with its `break` after the third todo. */
  method CollectTodoLines(todos: seq<Json>, width: int) returns (sec: Option<seq<string>>)
    ensures sec == TodoSection(todos, width)
  {
    if |todos| == 0 {
      return Some(["", "", ""]);
    }
    var lines := [Separator(width)];
    var shown := 0;
    var i := 0;
    while i < |todos|
      invariant shown == i <= Min(|todos|, 3)
      invariant TodoLinesUpTo(todos, i, width).Some?
      invariant lines == [Separator(width)] + TodoLinesUpTo(todos, i, width).value
    {
      if shown >= 3 {
        lines := lines + [MoreTodosLine(|todos| - shown)];
        assert Some(lines) == TodoSection(todos, width);
        break;
      }
      var line := TodoLine(todos[i], width);
      if line.None? {
        assert TodoLinesUpTo(todos, Min(|todos|, 3), width).None?;
        return None;
      }
      lines := lines + [line.value];
      shown := shown + 1;
      i := i + 1;
    }
    assert Some(lines) == TodoSection(todos, width);
    sec := Some(lines);
  }

  /** `while len(lines) < STATUS_HEIGHT: lines.append("")` */
  method PadLines(lines0: seq<string>) returns (lines: seq<string>)
    ensures lines == PadTo(lines0, StatusHeight)
  {
    lines := lines0;
    ghost var padded := PadTo(lines0, StatusHeight);
    while |lines| < StatusHeight
      invariant |lines| <= |padded| == Max(|lines|, StatusHeight)
      invariant padded[..|lines|] == lines
      invariant forall k | |lines| <= k < |padded| :: padded[k] == ""
      decreases StatusHeight - |lines|
    {
      assert padded[..|lines| + 1] == lines + [""];
      lines := lines + [""];
    }
  }

  /** The row loop: `lines[:STATUS_HEIGHT]`, each written at its row and cut to the width. */
  method WriteRows(lines: seq<string>, height: int, width: int) returns (out: seq<Row>)
    requires |lines| >= StatusHeight
    ensures out == RowsOf(lines, height, width)
  {
    out := [];
    var r := 0;
    while r < StatusHeight
      invariant 0 <= r <= StatusHeight
      invariant |out| == r
      invariant forall k | 0 <= k < r :: out[k] == Row(StatusStart(height) + k, Prefix(lines[k], width))
    {
      out := out + [Row(StatusStart(height) + r, Prefix(lines[r], width))];
      r := r + 1;
    }
  }

  /**
   * `draw_status_bar`: builds the lines, pads them and writes the first six,
   * each to its row and cut to the width. `None` stands for an exception
   * raised while a todo is rendered.
   */
  method DrawStatusBar(height: int, width: int, usage: int, limit: int, todos: seq<Json>, cost: nat, secs: nat)
    returns (rows: Option<seq<Row>>)
    ensures rows == StatusRows(height, width, usage, limit, todos, cost, secs)
  {
    var head := HeadLines(usage, limit, cost, width, secs);
    var sec := CollectTodoLines(todos, width);
    if sec.None? {
      return None;
    }
    var lines := PadLines(head + sec.value);
    var out := WriteRows(lines, height, width);
    rows := Some(out);
  }
}
