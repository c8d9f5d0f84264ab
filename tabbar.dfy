/**
 * The kitty tab bar drawing (xdg-configs/kitty/tab_bar.py): `draw_tab`
 * writes one tab between powerline separators and restores the cursor
 * colours, `draw_right_status` right-aligns battery, date and time after the
 * last tab, and `draw_tab_with_powerline_separator` chains the two.
 */
module TabBar {
  import opened Text
  import opened TabTitle
  import opened Battery

  /**
   * A colour as the options and the cursor hold it; `as_rgb(color_as_int(c))`
   * is taken to give back the same colour.
   */
  datatype Color = Color(rgb: int)

  /** The colours of the kitty configuration the tab bar uses. */
  datatype Theme = Theme(background: Color, color3: Color, color4: Color, color6: Color, color7: Color, color8: Color)

  /** What kitty tells the drawing function about one tab. */
  datatype Tab = Tab(title: string, isActive: bool, hasActivity: bool, numWindows: int)

  /** One `screen.draw` call: its text, in the cursor colours of that moment. */
  datatype Cell = Cell(fg: Color, bg: Color, text: string)

  /** The tab bar line: the cursor (colours and column) and everything drawn so far. */
  class Screen {
    var fg: Color
    var bg: Color
    var x: int
    const columns: int
    var drawn: seq<Cell>

    constructor (columns: int, x: int, fg: Color, bg: Color)
      ensures this.columns == columns && this.x == x && this.fg == fg && this.bg == bg && drawn == []
    {
      this.columns := columns;
      this.x := x;
      this.fg := fg;
      this.bg := bg;
      drawn := [];
    }

    /** Writes `text` at the cursor, which moves past it. */
    method Draw(text: string)
      modifies this
      ensures drawn == old(drawn) + [Cell(fg, bg, text)]
      ensures x == old(x) + |text| && fg == old(fg) && bg == old(bg)
    {
      drawn := drawn + [Cell(fg, bg, text)];
      x := x + |text|;
    }
  }

  /** The columns a run of cells takes. */
  function Width(cells: seq<Cell>): nat {
    if cells == [] then 0 else Width(cells[..|cells| - 1]) + |cells[|cells| - 1].text|
  }

  lemma {:induction false} WidthAppend(a: seq<Cell>, b: seq<Cell>)
    ensures Width(a + b) == Width(a) + Width(b)
    decreases |b|
  {
    if b == [] {
      assert a + b == a;
    } else {
      assert (a + b)[..|a + b| - 1] == a + b[..|b| - 1];
      WidthAppend(a, b[..|b| - 1]);
    }
  }

  // ---------------------------------------------------------------- one tab

  /** The powerline separators, as the source text spells them. */
  const LeftSep: string := ""
  const RightSep: string := ""

  /** The tab's (background, foreground): light on dark for the active tab, dim otherwise. */
  function TabColors(theme: Theme, active: bool): (Color, Color) {
    if active then (theme.color7, theme.background) else (theme.color8, theme.color7)
  }

  /** The label of a tab, with its title cut to fit and its icon chosen from the cut title. */
  function TabText(tab: Tab, maxTitleLength: int, index: int): string {
    var title := SmartTitle(tab.title, maxTitleLength);
    TabLabel(IconFor(Lower(title)), index, title, tab.numWindows, tab.hasActivity)
  }

  /** What `draw_tab` draws, given the background it found the cursor in. */
  function TabCells(origBg: Color, theme: Theme, tab: Tab, maxTitleLength: int, index: int, isLast: bool): seq<Cell> {
    var (bg, fg) := TabColors(theme, tab.isActive);
    (if index > 0 then [Cell(bg, origBg, LeftSep)] else [])
    + [Cell(fg, bg, TabText(tab, maxTitleLength, index))]
    + (if isLast then [] else [Cell(bg, origBg, RightSep)])
  }

  /**
   * A tab is its label in the tab's colours, with a separator in front
   * exactly when it is not the first tab and one behind exactly when it is
   * not the last; a separator draws in the tab's background over the
   * background the tab found, and takes no columns.
   */
  lemma TabCellsShape(origBg: Color, theme: Theme, tab: Tab, maxTitleLength: int, index: int, isLast: bool)
    ensures var cells := TabCells(origBg, theme, tab, maxTitleLength, index, isLast);
      var (bg, fg) := TabColors(theme, tab.isActive);
      var at := if index > 0 then 1 else 0;
      && |cells| == at + 1 + (if isLast then 0 else 1)
      && cells[at] == Cell(fg, bg, TabText(tab, maxTitleLength, index))
      && (index > 0 ==> cells[0] == Cell(bg, origBg, LeftSep))
      && (!isLast ==> cells[|cells| - 1] == Cell(bg, origBg, RightSep))
      && Width(cells) == |TabText(tab, maxTitleLength, index)|
  {
    var cells := TabCells(origBg, theme, tab, maxTitleLength, index, isLast);
    var (bg, fg) := TabColors(theme, tab.isActive);
    var a: seq<Cell> := if index > 0 then [Cell(bg, origBg, LeftSep)] else [];
    var m := [Cell(fg, bg, TabText(tab, maxTitleLength, index))];
    var z: seq<Cell> := if isLast then [] else [Cell(bg, origBg, RightSep)];
    assert cells == a + m + z;
    WidthAppend(a, m);
    WidthAppend(a + m, z);
    assert Width(a) == 0;
    assert Width(z) == 0;
  }

  /** A tab number or window count below 100 takes at most two digits. */
  lemma SmallNumber(n: int)
    requires 0 <= n < 100
    ensures |IntToString(n)| <= 2
  {
    if n >= 10 {
      assert NatToString(n) == NatToString(n / 10) + [DigitChar(n % 10)];
    }
  }

  /**
   * Once the title has a budget, the label fits `max_title_length` as long
   * as the tab number and the window count have at most two digits: the
   * fifteen characters set aside cover the decorations.
   */
  lemma TabFitsBudget(tab: Tab, maxTitleLength: int, index: int)
    requires maxTitleLength - Decorations >= 1
    requires 0 <= index < 99 && tab.numWindows < 100
    ensures |TabText(tab, maxTitleLength, index)| <= maxTitleLength
  {
    var title := SmartTitle(tab.title, maxTitleLength);
    if |tab.title| > maxTitleLength - Decorations {
      SmartTitleLength(tab.title, maxTitleLength);
    }
    assert |title| <= maxTitleLength - Decorations;
    TabLabelLayout(IconFor(Lower(title)), index, title, tab.numWindows, tab.hasActivity);
    SmallNumber(index + 1);
    if tab.numWindows > 1 {
      SmallNumber(tab.numWindows);
    }
  }

  /** `draw_tab`: returns the column after the tab; the cursor colours are as before. */
  method DrawTab(screen: Screen, theme: Theme, tab: Tab, maxTitleLength: int, index: int, isLast: bool)
    returns (end: int)
    modifies screen
    ensures screen.drawn == old(screen.drawn) + TabCells(old(screen.bg), theme, tab, maxTitleLength, index, isLast)
    ensures screen.x == old(screen.x) + Width(TabCells(old(screen.bg), theme, tab, maxTitleLength, index, isLast))
    ensures screen.fg == old(screen.fg) && screen.bg == old(screen.bg)
    ensures end == screen.x
  {
    var origBg, origFg := screen.bg, screen.fg;
    ghost var x0, d0 := screen.x, screen.drawn;
    var (bg, fg) := TabColors(theme, tab.isActive);
    ghost var front: seq<Cell> := if index > 0 then [Cell(bg, origBg, LeftSep)] else [];
    ghost var back: seq<Cell> := if isLast then [] else [Cell(bg, origBg, RightSep)];
    screen.bg, screen.fg := bg, fg;
    if index > 0 {
      DrawLeftSeparator(screen, bg, fg, origBg);
    }
    assert screen.drawn == d0 + front && screen.x == x0;
    var title := SmartTitle(tab.title, maxTitleLength);
    var icon := IconFor(Lower(title));
    var content := TabLabel(icon, index, title, tab.numWindows, tab.hasActivity);
    assert content == TabText(tab, maxTitleLength, index);
    screen.Draw(content);
    ghost var middle := [Cell(fg, bg, content)];
    CellsAssoc(d0, front, middle);
    if !isLast {
      DrawRightSeparator(screen, bg, origBg);
    }
    CellsAssoc(d0, front + middle, back);
    screen.bg, screen.fg := origBg, origFg;
    end := screen.x;
    TabCellsShape(origBg, theme, tab, maxTitleLength, index, isLast);
  }

  lemma CellsAssoc(a: seq<Cell>, b: seq<Cell>, c: seq<Cell>)
    ensures a + b + c == a + (b + c)
  {
  }

  /**
   * The separator in front of a tab that is not the first: drawn in the tab's
   * background over the background the tab found, then the tab's colours
   * are set again.
   */
  method DrawLeftSeparator(screen: Screen, bg: Color, fg: Color, origBg: Color)
    modifies screen
    ensures screen.drawn == old(screen.drawn) + [Cell(bg, origBg, LeftSep)]
    ensures screen.x == old(screen.x) + |LeftSep| && screen.fg == fg && screen.bg == bg
  {
    screen.bg, screen.fg := origBg, bg;
    screen.Draw(LeftSep);
    screen.bg, screen.fg := bg, fg;
  }

  /** The separator behind a tab that is not the last, in the same colours as the left one. */
  method DrawRightSeparator(screen: Screen, bg: Color, origBg: Color)
    modifies screen
    ensures screen.drawn == old(screen.drawn) + [Cell(bg, origBg, RightSep)]
    ensures screen.x == old(screen.x) + |RightSep| && screen.fg == bg && screen.bg == origBg
  {
    screen.fg, screen.bg := bg, origBg;
    screen.Draw(RightSep);
  }

  // ---------------------------------------------------------------- right status

  /** The status components, in order: battery (only when there is a reading), date, time. */
  function Components(battery: string, date: string, time: string, theme: Theme): (r: seq<(string, Color)>)
    ensures |r| == (if battery == "" then 2 else 3)
    ensures r[|r| - 2] == (" " + date, theme.color6) && r[|r| - 1] == (" " + time, theme.color4)
    ensures battery != "" ==> r[0] == (battery, theme.color3)
  {
    (if battery != "" then [(battery, theme.color3)] else []) + [(" " + date, theme.color6), (" " + time, theme.color4)]
  }

  function SumLengths(comps: seq<(string, Color)>): nat {
    if comps == [] then 0 else SumLengths(comps[..|comps| - 1]) + |comps[|comps| - 1].0|
  }

  /** `total_length`: the texts plus one column per separator. */
  function TotalLength(comps: seq<(string, Color)>): int {
    SumLengths(comps) + |comps| - 1
  }

  /** The separator drawn between two components. */
  const Bar: string := "│"

  /** What the component loop draws for the first `n` components. */
  function ComponentCells(comps: seq<(string, Color)>, n: nat, sepColor: Color, bg: Color): seq<Cell>
    requires n <= |comps|
  {
    if n == 0 then []
    else
      ComponentCells(comps, n - 1, sepColor, bg)
      + (if n > 1 then [Cell(sepColor, bg, Bar)] else [])
      + [Cell(comps[n - 1].1, bg, comps[n - 1].0)]
  }

  /**
   * The components alternate with separators: component `i` in its own
   * colour at position `2i`, a dim separator between each two.
   */
  lemma {:induction false} ComponentCellsLayout(comps: seq<(string, Color)>, n: nat, sepColor: Color, bg: Color)
    requires 1 <= n <= |comps|
    ensures var cells := ComponentCells(comps, n, sepColor, bg);
      && |cells| == 2 * n - 1
      && (forall i | 0 <= i < n :: cells[2 * i] == Cell(comps[i].1, bg, comps[i].0))
      && (forall i | 0 <= i < n - 1 :: cells[2 * i + 1] == Cell(sepColor, bg, Bar))
  {
    if n > 1 {
      ComponentCellsLayout(comps, n - 1, sepColor, bg);
      var prev := ComponentCells(comps, n - 1, sepColor, bg);
      var cells := ComponentCells(comps, n, sepColor, bg);
      assert cells == prev + [Cell(sepColor, bg, Bar)] + [Cell(comps[n - 1].1, bg, comps[n - 1].0)];
      forall i | 0 <= i < n
        ensures cells[2 * i] == Cell(comps[i].1, bg, comps[i].0)
      {
        if i < n - 1 {
          assert cells[2 * i] == prev[2 * i];
        }
      }
      forall i | 0 <= i < n - 1
        ensures cells[2 * i + 1] == Cell(sepColor, bg, Bar)
      {
        if i < n - 2 {
          assert cells[2 * i + 1] == prev[2 * i + 1];
        }
      }
    }
  }

  /** `total_length` is exactly the width the component loop draws. */
  lemma {:induction false} ComponentWidth(comps: seq<(string, Color)>, n: nat, sepColor: Color, bg: Color)
    requires 1 <= n <= |comps|
    ensures Width(ComponentCells(comps, n, sepColor, bg)) == TotalLength(comps[..n])
  {
    var prev := ComponentCells(comps, n - 1, sepColor, bg);
    var sep: seq<Cell> := if n > 1 then [Cell(sepColor, bg, Bar)] else [];
    var last := [Cell(comps[n - 1].1, bg, comps[n - 1].0)];
    WidthAppend(prev + sep, last);
    WidthAppend(prev, sep);
    WidthOne(last[0]);
    var cn := comps[..n];
    assert cn[..n - 1] == comps[..n - 1];
    assert SumLengths(cn) == SumLengths(comps[..n - 1]) + |comps[n - 1].0|;
    if n > 1 {
      ComponentWidth(comps, n - 1, sepColor, bg);
      WidthOne(Cell(sepColor, bg, Bar));
    } else {
      assert prev == [];
      assert comps[..0] == [];
    }
  }

  lemma WidthOne(c: Cell)
    ensures Width([c]) == |c.text|
  {
    assert [c][..0] == [];
  }

  /** `" " * max(0, columns - x - total_length - 2)` */
  function Padding(columns: int, x: int, total: int): string {
    Repeat(' ', columns - x - total - 2)
  }

  /** The components of the status for a battery probe and a clock reading. */
  function StatusComponents(theme: Theme, pmset: Pmset, clock: Clock): seq<(string, Color)>
    requires ValidClock(clock)
  {
    Components(BatteryText(pmset), DateText(clock), TimeText(clock), theme)
  }

  /**
   * What `draw_right_status` draws for its components, from cursor colours
   * `fg`/`bg` at column `x`: the padding, the components, and a closing space
   * in the last component's colour.
   */
  function StatusCells(fg: Color, bg: Color, columns: int, x: int, sepColor: Color, comps: seq<(string, Color)>): seq<Cell>
    requires |comps| > 0
  {
    [Cell(fg, bg, Padding(columns, x, TotalLength(comps)))]
    + ComponentCells(comps, |comps|, sepColor, bg)
    + [Cell(comps[|comps| - 1].1, bg, " ")]
  }

  lemma StatusCellsWidth(fg: Color, bg: Color, columns: int, x: int, sepColor: Color, comps: seq<(string, Color)>)
    requires |comps| > 0
    ensures Width(StatusCells(fg, bg, columns, x, sepColor, comps))
      == Max(0, columns - x - TotalLength(comps) - 2) + TotalLength(comps) + 1
  {
    var pad := [Cell(fg, bg, Padding(columns, x, TotalLength(comps)))];
    var mid := ComponentCells(comps, |comps|, sepColor, bg);
    var tail := [Cell(comps[|comps| - 1].1, bg, " ")];
    WidthAppend(pad + mid, tail);
    WidthAppend(pad, mid);
    assert Width(pad) == |pad[0].text|;
    ComponentWidth(comps, |comps|, sepColor, bg);
    assert comps[..|comps|] == comps;
  }

  /**
   * The status ends one column before the right edge whenever it fits;
   * otherwise it is drawn without padding and runs past the edge.
   */
  lemma RightAligned(fg: Color, bg: Color, columns: int, x: int, sepColor: Color, comps: seq<(string, Color)>)
    requires |comps| > 0
    ensures var total := TotalLength(comps);
      var end := x + Width(StatusCells(fg, bg, columns, x, sepColor, comps));
      && (columns - x - total - 2 >= 0 ==> end == columns - 1)
      && (columns - x - total - 2 < 0 ==> end == x + total + 1)
  {
    StatusCellsWidth(fg, bg, columns, x, sepColor, comps);
  }

  /**
   * Without a battery reading the status is `│`-joined date and time, 14
   * columns; a reading adds its text and one more separator.
   */
  lemma StatusLength(theme: Theme, pmset: Pmset, clock: Clock)
    requires ValidClock(clock)
    ensures TotalLength(StatusComponents(theme, pmset, clock))
      == 14 + (if ReadBattery(pmset).None? then 0 else |ReadBattery(pmset).value.percent| + 4)
  {
    ClockTexts(clock);
    BatteryTextShape(pmset);
    var comps := StatusComponents(theme, pmset, clock);
    var b := BatteryText(pmset);
    var d := " " + DateText(clock);
    var t := " " + TimeText(clock);
    assert |d| == 7 && |t| == 6;
    if b == "" {
      assert comps == [(d, theme.color6), (t, theme.color4)];
      assert comps[..1] == [(d, theme.color6)];
      assert comps[..1][..0] == [];
      assert SumLengths(comps[..1]) == 7;
      assert SumLengths(comps) == 13;
    } else {
      assert comps == [(b, theme.color3), (d, theme.color6), (t, theme.color4)];
      assert comps[..2] == [(b, theme.color3), (d, theme.color6)];
      assert comps[..2][..1] == [(b, theme.color3)];
      assert comps[..2][..1][..0] == [];
      assert SumLengths(comps[..2][..1]) == |b|;
      assert SumLengths(comps[..2]) == |b| + 7;
      assert SumLengths(comps) == |b| + 13;
    }
  }

  /**
   * `draw_right_status`: nothing unless this is the last tab; then padding,
   * the components and a closing space. The foreground is left at the time's
   * colour, the background as it was.
   */
  method DrawRightStatus(screen: Screen, theme: Theme, isLast: bool, pmset: Pmset, clock: Clock)
    returns (end: int)
    requires ValidClock(clock)
    modifies screen
    ensures !isLast ==>
      screen.drawn == old(screen.drawn) && screen.x == old(screen.x) && screen.fg == old(screen.fg) && screen.bg == old(screen.bg)
    ensures isLast ==>
      var cells := StatusCells(old(screen.fg), old(screen.bg), screen.columns, old(screen.x), theme.color8,
                               StatusComponents(theme, pmset, clock));
      && screen.drawn == old(screen.drawn) + cells
      && screen.x == old(screen.x) + Width(cells)
      && screen.fg == theme.color4 && screen.bg == old(screen.bg)
    ensures end == screen.x
  {
    if !isLast {
      return screen.x;
    }
    var components := StatusComponents(theme, pmset, clock);
    DrawStatus(screen, theme.color8, components);
    end := screen.x;
  }

  /** The drawing half of `draw_right_status`, for its list of components. */
  method DrawStatus(screen: Screen, sepColor: Color, comps: seq<(string, Color)>)
    requires |comps| > 0
    modifies screen
    ensures var cells := StatusCells(old(screen.fg), old(screen.bg), screen.columns, old(screen.x), sepColor, comps);
      && screen.drawn == old(screen.drawn) + cells
      && screen.x == old(screen.x) + Width(cells)
      && screen.fg == comps[|comps| - 1].1 && screen.bg == old(screen.bg)
  {
    var x0, d0, fg0, bg := screen.x, screen.drawn, screen.fg, screen.bg;
    var total := TotalLength(comps);
    screen.Draw(Padding(screen.columns, screen.x, total));
    DrawComponents(screen, comps, sepColor);
    screen.Draw(" ");
    ghost var pad := [Cell(fg0, bg, Padding(screen.columns, x0, total))];
    ghost var mid := ComponentCells(comps, |comps|, sepColor, bg);
    ghost var tail := [Cell(comps[|comps| - 1].1, bg, " ")];
    assert StatusCells(fg0, bg, screen.columns, x0, sepColor, comps) == pad + mid + tail;
    WidthAppend(pad + mid, tail);
    WidthAppend(pad, mid);
  }

  /** The `for i, (name, text, color) in enumerate(components)` loop. */
  method DrawComponents(screen: Screen, comps: seq<(string, Color)>, sepColor: Color)
    requires |comps| > 0
    modifies screen
    ensures screen.drawn == old(screen.drawn) + ComponentCells(comps, |comps|, sepColor, old(screen.bg))
    ensures screen.x == old(screen.x) + Width(ComponentCells(comps, |comps|, sepColor, old(screen.bg)))
    ensures screen.fg == comps[|comps| - 1].1 && screen.bg == old(screen.bg)
  {
    ghost var d0, x0 := screen.drawn, screen.x;
    var bg := screen.bg;
    ghost var cells: seq<Cell> := [];
    var i := 0;
    while i < |comps|
      invariant 0 <= i <= |comps|
      invariant cells == ComponentCells(comps, i, sepColor, bg)
      invariant screen.drawn == d0 + cells && screen.x == x0 + Width(cells)
      invariant screen.bg == bg
      invariant i > 0 ==> screen.fg == comps[i - 1].1
    {
      DrawComponent(screen, i > 0, comps[i].0, comps[i].1, sepColor);
      ghost var step := (if i > 0 then [Cell(sepColor, bg, Bar)] else []) + [Cell(comps[i].1, bg, comps[i].0)];
      CellsAssoc(d0, cells, step);
      WidthAppend(cells, step);
      cells := cells + step;
      i := i + 1;
    }
  }

  /** One pass of the component loop: the dim separator after the first, then the component in its colour. */
  method DrawComponent(screen: Screen, separated: bool, text: string, color: Color, sepColor: Color)
    modifies screen
    ensures var cells := (if separated then [Cell(sepColor, old(screen.bg), Bar)] else []) + [Cell(color, old(screen.bg), text)];
      && screen.drawn == old(screen.drawn) + cells
      && screen.x == old(screen.x) + Width(cells)
      && screen.fg == color && screen.bg == old(screen.bg)
  {
    ghost var sep: seq<Cell> := [];
    if separated {
      screen.fg := sepColor;
      screen.Draw(Bar);
      sep := [Cell(sepColor, screen.bg, Bar)];
    }
    screen.fg := color;
    screen.Draw(text);
    ghost var item := [Cell(color, screen.bg, text)];
    WidthAppend(sep, item);
    WidthOne(item[0]);
    if separated {
      WidthOne(sep[0]);
    }
  }

  // ---------------------------------------------------------------- both

  /**
   * `draw_tab_with_powerline_separator`: the tab, then the status when it is
   * the last tab; the column returned is the tab's end, not the status's.
   */
  method DrawTabWithPowerlineSeparator(screen: Screen, theme: Theme, tab: Tab, maxTitleLength: int, index: int,
                                       isLast: bool, pmset: Pmset, clock: Clock)
    returns (end: int)
    requires ValidClock(clock)
    modifies screen
    ensures var cells := TabCells(old(screen.bg), theme, tab, maxTitleLength, index, isLast);
      && end == old(screen.x) + Width(cells)
      && screen.drawn == old(screen.drawn) + cells
        + (if isLast
           then StatusCells(old(screen.fg), old(screen.bg), screen.columns, end, theme.color8, StatusComponents(theme, pmset, clock))
           else [])
    ensures screen.bg == old(screen.bg)
    ensures screen.fg == (if isLast then theme.color4 else old(screen.fg))
  {
    end := DrawTab(screen, theme, tab, maxTitleLength, index, isLast);
    if isLast {
      var _ := DrawRightStatus(screen, theme, isLast, pmset, clock);
    }
  }
}
