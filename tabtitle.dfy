/**
 * The text of one kitty tab (xdg-configs/kitty/tab_bar.py, `draw_tab`,
 * lines 62-116): the title cut to fit the tab, the icon chosen from the
 * title's keywords, and the label ` {icon} {n}:{title}[ [w]][bell] `.
 */
module TabTitle {
  import opened Text

  /** The characters the decorations take from `max_title_length`. */
  const Decorations: int := 15

  /** The title of width `max_title_length`, cut around `…` when it is too long. */
  function SmartTitle(title: string, maxTitleLength: int): string {
    var m := maxTitleLength - Decorations;
    if |title| <= m then title
    else if m > 10 then
      var mid := m / 2 - 2;
      title[..mid] + "…" + SliceFrom(title, -(m - mid - 1))
    else Prefix(title, m - 1) + "…"
  }

  /** A title that fits is left alone. */
  lemma SmartTitleFits(title: string, maxTitleLength: int)
    requires |title| <= maxTitleLength - Decorations
    ensures SmartTitle(title, maxTitleLength) == title
  {
  }

  /**
   * A title that does not fit a budget of at least one character is cut to
   * exactly the budget and ends in, or holds, the ellipsis.
   */
  lemma SmartTitleLength(title: string, maxTitleLength: int)
    requires |title| > maxTitleLength - Decorations >= 1
    ensures |SmartTitle(title, maxTitleLength)| == maxTitleLength - Decorations
    ensures Contains(SmartTitle(title, maxTitleLength), "…")
  {
    var m := maxTitleLength - Decorations;
    var r := SmartTitle(title, maxTitleLength);
    if m > 10 {
      var mid := m / 2 - 2;
      ContainsAt(r, "…", mid);
    } else {
      ContainsAt(r, "…", m - 1);
    }
  }

  /**
   * With a budget above ten, the cut keeps the first `m // 2 - 2` and the
   * last `m - (m // 2 - 2) - 1` characters, which never overlap, with `…`
   * in place of everything between them.
   */
  lemma SmartTitleKeepsEnds(title: string, maxTitleLength: int)
    requires |title| > maxTitleLength - Decorations > 10
    ensures var m := maxTitleLength - Decorations;
      var head := m / 2 - 2;
      var tail := m - head - 1;
      && 3 <= head && 3 <= tail && head + tail < |title|
      && SmartTitle(title, maxTitleLength) == title[..head] + "…" + title[|title| - tail..]
  {
  }

  /** With a short budget only the head survives, in front of `…`. */
  lemma SmartTitleShortBudget(title: string, maxTitleLength: int)
    requires |title| > maxTitleLength - Decorations && 1 <= maxTitleLength - Decorations <= 10
    ensures SmartTitle(title, maxTitleLength) == title[..maxTitleLength - Decorations - 1] + "…"
  {
  }

  /**
   * With no budget at all (`max_title_length` at most 15) Python's negative
   * slice drops characters from the end instead: the cut title may be longer
   * than the budget, and even an empty title becomes `…` once the budget is
   * negative.
   */
  lemma SmartTitleNoBudget(title: string, maxTitleLength: int)
    requires |title| > maxTitleLength - Decorations && maxTitleLength - Decorations <= 0
    ensures var m := maxTitleLength - Decorations;
      SmartTitle(title, maxTitleLength) == title[..Max(0, |title| + m - 1)] + "…"
    ensures |SmartTitle(title, maxTitleLength)| <= Max(|title|, 1)
  {
  }

  /** Cutting never lengthens a non-empty title. */
  lemma SmartTitleNeverLonger(title: string, maxTitleLength: int)
    ensures |SmartTitle(title, maxTitleLength)| <= Max(|title|, 1)
  {
    var m := maxTitleLength - Decorations;
    if |title| > m {
      if m > 10 {
        SmartTitleKeepsEnds(title, maxTitleLength);
      } else if m >= 1 {
        SmartTitleLength(title, maxTitleLength);
      } else {
        SmartTitleNoBudget(title, maxTitleLength);
      }
    }
  }

  // ---------------------------------------------------------------- icons

  /** The eleven process groups the icon distinguishes, and the fallback. */
  datatype Icon = Editor | Git | Remote | Node | Python | Docker | Rust | Go | Database | Shell | Monitor | Default

  /** `any(x in t for x in keys)` */
  predicate AnyIn(t: string, keys: seq<string>) {
    |keys| > 0 && (Contains(t, keys[0]) || AnyIn(t, keys[1..]))
  }

  /** The icon of a lower-cased title: the first group one of whose keywords it holds. */
  function IconFor(t: string): Icon {
    if AnyIn(t, ["nvim", "vim", "vi ", "neovim"]) then Editor
    else if AnyIn(t, ["git", "tig", "lazygit"]) then Git
    else if AnyIn(t, ["ssh", "scp", "sftp"]) then Remote
    else if AnyIn(t, ["node", "npm", "yarn", "pnpm"]) then Node
    else if AnyIn(t, ["python", "python3", "pip", "conda"]) then Python
    else if AnyIn(t, ["docker", "docker-compose"]) then Docker
    else if AnyIn(t, ["cargo", "rust"]) then Rust
    else if AnyIn(t, ["go ", "golang"]) then Go
    else if AnyIn(t, ["mysql", "psql", "sqlite"]) then Database
    else if AnyIn(t, ["fish", "zsh", "bash", "sh"]) then Shell
    else if AnyIn(t, ["htop", "top", "btop"]) then Monitor
    else Default
  }

  /** The groups as a table, in the order they are tried. */
  const Groups: seq<(Icon, seq<string>)> := [
    (Editor, ["nvim", "vim", "vi ", "neovim"]),
    (Git, ["git", "tig", "lazygit"]),
    (Remote, ["ssh", "scp", "sftp"]),
    (Node, ["node", "npm", "yarn", "pnpm"]),
    (Python, ["python", "python3", "pip", "conda"]),
    (Docker, ["docker", "docker-compose"]),
    (Rust, ["cargo", "rust"]),
    (Go, ["go ", "golang"]),
    (Database, ["mysql", "psql", "sqlite"]),
    (Shell, ["fish", "zsh", "bash", "sh"]),
    (Monitor, ["htop", "top", "btop"])
  ]

  /** Position of an icon's group in the table; the fallback comes after all of them. */
  function Rank(i: Icon): (r: nat)
    ensures r <= |Groups|
    ensures r < |Groups| ==> Groups[r].0 == i
    ensures i.Default? <==> r == |Groups|
  {
    match i
    case Editor => 0 case Git => 1 case Remote => 2 case Node => 3 case Python => 4 case Docker => 5
    case Rust => 6 case Go => 7 case Database => 8 case Shell => 9 case Monitor => 10 case Default => 11
  }

  /**
   * The icon is first-match over the table: the title holds a keyword of the
   * chosen group and none of any group tried before it.
   */
  lemma IconIsFirstMatch(t: string)
    ensures IconFor(t).Default? || AnyIn(t, Groups[Rank(IconFor(t))].1)
    ensures forall j | 0 <= j < Rank(IconFor(t)) :: !AnyIn(t, Groups[j].1)
  {
  }

  /** Some keywords can never decide: a shorter keyword of the same group is inside them. */
  lemma RedundantKeywords(t: string)
    ensures Contains(t, "neovim") ==> Contains(t, "vim")
    ensures Contains(t, "lazygit") ==> Contains(t, "git")
    ensures Contains(t, "python3") ==> Contains(t, "python")
    ensures Contains(t, "docker-compose") ==> Contains(t, "docker")
  {
    if Contains(t, "neovim") {
      var k := ContainsWitness(t, "neovim");
      SliceOfSlice(t, k, k + 6, 3, 3);
      assert "neovim"[3..6] == "vim";
      ContainsAt(t, "vim", k + 3);
    }
    if Contains(t, "lazygit") {
      var k := ContainsWitness(t, "lazygit");
      SliceOfSlice(t, k, k + 7, 4, 3);
      assert "lazygit"[4..7] == "git";
      ContainsAt(t, "git", k + 4);
    }
    if Contains(t, "python3") {
      var k := ContainsWitness(t, "python3");
      SliceOfSlice(t, k, k + 7, 0, 6);
      assert "python3"[0..6] == "python";
      ContainsAt(t, "python", k);
    }
    if Contains(t, "docker-compose") {
      var k := ContainsWitness(t, "docker-compose");
      SliceOfSlice(t, k, k + 14, 0, 6);
      assert "docker-compose"[0..6] == "docker";
      ContainsAt(t, "docker", k);
    }
  }

  /**
   * "ssh" holds "sh", so the remote group must be tried before the shell
   * group: a title naming ssh never gets the shell icon.
   */
  lemma RemoteBeforeShell(t: string)
    requires Contains(t, "ssh")
    ensures Contains(t, "sh")
    ensures IconFor(t) in {Editor, Git, Remote}
  {
    var k := ContainsWitness(t, "ssh");
    SliceOfSlice(t, k, k + 3, 1, 2);
    assert "ssh"[1..3] == "sh";
    ContainsAt(t, "sh", k + 1);
  }

  /** The glyph drawn for an icon. */
  function IconText(i: Icon): (r: string)
    ensures |r| == 1
  {
    " "
  }

  // ---------------------------------------------------------------- label

  /** `f"[{num_windows}]"` when the tab has more than one window. */
  function WindowIndicator(numWindows: int): string {
    if numWindows > 1 then "[" + IntToString(numWindows) + "]" else ""
  }

  /** The activity mark. */
  function BellSymbol(hasActivity: bool): string {
    if hasActivity then " " else ""
  }

  /** `f" {icon} {index + 1}:{title}"`, then the indicators, then a space. */
  function TabLabel(icon: Icon, index: int, title: string, numWindows: int, hasActivity: bool): string {
    var w := WindowIndicator(numWindows);
    " " + IconText(icon) + " " + IntToString(index + 1) + ":" + title
    + (if w != "" then " " + w else "") + BellSymbol(hasActivity) + " "
  }

  /** The part of a label after the title. */
  function LabelTail(numWindows: int, hasActivity: bool): string {
    (if numWindows > 1 then " [" + IntToString(numWindows) + "]" else "") + BellSymbol(hasActivity) + " "
  }

  /** The tab number written in a label: the text between the icon and the first colon. */
  function TabNumberOf(shown: string): Option<int> {
    if |shown| < 3 then None else PyInt(SplitOn(shown[3..], ':')[0])
  }

  /**
   * A label is the icon, the one-based tab number and the title, then a
   * window count exactly when there is more than one window, then the bell
   * exactly when there was activity, then a closing space.
   */
  lemma TabLabelLayout(icon: Icon, index: int, title: string, numWindows: int, hasActivity: bool)
    ensures var r := TabLabel(icon, index, title, numWindows, hasActivity);
      r == " " + IconText(icon) + " " + IntToString(index + 1) + ":" + title + LabelTail(numWindows, hasActivity)
    ensures var tail := LabelTail(numWindows, hasActivity);
      && |tail| == (if numWindows > 1 then 3 + |IntToString(numWindows)| else 0) + (if hasActivity then 1 else 0) + 1
      && (numWindows > 1 <==> StartsWith(tail, " ["))
      && tail[|tail| - 1] == ' '
  {
    var w := WindowIndicator(numWindows);
    if numWindows > 1 {
      assert (if w != "" then " " + w else "") == " [" + IntToString(numWindows) + "]";
    } else {
      assert w == "";
    }
    LabelTailShape(numWindows, hasActivity);
  }

  lemma LabelTailShape(numWindows: int, hasActivity: bool)
    ensures var tail := LabelTail(numWindows, hasActivity);
      && |tail| == (if numWindows > 1 then 3 + |IntToString(numWindows)| else 0) + (if hasActivity then 1 else 0) + 1
      && (numWindows > 1 <==> StartsWith(tail, " ["))
      && tail[|tail| - 1] == ' '
  {
    var tail := LabelTail(numWindows, hasActivity);
    var b := BellSymbol(hasActivity);
    if numWindows > 1 {
      var d := IntToString(numWindows);
      assert tail == " [" + d + "]" + b + " ";
      assert tail[..2] == " [";
    } else {
      assert tail == b + " ";
      assert |tail| >= 2 ==> tail[1] == ' ';
    }
  }

  /** The tab number shown in a label reads back as `index + 1`. */
  lemma TabNumberRoundTrip(icon: Icon, index: int, title: string, numWindows: int, hasActivity: bool)
    ensures TabNumberOf(TabLabel(icon, index, title, numWindows, hasActivity)) == Some(index + 1)
  {
    var w := WindowIndicator(numWindows);
    var front := " " + IconText(icon) + " ";
    var rest := title + (if w != "" then " " + w else "") + BellSymbol(hasActivity) + " ";
    var l := TabLabel(icon, index, title, numWindows, hasActivity);
    assert l == front + IntToString(index + 1) + ":" + rest;
    NumberBeforeColon(front, index + 1, rest);
  }

  lemma NumberBeforeColon(front: string, n: int, rest: string)
    requires |front| == 3
    ensures TabNumberOf(front + IntToString(n) + ":" + rest) == Some(n)
  {
    var d := IntToString(n);
    var r := front + d + ":" + rest;
    assert r[3..] == d + [':'] + rest;
    SplitAround(d, rest, ':');
    IntToStringAvoids(n, ':');
    SplitNone(d, ':');
    PyIntRoundTrip(n);
  }
}
