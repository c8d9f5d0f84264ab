/**
 * The right-hand status text of the kitty tab bar
 * (xdg-configs/kitty/tab_bar.py, `draw_right_status`, lines 143-184): the
 * battery reading parsed from the output of `pmset -g batt`, and the
 * `strftime` texts of the clock.
 */
module Battery {
  import opened Text

  /** What running `pmset -g batt` gave: an exception (missing program, timeout) or an exit code and stdout. */
  datatype Pmset = PmsetFailed | PmsetRan(returnCode: int, stdout: string)

  /** The battery glyphs: charging, then the level bands above 80, 60, 40 and 20 percent. */
  datatype BatteryIcon = Charging | Full | ThreeQuarters | Half | Quarter | Low

  /** The icon for a level; charging wins over any level. */
  function LevelIcon(charging: bool, level: int): BatteryIcon {
    if charging then Charging
    else if level > 80 then Full
    else if level > 60 then ThreeQuarters
    else if level > 40 then Half
    else if level > 20 then Quarter
    else Low
  }

  /** How full the icon shows the battery, from 0 (lowest band) to 4. */
  function Fill(i: BatteryIcon): nat {
    match i
    case Charging => 4 case Full => 4 case ThreeQuarters => 3 case Half => 2 case Quarter => 1 case Low => 0
  }

  /** A fuller battery never shows an emptier icon, while not charging. */
  lemma LevelIconMonotone(a: int, b: int)
    requires a <= b
    ensures Fill(LevelIcon(false, a)) <= Fill(LevelIcon(false, b))
  {
  }

  /** The bands: each icon covers exactly its range of levels. */
  lemma LevelIconBands(level: int)
    ensures LevelIcon(false, level) == Full <==> level > 80
    ensures LevelIcon(false, level) == ThreeQuarters <==> 60 < level <= 80
    ensures LevelIcon(false, level) == Half <==> 40 < level <= 60
    ensures LevelIcon(false, level) == Quarter <==> 20 < level <= 40
    ensures LevelIcon(false, level) == Low <==> level <= 20
    ensures LevelIcon(true, level) == Charging
  {
  }

  /** The glyph drawn for a battery icon. */
  function BatteryIconText(i: BatteryIcon): (r: string)
    ensures |r| == 1
  {
    " "
  }

  /** A battery reading: the percentage as printed, whether on AC power, and its value. */
  datatype Reading = Reading(percent: string, charging: bool, level: int)

  /**
   * The second line of the output, the last word before its first `%`,
   * the AC-power test, and `int()` of the word; `None` wherever the source
   * ends up with an empty battery text (an exception included).
   */
  function ReadBattery(p: Pmset): Option<Reading> {
    if !p.PmsetRan? || p.returnCode != 0 then None
    else
      var lines := SplitOn(p.stdout, '\n');
      if |lines| < 2 then None else ReadLine(lines[1])
  }

  /** The reading of the line that names the battery. */
  function ReadLine(line: string): Option<Reading> {
    if !Contains(line, "%") then None
    else
      var ws := Words(SplitOn(line, '%')[0]);
      if |ws| == 0 then None
      else
        var pct := ws[|ws| - 1];
        match PyInt(pct)
        case None => None
        case Some(level) => Some(Reading(pct, Contains(line, "AC Power"), level))
  }

  /** `battery_str` */
  function BatteryText(p: Pmset): string {
    match ReadBattery(p)
    case None => ""
    case Some(r) => BatteryIconText(LevelIcon(r.charging, r.level)) + " " + r.percent + "%"
  }

  /** The battery text is empty exactly when there is no reading, and ends in `%` otherwise. */
  lemma BatteryTextShape(p: Pmset)
    ensures BatteryText(p) == "" <==> ReadBattery(p).None?
    ensures ReadBattery(p).Some? ==>
      |BatteryText(p)| == |ReadBattery(p).value.percent| + 3 && BatteryText(p)[|BatteryText(p)| - 1] == '%'
  {
  }

  /** Every way the battery text stays empty. */
  lemma NoBattery(p: Pmset)
    requires || p.PmsetFailed?
             || p.returnCode != 0
             || |SplitOn(p.stdout, '\n')| < 2
             || !Contains(SplitOn(p.stdout, '\n')[1], "%")
    ensures BatteryText(p) == ""
  {
  }

  /**
   * On output whose second line reads `… <level>%…`, with the level written
   * after a whitespace character, the reading is that level, as printed, and
   * charging exactly when the line mentions AC Power.
   */
  lemma ReadWellFormed(first: string, pre: string, sp: char, level: nat, post: string, more: string)
    requires forall k | 0 <= k < |first| :: first[k] != '\n'
    requires forall k | 0 <= k < |pre| :: pre[k] != '%' && pre[k] != '\n'
    requires forall k | 0 <= k < |post| :: post[k] != '\n'
    requires IsSpace(sp) && sp != '\n'
    ensures var line := pre + [sp] + IntToString(level) + "%" + post;
      ReadBattery(PmsetRan(0, first + "\n" + line + "\n" + more))
        == Some(Reading(IntToString(level), Contains(line, "AC Power"), level))
  {
    var d := IntToString(level);
    var line := pre + [sp] + d + "%" + post;
    IntToStringAvoids(level, '\n');
    SecondLine(first, line, more);
    ReadLineOf(pre, sp, level, post);
  }

  lemma ReadLineOf(pre: string, sp: char, level: nat, post: string)
    requires forall k | 0 <= k < |pre| :: pre[k] != '%'
    requires IsSpace(sp)
    ensures var line := pre + [sp] + IntToString(level) + "%" + post;
      ReadLine(line) == Some(Reading(IntToString(level), Contains(line, "AC Power"), level))
  {
    var d := IntToString(level);
    var line := pre + [sp] + d + "%" + post;
    IntToStringAvoids(level, '%');
    var u := pre + [sp] + d;
    assert line == u + ['%'] + post;
    FirstPiece(u, post);
    ContainsAt(line, "%", |u|);
    assert NoSpace(d);
    WordsEndWith(pre, sp, d);
    PyIntRoundTrip(level);
  }

  lemma SecondLine(first: string, line: string, more: string)
    requires forall k | 0 <= k < |first| :: first[k] != '\n'
    requires forall k | 0 <= k < |line| :: line[k] != '\n'
    ensures |SplitOn(first + "\n" + line + "\n" + more, '\n')| >= 2
    ensures SplitOn(first + "\n" + line + "\n" + more, '\n')[1] == line
  {
    assert first + "\n" + line + "\n" + more == first + ['\n'] + (line + ['\n'] + more);
    SplitAround(first, line + ['\n'] + more, '\n');
    SplitAround(line, more, '\n');
    SplitNone(first, '\n');
    SplitNone(line, '\n');
  }

  lemma FirstPiece(u: string, post: string)
    requires forall k | 0 <= k < |u| :: u[k] != '%'
    ensures SplitOn(u + ['%'] + post, '%')[0] == u
  {
    SplitAround(u, post, '%');
    SplitNone(u, '%');
  }

  // ---------------------------------------------------------------- clock

  /** The local time, as far as the status shows it. */
  datatype Clock = Clock(weekday: int, day: int, hour: int, minute: int)

  predicate ValidClock(c: Clock) {
    0 <= c.weekday < 7 && 1 <= c.day <= 31 && 0 <= c.hour < 24 && 0 <= c.minute < 60
  }

  /** A number below 100 on two digits, as `%d`, `%H` and `%M` write it. */
  function TwoDigits(n: int): (r: string)
    requires 0 <= n < 100
    ensures |r| == 2 && AllDigits(r) && DigitsValue(r) == n
  {
    var r := [DigitChar(n / 10), DigitChar(n % 10)];
    assert r[..1] == [DigitChar(n / 10)] && [DigitChar(n / 10)][..0] == [];
    assert DigitChar(n / 10) as int == 48 + n / 10 && DigitChar(n % 10) as int == 48 + n % 10;
    assert DigitsValue(r[..1]) == n / 10;
    assert DigitsValue(r) == DigitsValue(r[..1]) * 10 + (r[1] as int - 48);
    r
  }

  /** `%a` in the C locale, Monday first. */
  function WeekdayName(w: int): (r: string)
    requires 0 <= w < 7
    ensures |r| == 3
  {
    ["Mon", "Tue", "Wed", "Thu", "Fri", "Sat", "Sun"][w]
  }

  /** `now.strftime("%H:%M")` */
  function TimeText(c: Clock): string
    requires ValidClock(c)
  {
    TwoDigits(c.hour) + ":" + TwoDigits(c.minute)
  }

  /** `now.strftime("%a %d")` */
  function DateText(c: Clock): string
    requires ValidClock(c)
  {
    WeekdayName(c.weekday) + " " + TwoDigits(c.day)
  }

  /** The clock texts have fixed widths, and the hour and minute read back. */
  lemma ClockTexts(c: Clock)
    requires ValidClock(c)
    ensures |TimeText(c)| == 5 && |DateText(c)| == 6
    ensures TimeText(c)[2] == ':'
    ensures DigitsValue(TimeText(c)[..2]) == c.hour && DigitsValue(TimeText(c)[3..]) == c.minute
    ensures DigitsValue(DateText(c)[4..]) == c.day
  {
    assert TimeText(c)[..2] == TwoDigits(c.hour);
    assert TimeText(c)[3..] == TwoDigits(c.minute);
    assert DateText(c)[4..] == TwoDigits(c.day);
  }
}
