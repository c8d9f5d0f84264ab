/**
 * The main loop of the Ralph formatter (bin/ralph-format.py, lines 269-378)
 * as a function of its state: each stream-JSON line from the agent is
 * classified, printed to the scrolling area, and may update the context
 * usage or the todo list; every print redraws the status block.
 *
 * Python exceptions are part of the model. An exception inside an event
 * ends that event (what was printed stays printed) and is swallowed by the
 * loop's `except Exception: pass`; an exception while echoing a line that is
 * not JSON escapes the loop and ends the program.
 */
module Events {
  import opened Text
  import opened JsonValue
  import opened Ansi
  import opened KeyValue
  import opened StatusBlock
  import opened Diff

  /** `context_limit` */
  const ContextLimit := 200000

  /** What the formatter writes: a line to the scrolling area, or the status block. */
  datatype Effect = Print(text: string) | Draw(rows: seq<Row>)

  /** How the current event ends: normally, by a swallowed exception, or by one that ends the program. */
  datatype Flow = Going | Raised | Crashed

  /** The formatter's state (`context_usage`, `current_todos`, `total_cost`), its output, and the flow. */
  datatype Run = Run(usage: int, todos: seq<Json>, cost: nat, out: seq<Effect>, flow: Flow)

  /** The state before the first line: nothing used, no todos, no cost. */
  const Start := Run(0, [], 0, [], Going)

  /** An external program fed one text: its stdout, or `None` where starting it raises. */
  type Tool = string -> Option<string>

  /** What the loop sees of its surroundings: the terminal size and whether glow and delta are installed. */
  datatype Env = Env(height: int, width: int, glow: Option<Tool>, delta: Option<Tool>)

  /** One line of standard input, what `json.loads` made of it (`None`: a decode error), and the clock. */
  datatype Input = Input(raw: string, parsed: Option<Json>, secs: nat)

  // ---------------------------------------------------------------- output

  /** `draw_status_bar()`; it raises when a todo cannot be shown. */
  function Redraw(e: Env, secs: nat, r: Run): Run {
    if !r.flow.Going? then r
    else
      match StatusRows(e.height, e.width, r.usage, ContextLimit, r.todos, r.cost, secs)
      case None => r.(flow := Raised)
      case Some(rows) => r.(out := r.out + [Draw(rows)])
  }

  /** `output(text)`: print, then redraw. */
  function Emit(e: Env, secs: nat, text: string, r: Run): Run {
    if !r.flow.Going? then r else Redraw(e, secs, r.(out := r.out + [Print(text)]))
  }

  /** `output` on each text in turn, stopping at the first exception. */
  function EmitAll(e: Env, secs: nat, texts: seq<string>, r: Run): Run
    decreases |texts|
  {
    if texts == [] then r else Emit(e, secs, texts[|texts| - 1], EmitAll(e, secs, texts[..|texts| - 1], r))
  }

  /** `f"  {ln}"` for each line. */
  function Indented(ls: seq<string>): (r: seq<string>)
    ensures |r| == |ls| && forall i | 0 <= i < |ls| :: r[i] == "  " + ls[i]
  {
    if ls == [] then [] else Indented(ls[..|ls| - 1]) + ["  " + ls[|ls| - 1]]
  }

  /** The `try: … except: pass` around a block. */
  function Swallow(r: Run): Run {
    if r.flow.Raised? then r.(flow := Going) else r
  }

  // ---------------------------------------------------------------- assistant events

  /** `render_markdown(text)`: glow's output without trailing whitespace, or the text itself. */
  function Render(glow: Option<Tool>, text: string): string {
    match glow
    case None => text
    case Some(run) =>
      match run(text)
      case None => text
      case Some(out) => if out == "" then text else RStrip(out)
  }

  /** One of the three token counts; `None` where adding it would raise. */
  function UsageField(u: seq<(string, Json)>, k: string): Option<int> {
    match Get(u, k, JInt(0))
    case JInt(i) => Some(i)
    case JBool(b) => Some(if b then 1 else 0)
    case _ => None
  }

  /** Input, cache-read and cache-creation tokens, a missing count being 0. */
  function UsageSum(u: seq<(string, Json)>): Option<int> {
    match (UsageField(u, "input_tokens"), UsageField(u, "cache_read_input_tokens"), UsageField(u, "cache_creation_input_tokens"))
    case (Some(a), Some(b), Some(c)) => Some(a + b + c)
    case _ => None
  }

  const ClaudeHeader := "\n" + BoldCyan + "◆ Claude" + Reset
  const ThinkingHeader := "\n" + Gray + "◇ Thinking..." + Reset

  function ToolHeader(name: Json): string {
    "\n" + Yellow + "⚙ " + Show(name) + Reset
  }

  /** The tools `name` is compared against, in order. */
  datatype ToolKind = EditTool | WriteTool | ReadTool | BashTool | GrepTool | GlobTool | TodoTool | TaskTool | OtherTool

  function ToolKindOf(name: Json): ToolKind {
    if name == JStr("Edit") then EditTool
    else if name == JStr("Write") then WriteTool
    else if name == JStr("Read") then ReadTool
    else if name == JStr("Bash") then BashTool
    else if name == JStr("Grep") then GrepTool
    else if name == JStr("Glob") then GlobTool
    else if name == JStr("TodoWrite") then TodoTool
    else if name == JStr("Task") then TaskTool
    else OtherTool
  }

  /** The one line shown for the tools that name a file, a command, a pattern or an agent. */
  function ToolLine(k: ToolKind, inp: seq<(string, Json)>): string
    requires k !in {TodoTool, OtherTool}
  {
    match k
    case EditTool => "  " + Cyan + "File:" + Reset + " " + Show(Get(inp, "file_path", JNull))
    case WriteTool => "  " + Cyan + "File:" + Reset + " " + Show(Get(inp, "file_path", JNull))
    case ReadTool => "  " + Cyan + "Read:" + Reset + " " + Show(Get(inp, "file_path", JNull))
    case BashTool => "  " + Gray + "$" + Reset + " " + Bold + Show(Get(inp, "command", JNull)) + Reset
    case GrepTool => "  " + Cyan + "Search:" + Reset + " " + Bold + Show(Get(inp, "pattern", JNull)) + Reset
    case GlobTool => "  " + Cyan + "Pattern:" + Reset + " " + Bold + Show(Get(inp, "pattern", JNull)) + Reset
    case TaskTool =>
      "  " + Cyan + "Agent:" + Reset + " " + Show(Get(inp, "subagent_type", JNull))
      + " - " + Show(Get(inp, "description", JStr("")))
  }

  /** A `text` part: the header and the rendered lines, unless the text is blank. */
  function TextPart(e: Env, secs: nat, text: Json, r: Run): Run {
    if !text.JStr? then r.(flow := Raised)
    else if IsBlank(text.s) then r
    else EmitAll(e, secs, [ClaudeHeader] + Indented(SplitOn(Render(e.glow, text.s), '\n')), r)
  }

  /** A `thinking` part: only a marker, unless the thinking is blank. */
  function ThinkingPart(e: Env, secs: nat, text: Json, r: Run): Run {
    if !text.JStr? then r.(flow := Raised)
    else if IsBlank(text.s) then r
    else Emit(e, secs, ThinkingHeader, r)
  }

  /** A `tool_use` part: the tool's name, then what it is called with. */
  function ToolUse(e: Env, secs: nat, name: Json, inp: Json, r: Run): Run {
    var r1 := Emit(e, secs, ToolHeader(name), r);
    var k := ToolKindOf(name);
    if !r1.flow.Going? then r1
    else if k == OtherTool then
      var kv := KvText(AsWritten, inp, 2);
      if kv == "" then r1 else Emit(e, secs, kv, r1)
    else if !inp.JObj? then r1.(flow := Raised)
    else if k == TodoTool then
      match Iter(Get(inp.entries, "todos", JList([])))
      case None => r1.(flow := Raised)
      case Some(ts) => Redraw(e, secs, r1.(todos := ts))
    else Emit(e, secs, ToolLine(k, inp.entries), r1)
  }

  /** One part of an assistant message's content. */
  function Part(e: Env, secs: nat, part: Json, r: Run): Run {
    if !r.flow.Going? then r
    else if !part.JObj? then r.(flow := Raised)
    else
      var ptype := Get(part.entries, "type", JNull);
      if ptype == JStr("text") then TextPart(e, secs, Get(part.entries, "text", JStr("")), r)
      else if ptype == JStr("thinking") then ThinkingPart(e, secs, Get(part.entries, "thinking", JStr("")), r)
      else if ptype == JStr("tool_use") then
        ToolUse(e, secs, Get(part.entries, "name", JNull), Get(part.entries, "input", JObj([])), r)
      else r
  }

  /** The parts loop. */
  function Parts(e: Env, secs: nat, parts: seq<Json>, r: Run): Run
    decreases |parts|
  {
    if parts == [] then r else Part(e, secs, parts[|parts| - 1], Parts(e, secs, parts[..|parts| - 1], r))
  }

  /** The usage update of an assistant event: the new count and a redraw, when `usage` is truthy. */
  function UsageUpdate(e: Env, secs: nat, usage: Json, r: Run): Run {
    if !Truthy(usage) then r
    else if !usage.JObj? then r.(flow := Raised)
    else
      match UsageSum(usage.entries)
      case None => r.(flow := Raised)
      case Some(u) => Redraw(e, secs, r.(usage := u))
  }

  /** An `assistant` event. */
  function Assistant(e: Env, secs: nat, es: seq<(string, Json)>, r: Run): Run {
    var message := Get(es, "message", JObj([]));
    if !message.JObj? then r.(flow := Raised)
    else
      var r1 := UsageUpdate(e, secs, Get(message.entries, "usage", JObj([])), r);
      if !r1.flow.Going? then r1
      else
        match Iter(Get(message.entries, "content", JList([])))
        case None => r1.(flow := Raised)
        case Some(parts) => Parts(e, secs, parts, r1)
  }

  // ---------------------------------------------------------------- user events

  const ErrorOpen := "<tool_use_error>"
  const ErrorClose := "</tool_use_error>"

  /** A string result reads as an error when it mentions "error" in any case, or starts with the tag. */
  predicate IsToolError(s: string) {
    Contains(Lower(s), "error") || StartsWith(s, ErrorOpen)
  }

  /** The message with both tags removed. */
  function StripTags(s: string): string {
    RemoveAll(RemoveAll(s, ErrorOpen), ErrorClose)
  }

  /** The rules a dict result is tried against, in order; `Generic` is the fallback. */
  datatype ResultKind = TodoUpdate | FileView | Patch | Created | Found | CommandRun | AgentDone | Stdout | Generic

  function Classify(rs: seq<(string, Json)>): ResultKind {
    if HasKey(rs, "newTodos") then TodoUpdate
    else if Get(rs, "type", JNull) == JStr("text") && HasKey(rs, "file") then FileView
    else if HasKey(rs, "structuredPatch") then Patch
    else if Get(rs, "type", JNull) == JStr("create") then Created
    else if HasKey(rs, "filenames") || HasKey(rs, "matches") then Found
    else if HasKey(rs, "output") && HasKey(rs, "exitCode") then CommandRun
    else if HasKey(rs, "result") && HasKey(rs, "usage") then AgentDone
    else if HasKey(rs, "stdout") then Stdout
    else Generic
  }

  /** The rules as a table. */
  const Rules: seq<ResultKind> := [TodoUpdate, FileView, Patch, Created, Found, CommandRun, AgentDone, Stdout]

  /** What a result must hold for a rule to apply. */
  predicate Fits(k: ResultKind, rs: seq<(string, Json)>) {
    match k
    case TodoUpdate => HasKey(rs, "newTodos")
    case FileView => Get(rs, "type", JNull) == JStr("text") && HasKey(rs, "file")
    case Patch => HasKey(rs, "structuredPatch")
    case Created => Get(rs, "type", JNull) == JStr("create")
    case Found => HasKey(rs, "filenames") || HasKey(rs, "matches")
    case CommandRun => HasKey(rs, "output") && HasKey(rs, "exitCode")
    case AgentDone => HasKey(rs, "result") && HasKey(rs, "usage")
    case Stdout => HasKey(rs, "stdout")
    case Generic => true
  }

  function Order(k: ResultKind): (n: nat)
    ensures n <= |Rules|
    ensures n < |Rules| ==> Rules[n] == k
    ensures k.Generic? <==> n == |Rules|
  {
    match k
    case TodoUpdate => 0 case FileView => 1 case Patch => 2 case Created => 3 case Found => 4
    case CommandRun => 5 case AgentDone => 6 case Stdout => 7 case Generic => 8
  }

  /** `a or b or []` */
  function FirstTruthy(a: Json, b: Json): Json {
    if Truthy(a) then a else if Truthy(b) then b else JList([])
  }

  /** A file that was read: its path and its number of lines. */
  function ViewFile(e: Env, secs: nat, f: Json, r: Run): Run {
    if !f.JObj? then r.(flow := Raised)
    else
      match Get(f.entries, "content", JStr(""))
      case JStr(c) =>
        Emit(e, secs, "  " + Cyan + "📄" + Reset + " " + Show(Get(f.entries, "filePath", JNull))
                      + " (" + IntToString(|SplitOn(c, '\n')|) + " lines)", r)
      case _ => r.(flow := Raised)
  }

  /** `show_diff(file_path, patches)` */
  function ShowDiff(e: Env, secs: nat, filePath: Json, patches: Json, r: Run): Run {
    match e.delta
    case None => Emit(e, secs, "  " + BoldMagenta + "DIFF: " + Show(filePath) + Reset, r)
    case Some(run) =>
      match DiffLines(filePath, patches)
      case None => r.(flow := Raised)
      case Some(lines) =>
        match DiffInput(lines)
        case None => r
        case Some(input) =>
          match run(input)
          case None => r
          case Some(out) => if out == "" then r else Swallow(EmitAll(e, secs, Indented(SplitOn(Strip(out), '\n')), r))
  }

  /** A command's output, then its exit code in green for 0 and red otherwise. */
  function CommandResult(e: Env, secs: nat, output: Json, code: Json, r: Run): Run {
    if !output.JStr? then r.(flow := Raised)
    else
      var out := Strip(output.s);
      var r1 := if out != "" then Emit(e, secs, "  " + Gray + Truncate(out, 300) + Reset, r) else r;
      Emit(e, secs, "  " + (if EqualsZero(code) then Green else Red) + "Exit: " + Show(code) + Reset, r1)
  }

  /** A dict `tool_use_result`, by the first rule it fits. */
  function ToolResult(e: Env, secs: nat, rs: seq<(string, Json)>, r: Run): Run {
    match Classify(rs)
    case TodoUpdate =>
      (match Iter(Get(rs, "newTodos", JList([])))
       case None => r.(flow := Raised)
       case Some(ts) => Redraw(e, secs, r.(todos := ts)))
    case FileView => ViewFile(e, secs, Get(rs, "file", JNull), r)
    case Patch => ShowDiff(e, secs, Get(rs, "filePath", JNull), Get(rs, "structuredPatch", JNull), r)
    case Created => Emit(e, secs, "  " + Green + "✨ Created:" + Reset + " " + Show(Get(rs, "filePath", JNull)), r)
    case Found =>
      (match Len(FirstTruthy(Get(rs, "filenames", JNull), Get(rs, "matches", JNull)))
       case None => r.(flow := Raised)
       case Some(n) => Emit(e, secs, "  " + Cyan + "✓ Found " + IntToString(n) + " items" + Reset, r))
    case CommandRun => CommandResult(e, secs, Get(rs, "output", JStr("")), Get(rs, "exitCode", JInt(0)), r)
    case AgentDone => Emit(e, secs, "  " + Blue + "Agent done" + Reset, r)
    case Stdout =>
      var o := Get(rs, "stdout", JStr(""));
      if Truthy(o) then Emit(e, secs, "  " + Gray + Truncate(Show(o), 300) + Reset, r) else r
    case Generic =>
      var kv := KvText(AsWritten, JObj(rs), 2);
      if kv == "" then r else Emit(e, secs, kv, r)
  }

  /** A string `tool_use_result`: an error line, a dim line, or nothing when blank. */
  function TextResult(e: Env, secs: nat, s: string, r: Run): Run {
    if IsToolError(s) then Emit(e, secs, "  " + Red + "✗ " + Truncate(StripTags(s), 300) + Reset, r)
    else if !IsBlank(s) then Emit(e, secs, "  " + Gray + Truncate(s, 300) + Reset, r)
    else r
  }

  /** A `user` event: only its `tool_use_result` is shown. */
  function User(e: Env, secs: nat, es: seq<(string, Json)>, r: Run): Run {
    if !HasKey(es, "tool_use_result") then r
    else
      match Get(es, "tool_use_result", JNull)
      case JStr(s) => TextResult(e, secs, s, r)
      case JObj(rs) => ToolResult(e, secs, rs, r)
      case _ => r
  }

  // ---------------------------------------------------------------- the loop

  function SystemErrorLine(message: Json): string {
    "\n" + BoldRed + "✗ System Error:" + Reset + " " + Show(message)
  }

  /** A decoded line, by its `type`. */
  function Event(e: Env, secs: nat, data: Json, r: Run): Run {
    if !data.JObj? then r.(flow := Raised)
    else
      var t := Get(data.entries, "type", JNull);
      if t == JStr("assistant") then Assistant(e, secs, data.entries, r)
      else if t == JStr("user") then User(e, secs, data.entries, r)
      else if t == JStr("system") && Truthy(Get(data.entries, "is_error", JNull)) then
        Emit(e, secs, SystemErrorLine(Get(data.entries, "message", JNull)), r)
      else r
  }

  /** The echo of a line that is not JSON; an exception here ends the program. */
  function Echo(e: Env, secs: nat, raw: string, r: Run): Run {
    if StartsWith(raw, "{") then r
    else
      var r1 := Emit(e, secs, Gray + Strip(raw) + Reset, r);
      if r1.flow.Raised? then r1.(flow := Crashed) else r1
  }

  /** One pass of the loop: blank lines are skipped, each line starts afresh unless the program has ended. */
  function Step(e: Env, inp: Input, r: Run): Run {
    if r.flow.Crashed? then r
    else
      var r0 := r.(flow := Going);
      if IsBlank(inp.raw) then r0
      else
        match inp.parsed
        case None => Echo(e, inp.secs, inp.raw, r0)
        case Some(data) => Event(e, inp.secs, data, r0)
  }

  /** The loop over the lines of standard input. */
  function Steps(e: Env, inputs: seq<Input>, r: Run): Run
    decreases |inputs|
  {
    if inputs == [] then r else Step(e, inputs[|inputs| - 1], Steps(e, inputs[..|inputs| - 1], r))
  }
}
