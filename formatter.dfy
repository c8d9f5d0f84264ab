/**
 * The formatter as the script runs it: the globals `context_usage`,
 * `current_todos` and `total_cost` as fields of one object, updated in place
 * by the main loop of bin/ralph-format.py (lines 269-378), with everything
 * written to the terminal appended to `out`.
 *
 * Every method returns how the current event goes on (`Going`, `Raised` for
 * an exception the loop will swallow, `Crashed` for one that ends the
 * program) and is proved to leave the object in the state the matching
 * function of `Events` computes from the state it started in.
 */
module Formatter {
  import opened Text
  import opened JsonValue
  import opened Ansi
  import opened KeyValue
  import StatusBlock
  import opened Diff
  import opened Events

  class Formatter {
    var usage: int
    var todos: seq<Json>
    var cost: nat
    var out: seq<Effect>
    const env: Env

    /** The object seen as a value of the loop's model, with the given flow. */
    function State(f: Flow): Run
      reads this
    {
      Run(usage, todos, cost, out, f)
    }

    /** The module-level state before the first line. */
    constructor (e: Env)
      ensures env == e && State(Going) == Start
    {
      usage := 0;
      todos := [];
      cost := 0;
      out := [];
      env := e;
    }

    /** `draw_status_bar()` */
    method DrawStatusBar(secs: nat) returns (f: Flow)
      modifies this
      ensures State(f) == Redraw(env, secs, old(State(Going)))
    {
      var rows := StatusBlock.DrawStatusBar(env.height, env.width, usage, ContextLimit, todos, cost, secs);
      if rows.None? {
        return Raised;
      }
      out := out + [Draw(rows.value)];
      return Going;
    }

    /** `output(text)` */
    method Output(secs: nat, text: string) returns (f: Flow)
      modifies this
      ensures State(f) == Emit(env, secs, text, old(State(Going)))
    {
      out := out + [Print(text)];
      f := DrawStatusBar(secs);
    }

    /** `for ln in lines: output(ln)`, left by the first exception. */
    method OutputLines(secs: nat, texts: seq<string>) returns (f: Flow)
      modifies this
      ensures State(f) == EmitAll(env, secs, texts, old(State(Going)))
    {
      f := Going;
      var i := 0;
      while i < |texts| && f == Going
        invariant 0 <= i <= |texts|
        invariant State(f) == EmitAll(env, secs, texts[..i], old(State(Going)))
        decreases |texts| - i
      {
        assert texts[..i + 1][..i] == texts[..i];
        f := Output(secs, texts[i]);
        i := i + 1;
      }
      EmitAllHalted(env, secs, texts, i, old(State(Going)));
    }

    // ------------------------------------------------------------ assistant events

    /** A `text` part. */
    method TextPart(secs: nat, text: Json) returns (f: Flow)
      modifies this
      ensures State(f) == Events.TextPart(env, secs, text, old(State(Going)))
    {
      if !text.JStr? {
        return Raised;
      }
      if IsBlank(text.s) {
        return Going;
      }
      var rendered := Render(env.glow, text.s);
      f := OutputLines(secs, [ClaudeHeader] + Indented(SplitOn(rendered, '\n')));
    }

    /** A `tool_use` part. */
    method ToolUse(secs: nat, name: Json, inp: Json) returns (f: Flow)
      modifies this
      ensures State(f) == Events.ToolUse(env, secs, name, inp, old(State(Going)))
    {
      f := Output(secs, ToolHeader(name));
      if f != Going {
        return;
      }
      var k := ToolKindOf(name);
      if k == OtherTool {
        var kv := FormatKv(inp, 2);
        if kv != "" {
          f := Output(secs, kv);
        }
      } else if !inp.JObj? {
        f := Raised;
      } else if k == TodoTool {
        var ts := Iter(Get(inp.entries, "todos", JList([])));
        if ts.None? {
          f := Raised;
        } else {
          todos := ts.value;
          f := DrawStatusBar(secs);
        }
      } else {
        f := Output(secs, ToolLine(k, inp.entries));
      }
    }

    /** One part of the content, by its `type`. */
    method Part(secs: nat, part: Json) returns (f: Flow)
      modifies this
      ensures State(f) == Events.Part(env, secs, part, old(State(Going)))
    {
      if !part.JObj? {
        return Raised;
      }
      var ptype := Get(part.entries, "type", JNull);
      if ptype == JStr("text") {
        f := TextPart(secs, Get(part.entries, "text", JStr("")));
      } else if ptype == JStr("thinking") {
        var text := Get(part.entries, "thinking", JStr(""));
        if !text.JStr? {
          f := Raised;
        } else if IsBlank(text.s) {
          f := Going;
        } else {
          f := Output(secs, ThinkingHeader);
        }
      } else if ptype == JStr("tool_use") {
        f := ToolUse(secs, Get(part.entries, "name", JNull), Get(part.entries, "input", JObj([])));
      } else {
        f := Going;
      }
    }

    /** `for part in message.get("content", [])`, left by the first exception. */
    method Parts(secs: nat, parts: seq<Json>) returns (f: Flow)
      modifies this
      ensures State(f) == Events.Parts(env, secs, parts, old(State(Going)))
    {
      f := Going;
      var i := 0;
      while i < |parts| && f == Going
        invariant 0 <= i <= |parts|
        invariant State(f) == Events.Parts(env, secs, parts[..i], old(State(Going)))
        decreases |parts| - i
      {
        assert parts[..i + 1][..i] == parts[..i];
        f := Part(secs, parts[i]);
        i := i + 1;
      }
      PartsHalted(env, secs, parts, i, old(State(Going)));
    }

    /** An `assistant` event: the usage update, then the parts. */
    method Assistant(secs: nat, es: seq<(string, Json)>) returns (f: Flow)
      modifies this
      ensures State(f) == Events.Assistant(env, secs, es, old(State(Going)))
    {
      var message := Get(es, "message", JObj([]));
      if !message.JObj? {
        return Raised;
      }
      var u := Get(message.entries, "usage", JObj([]));
      if Truthy(u) {
        if !u.JObj? {
          return Raised;
        }
        var sum := UsageSum(u.entries);
        if sum.None? {
          return Raised;
        }
        usage := sum.value;
        f := DrawStatusBar(secs);
        if f != Going {
          return;
        }
      }
      var parts := Iter(Get(message.entries, "content", JList([])));
      if parts.None? {
        return Raised;
      }
      f := Parts(secs, parts.value);
    }

    // ------------------------------------------------------------ user events

    /** `show_diff(file_path, patches)` */
    method ShowDiff(secs: nat, filePath: Json, patches: Json) returns (f: Flow)
      modifies this
      ensures State(f) == Events.ShowDiff(env, secs, filePath, patches, old(State(Going)))
    {
      if env.delta.None? {
        f := Output(secs, "  " + BoldMagenta + "DIFF: " + Show(filePath) + Reset);
        return;
      }
      var lines := BuildDiffLines(filePath, patches);
      if lines.None? {
        return Raised;
      }
      var input := DiffInput(lines.value);
      if input.None? {
        return Going;
      }
      var shown := env.delta.value(input.value);
      if shown.None? || shown.value == "" {
        return Going;
      }
      f := OutputLines(secs, Indented(SplitOn(Strip(shown.value), '\n')));
      if f == Raised {
        f := Going;
      }
    }

    /** A command's output, then its exit code. */
    method CommandResult(secs: nat, output: Json, code: Json) returns (f: Flow)
      modifies this
      ensures State(f) == Events.CommandResult(env, secs, output, code, old(State(Going)))
    {
      if !output.JStr? {
        return Raised;
      }
      var o := Strip(output.s);
      if o != "" {
        f := Output(secs, "  " + Gray + Truncate(o, 300) + Reset);
        if f != Going {
          return;
        }
      }
      var color := if EqualsZero(code) then Green else Red;
      f := Output(secs, "  " + color + "Exit: " + Show(code) + Reset);
    }

    /** A dict `tool_use_result`, by the first rule it fits. */
    method ToolResult(secs: nat, rs: seq<(string, Json)>) returns (f: Flow)
      modifies this
      ensures State(f) == Events.ToolResult(env, secs, rs, old(State(Going)))
    {
      match Classify(rs) {
        case TodoUpdate =>
          var ts := Iter(Get(rs, "newTodos", JList([])));
          if ts.None? {
            f := Raised;
          } else {
            todos := ts.value;
            f := DrawStatusBar(secs);
          }
        case FileView =>
          var info := Get(rs, "file", JNull);
          if !info.JObj? || !Get(info.entries, "content", JStr("")).JStr? {
            f := Raised;
          } else {
            var n := |SplitOn(Get(info.entries, "content", JStr("")).s, '\n')|;
            f := Output(secs, "  " + Cyan + "📄" + Reset + " " + Show(Get(info.entries, "filePath", JNull))
                              + " (" + IntToString(n) + " lines)");
          }
        case Patch =>
          f := ShowDiff(secs, Get(rs, "filePath", JNull), Get(rs, "structuredPatch", JNull));
        case Created =>
          f := Output(secs, "  " + Green + "✨ Created:" + Reset + " " + Show(Get(rs, "filePath", JNull)));
        case Found =>
          var n := Len(FirstTruthy(Get(rs, "filenames", JNull), Get(rs, "matches", JNull)));
          if n.None? {
            f := Raised;
          } else {
            f := Output(secs, "  " + Cyan + "✓ Found " + IntToString(n.value) + " items" + Reset);
          }
        case CommandRun =>
          f := CommandResult(secs, Get(rs, "output", JStr("")), Get(rs, "exitCode", JInt(0)));
        case AgentDone =>
          f := Output(secs, "  " + Blue + "Agent done" + Reset);
        case Stdout =>
          var o := Get(rs, "stdout", JStr(""));
          f := Going;
          if Truthy(o) {
            f := Output(secs, "  " + Gray + Truncate(Show(o), 300) + Reset);
          }
        case Generic =>
          var kv := FormatKv(JObj(rs), 2);
          f := Going;
          if kv != "" {
            f := Output(secs, kv);
          }
      }
    }

    /** A `user` event: its `tool_use_result`, when it is a string or a dict. */
    method User(secs: nat, es: seq<(string, Json)>) returns (f: Flow)
      modifies this
      ensures State(f) == Events.User(env, secs, es, old(State(Going)))
    {
      f := Going;
      if HasKey(es, "tool_use_result") {
        var res := Get(es, "tool_use_result", JNull);
        if res.JStr? {
          var s := res.s;
          if IsToolError(s) {
            f := Output(secs, "  " + Red + "✗ " + Truncate(StripTags(s), 300) + Reset);
          } else if !IsBlank(s) {
            f := Output(secs, "  " + Gray + Truncate(s, 300) + Reset);
          }
        } else if res.JObj? {
          f := ToolResult(secs, res.entries);
        }
      }
    }

    // ------------------------------------------------------------ the loop

    /** The body of the `try`: one decoded line, by its `type`. */
    method Event(secs: nat, data: Json) returns (f: Flow)
      modifies this
      ensures State(f) == Events.Event(env, secs, data, old(State(Going)))
    {
      if !data.JObj? {
        return Raised;
      }
      var t := Get(data.entries, "type", JNull);
      if t == JStr("assistant") {
        f := Assistant(secs, data.entries);
      } else if t == JStr("user") {
        f := User(secs, data.entries);
      } else if t == JStr("system") && Truthy(Get(data.entries, "is_error", JNull)) {
        f := Output(secs, SystemErrorLine(Get(data.entries, "message", JNull)));
      } else {
        f := Going;
      }
    }

    /** One line of standard input. */
    method Line(inp: Input) returns (f: Flow)
      modifies this
      ensures State(f) == Step(env, inp, old(State(Going)))
    {
      if IsBlank(inp.raw) {
        return Going;
      }
      if inp.parsed.Some? {
        f := Event(inp.secs, inp.parsed.value);
      } else if StartsWith(inp.raw, "{") {
        f := Going;
      } else {
        f := Output(inp.secs, Gray + Strip(inp.raw) + Reset);
        if f == Raised {
          f := Crashed;
        }
      }
    }

    /** `for line in sys.stdin`, until an exception escapes the loop. */
    method Lines(inputs: seq<Input>) returns (f: Flow)
      modifies this
      ensures State(f) == Steps(env, inputs, old(State(Going)))
    {
      f := Going;
      var i := 0;
      while i < |inputs| && f != Crashed
        invariant 0 <= i <= |inputs|
        invariant State(f) == Steps(env, inputs[..i], old(State(Going)))
        decreases |inputs| - i
      {
        assert inputs[..i + 1][..i] == inputs[..i];
        assert Step(env, inputs[i], State(f)) == Step(env, inputs[i], State(Going));
        f := Line(inputs[i]);
        i := i + 1;
      }
      StepsHalted(env, inputs, i, old(State(Going)));
    }
  }

  /** What the formatter writes for a whole input, starting from the initial state. */
  method FormatStream(e: Env, inputs: seq<Input>) returns (out: seq<Effect>)
    ensures out == Steps(e, inputs, Start).out
  {
    var fmt := new Formatter(e);
    var _ := fmt.Lines(inputs);
    out := fmt.out;
  }

  // ---------------------------------------------------------------- stopping early

  /** A loop left at `i` by an exception computes what the whole loop specifies. */
  lemma {:induction false} EmitAllHalted(e: Env, secs: nat, texts: seq<string>, i: nat, r: Run)
    requires i <= |texts|
    requires i == |texts| || !EmitAll(e, secs, texts[..i], r).flow.Going?
    ensures EmitAll(e, secs, texts, r) == EmitAll(e, secs, texts[..i], r)
    decreases |texts|
  {
    if i < |texts| {
      var init := texts[..|texts| - 1];
      assert init[..i] == texts[..i];
      EmitAllHalted(e, secs, init, i, r);
    } else {
      assert texts[..i] == texts;
    }
  }

  lemma {:induction false} PartsHalted(e: Env, secs: nat, parts: seq<Json>, i: nat, r: Run)
    requires i <= |parts|
    requires i == |parts| || !Events.Parts(e, secs, parts[..i], r).flow.Going?
    ensures Events.Parts(e, secs, parts, r) == Events.Parts(e, secs, parts[..i], r)
    decreases |parts|
  {
    if i < |parts| {
      var init := parts[..|parts| - 1];
      assert init[..i] == parts[..i];
      PartsHalted(e, secs, init, i, r);
    } else {
      assert parts[..i] == parts;
    }
  }

  lemma {:induction false} StepsHalted(e: Env, inputs: seq<Input>, i: nat, r: Run)
    requires i <= |inputs|
    requires i == |inputs| || Steps(e, inputs[..i], r).flow.Crashed?
    ensures Steps(e, inputs, r) == Steps(e, inputs[..i], r)
    decreases |inputs|
  {
    if i < |inputs| {
      var init := inputs[..|inputs| - 1];
      assert init[..i] == inputs[..i];
      StepsHalted(e, init, i, r);
    } else {
      assert inputs[..i] == inputs;
    }
  }
}
