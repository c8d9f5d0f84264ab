/**
 * What the main loop of bin/ralph-format.py guarantees across events: output
 * is only ever appended, the cost never changes, the context usage is set
 * only by an assistant event's usage, the todo list only by a TodoWrite call
 * or a `newTodos` result, and the program ends only when echoing a non-JSON
 * line fails.
 */
module LoopLaws {
  import opened Text
  import opened JsonValue
  import opened Ansi
  import opened KeyValue
  import opened StatusBlock
  import opened Diff
  import opened Events

  // ---------------------------------------------------------------- output only grows

  /**
   * `b` continues `a`: same cost, `a`'s output is a prefix of `b`'s, and the
   * program has not ended in `b` unless it had in `a`.
   */
  predicate Within(a: Run, b: Run) {
    && b.cost == a.cost
    && |a.out| <= |b.out| && b.out[..|a.out|] == a.out
    && (b.flow.Crashed? ==> a.flow.Crashed?)
  }

  lemma WithinTrans(a: Run, b: Run, c: Run)
    requires Within(a, b) && Within(b, c)
    ensures Within(a, c)
  {
    assert c.out[..|a.out|] == c.out[..|b.out|][..|a.out|];
  }

  lemma EmitWithin(e: Env, secs: nat, text: string, r: Run)
    ensures Within(r, Emit(e, secs, text, r))
    ensures Emit(e, secs, text, r).usage == r.usage && Emit(e, secs, text, r).todos == r.todos
  {
    var r1 := r.(out := r.out + [Print(text)]);
    assert r1.out[..|r.out|] == r.out;
    var r2 := Redraw(e, secs, r1);
    assert r2.out[..|r1.out|] == r1.out;
    if r.flow.Going? {
      WithinTrans(r, r1, r2);
    }
  }

  lemma {:induction false} EmitAllWithin(e: Env, secs: nat, texts: seq<string>, r: Run)
    ensures Within(r, EmitAll(e, secs, texts, r))
    ensures EmitAll(e, secs, texts, r).usage == r.usage && EmitAll(e, secs, texts, r).todos == r.todos
    decreases |texts|
  {
    if texts != [] {
      var mid := EmitAll(e, secs, texts[..|texts| - 1], r);
      EmitAllWithin(e, secs, texts[..|texts| - 1], r);
      EmitWithin(e, secs, texts[|texts| - 1], mid);
      WithinTrans(r, mid, EmitAll(e, secs, texts, r));
    }
  }

  lemma RedrawWithin(e: Env, secs: nat, r: Run)
    ensures Within(r, Redraw(e, secs, r))
    ensures Redraw(e, secs, r).usage == r.usage && Redraw(e, secs, r).todos == r.todos
  {
  }

  /** A redraw after a change of usage or todos keeps the rest. */
  lemma SetThenRedrawWithin(e: Env, secs: nat, r: Run, r1: Run)
    requires r1.cost == r.cost && r1.out == r.out && r1.flow == r.flow
    ensures Within(r, Redraw(e, secs, r1))
  {
    RedrawWithin(e, secs, r1);
  }

  lemma ToolUseWithin(e: Env, secs: nat, name: Json, inp: Json, r: Run)
    ensures Within(r, ToolUse(e, secs, name, inp, r))
    ensures ToolUse(e, secs, name, inp, r).usage == r.usage
  {
    var r1 := Emit(e, secs, ToolHeader(name), r);
    EmitWithin(e, secs, ToolHeader(name), r);
    var k := ToolKindOf(name);
    if r1.flow.Going? {
      if k == OtherTool {
        EmitWithin(e, secs, KvText(AsWritten, inp, 2), r1);
        WithinTrans(r, r1, Emit(e, secs, KvText(AsWritten, inp, 2), r1));
      } else if inp.JObj? && k == TodoTool {
        match Iter(Get(inp.entries, "todos", JList([])))
        case None =>
        case Some(ts) =>
          SetThenRedrawWithin(e, secs, r1, r1.(todos := ts));
          WithinTrans(r, r1, Redraw(e, secs, r1.(todos := ts)));
      } else if inp.JObj? {
        EmitWithin(e, secs, ToolLine(k, inp.entries), r1);
        WithinTrans(r, r1, Emit(e, secs, ToolLine(k, inp.entries), r1));
      }
    }
  }

  lemma PartWithin(e: Env, secs: nat, part: Json, r: Run)
    ensures Within(r, Part(e, secs, part, r))
    ensures Part(e, secs, part, r).usage == r.usage
  {
    if r.flow.Going? && part.JObj? {
      var ptype := Get(part.entries, "type", JNull);
      if ptype == JStr("text") {
        var text := Get(part.entries, "text", JStr(""));
        if text.JStr? && !IsBlank(text.s) {
          EmitAllWithin(e, secs, [ClaudeHeader] + Indented(SplitOn(Render(e.glow, text.s), '\n')), r);
        }
      } else if ptype == JStr("thinking") {
        EmitWithin(e, secs, ThinkingHeader, r);
      } else if ptype == JStr("tool_use") {
        ToolUseWithin(e, secs, Get(part.entries, "name", JNull), Get(part.entries, "input", JObj([])), r);
      }
    }
  }

  lemma {:induction false} PartsWithin(e: Env, secs: nat, parts: seq<Json>, r: Run)
    ensures Within(r, Parts(e, secs, parts, r))
    ensures Parts(e, secs, parts, r).usage == r.usage
    decreases |parts|
  {
    if parts != [] {
      var mid := Parts(e, secs, parts[..|parts| - 1], r);
      PartsWithin(e, secs, parts[..|parts| - 1], r);
      PartWithin(e, secs, parts[|parts| - 1], mid);
      WithinTrans(r, mid, Parts(e, secs, parts, r));
    }
  }

  lemma AssistantWithin(e: Env, secs: nat, es: seq<(string, Json)>, r: Run)
    ensures Within(r, Assistant(e, secs, es, r))
  {
    var message := Get(es, "message", JObj([]));
    if message.JObj? {
      var usage := Get(message.entries, "usage", JObj([]));
      var r1 := UsageUpdate(e, secs, usage, r);
      if Truthy(usage) && usage.JObj? && UsageSum(usage.entries).Some? {
        SetThenRedrawWithin(e, secs, r, r.(usage := UsageSum(usage.entries).value));
      }
      assert Within(r, r1);
      if r1.flow.Going? {
        match Iter(Get(message.entries, "content", JList([])))
        case None =>
        case Some(parts) =>
          PartsWithin(e, secs, parts, r1);
          WithinTrans(r, r1, Parts(e, secs, parts, r1));
      }
    }
  }

  lemma ShowDiffWithin(e: Env, secs: nat, filePath: Json, patches: Json, r: Run)
    ensures Within(r, ShowDiff(e, secs, filePath, patches, r))
    ensures ShowDiff(e, secs, filePath, patches, r).usage == r.usage
    ensures ShowDiff(e, secs, filePath, patches, r).todos == r.todos
  {
    var b := ShowDiff(e, secs, filePath, patches, r);
    if e.delta.None? {
      var text := "  " + BoldMagenta + "DIFF: " + Show(filePath) + Reset;
      assert b == Emit(e, secs, text, r);
      EmitWithin(e, secs, text, r);
    } else {
      DeltaWithin(e, secs, e.delta.value, filePath, patches, r);
    }
  }

  /** With delta installed, `show_diff` only appends. */
  lemma DeltaWithin(e: Env, secs: nat, run: Tool, filePath: Json, patches: Json, r: Run)
    requires e.delta == Some(run)
    ensures var b := ShowDiff(e, secs, filePath, patches, r);
      Within(r, b) && b.usage == r.usage && b.todos == r.todos
  {
    var lines := DiffLines(filePath, patches);
    if lines.Some? {
      var input := DiffInput(lines.value);
      if input.Some? {
        var out := run(input.value);
        if out.Some? && out.value != "" {
          DeltaOutputWithin(e, secs, out.value, r);
        }
      }
    }
  }

  /** Printing delta's output inside the `try` only appends. */
  lemma DeltaOutputWithin(e: Env, secs: nat, out: string, r: Run)
    ensures var b := Swallow(EmitAll(e, secs, Indented(SplitOn(Strip(out), '\n')), r));
      Within(r, b) && b.usage == r.usage && b.todos == r.todos
  {
    var a := EmitAll(e, secs, Indented(SplitOn(Strip(out), '\n')), r);
    EmitAllWithin(e, secs, Indented(SplitOn(Strip(out), '\n')), r);
    assert Within(r, Swallow(a));
  }

  lemma CommandResultWithin(e: Env, secs: nat, output: Json, code: Json, r: Run)
    ensures Within(r, CommandResult(e, secs, output, code, r))
    ensures CommandResult(e, secs, output, code, r).usage == r.usage
    ensures CommandResult(e, secs, output, code, r).todos == r.todos
  {
    if output.JStr? {
      var out := Strip(output.s);
      var first := "  " + Gray + Truncate(out, 300) + Reset;
      var r1 := if out != "" then Emit(e, secs, first, r) else r;
      if out != "" {
        EmitWithin(e, secs, first, r);
      }
      var last := "  " + (if EqualsZero(code) then Green else Red) + "Exit: " + Show(code) + Reset;
      EmitWithin(e, secs, last, r1);
      WithinTrans(r, r1, Emit(e, secs, last, r1));
    }
  }

  lemma ToolResultWithin(e: Env, secs: nat, rs: seq<(string, Json)>, r: Run)
    ensures Within(r, ToolResult(e, secs, rs, r))
    ensures ToolResult(e, secs, rs, r).usage == r.usage
  {
    match Classify(rs)
    case TodoUpdate =>
      match Iter(Get(rs, "newTodos", JList([]))) {
        case None =>
        case Some(ts) => SetThenRedrawWithin(e, secs, r, r.(todos := ts));
      }
    case FileView =>
      var f := Get(rs, "file", JNull);
      if f.JObj? && Get(f.entries, "content", JStr("")).JStr? {
        var c := Get(f.entries, "content", JStr("")).s;
        EmitWithin(e, secs, "  " + Cyan + "📄" + Reset + " " + Show(Get(f.entries, "filePath", JNull))
                            + " (" + IntToString(|SplitOn(c, '\n')|) + " lines)", r);
      }
    case Patch => ShowDiffWithin(e, secs, Get(rs, "filePath", JNull), Get(rs, "structuredPatch", JNull), r);
    case Created => EmitWithin(e, secs, "  " + Green + "✨ Created:" + Reset + " " + Show(Get(rs, "filePath", JNull)), r);
    case Found =>
      match Len(FirstTruthy(Get(rs, "filenames", JNull), Get(rs, "matches", JNull))) {
        case None =>
        case Some(n) => EmitWithin(e, secs, "  " + Cyan + "✓ Found " + IntToString(n) + " items" + Reset, r);
      }
    case CommandRun => CommandResultWithin(e, secs, Get(rs, "output", JStr("")), Get(rs, "exitCode", JInt(0)), r);
    case AgentDone => EmitWithin(e, secs, "  " + Blue + "Agent done" + Reset, r);
    case Stdout =>
      var o := Get(rs, "stdout", JStr(""));
      EmitWithin(e, secs, "  " + Gray + Truncate(Show(o), 300) + Reset, r);
    case Generic => EmitWithin(e, secs, KvText(AsWritten, JObj(rs), 2), r);
  }

  lemma UserWithin(e: Env, secs: nat, es: seq<(string, Json)>, r: Run)
    ensures Within(r, User(e, secs, es, r))
    ensures User(e, secs, es, r).usage == r.usage
  {
    if HasKey(es, "tool_use_result") {
      match Get(es, "tool_use_result", JNull)
      case JStr(s) =>
        EmitWithin(e, secs, "  " + Red + "✗ " + Truncate(StripTags(s), 300) + Reset, r);
        EmitWithin(e, secs, "  " + Gray + Truncate(s, 300) + Reset, r);
      case JObj(rs) => ToolResultWithin(e, secs, rs, r);
      case _ =>
    }
  }

  lemma EventWithin(e: Env, secs: nat, data: Json, r: Run)
    ensures Within(r, Event(e, secs, data, r))
  {
    if data.JObj? {
      var t := Get(data.entries, "type", JNull);
      if t == JStr("assistant") {
        AssistantWithin(e, secs, data.entries, r);
      } else if t == JStr("user") {
        UserWithin(e, secs, data.entries, r);
      } else {
        EmitWithin(e, secs, SystemErrorLine(Get(data.entries, "message", JNull)), r);
      }
    }
  }

  /**
   * A line never takes back output and never touches the cost; once the
   * program has ended it stays ended.
   */
  lemma StepGrows(e: Env, inp: Input, r: Run)
    ensures var r2 := Step(e, inp, r);
      && r2.cost == r.cost
      && |r.out| <= |r2.out| && r2.out[..|r.out|] == r.out
      && (r.flow.Crashed? ==> r2 == r)
  {
    if !r.flow.Crashed? && !IsBlank(inp.raw) {
      var r0 := r.(flow := Going);
      match inp.parsed
      case None =>
        EmitWithin(e, inp.secs, Gray + Strip(inp.raw) + Reset, r0);
      case Some(data) =>
        EventWithin(e, inp.secs, data, r0);
    }
  }

  /** Over a whole input: the output of a prefix of the input is a prefix of the output, and the cost stays 0. */
  lemma {:induction false} StepsGrow(e: Env, inputs: seq<Input>, r: Run)
    ensures var r2 := Steps(e, inputs, r);
      r2.cost == r.cost && |r.out| <= |r2.out| && r2.out[..|r.out|] == r.out
    decreases |inputs|
  {
    if inputs != [] {
      var mid := Steps(e, inputs[..|inputs| - 1], r);
      StepsGrow(e, inputs[..|inputs| - 1], r);
      StepGrows(e, inputs[|inputs| - 1], mid);
      var r2 := Steps(e, inputs, r);
      assert r2.out[..|r.out|] == r2.out[..|mid.out|][..|r.out|];
    }
  }

  lemma StepsFromStart(e: Env, inputs: seq<Input>)
    ensures Steps(e, inputs, Start).cost == 0
  {
    StepsGrow(e, inputs, Start);
  }

  // ---------------------------------------------------------------- the end of the program

  /** Once ended, the loop reads no further line. */
  lemma {:induction false} CrashIsFinal(e: Env, inputs: seq<Input>, r: Run)
    requires r.flow.Crashed?
    ensures Steps(e, inputs, r) == r
    decreases |inputs|
  {
    if inputs != [] {
      CrashIsFinal(e, inputs[..|inputs| - 1], r);
    }
  }

  /**
   * The program ends only on a non-blank line that is not JSON and does not
   * start with `{`, when redrawing the status after echoing it raises.
   */
  lemma CrashOnlyFromEcho(e: Env, inp: Input, r: Run)
    requires !r.flow.Crashed? && Step(e, inp, r).flow.Crashed?
    ensures inp.parsed.None? && !IsBlank(inp.raw) && !StartsWith(inp.raw, "{")
    ensures StatusRows(e.height, e.width, r.usage, ContextLimit, r.todos, r.cost, inp.secs).None?
  {
    if inp.parsed.Some? && !IsBlank(inp.raw) {
      EventWithin(e, inp.secs, inp.parsed.value, r.(flow := Going));
    }
  }

  /**
   * A non-JSON line is echoed dimmed and stripped, then the status is
   * redrawn; if that raises, the program ends. A line that starts with `{`
   * but does not decode is dropped silently.
   */
  lemma EchoEffect(e: Env, secs: nat, raw: string, r: Run)
    requires r.flow.Going?
    ensures StartsWith(raw, "{") ==> Echo(e, secs, raw, r) == r
    ensures !StartsWith(raw, "{") ==>
      match StatusRows(e.height, e.width, r.usage, ContextLimit, r.todos, r.cost, secs)
      case None => Echo(e, secs, raw, r) == r.(out := r.out + [Print(Gray + Strip(raw) + Reset)], flow := Crashed)
      case Some(rows) => Echo(e, secs, raw, r) == r.(out := r.out + [Print(Gray + Strip(raw) + Reset), Draw(rows)])
  {
  }

  /** A blank line changes nothing. */
  lemma BlankLineSkipped(e: Env, inp: Input, r: Run)
    requires !r.flow.Crashed? && IsBlank(inp.raw)
    ensures Step(e, inp, r) == r.(flow := Going)
  {
  }

  // ---------------------------------------------------------------- printing

  /** Each text printed, followed by the status block. */
  function Interleave(texts: seq<string>, rows: seq<Row>): (r: seq<Effect>)
  {
    if texts == [] then []
    else Interleave(texts[..|texts| - 1], rows) + [Print(texts[|texts| - 1]), Draw(rows)]
  }

  /** Every text is printed in order, and each is followed by the block. */
  lemma {:induction false} InterleaveShape(texts: seq<string>, rows: seq<Row>)
    ensures |Interleave(texts, rows)| == 2 * |texts|
    ensures forall i | 0 <= i < |texts| ::
      Interleave(texts, rows)[2 * i] == Print(texts[i]) && Interleave(texts, rows)[2 * i + 1] == Draw(rows)
    decreases |texts|
  {
    if texts != [] {
      InterleaveShape(texts[..|texts| - 1], rows);
    }
  }

  /**
   * Printing several lines: while the status can be drawn, every line is
   * printed and followed by a redraw; when it cannot, the first line is
   * printed and the exception stops the rest (`EmitAllFails`).
   */
  lemma {:induction false} EmitAllShown(e: Env, secs: nat, texts: seq<string>, r: Run, rows: seq<Row>)
    requires r.flow.Going?
    requires StatusRows(e.height, e.width, r.usage, ContextLimit, r.todos, r.cost, secs) == Some(rows)
    ensures EmitAll(e, secs, texts, r) == r.(out := r.out + Interleave(texts, rows))
    decreases |texts|
  {
    if texts != [] {
      var init := texts[..|texts| - 1];
      EmitAllShown(e, secs, init, r, rows);
      EmitShown(e, secs, texts[|texts| - 1], r.(out := r.out + Interleave(init, rows)), rows);
      AppendAssoc(r.out, Interleave(init, rows), [Print(texts[|texts| - 1]), Draw(rows)]);
    }
  }

  lemma EmitShown(e: Env, secs: nat, text: string, r: Run, rows: seq<Row>)
    requires r.flow.Going?
    requires StatusRows(e.height, e.width, r.usage, ContextLimit, r.todos, r.cost, secs) == Some(rows)
    ensures Emit(e, secs, text, r) == r.(out := r.out + [Print(text), Draw(rows)])
  {
    assert r.out + [Print(text)] + [Draw(rows)] == r.out + [Print(text), Draw(rows)];
  }

  /** Appending effects does not depend on grouping. */
  lemma AppendAssoc(a: seq<Effect>, b: seq<Effect>, c: seq<Effect>)
    ensures a + b + c == a + (b + c)
  {
  }

  /** When the status cannot be drawn, only the first line gets out. */
  lemma {:induction false} EmitAllFails(e: Env, secs: nat, texts: seq<string>, r: Run)
    requires r.flow.Going? && texts != []
    requires StatusRows(e.height, e.width, r.usage, ContextLimit, r.todos, r.cost, secs).None?
    ensures EmitAll(e, secs, texts, r) == r.(out := r.out + [Print(texts[0])], flow := Raised)
    decreases |texts|
  {
    var init := texts[..|texts| - 1];
    if init == [] {
      assert EmitAll(e, secs, init, r) == r;
    } else {
      EmitAllFails(e, secs, init, r);
      assert init[0] == texts[0];
    }
  }

  // ---------------------------------------------------------------- context usage

  /** The usage dict of an assistant event, when it has a truthy one that is a dict. */
  function AssistantUsage(es: seq<(string, Json)>): Option<seq<(string, Json)>> {
    var message := Get(es, "message", JObj([]));
    if !message.JObj? then None
    else
      var usage := Get(message.entries, "usage", JObj([]));
      if Truthy(usage) && usage.JObj? then Some(usage.entries) else None
  }

  /**
   * Only an assistant event changes `context_usage`: it becomes the sum of the
   * three token counts whenever the usage dict holds only whole numbers.
   */
  lemma UsageOnlyFromAssistant(e: Env, inp: Input, r: Run)
    requires !r.flow.Crashed?
    ensures var r2 := Step(e, inp, r);
      r2.usage != r.usage ==>
        && inp.parsed.Some? && inp.parsed.value.JObj?
        && Get(inp.parsed.value.entries, "type", JNull) == JStr("assistant")
        && AssistantUsage(inp.parsed.value.entries).Some?
        && UsageSum(AssistantUsage(inp.parsed.value.entries).value) == Some(r2.usage)
  {
    if !IsBlank(inp.raw) {
      var r0 := r.(flow := Going);
      match inp.parsed
      case None =>
        EmitWithin(e, inp.secs, Gray + Strip(inp.raw) + Reset, r0);
      case Some(data) =>
        if data.JObj? {
          var t := Get(data.entries, "type", JNull);
          if t == JStr("assistant") {
            AssistantUsageSet(e, inp.secs, data.entries, r0);
          } else if t == JStr("user") {
            UserWithin(e, inp.secs, data.entries, r0);
          } else {
            EmitWithin(e, inp.secs, SystemErrorLine(Get(data.entries, "message", JNull)), r0);
          }
        }
    }
  }

  /** The usage an assistant event leaves: the new sum, or the old count. */
  lemma AssistantUsageSet(e: Env, secs: nat, es: seq<(string, Json)>, r: Run)
    ensures var r2 := Assistant(e, secs, es, r);
      r2.usage != r.usage ==>
        AssistantUsage(es).Some? && UsageSum(AssistantUsage(es).value) == Some(r2.usage)
    ensures r.flow.Going? && AssistantUsage(es).Some? && UsageSum(AssistantUsage(es).value).Some? ==>
      Assistant(e, secs, es, r).usage == UsageSum(AssistantUsage(es).value).value
  {
    var message := Get(es, "message", JObj([]));
    if message.JObj? {
      var r1 := UsageUpdate(e, secs, Get(message.entries, "usage", JObj([])), r);
      if r1.flow.Going? {
        match Iter(Get(message.entries, "content", JList([])))
        case None =>
        case Some(parts) => PartsWithin(e, secs, parts, r1);
      }
    }
  }

  /** A missing count is 0, and a count that is not a number makes the sum raise. */
  lemma UsageSumOf(a: int, b: int, c: int)
    ensures UsageSum([]) == Some(0)
    ensures UsageSum([("input_tokens", JInt(a)), ("cache_read_input_tokens", JInt(b)),
                      ("cache_creation_input_tokens", JInt(c))]) == Some(a + b + c)
    ensures UsageSum([("input_tokens", JStr("1"))]) == None
  {
    var u := [("input_tokens", JInt(a)), ("cache_read_input_tokens", JInt(b)), ("cache_creation_input_tokens", JInt(c))];
    assert u[1..] == [("cache_read_input_tokens", JInt(b)), ("cache_creation_input_tokens", JInt(c))];
    assert u[1..][1..] == [("cache_creation_input_tokens", JInt(c))];
    assert u[1..][1..][1..] == [];
    assert Lookup(u[1..][1..], "cache_creation_input_tokens") == Some(JInt(c));
    assert Lookup(u[1..], "cache_creation_input_tokens") == Some(JInt(c));
    assert Lookup(u, "cache_creation_input_tokens") == Some(JInt(c));
    assert Lookup(u[1..], "cache_read_input_tokens") == Some(JInt(b));
    assert Lookup(u, "cache_read_input_tokens") == Some(JInt(b));
    var w := [("input_tokens", JStr("1"))];
    assert Lookup(w, "input_tokens") == Some(JStr("1"));
    assert UsageField(w, "input_tokens") == None;
  }

  // ---------------------------------------------------------------- the todo list

  /** A `tool_use` part calling TodoWrite. */
  predicate IsTodoWrite(part: Json) {
    && part.JObj?
    && Get(part.entries, "type", JNull) == JStr("tool_use")
    && Get(part.entries, "name", JNull) == JStr("TodoWrite")
  }

  /**
   * The list a part hands to TodoWrite: the `todos` of its input, when the
   * part is a TodoWrite call whose input is a dict and `todos` can be iterated.
   */
  function TodoWriteList(part: Json): Option<seq<Json>> {
    if !IsTodoWrite(part) then None
    else
      var inp := Get(part.entries, "input", JObj([]));
      if !inp.JObj? then None else Iter(Get(inp.entries, "todos", JList([])))
  }

  /**
   * A tool call changes the todo list only when it is TodoWrite with a dict
   * input, and then the new list is exactly the iterated `todos`; conversely,
   * once the header is out, a TodoWrite with iterable `todos` always installs it.
   */
  lemma ToolUseTodos(e: Env, secs: nat, name: Json, inp: Json, r: Run)
    ensures var b := ToolUse(e, secs, name, inp, r);
      b.todos != r.todos ==>
        && name == JStr("TodoWrite") && inp.JObj?
        && Iter(Get(inp.entries, "todos", JList([]))) == Some(b.todos)
    ensures var b := ToolUse(e, secs, name, inp, r);
      && name == JStr("TodoWrite") && Emit(e, secs, ToolHeader(name), r).flow.Going? && inp.JObj?
      && Iter(Get(inp.entries, "todos", JList([]))).Some?
      ==> b.todos == Iter(Get(inp.entries, "todos", JList([]))).value
  {
    var b := ToolUse(e, secs, name, inp, r);
    var r1 := Emit(e, secs, ToolHeader(name), r);
    EmitWithin(e, secs, ToolHeader(name), r);
    var k := ToolKindOf(name);
    TodoToolIsTodoWrite(name);
    if !r1.flow.Going? {
      assert b == r1;
    } else if k == OtherTool {
      var kv := KvText(AsWritten, inp, 2);
      if kv != "" {
        assert b == Emit(e, secs, kv, r1);
        EmitWithin(e, secs, kv, r1);
      }
    } else if !inp.JObj? {
      assert b == r1.(flow := Raised);
    } else if k == TodoTool {
      match Iter(Get(inp.entries, "todos", JList([])))
      case None =>
      case Some(ts) => RedrawWithin(e, secs, r1.(todos := ts));
    } else {
      assert b == Emit(e, secs, ToolLine(k, inp.entries), r1);
      EmitWithin(e, secs, ToolLine(k, inp.entries), r1);
    }
  }

  lemma TodoToolIsTodoWrite(name: Json)
    ensures ToolKindOf(name) == TodoTool <==> name == JStr("TodoWrite")
  {
  }

  /**
   * A part changes the todo list only as a TodoWrite call, to the list it
   * hands over; and a TodoWrite part with a list always installs it once its
   * header is out.
   */
  lemma PartTodos(e: Env, secs: nat, part: Json, r: Run)
    ensures Part(e, secs, part, r).todos != r.todos ==> TodoWriteList(part) == Some(Part(e, secs, part, r).todos)
    ensures r.flow.Going? && TodoWriteList(part).Some?
            && Emit(e, secs, ToolHeader(JStr("TodoWrite")), r).flow.Going?
            ==> Part(e, secs, part, r).todos == TodoWriteList(part).value
  {
    if r.flow.Going? && part.JObj? {
      var ptype := Get(part.entries, "type", JNull);
      if ptype == JStr("text") {
        var text := Get(part.entries, "text", JStr(""));
        if text.JStr? && !IsBlank(text.s) {
          EmitAllWithin(e, secs, [ClaudeHeader] + Indented(SplitOn(Render(e.glow, text.s), '\n')), r);
        }
      } else if ptype == JStr("thinking") {
        EmitWithin(e, secs, ThinkingHeader, r);
      } else if ptype == JStr("tool_use") {
        ToolUseTodos(e, secs, Get(part.entries, "name", JNull), Get(part.entries, "input", JObj([])), r);
      }
    }
  }

  /** Over the parts loop: a changed todo list is the list some TodoWrite part handed over. */
  lemma {:induction false} PartsTodos(e: Env, secs: nat, parts: seq<Json>, r: Run)
    ensures var r2 := Parts(e, secs, parts, r);
      r2.todos != r.todos ==> exists i | 0 <= i < |parts| :: TodoWriteList(parts[i]) == Some(r2.todos)
    decreases |parts|
  {
    if parts != [] {
      var init := parts[..|parts| - 1];
      var mid := Parts(e, secs, init, r);
      var r2 := Parts(e, secs, parts, r);
      PartsTodos(e, secs, init, r);
      PartTodos(e, secs, parts[|parts| - 1], mid);
      if r2.todos != mid.todos {
        assert TodoWriteList(parts[|parts| - 1]) == Some(r2.todos);
      } else if r2.todos != r.todos {
        var i :| 0 <= i < |init| && TodoWriteList(init[i]) == Some(mid.todos);
        assert parts[i] == init[i];
      }
    }
  }

  /** The content parts of an assistant event, when it has them. */
  function ContentParts(es: seq<(string, Json)>): seq<Json> {
    var message := Get(es, "message", JObj([]));
    if !message.JObj? then []
    else
      match Iter(Get(message.entries, "content", JList([])))
      case None => []
      case Some(parts) => parts
  }

  /** The dict `tool_use_result` of a user event, when it has one. */
  function ResultDict(es: seq<(string, Json)>): Option<seq<(string, Json)>> {
    if HasKey(es, "tool_use_result") && Get(es, "tool_use_result", JNull).JObj? then
      Some(Get(es, "tool_use_result", JNull).entries)
    else None
  }

  lemma UserTodos(e: Env, secs: nat, es: seq<(string, Json)>, r: Run)
    ensures var r2 := User(e, secs, es, r);
      r2.todos != r.todos ==>
        && ResultDict(es).Some? && HasKey(ResultDict(es).value, "newTodos")
        && Iter(Get(ResultDict(es).value, "newTodos", JList([]))) == Some(r2.todos)
    ensures var r2 := User(e, secs, es, r);
      && ResultDict(es).Some? && HasKey(ResultDict(es).value, "newTodos")
      && Iter(Get(ResultDict(es).value, "newTodos", JList([]))).Some?
      ==> r2.todos == Iter(Get(ResultDict(es).value, "newTodos", JList([]))).value
  {
    if HasKey(es, "tool_use_result") {
      match Get(es, "tool_use_result", JNull)
      case JStr(s) =>
        EmitWithin(e, secs, "  " + Red + "✗ " + Truncate(StripTags(s), 300) + Reset, r);
        EmitWithin(e, secs, "  " + Gray + Truncate(s, 300) + Reset, r);
      case JObj(rs) => ToolResultTodos(e, secs, rs, r);
      case _ =>
    }
  }

  lemma ToolResultTodos(e: Env, secs: nat, rs: seq<(string, Json)>, r: Run)
    ensures var r2 := ToolResult(e, secs, rs, r);
      r2.todos != r.todos ==> HasKey(rs, "newTodos") && Iter(Get(rs, "newTodos", JList([]))) == Some(r2.todos)
    ensures var r2 := ToolResult(e, secs, rs, r);
      HasKey(rs, "newTodos") && Iter(Get(rs, "newTodos", JList([]))).Some? ==>
        r2.todos == Iter(Get(rs, "newTodos", JList([]))).value
  {
    match Classify(rs)
    case TodoUpdate =>
    case FileView =>
      var f := Get(rs, "file", JNull);
      if f.JObj? && Get(f.entries, "content", JStr("")).JStr? {
        var c := Get(f.entries, "content", JStr("")).s;
        EmitWithin(e, secs, "  " + Cyan + "📄" + Reset + " " + Show(Get(f.entries, "filePath", JNull))
                            + " (" + IntToString(|SplitOn(c, '\n')|) + " lines)", r);
      }
    case Patch => ShowDiffWithin(e, secs, Get(rs, "filePath", JNull), Get(rs, "structuredPatch", JNull), r);
    case Created => EmitWithin(e, secs, "  " + Green + "✨ Created:" + Reset + " " + Show(Get(rs, "filePath", JNull)), r);
    case Found =>
      match Len(FirstTruthy(Get(rs, "filenames", JNull), Get(rs, "matches", JNull))) {
        case None =>
        case Some(n) => EmitWithin(e, secs, "  " + Cyan + "✓ Found " + IntToString(n) + " items" + Reset, r);
      }
    case CommandRun => CommandResultWithin(e, secs, Get(rs, "output", JStr("")), Get(rs, "exitCode", JInt(0)), r);
    case AgentDone => EmitWithin(e, secs, "  " + Blue + "Agent done" + Reset, r);
    case Stdout =>
      var o := Get(rs, "stdout", JStr(""));
      EmitWithin(e, secs, "  " + Gray + Truncate(Show(o), 300) + Reset, r);
    case Generic => EmitWithin(e, secs, KvText(AsWritten, JObj(rs), 2), r);
  }

  /**
   * The todo list changes only on an assistant event with a TodoWrite call
   * among its parts, or on a user event whose result dict carries
   * `newTodos`, which then becomes the whole list.
   */
  lemma TodosOnlyFromTodoEvents(e: Env, inp: Input, r: Run)
    requires !r.flow.Crashed?
    ensures var r2 := Step(e, inp, r);
      r2.todos != r.todos ==>
        && inp.parsed.Some? && inp.parsed.value.JObj?
        && var es := inp.parsed.value.entries;
           || (Get(es, "type", JNull) == JStr("assistant")
               && exists i | 0 <= i < |ContentParts(es)| :: TodoWriteList(ContentParts(es)[i]) == Some(r2.todos))
           || (Get(es, "type", JNull) == JStr("user") && ResultDict(es).Some?
               && Iter(Get(ResultDict(es).value, "newTodos", JList([]))) == Some(r2.todos))
    ensures var r2 := Step(e, inp, r);
      !IsBlank(inp.raw) && inp.parsed.Some? && inp.parsed.value.JObj? ==>
        var es := inp.parsed.value.entries;
        && Get(es, "type", JNull) == JStr("user") && ResultDict(es).Some?
        && HasKey(ResultDict(es).value, "newTodos")
        && Iter(Get(ResultDict(es).value, "newTodos", JList([]))).Some?
        ==> r2.todos == Iter(Get(ResultDict(es).value, "newTodos", JList([]))).value
  {
    if !IsBlank(inp.raw) {
      var r0 := r.(flow := Going);
      match inp.parsed
      case None =>
        EmitWithin(e, inp.secs, Gray + Strip(inp.raw) + Reset, r0);
      case Some(data) =>
        if data.JObj? {
          var es := data.entries;
          var t := Get(es, "type", JNull);
          if t == JStr("assistant") {
            AssistantTodos(e, inp.secs, es, r0);
          } else if t == JStr("user") {
            UserTodos(e, inp.secs, es, r0);
          } else {
            EmitWithin(e, inp.secs, SystemErrorLine(Get(es, "message", JNull)), r0);
          }
        }
    }
  }

  /** An assistant event changes the todo list only to the list one of its TodoWrite parts hands over. */
  lemma AssistantTodos(e: Env, secs: nat, es: seq<(string, Json)>, r: Run)
    ensures var r2 := Assistant(e, secs, es, r);
      r2.todos != r.todos ==> exists i | 0 <= i < |ContentParts(es)| :: TodoWriteList(ContentParts(es)[i]) == Some(r2.todos)
  {
    var message := Get(es, "message", JObj([]));
    if message.JObj? {
      var r1 := UsageUpdate(e, secs, Get(message.entries, "usage", JObj([])), r);
      assert r1.todos == r.todos;
      if r1.flow.Going? {
        match Iter(Get(message.entries, "content", JList([])))
        case None =>
        case Some(parts) =>
          assert ContentParts(es) == parts;
          PartsTodos(e, secs, parts, r1);
      }
    }
  }

  // ---------------------------------------------------------------- results

  /**
   * A dict result is handled by the first rule it fits, in table order; the
   * generic dump only when it fits none.
   */
  lemma ClassifyIsFirstFit(rs: seq<(string, Json)>)
    ensures Fits(Classify(rs), rs)
    ensures forall j | 0 <= j < Order(Classify(rs)) :: !Fits(Rules[j], rs)
    ensures Classify(rs).Generic? <==> forall j | 0 <= j < |Rules| :: !Fits(Rules[j], rs)
  {
    if !Classify(rs).Generic? {
      assert Fits(Rules[Order(Classify(rs))], rs);
    }
  }

  /** The tag test is redundant: a result starting with the tag already mentions "error". */
  lemma ErrorTagMentionsError(s: string)
    ensures StartsWith(s, ErrorOpen) ==> Contains(Lower(s), "error")
    ensures IsToolError(s) <==> Contains(Lower(s), "error")
  {
    if StartsWith(s, ErrorOpen) {
      var l := Lower(s);
      assert s[..16] == ErrorOpen;
      assert s[10] == ErrorOpen[10] && s[11] == ErrorOpen[11] && s[12] == ErrorOpen[12];
      assert s[13] == ErrorOpen[13] && s[14] == ErrorOpen[14];
      assert l[10..15] == "error";
      ContainsAt(l, "error", 10);
    }
  }

  /** Removing a pattern from a text without its first character changes nothing in front. */
  lemma {:induction false} RemoveAllClear(x: string, y: string, p: string)
    requires |p| > 0 && forall i | 0 <= i < |x| :: x[i] != p[0]
    ensures RemoveAll(x + y, p) == x + RemoveAll(y, p)
    decreases |x|
  {
    if |x| > 0 {
      assert (x + y)[1..] == x[1..] + y;
      RemoveAllClear(x[1..], y, p);
    } else {
      assert x + y == y;
    }
  }

  /** A text that starts with the pattern once, and nowhere else, loses exactly it. */
  lemma RemoveAllSelf(p: string)
    requires |p| > 0
    ensures RemoveAll(p, p) == []
  {
    assert StartsWith(p, p);
    assert p[|p|..] == [];
  }

  /** A text whose later characters never start the pattern, and which does not start with it, is kept. */
  lemma RemoveAllKeeps(s: string, p: string)
    requires |p| > 0 && |s| > 0 && !StartsWith(s, p)
    requires forall i | 1 <= i < |s| :: s[i] != p[0]
    ensures RemoveAll(s, p) == s
  {
    assert forall i | 0 <= i < |s[1..]| :: s[1..][i] != p[0];
    RemoveAllClear(s[1..], [], p);
    assert s[1..] + [] == s[1..];
    assert [s[0]] + s[1..] == s;
  }

  /** Removing two tags from a message wrapped in them, as long as the message holds no tag start. */
  lemma RemoveBothTags(open: string, close: string, m: string)
    requires |open| > 0 && |close| > 0
    requires forall i | 0 <= i < |m| :: m[i] != open[0] && m[i] != close[0]
    requires !StartsWith(close, open) && forall i | 1 <= i < |close| :: close[i] != open[0]
    ensures RemoveAll(RemoveAll(open + m + close, open), close) == m
  {
    var s := open + m + close;
    SplitAfter(open, m, close);
    assert StartsWith(s, open);
    RemoveAllClear(m, close, open);
    RemoveAllKeeps(close, open);
    RemoveAllClear(m, close, close);
    RemoveAllSelf(close);
    assert m + [] == m;
  }

  /** The front and the rest of a text made of three parts. */
  lemma SplitAfter(a: string, b: string, c: string)
    ensures (a + b + c)[..|a|] == a && (a + b + c)[|a|..] == b + c
  {
  }

  /** A message wrapped in the error tags shows without them. */
  lemma StripTagsOfWrapped(m: string)
    requires forall i | 0 <= i < |m| :: m[i] != '<'
    ensures StripTags(ErrorOpen + m + ErrorClose) == m
  {
    assert ErrorOpen[0] == '<' && ErrorClose[0] == '<';
    assert ErrorClose[..|ErrorOpen|][1] != ErrorOpen[1];
    assert forall i | 1 <= i < |ErrorClose| :: ErrorClose[i] != '<';
    RemoveBothTags(ErrorOpen, ErrorClose, m);
  }

  /**
   * With delta installed, nothing in showing the diff escapes except
   * building the diff lines; without it the one DIFF line is printed as
   * any other.
   */
  lemma ShowDiffFailures(e: Env, secs: nat, filePath: Json, patches: Json, r: Run)
    requires r.flow.Going?
    ensures ShowDiff(e, secs, filePath, patches, r).flow.Raised? ==>
      || (e.delta.None? && StatusRows(e.height, e.width, r.usage, ContextLimit, r.todos, r.cost, secs).None?)
      || (e.delta.Some? && DiffLines(filePath, patches).None?)
  {
  }
}
