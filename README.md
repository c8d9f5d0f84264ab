# Ralph formatter and kitty tab bar, modelled in Dafny

This project models two small programs from a dotfiles repository.

- `bin/ralph-format.py` reads the stream-JSON events of a coding agent from
  standard input. It prints each one to a scrolling area, and after every
  print it redraws a fixed 6-row status block at the bottom of the terminal.
  The block shows a context-usage progress bar, the cost, the elapsed time and
  up to three todos. The model covers these parts:
  - `truncate`, `is_empty` and `format_kv` with its key denylist;
  - the layout of the status block;
  - the hunk headers that `show_diff` builds;
  - the main loop, which dispatches events and updates `context_usage` and
    `current_todos`.
- `xdg-configs/kitty/tab_bar.py` draws kitty's tab bar. It covers:
  - `draw_tab`: smart title truncation, icon choice by keyword, the label,
    the powerline separators and restoring the cursor colours;
  - `draw_right_status`: the battery text parsed from `pmset`, the date, the
    time, the right alignment and the `│` separators;
  - `draw_tab_with_powerline_separator`.

Modules, one per file:

| module | file | what it holds |
|---|---|---|
| `Text` | text.dfy | Python string built-ins: `strip`, `rstrip`, `split`, `lower`, `in`, `str(int)`, `int(str)` |
| `Ansi` | ansi.dfy | the colour escape codes |
| `JsonValue` | json.dfy | decoded JSON values, `dict.get`, truthiness, iteration, `str()` |
| `KeyValue` | kv.dfy | `truncate`, `IGNORE_KEYS`, `is_empty`, `format_kv` (a method with loops, proved against a recursive function) |
| `StatusBlock` | status.dfy | percentage, bar, labels, todo lines, the 6 numbered rows; `DrawStatusBar` as a method with loops |
| `Diff` | diff.dfy | hunk headers and the `diff_lines` that `show_diff` builds |
| `Events` | events.dfy | the main loop as functions of the state, including Python exceptions |
| `LoopLaws` | loop_laws.dfy | properties of the loop across events |
| `Formatter` | formatter.dfy | class `Formatter`: the globals as fields, each handler a method proved equal to the `Events` function |
| `TabTitle` | tabtitle.dfy | title truncation, icon classification, the label |
| `Battery` | battery.dfy | `pmset` parsing, battery icons, the clock texts |
| `TabBar` | tabbar.dfy | class `Screen` (cursor `fg`/`bg`/`x` and the drawn cells) and the drawing methods |

### How exceptions are modelled

Inside the loop, a Python exception ends the current event. Anything printed
before it stays printed. The exception is then swallowed by
`except Exception: pass`. Two places behave differently:

- `show_diff` catches exceptions from delta and from the redraws inside its own `try`.
- In the `JSONDecodeError` handler, an exception from `output` escapes the
  loop and ends the program.

This is the `Flow` value: `Going`, `Raised` (an exception that will be
swallowed) or `Crashed` (the program has ended).

`draw_status_bar` raises when one of the first three todos is not a dict, or
when its text is neither a string nor a list (a list is sliced and printed). Every `output` can therefore fail.

### Where the code differs from its documentation

- The `... and N more` todo line is the seventh line. `lines[:STATUS_HEIGHT]`
  cuts it off, so it is never displayed (`StatusBlock.OverflowLineHidden`).
- The camelCase entries of `IGNORE_KEYS` never match (see Findings). The
  key/value renderings take the key test as a parameter (`KeyTest`). The
  formatter runs `AsWritten`, the program's own `k.lower() in IGNORE_KEYS`.
  `Corrected` is the case-insensitive match the list evidently intends.
  The filtering and indentation lemmas hold for both.

## Model

| member | source | states |
|---|---|---|
| KeyValue.Truncate | bin/ralph-format.py:178-182 | A text within the limit comes back unchanged. A longer one keeps exactly its first `limit` characters, and its suffix reads back as `len(text) - limit` more characters. |
| KeyValue.ReadOmittedNote | bin/ralph-format.py:181 | The "more chars" note reads back as the count it was built from. |
| KeyValue.AsWrittenMissesDurationMs | bin/ralph-format.py:185-208 | `durationMs` is listed in `IGNORE_KEYS`, yet the key `durationMs` is not ignored by the test as written. |
| KeyValue.AsWrittenMissesNumFiles | bin/ralph-format.py:185-208 | The same for `numFiles`. |
| KeyValue.AsWrittenMissesIsImage | bin/ralph-format.py:185-208 | The same for `isImage`. |
| KeyValue.AsWrittenMissesIsTruncated | bin/ralph-format.py:185-208 | The same for `isTruncated`. |
| KeyValue.LoweredUnlisted | bin/ralph-format.py:185-208 | A key shaped like the camelCase keys (a capital where the listed spelling has one) is never in the lowered denylist as written. |
| KeyValue.Unlisted | bin/ralph-format.py:185-190 | A string with an upper-case letter where every listed key of that length has a lower-case one is not in `IGNORE_KEYS`. |
| KeyValue.FoldedEqIsLowerEq | bin/ralph-format.py:208 | Comparing character by character with case folded is the same as comparing the lower-cased strings. |
| KeyValue.FoldedMatch | bin/ralph-format.py:185-208 | Over any key set, a key matches some entry with case folded character by character exactly when some entry lower-cases to the key's lower case. The corrected test is this match against `IGNORE_KEYS`. |
| KeyValue.IgnoredKeyCorrected | bin/ralph-format.py:185-208 | The corrected test ignores every listed key, and it ignores at least what the as-written test ignores. |
| KeyValue.EmptyVersusFalsy | bin/ralph-format.py:193-200 | `is_empty` holds exactly for the falsy values other than 0, plus whitespace-only strings. 0 and True are not empty. |
| KeyValue.FormatKv | bin/ralph-format.py:203-225 | The loops over dict entries and list items build exactly the text of the recursive definition, under the as-written key test `k.lower() in IGNORE_KEYS`. |
| KeyValue.EntryOutput | bin/ralph-format.py:207-215 | Under either key test, the as-written one included, an entry prints nothing exactly when its key is ignored or its value is empty. A container prints a `k:` header and then its contents at indent + 2. A scalar prints `k: ` followed by its value truncated to 400. |
| KeyValue.DictLinesVisible | bin/ralph-format.py:207-209 | Under either key test, a dict's lines are those of its visible entries only. |
| KeyValue.DictFilter | bin/ralph-format.py:207-209 | Under either key test, `format_kv` of a dict equals `format_kv` of the dict without its ignored and empty entries. |
| KeyValue.Visible | bin/ralph-format.py:208-209 | Every entry kept is shown under that key test: its key is not ignored and its value is not empty. |
| KeyValue.ListedKeyShownAsWritten | bin/ralph-format.py:185-215 | A scalar, non-empty value under a listed key that the as-written test misses prints as `k: v`. The corrected test prints nothing for it. |
| KeyValue.ListedKeyDict | bin/ralph-format.py:185-215 | For such a key, `format_kv({k: v})` is the single line `k: v` as written, and empty under the corrected test. |
| KeyValue.SingleEntry | bin/ralph-format.py:205-209 | A one-entry dict renders as the lines of that entry. |
| KeyValue.ListedIsIgnored | bin/ralph-format.py:185-208 | The corrected test ignores every listed key. |
| KeyValue.ListCap | bin/ralph-format.py:216-224 | A list of more than 10 items renders as its first 10 items plus `... and N more`, with N = len − 10. A list of at most 10 renders every item and has no such line. |
| KeyValue.ListTailIrrelevant | bin/ralph-format.py:217-224 | Two lists of the same length that agree on their first 10 items render the same. |
| KeyValue.KvIndented | bin/ralph-format.py:203-225 | Every line that `format_kv(data, indent)` collects starts with at least `indent` spaces, so its joined text is empty or starts that way. |
| KeyValue.NestedIndented | bin/ralph-format.py:211-220 | Nested contents are indented by at least the parent's indent. |
| KeyValue.DictIndented | bin/ralph-format.py:207-215 | Every line the first n entries contribute starts with at least `indent` spaces. |
| KeyValue.ListIndented | bin/ralph-format.py:217-222 | Every line the first n items contribute starts with at least `indent` spaces. |
| KeyValue.KvLinesIndented | bin/ralph-format.py:203-224 | The list `lines` of a dict or a list is indented by at least `indent`, nested texts included. |
| KeyValue.EntryIndented | bin/ralph-format.py:210-215 | The lines of one dict entry, its `k:` header and its nested text or value, start with at least `indent` spaces. |
| KeyValue.ItemIndented | bin/ralph-format.py:218-222 | The lines of one list item, its bullet and its nested text, start with at least `indent` spaces. |
| KeyValue.AppendIndented | bin/ralph-format.py:205-224 | Appending lines that are all indented keeps the list indented. |
| KeyValue.FormatEntries | bin/ralph-format.py:207-215 | The loop over a dict's items collects exactly the specified lines of all its entries, under the as-written key test. |
| KeyValue.AppendEntry | bin/ralph-format.py:207-215 | One iteration of the dict loop: the lines of the first i entries, extended by entry i, are the lines of the first i + 1 entries. |
| KeyValue.FormatEntry | bin/ralph-format.py:207-215 | One pass of that loop: skips the entry when `k.lower()` is listed or the value is empty, else collects the `k:` header and nested text, or `k: v`. |
| KeyValue.FormatItems | bin/ralph-format.py:217-222 | The loop over `data[:10]` collects exactly the specified lines of the first ten items, or of all of them when there are fewer. |
| KeyValue.DictLinesUpToIs | bin/ralph-format.py:207-215 | The loop over the first n entries computes the lines of that prefix. |
| KeyValue.ListLinesUpToIs | bin/ralph-format.py:217-222 | The loop over the first n items computes the lines of that prefix. |
| StatusBlock.Pct | bin/ralph-format.py:91 | The percentage is at most 100, not negative for a non-negative usage, and 0 when the limit is not positive. |
| StatusBlock.TruncReal | bin/ralph-format.py:92 | `int()` of a float truncates toward zero. |
| StatusBlock.PctRange | bin/ralph-format.py:91-92 | `int(pct)` lies in [0, 100]. It is 0 when the limit is not positive, and 100 once usage reaches the limit. |
| StatusBlock.PctMonotone | bin/ralph-format.py:91-92 | More usage never shows a lower percentage. |
| StatusBlock.BarShape | bin/ralph-format.py:92-93 | `filled` lies in [0, 20], `empty` is not negative, and `filled + empty == 20`. `filled` is `int(pct) // 5`, and 0 when the limit is not positive. |
| StatusBlock.FilledMonotone | bin/ralph-format.py:92 | More usage never fills fewer cells. |
| StatusBlock.BarColorThresholds | bin/ralph-format.py:95-100 | Green exactly below 50, yellow exactly in [50, 80), red exactly from 80. |
| StatusBlock.RoundHalfEven | bin/ralph-format.py:108 | `{pct:.0f}` rounds to the nearest integer, and a tie goes to the even one. |
| StatusBlock.TokensRoundTrip | bin/ralph-format.py:102 | The token label reads back as `usage // 1000` and `limit // 1000`. |
| StatusBlock.ReadKiloOf | bin/ralph-format.py:102 | A number followed by `k` reads back as that number. |
| StatusBlock.ElapsedRoundTrip | bin/ralph-format.py:103-104 | The elapsed text, `XmYs` from 60 seconds and `Ys` below, reads back as the number of seconds. |
| StatusBlock.MinutesRoundTrip | bin/ralph-format.py:103-104 | From 60 seconds on, `{secs // 60}m{secs % 60}s` reads back as the number of seconds. |
| StatusBlock.SecondsRoundTrip | bin/ralph-format.py:103-104 | Below 60 seconds, `{secs}s` reads back as the number of seconds. |
| StatusBlock.CostTextShape | bin/ralph-format.py:109 | `{total_cost:.4f}` has four decimals after the integer part. The initial cost shows as `0.0000`. |
| StatusBlock.TodoLine | bin/ralph-format.py:123-129 | A todo line exists only for a dict todo. |
| StatusBlock.TodoLineText | bin/ralph-format.py:123-129 | A todo with a string field shows ✓ with `content` when completed, ▶ with `activeForm` when in progress, and ○ with `content` otherwise. The field is clipped to `width-4`. |
| StatusBlock.TodoLinesUpTo | bin/ralph-format.py:117-130 | The loop gives one line per todo, in list order, and fails exactly when some todo line raises. |
| StatusBlock.TodoSectionDefined | bin/ralph-format.py:115-134 | No todos give three blank lines. Otherwise there is a separator, at most 3 todo lines and possibly the `... and N more` line. The section fails exactly when one of the first three todos raises. |
| StatusBlock.ItemsPrefix | bin/ralph-format.py:118-122 | The todos looked at are a prefix of the list. |
| StatusBlock.PadTo | bin/ralph-format.py:137-138 | Padding keeps the lines, appends blanks, and gives at least `STATUS_HEIGHT` lines. |
| StatusBlock.HeadLines | bin/ralph-format.py:87-112 | The head of the block is exactly two lines. Their texts, the separator and then the progress line, are stated by StatusRowsContent. |
| StatusBlock.BlockRows | bin/ralph-format.py:136-145 | Exactly 6 rows, numbered from `height-5`. Each row is clipped to `width`. The lines appear in order and the rest are blank. |
| StatusBlock.RowsOfFirstSix | bin/ralph-format.py:141 | Only the first 6 lines reach the screen. |
| StatusBlock.StatusRowsShape | bin/ralph-format.py:47-145 | The block is drawn exactly when the first three todos can be shown. It is then 6 rows, from just below the scroll region (`height-6`) to `height`, each row clipped to `width`. |
| StatusBlock.StatusRowsContent | bin/ralph-format.py:85-145 | The rows hold, in order: the separator, the progress line, then three blanks or a separator and the todo lines, then blanks. |
| StatusBlock.SectionRows | bin/ralph-format.py:115-145 | With the separator and a progress line on top: three blank rows when there are no todos, otherwise a separator and then the todo lines in order, each cut to the width. |
| StatusBlock.TodoSectionLines | bin/ralph-format.py:115-130 | A non-empty todo list gives the separator, then one line per todo for the first three, then the `... and n more` line only when there are more. |
| StatusBlock.OverflowLineHidden | bin/ralph-format.py:118-141 | With more than 3 todos, the block equals the block of the first three: the `... and N more` line never shows. |
| StatusBlock.SeventhLineCut | bin/ralph-format.py:141 | A seventh line is cut off. |
| StatusBlock.CollectTodoLines | bin/ralph-format.py:114-134 | The todo loop with its early `break` computes the todo section. |
| StatusBlock.PadLines | bin/ralph-format.py:137-138 | The `while len(lines) < STATUS_HEIGHT` loop pads to 6 lines. |
| StatusBlock.WriteRows | bin/ralph-format.py:140-145 | The write loop produces the numbered, clipped rows. |
| StatusBlock.DrawStatusBar | bin/ralph-format.py:74-150 | `draw_status_bar` as a method gives exactly the rows of the block, or nothing where it raises. |
| Diff.HunkRoundTrip | bin/ralph-format.py:235-237 | A hunk header reads back as the four numbers of the patch. |
| Diff.ReadHunkOf | bin/ralph-format.py:237 | An `@@ -o +n @@` header reads back as its two ranges, and as nothing when either range is malformed. |
| Diff.ReadRangesOf | bin/ralph-format.py:237 | The middle `o +n` of a header reads back as both ranges when both are well formed, and as nothing otherwise. |
| Diff.Framed | bin/ralph-format.py:237 | A header's `@@ -` front, its ranges and its ` @@` back can be cut apart again. |
| Diff.ReadPairOf | bin/ralph-format.py:237 | `start,count` reads back as its two numbers. |
| Diff.ShowInt | bin/ralph-format.py:237 | An integer shows as its decimal text. |
| Diff.RangeHasNoBlank | bin/ralph-format.py:237 | A range holds no blank, so the header's fields stay apart. |
| Diff.EmptyHunkHeader | bin/ralph-format.py:235-237 | Missing fields default to 0: `@@ -0,0 +0,0 @@`. |
| Diff.DiffLinesDefined | bin/ralph-format.py:233-238 | The diff lines are built exactly when every hunk is a dict whose `lines`, defaulting to `[]`, can be iterated. They start with the `---` and `+++` headers. |
| Diff.HunkLinesOk | bin/ralph-format.py:235-238 | One hunk contributes lines exactly when it is a dict whose `lines` can be iterated. |
| Diff.PatchLinesDefined | bin/ralph-format.py:234-238 | The loop over n hunks succeeds exactly when each of them does. |
| Diff.PatchLinesAppend | bin/ralph-format.py:234-238 | One more hunk appends its header and lines after the earlier ones. |
| Diff.PrefixAgrees | bin/ralph-format.py:234-238 | The first n hunks alone decide the first n steps. |
| Diff.Texts | bin/ralph-format.py:248 | The joined lines are the strings of the diff lines, one for one. |
| Diff.HunkLinesHeader | bin/ralph-format.py:235-238 | A hunk's lines open with a header from which its four integer fields read back, then continue with its own `lines` in order. |
| Diff.BuildDiffLines | bin/ralph-format.py:233-238 | The loop builds exactly the specified diff lines. |
| Diff.BuildPatchLines | bin/ralph-format.py:234-238 | The loop over the patches builds, for every patch, its header and lines, and fails exactly when the specification fails. |
| JsonValue.LookupSpec | bin/ralph-format.py:274 | `k in d` holds exactly when some entry has key k, and `d.get` finds the value of the first such entry. |
| JsonValue.Iter | bin/ralph-format.py:287 | A list iterates over its items. Exactly lists, strings and dicts can be iterated. |
| JsonValue.Chars | bin/ralph-format.py:320 | A string iterates over one value per character. |
| JsonValue.Keys | bin/ralph-format.py:320 | A dict iterates over one value per key. |
| JsonValue.ReprPrintable | bin/ralph-format.py:214 | `repr` of a string, as `str` prints it inside a list or dict. It opens and closes with the same quote, single or double. The escaped result holds no character Python leaves unprintable below U+0100. |
| JsonValue.EscapePrintable | bin/ralph-format.py:214 | The escaped body is at least as long as the text and contains no unprintable character below U+0100. |
| JsonValue.HexEscapeReads | bin/ralph-format.py:214 | `\xNN` is four characters, and its two hex digits read back as the character's code. |
| JsonValue.ReprOfEscape | bin/ralph-format.py:214 | In a printed list, the ESC of a colour sequence shows as `\x1b`. |
| Events.Indented | bin/ralph-format.py:251 | Each line is prefixed with two spaces, one for one. |
| Events.Order | bin/ralph-format.py:338-369 | Each result kind has its position in the fixed rule table, and the generic dump comes last. |
| LoopLaws.StepGrows | bin/ralph-format.py:269-378 | A line never takes back output and never changes the cost. After the program has ended, a line changes nothing. |
| LoopLaws.StepsGrow | bin/ralph-format.py:269-378 | Over any input, the earlier output is a prefix of the later output, and the cost stays the same. |
| LoopLaws.StepsFromStart | bin/ralph-format.py:34-378 | `total_cost` stays 0 over the whole run. |
| LoopLaws.CrashIsFinal | bin/ralph-format.py:374-378 | Once an exception has escaped, no further line is read. |
| LoopLaws.CrashOnlyFromEcho | bin/ralph-format.py:374-378 | The program ends only on a non-blank, non-JSON line that does not start with `{`, and only when redrawing after its echo raises. |
| LoopLaws.EchoEffect | bin/ralph-format.py:374-376 | A line starting with `{` that does not decode is dropped. Any other non-JSON line is printed dimmed and stripped, then the block is redrawn, or the program ends. |
| LoopLaws.BlankLineSkipped | bin/ralph-format.py:270-271 | A blank line changes nothing. |
| LoopLaws.InterleaveShape | bin/ralph-format.py:153-157 | The effects hold each text in order, each followed by a redraw of the block: twice as many effects as texts. |
| LoopLaws.EmitAllShown | bin/ralph-format.py:294-295 | While the block can be drawn, each line is printed and followed by the block. |
| LoopLaws.EmitAllFails | bin/ralph-format.py:294-295 | When the block cannot be drawn, only the first line gets out before the exception. |
| LoopLaws.EmitShown | bin/ralph-format.py:153-157 | `output` prints the text, then the block. |
| LoopLaws.UsageOnlyFromAssistant | bin/ralph-format.py:276-285 | `context_usage` changes only on an assistant event with a truthy dict `usage`. It then becomes the sum of its three token counts. |
| LoopLaws.AssistantUsageSet | bin/ralph-format.py:277-285 | A usage dict whose counts are numbers sets the usage to their sum. Nothing else sets it. |
| LoopLaws.UsageSumOf | bin/ralph-format.py:280-284 | A missing count is 0. The sum is input + cache-read + cache-creation tokens. A string count makes the sum raise. |
| LoopLaws.TodosOnlyFromTodoEvents | bin/ralph-format.py:319-341 | `current_todos` changes only in two ways, and each replaces the whole list. One is an assistant event, and the new list is the `todos` of one of its TodoWrite parts. The other is a user result carrying `newTodos`, and the new list is that value. In the other direction, a non-blank line holding a user event with an iterable `newTodos` result always installs that list. |
| LoopLaws.ToolUseTodos | bin/ralph-format.py:302-327 | Among the tools, only TodoWrite with a dict input changes the todos, and the new list is its iterated `todos`. Conversely, once the header is printed, a TodoWrite whose `todos` can be iterated always installs that list. |
| LoopLaws.TodoToolIsTodoWrite | bin/ralph-format.py:319 | A tool is handled as the todo tool exactly when its name is `TodoWrite`. |
| LoopLaws.PartTodos | bin/ralph-format.py:288-327 | Only a TodoWrite `tool_use` part changes the todos, and only to the list it hands over. Conversely, such a part installs its list once its header is printed. |
| LoopLaws.PartsTodos | bin/ralph-format.py:287-327 | If the parts loop changed the todos, the new list is the one some TodoWrite part handed over. |
| LoopLaws.AssistantTodos | bin/ralph-format.py:276-327 | If an assistant event changed the todos, the new list is the `todos` of a TodoWrite call in its content. |
| LoopLaws.UserTodos | bin/ralph-format.py:329-341 | A user event changes the todos only through a dict result with `newTodos`, and then the new list is its iterated value. In the other direction, a dict result whose `newTodos` can be iterated always installs that list. |
| LoopLaws.ToolResultTodos | bin/ralph-format.py:338-369 | Among dict results, only `newTodos` changes the todos. An iterable `newTodos` always replaces the whole list with its items. |
| LoopLaws.ClassifyIsFirstFit | bin/ralph-format.py:338-369 | A dict result is handled by the first rule it fits, in table order. The generic dump applies exactly when it fits none. |
| LoopLaws.ErrorTagMentionsError | bin/ralph-format.py:333 | A result starting with `<tool_use_error>` already contains "error". The error test is therefore exactly "contains error, in any case". |
| LoopLaws.StripTagsOfWrapped | bin/ralph-format.py:334 | A message wrapped in the two tags shows as the message alone. |
| LoopLaws.RemoveBothTags | bin/ralph-format.py:334 | The two `replace` calls remove an opening and a closing tag around a message that holds no tag start. |
| LoopLaws.RemoveAllClear | bin/ralph-format.py:334 | `replace` leaves a front that holds no start of the pattern untouched. |
| LoopLaws.RemoveAllKeeps | bin/ralph-format.py:334 | `replace` keeps a text in which the pattern cannot start. |
| LoopLaws.RemoveAllSelf | bin/ralph-format.py:334 | `replace` of a pattern in itself leaves nothing. |
| LoopLaws.ShowDiffFailures | bin/ralph-format.py:228-253 | With delta installed, only building the diff lines can raise out of `show_diff`. Without delta, only the redraw after the DIFF line can. |
| LoopLaws.WithinTrans | bin/ralph-format.py:153-157 | Appending output is transitive. |
| LoopLaws.EmitWithin | bin/ralph-format.py:153-157 | `output` only appends, and keeps usage, todos and cost. |
| LoopLaws.EmitAllWithin | bin/ralph-format.py:294-295 | Printing several lines only appends, and keeps usage, todos and cost. |
| LoopLaws.RedrawWithin | bin/ralph-format.py:74-150 | A redraw only appends, and keeps the state. |
| LoopLaws.SetThenRedrawWithin | bin/ralph-format.py:285-341 | A redraw after a state update only appends. |
| LoopLaws.ToolUseWithin | bin/ralph-format.py:302-327 | A tool call only appends output, and keeps the usage. |
| LoopLaws.PartWithin | bin/ralph-format.py:288-327 | A content part only appends output, and keeps the usage. |
| LoopLaws.PartsWithin | bin/ralph-format.py:287-327 | The parts loop only appends output, and keeps the usage. |
| LoopLaws.AssistantWithin | bin/ralph-format.py:276-327 | An assistant event only appends output. |
| LoopLaws.ShowDiffWithin | bin/ralph-format.py:228-253 | `show_diff` only appends output, and keeps the state. |
| LoopLaws.DeltaWithin | bin/ralph-format.py:233-253 | With delta installed, `show_diff` only appends output and leaves the usage and the todos alone. |
| LoopLaws.DeltaOutputWithin | bin/ralph-format.py:249-253 | Printing delta's output inside the bare `except` only appends output and leaves the usage and the todos alone. |
| LoopLaws.CommandResultWithin | bin/ralph-format.py:353-359 | A command result only appends output, and keeps the state. |
| LoopLaws.ToolResultWithin | bin/ralph-format.py:338-369 | A dict result only appends output, and keeps the usage. |
| LoopLaws.UserWithin | bin/ralph-format.py:329-369 | A user event only appends output, and keeps the usage. |
| LoopLaws.EventWithin | bin/ralph-format.py:273-372 | A decoded event only appends output and never ends the program. |
| Formatter.Formatter.constructor | bin/ralph-format.py:31-34 | The globals start at 0, no todos and cost 0, with nothing written. |
| Formatter.Formatter.DrawStatusBar | bin/ralph-format.py:74-150 | Appends the block drawn from the current state, or raises. |
| Formatter.Formatter.Output | bin/ralph-format.py:153-157 | Prints, then redraws. |
| Formatter.Formatter.OutputLines | bin/ralph-format.py:294-295 | The `for … output(…)` loops: each line in turn, left at the first exception. |
| Formatter.Formatter.TextPart | bin/ralph-format.py:289-295 | A `text` part prints the header and the rendered lines, unless the text is blank. |
| Formatter.Formatter.ToolUse | bin/ralph-format.py:302-327 | A `tool_use` part prints the tool's name, then its one line or key/values (as-written key test). TodoWrite instead replaces the todo list in place and redraws. |
| Formatter.Formatter.Part | bin/ralph-format.py:288-327 | One content part is dispatched by its `type`. |
| Formatter.Formatter.Parts | bin/ralph-format.py:287-327 | The parts loop, left at the first exception. |
| Formatter.Formatter.Assistant | bin/ralph-format.py:276-327 | Sets `context_usage` from a truthy usage and redraws, then handles the parts. |
| Formatter.Formatter.ShowDiff | bin/ralph-format.py:228-253 | Prints the DIFF line without delta. Otherwise builds the diff lines and prints delta's output, with exceptions inside the `try` swallowed. |
| Formatter.Formatter.CommandResult | bin/ralph-format.py:353-359 | Prints the stripped output if there is any, then the exit code in green for 0 and red otherwise. |
| Formatter.Formatter.ToolResult | bin/ralph-format.py:338-369 | A dict result is handled by the first rule it fits; the generic dump uses the as-written key test. `newTodos` replaces the todo list in place. |
| Formatter.Formatter.User | bin/ralph-format.py:329-369 | A string result prints an error or dim line, or nothing when blank. A dict result goes to its rule. |
| Formatter.Formatter.Event | bin/ralph-format.py:273-372 | A decoded line is dispatched on `type`; a system error prints its message. |
| Formatter.Formatter.Line | bin/ralph-format.py:270-378 | One pass of the loop: skip a blank line, handle a decoded one, echo an undecodable one. An exception in the echo ends the program. |
| Formatter.Formatter.Lines | bin/ralph-format.py:269-378 | The `for line in sys.stdin` loop, until an exception escapes it. |
| Formatter.FormatStream | bin/ralph-format.py:31-378 | Everything the loop writes for a whole input, starting from the initial globals. |
| Formatter.EmitAllHalted | bin/ralph-format.py:294-295 | A print loop left by an exception has done all it ever will. |
| Formatter.PartsHalted | bin/ralph-format.py:287 | A parts loop left by an exception has done all it ever will. |
| Formatter.StepsHalted | bin/ralph-format.py:269-378 | A main loop left by an escaping exception has done all it ever will. |
| Text.Strip | bin/ralph-format.py:270 | `strip()` removes exactly the leading and trailing whitespace. It is empty exactly for a blank text. |
| Text.RStrip | bin/ralph-format.py:173 | `rstrip()` keeps a prefix and drops only trailing whitespace. |
| Text.LeadingSpaces | bin/ralph-format.py:270 | The length of the leading whitespace run. |
| Text.TrailingSpaces | bin/ralph-format.py:173 | The length of the trailing whitespace run. |
| Text.SplitOn | bin/ralph-format.py:294 | `split(c)` gives at least one piece, and no piece contains `c`. |
| Text.SplitJoin | bin/ralph-format.py:294 | Joining the pieces of `split(c)` with `c` gives back the text. |
| Text.SplitNone | xdg-configs/kitty/tab_bar.py:158 | A text without `c` splits into itself. |
| Text.SplitAround | xdg-configs/kitty/tab_bar.py:158-160 | Splitting around one `c` splits both sides. |
| Text.Words | xdg-configs/kitty/tab_bar.py:160 | `split()` gives non-empty words without whitespace. |
| Text.WordLength | xdg-configs/kitty/tab_bar.py:160 | The length of the first word. |
| Text.WordsEndWith | xdg-configs/kitty/tab_bar.py:160 | A word after whitespace is the last word of `split()`. |
| Text.WordsEndWithBlank | xdg-configs/kitty/tab_bar.py:160 | The same, when what precedes is blank. |
| Text.WordsEndWithWord | xdg-configs/kitty/tab_bar.py:160 | The same, when what precedes is one word. |
| Text.WordsSplitWord | xdg-configs/kitty/tab_bar.py:160 | `split()` takes the first word off the front. |
| Text.WordsAfterBlank | xdg-configs/kitty/tab_bar.py:160 | Leading whitespace does not change `split()`. |
| Text.WordsFront | xdg-configs/kitty/tab_bar.py:160 | A text starting with a word splits into that word and the rest. |
| Text.WordsTail | xdg-configs/kitty/tab_bar.py:160 | A single word splits into itself. |
| Text.WordLengthOf | xdg-configs/kitty/tab_bar.py:160 | A word followed by whitespace or the end is the first word. |
| Text.LeadingSpacesOf | xdg-configs/kitty/tab_bar.py:160 | Blank text before a word is the leading whitespace. |
| Text.Lower | bin/ralph-format.py:208 | `lower()` maps each character and keeps the length. |
| Text.LowerIsLowerCase | xdg-configs/kitty/tab_bar.py:82 | A lowered text has no upper-case letter, and lowering it again changes nothing. |
| Text.LowerAppend | bin/ralph-format.py:333 | Lowering distributes over concatenation. |
| Text.ContainsAt | bin/ralph-format.py:333 | `p in s` holds once p occurs at some position. |
| Text.ContainsWitness | xdg-configs/kitty/tab_bar.py:85-105 | `p in s` gives a position where p occurs. |
| Text.ContainsWithin | xdg-configs/kitty/tab_bar.py:85-105 | Occurring in a slice means occurring in the text. |
| Text.SliceOfSlice | xdg-configs/kitty/tab_bar.py:85-105 | A slice of a slice is a slice. |
| Text.RemoveAll | bin/ralph-format.py:334 | `replace(p, "")` never lengthens, and does nothing when p does not occur. |
| Text.Repeat | bin/ralph-format.py:88 | `c * n` has length `max(0, n)` and only c in it. |
| Text.Prefix | bin/ralph-format.py:145 | `s[:n]` is a prefix of length `min(n, len)`, or `len + n` for a negative n. |
| Text.SliceFrom | xdg-configs/kitty/tab_bar.py:76 | `s[start:]` is a suffix of the length Python gives it. |
| Text.NatToString | bin/ralph-format.py:102 | `str(n)` is a non-empty run of digits. |
| Text.IntToString | bin/ralph-format.py:237 | `str(i)` holds only digits, after an optional leading `-`. |
| Text.IntToStringAvoids | bin/ralph-format.py:237 | `str(i)` holds no character other than digits and `-`. |
| Text.NatToStringValue | bin/ralph-format.py:102 | `str(n)` reads back as n. |
| Text.DropUnderscores | xdg-configs/kitty/tab_bar.py:164 | `int()` ignores underscores between digits. |
| Text.DropUnderscoresDigits | xdg-configs/kitty/tab_bar.py:164 | Digits with underscores are digits once these are dropped. |
| Text.PyIntRoundTrip | xdg-configs/kitty/tab_bar.py:164 | `int(str(i)) == i`. |
| TabTitle.SmartTitleFits | xdg-configs/kitty/tab_bar.py:70-72 | A title within `max_title_length - 15` is unchanged. |
| TabTitle.SmartTitleLength | xdg-configs/kitty/tab_bar.py:71-78 | A longer title, with a budget of at least 1, is cut to exactly the budget and contains "…". |
| TabTitle.SmartTitleKeepsEnds | xdg-configs/kitty/tab_bar.py:74-76 | With a budget above 10, the result is the first `mid = M//2 - 2` characters, "…", and the last `M - mid - 1`. Both ends keep at least 3 characters. |
| TabTitle.SmartTitleShortBudget | xdg-configs/kitty/tab_bar.py:77-78 | With a budget of 1 to 10, the result is the first `M-1` characters and "…". |
| TabTitle.SmartTitleNoBudget | xdg-configs/kitty/tab_bar.py:77-78 | With no budget, the negative slice still applies: `title[:M-1]` and "…". |
| TabTitle.SmartTitleNeverLonger | xdg-configs/kitty/tab_bar.py:70-78 | Truncation never lengthens a title, except that an empty title can become "…". |
| TabTitle.Rank | xdg-configs/kitty/tab_bar.py:84-108 | Every icon has its position in the keyword table, and the default icon comes last. |
| TabTitle.IconIsFirstMatch | xdg-configs/kitty/tab_bar.py:81-108 | The icon belongs to the first keyword group that occurs in the lowered title, and no earlier group occurs. Otherwise it is the default. |
| TabTitle.RedundantKeywords | xdg-configs/kitty/tab_bar.py:85-95 | "neovim", "lazygit", "python3" and "docker-compose" can never decide a match their shorter keyword would not. |
| TabTitle.RemoteBeforeShell | xdg-configs/kitty/tab_bar.py:89-103 | A title with "ssh" also contains "sh", yet gets the remote icon unless an editor or git keyword comes first. |
| TabTitle.IconText | xdg-configs/kitty/tab_bar.py:81-108 | Every icon glyph is a one-character string. |
| TabTitle.TabLabelLayout | xdg-configs/kitty/tab_bar.py:63-116 | The label is `" {icon} {index+1}:{title}"` followed by a tail. The tail starts with ` [n]` exactly when there are 2 or more windows, holds the bell only with activity, and always ends in a space. |
| TabTitle.LabelTailShape | xdg-configs/kitty/tab_bar.py:63-116 | The tail after the title has length `3 + len(str(n))` for the window count when there are 2 or more windows, plus 1 for the bell, plus 1. It starts with ` [` exactly when there are 2 or more windows, and it ends in a space. |
| TabTitle.TabNumberRoundTrip | xdg-configs/kitty/tab_bar.py:111 | The tab number reads back from the label as `index + 1`. |
| TabTitle.NumberBeforeColon | xdg-configs/kitty/tab_bar.py:111 | A number before the first colon reads back. |
| Battery.LevelIconBands | xdg-configs/kitty/tab_bar.py:165-176 | Charging overrides the level. Otherwise each icon covers exactly its band: >80, (60,80], (40,60], (20,40], ≤20. |
| Battery.LevelIconMonotone | xdg-configs/kitty/tab_bar.py:167-176 | A fuller battery never shows an emptier icon. |
| Battery.BatteryIconText | xdg-configs/kitty/tab_bar.py:165-176 | Each battery icon glyph is a one-character string. |
| Battery.BatteryTextShape | xdg-configs/kitty/tab_bar.py:178-184 | The battery text is empty exactly when there is no reading. Otherwise it is the icon, a space, the percentage and `%`. |
| Battery.NoBattery | xdg-configs/kitty/tab_bar.py:149-184 | A failed run, a non-zero exit, a missing second line or a line without `%` all give an empty battery text. |
| Battery.ReadWellFormed | xdg-configs/kitty/tab_bar.py:157-164 | On output whose second line reads `… <level>%…`, the reading is that level as printed. It is charging exactly when the line mentions AC Power. |
| Battery.ReadLineOf | xdg-configs/kitty/tab_bar.py:159-164 | The last word before the first `%` is the percentage. |
| Battery.SecondLine | xdg-configs/kitty/tab_bar.py:158 | `split('\n')[1]` is the second line. |
| Battery.FirstPiece | xdg-configs/kitty/tab_bar.py:160 | `split('%')[0]` is what precedes the first `%`. |
| Battery.TwoDigits | xdg-configs/kitty/tab_bar.py:145-146 | `%H`, `%M` and `%d` write two digits that read back as the number. |
| Battery.WeekdayName | xdg-configs/kitty/tab_bar.py:146 | `%a` is three letters. |
| Battery.ClockTexts | xdg-configs/kitty/tab_bar.py:144-146 | `%H:%M` is 5 characters and `%a %d` is 6, and the hour, minute and day read back. |
| TabBar.Screen.constructor | xdg-configs/kitty/tab_bar.py:14-28 | A screen with its cursor and nothing drawn. |
| TabBar.Screen.Draw | xdg-configs/kitty/tab_bar.py:119 | `screen.draw` appends the text in the cursor's colours and advances `x` by its length. |
| TabBar.WidthAppend | xdg-configs/kitty/tab_bar.py:119-125 | Widths add up. |
| TabBar.TabCellsShape | xdg-configs/kitty/tab_bar.py:27-131 | The left separator comes only for `index > 0` and the right one only when not last, both in the tab's background over the original one. The label is drawn in the tab's colours. |
| TabBar.SmallNumber | xdg-configs/kitty/tab_bar.py:67-111 | Numbers below 100 take at most two digits. |
| TabBar.TabFitsBudget | xdg-configs/kitty/tab_bar.py:69-116 | For fewer than 99 tabs and 100 windows, the label fits in `max_title_length`; the 15 columns reserved cover the decorations. |
| TabBar.DrawTab | xdg-configs/kitty/tab_bar.py:14-131 | `draw_tab` draws exactly the tab's cells and restores the cursor's `fg` and `bg`. It returns the new `x`. |
| TabBar.DrawLeftSeparator | xdg-configs/kitty/tab_bar.py:55-60 | The left separator is drawn in the tab's background over the original one; the cursor then returns to the tab's colours. |
| TabBar.DrawRightSeparator | xdg-configs/kitty/tab_bar.py:121-125 | The right separator is drawn in the tab's background over the original one, and `x` advances by its width. |
| TabBar.Components | xdg-configs/kitty/tab_bar.py:186-193 | The battery (only when there is one), then the date, then the time, each in its colour. |
| TabBar.ComponentCellsLayout | xdg-configs/kitty/tab_bar.py:203-211 | The components appear in order, each in its colour, with a `│` in the dim colour between each two: count − 1 separators. |
| TabBar.ComponentWidth | xdg-configs/kitty/tab_bar.py:195-211 | The components with their separators have exactly `total_length` columns. |
| TabBar.StatusCellsWidth | xdg-configs/kitty/tab_bar.py:195-214 | Padding of `max(0, columns - x - total_length - 2)`, the components, then one final space. |
| TabBar.RightAligned | xdg-configs/kitty/tab_bar.py:195-216 | When the status fits, it ends one column before the right edge. Otherwise it follows the tab directly. |
| TabBar.StatusLength | xdg-configs/kitty/tab_bar.py:186-196 | `total_length` is 14 without a battery, and 14 plus the percentage's length plus 4 with one. |
| TabBar.DrawRightStatus | xdg-configs/kitty/tab_bar.py:134-216 | Draws nothing unless `is_last`. Otherwise draws exactly the right status and leaves `fg` in the time's colour. |
| TabBar.DrawStatus | xdg-configs/kitty/tab_bar.py:195-214 | Padding, components and the final space, `bg` untouched. |
| TabBar.DrawComponents | xdg-configs/kitty/tab_bar.py:203-211 | The component loop draws the components and their separators. |
| TabBar.DrawComponent | xdg-configs/kitty/tab_bar.py:204-211 | One step of the loop draws the `│` separator in the dim colour when it is not the first component, then the text in its own colour. It moves the cursor by their width and keeps the background. |
| TabBar.WidthOne | xdg-configs/kitty/tab_bar.py:119-125 | A single cell is as wide as its text. |
| TabBar.DrawTabWithPowerlineSeparator | xdg-configs/kitty/tab_bar.py:220-241 | Returns `draw_tab`'s end, and draws the right status after the tab only for the last tab. |

## Left out

- Terminal control is not modelled: the escape sequences for cursor, scroll
  region and clearing, `setup_scroll_region`, `cleanup`, `atexit` and
  flushing. Output is a sequence of printed texts and drawn blocks of numbered
  rows.
- The banner (bin/ralph-format.py:260-266) is not modelled, because it reads
  the environment (`RALPH_MODE` and the other variables). The loop model
  starts after it.
- `os.get_terminal_size` is replaced by a height and width given as
  parameters. The fallback to 24 rows and a failing width lookup are not modelled.
- The external programs are parameters whose output is given. This covers
  `glow` (`render_markdown`), `delta` (the `Popen` half of `show_diff`) and
  `pmset` (one result per tab-bar draw). How they are started, and their
  timeouts, are not modelled.
- Time is given, not read. The elapsed seconds are one value per input line.
  The local time is a `Clock` value. `strftime` is modelled for the C locale.
- `json.loads` is not modelled: each input line comes with its decoded value,
  or none for a decode error. JSON floats are not represented, so
  `total_cost` is a whole number of ten-thousandths, which is always 0.
- Events.UsageSum: in Python, adding two string counts or two list counts
  concatenates them instead of raising. The model treats every count other
  than a number or a boolean as raising.
- Text.Lower: lower-cases ASCII letters only, where Python's `str.lower`
  covers all of Unicode (the Kelvin sign, for instance, lowers to `k`).
- Text.PyInt: reads ASCII digits only. Python's `int()` also accepts other
  Unicode digits.
- Display width is not modelled: every character is one column. The
  Nerd-Font glyphs for icons, battery and bell appear in the source as a
  single space, and the powerline separators as empty strings. The model
  draws exactly those.
- Colours are opaque values: `as_rgb` and `color_as_int` act as the
  identity. `get_options()` is the theme given as a parameter.
- kitty's `Screen`: only the cursor's `fg`, `bg` and `x`, the column count and
  the drawn cells are modelled. Wrapping at the right edge is not.
- `rich` is imported and a console object created but never used
  (bin/ralph-format.py:19-24), so both are left out.
- JsonValue.ReprString: escapes non-printable characters only up to U+00FF, as
  `\xNN`. Above that, Python's `repr` also writes the characters that its
  Unicode tables call non-printable (U+200D, U+2028 and others) as `\uNNNN`
  or `\UNNNNNNNN`. The model passes those through unchanged, because the
  Unicode category tables are not modelled.
- JsonValue.Lookup: takes the first entry under a key. `json.loads` keeps the
  last one for a repeated key, so a `JObj` stands for a dict only when its
  keys are distinct.
- Exceptions that are not `Exception` subclasses, such as
  `KeyboardInterrupt`, are not modelled, nor is a decode error that is not a
  `JSONDecodeError`.

## Findings

| source | as written | input that shows it | evidently intended | confidence | as-written member | corrected member |
|---|---|---|---|---|---|---|
| bin/ralph-format.py:185-208 | `IGNORE_KEYS` lists `durationMs`, `numFiles`, `isImage` and `isTruncated`, but a key is looked up as `k.lower() in IGNORE_KEYS` | a result `{"durationMs": 12}` prints `durationMs: 12`, because `"durationms"` is not in the set | those four keys are hidden like the other listed keys | not executed | KeyValue.IsIgnoredKeyAsWritten, KeyValue.AsWrittenMissesDurationMs, KeyValue.ListedKeyShownAsWritten | KeyValue.IsIgnoredKey, KeyValue.IgnoredKeyCorrected, KeyValue.ListedKeyDict |
