# volante-console, modelled in Dafny

This project models the console plugin of the Volante hub in two versions and proves properties of the model.

The current plugin is `src/index.js`, modelled as module `VolanteConsole`. It does the following:
- It renders each `volante.log` event from the hub as one coloured line: a status glyph, an optional timestamp, a three-letter level tag, a fixed-width source column, then the message items joined by ", ".
- It drops events while it waits for typed input, while output is paused, when a field is missing or falsy (an empty `lvl` or `src` counts as missing), or when the level or content filter rejects them.
- It counts printed lines in its `numLines` stat.
- It reacts to single keypresses:
  - quit;
  - toggle timestamps or compact inspection;
  - print the wheel status;
  - pause;
  - ask for a new filter or for a statement to evaluate.
- It keeps an error flag from the hub's error count.
- It dumps per-spoke `STATS|…` lines.

The plugin object is the class `VolanteConsole.Plugin`. Its fields are:
- the plugin's props;
- its `data()`;
- its `numLines` stat;
- the outstanding readline question;
- the shutdown and exit requests;
- the lines printed so far.

Each method is proved against a pure handler function over a `State` value:
- `RenderEvent`
- `OnLogEvent`
- `OnKeypress`
- `AnswerFilter`
- `AnswerEval`
- `CollectStats`

The properties of the plugin are lemmas about those functions. Several of them are stated over whole runs of inputs (`Run`).

The older plugin is `index.js`, modelled as module `ConsoleLogger`. It is stateless: a level filter and a source filter decide whether a line is printed, and the line reads `[time | ]TAG | src | message`. Its `error` handler exits the process when `exitOnError` is set.

Two modules are shared:
- `JsText` models the JavaScript string built-ins the plugins use (`indexOf`, `padEnd`, `substring`, `join`).
- `Styling` models `colorz` and the two level tables.

Calls into code outside the plugin are fields of a `Host` value passed to each operation. These are:
- `JSON.stringify`
- `RegExp.prototype.test` and `String.prototype.match`
- `util.inspect`
- `Date.prototype.toISOString`
- `eval`
- the string form of a value in a template literal (`text`) and what `console.log` shows for a value that is not a string (`logged`)
- `util.inspect` of a hub status snapshot (`inspectStatus`)
- chalk
- `$hub.getStatus()`, which is an input (`HubStatus`).

## Behaviour worth knowing

- An `error` event with `exitOnError` ends the process with `process.exit(1)` (src/index.js:129), whether or not the event was printed. The prop's comment at src/index.js:15 speaks of triggering `$shutdown`, but the handler calls `process.exit`. A filtered-out error event also exits (`VolanteConsole.OnLogEvent`, `ConsoleLogger.FilteredErrorStillExits`).
- A truthy content filter that is neither a string nor a RegExp rejects every event. `checkFilter` returns undefined in that case.
- `statsDumpFrom` may be an array of names or a single string, and `indexOf` means different things for the two. On an array it tests membership. On a string it searches for a substring, so `'install'` dumps every spoke (it contains `all`) and `'Worker1'` also dumps a spoke named `Worker` (`VolanteConsole.SingleNameIsSearched`).
- An undefined message item is shown as the empty string in monochrome mode and as `undefined` in colour. `colorz` hands undefined back unchanged in monochrome mode, and `join` writes it as the empty string.
- A keypress without a key object throws. Node's readline reports a single unnamed character such as `.` or `/` with `key` undefined, and while the plugin is idle, the first test at src/index.js:66 reads `key.ctrl` of undefined. The TypeError escapes the listener, and nothing in the plugin catches it.
- A statement that throws prints the error in red in colour mode. In monochrome mode the error object itself goes to `console.log`, not its string form.
- The stats timer is not replaced when the props change. The handle returned by `setInterval` is never stored.
- A filter answer that is not a valid pattern makes `new RegExp` throw inside the readline callback. See "Left out".

## Model

| member | source | states |
|---|---|---|
| JsText.IndexOf | src/index.js:316 | `indexOf` is the first index at which the needle occurs, or -1 exactly when it occurs nowhere |
| JsText.ContainsIff | src/index.js:316 | `indexOf(t) > -1` holds exactly when `t` occurs somewhere in the string |
| JsText.ContainsEmpty | src/index.js:316 | the empty string is contained in every string |
| JsText.PadEnd | src/index.js:204 | `padEnd(n)` keeps the string as its prefix, pads with spaces to length `n`, and never shortens |
| JsText.Prefix | src/index.js:204 | `substring(0, n)` is a prefix of length `n` clamped to `0 .. length` |
| JsText.Column | src/index.js:204 | the source column is exactly `srcLen` characters (none if negative): the source truncated, then spaces |
| JsText.Join | src/index.js:219 | the empty list joins to the empty string; otherwise the length is the items' total plus one separator between each pair of neighbours, the first item opens the result and the last one closes it |
| Styling.Colorz | src/index.js:142-171 | in monochrome mode or for an unknown style the text is returned as is; otherwise it is the style's `ESC[…m` prefix, the text, then `ESC[0m` |
| Styling.StyleCodesDistinct | src/index.js:146-166 | the ten known styles have pairwise different SGR codes |
| Styling.ColorzSeparatesStyles | src/index.js:146-166 | colouring the same text with two different known styles gives different strings |
| Styling.Canonical | src/index.js:235-237 | an unknown level becomes `log`; a known one is kept |
| Styling.LevelTag | src/index.js:225-239 | every tag has three letters, and it is LOG exactly for `log` and unknown levels |
| Styling.TagRoundTrip | src/index.js:225-239 | the tag determines the level once unknown levels are read as `log` |
| Styling.LevelStyle | src/index.js:243-257 | debug is cyan, error bg.red, warning yellow, ready bg.green, and `log` or any unknown level green; every one is a style `colorz` knows |
| Styling.LevelTablesAgree | src/index.js:225-257 | two levels share a tag exactly when they share a colour, exactly when they are the same level after the fallback |
| Styling.RenderColor | src/index.js:243-257 | text is left alone in monochrome mode, and otherwise always wrapped in its level's escape sequence |
| VolanteConsole.CheckFilter | src/index.js:304-323 | with a level set, another level is rejected; otherwise a falsy filter passes, a string passes iff the JSON form contains it, a RegExp iff it matches, and any other value rejects |
| VolanteConsole.Glyph | src/index.js:187-195 | a check mark when no error is flagged; otherwise a cross, left plain for an error event or in monochrome mode and coloured red for every other level |
| VolanteConsole.RenderItem | src/index.js:207-217 | objects go through the inspector with colours off exactly in monochrome mode; a scalar is shown as is in monochrome mode and wrapped in its level's escape sequence otherwise; undefined shows as the empty string in monochrome mode and as `undefined` in the level colour otherwise |
| VolanteConsole.LogLine | src/index.js:219 | in monochrome mode the line is the header followed by the joined items; in colour only the header is wrapped in the level's escape sequence, and the items follow the reset |
| VolanteConsole.GlyphShowsErrorFlag | src/index.js:187-195 | the errored glyph differs from the healthy one in every mode and level |
| VolanteConsole.RenderEvent | src/index.js:175-221 | at most one line; exactly one iff not waiting, not paused, all fields present and the filter passes; `numLines` grows by the lines printed; nothing else changes |
| VolanteConsole.MonochromeLayout | src/index.js:186-219 | a monochrome line reads glyph, bar, the optional time and spaced bar, tag, bar, the `srcLen`-wide source, bar, then the items joined by ", " |
| VolanteConsole.ErrorLineText | src/index.js:202-219 | after the glyph, an error event from Worker1 with the item "boom" reads bar, ERR, bar, `Worker1` padded to ten characters, bar, boom |
| VolanteConsole.ErrorEventScenario | src/index.js:175-220 | an idle unfiltered monochrome console prints an `error` event from Worker1 as the glyph, then bar, ERR, bar, `Worker1` padded to ten, bar, boom |
| VolanteConsole.LevelFilterScenario | src/index.js:306-310 | with the level set to `error`, a `log` event prints nothing and an `error` event one line |
| VolanteConsole.CheckForErrors | src/index.js:327-330 | the error flag becomes exactly "the hub counts an error"; nothing else changes |
| VolanteConsole.OnLogEvent | src/index.js:121-131 | error and ready events refresh the flag before rendering, others leave it; the lines are those of `render`; exit is requested iff the event is an error and `exitOnError`, printed or not |
| VolanteConsole.Dispatch | src/index.js:66-112 | quit iff ctrl-c or q; timestamps iff t; compact iff plain c; status iff s; pause iff p; a filter question iff f; a statement question iff e with eval allowed; nothing for every other key |
| VolanteConsole.Perform | src/index.js:66-111 | q quits; t and c flip only their own prop; s prints the status; p flips the pause and prints the magenta pausing notice only when pausing; e and f start waiting for their question |
| VolanteConsole.OnKeypress | src/index.js:63-114 | while waiting for input no key changes anything or prints; otherwise the dispatched command is performed |
| VolanteConsole.AnswerFilter | src/index.js:102-111 | a non-empty answer sets a case-insensitive pattern and prints `Filtering on` with the answer; an empty one clears the filter and prints `Continuing with no filtering`; the wait ends |
| VolanteConsole.EvalLine | src/index.js:86-96 | a value is inspected with colours off exactly in monochrome mode; a thrown error is printed in red in colour mode and handed to `console.log` as is in monochrome mode |
| VolanteConsole.AnswerEval | src/index.js:82-98 | a non-empty statement prints exactly its evaluation line, an empty one prints nothing; the wait ends; nothing else changes |
| VolanteConsole.OnAnswer | src/index.js:82-111 | an answer to the filter question runs the filter callback and one to the statement question runs the eval callback, which leaves the props, filter included, alone; either ends the wait; with no question it does nothing |
| VolanteConsole.EmptyFilterAnswerClears | src/index.js:107-109 | an empty filter answer sets no filter, so afterwards only the level check decides |
| VolanteConsole.NewFilterApplies | src/index.js:104 | after a non-empty filter answer, with the level filter at `any`, an event passes exactly when the case-insensitive pattern matches its JSON form |
| VolanteConsole.NamedAppend | src/index.js:283-287 | the named spokes of a concatenation are those of each part, in order |
| VolanteConsole.SelectedCount | src/index.js:277-288 | a spoke is dumped as often as it occurs in the wheel when `all` or its name is listed, never otherwise |
| VolanteConsole.SelectedAppend | src/index.js:277-288 | selection keeps wheel order |
| VolanteConsole.SingleNameIsSearched | src/index.js:277-287 | a single-string `statsDumpFrom` is searched for substrings: `install` selects every spoke, and `Worker1` mentions `Worker` and the empty name, which the array `['Worker1']` does not |
| VolanteConsole.StatsLine | src/index.js:299 | a STATS line starts with STATS and a bar, and is 17 characters longer than its name column, status and joined pairs together |
| VolanteConsole.StatsLineLayout | src/index.js:299 | a STATS line splits back into STATS and a bar, the `srcLen`-wide name, a bar and `status: `, the status, a comma and space, and the joined `k:v` pairs |
| VolanteConsole.CollectStats | src/index.js:273-290 | nothing while waiting for input; otherwise exactly one STATS line per selected spoke, in wheel order, where `all` or the spoke's name must be in the array or, for a single string, occur in it |
| VolanteConsole.NamedNothing | src/index.js:283-287 | when no spoke's name is mentioned, the named loop selects nothing |
| VolanteConsole.DefaultsFilterNothingDumpNothing | src/index.js:10-22 | with the declared defaults the content and level filters pass every event and no stats are dumped |
| VolanteConsole.StatsAllScenario | src/index.js:277-281 | while not waiting for input, with `all` listed every spoke gets exactly one line, in wheel order |
| VolanteConsole.GetName | src/index.js:334-339 | empty exactly for the default hub name; otherwise the name followed by " - " |
| VolanteConsole.PerformKeeps | src/index.js:66-111 | no keypress command touches the line counter, the error flag or the exit request |
| VolanteConsole.LogEventModest | src/index.js:121-131 | a log event adds at most one line to the counter and, while waiting, prints nothing and changes nothing but the flags |
| VolanteConsole.KeypressModest | src/index.js:63-114 | a keypress keeps the wait tied to its question and, while waiting, changes nothing |
| VolanteConsole.StepFacts | src/index.js:121-131 | every input keeps the counter bound, the flag rule, the wait invariant and the suppression while waiting |
| VolanteConsole.WaitingSuppressesOutput | src/index.js:65 | until a question is answered, no input prints anything or changes anything but the error flag and the exit request |
| VolanteConsole.ErrorFlagOnlyFromPolls | src/index.js:123-125 | over a run without polls or error/ready events the error flag never changes |
| VolanteConsole.LineCounterBound | src/index.js:185 | over any run `numLines` never decreases and grows by at most one per input |
| VolanteConsole.RunKeepsValid | src/index.js:80-110 | over any run `waitForInput` is set exactly while a question is outstanding |
| VolanteConsole.TimestampToggleTwice | src/index.js:68-69 | pressing t twice while idle prints nothing and restores the state |
| VolanteConsole.Plugin.constructor | src/index.js:133-140 | a new plugin holds its props, idle data, a zero counter and no outstanding question |
| VolanteConsole.Plugin.RenderHeader | src/index.js:186-204 | the header built with `+=` is the glyph, a bar, the optional time, the tag and the source column |
| VolanteConsole.Plugin.RenderContents | src/index.js:206-218 | the content loop builds exactly the rendered items, in order: objects inspected, scalars and undefined coloured by level (undefined left empty in monochrome mode) |
| VolanteConsole.Plugin.Admits | src/index.js:177-184 | the gate of `render` is exactly the acceptance condition |
| VolanteConsole.Plugin.Render | src/index.js:175-221 | the new state and printed lines are those of `RenderEvent` |
| VolanteConsole.Plugin.CheckErrors | src/index.js:327-330 | the new state is that of `CheckForErrors` |
| VolanteConsole.Plugin.OnLog | src/index.js:121-131 | the new state and printed lines are those of `OnLogEvent` |
| VolanteConsole.Plugin.Keypress | src/index.js:63-114 | the new state and printed lines are those of `OnKeypress` |
| VolanteConsole.Plugin.FilterAnswered | src/index.js:102-111 | the new state and printed lines are those of `AnswerFilter` |
| VolanteConsole.Plugin.EvalAnswered | src/index.js:82-98 | the new state and printed lines are those of `AnswerEval` |
| VolanteConsole.Plugin.FormatStats | src/index.js:294-300 | the `k:v` loop builds exactly the STATS line of the spoke |
| VolanteConsole.Plugin.RenderAllStats | src/index.js:279-281 | every spoke's STATS line is printed, in wheel order |
| VolanteConsole.Plugin.RenderIfNamed | src/index.js:284-286 | one pass of the named loop prints the spoke's STATS line exactly when `statsDumpFrom` mentions its name, and nothing otherwise |
| VolanteConsole.Plugin.RenderNamedStats | src/index.js:283-287 | the STATS lines of the listed spokes are printed, in wheel order |
| VolanteConsole.Plugin.CollectStatsNow | src/index.js:273-290 | the printed lines are those of `CollectStats` |
| ConsoleLogger.CheckFilters | index.js:77-99 | another level is rejected; a RegExp filter throws iff the level passes and `src` is missing; a non-empty string passes iff it equals `src`; a RegExp iff it matches; no filter, the empty string or another value pass |
| ConsoleLogger.SourceFilterNarrows | index.js:84-97 | whatever passes with a source filter passes the level check and passes with no source filter |
| ConsoleLogger.DefaultsAdmitAll | index.js:29-35 | with the declared defaults every event passes |
| ConsoleLogger.Tag | index.js:62-72 | DBG iff debug, ERR iff error, LOG for everything else |
| ConsoleLogger.TagColourAgree | index.js:62-72 | two levels share a tag exactly when they share a chalk colour |
| ConsoleLogger.TagsAgreeWithNewer | index.js:62-72 | tags agree with the newer plugin's except for warning and ready, which are LOG here |
| ConsoleLogger.RenderLevel | index.js:62-72 | debug is DBG in cyan, error is ERR in red, and every other level, missing included, is LOG in green |
| ConsoleLogger.SrcText | index.js:48 | a missing source is written "undefined" |
| ConsoleLogger.MessageText | index.js:50-54 | an object or array is JSON when `stringify` is set and its string form otherwise; null reads `null`, a missing message `undefined`, and a primitive its own text |
| ConsoleLogger.StringifyOnlyObjects | index.js:50-54 | `stringify` changes only how objects and arrays are shown: JSON when set, their string form otherwise |
| ConsoleLogger.Line | index.js:43-54 | the line is six characters longer than its stamp, tag, source and message together; without timestamps it starts with the tag; it always ends with the message |
| ConsoleLogger.LineLayout | index.js:43-54 | the line splits back into stamp, tag, spaced bar, source, spaced bar and message |
| ConsoleLogger.TimestampOnlyPrefixes | index.js:44-47 | turning timestamps on only prefixes the coloured time and a spaced bar |
| ConsoleLogger.Render | index.js:40-57 | at most one line, exactly one iff the filters pass; a TypeError from the filters propagates |
| ConsoleLogger.OnEvent | index.js:17-28 | every handler renders; it exits iff it is the error handler and `exitOnError` is set, unless rendering threw |
| ConsoleLogger.FilteredErrorStillExits | index.js:24-27 | a filtered-out error event prints nothing but still exits with `exitOnError` |
| ConsoleLogger.SourcelessErrorNeverExits | index.js:92-95 | an error event without `src` under a RegExp filter throws before the exit is reached |
| ConsoleLogger.ExitOnlyOnError | index.js:24-27 | only the error handler with `exitOnError` ever exits |

## Left out

- Timers: `updated()`, `setInterval`, `clearInterval` and the 5-second error poll are left out. A tick is an input of a run (`StatsTick`, `ErrorTick`). The stats timer is never stored in `statsIntervalHandle`, so its clear never fires and repeated updates stack timers; the model makes no claim about timers.
- The start-up banner of `init()` in both versions, the readline and raw-mode setup, `clearLine` and the question prompts: I/O only.
- The `unhandledRejection` handler and the `catchUnhandled` prop: they only print.
- `$ready` and the hub's `version` and `name` lookups: the name is the input of `GetName`.
- `util.inspect`, `JSON.stringify`, `RegExp.prototype.test`, `String.prototype.match`, `Date.prototype.toISOString`, chalk and `eval`: opaque `Host` functions. Their output is not specified, and none of them is modelled as throwing (for example JSON of a cyclic object).
- `eval` runs arbitrary code with the plugin as `this`, and may change any field. The model only keeps its printed result and the end of the wait.
- `new RegExp(ans, 'i')` on an answer that is not a valid pattern throws inside the readline callback, which the plugin does not catch. `VolanteConsole.AnswerFilter` assumes every non-empty answer compiles.
- A null event object, a `msg` that is not an array, an `lvl` or `src` that is not a string, and a `ts` that is not a Date: events are typed records here.
- The `console.warn` that `colorz` prints for an unknown style: only its returned text is modelled.
- `process.exit(1)` and `$shutdown()` are recorded as flags (`exitRequested`, `shutdownRequested`). After an exit a run ignores further inputs.
- JavaScript strings are UTF-16; the model counts characters, which differs only for characters outside the basic plane.
- `statusCounts.error` is modelled as an integer (`HubStatus.errorCount`).
- The RegExp flags of a user-supplied filter: only matching is modelled, via the `Host`. A filter with the `g` or `y` flag makes `test` (src/index.js:318) advance its `lastIndex`, so the same event can pass once and fail the next time; the pure `Host.test` cannot express that.
- `example/example.js`, a sample event producer, is not part of the plugin.
- VolanteConsole.OnKeypress: every key is a `Key` record with a name, so a keypress whose `key` is undefined (a single unnamed character) is modelled as ignored. The source throws a TypeError at src/index.js:66 instead, because the model has no uncaught-exception outcome for the keypress listener, and readline's key parsing is not part of this model.
