/**
 * The VolanteConsole plugin (src/index.js): it renders `volante.log` events
 * from the hub as one coloured line each, filters them by level and content,
 * reacts to single keypresses (timestamps, compact inspection, pause, a new
 * filter, an ad-hoc statement), tracks whether any spoke of the wheel is in
 * error, and periodically dumps per-spoke statistics.
 *
 * The plugin object is the class `Plugin`, whose fields are the plugin's
 * `props`, its `data()` and its `numLines` stat; its methods are proved
 * against the pure handler functions below (RenderEvent, OnLogEvent,
 * OnKeypress, AnswerFilter, AnswerEval, CollectStats), about which the
 * properties of the plugin are proved. Library calls the plugin makes
 * (JSON.stringify, RegExp.test, util.inspect, Date.toISOString, eval) are
 * the fields of a `Host` value.
 */
module VolanteConsole {
  import opened JsText
  import opened Styling

  /**
   * One element of an event's `msg` array: undefined, another scalar shown by
   * its string form, or a value of typeof 'object' (objects, arrays, null).
   */
  datatype Item = Undefined | Scalar(text: string) | Structured(handle: nat)

  /** A `volante.log` event; a property the event object lacks is None. */
  datatype Event = Event(lvl: Option<string>, ts: Option<Timestamp>, src: Option<string>, msg: Option<seq<Item>>)

  /** The `filter` prop: a falsy value, a string, a RegExp, or any other truthy value. */
  datatype Filter = NoFilter | Text(text: string) | Pattern(re: Regex) | OtherValue

  /** A spoke in a hub status snapshot: its name, `status.status` and its stats entries (values in their string form). */
  datatype Spoke = Spoke(name: string, status: string, stats: seq<(string, string)>)

  /** `$hub.getStatus()`: `statusCounts.error` and the spokes, in wheel order. */
  datatype HubStatus = HubStatus(errorCount: int, spokes: seq<Spoke>)

  /** A readline keypress: `key.name` and `key.ctrl`. */
  datatype Key = Key(name: string, ctrl: bool)

  /** The readline question whose answer callback is outstanding, if any. */
  datatype Prompt = NoPrompt | FilterPrompt | EvalPrompt

  /** What `eval` of a statement does: yields a value, or throws one. */
  datatype Evaluation = Value(handle: nat) | Thrown(error: nat)

  /** The library calls the plugin makes, which are outside this model. */
  datatype Host = Host(
    stringify: Event -> string,           // JSON.stringify(obj)
    test: (Regex, string) -> bool,        // RegExp.prototype.test
    inspect: (nat, bool, bool) -> string, // util.inspect(value, {colors, compact}), unlimited depth, one line
    inspectStatus: HubStatus -> string,   // util.inspect of a status snapshot, coloured and expanded
    iso: Timestamp -> string,             // Date.prototype.toISOString
    evaluate: string -> Evaluation,       // eval(statement)
    text: nat -> string,                  // String(value), as a template literal writes it
    logged: nat -> string)                // console.log of a value that is not a string

  /** The `statsDumpFrom` prop: an array of spoke names, or a single string. */
  datatype DumpFrom = Names(names: seq<string>) | Single(text: string)

  /** The plugin's `props`. */
  datatype Props = Props(
    timestamp: bool, compact: bool, level: string, filter: Filter, exitOnError: bool, srcLen: int,
    statsDumpInterval: int, statsDumpFrom: DumpFrom, monochrome: bool, allowEval: bool, catchUnhandled: bool)

  /** The defaults the plugin declares for its props. */
  const DefaultProps: Props := Props(false, true, "any", NoFilter, false, 16, 2000, Names([]), false, true, true)

  /** What `data()` returns, less the stats timer handle. */
  datatype Data = Data(waitForInput: bool, pauseOutput: bool, isErrored: bool)

  /**
   * The plugin object: its props, its data, its `numLines` stat, the readline
   * question it is waiting on, and whether it has called `$shutdown()` or
   * `process.exit(1)`.
   */
  datatype State = State(
    props: Props, data: Data, numLines: nat, pending: Prompt, shutdownRequested: bool, exitRequested: bool)

  /** The state after a handler ran, and the lines it printed with console.log, in order. */
  datatype Effect = Effect(state: State, lines: seq<string>)

  function Initial(p: Props): State
  {
    State(p, Data(false, false, false), 0, NoPrompt, false, false)
  }

  /** `waitForInput` is set exactly while a readline question is outstanding. */
  predicate Valid(s: State)
  {
    s.data.waitForInput <==> s.pending != NoPrompt
  }

  // ---------------------------------------------------------------- filtering

  predicate FilterTruthy(f: Filter)
  {
    match f
    case NoFilter => false
    case Text(t) => t != ""
    case Pattern(_) => true
    case OtherValue => true
  }

  /**
   * `checkFilter(obj)`: the level filter, then the content filter over the
   * JSON form of the event. A filter that is neither a string nor a RegExp
   * makes the source return undefined, which rejects.
   */
  function CheckFilter(level: string, filter: Filter, obj: Event, host: Host): (r: bool)
    ensures level != "any" && obj.lvl != Some(level) ==> !r
    ensures level == "any" || obj.lvl == Some(level) ==>
      (filter.NoFilter? ==> r) &&
      (filter.Text? ==> (r <==> Contains(host.stringify(obj), filter.text))) &&
      (filter.Pattern? ==> (r <==> host.test(filter.re, host.stringify(obj)))) &&
      (filter.OtherValue? ==> !r)
  {
    if level != "any" && obj.lvl != Some(level) then false
    else if FilterTruthy(filter) then
      var stringified := host.stringify(obj);
      match filter
      case Text(t) => Contains(stringified, t)
      case Pattern(re) => host.test(re, stringified)
      case _ => false
    else
      ContainsEmpty(host.stringify(obj));
      true
  }

  /** The gate of `render`: not waiting for input, not paused, every field present, and the filter passes. */
  predicate Accepts(s: State, obj: Event, host: Host)
  {
    !s.data.waitForInput && !s.data.pauseOutput && Truthy(obj.lvl) &&
    CheckFilter(s.props.level, s.props.filter, obj, host) &&
    obj.ts.Some? && Truthy(obj.src) && obj.msg.Some?
  }

  // ---------------------------------------------------------------- line layout

  /** The status glyphs, as the characters the source file holds (UTF-8 bytes of a cross and a check mark read as Windows-1252). */
  const CrossGlyph: string := "\U{f0}\U{201e}\U{201a}"
  const CheckGlyph: string := "\U{e2}\U{153}\U{201c}"

  /** The first header column: a check mark while no spoke is in error, else a cross (red unless the event is itself an error). */
  function Glyph(isErrored: bool, monochrome: bool, lvl: string): (r: string)
    ensures !isErrored ==> r == CheckGlyph
    ensures isErrored && (lvl == "error" || monochrome) ==> r == CrossGlyph
    ensures isErrored && lvl != "error" && !monochrome ==> r == Sgr("31") + CrossGlyph + Reset
  {
    if !isErrored then CheckGlyph
    else if lvl == "error" then CrossGlyph
    else Colorz(monochrome, CrossGlyph, "red")
  }

  /** The glyph always tells the errored and the healthy wheel apart. */
  lemma GlyphShowsErrorFlag(monochrome: bool, lvl: string, m2: bool, l2: string)
    ensures Glyph(true, monochrome, lvl) != Glyph(false, m2, l2)
  {
    var g := Glyph(true, monochrome, lvl);
    assert g[0] == CrossGlyph[0] || g[0] == Esc;
    assert CheckGlyph[0] != g[0];
  }

  /** glyph `|` [timestamp ` | `] tag `|` source column `|` */
  function Header(s: State, lvl: string, ts: Timestamp, src: string, host: Host): string
  {
    var lead := Glyph(s.data.isErrored, s.props.monochrome, lvl) + "|";
    var stamped := if s.props.timestamp then lead + Colorz(s.props.monochrome, host.iso(ts), "magenta") + " | " else lead;
    stamped + (LevelTag(lvl) + "|") + (Column(src, s.props.srcLen) + "|")
  }

  /**
   * One content item as the joined line shows it: objects through the
   * inspector (which colours them itself), scalars in the level colour. In
   * monochrome mode `colorz` hands undefined back unchanged, and `join`
   * writes it as the empty string.
   */
  function RenderItem(monochrome: bool, compact: bool, lvl: string, m: Item, host: Host): (r: string)
    ensures m.Structured? ==> r == host.inspect(m.handle, !monochrome, compact)
    ensures monochrome && m.Scalar? ==> r == m.text
    ensures monochrome && m.Undefined? ==> r == ""
    ensures !monochrome && !m.Structured? ==>
      var code := Sgr(StyleCode(LevelStyle(lvl)).value);
      r == code + (if m.Scalar? then m.text else "undefined") + Reset
  {
    match m
    case Structured(h) => host.inspect(h, !monochrome, compact)
    case Scalar(t) => RenderColor(monochrome, lvl, t)
    case Undefined => if monochrome then "" else RenderColor(monochrome, lvl, "undefined")
  }

  function Contents(monochrome: bool, compact: bool, lvl: string, ms: seq<Item>, host: Host): seq<string>
  {
    seq(|ms|, i requires 0 <= i < |ms| => RenderItem(monochrome, compact, lvl, ms[i], host))
  }

  lemma ContentsNext(monochrome: bool, compact: bool, lvl: string, ms: seq<Item>, i: int, host: Host)
    requires 0 <= i < |ms|
    ensures Contents(monochrome, compact, lvl, ms[..i + 1], host) ==
      Contents(monochrome, compact, lvl, ms[..i], host) + [RenderItem(monochrome, compact, lvl, ms[i], host)]
  {
  }

  /** The line `render` prints: the header in the level colour, then the content items joined by ", ". */
  function LogLine(s: State, obj: Event, host: Host): (r: string)
    requires obj.lvl.Some? && obj.ts.Some? && obj.src.Some? && obj.msg.Some?
    ensures var header := Header(s, obj.lvl.value, obj.ts.value, obj.src.value, host);
      var content := Join(Contents(s.props.monochrome, s.props.compact, obj.lvl.value, obj.msg.value, host), ", ");
      (s.props.monochrome ==> r == header + content) &&
      (!s.props.monochrome ==> r == Sgr(StyleCode(LevelStyle(obj.lvl.value)).value) + header + Reset + content)
  {
    var lvl := obj.lvl.value;
    RenderColor(s.props.monochrome, lvl, Header(s, lvl, obj.ts.value, obj.src.value, host))
    + Join(Contents(s.props.monochrome, s.props.compact, lvl, obj.msg.value, host), ", ")
  }

  /**
   * `render(obj)`: exactly one line, counted in `numLines`, when the gate
   * accepts the event; otherwise nothing at all. No other field changes.
   */
  function RenderEvent(s: State, obj: Event, host: Host): (e: Effect)
    ensures |e.lines| <= 1
    ensures |e.lines| == 1 <==> Accepts(s, obj, host)
    ensures e.state == s.(numLines := s.numLines + |e.lines|)
    ensures |e.lines| == 1 ==> e.lines[0] == LogLine(s, obj, host)
  {
    if Accepts(s, obj, host) then Effect(s.(numLines := s.numLines + 1), [LogLine(s, obj, host)])
    else Effect(s, [])
  }

  /**
   * In monochrome mode the line reads: glyph, `|`, the timestamp and ` | ` when
   * timestamps are on, the three-letter tag, `|`, the source column of exactly
   * `srcLen` characters, `|`, then the content items joined by ", ".
   */
  lemma MonochromeLayout(s: State, obj: Event, host: Host)
    requires s.props.monochrome && Accepts(s, obj, host)
    ensures var lvl := obj.lvl.value;
      var lead := Glyph(s.data.isErrored, true, lvl) + "|";
      RenderEvent(s, obj, host).lines ==
        [(if s.props.timestamp then lead + host.iso(obj.ts.value) + " | " else lead)
         + (LevelTag(lvl) + "|") + (Column(obj.src.value, s.props.srcLen) + "|")
         + Join(Contents(true, s.props.compact, lvl, obj.msg.value, host), ", ")]
  {
  }

  /** The text of the error scenario's line, once the header pieces are known. */
  lemma ErrorLineText(glyph: string, compact: bool, host: Host)
    ensures glyph + "|" + (LevelTag("error") + "|") + (Column("Worker1", 10) + "|")
      + Join(Contents(true, compact, "error", [Scalar("boom")], host), ", ") == glyph + "|" + "ERR|" + "Worker1   |" + "boom"
  {
    var col := Column("Worker1", 10);
    assert col == "Worker1   " by {
      assert |col| == 10;
      forall i | 0 <= i < 10 ensures col[i] == "Worker1   "[i] { }
    }
    assert col + "|" == "Worker1   |";
    assert LevelTag("error") + "|" == "ERR|";
    assert Contents(true, compact, "error", [Scalar("boom")], host) == ["boom"];
    assert Join(["boom"], ", ") == "boom";
  }

  /** The error scenario: an idle, unfiltered console prints `ERR`, the padded source and the message. */
  lemma ErrorEventScenario(s: State, ts: Timestamp, host: Host)
    requires !s.data.waitForInput && !s.data.pauseOutput && s.props.level == "any" && s.props.filter == NoFilter
    requires s.props.monochrome && !s.props.timestamp && s.props.srcLen == 10
    ensures RenderEvent(s, Event(Some("error"), Some(ts), Some("Worker1"), Some([Scalar("boom")])), host).lines
      == [Glyph(s.data.isErrored, true, "error") + "|" + "ERR|" + "Worker1   |" + "boom"]
  {
    var obj := Event(Some("error"), Some(ts), Some("Worker1"), Some([Scalar("boom")]));
    assert Accepts(s, obj, host);
    MonochromeLayout(s, obj, host);
    ErrorLineText(Glyph(s.data.isErrored, true, "error"), s.props.compact, host);
  }

  /** The level scenario: with the level filter at `error`, a `log` event is dropped and an `error` event printed. */
  lemma LevelFilterScenario(s: State, ts: Timestamp, src: string, msg: seq<Item>, host: Host)
    requires !s.data.waitForInput && !s.data.pauseOutput && s.props.level == "error" && s.props.filter == NoFilter
    requires src != ""
    ensures RenderEvent(s, Event(Some("log"), Some(ts), Some(src), Some(msg)), host).lines == []
    ensures |RenderEvent(s, Event(Some("error"), Some(ts), Some(src), Some(msg)), host).lines| == 1
  {
    assert Accepts(s, Event(Some("error"), Some(ts), Some(src), Some(msg)), host);
  }

  // ---------------------------------------------------------------- error flag and the log handler

  /** `checkForErrors()`: the flag is exactly "some spoke reports error"; nothing else changes. */
  function CheckForErrors(s: State, status: HubStatus): (r: State)
    ensures r.data.isErrored <==> status.errorCount > 0
    ensures r.(data := r.data.(isErrored := s.data.isErrored)) == s
  {
    s.(data := s.data.(isErrored := status.errorCount > 0))
  }

  predicate RefreshesFlag(obj: Event)
  {
    obj.lvl == Some("error") || obj.lvl == Some("ready")
  }

  /**
   * The `volante.log` handler: error and ready events refresh the error flag
   * first; then the event is rendered; an error event with `exitOnError`
   * ends the process with status 1, whether or not it was printed.
   */
  function OnLogEvent(s: State, obj: Event, status: HubStatus, host: Host): (e: Effect)
    ensures RefreshesFlag(obj) ==> (e.state.data.isErrored <==> status.errorCount > 0)
    ensures !RefreshesFlag(obj) ==> e.state.data == s.data
    ensures e.lines == RenderEvent(s.(data := e.state.data), obj, host).lines
    ensures e.state.exitRequested <==> s.exitRequested || (obj.lvl == Some("error") && s.props.exitOnError)
    ensures e.state.numLines == s.numLines + |e.lines|
    ensures e.state.(data := s.data, numLines := s.numLines, exitRequested := s.exitRequested) == s
    ensures e.state.data.(isErrored := s.data.isErrored) == s.data
  {
    var refreshed := if RefreshesFlag(obj) then CheckForErrors(s, status) else s;
    var r := RenderEvent(refreshed, obj, host);
    if obj.lvl == Some("error") && s.props.exitOnError then Effect(r.state.(exitRequested := true), r.lines)
    else r
  }

  // ---------------------------------------------------------------- keypresses

  predicate IsQuit(key: Key)
  {
    (key.ctrl && key.name == "c") || key.name == "q"
  }

  const PauseNotice: string := "Pausing, press p again to un-pause"

  /** What a keypress asks for, once the handler's chain of tests has picked one branch. */
  datatype Command = Quit | ToggleTimestamp | ToggleCompact | PrintStatus | TogglePause | AskStatement | AskFilter | Ignore

  /**
   * The branch of the keypress handler a key takes: ctrl-c and q quit
   * (ctrl-c before plain c), e asks for a statement only when evaluation
   * is allowed, and every other key is ignored.
   */
  function Dispatch(key: Key, allowEval: bool): (cmd: Command)
    ensures cmd == Quit <==> IsQuit(key)
    ensures cmd == ToggleCompact <==> key.name == "c" && !key.ctrl
    ensures cmd == AskStatement <==> key.name == "e" && allowEval
    ensures cmd == ToggleTimestamp <==> key.name == "t"
    ensures cmd == PrintStatus <==> key.name == "s"
    ensures cmd == TogglePause <==> key.name == "p"
    ensures cmd == AskFilter <==> key.name == "f"
    ensures cmd == Ignore <==> key.name !in {"q", "t", "c", "s", "p", "f"} && !(key.name == "e" && allowEval)
  {
    if IsQuit(key) then Quit
    else if key.name == "t" then ToggleTimestamp
    else if key.name == "c" then ToggleCompact
    else if key.name == "s" then PrintStatus
    else if key.name == "p" then TogglePause
    else if key.name == "e" && allowEval then AskStatement
    else if key.name == "f" then AskFilter
    else Ignore
  }

  /**
   * What each command does: quitting asks the hub to shut down, t and c flip
   * only their own prop, s prints the hub status, p flips the pause and
   * announces only the pause, not the resume, and the two questions start
   * waiting for input.
   */
  function Perform(s: State, cmd: Command, status: HubStatus, host: Host): (e: Effect)
    ensures cmd == Quit ==> e == Effect(s.(shutdownRequested := true), [])
    ensures cmd == ToggleTimestamp ==> e == Effect(s.(props := s.props.(timestamp := !s.props.timestamp)), [])
    ensures cmd == ToggleCompact ==> e == Effect(s.(props := s.props.(compact := !s.props.compact)), [])
    ensures cmd == PrintStatus ==> e == Effect(s, [host.inspectStatus(status)])
    ensures cmd == TogglePause ==>
      e.state == s.(data := s.data.(pauseOutput := !s.data.pauseOutput)) &&
      e.lines == if s.data.pauseOutput then [] else [Colorz(s.props.monochrome, PauseNotice, "bg.magenta")]
    ensures cmd == AskStatement ==> e == Effect(s.(data := s.data.(waitForInput := true), pending := EvalPrompt), [])
    ensures cmd == AskFilter ==> e == Effect(s.(data := s.data.(waitForInput := true), pending := FilterPrompt), [])
    ensures cmd == Ignore ==> e == Effect(s, [])
  {
    match cmd
    case Quit => Effect(s.(shutdownRequested := true), [])
    case ToggleTimestamp => Effect(s.(props := s.props.(timestamp := !s.props.timestamp)), [])
    case ToggleCompact => Effect(s.(props := s.props.(compact := !s.props.compact)), [])
    case PrintStatus => Effect(s, [host.inspectStatus(status)])
    case TogglePause =>
      Effect(s.(data := s.data.(pauseOutput := !s.data.pauseOutput)),
             if !s.data.pauseOutput then [Colorz(s.props.monochrome, PauseNotice, "bg.magenta")] else [])
    case AskStatement => Effect(s.(data := s.data.(waitForInput := true), pending := EvalPrompt), [])
    case AskFilter => Effect(s.(data := s.data.(waitForInput := true), pending := FilterPrompt), [])
    case Ignore => Effect(s, [])
  }

  /** The keypress handler: while a question is outstanding no key does anything. */
  function OnKeypress(s: State, key: Key, status: HubStatus, host: Host): (e: Effect)
    ensures s.data.waitForInput ==> e == Effect(s, [])
    ensures !s.data.waitForInput ==> e == Perform(s, Dispatch(key, s.props.allowEval), status, host)
  {
    if s.data.waitForInput then Effect(s, []) else Perform(s, Dispatch(key, s.props.allowEval), status, host)
  }

  /** The answer callback of the filter question: a case-insensitive pattern, or no filter for an empty answer, announced either way. */
  function AnswerFilter(s: State, ans: string): (e: Effect)
    ensures ans != "" ==> e.lines == [Colorz(s.props.monochrome, "Filtering on " + ans, "bg.magenta")]
    ensures ans == "" ==> e.lines == [Colorz(s.props.monochrome, "Continuing with no filtering", "bg.magenta")]
    ensures e.state == s.(props := s.props.(filter := if ans == "" then NoFilter else Pattern(Regex(ans, true))),
                          data := s.data.(waitForInput := false), pending := NoPrompt)
  {
    if |ans| > 0 then
      Effect(s.(props := s.props.(filter := Pattern(Regex(ans, true))),
                data := s.data.(waitForInput := false), pending := NoPrompt),
             [Colorz(s.props.monochrome, "Filtering on " + ans, "bg.magenta")])
    else
      Effect(s.(props := s.props.(filter := NoFilter), data := s.data.(waitForInput := false), pending := NoPrompt),
             [Colorz(s.props.monochrome, "Continuing with no filtering", "bg.magenta")])
  }

  /**
   * What the statement answer prints: the value, inspected in full and
   * expanded, or the thrown value's string form in red; in monochrome mode
   * `colorz` hands the thrown value back and console.log shows it as it
   * shows any value.
   */
  function EvalLine(monochrome: bool, ev: Evaluation, host: Host): (r: string)
    ensures ev.Value? ==> r == host.inspect(ev.handle, !monochrome, false)
    ensures ev.Thrown? && monochrome ==> r == host.logged(ev.error)
    ensures ev.Thrown? && !monochrome ==> r == Sgr("31") + host.text(ev.error) + Reset
  {
    match ev
    case Value(h) => host.inspect(h, !monochrome, false)
    case Thrown(e) => if monochrome then host.logged(e) else Colorz(monochrome, host.text(e), "red")
  }

  /** The answer callback of the statement question: the result of a non-empty statement is printed; nothing else changes but the wait. */
  function AnswerEval(s: State, ans: string, host: Host): (e: Effect)
    ensures ans != "" ==> e.lines == [EvalLine(s.props.monochrome, host.evaluate(ans), host)]
    ensures ans == "" ==> e.lines == []
    ensures e.state == s.(data := s.data.(waitForInput := false), pending := NoPrompt)
  {
    var printed := if |ans| > 0 then [EvalLine(s.props.monochrome, host.evaluate(ans), host)] else [];
    Effect(s.(data := s.data.(waitForInput := false), pending := NoPrompt), printed)
  }

  /**
   * A line typed at the terminal goes to the outstanding question's callback,
   * which always ends the wait; with no question outstanding it reaches nobody.
   */
  function OnAnswer(s: State, ans: string, host: Host): (e: Effect)
    ensures s.pending == NoPrompt ==> e == Effect(s, [])
    ensures s.pending != NoPrompt ==> !e.state.data.waitForInput && e.state.pending == NoPrompt
    ensures s.pending == FilterPrompt ==> e == AnswerFilter(s, ans)
    ensures s.pending == EvalPrompt ==> e == AnswerEval(s, ans, host)
    ensures s.pending == EvalPrompt ==> e.state.props == s.props
  {
    match s.pending
    case NoPrompt => Effect(s, [])
    case FilterPrompt => AnswerFilter(s, ans)
    case EvalPrompt => AnswerEval(s, ans, host)
  }

  /** A new filter typed at the prompt is applied to the next event: it passes exactly when the pattern matches its JSON form. */
  lemma NewFilterApplies(s: State, ans: string, obj: Event, host: Host)
    requires s.pending == FilterPrompt && ans != "" && s.props.level == "any"
    ensures var t := OnAnswer(s, ans, host).state;
      CheckFilter(t.props.level, t.props.filter, obj, host) <==> host.test(Regex(ans, true), host.stringify(obj))
  {
  }

  /** An empty filter answer clears the filter: afterwards the level check alone decides. */
  lemma EmptyFilterAnswerClears(s: State, obj: Event, host: Host)
    requires s.pending == FilterPrompt
    ensures var t := OnAnswer(s, "", host).state;
      t.props.filter == NoFilter &&
      (CheckFilter(t.props.level, t.props.filter, obj, host) <==> s.props.level == "any" || obj.lvl == Some(s.props.level))
  {
  }

  // ---------------------------------------------------------------- stats dump

  /** `statsDumpFrom.indexOf(name) > -1`: membership in an array, a substring search in a string. */
  predicate Mentions(from: DumpFrom, name: string)
  {
    match from
    case Names(names) => name in names
    case Single(text) => Contains(text, name)
  }

  /** The spokes whose names are listed, in wheel order. */
  function Named(from: DumpFrom, spokes: seq<Spoke>): seq<Spoke>
  {
    if spokes == [] then []
    else Named(from, spokes[..|spokes| - 1]) + (if Mentions(from, spokes[|spokes| - 1].name) then [spokes[|spokes| - 1]] else [])
  }

  lemma NamedNext(from: DumpFrom, spokes: seq<Spoke>, i: int)
    requires 0 <= i < |spokes|
    ensures Named(from, spokes[..i + 1]) == Named(from, spokes[..i]) + (if Mentions(from, spokes[i].name) then [spokes[i]] else [])
  {
    assert spokes[..i + 1][..i] == spokes[..i];
  }

  /**
   * A single string given as `statsDumpFrom` is searched, not compared: a
   * name containing "all" dumps every spoke, and a spoke is dumped whenever
   * its name is a piece of the string, the empty name included.
   */
  lemma SingleNameIsSearched(spokes: seq<Spoke>)
    ensures Selected(Single("install"), spokes) == spokes
    ensures Mentions(Single("Worker1"), "Worker") && Mentions(Single("Worker1"), "")
    ensures !Mentions(Names(["Worker1"]), "Worker") && !Mentions(Names(["Worker1"]), "")
  {
    assert OccursAt("install", "all", 4);
    assert OccursAt("Worker1", "Worker", 0);
    ContainsEmpty("Worker1");
  }

  /** The spokes `collectStats` dumps: all of them when 'all' is listed, else those named. */
  function Selected(from: DumpFrom, spokes: seq<Spoke>): seq<Spoke>
  {
    if Mentions(from, "all") then spokes else Named(from, spokes)
  }

  /** A spoke list none of whose names is mentioned selects nothing by name. */
  lemma {:induction false} NamedNothing(from: DumpFrom, spokes: seq<Spoke>)
    requires forall i :: 0 <= i < |spokes| ==> !Mentions(from, spokes[i].name)
    ensures Named(from, spokes) == []
  {
    if spokes != [] {
      NamedNothing(from, spokes[..|spokes| - 1]);
    }
  }

  predicate Chosen(from: DumpFrom, sp: Spoke)
  {
    Mentions(from, "all") || Mentions(from, sp.name)
  }

  lemma {:induction false} NamedAppend(from: DumpFrom, a: seq<Spoke>, b: seq<Spoke>)
    ensures Named(from, a + b) == Named(from, a) + Named(from, b)
    decreases |b|
  {
    if b == [] {
      assert a + b == a;
    } else {
      var b' := b[..|b| - 1];
      assert (a + b)[..|a + b| - 1] == a + b';
      NamedAppend(from, a, b');
    }
  }

  /**
   * Each spoke is dumped exactly as often as it appears in the wheel when it
   * is chosen, and never otherwise; order is kept (see `SelectedAppend`).
   */
  lemma {:induction false} SelectedCount(from: DumpFrom, spokes: seq<Spoke>, sp: Spoke)
    ensures multiset(Selected(from, spokes))[sp] == if Chosen(from, sp) then multiset(spokes)[sp] else 0
    decreases |spokes|
  {
    if !Mentions(from, "all") && spokes != [] {
      var init := spokes[..|spokes| - 1];
      assert spokes == init + [spokes[|spokes| - 1]];
      SelectedCount(from, init, sp);
    }
  }

  /** Selection keeps wheel order: selecting from a concatenation concatenates the selections. */
  lemma SelectedAppend(from: DumpFrom, a: seq<Spoke>, b: seq<Spoke>)
    ensures Selected(from, a + b) == Selected(from, a) + Selected(from, b)
  {
    if !Mentions(from, "all") { NamedAppend(from, a, b); }
  }

  /** `${k}:${v}` for every stats entry, in entry order. */
  function Pairs(stats: seq<(string, string)>): seq<string>
  {
    seq(|stats|, i requires 0 <= i < |stats| => stats[i].0 + ":" + stats[i].1)
  }

  /** `renderStats(spoke)`: STATS|<name column>|status: <status>, <k:v, ...> */
  function StatsLine(srcLen: int, sp: Spoke): (r: string)
    ensures |r| == 17 + (if srcLen < 0 then 0 else srcLen) + |sp.status| + |Join(Pairs(sp.stats), ", ")|
    ensures r[..6] == "STATS|"
  {
    "STATS|" + Column(sp.name, srcLen) + "|status: " + sp.status + ", " + Join(Pairs(sp.stats), ", ")
  }

  /** A STATS line can be cut back into its fields: the name column sits at a fixed place. */
  lemma StatsLineLayout(srcLen: int, sp: Spoke)
    ensures var line := StatsLine(srcLen, sp);
      var w := if srcLen < 0 then 0 else srcLen;
      |line| >= w + 17 + |sp.status| &&
      line[..6] == "STATS|" && line[6..6 + w] == Column(sp.name, srcLen) &&
      line[6 + w..15 + w] == "|status: " && line[15 + w..15 + w + |sp.status|] == sp.status &&
      line[15 + w + |sp.status|..17 + w + |sp.status|] == ", " &&
      line[17 + w + |sp.status|..] == Join(Pairs(sp.stats), ", ")
  {
    var col, joined := Column(sp.name, srcLen), Join(Pairs(sp.stats), ", ");
    assert |col| == if srcLen < 0 then 0 else srcLen;
    ConcatSlices("STATS|", col, "|status: ", sp.status, ", ", joined);
    assert StatsLine(srcLen, sp) == "STATS|" + col + "|status: " + sp.status + ", " + joined;
  }

  function StatsLines(srcLen: int, spokes: seq<Spoke>): seq<string>
  {
    seq(|spokes|, i requires 0 <= i < |spokes| => StatsLine(srcLen, spokes[i]))
  }

  lemma StatsLinesPush(srcLen: int, spokes: seq<Spoke>, sp: Spoke)
    ensures StatsLines(srcLen, spokes + [sp]) == StatsLines(srcLen, spokes) + [StatsLine(srcLen, sp)]
  {
  }

  /** Appending one line to a log extended by some lines extends it by those lines and the new one. */
  lemma AppendOne(log: seq<string>, lines: seq<string>, line: string)
    ensures log + lines + [line] == log + (lines + [line])
  {
  }

  /** One step of the named-stats loop: the next spoke is either dumped or skipped, and the lines follow the selection. */
  lemma NamedStatsNext(srcLen: int, from: DumpFrom, spokes: seq<Spoke>, i: int, chosen: bool)
    requires 0 <= i < |spokes| && chosen == Mentions(from, spokes[i].name)
    ensures chosen ==> Named(from, spokes[..i + 1]) == Named(from, spokes[..i]) + [spokes[i]]
    ensures chosen ==> StatsLines(srcLen, Named(from, spokes[..i]) + [spokes[i]]) == StatsLines(srcLen, Named(from, spokes[..i])) + [StatsLine(srcLen, spokes[i])]
    ensures !chosen ==> Named(from, spokes[..i + 1]) == Named(from, spokes[..i])
  {
    NamedNext(from, spokes, i);
    StatsLinesPush(srcLen, Named(from, spokes[..i]), spokes[i]);
  }

  lemma StatsLinesNext(srcLen: int, spokes: seq<Spoke>, i: int)
    requires 0 <= i < |spokes|
    ensures StatsLines(srcLen, spokes[..i + 1]) == StatsLines(srcLen, spokes[..i]) + [StatsLine(srcLen, spokes[i])]
  {
    assert spokes[..i + 1] == spokes[..i] + [spokes[i]];
    StatsLinesPush(srcLen, spokes[..i], spokes[i]);
  }

  /** `collectStats()`: nothing while waiting for input; otherwise one STATS line per selected spoke, in wheel order. */
  function CollectStats(s: State, status: HubStatus): (lines: seq<string>)
    ensures s.data.waitForInput ==> lines == []
    ensures !s.data.waitForInput ==>
      |lines| == |Selected(s.props.statsDumpFrom, status.spokes)| &&
      forall i :: 0 <= i < |lines| ==>
        lines[i] == StatsLine(s.props.srcLen, Selected(s.props.statsDumpFrom, status.spokes)[i])
  {
    if s.data.waitForInput then [] else StatsLines(s.props.srcLen, Selected(s.props.statsDumpFrom, status.spokes))
  }

  /** With 'all' listed, every spoke gets exactly one line per tick, in wheel order. */
  /**
   * With the declared defaults the console shows every event the gate lets
   * through, whatever its level or content, and dumps no stats.
   */
  lemma DefaultsFilterNothingDumpNothing(s: State, obj: Event, status: HubStatus, host: Host)
    requires s.props == DefaultProps
    ensures CheckFilter(s.props.level, s.props.filter, obj, host)
    ensures CollectStats(s, status) == []
  {
    NamedNothing(DefaultProps.statsDumpFrom, status.spokes);
  }

  lemma StatsAllScenario(s: State, status: HubStatus)
    requires !s.data.waitForInput && Mentions(s.props.statsDumpFrom, "all")
    ensures |CollectStats(s, status)| == |status.spokes|
    ensures forall i :: 0 <= i < |status.spokes| ==>
      CollectStats(s, status)[i] == StatsLine(s.props.srcLen, status.spokes[i])
  {
  }

  // ---------------------------------------------------------------- the name shown in the banner

  /** `getName()`: "<hub name> - ", or nothing for the default hub name. */
  function GetName(hubName: string): (r: string)
    ensures r == "" <==> hubName == "VolanteHub"
    ensures r != "" ==> |r| == |hubName| + 3 && r[..|hubName|] == hubName && r[|hubName|..] == " - "
  {
    if hubName != "VolanteHub" then hubName + " - " else ""
  }

  // ---------------------------------------------------------------- runs of inputs

  /** What can reach the plugin: a log event, a keypress, a line answering a question, or a timer tick. */
  datatype Input =
    | LogEvent(obj: Event, status: HubStatus)
    | Keypress(key: Key, status: HubStatus)
    | Answer(line: string)
    | StatsTick(status: HubStatus)
    | ErrorTick(status: HubStatus)

  /** One input, run to completion; after `process.exit` nothing more happens. */
  function Step(s: State, input: Input, host: Host): Effect
  {
    if s.exitRequested then Effect(s, [])
    else match input
      case LogEvent(obj, status) => OnLogEvent(s, obj, status, host)
      case Keypress(key, status) => OnKeypress(s, key, status, host)
      case Answer(line) => OnAnswer(s, line, host)
      case StatsTick(status) => Effect(s, CollectStats(s, status))
      case ErrorTick(status) => Effect(CheckForErrors(s, status), [])
  }

  /** Inputs handled one after another, each to completion, printing in order. */
  function Run(s: State, inputs: seq<Input>, host: Host): Effect
    decreases |inputs|
  {
    if inputs == [] then Effect(s, [])
    else
      var e := Step(s, inputs[0], host);
      var rest := Run(e.state, inputs[1..], host);
      Effect(rest.state, e.lines + rest.lines)
  }

  /** What every command leaves alone: the line counter, the error flag and the exit request. */
  lemma PerformKeeps(s: State, cmd: Command, status: HubStatus, host: Host)
    ensures var t := Perform(s, cmd, status, host).state;
      t.numLines == s.numLines && t.data.isErrored == s.data.isErrored && t.exitRequested == s.exitRequested
      && (Valid(s) && !s.data.waitForInput ==> Valid(t))
  {
  }

  predicate Refreshes(input: Input)
  {
    input.ErrorTick? || (input.LogEvent? && RefreshesFlag(input.obj))
  }

  /** `s` and `t` differ at most in the error flag and the exit request. */
  predicate OnlyFlags(s: State, t: State)
  {
    t == s.(data := s.data.(isErrored := t.data.isErrored), exitRequested := t.exitRequested)
  }

  /**
   * What one input may do: the line counter grows by at most one; only polls
   * and error/ready events move the error flag; `waitForInput` stays tied to
   * the outstanding question; and while waiting, anything but an answer prints
   * nothing and changes nothing but the error flag and the exit request.
   */
  predicate Modest(s: State, input: Input, e: Effect)
  {
    s.numLines <= e.state.numLines <= s.numLines + 1 &&
    (!Refreshes(input) ==> e.state.data.isErrored == s.data.isErrored) &&
    (Valid(s) ==> Valid(e.state)) &&
    (s.data.waitForInput && !input.Answer? ==> e.lines == [] && OnlyFlags(s, e.state))
  }

  lemma LogEventModest(s: State, obj: Event, status: HubStatus, host: Host)
    ensures Modest(s, LogEvent(obj, status), OnLogEvent(s, obj, status, host))
  {
    var e := OnLogEvent(s, obj, status, host);
    assert s.data.waitForInput ==> !Accepts(s.(data := e.state.data), obj, host);
  }

  lemma KeypressModest(s: State, key: Key, status: HubStatus, host: Host)
    ensures Modest(s, Keypress(key, status), OnKeypress(s, key, status, host))
  {
    if !s.data.waitForInput {
      PerformKeeps(s, Dispatch(key, s.props.allowEval), status, host);
    }
  }

  lemma StepFacts(s: State, input: Input, host: Host)
    ensures Modest(s, input, Step(s, input, host))
  {
    if !s.exitRequested {
      match input
      case LogEvent(obj, status) => LogEventModest(s, obj, status, host);
      case Keypress(key, status) => KeypressModest(s, key, status, host);
      case Answer(line) =>
      case StatsTick(status) =>
      case ErrorTick(status) =>
    }
  }

  /**
   * While a question is outstanding, and until it is answered, nothing is
   * printed and no key, event or tick changes anything but the error flag
   * and the exit request.
   */
  lemma {:induction false} WaitingSuppressesOutput(s: State, inputs: seq<Input>, host: Host)
    requires Valid(s) && s.data.waitForInput
    requires forall i :: 0 <= i < |inputs| ==> !inputs[i].Answer?
    ensures Run(s, inputs, host).lines == []
    ensures OnlyFlags(s, Run(s, inputs, host).state)
    decreases |inputs|
  {
    if inputs != [] {
      var e := Step(s, inputs[0], host);
      StepFacts(s, inputs[0], host);
      WaitingSuppressesOutput(e.state, inputs[1..], host);
    }
  }

  /** Rendering alone never moves the error flag: only polls and error/ready events do. */
  lemma {:induction false} ErrorFlagOnlyFromPolls(s: State, inputs: seq<Input>, host: Host)
    requires forall i :: 0 <= i < |inputs| ==> !Refreshes(inputs[i])
    ensures Run(s, inputs, host).state.data.isErrored == s.data.isErrored
    decreases |inputs|
  {
    if inputs != [] {
      StepFacts(s, inputs[0], host);
      ErrorFlagOnlyFromPolls(Step(s, inputs[0], host).state, inputs[1..], host);
    }
  }

  /** The line counter never goes down and grows by at most one per input. */
  lemma {:induction false} LineCounterBound(s: State, inputs: seq<Input>, host: Host)
    ensures s.numLines <= Run(s, inputs, host).state.numLines <= s.numLines + |inputs|
    decreases |inputs|
  {
    if inputs != [] {
      StepFacts(s, inputs[0], host);
      LineCounterBound(Step(s, inputs[0], host).state, inputs[1..], host);
    }
  }

  /** Every handler keeps `waitForInput` tied to the outstanding question, over any run. */
  lemma {:induction false} RunKeepsValid(s: State, inputs: seq<Input>, host: Host)
    requires Valid(s)
    ensures Valid(Run(s, inputs, host).state)
    decreases |inputs|
  {
    if inputs != [] {
      StepFacts(s, inputs[0], host);
      RunKeepsValid(Step(s, inputs[0], host).state, inputs[1..], host);
    }
  }

  /** Pressing t twice while idle prints nothing and leaves everything as it was. */
  lemma TimestampToggleTwice(s: State, key: Key, status: HubStatus, host: Host)
    requires !s.data.waitForInput && key.name == "t"
    ensures var e1 := OnKeypress(s, key, status, host);
      var e2 := OnKeypress(e1.state, key, status, host);
      e1.state != s && e1.lines == [] && e2 == Effect(s, [])
  {
    assert Dispatch(key, s.props.allowEval) == ToggleTimestamp;
  }

  // ---------------------------------------------------------------- the plugin object

  class Plugin {
    var props: Props
    var data: Data
    /** The plugin's `numLines` stat. */
    var numLines: nat
    /** The readline question whose callback is outstanding. */
    var pending: Prompt
    /** Whether `$shutdown()` and `process.exit(1)` have been called. */
    var shutdownRequested: bool
    var exitRequested: bool
    /** What console.log has printed, one entry per line. */
    var out: seq<string>

    ghost function Snapshot(): State
      reads this
    {
      State(props, data, numLines, pending, shutdownRequested, exitRequested)
    }

    constructor (p: Props)
      ensures Snapshot() == Initial(p) && out == []
      ensures Valid(Snapshot())
    {
      props, data, numLines := p, Data(false, false, false), 0;
      pending, shutdownRequested, exitRequested := NoPrompt, false, false;
      out := [];
    }

    /** The header `render` builds for an accepted event: glyph, timestamp, level tag and source column. */
    method RenderHeader(lvl: string, ts: Timestamp, src: string, host: Host) returns (header: string)
      ensures header == Header(Snapshot(), lvl, ts, src, host)
    {
      header := "";
      if data.isErrored {
        if lvl == "error" {
          header := header + CrossGlyph;
        } else {
          header := header + Colorz(props.monochrome, CrossGlyph, "red");
        }
      } else {
        header := header + CheckGlyph;
      }
      assert header == Glyph(data.isErrored, props.monochrome, lvl);
      header := header + "|";
      if props.timestamp {
        header := header + Colorz(props.monochrome, host.iso(ts), "magenta");
        header := header + " | ";
      }
      header := header + (LevelTag(lvl) + "|");
      header := header + (Column(src, props.srcLen) + "|");
    }

    /** The content items `render` collects: objects inspected, everything else in the level colour. */
    method RenderContents(lvl: string, ms: seq<Item>, host: Host) returns (content: seq<string>)
      ensures content == Contents(props.monochrome, props.compact, lvl, ms, host)
    {
      content := [];
      for i := 0 to |ms|
        invariant content == Contents(props.monochrome, props.compact, lvl, ms[..i], host)
      {
        var m := ms[i];
        ContentsNext(props.monochrome, props.compact, lvl, ms, i, host);
        var item;
        if m.Structured? {
          item := host.inspect(m.handle, !props.monochrome, props.compact);
        } else if m.Scalar? {
          item := RenderColor(props.monochrome, lvl, m.text);
        } else if props.monochrome {
          item := "";
        } else {
          item := RenderColor(props.monochrome, lvl, "undefined");
        }
        content := content + [item];
      }
      assert ms[..|ms|] == ms;
    }

    /** The gate at the top of `render`. */
    method Admits(obj: Event, host: Host) returns (ok: bool)
      ensures ok == Accepts(Snapshot(), obj, host)
    {
      ok := !data.waitForInput && !data.pauseOutput && Truthy(obj.lvl) && CheckFilter(props.level, props.filter, obj, host)
        && obj.ts.Some? && Truthy(obj.src) && obj.msg.Some?;
    }

    /** `render(obj)`. */
    method Render(obj: Event, host: Host)
      modifies this`numLines, this`out
      ensures Snapshot() == RenderEvent(old(Snapshot()), obj, host).state
      ensures out == old(out) + RenderEvent(old(Snapshot()), obj, host).lines
    {
      var ok := Admits(obj, host);
      if ok {
        var lvl := obj.lvl.value;
        var header := RenderHeader(lvl, obj.ts.value, obj.src.value, host);
        var content := RenderContents(lvl, obj.msg.value, host);
        var line := RenderColor(props.monochrome, lvl, header) + Join(content, ", ");
        assert line == LogLine(Snapshot(), obj, host);
        numLines := numLines + 1;
        out := out + [line];
      }
    }

    /** `checkForErrors()`, given the snapshot `$hub.getStatus()` returns. */
    method CheckErrors(status: HubStatus)
      modifies this`data
      ensures Snapshot() == CheckForErrors(old(Snapshot()), status)
    {
      data := data.(isErrored := status.errorCount > 0);
    }

    /** The `volante.log` event handler. */
    method OnLog(obj: Event, status: HubStatus, host: Host)
      modifies this`data, this`numLines, this`out, this`exitRequested
      ensures Snapshot() == OnLogEvent(old(Snapshot()), obj, status, host).state
      ensures out == old(out) + OnLogEvent(old(Snapshot()), obj, status, host).lines
    {
      if obj.lvl == Some("error") || obj.lvl == Some("ready") {
        CheckErrors(status);
      }
      Render(obj, host);
      if obj.lvl == Some("error") {
        if props.exitOnError {
          exitRequested := true;
        }
      }
    }

    /** The keypress handler installed by `init()`. */
    method Keypress(key: Key, status: HubStatus, host: Host)
      modifies this`props, this`data, this`pending, this`shutdownRequested, this`out
      ensures Snapshot() == OnKeypress(old(Snapshot()), key, status, host).state
      ensures out == old(out) + OnKeypress(old(Snapshot()), key, status, host).lines
    {
      if !data.waitForInput {
        if (key.ctrl && key.name == "c") || key.name == "q" {
          assert Dispatch(key, props.allowEval) == Quit;
          shutdownRequested := true;
        } else if key.name == "t" {
          assert Dispatch(key, props.allowEval) == ToggleTimestamp;
          props := props.(timestamp := !props.timestamp);
        } else if key.name == "c" {
          assert Dispatch(key, props.allowEval) == ToggleCompact;
          props := props.(compact := !props.compact);
        } else if key.name == "s" {
          assert Dispatch(key, props.allowEval) == PrintStatus;
          out := out + [host.inspectStatus(status)];
        } else if key.name == "p" {
          assert Dispatch(key, props.allowEval) == TogglePause;
          if !data.pauseOutput {
            out := out + [Colorz(props.monochrome, PauseNotice, "bg.magenta")];
          }
          data := data.(pauseOutput := !data.pauseOutput);
        } else if key.name == "e" && props.allowEval {
          assert Dispatch(key, props.allowEval) == AskStatement;
          data := data.(waitForInput := true);
          pending := EvalPrompt;
        } else if key.name == "f" {
          assert Dispatch(key, props.allowEval) == AskFilter;
          data := data.(waitForInput := true);
          pending := FilterPrompt;
        } else {
          assert Dispatch(key, props.allowEval) == Ignore;
        }
      }
    }

    /** The answer callback of the "Enter new filter:" question. */
    method FilterAnswered(ans: string)
      requires pending == FilterPrompt
      modifies this`props, this`data, this`pending, this`out
      ensures Snapshot() == AnswerFilter(old(Snapshot()), ans).state
      ensures out == old(out) + AnswerFilter(old(Snapshot()), ans).lines
    {
      if |ans| > 0 {
        props := props.(filter := Pattern(Regex(ans, true)));
        out := out + [Colorz(props.monochrome, "Filtering on " + ans, "bg.magenta")];
      } else {
        out := out + [Colorz(props.monochrome, "Continuing with no filtering", "bg.magenta")];
        props := props.(filter := NoFilter);
      }
      data := data.(waitForInput := false);
      pending := NoPrompt;
    }

    /** The answer callback of the "Enter statement:" question. */
    method EvalAnswered(ans: string, host: Host)
      requires pending == EvalPrompt
      modifies this`data, this`pending, this`out
      ensures Snapshot() == AnswerEval(old(Snapshot()), ans, host).state
      ensures out == old(out) + AnswerEval(old(Snapshot()), ans, host).lines
    {
      if |ans| > 0 {
        match host.evaluate(ans)
        case Value(h) =>
          out := out + [host.inspect(h, !props.monochrome, false)];
        case Thrown(e) =>
          if props.monochrome {
            out := out + [host.logged(e)];
          } else {
            out := out + [Colorz(props.monochrome, host.text(e), "red")];
          }
      }
      data := data.(waitForInput := false);
      pending := NoPrompt;
    }

    /** The line `renderStats(spoke)` prints. */
    method FormatStats(spoke: Spoke) returns (line: string)
      ensures line == StatsLine(props.srcLen, spoke)
    {
      var values: seq<string> := [];
      for i := 0 to |spoke.stats|
        invariant values == Pairs(spoke.stats[..i])
      {
        var (k, v) := spoke.stats[i];
        values := values + [k + ":" + v];
      }
      assert spoke.stats[..|spoke.stats|] == spoke.stats;
      line := "STATS|" + Column(spoke.name, props.srcLen) + "|status: " + spoke.status + ", " + Join(values, ", ");
    }

    /** The loop of `collectStats` when 'all' is listed: every spoke, in wheel order. */
    method RenderAllStats(spokes: seq<Spoke>)
      modifies this`out
      ensures out == old(out) + StatsLines(props.srcLen, spokes)
    {
      var srcLen := props.srcLen;
      for i := 0 to |spokes|
        invariant props.srcLen == srcLen
        invariant out == old(out) + StatsLines(srcLen, spokes[..i])
      {
        StatsLinesNext(srcLen, spokes, i);
        AppendOne(old(out), StatsLines(srcLen, spokes[..i]), StatsLine(srcLen, spokes[i]));
        var line := FormatStats(spokes[i]);
        out := out + [line];
      }
      assert spokes[..|spokes|] == spokes;
    }

    /** One pass of that loop: the spoke's STATS line is printed exactly when `statsDumpFrom` mentions its name. */
    method RenderIfNamed(spoke: Spoke) returns (chosen: bool)
      modifies this`out
      ensures chosen == Mentions(props.statsDumpFrom, spoke.name)
      ensures out == old(out) + if chosen then [StatsLine(props.srcLen, spoke)] else []
    {
      chosen := Mentions(props.statsDumpFrom, spoke.name);
      if chosen {
        var line := FormatStats(spoke);
        out := out + [line];
      }
    }

    /** The loop of `collectStats` otherwise: the spokes whose names are listed, in wheel order. */
    method RenderNamedStats(spokes: seq<Spoke>)
      modifies this`out
      ensures out == old(out) + StatsLines(props.srcLen, Named(props.statsDumpFrom, spokes))
    {
      var srcLen, from := props.srcLen, props.statsDumpFrom;
      ghost var named: seq<Spoke> := [];
      for i := 0 to |spokes|
        invariant props.srcLen == srcLen && props.statsDumpFrom == from
        invariant named == Named(from, spokes[..i])
        invariant out == old(out) + StatsLines(srcLen, named)
      {
        var chosen := RenderIfNamed(spokes[i]);
        NamedStatsNext(srcLen, from, spokes, i, chosen);
        if chosen {
          AppendOne(old(out), StatsLines(srcLen, named), StatsLine(srcLen, spokes[i]));
          named := named + [spokes[i]];
        }
      }
      assert spokes[..|spokes|] == spokes;
    }

    /** `collectStats()`, given the snapshot `$hub.getStatus()` returns. */
    method CollectStatsNow(status: HubStatus)
      modifies this`out
      ensures out == old(out) + CollectStats(Snapshot(), status)
    {
      if !data.waitForInput {
        if Mentions(props.statsDumpFrom, "all") {
          RenderAllStats(status.spokes);
        } else {
          RenderNamedStats(status.spokes);
        }
      }
    }
  }
}
