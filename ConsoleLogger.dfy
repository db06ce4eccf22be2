/**
 * The older ConsoleLogger plugin (index.js): it renders `volante.log`,
 * `volante.debug` and `error` events from the hub as one line each,
 * `[timestamp | ]TAG | src | message`, after a level filter and a source
 * filter, and exits the process after an `error` event when asked to.
 *
 * The plugin keeps no state of its own: its handlers are functions of its
 * props and the event. chalk, JSON.stringify, String.prototype.match and
 * Date.prototype.toISOString are the fields of a `Host` value.
 */
module ConsoleLogger {
  import opened JsText
  import Styling

  /** An event's `msg`: absent, null, a primitive (by its string form), or an object or array. */
  datatype Message = Missing | Null | Primitive(text: string) | Object(handle: nat)

  /** A hub event; a property the event object lacks is None. */
  datatype Event = Event(lvl: Option<string>, src: Option<string>, msg: Message)

  /** The `srcFilter` prop: null, a string, a RegExp, or any other value. */
  datatype SrcFilter = NoSrcFilter | Exact(name: string) | Pattern(re: Regex) | OtherValue

  /** The chalk colours the renderer uses. */
  datatype Chalk = Cyan | Red | Green | Magenta

  /** The library calls the plugin makes, which are outside this model. */
  datatype Host = Host(
    paint: (Chalk, string) -> string,  // chalk.<colour>(text)
    json: nat -> string,               // JSON.stringify of an object or array
    str: nat -> string,                // the string conversion `${value}` of an object or array
    matches: (Regex, string) -> bool,  // src.match(re) returned a match rather than null
    iso: Timestamp -> string)          // Date.prototype.toISOString

  /** The plugin's `props`. */
  datatype Props = Props(timestamp: bool, level: string, stringify: bool, srcFilter: SrcFilter, exitOnError: bool)

  /** The defaults the plugin declares for its props. */
  const Defaults: Props := Props(false, "any", true, NoSrcFilter, false)

  /** How a call ended: it returned a value, or it threw a TypeError. */
  datatype Outcome<T> = Returned(value: T) | ThrewTypeError

  // ---------------------------------------------------------------- filtering

  /** The level check of `checkFilters`: 'any' admits every event, any other level only its own. */
  predicate LevelPasses(level: string, obj: Event)
  {
    level == "any" || obj.lvl == Some(level)
  }

  /** JavaScript truthiness of the `srcFilter` prop. */
  predicate SrcFilterTruthy(f: SrcFilter)
  {
    match f
    case NoSrcFilter => false
    case Exact(name) => name != ""
    case Pattern(_) => true
    case OtherValue => true
  }

  /**
   * `checkFilters(obj)`: the level check, then the source filter. A string
   * filter must equal `src`; a RegExp must match it, and reading `match` of
   * a missing `src` throws; an empty string or any other value filters
   * nothing.
   */
  function CheckFilters(p: Props, obj: Event, host: Host): (r: Outcome<bool>)
    ensures !LevelPasses(p.level, obj) ==> r == Returned(false)
    ensures r == ThrewTypeError <==> LevelPasses(p.level, obj) && p.srcFilter.Pattern? && obj.src == None
    ensures LevelPasses(p.level, obj) ==>
      (p.srcFilter.Exact? && p.srcFilter.name != "" ==> r == Returned(obj.src == Some(p.srcFilter.name))) &&
      (p.srcFilter.Pattern? && obj.src.Some? ==> r == Returned(host.matches(p.srcFilter.re, obj.src.value))) &&
      (p.srcFilter.NoSrcFilter? || p.srcFilter == Exact("") || p.srcFilter.OtherValue? ==> r == Returned(true))
  {
    if p.level != "any" && obj.lvl != Some(p.level) then Returned(false)
    else if SrcFilterTruthy(p.srcFilter) then
      match p.srcFilter
      case Exact(name) => Returned(obj.src == Some(name))
      case Pattern(re) => if obj.src.None? then ThrewTypeError else Returned(host.matches(re, obj.src.value))
      case _ => Returned(true)
    else Returned(true)
  }

  /** A source filter only narrows: whatever it admits, the level check alone admits too. */
  lemma SourceFilterNarrows(p: Props, obj: Event, host: Host)
    requires CheckFilters(p, obj, host) == Returned(true)
    ensures LevelPasses(p.level, obj)
    ensures CheckFilters(p.(srcFilter := NoSrcFilter), obj, host) == Returned(true)
  {
  }

  /** With the declared defaults every event passes, whatever its fields. */
  lemma DefaultsAdmitAll(obj: Event, host: Host)
    ensures CheckFilters(Defaults, obj, host) == Returned(true)
  {
  }

  // ---------------------------------------------------------------- the line

  /** The tag `renderLevel` colours: only debug and error have their own. */
  function Tag(lvl: Option<string>): (r: string)
    ensures r == "DBG" <==> lvl == Some("debug")
    ensures r == "ERR" <==> lvl == Some("error")
    ensures r == "LOG" <==> lvl != Some("debug") && lvl != Some("error")
  {
    if lvl == Some("debug") then "DBG"
    else if lvl == Some("error") then "ERR"
    else "LOG"
  }

  function TagColour(lvl: Option<string>): Chalk
  {
    if lvl == Some("debug") then Cyan
    else if lvl == Some("error") then Red
    else Green
  }

  /** The tag and colour tables classify levels alike: same tag exactly when same colour. */
  lemma TagColourAgree(l1: Option<string>, l2: Option<string>)
    ensures Tag(l1) == Tag(l2) <==> TagColour(l1) == TagColour(l2)
  {
  }

  /**
   * This version tags debug, error and log events as the newer plugin does,
   * and folds warning and ready, which the newer one tags WRN and RDY, into LOG.
   */
  lemma TagsAgreeWithNewer(lvl: string)
    ensures lvl != "warning" && lvl != "ready" ==> Tag(Some(lvl)) == Styling.LevelTag(lvl)
    ensures lvl == "warning" || lvl == "ready" ==> Tag(Some(lvl)) == "LOG" != Styling.LevelTag(lvl)
  {
  }

  /** `renderLevel(obj)`: DBG in cyan, ERR in red, and LOG in green for every other level. */
  function RenderLevel(obj: Event, host: Host): (r: string)
    ensures obj.lvl == Some("debug") ==> r == host.paint(Cyan, "DBG")
    ensures obj.lvl == Some("error") ==> r == host.paint(Red, "ERR")
    ensures obj.lvl != Some("debug") && obj.lvl != Some("error") ==> r == host.paint(Green, "LOG")
  {
    host.paint(TagColour(obj.lvl), Tag(obj.lvl))
  }

  /** `${obj.src}`: a missing source reads "undefined". */
  function SrcText(src: Option<string>): (r: string)
    ensures src.Some? ==> r == src.value
    ensures src.None? ==> r == "undefined"
  {
    match src
    case Some(s) => s
    case None => "undefined"
  }

  /**
   * The message part: JSON for a value of typeof 'object' when `stringify`
   * is set, its string conversion otherwise. null is of typeof 'object' too,
   * and both conversions spell it "null".
   */
  function MessageText(stringify: bool, msg: Message, host: Host): (r: string)
    ensures msg.Object? ==> r == if stringify then host.json(msg.handle) else host.str(msg.handle)
    ensures msg.Null? ==> r == "null"
    ensures msg.Missing? ==> r == "undefined"
    ensures msg.Primitive? ==> r == msg.text
  {
    match msg
    case Object(h) => if stringify then host.json(h) else host.str(h)
    case Null => "null"
    case Missing => "undefined"
    case Primitive(t) => t
  }

  /** `stringify` changes how objects and arrays are shown, and nothing else. */
  lemma StringifyOnlyObjects(msg: Message, host: Host)
    ensures MessageText(true, msg, host) != MessageText(false, msg, host) ==> msg.Object?
    ensures msg.Object? ==> MessageText(true, msg, host) == host.json(msg.handle)
    ensures msg.Object? ==> MessageText(false, msg, host) == host.str(msg.handle)
  {
  }

  /** The timestamp column: the time in magenta and " | ", only when timestamps are on. */
  function Stamp(p: Props, now: Timestamp, host: Host): string
  {
    if p.timestamp then host.paint(Magenta, host.iso(now)) + " | " else ""
  }

  /**
   * The line `render` prints: the timestamp column only when timestamps are
   * on, then the coloured tag, and the message at the very end.
   */
  function Line(p: Props, obj: Event, now: Timestamp, host: Host): (r: string)
    ensures var tag := RenderLevel(obj, host); var msg := MessageText(p.stringify, obj.msg, host);
      |r| == |Stamp(p, now, host)| + |tag| + |SrcText(obj.src)| + |msg| + 6 &&
      (!p.timestamp ==> r[..|tag|] == tag) &&
      r[|r| - |msg|..] == msg
  {
    Stamp(p, now, host) + RenderLevel(obj, host) + " | " + SrcText(obj.src) + " | " + MessageText(p.stringify, obj.msg, host)
  }

  /** Every field of a line can be cut back out of it: stamp, tag, source and message in that order, separated by " | ". */
  lemma LineLayout(p: Props, obj: Event, now: Timestamp, host: Host)
    ensures var line := Line(p, obj, now, host);
      var stamp := Stamp(p, now, host); var tag := RenderLevel(obj, host);
      var src := SrcText(obj.src); var msg := MessageText(p.stringify, obj.msg, host);
      var i := |stamp| + |tag|; var j := i + 3 + |src|;
      |line| == j + 3 + |msg| &&
      line[..|stamp|] == stamp && line[|stamp|..i] == tag && line[i..i + 3] == " | " &&
      line[i + 3..j] == src && line[j..j + 3] == " | " && line[j + 3..] == msg
  {
    ConcatSlices(Stamp(p, now, host), RenderLevel(obj, host), " | ", SrcText(obj.src), " | ", MessageText(p.stringify, obj.msg, host));
  }

  /** Turning timestamps on puts the coloured time and " | " in front of the line and changes nothing else. */
  lemma TimestampOnlyPrefixes(p: Props, obj: Event, now: Timestamp, host: Host)
    ensures Line(p.(timestamp := true), obj, now, host) == host.paint(Magenta, host.iso(now)) + " | " + Line(p.(timestamp := false), obj, now, host)
  {
    var rest := RenderLevel(obj, host) + " | " + SrcText(obj.src) + " | " + MessageText(p.stringify, obj.msg, host);
    assert Line(p.(timestamp := false), obj, now, host) == "" + rest;
  }

  /**
   * `render(obj)`: one line when the filters pass, none when they reject;
   * a TypeError from the filters propagates out of it.
   */
  function Render(p: Props, obj: Event, now: Timestamp, host: Host): (r: Outcome<seq<string>>)
    ensures r == ThrewTypeError <==> CheckFilters(p, obj, host) == ThrewTypeError
    ensures r.Returned? ==> |r.value| <= 1 && (|r.value| == 1 <==> CheckFilters(p, obj, host) == Returned(true))
    ensures r.Returned? && |r.value| == 1 ==> r.value[0] == Line(p, obj, now, host)
  {
    match CheckFilters(p, obj, host)
    case ThrewTypeError => ThrewTypeError
    case Returned(pass) => Returned(if pass then [Line(p, obj, now, host)] else [])
  }

  // ---------------------------------------------------------------- the event handlers

  /** The three events the plugin listens to. */
  datatype Topic = LogTopic | DebugTopic | ErrorTopic

  /** What a handler did: the lines it printed, and whether it called `process.exit(1)`. */
  datatype Reaction = Reaction(lines: seq<string>, exit: bool)

  /**
   * The `volante.log`, `volante.debug` and `error` handlers: each renders the
   * event; the error handler then exits when `exitOnError` is set, which a
   * TypeError thrown by `render` prevents.
   */
  function OnEvent(topic: Topic, p: Props, obj: Event, now: Timestamp, host: Host): (r: Outcome<Reaction>)
    ensures r == ThrewTypeError <==> Render(p, obj, now, host) == ThrewTypeError
    ensures r.Returned? ==> r.value.lines == Render(p, obj, now, host).value
    ensures r.Returned? ==> (r.value.exit <==> topic == ErrorTopic && p.exitOnError)
  {
    match Render(p, obj, now, host)
    case ThrewTypeError => ThrewTypeError
    case Returned(lines) => Returned(Reaction(lines, topic == ErrorTopic && p.exitOnError))
  }

  /** An error event that the filters reject still ends the process when `exitOnError` is set. */
  lemma FilteredErrorStillExits(p: Props, obj: Event, now: Timestamp, host: Host)
    requires p.exitOnError && CheckFilters(p, obj, host) == Returned(false)
    ensures OnEvent(ErrorTopic, p, obj, now, host) == Returned(Reaction([], true))
  {
  }

  /**
   * An error event without a source under a RegExp filter throws before the
   * exit is reached, so the process does not exit even with `exitOnError`.
   */
  lemma SourcelessErrorNeverExits(p: Props, obj: Event, now: Timestamp, host: Host)
    requires LevelPasses(p.level, obj) && p.srcFilter.Pattern? && obj.src.None?
    ensures OnEvent(ErrorTopic, p, obj, now, host) == ThrewTypeError
  {
  }

  /** Only the error handler, with `exitOnError` set, ever exits. */
  lemma ExitOnlyOnError(topic: Topic, p: Props, obj: Event, now: Timestamp, host: Host)
    requires OnEvent(topic, p, obj, now, host).Returned? && OnEvent(topic, p, obj, now, host).value.exit
    ensures topic == ErrorTopic && p.exitOnError
  {
  }
}
