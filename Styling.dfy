/**
 * Colouring in the console plugin (src/index.js): `colorz`, which wraps
 * text in an ANSI SGR escape sequence unless output is monochrome, and the
 * two per-level tables, the three-letter level tag and the level colour.
 */
module Styling {
  import opened JsText

  const Esc: char := '\U{1b}'

  /** The SGR reset sequence `ESC [ 0 m` that closes every coloured span. */
  const Reset: string := [Esc] + "[0m"

  /** The five levels the hub emits; any other level is shown as `log`. */
  const Levels: set<string> := {"log", "debug", "warning", "error", "ready"}

  /** The escape sequence `ESC [ code m`. */
  function Sgr(code: string): (r: string)
    ensures |r| == |code| + 3 && r[0] == Esc && r[|r| - 1] == 'm'
  {
    [Esc] + "[" + code + "m"
  }

  /** The SGR code of each style name `colorz` knows; None for any other name. */
  function StyleCode(color: string): (r: Option<string>)
  {
    if color == "bg.red" then Some("41")
    else if color == "bg.green" then Some("42")
    else if color == "bg.blue" then Some("44")
    else if color == "bg.magenta" then Some("45")
    else if color == "bold.blue" then Some("34;1")
    else if color == "red" then Some("31")
    else if color == "green" then Some("32")
    else if color == "yellow" then Some("33")
    else if color == "magenta" then Some("35")
    else if color == "cyan" then Some("36")
    else None
  }

  predicate KnownStyle(color: string)
  {
    StyleCode(color).Some?
  }

  /**
   * `colorz(str, color)`: the text itself in monochrome mode or for a style
   * it does not know (the source then also warns on the console); otherwise
   * the text between the style's escape sequence and the reset.
   */
  function Colorz(monochrome: bool, str: string, color: string): (r: string)
    ensures monochrome || !KnownStyle(color) ==> r == str
    ensures !monochrome && KnownStyle(color) ==>
      |r| == |Sgr(StyleCode(color).value)| + |str| + |Reset| &&
      r[..|Sgr(StyleCode(color).value)|] == Sgr(StyleCode(color).value) &&
      r[|Sgr(StyleCode(color).value)|..|r| - |Reset|] == str &&
      r[|r| - |Reset|..] == Reset
  {
    if monochrome then str
    else match StyleCode(color)
      case Some(code) => Sgr(code) + str + Reset
      case None => str
  }

  /** No two style names share an escape sequence. */
  lemma StyleCodesDistinct(c1: string, c2: string)
    requires KnownStyle(c1) && KnownStyle(c2) && c1 != c2
    ensures StyleCode(c1) != StyleCode(c2)
  {
  }

  /** Colouring the same text with two different known styles gives two different strings. */
  lemma {:induction false} ColorzSeparatesStyles(str: string, c1: string, c2: string)
    requires KnownStyle(c1) && KnownStyle(c2) && c1 != c2
    ensures Colorz(false, str, c1) != Colorz(false, str, c2)
  {
    var p1, p2 := Sgr(StyleCode(c1).value), Sgr(StyleCode(c2).value);
    var r1, r2 := Colorz(false, str, c1), Colorz(false, str, c2);
    if r1 == r2 {
      assert |p1| == |p2|;
      assert p1 == r1[..|p1|] == r2[..|p2|] == p2;
      assert StyleCode(c1).value == p1[2..|p1| - 1] == p2[2..|p2| - 1] == StyleCode(c2).value;
      StyleCodesDistinct(c1, c2);
      assert false;
    }
  }

  /** The level an unknown level falls back to. */
  function Canonical(lvl: string): (r: string)
    ensures r in Levels
    ensures lvl in Levels ==> r == lvl
    ensures lvl !in Levels ==> r == "log"
  {
    if lvl in Levels then lvl else "log"
  }

  /** `renderLevel`: the three-letter tag of a level; any other level is tagged LOG. */
  function LevelTag(lvl: string): (r: string)
    ensures |r| == 3
    ensures r == "LOG" <==> Canonical(lvl) == "log"
  {
    if lvl == "debug" then "DBG"
    else if lvl == "error" then "ERR"
    else if lvl == "warning" then "WRN"
    else if lvl == "ready" then "RDY"
    else "LOG"
  }

  /** The level a tag stands for: the inverse of `LevelTag` on the five levels. */
  function TagLevel(tag: string): string
  {
    if tag == "DBG" then "debug"
    else if tag == "ERR" then "error"
    else if tag == "WRN" then "warning"
    else if tag == "RDY" then "ready"
    else "log"
  }

  /** Reading a tag back gives the level it was made from, once unknown levels are read as `log`. */
  lemma TagRoundTrip(lvl: string)
    ensures TagLevel(LevelTag(lvl)) == Canonical(lvl)
  {
  }

  /** The style name of a level's colour (the `switch` of `renderColor`). */
  function LevelStyle(lvl: string): (r: string)
    ensures KnownStyle(r)
    ensures lvl == "debug" ==> r == "cyan"
    ensures lvl == "error" ==> r == "bg.red"
    ensures lvl == "warning" ==> r == "yellow"
    ensures lvl == "ready" ==> r == "bg.green"
    ensures Canonical(lvl) == "log" ==> r == "green"
  {
    if lvl == "debug" then "cyan"
    else if lvl == "error" then "bg.red"
    else if lvl == "warning" then "yellow"
    else if lvl == "ready" then "bg.green"
    else "green"
  }

  /** The tag table and the colour table classify levels alike: same tag exactly when same colour. */
  lemma LevelTablesAgree(l1: string, l2: string)
    ensures LevelTag(l1) == LevelTag(l2) <==> LevelStyle(l1) == LevelStyle(l2)
    ensures LevelTag(l1) == LevelTag(l2) <==> Canonical(l1) == Canonical(l2)
  {
  }

  /**
   * `renderColor(lvl, str)`: the text in its level's colour. Every level has a
   * known style, so outside monochrome mode the text is always wrapped and
   * `colorz` never falls back to its warning.
   */
  function RenderColor(monochrome: bool, lvl: string, str: string): (r: string)
    ensures monochrome ==> r == str
    ensures !monochrome ==> r == Sgr(StyleCode(LevelStyle(lvl)).value) + str + Reset
  {
    Colorz(monochrome, str, LevelStyle(lvl))
  }
}
