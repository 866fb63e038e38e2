/**
 * The output sink: a process-wide indent counter with a cap, the colour and
 * ANSI switches, and a stream to which every print call appends one record.
 *
 * The stream is modelled as the sequence of records written so far (`out`)
 * plus a flag saying whether a stream is set at all; `Output::init`, which
 * picks standard output or a log file, is not part of this model.
 */
module OutputSink {
  import opened Wrappers
  import opened Strings
  import opened Console

  /** A print argument: a scalar already in its string form, or a composite given with its `print_r` dump. */
  datatype Value = Text(s: string) | Composite(dump: string)

  /** What shapes a record besides the indent: the cap, the two switches and the colour palette. */
  datatype Style = Style(maxIndent: int, colors: bool, ansi: bool, palette: string -> nat)

  /** The leveled print calls, each a prefix in front of the arguments. */
  datatype Level =
    | Log | LogBold | Info | Error | Warn | WarnColor | Alert | Section
    | Ok | Saved | Page | Question | SubQuestion

  /** The string an argument stands for once composites are expanded. */
  function Printed(v: Value): string {
    match v
    case Text(s) => s
    case Composite(d) => d
  }

  function Expand(args: seq<Value>): (parts: seq<string>)
    ensures |parts| == |args|
    ensures forall i :: 0 <= i < |args| ==> parts[i] == Printed(args[i])
  {
    seq(|args|, i requires 0 <= i < |args| => Printed(args[i]))
  }

  /** `parseArgs`: every composite argument replaced by its dump, scalars kept. */
  method ParseArgs(args: seq<Value>) returns (parts: seq<string>)
    ensures parts == Expand(args)
  {
    parts := [];
    for i := 0 to |args|
      invariant parts == Expand(args)[..i]
    {
      var arg := args[i];
      if arg.Composite? {
        parts := parts + [arg.dump];
      } else {
        parts := parts + [arg.s];
      }
    }
  }

  /** `getColor`: the escape fragments for a foreground, a background and boldness. */
  function GetColor(st: Style, fg: Option<string>, bg: Option<string>, bold: bool): (r: string)
    ensures r == "" <==> !st.colors || !st.ansi || (fg.None? && bg.None? && !bold)
    ensures '\n' !in r
  {
    var on := st.colors && st.ansi;
    var back := if on && bg.Some? then BgRGB(st.palette, bg.value) else "";
    var fore := if on && fg.Some? then FgRGB(st.palette, fg.value, bold)
                else if on && bold then BOLD
                else "";
    back + fore
  }

  /** When `getColor` yields anything, the background comes first and the foreground last. */
  lemma ColorOrder(st: Style, fg: Option<string>, bg: Option<string>, bold: bool)
    ensures var r := GetColor(st, fg, bg, bold);
            st.colors && st.ansi && bg.Some? ==>
              var b := BgRGB(st.palette, bg.value); |b| <= |r| && r[..|b|] == b
    ensures var r := GetColor(st, fg, bg, bold);
            st.colors && st.ansi && fg.Some? ==>
              var f := FgRGB(st.palette, fg.value, bold); |f| <= |r| && r[|r| - |f|..] == f
  {
  }

  /** A string whose fourth character from the end is not ESC does not end in `BOLD`. */
  lemma NotBoldEnd(r: string)
    requires |r| >= 4 && r[|r| - 4] != ESC
    ensures !(|r| >= |BOLD| && r[|r| - |BOLD|..] == BOLD)
  {
    assert r[|r| - 4..][0] != BOLD[0];
  }

  lemma ForegroundNotBold(st: Style, fg: Option<string>, bg: Option<string>, bold: bool)
    requires st.colors && st.ansi && fg.Some?
    ensures var r := GetColor(st, fg, bg, bold);
            !(|r| >= |BOLD| && r[|r| - |BOLD|..] == BOLD)
  {
    var r := GetColor(st, fg, bg, bold);
    var back := if bg.Some? then BgRGB(st.palette, bg.value) else "";
    var fore := Fg(st.palette(fg.value), bold);
    FgTail(st.palette(fg.value), bold);
    assert r == back + fore;
    assert r[|r| - 4] == fore[|fore| - 4];
    NotBoldEnd(r);
  }

  lemma BackgroundNotBold(st: Style, fg: Option<string>, bg: Option<string>, bold: bool)
    requires st.colors && st.ansi && fg.None? && !bold && bg.Some?
    ensures var r := GetColor(st, fg, bg, bold);
            !(|r| >= |BOLD| && r[|r| - |BOLD|..] == BOLD)
  {
    var back := BgRGB(st.palette, bg.value);
    BgTail(st.palette(bg.value));
    assert GetColor(st, fg, bg, bold) == back + "";
    NotBoldEnd(back);
  }

  /** `getColor` ends in a bare bold sequence exactly when bold is asked for without a foreground. */
  lemma BareBoldLast(st: Style, fg: Option<string>, bg: Option<string>, bold: bool)
    ensures var r := GetColor(st, fg, bg, bold);
            (|r| >= |BOLD| && r[|r| - |BOLD|..] == BOLD) <==> st.colors && st.ansi && fg.None? && bold
  {
    var on := st.colors && st.ansi;
    if on && fg.Some? {
      ForegroundNotBold(st, fg, bg, bold);
    } else if on && bold {
      var r := GetColor(st, fg, bg, bold);
      var back := if bg.Some? then BgRGB(st.palette, bg.value) else "";
      assert r == back + BOLD;
      assert r[|r| - |BOLD|..] == BOLD;
    } else if on && bg.Some? {
      BackgroundNotBold(st, fg, bg, bold);
    }
  }

  /** `resetColor`: the reset sequence, or nothing when colours are off. */
  function ResetColor(colors: bool): (r: string)
    ensures colors ==> IsSgr(r) && r == Sgr("0")
    ensures !colors ==> r == ""
  {
    if colors then RESET else ""
  }

  /** The plain text of each level's prefix, which is all that is left when colours are off. */
  function Label(level: Level): string {
    match level
    case Info => "Info: "
    case Warn => "Warning! "
    case Error | Ok | Saved | Page | Question | SubQuestion => " "
    case Log | LogBold | WarnColor | Alert | Section => ""
  }

  /** The prefix each leveled call hands to `setArgs` (for `Section`: the title after its blank line). */
  function LevelPrefix(st: Style, level: Level): (r: string)
    ensures '\n' !in r
    ensures !st.colors ==> r == Label(level)
  {
    match level
    case Log => GetColor(st, Some("#999999"), None, true)
    case LogBold => GetColor(st, Some("#FFFFFF"), None, true)
    case Info => GetColor(st, None, None, true) + "Info: " + ResetColor(st.colors)
    case Error => GetColor(st, Some("#FFFFFF"), Some("#FF0000"), true) + " "
    case Warn => GetColor(st, Some("#ffd200"), None, true) + "Warning! "
    case WarnColor => GetColor(st, Some("#ffd200"), None, true)
    case Alert => GetColor(st, Some("#ff8400"), None, false)
    case Section => GetColor(st, Some("#00baff"), None, true)
    case Ok => GetColor(st, Some("#FFFFFF"), Some("#27cf23"), true) + " "
    case Saved => GetColor(st, Some("#27cf23"), None, true) + " "
    case Page => GetColor(st, Some("#FFFFFF"), Some("#4301ba"), true) + " "
    case Question => GetColor(st, Some("#FFFFFF"), Some("#0765ce"), true) + " "
    case SubQuestion => GetColor(st, Some("#FFFFFF"), Some("#07929e"), true) + " "
  }

  /** `setArgs`' rewrite of the argument list: the prefix goes in front of the first argument, or alone. */
  function Prefixed(addon: string, parts: seq<string>): (r: seq<string>)
    ensures |r| == if parts == [] then 1 else |parts|
    ensures r[1..] == if parts == [] then [] else parts[1..]
    ensures Join(r, " ") == addon + Join(parts, " ")
  {
    if parts == [] then [addon]
    else
      JoinPrefixFirst(addon, parts, " ");
      [addon + parts[0]] + parts[1..]
  }

  /** The indent `write` stores: a negative counter is floored to 0. */
  function Floor(indent: int): nat {
    if indent < 0 then 0 else indent
  }

  /** The number of spaces in front of every physical line. */
  function PadWidth(indent: int, maxIndent: int): int {
    4 * (if indent <= maxIndent then indent else maxIndent)
  }

  function PadLines(lines: seq<string>, width: int): (r: seq<string>)
    ensures |r| == |lines|
  {
    seq(|lines|, i requires 0 <= i < |lines| => PadLeft(width) + lines[i])
  }

  /** What `write` appends to the stream for the given expanded arguments and stored indent. */
  function Record(parts: seq<string>, indent: int, st: Style): string {
    var lines := Split(Join(parts, " "), '\n');
    Join(PadLines(lines, PadWidth(indent, st.maxIndent)), "\n") + " " + ResetColor(st.colors) + "\n"
  }

  /** The tail every record ends with. */
  function Trailer(colors: bool): string {
    " " + ResetColor(colors) + "\n"
  }

  /**
   * A record is its body, then one space, the reset code (when colours are on)
   * and a newline; the body's physical lines are exactly the lines of the
   * space-joined arguments, one more than they hold newlines, each behind
   * `4 * min(indent, maxIndent)` spaces.
   */
  lemma RecordLines(parts: seq<string>, indent: int, st: Style)
    ensures var r := Record(parts, indent, st);
            var t := Trailer(st.colors);
            |t| <= |r| && r[|r| - |t|..] == t
    ensures var r := Record(parts, indent, st);
            var body := r[..|r| - |Trailer(st.colors)|];
            var joined := Join(parts, " ");
            |Split(body, '\n')| == multiset(joined)['\n'] + 1 == |Split(joined, '\n')|
    ensures var r := Record(parts, indent, st);
            var body := r[..|r| - |Trailer(st.colors)|];
            var joined := Join(parts, " ");
            forall i :: 0 <= i < |Split(body, '\n')| ==>
              Split(body, '\n')[i] == PadLeft(PadWidth(indent, st.maxIndent)) + Split(joined, '\n')[i]
  {
    var joined := Join(parts, " ");
    var lines := Split(joined, '\n');
    var padded := PadLines(lines, PadWidth(indent, st.maxIndent));
    var body := Join(padded, "\n");
    var r := Record(parts, indent, st);
    assert r == body + Trailer(st.colors);
    assert r[..|r| - |Trailer(st.colors)|] == body;
    forall i | 0 <= i < |padded| ensures '\n' !in padded[i] {
      var p := PadLeft(PadWidth(indent, st.maxIndent));
      assert padded[i] == p + lines[i];
      assert '\n' !in p;
    }
    SplitJoin(padded, '\n');
    SplitCount(joined, '\n');
  }

  /** The indent actually rendered is the floored counter clamped to the cap. */
  lemma PadWidthClamps(indent: int, maxIndent: nat)
    ensures PadWidth(Floor(indent), maxIndent) == 4 * (if Floor(indent) <= maxIndent then Floor(indent) else maxIndent)
    ensures 0 <= PadWidth(Floor(indent), maxIndent) <= 4 * maxIndent
  {
  }

  /** The records a leveled call appends: `Section` writes a blank `log` line before its title. */
  function LevelRecords(st: Style, level: Level, parts: seq<string>, indent: int): (r: seq<string>)
    ensures |r| == if level == Section then 2 else 1
    ensures r[|r| - 1] == Record(Prefixed(LevelPrefix(st, level), parts), indent, st)
  {
    var own := [Record(Prefixed(LevelPrefix(st, level), parts), indent, st)];
    if level == Section then [Record(Prefixed(LevelPrefix(st, Log), []), indent, st)] + own else own
  }

  /** Wraps already-expanded strings as plain arguments. */
  function Texts(parts: seq<string>): (r: seq<Value>)
    ensures Expand(r) == parts
  {
    seq(|parts|, i requires 0 <= i < |parts| => Text(parts[i]))
  }

  /**
   * The process-wide state of `Output`: its static fields. The indent and the
   * stream's contents change as it writes; the settings are fixed once the
   * object exists.
   */
  class Output {
    var indent: int
    const maxIndent: int
    const colors: bool
    const ansi: bool
    const streamSet: bool
    var out: seq<string>
    const palette: string -> nat

    /** The static fields at their declared defaults, with or without a stream. */
    constructor (stream: bool, palette: string -> nat)
      ensures indent == 0 && maxIndent == 6 && colors && ansi
      ensures streamSet == stream && out == [] && this.palette == palette
    {
      indent, maxIndent, colors, ansi := 0, 6, true, true;
      streamSet, out := stream, [];
      this.palette := palette;
    }

    /** The settings as a caller configured them before the first write. */
    constructor Configured(stream: bool, maxIndent: int, colors: bool, ansi: bool, palette: string -> nat)
      ensures indent == 0 && this.maxIndent == maxIndent && this.colors == colors && this.ansi == ansi
      ensures streamSet == stream && out == [] && this.palette == palette
    {
      indent, this.maxIndent, this.colors, this.ansi := 0, maxIndent, colors, ansi;
      streamSet, out := stream, [];
      this.palette := palette;
    }

    function CurrentStyle(): Style {
      Style(maxIndent, colors, ansi, palette)
    }

    /** `write`: expand, join, split into lines, pad each line, append one record. */
    method Write(args: seq<Value>)
      modifies this`indent, this`out
      ensures !streamSet ==> indent == old(indent) && out == old(out)
      ensures streamSet ==> indent == Floor(old(indent))
      ensures streamSet ==> out == old(out) + [Record(Expand(args), indent, CurrentStyle())]
    {
      if !streamSet {
        return;
      }
      if indent < 0 {
        indent := 0;
      }
      var parts := ParseArgs(args);
      var lines := Split(Join(parts, " "), '\n');
      var useIndent := if indent <= maxIndent then indent else maxIndent;
      ghost var unpadded := lines;
      var i := 0;
      while i < |lines|
        invariant 0 <= i <= |lines| == |unpadded|
        invariant forall j :: 0 <= j < i ==> lines[j] == PadLeft(useIndent * 4) + unpadded[j]
        invariant forall j :: i <= j < |lines| ==> lines[j] == unpadded[j]
      {
        lines := lines[i := PadLeft(useIndent * 4) + lines[i]];
        i := i + 1;
      }
      assert lines == PadLines(unpadded, PadWidth(indent, maxIndent));
      out := out + [Join(lines, "\n") + " " + ResetColor(colors) + "\n"];
    }

    /** `setArgs`: expand, put the prefix in front of the first argument, write. */
    method SetArgs(addon: string, args: seq<Value>)
      modifies this`indent, this`out
      ensures !streamSet ==> indent == old(indent) && out == old(out)
      ensures streamSet ==> indent == Floor(old(indent))
      ensures streamSet ==> out == old(out) + [Record(Prefixed(addon, Expand(args)), indent, CurrentStyle())]
    {
      var parts := ParseArgs(args);
      if parts == [] {
        parts := [addon];
      } else {
        parts := parts[0 := addon + parts[0]];
      }
      assert parts == Prefixed(addon, Expand(args));
      Write(Texts(parts));
    }

    /** The leveled calls `log`, `logb`, `info`, `error`, `warn`, `warnColor`, `alert`, `section`, `ok`, `saved`, `page`, `question`, `subQuestion`. */
    method Emit(level: Level, args: seq<Value>)
      modifies this`indent, this`out
      ensures !streamSet ==> indent == old(indent) && out == old(out)
      ensures streamSet ==> indent == Floor(old(indent))
      ensures streamSet ==> out == old(out) + LevelRecords(CurrentStyle(), level, Expand(args), indent)
    {
      if level == Section {
        SetArgs(LevelPrefix(CurrentStyle(), Log), []);
      }
      SetArgs(LevelPrefix(CurrentStyle(), level), args);
    }

    /** `indentUp`: one level deeper, returning the level before. */
    method IndentUp() returns (before: int)
      modifies this`indent
      ensures before == old(indent) && indent == old(indent) + 1
    {
      before := indent;
      indent := indent + 1;
    }

    /** `indentDown`: one level shallower, returning the level before. */
    method IndentDown() returns (before: int)
      modifies this`indent
      ensures before == old(indent) && indent == old(indent) - 1
    {
      before := indent;
      indent := indent - 1;
    }

    /** `setIndent`: stores the value (0 when none is given) and returns it. */
    method SetIndent(value: int := 0) returns (r: int)
      modifies this`indent
      ensures indent == value && r == value
    {
      indent := value;
      r := indent;
    }

    /** `getIndent`: the raw counter, which may be negative or above the cap. */
    method GetIndent() returns (r: int)
      ensures r == indent
    {
      r := indent;
    }
  }
}
