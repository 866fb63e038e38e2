/**
 * Stack-trace rendering (`MakePrettyException`): one line per frame with its
 * arguments coloured by kind, array arguments replaced inline by numbered
 * `Array[n]` placeholders, and a follow-up text holding each array's
 * JSON dump, cut at 500 characters.
 *
 * The colour sequences here come from `Console::fgRGB` directly, so they do
 * not depend on the output sink's colour switches.
 */
module TraceRender {
  import opened Strings
  import opened Console

  /** A call argument, by the PHP type `gettype` reports; an array carries its `json_encode` text. */
  datatype Arg =
    | Bool(b: bool)
    | Int(i: int)
    | Str(s: string)
    | Obj(className: string)
    | Arr(json: string)
    | Null
    | Other(text: string)

  /** One backtrace entry; a missing key is the empty value of its type. */
  datatype Frame = Frame(file: string, line: int, owner: string, callType: string, func: string, args: seq<Arg>)

  /** PHP's `empty` on a string. */
  predicate Blank(s: string) {
    s == "" || s == "0"
  }

  const ORANGE: string := "#ff6800"
  const YELLOW: string := "#ffea00"
  const GREEN: string := "#07a730"
  const BLUE: string := "#0090ff"
  const CHARTREUSE: string := "#baff00"
  const WHITE: string := "#ffffff"
  const DUMP_LIMIT: nat := 500

  /** The colour an argument is printed in; `NULL` gets none. */
  function ArgColor(palette: string -> nat, a: Arg): (r: string)
    ensures r == "" <==> a.Null?
    ensures !a.Null? ==> IsSgr(r)
  {
    match a
    case Bool(_) => FgRGB(palette, YELLOW, false)
    case Int(_) => FgRGB(palette, GREEN, false)
    case Str(_) => FgRGB(palette, BLUE, false)
    case Obj(_) => FgRGB(palette, ORANGE, false)
    case Arr(_) => FgRGB(palette, CHARTREUSE, false)
    case Null => ""
    case Other(_) => FgRGB(palette, WHITE, false)
  }

  function Placeholder(n: nat): string {
    "Array[" + NatStr(n) + "]"
  }

  /** The inline text of an argument; `n` is the number an array argument is given. */
  function ArgText(a: Arg, n: nat): string {
    match a
    case Bool(b) => if b then "1" else ""
    case Int(i) => IntStr(i)
    case Str(s) => s
    case Obj(c) => c
    case Arr(_) => Placeholder(n)
    case Null => "NULL"
    case Other(t) => t
  }

  /** How many of the first `n` arguments are arrays. */
  function ArraysBefore(args: seq<Arg>, n: nat): (r: nat)
    requires n <= |args|
    ensures r <= n
  {
    if n == 0 then 0
    else ArraysBefore(args, n - 1) + (if args[n - 1].Arr? then 1 else 0)
  }

  /** How many of the arguments are arrays. */
  function CountArrays(args: seq<Arg>): nat {
    ArraysBefore(args, |args|)
  }

  /** The value `$arrayCount` has when argument `i` is reached. */
  function Ordinal(args: seq<Arg>, i: nat): nat
    requires i <= |args|
  {
    ArraysBefore(args, i) + 1
  }

  /** The separator after every argument of frame `k`, decided by the frame index as the source does. */
  function Separator(k: nat, args: seq<Arg>): string {
    if k < |args| - 1 then ", " else ""
  }

  function ArgPiece(palette: string -> nat, k: nat, args: seq<Arg>, i: nat): string
    requires i < |args|
  {
    ArgColor(palette, args[i]) + ArgText(args[i], Ordinal(args, i)) + RESET + Separator(k, args)
  }

  function Pieces(palette: string -> nat, k: nat, args: seq<Arg>): (r: seq<string>)
    ensures |r| == |args|
  {
    seq(|args|, i requires 0 <= i < |args| => ArgPiece(palette, k, args, i))
  }

  function FilePart(t: Frame): string {
    if !Blank(t.file) then t.file else ""
  }

  function LinePart(t: Frame): string {
    if t.line != 0 then "(" + BOLD + IntStr(t.line) + RESET + ") " else ""
  }

  function OwnerPart(palette: string -> nat, t: Frame): string {
    if !Blank(t.owner) then FgRGB(palette, ORANGE, true) + t.owner + RESET else ""
  }

  function CallTypePart(t: Frame): string {
    if !Blank(t.callType) then t.callType else ""
  }

  function FuncPart(palette: string -> nat, t: Frame): string {
    if !Blank(t.func) then FgRGB(palette, YELLOW, true) + t.func + RESET + "( " else ""
  }

  /** `#k `, the file, `(line) `, the class, the call type and `function( `, each only when present. */
  function FrameHead(palette: string -> nat, k: nat, t: Frame): string {
    "#" + NatStr(k) + " " + FilePart(t) + LinePart(t) + OwnerPart(palette, t) + CallTypePart(t) + FuncPart(palette, t)
  }

  /** The line printed for frame `k`. */
  function FrameLine(palette: string -> nat, k: nat, t: Frame): string {
    FrameHead(palette, k, t) + Concat(Pieces(palette, k, t.args)) + " )"
  }

  function MoreNotShown(palette: string -> nat): string {
    FgRGB(palette, CHARTREUSE, false) + "[more not shown]" + RESET
  }

  /** At most the first 500 characters of a dump, marked when something was cut. */
  function Truncated(palette: string -> nat, json: string): (r: string)
    ensures |json| <= DUMP_LIMIT ==> r == json
    ensures |json| > DUMP_LIMIT ==> r == json[..DUMP_LIMIT] + MoreNotShown(palette)
  {
    (if |json| <= DUMP_LIMIT then json else json[..DUMP_LIMIT])
    + (if |json| > DUMP_LIMIT then MoreNotShown(palette) else "")
  }

  /** The follow-up text for the array argument numbered `n`. */
  function ArrayNote(palette: string -> nat, n: nat, json: string): string {
    (FgRGB(palette, CHARTREUSE, false) + Placeholder(n) + ": " + RESET) + Truncated(palette, json)
  }

  function Notes(palette: string -> nat, args: seq<Arg>): (r: seq<string>)
    ensures |r| == |args|
  {
    seq(|args|, i requires 0 <= i < |args| =>
      if args[i].Arr? then ArrayNote(palette, Ordinal(args, i), args[i].json) else "")
  }

  /** The text `$after` holds once all arguments of a frame are seen: the array notes, in order. */
  function After(palette: string -> nat, args: seq<Arg>): string {
    Concat(Notes(palette, args))
  }

  /** A frame has follow-up text exactly when one of its arguments is an array. */
  lemma NoArraysNoNotes(palette: string -> nat, args: seq<Arg>)
    ensures After(palette, args) == "" <==> forall i :: 0 <= i < |args| ==> !args[i].Arr?
  {
    var notes := Notes(palette, args);
    ConcatEmpty(notes);
    forall i | 0 <= i < |args| && args[i].Arr?
      ensures notes[i] != ""
    {
      assert ArrayNote(palette, Ordinal(args, i), args[i].json)[0] == ESC;
    }
  }

  /** The `switch (gettype($a))` of `MakePrettyException`: colour, inline text and follow-up note of one argument. */
  method RenderArg(palette: string -> nat, a: Arg, arrayCount: nat) returns (color: string, text: string, note: string)
    ensures color == ArgColor(palette, a)
    ensures text == ArgText(a, arrayCount)
    ensures note == if a.Arr? then ArrayNote(palette, arrayCount, a.json) else ""
  {
    note := "";
    color := "";
    match a {
      case Bool(b) =>
        color := FgRGB(palette, YELLOW, false);
        text := if b then "1" else "";
      case Int(i) =>
        color := FgRGB(palette, GREEN, false);
        text := IntStr(i);
      case Str(s) =>
        color := FgRGB(palette, BLUE, false);
        text := s;
      case Obj(c) =>
        color := FgRGB(palette, ORANGE, false);
        text := c;
      case Arr(json) =>
        color := FgRGB(palette, CHARTREUSE, false);
        note := FgRGB(palette, CHARTREUSE, false) + Placeholder(arrayCount) + ": " + RESET;
        note := note + Truncated(palette, json);
        text := Placeholder(arrayCount);
      case Null =>
        text := "NULL";
      case Other(s) =>
        color := FgRGB(palette, WHITE, false);
        text := s;
    }
  }

  /** The head of the loop body of `MakePrettyException`: `#k ` and the frame's location and callee. */
  method BuildHead(palette: string -> nat, k: nat, t: Frame) returns (line: string)
    ensures line == FrameHead(palette, k, t)
  {
    line := "#" + NatStr(k) + " ";
    ghost var head := line;
    if !Blank(t.file) {
      line := line + t.file;
    }
    head := head + FilePart(t);
    assert line == head;
    if t.line != 0 {
      line := line + ("(" + BOLD + IntStr(t.line) + RESET + ") ");
    }
    head := head + LinePart(t);
    assert line == head;
    if !Blank(t.owner) {
      line := line + (FgRGB(palette, ORANGE, true) + t.owner + RESET);
    }
    head := head + OwnerPart(palette, t);
    assert line == head;
    if !Blank(t.callType) {
      line := line + t.callType;
    }
    head := head + CallTypePart(t);
    assert line == head;
    if !Blank(t.func) {
      line := line + (FgRGB(palette, YELLOW, true) + t.func + RESET + "( ");
    }
  }

  /**
   * The argument loop of `MakePrettyException` for frame `k`: appends each
   * argument's piece to the line and each array's note to the follow-up text,
   * counting arrays in `arrayCount` from 1.
   */
  method BuildArgs(palette: string -> nat, k: nat, args: seq<Arg>) returns (text: string, after: string)
    ensures text == Concat(Pieces(palette, k, args))
    ensures after == After(palette, args)
  {
    text, after := "", "";
    var arrayCount := 1;
    for j := 0 to |args|
      invariant arrayCount == Ordinal(args, j)
      invariant text == Concat(Pieces(palette, k, args)[..j])
      invariant after == Concat(Notes(palette, args)[..j])
    {
      ConcatStep(Pieces(palette, k, args), j);
      ConcatStep(Notes(palette, args), j);
      text, after, arrayCount := AppendArg(palette, k, args, j, text, after, arrayCount);
    }
    assert Pieces(palette, k, args)[..|args|] == Pieces(palette, k, args);
    assert Notes(palette, args)[..|args|] == Notes(palette, args);
  }

  /** One pass of the argument loop: argument `j`'s piece goes on the line, its note on the follow-up text. */
  method AppendArg(palette: string -> nat, k: nat, args: seq<Arg>, j: nat, text: string, after: string, arrayCount: nat)
    returns (text': string, after': string, arrayCount': nat)
    requires j < |args| && arrayCount == Ordinal(args, j)
    ensures text' == text + Pieces(palette, k, args)[j]
    ensures after' == after + Notes(palette, args)[j]
    ensures arrayCount' == Ordinal(args, j + 1)
  {
    var color, shown, note := RenderArg(palette, args[j], arrayCount);
    arrayCount' := arrayCount;
    if args[j].Arr? {
      arrayCount' := arrayCount + 1;
    }
    var piece := color + shown + RESET;
    if k < |args| - 1 {
      piece := piece + ", ";
    }
    assert piece == ArgPiece(palette, k, args, j);
    text' := text + piece;
    after' := after + note;
  }

  lemma ConcatStep(ss: seq<string>, j: nat)
    requires j < |ss|
    ensures Concat(ss[..j + 1]) == Concat(ss[..j]) + ss[j]
  {
    assert ss[..j + 1][..j] == ss[..j];
  }

  /** The loop body of `MakePrettyException` for frame `k`: its line and its follow-up text. */
  method BuildFrame(palette: string -> nat, k: nat, t: Frame) returns (line: string, after: string)
    ensures line == FrameLine(palette, k, t)
    ensures after == After(palette, t.args)
  {
    line := BuildHead(palette, k, t);
    var shown;
    shown, after := BuildArgs(palette, k, t.args);
    line := line + shown + " )";
  }

  /** Counting one more argument adds one exactly when it is an array. */
  lemma {:induction false} CountMonotone(args: seq<Arg>, i: nat, j: nat)
    requires i <= j <= |args|
    ensures ArraysBefore(args, i) <= ArraysBefore(args, j)
    decreases j - i
  {
    if i < j {
      CountMonotone(args, i, j - 1);
    }
  }

  /**
   * Array arguments are numbered in argument order: a later array always gets
   * a larger number, and no number exceeds the count of arrays in the frame.
   */
  lemma OrdinalsIncrease(args: seq<Arg>, i: nat, j: nat)
    requires i < j < |args| && args[i].Arr?
    ensures 1 <= Ordinal(args, i) < Ordinal(args, j)
    ensures args[j].Arr? ==> Ordinal(args, j) <= CountArrays(args)
  {
    CountMonotone(args, i + 1, j);
    if args[j].Arr? {
      CountMonotone(args, j + 1, |args|);
    }
  }

  /** Every array argument's number lies between 1 and the count of arrays in the frame. */
  lemma OrdinalWithinCount(args: seq<Arg>, i: nat)
    requires i < |args| && args[i].Arr?
    ensures 1 <= Ordinal(args, i) <= CountArrays(args)
  {
    CountMonotone(args, i + 1, |args|);
  }

  /** Every number from 1 to the count of arrays is given to some array argument. */
  lemma EveryOrdinalUsed(args: seq<Arg>, n: nat)
    requires 1 <= n <= CountArrays(args)
    ensures exists i :: 0 <= i < |args| && args[i].Arr? && Ordinal(args, i) == n
  {
    OrdinalReached(args, |args|, n);
  }

  lemma {:induction false} OrdinalReached(args: seq<Arg>, m: nat, n: nat)
    requires m <= |args| && 1 <= n <= ArraysBefore(args, m)
    ensures exists i :: 0 <= i < m && args[i].Arr? && Ordinal(args, i) == n
    decreases m
  {
    if args[m - 1].Arr? && n == ArraysBefore(args, m) {
      assert Ordinal(args, m - 1) == n;
    } else {
      OrdinalReached(args, m - 1, n);
    }
  }

  lemma {:induction false} CountSameShape(a: seq<Arg>, b: seq<Arg>, n: nat)
    requires n <= |a| == |b|
    requires forall i :: 0 <= i < n ==> a[i].Arr? == b[i].Arr?
    ensures ArraysBefore(a, n) == ArraysBefore(b, n)
    decreases n
  {
    if n > 0 {
      CountSameShape(a, b, n - 1);
    }
  }

  /** Two argument lists that agree at `j` up to an array's dump, with as many arrays before `j`, give the same piece. */
  lemma SamePiece(palette: string -> nat, k: nat, a: seq<Arg>, b: seq<Arg>, j: nat)
    requires |a| == |b| && j < |a|
    requires a[j] == b[j] || (a[j].Arr? && b[j].Arr?)
    requires ArraysBefore(a, j) == ArraysBefore(b, j)
    ensures ArgPiece(palette, k, a, j) == ArgPiece(palette, k, b, j)
  {
    assert ArgColor(palette, a[j]) == ArgColor(palette, b[j]);
    assert ArgText(a[j], Ordinal(a, j)) == ArgText(b[j], Ordinal(b, j));
    assert Separator(k, a) == Separator(k, b);
  }

  /** An array's dump never shows in the frame line: replacing it leaves the line as it was. */
  lemma FrameLineIgnoresDumps(palette: string -> nat, k: nat, t: Frame, i: nat, json: string)
    requires i < |t.args| && t.args[i].Arr?
    ensures FrameLine(palette, k, t.(args := t.args[i := Arr(json)])) == FrameLine(palette, k, t)
  {
    var args := t.args;
    var args' := args[i := Arr(json)];
    var p, p' := Pieces(palette, k, args), Pieces(palette, k, args');
    forall j | 0 <= j < |args| ensures p'[j] == p[j] {
      CountSameShape(args', args, j);
      SamePiece(palette, k, args', args, j);
    }
    assert p' == p;
  }

  /** Whether an argument is followed by `, ` depends only on the frame index and the argument count. */
  lemma SeparatorByFrameIndex(palette: string -> nat, k: nat, args: seq<Arg>, i: nat)
    requires i < |args|
    ensures var p := ArgPiece(palette, k, args, i);
            (|p| >= 2 && p[|p| - 2..] == ", ") <==> k < |args| - 1
  {
    var p := ArgPiece(palette, k, args, i);
    if k >= |args| - 1 {
      assert p[|p| - 1] == 'm';
    }
  }

  /**
   * What the frame-index comparison does to a call with two arguments: as
   * frame #0 a separator follows the last argument as well, and as frame #1
   * or later no separator is written between the two.
   */
  lemma SeparatorQuirk(palette: string -> nat, k: nat, x: int, y: int)
    ensures var p := Pieces(palette, 0, [Int(x), Int(y)]); p[1][|p[1]| - 2..] == ", "
    ensures var p := Pieces(palette, k + 1, [Int(x), Int(y)]); p[0][|p[0]| - 1] == 'm'
  {
  }

  /** The follow-up text for an array shows at most 500 characters of its dump, and says so when it cut. */
  lemma NoteShowsAtMostLimit(palette: string -> nat, n: nat, json: string)
    ensures var head := FgRGB(palette, CHARTREUSE, false) + Placeholder(n) + ": " + RESET;
            var note := ArrayNote(palette, n, json);
            |head| <= |note| && note[..|head|] == head &&
            (|json| <= DUMP_LIMIT ==> note[|head|..] == json) &&
            (|json| > DUMP_LIMIT ==> note[|head|..] == json[..DUMP_LIMIT] + MoreNotShown(palette))
  {
  }
}
