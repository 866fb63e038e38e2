/**
 * The source preview of the error and exception handlers: the scan that
 * collects the lines around the failing line, and the rendering of each
 * collected line. The file is given as the lines `fgets` would return (each
 * with its own line break, if it has one); opening and closing it is not
 * part of this model.
 */
module SourcePreview {
  import opened Strings
  import opened Console

  const HIGHLIGHT_BG: string := "#9c7a04"
  const HIGHLIGHT_FG: string := "#FFFFFF"

  function Max(a: int, b: int): int {
    if a < b then b else a
  }

  function Min(a: int, b: int): int {
    if a < b then a else b
  }

  /** Line `n` is in the preview window around `errline`. */
  predicate InWindow(errline: int, n: int) {
    errline - 5 < n < errline + 5
  }

  /** The first line number the window can hold. */
  function WindowLow(errline: int): int {
    Max(1, errline - 4)
  }

  /** The numbered lines of the window among the first `upTo` lines of the file. */
  function Collected(lines: seq<string>, errline: int, upTo: nat): (r: seq<(int, string)>)
    requires upTo <= |lines|
  {
    var lo, hi := WindowLow(errline), Min(upTo, errline + 4);
    if hi < lo then []
    else seq(hi - lo + 1, j requires 0 <= j < hi - lo + 1 => (lo + j, lines[lo + j - 1]))
  }

  /** The preview: the numbered lines strictly between `errline - 5` and `errline + 5`. */
  function Window(lines: seq<string>, errline: int): seq<(int, string)> {
    Collected(lines, errline, |lines|)
  }

  /**
   * The window holds exactly the existing lines whose numbers lie strictly
   * between `errline - 5` and `errline + 5`, each with its own text, in
   * ascending order; so it holds at most nine lines.
   */
  lemma WindowExact(lines: seq<string>, errline: int)
    ensures var w := Window(lines, errline);
            forall j :: 0 <= j < |w| ==>
              1 <= w[j].0 <= |lines| && InWindow(errline, w[j].0) && w[j].1 == lines[w[j].0 - 1]
    ensures var w := Window(lines, errline);
            forall j, j' :: 0 <= j < j' < |w| ==> w[j].0 < w[j'].0
    ensures var w := Window(lines, errline);
            forall n :: 1 <= n <= |lines| && InWindow(errline, n) ==>
              exists j :: 0 <= j < |w| && w[j].0 == n
    ensures |Window(lines, errline)| <= 9
  {
    var w := Window(lines, errline);
    var lo := WindowLow(errline);
    forall n | 1 <= n <= |lines| && InWindow(errline, n)
      ensures exists j :: 0 <= j < |w| && w[j].0 == n
    {
      assert w[n - lo].0 == n;
    }
  }

  lemma CollectedStep(lines: seq<string>, errline: int, read: nat)
    requires read < |lines|
    ensures Collected(lines, errline, read + 1) ==
              Collected(lines, errline, read)
              + (if errline - 5 < read + 1 < errline + 5 then [(read + 1, lines[read])] else [])
  {
    var lo := WindowLow(errline);
    var a, b := Collected(lines, errline, read), Collected(lines, errline, read + 1);
    if errline - 5 < read + 1 < errline + 5 {
      assert |b| == |a| + 1;
      forall j | 0 <= j < |a| ensures b[j] == a[j] { }
      assert b == a + [(read + 1, lines[read])];
    }
  }

  lemma CollectedSaturates(lines: seq<string>, errline: int, a: nat, b: nat)
    requires errline + 4 <= a <= b <= |lines|
    ensures Collected(lines, errline, a) == Collected(lines, errline, b)
  {
  }

  /**
   * The scanning loop of `errorHandler` and `handler`: reads line after line,
   * keeps those in the window and stops after the first line past
   * `errline + 5`. `read` is the number of lines read.
   */
  method ScanPreview(lines: seq<string>, errline: int) returns (code: seq<(int, string)>, read: nat)
    ensures code == Window(lines, errline)
    ensures read == Min(|lines|, Max(1, errline + 6))
  {
    code := [];
    read := 0;
    var line := 1;
    while read < |lines|
      invariant read <= |lines| && line == read + 1
      invariant read <= Max(0, errline + 5)
      invariant code == Collected(lines, errline, read)
    {
      var buffer := lines[read];
      CollectedStep(lines, errline, read);
      read := read + 1;
      if line > errline - 5 && line < errline + 5 {
        code := code + [(line, buffer)];
      }
      if line > errline + 5 {
        CollectedSaturates(lines, errline, read, |lines|);
        break;
      }
      line := line + 1;
    }
  }

  /** The two sequences that mark the failing line. */
  function Highlight(palette: string -> nat): (r: string)
    ensures |r| > 0 && r[0] == ESC
  {
    BgRGB(palette, HIGHLIGHT_BG) + FgRGB(palette, HIGHLIGHT_FG, true)
  }

  /**
   * A preview line: its number, `: ` and its text with every line break
   * removed, behind the highlight exactly when it is the failing line.
   */
  function PreviewLine(palette: string -> nat, n: int, text: string, errline: int): (r: string)
    ensures '\n' !in r
    ensures n == errline ==> r == Highlight(palette) + IntStr(n) + ": " + Remove(text, '\n')
    ensures n != errline ==> r == IntStr(n) + ": " + Remove(text, '\n')
    ensures (r[0] == ESC) <==> n == errline
  {
    var plain := Remove(IntStr(n) + ": " + text, '\n');
    assert plain == IntStr(n) + ": " + Remove(text, '\n') by {
      RemoveAppend(IntStr(n) + ": ", text, '\n');
      RemoveAbsent(IntStr(n) + ": ", '\n');
    }
    if n == errline then Highlight(palette) + plain else plain
  }
}
