/**
 * Escape-sequence builder: ANSI Select Graphic Rendition (SGR) sequences as
 * defined in section 8.3.117 of ECMA-48, in the 256-colour forms
 * `38;5;n` (foreground) and `48;5;n` (background).
 *
 * The translation of a colour specification such as `#FF0000` into a palette
 * index (`Ansi::toAnsi`) is not part of this model: it is the uninterpreted
 * `palette` argument of `FgRGB` and `BgRGB`.
 */
module Console {
  import opened Strings

  const ESC: char := '\U{1B}'

  /** The SGR control sequence carrying the given parameter string. */
  function Sgr(params: string): string {
    [ESC, '['] + params + "m"
  }

  /** Starts with ESC `[` and ends with `m`: the shape of every SGR sequence. */
  predicate IsSgr(s: string) {
    |s| >= 3 && s[0] == ESC && s[1] == '[' && s[|s| - 1] == 'm'
  }

  const RESET: string := "\U{1B}[0m"
  const BOLD: string := "\U{1B}[1m"
  const ITALIC: string := "\U{1B}[3m"
  const UNDERLINE: string := "\U{1B}[4m"

  /** The four fixed sequences are SGR 0 (reset), 1 (bold), 3 (italic) and 4 (underline). */
  lemma StyleConstants()
    ensures RESET == Sgr("0") && BOLD == Sgr("1") && ITALIC == Sgr("3") && UNDERLINE == Sgr("4")
    ensures IsSgr(RESET) && IsSgr(BOLD) && IsSgr(ITALIC) && IsSgr(UNDERLINE)
  {
  }

  /** Foreground colour `color`; when `bold`, bold and colour in one sequence. */
  function Fg(color: nat, bold: bool): (r: string)
    ensures IsSgr(r) && '\n' !in r
  {
    if bold then "\U{1B}[1;38;5;" + NatStr(color) + "m"
    else "\U{1B}[38;5;" + NatStr(color) + "m"
  }

  /** Background colour `color`. */
  function Bg(color: nat): (r: string)
    ensures IsSgr(r) && '\n' !in r
  {
    "\U{1B}[48;5;" + NatStr(color) + "m"
  }

  /** `fg` is the SGR sequence `38;5;n`, preceded by the bold parameter `1;` when bold. */
  lemma FgShape(color: nat, bold: bool)
    ensures Fg(color, bold) == Sgr((if bold then "1;" else "") + "38;5;" + NatStr(color))
  {
  }

  /** `bg` is the SGR sequence `48;5;n`. */
  lemma BgShape(color: nat)
    ensures Bg(color) == Sgr("48;5;" + NatStr(color))
  {
  }

  /** The fourth character from the end of a colour sequence is not ESC, so none ends in `BOLD`. */
  lemma FgTail(color: nat, bold: bool)
    ensures |Fg(color, bold)| >= 4 && Fg(color, bold)[|Fg(color, bold)| - 4] != ESC
  {
    var s := Fg(color, bold);
    var d := NatStr(color);
    var k := |s| - 4;
    if k >= |s| - 1 - |d| {
      assert s[k] == d[k - (|s| - 1 - |d|)];
    }
  }

  lemma BgTail(color: nat)
    ensures |Bg(color)| >= 4 && Bg(color)[|Bg(color)| - 4] != ESC
  {
    var s := Bg(color);
    var d := NatStr(color);
    var k := |s| - 4;
    if k >= |s| - 1 - |d| {
      assert s[k] == d[k - (|s| - 1 - |d|)];
    }
  }

  /** A foreground sequence determines both its colour and its boldness. */
  lemma FgInjective(c1: nat, b1: bool, c2: nat, b2: bool)
    requires Fg(c1, b1) == Fg(c2, b2)
    ensures c1 == c2 && b1 == b2
  {
    var s := Fg(c1, b1);
    assert s[2] == (if b1 then '1' else '3');
    assert s[2] == (if b2 then '1' else '3');
    var k := if b1 then 9 else 7;
    assert s[k..|s| - 1] == NatStr(c1);
    assert Fg(c2, b2)[k..|s| - 1] == NatStr(c2);
    NatStrInjective(c1, c2);
  }

  /** A background sequence determines its colour, and is never a foreground sequence. */
  lemma BgInjective(c1: nat, c2: nat, b: bool)
    ensures Bg(c1) == Bg(c2) ==> c1 == c2
    ensures Bg(c1) != Fg(c2, b)
  {
    var s := Bg(c1);
    assert s[2] == '4';
    assert Fg(c2, b)[2] != '4';
    if Bg(c1) == Bg(c2) {
      assert s[7..|s| - 1] == NatStr(c1);
      assert Bg(c2)[7..|s| - 1] == NatStr(c2);
      NatStrInjective(c1, c2);
    }
  }

  /** `fgRGB`: the foreground sequence for the palette entry of a colour specification. */
  function FgRGB(palette: string -> nat, spec: string, bold: bool): string {
    Fg(palette(spec), bold)
  }

  /** `bgRGB`: the background sequence for the palette entry of a colour specification. */
  function BgRGB(palette: string -> nat, spec: string): string {
    Bg(palette(spec))
  }

  /**
   * The colour of a specification is whatever palette index `toAnsi` gives it:
   * `fgRGB` and `bgRGB` are the 256-colour SGR sequences of that index.
   */
  lemma RGBShape(palette: string -> nat, spec: string, bold: bool)
    ensures FgRGB(palette, spec, bold) == Sgr((if bold then "1;" else "") + "38;5;" + NatStr(palette(spec)))
    ensures BgRGB(palette, spec) == Sgr("48;5;" + NatStr(palette(spec)))
    ensures IsSgr(FgRGB(palette, spec, bold)) && IsSgr(BgRGB(palette, spec))
  {
    FgShape(palette(spec), bold);
    BgShape(palette(spec));
  }
}
