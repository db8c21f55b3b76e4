/** The two responsive layouts of the reel page, chosen by the viewport width,
    and the icon height each one uses. */
module Layout {

  import Codecs

  datatype Breakpoint = Desktop | Mobile

  /** The part of a breakpoint entry that the game reads: its name and the grid. */
  datatype Config = Config(breakpoint: Breakpoint, cols: nat, rows: nat)

  /** Widths above this many CSS pixels select the desktop layout. */
  const DesktopMinWidth: real := 767.98

  /** `getCurrentBreakpoint`; `window.innerWidth` is a whole number of CSS pixels. */
  function GetCurrentBreakpoint(width: nat): (bp: Breakpoint)
    ensures bp == Desktop <==> width >= 768
  {
    if width as real > DesktopMinWidth then Desktop else Mobile
  }

  /** `getConfigForCurrentBreakpoint` without the height callback, which is
      `IconHeight8` below. */
  function ConfigFor(bp: Breakpoint): (c: Config)
    ensures c.breakpoint == bp && c.rows == 3
  {
    match bp
    case Desktop => Config(Desktop, 5, 3)
    case Mobile => Config(Mobile, 3, 3)
  }

  /** `getIconHeight()` in eighths of a pixel: desktop divides the width by 8
      (at least 180 px), mobile is a fixed 140 px. */
  function IconHeight8(bp: Breakpoint, width: nat): (h8: nat)
    ensures h8 >= 8 * 140
    ensures bp == Mobile ==> h8 == 8 * 140
    ensures bp == Desktop && width <= 1440 ==> h8 == 8 * 180
    ensures bp == Desktop && width > 1440 ==> h8 == width
  {
    match bp
    case Desktop => if 1440 >= width then 1440 else width
    case Mobile => 1120
  }

  /** `Math.floor(Math.random() * n)` for a draw in [0, 1). */
  function RandomIndex(draw: real, n: nat): (k: int)
    requires 0.0 <= draw < 1.0 && n > 0
    ensures 0 <= k < n
  {
    var x := draw * n as real;
    assert x < n as real by {
      assert (1.0 - draw) * n as real > 0.0;
    }
    x.Floor
  }

  /** On mobile, and on desktop up to 1440 px wide, every icon is a whole number
      of pixels tall, so a strip moved to any icon reads back at that icon. */
  lemma WholeIconHeightReadsBack(bp: Breakpoint, width: nat, pos: nat)
    requires bp == Mobile || width <= 1440
    ensures Codecs.VisibleStartIndex(Codecs.TransformText(pos * IconHeight8(bp, width)), IconHeight8(bp, width)) == pos
  {
    var h8 := IconHeight8(bp, width);
    assert pos * h8 == 8 * (pos * (h8 / 8));
    Codecs.LandedStartDecodes(pos, h8);
  }

  /** On a desktop wider than 1440 px whose width is not a multiple of 8, the
      landing offset of the second scripted outcome, 103 icons down, has a
      fraction; the transform pattern then fails and the window reads as 0. */
  lemma WideDesktopMisreadsSecondOutcome(width: nat)
    requires width > 1440 && width % 8 != 0
    ensures Codecs.VisibleStartIndex(Codecs.TransformText(103 * IconHeight8(Desktop, width)), IconHeight8(Desktop, width)) == 0
  {
    var r := width % 8;
    MulMod8(103, width);
    ModOfMultiplePlus(12 * r, 7 * r);
    assert (103 * width) % 8 == (7 * r) % 8 != 0;
    Codecs.LandedStartDecodes(103, width);
  }

  /** The third scripted outcome, 106 icons down, is misread the same way on a
      desktop wider than 1440 px whose width is not a multiple of 4. */
  lemma WideDesktopMisreadsThirdOutcome(width: nat)
    requires width > 1440 && width % 4 != 0
    ensures Codecs.VisibleStartIndex(Codecs.TransformText(106 * IconHeight8(Desktop, width)), IconHeight8(Desktop, width)) == 0
  {
    var r := width % 8;
    MulMod8(106, width);
    ModOfMultiplePlus(13 * r, 2 * r);
    assert (106 * width) % 8 == (2 * r) % 8 != 0;
    Codecs.LandedStartDecodes(106, width);
  }

  lemma ModOfMultiplePlus(m: nat, x: nat)
    ensures (8 * m + x) % 8 == x % 8
  {
  }

  /** Only the last three bits of a width matter to a product's remainder by 8. */
  lemma MulMod8(k: nat, w: nat)
    ensures (k * w) % 8 == (k * (w % 8)) % 8
  {
    var q, r := w / 8, w % 8;
    assert k * w == 8 * (k * q) + k * r;
  }
}
