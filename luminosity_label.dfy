/**
 * The luminosity label (vhbbtools/plotting/decorations/luminosity_label.py):
 * one text anchored at the frame's right edge, inside the top margin.
 */
module Luminosity {
  import opened Wrappers
  import opened Alignment
  import opened Surface
  import opened Bases

  /**
   * The label's one draw: at the frame's right edge, padding_top top-margin
   * heights below the pad's top, with size scale * top margin. Text, font and
   * alignment are whatever the label holds.
   */
  function LuminosityDraw(text: string, font: int, align: int, scale: real, paddingTop: real, m: Margins): (d: Latex)
    ensures d.x == FrameRight(m)
    ensures d.text == text && d.font == font && d.align == align
  {
    Latex(1.0 - m.right, 1.0 - paddingTop * m.top, text, font, scale * m.top, align)
  }

  /** With real margins and padding_top in [0, 1], the label sits in the top margin, outside the frame. */
  lemma InTopMarginBand(text: string, font: int, align: int, scale: real, paddingTop: real, m: Margins)
    requires ValidMargins(m) && 0.0 <= paddingTop <= 1.0
    ensures InTopMargin(m, LuminosityDraw(text, font, align, scale, paddingTop, m).y)
  {
    FractionOf(paddingTop, m.top);
    var dy := paddingTop * m.top;
    assert LuminosityDraw(text, font, align, scale, paddingTop, m).y == 1.0 - dy;
  }

  /** The draw does not depend on the left or bottom margin. */
  lemma IgnoresLeftAndBottom(text: string, font: int, align: int, scale: real, paddingTop: real, m: Margins, m': Margins)
    requires m.right == m'.right && m.top == m'.top
    ensures LuminosityDraw(text, font, align, scale, paddingTop, m) == LuminosityDraw(text, font, align, scale, paddingTop, m')
  {
  }

  /** Default attributes on a default CMS canvas: size 0.048 at (0.96, 0.936), aligned right-bottom. */
  lemma DefaultPlacement(text: string)
    ensures LuminosityDraw(text, 42, 31, 0.6, 0.8, CanvasMargins) == Latex(0.96, 0.936, text, 42, 0.048, 31)
  {
  }

  class LuminosityLabel {
    /** The text object this label is. */
    const main: BaseLabel
    var scale: real
    var paddingTop: real

    /** A new luminosity label with the given text: font 42, scale 0.6, aligned (right, bottom), padding_top 0.8. */
    constructor (text: string, inherited: TextAttributes)
      ensures fresh(main)
      ensures main.text == text && main.font == 42 && main.align == 31
      ensures scale == 0.6 && paddingTop == 0.8
    {
      var m := new BaseLabel(inherited);
      m.text := text;
      m.SetFont(42);
      var outcome := m.SetAlign(Names("right", "bottom"));
      main := m;
      scale := 0.6;
      paddingTop := 0.8;
    }

    /**
     * Draws the label once (empty text included) with size recomputed from the
     * pad's current top margin; alignment, font and text stay as the caller set them.
     */
    method Draw(pad: Pad)
      modifies main`size, pad`drawn
      ensures main.size == scale * pad.margin.top
      ensures main.align == old(main.align) && main.font == old(main.font) && main.text == old(main.text)
      ensures pad.drawn == old(pad.drawn) +
        [LuminosityDraw(main.text, main.font, main.align, scale, paddingTop, pad.margin)]
    {
      var m := pad.margin;
      main.SetSize(scale * m.top);
      var x := 1.0 - m.right;
      var y := 1.0 - paddingTop * m.top;
      assert Latex(x, y, main.text, main.font, main.size, main.align) ==
        LuminosityDraw(main.text, main.font, main.align, scale, paddingTop, m);
      main.DrawLatexNDC(pad, x, y, main.text);
    }
  }
}
