/**
 * The drawing surface the labels are placed on: the active pad's margins and
 * the text it has been asked to draw. Coordinates are NDC fractions of the
 * pad, as reals.
 */
module Surface {

  /** The pad's margins (left, right, bottom, top) as fractions of its width and height. */
  datatype Margins = Margins(left: real, right: real, bottom: real, top: real)

  /** One call of ROOT's DrawLatexNDC: where, what, and with which text attributes. */
  datatype Latex = Latex(x: real, y: real, text: string, font: int, size: real, align: int)

  /** The text attributes a fresh ROOT text object starts with (taken from the global style). */
  datatype TextAttributes = TextAttributes(font: int, size: real, align: int)

  /** Margins of a real pad: each a fraction, and the frame between them not negative. */
  predicate ValidMargins(m: Margins)
  {
    0.0 <= m.left <= 1.0 && 0.0 <= m.right <= 1.0 &&
    0.0 <= m.bottom <= 1.0 && 0.0 <= m.top <= 1.0 &&
    m.left + m.right <= 1.0 && m.bottom + m.top <= 1.0
  }

  /** Width of the frame, the plotting area inside the margins. */
  function FrameWidth(m: Margins): real { 1.0 - m.left - m.right }

  /** Height of the frame. */
  function FrameHeight(m: Margins): real { 1.0 - m.top - m.bottom }

  /** The frame's right and top edges in NDC. */
  function FrameRight(m: Margins): real { 1.0 - m.right }
  function FrameTop(m: Margins): real { 1.0 - m.top }

  /** The point (x, y) lies inside the frame, edges included. */
  predicate InFrame(m: Margins, x: real, y: real)
  {
    m.left <= x <= FrameRight(m) && m.bottom <= y <= FrameTop(m)
  }

  /** The point's height lies in the band of the top margin, above the frame. */
  predicate InTopMargin(m: Margins, y: real)
  {
    FrameTop(m) <= y <= 1.0
  }

  /** The margins a CMS canvas is created with (left 0.12, right 0.04, bottom 0.12, top 0.08). */
  const CanvasMargins: Margins := Margins(0.12, 0.04, 0.12, 0.08)

  /** A fraction p of a non-negative length w is between 0 and w. */
  lemma FractionOf(p: real, w: real)
    requires 0.0 <= p <= 1.0 && 0.0 <= w
    ensures 0.0 <= p * w <= w
  {
    assert p * w <= 1.0 * w by {
      assert (1.0 - p) * w >= 0.0;
    }
  }

  /**
   * The active pad (ROOT's gPad). Its margins are read by the labels, and each
   * DrawLatexNDC on it appends one record to `drawn`.
   */
  class Pad {
    var margin: Margins
    var drawn: seq<Latex>

    constructor (margin: Margins)
      ensures this.margin == margin && drawn == []
    {
      this.margin := margin;
      drawn := [];
    }
  }
}
