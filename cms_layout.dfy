/**
 * Where the CMS label and its sublabel go (vhbbtools/plotting/decorations/cms_label.py),
 * as functions of the label's style attributes and the pad's margins. The
 * CMSLabel class in module CmsLabels draws exactly what `Plan` describes.
 */
module CmsLayout {
  import opened Wrappers
  import opened Alignment
  import opened Surface

  /** The four recognised values of `position`. */
  datatype Position = Left | Center | Right | Outside

  /** The error raised for any other value of `position`. */
  datatype PositionError = PositionError(position: string)

  /** The sublabel's attributes: its scale is relative to the label's size. */
  datatype SublabelConfig = SublabelConfig(
    text: string, font: int, scale: real, paddingLeft: real, paddingTop: real)

  /** The style attributes `draw` reads: the label's and its sublabel's. */
  datatype Config = Config(
    text: string, position: string, font: int, scale: real,
    paddingLeft: real, paddingRight: real, paddingTop: Option<real>,
    sublabel: SublabelConfig)

  /** The attributes a new CMSLabel starts with. */
  const DefaultConfig: Config := Config(
    "CMS", "left", 61, 0.75, 0.045, 0.045, None,
    SublabelConfig("", 52, 0.76, 0.12, 1.2))

  /** Which layout a `position` string selects, if any. */
  function ParsePosition(s: string): (r: Option<Position>)
    ensures r.Some? <==> s == "left" || s == "center" || s == "right" || s == "outside"
    ensures r == Some(Outside) <==> s == "outside"
  {
    if s == "left" then Some(Left)
    else if s == "center" then Some(Center)
    else if s == "right" then Some(Right)
    else if s == "outside" then Some(Outside)
    else None
  }

  /**
   * `padding_top or fallback`: Python's `or` falls back both when padding_top
   * is None and when it is zero.
   */
  function EffectivePaddingTop(paddingTop: Option<real>, fallback: real): (r: real)
    ensures paddingTop == None || paddingTop == Some(0.0) ==> r == fallback
    ensures paddingTop.Some? && paddingTop.value != 0.0 ==> r == paddingTop.value
  {
    match paddingTop
    case None => fallback
    case Some(p) => if p != 0.0 then p else fallback
  }

  /** The default padding_top: a fraction of the frame height inside, of the top margin outside. */
  function DefaultPaddingTop(pos: Position): real
  {
    if pos == Outside then 0.8 else 0.035
  }

  /** The alignment each layout assigns to the label, as the name pair the source sets. */
  function PositionAlignment(pos: Position): AlignRequest
  {
    match pos
    case Left => Names("left", "top")
    case Center => Names("center", "top")
    case Right => Names("right", "top")
    case Outside => Names("left", "bottom")
  }

  /** The code the label's alignment resolves to: top-anchored inside, bottom-left outside. */
  function PositionCode(pos: Position): (code: int)
    ensures Resolve(PositionAlignment(pos)) == Success(code)
    ensures code == match pos
      case Left => 13
      case Center => 23
      case Right => 33
      case Outside => 11
  {
    Resolve(PositionAlignment(pos)).value
  }

  /** The label's (x, y) for each layout, given its paddings (padding_top already defaulted). */
  function LabelAnchor(pos: Position, paddingLeft: real, paddingRight: real, paddingTop: real, m: Margins): (real, real)
  {
    match pos
    case Left => (m.left + paddingLeft * FrameWidth(m), FrameTop(m) - paddingTop * FrameHeight(m))
    case Center => (m.left + 0.5 * FrameWidth(m), FrameTop(m) - paddingTop * FrameHeight(m))
    case Right => (FrameRight(m) - paddingRight * FrameWidth(m), FrameTop(m) - paddingTop * FrameHeight(m))
    case Outside => (m.left, 1.0 - paddingTop * m.top)
  }

  /** The label's draw: its anchor, size scale * top margin, and its layout's alignment code. */
  function LabelDraw(pos: Position, c: Config, m: Margins): Latex
  {
    var top := EffectivePaddingTop(c.paddingTop, DefaultPaddingTop(pos));
    var (x, y) := LabelAnchor(pos, c.paddingLeft, c.paddingRight, top, m);
    Latex(x, y, c.text, c.font, c.scale * m.top, PositionCode(pos))
  }

  /** The sublabel's draw below the label (inside layouts): same x, lower by padding_top label sizes. */
  function SublabelBelow(s: SublabelConfig, main: Latex): Latex
  {
    Latex(main.x, main.y - s.paddingTop * main.size, s.text, s.font, s.scale * main.size, main.align)
  }

  /** The sublabel's draw beside the label (outside layout): same y, padded from the left margin. */
  function SublabelBeside(s: SublabelConfig, m: Margins, main: Latex): Latex
  {
    Latex(m.left + s.paddingLeft * FrameWidth(m), main.y, s.text, s.font, s.scale * main.size, main.align)
  }

  /** The sublabel's draw, relative to the label's: below it inside the frame, beside it outside. */
  function SublabelDraw(pos: Position, s: SublabelConfig, m: Margins, main: Latex): Latex
  {
    if pos == Outside then SublabelBeside(s, m, main) else SublabelBelow(s, main)
  }

  /**
   * Everything one `draw` puts on the pad, in order, or the PositionError it raises
   * first. The label is drawn once; the sublabel once more exactly when its text is
   * not empty.
   */
  function Plan(c: Config, m: Margins): (r: Result<seq<Latex>, PositionError>)
    ensures r.Failure? <==> ParsePosition(c.position).None?
    ensures r.Failure? ==> r.error == PositionError(c.position)
    ensures r.Success? ==> |r.value| == if c.sublabel.text == "" then 1 else 2
    ensures r.Success? ==> r.value[0].text == c.text && r.value[0].font == c.font
    ensures r.Success? && c.sublabel.text != "" ==> r.value[1].text == c.sublabel.text && r.value[1].font == c.sublabel.font
  {
    match ParsePosition(c.position)
    case None => Failure(PositionError(c.position))
    case Some(pos) =>
      var main := LabelDraw(pos, c, m);
      if c.sublabel.text == "" then Success([main]) else Success([main, SublabelDraw(pos, c.sublabel, m, main)])
  }

  /**
   * The label's placement: size scale * top margin from the margins given, the
   * alignment code of its layout, and the coordinates of its layout.
   */
  lemma LabelPlacement(c: Config, m: Margins)
    requires Plan(c, m).Success?
    ensures var d := Plan(c, m).value[0];
      var w, h := 1.0 - m.left - m.right, 1.0 - m.top - m.bottom;
      d.size == c.scale * m.top &&
      match c.position
      case "left" =>
        d.align == 13 && d.x == m.left + c.paddingLeft * w &&
        d.y == 1.0 - m.top - EffectivePaddingTop(c.paddingTop, 0.035) * h
      case "center" =>
        d.align == 23 && d.x == m.left + 0.5 * w &&
        d.y == 1.0 - m.top - EffectivePaddingTop(c.paddingTop, 0.035) * h
      case "right" =>
        d.align == 33 && d.x == 1.0 - m.right - c.paddingRight * w &&
        d.y == 1.0 - m.top - EffectivePaddingTop(c.paddingTop, 0.035) * h
      case _ =>
        d.align == 11 && d.x == m.left && d.y == 1.0 - EffectivePaddingTop(c.paddingTop, 0.8) * m.top
  {
  }

  /**
   * The sublabel, when drawn, takes scale * the label's size and the label's
   * alignment; inside it keeps the label's x and sits padding_top label sizes
   * lower, outside it keeps the label's y and is padded from the left margin.
   */
  lemma SublabelPlacement(c: Config, m: Margins)
    requires Plan(c, m).Success? && c.sublabel.text != ""
    ensures var d, s := Plan(c, m).value[0], Plan(c, m).value[1];
      s.size == c.sublabel.scale * d.size && s.align == d.align &&
      if c.position == "outside" then
        s.y == d.y && s.x == m.left + c.sublabel.paddingLeft * (1.0 - m.left - m.right)
      else
        s.x == d.x && s.y == d.y - c.sublabel.paddingTop * d.size
  {
  }

  /**
   * The sublabel is drawn below the label inside the frame and to its right
   * outside the frame: inside it shares the label's x and is not higher;
   * outside it shares the label's y and does not start left of it.
   */
  lemma SublabelBelowOrRight(c: Config, m: Margins)
    requires Plan(c, m).Success? && c.sublabel.text != "" && ValidMargins(m)
    requires 0.0 <= c.scale && 0.0 <= c.sublabel.paddingTop && 0.0 <= c.sublabel.paddingLeft
    ensures var d, s := Plan(c, m).value[0], Plan(c, m).value[1];
      if c.position == "outside" then s.y == d.y && s.x >= d.x
      else s.x == d.x && s.y <= d.y
  {
    var pos := ParsePosition(c.position).value;
    var d := LabelDraw(pos, c, m);
    assert Plan(c, m).value == [d, SublabelDraw(pos, c.sublabel, m, d)];
    assert 0.0 <= d.size by {
      assert d.size == c.scale * m.top;
    }
    if pos == Outside {
      assert d.x == m.left;
      assert 0.0 <= c.sublabel.paddingLeft * FrameWidth(m);
    } else {
      assert 0.0 <= c.sublabel.paddingTop * d.size;
    }
  }

  /**
   * The label's size is recomputed from the margins it is drawn with: with a
   * non-zero scale, two pads whose top margins differ get labels of different sizes.
   */
  lemma SizeFollowsTopMargin(c: Config, m: Margins, m': Margins)
    requires Plan(c, m).Success? && c.scale != 0.0 && m.top != m'.top
    ensures Plan(c, m').Success? && Plan(c, m).value[0].size != Plan(c, m').value[0].size
  {
    var pos := ParsePosition(c.position).value;
    assert Plan(c, m).value[0] == LabelDraw(pos, c, m);
    assert Plan(c, m').value[0] == LabelDraw(pos, c, m');
    if c.scale * m.top == c.scale * m'.top {
      ScaleCancels(c.scale, m.top, m'.top);
    }
  }

  /** A non-zero factor cancels: a * b == a * b' implies b == b'. */
  lemma ScaleCancels(a: real, b: real, b': real)
    requires a != 0.0 && a * b == a * b'
    ensures b == b'
  {
    assert b == (a * b) / a && b' == (a * b') / a;
  }

  /** An explicit padding_top of zero places the label exactly as no padding_top does. */
  lemma ZeroPaddingTopIsDefault(c: Config, m: Margins)
    ensures Plan(c.(paddingTop := Some(0.0)), m) == Plan(c.(paddingTop := None), m)
  {
    var zero, none := c.(paddingTop := Some(0.0)), c.(paddingTop := None);
    if pos :| ParsePosition(c.position) == Some(pos) {
      var fallback := DefaultPaddingTop(pos);
      assert EffectivePaddingTop(zero.paddingTop, fallback) == EffectivePaddingTop(none.paddingTop, fallback);
      assert LabelDraw(pos, zero, m) == LabelDraw(pos, none, m);
    }
  }

  /** Paddings that are fractions: padding_left/right and (when set) padding_top in [0, 1]. */
  predicate FractionalPaddings(c: Config)
  {
    0.0 <= c.paddingLeft <= 1.0 && 0.0 <= c.paddingRight <= 1.0 &&
    (c.paddingTop.Some? ==> 0.0 <= c.paddingTop.value <= 1.0)
  }

  /** An inside anchor is inside the frame when the margins are real and the paddings fractions. */
  lemma InsideAnchorInFrame(pos: Position, c: Config, m: Margins)
    requires pos != Outside && ValidMargins(m) && FractionalPaddings(c)
    ensures InFrame(m, LabelDraw(pos, c, m).x, LabelDraw(pos, c, m).y)
  {
    var w, h := FrameWidth(m), FrameHeight(m);
    var top := EffectivePaddingTop(c.paddingTop, 0.035);
    var p := match pos case Left => c.paddingLeft case Right => c.paddingRight case _ => 0.5;
    FractionOf(top, h);
    FractionOf(p, w);
    var dy, dx := top * h, p * w;
    var anchor := LabelAnchor(pos, c.paddingLeft, c.paddingRight, top, m);
    assert anchor.1 == FrameTop(m) - dy;
    assert anchor.0 == if pos == Right then FrameRight(m) - dx else m.left + dx;
  }

  /** With real margins and fractional paddings, an inside label is anchored inside the frame. */
  lemma InsideLabelInFrame(c: Config, m: Margins)
    requires ValidMargins(m) && FractionalPaddings(c)
    requires c.position == "left" || c.position == "center" || c.position == "right"
    ensures Plan(c, m).Success? && InFrame(m, Plan(c, m).value[0].x, Plan(c, m).value[0].y)
  {
    InsideAnchorInFrame(ParsePosition(c.position).value, c, m);
  }

  /** With real margins and padding_top in [0, 1], an outside label sits in the top margin at the frame's left edge. */
  lemma OutsideLabelInTopMargin(c: Config, m: Margins)
    requires ValidMargins(m) && c.position == "outside"
    requires c.paddingTop.Some? ==> 0.0 <= c.paddingTop.value <= 1.0
    ensures Plan(c, m).Success? && Plan(c, m).value[0].x == m.left && InTopMargin(m, Plan(c, m).value[0].y)
  {
    var top := EffectivePaddingTop(c.paddingTop, 0.8);
    FractionOf(top, m.top);
    var dy := top * m.top;
    assert LabelAnchor(Outside, c.paddingLeft, c.paddingRight, top, m).1 == 1.0 - dy;
  }

  /** Default attributes on a default CMS canvas: the label lands at (0.1578, 0.892). */
  lemma DefaultLeftPlacement()
    ensures Plan(DefaultConfig, CanvasMargins) == Success([Latex(0.1578, 0.892, "CMS", 61, 0.06, 13)])
  {
  }

  /** Outside on a default CMS canvas: the label lands at (0.12, 0.936), aligned bottom-left. */
  lemma DefaultOutsidePlacement()
    ensures Plan(DefaultConfig.(position := "outside"), CanvasMargins) ==
      Success([Latex(0.12, 0.936, "CMS", 61, 0.06, 11)])
  {
  }
}
