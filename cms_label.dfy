/**
 * The CMS label (vhbbtools/plotting/decorations/cms_label.py): a text label
 * with a nested sublabel, drawn at one of four layouts relative to the pad's
 * margins. Each draw method sets the label's size and alignment and then
 * draws, exactly as module CmsLayout describes.
 */
module CmsLabels {
  import opened Wrappers
  import opened Alignment
  import opened Surface
  import opened Bases
  import opened CmsLayout

  class CMSLabel {
    /** The text object this label is, and its sublabel. */
    const main: BaseLabel
    const sublabel: BaseLabel

    var position: string
    var scale: real
    var paddingLeft: real
    var paddingRight: real
    var paddingTop: Option<real>
    /** The sublabel's own layout attributes. */
    var subScale: real
    var subPaddingLeft: real
    var subPaddingTop: real

    ghost predicate Valid()
      reads this
    {
      main != sublabel
    }

    /** The attributes `draw` reads. */
    function Attributes(): Config
      reads this, main`text, main`font, sublabel`text, sublabel`font
    {
      Config(main.text, position, main.font, scale, paddingLeft, paddingRight, paddingTop,
        SublabelConfig(sublabel.text, sublabel.font, subScale, subPaddingLeft, subPaddingTop))
    }

    /** A new CMS label: text 'CMS' at the left, font 61, and no sublabel text. */
    constructor (inherited: TextAttributes)
      ensures Valid() && fresh(main) && fresh(sublabel)
      ensures Attributes() == DefaultConfig
    {
      var m := new BaseLabel(inherited);
      var s := new BaseLabel(inherited);
      m.text := "CMS";
      m.SetFont(61);
      s.text := "";
      s.SetFont(52);
      main, sublabel := m, s;
      position := "left";
      scale := 0.75;
      paddingLeft, paddingRight := 0.045, 0.045;
      paddingTop := None;
      subScale := 0.76;
      subPaddingLeft := 0.12;
      subPaddingTop := 1.2;
    }

    /** Draws the label at the top left corner inside the frame and returns its coordinates. */
    method DrawLabelLeft(pad: Pad) returns (x: real, y: real)
      modifies main`size, main`align, pad`drawn
      ensures main.size == scale * pad.margin.top && main.align == 13
      ensures Latex(x, y, main.text, main.font, main.size, main.align) == LabelDraw(Left, Attributes(), pad.margin)
      ensures pad.drawn == old(pad.drawn) + [LabelDraw(Left, Attributes(), pad.margin)]
    {
      var m := pad.margin;
      main.SetSize(scale * m.top);
      var outcome := main.SetAlign(Names("left", "top"));
      var anchor := LabelAnchor(Left, paddingLeft, paddingRight, EffectivePaddingTop(paddingTop, 0.035), m);
      x, y := anchor.0, anchor.1;
      main.DrawLatexNDC(pad, x, y, main.text);
    }

    /** Draws the label at the top center inside the frame and returns its coordinates. */
    method DrawLabelCenter(pad: Pad) returns (x: real, y: real)
      modifies main`size, main`align, pad`drawn
      ensures main.size == scale * pad.margin.top && main.align == 23
      ensures Latex(x, y, main.text, main.font, main.size, main.align) == LabelDraw(Center, Attributes(), pad.margin)
      ensures pad.drawn == old(pad.drawn) + [LabelDraw(Center, Attributes(), pad.margin)]
    {
      var m := pad.margin;
      main.SetSize(scale * m.top);
      var outcome := main.SetAlign(Names("center", "top"));
      var anchor := LabelAnchor(Center, paddingLeft, paddingRight, EffectivePaddingTop(paddingTop, 0.035), m);
      x, y := anchor.0, anchor.1;
      main.DrawLatexNDC(pad, x, y, main.text);
    }

    /** Draws the label at the top right corner inside the frame and returns its coordinates. */
    method DrawLabelRight(pad: Pad) returns (x: real, y: real)
      modifies main`size, main`align, pad`drawn
      ensures main.size == scale * pad.margin.top && main.align == 33
      ensures Latex(x, y, main.text, main.font, main.size, main.align) == LabelDraw(Right, Attributes(), pad.margin)
      ensures pad.drawn == old(pad.drawn) + [LabelDraw(Right, Attributes(), pad.margin)]
    {
      var m := pad.margin;
      main.SetSize(scale * m.top);
      var outcome := main.SetAlign(Names("right", "top"));
      var anchor := LabelAnchor(Right, paddingLeft, paddingRight, EffectivePaddingTop(paddingTop, 0.035), m);
      x, y := anchor.0, anchor.1;
      main.DrawLatexNDC(pad, x, y, main.text);
    }

    /** Draws the label at the top left corner outside the frame and returns its coordinates. */
    method DrawLabelOutside(pad: Pad) returns (x: real, y: real)
      modifies main`size, main`align, pad`drawn
      ensures main.size == scale * pad.margin.top && main.align == 11
      ensures Latex(x, y, main.text, main.font, main.size, main.align) == LabelDraw(Outside, Attributes(), pad.margin)
      ensures pad.drawn == old(pad.drawn) + [LabelDraw(Outside, Attributes(), pad.margin)]
    {
      var m := pad.margin;
      main.SetSize(scale * m.top);
      var outcome := main.SetAlign(Names("left", "bottom"));
      var anchor := LabelAnchor(Outside, paddingLeft, paddingRight, EffectivePaddingTop(paddingTop, 0.8), m);
      x, y := anchor.0, anchor.1;
      main.DrawLatexNDC(pad, x, y, main.text);
    }

    /**
     * Draws the sublabel below the label at (xLabel, yLabel): same x, lower by
     * padding_top label sizes. Its callers have just set the label's alignment,
     * so that code is one ROOT accepts.
     */
    method DrawSublabelInside(pad: Pad, xLabel: real, yLabel: real)
      requires Valid() && IsAlignCode(main.align)
      modifies sublabel`size, sublabel`align, pad`drawn
      ensures sublabel.size == subScale * main.size && sublabel.align == main.align
      ensures pad.drawn == old(pad.drawn) +
        [SublabelBelow(Attributes().sublabel, Latex(xLabel, yLabel, main.text, main.font, main.size, main.align))]
    {
      sublabel.SetSize(subScale * main.size);
      var outcome := sublabel.SetAlign(Code(main.align));
      var x := xLabel;
      var y := yLabel - subPaddingTop * main.size;
      assert Latex(x, y, sublabel.text, sublabel.font, sublabel.size, sublabel.align) ==
        SublabelBelow(Attributes().sublabel, Latex(xLabel, yLabel, main.text, main.font, main.size, main.align));
      sublabel.DrawLatexNDC(pad, x, y, sublabel.text);
    }

    /**
     * Draws the sublabel to the right of the label at (xLabel, yLabel): same y,
     * padded from the left margin by a fraction of the frame width.
     */
    method DrawSublabelOutside(pad: Pad, xLabel: real, yLabel: real)
      requires Valid() && IsAlignCode(main.align)
      modifies sublabel`size, sublabel`align, pad`drawn
      ensures sublabel.size == subScale * main.size && sublabel.align == main.align
      ensures pad.drawn == old(pad.drawn) +
        [SublabelBeside(Attributes().sublabel, pad.margin, Latex(xLabel, yLabel, main.text, main.font, main.size, main.align))]
    {
      var m := pad.margin;
      sublabel.SetSize(subScale * main.size);
      var outcome := sublabel.SetAlign(Code(main.align));
      var x := m.left + subPaddingLeft * (1.0 - m.left - m.right);
      var y := yLabel;
      assert Latex(x, y, sublabel.text, sublabel.font, sublabel.size, sublabel.align) ==
        SublabelBeside(Attributes().sublabel, m, Latex(xLabel, yLabel, main.text, main.font, main.size, main.align));
      sublabel.DrawLatexNDC(pad, x, y, sublabel.text);
    }

    /**
     * The first half of `draw`: dispatches on the position to one of the four
     * layouts and returns the label's coordinates, or PositionError before
     * anything is set or drawn.
     */
    method DrawLabel(pad: Pad) returns (r: Result<(real, real), PositionError>)
      modifies main`size, main`align, pad`drawn
      ensures r.Failure? <==> ParsePosition(position).None?
      ensures r.Failure? ==>
        r.error == PositionError(position) && pad.drawn == old(pad.drawn) && unchanged(main)
      ensures r.Success? ==>
        var d := LabelDraw(ParsePosition(position).value, Attributes(), pad.margin);
        pad.drawn == old(pad.drawn) + [d] &&
        Latex(r.value.0, r.value.1, main.text, main.font, main.size, main.align) == d
    {
      var x, y;
      if position == "left" {
        x, y := DrawLabelLeft(pad);
      } else if position == "center" {
        x, y := DrawLabelCenter(pad);
      } else if position == "right" {
        x, y := DrawLabelRight(pad);
      } else if position == "outside" {
        x, y := DrawLabelOutside(pad);
      } else {
        return Failure(PositionError(position));
      }
      r := Success((x, y));
    }

    /**
     * The second half of `draw`: draws the sublabel relative to the label at
     * (xLabel, yLabel), beside it when the position is 'outside' and below it
     * otherwise, and only when its text is not empty.
     */
    method DrawSublabel(pad: Pad, xLabel: real, yLabel: real)
      requires Valid() && IsAlignCode(main.align)
      modifies sublabel`size, sublabel`align, pad`drawn
      ensures sublabel.text == "" ==> pad.drawn == old(pad.drawn) && unchanged(sublabel)
      ensures sublabel.text != "" ==>
        var labelDrawn := Latex(xLabel, yLabel, main.text, main.font, main.size, main.align);
        pad.drawn == old(pad.drawn) +
          [if position == "outside" then SublabelBeside(Attributes().sublabel, pad.margin, labelDrawn)
           else SublabelBelow(Attributes().sublabel, labelDrawn)] &&
        sublabel.size == subScale * main.size && sublabel.align == main.align
    {
      if sublabel.text != "" {
        if position == "outside" {
          DrawSublabelOutside(pad, xLabel, yLabel);
        } else {
          DrawSublabelInside(pad, xLabel, yLabel);
        }
      }
    }

    /**
     * Draws the label at its position and then, when its text is not empty, the
     * sublabel; an unrecognised position raises PositionError before anything is
     * drawn or set. Size and alignment come from the pad's current margins.
     */
    method Draw(pad: Pad) returns (outcome: Outcome<PositionError>)
      requires Valid()
      modifies main`size, main`align, sublabel`size, sublabel`align, pad`drawn
      ensures Plan(Attributes(), pad.margin).Failure? ==>
        outcome == Fail(PositionError(position)) && pad.drawn == old(pad.drawn) &&
        unchanged(main) && unchanged(sublabel)
      ensures Plan(Attributes(), pad.margin).Success? ==>
        outcome == Pass && pad.drawn == old(pad.drawn) + Plan(Attributes(), pad.margin).value
      ensures outcome == Pass ==>
        main.size == scale * pad.margin.top && main.align == PositionCode(ParsePosition(position).value)
      ensures outcome == Pass && sublabel.text != "" ==>
        sublabel.size == subScale * main.size && sublabel.align == main.align
      ensures sublabel.text == "" ==> unchanged(sublabel)
    {
      ghost var c, m := Attributes(), pad.margin;
      var coordinates := DrawLabel(pad);
      if coordinates.Failure? {
        return Fail(coordinates.error);
      }
      ghost var pos := ParsePosition(position).value;
      ghost var drawnLabel := LabelDraw(pos, c, m);
      assert Attributes() == c;
      DrawSublabel(pad, coordinates.value.0, coordinates.value.1);
      assert Attributes() == c;
      outcome := Pass;
    }
  }
}
