/**
 * The base label (vhbbtools/plotting/decorations/bases.py): a ROOT text
 * object whose alignment, font and size are properties backed by ROOT's
 * text attributes.
 */
module Bases {
  import opened Wrappers
  import opened Alignment
  import opened Surface

  class BaseLabel {
    /** The text this label draws. */
    var text: string
    /** ROOT's text attributes: font code, size (fraction of pad height) and alignment code. */
    var font: int
    var size: real
    var align: int

    /** A fresh label starts with the text attributes ROOT gives a new text object. */
    constructor (inherited: TextAttributes)
      ensures text == "" && font == inherited.font && size == inherited.size && align == inherited.align
    {
      text := "";
      font := inherited.font;
      size := inherited.size;
      align := inherited.align;
    }

    /**
     * The `align` setter: a known pair stores its code, a known code is stored
     * as given, anything else fails with TextAlignmentError and keeps the old code.
     */
    method SetAlign(value: AlignRequest) returns (outcome: Outcome<AlignError>)
      modifies this`align
      ensures Resolve(value).Success? ==> outcome == Pass && align == Resolve(value).value
      ensures Resolve(value).Failure? ==> outcome == Fail(TextAlignmentError(value)) && align == old(align)
      ensures value.Names? && (value.horizontal, value.vertical) in TextAlignment ==>
        outcome == Pass && align == TextAlignment[(value.horizontal, value.vertical)]
      ensures value.Code? && IsAlignCode(value.code) ==> outcome == Pass && align == value.code
    {
      match Resolve(value)
      case Success(code) =>
        align := code;
        outcome := Pass;
      case Failure(e) =>
        outcome := Fail(e);
    }

    /** The `font` setter: stored without validation, read back as set. */
    method SetFont(value: int)
      modifies this`font
      ensures font == value
    {
      font := value;
    }

    /** The `size` setter: read back as set. */
    method SetSize(value: real)
      modifies this`size
      ensures size == value
    {
      size := value;
    }

    /** ROOT's DrawLatexNDC: draws `s` at (x, y) on the pad with this label's text attributes. */
    method DrawLatexNDC(pad: Pad, x: real, y: real, s: string)
      modifies pad`drawn
      ensures pad.drawn == old(pad.drawn) + [Latex(x, y, s, font, size, align)]
    {
      pad.drawn := pad.drawn + [Latex(x, y, s, font, size, align)];
    }
  }
}
