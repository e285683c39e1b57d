# Label layout of the CMS figure style, in Dafny

This project models the label layout engine of `vhbbtools.plotting.decorations`,
the part of the vhbb styling tools that places the CMS label, its sublabel
("Preliminary", "Simulation", …) and the luminosity label on a ROOT pad in the
CMS Publications Committee style.

- `alignment.dfy` (module `Alignment`): the base label's nine-entry table from
  (horizontal, vertical) anchor names to ROOT text-alignment codes, and the
  resolver the `align` setter applies. The table is shown to be ROOT's
  `10 * h + v` encoding, injective, and inverted by `NamesOf`.
- `bases.dfy` (module `Bases`): `BaseLabel`, the ROOT text object with its
  `align`, `font` and `size` setters and `DrawLatexNDC`.
- `surface.dfy` (module `Surface`): the pad (ROOT's `gPad`) as an object
  holding its margins and the log of every text drawn on it, the frame
  geometry, and the default margins of a CMS canvas (0.12, 0.04, 0.12, 0.08).
- `cms_layout.dfy` (module `CmsLayout`): the CMS label's four layouts
  (left, center, right, outside) and the sublabel's two, as functions of the
  label's attributes and the margins; `Plan` is everything one `draw` puts on
  the pad, and the lemmas state what the layouts promise.
- `cms_label.dfy` (module `CmsLabels`): the `CMSLabel` class. Its draw
  methods set the label's size and alignment and draw, and are proved to draw
  exactly what `Plan` describes.
- `luminosity_label.dfy` (module `Luminosity`): the `LuminosityLabel` class
  and its single fixed placement.
- `wrappers.dfy` (module `Wrappers`): `Option`, `Result` and `Outcome`, which
  carry `TextAlignmentError` and `PositionError` in place of the exceptions.

Coordinates, margins and sizes are `real`s: the formulas are exact linear
expressions of the margins. The global `ROOT.gPad` is a `Pad` argument to every
draw method. Its `drawn` sequence grows by one record `(x, y, text, font, size,
align)` per `DrawLatexNDC`. So "nothing is drawn on error", "the label is drawn
once" and "the sublabel is drawn iff its text is non-empty" are statements
about that sequence.

A Python label is a ROOT object with extra attributes added at run time.
Here `CMSLabel` and `LuminosityLabel` hold their text object as `main: BaseLabel`.
`CMSLabel` holds its sublabel as `sublabel: BaseLabel`. The attributes the
source adds to the sublabel object (`scale`, `padding_left`, `padding_top`) are
the `CMSLabel` fields `subScale`, `subPaddingLeft` and `subPaddingTop`. An
unset `padding_top` is `None`. Python's `padding_top or default` falls back for
`None` and for `0` alike, and `EffectivePaddingTop` keeps that behaviour.

## Model

| member | source | states |
|---|---|---|
| `Alignment.TableEncoding` | vhbbtools/vhbbtools/plotting/decorations/bases.py:12-22 | a pair is in the table iff both names are known anchors, and its code is 10 × horizontal index + vertical index (left/center/right = 1/2/3, bottom/center/top = 1/2/3) |
| `Alignment.TableCodes` | vhbbtools/vhbbtools/plotting/decorations/bases.py:12-22 | the codes the table holds are exactly the integers whose two decimal digits are both in 1..3 |
| `Alignment.NamesOf` | vhbbtools/vhbbtools/plotting/decorations/bases.py:12-22 | decoding a code into a name pair succeeds exactly for the nine codes |
| `Alignment.NamesRoundTrip` | vhbbtools/vhbbtools/plotting/decorations/bases.py:12-22 | decoding a pair's code gives the pair back, and a decoded pair encodes to the code it came from |
| `Alignment.TableInjective` | vhbbtools/vhbbtools/plotting/decorations/bases.py:12-22 | two pairs with the same code are the same pair: a code identifies exactly one pair |
| `Alignment.Resolve` | vhbbtools/vhbbtools/plotting/decorations/bases.py:31-38 | a known name pair resolves to 10h + v; an integer resolves to itself iff it is one of the nine codes; every other value fails with TextAlignmentError carrying that value |
| `Alignment.ResolveIdempotent` | vhbbtools/vhbbtools/plotting/decorations/bases.py:33-36 | resolving a resolved code again gives the same code |
| `Bases.BaseLabel.constructor` | vhbbtools/vhbbtools/plotting/decorations/bases.py:24-25 | a new label holds the text attributes ROOT gives a new text object |
| `Bases.BaseLabel.SetAlign` | vhbbtools/vhbbtools/plotting/decorations/bases.py:27-38 | a known pair stores its table code and a known code is stored unchanged, so `align` reads back as that code; any other value fails with TextAlignmentError and leaves the stored alignment as it was |
| `Bases.BaseLabel.SetFont` | vhbbtools/vhbbtools/plotting/decorations/bases.py:40-46 | the font is stored without validation and reads back exactly as set |
| `Bases.BaseLabel.SetSize` | vhbbtools/vhbbtools/plotting/decorations/bases.py:48-54 | the size reads back exactly as set |
| `Bases.BaseLabel.DrawLatexNDC` | vhbbtools/vhbbtools/plotting/decorations/luminosity_label.py:54 | one call appends exactly one record to the pad, carrying the label's current font, size and alignment |
| `CmsLayout.ParsePosition` | vhbbtools/vhbbtools/plotting/decorations/cms_label.py:153-162 | a position is recognised iff it is 'left', 'center', 'right' or 'outside' |
| `CmsLayout.EffectivePaddingTop` | vhbbtools/vhbbtools/plotting/decorations/cms_label.py:93 | padding_top falls back to the layout's default both when unset and when zero, and is the given value otherwise |
| `CmsLayout.PositionCode` | vhbbtools/vhbbtools/plotting/decorations/cms_label.py:86-128 | the alignment each layout sets resolves without error, to 13 (left), 23 (center), 33 (right) or 11 (outside) |
| `CmsLayout.Plan` | vhbbtools/vhbbtools/plotting/decorations/cms_label.py:149-168 | `draw` fails with PositionError iff the position is unrecognised; otherwise it draws the label once with the label's text and font, and the sublabel once more iff its text is non-empty |
| `CmsLayout.LabelPlacement` | vhbbtools/vhbbtools/plotting/decorations/cms_label.py:86-128 | the label's size is scale × the top margin it is drawn with; alignment and (x, y) follow the layout: left/center/right at lm + pl·w, lm + 0.5·w, 1 − rm − pr·w, all at y = 1 − tm − pt·h; outside at x = lm, y = 1 − pt·tm |
| `CmsLayout.SublabelPlacement` | vhbbtools/vhbbtools/plotting/decorations/cms_label.py:130-147 | the sublabel's size is its scale × the label's size and its alignment is the label's; inside it keeps the label's x and sits padding_top label sizes lower; outside it keeps the label's y at x = lm + padding_left·w |
| `CmsLayout.SublabelBelowOrRight` | vhbbtools/vhbbtools/plotting/decorations/cms_label.py:48-51 | with non-negative scale and paddings, the sublabel sits below the label (same x, no higher) inside the frame and to its right (same y, no further left) outside the frame |
| `CmsLayout.SizeFollowsTopMargin` | vhbbtools/vhbbtools/plotting/decorations/cms_label.py:90 | with a non-zero scale, different top margins give different label sizes: the size is recomputed from the margins of each draw |
| `CmsLayout.ZeroPaddingTopIsDefault` | vhbbtools/vhbbtools/plotting/decorations/cms_label.py:93 | an explicit padding_top of 0 draws exactly what an unset padding_top draws |
| `CmsLayout.InsideAnchorInFrame` | vhbbtools/vhbbtools/plotting/decorations/cms_label.py:92-93 | with valid margins and fractional paddings, each inside layout's anchor lies within the frame |
| `CmsLayout.InsideLabelInFrame` | vhbbtools/vhbbtools/plotting/decorations/cms_label.py:21-25 | with valid margins and fractional paddings, a left, center or right label is drawn inside the frame [lm, 1 − rm] × [bm, 1 − tm] |
| `CmsLayout.OutsideLabelInTopMargin` | vhbbtools/vhbbtools/plotting/decorations/cms_label.py:119-128 | with valid margins and padding_top in [0, 1], an outside label is drawn at the frame's left edge within the top margin |
| `CmsLayout.DefaultLeftPlacement` | vhbbtools/vhbbtools/plotting/decorations/cms_label.py:70-95 | a default label on a default CMS canvas is drawn at (0.1578, 0.892) with size 0.06 and alignment 13 |
| `CmsLayout.DefaultOutsidePlacement` | vhbbtools/vhbbtools/plotting/decorations/cms_label.py:119-128 | a default label moved outside is drawn at (0.12, 0.936) with alignment 11 |
| `CmsLabels.CMSLabel.constructor` | vhbbtools/vhbbtools/plotting/decorations/cms_label.py:70-84 | defaults: text 'CMS', position 'left', font 61, scale 0.75, padding_left/right 0.045, padding_top unset; sublabel text '', font 52, scale 0.76, padding_left 0.12, padding_top 1.2 |
| `CmsLabels.CMSLabel.DrawLabelLeft` | vhbbtools/vhbbtools/plotting/decorations/cms_label.py:86-95 | sets size scale × top margin and alignment 13, draws the left layout once and returns its coordinates |
| `CmsLabels.CMSLabel.DrawLabelCenter` | vhbbtools/vhbbtools/plotting/decorations/cms_label.py:97-106 | sets size scale × top margin and alignment 23, draws the center layout once and returns its coordinates |
| `CmsLabels.CMSLabel.DrawLabelRight` | vhbbtools/vhbbtools/plotting/decorations/cms_label.py:108-117 | sets size scale × top margin and alignment 33, draws the right layout once and returns its coordinates |
| `CmsLabels.CMSLabel.DrawLabelOutside` | vhbbtools/vhbbtools/plotting/decorations/cms_label.py:119-128 | sets size scale × top margin and alignment 11, draws the outside layout once and returns its coordinates |
| `CmsLabels.CMSLabel.DrawSublabelInside` | vhbbtools/vhbbtools/plotting/decorations/cms_label.py:130-137 | sets the sublabel's size to its scale × the label's size and its alignment to the label's, and draws it once below the label |
| `CmsLabels.CMSLabel.DrawSublabelOutside` | vhbbtools/vhbbtools/plotting/decorations/cms_label.py:139-147 | sets the sublabel's size and alignment as inside, and draws it once beside the label |
| `CmsLabels.CMSLabel.DrawLabel` | vhbbtools/vhbbtools/plotting/decorations/cms_label.py:152-162 | fails with PositionError iff the position is unrecognised, then drawing nothing and leaving the label unchanged; otherwise draws the label's layout once and returns its coordinates |
| `CmsLabels.CMSLabel.DrawSublabel` | vhbbtools/vhbbtools/plotting/decorations/cms_label.py:163-168 | draws nothing and leaves the sublabel unchanged when its text is empty; otherwise draws it once, beside the label for 'outside' and below it for any other position |
| `CmsLabels.CMSLabel.Draw` | vhbbtools/vhbbtools/plotting/decorations/cms_label.py:149-168 | on an unrecognised position, fails with PositionError, draws nothing and changes neither label; otherwise appends exactly `Plan`'s draws, with the label's size taken from the pad's current top margin; an empty sublabel is left untouched |
| `Luminosity.LuminosityDraw` | vhbbtools/vhbbtools/plotting/decorations/luminosity_label.py:47-54 | the label is anchored at the frame's right edge and drawn with the label's own text, font and alignment |
| `Luminosity.InTopMarginBand` | vhbbtools/vhbbtools/plotting/decorations/luminosity_label.py:50-53 | with valid margins and padding_top in [0, 1], the label's y lies in the top margin [1 − tm, 1], outside the frame |
| `Luminosity.IgnoresLeftAndBottom` | vhbbtools/vhbbtools/plotting/decorations/luminosity_label.py:50 | the draw is the same for any two pads that agree on the right and top margins |
| `Luminosity.DefaultPlacement` | vhbbtools/vhbbtools/plotting/decorations/luminosity_label.py:39-54 | with the default attributes on a default CMS canvas the label is drawn at (0.96, 0.936), size 0.048, alignment 31 |
| `Luminosity.LuminosityLabel.constructor` | vhbbtools/vhbbtools/plotting/decorations/luminosity_label.py:39-45 | defaults: the given text, font 42, scale 0.6, alignment 31 (right, bottom), padding_top 0.8 |
| `Luminosity.LuminosityLabel.Draw` | vhbbtools/vhbbtools/plotting/decorations/luminosity_label.py:47-54 | sets size scale × the pad's current top margin and appends exactly one draw, even for empty text; alignment, font and text stay as set |

## Left out

- The `pubstyle` restyle scripts and the example macro: hand-indexed edits of primitives on an existing ROOT canvas, with file I/O and interactive input. They have no contract of their own.
- `vhbbtools/setup.py`: packaging and environment checks.
- `vhbbtools/vhbbtools/plotting/cms_canvas.py`: the canvas constructor wraps ROOT, entering and leaving it switches a global style, and `decorate` only calls the two `draw` methods. Only its default margins (lines 76-79) are used, as `Surface.CanvasMargins`.
- The `exceptions` module is not part of this model; `TextAlignmentError` and `PositionError` are `Failure`/`Fail` values carrying the offending value, without the message text.
- ROOT itself: LaTeX rendering, the global pad (`Pad` is passed explicitly), and the global style a new text object copies its attributes from (a constructor argument).
- Floating point: ROOT stores text size as a 32-bit float and Python computes in doubles; the model is exact over the reals, so round-trips of `size` and the default-canvas coordinates are exact here only.
- Alignment.Resolve: models a request as a pair of strings, an integer or any other value. A Python float equal to a code (11.0) is not a key of the table and reaches ROOT's `SetTextAlign`, whose short conversion raises TypeError; an unhashable value (a list) raises TypeError at the table lookup. Neither TypeError is modelled.
- Bases.BaseLabel.SetFont: does not model ROOT's 16-bit `Font_t` storage; the font is an unbounded integer here, so a value outside the short range reads back unchanged instead of being rejected by the Python-to-short conversion, because the model leaves the ROOT binding out.
- CmsLabels.CMSLabel.DrawSublabelInside, CmsLabels.CMSLabel.DrawSublabelOutside and CmsLabels.CMSLabel.DrawSublabel require the label's alignment to be a valid code. `draw` always calls them right after setting that alignment; a standalone call with an invalid code would raise TextAlignmentError, which is not modelled.
- Attributes Python allows to hold any value (a `padding_top` of `False`, a `text` of `None`) are typed here as reals and strings.
