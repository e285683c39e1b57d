/**
 * The text-alignment table of the base label and the resolver its `align`
 * setter applies (vhbbtools/plotting/decorations/bases.py).
 *
 * ROOT encodes a text alignment as `10 * h + v`, h the horizontal anchor
 * (1 left, 2 center, 3 right) and v the vertical anchor (1 bottom,
 * 2 center, 3 top). The source lists the nine pairs literally; the index
 * functions below are the independent statement of that encoding.
 */
module Alignment {
  import opened Wrappers

  /** The nine (horizontal, vertical) name pairs and their ROOT codes. */
  const TextAlignment: map<(string, string), int> := map[
    ("left", "bottom") := 11,
    ("left", "center") := 12,
    ("left", "top") := 13,
    ("center", "bottom") := 21,
    ("center", "center") := 22,
    ("center", "top") := 23,
    ("right", "bottom") := 31,
    ("right", "center") := 32,
    ("right", "top") := 33
  ]

  /** A value handed to the `align` setter: a 2-tuple of names, an integer, or anything else. */
  datatype AlignRequest = Names(horizontal: string, vertical: string) | Code(code: int) | Other

  /** The error raised for a value that is neither a known pair nor a known code. */
  datatype AlignError = TextAlignmentError(value: AlignRequest)

  /** ROOT's horizontal index of an anchor name. */
  function HorizontalIndex(name: string): Option<int>
  {
    if name == "left" then Some(1)
    else if name == "center" then Some(2)
    else if name == "right" then Some(3)
    else None
  }

  /** ROOT's vertical index of an anchor name. */
  function VerticalIndex(name: string): Option<int>
  {
    if name == "bottom" then Some(1)
    else if name == "center" then Some(2)
    else if name == "top" then Some(3)
    else None
  }

  /** The integers ROOT accepts as a text alignment: both decimal digits in 1..3. */
  predicate IsAlignCode(code: int)
  {
    1 <= code / 10 <= 3 && 1 <= code % 10 <= 3
  }

  /** Each table entry is `10 * h + v` of its two names, and only those pairs are in the table. */
  lemma TableEncoding(h: string, v: string)
    ensures (h, v) in TextAlignment <==> HorizontalIndex(h).Some? && VerticalIndex(v).Some?
    ensures (h, v) in TextAlignment ==>
      TextAlignment[(h, v)] == 10 * HorizontalIndex(h).value + VerticalIndex(v).value
  {
  }

  /** The codes the table holds are exactly the nine integers ROOT accepts. */
  lemma TableCodes(code: int)
    ensures code in TextAlignment.Values <==> IsAlignCode(code)
  {
    var keys := [("left", "bottom"), ("left", "center"), ("left", "top"),
                 ("center", "bottom"), ("center", "center"), ("center", "top"),
                 ("right", "bottom"), ("right", "center"), ("right", "top")];
    if IsAlignCode(code) {
      var k := keys[3 * (code / 10 - 1) + (code % 10 - 1)];
      assert k in TextAlignment && TextAlignment[k] == code;
    }
    if code in TextAlignment.Values {
      var k :| k in TextAlignment && TextAlignment[k] == code;
      TableEncoding(k.0, k.1);
    }
  }

  /**
   * The `align` setter's decision: a known pair gives its table code, a known
   * code is kept unchanged, and anything else is a TextAlignmentError.
   */
  function Resolve(request: AlignRequest): (r: Result<int, AlignError>)
    ensures r.Failure? ==> r.error == TextAlignmentError(request)
    ensures r.Success? ==> IsAlignCode(r.value)
    ensures request.Names? ==>
      var h, v := HorizontalIndex(request.horizontal), VerticalIndex(request.vertical);
      (r.Success? <==> h.Some? && v.Some?) &&
      (r.Success? ==> r.value == 10 * h.value + v.value)
    ensures request.Code? ==>
      (r.Success? <==> IsAlignCode(request.code)) &&
      (r.Success? ==> r.value == request.code)
    ensures request.Other? ==> r.Failure?
  {
    match request
    case Names(h, v) =>
      TableEncoding(h, v);
      if (h, v) in TextAlignment then
        TableCodes(TextAlignment[(h, v)]);
        Success(TextAlignment[(h, v)])
      else Failure(TextAlignmentError(request))
    case Code(c) =>
      TableCodes(c);
      if c in TextAlignment.Values then Success(c) else Failure(TextAlignmentError(request))
    case Other => Failure(TextAlignmentError(request))
  }

  /** The horizontal anchor name of ROOT index 1..3. */
  function HorizontalName(index: int): string
    requires 1 <= index <= 3
  {
    if index == 1 then "left" else if index == 2 then "center" else "right"
  }

  /** The vertical anchor name of ROOT index 1..3. */
  function VerticalName(index: int): string
    requires 1 <= index <= 3
  {
    if index == 1 then "bottom" else if index == 2 then "center" else "top"
  }

  /** The name pair a ROOT alignment code stands for, read off its two digits. */
  function NamesOf(code: int): (r: Option<(string, string)>)
    ensures r.Some? <==> IsAlignCode(code)
  {
    if IsAlignCode(code) then Some((HorizontalName(code / 10), VerticalName(code % 10))) else None
  }

  /** Decoding a table code gives back its pair, and a decoded pair encodes to the code. */
  lemma NamesRoundTrip(h: string, v: string, code: int)
    ensures (h, v) in TextAlignment ==> NamesOf(TextAlignment[(h, v)]) == Some((h, v))
    ensures NamesOf(code) == Some((h, v)) ==> (h, v) in TextAlignment && TextAlignment[(h, v)] == code
  {
    TableEncoding(h, v);
  }

  /** The table is injective: a code identifies exactly one name pair. */
  lemma TableInjective(p: (string, string), q: (string, string))
    requires p in TextAlignment && q in TextAlignment
    requires TextAlignment[p] == TextAlignment[q]
    ensures p == q
  {
    NamesRoundTrip(p.0, p.1, 0);
    NamesRoundTrip(q.0, q.1, 0);
  }

  /** Resolving is idempotent: feeding a resolved code back in gives the same code. */
  lemma ResolveIdempotent(request: AlignRequest)
    requires Resolve(request).Success?
    ensures Resolve(Code(Resolve(request).value)) == Resolve(request)
  {
  }
}
