/** The rendered state of an edge as values: the path its `d` attribute
    describes, its arrowhead marker, and the weight label's text, rotation
    and baseline. Coordinates are integers; y grows downwards as in SVG. */
module Drawing {
  import opened Text

  datatype Point = Point(x: int, y: int)

  /** `NoPath` is a path element whose `d` was never set. A `Curve` is one
      cubic Bezier segment from `start` to `end` with control points `c1`
      and `c2`; a `Line` is one straight segment. */
  datatype Path =
    | NoPath
    | Curve(start: Point, c1: Point, c2: Point, end: Point)
    | Line(start: Point, end: Point)

  /** The `marker-end` attribute: absent, `url(#arrowhead_temp)` while the
      edge is being drawn, or `url(#arrowhead)` once finished. */
  datatype Marker = NoMarker | TemporaryArrowhead | FinalArrowhead

  /** The text path's `alignment-baseline`: never set, `text-before-edge`
      (edge lowered) or `text-after-edge`. */
  datatype Baseline = DefaultBaseline | TextBeforeEdge | TextAfterEdge

  /** The weight label: no text content and no `rotate` yet, or a text with
      its per-glyph rotation in degrees. */
  datatype WeightLabel = Blank | Shown(text: string, rotate: int)

  const LoopSpread := 70
  const LoopRise := 75

  /** The fixed self-loop drawn at a node. */
  function SelfLoop(p: Point): Path {
    Curve(p, Point(p.x - LoopSpread, p.y - LoopRise), Point(p.x + LoopSpread, p.y - LoopRise), p)
  }

  /** The loop starts and ends at the node and is symmetric about the node's
      vertical, with both control points 75 units above it and 140 apart. */
  lemma SelfLoopShape(p: Point)
    ensures var c := SelfLoop(p);
      c.Curve? && c.start == p && c.end == p
      && c.c1.y == c.c2.y == p.y - 75
      && c.c1.x + c.c2.x == 2 * p.x && c.c2.x - c.c1.x == 140
  {
  }

  /** The offset sign used while an edge is lowered. */
  function Flip(lowered: bool, v: int): int {
    if lowered then -v else v
  }

  /** A point moved by the offset `(dx, dy)`: right by dx and up by dy. */
  function Shift(p: Point, dx: int, dy: int): Point {
    Point(p.x + dx, p.y - dy)
  }

  /** The straight segment from `a` to `b`, both moved by the same offset. */
  function Segment(a: Point, b: Point, dx: int, dy: int): Path {
    Line(Shift(a, dx, dy), Shift(b, dx, dy))
  }

  /** An offset translates a segment: its direction and length are those of
      the un-offset segment between the same two points. */
  lemma SegmentTranslates(a: Point, b: Point, dx: int, dy: int)
    ensures var s := Segment(a, b, dx, dy);
      s.Line? && s.end.x - s.start.x == b.x - a.x && s.end.y - s.start.y == b.y - a.y
  {
  }

  /** What a reader sees: text laid along a right-to-left path with every
      glyph turned by 180 degrees reads backwards. */
  function Displayed(l: WeightLabel): string
    requires l.Shown?
  {
    if l.rotate == 180 then Reverse(l.text) else l.text
  }

  /** The weight label for `weight`, turned over when the path runs
      right to left: its rotation is 180 exactly when `reversed`, and it
      always reads as the weight's decimal string. */
  function Oriented(weight: int, reversed: bool): (l: WeightLabel)
    ensures l.Shown? && l.rotate == (if reversed then 180 else 0)
    ensures Displayed(l) == DecimalString(weight)
  {
    var digits := DecimalString(weight);
    ReverseInvolutive(digits);
    if reversed then Shown(Reverse(digits), 180) else Shown(digits, 0)
  }

  /** The label's text holds exactly the characters of the weight's
      decimal string, in one order or the other. */
  lemma OrientedRearranges(weight: int, reversed: bool)
    ensures multiset(Oriented(weight, reversed).text) == multiset(DecimalString(weight))
  {
    ReverseMultiset(DecimalString(weight));
  }

  /** A label reads back as exactly one weight. */
  lemma LabelDeterminesWeight(w1: int, r1: bool, w2: int, r2: bool)
    requires Displayed(Oriented(w1, r1)) == Displayed(Oriented(w2, r2))
    ensures w1 == w2
  {
    DecimalInjective(w1, w2);
  }
}
