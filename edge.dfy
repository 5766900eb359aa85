/** A connection between two nodes (the `Edge` class): built pending with a
    placeholder destination, finished once, and redrawn whenever an endpoint
    moves or the edge is lowered or raised. */
module Edges {
  import opened Text
  import opened Counting
  import opened Drawing
  import opened Nodes

  /** `edge_<edgeCount>`. */
  datatype EdgeId = EdgeId(n: int)

  function EdgeIdText(id: EdgeId): string {
    "edge_" + DecimalString(id.n)
  }

  /** Edge ids, as the path's `id` attribute spells them, differ exactly
      when the counter values they were taken from differ. */
  lemma EdgeIdTextInjective(a: EdgeId, b: EdgeId)
    ensures EdgeIdText(a) == EdgeIdText(b) <==> a == b
  {
    if EdgeIdText(a) == EdgeIdText(b) {
      assert EdgeIdText(a)[5..] == DecimalString(a.n);
      assert EdgeIdText(b)[5..] == DecimalString(b.n);
      DecimalInjective(a.n, b.n);
    }
  }

  /** Every field of an edge. `from` and `to` are node references, compared
      by identity. */
  datatype EdgeView = EdgeView(
    from: Node, to: Node, id: EdgeId,
    weight: int, weighted: bool, directed: bool, isDown: bool,
    path: Path, marker: Marker,
    weightLabel: WeightLabel, baseline: Baseline, labelBound: bool,
    selected: bool, visited: bool)

  /** The edge invariant: a label that has been written reads as the weight
      and is turned by 0 or 180 degrees; a weighted edge has its label
      written, bound to the path and aligned; an undirected edge never has
      an arrowhead. */
  predicate EdgeValid(v: EdgeView) {
    (v.weightLabel.Shown? ==>
       (v.weightLabel.rotate == 0 || v.weightLabel.rotate == 180) && Displayed(v.weightLabel) == DecimalString(v.weight))
    && (v.weighted ==> v.weightLabel.Shown? && v.labelBound && v.baseline != DefaultBaseline)
    && (!v.directed ==> v.marker == NoMarker)
  }

  /** A new edge from `from` towards the placeholder `to`. */
  function Pending(from: Node, to: Node, id: EdgeId, directed: bool): EdgeView {
    EdgeView(from, to, id, 0, false, directed, false,
             NoPath, if directed then TemporaryArrowhead else NoMarker,
             Blank, DefaultBaseline, false, false, false)
  }

  /** `moveFrom(x, y, dx, dy)`, where `f` and `t` are the current positions
      of `from` and `to`. */
  function DraggedFrom(v: EdgeView, f: Point, t: Point, x: int, y: int, dx: int, dy: int): EdgeView {
    if v.from == v.to then
      v.(path := SelfLoop(f))
    else
      v.(path := Segment(Point(x, y), t, Flip(v.isDown, dx), Flip(v.isDown, dy)),
         weightLabel := if v.weighted then Oriented(v.weight, t.x <= x) else v.weightLabel)
  }

  /** `moveTo(x, y, dx, dy)`, where `f` is the current position of `from`. */
  function DraggedTo(v: EdgeView, f: Point, x: int, y: int, dx: int, dy: int): EdgeView {
    if v.from == v.to then
      v.(path := SelfLoop(f))
    else
      v.(path := Segment(f, Point(x, y), Flip(v.isDown, dx), Flip(v.isDown, dy)),
         weightLabel := if v.weighted then Oriented(v.weight, x < f.x) else v.weightLabel)
  }

  /** `finishEdge(to, weighted, weight, dx, dy)`, where `f` is the current
      position of `from` and `t` that of `to`. */
  function Finished(v: EdgeView, f: Point, to: Node, t: Point, weighted: bool, weight: int, dx: int, dy: int): EdgeView {
    var loop := v.from == to;
    v.(weighted := weighted, to := to,
       path := if loop then SelfLoop(f) else Segment(f, t, dx, dy),
       marker := if !v.directed then v.marker else if loop then NoMarker else FinalArrowhead,
       weight := if weighted then weight else v.weight,
       labelBound := weighted || v.labelBound,
       baseline := if weighted then TextAfterEdge else v.baseline,
       weightLabel := if weighted then Oriented(weight, t.x < f.x) else v.weightLabel)
  }

  /** `moveDown(dx, dy)`. */
  function Lowered(v: EdgeView, f: Point, t: Point, dx: int, dy: int): EdgeView {
    v.(isDown := true,
       baseline := if v.weighted then TextBeforeEdge else v.baseline,
       path := Segment(f, t, dx, dy))
  }

  /** `moveUp()`. */
  function Raised(v: EdgeView, f: Point, t: Point): EdgeView {
    v.(isDown := false,
       baseline := if v.weighted then TextAfterEdge else v.baseline,
       path := Segment(f, t, 0, 0))
  }

  datatype Toggle = Lower(dx: int, dy: int) | Raise

  /** A run of `moveDown`/`moveUp` calls with both endpoints at rest. */
  function Toggled(v: EdgeView, f: Point, t: Point, ops: seq<Toggle>): EdgeView
    decreases |ops|
  {
    if ops == [] then v
    else
      var w := match ops[0]
        case Lower(dx, dy) => Lowered(v, f, t, dx, dy)
        case Raise => Raised(v, f, t);
      Toggled(w, f, t, ops[1..])
  }

  /** A new edge keeps the invariant, has weight 0, no path and no label,
      and carries the temporary arrowhead exactly when it is directed. */
  lemma PendingEdge(from: Node, to: Node, id: EdgeId, directed: bool)
    ensures var v := Pending(from, to, id, directed);
      EdgeValid(v) && v.weight == 0 && !v.weighted && !v.isDown
      && v.path == NoPath && v.weightLabel == Blank
      && (v.marker == TemporaryArrowhead <==> directed)
      && (v.marker == NoMarker <==> !directed)
  {
  }

  /** Every redraw keeps the invariant. */
  lemma DraggedFromValid(v: EdgeView, f: Point, t: Point, x: int, y: int, dx: int, dy: int)
    requires EdgeValid(v)
    ensures EdgeValid(DraggedFrom(v, f, t, x, y, dx, dy))
  {
  }

  lemma DraggedToValid(v: EdgeView, f: Point, x: int, y: int, dx: int, dy: int)
    requires EdgeValid(v)
    ensures EdgeValid(DraggedTo(v, f, x, y, dx, dy))
  {
  }

  lemma FinishedValid(v: EdgeView, f: Point, to: Node, t: Point, weighted: bool, weight: int, dx: int, dy: int)
    requires EdgeValid(v)
    ensures EdgeValid(Finished(v, f, to, t, weighted, weight, dx, dy))
  {
  }

  lemma TogglesValid(v: EdgeView, f: Point, t: Point, dx: int, dy: int)
    requires EdgeValid(v)
    ensures EdgeValid(Lowered(v, f, t, dx, dy))
    ensures EdgeValid(Raised(v, f, t))
  {
  }

  /** On a self-loop, dragging either end redraws the fixed loop at `from`
      whatever the arguments, offsets and lowered mode, and changes nothing
      else. */
  lemma LoopIgnoresDrag(v: EdgeView, f: Point, t: Point, x: int, y: int, dx: int, dy: int)
    requires v.from == v.to
    ensures DraggedFrom(v, f, t, x, y, dx, dy) == v.(path := SelfLoop(f))
    ensures DraggedTo(v, f, x, y, dx, dy) == v.(path := SelfLoop(f))
  {
  }

  /** Finishing any edge, a pending one included, onto a destination `to`
      draws the fixed loop at `from` exactly when `to` is `from`, and
      otherwise the segment between the two positions offset by `(dx, dy)`
      as given, never flipped, whether or not the edge is lowered. */
  lemma FinishPath(v: EdgeView, f: Point, to: Node, t: Point, weighted: bool, weight: int, dx: int, dy: int)
    ensures to == v.from ==> Finished(v, f, to, t, weighted, weight, dx, dy).path == SelfLoop(f)
    ensures to != v.from ==> Finished(v, f, to, t, weighted, weight, dx, dy).path == Segment(f, t, dx, dy)
    ensures Finished(v.(isDown := !v.isDown), f, to, t, weighted, weight, dx, dy).path
         == Finished(v, f, to, t, weighted, weight, dx, dy).path
  {
  }

  /** Lowered mode mirrors the offset: a lowered drag by `(dx, dy)` draws
      what a raised drag by `(-dx, -dy)` draws. */
  lemma LoweredMirrorsOffset(v: EdgeView, f: Point, t: Point, x: int, y: int, dx: int, dy: int)
    requires v.from != v.to
    ensures DraggedFrom(v.(isDown := true), f, t, x, y, dx, dy).path
         == DraggedFrom(v.(isDown := false), f, t, x, y, -dx, -dy).path
    ensures DraggedTo(v.(isDown := true), f, x, y, dx, dy).path
         == DraggedTo(v.(isDown := false), f, x, y, -dx, -dy).path
  {
  }

  /** Dragging either end to its stored position draws the same segment, and
      on a raised edge that is the segment finishing draws; lowering with an
      offset draws what finishing with that offset draws, raising what
      finishing without one draws. */
  lemma StationaryRedrawsAgree(v: EdgeView, f: Point, t: Point, dx: int, dy: int)
    requires v.from != v.to
    ensures DraggedFrom(v, f, t, f.x, f.y, dx, dy).path == DraggedTo(v, f, t.x, t.y, dx, dy).path
    ensures !v.isDown ==> DraggedFrom(v, f, t, f.x, f.y, dx, dy).path == Finished(v, f, v.to, t, v.weighted, v.weight, dx, dy).path
    ensures Lowered(v, f, t, dx, dy).path == Finished(v, f, v.to, t, v.weighted, v.weight, dx, dy).path
    ensures Raised(v, f, t).path == Finished(v, f, v.to, t, v.weighted, v.weight, 0, 0).path
  {
  }

  /** While dragging a weighted straight edge the label reads as the weight
      and is turned over exactly when the stored-versus-live x comparison of
      the call site holds (`<=` for `moveFrom`, `<` for `moveTo`); an
      unweighted edge or a self-loop keeps its label. Neither drag changes
      the weight, the endpoints or the marker. */
  lemma DragOrientation(v: EdgeView, f: Point, t: Point, x: int, y: int, dx: int, dy: int)
    ensures var a, b := DraggedFrom(v, f, t, x, y, dx, dy), DraggedTo(v, f, x, y, dx, dy);
      a.weight == v.weight && b.weight == v.weight && a.from == v.from && a.to == v.to
      && b.from == v.from && b.to == v.to && a.marker == v.marker && b.marker == v.marker
      && (v.weighted && v.from != v.to ==>
            a.weightLabel.Shown? && b.weightLabel.Shown?
            && Displayed(a.weightLabel) == DecimalString(v.weight) && Displayed(b.weightLabel) == DecimalString(v.weight)
            && a.weightLabel.rotate == (if t.x <= x then 180 else 0) && b.weightLabel.rotate == (if x < f.x then 180 else 0))
      && (!v.weighted || v.from == v.to ==> a.weightLabel == v.weightLabel && b.weightLabel == v.weightLabel)
  {
  }

  /** After finishing, the arrowhead is absent for an undirected edge or a
      directed self-loop and final for any other directed edge. */
  lemma FinishMarker(v: EdgeView, f: Point, to: Node, t: Point, weighted: bool, weight: int, dx: int, dy: int)
    requires EdgeValid(v)
    ensures var w := Finished(v, f, to, t, weighted, weight, dx, dy);
      (v.directed && v.from == to ==> w.marker == NoMarker)
      && (v.directed && v.from != to ==> w.marker == FinalArrowhead)
      && (!v.directed ==> w.marker == NoMarker)
  {
  }

  /** Finishing binds `to`, fixes `weighted`, overwrites the weight only when
      weighted, and then writes a label that reads as the weight, turned
      over exactly when `to` lies strictly left of `from`. */
  lemma FinishLabel(v: EdgeView, f: Point, to: Node, t: Point, weighted: bool, weight: int, dx: int, dy: int)
    ensures var w := Finished(v, f, to, t, weighted, weight, dx, dy);
      w.to == to && w.from == v.from && w.weighted == weighted && w.isDown == v.isDown
      && w.weight == (if weighted then weight else v.weight)
      && (weighted ==> w.weightLabel.Shown? && Displayed(w.weightLabel) == DecimalString(weight)
                       && w.weightLabel.rotate == (if t.x < f.x then 180 else 0) && w.baseline == TextAfterEdge)
      && (!weighted ==> w.weightLabel == v.weightLabel && w.baseline == v.baseline)
  {
  }

  /** The three call sites disagree on a vertical edge: with `to` straight
      above or below `from`, dragging `from` in place turns the label over
      while finishing, or dragging `to` in place, does not. */
  lemma ComparatorsDisagreeOnVertical(v: EdgeView, f: Point, t: Point, dx: int, dy: int)
    requires v.weighted && v.from != v.to && t.x == f.x
    ensures DraggedFrom(v, f, t, f.x, f.y, dx, dy).weightLabel.rotate == 180
    ensures DraggedTo(v, f, t.x, t.y, dx, dy).weightLabel.rotate == 0
    ensures Finished(v, f, v.to, t, true, v.weight, dx, dy).weightLabel.rotate == 0
  {
  }

  /** Lowering and raising never touch the label text, its rotation, the
      weight, the endpoints or the marker; afterwards the edge is lowered
      exactly when the last call was `moveDown`, and a weighted edge's
      baseline follows that last call. */
  lemma {:induction false} TogglesKeepOrientation(v: EdgeView, f: Point, t: Point, ops: seq<Toggle>)
    ensures var w := Toggled(v, f, t, ops);
      w.weightLabel == v.weightLabel && w.weight == v.weight && w.weighted == v.weighted
      && w.from == v.from && w.to == v.to && w.marker == v.marker && w.directed == v.directed
      && (ops == [] ==> w == v)
      && (ops != [] ==> w.isDown == ops[|ops| - 1].Lower?
                        && w.path.Line?
                        && (v.weighted ==> w.baseline == if ops[|ops| - 1].Lower? then TextBeforeEdge else TextAfterEdge))
    decreases |ops|
  {
    if ops != [] {
      var w := match ops[0]
        case Lower(dx, dy) => Lowered(v, f, t, dx, dy)
        case Raise => Raised(v, f, t);
      TogglesKeepOrientation(w, f, t, ops[1..]);
      if |ops| > 1 {
        assert ops[1..][|ops[1..]| - 1] == ops[|ops| - 1];
      }
    }
  }

  class Edge {
    var from: Node
    var to: Node
    var id: EdgeId
    var weight: int
    var weighted: bool
    var directed: bool
    var isDown: bool
    var path: Path            // the line's `d`
    var marker: Marker        // the line's `marker-end`
    var weightLabel: WeightLabel    // the text path's content and the text's `rotate`
    var baseline: Baseline    // the text path's `alignment-baseline`
    var labelBound: bool      // the text path's `href` to this edge and its 50% `startOffset`
    var selected: bool        // the line's `selecting` class
    var visited: bool         // the line's `visited` class

    function View(): EdgeView
      reads this
    {
      EdgeView(from, to, id, weight, weighted, directed, isDown, path, marker,
               weightLabel, baseline, labelBound, selected, visited)
    }

    ghost predicate Valid()
      reads this
    {
      EdgeValid(View())
    }

    /** Raises the edge counter and takes the id from it, then makes the
        placeholder destination `new Node(0, 0)`, which raises the node
        counter. */
    constructor (counters: Counters, from: Node, directed: bool)
      modifies counters
      ensures counters.Snapshot() == Step(old(counters.Snapshot()), EdgeBuilt)
      ensures View() == Pending(from, to, EdgeId(counters.edgeCount), directed)
      ensures fresh(to) && to != from && to.Valid()
      ensures to.View() == Created(0, 0, "", counters.nodeCount)
      ensures Valid()
    {
      counters.edgeCount := counters.edgeCount + 1;
      id := EdgeId(counters.edgeCount);
      this.directed := directed;
      marker := if directed then TemporaryArrowhead else NoMarker;
      path := NoPath;
      weightLabel := Blank;
      baseline := DefaultBaseline;
      labelBound := false;
      selected := false;
      visited := false;
      weighted := false;
      isDown := false;
      this.from := from;
      to := new Node(counters, 0, 0, "");
      weight := 0;
    }

    method MoveFrom(x: int, y: int, dx: int, dy: int)
      requires Valid()
      modifies this
      ensures View() == DraggedFrom(old(View()), from.Position(), to.Position(), x, y, dx, dy)
      ensures Valid()
    {
      if from == to {
        path := SelfLoop(Point(from.x, from.y));
      } else {
        var cdx := if isDown then -dx else dx;
        var cdy := if isDown then -dy else dy;
        path := Line(Point(x + cdx, y - cdy), Point(to.x + cdx, to.y - cdy));
        if weighted {
          WriteLabel(to.x <= x);
        }
      }
      DraggedFromValid(old(View()), from.Position(), to.Position(), x, y, dx, dy);
    }

    method MoveTo(x: int, y: int, dx: int, dy: int)
      requires Valid()
      modifies this
      ensures View() == DraggedTo(old(View()), from.Position(), x, y, dx, dy)
      ensures Valid()
    {
      if from == to {
        path := SelfLoop(Point(from.x, from.y));
      } else {
        var cdx := if isDown then -dx else dx;
        var cdy := if isDown then -dy else dy;
        path := Line(Point(from.x + cdx, from.y - cdy), Point(x + cdx, y - cdy));
        if weighted {
          WriteLabel(x < from.x);
        }
      }
      DraggedToValid(old(View()), from.Position(), x, y, dx, dy);
    }

    /** Binds the real destination and gives back the placeholder's unit of
        the node counter. */
    method FinishEdge(counters: Counters, to: Node, weighted: bool, weight: int, dx: int, dy: int)
      requires Valid()
      modifies this, counters
      ensures counters.Snapshot() == Step(old(counters.Snapshot()), EdgeFinished)
      ensures View() == Finished(old(View()), from.Position(), to, to.Position(), weighted, weight, dx, dy)
      ensures Valid()
    {
      ghost var v0 := View();
      this.weighted := weighted;
      this.to := to;
      counters.nodeCount := counters.nodeCount - 1;
      DrawFinished(dx, dy);
      if this.weighted {
        LabelFinished(weight);
      }
      FinishedValid(v0, from.Position(), to, to.Position(), weighted, weight, dx, dy);
    }

    /** The path and marker drawn by `finishEdge` once `to` is bound: the
        loop or the offset segment, and the final arrowhead unless the edge
        is a loop. This and the next two methods are steps of `FinishEdge`
        and `MoveFrom`/`MoveTo`, split out so that each frame is proved on
        its own; they are not operations of the `Edge` class. */
    method DrawFinished(dx: int, dy: int)
      modifies this
      ensures View() == old(View()).(
        path := if from == to then SelfLoop(from.Position()) else Segment(from.Position(), to.Position(), dx, dy),
        marker := if !directed then old(marker) else if from == to then NoMarker else FinalArrowhead)
    {
      if from == to {
        path := SelfLoop(Point(from.x, from.y));
        if directed {
          marker := NoMarker;
        }
      } else {
        path := Line(Point(from.x + dx, from.y - dy), Point(to.x + dx, to.y - dy));
        if directed {
          marker := FinalArrowhead;
        }
      }
    }

    /** The weight and its label as `finishEdge` writes them on a weighted
        edge: turned over when `to` lies strictly left of `from`. */
    method LabelFinished(weight: int)
      modifies this
      ensures View() == old(View()).(
        weight := weight, labelBound := true, baseline := TextAfterEdge,
        weightLabel := Oriented(weight, to.x < from.x))
    {
      this.weight := weight;
      labelBound := true;
      baseline := TextAfterEdge;
      WriteLabel(to.x < from.x);
    }

    /** Writes the weight label: the decimal string of the weight, or its
        character reversal turned by 180 degrees when `reversed`. */
    method WriteLabel(reversed: bool)
      modifies this
      ensures View() == old(View()).(weightLabel := Oriented(weight, reversed))
    {
      var digits := DecimalString(weight);
      weightLabel := Shown(if reversed then Reverse(digits) else digits, if reversed then 180 else 0);
    }

    method Selecting()
      requires Valid()
      modifies this
      ensures View() == old(View()).(selected := true)
      ensures Valid()
    {
      selected := true;
    }

    method Unselecting()
      requires Valid()
      modifies this
      ensures View() == old(View()).(selected := false)
      ensures Valid()
    {
      selected := false;
    }

    /** Removing the edge from the drawing lowers both counters. */
    method Undraw(counters: Counters)
      requires Valid()
      modifies counters
      ensures counters.Snapshot() == Step(old(counters.Snapshot()), EdgeUndrawn)
      ensures View() == old(View())
    {
      counters.edgeCount := counters.edgeCount - 1;
      counters.nodeCount := counters.nodeCount - 1;
    }

    /** Draws the edge offset by `(dx, dy)`, with no self-loop case. */
    method MoveDown(dx: int, dy: int)
      requires Valid()
      modifies this
      ensures View() == Lowered(old(View()), from.Position(), to.Position(), dx, dy)
      ensures Valid()
    {
      isDown := true;
      if weighted {
        baseline := TextBeforeEdge;
      }
      path := Line(Point(from.x + dx, from.y - dy), Point(to.x + dx, to.y - dy));
    }

    /** Draws the edge between the two node centres, with no self-loop case. */
    method MoveUp()
      requires Valid()
      modifies this
      ensures View() == Raised(old(View()), from.Position(), to.Position())
      ensures Valid()
    {
      isDown := false;
      if weighted {
        baseline := TextAfterEdge;
      }
      path := Line(Point(from.x, from.y), Point(to.x, to.y));
    }

    method SetVisited()
      requires Valid()
      modifies this
      ensures View() == old(View()).(visited := true)
      ensures Valid()
    {
      visited := true;
    }

    method SetUnvisited()
      requires Valid()
      modifies this
      ensures View() == old(View()).(visited := false)
      ensures Valid()
    {
      visited := false;
    }
  }
}
