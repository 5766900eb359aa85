/** Concrete interaction sequences on a fresh pair of counters, and what
    the edge shows at their end. */
module Scenarios {
  import opened Text
  import opened Counting
  import opened Drawing
  import opened Nodes
  import opened Edges

  /** Node A at (0, 0), node B at (100, 0), a directed edge from A finished
      on B with weight 42: a straight line from A to B, the final arrowhead,
      and the label "42" upright. */
  method RightwardWeightedEdge() returns (path: Path, marker: Marker, weightLabel: WeightLabel)
    ensures path == Line(Point(0, 0), Point(100, 0))
    ensures marker == FinalArrowhead
    ensures weightLabel == Shown("42", 0)
  {
    var counters := new Counters();
    var a := new Node(counters, 0, 0, "A");
    var b := new Node(counters, 100, 0, "B");
    var e := new Edge(counters, a, true);
    e.FinishEdge(counters, b, true, 42, 0, 0);
    assert DecimalString(42) == "42";
    path, marker, weightLabel := e.path, e.marker, e.weightLabel;
  }

  /** The same edge with B at (-100, 0), left of A: the label is "24" turned
      by 180 degrees. */
  method LeftwardWeightedEdge() returns (path: Path, marker: Marker, weightLabel: WeightLabel)
    ensures path == Line(Point(0, 0), Point(-100, 0))
    ensures marker == FinalArrowhead
    ensures weightLabel == Shown("24", 180)
  {
    var counters := new Counters();
    var a := new Node(counters, 0, 0, "A");
    var b := new Node(counters, -100, 0, "B");
    var e := new Edge(counters, a, true);
    e.FinishEdge(counters, b, true, 42, 0, 0);
    assert DecimalString(42) == "42";
    assert Reverse("42") == Reverse("2") + ['4'] == "24";
    path, marker, weightLabel := e.path, e.marker, e.weightLabel;
  }

  /** A directed, weighted edge from A finished on A itself: the fixed loop
      above A and no arrowhead. Lowering it by `(5, 3)` afterwards draws a
      zero-length line at A moved by `(5, -3)`, since `moveDown` has no
      self-loop case. */
  method DirectedSelfLoop() returns (path: Path, marker: Marker, lowered: Path)
    ensures path == Curve(Point(10, 20), Point(-60, -55), Point(80, -55), Point(10, 20))
    ensures marker == NoMarker
    ensures lowered == Line(Point(15, 17), Point(15, 17))
  {
    var counters := new Counters();
    var a := new Node(counters, 10, 20, "A");
    var e := new Edge(counters, a, true);
    e.FinishEdge(counters, a, true, 7, 0, 0);
    path, marker := e.path, e.marker;
    e.MoveDown(5, 3);
    lowered := e.path;
  }

  /** Building and finishing an edge leaves the node counter as it was and
      raises the edge counter; the edge takes the raised count as its id. */
  method BuildAndFinish() returns (before: Tally, after: Tally, id: EdgeId)
    ensures before == Tally(2, 0) && after == Tally(2, 1) && id == EdgeId(1)
  {
    var counters := new Counters();
    var a := new Node(counters, 0, 0, "");
    var b := new Node(counters, 50, 50, "");
    before := counters.Snapshot();
    var e := new Edge(counters, a, false);
    e.FinishEdge(counters, b, false, 0, 0, 0);
    after := counters.Snapshot();
    id := e.id;
  }

  /** Ids are not unique: after an edge between two unnamed nodes is
      finished and undrawn, the next unnamed node gets the second node's id
      while both are still on the canvas. */
  method CountedIdReused() returns (second: NodeId, third: NodeId, labelText: string)
    ensures second == Counted(2) && third == Counted(2)
    ensures labelText == "2"
  {
    var counters := new Counters();
    var n1 := new Node(counters, 0, 0, "");
    var n2 := new Node(counters, 10, 0, "");
    var e := new Edge(counters, n1, false);
    e.FinishEdge(counters, n2, false, 0, 0, 0);
    e.Undraw(counters);
    var n3 := new Node(counters, 20, 0, "");
    second, third, labelText := n2.id, n3.id, n3.labelText;
  }
}
