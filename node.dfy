/** A draggable, labelled point of the diagram (the `Node` class). */
module Nodes {
  import opened Text
  import opened Counting
  import opened Drawing

  /** `node_<name>` for a named node, `node_<nodeCount>` otherwise. */
  datatype NodeId = Named(name: string) | Counted(n: int)

  function IdText(id: NodeId): string {
    "node_" + match id
      case Named(name) => name
      case Counted(n) => DecimalString(n)
  }

  /** The search distance; a new node starts at `Infinity`. */
  datatype Distance = Infinite | Finite(d: int)

  /** How far above its node the label is drawn. */
  const LabelRise := 22

  /** Every field of a node. */
  datatype NodeView = NodeView(
    x: int, y: int, id: NodeId,
    cx: int, cy: int,
    labelX: int, labelY: int, labelText: string, labelFor: string,
    grabbed: bool,
    state: string, distance: Distance, finished: bool, previous: Node?, edges: seq<object>)

  /** The node invariant: the circle is centred on the position, the label
      sits 22 units above it, carries the same text in its `for-node`
      attribute, and the id is `node_` followed by the label. */
  predicate NodeValid(v: NodeView) {
    v.cx == v.x && v.cy == v.y
    && v.labelX == v.x && v.labelY == v.y - LabelRise
    && v.labelFor == v.labelText
    && IdText(v.id) == "node_" + v.labelText
  }

  /** A node made at `(x, y)` with `name`, when the counter has just been
      raised to `count`. */
  function Created(x: int, y: int, name: string, count: int): NodeView {
    var text := if name != "" then name else DecimalString(count);
    NodeView(x, y, if name != "" then Named(name) else Counted(count),
             x, y, x, y - LabelRise, text, text,
             false, "unvisited", Infinite, false, null, [])
  }

  /** A new node is named after `name` when it is non-empty and after the
      raised counter otherwise, is placed where asked, and starts unvisited,
      unfinished, without predecessor or edges. */
  lemma CreatedNode(x: int, y: int, name: string, count: int)
    ensures var v := Created(x, y, name, count);
      NodeValid(v) && v.x == x && v.y == y && !v.grabbed
      && (name != "" ==> v.id == Named(name) && v.labelText == name)
      && (name == "" ==> v.id == Counted(count) && v.labelText == DecimalString(count))
      && v.state == "unvisited" && v.distance == Infinite && !v.finished
      && v.previous == null && v.edges == []
  {
  }

  /** The node after `move(x, y)`. */
  function Moved(v: NodeView, x: int, y: int): NodeView {
    v.(x := x, y := y, cx := x, cy := y, labelX := x, labelY := y - LabelRise)
  }

  /** Moving keeps the invariant, puts the node where asked, and leaves its
      id, label text and every other field alone. */
  lemma MovePreserves(v: NodeView, x: int, y: int)
    requires NodeValid(v)
    ensures var w := Moved(v, x, y);
      NodeValid(w) && w.x == x && w.y == y
      && w.id == v.id && w.labelText == v.labelText && w.labelFor == v.labelFor
      && w.grabbed == v.grabbed && w.state == v.state && w.distance == v.distance
      && w.finished == v.finished && w.previous == v.previous && w.edges == v.edges
  {
  }

  /** Moving twice to the same point is moving once; moving elsewhere first
      leaves no trace. */
  lemma MoveIdempotent(v: NodeView, x0: int, y0: int, x: int, y: int)
    ensures Moved(Moved(v, x, y), x, y) == Moved(v, x, y)
    ensures Moved(Moved(v, x0, y0), x, y) == Moved(v, x, y)
  {
  }

  /** Two nodes can be given the same id: a name that is a number collides
      with the counted id for that number. */
  lemma NumericNameCollides(n: nat)
    ensures IdText(Named(DecimalString(n))) == IdText(Counted(n))
  {
  }

  class Node {
    var x: int
    var y: int
    var id: NodeId
    var cx: int               // the circle's `cx`
    var cy: int               // the circle's `cy`
    var labelX: int           // the label's `x`
    var labelY: int           // the label's `y`
    var labelText: string     // the label's text content
    var labelFor: string      // the label's `for-node`
    var grabbed: bool         // the circle's `grabbed` class
    var state: string
    var distance: Distance
    var finished: bool
    var previous: Node?
    var edges: seq<object>

    function View(): NodeView
      reads this
    {
      NodeView(x, y, id, cx, cy, labelX, labelY, labelText, labelFor, grabbed,
               state, distance, finished, previous, edges)
    }

    ghost predicate Valid()
      reads this
    {
      NodeValid(View())
    }

    function Position(): Point
      reads this
    {
      Point(x, y)
    }

    /** Raises the shared node counter, then names the node after `name`
        or, when it is empty, after the raised counter. */
    constructor (counters: Counters, x: int, y: int, name: string)
      modifies counters
      ensures counters.Snapshot() == Step(old(counters.Snapshot()), NodeBuilt)
      ensures View() == Created(x, y, name, counters.nodeCount)
      ensures Valid()
    {
      counters.nodeCount := counters.nodeCount + 1;
      var text := if name != "" then name else DecimalString(counters.nodeCount);
      this.x := x;
      this.y := y;
      cx := x;
      cy := y;
      labelX := x;
      labelY := y - 22;
      labelFor := text;
      labelText := text;
      id := if name != "" then Named(name) else Counted(counters.nodeCount);
      grabbed := false;
      state := "unvisited";
      distance := Infinite;
      finished := false;
      previous := null;
      edges := [];
    }

    /** The circle gets the `grabbed` class. */
    method StartMove()
      requires Valid()
      modifies this
      ensures View() == old(View()).(grabbed := true)
      ensures Valid()
    {
      grabbed := true;
    }

    /** Moves the node and its label; id and counters are untouched. */
    method Move(x: int, y: int)
      requires Valid()
      modifies this
      ensures View() == Moved(old(View()), x, y)
      ensures Valid()
    {
      this.x := x;
      this.y := y;
      cx := this.x;
      cy := this.y;
      labelX := this.x;
      labelY := this.y - 22;
      MovePreserves(old(View()), x, y);
    }

    /** The circle loses the `grabbed` class. */
    method EndMove()
      requires Valid()
      modifies this
      ensures View() == old(View()).(grabbed := false)
      ensures Valid()
    {
      grabbed := false;
    }
  }
}
