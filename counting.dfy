/** The two process-wide counters `Node.nodeCount` and `Edge.edgeCount`,
    here one shared object, and the arithmetic of the four operations that
    change them. */
module Counting {

  /** A snapshot of both counters. */
  datatype Tally = Tally(nodes: int, edges: int)

  /** The counter-changing operations of the core. */
  datatype Event =
    | NodeBuilt     // `new Node(...)`: nodeCount + 1
    | EdgeBuilt     // `new Edge(...)`: edgeCount + 1, and its placeholder node: nodeCount + 1
    | EdgeFinished  // `finishEdge`: nodeCount - 1
    | EdgeUndrawn   // `undraw`: edgeCount - 1 and nodeCount - 1

  function Step(t: Tally, e: Event): Tally {
    match e
    case NodeBuilt => Tally(t.nodes + 1, t.edges)
    case EdgeBuilt => Tally(t.nodes + 1, t.edges + 1)
    case EdgeFinished => Tally(t.nodes - 1, t.edges)
    case EdgeUndrawn => Tally(t.nodes - 1, t.edges - 1)
  }

  function Replay(t: Tally, events: seq<Event>): Tally
    decreases |events|
  {
    if events == [] then t else Replay(Step(t, events[0]), events[1..])
  }

  /** The counter-balance law: after any sequence of operations each counter
      is its start value plus the operations that raise it minus those that
      lower it. Each edge built also counts one placeholder node. */
  lemma {:induction false} Balance(t: Tally, events: seq<Event>)
    ensures var m := multiset(events);
      Replay(t, events) == Tally(
        t.nodes + m[NodeBuilt] + m[EdgeBuilt] - m[EdgeFinished] - m[EdgeUndrawn],
        t.edges + m[EdgeBuilt] - m[EdgeUndrawn])
    decreases |events|
  {
    if events != [] {
      assert events == [events[0]] + events[1..];
      Balance(Step(t, events[0]), events[1..]);
    }
  }

  /** Finishing an edge cancels the placeholder node its construction counted. */
  lemma FinishCancelsPlaceholder(t: Tally)
    ensures Replay(t, [EdgeBuilt, EdgeFinished]) == Tally(t.nodes, t.edges + 1)
  {
  }

  /** An edge that is built, finished and undrawn leaves the edge counter
      where it was but the node counter one lower. */
  lemma FinishedUndrawnEdgeLowersNodes(t: Tally)
    ensures Replay(t, [EdgeBuilt, EdgeFinished, EdgeUndrawn]) == Tally(t.nodes - 1, t.edges)
  {
  }

  class Counters {
    var nodeCount: int
    var edgeCount: int

    /** Both static counters start at 0. */
    constructor ()
      ensures Snapshot() == Tally(0, 0)
    {
      nodeCount, edgeCount := 0, 0;
    }

    function Snapshot(): Tally
      reads this
    {
      Tally(nodeCount, edgeCount)
    }
  }
}
