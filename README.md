# Graph diagram editor: nodes and edges

A Dafny model of the geometry and state engine of an interactive
graph-drawing editor. Two classes make it up. A `Node` is a draggable,
labelled point. An `Edge` joins two nodes. It is built pending, with a
throwaway placeholder node as its destination. It is finished once onto the
real destination, and it redraws itself when an endpoint is dragged or when
the edge is lowered or raised. The two classes share two process-wide
counters, `Node.nodeCount` and `Edge.edgeCount`. The edge counter gives
each new edge its id; the node counter gives the id and label of each new
node built without a name, while a named node takes its name.

The model keeps the source's form: `Nodes.Node` and `Edges.Edge` are
classes with the source's fields, and their methods mutate them. The DOM
attributes that the source writes become fields too:

- the line's `d` becomes a `Path` value: no path yet, a cubic `Curve`, or a straight `Line`;
- `marker-end` becomes a `Marker`: none, temporary arrowhead or final arrowhead;
- the weight text and its `rotate` become a `WeightLabel`;
- the text path's `alignment-baseline` becomes a `Baseline`;
- the `selecting`, `visited` and `grabbed` classes become booleans.

The two static counters become one `Counting.Counters` object. It is passed
to every operation that changes a counter.

Each class has a `View()` that collects all of its fields into one value.
Each method's postcondition gives the new view as a pure function of the
old view and the arguments (`Edges.DraggedFrom`, `Edges.Finished`,
`Nodes.Moved`, …). Each method also keeps the class invariant `Valid()`.
The properties are proved as lemmas about those pure functions. For
example, a self-loop always draws the same fixed curve. A weight label
always reads as the weight. Lowering and raising an edge never change its
label.

Files:
- `text.dfy`: decimal strings (JavaScript `String(n)` for integers), their parser, and character reversal.
- `counting.dfy`: the shared counters and the arithmetic of every operation that changes them.
- `drawing.dfy`: points, paths, markers, the self-loop curve, offset segments, and the oriented weight label.
- `node.dfy`: the `Node` class.
- `edge.dfy`: the `Edge` class and its transition functions.
- `scenarios.dfy`: concrete sequences of operations and what they draw.

The model keeps these behaviours of the code, including the surprising ones:
- `Node` has no destroy operation, so no node operation lowers the node counter.
- Calling `finishEdge` a second time is not rejected. It rebinds `to` and lowers the node counter again.
- The x-comparison that decides label orientation differs by call site: `to.x <= x` in `moveFrom`, `x < from.x` in `moveTo`, `to.x < from.x` in `finishEdge`. `Edges.ComparatorsDisagreeOnVertical` shows where these disagree.
- Counter balance includes the placeholder node: each edge built adds one to the node counter (`Counting.Balance`).
- Ids are not unique. Both counters go down, so a counted id can come back (`Scenarios.CountedIdReused`). A name made of digits, such as `"3"`, gives the same id as the counted node 3 (`Nodes.NumericNameCollides`).
- `moveDown` and `moveUp` have no self-loop case. On a self-loop they draw a zero-length line: `moveDown(dx, dy)` draws it at the node moved by `(dx, -dy)`, `moveUp` at the node itself (`Scenarios.DirectedSelfLoop`).
- The placeholder destination is built as `new Node(0, 0, false)`. Its name is falsy, so it takes a counted id. The model passes the empty name.

## Model

| member | source | states |
|---|---|---|
| Text.NatString | src/classes/Edge.ts:65 | the decimal digits of a natural number: non-empty, every character a digit, no leading zero (a first `0` only for 0 itself) |
| Text.NatStringCanonical | src/classes/Edge.ts:65 | every digit string without a leading zero is the digit string of the number it parses to, so the digits of n are the unique canonical ones |
| Text.DecimalString | src/classes/Node.ts:44-45 | `String(n)` for an integer: non-empty, starts with `-` exactly when n is negative, a digit first when n is not negative, digits after the first character, a first `0` only for the string `"0"` itself, and no `0` right after the `-` |
| Text.ParseNatString | src/classes/Edge.ts:65 | parsing the digit string of n gives back n |
| Text.DecimalRoundTrip | src/classes/Edge.ts:112 | parsing `String(n)` gives back n, for negative n too |
| Text.DecimalInjective | src/classes/Node.ts:45 | two integers with the same decimal string are equal |
| Text.Reverse | src/classes/Edge.ts:65 | `split('').reverse().join('')` keeps the length |
| Text.ReverseAt | src/classes/Edge.ts:81 | character k of the reversal is character `len-1-k` of the input |
| Text.ReverseInvolutive | src/classes/Edge.ts:112 | reversing twice gives back the string |
| Text.ReverseMultiset | src/classes/Edge.ts:112 | reversal only reorders characters |
| Counting.Balance | src/classes/Edge.ts:24-129 | after any sequence of node builds, edge builds, finishes and undraws, the node counter is its start plus node builds plus edge builds (placeholders) minus finishes minus undraws; the edge counter is its start plus edge builds minus undraws |
| Counting.FinishCancelsPlaceholder | src/classes/Edge.ts:51-92 | building then finishing an edge leaves the node counter unchanged and raises the edge counter by one |
| Counting.FinishedUndrawnEdgeLowersNodes | src/classes/Edge.ts:92-130 | an edge built, finished and undrawn leaves the edge counter unchanged and the node counter one lower |
| Counting.Counters.constructor | src/classes/Node.ts:19 | both counters start at 0 |
| Drawing.SelfLoopShape | src/classes/Edge.ts:57 | the loop starts and ends at the node; its control points are 75 above it, 70 to either side |
| Drawing.SegmentTranslates | src/classes/Edge.ts:59-61 | an offset moves both ends of a segment by the same amount, so its direction and length stay the same |
| Drawing.Oriented | src/classes/Edge.ts:64-66 | the weight label has rotation 180 exactly when reversed, else 0; it always reads as the weight's decimal string |
| Drawing.OrientedRearranges | src/classes/Edge.ts:65 | the label text holds exactly the characters of the weight's decimal string, reversed or not |
| Drawing.LabelDeterminesWeight | src/classes/Edge.ts:112-114 | labels that read the same belong to the same weight |
| Nodes.CreatedNode | src/classes/Node.ts:22-58 | a new node is at `(x, y)` with the label at `(x, y-22)`; id and label are the name when it is non-empty, else the raised counter; for-node equals the label; state `unvisited`, distance infinite, not finished, no previous node, no edges, not grabbed |
| Nodes.MovePreserves | src/classes/Node.ts:64-73 | `move` keeps the node invariant, sets position, circle centre and label position, and changes no other field |
| Nodes.MoveIdempotent | src/classes/Node.ts:64-73 | moving twice to a point equals moving there once; an earlier move leaves no trace |
| Nodes.NumericNameCollides | src/classes/Node.ts:35-52 | a node named with the digits of n gets the same id as the n-th counted node |
| Nodes.Node.constructor | src/classes/Node.ts:22-58 | the node counter goes up by exactly 1, the edge counter is unchanged, and the node is the one `Created` describes for the raised count |
| Nodes.Node.StartMove | src/classes/Node.ts:60-62 | sets the grabbed flag and changes nothing else |
| Nodes.Node.Move | src/classes/Node.ts:64-73 | the new state is `Moved(old state, x, y)`: position, circle centre and label position change; id and counters do not |
| Nodes.Node.EndMove | src/classes/Node.ts:75-77 | clears the grabbed flag and changes nothing else |
| Edges.EdgeIdTextInjective | src/classes/Edge.ts:25 | two edge ids are spelled the same exactly when they were taken from the same counter value |
| Edges.PendingEdge | src/classes/Edge.ts:23-53 | a new edge keeps the invariant; weight 0, not weighted, not lowered, no path, blank label; temporary arrowhead exactly when directed, none exactly when undirected |
| Edges.DraggedFromValid | src/classes/Edge.ts:55-69 | `moveFrom` keeps the edge invariant |
| Edges.DraggedToValid | src/classes/Edge.ts:71-85 | `moveTo` keeps the edge invariant |
| Edges.FinishedValid | src/classes/Edge.ts:87-116 | `finishEdge` keeps the edge invariant |
| Edges.TogglesValid | src/classes/Edge.ts:132-146 | `moveDown` and `moveUp` keep the edge invariant |
| Edges.LoopIgnoresDrag | src/classes/Edge.ts:56-73 | on a self-loop, `moveFrom` and `moveTo` draw the fixed loop at `from` whatever the arguments, offset and lowered flag, and change nothing else |
| Edges.FinishPath | src/classes/Edge.ts:91-101 | finishing any edge, a pending one included, onto `to` draws the fixed loop at `from` exactly when `to` is `from`, otherwise the segment offset by `(dx, dy)` unflipped; the lowered flag makes no difference |
| Edges.LoweredMirrorsOffset | src/classes/Edge.ts:59-77 | a lowered drag with offset `(dx, dy)` draws the same path as a raised drag with `(-dx, -dy)` |
| Edges.StationaryRedrawsAgree | src/classes/Edge.ts:61-145 | dragging either end to where it already is draws the same segment; on a raised edge this is the segment `finishEdge` draws; `moveDown` draws `finishEdge`'s offset segment and `moveUp` the un-offset one |
| Edges.DragOrientation | src/classes/Edge.ts:63-83 | dragging a weighted straight edge writes a label that reads as the weight, rotated 180 when `to.x <= x` (`moveFrom`) or `x < from.x` (`moveTo`) and 0 otherwise; an unweighted edge or a self-loop keeps its label; weight, endpoints and marker are unchanged |
| Edges.FinishMarker | src/classes/Edge.ts:95-105 | after finishing: no marker on a directed self-loop, the final arrowhead on any other directed edge, no marker on an undirected edge |
| Edges.FinishLabel | src/classes/Edge.ts:89-115 | finishing binds `to` and sets `weighted`; the weight changes only when weighted; a weighted edge's label reads as the weight, is rotated 180 when `to.x < from.x` and 0 otherwise, and sits after the edge; an unweighted finish keeps label and baseline |
| Edges.ComparatorsDisagreeOnVertical | src/classes/Edge.ts:65-114 | on a vertical weighted edge, dragging `from` in place turns the label over, while dragging `to` in place or finishing does not |
| Edges.TogglesKeepOrientation | src/classes/Edge.ts:132-146 | any run of `moveDown`/`moveUp` keeps label, rotation, weight, endpoints and marker; afterwards the edge is lowered exactly when the last call lowered it, the path is a line, and a weighted edge's baseline is before-edge after a lower and after-edge after a raise |
| Edges.Edge.constructor | src/classes/Edge.ts:23-53 | the edge counter goes up by 1 and gives the id; the placeholder `to` is a fresh node at (0, 0) with the next counted id, so the node counter also goes up by 1; the rest of the state is `Pending` |
| Edges.Edge.MoveFrom | src/classes/Edge.ts:55-69 | the new state is `DraggedFrom` of the old state and both endpoints' positions |
| Edges.Edge.MoveTo | src/classes/Edge.ts:71-85 | the new state is `DraggedTo` of the old state and the position of `from` |
| Edges.Edge.FinishEdge | src/classes/Edge.ts:87-116 | the node counter goes down by exactly 1; the new state is `Finished` of the old state, the new destination and both positions |
| Edges.Edge.Selecting | src/classes/Edge.ts:118-120 | sets the selecting flag and changes nothing else |
| Edges.Edge.Unselecting | src/classes/Edge.ts:122-124 | clears the selecting flag and changes nothing else |
| Edges.Edge.Undraw | src/classes/Edge.ts:126-130 | lowers the edge counter and the node counter by 1 each; the edge's fields are unchanged |
| Edges.Edge.MoveDown | src/classes/Edge.ts:132-138 | the new state is `Lowered`: lowered flag set, line `from+(dx,-dy)` to `to+(dx,-dy)`, baseline before-edge if weighted |
| Edges.Edge.MoveUp | src/classes/Edge.ts:140-146 | the new state is `Raised`: lowered flag cleared, line from `from` to `to`, baseline after-edge if weighted |
| Edges.Edge.SetVisited | src/classes/Edge.ts:148-150 | sets the visited flag and changes nothing else |
| Edges.Edge.SetUnvisited | src/classes/Edge.ts:152-154 | clears the visited flag and changes nothing else |
| Scenarios.RightwardWeightedEdge | src/classes/Edge.ts:87-116 | A at (0,0), B at (100,0), directed edge A to B finished with weight 42: line from (0,0) to (100,0), final arrowhead, label "42" at rotation 0 |
| Scenarios.LeftwardWeightedEdge | src/classes/Edge.ts:107-115 | the same edge with B at (-100,0): label "24" at rotation 180 |
| Scenarios.DirectedSelfLoop | src/classes/Edge.ts:95-138 | a directed weighted edge A to A shows the fixed loop and no arrowhead; lowering it by `(5, 3)` then draws a zero-length line at the node moved by `(5, -3)` |
| Scenarios.BuildAndFinish | src/classes/Edge.ts:24-92 | from counters (2, 0), building and finishing an edge gives counters (2, 1) and id `edge_1` |
| Scenarios.CountedIdReused | src/classes/Node.ts:23-52 | after an edge between two unnamed nodes is finished and undrawn, a third unnamed node gets the second node's id `node_2` and label "2" |

## Left out

- DOM work is not modelled: creating the SVG group, circle, path and text elements, `appendChild`, and `remove` in `undraw`. Their visible results are fields instead.
- The `class` attributes `full-node`, `node`, `full-edge` and `edge` are not modelled. They are constants.
- The node label's `alignment-baseline="after-edge"` is not modelled. It is a constant.
- The path's `from-node` and `to-node` attributes are not modelled. They spell `from.id` and `to.id`, and node ids never change.
- The text path's `href` and `startOffset="50%"` become the single flag `labelBound`.
- Path strings are modelled by their structure. The exact `d` syntax and the `toFixed(3)` rounding of the loop's control points are float-to-text formatting.
- Coordinates and weights are integers. JavaScript numbers (fractions, `NaN`, infinities, float rounding) are not modelled. `Infinity` as an initial distance becomes `Distance.Infinite`.
- A `WeightLabel` with no `rotate` attribute yet is `Blank`. Rotation is only written together with the text.
- The unused static fields `Node.nodeDragged` and `Edge.edgeDragged` are not modelled.
- Calling code is not modelled: the mouse and drag handlers that call these methods are not part of this model.
- Redesigns suggested for the editor are not modelled: a tagged pending/bound destination, tracking incident edges, rejecting a second `finishEdge`, unique ids. The code does none of these.
- Idempotence of the flag toggles (`Selecting`, `SetVisited`, `StartMove`, …) follows from their postconditions. Each sets one flag to a constant and keeps every other field, so there is no separate lemma. The same holds for `Node.Move`, whose pure counterpart carries `Nodes.MoveIdempotent`.
