/** The attack graph's layout hooks: the x lane each node type is pulled
    towards, and the drag handlers that pin a node under the pointer and
    release it again.  The force integration itself is not modelled; only
    the values the handlers and the lane accessor write. */
module Drag {
  import opened Models
  import opened Graph

  /** The canvas width of the view. */
  const Width: real := 800.0

  /** The `forceX` target of a node: a fifth of the width for history,
      the middle for the current technique, four fifths for anything else. */
  function LaneX(t: NodeType): (x: real)
    ensures 0.0 < x < Width
    ensures t.History? <==> x == 160.0
    ensures t.Current? <==> x == 400.0
    ensures t.Predicted? <==> x == 640.0
  {
    if t == History then Width * 0.2
    else if t == Current then Width * 0.5
    else Width * 0.8
  }

  /** The lanes run left to right: history, current, predicted; so two node
      types share a lane only when they are the same type. */
  lemma LanesOrdered(a: NodeType, b: NodeType)
    ensures LaneX(History) < LaneX(Current) < LaneX(Predicted)
    ensures LaneX(a) == LaneX(b) <==> a == b
  {
  }

  /** A node object of the force simulation: its position, and the fixed
      position `fx`/`fy` that pins it while it is set.  It stands for the node
      objects that d3 annotates with positions (`AttackGraph.jsx:60`). */
  class SimNode {
    var x: real
    var y: real
    var fx: Option<real>
    var fy: Option<real>

    constructor(x0: real, y0: real)
      ensures x == x0 && y == y0 && fx == None && fy == None
    {
      x, y := x0, y0;
      fx, fy := None, None;
    }

    /** Both coordinates are pinned. */
    predicate Pinned()
      reads this
    {
      fx.Some? && fy.Some?
    }
  }

  /** The part of the force simulation the drag handlers touch: the alpha
      target it cools towards, and whether its timer has been restarted.  It
      stands for the object `forceSimulation` returns (`AttackGraph.jsx:60`). */
  class ForceSim {
    var alphaTarget: real
    var running: bool

    constructor()
      ensures alphaTarget == 0.0 && running
    {
      alphaTarget, running := 0.0, true;
    }
  }

  /** Drag start: the first gesture (no other drag active) reheats the
      simulation to alpha target 0.3 and restarts it; the dragged node is
      pinned where it stands. */
  method DragStarted(sim: ForceSim, subject: SimNode, active: nat)
    modifies sim, subject
    ensures subject.fx == Some(old(subject.x)) && subject.fy == Some(old(subject.y))
    ensures subject.x == old(subject.x) && subject.y == old(subject.y)
    ensures active == 0 ==> sim.alphaTarget == 0.3 && sim.running
    ensures active != 0 ==> sim.alphaTarget == old(sim.alphaTarget) && sim.running == old(sim.running)
  {
    if active == 0 {
      sim.alphaTarget := 0.3;
      sim.running := true;
    }
    subject.fx := Some(subject.x);
    subject.fy := Some(subject.y);
  }

  /** Drag move: the node is pinned at the pointer position. */
  method Dragged(subject: SimNode, px: real, py: real)
    modifies subject
    ensures subject.fx == Some(px) && subject.fy == Some(py)
    ensures subject.x == old(subject.x) && subject.y == old(subject.y)
  {
    subject.fx := Some(px);
    subject.fy := Some(py);
  }

  /** Drag end: the last gesture lets the simulation cool to alpha target 0;
      the node is released. */
  method DragEnded(sim: ForceSim, subject: SimNode, active: nat)
    modifies sim, subject
    ensures subject.fx == None && subject.fy == None
    ensures subject.x == old(subject.x) && subject.y == old(subject.y)
    ensures active == 0 ==> sim.alphaTarget == 0.0
    ensures active != 0 ==> sim.alphaTarget == old(sim.alphaTarget)
    ensures sim.running == old(sim.running)
  {
    if active == 0 {
      sim.alphaTarget := 0.0;
    }
    subject.fx := None;
    subject.fy := None;
  }

  /** A whole single-pointer gesture (start, one move, end, with no other
      drag active) leaves the node where the physics had it and free again,
      and the simulation running and cooling towards alpha 0. */
  method Gesture(sim: ForceSim, subject: SimNode, px: real, py: real)
    modifies sim, subject
    ensures !subject.Pinned()
    ensures subject.x == old(subject.x) && subject.y == old(subject.y)
    ensures sim.alphaTarget == 0.0 && sim.running
  {
    DragStarted(sim, subject, 0);
    assert subject.Pinned() && sim.alphaTarget == 0.3;
    Dragged(subject, px, py);
    assert subject.fx == Some(px) && subject.fy == Some(py);
    DragEnded(sim, subject, 0);
  }
}
