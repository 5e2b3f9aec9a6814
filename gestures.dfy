// What the autopilot helpers do to the application under test: pointer
// drags and clicks, key presses and typing, recorded in order; and how a
// helper call ends.
module Gestures {
  /** A rectangle on the screen (globalRect). */
  datatype Rect = Rect(x: real, y: real, width: real, height: real)

  datatype Gesture =
    | Drag(fromX: real, fromY: real, toX: real, toY: real)
    | Click(target: string)
    | RightClick(target: string)
    | MoveTo(target: string)
    | Press(key: string)
    | Type(text: string)

  /**
   * How a helper call ends: normally, with the exception it raises (its
   * message), or with a wait_for whose condition the application never met.
   */
  datatype Outcome = Done | Raised(message: string) | TimedOut

  /** A drag the other way along the same line. */
  function Reversed(g: Gesture): (r: Gesture)
    requires g.Drag?
    ensures r.Drag? && r.fromX == g.toX && r.fromY == g.toY && r.toX == g.fromX && r.toY == g.fromY
  {
    Drag(g.toX, g.toY, g.fromX, g.fromY)
  }

  /** A drag whose two ends lie inside the rectangle's horizontal extent. */
  predicate WithinColumns(g: Gesture, r: Rect)
    requires g.Drag?
  {
    r.x <= g.fromX <= r.x + r.width && r.x <= g.toX <= r.x + r.width
  }

  /** n copies of a gesture. */
  function Repeat(g: Gesture, n: nat): (r: seq<Gesture>)
    ensures |r| == n && forall i :: 0 <= i < n ==> r[i] == g
  {
    if n == 0 then [] else Repeat(g, n - 1) + [g]
  }
}
