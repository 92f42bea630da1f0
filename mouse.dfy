/**
 * The cursor callback `mouse_callback`: it turns absolute cursor positions
 * into offsets from the previous position, treats the very first event as
 * a move of zero, and passes the offsets to the camera only while
 * `CameraMouseMovementUpdateEnabled` is set. Coordinates are reals here.
 */
module Mouse {
  import opened Glfw

  /** The globals `firstMouse`, `lastX` and `lastY`. */
  datatype Tracker = Tracker(firstMouse: bool, lastX: real, lastY: real)

  /** Before any event: the first-event latch is set and the last position is the screen centre. */
  const Initial := Tracker(true, ScreenWidth as real / 2.0, ScreenHeight as real / 2.0)

  /** A cursor position as the callback receives it. */
  datatype Pos = Pos(x: real, y: real)

  /** The bookkeeping after the callback, and the camera request it made, if any. */
  datatype Reaction = Reaction(tracker: Tracker, request: Option<CameraRequest>)

  function OnCursor(t: Tracker, cameraMouseUpdate: bool, p: Pos): (r: Reaction)
    ensures r.tracker == Tracker(false, p.x, p.y)
    ensures r.request.Some? <==> cameraMouseUpdate
    ensures r.request.Some? ==> r.request.value.ProcessMouseMovement?
    ensures t.firstMouse && r.request.Some? ==> r.request.value == ProcessMouseMovement(0.0, 0.0)
    ensures !t.firstMouse && r.request.Some? ==>
              t.lastX + r.request.value.xoffset == p.x && p.y + r.request.value.yoffset == t.lastY
  {
    var from := if t.firstMouse then Pos(p.x, p.y) else Pos(t.lastX, t.lastY);
    var xoffset := p.x - from.x;
    var yoffset := from.y - p.y;
    Reaction(Tracker(false, p.x, p.y),
             if cameraMouseUpdate then Some(ProcessMouseMovement(xoffset, yoffset)) else None)
  }

  /** The bookkeeping after a sequence of cursor events. */
  function Track(t: Tracker, ps: seq<Pos>): Tracker
    decreases |ps|
  {
    if ps == [] then t else OnCursor(Track(t, ps[..|ps| - 1]), true, ps[|ps| - 1]).tracker
  }

  /** The camera requests of a sequence of cursor events while the mouse drives the camera. */
  function Moves(t: Tracker, ps: seq<Pos>): seq<CameraRequest>
    decreases |ps|
  {
    if ps == [] then []
    else
      var pre := ps[..|ps| - 1];
      Moves(t, pre) + [OnCursor(Track(t, pre), true, ps[|ps| - 1]).request.value]
  }

  /** Total horizontal and vertical movement asked of the camera by a list of requests. */
  function SumX(rs: seq<CameraRequest>): real
    decreases |rs|
  {
    if rs == [] then 0.0
    else SumX(rs[..|rs| - 1]) + match rs[|rs| - 1] case ProcessMouseMovement(x, _) => x case _ => 0.0
  }

  function SumY(rs: seq<CameraRequest>): real
    decreases |rs|
  {
    if rs == [] then 0.0
    else SumY(rs[..|rs| - 1]) + match rs[|rs| - 1] case ProcessMouseMovement(_, y) => y case _ => 0.0
  }

  /** Every cursor event leaves the latch cleared and the last position at the event's position. */
  lemma TrackLast(t: Tracker, ps: seq<Pos>)
    requires ps != []
    ensures Track(t, ps) == Tracker(false, ps[|ps| - 1].x, ps[|ps| - 1].y)
  {
  }

  /**
   * No movement is lost or counted twice: while the mouse drives the camera,
   * the offsets of a run of events add up to the distance from where the
   * cursor was first seen (the previous position, or the run's first event
   * when none was seen yet) to where it is now, y reversed.
   */
  lemma {:induction false} MovesTelescope(t: Tracker, ps: seq<Pos>)
    requires ps != []
    ensures var start := if t.firstMouse then ps[0] else Pos(t.lastX, t.lastY);
            SumX(Moves(t, ps)) == ps[|ps| - 1].x - start.x &&
            SumY(Moves(t, ps)) == start.y - ps[|ps| - 1].y
    decreases |ps|
  {
    var pre := ps[..|ps| - 1];
    var rs := Moves(t, ps);
    assert rs[..|rs| - 1] == Moves(t, pre);
    if pre != [] {
      MovesTelescope(t, pre);
      TrackLast(t, pre);
      assert pre[0] == ps[0];
    }
  }
}
