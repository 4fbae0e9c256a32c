/** The whole path of one edge, from port to port, before its corners are rounded (native/gui/src/flow_router.rs). */
module EdgeRoutes {
  import opened PortAssignment
  import opened SegmentRouting
  import opened Wrappers

  /** How far the path leaves a node straight on. */
  function Extension(clearance: real): real {
    Max(clearance * 1.5, 18.0)
  }

  function Rounding(clearance: real): real {
    Max(clearance * 0.75, 8.0)
  }

  function Beyond(port: Port, distance: real): Point {
    Point(port.point.x + port.normal.x * distance, port.point.y + port.normal.y * distance)
  }

  /** Straight out of the node, whatever the side. */
  lemma BeyondGoesOut(point: Point, side: Side, distance: real)
    ensures Beyond(Port(point, side.Normal()), distance) ==
            match side
            case Top => Point(point.x, point.y - distance)
            case Right => Point(point.x + distance, point.y)
            case Bottom => Point(point.x, point.y + distance)
            case Left => Point(point.x - distance, point.y)
  {
  }

  /** The port points along its side. */
  predicate Faces(port: Port) {
    exists side: Side :: port.normal == side.Normal()
  }

  /** From port to port by way of the extensions; the route in the middle may end beside its target, which is then added. */
  function Spine(source: Port, target: Port, middle: seq<Point>, extension: real): seq<Point>
    requires middle != []
  {
    var front := [source.point, Beyond(source, extension)] + middle[1..];
    var aimed := if front[|front| - 1] == Beyond(target, extension) then front else front + [Beyond(target, extension)];
    aimed + [target.point]
  }

  /** What is near one end of an extension is not near the other end. */
  lemma FarFromPort(port: Port, extension: real, q: Point)
    requires Faces(port) && extension >= 18.0 && Within(q, Beyond(port, extension), TOLERANCE)
    ensures !Near(q, port.point)
  {
    var side: Side :| port.normal == side.Normal();
    if Near(q, port.point) {
      NearIsWithin(q, port.point);
      assert false;
    }
  }

  /** However the route in the middle drifts, the path starts and ends exactly at its ports. */
  lemma PathMeetsPorts(source: Port, target: Port, middle: seq<Point>, extension: real)
    requires middle != [] && Faces(target) && extension >= 18.0
    ensures var path := Simplified(Spine(source, target, middle, extension));
            path[0] == source.point && path[|path| - 1] == target.point
  {
    var spine, beyond := Spine(source, target, middle, extension), Beyond(target, extension);
    var aimed := spine[..|spine| - 1];
    var before := Thinned(aimed)[|Thinned(aimed)| - 1];
    assert aimed[|aimed| - 1] == beyond;
    EndsStay(aimed);
    if before != beyond {
      NearIsWithin(before, beyond);
    }
    FarFromPort(target, extension, before);
    EndStaysIff(spine);
  }

  /** One edge between two ports. */
  method RouteEdge(source: Port, target: Port, ends: (nat, nat), nodes: seq<Node>, clearance: real, length: Length)
    returns (path: seq<Point>, ghost middle: seq<Point>, ghost settled: bool)
    requires Faces(target)
    ensures IsRoute(Beyond(source, Max(clearance * 1.5, 18.0)), Beyond(target, Max(clearance * 1.5, 18.0)), nodes, ends,
                    clearance + Max(clearance * 0.75, 8.0), length, middle, settled)
    ensures middle != [] && path == Simplified(Spine(source, target, middle, Max(clearance * 1.5, 18.0)))
    ensures path[0] == source.point && path[|path| - 1] == target.point
  {
    var extension := Extension(clearance);
    var route, done := RouteVisibility(Beyond(source, extension), Beyond(target, extension), ends, nodes, clearance + Rounding(clearance), length);
    middle, settled := route, done;
    var spine := [source.point, Beyond(source, extension)] + route[1..];
    if spine[|spine| - 1] != Beyond(target, extension) {
      spine := spine + [Beyond(target, extension)];
    }
    spine := spine + [target.point];
    PathMeetsPorts(source, target, route, extension);
    path := SimplifyPolyline(spine);
  }
}
