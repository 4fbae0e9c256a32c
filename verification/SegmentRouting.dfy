/**
 Obstacle avoidance for one edge (native/gui/src/flow_router.rs).

 Slab clipping finds where a segment first enters a rectangle; the router inserts
 two corners around the first obstruction until none is left or it gives up.
 `f32` is read as `real`; Euclidean length is the parameter `length`, because only
 the choice among candidate detours depends on it.
 */
module SegmentRouting {

  import opened Wrappers

  datatype Point = Point(x: real, y: real)

  datatype Rect = Rect(min: Point, max: Point) {
    function Expand(margin: real): Rect {
      Rect(Point(min.x - margin, min.y - margin), Point(max.x + margin, max.y + margin))
    }

    predicate Contains(p: Point) {
      min.x <= p.x <= max.x && min.y <= p.y <= max.y
    }

    predicate Proper() {
      min.x <= max.x && min.y <= max.y
    }

    /** Clockwise from the top left, as the router lists them. */
    function Corners(): (c: seq<Point>)
      ensures |c| == 4
    {
      [min, Point(max.x, min.y), max, Point(min.x, max.y)]
    }
  }

  /** f32::EPSILON, and the slack at both segment ends inside which contact is not an obstruction. */
  const EPSILON: real := 1.0 / 8388608.0
  const SLACK: real := 0.0001

  function Abs(v: real): real {
    if v < 0.0 then -v else v
  }

  function Min(a: real, b: real): real {
    if a <= b then a else b
  }

  function Max(a: real, b: real): real {
    if a >= b then a else b
  }

  /** Both coordinates are at most this far apart. */
  predicate Within(a: Point, b: Point, distance: real) {
    Abs(a.x - b.x) <= distance && Abs(a.y - b.y) <= distance
  }

  /** Growing a rectangle takes in exactly what lies within the margin of it. */
  lemma ExpandGrows(rect: Rect, margin: real, p: Point)
    requires rect.Proper() && margin >= 0.0
    ensures rect.Expand(margin).Contains(p) <==> exists q :: rect.Contains(q) && Within(p, q, margin)
  {
    if rect.Expand(margin).Contains(p) {
      var q := Point(Max(rect.min.x, Min(p.x, rect.max.x)), Max(rect.min.y, Min(p.y, rect.max.y)));
      assert rect.Contains(q) && Within(p, q, margin);
    }
  }

  /** Shrinking it leaves exactly what is that deep inside. */
  lemma ShrinkKeepsInside(rect: Rect, margin: real, p: Point)
    requires margin >= 0.0
    ensures rect.Expand(-margin).Contains(p) <==> forall q :: Within(p, q, margin) ==> rect.Contains(q)
  {
    if !rect.Expand(-margin).Contains(p) {
      var dx := if p.x < rect.min.x + margin then -margin else if p.x > rect.max.x - margin then margin else 0.0;
      var dy := if p.y < rect.min.y + margin then -margin else if p.y > rect.max.y - margin then margin else 0.0;
      var q := Point(p.x + dx, p.y + dy);
      assert Within(p, q, margin) && !rect.Contains(q);
    }
  }

  // ----- slab clipping

  function Times(a: real, b: real): real {
    a * b
  }

  datatype Axis = Axis(origin: real, delta: real, min: real, max: real) {
    /** Movement too small to divide by is treated as none at all. */
    predicate Still() {
      Abs(delta) <= EPSILON
    }

    /** The axis coordinate at parameter `t` lies in the slab, as the clipper sees the axis. */
    ghost predicate Inside(t: real) {
      if Still() then min <= origin <= max
      else Min(min, max) <= origin + Times(delta, t) <= Max(min, max)
    }
  }

  function AxesOf(p: Point, q: Point, rect: Rect): (axes: seq<Axis>)
    ensures |axes| == 2
  {
    [Axis(p.x, q.x - p.x, rect.min.x, rect.max.x), Axis(p.y, q.y - p.y, rect.min.y, rect.max.y)]
  }

  ghost predicate InsideAll(axes: seq<Axis>, n: nat, t: real)
    requires n <= |axes|
  {
    forall i :: 0 <= i < n ==> axes[i].Inside(t)
  }

  lemma Ordered(d: real, a: real, b: real)
    requires d != 0.0
    ensures d > 0.0 ==> (a <= b <==> Times(d, a) <= Times(d, b))
    ensures d < 0.0 ==> (a <= b <==> Times(d, b) <= Times(d, a))
  {
    assert Times(d, b) - Times(d, a) == Times(d, b - a);
    if a < b {
      assert d > 0.0 ==> Times(d, b - a) > 0.0;
      assert d < 0.0 ==> Times(-d, b - a) > 0.0;
    } else if b < a {
      assert d > 0.0 ==> Times(d, a - b) > 0.0;
      assert d < 0.0 ==> Times(-d, a - b) > 0.0;
    }
  }

  lemma Quotient(v: real, d: real)
    requires d != 0.0
    ensures Times(d, v / d) == v
  {
  }

  /** A moving axis is inside its slab exactly between the two crossing parameters. */
  lemma SlabTimes(axis: Axis, t: real)
    requires !axis.Still()
    ensures var a, b := (axis.min - axis.origin) / axis.delta, (axis.max - axis.origin) / axis.delta;
            axis.Inside(t) <==> Min(a, b) <= t <= Max(a, b)
  {
    var d := axis.delta;
    var a, b := (axis.min - axis.origin) / d, (axis.max - axis.origin) / d;
    Quotient(axis.min - axis.origin, d);
    Quotient(axis.max - axis.origin, d);
    Ordered(d, a, t);
    Ordered(d, t, a);
    Ordered(d, b, t);
    Ordered(d, t, b);
    Ordered(d, a, b);
  }

  /** Some contact strictly inside the segment, away from both of its ends. */
  ghost predicate Touches(axes: seq<Axis>) {
    exists t :: SLACK < t < 1.0 - SLACK && InsideAll(axes, |axes|, t)
  }

  /** A result is given exactly when there is inner contact, and it is the first contact of the whole segment. */
  ghost predicate Clipped(axes: seq<Axis>, r: Option<real>) {
    && (r.Some? <==> Touches(axes))
    && (r.Some? ==> 0.0 <= r.value < 1.0 - SLACK && InsideAll(axes, |axes|, r.value))
    && (r.Some? ==> forall t :: 0.0 <= t < r.value ==> !InsideAll(axes, |axes|, t))
  }

  /** On the segment, the first `n` axes are inside exactly for `entry <= t <= exit`. */
  ghost predicate Window(axes: seq<Axis>, n: nat, entry: real, exit: real)
    requires n <= |axes|
  {
    forall t :: 0.0 <= t <= 1.0 ==> (InsideAll(axes, n, t) <==> entry <= t <= exit)
  }

  method SegmentRectEntry(p: Point, q: Point, rect: Rect) returns (r: Option<real>)
    ensures Clipped(AxesOf(p, q, rect), r)
  {
    var axes := AxesOf(p, q, rect);
    var entry, exit := 0.0, 1.0;
    for i := 0 to |axes|
      invariant 0.0 <= entry <= exit <= 1.0 && Window(axes, i, entry, exit)
    {
      var axis := axes[i];
      ghost var next := i + 1;
      assert forall t :: InsideAll(axes, next, t) <==> InsideAll(axes, i, t) && axes[i].Inside(t);
      if axis.Still() {
        if axis.origin < axis.min || axis.origin > axis.max {
          assert forall t :: !InsideAll(axes, |axes|, t) by {
            assert forall t :: !axes[i].Inside(t);
          }
          return None;
        }
        assert forall t :: axes[i].Inside(t);
      } else {
        var a := (axis.min - axis.origin) / axis.delta;
        var b := (axis.max - axis.origin) / axis.delta;
        ghost var before, after := entry, exit;
        entry, exit := Max(entry, Min(a, b)), Min(exit, Max(a, b));
        forall t | 0.0 <= t <= 1.0
          ensures InsideAll(axes, next, t) <==> entry <= t <= exit
        {
          SlabTimes(axis, t);
          assert InsideAll(axes, i, t) <==> before <= t <= after;
        }
        if entry > exit {
          assert forall t :: 0.0 <= t <= 1.0 && InsideAll(axes, |axes|, t) ==> InsideAll(axes, next, t);
          return None;
        }
      }
    }
    r := if entry < 1.0 - SLACK && exit > SLACK then Some(entry) else None;
    assert InsideAll(axes, |axes|, entry);
    if r.Some? {
      var t := if entry > SLACK then entry else (SLACK + Min(exit, 1.0 - SLACK)) / 2.0;
      assert SLACK < t < 1.0 - SLACK && InsideAll(axes, |axes|, t);
    }
  }

  // ----- what clipping says about the plane

  function At(p: Point, q: Point, t: real): Point {
    Point(p.x + Times(q.x - p.x, t), p.y + Times(q.y - p.y, t))
  }

  /** Each coordinate either does not move or moves by more than EPSILON. */
  predicate Resolved(p: Point, q: Point) {
    && (q.x == p.x || Abs(q.x - p.x) > EPSILON)
    && (q.y == p.y || Abs(q.y - p.y) > EPSILON)
  }

  /** The segment truly meets the rectangle away from its own ends. */
  ghost predicate Meets(p: Point, q: Point, rect: Rect) {
    exists t :: SLACK < t < 1.0 - SLACK && rect.Contains(At(p, q, t))
  }

  lemma InsideIsContainment(p: Point, q: Point, rect: Rect, t: real)
    requires rect.Proper() && Resolved(p, q)
    ensures InsideAll(AxesOf(p, q, rect), 2, t) <==> rect.Contains(At(p, q, t))
  {
    var axes := AxesOf(p, q, rect);
    assert InsideAll(axes, 2, t) <==> axes[0].Inside(t) && axes[1].Inside(t);
    assert Times(0.0, t) == 0.0;
  }

  lemma ResolvedIsExact(p: Point, q: Point, rect: Rect)
    requires rect.Proper() && Resolved(p, q)
    ensures Touches(AxesOf(p, q, rect)) <==> Meets(p, q, rect)
  {
    forall t {
      InsideIsContainment(p, q, rect, t);
    }
  }

  /** A movement in (0, EPSILON] is dropped: the clipper misses a thin rectangle half way along. */
  lemma UnresolvedMisses(p: Point, q: Point) returns (rect: Rect)
    requires !Resolved(p, q)
    ensures rect.Proper() && Meets(p, q, rect) && !Touches(AxesOf(p, q, rect))
  {
    var mid := At(p, q, 0.5);
    var low, high := Point(Min(p.x, q.x) - 1.0, Min(p.y, q.y) - 1.0), Point(Max(p.x, q.x) + 1.0, Max(p.y, q.y) + 1.0);
    if q.x != p.x && Abs(q.x - p.x) <= EPSILON {
      rect := Rect(Point(mid.x, low.y), Point(mid.x, high.y));
      assert forall t :: !AxesOf(p, q, rect)[0].Inside(t);
    } else {
      rect := Rect(Point(low.x, mid.y), Point(high.x, mid.y));
      assert forall t :: !AxesOf(p, q, rect)[1].Inside(t);
    }
    assert Times(q.x - p.x, 0.5) == (q.x - p.x) / 2.0 && Times(q.y - p.y, 0.5) == (q.y - p.y) / 2.0;
    assert rect.Contains(mid);
  }

  /** Clipping is exact for every proper rectangle precisely when no coordinate moves by a dropped amount. */
  lemma ExactIffResolved(p: Point, q: Point)
    ensures Resolved(p, q) <==>
            forall rect: Rect :: rect.Proper() ==> (Touches(AxesOf(p, q, rect)) <==> Meets(p, q, rect))
  {
    if Resolved(p, q) {
      forall rect: Rect | rect.Proper() {
        ResolvedIsExact(p, q, rect);
      }
    } else {
      var rect := UnresolvedMisses(p, q);
    }
  }

  // ----- the router

  datatype Node = Node(id: nat, rect: Rect)

  /** The node can obstruct this edge, and does obstruct the segment. */
  ghost predicate Blocks(node: Node, p: Point, q: Point, ends: (nat, nat), clearance: real) {
    node.id != ends.0 && node.id != ends.1 && Touches(AxesOf(p, q, node.rect.Expand(clearance)))
  }

  ghost predicate Blocked(p: Point, q: Point, nodes: seq<Node>, ends: (nat, nat), clearance: real) {
    exists node :: node in nodes && Blocks(node, p, q, ends, clearance)
  }

  /** The segment first comes into contact with the grown node at parameter `t`. */
  ghost predicate EntersAt(node: Node, p: Point, q: Point, clearance: real, t: real) {
    Clipped(AxesOf(p, q, node.rect.Expand(clearance)), Some(t))
  }

  lemma EntryIsUnique(node: Node, p: Point, q: Point, clearance: real, t: real, u: real)
    requires EntersAt(node, p, q, clearance, t) && EntersAt(node, p, q, clearance, u)
    ensures t == u
  {
    var axes := AxesOf(p, q, node.rect.Expand(clearance));
    assert InsideAll(axes, |axes|, t) && InsideAll(axes, |axes|, u);
  }

  /** A blocking node that is entered at `entry`; every other one is entered later, or there too but has no smaller id. */
  ghost predicate Nearest(p: Point, q: Point, nodes: seq<Node>, ends: (nat, nat), clearance: real, best: Node, entry: real) {
    && best in nodes && Blocks(best, p, q, ends, clearance) && EntersAt(best, p, q, clearance, entry)
    && forall node, t {:trigger EntersAt(node, p, q, clearance, t)} ::
         node in nodes && Blocks(node, p, q, ends, clearance) && EntersAt(node, p, q, clearance, t) ==>
           entry < t || (entry == t && best.id <= node.id)
  }

  /** One node more. */
  lemma NearestExtends(p: Point, q: Point, nodes: seq<Node>, ends: (nat, nat), clearance: real, best: Node, entry: real,
                       node: Node, t: real)
    requires Nearest(p, q, nodes, ends, clearance, best, entry)
    requires Blocks(node, p, q, ends, clearance) && EntersAt(node, p, q, clearance, t)
    ensures if t < entry || (t == entry && node.id < best.id) then Nearest(p, q, nodes + [node], ends, clearance, node, t)
            else Nearest(p, q, nodes + [node], ends, clearance, best, entry)
  {
    forall u | EntersAt(node, p, q, clearance, u)
      ensures u == t
    {
      EntryIsUnique(node, p, q, clearance, t, u);
    }
  }

  /** The blocker that the segment enters first, ties broken by node id. */
  method NearestBlocker(p: Point, q: Point, nodes: seq<Node>, ends: (nat, nat), clearance: real)
    returns (best: Option<Node>, entry: real)
    ensures best.Some? <==> Blocked(p, q, nodes, ends, clearance)
    ensures best.Some? ==> Nearest(p, q, nodes, ends, clearance, best.value, entry)
  {
    best, entry := None, 0.0;
    for k := 0 to |nodes|
      invariant best.Some? <==> Blocked(p, q, nodes[..k], ends, clearance)
      invariant best.Some? ==> Nearest(p, q, nodes[..k], ends, clearance, best.value, entry)
    {
      var node := nodes[k];
      assert nodes[..k + 1] == nodes[..k] + [node];
      if node.id != ends.0 && node.id != ends.1 {
        var contact := SegmentRectEntry(p, q, node.rect.Expand(clearance));
        if contact.Some? {
          assert node in nodes[..k + 1] && Blocks(node, p, q, ends, clearance);
          assert EntersAt(node, p, q, clearance, contact.value);
          if best.None? {
            OnlyBlocker(p, q, nodes[..k], ends, clearance, node, contact.value);
          } else {
            NearestExtends(p, q, nodes[..k], ends, clearance, best.value, entry, node, contact.value);
          }
          if best.None? || contact.value < entry || (contact.value == entry && node.id < best.value.id) {
            best, entry := Some(node), contact.value;
          }
        }
      }
    }
    assert nodes[..|nodes|] == nodes;
  }

  lemma OnlyBlocker(p: Point, q: Point, nodes: seq<Node>, ends: (nat, nat), clearance: real, node: Node, t: real)
    requires !Blocked(p, q, nodes, ends, clearance)
    requires Blocks(node, p, q, ends, clearance) && EntersAt(node, p, q, clearance, t)
    ensures Nearest(p, q, nodes + [node], ends, clearance, node, t)
  {
    forall u | EntersAt(node, p, q, clearance, u)
      ensures u == t
    {
      EntryIsUnique(node, p, q, clearance, t, u);
    }
  }

  /** No segment of the polyline is obstructed. */
  ghost predicate Clear(points: seq<Point>, nodes: seq<Node>, ends: (nat, nat), clearance: real) {
    forall i :: 0 < i < |points| ==> !Blocked(points[i - 1], points[i], nodes, ends, clearance)
  }

  /** `segment` is the first one that is obstructed, and `blocker` its nearest blocker, grown. */
  ghost predicate Obstructs(points: seq<Point>, nodes: seq<Node>, ends: (nat, nat), clearance: real, segment: nat, blocker: Rect) {
    && segment + 1 < |points| && Clear(points[..segment + 1], nodes, ends, clearance)
    && exists node, entry {:trigger Nearest(points[segment], points[segment + 1], nodes, ends, clearance, node, entry)} ::
         Nearest(points[segment], points[segment + 1], nodes, ends, clearance, node, entry) && blocker == node.rect.Expand(clearance)
  }

  method FirstObstruction(points: seq<Point>, nodes: seq<Node>, ends: (nat, nat), clearance: real)
    returns (segment: nat, blocker: Option<Rect>)
    ensures blocker.None? <==> Clear(points, nodes, ends, clearance)
    ensures blocker.Some? ==> Obstructs(points, nodes, ends, clearance, segment, blocker.value)
  {
    segment, blocker := 0, None;
    while segment + 1 < |points|
      invariant segment < |points| || points == []
      invariant points != [] ==> Clear(points[..segment + 1], nodes, ends, clearance)
    {
      var nearest, entry := NearestBlocker(points[segment], points[segment + 1], nodes, ends, clearance);
      if nearest.Some? {
        assert Blocked(points[segment], points[segment + 1], nodes, ends, clearance);
        return segment, Some(nearest.value.rect.Expand(clearance));
      }
      forall i | 0 < i < segment + 2
        ensures !Blocked(points[i - 1], points[i], nodes, ends, clearance)
      {
        if i < segment + 1 {
          assert points[..segment + 1][i - 1] == points[i - 1] && points[..segment + 1][i] == points[i];
        }
      }
      segment := segment + 1;
    }
    if points != [] {
      assert points[..segment + 1] == points;
    }
  }

  function SquaredLength(a: Point, b: Point): real {
    Times(b.x - a.x, b.x - a.x) + Times(b.y - a.y, b.y - a.y)
  }

  predicate Near(a: Point, b: Point) {
    SquaredLength(a, b) <= 0.000001
  }

  /** Going from `a` by `b` to `c` hardly turns. */
  predicate Straight(a: Point, b: Point, c: Point) {
    var cross := Times(b.x - a.x, c.y - b.y) - Times(b.y - a.y, c.x - b.x);
    var dot := Times(b.x - a.x, c.x - b.x) + Times(b.y - a.y, c.y - b.y);
    Abs(cross) <= SLACK && dot >= 0.0
  }

  /** Each point that is near the last one kept is dropped. */
  function Thinned(points: seq<Point>): (kept: seq<Point>)
    requires points != []
    ensures kept != [] && kept[0] == points[0] && |kept| <= |points|
  {
    if |points| == 1 then points
    else
      var front := Thinned(points[..|points| - 1]);
      if Near(front[|front| - 1], points[|points| - 1]) then front else front + [points[|points| - 1]]
  }

  /** From `index` on, the middle point of a straight run is dropped; the point before it is not looked at again. */
  function Straightened(kept: seq<Point>, index: nat): (s: seq<Point>)
    requires 1 <= index && kept != []
    ensures s != [] && s[0] == kept[0] && |s| <= |kept| && s[|s| - 1] == kept[|kept| - 1]
    decreases |kept| - index
  {
    if index + 1 >= |kept| then kept
    else if Straight(kept[index - 1], kept[index], kept[index + 1]) then Straightened(kept[..index] + kept[index + 1..], index)
    else Straightened(kept, index + 1)
  }

  function Simplified(points: seq<Point>): (kept: seq<Point>)
    requires points != []
    ensures kept != [] && kept[0] == points[0] && |kept| <= |points|
  {
    Straightened(Thinned(points), 1)
  }

  /** Twice the area of a triangle, by the coordinates of its corners. */
  function TwiceArea(a: Point, b: Point, c: Point): real {
    Times(a.x, b.y - c.y) + Times(b.x, c.y - a.y) + Times(c.x, a.y - b.y)
  }

  /** The triangle of the three points is almost flat, and its angle at the middle one is not acute. */
  lemma StraightIsFlat(a: Point, b: Point, c: Point)
    ensures Straight(a, b, c) <==>
            Abs(TwiceArea(a, b, c)) <= 0.0001 && SquaredLength(a, b) + SquaredLength(b, c) <= SquaredLength(a, c)
  {
    AreaIsCross(a, b, c);
    CosineLaw(b.x - a.x, c.x - b.x);
    CosineLaw(b.y - a.y, c.y - b.y);
  }

  lemma AreaIsCross(a: Point, b: Point, c: Point)
    ensures Times(b.x - a.x, c.y - b.y) - Times(b.y - a.y, c.x - b.x) == TwiceArea(a, b, c)
  {
  }

  lemma CosineLaw(u: real, v: real)
    ensures Times(u + v, u + v) == Times(u, u) + Times(v, v) + 2.0 * Times(u, v)
  {
  }

  /** Points are near within a thousandth, and not near beyond it in either coordinate. */
  lemma NearIsClose(a: Point, b: Point)
    ensures Within(a, b, 0.0007) ==> Near(a, b)
    ensures Near(a, b) ==> Within(a, b, 0.001)
    ensures a.y == b.y && Abs(a.x - b.x) == 0.001 ==> Near(a, b)
  {
    var dx, dy := b.x - a.x, b.y - a.y;
    if Near(a, b) {
      NearIsWithin(a, b);
    }
    if Within(a, b, 0.0007) {
      SquareWithin(dx);
      SquareWithin(dy);
    }
  }

  lemma SquareWithin(d: real)
    requires Abs(d) <= 0.0007
    ensures Times(d, d) <= 0.00000049
  {
    NotNegative(0.0007 - d, 0.0007 + d);
    assert Times(0.0007 - d, 0.0007 + d) == 0.00000049 - Times(d, d);
  }

  lemma NotNegative(a: real, b: real)
    requires a >= 0.0 && b >= 0.0
    ensures Times(a, b) >= 0.0
  {
  }

  /** Where the kept points were: point `i` of the polyline is kept, or is near the point kept before it. */
  ghost predicate KeptAt(points: seq<Point>, places: seq<nat>, kept: seq<Point>) {
    && |places| == |kept| > 0 && places[0] == 0
    && (forall k :: 0 <= k < |kept| ==> places[k] < |points| && kept[k] == points[places[k]])
    && (forall k :: 0 < k < |kept| ==> places[k - 1] < places[k])
    && (forall k, i :: 0 <= k < |kept| && places[k] < i < (if k + 1 < |kept| then places[k + 1] else |points|) ==> Near(kept[k], points[i]))
  }

  /** Thinning keeps points in order, and drops only points near the one kept before. */
  lemma {:induction false} ThinnedKeeps(points: seq<Point>) returns (places: seq<nat>)
    requires points != []
    ensures KeptAt(points, places, Thinned(points))
  {
    if |points| == 1 {
      places := [0];
    } else {
      var n := |points| - 1;
      var front := Thinned(points[..n]);
      places := ThinnedKeeps(points[..n]);
      if Near(front[|front| - 1], points[n]) {
        KeptStays(points, places, front);
      } else {
        KeptMore(points, places, front);
        places := places + [n];
      }
    }
  }

  lemma KeptStays(points: seq<Point>, places: seq<nat>, kept: seq<Point>)
    requires points != [] && KeptAt(points[..|points| - 1], places, kept) && Near(kept[|kept| - 1], points[|points| - 1])
    ensures KeptAt(points, places, kept)
  {
    assert forall i :: 0 <= i < |points| - 1 ==> points[..|points| - 1][i] == points[i];
  }

  lemma KeptMore(points: seq<Point>, places: seq<nat>, kept: seq<Point>)
    requires points != [] && KeptAt(points[..|points| - 1], places, kept)
    ensures KeptAt(points, places + [|points| - 1], kept + [points[|points| - 1]])
  {
    var n, front := |points| - 1, points[..|points| - 1];
    var more, all := places + [n], kept + [points[n]];
    assert forall i :: 0 <= i < n ==> front[i] == points[i];
    forall k, i | 0 <= k < |all| && more[k] < i < (if k + 1 < |all| then more[k + 1] else |points|)
      ensures Near(all[k], points[i])
    {
      assert k < |kept| && all[k] == kept[k] && more[k] == places[k] && i < n;
      assert k + 1 < |kept| ==> more[k + 1] == places[k + 1];
      assert Near(kept[k], front[i]);
    }
  }

  /** The first point stays, and the last one up to its distance from the point kept in its place. */
  lemma {:induction false} EndsStay(points: seq<Point>)
    requires points != []
    ensures Thinned(points)[|Thinned(points)| - 1] == points[|points| - 1] || Near(Thinned(points)[|Thinned(points)| - 1], points[|points| - 1])
    ensures forall k :: 0 < k < |Thinned(points)| ==> !Near(Thinned(points)[k - 1], Thinned(points)[k])
  {
    if |points| > 1 {
      EndsStay(points[..|points| - 1]);
    }
  }

  /** Simplification keeps where a route starts, and moves its end by at most the tolerance. */
  lemma SimplifiedEnds(points: seq<Point>)
    requires points != []
    ensures var s := Simplified(points); s[0] == points[0] && (s[|s| - 1] == points[|points| - 1] || Near(s[|s| - 1], points[|points| - 1]))
  {
    EndsStay(points);
  }

  /** The end stays exactly when it is not near the point kept before it, or equals that point. */
  lemma {:induction false} EndStaysIff(points: seq<Point>)
    requires |points| > 1
    ensures var s, before := Simplified(points), Thinned(points[..|points| - 1]);
            s[|s| - 1] == points[|points| - 1] <==>
            !Near(before[|before| - 1], points[|points| - 1]) || before[|before| - 1] == points[|points| - 1]
  {
  }

  lemma {:induction false} ThinnedPair(a: Point, b: Point)
    ensures Thinned([a]) == [a]
    ensures !Near(a, b) ==> Thinned([a, b]) == [a, b]
  {
    assert [a, b][..1] == [a];
  }

  /** A polyline whose end moves: its last point is half the tolerance from the one before it. */
  lemma {:induction false} EndMayMove()
    ensures var points := [Point(0.0, 0.0), Point(1.0, 0.0), Point(1.0005, 0.0)];
            Simplified(points)[|Simplified(points)| - 1] != points[|points| - 1]
  {
    var a, b, c := Point(0.0, 0.0), Point(1.0, 0.0), Point(1.0005, 0.0);
    var points := [a, b, c];
    assert !Near(a, b) && Near(b, c) by {
      assert Times(1.0, 1.0) == 1.0 && Times(0.0, 0.0) == 0.0 && Times(0.0005, 0.0005) == 0.00000025;
      assert b.x - a.x == 1.0 && c.x - b.x == 0.0005;
    }
    ThinnedPair(a, b);
    assert points[..2] == [a, b];
    EndStaysIff(points);
  }

  /** How far simplification may move a coordinate of the end. */
  const TOLERANCE: real := 0.001

  lemma SmallSquare(d: real)
    requires Times(d, d) <= 0.000001
    ensures Abs(d) <= TOLERANCE
  {
    assert Times(d, d) == Times(-d, -d);
    assert d > TOLERANCE ==> Times(d, d) > TOLERANCE * TOLERANCE;
    assert -d > TOLERANCE ==> Times(-d, -d) > TOLERANCE * TOLERANCE;
  }

  lemma NearIsWithin(a: Point, b: Point)
    requires Near(a, b)
    ensures Within(a, b, TOLERANCE)
  {
    var dx, dy := b.x - a.x, b.y - a.y;
    assert Times(dx, dx) >= 0.0 && Times(dy, dy) >= 0.0;
    SmallSquare(dx);
    SmallSquare(dy);
  }

  method SimplifyPolyline(points: seq<Point>) returns (kept: seq<Point>)
    requires points != []
    ensures kept == Simplified(points)
  {
    kept := [points[0]];
    assert points[..1] == kept;
    for k := 1 to |points|
      invariant kept == Thinned(points[..k])
    {
      assert points[..k + 1][..k] == points[..k];
      if !Near(kept[|kept| - 1], points[k]) {
        kept := kept + [points[k]];
      }
    }
    assert points[..|points|] == points;
    var index := 1;
    while index + 1 < |kept|
      invariant 1 <= index && kept != [] && Straightened(kept, index) == Simplified(points)
      decreases |kept| - index
    {
      if Straight(kept[index - 1], kept[index], kept[index + 1]) {
        kept := kept[..index] + kept[index + 1..];
      } else {
        index := index + 1;
      }
    }
  }

  datatype Detour = Detour(cost: real, first: Point, second: Point) {
    /** Cheapest first; equal costs compare the corner coordinates. */
    predicate Before(other: Detour) {
      if cost != other.cost then cost < other.cost
      else if first.x != other.first.x then first.x < other.first.x
      else if first.y != other.first.y then first.y < other.first.y
      else if second.x != other.second.x then second.x < other.second.x
      else second.y < other.second.y
    }
  }

  type Length = (Point, Point) -> real

  /** One of the eight ways around: each side of the blocker, walked in either direction. */
  function Turn(a: Point, b: Point, blocker: Rect, length: Length, turn: nat): Detour
    requires turn < 8
  {
    var p, q := blocker.Corners()[turn / 2], blocker.Corners()[(turn / 2 + 1) % 4];
    var first, second := if turn % 2 == 0 then p else q, if turn % 2 == 0 then q else p;
    Detour(length(a, first) + length(first, second) + length(second, b), first, second)
  }

  predicate IsCorner(rect: Rect, p: Point) {
    (p.x == rect.min.x || p.x == rect.max.x) && (p.y == rect.min.y || p.y == rect.max.y)
  }

  /** The ways around lead by two neighbouring corners, and cost as much as their three legs are long. */
  lemma TurnGoesByCorners(a: Point, b: Point, blocker: Rect, length: Length, turn: nat)
    requires turn < 8
    ensures var d := Turn(a, b, blocker, length, turn);
            && IsCorner(blocker, d.first) && IsCorner(blocker, d.second) && (d.first.x == d.second.x || d.first.y == d.second.y)
            && d.cost == length(a, d.first) + length(d.first, d.second) + length(d.second, b)
  {
  }

  /** Every side of the blocker is among them, in both directions. */
  lemma EverySideIsTurn(a: Point, b: Point, blocker: Rect, length: Length, first: Point, second: Point)
    requires blocker.min.x < blocker.max.x && blocker.min.y < blocker.max.y
    requires IsCorner(blocker, first) && IsCorner(blocker, second) && first != second && (first.x == second.x || first.y == second.y)
    ensures exists turn: nat {:trigger Turn(a, b, blocker, length, turn)} ::
              turn < 8 && Turn(a, b, blocker, length, turn).first == first && Turn(a, b, blocker, length, turn).second == second
  {
    var c := blocker.Corners();
    var turn := if first == c[0] then (if second == c[1] then 0 else 7) else if first == c[1] then (if second == c[2] then 2 else 1)
                else if first == c[2] then (if second == c[3] then 4 else 3) else (if second == c[0] then 6 else 5);
    assert Turn(a, b, blocker, length, turn).first == first && Turn(a, b, blocker, length, turn).second == second;
  }

  /** No leg of the detour passes through the blocker's interior. */
  ghost predicate Passable(a: Point, b: Point, blocker: Rect, d: Detour) {
    var interior := blocker.Expand(-0.5);
    && !Touches(AxesOf(a, d.first, interior))
    && !Touches(AxesOf(d.first, d.second, interior))
    && !Touches(AxesOf(d.second, b, interior))
  }

  /** A passable turn such that no passable turn comes before it; nothing exactly when none is passable. */
  ghost predicate Cheapest(a: Point, b: Point, blocker: Rect, length: Length, turns: nat, best: Option<Detour>)
    requires turns <= 8
  {
    && (best.Some? ==> exists i :: 0 <= i < turns && best.value == Turn(a, b, blocker, length, i))
    && (best.Some? ==> Passable(a, b, blocker, best.value))
    && forall i :: 0 <= i < turns && Passable(a, b, blocker, Turn(a, b, blocker, length, i)) ==>
         best.Some? && !Turn(a, b, blocker, length, i).Before(best.value)
  }

  method IsPassable(a: Point, b: Point, blocker: Rect, d: Detour) returns (ok: bool)
    ensures ok <==> Passable(a, b, blocker, d)
  {
    var interior := blocker.Expand(-0.5);
    var leg := SegmentRectEntry(a, d.first, interior);
    if leg.None? {
      leg := SegmentRectEntry(d.first, d.second, interior);
      if leg.None? {
        leg := SegmentRectEntry(d.second, b, interior);
      }
    }
    ok := leg.None?;
  }

  lemma BeforeIsOrder(d: Detour, e: Detour, f: Detour)
    ensures !d.Before(d)
    ensures d.Before(e) && e.Before(f) ==> d.Before(f)
  {
  }

  /** The cheaper detour comes first, and of two different ones exactly one does. */
  lemma BeforeIsTotal(d: Detour, e: Detour)
    ensures d.cost < e.cost ==> d.Before(e)
    ensures d != e ==> (d.Before(e) <==> !e.Before(d))
  {
  }

  lemma CheapestExtends(a: Point, b: Point, blocker: Rect, length: Length, turn: nat, best: Option<Detour>, next: Option<Detour>)
    requires turn < 8 && Cheapest(a, b, blocker, length, turn, best)
    requires var candidate := Turn(a, b, blocker, length, turn);
             next == if Passable(a, b, blocker, candidate) && (best.None? || candidate.Before(best.value))
                     then Some(candidate) else best
    ensures Cheapest(a, b, blocker, length, turn + 1, next)
  {
    var candidate := Turn(a, b, blocker, length, turn);
    forall i | 0 <= i <= turn && Passable(a, b, blocker, Turn(a, b, blocker, length, i))
      ensures next.Some? && !Turn(a, b, blocker, length, i).Before(next.value)
    {
      var earlier := Turn(a, b, blocker, length, i);
      BeforeIsOrder(candidate, candidate, candidate);
      if i < turn {
        BeforeIsOrder(earlier, candidate, best.value);
      }
    }
  }

  method BestDetour(a: Point, b: Point, blocker: Rect, length: Length) returns (best: Option<Detour>)
    ensures Cheapest(a, b, blocker, length, 8, best)
  {
    best := None;
    for turn := 0 to 8
      invariant Cheapest(a, b, blocker, length, turn, best)
    {
      ghost var before := best;
      var candidate := Turn(a, b, blocker, length, turn);
      var passable := IsPassable(a, b, blocker, candidate);
      if passable && (best.None? || candidate.Before(best.value)) {
        best := Some(candidate);
      }
      CheapestExtends(a, b, blocker, length, turn, before, best);
    }
  }

  function Inserted(points: seq<Point>, segment: nat, d: Detour): seq<Point>
    requires segment < |points|
  {
    points[..segment + 1] + [d.first, d.second] + points[segment + 1..]
  }

  /** The detour replaces one segment by three; all other points stay, in order. */
  lemma InsertedGoesAround(points: seq<Point>, segment: nat, d: Detour, i: nat)
    requires segment < |points| && i < |points| + 2
    ensures |Inserted(points, segment, d)| == |points| + 2
    ensures Inserted(points, segment, d)[i] ==
            if i <= segment then points[i] else if i == segment + 1 then d.first else if i == segment + 2 then d.second else points[i - 2]
  {
  }

  /** Around the first obstruction by the cheapest passable detour, and simplified. */
  ghost predicate Improves(points: seq<Point>, next: seq<Point>, nodes: seq<Node>, ends: (nat, nat), clearance: real, length: Length) {
    exists segment, blocker, d {:trigger Turned(points, nodes, ends, clearance, length, segment, blocker, Some(d))} ::
      Turned(points, nodes, ends, clearance, length, segment, blocker, Some(d)) && next == Simplified(Inserted(points, segment, d))
  }

  /** The first obstruction, and the cheapest way around it, if there is one. */
  ghost predicate Turned(points: seq<Point>, nodes: seq<Node>, ends: (nat, nat), clearance: real, length: Length,
                         segment: nat, blocker: Rect, d: Option<Detour>) {
    && Obstructs(points, nodes, ends, clearance, segment, blocker)
    && Cheapest(points[segment], points[segment + 1], blocker, length, 8, d)
  }

  ghost predicate Stuck(points: seq<Point>, nodes: seq<Node>, ends: (nat, nat), clearance: real, length: Length) {
    exists segment, blocker {:trigger Turned(points, nodes, ends, clearance, length, segment, blocker, None)} ::
      Turned(points, nodes, ends, clearance, length, segment, blocker, None)
  }

  function PassLimit(nodes: seq<Node>): nat {
    if |nodes| == 0 then 1 else 4 * |nodes|
  }

  /** The polylines of all passes, from the straight line on. */
  ghost predicate Passes(history: seq<seq<Point>>, source: Point, target: Point, nodes: seq<Node>, ends: (nat, nat), clearance: real,
                         length: Length) {
    && history != [] && history[0] == [source, target]
    && forall k {:trigger Passed(history, k, nodes, ends, clearance, length)} :: 0 < k < |history| ==> Passed(history, k, nodes, ends, clearance, length)
  }

  ghost predicate Passed(history: seq<seq<Point>>, k: nat, nodes: seq<Node>, ends: (nat, nat), clearance: real, length: Length)
    requires 0 < k < |history|
  {
    Improves(history[k - 1], history[k], nodes, ends, clearance, length)
  }

  lemma OnePassMore(history: seq<seq<Point>>, source: Point, target: Point, nodes: seq<Node>, ends: (nat, nat), clearance: real,
                    length: Length, next: seq<Point>)
    requires Passes(history, source, target, nodes, ends, clearance, length)
    requires Improves(history[|history| - 1], next, nodes, ends, clearance, length)
    ensures Passes(history + [next], source, target, nodes, ends, clearance, length)
  {
    forall k | 0 < k < |history + [next]|
      ensures Passed(history + [next], k, nodes, ends, clearance, length)
    {
      if k < |history| {
        assert Passed(history, k, nodes, ends, clearance, length);
      }
    }
  }

  /** Every pass starts where the straight line starts. */
  lemma {:induction false} RoutesStartAtSource(history: seq<seq<Point>>, source: Point, target: Point, nodes: seq<Node>, ends: (nat, nat),
                                               clearance: real, length: Length, k: nat)
    requires Passes(history, source, target, nodes, ends, clearance, length) && k < |history|
    ensures history[k] != [] && history[k][0] == source
  {
    if k > 0 {
      RoutesStartAtSource(history, source, target, nodes, ends, clearance, length, k - 1);
      assert Passed(history, k, nodes, ends, clearance, length);
    }
  }

  /** Each pass moves the end of the polyline by at most the tolerance. */
  lemma {:induction false} RoutesDrift(history: seq<seq<Point>>, source: Point, target: Point, nodes: seq<Node>, ends: (nat, nat),
                                       clearance: real, length: Length, k: nat)
    requires Passes(history, source, target, nodes, ends, clearance, length) && k < |history|
    ensures history[k] != [] && Within(history[k][|history[k]| - 1], target, TOLERANCE * k as real)
  {
    if k > 0 {
      RoutesDrift(history, source, target, nodes, ends, clearance, length, k - 1);
      assert Passed(history, k, nodes, ends, clearance, length);
      PassDrifts(history[k - 1], history[k], nodes, ends, clearance, length);
    }
  }

  lemma PassDrifts(points: seq<Point>, next: seq<Point>, nodes: seq<Node>, ends: (nat, nat), clearance: real, length: Length)
    requires Improves(points, next, nodes, ends, clearance, length)
    ensures points != [] && next != [] && Within(next[|next| - 1], points[|points| - 1], TOLERANCE)
  {
    var segment, blocker, d :| Turned(points, nodes, ends, clearance, length, segment, blocker, Some(d))
                               && next == Simplified(Inserted(points, segment, d));
    var longer := Inserted(points, segment, d);
    assert longer[|longer| - 1] == points[|points| - 1];
    SimplifiedEnds(longer);
    if next[|next| - 1] != points[|points| - 1] {
      NearIsWithin(next[|next| - 1], points[|points| - 1]);
    }
  }

  /** A straight line that nothing obstructs is the route. */
  lemma ClearLineIsKept(history: seq<seq<Point>>, source: Point, target: Point, nodes: seq<Node>, ends: (nat, nat), clearance: real,
                        length: Length)
    requires Passes(history, source, target, nodes, ends, clearance, length)
    ensures Clear([source, target], nodes, ends, clearance) <==> |history| == 1 && Clear(history[|history| - 1], nodes, ends, clearance)
  {
    if |history| > 1 {
      assert Passed(history, 1, nodes, ends, clearance, length);
    }
  }

  /** The last polyline of these passes: clear if `settled`, else without a detour or at the limit. */
  ghost predicate EndsIn(history: seq<seq<Point>>, nodes: seq<Node>, ends: (nat, nat), clearance: real, length: Length,
                         points: seq<Point>, settled: bool)
    requires history != []
  {
    && points == history[|history| - 1] && |history| <= (if nodes == [] then 1 else 4 * |nodes|) + 1
    && (settled ==> Clear(points, nodes, ends, clearance))
    && (!settled ==> Stuck(points, nodes, ends, clearance, length) || |history| == (if nodes == [] then 1 else 4 * |nodes|) + 1)
  }

  ghost predicate IsRoute(source: Point, target: Point, nodes: seq<Node>, ends: (nat, nat), clearance: real, length: Length,
                          points: seq<Point>, settled: bool) {
    exists history {:trigger Passes(history, source, target, nodes, ends, clearance, length)} ::
      Passes(history, source, target, nodes, ends, clearance, length) && EndsIn(history, nodes, ends, clearance, length, points, settled)
  }

  /**
   Insert detours until nothing obstructs, no detour exists, or the pass limit is reached.
   `settled` says that the loop ended because no obstruction was left.
   */
  method RouteVisibility(source: Point, target: Point, ends: (nat, nat), nodes: seq<Node>, clearance: real,
                         length: Length)
    returns (points: seq<Point>, settled: bool)
    ensures IsRoute(source, target, nodes, ends, clearance, length, points, settled)
    ensures points != [] && points[0] == source && Within(points[|points| - 1], target, TOLERANCE * PassLimit(nodes) as real)
  {
    points, settled := [source, target], false;
    ghost var history := [points];
    for pass := 0 to PassLimit(nodes)
      invariant Passes(history, source, target, nodes, ends, clearance, length) && points == history[|history| - 1]
      invariant |history| == pass + 1 && points != []
    {
      var segment, blocker := FirstObstruction(points, nodes, ends, clearance);
      if blocker.None? {
        assert EndsIn(history, nodes, ends, clearance, length, points, true);
        RouteStarts(source, target, nodes, ends, clearance, length, points, true);
        return points, true;
      }
      var detour := BestDetour(points[segment], points[segment + 1], blocker.value, length);
      assert Turned(points, nodes, ends, clearance, length, segment, blocker.value, detour);
      if detour.None? {
        assert EndsIn(history, nodes, ends, clearance, length, points, false);
        RouteStarts(source, target, nodes, ends, clearance, length, points, false);
        return points, false;
      }
      var next := SimplifyPolyline(Inserted(points, segment, detour.value));
      OnePassMore(history, source, target, nodes, ends, clearance, length, next);
      points, history := next, history + [next];
    }
    assert EndsIn(history, nodes, ends, clearance, length, points, false);
    RouteStarts(source, target, nodes, ends, clearance, length, points, false);
  }

  /**
   A route starts at the source and ends within the tolerance of every pass from the target;
   where nothing obstructs the straight line it is the straight line.
   */
  lemma RouteStarts(source: Point, target: Point, nodes: seq<Node>, ends: (nat, nat), clearance: real, length: Length,
                    points: seq<Point>, settled: bool)
    requires IsRoute(source, target, nodes, ends, clearance, length, points, settled)
    ensures points != [] && points[0] == source
    ensures Clear([source, target], nodes, ends, clearance) ==> settled && points == [source, target]
    ensures settled ==> Clear(points, nodes, ends, clearance)
    ensures Within(points[|points| - 1], target, TOLERANCE * PassLimit(nodes) as real)
  {
    var history :| Passes(history, source, target, nodes, ends, clearance, length) && EndsIn(history, nodes, ends, clearance, length, points, settled);
    RoutesStartAtSource(history, source, target, nodes, ends, clearance, length, |history| - 1);
    RoutesDrift(history, source, target, nodes, ends, clearance, length, |history| - 1);
    ClearLineIsKept(history, source, target, nodes, ends, clearance, length);
  }

  /** No inner point of a resolved segment of a settled route comes within the clearance of an unrelated node. */
  lemma SettledRouteKeepsClear(points: seq<Point>, nodes: seq<Node>, ends: (nat, nat), clearance: real, i: nat, node: Node, t: real, q: Point)
    requires Clear(points, nodes, ends, clearance) && 0 < i < |points| && Resolved(points[i - 1], points[i]) && clearance >= 0.0
    requires node in nodes && node.id != ends.0 && node.id != ends.1 && node.rect.Proper()
    requires SLACK < t < 1.0 - SLACK && node.rect.Contains(q)
    ensures !Within(At(points[i - 1], points[i], t), q, clearance)
  {
    var p := At(points[i - 1], points[i], t);
    SettledRouteMisses(points, nodes, ends, clearance, i, node);
    ExpandGrows(node.rect, clearance, p);
  }

  /** A settled route over resolved segments really misses every unrelated grown rectangle, ends aside. */
  lemma SettledRouteMisses(points: seq<Point>, nodes: seq<Node>, ends: (nat, nat), clearance: real, i: nat, node: Node)
    requires Clear(points, nodes, ends, clearance) && 0 < i < |points| && Resolved(points[i - 1], points[i])
    requires node in nodes && node.id != ends.0 && node.id != ends.1 && node.rect.Expand(clearance).Proper()
    ensures !Meets(points[i - 1], points[i], node.rect.Expand(clearance))
  {
    assert !Blocked(points[i - 1], points[i], nodes, ends, clearance);
    assert !Blocks(node, points[i - 1], points[i], ends, clearance);
    ResolvedIsExact(points[i - 1], points[i], node.rect.Expand(clearance));
  }
}
