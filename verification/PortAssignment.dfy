/**
 Free ports on the boundaries of nodes (native/gui/src/flow_router.rs).

 Every edge asks for a place on the side at which the straight line to its other end leaves the node;
 the requests for one side are put in order and spread by projection.
 */
module PortAssignment {
  import P = PortProjection
  import opened SegmentRouting
  import opened Text
  import opened Wrappers

  datatype Side = Top | Right | Bottom | Left {
    function Normal(): Point {
      match this
      case Top => Point(0.0, -1.0)
      case Right => Point(1.0, 0.0)
      case Bottom => Point(0.0, 1.0)
      case Left => Point(-1.0, 0.0)
    }

    /** The range of the side, without its corners. */
    function Interval(rect: Rect, clearance: real): (range: (real, real))
      ensures rect.Proper() ==> Low(rect) <= range.0 <= range.1 <= High(rect) || clearance < 0.0
      ensures rect.Proper() && clearance > 0.0 ==> (range.0 < range.1 <==> High(rect) - Low(rect) > 2.0 * clearance)
    {
      var inset := Min(clearance, Max(High(rect) - Low(rect), 0.0) * 0.5);
      (Low(rect) + inset, High(rect) - inset)
    }

    function Low(rect: Rect): real {
      if Top? || Bottom? then rect.min.x else rect.min.y
    }

    function High(rect: Rect): real {
      if Top? || Bottom? then rect.max.x else rect.max.y
    }

    function At(rect: Rect, cross: real): Point {
      match this
      case Top => Point(cross, rect.min.y)
      case Right => Point(rect.max.x, cross)
      case Bottom => Point(cross, rect.max.y)
      case Left => Point(rect.min.x, cross)
    }
  }

  datatype Edge = Edge(key: string, source: nat, target: nat)
  datatype Port = Port(point: Point, normal: Point)
  datatype Request = Request(edge: string, source: bool, ideal: real)
  datatype Slot = Slot(node: nat, side: Side)
  datatype Filing = Filing(slot: Slot, request: Request)
  type Rects = map<nat, Rect>

  function Center(rect: Rect): Point {
    Point((rect.min.x + rect.max.x) / 2.0, (rect.min.y + rect.max.y) / 2.0)
  }

  /** How far to go along this direction to cover half the extent; None if the direction hardly moves. */
  function Scale(half: real, delta: real): Option<real> {
    if Abs(delta) <= EPSILON then None else Some(half / Abs(delta))
  }

  predicate Sooner(a: Option<real>, b: Option<real>) {
    a.Some? && (b.None? || a.value < b.value)
  }

  /** The side to leave by, and where. */
  function BoundaryIntent(rect: Rect, toward: Point): (Side, real) {
    var c := Center(rect);
    var d := Point(toward.x - c.x, toward.y - c.y);
    if Times(d.x, d.x) + Times(d.y, d.y) <= EPSILON then (Top, c.x)
    else
      var x, y := Scale((rect.max.x - rect.min.x) * 0.5, d.x), Scale((rect.max.y - rect.min.y) * 0.5, d.y);
      if Sooner(x, y) then (if d.x > 0.0 then Right else Left, c.y + Times(d.y, x.value))
      else (if d.y > 0.0 then Bottom else Top, c.x + Times(d.x, if y.Some? then y.value else 0.0))
  }

  lemma Grows(a: real, b: real, c: real)
    requires a <= b && c >= 0.0
    ensures Times(a, c) <= Times(b, c)
  {
  }

  lemma SmallSquare(d: real)
    requires Abs(d) <= EPSILON
    ensures Times(d, d) <= EPSILON * EPSILON
  {
    var a := Abs(d);
    Grows(a, EPSILON, a);
    Grows(a, EPSILON, EPSILON);
    assert Times(d, d) == Times(a, a) && Times(EPSILON, a) == Times(a, EPSILON);
  }

  /** From the center in this direction, the rectangle is left exactly there. */
  ghost predicate LeavesAt(rect: Rect, toward: Point, exit: Point) {
    var c := Center(rect);
    exists s: real :: s > 0.0 && exit == At(c, toward, s) && forall t: real :: t >= 0.0 ==> (rect.Contains(At(c, toward, t)) <==> t <= s)
  }

  /** One coordinate of the ray stays inside up to its scale. */
  lemma StaysInside(half: real, delta: real, t: real)
    requires half > 0.0 && delta != 0.0 && t >= 0.0
    ensures -half <= Times(delta, t) <= half <==> t <= half / Abs(delta)
    ensures half / Abs(delta) > 0.0 && Times(Abs(delta), half / Abs(delta)) == half
    ensures delta > 0.0 ==> Times(delta, half / Abs(delta)) == half
    ensures delta < 0.0 ==> Times(delta, half / Abs(delta)) == -half
  {
    var a := Abs(delta);
    var s := half / a;
    assert Times(a, s) == half;
    assert t <= s ==> Times(a, t) <= Times(a, s);
    assert t > s ==> Times(a, t) > Times(a, s);
  }

  /** The intended place is where the straight line to the other end leaves the node. */
  lemma IntentIsExit(rect: Rect, toward: Point)
    requires rect.min.x < rect.max.x && rect.min.y < rect.max.y && Resolved(Center(rect), toward)
    requires var d := Point(toward.x - Center(rect).x, toward.y - Center(rect).y); Times(d.x, d.x) + Times(d.y, d.y) > EPSILON
    ensures var intent := BoundaryIntent(rect, toward); LeavesAt(rect, toward, intent.0.At(rect, intent.1))
  {
    var c, half := Center(rect), Point((rect.max.x - rect.min.x) * 0.5, (rect.max.y - rect.min.y) * 0.5);
    var d := Point(toward.x - c.x, toward.y - c.y);
    var x, y := Scale(half.x, d.x), Scale(half.y, d.y);
    if x.None? {
      SmallSquare(d.x);
    }
    if y.None? {
      SmallSquare(d.y);
    }
    var s := if Sooner(x, y) then x.value else y.value;
    forall t: real | t >= 0.0
      ensures rect.Contains(At(c, toward, t)) <==> t <= s
      ensures s > 0.0
    {
      if x.Some? {
        StaysInside(half.x, d.x, t);
      }
      if y.Some? {
        StaysInside(half.y, d.y, t);
      }
      assert Times(0.0, t) == 0.0;
      assert rect.min.x == c.x - half.x && rect.max.x == c.x + half.x && rect.min.y == c.y - half.y && rect.max.y == c.y + half.y;
    }
    var intent := BoundaryIntent(rect, toward);
    var exit := intent.0.At(rect, intent.1);
    assert s > 0.0 by {
      assert 0.0 >= 0.0;
      StaysInside(if Sooner(x, y) then half.x else half.y, if Sooner(x, y) then d.x else d.y, 0.0);
    }
    assert exit == At(c, toward, s) by {
      StaysInside(if Sooner(x, y) then half.x else half.y, if Sooner(x, y) then d.x else d.y, s);
    }
  }

  /** Away from the center the edge leaves where its straight line meets the side's own line, past no other
      side, with a corner given to the top or bottom; towards the center it leaves by the middle of the top. */
  lemma IntentMeetsSide(rect: Rect, toward: Point, d: Point)
    requires rect.min.x < rect.max.x && rect.min.y < rect.max.y
    requires d == Point(toward.x - Center(rect).x, toward.y - Center(rect).y)
    ensures Times(d.x, d.x) + Times(d.y, d.y) <= EPSILON ==> BoundaryIntent(rect, toward) == (Top, Center(rect).x)
    ensures var (side, cross) := BoundaryIntent(rect, toward);
            Times(d.x, d.x) + Times(d.y, d.y) > EPSILON ==>
              && (exists s: real :: s > 0.0 && side.At(rect, cross) == At(Center(rect), toward, s))
              && (side.Left? || side.Right? ==> Abs(d.x) > EPSILON && (Abs(d.y) > EPSILON ==> rect.min.y < cross < rect.max.y))
              && (side.Top? || side.Bottom? ==> Abs(d.y) > EPSILON && (Abs(d.x) > EPSILON ==> rect.min.x <= cross <= rect.max.x))
  {
    if Times(d.x, d.x) + Times(d.y, d.y) > EPSILON {
      var c, half := Center(rect), Point((rect.max.x - rect.min.x) * 0.5, (rect.max.y - rect.min.y) * 0.5);
      var x, y := Scale(half.x, d.x), Scale(half.y, d.y);
      if x.None? {
        SmallSquare(d.x);
      }
      if y.None? {
        SmallSquare(d.y);
      }
      var across := Sooner(x, y);
      var s := if across then x.value else y.value;
      StaysInside(if across then half.x else half.y, if across then d.x else d.y, 0.0);
      assert rect.min.x == c.x - half.x && rect.max.x == c.x + half.x && rect.min.y == c.y - half.y && rect.max.y == c.y + half.y;
      var intent := BoundaryIntent(rect, toward);
      assert intent.0.At(rect, intent.1) == At(c, toward, s);
      if across && y.Some? {
        StrictlyInside(half.y, d.y, s);
      }
      if !across && x.Some? {
        StaysInside(half.x, d.x, s);
      }
    }
  }

  lemma GrowsStrictly(a: real, b: real, c: real)
    requires a < b && c > 0.0
    ensures Times(c, a) < Times(c, b)
  {
    assert c * (b - a) > 0.0;
    assert c * (b - a) == c * b - c * a;
  }

  lemma StrictlyInside(half: real, delta: real, t: real)
    requires half > 0.0 && delta != 0.0 && 0.0 <= t < half / Abs(delta)
    ensures -half < Times(delta, t) < half
  {
    var a := Abs(delta);
    StaysInside(half, delta, t);
    GrowsStrictly(t, half / a, a);
    assert Times(delta, t) == if delta > 0.0 then Times(a, t) else -Times(a, t);
    assert Times(a, t) >= 0.0;
  }

  // ----- putting requests in order

  /** By ideal place, then by edge, the end before the start. */
  predicate Before(a: Request, b: Request) {
    a.ideal < b.ideal || (a.ideal == b.ideal && (Less(a.edge, b.edge) || (a.edge == b.edge && !a.source && b.source)))
  }

  lemma BeforeIsTotal(a: Request, b: Request)
    ensures Before(a, b) || Before(b, a) || a == b
    ensures !(Before(a, b) && Before(b, a))
  {
    LessIsTotal(a.edge, b.edge);
  }

  lemma BeforeIsTransitive(a: Request, b: Request, c: Request)
    requires !Before(b, a) && !Before(c, b)
    ensures !Before(c, a)
  {
    BeforeIsTotal(a, b);
    BeforeIsTotal(b, c);
    if a != b && b != c && a.ideal == b.ideal == c.ideal && Less(a.edge, b.edge) && Less(b.edge, c.edge) {
      LessIsTransitive(a.edge, b.edge, c.edge);
    }
    BeforeIsTotal(a, c);
  }

  ghost predicate InOrder(s: seq<Request>) {
    forall i, j :: 0 <= i < j < |s| ==> !Before(s[j], s[i])
  }

  function Insert(sorted: seq<Request>, r: Request): (s: seq<Request>)
    ensures |s| == |sorted| + 1
  {
    if sorted == [] then [r]
    else if Before(r, sorted[0]) then [r] + sorted
    else [sorted[0]] + Insert(sorted[1..], r)
  }

  function Sorted(requests: seq<Request>): (s: seq<Request>)
    ensures |s| == |requests|
  {
    if requests == [] then [] else Insert(Sorted(requests[..|requests| - 1]), requests[|requests| - 1])
  }

  lemma {:induction false} InsertBag(sorted: seq<Request>, r: Request)
    ensures multiset(Insert(sorted, r)) == multiset(sorted) + multiset{r}
  {
    if sorted != [] && !Before(r, sorted[0]) {
      assert sorted == [sorted[0]] + sorted[1..];
      InsertBag(sorted[1..], r);
    }
  }

  lemma {:induction false} InsertKeeps(sorted: seq<Request>, r: Request)
    requires InOrder(sorted)
    ensures InOrder(Insert(sorted, r))
  {
    if sorted != [] {
      if Before(r, sorted[0]) {
        BeforeIsTotal(r, sorted[0]);
        forall j | 0 < j < |sorted|
          ensures !Before(sorted[j], r)
        {
          BeforeIsTransitive(r, sorted[0], sorted[j]);
        }
      } else {
        var tail := Insert(sorted[1..], r);
        InsertKeeps(sorted[1..], r);
        InsertBag(sorted[1..], r);
        forall j | 0 <= j < |tail|
          ensures !Before(tail[j], sorted[0])
        {
          assert tail[j] in multiset(tail);
          assert tail[j] == r || tail[j] in sorted[1..];
        }
      }
    }
  }

  lemma {:induction false} SortedIsInOrder(requests: seq<Request>)
    ensures InOrder(Sorted(requests))
  {
    if requests != [] {
      var front, last := requests[..|requests| - 1], requests[|requests| - 1];
      SortedIsInOrder(front);
      InsertKeeps(Sorted(front), last);
    }
  }

  lemma {:induction false} SortedBag(requests: seq<Request>)
    ensures multiset(Sorted(requests)) == multiset(requests)
  {
    if requests != [] {
      var front, last := requests[..|requests| - 1], requests[|requests| - 1];
      SortedBag(front);
      InsertBag(Sorted(front), last);
      assert multiset(requests) == multiset(front) + multiset{last} by {
        assert requests == front + [last];
      }
    }
  }

  lemma SortedIs(requests: seq<Request>)
    ensures InOrder(Sorted(requests)) && multiset(Sorted(requests)) == multiset(requests)
  {
    SortedIsInOrder(requests);
    SortedBag(requests);
  }

  lemma SameFirst(a: seq<Request>, b: seq<Request>)
    requires InOrder(a) && InOrder(b) && a != [] && b != [] && a[0] in b && b[0] in a
    ensures a[0] == b[0]
  {
    var j :| 0 <= j < |b| && b[j] == a[0];
    var i :| 0 <= i < |a| && a[i] == b[0];
    BeforeIsTotal(a[0], b[0]);
  }

  lemma WithoutFirst(a: seq<Request>)
    requires a != []
    ensures multiset(a[1..]) == multiset(a) - multiset{a[0]}
  {
    assert a == [a[0]] + a[1..];
  }

  /** There is only one way to put requests in order. */
  lemma {:induction false} OrderIsUnique(a: seq<Request>, b: seq<Request>)
    requires InOrder(a) && InOrder(b) && multiset(a) == multiset(b)
    ensures a == b
  {
    if a == [] {
      assert |multiset(b)| == 0;
    } else {
      assert a[0] in multiset(b);
      assert b[0] in multiset(a);
      SameFirst(a, b);
      WithoutFirst(a);
      WithoutFirst(b);
      OrderIsUnique(a[1..], b[1..]);
      assert a == [a[0]] + a[1..] && b == [b[0]] + b[1..];
    }
  }

  // ----- filing requests

  predicate Routed(rects: Rects, e: Edge) {
    e.source in rects && e.target in rects
  }

  /** What one edge asks for at its two ends; nothing if an end is not shown. */
  function Filings(rects: Rects, e: Edge): (f: seq<Filing>)
    ensures |f| == if Routed(rects, e) then 2 else 0
  {
    if !Routed(rects, e) then []
    else
      var from := BoundaryIntent(rects[e.source], Center(rects[e.target]));
      var to := BoundaryIntent(rects[e.target], Center(rects[e.source]));
      [Filing(Slot(e.source, from.0), Request(e.key, true, from.1)), Filing(Slot(e.target, to.0), Request(e.key, false, to.1))]
  }

  function Filed(rects: Rects, edges: seq<Edge>): seq<Filing> {
    if edges == [] then [] else Filed(rects, edges[..|edges| - 1]) + Filings(rects, edges[|edges| - 1])
  }

  /** The requests filed under one side of one node, as they came. */
  function Pick(filed: seq<Filing>, slot: Slot): seq<Request> {
    if filed == [] then []
    else
      var front, last := Pick(filed[..|filed| - 1], slot), filed[|filed| - 1];
      if last.slot == slot then front + [last.request] else front
  }

  lemma PickNext(filed: seq<Filing>, f: Filing, slot: Slot)
    ensures Pick(filed + [f], slot) == if f.slot == slot then Pick(filed, slot) + [f.request] else Pick(filed, slot)
  {
    assert (filed + [f])[..|filed|] == filed;
  }

  /** Loop over the edges, filing each request under its slot. */
  method GroupRequests(rects: Rects, edges: seq<Edge>) returns (groups: map<Slot, seq<Request>>)
    ensures forall slot :: slot in groups <==> Pick(Filed(rects, edges), slot) != []
    ensures forall slot :: slot in groups ==> groups[slot] == Pick(Filed(rects, edges), slot)
  {
    groups := map[];
    for k := 0 to |edges|
      invariant forall slot :: slot in groups <==> Pick(Filed(rects, edges[..k]), slot) != []
      invariant forall slot :: slot in groups ==> groups[slot] == Pick(Filed(rects, edges[..k]), slot)
    {
      assert edges[..k + 1][..k] == edges[..k];
      var wanted := Filings(rects, edges[k]);
      ghost var before := Filed(rects, edges[..k]);
      if wanted != [] {
        groups := File(groups, wanted[0], before);
        groups := File(groups, wanted[1], before + [wanted[0]]);
        assert before + [wanted[0]] + [wanted[1]] == before + wanted;
      } else {
        assert before + wanted == before;
      }
    }
    assert edges[..|edges|] == edges;
  }

  method File(groups: map<Slot, seq<Request>>, f: Filing, ghost filed: seq<Filing>) returns (more: map<Slot, seq<Request>>)
    requires forall slot :: slot in groups <==> Pick(filed, slot) != []
    requires forall slot :: slot in groups ==> groups[slot] == Pick(filed, slot)
    ensures forall slot :: slot in more <==> Pick(filed + [f], slot) != []
    ensures forall slot :: slot in more ==> more[slot] == Pick(filed + [f], slot)
  {
    forall slot
      ensures Pick(filed + [f], slot) == if f.slot == slot then Pick(filed, slot) + [f.request] else Pick(filed, slot)
    {
      PickNext(filed, f, slot);
    }
    more := groups[f.slot := (if f.slot in groups then groups[f.slot] else []) + [f.request]];
  }

  // ----- which request is which

  ghost predicate UniqueKeys(edges: seq<Edge>) {
    forall i, j :: 0 <= i < j < |edges| ==> edges[i].key != edges[j].key
  }

  predicate SameEnd(a: Request, b: Request) {
    a.edge == b.edge && a.source == b.source
  }

  ghost predicate EndsDiffer(requests: seq<Request>) {
    forall i, j :: 0 <= i < j < |requests| ==> !SameEnd(requests[i], requests[j])
  }

  /** Whatever was filed was asked for by an edge. */
  lemma {:induction false} FiledFrom(rects: Rects, edges: seq<Edge>, f: Filing) returns (e: Edge)
    requires f in Filed(rects, edges)
    ensures e in edges && Routed(rects, e) && f in Filings(rects, e) && f.request.edge == e.key && f.slot.node in rects
  {
    var front, last := edges[..|edges| - 1], edges[|edges| - 1];
    if f in Filings(rects, last) {
      e := last;
    } else {
      e := FiledFrom(rects, front, f);
    }
  }

  lemma {:induction false} FiledFor(rects: Rects, edges: seq<Edge>, e: Edge)
    requires e in edges && Routed(rects, e)
    ensures forall f :: f in Filings(rects, e) ==> f in Filed(rects, edges)
  {
    var front, last := edges[..|edges| - 1], edges[|edges| - 1];
    if e != last {
      assert edges == front + [last];
      FiledFor(rects, front, e);
    }
  }

  /** With different keys, what is filed for one end of one edge is filed once. */
  ghost predicate FiledOnce(filed: seq<Filing>) {
    forall i, j :: 0 <= i < j < |filed| ==> !SameEnd(filed[i].request, filed[j].request)
  }

  lemma {:induction false} FiledIsOnce(rects: Rects, edges: seq<Edge>)
    requires UniqueKeys(edges)
    ensures FiledOnce(Filed(rects, edges))
  {
    if edges != [] {
      var front, last := edges[..|edges| - 1], edges[|edges| - 1];
      FiledIsOnce(rects, front);
      var filed, more := Filed(rects, front), Filings(rects, last);
      var all := filed + more;
      forall i, j | 0 <= i < j < |all|
        ensures !SameEnd(all[i].request, all[j].request)
      {
        if i < |filed| <= j {
          var e := FiledFrom(rects, front, filed[i]);
        }
      }
    }
  }

  lemma {:induction false} PickedFrom(filed: seq<Filing>, slot: Slot, r: Request)
    ensures r in Pick(filed, slot) <==> Filing(slot, r) in filed
  {
    if filed != [] {
      var front, last := filed[..|filed| - 1], filed[|filed| - 1];
      PickedFrom(front, slot, r);
      assert filed == front + [last];
    }
  }

  lemma {:induction false} PickDiffers(filed: seq<Filing>, slot: Slot)
    requires FiledOnce(filed)
    ensures EndsDiffer(Pick(filed, slot))
  {
    if filed != [] {
      var front, last := filed[..|filed| - 1], filed[|filed| - 1];
      PickDiffers(front, slot);
      forall i | 0 <= i < |Pick(front, slot)|
        ensures !SameEnd(Pick(front, slot)[i], last.request)
      {
        PickedFrom(front, slot, Pick(front, slot)[i]);
        var k :| 0 <= k < |front| && front[k] == Filing(slot, Pick(front, slot)[i]);
        assert filed[k] == front[k];
      }
    }
  }

  lemma InsertDiffers(sorted: seq<Request>, r: Request)
    requires EndsDiffer(sorted) && forall i :: 0 <= i < |sorted| ==> !SameEnd(sorted[i], r)
    ensures EndsDiffer(Insert(sorted, r))
    ensures forall x :: x in Insert(sorted, r) <==> x in sorted || x == r
  {
    if sorted != [] {
      assert sorted == [sorted[0]] + sorted[1..];
      if !Before(r, sorted[0]) {
        InsertDiffers(sorted[1..], r);
        var tail := Insert(sorted[1..], r);
        forall j | 0 <= j < |tail|
          ensures !SameEnd(sorted[0], tail[j])
        {
          assert tail[j] in tail;
        }
      }
    }
  }

  lemma {:induction false} SortedDiffers(requests: seq<Request>)
    requires EndsDiffer(requests)
    ensures EndsDiffer(Sorted(requests))
    ensures forall x :: x in Sorted(requests) <==> x in requests
  {
    if requests != [] {
      var front, last := requests[..|requests| - 1], requests[|requests| - 1];
      SortedDiffers(front);
      forall i | 0 <= i < |Sorted(front)|
        ensures !SameEnd(Sorted(front)[i], last)
      {
        assert Sorted(front)[i] in Sorted(front);
        var k :| 0 <= k < |front| && front[k] == Sorted(front)[i];
        assert !SameEnd(requests[k], requests[|front|]);
      }
      InsertDiffers(Sorted(front), last);
      assert requests == front + [last];
    }
  }

  /** The requests for one side, in order. */
  function Queue(filed: seq<Filing>, slot: Slot): seq<Request> {
    Sorted(Pick(filed, slot))
  }

  /** Each end of each edge stands in one queue only, and there once. */
  lemma QueuesDiffer(filed: seq<Filing>, slot: Slot, other: Slot, i: nat, j: nat)
    requires FiledOnce(filed) && i < |Queue(filed, slot)| && j < |Queue(filed, other)|
    requires SameEnd(Queue(filed, slot)[i], Queue(filed, other)[j])
    ensures slot == other && i == j
  {
    QueueHolds(filed, slot, Queue(filed, slot)[i]);
    QueueHolds(filed, other, Queue(filed, other)[j]);
    var k :| 0 <= k < |filed| && filed[k] == Filing(slot, Queue(filed, slot)[i]);
    var l :| 0 <= l < |filed| && filed[l] == Filing(other, Queue(filed, other)[j]);
    assert k == l;
    PickDiffers(filed, slot);
    SortedDiffers(Pick(filed, slot));
  }

  lemma QueueHolds(filed: seq<Filing>, slot: Slot, r: Request)
    requires FiledOnce(filed)
    ensures r in Queue(filed, slot) <==> Filing(slot, r) in filed
  {
    PickDiffers(filed, slot);
    SortedDiffers(Pick(filed, slot));
    PickedFrom(filed, slot, r);
  }

  // ----- giving out ports

  datatype Pair = Pair(source: Option<Port>, target: Option<Port>)
  type Ends = map<string, Pair>

  function Assigned(ends: Ends, edge: string, source: bool): Option<Port> {
    if edge !in ends then None else if source then ends[edge].source else ends[edge].target
  }

  function With(ends: Ends, r: Request, port: Port): (more: Ends)
    ensures forall edge, source :: Assigned(more, edge, source) == if edge == r.edge && source == r.source then Some(port) else Assigned(ends, edge, source)
  {
    var pair := if r.edge in ends then ends[r.edge] else Pair(None, None);
    ends[r.edge := if r.source then pair.(source := Some(port)) else pair.(target := Some(port))]
  }

  function PortAt(slot: Slot, rect: Rect, cross: real): Port {
    Port(slot.side.At(rect, cross), slot.side.Normal())
  }

  function Ideals(requests: seq<Request>): (ideals: seq<real>)
    ensures |ideals| == |requests| && forall k :: 0 <= k < |ideals| ==> ideals[k] == requests[k].ideal
  {
    seq(|requests|, i requires 0 <= i < |requests| => requests[i].ideal)
  }

  function RangeOf(rect: Rect, side: Side, clearance: real): (real, real) {
    side.Interval(rect, Max(clearance, 8.0))
  }

  /** In order on the side, apart, and as near to what was asked for as can be. */
  ghost predicate IsPlacement(rect: Rect, side: Side, queue: seq<Request>, clearance: real, positions: seq<real>) {
    var range := RangeOf(rect, side, clearance);
    var gap := P.GapFor(|queue|, range.0, range.1, Max(clearance, 12.0));
    && |positions| == |queue| && P.Feasible(positions, range.0, range.1, gap)
    && P.Optimal(Ideals(queue), positions, range.0, range.1, gap)
  }

  /** Every request of this queue has its port. */
  ghost predicate Served(ends: Ends, slot: Slot, rect: Rect, queue: seq<Request>, positions: seq<real>, n: nat)
    requires n <= |queue| == |positions|
  {
    forall i :: 0 <= i < n ==> Assigned(ends, queue[i].edge, queue[i].source) == Some(PortAt(slot, rect, positions[i]))
  }

  predicate Asks(queue: seq<Request>, n: nat, edge: string, source: bool)
    requires n <= |queue|
  {
    exists i :: 0 <= i < n && queue[i].edge == edge && queue[i].source == source
  }

  lemma AsksNext(queue: seq<Request>, k: nat, edge: string, source: bool)
    requires k < |queue|
    ensures Asks(queue, k + 1, edge, source) <==> Asks(queue, k, edge, source) || (queue[k].edge == edge && queue[k].source == source)
  {
  }

  /** What giving out the first `n` ports of a queue has changed. */
  ghost predicate GivenOut(ends: Ends, more: Ends, slot: Slot, rect: Rect, queue: seq<Request>, positions: seq<real>, n: nat)
    requires n <= |queue| == |positions|
  {
    && (EndsDiffer(queue) ==> Served(more, slot, rect, queue, positions, n))
    && (forall edge, source {:trigger Assigned(more, edge, source)} ::
          if Asks(queue, n, edge, source) then Assigned(more, edge, source).Some? else Assigned(more, edge, source) == Assigned(ends, edge, source))
  }

  lemma OnePortMore(ends: Ends, more: Ends, slot: Slot, rect: Rect, queue: seq<Request>, positions: seq<real>, k: nat)
    requires k < |queue| == |positions| && GivenOut(ends, more, slot, rect, queue, positions, k)
    ensures GivenOut(ends, With(more, queue[k], PortAt(slot, rect, positions[k])), slot, rect, queue, positions, k + 1)
  {
    var next := With(more, queue[k], PortAt(slot, rect, positions[k]));
    forall edge, source
      ensures if Asks(queue, k + 1, edge, source) then Assigned(next, edge, source).Some? else Assigned(next, edge, source) == Assigned(ends, edge, source)
    {
      AsksNext(queue, k, edge, source);
    }
    if EndsDiffer(queue) {
      forall i | 0 <= i <= k
        ensures Assigned(next, queue[i].edge, queue[i].source) == Some(PortAt(slot, rect, positions[i]))
      {
        assert i < k ==> !SameEnd(queue[i], queue[k]);
      }
    }
  }

  /** The ports of one side of one node. */
  method PlaceGroup(rect: Rect, slot: Slot, requests: seq<Request>, clearance: real, ends: Ends)
    returns (more: Ends, positions: seq<real>)
    requires rect.Proper()
    ensures IsPlacement(rect, slot.side, Sorted(requests), clearance, positions)
    ensures GivenOut(ends, more, slot, rect, Sorted(requests), positions, |positions|)
  {
    var queue := Sorted(requests);
    var range := slot.side.Interval(rect, Max(clearance, 8.0));
    positions := P.ProjectOrderedPositions(Ideals(queue), range.0, range.1, Max(clearance, 12.0));
    more := ends;
    for k := 0 to |queue|
      invariant GivenOut(ends, more, slot, rect, queue, positions, k)
    {
      OnePortMore(ends, more, slot, rect, queue, positions, k);
      more := With(more, queue[k], PortAt(slot, rect, positions[k]));
    }
  }

  ghost predicate AskedIn(filed: seq<Filing>, slots: set<Slot>, edge: string, source: bool) {
    exists slot :: slot in slots && Asks(Queue(filed, slot), |Queue(filed, slot)|, edge, source)
  }

  ghost predicate ServedAt(ends: Ends, rects: Rects, filed: seq<Filing>, placed: map<Slot, seq<real>>, clearance: real, slot: Slot) {
    && slot in placed && slot.node in rects
    && IsPlacement(rects[slot.node], slot.side, Queue(filed, slot), clearance, placed[slot])
    && Served(ends, slot, rects[slot.node], Queue(filed, slot), placed[slot], |placed[slot]|)
  }

  /** Serving one queue does not disturb another. */
  lemma ServedStays(ends: Ends, more: Ends, rects: Rects, filed: seq<Filing>, placed: map<Slot, seq<real>>, clearance: real, slot: Slot, other: Slot,
                    positions: seq<real>)
    requires FiledOnce(filed) && slot != other && ServedAt(ends, rects, filed, placed, clearance, other)
    requires forall edge, source :: !Asks(Queue(filed, slot), |Queue(filed, slot)|, edge, source) ==> Assigned(more, edge, source) == Assigned(ends, edge, source)
    ensures ServedAt(more, rects, filed, placed[slot := positions], clearance, other)
  {
    var queue := Queue(filed, other);
    forall i | 0 <= i < |queue|
      ensures Assigned(more, queue[i].edge, queue[i].source) == Assigned(ends, queue[i].edge, queue[i].source)
    {
      if Asks(Queue(filed, slot), |Queue(filed, slot)|, queue[i].edge, queue[i].source) {
        var j :| 0 <= j < |Queue(filed, slot)| && SameEnd(Queue(filed, slot)[j], queue[i]);
        QueuesDiffer(filed, slot, other, j, i);
      }
    }
  }

  lemma SlotsAreShown(rects: Rects, edges: seq<Edge>, slot: Slot)
    requires Pick(Filed(rects, edges), slot) != []
    ensures slot.node in rects
  {
    var r := Pick(Filed(rects, edges), slot)[0];
    PickedFrom(Filed(rects, edges), slot, r);
    var e := FiledFrom(rects, edges, Filing(slot, r));
  }

  type Ports = map<string, (Port, Port)>

  predicate IsEnd(ports: Ports, r: Request, port: Port) {
    r.edge in ports && port == if r.source then ports[r.edge].0 else ports[r.edge].1
  }

  ghost predicate PortsAt(ports: Ports, rects: Rects, filed: seq<Filing>, placed: map<Slot, seq<real>>, clearance: real, slot: Slot) {
    && slot in placed && slot.node in rects
    && IsPlacement(rects[slot.node], slot.side, Queue(filed, slot), clearance, placed[slot])
    && forall i :: 0 <= i < |placed[slot]| ==> IsEnd(ports, Queue(filed, slot)[i], PortAt(slot, rects[slot.node], placed[slot][i]))
  }

  predicate Joins(rects: Rects, edges: seq<Edge>, key: string) {
    exists e :: e in edges && Routed(rects, e) && e.key == key
  }

  /** Every edge between two shown nodes has its two ports, each at its place in the queue of its side. */
  ghost predicate IsAssignment(rects: Rects, edges: seq<Edge>, clearance: real, placed: map<Slot, seq<real>>, ports: Ports) {
    && (forall slot {:trigger PortsAt(ports, rects, Filed(rects, edges), placed, clearance, slot)} ::
          Queue(Filed(rects, edges), slot) != [] ==> PortsAt(ports, rects, Filed(rects, edges), placed, clearance, slot))
    && forall key :: key in ports <==> Joins(rects, edges, key)
  }

  ghost predicate Assigns(rects: Rects, edges: seq<Edge>, clearance: real, ports: Ports) {
    exists placed :: IsAssignment(rects, edges, clearance, placed, ports)
  }

  /** Both ends of a routed edge are in a queue. */
  lemma BothEndsAsk(rects: Rects, edges: seq<Edge>, e: Edge) returns (source: Slot, target: Slot)
    requires UniqueKeys(edges) && e in edges && Routed(rects, e)
    ensures var filed := Filed(rects, edges);
            && Asks(Queue(filed, source), |Queue(filed, source)|, e.key, true)
            && Asks(Queue(filed, target), |Queue(filed, target)|, e.key, false)
  {
    var filed, wanted := Filed(rects, edges), Filings(rects, e);
    FiledIsOnce(rects, edges);
    FiledFor(rects, edges, e);
    assert wanted[0] in wanted && wanted[1] in wanted;
    source, target := wanted[0].slot, wanted[1].slot;
    QueueHolds(filed, source, wanted[0].request);
    QueueHolds(filed, target, wanted[1].request);
  }

  lemma AskedJoins(rects: Rects, edges: seq<Edge>, slot: Slot, edge: string, source: bool)
    requires UniqueKeys(edges) && Asks(Queue(Filed(rects, edges), slot), |Queue(Filed(rects, edges), slot)|, edge, source)
    ensures Joins(rects, edges, edge)
  {
    var filed := Filed(rects, edges);
    var i :| 0 <= i < |Queue(filed, slot)| && Queue(filed, slot)[i].edge == edge && Queue(filed, slot)[i].source == source;
    FiledIsOnce(rects, edges);
    QueueHolds(filed, slot, Queue(filed, slot)[i]);
    var e := FiledFrom(rects, edges, Filing(slot, Queue(filed, slot)[i]));
  }

  /** The queues of these slots have been served, and no others. */
  ghost predicate Progress(ends: Ends, rects: Rects, edges: seq<Edge>, placed: map<Slot, seq<real>>, clearance: real) {
    && (UniqueKeys(edges) ==>
          forall slot {:trigger ServedAt(ends, rects, Filed(rects, edges), placed, clearance, slot)} ::
            slot in placed ==> ServedAt(ends, rects, Filed(rects, edges), placed, clearance, slot))
    && forall edge, source {:trigger Assigned(ends, edge, source)} ::
         Assigned(ends, edge, source).Some? ==> AskedIn(Filed(rects, edges), placed.Keys, edge, source)
  }

  lemma ProgressNext(ends: Ends, more: Ends, rects: Rects, edges: seq<Edge>, placed: map<Slot, seq<real>>, clearance: real, slot: Slot,
                     positions: seq<real>)
    requires Progress(ends, rects, edges, placed, clearance) && slot !in placed && slot.node in rects
    requires var queue := Queue(Filed(rects, edges), slot);
             && IsPlacement(rects[slot.node], slot.side, queue, clearance, positions)
             && GivenOut(ends, more, slot, rects[slot.node], queue, positions, |queue|)
    ensures Progress(more, rects, edges, placed[slot := positions], clearance)
  {
    var filed := Filed(rects, edges);
    var after := placed[slot := positions];
    if UniqueKeys(edges) {
      FiledIsOnce(rects, edges);
      PickDiffers(filed, slot);
      SortedDiffers(Pick(filed, slot));
      forall other | other in after
        ensures ServedAt(more, rects, filed, after, clearance, other)
      {
        if other != slot {
          assert ServedAt(ends, rects, filed, placed, clearance, other);
          ServedStays(ends, more, rects, filed, placed, clearance, slot, other, positions);
        }
      }
    }
    forall edge, source | Assigned(more, edge, source).Some?
      ensures AskedIn(filed, after.Keys, edge, source)
    {
      if !Asks(Queue(filed, slot), |Queue(filed, slot)|, edge, source) {
        assert Assigned(ends, edge, source).Some?;
        var known :| known in placed.Keys && Asks(Queue(filed, known), |Queue(filed, known)|, edge, source);
        assert known in after.Keys;
      }
    }
  }

  /** Give every end of every edge a port. */
  method AssignPorts(rects: Rects, edges: seq<Edge>, clearance: real) returns (ports: Ports)
    requires forall n :: n in rects ==> rects[n].Proper()
    ensures UniqueKeys(edges) ==> Assigns(rects, edges, clearance, ports)
  {
    var groups := GroupRequests(rects, edges);
    var ends: Ends := map[];
    ghost var placed: map<Slot, seq<real>> := map[];
    var left := groups.Keys;
    while left != {}
      invariant left <= groups.Keys && placed.Keys == groups.Keys - left
      invariant Progress(ends, rects, edges, placed, clearance)
      decreases |left|
    {
      var slot :| slot in left;
      SlotsAreShown(rects, edges, slot);
      var more, positions := PlaceGroup(rects[slot.node], slot, groups[slot], clearance, ends);
      ProgressNext(ends, more, rects, edges, placed, clearance, slot, positions);
      ends, placed, left := more, placed[slot := positions], left - {slot};
    }
    ports := Complete(ends);
    if UniqueKeys(edges) {
      assert forall slot :: slot in placed <==> Pick(Filed(rects, edges), slot) != [];
      Completed(rects, edges, clearance, placed, ends, ports);
    }
  }

  /** The edges with both ends. */
  function Complete(ends: Ends): (ports: Ports)
    ensures forall key :: key in ports <==> Assigned(ends, key, true).Some? && Assigned(ends, key, false).Some?
    ensures forall key :: key in ports ==> ports[key] == (Assigned(ends, key, true).value, Assigned(ends, key, false).value)
  {
    map key | key in ends && ends[key].source.Some? && ends[key].target.Some? :: (ends[key].source.value, ends[key].target.value)
  }

  /** When all queues are served, every routed edge has both ports, and no other has one. */
  lemma Completed(rects: Rects, edges: seq<Edge>, clearance: real, placed: map<Slot, seq<real>>, ends: Ends, ports: Ports)
    requires UniqueKeys(edges)
    requires forall slot {:trigger ServedAt(ends, rects, Filed(rects, edges), placed, clearance, slot)} ::
               Pick(Filed(rects, edges), slot) != [] ==> ServedAt(ends, rects, Filed(rects, edges), placed, clearance, slot)
    requires forall edge, source :: Assigned(ends, edge, source).Some? ==> AskedIn(Filed(rects, edges), placed.Keys, edge, source)
    requires forall key :: key in ports <==> Assigned(ends, key, true).Some? && Assigned(ends, key, false).Some?
    requires forall key :: key in ports ==> ports[key] == (Assigned(ends, key, true).value, Assigned(ends, key, false).value)
    ensures IsAssignment(rects, edges, clearance, placed, ports)
  {
    var filed := Filed(rects, edges);
    forall e | e in edges && Routed(rects, e)
      ensures e.key in ports
    {
      var a, b := BothEndsAsk(rects, edges, e);
      assert ServedAt(ends, rects, filed, placed, clearance, a);
      assert ServedAt(ends, rects, filed, placed, clearance, b);
    }
    forall key | key in ports
      ensures Joins(rects, edges, key)
    {
      var slot :| slot in placed.Keys && Asks(Queue(filed, slot), |Queue(filed, slot)|, key, true);
      AskedJoins(rects, edges, slot, key, true);
    }
    forall slot | Queue(filed, slot) != []
      ensures PortsAt(ports, rects, filed, placed, clearance, slot)
    {
      assert ServedAt(ends, rects, filed, placed, clearance, slot);
      var queue := Queue(filed, slot);
      forall i | 0 <= i < |queue|
        ensures IsEnd(ports, queue[i], PortAt(slot, rects[slot.node], placed[slot][i]))
      {
        AskedJoins(rects, edges, slot, queue[i].edge, queue[i].source);
      }
    }
  }

  // ----- what an assignment is worth

  /** A port lies on its side of its node. */
  lemma PortsLieOnSide(rects: Rects, edges: seq<Edge>, clearance: real, placed: map<Slot, seq<real>>, ports: Ports, slot: Slot, i: nat)
    requires IsAssignment(rects, edges, clearance, placed, ports) && i < |Queue(Filed(rects, edges), slot)|
    requires forall n :: n in rects ==> rects[n].Proper()
    ensures slot in placed && slot.node in rects && i < |placed[slot]|
    ensures slot.side.Low(rects[slot.node]) <= placed[slot][i] <= slot.side.High(rects[slot.node])
    ensures rects[slot.node].Contains(slot.side.At(rects[slot.node], placed[slot][i]))
  {
    assert PortsAt(ports, rects, Filed(rects, edges), placed, clearance, slot);
  }

  /** Edges that compete for a side get different places, exactly when the side is longer than its two corners. */
  lemma CompetingPortsDiffer(rect: Rect, slot: Slot, queue: seq<Request>, clearance: real, positions: seq<real>)
    requires rect.Proper() && |queue| >= 2 && IsPlacement(rect, slot.side, queue, clearance, positions)
    ensures slot.side.High(rect) - slot.side.Low(rect) > 2.0 * Max(clearance, 8.0) <==>
            forall i, j :: 0 <= i < j < |queue| ==> PortAt(slot, rect, positions[i]).point != PortAt(slot, rect, positions[j]).point
  {
    var range := RangeOf(rect, slot.side, clearance);
    var gap := P.GapFor(|queue|, range.0, range.1, Max(clearance, 12.0));
    P.GapPositive(|queue|, range.0, range.1, Max(clearance, 12.0));
    if range.0 < range.1 {
      forall i, j | 0 <= i < j < |queue|
        ensures PortAt(slot, rect, positions[i]).point != PortAt(slot, rect, positions[j]).point
      {
        P.ApartWhenPositive(positions, range.0, range.1, gap, i, j);
      }
    } else {
      assert positions[0] == positions[1];
    }
  }

  lemma PickAppend(a: seq<Filing>, b: seq<Filing>, slot: Slot)
    ensures Pick(a + b, slot) == Pick(a, slot) + Pick(b, slot)
  {
    if b == [] {
      assert a + b == a;
    } else {
      var front, last := b[..|b| - 1], b[|b| - 1];
      PickAppend(a, front, slot);
      assert a + b == (a + front) + [last];
      PickNext(a + front, last, slot);
    }
  }

  lemma TakeOut(edges: seq<Edge>, e: Edge) returns (k: nat)
    requires e in multiset(edges)
    ensures k < |edges| && edges[k] == e
    ensures multiset(edges[..k] + edges[k + 1..]) == multiset(edges) - multiset{e}
  {
    k :| 0 <= k < |edges| && edges[k] == e;
    assert edges == edges[..k] + [e] + edges[k + 1..];
  }

  lemma LastOut(edges: seq<Edge>)
    requires edges != []
    ensures multiset(edges[..|edges| - 1]) == multiset(edges) - multiset{edges[|edges| - 1]}
  {
    assert edges == edges[..|edges| - 1] + [edges[|edges| - 1]];
  }

  /** What a list of edges asks for at one side, however they are ordered. */
  lemma {:induction false} PickFollowsBag(rects: Rects, edges: seq<Edge>, others: seq<Edge>, slot: Slot)
    requires multiset(edges) == multiset(others)
    ensures multiset(Pick(Filed(rects, edges), slot)) == multiset(Pick(Filed(rects, others), slot))
  {
    if edges == [] {
      assert |multiset(others)| == 0;
    } else {
      var front, last := edges[..|edges| - 1], edges[|edges| - 1];
      LastOut(edges);
      assert last in multiset(edges);
      var k := TakeOut(others, last);
      var rest := others[..k] + others[k + 1..];
      PickFollowsBag(rects, front, rest, slot);
      PickAppend(Filed(rects, front), Filings(rects, last), slot);
      FiledWithout(rects, others, k, slot);
    }
  }

  lemma {:induction false} FiledAppend(rects: Rects, a: seq<Edge>, b: seq<Edge>)
    ensures Filed(rects, a + b) == Filed(rects, a) + Filed(rects, b)
  {
    if b == [] {
      assert a + b == a;
    } else {
      var front, last := b[..|b| - 1], b[|b| - 1];
      FiledAppend(rects, a, front);
      assert (a + b)[..|a + b| - 1] == a + front && (a + b)[|a + b| - 1] == last;
      assert Filed(rects, a + b) == Filed(rects, a + front) + Filings(rects, last);
      assert Filed(rects, b) == Filed(rects, front) + Filings(rects, last);
    }
  }

  /** Taking out one edge takes out its requests. */
  lemma FiledWithout(rects: Rects, edges: seq<Edge>, k: nat, slot: Slot)
    requires k < |edges|
    ensures multiset(Pick(Filed(rects, edges), slot))
         == multiset(Pick(Filed(rects, edges[..k] + edges[k + 1..]), slot)) + multiset(Pick(Filings(rects, edges[k]), slot))
  {
    var before, e, after := edges[..k], edges[k], edges[k + 1..];
    assert edges == (before + [e]) + after;
    FiledAppend(rects, before + [e], after);
    FiledAppend(rects, before, after);
    assert (before + [e])[..k] == before;
    PickAppend(Filed(rects, before) + Filings(rects, e), Filed(rects, after), slot);
    PickAppend(Filed(rects, before), Filings(rects, e), slot);
    PickAppend(Filed(rects, before), Filed(rects, after), slot);
  }

  lemma QueueFollowsBag(rects: Rects, edges: seq<Edge>, others: seq<Edge>, slot: Slot)
    requires multiset(edges) == multiset(others)
    ensures Queue(Filed(rects, edges), slot) == Queue(Filed(rects, others), slot)
  {
    PickFollowsBag(rects, edges, others, slot);
    SortedIs(Pick(Filed(rects, edges), slot));
    SortedIs(Pick(Filed(rects, others), slot));
    OrderIsUnique(Queue(Filed(rects, edges), slot), Queue(Filed(rects, others), slot));
  }

  /** Where one end of an edge goes does not depend on the order of the edges. */
  lemma EndIsUnique(rects: Rects, edges: seq<Edge>, others: seq<Edge>, clearance: real, placed: map<Slot, seq<real>>, placed': map<Slot, seq<real>>,
                    ports: Ports, ports': Ports, slot: Slot, key: string, source: bool)
    requires multiset(edges) == multiset(others)
    requires IsAssignment(rects, edges, clearance, placed, ports) && IsAssignment(rects, others, clearance, placed', ports')
    requires Asks(Queue(Filed(rects, edges), slot), |Queue(Filed(rects, edges), slot)|, key, source)
    ensures key in ports && key in ports' && if source then ports[key].0 == ports'[key].0 else ports[key].1 == ports'[key].1
  {
    var queue := Queue(Filed(rects, edges), slot);
    QueueFollowsBag(rects, edges, others, slot);
    assert PortsAt(ports, rects, Filed(rects, edges), placed, clearance, slot);
    assert PortsAt(ports', rects, Filed(rects, others), placed', clearance, slot);
    var range := RangeOf(rects[slot.node], slot.side, clearance);
    var gap := P.GapFor(|queue|, range.0, range.1, Max(clearance, 12.0));
    P.OptimumIsUnique(Ideals(queue), placed[slot], placed'[slot], range.0, range.1, gap);
    var i :| 0 <= i < |queue| && queue[i].edge == key && queue[i].source == source;
    assert IsEnd(ports, queue[i], PortAt(slot, rects[slot.node], placed[slot][i]));
    assert IsEnd(ports', queue[i], PortAt(slot, rects[slot.node], placed'[slot][i]));
  }

  /** The assignment depends on which edges there are, not on their order. */
  lemma AssignmentIsUnique(rects: Rects, edges: seq<Edge>, others: seq<Edge>, clearance: real, ports: Ports, ports': Ports)
    requires UniqueKeys(edges) && multiset(edges) == multiset(others)
    requires Assigns(rects, edges, clearance, ports) && Assigns(rects, others, clearance, ports')
    ensures ports == ports'
  {
    var placed :| IsAssignment(rects, edges, clearance, placed, ports);
    var placed' :| IsAssignment(rects, others, clearance, placed', ports');
    forall key
      ensures key in ports <==> key in ports'
    {
      assert forall e :: e in edges <==> e in multiset(edges);
      assert forall e :: e in others <==> e in multiset(others);
      assert Joins(rects, edges, key) <==> Joins(rects, others, key);
    }
    forall key | key in ports
      ensures ports[key] == ports'[key]
    {
      var e :| e in edges && Routed(rects, e) && e.key == key;
      var a, b := BothEndsAsk(rects, edges, e);
      EndIsUnique(rects, edges, others, clearance, placed, placed', ports, ports', a, key, true);
      EndIsUnique(rects, edges, others, clearance, placed, placed', ports, ports', b, key, false);
    }
  }
}
