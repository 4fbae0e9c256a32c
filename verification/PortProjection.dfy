/**
 Placement of edge ports along one side of a node (native/gui/src/flow_router.rs).

 Ordered ideal coordinates are projected onto an interval under a minimum gap.
 Subtracting `i * gap` turns the gap constraint into monotonicity, so the pooled
 adjacent violators loop plus a final clamp has to produce the least-squares optimum.
 `f32` is read as `real`.
 */
module PortProjection {

  function Clamp(v: real, lo: real, hi: real): real {
    if v < lo then lo else if v > hi then hi else v
  }

  /** The gap that is really kept: never negative and never more than the interval can hold. */
  function EffectiveGap(n: nat, lo: real, hi: real, requested: real): real
    requires n >= 2
  {
    var wanted := if requested < 0.0 then 0.0 else requested;
    var room := (hi - lo) / (n - 1) as real;
    var most := if room < 0.0 then 0.0 else room;
    if wanted < most then wanted else most
  }

  ghost function GapFor(n: nat, lo: real, hi: real, requested: real): real {
    if n < 2 then 0.0 else EffectiveGap(n, lo, hi, requested)
  }

  ghost predicate Feasible(y: seq<real>, lo: real, hi: real, gap: real) {
    && (forall i :: 0 <= i < |y| ==> lo <= y[i] <= hi)
    && (forall i :: 0 < i < |y| ==> y[i] - y[i - 1] >= gap)
  }

  ghost function Product(a: real, b: real): real {
    a * b
  }

  ghost function Squared(d: real): real {
    Product(d, d)
  }

  /** Squared distance between the first `n` coordinates. */
  ghost function Distance(x: seq<real>, y: seq<real>, n: nat): real
    requires n <= |x| && n <= |y|
  {
    if n == 0 then 0.0 else Distance(x, y, n - 1) + Squared(x[n - 1] - y[n - 1])
  }

  /** Least squares among all feasible placements; the extra distance makes the optimum unique. */
  ghost predicate Optimal(ideals: seq<real>, x: seq<real>, lo: real, hi: real, gap: real)
    requires |x| == |ideals|
  {
    forall y: seq<real> :: |y| == |ideals| && Feasible(y, lo, hi, gap) ==>
      Distance(y, ideals, |ideals|) >= Distance(x, ideals, |ideals|) + Distance(y, x, |ideals|)
  }

  // ----- moving the gap out of the problem

  ghost function Times(c: real, k: nat): real {
    c * k as real
  }

  lemma TimesStep(gap: real, i: nat)
    ensures Times(gap, 0) == 0.0 && Times(gap, i + 1) == Times(gap, i) + gap
  {
  }

  lemma {:induction false} TimesGrows(gap: real, i: nat, j: nat)
    requires gap >= 0.0 && i <= j
    ensures Times(gap, i) <= Times(gap, j)
  {
    if i < j {
      TimesGrows(gap, i, j - 1);
      TimesStep(gap, j - 1);
    }
  }

  ghost function Shift(y: seq<real>, gap: real): (z: seq<real>)
    ensures |z| == |y| && forall i :: 0 <= i < |y| ==> z[i] == y[i] - Times(gap, i)
  {
    seq(|y|, i requires 0 <= i < |y| => y[i] - Times(gap, i))
  }

  lemma {:induction false} ShiftKeepsDistance(x: seq<real>, y: seq<real>, gap: real, n: nat)
    requires n <= |x| && n <= |y|
    ensures Distance(Shift(x, gap), Shift(y, gap), n) == Distance(x, y, n)
  {
    if n > 0 {
      ShiftKeepsDistance(x, y, gap, n - 1);
      assert Shift(x, gap)[n - 1] - Shift(y, gap)[n - 1] == x[n - 1] - y[n - 1];
    }
  }

  ghost predicate Monotone(z: seq<real>) {
    forall i :: 0 < i < |z| ==> z[i - 1] <= z[i]
  }

  ghost predicate Within(z: seq<real>, lo: real, hi: real) {
    forall i :: 0 <= i < |z| ==> lo <= z[i] <= hi
  }

  lemma {:induction false} MonotoneOrders(z: seq<real>, i: nat, j: nat)
    requires Monotone(z) && i <= j < |z|
    ensures z[i] <= z[j]
  {
    if i < j {
      MonotoneOrders(z, i, j - 1);
    }
  }

  /** With a non-negative gap, a placement is feasible exactly when its shift is monotone in the lowered interval. */
  lemma ShiftFeasible(y: seq<real>, lo: real, hi: real, gap: real)
    requires y != [] && gap >= 0.0
    ensures Feasible(y, lo, hi, gap) <==>
            Monotone(Shift(y, gap)) && Within(Shift(y, gap), lo, hi - Times(gap, |y| - 1))
  {
    var z, n := Shift(y, gap), |y|;
    forall i | 0 < i < n
      ensures y[i] - y[i - 1] >= gap <==> z[i - 1] <= z[i]
    {
      TimesStep(gap, i - 1);
    }
    if Monotone(z) {
      forall i | 0 <= i < n
        ensures z[0] <= z[i] <= z[n - 1]
        ensures 0.0 <= Times(gap, i) <= Times(gap, n - 1)
      {
        MonotoneOrders(z, 0, i);
        MonotoneOrders(z, i, n - 1);
        TimesGrows(gap, 0, i);
        TimesGrows(gap, i, n - 1);
      }
      TimesStep(gap, 0);
      if Feasible(y, lo, hi, gap) {
        assert lo <= y[0] && y[n - 1] <= hi;
      }
    }
  }

  // ----- the variational inequality

  /** Inner product of `b - x` with `z - x` over `s <= i < e`: at an optimum it is never positive. */
  ghost function Slope(b: seq<real>, x: seq<real>, z: seq<real>, s: nat, e: nat): real
    requires s <= e <= |b| && e <= |x| && e <= |z|
  {
    if s == e then 0.0 else Slope(b, x, z, s, e - 1) + Product(b[e - 1] - x[e - 1], z[e - 1] - x[e - 1])
  }

  lemma {:induction false} SlopeSplits(b: seq<real>, x: seq<real>, z: seq<real>, s: nat, m: nat, e: nat)
    requires s <= m <= e <= |b| && e <= |x| && e <= |z|
    ensures Slope(b, x, z, s, e) == Slope(b, x, z, s, m) + Slope(b, x, z, m, e)
  {
    if m < e {
      SlopeSplits(b, x, z, s, m, e - 1);
    }
  }

  lemma Square(p: real, q: real)
    ensures Squared(p + q) == Squared(p) + Squared(q) + 2.0 * Product(p, q)
    ensures Product(-q, p) == -Product(p, q)
  {
  }

  lemma {:induction false} SquareExpands(b: seq<real>, x: seq<real>, z: seq<real>, n: nat)
    requires n <= |b| && n <= |x| && n <= |z|
    ensures Distance(z, b, n) == Distance(x, b, n) + Distance(z, x, n) - 2.0 * Slope(b, x, z, 0, n)
  {
    if n > 0 {
      SquareExpands(b, x, z, n - 1);
      Square(z[n - 1] - x[n - 1], x[n - 1] - b[n - 1]);
      assert (z[n - 1] - x[n - 1]) + (x[n - 1] - b[n - 1]) == z[n - 1] - b[n - 1];
      assert -(x[n - 1] - b[n - 1]) == b[n - 1] - x[n - 1];
    }
  }

  lemma AwayFromClamp(mean: real, lo: real, hi: real, z: real)
    requires lo <= z <= hi
    ensures Product(mean - Clamp(mean, lo, hi), z - Clamp(mean, lo, hi)) <= 0.0
  {
    var v := Clamp(mean, lo, hi);
    if mean < lo {
      assert mean - v < 0.0 && z - v >= 0.0;
    } else if mean > hi {
      assert mean - v > 0.0 && z - v <= 0.0;
    } else {
      assert mean - v == 0.0;
    }
  }

  // ----- pooled blocks

  datatype Block = Block(start: nat, end: nat, sum: real) {
    function Mean(): real
      requires start < end
    {
      sum / (end - start) as real
    }
  }

  /** How much the elements `s <= i < k` together exceed `m` each. */
  ghost function Surplus(b: seq<real>, m: real, s: nat, k: nat): real
    requires s <= k <= |b|
  {
    if s == k then 0.0 else Surplus(b, m, s, k - 1) + (b[k - 1] - m)
  }

  /** Every prefix of a pooled block averages at least the block's mean. */
  ghost predicate Pooled(b: seq<real>, blk: Block) {
    && blk.start < blk.end <= |b|
    && Surplus(b, blk.Mean(), blk.start, blk.end) == 0.0
    && forall k :: blk.start <= k <= blk.end ==> Surplus(b, blk.Mean(), blk.start, k) >= 0.0
  }

  lemma {:induction false} SurplusMoves(b: seq<real>, m: real, m': real, s: nat, k: nat)
    requires s <= k <= |b|
    ensures Surplus(b, m', s, k) == Surplus(b, m, s, k) + Times(m - m', k - s)
  {
    if s < k {
      SurplusMoves(b, m, m', s, k - 1);
      TimesStep(m - m', k - 1 - s);
    }
  }

  lemma {:induction false} SurplusSplits(b: seq<real>, m: real, s: nat, j: nat, k: nat)
    requires s <= j <= k <= |b|
    ensures Surplus(b, m, s, k) == Surplus(b, m, s, j) + Surplus(b, m, j, k)
  {
    if j < k {
      SurplusSplits(b, m, s, j, k - 1);
    }
  }

  lemma SingletonPooled(b: seq<real>, blk: Block)
    requires blk.end == blk.start + 1 <= |b| && blk.sum == b[blk.start]
    ensures Pooled(b, blk)
  {
    assert blk.Mean() == blk.sum / 1.0 == b[blk.start];
    assert Surplus(b, blk.Mean(), blk.start, blk.start) == 0.0;
  }

  lemma SignOfProduct(x: real, y: real)
    requires y > 0.0
    ensures x > 0.0 ==> x * y > 0.0
    ensures x <= 0.0 ==> x * y <= 0.0
  {
  }

  lemma WeightedMean(a: real, p: real, b: real, q: real, m: real)
    requires p > 0.0 && q > 0.0 && a > b && a * p + b * q == m * (p + q)
    ensures a > m > b
    ensures (a - m) * p + (b - m) * q == 0.0
  {
    assert (a - m) * p == a * p - m * p && (m - b) * q == m * q - b * q && m * (p + q) == m * p + m * q;
    SignOfProduct(a - m, p);
    SignOfProduct(m - b, q);
  }

  lemma MeanTimesCount(blk: Block)
    requires blk.start < blk.end
    ensures blk.Mean() * (blk.end - blk.start) as real == blk.sum
  {
  }

  /** Merging a violating pair keeps the prefix property: this is why pooling is optimal. */
  lemma MergePooled(b: seq<real>, left: Block, right: Block, merged: Block)
    requires Pooled(b, left) && Pooled(b, right) && left.end == right.start
    requires left.Mean() > right.Mean()
    requires merged == Block(left.start, right.end, left.sum + right.sum)
    ensures Pooled(b, merged)
  {
    var l, r, m := left.Mean(), right.Mean(), merged.Mean();
    MeansOrdered(left, right, merged);
    forall k | merged.start <= k <= merged.end
      ensures Surplus(b, m, merged.start, k) >= 0.0
      ensures k == merged.end ==> Surplus(b, m, merged.start, k) == 0.0
    {
      MergedSurplus(b, l, r, m, left.start, left.end, right.end, k);
    }
  }

  lemma MergedSurplus(b: seq<real>, l: real, r: real, m: real, s: nat, j: nat, e: nat, k: nat)
    requires s < j < e <= |b| && s <= k <= e && l > m > r
    requires Surplus(b, l, s, j) == 0.0 && Surplus(b, r, j, e) == 0.0
    requires if k <= j then Surplus(b, l, s, k) >= 0.0 else Surplus(b, r, j, k) >= 0.0
    requires Times(l - m, j - s) + Times(r - m, e - j) == 0.0
    ensures Surplus(b, m, s, k) >= 0.0
    ensures k == e ==> Surplus(b, m, s, k) == 0.0
  {
    if k <= j {
      SurplusMoves(b, l, m, s, k);
      NonNegative(l - m, k - s);
    } else {
      SurplusSplits(b, m, s, j, k);
      SurplusMoves(b, l, m, s, j);
      SurplusMoves(b, r, m, j, k);
      Shrinks(r - m, k - j, e - j);
      var left, right := Times(l - m, j - s), Times(r - m, e - j);
      assert Surplus(b, m, s, j) == left;
      assert Surplus(b, m, j, k) == Surplus(b, r, j, k) + Times(r - m, k - j);
      assert left + right == 0.0;
    }
  }

  lemma MeansOrdered(left: Block, right: Block, merged: Block)
    requires left.start < left.end == right.start < right.end && left.Mean() > right.Mean()
    requires merged == Block(left.start, right.end, left.sum + right.sum)
    ensures left.Mean() > merged.Mean() > right.Mean()
    ensures Times(left.Mean() - merged.Mean(), left.end - left.start) +
            Times(right.Mean() - merged.Mean(), right.end - right.start) == 0.0
  {
    var p, q := (left.end - left.start) as real, (right.end - right.start) as real;
    MeanTimesCount(left);
    MeanTimesCount(right);
    MeanTimesCount(merged);
    assert (merged.end - merged.start) as real == p + q;
    WeightedMean(left.Mean(), p, right.Mean(), q, merged.Mean());
  }

  lemma Shrinks(c: real, k: nat, n: nat)
    requires c <= 0.0 && k <= n
    ensures Times(c, k) >= Times(c, n)
  {
  }

  lemma NonNegative(c: real, k: nat)
    requires c >= 0.0
    ensures Times(c, k) >= 0.0
  {
  }

  lemma AbelStep(before: real, b: real, m: real, v: real, w: real, u: real)
    requires before >= 0.0 && w <= u && Product(m - v, u) <= 0.0
    ensures Product(before, w) + Product(b - v, u) <= Product(before + (b - m), u)
  {
    assert before * w <= before * u;
    assert (b - v) * u == (b - m) * u + (m - v) * u;
    assert (before + (b - m)) * u == before * u + (b - m) * u;
  }

  /** Abel summation over one block: no monotone `z` lies uphill of the clamped block mean. */
  lemma {:induction false} BlockSlope(b: seq<real>, blk: Block, x: seq<real>, lo: real, hi: real, z: seq<real>, k: nat)
    requires Pooled(b, blk) && blk.start < k <= blk.end
    requires |x| == |z| == |b| && Monotone(z) && Within(z, lo, hi)
    requires forall i :: blk.start <= i < blk.end ==> x[i] == Clamp(blk.Mean(), lo, hi)
    ensures Slope(b, x, z, blk.start, k) <=
            Product(Surplus(b, blk.Mean(), blk.start, k), z[k - 1] - Clamp(blk.Mean(), lo, hi))
  {
    var i := k - 1;
    var m, v := blk.Mean(), Clamp(blk.Mean(), lo, hi);
    var before := Surplus(b, m, blk.start, i);
    AwayFromClamp(m, lo, hi, z[i]);
    if i > blk.start {
      BlockSlope(b, blk, x, lo, hi, z, i);
      AbelStep(before, b[i], m, v, z[i - 1] - v, z[i] - v);
    } else {
      AbelStep(0.0, b[i], m, v, z[i] - v, z[i] - v);
    }
  }

  ghost predicate Contiguous(blocks: seq<Block>, covered: nat) {
    && (blocks == [] ==> covered == 0)
    && (forall j :: 0 <= j < |blocks| ==> blocks[j].start < blocks[j].end)
    && (blocks != [] ==> blocks[0].start == 0 && blocks[|blocks| - 1].end == covered)
    && forall j :: 0 < j < |blocks| ==> blocks[j].start == blocks[j - 1].end
  }

  ghost predicate AllPooled(b: seq<real>, blocks: seq<Block>) {
    forall j :: 0 <= j < |blocks| ==> Pooled(b, blocks[j])
  }

  ghost predicate Ascending(blocks: seq<Block>) {
    forall j :: 0 < j < |blocks| && blocks[j - 1].start < blocks[j - 1].end && blocks[j].start < blocks[j].end ==>
      blocks[j - 1].Mean() <= blocks[j].Mean()
  }

  /** `x` holds the clamped mean of each block. */
  ghost predicate Laid(blocks: seq<Block>, lo: real, hi: real, x: seq<real>) {
    forall j :: 0 <= j < |blocks| ==> LaidBlock(blocks[j], lo, hi, x)
  }

  ghost predicate LaidBlock(blk: Block, lo: real, hi: real, x: seq<real>) {
    && blk.start < blk.end <= |x|
    && forall i :: blk.start <= i < blk.end ==> x[i] == Clamp(blk.Mean(), lo, hi)
  }

  lemma {:induction false} BlocksSlope(b: seq<real>, lo: real, hi: real, blocks: seq<Block>, covered: nat,
                                       x: seq<real>, z: seq<real>)
    requires |x| == |z| == |b| && covered <= |b|
    requires Contiguous(blocks, covered) && AllPooled(b, blocks) && Laid(blocks, lo, hi, x)
    requires Monotone(z) && Within(z, lo, hi)
    ensures Slope(b, x, z, 0, covered) <= 0.0
  {
    if blocks != [] {
      var last := |blocks| - 1;
      var blk, front := blocks[last], blocks[..last];
      assert Contiguous(front, blk.start);
      BlocksSlope(b, lo, hi, front, blk.start, x, z);
      assert LaidBlock(blk, lo, hi, x);
      BlockSlope(b, blk, x, lo, hi, z, blk.end);
      SlopeSplits(b, x, z, 0, blk.start, blk.end);
    }
  }

  lemma {:induction false} BlockOf(blocks: seq<Block>, covered: nat, i: nat) returns (j: nat)
    requires Contiguous(blocks, covered) && i < covered
    ensures j < |blocks| && blocks[j].start <= i < blocks[j].end
  {
    j := |blocks| - 1;
    if i < blocks[j].start {
      assert Contiguous(blocks[..j], blocks[j].start);
      j := BlockOf(blocks[..j], blocks[j].start, i);
    }
  }

  lemma LaidIsMonotone(blocks: seq<Block>, lo: real, hi: real, x: seq<real>)
    requires lo <= hi && Contiguous(blocks, |x|) && Ascending(blocks) && Laid(blocks, lo, hi, x)
    ensures Monotone(x) && Within(x, lo, hi)
  {
    forall i | 0 <= i < |x|
      ensures lo <= x[i] <= hi
      ensures i > 0 ==> x[i - 1] <= x[i]
    {
      var j := BlockOf(blocks, |x|, i);
      assert LaidBlock(blocks[j], lo, hi, x);
      if 0 < i == blocks[j].start {
        assert LaidBlock(blocks[j - 1], lo, hi, x);
        assert blocks[j - 1].Mean() <= blocks[j].Mean();
      }
    }
  }

  /** Another feasible placement is farther from the ideals, by at least its distance from the laid one. */
  lemma NoneIsCloser(ideals: seq<real>, positions: seq<real>, y: seq<real>, lo: real, hi: real, gap: real, blocks: seq<Block>)
    requires ideals != [] && |y| == |positions| == |ideals| && gap >= 0.0
    requires lo <= hi - Times(gap, |ideals| - 1)
    requires Contiguous(blocks, |ideals|) && AllPooled(Shift(ideals, gap), blocks) && Ascending(blocks)
    requires Laid(blocks, lo, hi - Times(gap, |ideals| - 1), Shift(positions, gap))
    requires Feasible(y, lo, hi, gap)
    ensures Distance(y, ideals, |ideals|) >= Distance(positions, ideals, |ideals|) + Distance(y, positions, |ideals|)
  {
    var n, b, x, z := |ideals|, Shift(ideals, gap), Shift(positions, gap), Shift(y, gap);
    ShiftFeasible(y, lo, hi, gap);
    BlocksSlope(b, lo, hi - Times(gap, n - 1), blocks, n, x, z);
    SquareExpands(b, x, z, n);
    ShiftKeepsDistance(y, ideals, gap, n);
    ShiftKeepsDistance(positions, ideals, gap, n);
    ShiftKeepsDistance(y, positions, gap, n);
  }

  /** Clamped pooled means are the constrained least-squares optimum of the shifted problem. */
  lemma PooledIsOptimal(ideals: seq<real>, positions: seq<real>, lo: real, hi: real, gap: real, blocks: seq<Block>)
    requires ideals != [] && |positions| == |ideals| && gap >= 0.0
    requires lo <= hi - Times(gap, |ideals| - 1)
    requires Contiguous(blocks, |ideals|) && AllPooled(Shift(ideals, gap), blocks) && Ascending(blocks)
    requires Laid(blocks, lo, hi - Times(gap, |ideals| - 1), Shift(positions, gap))
    ensures Feasible(positions, lo, hi, gap) && Optimal(ideals, positions, lo, hi, gap)
  {
    LaidIsMonotone(blocks, lo, hi - Times(gap, |ideals| - 1), Shift(positions, gap));
    ShiftFeasible(positions, lo, hi, gap);
    forall y: seq<real> | |y| == |ideals| && Feasible(y, lo, hi, gap)
      ensures Distance(y, ideals, |ideals|) >= Distance(positions, ideals, |ideals|) + Distance(y, positions, |ideals|)
    {
      NoneIsCloser(ideals, positions, y, lo, hi, gap, blocks);
    }
  }

  lemma GapFits(n: nat, lo: real, hi: real, requested: real)
    requires n >= 2 && lo <= hi
    ensures EffectiveGap(n, lo, hi, requested) >= 0.0
    ensures lo <= hi - Times(EffectiveGap(n, lo, hi, requested), n - 1)
  {
    var gap, count := EffectiveGap(n, lo, hi, requested), (n - 1) as real;
    var room := (hi - lo) / count;
    assert room * count == hi - lo;
    assert room >= 0.0;
    assert gap * count <= room * count;
  }

  /** The requested gap, or the widest one that the interval can hold if that is too wide. */
  ghost predicate WidestGap(n: nat, lo: real, hi: real, requested: real, gap: real)
    requires n >= 2
  {
    gap >= 0.0 && forall g: real {:trigger Times(g, n - 1)} :: g > 0.0 ==> (g <= gap <==> g <= requested && Times(g, n - 1) <= hi - lo)
  }

  lemma GapIsWidest(n: nat, lo: real, hi: real, requested: real)
    requires n >= 2 && lo <= hi
    ensures WidestGap(n, lo, hi, requested, EffectiveGap(n, lo, hi, requested))
  {
    GapFits(n, lo, hi, requested);
    forall g: real {:trigger Times(g, n - 1)} | g > 0.0
      ensures g <= EffectiveGap(n, lo, hi, requested) <==> g <= requested && Times(g, n - 1) <= hi - lo
    {
      HoldsGap(n, hi - lo, g);
    }
  }

  lemma HoldsGap(n: nat, length: real, g: real)
    requires n >= 2
    ensures g <= length / (n - 1) as real <==> Times(g, n - 1) <= length
  {
    var room, count := length / (n - 1) as real, (n - 1) as real;
    assert Product(room, count) == length && Product(g, count) == Times(g, n - 1);
    assert Product(g, count) - Product(room, count) == Product(g - room, count);
    if g > room {
      PositiveProduct(g - room, count);
    } else if g < room {
      PositiveProduct(room - g, count);
      assert Product(room - g, count) == -Product(g - room, count);
    }
  }

  // ----- the algorithm

  function Single(ideals: seq<real>, gap: real, index: nat): (blk: Block)
    requires index < |ideals|
    ensures blk.start == index && blk.end == index + 1 && blk.sum == Shift(ideals, gap)[index]
  {
    Block(index, index + 1, ideals[index] - index as real * gap)
  }

  /** Push one block per ideal and merge while the two topmost means are out of order. */
  method Pool(ideals: seq<real>, gap: real) returns (blocks: seq<Block>)
    ensures Contiguous(blocks, |ideals|) && Ascending(blocks)
    ensures AllPooled(Shift(ideals, gap), blocks)
  {
    ghost var b := Shift(ideals, gap);
    blocks := [];
    for index := 0 to |ideals|
      invariant Contiguous(blocks, index) && Ascending(blocks) && AllPooled(b, blocks)
    {
      var single := Single(ideals, gap, index);
      SingletonPooled(b, single);
      assert (blocks + [single])[..|blocks|] == blocks;
      blocks := MergeTop(b, blocks + [single], index + 1);
    }
  }

  method MergeTop(ghost b: seq<real>, pushed: seq<Block>, ghost covered: nat) returns (blocks: seq<Block>)
    requires |pushed| >= 1 && Ascending(pushed[..|pushed| - 1])
    requires Contiguous(pushed, covered) && AllPooled(b, pushed)
    ensures Contiguous(blocks, covered) && Ascending(blocks) && AllPooled(b, blocks)
  {
    blocks := pushed;
    while |blocks| >= 2
      invariant |blocks| >= 1
      invariant Contiguous(blocks, covered) && AllPooled(b, blocks)
      invariant Ascending(blocks[..|blocks| - 1])
      decreases |blocks|
    {
      var k := |blocks|;
      if blocks[k - 2].Mean() <= blocks[k - 1].Mean() {
        break;
      }
      MergedTop(b, blocks, covered);
      blocks := Merged(blocks);
    }
    AscendingExtends(blocks);
  }

  /** The two topmost blocks as one. */
  function Merged(blocks: seq<Block>): (m: seq<Block>)
    requires |blocks| >= 2
    ensures |m| == |blocks| - 1
  {
    var left, right := blocks[|blocks| - 2], blocks[|blocks| - 1];
    blocks[..|blocks| - 2] + [Block(left.start, right.end, left.sum + right.sum)]
  }

  lemma MergedTop(b: seq<real>, blocks: seq<Block>, covered: nat)
    requires |blocks| >= 2 && Contiguous(blocks, covered) && AllPooled(b, blocks)
    requires Ascending(blocks[..|blocks| - 1])
    requires blocks[|blocks| - 2].Mean() > blocks[|blocks| - 1].Mean()
    ensures Contiguous(Merged(blocks), covered) && AllPooled(b, Merged(blocks))
    ensures Ascending(Merged(blocks)[..|Merged(blocks)| - 1])
  {
    var k := |blocks|;
    var left, right := blocks[k - 2], blocks[k - 1];
    MergePooled(b, left, right, Block(left.start, right.end, left.sum + right.sum));
    assert Merged(blocks)[..k - 2] == blocks[..k - 1][..k - 2];
  }

  lemma AscendingExtends(blocks: seq<Block>)
    requires |blocks| >= 1 && Ascending(blocks[..|blocks| - 1])
    requires forall j :: 0 <= j < |blocks| ==> blocks[j].start < blocks[j].end
    requires |blocks| >= 2 ==> blocks[|blocks| - 2].Mean() <= blocks[|blocks| - 1].Mean()
    ensures Ascending(blocks)
  {
    var first := blocks[..|blocks| - 1];
    forall j | 0 < j < |blocks|
      ensures blocks[j - 1].Mean() <= blocks[j].Mean()
    {
      if j < |first| {
        assert first[j - 1].Mean() <= first[j].Mean();
      }
    }
  }

  /** Write every block's clamped mean back to its slots. */
  method Spread(blocks: seq<Block>, n: nat, lo: real, upper: real, gap: real) returns (positions: seq<real>)
    requires Contiguous(blocks, n)
    ensures |positions| == n && Laid(blocks, lo, upper, Shift(positions, gap))
  {
    var projected := new real[n](_ => 0.0);
    for b := 0 to |blocks|
      invariant Laid(blocks[..b], lo, upper, Shift(projected[..], gap))
    {
      var blk := blocks[b];
      BlockEnds(blocks, n, b);
      var value := Clamp(blk.Mean(), lo, upper);
      ghost var before := projected[..];
      for i := blk.start to blk.end
        invariant forall k :: 0 <= k < blk.start ==> projected[k] == before[k]
        invariant forall k :: blk.start <= k < i ==> projected[k] == value + Times(gap, k)
      {
        projected[i] := value + i as real * gap;
      }
      forall j | 0 <= j <= b
        ensures LaidBlock(blocks[j], lo, upper, Shift(projected[..], gap))
      {
        if j < b {
          assert LaidBlock(blocks[..b][j], lo, upper, Shift(before, gap));
        }
      }
    }
    positions := projected[..];
    assert blocks[..|blocks|] == blocks;
  }

  lemma {:induction false} BlockEnds(blocks: seq<Block>, covered: nat, b: nat)
    requires Contiguous(blocks, covered) && b < |blocks|
    ensures blocks[b].end <= covered
    ensures forall j :: 0 <= j < b ==> blocks[j].end <= blocks[b].start
  {
    var last := |blocks| - 1;
    if b < last {
      assert Contiguous(blocks[..last], blocks[last].start);
      BlockEnds(blocks[..last], blocks[last].start, b);
    } else if b > 0 {
      assert Contiguous(blocks[..last], blocks[last].start);
      forall j | 0 <= j < b
        ensures blocks[j].end <= blocks[b].start
      {
        BlockEnds(blocks[..last], blocks[last].start, j);
      }
    }
  }

  method ProjectOrderedPositions(ideals: seq<real>, lo: real, hi: real, requestedGap: real) returns (positions: seq<real>)
    requires ideals != [] ==> lo <= hi
    ensures |positions| == |ideals|
    ensures |ideals| >= 2 ==> WidestGap(|ideals|, lo, hi, requestedGap, GapFor(|ideals|, lo, hi, requestedGap))
    ensures Feasible(positions, lo, hi, GapFor(|ideals|, lo, hi, requestedGap))
    ensures Optimal(ideals, positions, lo, hi, GapFor(|ideals|, lo, hi, requestedGap))
  {
    var n := |ideals|;
    if n == 0 {
      return [];
    }
    if n == 1 {
      positions := [Clamp(ideals[0], lo, hi)];
      SingleIsOptimal(ideals, positions, lo, hi);
      return;
    }
    var gap := EffectiveGap(n, lo, hi, requestedGap);
    GapFits(n, lo, hi, requestedGap);
    GapIsWidest(n, lo, hi, requestedGap);
    positions := ProjectWithGap(ideals, lo, hi, gap);
  }

  method ProjectWithGap(ideals: seq<real>, lo: real, hi: real, gap: real) returns (positions: seq<real>)
    requires |ideals| >= 2 && gap >= 0.0 && lo <= hi - Times(gap, |ideals| - 1)
    ensures |positions| == |ideals|
    ensures Feasible(positions, lo, hi, gap) && Optimal(ideals, positions, lo, hi, gap)
  {
    var upper := hi - gap * (|ideals| - 1) as real;
    var blocks := Pool(ideals, gap);
    positions := Spread(blocks, |ideals|, lo, upper, gap);
    PooledIsOptimal(ideals, positions, lo, hi, gap, blocks);
  }

  lemma SingleIsOptimal(ideals: seq<real>, x: seq<real>, lo: real, hi: real)
    requires |ideals| == 1 && x == [Clamp(ideals[0], lo, hi)] && lo <= hi
    ensures Feasible(x, lo, hi, 0.0) && Optimal(ideals, x, lo, hi, 0.0)
  {
    forall y: seq<real> | |y| == 1 && Feasible(y, lo, hi, 0.0)
      ensures Distance(y, ideals, 1) >= Distance(x, ideals, 1) + Distance(y, x, 1)
    {
      SquareExpands(ideals, x, y, 1);
      AwayFromClamp(ideals[0], lo, hi, y[0]);
      assert Slope(ideals, x, y, 0, 0) == 0.0;
    }
  }

  // ----- consequences

  /** Two optimal placements are the same placement: the projection is a function of its arguments. */
  lemma OptimumIsUnique(ideals: seq<real>, x: seq<real>, y: seq<real>, lo: real, hi: real, gap: real)
    requires |x| == |y| == |ideals|
    requires Feasible(x, lo, hi, gap) && Optimal(ideals, x, lo, hi, gap)
    requires Feasible(y, lo, hi, gap) && Optimal(ideals, y, lo, hi, gap)
    ensures x == y
  {
    DistanceSeparates(y, x, |x|);
    DistanceSeparates(x, y, |x|);
  }

  lemma {:induction false} DistanceSeparates(x: seq<real>, y: seq<real>, n: nat)
    requires n <= |x| && n <= |y|
    ensures Distance(x, y, n) >= 0.0
    ensures Distance(x, y, n) == 0.0 ==> forall i :: 0 <= i < n ==> x[i] == y[i]
  {
    if n > 0 {
      DistanceSeparates(x, y, n - 1);
      var d := x[n - 1] - y[n - 1];
      NoZeroSquare(d);
    }
  }

  lemma PositiveProduct(a: real, b: real)
    requires a > 0.0 && b > 0.0
    ensures Product(a, b) > 0.0
  {
  }

  lemma EvenSquare(d: real)
    ensures Squared(-d) == Squared(d)
  {
  }

  lemma NoZeroSquare(d: real)
    ensures Squared(d) >= 0.0
    ensures d != 0.0 ==> Squared(d) > 0.0
  {
    if d > 0.0 {
      PositiveProduct(d, d);
    } else if d < 0.0 {
      PositiveProduct(-d, -d);
      EvenSquare(d);
    }
  }

  /** Competing ports never coincide, exactly when the side has room and a positive gap is asked for. */
  lemma PortsDistinctIffRoom(n: nat, lo: real, hi: real, requested: real)
    requires n >= 2 && lo <= hi
    ensures (lo < hi && requested > 0.0) <==>
            (forall x: seq<real> :: |x| == n && Feasible(x, lo, hi, EffectiveGap(n, lo, hi, requested)) ==>
               forall i, j :: 0 <= i < j < n ==> x[i] < x[j])
  {
    var gap := EffectiveGap(n, lo, hi, requested);
    GapFits(n, lo, hi, requested);
    GapPositive(n, lo, hi, requested);
    if gap > 0.0 {
      forall x: seq<real>, i: nat, j: nat | |x| == n && Feasible(x, lo, hi, gap) && i < j < n
        ensures x[i] < x[j]
      {
        ApartWhenPositive(x, lo, hi, gap, i, j);
      }
    } else {
      var x := seq(n, _ => lo);
      assert Feasible(x, lo, hi, gap);
      assert !(x[0] < x[1]);
    }
  }

  lemma GapPositive(n: nat, lo: real, hi: real, requested: real)
    requires n >= 2 && lo <= hi
    ensures EffectiveGap(n, lo, hi, requested) > 0.0 <==> lo < hi && requested > 0.0
  {
    var room := (hi - lo) / (n - 1) as real;
    assert room * (n - 1) as real == hi - lo;
    assert room > 0.0 <==> lo < hi;
  }

  lemma {:induction false} ApartWhenPositive(x: seq<real>, lo: real, hi: real, gap: real, i: nat, j: nat)
    requires Feasible(x, lo, hi, gap) && gap > 0.0 && i < j < |x|
    ensures x[i] < x[j]
  {
    if i < j - 1 {
      ApartWhenPositive(x, lo, hi, gap, i, j - 1);
    }
  }
}
