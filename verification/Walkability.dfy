/** Walkability of a map point: the quadtree descent and the barycentric test, over the reals. */
module Walkability {
  import opened Bytes

  // ---- one triangle ----

  datatype Triangle = Triangle(x0: real, y0: real, x1: real, y1: real, x2: real, y2: real)

  const EPSILON := 0.000001

  function Dot(ux: real, uy: real, vx: real, vy: real): real {
    ux * vx + uy * vy
  }

  function Cross(ux: real, uy: real, vx: real, vy: real): real {
    ux * vy - uy * vx
  }

  /** Triangle2D.Contains on the edge vectors v0, v1 and the offset v2 of the point from A. */
  predicate BarycentricTest(v0x: real, v0y: real, v1x: real, v1y: real, v2x: real, v2y: real) {
    var dot00, dot01, dot02 := Dot(v0x, v0y, v0x, v0y), Dot(v0x, v0y, v1x, v1y), Dot(v0x, v0y, v2x, v2y);
    var dot11, dot12 := Dot(v1x, v1y, v1x, v1y), Dot(v1x, v1y, v2x, v2y);
    var denom := dot00 * dot11 - dot01 * dot01;
    if (if denom < 0.0 then -denom else denom) < EPSILON then false
    else
      var invDenom := 1.0 / denom;
      var u := (dot11 * dot02 - dot01 * dot12) * invDenom;
      var v := (dot00 * dot12 - dot01 * dot02) * invDenom;
      u >= 0.0 && v >= 0.0 && u + v <= 1.0
  }

  predicate Contains(t: Triangle, px: real, py: real) {
    BarycentricTest(t.x1 - t.x0, t.y1 - t.y0, t.x2 - t.x0, t.y2 - t.y0, px - t.x0, py - t.y0)
  }

  /** Twice the signed area. */
  function DoubleArea(t: Triangle): real {
    Cross(t.x1 - t.x0, t.y1 - t.y0, t.x2 - t.x0, t.y2 - t.y0)
  }

  /** p = A + s (B - A) + r (C - A) */
  predicate IsCombination(t: Triangle, px: real, py: real, s: real, r: real) {
    && px - t.x0 == s * (t.x1 - t.x0) + r * (t.x2 - t.x0)
    && py - t.y0 == s * (t.y1 - t.y0) + r * (t.y2 - t.y0)
  }

  /** The point lies in the closed triangle. */
  ghost predicate InTriangle(t: Triangle, px: real, py: real) {
    exists s, r :: s >= 0.0 && r >= 0.0 && s + r <= 1.0 && IsCombination(t, px, py, s, r)
  }

  lemma Lagrange(ux: real, uy: real, vx: real, vy: real)
    ensures Dot(ux, uy, ux, uy) * Dot(vx, vy, vx, vy) - Dot(ux, uy, vx, vy) * Dot(ux, uy, vx, vy)
            == Cross(ux, uy, vx, vy) * Cross(ux, uy, vx, vy)
  {}

  /** (v.v)(u.w) - (u.v)(v.w) = (u x v)(w x v) */
  lemma NumeratorIsCross(ux: real, uy: real, vx: real, vy: real, wx: real, wy: real)
    ensures Dot(vx, vy, vx, vy) * Dot(ux, uy, wx, wy) - Dot(ux, uy, vx, vy) * Dot(vx, vy, wx, wy)
            == Cross(ux, uy, vx, vy) * Cross(wx, wy, vx, vy)
  {}

  lemma DotCommutes(ux: real, uy: real, vx: real, vy: real)
    ensures Dot(ux, uy, vx, vy) == Dot(vx, vy, ux, uy)
    ensures Cross(ux, uy, vx, vy) == -Cross(vx, vy, ux, uy)
  {}

  lemma CancelFactor(d: real, x: real)
    requires d != 0.0
    ensures (d * x) * (1.0 / (d * d)) == x / d
  {
    assert d * d != 0.0;
    var i := 1.0 / (d * d);
    assert i * (d * d) == 1.0;
    var q := x / d;
    assert q * d == x;
    assert (d * x) * i == (d * (q * d)) * i == q * (i * (d * d));
  }

  /** The test, given that its three quotients' parts are `d * d`, `d * x` and `d * y`. */
  lemma TestByParts(v0x: real, v0y: real, v1x: real, v1y: real, v2x: real, v2y: real, d: real, x: real, y: real)
    requires Dot(v0x, v0y, v0x, v0y) * Dot(v1x, v1y, v1x, v1y) - Dot(v0x, v0y, v1x, v1y) * Dot(v0x, v0y, v1x, v1y) == d * d
    requires Dot(v1x, v1y, v1x, v1y) * Dot(v0x, v0y, v2x, v2y) - Dot(v0x, v0y, v1x, v1y) * Dot(v1x, v1y, v2x, v2y) == d * x
    requires Dot(v0x, v0y, v0x, v0y) * Dot(v1x, v1y, v2x, v2y) - Dot(v0x, v0y, v1x, v1y) * Dot(v0x, v0y, v2x, v2y) == d * y
    ensures d * d < EPSILON ==> !BarycentricTest(v0x, v0y, v1x, v1y, v2x, v2y)
    ensures d * d >= EPSILON ==> d != 0.0
    ensures d * d >= EPSILON ==>
              (BarycentricTest(v0x, v0y, v1x, v1y, v2x, v2y) <==> x / d >= 0.0 && y / d >= 0.0 && x / d + y / d <= 1.0)
  {
    hide Dot;
    SquareNotNegative(d);
    if d * d >= EPSILON {
      CancelFactor(d, x);
      CancelFactor(d, y);
    }
  }

  /** Below the threshold the test is false; from it on the test is Cramer's rule. */
  lemma TestIsCramer(v0x: real, v0y: real, v1x: real, v1y: real, v2x: real, v2y: real)
    ensures var d, x, y := Cross(v0x, v0y, v1x, v1y), Cross(v2x, v2y, v1x, v1y), Cross(v0x, v0y, v2x, v2y);
            && (d * d < EPSILON ==> !BarycentricTest(v0x, v0y, v1x, v1y, v2x, v2y))
            && (d * d >= EPSILON ==> d != 0.0)
            && (d * d >= EPSILON ==>
                (BarycentricTest(v0x, v0y, v1x, v1y, v2x, v2y) <==> x / d >= 0.0 && y / d >= 0.0 && x / d + y / d <= 1.0))
  {
    var d, x, y := Cross(v0x, v0y, v1x, v1y), Cross(v2x, v2y, v1x, v1y), Cross(v0x, v0y, v2x, v2y);
    Lagrange(v0x, v0y, v1x, v1y);
    NumeratorIsCross(v0x, v0y, v1x, v1y, v2x, v2y);
    NumeratorIsCross(v1x, v1y, v0x, v0y, v2x, v2y);
    DotCommutes(v0x, v0y, v1x, v1y);
    DotCommutes(v2x, v2y, v0x, v0y);
    hide Dot, Cross, BarycentricTest;
    assert -d * -y == d * y;
    TestByParts(v0x, v0y, v1x, v1y, v2x, v2y, d, x, y);
  }

  lemma CramerSolves(v0x: real, v0y: real, v1x: real, v1y: real, v2x: real, v2y: real)
    requires Cross(v0x, v0y, v1x, v1y) != 0.0
    ensures var d := Cross(v0x, v0y, v1x, v1y);
            var u, v := Cross(v2x, v2y, v1x, v1y) / d, Cross(v0x, v0y, v2x, v2y) / d;
            v2x == u * v0x + v * v1x && v2y == u * v0y + v * v1y
  {
    var d := Cross(v0x, v0y, v1x, v1y);
    var u, v := Cross(v2x, v2y, v1x, v1y) / d, Cross(v0x, v0y, v2x, v2y) / d;
    assert u * d == Cross(v2x, v2y, v1x, v1y) && v * d == Cross(v0x, v0y, v2x, v2y);
    assert (u * d) * v0x + (v * d) * v1x == v2x * d;
    assert (u * d) * v0y + (v * d) * v1y == v2y * d;
    Cancel(u * v0x + v * v1x, v2x, d);
    Cancel(u * v0y + v * v1y, v2y, d);
  }

  lemma Cancel(x: real, y: real, d: real)
    requires d != 0.0 && x * d == y * d
    ensures x == y
  {
    assert (x - y) * d == 0.0;
  }

  lemma CramerIsUnique(v0x: real, v0y: real, v1x: real, v1y: real, v2x: real, v2y: real, s: real, r: real)
    requires Cross(v0x, v0y, v1x, v1y) != 0.0
    requires v2x == s * v0x + r * v1x && v2y == s * v0y + r * v1y
    ensures var d := Cross(v0x, v0y, v1x, v1y);
            Cross(v2x, v2y, v1x, v1y) / d == s && Cross(v0x, v0y, v2x, v2y) / d == r
  {
    var d := Cross(v0x, v0y, v1x, v1y);
    assert Cross(v2x, v2y, v1x, v1y) == s * d;
    assert Cross(v0x, v0y, v2x, v2y) == r * d;
    DivOfProduct(s, d);
    DivOfProduct(r, d);
  }

  lemma DivOfProduct(s: real, d: real)
    requires d != 0.0
    ensures (s * d) / d == s
  {}

  /** The two quotients of Cramer's rule are the only coordinates the point can have. */
  lemma CoordinatesAreCramer(t: Triangle, px: real, py: real)
    requires DoubleArea(t) != 0.0
    ensures var d := DoubleArea(t);
            var u := Cross(px - t.x0, py - t.y0, t.x2 - t.x0, t.y2 - t.y0) / d;
            var v := Cross(t.x1 - t.x0, t.y1 - t.y0, px - t.x0, py - t.y0) / d;
            InTriangle(t, px, py) <==> u >= 0.0 && v >= 0.0 && u + v <= 1.0
  {
    var (v0x, v0y) := (t.x1 - t.x0, t.y1 - t.y0);
    var (v1x, v1y) := (t.x2 - t.x0, t.y2 - t.y0);
    var (v2x, v2y) := (px - t.x0, py - t.y0);
    var d := DoubleArea(t);
    CramerSolves(v0x, v0y, v1x, v1y, v2x, v2y);
    hide Cross;
    var u, v := Cross(v2x, v2y, v1x, v1y) / d, Cross(v0x, v0y, v2x, v2y) / d;
    assert IsCombination(t, px, py, u, v);
    if InTriangle(t, px, py) {
      var s, r :| s >= 0.0 && r >= 0.0 && s + r <= 1.0 && IsCombination(t, px, py, s, r);
      CramerIsUnique(v0x, v0y, v1x, v1y, v2x, v2y, s, r);
    }
  }

  /** Where the area is not too small, Contains is membership in the closed triangle; where it is, it is false. */
  lemma ContainsIsExact(t: Triangle, px: real, py: real)
    ensures Contains(t, px, py) <==> DoubleArea(t) * DoubleArea(t) >= 0.000001 && InTriangle(t, px, py)
  {
    TestIsCramer(t.x1 - t.x0, t.y1 - t.y0, t.x2 - t.x0, t.y2 - t.y0, px - t.x0, py - t.y0);
    hide BarycentricTest, Cross, InTriangle;
    if DoubleArea(t) * DoubleArea(t) >= EPSILON {
      CoordinatesAreCramer(t, px, py);
    }
  }

  lemma SquareNotNegative(d: real)
    ensures d * d >= 0.0
  {}

  // ---- the quadtree ----

  datatype QuadNode = QuadNode(minX: real, minY: real, maxX: real, maxY: real, triangles: seq<int>, children: seq<int>)
  {
    predicate HasChildren() {
      |children| == 4 && (children[0] != -1 || children[1] != -1 || children[2] != -1 || children[3] != -1)
    }

    predicate InBox(x: real, y: real) {
      x >= minX && x <= maxX && y >= minY && y <= maxY
    }
  }

  /** `x` is a weighted mean of the two ends. */
  ghost predicate IsMean(lo: real, hi: real, x: real) {
    exists u :: 0.0 <= u <= 1.0 && x == MeanAt(lo, hi, u)
  }

  function MeanAt(lo: real, hi: real, u: real): real {
    lo + Product(u, hi - lo)
  }

  function Product(u: real, w: real): real {
    u * w
  }

  lemma InnerIsMean(lo: real, hi: real, x: real)
    requires lo <= x <= hi
    ensures IsMean(lo, hi, x)
  {
    if lo == hi {
      assert x == MeanAt(lo, hi, 0.0);
    } else {
      var u := FractionOf(x - lo, hi - lo);
      assert x == MeanAt(lo, hi, u);
    }
  }

  lemma FractionOf(a: real, w: real) returns (u: real)
    requires 0.0 <= a <= w && w > 0.0
    ensures Product(u, w) == a && 0.0 <= u <= 1.0
  {
    u := a / w;
  }

  lemma MeanIsInner(lo: real, hi: real, u: real)
    requires lo <= hi && 0.0 <= u <= 1.0
    ensures lo <= MeanAt(lo, hi, u) <= hi
  {
    hide Product;
    Scaled(u, hi - lo);
  }

  lemma Scaled(u: real, w: real)
    requires 0.0 <= u <= 1.0 && w >= 0.0
    ensures 0.0 <= Product(u, w) <= w
  {
    NotNegative(u, w);
    NotNegative(1.0 - u, w);
    assert Product(1.0 - u, w) == w - Product(u, w);
  }

  lemma NotNegative(u: real, w: real)
    requires u >= 0.0 && w >= 0.0
    ensures Product(u, w) >= 0.0
  {}

  lemma MeansFillInterval(lo: real, hi: real, x: real)
    requires lo <= hi
    ensures IsMean(lo, hi, x) <==> lo <= x <= hi
  {
    hide MeanAt;
    if lo <= x <= hi {
      InnerIsMean(lo, hi, x);
    }
    if IsMean(lo, hi, x) {
      var u :| 0.0 <= u <= 1.0 && x == MeanAt(lo, hi, u);
      MeanIsInner(lo, hi, u);
    }
  }

  /** A box is the convex hull of its corners, edges included; with its ends exchanged in either axis it is empty. */
  lemma BoxIsHull(node: QuadNode, x: real, y: real)
    ensures node.InBox(x, y) <==>
            && node.minX <= node.maxX && node.minY <= node.maxY
            && IsMean(node.minX, node.maxX, x) && IsMean(node.minY, node.maxY, y)
  {
    if node.minX <= node.maxX && node.minY <= node.maxY {
      MeansFillInterval(node.minX, node.maxX, x);
      MeansFillInterval(node.minY, node.maxY, y);
    }
  }

  /** Only a node with a full set of four child entries, not all of them -1, is an inner node. */
  lemma InnerNodes(node: QuadNode)
    ensures node.HasChildren() <==> |node.children| == 4 && node.children != [-1, -1, -1, -1]
  {}

  /** The first child, from position `k` on, that is a node and whose box holds the point. */
  function MatchedChild(nodes: seq<QuadNode>, children: seq<int>, x: real, y: real, k: nat): (r: Option<nat>)
    requires k <= |children|
    ensures r.Some? ==> r.value in children && r.value < |nodes| && nodes[r.value].InBox(x, y)
    decreases |children| - k
  {
    if k == |children| then None
    else if 0 <= children[k] < |nodes| && nodes[children[k]].InBox(x, y) then Some(children[k])
    else MatchedChild(nodes, children, x, y, k + 1)
  }

  lemma {:induction false} MatchesSomeChild(nodes: seq<QuadNode>, children: seq<int>, x: real, y: real, k: nat, j: nat)
    requires k <= j < |children| && 0 <= children[j] < |nodes| && nodes[children[j]].InBox(x, y)
    ensures MatchedChild(nodes, children, x, y, k).Some?
    decreases |children| - k
  {
    if k == j {
    } else {
      MatchesSomeChild(nodes, children, x, y, k + 1, j);
    }
  }

  predicate Matches(nodes: seq<QuadNode>, c: int, x: real, y: real) {
    0 <= c < |nodes| && nodes[c].InBox(x, y)
  }

  /** Of the children that match, the one listed first is taken; none only if none matches. */
  lemma {:induction false} FirstMatchWins(nodes: seq<QuadNode>, children: seq<int>, x: real, y: real, k: nat)
    requires k <= |children|
    ensures match MatchedChild(nodes, children, x, y, k)
            case None => forall j | k <= j < |children| :: !Matches(nodes, children[j], x, y)
            case Some(c) => exists j | k <= j < |children| ::
              children[j] == c && Matches(nodes, c, x, y) && forall h | k <= h < j :: !Matches(nodes, children[h], x, y)
    decreases |children| - k
  {
    if k == |children| {
    } else if Matches(nodes, children[k], x, y) {
      assert MatchedChild(nodes, children, x, y, k) == Some(children[k]);
    } else {
      FirstMatchWins(nodes, children, x, y, k + 1);
    }
  }

  /** One turn of the descent at node `i`: the next node, or none at a leaf and where no child matches. */
  function NextNode(nodes: seq<QuadNode>, i: nat, x: real, y: real): (r: Option<nat>)
    ensures r.Some? ==> r.value < |nodes|
  {
    if i < |nodes| && nodes[i].HasChildren() then MatchedChild(nodes, nodes[i].children, x, y, 0) else None
  }

  /** The node the descent from the root has reached after `n` turns; none once it has ended. */
  function Chain(nodes: seq<QuadNode>, x: real, y: real, n: nat): (r: Option<nat>)
    requires nodes != []
    ensures r.Some? ==> r.value < |nodes|
  {
    if n == 0 then Some(0)
    else
      match Chain(nodes, x, y, n - 1)
      case None => None
      case Some(i) => NextNode(nodes, i, x, y)
  }

  /** Something a caller can compute: the descent is over within as many turns as there are nodes. */
  predicate DescentEnds(nodes: seq<QuadNode>, x: real, y: real)
    requires nodes != []
  {
    Chain(nodes, x, y, |nodes|) == None
  }

  ghost predicate NoNodeTwice(nodes: seq<QuadNode>, x: real, y: real)
    requires nodes != []
  {
    forall a: nat, b: nat | a < b && Chain(nodes, x, y, b).Some? :: Chain(nodes, x, y, a) != Chain(nodes, x, y, b)
  }

  lemma {:induction false} ChainStaysOver(nodes: seq<QuadNode>, x: real, y: real, a: nat, b: nat)
    requires nodes != [] && a <= b && Chain(nodes, x, y, b).Some?
    ensures Chain(nodes, x, y, a).Some?
    decreases b - a
  {
    if a < b {
      ChainStaysOver(nodes, x, y, a, b - 1);
    }
  }

  lemma {:induction false} ChainShifts(nodes: seq<QuadNode>, x: real, y: real, a: nat, b: nat, k: nat)
    requires nodes != [] && Chain(nodes, x, y, a) == Chain(nodes, x, y, b)
    ensures Chain(nodes, x, y, a + k) == Chain(nodes, x, y, b + k)
    decreases k
  {
    hide NextNode;
    if k == 0 {
    } else {
      ChainShifts(nodes, x, y, a, b, k - 1);
    }
  }

  /** A descent that comes back to a node goes round for ever. */
  lemma {:induction false} RepeatNeverEnds(nodes: seq<QuadNode>, x: real, y: real, a: nat, b: nat, n: nat)
    requires nodes != [] && a < b && Chain(nodes, x, y, a) == Chain(nodes, x, y, b) && Chain(nodes, x, y, b).Some?
    ensures Chain(nodes, x, y, n).Some?
    decreases n
  {
    hide Chain;
    if n <= b {
      ChainStaysOver(nodes, x, y, n, b);
    } else {
      ChainShifts(nodes, x, y, a, b, n - b);
      RepeatNeverEnds(nodes, x, y, a, b, n - (b - a));
    }
  }

  function Visited(nodes: seq<QuadNode>, x: real, y: real, n: nat): set<nat>
    requires nodes != []
  {
    set k: nat | k < n && Chain(nodes, x, y, k).Some? :: Chain(nodes, x, y, k).value
  }

  lemma {:induction false} VisitedGrows(nodes: seq<QuadNode>, x: real, y: real, n: nat)
    requires nodes != [] && NoNodeTwice(nodes, x, y) && (n > 0 ==> Chain(nodes, x, y, n - 1).Some?)
    ensures |Visited(nodes, x, y, n)| == n
    decreases n
  {
    hide Chain;
    if n == 0 {
      assert Visited(nodes, x, y, 0) == {};
    } else {
      var last := Chain(nodes, x, y, n - 1).value;
      if n > 1 {
        ChainStaysOver(nodes, x, y, n - 2, n - 1);
      }
      VisitedGrows(nodes, x, y, n - 1);
      assert Visited(nodes, x, y, n) == Visited(nodes, x, y, n - 1) + {last};
      assert last !in Visited(nodes, x, y, n - 1);
    }
  }

  lemma {:induction false} Below(n: nat) returns (s: set<nat>)
    ensures |s| == n && forall i: nat :: i in s <==> i < n
  {
    if n == 0 {
      s := {};
    } else {
      s := Below(n - 1);
      s := s + {n - 1};
    }
  }

  lemma SmallerSet(s: set<nat>, t: set<nat>)
    requires s <= t
    ensures |s| <= |t|
    decreases s
  {
    if s != {} {
      var i :| i in s;
      SmallerSet(s - {i}, t - {i});
    }
  }

  lemma NoRepeatEnds(nodes: seq<QuadNode>, x: real, y: real)
    requires nodes != [] && NoNodeTwice(nodes, x, y)
    ensures DescentEnds(nodes, x, y)
  {
    hide Chain, NoNodeTwice;
    if Chain(nodes, x, y, |nodes|).Some? {
      VisitedGrows(nodes, x, y, |nodes| + 1);
      var all := Below(|nodes|);
      SmallerSet(Visited(nodes, x, y, |nodes| + 1), all);
    }
  }

  lemma EndedMeetsNoNodeTwice(nodes: seq<QuadNode>, x: real, y: real, n: nat)
    requires nodes != [] && Chain(nodes, x, y, n) == None
    ensures NoNodeTwice(nodes, x, y)
  {
    hide Chain;
    forall a: nat, b: nat | a < b && Chain(nodes, x, y, b).Some?
      ensures Chain(nodes, x, y, a) != Chain(nodes, x, y, b)
    {
      if Chain(nodes, x, y, a) == Chain(nodes, x, y, b) {
        RepeatNeverEnds(nodes, x, y, a, b, n);
      }
    }
  }

  ghost predicate EndsEventually(nodes: seq<QuadNode>, x: real, y: real)
    requires nodes != []
  {
    exists n: nat :: Chain(nodes, x, y, n) == None
  }

  /** The descent reaches a leaf or a miss exactly when it does so within |nodes| turns, and exactly when it meets no node twice. */
  lemma DescentEndsExactly(nodes: seq<QuadNode>, x: real, y: real)
    requires nodes != []
    ensures EndsEventually(nodes, x, y) <==> DescentEnds(nodes, x, y)
    ensures DescentEnds(nodes, x, y) <==> NoNodeTwice(nodes, x, y)
  {
    hide Chain, NoNodeTwice;
    if EndsEventually(nodes, x, y) {
      var n: nat :| Chain(nodes, x, y, n) == None;
      EndedMeetsNoNodeTwice(nodes, x, y, n);
    }
    if DescentEnds(nodes, x, y) {
      EndedMeetsNoNodeTwice(nodes, x, y, |nodes|);
    }
    if NoNodeTwice(nodes, x, y) {
      NoRepeatEnds(nodes, x, y);
    }
  }

  /** `rank` strictly falls from each node to each of its children: there is no cycle anywhere in the array. */
  ghost predicate Acyclic(nodes: seq<QuadNode>, rank: seq<nat>) {
    && |rank| == |nodes|
    && forall i, k | 0 <= i < |nodes| && 0 <= k < |nodes[i].children| ::
         0 <= nodes[i].children[k] < |nodes| ==> rank[nodes[i].children[k]] < rank[i]
  }

  lemma NextRankFalls(nodes: seq<QuadNode>, rank: seq<nat>, i: nat, x: real, y: real)
    requires Acyclic(nodes, rank) && i < |nodes| && NextNode(nodes, i, x, y).Some?
    ensures rank[NextNode(nodes, i, x, y).value] < rank[i]
  {
    var c := NextNode(nodes, i, x, y).value;
    var k :| 0 <= k < |nodes[i].children| && nodes[i].children[k] == c;
  }

  lemma {:induction false} ChainRankFalls(nodes: seq<QuadNode>, rank: seq<nat>, x: real, y: real, a: nat, b: nat)
    requires nodes != [] && Acyclic(nodes, rank) && a < b && Chain(nodes, x, y, b).Some?
    ensures Chain(nodes, x, y, a).Some?
    ensures rank[Chain(nodes, x, y, b).value] < rank[Chain(nodes, x, y, a).value]
    decreases b - a
  {
    hide NextNode, Acyclic;
    assert |rank| == |nodes| by { RankLength(nodes, rank); }
    ChainStaysOver(nodes, x, y, a, b);
    ChainStaysOver(nodes, x, y, b - 1, b);
    NextRankFalls(nodes, rank, Chain(nodes, x, y, b - 1).value, x, y);
    if a < b - 1 {
      ChainRankFalls(nodes, rank, x, y, a, b - 1);
    }
  }

  lemma RankLength(nodes: seq<QuadNode>, rank: seq<nat>)
    requires Acyclic(nodes, rank)
    ensures |rank| == |nodes|
  {}

  /** Without a cycle every descent ends. */
  lemma AcyclicDescentsEnd(nodes: seq<QuadNode>, rank: seq<nat>, x: real, y: real)
    requires nodes != [] && Acyclic(nodes, rank)
    ensures DescentEnds(nodes, x, y)
  {
    hide Chain, Acyclic, DescentEnds;
    assert |rank| == |nodes| by { RankLength(nodes, rank); }
    forall a: nat, b: nat | a < b && Chain(nodes, x, y, b).Some?
      ensures Chain(nodes, x, y, a) != Chain(nodes, x, y, b)
    {
      ChainRankFalls(nodes, rank, x, y, a, b);
    }
    NoRepeatEnds(nodes, x, y);
  }

  /** The leaf that the descent from node `i` reaches in at most `n` turns. */
  function LeafFrom(nodes: seq<QuadNode>, i: nat, x: real, y: real, n: nat): (r: Option<nat>)
    requires i < |nodes|
    ensures r.Some? ==> r.value < |nodes| && !nodes[r.value].HasChildren()
    ensures r.Some? && nodes[i].InBox(x, y) ==> nodes[r.value].InBox(x, y)
    decreases n
  {
    if !nodes[i].HasChildren() then Some(i)
    else if n == 0 then None
    else
      match MatchedChild(nodes, nodes[i].children, x, y, 0)
      case None => None
      case Some(c) => LeafFrom(nodes, c, x, y, n - 1)
  }

  predicate LeafHit(triangles: seq<Triangle>, listed: seq<int>, x: real, y: real) {
    exists t <- listed :: 0 <= t < |triangles| && Contains(triangles[t], x, y)
  }

  predicate Walkable(triangles: seq<Triangle>, nodes: seq<QuadNode>, x: real, y: real) {
    && nodes != [] && nodes[0].InBox(x, y)
    && var leaf := LeafFrom(nodes, 0, x, y, |nodes|);
       leaf.Some? && LeafHit(triangles, nodes[leaf.value].triangles, x, y)
  }

  /** The definition the tree is an index for. */
  ghost predicate SomeTriangleContains(triangles: seq<Triangle>, x: real, y: real) {
    exists t :: 0 <= t < |triangles| && Contains(triangles[t], x, y)
  }

  /** Each point of an inner node's box is in the box of one of its children. */
  ghost predicate ChildrenCover(nodes: seq<QuadNode>) {
    forall i, x, y | 0 <= i < |nodes| && nodes[i].HasChildren() && nodes[i].InBox(x, y) ::
      Covered(nodes, nodes[i].children, x, y)
  }

  predicate Covered(nodes: seq<QuadNode>, children: seq<int>, x: real, y: real) {
    exists k | 0 <= k < |children| :: 0 <= children[k] < |nodes| && nodes[children[k]].InBox(x, y)
  }

  /** Each triangle that reaches into a leaf's box is listed there. */
  ghost predicate LeavesList(triangles: seq<Triangle>, nodes: seq<QuadNode>) {
    forall i, t, x, y | 0 <= i < |nodes| && !nodes[i].HasChildren() && 0 <= t < |triangles| &&
                        nodes[i].InBox(x, y) && Contains(triangles[t], x, y) :: t in nodes[i].triangles
  }

  /** A point reported walkable lies in the root box and in a triangle, whatever the node array. */
  lemma WalkableIsSound(triangles: seq<Triangle>, nodes: seq<QuadNode>, x: real, y: real)
    requires Walkable(triangles, nodes, x, y)
    ensures nodes[0].InBox(x, y) && SomeTriangleContains(triangles, x, y)
  {
    hide Contains;
    var leaf := LeafFrom(nodes, 0, x, y, |nodes|).value;
    var t :| t in nodes[leaf].triangles && 0 <= t < |triangles| && Contains(triangles[t], x, y);
  }

  lemma CoveredTurn(nodes: seq<QuadNode>, i: nat, x: real, y: real)
    requires ChildrenCover(nodes) && i < |nodes| && nodes[i].InBox(x, y) && nodes[i].HasChildren()
    ensures NextNode(nodes, i, x, y).Some? && nodes[NextNode(nodes, i, x, y).value].InBox(x, y)
  {
    assert Covered(nodes, nodes[i].children, x, y);
    var k :| 0 <= k < |nodes[i].children| && 0 <= nodes[i].children[k] < |nodes| && nodes[nodes[i].children[k]].InBox(x, y);
    MatchesSomeChild(nodes, nodes[i].children, x, y, 0, k);
  }

  /** Where children cover, a descent that has got to node `i` after `k` turns and ends, ends in a leaf. */
  lemma {:induction false} CoveredDescentFindsLeaf(nodes: seq<QuadNode>, x: real, y: real, i: nat, k: nat)
    requires nodes != [] && ChildrenCover(nodes) && DescentEnds(nodes, x, y)
    requires k <= |nodes| && i < |nodes| && nodes[i].InBox(x, y) && Chain(nodes, x, y, k) == Some(i)
    ensures LeafFrom(nodes, i, x, y, |nodes| - k).Some?
    decreases |nodes| - k
  {
    hide ChildrenCover, MatchedChild;
    if nodes[i].HasChildren() {
      CoveredTurn(nodes, i, x, y);
      CoveredDescentFindsLeaf(nodes, x, y, NextNode(nodes, i, x, y).value, k + 1);
    }
  }

  /** Over a tree that covers and lists, index and scan of all triangles agree at every point whose descent ends. */
  lemma WalkableAgreesWithScan(triangles: seq<Triangle>, nodes: seq<QuadNode>, x: real, y: real)
    requires nodes != [] && ChildrenCover(nodes) && LeavesList(triangles, nodes) && DescentEnds(nodes, x, y)
    ensures Walkable(triangles, nodes, x, y) <==> nodes[0].InBox(x, y) && SomeTriangleContains(triangles, x, y)
  {
    if Walkable(triangles, nodes, x, y) {
      WalkableIsSound(triangles, nodes, x, y);
    }
    hide Contains, DescentEnds;
    if nodes[0].InBox(x, y) && SomeTriangleContains(triangles, x, y) {
      CoveredDescentFindsLeaf(nodes, x, y, 0, 0);
      var t :| 0 <= t < |triangles| && Contains(triangles[t], x, y);
      assert t in nodes[LeafFrom(nodes, 0, x, y, |nodes|).value].triangles;
    }
  }

  /** Nothing in the loader rules out a root that is its own child: over this one no point of its box has a descent that ends. */
  lemma CycleTrapsDescent(x: real, y: real)
    requires 0.0 <= x <= 1.0 && 0.0 <= y <= 1.0
    ensures !DescentEnds([QuadNode(0.0, 0.0, 1.0, 1.0, [], [0, -1, -1, -1])], x, y)
  {
    var nodes := [QuadNode(0.0, 0.0, 1.0, 1.0, [], [0, -1, -1, -1])];
    assert NextNode(nodes, 0, x, y) == Some(0);
    assert Chain(nodes, x, y, 1) == Chain(nodes, x, y, 0);
  }

  /** A cycle by itself does no harm: node 1 here is its own child, and still every descent ends. */
  lemma CycleOutOfReach(x: real, y: real, rank: seq<nat>)
    ensures var nodes := [QuadNode(0.0, 0.0, 1.0, 1.0, [], [1, -1, -1, -1]), QuadNode(2.0, 2.0, 1.0, 1.0, [], [1, -1, -1, -1])];
            DescentEnds(nodes, x, y) && !Acyclic(nodes, rank)
  {
    var nodes := [QuadNode(0.0, 0.0, 1.0, 1.0, [], [1, -1, -1, -1]), QuadNode(2.0, 2.0, 1.0, 1.0, [], [1, -1, -1, -1])];
    assert nodes[1].children[0] == 1;
    assert !nodes[1].InBox(x, y);
    assert NextNode(nodes, 0, x, y) == None by {
      assert MatchedChild(nodes, nodes[0].children, x, y, 4) == None;
      assert MatchedChild(nodes, nodes[0].children, x, y, 2) == None;
    }
    assert Chain(nodes, x, y, 1) == None;
  }

  class MapGeometryData {
    const triangles: seq<Triangle>
    const nodes: seq<QuadNode>
    const minX: real
    const minY: real
    const maxX: real
    const maxY: real

    constructor (triangles: seq<Triangle>, nodes: seq<QuadNode>)
      ensures this.triangles == triangles && this.nodes == nodes && BoundsAreRoot()
    {
      this.triangles, this.nodes := triangles, nodes;
      if |nodes| > 0 {
        minX, minY, maxX, maxY := nodes[0].minX, nodes[0].minY, nodes[0].maxX, nodes[0].maxY;
      } else {
        minX, minY, maxX, maxY := 0.0, 0.0, 0.0, 0.0;
      }
    }

    predicate BoundsAreRoot() {
      nodes != [] ==> minX == nodes[0].minX && minY == nodes[0].minY && maxX == nodes[0].maxX && maxY == nodes[0].maxY
    }

    /** Asked of a point whose descent ends, or that the root box refuses. */
    method IsWalkable(x: real, y: real) returns (r: bool)
      requires BoundsAreRoot()
      requires nodes != [] && nodes[0].InBox(x, y) ==> DescentEnds(nodes, x, y)
      ensures r == Walkable(triangles, nodes, x, y)
    {
      hide Contains, MatchedChild;
      if |nodes| == 0 {
        return false;
      }
      if x < minX || x > maxX || y < minY || y > maxY {
        return false;
      }
      var i := 0;
      ghost var k := 0;
      while nodes[i].HasChildren()
        invariant 0 <= i < |nodes| && k <= |nodes| && Chain(nodes, x, y, k) == Some(i)
        invariant LeafFrom(nodes, 0, x, y, |nodes|) == LeafFrom(nodes, i, x, y, |nodes| - k)
        decreases |nodes| - k
      {
        var matched := FindChild(nodes[i], x, y);
        if matched < 0 {
          return false;
        }
        i := matched;
        k := k + 1;
      }
      r := ScanLeaf(nodes[i], x, y);
    }

    /** The loop over the four children: -1 when none matches. */
    method FindChild(node: QuadNode, x: real, y: real) returns (matched: int)
      ensures matched == match MatchedChild(nodes, node.children, x, y, 0) case None => -1 case Some(c) => c
    {
      for k := 0 to |node.children|
        invariant MatchedChild(nodes, node.children, x, y, 0) == MatchedChild(nodes, node.children, x, y, k)
      {
        var child := node.children[k];
        if 0 <= child < |nodes| && nodes[child].InBox(x, y) {
          return child;
        }
      }
      matched := -1;
    }

    /** The loop over the leaf's triangle list, skipping indices that are no triangle. */
    method ScanLeaf(leaf: QuadNode, x: real, y: real) returns (hit: bool)
      ensures hit == LeafHit(triangles, leaf.triangles, x, y)
    {
      hide Contains;
      for k := 0 to |leaf.triangles|
        invariant forall j | 0 <= j < k ::
                    !(0 <= leaf.triangles[j] < |triangles| && Contains(triangles[leaf.triangles[j]], x, y))
      {
        var t := leaf.triangles[k];
        if 0 <= t < |triangles| && Contains(triangles[t], x, y) {
          return true;
        }
      }
      hit := false;
    }
  }
}
