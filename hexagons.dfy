/**
 * Axial hexagon coordinates and the canonical ("normalized") names of the
 * corners and edges of hexagons.
 *
 * A corner is shared by three hexagons and so has three tile-relative names;
 * an edge is shared by two hexagons and has two.  Normalization picks one name
 * per physical corner (vertex index 0 or 1) and per physical edge (edge index
 * 0, 1 or 2).  To state what "the same physical corner" means without using
 * normalization itself, positions are measured on an integer pixel lattice:
 * x in units of sqrt(3)/2 times the hexagon radius and y in units of half the
 * radius.  In these units a hexagon centre is exact (Center, the renderer's
 * axial-to-pixel formula) and so is each of its six corners (CornerOffset,
 * corner i at angle 60*i - 30 degrees, as the renderer draws them).
 *
 * The functions carry only cheap structural postconditions; what they mean
 * geometrically is stated by the lemmas next to them.
 */
module Hexagons {

  datatype HexCoord = HexCoord(q: int, r: int)

  /** A corner of `tile`; `vertex` is any integer and is read modulo 6. */
  datatype VertexCoord = VertexCoord(tile: HexCoord, vertex: int)

  /** An edge of `tile`; `edge` is any integer (normalization reads it modulo 6). */
  datatype EdgeCoord = EdgeCoord(tile: HexCoord, edge: int)

  // ---------------------------------------------------------------------------
  // Physical positions (the reference against which normalization is proved)
  // ---------------------------------------------------------------------------

  datatype Point = Point(x: int, y: int)

  function PointAdd(a: Point, b: Point): Point {
    Point(a.x + b.x, a.y + b.y)
  }

  /** Pixel position of a hexagon centre on the integer lattice. */
  function Center(h: HexCoord): Point {
    Point(2 * h.q + h.r, 3 * h.r)
  }

  /** Offset of corner i from its hexagon's centre. */
  function CornerOffset(i: int): Point
    requires 0 <= i < 6
  {
    if i == 0 then Point(1, -1)
    else if i == 1 then Point(1, 1)
    else if i == 2 then Point(0, 2)
    else if i == 3 then Point(-1, 1)
    else if i == 4 then Point(-1, -1)
    else Point(0, -2)
  }

  /** Where a tile-relative corner name lies in the plane. */
  function CornerPoint(v: VertexCoord): Point {
    PointAdd(Center(v.tile), CornerOffset(v.vertex % 6))
  }

  /** Twice the midpoint of an edge: the sum of the positions of its two ends. */
  function EdgeMidpoint2(e: EdgeCoord): Point {
    PointAdd(CornerPoint(VertexCoord(e.tile, e.edge)), CornerPoint(VertexCoord(e.tile, e.edge + 1)))
  }

  /** The positions of the two ends of an edge. */
  function EndPoints(e: EdgeCoord): seq<Point> {
    [CornerPoint(VertexCoord(e.tile, e.edge)), CornerPoint(VertexCoord(e.tile, e.edge + 1))]
  }

  /** Two lattice points exactly one hexagon side length apart. */
  predicate OneSideApart(a: Point, b: Point) {
    var dx, dy := b.x - a.x, b.y - a.y;
    (dx == 0 && (dy == 2 || dy == -2)) || ((dx == 1 || dx == -1) && (dy == 1 || dy == -1))
  }

  predicate IsNormalVertex(v: VertexCoord) {
    v.vertex == 0 || v.vertex == 1
  }

  predicate IsNormalEdge(e: EdgeCoord) {
    0 <= e.edge <= 2
  }

  lemma ModNext(i: int)
    ensures (i + 1) % 6 == if i % 6 == 5 then 0 else i % 6 + 1
  {
  }

  /** Distinct corner indices lie at distinct offsets. */
  lemma CornerOffsetInjective(i: int, j: int)
    requires 0 <= i < 6 && 0 <= j < 6 && CornerOffset(i) == CornerOffset(j)
    ensures i == j
  {
  }

  // ---------------------------------------------------------------------------
  // HexCoord
  // ---------------------------------------------------------------------------

  function Add(a: HexCoord, b: HexCoord): HexCoord {
    HexCoord(a.q + b.q, a.r + b.r)
  }

  /** The fixed offset of the neighbour through each side. */
  function SideOffset(side: int): HexCoord
    requires 0 <= side < 6
  {
    if side == 0 then HexCoord(1, 0)
    else if side == 1 then HexCoord(0, 1)
    else if side == 2 then HexCoord(-1, 1)
    else if side == 3 then HexCoord(-1, 0)
    else if side == 4 then HexCoord(0, -1)
    else HexCoord(1, -1)
  }

  /** The hexagon on the other side of edge `side`. */
  function ThroughSide(h: HexCoord, side: int): HexCoord
    requires 0 <= side < 6
  {
    Add(h, SideOffset(side))
  }

  /** The hexagon through a side is one step away, and that side's midpoint is halfway between the centres. */
  lemma ThroughSideIsNeighbour(h: HexCoord, side: int)
    requires 0 <= side < 6
    ensures HexDistance(h, ThroughSide(h, side)) == 1
    ensures PointAdd(Center(h), Center(ThroughSide(h, side))) == EdgeMidpoint2(EdgeCoord(h, side))
  {
    ModNext(side);
  }

  /** Going through a side and back through the opposite side returns home. */
  lemma OppositeSidesCancel(h: HexCoord, side: int)
    requires 0 <= side < 6
    ensures ThroughSide(ThroughSide(h, side), (side + 3) % 6) == h
  {
  }

  /** The fixed offsets checked in test_hexagons.py. */
  lemma ThroughSideExamples()
    ensures ThroughSide(HexCoord(0, 0), 0) == HexCoord(1, 0)
    ensures ThroughSide(HexCoord(0, 0), 4) == HexCoord(0, -1)
    ensures ThroughSide(HexCoord(1, 0), 3) == HexCoord(0, 0)
  {
    assert SideOffset(0) == HexCoord(1, 0);
    assert SideOffset(4) == HexCoord(0, -1);
    assert SideOffset(3) == HexCoord(-1, 0);
  }

  /** The six hexagons that touch `h`: exactly those at hex distance 1. */
  function Adjacent(h: HexCoord): (ns: seq<HexCoord>)
    ensures |ns| == 6
    ensures forall n :: n in ns <==> HexDistance(h, n) == 1
  {
    var ns := seq(6, i requires 0 <= i < 6 => ThroughSide(h, i));
    assert forall n :: n in ns ==> HexDistance(h, n) == 1 by {
      forall n | n in ns ensures HexDistance(h, n) == 1 {
        var i :| 0 <= i < 6 && ns[i] == n;
        ThroughSideIsNeighbour(h, i);
      }
    }
    assert forall n :: HexDistance(h, n) == 1 ==> n in ns by {
      forall n | HexDistance(h, n) == 1 ensures n in ns {
        var side := DistanceOneIsNeighbour(h, n);
        assert ns[side] == n;
      }
    }
    ns
  }

  /** Every hexagon one step away is reached through some side. */
  lemma DistanceOneIsNeighbour(h: HexCoord, n: HexCoord) returns (side: int)
    requires HexDistance(h, n) == 1
    ensures 0 <= side < 6 && n == ThroughSide(h, side)
  {
    var dq, dr := n.q - h.q, n.r - h.r;
    if dq == 1 && dr == 0 { side := 0; }
    else if dq == 0 && dr == 1 { side := 1; }
    else if dq == -1 && dr == 1 { side := 2; }
    else if dq == -1 && dr == 0 { side := 3; }
    else if dq == 0 && dr == -1 { side := 4; }
    else { side := 5; }
  }

  /** The six corners of `h`, normalized. */
  function HexVertices(h: HexCoord): (vs: seq<VertexCoord>)
    ensures |vs| == 6
    ensures forall i :: 0 <= i < 6 ==> IsNormalVertex(vs[i])
  {
    seq(6, i requires 0 <= i < 6 => VertexNormalize(VertexCoord(h, i)))
  }

  /** Two different corners of one hexagon normalize to different names. */
  lemma DistinctCorners(h: HexCoord, i: int, j: int)
    requires 0 <= i < j < 6
    ensures VertexNormalize(VertexCoord(h, i)) != VertexNormalize(VertexCoord(h, j))
  {
    VertexNormalizeSamePoint(VertexCoord(h, i));
    VertexNormalizeSamePoint(VertexCoord(h, j));
    if VertexNormalize(VertexCoord(h, i)) == VertexNormalize(VertexCoord(h, j)) {
      assert CornerOffset(i % 6) == CornerOffset(j % 6);
      CornerOffsetInjective(i, j);
    }
  }

  /** The i-th of HexVertices is the physical corner i, and the six are distinct. */
  lemma HexVerticesAreTheCorners(h: HexCoord)
    ensures forall i :: 0 <= i < 6 ==> CornerPoint(HexVertices(h)[i]) == CornerPoint(VertexCoord(h, i))
    ensures forall i, j :: 0 <= i < j < 6 ==> HexVertices(h)[i] != HexVertices(h)[j]
  {
    var vs := HexVertices(h);
    forall i | 0 <= i < 6 ensures CornerPoint(vs[i]) == CornerPoint(VertexCoord(h, i)) {
      VertexNormalizeSamePoint(VertexCoord(h, i));
    }
    forall i, j | 0 <= i < j < 6 ensures vs[i] != vs[j] {
      DistinctCorners(h, i, j);
    }
  }

  /** The canonical name of side `side` of `h`, for any integer side. */
  function HexEdge(h: HexCoord, side: int): (e: EdgeCoord)
    ensures IsNormalEdge(e)
  {
    EdgeNormalize(EdgeCoord(h, side))
  }

  // ---------------------------------------------------------------------------
  // VertexCoord
  // ---------------------------------------------------------------------------

  /**
   * Folds the vertex index modulo 6 and rewrites indices 2..5 to the name the
   * corner has on the hexagon that owns it, keeping 0 and 1.
   */
  function VertexNormalize(v: VertexCoord): (n: VertexCoord)
    ensures IsNormalVertex(n)
    ensures v.vertex % 6 <= 1 ==> n == VertexCoord(v.tile, v.vertex % 6)
  {
    var i := v.vertex % 6;
    if i == 2 then VertexCoord(ThroughSide(v.tile, 2), 0)
    else if i == 3 then VertexCoord(ThroughSide(v.tile, 3), 1)
    else if i == 4 then VertexCoord(ThroughSide(v.tile, 3), 0)
    else if i == 5 then VertexCoord(ThroughSide(v.tile, 4), 1)
    else VertexCoord(v.tile, i)
  }

  /** Normalization renames a corner without moving it. */
  lemma VertexNormalizeSamePoint(v: VertexCoord)
    ensures CornerPoint(VertexNormalize(v)) == CornerPoint(v)
  {
  }

  /** Two normalized names at the same position are the same name. */
  lemma NormalVertexUnique(a: VertexCoord, b: VertexCoord)
    requires IsNormalVertex(a) && IsNormalVertex(b)
    requires CornerPoint(a) == CornerPoint(b)
    ensures a == b
  {
  }

  /** Two corner names denote the same physical corner iff they normalize alike. */
  lemma VertexNormalizeCanonical(a: VertexCoord, b: VertexCoord)
    ensures VertexNormalize(a) == VertexNormalize(b) <==> CornerPoint(a) == CornerPoint(b)
  {
    VertexNormalizeSamePoint(a);
    VertexNormalizeSamePoint(b);
    if CornerPoint(a) == CornerPoint(b) {
      NormalVertexUnique(VertexNormalize(a), VertexNormalize(b));
    }
  }

  lemma VertexNormalizeIdempotent(v: VertexCoord)
    ensures VertexNormalize(VertexNormalize(v)) == VertexNormalize(v)
  {
    var n := VertexNormalize(v);
    assert n.vertex % 6 == n.vertex;
  }

  /** The wrap-around case of test_hexagons.py: index 6 wraps to index 0. */
  lemma VertexNormalizeWraps()
    ensures VertexNormalize(VertexCoord(HexCoord(0, 0), 6)).vertex == 0
  {
    assert 6 % 6 == 0;
  }

  /** The three tile-relative names of corners 0 and 1 of `h`. */
  lemma ThreeNamesOfACorner(h: HexCoord)
    ensures VertexNormalize(VertexCoord(ThroughSide(h, 5), 2)) == VertexCoord(h, 0)
    ensures VertexNormalize(VertexCoord(ThroughSide(h, 0), 4)) == VertexCoord(h, 0)
    ensures VertexNormalize(VertexCoord(ThroughSide(h, 0), 3)) == VertexCoord(h, 1)
    ensures VertexNormalize(VertexCoord(ThroughSide(h, 1), 5)) == VertexCoord(h, 1)
  {
    VertexNormalizeCanonical(VertexCoord(ThroughSide(h, 5), 2), VertexCoord(h, 0));
    VertexNormalizeCanonical(VertexCoord(ThroughSide(h, 0), 4), VertexCoord(h, 0));
    VertexNormalizeCanonical(VertexCoord(ThroughSide(h, 0), 3), VertexCoord(h, 1));
    VertexNormalizeCanonical(VertexCoord(ThroughSide(h, 1), 5), VertexCoord(h, 1));
  }

  /** The three edges that meet at a corner. */
  function VertexEdges(v: VertexCoord): (es: seq<EdgeCoord>)
    ensures |es| == 3
    ensures forall i :: 0 <= i < 3 ==> IsNormalEdge(es[i])
  {
    var us := VertexNormalize(v);
    if us.vertex == 0 then
      [HexEdge(us.tile, 0), HexEdge(us.tile, 5), HexEdge(ThroughSide(us.tile, 0), 4)]
    else
      [HexEdge(us.tile, 0), HexEdge(us.tile, 1), HexEdge(ThroughSide(us.tile, 0), 2)]
  }

  /** The three edges of a corner, written out. */
  lemma VertexEdgesValues(v: VertexCoord)
    ensures var us := VertexNormalize(v); var t := us.tile;
      VertexEdges(v) == if us.vertex == 0
        then [EdgeCoord(t, 0), EdgeCoord(HexCoord(t.q + 1, t.r - 1), 2), EdgeCoord(HexCoord(t.q + 1, t.r - 1), 1)]
        else [EdgeCoord(t, 0), EdgeCoord(t, 1), EdgeCoord(HexCoord(t.q + 1, t.r), 2)]
  {
    var us := VertexNormalize(v);
    var t := us.tile;
    assert HexEdge(t, 0) == EdgeCoord(t, 0);
    if us.vertex == 0 {
      assert HexEdge(t, 5) == SwapSide(EdgeCoord(t, 5));
      assert HexEdge(ThroughSide(t, 0), 4) == SwapSide(EdgeCoord(ThroughSide(t, 0), 4));
    } else {
      assert HexEdge(t, 1) == EdgeCoord(t, 1);
      assert HexEdge(ThroughSide(t, 0), 2) == EdgeCoord(ThroughSide(t, 0), 2);
    }
  }

  /** The two ends of a normalized edge, written out. */
  lemma NormalEdgeEnds(e: EdgeCoord)
    requires IsNormalEdge(e)
    ensures var t := e.tile;
      EdgeVertices(e) == if e.edge == 0 then [VertexCoord(t, 0), VertexCoord(t, 1)]
        else if e.edge == 1 then [VertexCoord(t, 1), VertexCoord(HexCoord(t.q - 1, t.r + 1), 0)]
        else [VertexCoord(HexCoord(t.q - 1, t.r + 1), 0), VertexCoord(HexCoord(t.q - 1, t.r), 1)]
  {
  }

  /** Each of the three edges of a corner ends at that corner, and they are distinct. */
  lemma VertexEdgesEndAtCorner(v: VertexCoord)
    ensures forall i :: 0 <= i < 3 ==> VertexNormalize(v) in EdgeVertices(VertexEdges(v)[i])
    ensures VertexEdges(v)[0] != VertexEdges(v)[1] && VertexEdges(v)[0] != VertexEdges(v)[2]
    ensures VertexEdges(v)[1] != VertexEdges(v)[2]
  {
    var es := VertexEdges(v);
    VertexEdgesValues(v);
    NormalEdgeEnds(es[0]);
    NormalEdgeEnds(es[1]);
    NormalEdgeEnds(es[2]);
  }

  /** The three edges of VertexEdges are all the canonical edges ending at the corner. */
  lemma VertexEdgesComplete(v: VertexCoord, e: EdgeCoord)
    requires IsNormalEdge(e)
    ensures e in VertexEdges(v) <==> VertexNormalize(v) in EdgeVertices(e)
  {
    VertexEdgesEndAtCorner(v);
    VertexEdgesValues(v);
    NormalEdgeEnds(e);
  }

  // ---------------------------------------------------------------------------
  // EdgeCoord
  // ---------------------------------------------------------------------------

  /** The two ends of an edge, each normalized. */
  function EdgeVertices(e: EdgeCoord): (vs: seq<VertexCoord>)
    ensures |vs| == 2 && IsNormalVertex(vs[0]) && IsNormalVertex(vs[1])
  {
    [VertexNormalize(VertexCoord(e.tile, e.edge)), VertexNormalize(VertexCoord(e.tile, e.edge + 1))]
  }

  /** The ends are the corners `edge` and `edge + 1` of the tile, one side length apart. */
  lemma EdgeVerticesAreTheEnds(e: EdgeCoord)
    ensures CornerPoint(EdgeVertices(e)[0]) == CornerPoint(VertexCoord(e.tile, e.edge))
    ensures CornerPoint(EdgeVertices(e)[1]) == CornerPoint(VertexCoord(e.tile, e.edge + 1))
    ensures OneSideApart(CornerPoint(EdgeVertices(e)[0]), CornerPoint(EdgeVertices(e)[1]))
  {
    VertexNormalizeSamePoint(VertexCoord(e.tile, e.edge));
    VertexNormalizeSamePoint(VertexCoord(e.tile, e.edge + 1));
    ModNext(e.edge);
  }

  /** The same physical edge, named from the hexagon on its other side. */
  function SwapSide(e: EdgeCoord): (s: EdgeCoord)
    requires 0 <= e.edge < 6
    ensures 0 <= s.edge < 6
  {
    var opposite := (e.edge + 3) % 6;
    EdgeCoord(ThroughSide(e.tile, e.edge), opposite)
  }

  /** SwapSide names the same physical edge from another tile. */
  lemma SwapSideSameMidpoint(e: EdgeCoord)
    requires 0 <= e.edge < 6
    ensures SwapSide(e).tile != e.tile
    ensures EdgeMidpoint2(SwapSide(e)) == EdgeMidpoint2(e)
  {
    var s := SwapSide(e);
    ModNext(e.edge);
    ModNext(s.edge);
  }

  /**
   * Folds the edge index modulo 6; indices 0..2 are kept, 3..5 are renamed
   * from the neighbouring hexagon's side.
   */
  function EdgeNormalize(e: EdgeCoord): (n: EdgeCoord)
    ensures IsNormalEdge(n)
    ensures e.edge % 6 <= 2 ==> n == EdgeCoord(e.tile, e.edge % 6)
  {
    var edge := e.edge % 6;
    if edge <= 2 then EdgeCoord(e.tile, edge)
    else SwapSide(EdgeCoord(e.tile, edge))
  }

  /** Normalization renames an edge without moving it. */
  lemma EdgeNormalizeSameMidpoint(e: EdgeCoord)
    ensures EdgeMidpoint2(EdgeNormalize(e)) == EdgeMidpoint2(e)
  {
    var k := e.edge % 6;
    ModNext(e.edge);
    ModNext(k);
    assert EdgeMidpoint2(EdgeCoord(e.tile, k)) == EdgeMidpoint2(e);
    if k > 2 {
      SwapSideSameMidpoint(EdgeCoord(e.tile, k));
    }
  }

  /** Two normalized edge names with the same midpoint are the same name. */
  lemma NormalEdgeUnique(a: EdgeCoord, b: EdgeCoord)
    requires IsNormalEdge(a) && IsNormalEdge(b)
    requires EdgeMidpoint2(a) == EdgeMidpoint2(b)
    ensures a == b
  {
    MidpointOfNormalEdge(a);
    MidpointOfNormalEdge(b);
  }

  /** Twice the midpoint of each normalized edge, written out. */
  lemma MidpointOfNormalEdge(e: EdgeCoord)
    requires IsNormalEdge(e)
    ensures var c := Center(e.tile);
      EdgeMidpoint2(e) == if e.edge == 0 then Point(2 * c.x + 2, 2 * c.y)
        else if e.edge == 1 then Point(2 * c.x + 1, 2 * c.y + 3)
        else Point(2 * c.x - 1, 2 * c.y + 3)
  {
  }

  /** Two edge names denote the same physical edge iff they normalize alike. */
  lemma EdgeNormalizeCanonical(a: EdgeCoord, b: EdgeCoord)
    ensures EdgeNormalize(a) == EdgeNormalize(b) <==> EdgeMidpoint2(a) == EdgeMidpoint2(b)
  {
    EdgeNormalizeSameMidpoint(a);
    EdgeNormalizeSameMidpoint(b);
    if EdgeMidpoint2(a) == EdgeMidpoint2(b) {
      NormalEdgeUnique(EdgeNormalize(a), EdgeNormalize(b));
    }
  }

  lemma EdgeNormalizeIdempotent(e: EdgeCoord)
    ensures EdgeNormalize(EdgeNormalize(e)) == EdgeNormalize(e)
  {
    var n := EdgeNormalize(e);
    assert n.edge % 6 == n.edge;
  }

  /** The normalization cases of test_hexagons.py. */
  lemma EdgeNormalizeExamples()
    ensures EdgeNormalize(EdgeCoord(HexCoord(0, 0), 4)) == EdgeCoord(HexCoord(0, -1), 1)
    ensures EdgeNormalize(EdgeCoord(HexCoord(100, 100), 0)) == EdgeCoord(HexCoord(100, 100), 0)
    ensures EdgeNormalize(EdgeCoord(HexCoord(100, 100), 1)) == EdgeCoord(HexCoord(100, 100), 1)
    ensures EdgeNormalize(EdgeCoord(HexCoord(100, 100), 13)).edge == 1
  {
    assert 4 % 6 == 4 && (4 + 3) % 6 == 1;
    assert SideOffset(4) == HexCoord(0, -1);
    assert 13 % 6 == 1;
  }

  /** Swapping sides twice is the identity. */
  lemma SwapSideInvolution(e: EdgeCoord)
    requires 0 <= e.edge < 6
    ensures SwapSide(SwapSide(e)) == e
  {
    OppositeSidesCancel(e.tile, e.edge);
    assert ((e.edge + 3) % 6 + 3) % 6 == e.edge;
  }

  /** Both views of an edge normalize to the same canonical name. */
  lemma SwapSideSameEdge(e: EdgeCoord)
    requires 0 <= e.edge < 6
    ensures EdgeNormalize(SwapSide(e)) == EdgeNormalize(e)
  {
    SwapSideSameMidpoint(e);
    EdgeNormalizeCanonical(SwapSide(e), e);
  }

  /** Seen from the other tile, the edge's first end is its second corner ... */
  lemma SwapSideFirstEnd(e: EdgeCoord)
    requires 0 <= e.edge < 6
    ensures CornerPoint(VertexCoord(e.tile, e.edge)) == CornerPoint(VertexCoord(SwapSide(e).tile, SwapSide(e).edge + 1))
  {
    var k := e.edge;
    if k == 0 {
      assert SwapSide(e).edge == 3;
    } else if k == 1 {
      assert SwapSide(e).edge == 4;
    } else if k == 2 {
      assert SwapSide(e).edge == 5;
    } else if k == 3 {
      assert SwapSide(e).edge == 0;
    } else if k == 4 {
      assert SwapSide(e).edge == 1;
    } else {
      assert SwapSide(e).edge == 2;
    }
  }

  /** ... and the edge's second end is its first corner. */
  lemma SwapSideSecondEnd(e: EdgeCoord)
    requires 0 <= e.edge < 6
    ensures CornerPoint(VertexCoord(e.tile, e.edge + 1)) == CornerPoint(VertexCoord(SwapSide(e).tile, SwapSide(e).edge))
  {
    var k := e.edge;
    if k == 0 {
      assert SwapSide(e).edge == 3;
    } else if k == 1 {
      assert SwapSide(e).edge == 4;
    } else if k == 2 {
      assert SwapSide(e).edge == 5;
    } else if k == 3 {
      assert SwapSide(e).edge == 0;
    } else if k == 4 {
      assert SwapSide(e).edge == 1;
    } else {
      assert SwapSide(e).edge == 2;
    }
  }

  /** Both views of an edge list the same two ends, in opposite order. */
  lemma SwapSideSameEnds(e: EdgeCoord)
    requires 0 <= e.edge < 6
    ensures EdgeVertices(SwapSide(e)) == [EdgeVertices(e)[1], EdgeVertices(e)[0]]
  {
    var s := SwapSide(e);
    var k, t := e.edge, e.tile;
    SwapSideFirstEnd(e);
    SwapSideSecondEnd(e);
    VertexNormalizeCanonical(VertexCoord(t, k), VertexCoord(s.tile, s.edge + 1));
    VertexNormalizeCanonical(VertexCoord(t, k + 1), VertexCoord(s.tile, s.edge));
  }

  /** The two hexagons an edge lies between. */
  function BetweenHexes(e: EdgeCoord): (hs: seq<HexCoord>)
    requires 0 <= e.edge < 6
    ensures |hs| == 2 && hs[0] == e.tile
  {
    [e.tile, SwapSide(e).tile]
  }

  /** The two hexagons are neighbours, and the edge's midpoint is halfway between their centres. */
  lemma BetweenHexesFlankTheEdge(e: EdgeCoord)
    requires 0 <= e.edge < 6
    ensures HexDistance(BetweenHexes(e)[0], BetweenHexes(e)[1]) == 1
    ensures PointAdd(Center(BetweenHexes(e)[0]), Center(BetweenHexes(e)[1])) == EdgeMidpoint2(e)
  {
    ThroughSideIsNeighbour(e.tile, e.edge);
  }

  // ---------------------------------------------------------------------------
  // Distance
  // ---------------------------------------------------------------------------

  function Abs(x: int): nat {
    if x < 0 then -x else x
  }

  /**
   * Number of steps between two hexagons.  The source halves with a float
   * division and truncates; the sum is always even, so the halving is exact.
   */
  function HexDistance(a: HexCoord, b: HexCoord): (d: nat)
    ensures 2 * d == Abs(a.q - b.q) + Abs(a.q + a.r - b.q - b.r) + Abs(a.r - b.r)
    ensures d == 0 <==> a == b
  {
    (Abs(a.q - b.q) + Abs(a.q + a.r - b.q - b.r) + Abs(a.r - b.r)) / 2
  }

  lemma HexDistanceSymmetric(a: HexCoord, b: HexCoord)
    ensures HexDistance(a, b) == HexDistance(b, a)
  {
  }
}
