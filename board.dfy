/**
 * The board: the land tiles, and the settlements and roads built on their
 * corners and edges, keyed by canonical coordinates, with the legality rules
 * for building.
 */
module CatanBoard {
  import opened Wrappers
  import opened CatanResources
  import opened Hexagons

  datatype TileType = Stone | Mud | Wood | Wheat | Sheep | Desert

  /** The resource a tile type produces; the desert produces none. */
  function TileResource(t: TileType): (r: Option<Resource>)
    ensures r.None? <==> t == TileType.Desert
  {
    match t
    case Mud => Some(Resource.Mud)
    case Stone => Some(Resource.Stone)
    case Wheat => Some(Resource.Wheat)
    case Wood => Some(Resource.Wood)
    case Sheep => Some(Resource.Sheep)
    case Desert => None
  }

  /** Different producing tile types produce different resources. */
  lemma TileResourceInjective(a: TileType, b: TileType)
    requires TileResource(a).Some? && TileResource(a) == TileResource(b)
    ensures a == b
  {
  }

  datatype Tile = Tile(coords: HexCoord, kind: TileType, number: int)

  datatype Settlement = Settlement(owner: int, coords: VertexCoord, isCity: bool)

  datatype Road = Road(owner: int, coords: EdgeCoord)

  /** The corners at the far end of each edge that meets corner `v`. */
  function NearbyVertices(v: VertexCoord): set<VertexCoord> {
    set e, w | e in VertexEdges(v) && w in EdgeVertices(e) && w != v :: w
  }

  /** Two edges have an end at the same position. */
  predicate EndsMeet(a: EdgeCoord, b: EdgeCoord) {
    exists p :: p in EndPoints(a) && p in EndPoints(b)
  }

  /** A road of the settlement's owner lies on one of the corner's edges. */
  predicate OwnRoadAt(R: map<EdgeCoord, Road>, s: Settlement) {
    exists e :: e in VertexEdges(s.coords) && e in R && R[e].owner == s.owner
  }

  /** A road of another player lies on one of the corner's edges. */
  predicate EnemyRoadAt(R: map<EdgeCoord, Road>, s: Settlement) {
    exists e :: e in VertexEdges(s.coords) && e in R && R[e].owner != s.owner
  }

  /** Some settlement stands at the far end of one of the corner's edges. */
  predicate SettlementNearby(S: map<VertexCoord, Settlement>, v: VertexCoord) {
    exists w :: w in NearbyVertices(v) && w in S
  }

  /** Whether `s` may be built among settlements `S` and roads `R`; free placement waives only the own-road requirement. */
  predicate SettlementAllowed(S: map<VertexCoord, Settlement>, R: map<EdgeCoord, Road>, s: Settlement, free: bool) {
    s.coords !in S
    && (free || OwnRoadAt(R, s))
    && !EnemyRoadAt(R, s)
    && !SettlementNearby(S, s.coords)
  }

  class Board {
    var tiles: map<HexCoord, Tile>
    var settlements: map<VertexCoord, Settlement>
    var roads: map<EdgeCoord, Road>

    /** Every key is the canonical coordinate its record carries. */
    predicate Valid()
      reads this
    {
      (forall h :: h in tiles ==> tiles[h].coords == h)
      && (forall v :: v in settlements ==> IsNormalVertex(v) && settlements[v].coords == v)
      && (forall e :: e in roads ==> IsNormalEdge(e) && roads[e].coords == e)
    }

    constructor ()
      ensures Valid()
      ensures tiles == map[] && settlements == map[] && roads == map[]
    {
      tiles, settlements, roads := map[], map[], map[];
    }

    predicate IsLand(h: HexCoord)
      reads this
    {
      h in tiles
    }

    /** The settlement rule, on this board's settlements and roads. */
    predicate CanBuildSettlement(s: Settlement, free: bool)
      reads this
    {
      SettlementAllowed(settlements, roads, s, free)
    }

    /** Places the settlement if that is legal; `ok == false` is the raised IllegalMoveError. */
    method AddSettlement(s: Settlement, free: bool) returns (ok: bool)
      requires Valid() && IsNormalVertex(s.coords)
      modifies this
      ensures Valid()
      ensures ok == old(CanBuildSettlement(s, free))
      ensures settlements == if ok then old(settlements)[s.coords := s] else old(settlements)
      ensures tiles == old(tiles) && roads == old(roads)
    {
      ok := CanBuildSettlement(s, free);
      if ok {
        settlements := settlements[s.coords := s];
      }
    }

    /** The roads having `v` as one of their ends. */
    function RoadsTouchingVertex(v: VertexCoord): set<Road>
      reads this
    {
      set t | t in roads.Values && v in EdgeVertices(t.coords)
    }

    /** A road of the same owner shares an end with the new road. */
    predicate TouchesOwnRoad(rd: Road)
      reads this
    {
      exists v, t :: v in EdgeVertices(rd.coords) && t in RoadsTouchingVertex(v) && t.owner == rd.owner
    }

    /** At least one of the two hexagons beside the edge is land. */
    predicate HasLandBeside(e: EdgeCoord)
      requires 0 <= e.edge < 6
      reads this
    {
      exists h :: h in BetweenHexes(e) && IsLand(h)
    }

    /** A settlement of another player stands at one of the road's ends. */
    predicate TouchesEnemySettlement(rd: Road)
      reads this
    {
      exists v :: v in EdgeVertices(rd.coords) && v in settlements && settlements[v].owner != rd.owner
    }

    /** Free placement waives only the requirement to touch an own road. */
    predicate CanBuildRoad(rd: Road, free: bool)
      requires 0 <= rd.coords.edge < 6
      reads this
    {
      rd.coords !in roads
      && (free || TouchesOwnRoad(rd))
      && HasLandBeside(rd.coords)
      && !TouchesEnemySettlement(rd)
    }

    /** Places the road if that is legal; `ok == false` is the raised IllegalMoveError. */
    method AddRoad(rd: Road, free: bool) returns (ok: bool)
      requires Valid() && IsNormalEdge(rd.coords)
      modifies this
      ensures Valid()
      ensures ok == old(CanBuildRoad(rd, free))
      ensures roads == if ok then old(roads)[rd.coords := rd] else old(roads)
      ensures tiles == old(tiles) && settlements == old(settlements)
    {
      ok := CanBuildRoad(rd, free);
      if ok {
        roads := roads[rd.coords := rd];
      }
    }
  }

  // ---------------------------------------------------------------------------
  // The building rules, stated by positions in the plane
  // ---------------------------------------------------------------------------

  /** A canonical corner name is among an edge's ends iff the corner lies at one of them. */
  lemma CornerIsAnEnd(v: VertexCoord, e: EdgeCoord)
    requires IsNormalVertex(v)
    ensures v in EdgeVertices(e) <==> CornerPoint(v) in EndPoints(e)
  {
    assert VertexNormalize(v) == v by {
      assert v.vertex % 6 == v.vertex;
    }
    VertexNormalizeCanonical(v, VertexCoord(e.tile, e.edge));
    VertexNormalizeCanonical(v, VertexCoord(e.tile, e.edge + 1));
  }

  /** Two edges meet iff one of the second edge's canonical ends is an end of the first. */
  lemma EndsMeetIff(a: EdgeCoord, b: EdgeCoord)
    ensures EndsMeet(a, b) <==> EdgeVertices(b)[0] in EdgeVertices(a) || EdgeVertices(b)[1] in EdgeVertices(a)
  {
    EdgeVerticesAreTheEnds(b);
    CornerIsAnEnd(EdgeVertices(b)[0], a);
    CornerIsAnEnd(EdgeVertices(b)[1], a);
  }

  /** A canonical edge is one of a canonical corner's edges iff the corner lies at one of its ends. */
  lemma IncidentEdge(v: VertexCoord, e: EdgeCoord)
    requires IsNormalVertex(v) && IsNormalEdge(e)
    ensures e in VertexEdges(v) <==> CornerPoint(v) in EndPoints(e)
  {
    assert VertexNormalize(v) == v by {
      assert v.vertex % 6 == v.vertex;
    }
    VertexEdgesComplete(v, e);
    CornerIsAnEnd(v, e);
  }

  /** The three corners one side length from a canonical corner, written out. */
  function NeighbourCorners(v: VertexCoord): set<VertexCoord>
    requires IsNormalVertex(v)
  {
    var t := v.tile;
    if v.vertex == 0
    then {VertexCoord(t, 1), VertexCoord(HexCoord(t.q, t.r - 1), 1), VertexCoord(HexCoord(t.q + 1, t.r - 1), 1)}
    else {VertexCoord(t, 0), VertexCoord(HexCoord(t.q - 1, t.r + 1), 0), VertexCoord(HexCoord(t.q, t.r + 1), 0)}
  }

  lemma NearbyVerticesValues(v: VertexCoord)
    requires IsNormalVertex(v)
    ensures NearbyVertices(v) == NeighbourCorners(v)
  {
    assert VertexNormalize(v) == v by {
      assert v.vertex % 6 == v.vertex;
    }
    VertexEdgesValues(v);
    var es := VertexEdges(v);
    NormalEdgeEnds(es[0]);
    NormalEdgeEnds(es[1]);
    NormalEdgeEnds(es[2]);
    var ends := EdgeVertices(es[0]) + EdgeVertices(es[1]) + EdgeVertices(es[2]);
    NearbyFromEnds(v, ends);
    if v.vertex == 0 {
      NeighboursOfCornerZero(v, ends);
    } else {
      NeighboursOfCornerOne(v, ends);
    }
  }

  /** The nearby corners are the ends of the corner's edges other than itself. */
  lemma NearbyFromEnds(v: VertexCoord, ends: seq<VertexCoord>)
    requires var es := VertexEdges(v); ends == EdgeVertices(es[0]) + EdgeVertices(es[1]) + EdgeVertices(es[2])
    ensures forall w :: w in NearbyVertices(v) <==> w in ends && w != v
  {
    var es := VertexEdges(v);
    forall w | w in ends && w != v ensures w in NearbyVertices(v) {
      var k := if w in EdgeVertices(es[0]) then 0 else if w in EdgeVertices(es[1]) then 1 else 2;
      assert es[k] in es && w in EdgeVertices(es[k]);
    }
  }

  lemma NeighboursOfCornerZero(v: VertexCoord, ends: seq<VertexCoord>)
    requires v.vertex == 0
    requires var t := v.tile;
      ends == [v, VertexCoord(t, 1), v, VertexCoord(HexCoord(t.q, t.r - 1), 1), VertexCoord(HexCoord(t.q + 1, t.r - 1), 1), v]
    requires forall w :: w in NearbyVertices(v) <==> w in ends && w != v
    ensures NearbyVertices(v) == NeighbourCorners(v)
  {
    var t := v.tile;
    var a, b, c := VertexCoord(t, 1), VertexCoord(HexCoord(t.q, t.r - 1), 1), VertexCoord(HexCoord(t.q + 1, t.r - 1), 1);
    assert forall w :: w in ends && w != v <==> w == a || w == b || w == c;
    assert NeighbourCorners(v) == {a, b, c};
  }

  lemma NeighboursOfCornerOne(v: VertexCoord, ends: seq<VertexCoord>)
    requires v.vertex == 1
    requires var t := v.tile;
      ends == [VertexCoord(t, 0), v, v, VertexCoord(HexCoord(t.q - 1, t.r + 1), 0), VertexCoord(HexCoord(t.q, t.r + 1), 0), v]
    requires forall w :: w in NearbyVertices(v) <==> w in ends && w != v
    ensures NearbyVertices(v) == NeighbourCorners(v)
  {
    var t := v.tile;
    var a, b, c := VertexCoord(t, 0), VertexCoord(HexCoord(t.q - 1, t.r + 1), 0), VertexCoord(HexCoord(t.q, t.r + 1), 0);
    assert forall w :: w in ends && w != v <==> w == a || w == b || w == c;
    assert NeighbourCorners(v) == {a, b, c};
  }

  /** The position of a canonical corner, written out. */
  lemma NormalCornerPoint(v: VertexCoord)
    requires IsNormalVertex(v)
    ensures var t := v.tile;
      CornerPoint(v) == Point(2 * t.q + t.r + 1, if v.vertex == 0 then 3 * t.r - 1 else 3 * t.r + 1)
  {
    assert v.vertex % 6 == v.vertex;
  }

  /**
   * Lattice arithmetic: the canonical corners one side length from corner 0
   * of tile `t`, given as a tile `u` and a vertex index k.
   */
  lemma OneSideFromCornerZero(t: HexCoord, u: HexCoord, k: int)
    requires k == 0 || k == 1
    requires OneSideApart(Point(2 * t.q + t.r + 1, 3 * t.r - 1),
                          Point(2 * u.q + u.r + 1, if k == 0 then 3 * u.r - 1 else 3 * u.r + 1))
    ensures k == 1 && (u == t || u == HexCoord(t.q, t.r - 1) || u == HexCoord(t.q + 1, t.r - 1))
  {
  }

  /** The same for corner 1 of tile `t`. */
  lemma OneSideFromCornerOne(t: HexCoord, u: HexCoord, k: int)
    requires k == 0 || k == 1
    requires OneSideApart(Point(2 * t.q + t.r + 1, 3 * t.r + 1),
                          Point(2 * u.q + u.r + 1, if k == 0 then 3 * u.r - 1 else 3 * u.r + 1))
    ensures k == 0 && (u == t || u == HexCoord(t.q - 1, t.r + 1) || u == HexCoord(t.q, t.r + 1))
  {
  }

  /** Each listed neighbour is a canonical corner one side length away. */
  lemma NeighbourIsOneSideAway(v: VertexCoord, w: VertexCoord)
    requires IsNormalVertex(v) && w in NeighbourCorners(v)
    ensures IsNormalVertex(w) && OneSideApart(CornerPoint(v), CornerPoint(w))
  {
    NormalCornerPoint(v);
    NormalCornerPoint(w);
  }

  /** Each canonical corner one side length away is a listed neighbour. */
  lemma OneSideAwayIsNeighbour(v: VertexCoord, w: VertexCoord)
    requires IsNormalVertex(v) && IsNormalVertex(w)
    requires OneSideApart(CornerPoint(v), CornerPoint(w))
    ensures w in NeighbourCorners(v)
  {
    NormalCornerPoint(v);
    NormalCornerPoint(w);
    if v.vertex == 0 {
      OneSideFromCornerZero(v.tile, w.tile, w.vertex);
    } else {
      OneSideFromCornerOne(v.tile, w.tile, w.vertex);
    }
  }

  /** The nearby corners are exactly the corners one side length away. */
  lemma NearbyVerticesAreOneSideAway(v: VertexCoord, w: VertexCoord)
    requires IsNormalVertex(v)
    ensures w in NearbyVertices(v) <==> IsNormalVertex(w) && OneSideApart(CornerPoint(v), CornerPoint(w))
  {
    NearbyVerticesValues(v);
    if w in NeighbourCorners(v) {
      NeighbourIsOneSideAway(v, w);
    }
    if IsNormalVertex(w) && OneSideApart(CornerPoint(v), CornerPoint(w)) {
      OneSideAwayIsNeighbour(v, w);
    }
  }

  lemma OwnRoadRule(b: Board, s: Settlement)
    requires b.Valid() && IsNormalVertex(s.coords)
    ensures OwnRoadAt(b.roads, s) <==>
      exists e :: e in b.roads && b.roads[e].owner == s.owner && CornerPoint(s.coords) in EndPoints(e)
  {
    forall e | e in b.roads {
      IncidentEdge(s.coords, e);
    }
  }

  lemma EnemyRoadRule(b: Board, s: Settlement)
    requires b.Valid() && IsNormalVertex(s.coords)
    ensures EnemyRoadAt(b.roads, s) <==>
      exists e :: e in b.roads && b.roads[e].owner != s.owner && CornerPoint(s.coords) in EndPoints(e)
  {
    forall e | e in b.roads {
      IncidentEdge(s.coords, e);
    }
  }

  lemma DistanceRule(b: Board, v: VertexCoord)
    requires b.Valid() && IsNormalVertex(v)
    ensures SettlementNearby(b.settlements, v) <==>
      exists w :: w in b.settlements && OneSideApart(CornerPoint(v), CornerPoint(w))
  {
    forall w | w in b.settlements {
      NearbyVerticesAreOneSideAway(v, w);
    }
  }

  /**
   * A settlement may be built on a free corner iff no settlement stands one
   * side length away, every road ending at the corner is the builder's, and
   * (unless placement is free) at least one such road exists.
   */
  lemma BuildSettlementRule(b: Board, s: Settlement, free: bool)
    requires b.Valid() && IsNormalVertex(s.coords)
    ensures b.CanBuildSettlement(s, free) <==>
      s.coords !in b.settlements
      && (free || exists e :: e in b.roads && b.roads[e].owner == s.owner && CornerPoint(s.coords) in EndPoints(e))
      && (forall e :: e in b.roads && CornerPoint(s.coords) in EndPoints(e) ==> b.roads[e].owner == s.owner)
      && (forall w :: w in b.settlements ==> !OneSideApart(CornerPoint(s.coords), CornerPoint(w)))
  {
    OwnRoadRule(b, s);
    EnemyRoadRule(b, s);
    DistanceRule(b, s.coords);
  }

  lemma OwnRoadTouchRule(b: Board, rd: Road)
    requires b.Valid()
    ensures b.TouchesOwnRoad(rd) <==>
      exists e :: e in b.roads && b.roads[e].owner == rd.owner && EndsMeet(e, rd.coords)
  {
    var ends := EdgeVertices(rd.coords);
    forall e | e in b.roads {
      EndsMeetIff(e, rd.coords);
    }
    if b.TouchesOwnRoad(rd) {
      var v, t :| v in ends && t in b.RoadsTouchingVertex(v) && t.owner == rd.owner;
      var e :| e in b.roads && b.roads[e] == t;
      assert EndsMeet(e, rd.coords);
    }
    if exists e :: e in b.roads && b.roads[e].owner == rd.owner && EndsMeet(e, rd.coords) {
      var e :| e in b.roads && b.roads[e].owner == rd.owner && EndsMeet(e, rd.coords);
      var v := if ends[0] in EdgeVertices(e) then ends[0] else ends[1];
      assert b.roads[e] in b.RoadsTouchingVertex(v);
    }
  }

  lemma EnemySettlementRule(b: Board, rd: Road)
    requires b.Valid()
    ensures b.TouchesEnemySettlement(rd) <==>
      exists w :: w in b.settlements && b.settlements[w].owner != rd.owner && CornerPoint(w) in EndPoints(rd.coords)
  {
    forall w | w in b.settlements {
      CornerIsAnEnd(w, rd.coords);
    }
  }

  /**
   * A road may be built on a free edge iff a land tile lies on one side of it,
   * no other player's settlement stands at either end, and (unless placement
   * is free) one of the builder's roads has an end at one of its ends.
   */
  lemma BuildRoadRule(b: Board, rd: Road, free: bool)
    requires b.Valid() && 0 <= rd.coords.edge < 6
    ensures b.CanBuildRoad(rd, free) <==>
      rd.coords !in b.roads
      && (free || exists e :: e in b.roads && b.roads[e].owner == rd.owner && EndsMeet(e, rd.coords))
      && (rd.coords.tile in b.tiles || ThroughSide(rd.coords.tile, rd.coords.edge) in b.tiles)
      && (forall w :: w in b.settlements && CornerPoint(w) in EndPoints(rd.coords) ==> b.settlements[w].owner == rd.owner)
  {
    OwnRoadTouchRule(b, rd);
    EnemySettlementRule(b, rd);
    var hs := BetweenHexes(rd.coords);
    assert hs == [rd.coords.tile, ThroughSide(rd.coords.tile, rd.coords.edge)];
    if hs[0] in b.tiles {
      assert hs[0] in hs && b.IsLand(hs[0]);
    }
    if hs[1] in b.tiles {
      assert hs[1] in hs && b.IsLand(hs[1]);
    }
  }
}
