/** Read-only queries an agent makes about the board. */
module AgentUtils {
  import opened Hexagons
  import opened CatanBoard

  /** The canonical corners of all land tiles. */
  function AllVertices(b: Board): (vs: set<VertexCoord>)
    reads b
    ensures forall v :: v in vs ==> IsNormalVertex(v)
  {
    set h, v | h in b.tiles && v in HexVertices(h) :: v
  }

  /** Every listed vertex is the canonical name of a corner of a land tile. */
  lemma ListedVertexIsLandCorner(b: Board, v: VertexCoord)
    requires v in AllVertices(b)
    ensures IsNormalVertex(v)
    ensures exists h, i :: h in b.tiles && 0 <= i < 6 && CornerPoint(v) == CornerPoint(VertexCoord(h, i))
  {
    var h :| h in b.tiles && v in HexVertices(h);
    var i :| 0 <= i < 6 && HexVertices(h)[i] == v;
    HexVerticesAreTheCorners(h);
    assert CornerPoint(v) == CornerPoint(VertexCoord(h, i));
  }

  /** The canonical name of each corner of each land tile is listed. */
  lemma LandCornerIsListed(b: Board, v: VertexCoord, h: HexCoord, i: int)
    requires IsNormalVertex(v) && h in b.tiles && 0 <= i < 6
    requires CornerPoint(v) == CornerPoint(VertexCoord(h, i))
    ensures v in AllVertices(b)
  {
    var vs := HexVertices(h);
    HexVerticesAreTheCorners(h);
    NormalVertexUnique(v, vs[i]);
    assert v in vs;
  }

  /** AllVertices holds exactly one name for each corner of each land tile. */
  lemma AllVerticesAreLandCorners(b: Board, v: VertexCoord)
    ensures v in AllVertices(b) <==>
      IsNormalVertex(v) && exists h, i :: h in b.tiles && 0 <= i < 6 && CornerPoint(v) == CornerPoint(VertexCoord(h, i))
  {
    if v in AllVertices(b) {
      ListedVertexIsLandCorner(b, v);
    }
    if IsNormalVertex(v) && exists h, i :: h in b.tiles && 0 <= i < 6 && CornerPoint(v) == CornerPoint(VertexCoord(h, i)) {
      var h, i :| h in b.tiles && 0 <= i < 6 && CornerPoint(v) == CornerPoint(VertexCoord(h, i));
      LandCornerIsListed(b, v, h, i);
    }
  }

  /** The land corners where the player may build a settlement now, without free placement. */
  function VerticesWhereSettlementCanBeBuilt(b: Board, playerId: int): (vs: set<VertexCoord>)
    reads b
    ensures vs <= AllVertices(b)
  {
    set v | v in AllVertices(b) && b.CanBuildSettlement(Settlement(playerId, v, false), false)
  }

  /**
   * A land corner is offered iff it is free, no settlement stands one side
   * length away, a road of the player ends there and no other player's does.
   */
  lemma BuildableVertices(b: Board, playerId: int, v: VertexCoord)
    requires b.Valid()
    ensures v in VerticesWhereSettlementCanBeBuilt(b, playerId) <==>
      v in AllVertices(b)
      && v !in b.settlements
      && (exists e :: e in b.roads && b.roads[e].owner == playerId && CornerPoint(v) in EndPoints(e))
      && (forall e :: e in b.roads && CornerPoint(v) in EndPoints(e) ==> b.roads[e].owner == playerId)
      && (forall w :: w in b.settlements ==> !OneSideApart(CornerPoint(v), CornerPoint(w)))
  {
    if v in AllVertices(b) {
      BuildSettlementRule(b, Settlement(playerId, v, false), false);
    }
  }

  /** A player without roads is offered no corner. */
  lemma NoRoadNoVertices(b: Board, playerId: int)
    requires forall e :: e in b.roads ==> b.roads[e].owner != playerId
    ensures VerticesWhereSettlementCanBeBuilt(b, playerId) == {}
  {
    forall v | v in AllVertices(b) ensures !OwnRoadAt(b.roads, Settlement(playerId, v, false)) {
    }
  }
}
