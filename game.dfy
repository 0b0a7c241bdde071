/**
 * Turn bookkeeping: seating the players, paying out resources when a number
 * is rolled, counting victory points, executing moves and advancing the turn.
 *
 * The game and its moves refer to each other, so both live in this module.
 * The dice roll and the moves an agent chooses are parameters.
 */
module CatanGame {
  import opened Wrappers
  import opened CatanResources
  import opened Hexagons
  import opened CatanBoard
  import opened CatanPlayer

  const WinningVictoryPoints := 10

  // ---------------------------------------------------------------------------
  // Sums over finite sets
  // ---------------------------------------------------------------------------

  ghost function SumOver<T>(s: set<T>, f: T -> int): int
    decreases s
  {
    if s == {} then 0 else var x :| x in s; f(x) + SumOver(s - {x}, f)
  }

  /** The sum may be taken by removing any element first. */
  lemma {:induction false} SumOverSplit<T>(s: set<T>, f: T -> int, y: T)
    requires y in s
    ensures SumOver(s, f) == f(y) + SumOver(s - {y}, f)
    decreases s
  {
    var x :| x in s && SumOver(s, f) == f(x) + SumOver(s - {x}, f);
    if x != y {
      SumOverSplit(s - {x}, f, y);
      SumOverSplit(s - {y}, f, x);
      assert s - {x} - {y} == s - {y} - {x};
    }
  }

  lemma {:induction false} SumOverZero<T>(s: set<T>, f: T -> int)
    requires forall x :: x in s ==> f(x) == 0
    ensures SumOver(s, f) == 0
    decreases s
  {
    if s != {} {
      var x :| x in s;
      SumOverSplit(s, f, x);
      SumOverZero(s - {x}, f);
    }
  }

  // ---------------------------------------------------------------------------
  // What a roll pays out
  // ---------------------------------------------------------------------------

  /** What the settlement on corner `v` pays player `p`: 1, 2 for a city, 0 if it is not p's. */
  function Award(S: map<VertexCoord, Settlement>, v: VertexCoord, p: int): nat {
    if v in S && S[v].owner == p then (if S[v].isCity then 2 else 1) else 0
  }

  /** What player `p` receives from the corners `vs`, visited in order. */
  function CornerGain(S: map<VertexCoord, Settlement>, vs: seq<VertexCoord>, p: int): nat {
    if vs == [] then 0 else CornerGain(S, vs[..|vs| - 1], p) + Award(S, vs[|vs| - 1], p)
  }

  /** What player `p` receives of resource `r` when tile `t` produces. */
  function TileGain(t: Tile, S: map<VertexCoord, Settlement>, p: int, r: Resource): nat {
    if TileResource(t.kind) == Some(r) then CornerGain(S, HexVertices(t.coords), p) else 0
  }

  /** The contribution of the tile at `h` to a roll. */
  function RollTerm(T: map<HexCoord, Tile>, S: map<VertexCoord, Settlement>, roll: int, p: int, r: Resource): HexCoord -> int {
    h => if h in T && T[h].number == roll then TileGain(T[h], S, p, r) else 0
  }

  /** What player `p` receives of resource `r` when `roll` (other than 7) is rolled. */
  ghost function RollGain(T: map<HexCoord, Tile>, S: map<VertexCoord, Settlement>, roll: int, p: int, r: Resource): int {
    SumOver(T.Keys, RollTerm(T, S, roll, p, r))
  }

  /** The hands after the settlement on corner `v` (if any, and if its owner is seated) is paid `res`. */
  function Pay(H: map<int, Counts>, S: map<VertexCoord, Settlement>, v: VertexCoord, res: Resource): map<int, Counts> {
    if v in S && S[v].owner in H
    then H[S[v].owner := Credit(H[S[v].owner], map[res := if S[v].isCity then 2 else 1])]
    else H
  }

  /** The hands after the corners `vs` are paid in order. */
  function PayCorners(H: map<int, Counts>, S: map<VertexCoord, Settlement>, vs: seq<VertexCoord>, res: Resource): map<int, Counts> {
    if vs == [] then H else Pay(PayCorners(H, S, vs[..|vs| - 1], res), S, vs[|vs| - 1], res)
  }

  /** Paying the corners in order gives each seated player their CornerGain of `res` and nothing else. */
  lemma {:induction false} PayCornersGain(H: map<int, Counts>, S: map<VertexCoord, Settlement>, vs: seq<VertexCoord>, res: Resource)
    ensures PayCorners(H, S, vs, res).Keys == H.Keys
    ensures forall p :: p in H ==> PayCorners(H, S, vs, res)[p].Keys == H[p].Keys
    ensures forall p, r :: p in H && r in H[p] ==>
      PayCorners(H, S, vs, res)[p][r] == H[p][r] + (if r == res then CornerGain(S, vs, p) else 0)
  {
    if vs != [] {
      PayCornersGain(H, S, vs[..|vs| - 1], res);
    }
  }

  /** The settlements (not cities) of `p`, and the cities of `p`. */
  function Towns(S: map<VertexCoord, Settlement>, p: int): set<VertexCoord> {
    set v | v in S && S[v].owner == p && !S[v].isCity
  }

  function Cities(S: map<VertexCoord, Settlement>, p: int): set<VertexCoord> {
    set v | v in S && S[v].owner == p && S[v].isCity
  }

  /** Each settlement is worth one point and each city two. */
  function VictoryPoints(S: map<VertexCoord, Settlement>, p: int): nat {
    |Towns(S, p)| + 2 * |Cities(S, p)|
  }

  /** Removing one more element from `todo` adds it to `A - todo` when it is in A. */
  lemma CountStep(A: set<VertexCoord>, todo: set<VertexCoord>, v: VertexCoord)
    requires v in todo
    ensures |A - (todo - {v})| == |A - todo| + (if v in A then 1 else 0)
  {
    if v in A {
      assert A - (todo - {v}) == (A - todo) + {v};
    } else {
      assert A - (todo - {v}) == A - todo;
    }
  }

  /** Adding an element outside B to B adds one to A * B when it is in A. */
  lemma MeetStep(A: set<VertexCoord>, B: set<VertexCoord>, x: VertexCoord)
    requires x !in B
    ensures |A * (B + {x})| == |A * B| + (if x in A then 1 else 0)
  {
    if x in A {
      assert A * (B + {x}) == A * B + {x};
    } else {
      assert A * (B + {x}) == A * B;
    }
  }

  /** The corners named in a sequence. */
  function Elements(vs: seq<VertexCoord>): set<VertexCoord> {
    set v | v in vs
  }

  /** The elements of a sequence with distinct elements, one more at the end. */
  lemma ElementsSnoc(vs: seq<VertexCoord>)
    requires |vs| > 0
    requires forall i, j :: 0 <= i < j < |vs| ==> vs[i] != vs[j]
    ensures var n := |vs| - 1;
      Elements(vs) == Elements(vs[..n]) + {vs[n]} && vs[n] !in vs[..n]
  {
    var n := |vs| - 1;
    assert forall v :: v in vs <==> v in vs[..n] || v == vs[n] by {
      assert vs == vs[..n] + [vs[n]];
    }
  }

  /** A corner's award is one if it holds a settlement of `p`, two if it holds a city of `p`. */
  lemma AwardCounts(S: map<VertexCoord, Settlement>, x: VertexCoord, p: int)
    ensures Award(S, x, p) == (if x in Towns(S, p) then 1 else 0) + 2 * (if x in Cities(S, p) then 1 else 0)
  {
    if x in S && S[x].owner == p {
      if S[x].isCity {
        assert x in Cities(S, p);
      } else {
        assert x in Towns(S, p);
      }
    }
  }

  /** Counting towns and cities among one more corner. */
  lemma WeightedMeetStep(T: set<VertexCoord>, C: set<VertexCoord>, A: set<VertexCoord>, x: VertexCoord)
    requires x !in A
    ensures |T * (A + {x})| + 2 * |C * (A + {x})| ==
      |T * A| + 2 * |C * A| + (if x in T then 1 else 0) + 2 * (if x in C then 1 else 0)
  {
    MeetStep(T, A, x);
    MeetStep(C, A, x);
  }

  /** Over distinct corners, the payout is one per settlement and two per city of `p` among them. */
  lemma {:induction false} CornerGainCounts(S: map<VertexCoord, Settlement>, vs: seq<VertexCoord>, p: int)
    requires forall i, j :: 0 <= i < j < |vs| ==> vs[i] != vs[j]
    ensures CornerGain(S, vs, p) == |Towns(S, p) * Elements(vs)| + 2 * |Cities(S, p) * Elements(vs)|
  {
    if vs != [] {
      var n := |vs| - 1;
      var front, x := vs[..n], vs[n];
      assert forall i, j :: 0 <= i < j < |front| ==> front[i] != front[j];
      CornerGainCounts(S, front, p);
      ElementsSnoc(vs);
      WeightedMeetStep(Towns(S, p), Cities(S, p), Elements(front), x);
      AwardCounts(S, x, p);
      assert CornerGain(S, vs, p) == CornerGain(S, front, p) + Award(S, x, p);
      assert Elements(vs) == Elements(front) + {x};
    }
  }

  /** A producing tile pays one per settlement and two per city on its six corners. */
  lemma TileGainCounts(t: Tile, S: map<VertexCoord, Settlement>, p: int, r: Resource)
    ensures var corners := Elements(HexVertices(t.coords));
      TileGain(t, S, p, r) == if TileResource(t.kind) == Some(r)
        then |Towns(S, p) * corners| + 2 * |Cities(S, p) * corners|
        else 0
  {
    HexVerticesAreTheCorners(t.coords);
    CornerGainCounts(S, HexVertices(t.coords), p);
  }

  /** Only tiles with the rolled number that produce `r` pay out `r`; deserts pay nothing. */
  lemma RollGainOnlyMatchingTiles(T: map<HexCoord, Tile>, S: map<VertexCoord, Settlement>, roll: int, p: int, r: Resource)
    requires forall h :: h in T && T[h].number == roll ==> TileResource(T[h].kind) != Some(r)
    ensures RollGain(T, S, roll, p, r) == 0
  {
    SumOverZero(T.Keys, RollTerm(T, S, roll, p, r));
  }

  /** A player without settlements receives nothing. */
  lemma RollGainNeedsASettlement(T: map<HexCoord, Tile>, S: map<VertexCoord, Settlement>, roll: int, p: int, r: Resource)
    requires forall v :: v in S ==> S[v].owner != p
    ensures RollGain(T, S, roll, p, r) == 0
  {
    forall h | h in T ensures RollTerm(T, S, roll, p, r)(h) == 0 {
      TileGainCounts(T[h], S, p, r);
      assert Towns(S, p) == {} && Cities(S, p) == {};
    }
    SumOverZero(T.Keys, RollTerm(T, S, roll, p, r));
  }

  /** Building a settlement adds one point for its owner and none for anyone else. */
  lemma VictoryPointsAfterBuild(S: map<VertexCoord, Settlement>, v: VertexCoord, owner: int, p: int)
    requires v !in S
    ensures VictoryPoints(S[v := Settlement(owner, v, false)], p) == VictoryPoints(S, p) + (if p == owner then 1 else 0)
  {
    TownsAfterBuild(S, v, owner, p);
    CitiesAfterBuild(S, v, owner, p);
  }

  lemma TownsAfterBuild(S: map<VertexCoord, Settlement>, v: VertexCoord, owner: int, p: int)
    requires v !in S
    ensures Towns(S[v := Settlement(owner, v, false)], p) == Towns(S, p) + (if p == owner then {v} else {})
  {
  }

  lemma CitiesAfterBuild(S: map<VertexCoord, Settlement>, v: VertexCoord, owner: int, p: int)
    requires v !in S
    ensures Cities(S[v := Settlement(owner, v, false)], p) == Cities(S, p)
  {
  }

  /** `S` is `S0` with settlements (not cities) of `owner` added and nothing else changed. */
  predicate BuiltBy(S0: map<VertexCoord, Settlement>, S: map<VertexCoord, Settlement>, owner: int) {
    (forall v :: v in S0 ==> v in S && S[v] == S0[v])
    && (forall v :: v in S && v !in S0 ==> S[v] == Settlement(owner, v, false))
  }

  /**
   * The settlements after player `p` plays `moves` in order among roads `R`:
   * each move places a settlement (not a city) if the settlement rule allows
   * it without free placement on the settlements so far, and otherwise
   * changes nothing.
   */
  function Played(S: map<VertexCoord, Settlement>, R: map<EdgeCoord, Road>, p: int, moves: seq<Move>): map<VertexCoord, Settlement> {
    if moves == [] then S
    else
      var before := Played(S, R, p, moves[..|moves| - 1]);
      var s := Settlement(p, moves[|moves| - 1].vertex, false);
      if SettlementAllowed(before, R, s, false) then before[s.coords := s] else before
  }

  /** Playing moves only adds settlements of the player and keeps every existing one. */
  lemma {:induction false} PlayedBuiltBy(S: map<VertexCoord, Settlement>, R: map<EdgeCoord, Road>, p: int, moves: seq<Move>)
    ensures BuiltBy(S, Played(S, R, p, moves), p)
  {
    if moves != [] {
      PlayedBuiltBy(S, R, p, moves[..|moves| - 1]);
    }
  }

  /** A player without roads builds nothing, whatever the moves. */
  lemma {:induction false} NoRoadPlaysNothing(S: map<VertexCoord, Settlement>, R: map<EdgeCoord, Road>, p: int, moves: seq<Move>)
    requires forall e :: e in R ==> R[e].owner != p
    ensures Played(S, R, p, moves) == S
  {
    if moves != [] {
      NoRoadPlaysNothing(S, R, p, moves[..|moves| - 1]);
    }
  }

  /** Each placed settlement is one point for the player, and nobody else's points change. */
  lemma {:induction false} PlayedPoints(S: map<VertexCoord, Settlement>, R: map<EdgeCoord, Road>, p: int, moves: seq<Move>, q: int)
    ensures VictoryPoints(Played(S, R, p, moves), q) ==
      VictoryPoints(S, q) + (if q == p then |Played(S, R, p, moves)| - |S| else 0)
  {
    if moves != [] {
      var before := Played(S, R, p, moves[..|moves| - 1]);
      var s := Settlement(p, moves[|moves| - 1].vertex, false);
      PlayedPoints(S, R, p, moves[..|moves| - 1], q);
      if SettlementAllowed(before, R, s, false) {
        VictoryPointsAfterBuild(before, s.coords, p, q);
        assert |before[s.coords := s]| == |before| + 1;
      }
    }
  }

  // ---------------------------------------------------------------------------
  // Moves
  // ---------------------------------------------------------------------------

  datatype Move = BuildSettlementMove(vertex: VertexCoord)

  datatype MoveResult = MoveResult(successful: bool)

  datatype MoveContext = MoveContext(game: Game, playerId: int)

  /** The exceptions a turn can end with. */
  datatype RaisedError = StopIteration | IllegalMoveError | AttributeError

  /**
   * Builds a (non-city) settlement for the context's player, never with free
   * placement.  The result reports whether it was legal; an illegal one leaves
   * the board as it was.
   */
  method Execute(move: Move, ctx: MoveContext) returns (result: MoveResult)
    requires ctx.game.board.Valid() && IsNormalVertex(move.vertex)
    modifies ctx.game.board
    ensures ctx.game.board.Valid()
    ensures result.successful == old(ctx.game.board.CanBuildSettlement(Settlement(ctx.playerId, move.vertex, false), false))
    ensures ctx.game.board.settlements == if result.successful
      then old(ctx.game.board.settlements)[move.vertex := Settlement(ctx.playerId, move.vertex, false)]
      else old(ctx.game.board.settlements)
    ensures ctx.game.board.tiles == old(ctx.game.board.tiles) && ctx.game.board.roads == old(ctx.game.board.roads)
  {
    var settlement := Settlement(ctx.playerId, move.vertex, false);
    var ok := ctx.game.board.AddSettlement(settlement, false);
    result := MoveResult(ok);
  }

  // ---------------------------------------------------------------------------
  // The game
  // ---------------------------------------------------------------------------

  class Game {
    const board: Board
    const players: map<int, Player>
    const numPlayers: nat
    var turnNumber: int
    var nextToPlay: int

    function HandSet(): set<Hand> {
      set i | i in players :: players[i].hand
    }

    /** Players 0 .. numPlayers - 1, each with a hand of its own, and the turn in range. */
    ghost predicate Valid()
      reads this, board, HandSet()
    {
      board.Valid()
      && (forall i :: i in players <==> 0 <= i < numPlayers)
      && (forall i :: i in players ==> players[i].id == i && players[i].hand.Valid())
      && (forall i, j :: i in players && j in players && i != j ==> players[i].hand != players[j].hand)
      && 0 <= turnNumber
      && 0 <= nextToPlay && (numPlayers > 0 ==> nextToPlay < numPlayers)
    }

    /** Every settlement belongs to a seated player (paying out to anyone else fails). */
    predicate OwnersArePlayers()
      reads this, board
    {
      forall v :: v in board.settlements ==> board.settlements[v].owner in players
    }

    /** The counts in every player's hand. */
    ghost function Hands(): map<int, Counts>
      reads HandSet()
    {
      map i | i in players :: players[i].hand.resources
    }

    constructor (b: Board, numAgents: nat)
      requires b.Valid()
      ensures Valid()
      ensures board == b && numPlayers == numAgents && turnNumber == 0 && nextToPlay == 0
      ensures forall i :: i in players ==> players[i].hand.resources == Empty()
      ensures fresh(HandSet())
    {
      var ps: map<int, Player> := map[];
      var i := 0;
      while i < numAgents
        invariant 0 <= i <= numAgents
        invariant forall j :: j in ps <==> 0 <= j < i
        invariant forall j :: j in ps ==> ps[j].id == j && fresh(ps[j].hand) && ps[j].hand.Valid() && ps[j].hand.resources == Empty()
        invariant forall j, k :: j in ps && k in ps && j != k ==> ps[j].hand != ps[k].hand
      {
        var p := new Player(i);
        ps := ps[i := p];
        i := i + 1;
      }
      board := b;
      players := ps;
      numPlayers := numAgents;
      turnNumber := 0;
      nextToPlay := 0;
    }

    method GivePlayerResource(playerId: int, resource: Resource, quantity: int := 1)
      requires Valid() && playerId in players
      modifies players[playerId].hand
      ensures Valid()
      ensures Hands() == old(Hands())[playerId := Credit(old(Hands())[playerId], map[resource := quantity])]
    {
      players[playerId].hand.AddResource(resource, quantity);
      assert forall i :: i in players && i != playerId ==> players[i].hand.resources == old(players[i].hand.resources);
    }

    /** Pays every settlement on the tile's corners, if the tile produces anything. */
    method DispenseResource(coord: HexCoord)
      requires Valid() && OwnersArePlayers() && coord in board.tiles
      modifies HandSet()
      ensures Valid()
      ensures Hands().Keys == old(Hands()).Keys
      ensures forall p, r :: p in Hands() ==>
        Hands()[p][r] == old(Hands())[p][r] + TileGain(board.tiles[coord], board.settlements, p, r)
    {
      var tile := board.tiles[coord];
      var resource := TileResource(tile.kind);
      if resource.None? {
        return;
      }
      var vs := HexVertices(tile.coords);
      ghost var S := board.settlements;
      var i := 0;
      while i < 6
        invariant 0 <= i <= 6
        invariant Valid()
        invariant Hands() == PayCorners(old(Hands()), S, vs[..i], resource.value)
      {
        var v := vs[i];
        assert vs[..i + 1][..i] == vs[..i];
        ghost var before := Hands();
        if v in board.settlements {
          var settlement := board.settlements[v];
          GivePlayerResource(settlement.owner, resource.value, if settlement.isCity then 2 else 1);
        }
        assert Hands() == Pay(before, S, v, resource.value);
        i := i + 1;
      }
      assert vs[..6] == vs;
      PayCornersGain(old(Hands()), S, vs, resource.value);
    }

    /** Seven moves the robber in the full game; here it does nothing. */
    method RollSeven()
    {
    }

    /** Pays out every tile carrying the rolled number; a seven pays nothing. */
    method Rolled(playerId: int, roll: int)
      requires Valid() && OwnersArePlayers()
      modifies HandSet()
      ensures Valid()
      ensures Hands().Keys == old(Hands()).Keys
      ensures roll == 7 ==> Hands() == old(Hands())
      ensures roll != 7 ==> forall p, r :: p in Hands() ==>
        Hands()[p][r] == old(Hands())[p][r] + RollGain(board.tiles, board.settlements, roll, p, r)
      ensures nextToPlay == old(nextToPlay) && turnNumber == old(turnNumber)
    {
      if roll == 7 {
        RollSeven();
        return;
      }
      var T, S := board.tiles, board.settlements;
      var todo := T.Keys;
      while todo != {}
        invariant todo <= T.Keys
        invariant Valid()
        invariant Hands().Keys == old(Hands()).Keys
        invariant forall p, r :: p in Hands() ==>
          Hands()[p][r] == old(Hands())[p][r] + SumOver(T.Keys - todo, RollTerm(T, S, roll, p, r))
        decreases todo
      {
        var h :| h in todo;
        forall p, r
          ensures SumOver(T.Keys - (todo - {h}), RollTerm(T, S, roll, p, r))
            == RollTerm(T, S, roll, p, r)(h) + SumOver(T.Keys - todo, RollTerm(T, S, roll, p, r))
        {
          SumOverSplit(T.Keys - (todo - {h}), RollTerm(T, S, roll, p, r), h);
          assert T.Keys - (todo - {h}) - {h} == T.Keys - todo;
        }
        if T[h].number == roll {
          DispenseResource(h);
        }
        todo := todo - {h};
      }
      assert T.Keys - {} == T.Keys;
    }

    /** Counts one point per settlement and two per city of the player. */
    method GetVictoryPoints(playerId: int) returns (count: int)
      ensures count == VictoryPoints(board.settlements, playerId)
    {
      var S := board.settlements;
      var T, C := Towns(S, playerId), Cities(S, playerId);
      count := 0;
      var todo := S.Keys;
      while todo != {}
        invariant todo <= S.Keys
        invariant count == |T - todo| + 2 * |C - todo|
        decreases todo
      {
        var v :| v in todo;
        var settlement := S[v];
        if settlement.owner == playerId {
          count := count + if settlement.isCity then 2 else 1;
        }
        CountStep(T, todo, v);
        CountStep(C, todo, v);
        todo := todo - {v};
      }
      assert T - {} == T && C - {} == C;
    }

    method DoMove(playerId: int, move: Move) returns (result: MoveResult)
      requires Valid() && IsNormalVertex(move.vertex)
      modifies board
      ensures Valid()
      ensures result.successful == old(board.CanBuildSettlement(Settlement(playerId, move.vertex, false), false))
      ensures board.settlements == if result.successful
        then old(board.settlements)[move.vertex := Settlement(playerId, move.vertex, false)]
        else old(board.settlements)
      ensures board.tiles == old(board.tiles) && board.roads == old(board.roads)
      ensures Hands() == old(Hands())
    {
      var context := MoveContext(this, playerId);
      result := Execute(move, context);
    }

    /** The current player's moves, played in order; a failed move changes nothing. */
    method PlayMoves(player: int, moves: seq<Move>)
      requires Valid() && OwnersArePlayers() && player in players
      requires forall m :: m in moves ==> IsNormalVertex(m.vertex)
      modifies board
      ensures Valid() && OwnersArePlayers()
      ensures board.tiles == old(board.tiles) && board.roads == old(board.roads)
      ensures board.settlements == Played(old(board.settlements), board.roads, player, moves)
      ensures Hands() == old(Hands())
    {
      var i := 0;
      while i < |moves|
        invariant 0 <= i <= |moves|
        invariant Valid() && OwnersArePlayers()
        invariant board.tiles == old(board.tiles) && board.roads == old(board.roads)
        invariant board.settlements == Played(old(board.settlements), board.roads, player, moves[..i])
        invariant Hands() == old(Hands())
      {
        assert moves[..i + 1][..i] == moves[..i];
        var result := DoMove(player, moves[i]);
        i := i + 1;
      }
      assert moves[..|moves|] == moves;
    }

    /** The end of a turn: the current player wins with enough points, or the turn passes on. */
    method EndTurn() returns (ongoing: bool)
      requires Valid() && numPlayers > 0
      modifies this
      ensures Valid()
      ensures ongoing == (VictoryPoints(board.settlements, old(nextToPlay)) < WinningVictoryPoints)
      ensures ongoing ==> nextToPlay == (old(nextToPlay) + 1) % numPlayers && turnNumber == old(turnNumber) + 1
      ensures !ongoing ==> nextToPlay == old(nextToPlay) && turnNumber == old(turnNumber)
      ensures Hands() == old(Hands())
    {
      var victoryPoints := GetVictoryPoints(nextToPlay);
      if victoryPoints >= WinningVictoryPoints {
        return false;
      }
      nextToPlay := (nextToPlay + 1) % numPlayers;
      turnNumber := turnNumber + 1;
      return true;
    }

    /**
     * One turn, with the roll and the current player's moves given: pay out
     * the roll, play the moves, then either declare the player the winner
     * (false) or pass the turn to the next player (true).
     */
    method Tick(roll: int, moves: seq<Move>) returns (ongoing: bool)
      requires Valid() && OwnersArePlayers() && numPlayers > 0
      requires forall m :: m in moves ==> IsNormalVertex(m.vertex)
      modifies this, board, HandSet()
      ensures Valid() && OwnersArePlayers()
      ensures Hands().Keys == old(Hands()).Keys
      ensures roll == 7 ==> Hands() == old(Hands())
      ensures roll != 7 ==> forall p, r :: p in Hands() ==>
        Hands()[p][r] == old(Hands())[p][r] + RollGain(old(board.tiles), old(board.settlements), roll, p, r)
      ensures board.tiles == old(board.tiles) && board.roads == old(board.roads)
      ensures board.settlements == Played(old(board.settlements), old(board.roads), old(nextToPlay), moves)
      ensures BuiltBy(old(board.settlements), board.settlements, old(nextToPlay))
      ensures ongoing == (VictoryPoints(board.settlements, old(nextToPlay)) < WinningVictoryPoints)
      ensures ongoing ==> nextToPlay == (old(nextToPlay) + 1) % numPlayers && turnNumber == old(turnNumber) + 1
      ensures !ongoing ==> nextToPlay == old(nextToPlay) && turnNumber == old(turnNumber)
    {
      Rolled(nextToPlay, roll);
      ghost var paid := Hands();
      PlayMoves(nextToPlay, moves);
      PlayedBuiltBy(old(board.settlements), board.roads, old(nextToPlay), moves);
      ongoing := EndTurn();
      assert Hands() == paid;
    }

    /**
     * The Python `tick` as written.  The first move is fetched outside the
     * handler for the end of the moves, an illegal placement's error is not
     * handled, and a legal one yields no result whose `successful` could be
     * read: the turn never reaches the victory check or the hand-over.
     * The move generator is taken to accept the call without arguments that
     * `tick` makes; the agents' `play_turn(self, game)` would already fail
     * at that call.
     */
    method TickAsWritten(roll: int, moves: seq<Move>) returns (raised: RaisedError)
      requires Valid() && OwnersArePlayers() && numPlayers > 0
      requires forall m :: m in moves ==> IsNormalVertex(m.vertex)
      modifies this, board, HandSet()
      ensures Valid()
      ensures nextToPlay == old(nextToPlay) && turnNumber == old(turnNumber)
      ensures Hands().Keys == old(Hands()).Keys
      ensures roll == 7 ==> Hands() == old(Hands())
      ensures roll != 7 ==> forall p, r :: p in Hands() ==>
        Hands()[p][r] == old(Hands())[p][r] + RollGain(old(board.tiles), old(board.settlements), roll, p, r)
      ensures board.tiles == old(board.tiles) && board.roads == old(board.roads)
      ensures board.settlements == if |moves| == 0 then old(board.settlements)
        else Played(old(board.settlements), old(board.roads), old(nextToPlay), moves[..1])
      ensures raised == if |moves| == 0 then StopIteration
        else if old(board.CanBuildSettlement(Settlement(nextToPlay, moves[0].vertex, false), false)) then AttributeError
        else IllegalMoveError
    {
      var player := nextToPlay;
      Rolled(player, roll);
      if |moves| == 0 {
        return StopIteration;
      }
      var result := DoMove(player, moves[0]);
      assert moves[..1][..0] == [];
      if !result.successful {
        return IllegalMoveError;
      }
      return AttributeError;
    }
  }
}
