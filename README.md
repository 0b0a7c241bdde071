# Catan rules engine: a verified model

This project models the rules engine of a small Settlers-of-Catan game written in Python. It covers:

- **Hexagon geometry** (`hexagons.dfy`, module `Hexagons`). Axial hexagon coordinates, corners and edges named relative to a tile, and the normalization that gives every physical corner and edge one canonical name. It also covers the neighbours of a hexagon and the hex distance.
- **The board** (`board.dfy`, module `CatanBoard`). A class with three dictionaries: tiles by hexagon, settlements by corner and roads by edge. It holds the legality rules for building a settlement and a road.
- **Hands and players** (`player.dfy`, module `CatanPlayer`). A hand is a class holding a count per resource. You can add to it, check it covers a demand, and take the whole demand or nothing.
- **The game and its moves** (`game.dfy`, module `CatanGame`). A game is a class over the board and the seated players. It covers paying out a roll, counting victory points, playing the settlement move and ending a turn.
- **Agent queries** (`agent_utils.dfy`, module `AgentUtils`). The canonical corners of all land tiles, and those where a player may build now.

`resources.dfy` holds the five resource kinds and an `Option` type.

## Geometric reference

Corner and edge names are checked against an independent reference: positions in the plane. Each hexagon centre and corner is placed on an integer lattice:

- a centre sits at `(2q + r, 3r)`;
- corner `i` sits at a fixed offset from its centre, matching the angles `60i - 30` that the drawing code uses.

The model then proves the following:

- Two corner names normalize to the same canonical name exactly when they lie at the same point. Two edge names do the same exactly when they share a midpoint.
- The canonical names are unique.
- The three edges of a corner are exactly the canonical edges that end there.
- The "nearby vertices" of the settlement rule are exactly the corners one side length away.

With these facts, each building rule is stated twice: once by the names the code looks up, and once by positions in the plane.

## Imperative parts

- Board, hand, player and game are classes whose methods update fields, as in the source.
- Operations that raise `IllegalMoveError` or `NotEnoughResourcesError` return `ok: bool` instead. `false` stands for the raised error and leaves the state unchanged.
- Each loop of the source is a `while` loop with invariants. Each is proved against a specification function: `Credit`, `Deduct` and `Covers` for hands, `PayCorners` and `CornerGain` for a tile's payout, `RollGain` for a roll, `Played` for the moves of a turn, and `VictoryPoints`.
- Dictionary iteration, whose order the payout does not depend on, is modelled as picking any remaining key.

## Model

| member | source | states |
|---|---|---|
| Hexagons.Add | hexagons/hexagons.py:35-37 | the coordinate-wise sum; used only through ThroughSide, whose lemmas state its meaning |
| Hexagons.SideOffset | hexagons/hexagons.py:48-55 | the six fixed side offsets; their meaning is stated by ThroughSideIsNeighbour, OppositeSidesCancel and ThroughSideExamples |
| Hexagons.ThroughSide | hexagons/hexagons.py:39-41 | the offset of the side added to the hexagon; its meaning is stated by ThroughSideIsNeighbour and OppositeSidesCancel |
| Hexagons.ThroughSideIsNeighbour | hexagons/hexagons.py:39-41 | the hexagon through a side is at hex distance 1, and its centre and the home centre are symmetric about that side's midpoint |
| Hexagons.OppositeSidesCancel | hexagons/hexagons.py:48-55 | going through side `s` and back through side `(s+3) % 6` returns to the start |
| Hexagons.ThroughSideExamples | hexagons/hexagons.py:48-55 | the fixed side offsets, on three concrete hexagons |
| Hexagons.Adjacent | hexagons/hexagons.py:25-28 | six hexagons, and a hexagon is among them iff it is at hex distance 1 |
| Hexagons.DistanceOneIsNeighbour | hexagons/hexagons.py:25-28 | every hexagon at distance 1 is reached through some side |
| Hexagons.HexVertices | hexagons/hexagons.py:30-33 | six corner names, all canonical |
| Hexagons.HexVerticesAreTheCorners | hexagons/hexagons.py:30-33 | the i-th listed corner lies at physical corner i, and the six are distinct |
| Hexagons.DistinctCorners | hexagons/hexagons.py:30-33 | different corners of one hexagon normalize to different names |
| Hexagons.HexEdge | hexagons/hexagons.py:43-45 | the edge of a hexagon by any side number is a canonical name |
| Hexagons.VertexNormalize | hexagons/hexagons.py:70-88 | the result is canonical (index 0 or 1), and an index that is 0 or 1 modulo 6 keeps its tile |
| Hexagons.VertexNormalizeSamePoint | hexagons/hexagons.py:70-88 | normalization does not move the corner |
| Hexagons.NormalVertexUnique | hexagons/hexagons.py:70-88 | two canonical names at one point are equal |
| Hexagons.VertexNormalizeCanonical | hexagons/hexagons.py:70-88 | two names normalize alike iff they lie at the same point |
| Hexagons.VertexNormalizeIdempotent | hexagons/hexagons.py:70-88 | normalizing twice is normalizing once |
| Hexagons.VertexNormalizeWraps | hexagons/hexagons.py:78 | corner index 6 wraps to index 0 |
| Hexagons.ThreeNamesOfACorner | hexagons/hexagons.py:79-86 | the three tiles sharing corners 0 and 1 name them so that they normalize alike |
| Hexagons.VertexEdges | hexagons/hexagons.py:90-104 | three canonical edges |
| Hexagons.VertexEdgesValues | hexagons/hexagons.py:90-104 | the three edges of a corner, written out for corner 0 and corner 1 |
| Hexagons.VertexEdgesEndAtCorner | hexagons/hexagons.py:90-104 | each of the three edges ends at the corner, and they are distinct |
| Hexagons.VertexEdgesComplete | hexagons/hexagons.py:90-104 | a canonical edge is among the corner's edges iff it ends at the corner |
| Hexagons.NormalEdgeEnds | hexagons/hexagons.py:117-122 | the two ends of each canonical edge, written out |
| Hexagons.EdgeVertices | hexagons/hexagons.py:117-122 | two canonical corner names |
| Hexagons.EdgeVerticesAreTheEnds | hexagons/hexagons.py:117-122 | the ends lie at corners `edge` and `edge + 1`, one side length apart |
| Hexagons.SwapSide | hexagons/hexagons.py:124-129 | the opposite side index is in 0..5 |
| Hexagons.SwapSideSameMidpoint | hexagons/hexagons.py:124-129 | the other view is from another tile, with the same midpoint |
| Hexagons.SwapSideInvolution | hexagons/hexagons.py:124-129 | swapping twice gives back the edge |
| Hexagons.SwapSideFirstEnd | hexagons/hexagons.py:124-129 | the edge's first end is the other view's second corner |
| Hexagons.SwapSideSecondEnd | hexagons/hexagons.py:124-129 | the edge's second end is the other view's first corner |
| Hexagons.SwapSideSameEnds | hexagons/hexagons.py:117-129 | both views list the same canonical ends, in reverse order |
| Hexagons.SwapSideSameEdge | hexagons/hexagons.py:124-141 | both views normalize to the same name |
| Hexagons.EdgeNormalize | hexagons/hexagons.py:131-141 | the result is canonical (index 0..2), and an index that is 0..2 modulo 6 keeps its tile |
| Hexagons.EdgeNormalizeSameMidpoint | hexagons/hexagons.py:131-141 | normalization does not move the edge |
| Hexagons.MidpointOfNormalEdge | hexagons/hexagons.py:131-141 | twice the midpoint of each canonical edge, written out |
| Hexagons.NormalEdgeUnique | hexagons/hexagons.py:131-141 | two canonical edge names with one midpoint are equal |
| Hexagons.EdgeNormalizeCanonical | hexagons/hexagons.py:131-141 | two edge names normalize alike iff they share a midpoint |
| Hexagons.EdgeNormalizeIdempotent | hexagons/hexagons.py:131-141 | normalizing twice is normalizing once |
| Hexagons.EdgeNormalizeExamples | hexagons/hexagons.py:131-141 | the cases of test_hexagons.py: side 4 of the origin is side 1 of (0, -1); sides 0 and 1 are kept; side 13 becomes side 1 |
| Hexagons.BetweenHexes | hexagons/hexagons.py:143-144 | two hexagons, the first the edge's own tile |
| Hexagons.BetweenHexesFlankTheEdge | hexagons/hexagons.py:143-144 | the two hexagons are neighbours, and the edge's midpoint is halfway between their centres |
| Hexagons.HexDistance | hexagons/hexagons.py:148-153 | the halving is exact, and the distance is zero iff the hexagons are equal |
| Hexagons.HexDistanceSymmetric | hexagons/hexagons.py:148-153 | the distance is symmetric |
| CatanBoard.TileResource | catan/board.py:17-28 | only the desert produces nothing |
| CatanBoard.TileResourceInjective | catan/board.py:17-28 | different producing tile types produce different resources |
| CatanBoard.Board.IsLand | catan/board.py:61-62 | a hexagon is land iff it has a tile; used by CanBuildRoad, whose meaning BuildRoadRule states |
| CatanBoard.NearbyVertices | catan/board.py:82-87 | the far ends of the corner's edges other than the corner; NearbyVerticesAreOneSideAway states what they are |
| CatanBoard.OwnRoadAt | catan/board.py:74 | an own road on one of the corner's edges; OwnRoadRule states it by positions |
| CatanBoard.EnemyRoadAt | catan/board.py:78 | another player's road on one of the corner's edges; EnemyRoadRule states it by positions |
| CatanBoard.SettlementNearby | catan/board.py:81-89 | a settlement at a nearby corner; DistanceRule states it by positions |
| CatanBoard.SettlementAllowed | catan/board.py:70-91 | the settlement rule on given settlement and road maps; BuildSettlementRule states it by positions |
| CatanBoard.Board.CanBuildSettlement | catan/board.py:70-91 | the settlement rule on this board; BuildSettlementRule states what it means |
| CatanBoard.Board.RoadsTouchingVertex | catan/board.py:120-123 | the roads with the corner as an end; OwnRoadTouchRule states the check built on it by positions |
| CatanBoard.Board.TouchesOwnRoad | catan/board.py:104-105 | a road of the same owner touches one of the new road's ends; OwnRoadTouchRule states it by positions |
| CatanBoard.Board.HasLandBeside | catan/board.py:109-110 | one of the two hexagons beside the edge is land; BuildRoadRule states it as: the edge's own tile or the hexagon through that side is a tile |
| CatanBoard.Board.TouchesEnemySettlement | catan/board.py:114-115 | another player's settlement stands at one of the road's ends; EnemySettlementRule states it by positions |
| CatanBoard.Board.CanBuildRoad | catan/board.py:99-118 | the road rule on this board; BuildRoadRule states what it means |
| CatanBoard.Board.constructor | catan/board.py:56-59 | a new board is empty and valid |
| CatanBoard.Board.AddSettlement | catan/board.py:64-68 | succeeds iff the settlement may be built; on success it stores exactly that settlement, otherwise nothing changes; tiles and roads never change |
| CatanBoard.Board.AddRoad | catan/board.py:93-97 | succeeds iff the road may be built; on success it stores exactly that road, otherwise nothing changes; tiles and settlements never change |
| CatanBoard.CornerIsAnEnd | catan/board.py:114-115 | a canonical corner is among an edge's ends iff it lies at one of them |
| CatanBoard.EndsMeetIff | catan/board.py:104 | two edges share an end point iff one of the second's canonical ends is an end of the first |
| CatanBoard.IncidentEdge | catan/board.py:74 | a canonical edge is one of a corner's edges iff the corner lies at one of its ends |
| CatanBoard.NearbyVerticesValues | catan/board.py:82-87 | the nearby corners of a canonical corner are three named corners |
| CatanBoard.NearbyFromEnds | catan/board.py:82-87 | the nearby corners are the ends of the corner's edges other than itself |
| CatanBoard.NeighbourIsOneSideAway | catan/board.py:82-87 | each nearby corner is canonical and one side length away |
| CatanBoard.OneSideAwayIsNeighbour | catan/board.py:82-87 | each canonical corner one side length away is nearby |
| CatanBoard.NearbyVerticesAreOneSideAway | catan/board.py:82-87 | a corner is nearby iff it is canonical and one side length away |
| CatanBoard.OwnRoadRule | catan/board.py:74 | the own-road check holds iff one of the owner's roads ends at the corner's position |
| CatanBoard.EnemyRoadRule | catan/board.py:78 | the enemy-road check holds iff another player's road ends at the corner's position |
| CatanBoard.DistanceRule | catan/board.py:81-89 | the distance check fails iff a settlement stands one side length away |
| CatanBoard.BuildSettlementRule | catan/board.py:70-91 | a settlement may be built iff the corner is free, no settlement is one side away, every road ending there is the builder's, and one does unless placement is free |
| CatanBoard.OwnRoadTouchRule | catan/board.py:103-123 | the touching check holds iff one of the owner's roads shares an end point with the new edge |
| CatanBoard.EnemySettlementRule | catan/board.py:113-116 | the check holds iff a settlement of another player stands at one of the edge's end points |
| CatanBoard.BuildRoadRule | catan/board.py:99-118 | a road may be built iff the edge is free, a tile lies on one of its sides, no other player's settlement is at its ends, and an own road meets it unless placement is free |
| CatanPlayer.Credit | catan/player.py:22-27 | adding keeps the set of resource kinds |
| CatanPlayer.Deduct | catan/player.py:29-32 | taking keeps the set of resource kinds |
| CatanPlayer.DeductUndoesCredit | catan/player.py:22-32 | taking away what was added restores the hand |
| CatanPlayer.CreditUndoesDeduct | catan/player.py:22-32 | adding back what was taken restores the hand |
| CatanPlayer.CreditCovers | catan/player.py:22-40 | after adding non-negative amounts, the hand covers the same demand |
| CatanPlayer.DeductKeepsNonNegative | catan/player.py:29-40 | taking a covered demand leaves no count negative |
| CatanPlayer.CreditKeepsNonNegative | catan/player.py:22-27 | adding non-negative amounts keeps every count non-negative |
| CatanPlayer.CreditNothing | catan/player.py:25-32 | an empty list of amounts changes nothing |
| CatanPlayer.Empty | catan/player.py:14-20 | every resource kind is held at count zero |
| CatanPlayer.HandExamples | catan/player.py:22-40 | the five hand scenarios of tests/test_player.py, on the counts: adding Sheep 1, Wood 5 and Sheep 2 gives 3 Sheep, 0 Stone and 5 Wood; taking 2 of 5 Stone leaves 3; 5 Sheep do not cover 10 and stay 5; 5 Sheep and 5 Mud cover 5 Mud and 2 of each but not 20 Sheep |
| CatanPlayer.Hand.constructor | catan/player.py:13-20 | a new hand holds zero of each resource |
| CatanPlayer.Hand.AddResource | catan/player.py:22-23 | only that resource's count changes, by the quantity |
| CatanPlayer.Hand.AddResources | catan/player.py:25-27 | the hand becomes the credit of all listed quantities |
| CatanPlayer.Hand.HasResources | catan/player.py:36-40 | true iff every listed quantity is at most the count held |
| CatanPlayer.Hand.TakeResources | catan/player.py:29-34 | succeeds iff the hand covers the demand; then deducts all of it, otherwise changes nothing |
| CatanPlayer.Player.constructor | catan/player.py:6-9 | the player has the given id and a fresh empty hand |
| CatanGame.PayCornersGain | catan/game.py:49-52 | paying the corners in order gives each seated player their corner gain of the tile's resource and nothing else |
| CatanGame.AwardCounts | catan/game.py:52 | a corner pays one for a settlement of the player, two for a city, otherwise nothing |
| CatanGame.CornerGainCounts | catan/game.py:49-52 | over distinct corners, the payout is the player's settlements plus twice their cities among them |
| CatanGame.TileGainCounts | catan/game.py:43-52 | a producing tile pays one per settlement and two per city on its six corners, and other resources nothing |
| CatanGame.RollGainOnlyMatchingTiles | catan/game.py:58-63 | a resource no tile with the rolled number produces is not paid |
| CatanGame.RollGainNeedsASettlement | catan/game.py:58-63 | a player without settlements receives nothing |
| CatanGame.VictoryPointsAfterBuild | catan/game.py:69-75 | a new settlement adds one point for its owner and none for anyone else |
| CatanGame.TownsAfterBuild | catan/game.py:69-75 | a new settlement adds one to its owner's count of settlements |
| CatanGame.CitiesAfterBuild | catan/game.py:69-75 | a new settlement leaves everyone's cities unchanged |
| CatanGame.Played | catan/game.py:91-105 | the settlements after a list of moves: each legal placement is stored, each illegal one is skipped; its meaning is stated by PlayedBuiltBy, NoRoadPlaysNothing and PlayedPoints |
| CatanGame.PlayedBuiltBy | catan/game.py:91-105 | playing moves keeps every existing settlement and adds only settlements (not cities) of the player |
| CatanGame.NoRoadPlaysNothing | catan/game.py:91-105 | a player without roads builds nothing, whatever the moves |
| CatanGame.PlayedPoints | catan/game.py:91-107 | each placed settlement is one point for the player, and nobody else's points change |
| CatanGame.Execute | catan/moves.py:20-22 | succeeds iff the settlement may be built without free placement; then it is stored, otherwise nothing changes |
| CatanGame.Game.constructor | catan/game.py:17-28 | seats players 0 .. n-1 with empty hands; turn 0, player 0 to play |
| CatanGame.Game.GivePlayerResource | catan/game.py:37-38 | only that player's hand changes, by the quantity of the resource |
| CatanGame.Game.DispenseResource | catan/game.py:40-52 | each player gains the tile's payout for them, and nothing else changes |
| CatanGame.Game.RollSeven | catan/game.py:65-67 | does nothing, as in the source; it has no contract, since it changes no state |
| CatanGame.Game.Rolled | catan/game.py:54-67 | a seven pays nothing; any other roll pays each player their roll gain over all tiles; the turn is unchanged |
| CatanGame.Game.GetVictoryPoints | catan/game.py:69-75 | one point per settlement and two per city of the player |
| CatanGame.Game.DoMove | catan/game.py:77-80 | the move's effect on the board, with hands untouched |
| CatanGame.Game.PlayMoves | catan/game.py:91-105 | the settlements become exactly `Played` of the old settlements and the moves, in order; tiles, roads and hands are untouched |
| CatanGame.Game.EndTurn | catan/game.py:107-117 | the game goes on iff the player has fewer than 10 points; then the next player is to play and the turn number increases |
| CatanGame.Game.Tick | catan/game.py:82-117 | the roll is paid out, the settlements become exactly `Played` of the moves (so only the player's settlements are added), and the turn passes on unless the player has won |
| CatanGame.Game.TickAsWritten | catan/game.py:84-105 | the turn as written ends in StopIteration, IllegalMoveError or AttributeError, and never passes on; by then the roll has been paid, and a legal first move has been stored |
| AgentUtils.AllVertices | agents/agent_utils.py:7-13 | every listed corner name is canonical |
| AgentUtils.ListedVertexIsLandCorner | agents/agent_utils.py:7-13 | each listed corner lies at a corner of a land tile |
| AgentUtils.LandCornerIsListed | agents/agent_utils.py:7-13 | the canonical name of each corner of each land tile is listed |
| AgentUtils.AllVerticesAreLandCorners | agents/agent_utils.py:7-13 | a corner name is listed iff it is canonical and lies at a corner of a land tile |
| AgentUtils.VerticesWhereSettlementCanBeBuilt | agents/agent_utils.py:16-17 | only land corners are offered |
| AgentUtils.BuildableVertices | agents/agent_utils.py:16-17 | a land corner is offered iff the settlement rule, stated by positions, allows it without free placement |
| AgentUtils.NoRoadNoVertices | agents/agent_utils.py:16-17 | a player without roads is offered nothing |

## Left out

- Pixel functions (`VertexCoord.pos`, `pixel_corners`, `pixel_corner`) use floating point and are not modelled. The integer lattice above plays their part as the geometric reference.
- `HexCoord.shared_edge` has an empty body in the source, and is left out.
- Dice: `tick` draws `randint(1, 7) + randint(1, 7)`. `Tick` takes the roll as a parameter, for any integer.
- Agents:
  - `tick` reads moves from an agent's move generator. `Tick` takes the moves as a finite list, so the model does not capture moves chosen after earlier results.
  - `join_game` and the agents themselves are not modelled.
- Logging, `event` and the game-event callback are left out. They are output only.
- Board setup and the GUI are callers of the core, and are not part of this model.
  - Setup places its starting settlements without free placement, on a board without roads. By `BuildSettlementRule`, that can never succeed.
- Older top-level copies of the game, player, moves, hexagons and agents files import names the packages no longer provide. They are not modelled.
- Moves are the datatypes `Move` (only the settlement move exists), `MoveResult` and `MoveContext` (catan/moves.py:7-34).
  - The source's `MoveResult` classes are empty. `MoveResult` here carries the `successful` flag that `tick` reads.
- `catan/resources.py` is not part of this model. The five resource kinds are declared from their uses.
- `RollSeven` is empty, as in the source. The robber is not implemented there.
- HexDistance: the source subscripts its arguments. Its one caller passes `(q, r)` tuples, which the model represents as a `HexCoord`.
  - The source halves the sum in floating point. The model works on unbounded integers and proves the halving is exact there.
  - The float result agrees only while the sum stays below 2^53. Larger coordinates are not modelled.
- CatanBoard.Board.AddSettlement: requires a canonical corner name.
  - The source stores any name as the key.
  - Its one caller in the core, `BuildSettlementMove.execute` (catan/moves.py:21-22), passes the move's vertex exactly as the agent built it. Normalization happens only outside the core, in the agents and the board setup.
  - The model moves this requirement onto the moves: `Execute`, `DoMove`, `PlayMoves`, `Tick` and `TickAsWritten` require every move to name a canonical corner.
  - The same holds for CatanBoard.Board.AddRoad with edges; nothing in the core calls it.
- CatanBoard.Board.CanBuildRoad: requires a side index in 0..5 throughout. The source fails with a lookup error for other indices, and only after the first two checks.
- Hexagons.SwapSide: requires a side index in 0..5. The source's offset lookup fails with a lookup error for other indices.
- CatanGame.Game.Tick: requires the following.
  - At least one player: the source's modulo by the number of players fails otherwise.
  - Owners: every settlement's owner is a seated player (`OwnersArePlayers`). The source's payout fails with a lookup error otherwise.
  - Moves: every move names a canonical corner.
- CatanGame.Game.GivePlayerResource: requires a seated player. The source fails with a lookup error for any other id.
- CatanGame.Game.DispenseResource: requires every settlement's owner to be a seated player (`OwnersArePlayers`). The source fails with a lookup error when it reaches a settlement of anyone else.
- CatanGame.Game.Rolled: requires `OwnersArePlayers` for the same reason, since it dispenses.
- CatanGame.Game.TickAsWritten: has the same requirements as Tick.
  - It also takes the move generator to accept `play_turn()` without arguments. The agents in the repository declare `play_turn(self, game)`, and with them `tick` raises TypeError at catan/game.py:87 instead.
- CatanBoard.Board.Valid: demands, among its clauses, that each tile is stored under its own coordinate.
  - The source does not check this. Board setup stores `random_tile(place)` under `place` (game_setup.py:33), so it holds there.
  - `Rolled` relies on it: the source dispenses by `tile.coords` (catan/game.py:61-63), and the model dispenses by the tile's key.
- CatanGame.Execute: returns whether the placement succeeded. The source returns nothing and raises on an illegal placement; `TickAsWritten` models that behaviour.

## Findings

| source | as written | input that shows it | evidently intended | confidence | as-written member | corrected member |
|---|---|---|---|---|---|---|
| catan/game.py:91-105, catan/moves.py:20-22 | the first move is fetched outside the `StopIteration` handler. An illegal placement's `IllegalMoveError` is not caught. A legal placement returns `None`, whose `successful` is then read. So a turn never reaches the victory check or the hand-over. | any turn, with a move generator that takes no argument (as `tick` calls `play_turn()` at catan/game.py:87; the agents' own `play_turn(self, game)` would raise TypeError there first): no moves raises StopIteration; a first move on an occupied corner raises IllegalMoveError; a legal first move raises AttributeError | each move yields a result whose `successful` tells whether it was legal. Failed moves change nothing, and the turn ends with the victory check and the hand-over | not executed | CatanGame.Game.TickAsWritten | CatanGame.Game.Tick |
