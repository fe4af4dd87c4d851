# StudentAI chess engine — move oracle and gravity generator

This project models the core of the 2014 UvsChess student engine
(`StudentAI.cs`). The engine has three parts:

- **A move-legality oracle.** `CheckMove` dispatches to a checker for each
  piece kind, and then to a destination-colour gate. The framework calls it
  through `IsValidMove`.
- **A generator.** `GenerateGravity` scans the board. For every piece,
  `GenerateMoves` walks the piece's offset tables and asks the oracle about
  each target. Two things are updated in place:
  - a move list, which receives the accepted targets of pieces flagged
    `ours`;
  - an 8×8 "gravity" grid. The value of a piece of the engine's own
    colour that is not a king is added to its own square, and every
    accepted target is bumped.
- **`GetNextMove`.** It resets the state, runs the scan and returns the
  first move in the list.

The model follows the code as written, including the places where it
departs from chess:

- The pawn checker never accepts.
- The bishop and rook checkers start with the flag false, and their blocker
  loops can only clear it, so they never accept.
- The queen checker starts with the flag true. It accepts exactly the moves
  that are neither straight nor diagonal.
- The king checker also accepts the zero move. It rejects every target two
  or more steps away, so an enemy king's `+10` is unreachable.
- The generator's `ours` flag holds exactly for pieces that are *not* of the
  engine's colour. The move list therefore holds the opponent's knight and
  king moves.

Modules:

- `ChessTypes`: the framework's values, in `chess_types.dfy`. It holds the
  enum-ordered pieces, squares, moves and the board as an 8×8 `seq`, plus
  the engine's constant tables.
- `Legality`: the oracle as a pure function `Verdict`, and the squares a
  sliding checker walks over, in `legality.dfy`.
- `Generation`: the specification of one scan, in `generation.dfy`. It
  gives the moves each piece appends, the gravity each piece adds, and
  their sums over the board in scan order.
- `StudentAI`: the engine as a class. It has the source's four fields, and
  its methods keep the source's loops. These are in `student_ai.dfy`.

Each loop method is proved against the `Generation` or `Legality` function
that specifies it. The properties of those functions are proved as lemmas.

The source's `foreach` over a `HashSet` has an unspecified order. The model
visits the set in an arbitrary order: each step picks any remaining
element, and a ghost sequence records the order. The contracts state the
move list as a multiset, together with prefix preservation, so they hold
for every enumeration order.

## Model

| member | source | states |
|---|---|---|
| ChessTypes.PieceValue | 2014UvsChess/StudentAI/StudentAI.cs:29-37 | every material value is between 1 and 10; exactly the bishop and the knight are worth 3 |
| ChessTypes.OrdinalSeparatesColours | 2014UvsChess/StudentAI/StudentAI.cs:135 | comparing a piece with Empty in enumeration order tells its colour: below means black, above means white |
| ChessTypes.DirectionTables | 2014UvsChess/StudentAI/StudentAI.cs:39-73 | the king's eight directions are the bishop's four diagonals and the rook's four straight directions, with no overlap |
| Legality.KnightLeapLength | 2014UvsChess/StudentAI/StudentAI.cs:438 | a displacement is a (1,2) or (2,1) leap if and only if its squared length is 5 |
| Legality.KingStepLength | 2014UvsChess/StudentAI/StudentAI.cs:586 | a displacement of at most one square each way, the zero move included, is exactly one of squared length at most 2 |
| Legality.VerdictAcceptedShapes | 2014UvsChess/StudentAI/StudentAI.cs:358-394 | an accepted move has its destination on the board; it moves a knight in a leap, a king by at most one square each way, or a queen neither straight nor diagonally; it never moves a pawn, bishop or rook |
| Legality.VerdictReadsOnlyDestination | 2014UvsChess/StudentAI/StudentAI.cs:358-394 | two boards that agree on the destination square get the same verdict; the answer does not depend on any square passed over, although the bishop and rook checkers read them |
| Legality.InteriorSnoc | 2014UvsChess/StudentAI/StudentAI.cs:457-550 | a blocker loop that walks one more square extends the walked prefix by exactly that square |
| Legality.InteriorStrictlyBetween | 2014UvsChess/StudentAI/StudentAI.cs:445-554 | for a straight or diagonal move between two squares of the board, every square the sliding checkers probe is on the board, strictly between the ends and on the same line |
| Generation.SideOf | 2014UvsChess/StudentAI/StudentAI.cs:135 | the colour the generator derives from the enumeration order is the piece's own colour |
| Generation.Ours | 2014UvsChess/StudentAI/StudentAI.cs:117-121 | the `ours` flag holds exactly for pieces that are not of the engine's colour |
| Generation.OnRayIsRayPoint | 2014UvsChess/StudentAI/StudentAI.cs:228-305 | the squares a ray loop computes, 1 to 7 steps along a direction of the table, are exactly the squares on a straight or diagonal line in that direction |
| Generation.KingMovesAreUnitSteps | 2014UvsChess/StudentAI/StudentAI.cs:39-49 | the king's table holds exactly the eight nonzero unit steps |
| Generation.RookMovesAreStraightSteps | 2014UvsChess/StudentAI/StudentAI.cs:59-65 | the rook's table holds exactly the four straight unit steps |
| Generation.BishopMovesAreDiagonalSteps | 2014UvsChess/StudentAI/StudentAI.cs:67-73 | the bishop's table holds exactly the four diagonal unit steps |
| Generation.KnightMovesAreLeaps | 2014UvsChess/StudentAI/StudentAI.cs:75-85 | the knight's table holds exactly the eight (1,2) and (2,1) leaps in every direction |
| Generation.PawnMovesAreForwardSteps | 2014UvsChess/StudentAI/StudentAI.cs:51-57 | the pawn's table holds exactly the three one-rank steps forward and the two-rank step straight ahead |
| Generation.RayPointGeometry | 2014UvsChess/StudentAI/StudentAI.cs:207 | the square `i` steps along a unit direction has that direction and lies `i` king steps away on a straight or diagonal line |
| Generation.CountedElemsDistinct | 2014UvsChess/StudentAI/StudentAI.cs:165 | an enumeration with as many distinct offsets as steps visits no offset twice |
| Generation.OffsetMovesInNotOurs | 2014UvsChess/StudentAI/StudentAI.cs:163-227 | a walk for a piece not flagged `ours` appends no move, in any order |
| Generation.OffsetWalkSnoc | 2014UvsChess/StudentAI/StudentAI.cs:165-184 | visiting one more offset appends, and adds to each square, exactly what that one visit does |
| Generation.OffsetStep | 2014UvsChess/StudentAI/StudentAI.cs:165-184 | adding an unvisited offset to a walk adds its target move exactly when the oracle accepts it, and that move is new |
| Generation.OffsetMovesInOrder | 2014UvsChess/StudentAI/StudentAI.cs:165-184 | whatever order the table is enumerated in, the walk appends each accepted target once, and only when the piece is flagged `ours` |
| Generation.OffsetDeltaInOrder | 2014UvsChess/StudentAI/StudentAI.cs:165-184 | whatever order the table is enumerated in, each square's gravity changes by the amount exactly when it is an accepted target |
| Generation.OffsetWalkEffect | 2014UvsChess/StudentAI/StudentAI.cs:163-227 | a knight's walk or a king's walk, in any enumeration order, appends exactly the piece's moves and adds exactly its gravity; this includes the enemy king's ray walk |
| Generation.MovesOf | 2014UvsChess/StudentAI/StudentAI.cs:133-306 | every move appended for a piece leaves its square, is appended only when the piece is flagged `ours`, and is accepted by the oracle for the piece's own colour |
| Generation.SlidersContributeNothing | 2014UvsChess/StudentAI/StudentAI.cs:138-305 | pawns, bishops, rooks and queens append no move and change no square's gravity |
| Generation.MoveDeltaIsUnit | 2014UvsChess/StudentAI/StudentAI.cs:186-226 | a piece changes any square's gravity by at most one; an enemy king lowers by one exactly the adjacent accepted squares, so the +10 never happens |
| Generation.EnemyKingRepels | 2014UvsChess/StudentAI/StudentAI.cs:202-223 | an enemy king's seven-step ray walk has the same effect as a single step in each king direction, lowering each accepted target by one |
| Generation.SquareMovesLeave | 2014UvsChess/StudentAI/StudentAI.cs:108-128 | the moves produced at a square all leave that square, and each occurs once |
| Generation.RowDeltaSplit | 2014UvsChess/StudentAI/StudentAI.cs:108-128 | the gravity one rank adds at a square splits into the material on that square, if it was scanned, plus the effect of the moves |
| Generation.GravityDecomposes | 2014UvsChess/StudentAI/StudentAI.cs:104-131 | each square is visited once: a square's gravity is the value of an own, non-king piece standing on it plus the moves' effects; no other piece's value reaches it |
| Generation.RowMovesCount | 2014UvsChess/StudentAI/StudentAI.cs:108-128 | within a rank, a move occurs once if its origin square has been scanned and produces it, and otherwise not at all |
| Generation.GridMovesCount | 2014UvsChess/StudentAI/StudentAI.cs:104-131 | after `y` ranks, a move occurs once if its origin square has been scanned and produces it, and otherwise not at all |
| Generation.GeneratedMoves | 2014UvsChess/StudentAI/StudentAI.cs:104-306 | a full scan lists a move at most once; it lists exactly the knight leaps and king steps the oracle accepts for pieces not of the engine's colour |
| StudentAI.RayStep | 2014UvsChess/StudentAI/StudentAI.cs:207 | the square `i` steps along a ray is `i` king steps away on a straight or diagonal line in that direction; the first step is the plain offset |
| StudentAI.KingFarRejected | 2014UvsChess/StudentAI/StudentAI.cs:586-589 | a king move of two or more steps is never accepted |
| StudentAI.QueenLineRejected | 2014UvsChess/StudentAI/StudentAI.cs:565-572 | a straight or diagonal queen move is never accepted |
| StudentAI.StudentAI.constructor | 2014UvsChess/StudentAI/StudentAI.cs:25-28 | a new engine has no grid, an empty move list and an empty board |
| StudentAI.StudentAI.GetNextMove | 2014UvsChess/StudentAI/StudentAI.cs:94-102 | the engine adopts the board and the colour; the grid is fresh, 8×8 and holds exactly one scan's gravity; the list holds exactly the scan's moves; the returned move is the list's first move, and it is absent exactly when the scan found none |
| StudentAI.StudentAI.GenerateGravity | 2014UvsChess/StudentAI/StudentAI.cs:104-131 | the list is only extended, by exactly the scan's moves, and each square's gravity grows by exactly the scan's amount |
| StudentAI.StudentAI.ScanRank | 2014UvsChess/StudentAI/StudentAI.cs:106-130 | one rank extends the list by exactly that rank's moves and adds exactly that rank's gravity |
| StudentAI.StudentAI.ScanSquare | 2014UvsChess/StudentAI/StudentAI.cs:110-127 | one square extends the list by exactly its piece's moves and adds its piece's value and move effects to the grid |
| StudentAI.StudentAI.GenerateMoves | 2014UvsChess/StudentAI/StudentAI.cs:133-306 | the list is only extended, by exactly the piece's moves; for a piece not flagged `ours` it is unchanged; each square's gravity changes by exactly the piece's effect |
| StudentAI.StudentAI.GeneratePawnMoves | 2014UvsChess/StudentAI/StudentAI.cs:138-162 | every pawn target is rejected, so the branch changes nothing |
| StudentAI.StudentAI.GenerateKnightMoves | 2014UvsChess/StudentAI/StudentAI.cs:163-185 | the table is enumerated once, each offset once, and the list and the grid change by the walk in that order |
| StudentAI.StudentAI.VisitOffset | 2014UvsChess/StudentAI/StudentAI.cs:165-184 | one offset appends its target when it is on the board, the oracle accepts it and the piece is `ours`; the target's gravity moves by one, up when `ours` and down otherwise |
| StudentAI.StudentAI.GenerateKingMoves | 2014UvsChess/StudentAI/StudentAI.cs:186-227 | the table is enumerated once, each direction once, and the list and the grid change by the walk in that order |
| StudentAI.StudentAI.VisitKingOffset | 2014UvsChess/StudentAI/StudentAI.cs:188-225 | one direction of a king, whether a single step or a ray, has exactly the effect of one step |
| StudentAI.StudentAI.WalkEnemyKingRay | 2014UvsChess/StudentAI/StudentAI.cs:202-223 | seven steps along a direction lower only the first step's target, and only when it is accepted |
| StudentAI.StudentAI.GenerateRayMoves | 2014UvsChess/StudentAI/StudentAI.cs:228-305 | the bishop, rook and queen rays visit only targets the oracle rejects, so they change nothing |
| StudentAI.StudentAI.IsValidMove | 2014UvsChess/StudentAI/StudentAI.cs:346-356 | the engine adopts the board and answers with the oracle's verdict for the piece on the origin square |
| StudentAI.StudentAI.CheckMove | 2014UvsChess/StudentAI/StudentAI.cs:358-394 | the answer is the oracle's verdict: false for an off-board destination, false when the destination holds the mover's colour, and true only for a knight, queen or king |
| StudentAI.StudentAI.CheckPawn | 2014UvsChess/StudentAI/StudentAI.cs:396-426 | no pawn move is ever accepted |
| StudentAI.StudentAI.CheckKnight | 2014UvsChess/StudentAI/StudentAI.cs:428-443 | a knight move is accepted exactly when its squared length is 5; the board is not read |
| StudentAI.StudentAI.CheckBishop | 2014UvsChess/StudentAI/StudentAI.cs:445-499 | no bishop move is accepted; for a diagonal, the squares probed are exactly those strictly between the ends, all on the board |
| StudentAI.StudentAI.BishopBlockersRising | 2014UvsChess/StudentAI/StudentAI.cs:457-474 | the loops can only clear the flag, and they probe exactly the interior squares of an upward diagonal |
| StudentAI.StudentAI.BishopBlockersFalling | 2014UvsChess/StudentAI/StudentAI.cs:475-494 | the loops can only clear the flag, and they probe exactly the interior squares of a downward diagonal |
| StudentAI.StudentAI.CheckRook | 2014UvsChess/StudentAI/StudentAI.cs:501-554 | no rook move is accepted; for a straight move, the squares probed are exactly those strictly between the ends, all on the board |
| StudentAI.StudentAI.RookBlockersAlongFile | 2014UvsChess/StudentAI/StudentAI.cs:511-529 | the loops can only clear the flag, and they probe exactly the interior squares of a move within a file |
| StudentAI.StudentAI.RookBlockersAlongRank | 2014UvsChess/StudentAI/StudentAI.cs:530-550 | the loops can only clear the flag, and they probe exactly the interior squares of a move within a rank |
| StudentAI.StudentAI.CheckQueen | 2014UvsChess/StudentAI/StudentAI.cs:556-573 | a queen move is accepted exactly when it is neither straight nor diagonal |
| StudentAI.StudentAI.CheckKing | 2014UvsChess/StudentAI/StudentAI.cs:575-590 | a king move is accepted exactly when its squared length is at most 2; this includes the zero move |
| StudentAI.StudentAI.CheckColorAtDest | 2014UvsChess/StudentAI/StudentAI.cs:594-607 | the destination passes exactly when it does not hold a piece of the mover's colour |

## Left out

- Logging of each scanned rank (StudentAI.cs:129) is not modelled.
- The `Name` property and its `#if DEBUG` variant (StudentAI.cs:16-23) are not modelled.
- The framework callbacks and their event wiring (StudentAI.cs:625-669) are not modelled. These are the `IsMyTurnOver`, `Log`, `Profiler` and `SetDecisionTree` properties.
- The commented-out stubs (StudentAI.cs:308-337) are not modelled.
- Piece kinds come from the enumeration name, with its colour prefix stripped, and the value table is looked up by that string. Here that is the function `KindOf`, and the table is keyed by kind.
- The framework's `ChessPiece` enumeration is taken in this order: black pieces, `Empty`, then white pieces. The engine's colour tests rely on that order; the framework is not part of this model.
- The gravity grid holds `double`s in the source. It holds `int`s here; every amount added is an integer.
- A `HashSet` has an unspecified enumeration order. Each loop picks any remaining element, so the contracts hold for every order.
- The move list and the grid are fields updated in place. Separate helpers model the bodies of the scan loops and the branches of `GenerateMoves`; these are `ScanRank`, `ScanSquare`, the `Generate…Moves` methods, `VisitOffset`, `VisitKingOffset`, `WalkEnemyKingRay`, `RayStep` and the bishop and rook blocker helpers. Each helper has its own contract.
- StudentAI.StudentAI.GeneratePawnMoves: the target rank is the offset's rank or its negation. Which one is chosen depends on the framework's numeric values for the colours, so the model leaves the choice open. Every pawn target is rejected either way.
- The pawn, bishop, rook and queen branches and the enemy king's `+10` can never reach their updates, because the oracle rejects every target they ask about. The model proves those branches unreachable and does not write their updates.
- StudentAI.StudentAI.GetNextMove: indexing an empty move list throws in the source. That outcome is `None` here.
- StudentAI.StudentAI.constructor: the source starts with null fields. The model starts with an empty board and an empty move list.
- StudentAI.StudentAI.CheckMove: requires the origin square to be on the board, because the source reads the piece there.
- StudentAI.StudentAI.IsValidMove: requires the origin square to be on the board, because the source reads the piece there.
