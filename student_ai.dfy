/** The engine object: the move-legality checkers, which read the board the
    engine was last handed, and the generator, which fills the move list and
    the gravity grid in place. */
module StudentAI {
  import opened ChessTypes
  import opened Legality
  import opened Generation

  /** The square `i` steps from (x1, y1) in the direction `loc`, computed
      as the generator's ray loops compute it: `i` steps of a direction span
      `i` king steps along a straight or diagonal line, and the first step
      is the plain offset. */
  method RayStep(x1: int, y1: int, loc: ChessLocation, i: int) returns (newLoc: ChessLocation)
    requires UnitStep(loc) && 1 <= i
    ensures i == 1 ==> newLoc == Target(ChessLocation(x1, y1), loc)
    ensures var m := ChessMove(ChessLocation(x1, y1), newLoc);
      Span(m) == i && (Diagonal(m) || Orthogonal(m)) && DirOf(m.From, m.To) == loc
  {
    newLoc := ChessLocation(x1 + loc.X * i, y1 + loc.Y * i);
    RayPointGeometry(ChessLocation(x1, y1), loc, i);
  }

  /** A king move of two or more steps is rejected. */
  lemma KingFarRejected(board: Board, piece: ChessPiece, color: ChessColor, m: ChessMove)
    requires piece != Empty && KindOf(piece) == King && Span(m) >= 2
    ensures !Verdict(board, piece, color, m)
  {
  }

  /** A straight or diagonal queen move is rejected. */
  lemma QueenLineRejected(board: Board, piece: ChessPiece, color: ChessColor, m: ChessMove)
    requires piece != Empty && KindOf(piece) == Queen && (Diagonal(m) || Orthogonal(m))
    ensures !Verdict(board, piece, color, m)
  {
  }

  class StudentAI {
    var ourColor: ChessColor
    var gravity: array2?<int>
    var possibleMoves: seq<ChessMove>
    var currentBoard: Board

    constructor ()
      ensures gravity == null && possibleMoves == [] && currentBoard == EmptyBoard
    {
      ourColor := White;
      gravity := null;
      possibleMoves := [];
      currentBoard := EmptyBoard;
    }

    /** The engine's turn: reset the grid and the move list, scan the board,
        and return the first move of the list. Indexing an empty list throws
        in the source; that outcome is `None` here. */
    method GetNextMove(board: Board, myColor: ChessColor) returns (move: Option<ChessMove>)
      modifies this
      ensures gravity != null && fresh(gravity) && gravity.Length0 == 8 && gravity.Length1 == 8
      ensures currentBoard == board && ourColor == myColor
      ensures multiset(possibleMoves) == ScanMoves(board, myColor)
      ensures forall a, b :: 0 <= a < 8 && 0 <= b < 8 ==>
        gravity[a, b] == ScanDelta(board, myColor, ChessLocation(a, b))
      ensures move == if possibleMoves == [] then None else Some(possibleMoves[0])
      ensures move.Some? ==> move.value in ScanMoves(board, myColor)
      ensures move.None? <==> ScanMoves(board, myColor) == multiset{}
    {
      gravity := new int[8, 8]((a, b) => 0);
      possibleMoves := [];
      currentBoard := board;
      ourColor := myColor;
      GenerateGravity();
      if possibleMoves == [] {
        move := None;
      } else {
        assert possibleMoves[0] in multiset(possibleMoves);
        move := Some(possibleMoves[0]);
      }
    }

    /** Scan all 64 squares, rank by rank; every piece adds its value to its
        own square unless it is `ours` or a king, then generates its moves.
        Moves are only ever appended. */
    method GenerateGravity()
      requires gravity != null && gravity.Length0 == 8 && gravity.Length1 == 8
      modifies this`possibleMoves, gravity
      ensures old(possibleMoves) <= possibleMoves
      ensures multiset(possibleMoves) == multiset(old(possibleMoves)) + ScanMoves(currentBoard, ourColor)
      ensures forall a, b :: 0 <= a < 8 && 0 <= b < 8 ==>
        gravity[a, b] == old(gravity[a, b]) + ScanDelta(currentBoard, ourColor, ChessLocation(a, b))
    {
      for y := 0 to 8
        invariant old(possibleMoves) <= possibleMoves
        invariant multiset(possibleMoves) == multiset(old(possibleMoves)) + GridMoves(currentBoard, ourColor, y)
        invariant forall a, b :: 0 <= a < 8 && 0 <= b < 8 ==>
          gravity[a, b] == old(gravity[a, b]) + GridDelta(currentBoard, ourColor, y, ChessLocation(a, b))
      {
        ScanRank(y);
      }
    }

    /** The inner loop of the scan: the squares of rank `y`, file by file. */
    method ScanRank(y: int)
      requires 0 <= y < 8
      requires gravity != null && gravity.Length0 == 8 && gravity.Length1 == 8
      modifies this`possibleMoves, gravity
      ensures old(possibleMoves) <= possibleMoves
      ensures multiset(possibleMoves) == multiset(old(possibleMoves)) + RowMoves(currentBoard, ourColor, y, 8)
      ensures forall a, b :: 0 <= a < 8 && 0 <= b < 8 ==>
        gravity[a, b] == old(gravity[a, b]) + RowDelta(currentBoard, ourColor, y, 8, ChessLocation(a, b))
    {
      for x := 0 to 8
        invariant old(possibleMoves) <= possibleMoves
        invariant multiset(possibleMoves) == multiset(old(possibleMoves)) + RowMoves(currentBoard, ourColor, y, x)
        invariant forall a, b :: 0 <= a < 8 && 0 <= b < 8 ==>
          gravity[a, b] == old(gravity[a, b]) + RowDelta(currentBoard, ourColor, y, x, ChessLocation(a, b))
      {
        ScanSquare(x, y);
      }
    }

    /** The body of the scan for the square (x, y). */
    method ScanSquare(x: int, y: int)
      requires 0 <= x < 8 && 0 <= y < 8
      requires gravity != null && gravity.Length0 == 8 && gravity.Length1 == 8
      modifies this`possibleMoves, gravity
      ensures old(possibleMoves) <= possibleMoves
      ensures multiset(possibleMoves) == multiset(old(possibleMoves)) + multiset(SquareMoves(currentBoard, ourColor, ChessLocation(x, y)))
      ensures forall a, b :: 0 <= a < 8 && 0 <= b < 8 ==>
        gravity[a, b] == old(gravity[a, b]) + SquareDelta(currentBoard, ourColor, ChessLocation(x, y), ChessLocation(a, b))
    {
      var here := ChessLocation(x, y);
      if At(currentBoard, here) != Empty {
        var ours := false;
        var piece := At(currentBoard, here);
        var pieceType := KindOf(piece);
        if !((Ordinal(piece) < Ordinal(Empty) && ourColor == Black) || (Ordinal(piece) > Ordinal(Empty) && ourColor == White)) {
          ours := true;
        }
        gravity[x, y] := gravity[x, y] + (if ours || pieceType == King then 0 else PieceValue(pieceType));
        GenerateMoves(piece, x, y, ours);
      }
    }

    /** Walk the candidate targets of the piece on (x1, y1), ask the oracle
        about each, and for every accepted one bump the gravity of the
        target (up if `ours`, down otherwise) and, if `ours`, append the
        move. One helper per branch of the source's dispatch on the kind. */
    method GenerateMoves(piece: ChessPiece, x1: int, y1: int, ours: bool)
      requires piece != Empty && OnBoard(ChessLocation(x1, y1))
      requires gravity != null && gravity.Length0 == 8 && gravity.Length1 == 8
      modifies this`possibleMoves, gravity
      ensures old(possibleMoves) <= possibleMoves
      ensures !ours ==> possibleMoves == old(possibleMoves)
      ensures multiset(possibleMoves) ==
        multiset(old(possibleMoves)) + multiset(MovesOf(currentBoard, piece, ChessLocation(x1, y1), ours))
      ensures forall a, b :: 0 <= a < 8 && 0 <= b < 8 ==>
        gravity[a, b] == old(gravity[a, b]) + MoveDelta(currentBoard, piece, ChessLocation(x1, y1), ours, ChessLocation(a, b))
    {
      var color := if Ordinal(piece) < Ordinal(Empty) then Black else White;
      var kind := KindOf(piece);
      var from := ChessLocation(x1, y1);
      if kind == Pawn || kind == Bishop || kind == Rook || kind == Queen {
        if kind == Pawn {
          GeneratePawnMoves(piece, x1, y1, color);
        } else {
          var dirs := if kind == Bishop then BishopMoves else if kind == Rook then RookMoves else KingMoves;
          KingMovesAreUnitSteps();
          DirectionTables();
          GenerateRayMoves(piece, x1, y1, color, dirs);
        }
        SlidersContributeNothing(currentBoard, piece, from, ours);
      } else {
        ghost var order;
        if kind == Knight {
          order := GenerateKnightMoves(piece, x1, y1, ours, color, KnightMoves);
        } else {
          KingMovesAreUnitSteps();
          order := GenerateKingMoves(piece, x1, y1, ours, color, KingMoves);
        }
        OffsetWalkEffect(currentBoard, piece, from, order, ours);
        if !ours {
          OffsetMovesInNotOurs(currentBoard, piece, from, order);
        }
      }
    }

    /** The pawn branch: every target the oracle is asked about is rejected,
        so nothing is appended and no gravity changes. */
    method GeneratePawnMoves(piece: ChessPiece, x1: int, y1: int, color: ChessColor)
      requires piece != Empty && KindOf(piece) == Pawn && OnBoard(ChessLocation(x1, y1))
    {
      var currentLoc := ChessLocation(x1, y1);
      var rest := PawnMoves;
      while rest != {}
        decreases rest
      {
        var loc :| loc in rest;
        rest := rest - {loc};
        // The target rank is `loc.Y` or its negation, chosen by comparing
        // `y1` plus the colour's numeric value with White's; those values
        // belong to the framework, so the outcome of the comparison is left
        // open.
        var negate: bool :| true;
        var newY := if negate then -loc.Y else loc.Y;
        var newLoc := ChessLocation(x1 + loc.X, newY);
        if !OnBoard(newLoc) {
          continue;
        }
        var valid := CheckMove(piece, color, ChessMove(currentLoc, newLoc));
        if valid {
          // Unreachable: CheckPawn accepts nothing.
          assert false;
        }
      }
    }

    /** The knight branch over the knight's offset table `offs`: each
        accepted leap bumps its target's gravity and, if `ours`, is appended.
        `order` is the order in which the hash set was enumerated. */
    method GenerateKnightMoves(piece: ChessPiece, x1: int, y1: int, ours: bool, color: ChessColor, offs: set<ChessLocation>)
      returns (ghost order: seq<ChessLocation>)
      requires piece != Empty && KindOf(piece) == Knight && color == SideOf(piece) && OnBoard(ChessLocation(x1, y1))
      requires gravity != null && gravity.Length0 == 8 && gravity.Length1 == 8
      modifies this`possibleMoves, gravity
      ensures Distinct(order) && Elems(order) == offs
      ensures possibleMoves == old(possibleMoves) + OffsetMovesIn(currentBoard, piece, ChessLocation(x1, y1), order, ours)
      ensures forall a, b :: 0 <= a < 8 && 0 <= b < 8 ==>
        gravity[a, b] == old(gravity[a, b]) +
          OffsetDeltaIn(currentBoard, piece, ChessLocation(x1, y1), order, ChessLocation(a, b), if ours then 1 else -1)
    {
      var currentLoc := ChessLocation(x1, y1);
      var rest := offs;
      order := [];
      while rest != {}
        invariant rest + Elems(order) == offs && |rest| + |order| == |offs|
        invariant possibleMoves == old(possibleMoves) + OffsetMovesIn(currentBoard, piece, currentLoc, order, ours)
        invariant forall a, b :: 0 <= a < 8 && 0 <= b < 8 ==>
          gravity[a, b] == old(gravity[a, b]) +
            OffsetDeltaIn(currentBoard, piece, currentLoc, order, ChessLocation(a, b), if ours then 1 else -1)
        decreases |rest|
      {
        var loc :| loc in rest;
        rest := rest - {loc};
        ElemsSnoc(order, loc);
        OffsetWalkSnoc(currentBoard, piece, currentLoc, order, loc, ours, if ours then 1 else -1);
        AppendAssoc(old(possibleMoves), OffsetMovesIn(currentBoard, piece, currentLoc, order, ours),
          StepMoves(currentBoard, piece, currentLoc, loc, ours));
        order := order + [loc];
        VisitOffset(piece, x1, y1, ours, color, loc);
      }
      CountedElemsDistinct(order);
    }

    /** The king branch over the king's offset table `offs`: a king that is
        `ours` steps once in each direction and appends each accepted step;
        any other king walks each ray, -1 on the first step and +10 beyond,
        though only the first step is ever accepted. Either way each
        direction touches at most its first square. `order` is the order in which the hash set was enumerated. */
    method GenerateKingMoves(piece: ChessPiece, x1: int, y1: int, ours: bool, color: ChessColor, offs: set<ChessLocation>)
      returns (ghost order: seq<ChessLocation>)
      requires piece != Empty && KindOf(piece) == King && color == SideOf(piece) && OnBoard(ChessLocation(x1, y1))
      requires forall o :: o in offs ==> UnitStep(o)
      requires gravity != null && gravity.Length0 == 8 && gravity.Length1 == 8
      modifies this`possibleMoves, gravity
      ensures Distinct(order) && Elems(order) == offs
      ensures possibleMoves == old(possibleMoves) + OffsetMovesIn(currentBoard, piece, ChessLocation(x1, y1), order, ours)
      ensures forall a, b :: 0 <= a < 8 && 0 <= b < 8 ==>
        gravity[a, b] == old(gravity[a, b]) +
          OffsetDeltaIn(currentBoard, piece, ChessLocation(x1, y1), order, ChessLocation(a, b), if ours then 1 else -1)
    {
      var currentLoc := ChessLocation(x1, y1);
      var rest := offs;
      order := [];
      while rest != {}
        invariant rest + Elems(order) == offs && |rest| + |order| == |offs|
        invariant possibleMoves == old(possibleMoves) + OffsetMovesIn(currentBoard, piece, currentLoc, order, ours)
        invariant forall a, b :: 0 <= a < 8 && 0 <= b < 8 ==>
          gravity[a, b] == old(gravity[a, b]) +
            OffsetDeltaIn(currentBoard, piece, currentLoc, order, ChessLocation(a, b), if ours then 1 else -1)
        decreases |rest|
      {
        var loc :| loc in rest;
        rest := rest - {loc};
        ElemsSnoc(order, loc);
        OffsetWalkSnoc(currentBoard, piece, currentLoc, order, loc, ours, if ours then 1 else -1);
        AppendAssoc(old(possibleMoves), OffsetMovesIn(currentBoard, piece, currentLoc, order, ours),
          StepMoves(currentBoard, piece, currentLoc, loc, ours));
        order := order + [loc];
        VisitKingOffset(piece, x1, y1, ours, color, loc);
      }
      CountedElemsDistinct(order);
    }

    /** The body of the king's loop for the direction `loc`: one step if the
        king is `ours`, the whole ray otherwise. */
    method VisitKingOffset(piece: ChessPiece, x1: int, y1: int, ours: bool, color: ChessColor, loc: ChessLocation)
      requires piece != Empty && KindOf(piece) == King && color == SideOf(piece) && OnBoard(ChessLocation(x1, y1))
      requires UnitStep(loc)
      requires gravity != null && gravity.Length0 == 8 && gravity.Length1 == 8
      modifies this`possibleMoves, gravity
      ensures possibleMoves == old(possibleMoves) + StepMoves(currentBoard, piece, ChessLocation(x1, y1), loc, ours)
      ensures forall a, b :: 0 <= a < 8 && 0 <= b < 8 ==>
        gravity[a, b] == old(gravity[a, b]) + StepDelta(currentBoard, piece, ChessLocation(x1, y1), loc, ChessLocation(a, b), if ours then 1 else -1)
    {
      if ours {
        VisitOffset(piece, x1, y1, true, color, loc);
      } else {
        WalkEnemyKingRay(piece, x1, y1, loc, color);
      }
    }

    /** One fixed offset of a knight, or of a king that is `ours`: if the
        target is on the board and the oracle accepts it, bump its gravity
        (up if `ours`, down otherwise) and, if `ours`, append the move. */
    method VisitOffset(piece: ChessPiece, x1: int, y1: int, ours: bool, color: ChessColor, loc: ChessLocation)
      requires piece != Empty && color == SideOf(piece) && OnBoard(ChessLocation(x1, y1))
      requires gravity != null && gravity.Length0 == 8 && gravity.Length1 == 8
      modifies this`possibleMoves, gravity
      ensures possibleMoves == old(possibleMoves) + StepMoves(currentBoard, piece, ChessLocation(x1, y1), loc, ours)
      ensures forall a, b :: 0 <= a < 8 && 0 <= b < 8 ==>
        gravity[a, b] == old(gravity[a, b]) + StepDelta(currentBoard, piece, ChessLocation(x1, y1), loc, ChessLocation(a, b), if ours then 1 else -1)
    {
      var currentLoc := ChessLocation(x1, y1);
      var newLoc := ChessLocation(x1 + loc.X, y1 + loc.Y);
      if !OnBoard(newLoc) {
        return;
      }
      var valid := CheckMove(piece, color, ChessMove(currentLoc, newLoc));
      if valid {
        if ours {
          gravity[newLoc.X, newLoc.Y] := gravity[newLoc.X, newLoc.Y] + 1;
          possibleMoves := possibleMoves + [ChessMove(currentLoc, newLoc)];
        } else {
          gravity[newLoc.X, newLoc.Y] := gravity[newLoc.X, newLoc.Y] - 1;
        }
      }
    }

    /** One ray of a king that is not `ours`: steps 1 to 7 in direction
        `loc`. Only the first step can be accepted, and it lowers its
        square's gravity by one. */
    method WalkEnemyKingRay(piece: ChessPiece, x1: int, y1: int, loc: ChessLocation, color: ChessColor)
      requires piece != Empty && KindOf(piece) == King && color == SideOf(piece) && OnBoard(ChessLocation(x1, y1))
      requires UnitStep(loc)
      requires gravity != null && gravity.Length0 == 8 && gravity.Length1 == 8
      modifies gravity
      ensures forall a, b :: 0 <= a < 8 && 0 <= b < 8 ==>
        gravity[a, b] == old(gravity[a, b]) + StepDelta(currentBoard, piece, ChessLocation(x1, y1), loc, ChessLocation(a, b), -1)
    {
      var currentLoc := ChessLocation(x1, y1);
      for i := 1 to 8
        invariant forall a, b :: 0 <= a < 8 && 0 <= b < 8 ==>
          gravity[a, b] == old(gravity[a, b]) +
            (if i > 1 then StepDelta(currentBoard, piece, currentLoc, loc, ChessLocation(a, b), -1) else 0)
      {
        var newLoc := RayStep(x1, y1, loc, i);
        if i >= 2 {
          KingFarRejected(currentBoard, piece, color, ChessMove(currentLoc, newLoc));
        }
        if !OnBoard(newLoc) {
          continue;
        }
        var valid := CheckMove(piece, color, ChessMove(currentLoc, newLoc));
        if valid {
          if i == 1 {
            gravity[newLoc.X, newLoc.Y] := gravity[newLoc.X, newLoc.Y] - 1;
          } else {
            // Unreachable: CheckKing rejects every target two or more steps
            // away, so the +10 never happens.
            assert false;
          }
        }
      }
    }

    /** The bishop, rook and queen branches: rays of 1 to 7 steps in the
        directions `dirs`. Every target is rejected, so nothing is appended
        and no gravity changes. */
    method GenerateRayMoves(piece: ChessPiece, x1: int, y1: int, color: ChessColor, dirs: set<ChessLocation>)
      requires piece != Empty && KindOf(piece) in {Bishop, Rook, Queen} && OnBoard(ChessLocation(x1, y1))
      requires forall o :: o in dirs ==> UnitStep(o)
    {
      var currentLoc := ChessLocation(x1, y1);
      var rest := dirs;
      while rest != {}
        invariant rest <= dirs
        decreases rest
      {
        var loc :| loc in rest;
        rest := rest - {loc};
        for i := 1 to 8
        {
          var newLoc := RayStep(x1, y1, loc, i);
          if !OnBoard(newLoc) {
            continue;
          }
          if KindOf(piece) == Queen {
            QueenLineRejected(currentBoard, piece, color, ChessMove(currentLoc, newLoc));
          }
          var valid := CheckMove(piece, color, ChessMove(currentLoc, newLoc));
          if valid {
            // Unreachable: CheckBishop and CheckRook accept nothing, and a
            // queen's ray step is always straight or diagonal.
            assert false;
          }
        }
      }
    }

    /** The framework's check of an opponent's move: adopt the board, then
        ask the oracle about the piece on the move's origin. */
    method IsValidMove(boardBeforeMove: Board, moveToCheck: ChessMove, colorOfPlayerMoving: ChessColor) returns (valid: bool)
      requires OnBoard(moveToCheck.From)
      modifies this`currentBoard
      ensures currentBoard == boardBeforeMove
      ensures valid == Verdict(boardBeforeMove, At(boardBeforeMove, moveToCheck.From), colorOfPlayerMoving, moveToCheck)
    {
      currentBoard := boardBeforeMove;
      valid := false;
      var pieceToMove := At(boardBeforeMove, moveToCheck.From);
      valid := CheckMove(pieceToMove, colorOfPlayerMoving, moveToCheck);
    }

    /** The oracle: reject a destination off the board before reading
        anything, dispatch on the piece, then apply the destination-colour
        gate. */
    method CheckMove(piece: ChessPiece, color: ChessColor, move: ChessMove) returns (validMove: bool)
      requires OnBoard(move.From)
      ensures validMove == Verdict(currentBoard, piece, color, move)
      ensures !OnBoard(move.To) ==> !validMove
      ensures OnBoard(move.To) && OccupiedBy(At(currentBoard, move.To), color) ==> !validMove
      ensures validMove ==> piece != Empty && KindOf(piece) in {Knight, Queen, King}
    {
      validMove := false;
      if move.To.X < 0 || move.To.X > 7 || move.To.Y < 0 || move.To.Y > 7 {
        return false;
      }
      ghost var probed: seq<ChessLocation>;
      if piece == WhitePawn || piece == BlackPawn {
        validMove := CheckPawn(move, color);
      } else if piece == WhiteKnight || piece == BlackKnight {
        validMove := CheckKnight(move);
      } else if piece == WhiteBishop || piece == BlackBishop {
        validMove, probed := CheckBishop(move);
      } else if piece == WhiteRook || piece == BlackRook {
        validMove, probed := CheckRook(move);
      } else if piece == WhiteQueen || piece == BlackQueen {
        validMove := CheckQueen(move);
      } else if piece == WhiteKing || piece == BlackKing {
        validMove := CheckKing(move);
      }
      if !CheckColorAtDest(color, move) {
        validMove := false;
      }
    }

    /** The pawn checker. Each colour's test may set the flag, but the flag
        is overwritten with false right after it, so no pawn move is ever
        accepted. */
    method CheckPawn(move: ChessMove, color: ChessColor) returns (moveable: bool)
      requires OnBoard(move.To)
      ensures !moveable
    {
      moveable := false;
      var x1, y1 := move.From.X, move.From.Y;
      var x2, y2 := move.To.X, move.To.Y;
      var d_x, d_y := x2 - x1, y2 - y1;
      if color == White {
        if (d_x == 0 && (d_y == -1 || (d_y == -2 && y1 == 6)) && At(currentBoard, move.To) == Empty) ||
           ((d_x == 1 || d_x == -1) && d_y == -1 && At(currentBoard, move.To) != Empty) {
          moveable := true;
        }
        moveable := false;
      } else {
        if (d_x == 0 && (d_y == 1 || (d_y == 2 && y1 == 1)) && At(currentBoard, move.To) == Empty) ||
           ((d_x == 1 || d_x == -1) && d_y == 1 && At(currentBoard, move.To) != Empty) {
          moveable := true;
        }
        moveable := false;
      }
    }

    /** The knight checker; it never looks at the board. */
    function CheckKnight(move: ChessMove): (moveable: bool)
      ensures moveable <==> SquaredLength(move) == 5
    {
      KnightLeapLength(move);
      var d_x, d_y := move.To.X - move.From.X, move.To.Y - move.From.Y;
      (Abs(d_x) == 1 && Abs(d_y) == 2) || (Abs(d_x) == 2 && Abs(d_y) == 1)
    }

    /** The bishop checker. The flag starts false and the blocker loops only
        ever clear it, so no move is accepted; the loops read exactly the
        squares strictly between the ends of a diagonal move. */
    method CheckBishop(move: ChessMove) returns (moveable: bool, ghost probed: seq<ChessLocation>)
      requires OnBoard(move.From) && OnBoard(move.To)
      ensures !moveable
      ensures probed == if Diagonal(move) then Interior(move) else []
      ensures forall k :: 0 <= k < |probed| ==> OnBoard(probed[k]) && StrictlyBetween(move.From, probed[k], move.To)
    {
      var d_x, d_y := move.To.X - move.From.X, move.To.Y - move.From.Y;
      probed := [];
      moveable := false;
      if Abs(d_x) == Abs(d_y) {
        if d_y > 0 {
          moveable, probed := BishopBlockersRising(move, moveable);
        } else {
          moveable, probed := BishopBlockersFalling(move, moveable);
        }
      } else {
        moveable := false;
      }
      if |probed| > 0 {
        InteriorStrictlyBetween(move);
      }
    }

    /** The bishop's blocker loops for a diagonal move up the board (d_y > 0),
        to the right or to the left. Each occupied square clears the flag and
        nothing ever sets it. */
    method BishopBlockersRising(move: ChessMove, moveable0: bool) returns (moveable: bool, ghost probed: seq<ChessLocation>)
      requires OnBoard(move.From) && OnBoard(move.To)
      requires Diagonal(move) && DeltaY(move) > 0
      ensures moveable ==> moveable0
      ensures probed == Interior(move)
    {
      var x1, y1 := move.From.X, move.From.Y;
      var d_x := move.To.X - x1;
      probed := [];
      moveable := moveable0;
      if d_x > 0 {
        var i := 1;
        while i < d_x
          invariant 1 <= i <= d_x
          invariant moveable ==> moveable0
          invariant probed == Interior(move)[..i - 1]
        {
          InteriorSnoc(move, i - 1);
          probed := probed + [ChessLocation(x1 + i, y1 + i)];
          if At(currentBoard, ChessLocation(x1 + i, y1 + i)) != Empty {
            moveable := false;
          }
          i := i + 1;
        }
      } else {
        var i := -1;
        while i > d_x
          invariant d_x <= i <= -1
          invariant moveable ==> moveable0
          invariant probed == Interior(move)[..-i - 1]
        {
          InteriorSnoc(move, -i - 1);
          probed := probed + [ChessLocation(x1 + i, y1 - i)];
          if At(currentBoard, ChessLocation(x1 + i, y1 - i)) != Empty {
            moveable := false;
          }
          i := i - 1;
        }
      }
    }

    /** The bishop's blocker loops for a diagonal move down the board
        (d_y <= 0), to the right or to the left; the zero move walks nothing. */
    method BishopBlockersFalling(move: ChessMove, moveable0: bool) returns (moveable: bool, ghost probed: seq<ChessLocation>)
      requires OnBoard(move.From) && OnBoard(move.To)
      requires Diagonal(move) && DeltaY(move) <= 0
      ensures moveable ==> moveable0
      ensures probed == Interior(move)
    {
      var x1, y1 := move.From.X, move.From.Y;
      var d_x := move.To.X - x1;
      probed := [];
      moveable := moveable0;
      if d_x > 0 {
        var i := 1;
        while i < d_x
          invariant 1 <= i <= d_x
          invariant moveable ==> moveable0
          invariant probed == Interior(move)[..i - 1]
        {
          InteriorSnoc(move, i - 1);
          probed := probed + [ChessLocation(x1 + i, y1 - i)];
          if At(currentBoard, ChessLocation(x1 + i, y1 - i)) != Empty {
            moveable := false;
          }
          i := i + 1;
        }
      } else {
        var i := -1;
        while i > d_x
          invariant d_x <= i <= -1 || (d_x == 0 && i == -1)
          invariant moveable ==> moveable0
          invariant probed == Interior(move)[..-i - 1]
        {
          InteriorSnoc(move, -i - 1);
          probed := probed + [ChessLocation(x1 + i, y1 + i)];
          if At(currentBoard, ChessLocation(x1 + i, y1 + i)) != Empty {
            moveable := false;
          }
          i := i - 1;
        }
      }
    }

    /** The rook checker. As with the bishop, the flag starts false and is
        never set, so no move is accepted; the loops read exactly the squares
        strictly between the ends of a straight move. */
    method CheckRook(move: ChessMove) returns (moveable: bool, ghost probed: seq<ChessLocation>)
      requires OnBoard(move.From) && OnBoard(move.To)
      ensures !moveable
      ensures probed == if Orthogonal(move) then Interior(move) else []
      ensures forall k :: 0 <= k < |probed| ==> OnBoard(probed[k]) && StrictlyBetween(move.From, probed[k], move.To)
    {
      var d_x, d_y := move.To.X - move.From.X, move.To.Y - move.From.Y;
      probed := [];
      moveable := false;
      if d_x == 0 {
        moveable, probed := RookBlockersAlongFile(move, moveable);
      } else if d_y == 0 {
        moveable, probed := RookBlockersAlongRank(move, moveable);
      } else {
        moveable := false;
      }
      if |probed| > 0 {
        InteriorStrictlyBetween(move);
      }
    }

    /** The rook's blocker loops for a move within its file (d_x == 0), up or
        down; the zero move walks nothing. Each occupied square clears the
        flag and nothing ever sets it. */
    method RookBlockersAlongFile(move: ChessMove, moveable0: bool) returns (moveable: bool, ghost probed: seq<ChessLocation>)
      requires OnBoard(move.From) && OnBoard(move.To)
      requires DeltaX(move) == 0
      ensures moveable ==> moveable0
      ensures probed == Interior(move)
    {
      var x1, y1 := move.From.X, move.From.Y;
      var d_y := move.To.Y - y1;
      probed := [];
      moveable := moveable0;
      if d_y > 0 {
        var i := 1;
        while i < d_y
          invariant 1 <= i <= d_y
          invariant moveable ==> moveable0
          invariant probed == Interior(move)[..i - 1]
        {
          InteriorSnoc(move, i - 1);
          probed := probed + [ChessLocation(x1, y1 + i)];
          if At(currentBoard, ChessLocation(x1, y1 + i)) != Empty {
            moveable := false;
          }
          i := i + 1;
        }
      } else {
        var i := -1;
        while i > d_y
          invariant d_y <= i <= -1 || (d_y == 0 && i == -1)
          invariant moveable ==> moveable0
          invariant probed == Interior(move)[..-i - 1]
        {
          InteriorSnoc(move, -i - 1);
          probed := probed + [ChessLocation(x1, y1 + i)];
          if At(currentBoard, ChessLocation(x1, y1 + i)) != Empty {
            moveable := false;
          }
          i := i - 1;
        }
      }
    }

    /** The rook's blocker loops for a move within its rank (d_y == 0, d_x
        not 0), right or left. */
    method RookBlockersAlongRank(move: ChessMove, moveable0: bool) returns (moveable: bool, ghost probed: seq<ChessLocation>)
      requires OnBoard(move.From) && OnBoard(move.To)
      requires DeltaY(move) == 0 && DeltaX(move) != 0
      ensures moveable ==> moveable0
      ensures probed == Interior(move)
    {
      var x1, y1 := move.From.X, move.From.Y;
      var d_x := move.To.X - x1;
      probed := [];
      moveable := moveable0;
      if d_x > 0 {
        var i := 1;
        while i < d_x
          invariant 1 <= i <= d_x
          invariant moveable ==> moveable0
          invariant probed == Interior(move)[..i - 1]
        {
          InteriorSnoc(move, i - 1);
          probed := probed + [ChessLocation(x1 + i, y1)];
          if At(currentBoard, ChessLocation(x1 + i, y1)) != Empty {
            moveable := false;
          }
          i := i + 1;
        }
      } else {
        var i := -1;
        while i > d_x
          invariant d_x <= i <= -1
          invariant moveable ==> moveable0
          invariant probed == Interior(move)[..-i - 1]
        {
          InteriorSnoc(move, -i - 1);
          probed := probed + [ChessLocation(x1 + i, y1)];
          if At(currentBoard, ChessLocation(x1 + i, y1)) != Empty {
            moveable := false;
          }
          i := i - 1;
        }
      }
    }

    /** The queen checker: a diagonal goes to the bishop checker, a straight
        line to the rook checker, and anything else is accepted. */
    method CheckQueen(move: ChessMove) returns (moveable: bool)
      requires OnBoard(move.From) && OnBoard(move.To)
      ensures moveable <==> !Diagonal(move) && !Orthogonal(move)
    {
      var d_x, d_y := move.To.X - move.From.X, move.To.Y - move.From.Y;
      moveable := true;
      ghost var probed: seq<ChessLocation>;
      if Abs(d_x) == Abs(d_y) {
        moveable, probed := CheckBishop(move);
      } else if d_x == 0 || d_y == 0 {
        moveable, probed := CheckRook(move);
      }
    }

    /** The king checker: at most one square in each direction, the zero
        move included. */
    function CheckKing(move: ChessMove): (moveable: bool)
      ensures moveable <==> SquaredLength(move) <= 2
      ensures move.From == move.To ==> moveable
    {
      KingStepLength(move);
      var d_x, d_y := move.To.X - move.From.X, move.To.Y - move.From.Y;
      Abs(d_x) <= 1 && Abs(d_y) <= 1
    }

    /** The destination-colour gate, written in the source as an ordinal
        comparison with Empty: it fails exactly when the destination holds a
        piece of the mover's colour. */
    function CheckColorAtDest(color: ChessColor, move: ChessMove): (r: bool)
      requires OnBoard(move.To)
      reads this
      ensures r <==> !OccupiedBy(At(currentBoard, move.To), color)
    {
      var dest := At(currentBoard, move.To);
      if color == White then
        !(Ordinal(dest) > Ordinal(Empty))
      else
        !(Ordinal(dest) < Ordinal(Empty))
    }
  }
}
