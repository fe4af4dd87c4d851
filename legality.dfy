/** What the engine's move-legality oracle decides, as a pure function of the
    board, the piece, the mover's colour and the move. The oracle is stated as
    the source computes it, which is not the rules of chess: pawns, bishops and
    rooks are never accepted, a queen is accepted only off its lines, and no
    checker's answer depends on the squares a piece passes over, although the
    bishop and rook checkers read them. */
module Legality {
  import opened ChessTypes

  function Abs(n: int): nat
  {
    if n < 0 then -n else n
  }

  function DeltaX(m: ChessMove): int
  {
    m.To.X - m.From.X
  }

  function DeltaY(m: ChessMove): int
  {
    m.To.Y - m.From.Y
  }

  /** A knight's leap: one square one way and two the other. */
  predicate KnightLeap(m: ChessMove)
  {
    (Abs(DeltaX(m)) == 1 && Abs(DeltaY(m)) == 2) || (Abs(DeltaX(m)) == 2 && Abs(DeltaY(m)) == 1)
  }

  /** A king's step, staying put included: at most one square each way. */
  predicate KingStep(m: ChessMove)
  {
    Abs(DeltaX(m)) <= 1 && Abs(DeltaY(m)) <= 1
  }

  predicate Diagonal(m: ChessMove)
  {
    Abs(DeltaX(m)) == Abs(DeltaY(m))
  }

  predicate Orthogonal(m: ChessMove)
  {
    DeltaX(m) == 0 || DeltaY(m) == 0
  }

  /** Squared Euclidean length of the displacement. */
  function SquaredLength(m: ChessMove): int
  {
    DeltaX(m) * DeltaX(m) + DeltaY(m) * DeltaY(m)
  }

  lemma SquareAtLeast(a: int, b: nat)
    requires Abs(a) >= b
    ensures a * a >= b * b
  {
    assert a * a == Abs(a) * Abs(a);
    assert Abs(a) * Abs(a) >= b * Abs(a) >= b * b;
  }

  /** The knight's leaps are exactly the displacements of squared length five. */
  lemma KnightLeapLength(m: ChessMove)
    ensures KnightLeap(m) <==> SquaredLength(m) == 5
  {
    var dx, dy := DeltaX(m), DeltaY(m);
    if Abs(dx) >= 3 {
      SquareAtLeast(dx, 3);
      assert dy * dy >= 0;
    } else if Abs(dy) >= 3 {
      SquareAtLeast(dy, 3);
      assert dx * dx >= 0;
    } else {
      assert -2 <= dx <= 2 && -2 <= dy <= 2;
    }
  }

  /** The king's steps are exactly the displacements of squared length at most two. */
  lemma KingStepLength(m: ChessMove)
    ensures KingStep(m) <==> SquaredLength(m) <= 2
  {
    var dx, dy := DeltaX(m), DeltaY(m);
    if Abs(dx) >= 2 {
      SquareAtLeast(dx, 2);
      assert dy * dy >= 0;
    } else if Abs(dy) >= 2 {
      SquareAtLeast(dy, 2);
      assert dx * dx >= 0;
    } else {
      assert -1 <= dx <= 1 && -1 <= dy <= 1;
    }
  }

  /** What the per-kind checker accepts, before the destination-colour gate. */
  function KindVerdict(piece: ChessPiece, m: ChessMove): bool
  {
    if piece == Empty then false
    else match KindOf(piece)
      case Pawn => false
      case Knight => KnightLeap(m)
      case Bishop => false
      case Rook => false
      case Queen => !Diagonal(m) && !Orthogonal(m)
      case King => KingStep(m)
  }

  /** The oracle: the destination is on the board, the piece's checker
      accepts the displacement, and the destination does not hold a piece of
      the mover's colour. */
  function Verdict(board: Board, piece: ChessPiece, color: ChessColor, m: ChessMove): bool
  {
    OnBoard(m.To) && KindVerdict(piece, m) && !OccupiedBy(At(board, m.To), color)
  }

  /** Only knights, queens and kings are ever accepted, and each only in its
      own shape. */
  lemma VerdictAcceptedShapes(board: Board, piece: ChessPiece, color: ChessColor, m: ChessMove)
    requires Verdict(board, piece, color, m)
    ensures piece != Empty && OnBoard(m.To)
    ensures KindOf(piece) == Knight ==> (Abs(DeltaX(m)) == 1 && Abs(DeltaY(m)) == 2) || (Abs(DeltaX(m)) == 2 && Abs(DeltaY(m)) == 1)
    ensures KindOf(piece) == King ==> Abs(DeltaX(m)) <= 1 && Abs(DeltaY(m)) <= 1
    ensures KindOf(piece) == Queen ==> DeltaX(m) != 0 && DeltaY(m) != 0 && Abs(DeltaX(m)) != Abs(DeltaY(m))
    ensures KindOf(piece) != Pawn && KindOf(piece) != Bishop && KindOf(piece) != Rook
  {
  }

  /** The oracle's answer depends on no square but the destination: two
      boards that agree there get the same verdict, whatever stands in
      between. */
  lemma VerdictReadsOnlyDestination(b1: Board, b2: Board, piece: ChessPiece, color: ChessColor, m: ChessMove)
    requires OnBoard(m.To) ==> At(b1, m.To) == At(b2, m.To)
    ensures Verdict(b1, piece, color, m) == Verdict(b2, piece, color, m)
  {
  }

  // The squares a sliding checker walks over.

  /** `j` steps from `a` toward `b` (no movement when they are equal). */
  function Toward(a: int, b: int, j: int): int
  {
    if a < b then a + j else if b < a then a - j else a
  }

  function Step(m: ChessMove, j: int): ChessLocation
  {
    ChessLocation(Toward(m.From.X, m.To.X, j), Toward(m.From.Y, m.To.Y, j))
  }

  /** The number of king steps a slide along the move takes. */
  function Span(m: ChessMove): nat
  {
    if Abs(DeltaX(m)) < Abs(DeltaY(m)) then Abs(DeltaY(m)) else Abs(DeltaX(m))
  }

  /** The squares strictly between the ends of a straight or diagonal move,
      nearest the origin first. */
  function Interior(m: ChessMove): seq<ChessLocation>
  {
    seq(if Span(m) > 1 then Span(m) - 1 else 0, k => Step(m, k + 1))
  }

  /** Walking one more interior square extends the walked prefix by it. */
  lemma InteriorSnoc(m: ChessMove, j: int)
    requires 0 <= j < |Interior(m)|
    ensures Interior(m)[..j + 1] == Interior(m)[..j] + [Step(m, j + 1)]
  {
  }

  predicate Within(a: int, c: int, b: int)
  {
    (a <= c <= b) || (b <= c <= a)
  }

  predicate StrictlyBetween(from: ChessLocation, s: ChessLocation, to: ChessLocation)
  {
    s != from && s != to && Within(from.X, s.X, to.X) && Within(from.Y, s.Y, to.Y)
  }

  /** For a straight or diagonal move between two squares of the board, the
      interior squares are on the board, strictly between the ends and on the
      line joining them. */
  lemma InteriorStrictlyBetween(m: ChessMove)
    requires OnBoard(m.From) && OnBoard(m.To)
    requires Diagonal(m) || Orthogonal(m)
    ensures forall k :: 0 <= k < |Interior(m)| ==>
      OnBoard(Interior(m)[k]) && StrictlyBetween(m.From, Interior(m)[k], m.To)
    ensures forall k :: 0 <= k < |Interior(m)| ==>
      Diagonal(ChessMove(m.From, Interior(m)[k])) == Diagonal(m) &&
      Orthogonal(ChessMove(m.From, Interior(m)[k])) == Orthogonal(m)
  {
  }
}
