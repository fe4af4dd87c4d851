/** The values the engine receives from the game framework (colours, pieces,
    squares, moves, the board) and the engine's own constant tables. */
module ChessTypes {

  datatype Option<T> = None | Some(value: T)

  datatype ChessColor = White | Black

  /** The framework's piece enumeration in declaration order: every black
      piece, then Empty, then every white piece. The engine tells colours
      apart only by comparing a piece with Empty in this order. */
  datatype ChessPiece =
    | BlackPawn | BlackRook | BlackKnight | BlackBishop | BlackQueen | BlackKing
    | Empty
    | WhitePawn | WhiteRook | WhiteKnight | WhiteBishop | WhiteQueen | WhiteKing

  /** Position in the enumeration: the source's `p < q` is `Ordinal(p) < Ordinal(q)`. */
  function Ordinal(p: ChessPiece): nat
  {
    match p
    case BlackPawn => 0
    case BlackRook => 1
    case BlackKnight => 2
    case BlackBishop => 3
    case BlackQueen => 4
    case BlackKing => 5
    case Empty => 6
    case WhitePawn => 7
    case WhiteRook => 8
    case WhiteKnight => 9
    case WhiteBishop => 10
    case WhiteQueen => 11
    case WhiteKing => 12
  }

  datatype PieceKind = Pawn | Knight | Bishop | Rook | Queen | King

  /** The kind named by the piece; stands for stripping the colour prefix
      off the enumeration name. */
  function KindOf(p: ChessPiece): PieceKind
    requires p != Empty
  {
    match p
    case BlackPawn => Pawn
    case WhitePawn => Pawn
    case BlackRook => Rook
    case WhiteRook => Rook
    case BlackKnight => Knight
    case WhiteKnight => Knight
    case BlackBishop => Bishop
    case WhiteBishop => Bishop
    case BlackQueen => Queen
    case WhiteQueen => Queen
    case BlackKing => King
    case WhiteKing => King
  }

  /** The colour named by the piece. */
  function ColorOf(p: ChessPiece): ChessColor
    requires p != Empty
  {
    match p
    case BlackPawn => Black
    case BlackRook => Black
    case BlackKnight => Black
    case BlackBishop => Black
    case BlackQueen => Black
    case BlackKing => Black
    case _ => White
  }

  /** The square holds a piece of colour `c`. */
  predicate OccupiedBy(p: ChessPiece, c: ChessColor)
  {
    p != Empty && ColorOf(p) == c
  }

  /** The ordering convention the engine relies on: below Empty means black,
      above Empty means white. */
  lemma OrdinalSeparatesColours(p: ChessPiece)
    requires p != Empty
    ensures Ordinal(p) < Ordinal(Empty) <==> ColorOf(p) == Black
    ensures Ordinal(p) > Ordinal(Empty) <==> ColorOf(p) == White
  {
  }

  /** The material table `_pieceValues`, keyed by kind instead of by name. */
  function PieceValue(k: PieceKind): (v: nat)
    ensures 1 <= v <= 10
    ensures v == 3 <==> k == Bishop || k == Knight
  {
    match k
    case King => 10
    case Queen => 9
    case Rook => 5
    case Bishop => 3
    case Knight => 3
    case Pawn => 1
  }

  /** A square (file X, rank Y), or an offset between two squares. */
  datatype ChessLocation = ChessLocation(X: int, Y: int)

  datatype ChessMove = ChessMove(From: ChessLocation, To: ChessLocation)

  predicate OnBoard(loc: ChessLocation)
  {
    0 <= loc.X <= 7 && 0 <= loc.Y <= 7
  }

  /** The board as the engine sees it: eight files of eight squares,
      indexed `[x][y]` like the framework's `board[x, y]`. */
  type Board = b: seq<seq<ChessPiece>> | |b| == 8 && forall i :: 0 <= i < |b| ==> |b[i]| == 8
    witness seq(8, _ => seq(8, _ => Empty))

  const EmptyBoard: Board := seq(8, _ => seq(8, _ => Empty))

  /** Reading a square; only squares on the board can be read. */
  function At(b: Board, loc: ChessLocation): ChessPiece
    requires OnBoard(loc)
  {
    b[loc.X][loc.Y]
  }

  /** The offset tables `_kingMoves`, `_pawnMoves`, `_rookMoves`,
      `_bishopMoves` and `_knightMoves`. They are hash sets in the source, so
      they are sets here: nothing may depend on their enumeration order. */
  const KingMoves: set<ChessLocation> := {
    ChessLocation(-1, -1), ChessLocation(0, -1), ChessLocation(1, -1), ChessLocation(1, 0),
    ChessLocation(1, 1), ChessLocation(0, 1), ChessLocation(-1, 1), ChessLocation(-1, 0)
  }

  const PawnMoves: set<ChessLocation> := {
    ChessLocation(1, 1), ChessLocation(0, 1), ChessLocation(0, 2), ChessLocation(-1, 1)
  }

  const RookMoves: set<ChessLocation> := {
    ChessLocation(0, -1), ChessLocation(1, 0), ChessLocation(0, 1), ChessLocation(-1, 0)
  }

  const BishopMoves: set<ChessLocation> := {
    ChessLocation(-1, -1), ChessLocation(1, -1), ChessLocation(1, 1), ChessLocation(-1, 1)
  }

  const KnightMoves: set<ChessLocation> := {
    ChessLocation(-2, 1), ChessLocation(-1, 2), ChessLocation(1, 2), ChessLocation(2, 1),
    ChessLocation(2, -1), ChessLocation(1, -2), ChessLocation(-1, -2), ChessLocation(-2, -1)
  }

  /** The ray directions split into the diagonal and the straight ones. */
  lemma DirectionTables()
    ensures KingMoves == BishopMoves + RookMoves
    ensures BishopMoves !! RookMoves
  {
  }
}
