/** What one pass of the move and "gravity" generator does, as functions of
    the board and of the engine's colour: the moves it appends to the move
    list and the amount it adds to each square of the gravity grid. */
module Generation {
  import opened ChessTypes
  import opened Legality

  /** The colour the generator assigns a piece from the enumeration order. */
  function SideOf(p: ChessPiece): (c: ChessColor)
    ensures p != Empty ==> c == ColorOf(p)
  {
    if Ordinal(p) < Ordinal(Empty) then Black else White
  }

  /** The generator's `ours` flag. Despite its name it holds exactly for the
      pieces that are NOT of the engine's colour. */
  function Ours(p: ChessPiece, our: ChessColor): (r: bool)
    ensures p != Empty ==> (r <==> ColorOf(p) != our)
  {
    !((Ordinal(p) < Ordinal(Empty) && our == Black) || (Ordinal(p) > Ordinal(Empty) && our == White))
  }

  /** The oracle's answer for the piece on `from`, moving as its own colour. */
  predicate Accepts(board: Board, piece: ChessPiece, from: ChessLocation, to: ChessLocation)
  {
    Verdict(board, piece, SideOf(piece), ChessMove(from, to))
  }

  function Target(from: ChessLocation, o: ChessLocation): ChessLocation
  {
    ChessLocation(from.X + o.X, from.Y + o.Y)
  }

  function OffsetOf(from: ChessLocation, s: ChessLocation): ChessLocation
  {
    ChessLocation(s.X - from.X, s.Y - from.Y)
  }

  /** The square `i` steps from `from` in direction `d`. */
  function RayPoint(from: ChessLocation, d: ChessLocation, i: int): ChessLocation
  {
    ChessLocation(from.X + d.X * i, from.Y + d.Y * i)
  }

  function Sign(n: int): int
  {
    if n < 0 then -1 else if n > 0 then 1 else 0
  }

  function DirOf(from: ChessLocation, s: ChessLocation): ChessLocation
  {
    ChessLocation(Sign(s.X - from.X), Sign(s.Y - from.Y))
  }

  /** `s` lies 1 to 7 steps from `from` along one of the directions `dirs`. */
  predicate OnRay(dirs: set<ChessLocation>, from: ChessLocation, s: ChessLocation)
  {
    var m := ChessMove(from, s);
    1 <= Span(m) <= 7 &&
    (DeltaX(m) == 0 || Abs(DeltaX(m)) == Span(m)) &&
    (DeltaY(m) == 0 || Abs(DeltaY(m)) == Span(m)) &&
    DirOf(from, s) in dirs
  }

  /** OnRay is exactly the set of squares the generator's ray loops visit. */
  lemma OnRayIsRayPoint(dirs: set<ChessLocation>, from: ChessLocation, s: ChessLocation)
    requires dirs <= KingMoves
    ensures OnRay(dirs, from, s) <==> exists d, i :: d in dirs && 1 <= i <= 7 && s == RayPoint(from, d, i)
  {
    if OnRay(dirs, from, s) {
      var d, i := DirOf(from, s), Span(ChessMove(from, s));
      assert s == RayPoint(from, d, i);
    }
    if exists d, i :: d in dirs && 1 <= i <= 7 && s == RayPoint(from, d, i) {
      var d, i :| d in dirs && 1 <= i <= 7 && s == RayPoint(from, d, i);
      KingMovesAreUnitSteps();
      RayPointGeometry(from, d, i);
    }
  }

  /** One king step in some direction: the directions of the ray walks. */
  predicate UnitStep(d: ChessLocation)
  {
    -1 <= d.X <= 1 && -1 <= d.Y <= 1 && d != ChessLocation(0, 0)
  }

  /** The king's table holds exactly the eight unit steps. */
  lemma KingMovesAreUnitSteps()
    ensures forall d :: d in KingMoves <==> UnitStep(d)
  {
  }

  /** The rook's table holds exactly the four straight unit steps. */
  lemma RookMovesAreStraightSteps()
    ensures forall d :: d in RookMoves <==> UnitStep(d) && (d.X == 0 || d.Y == 0)
  {
  }

  /** The bishop's table holds exactly the four diagonal unit steps. */
  lemma BishopMovesAreDiagonalSteps()
    ensures forall d :: d in BishopMoves <==> UnitStep(d) && d.X != 0 && d.Y != 0
  {
  }

  /** The knight's table holds exactly the eight leaps the knight checker
      accepts. */
  lemma KnightMovesAreLeaps()
    ensures forall d :: d in KnightMoves <==> KnightLeap(ChessMove(ChessLocation(0, 0), d))
  {
  }

  /** The pawn's table holds the three one-rank steps forward and the
      two-rank step straight ahead, and nothing else. */
  lemma PawnMovesAreForwardSteps()
    ensures forall d :: d in PawnMoves <==> (d.Y == 1 && -1 <= d.X <= 1) || d == ChessLocation(0, 2)
  {
  }

  /** A ray point's direction and distance are those it was built from. */
  lemma RayPointGeometry(from: ChessLocation, d: ChessLocation, i: int)
    requires UnitStep(d) && 1 <= i
    ensures DirOf(from, RayPoint(from, d, i)) == d
    ensures Span(ChessMove(from, RayPoint(from, d, i))) == i
    ensures var m := ChessMove(from, RayPoint(from, d, i));
      (DeltaX(m) == 0 || Abs(DeltaX(m)) == i) && (DeltaY(m) == 0 || Abs(DeltaY(m)) == i)
  {
  }

  /** Gravity added at `s` by a fixed-offset walk over `offs`. */
  function OffsetDelta(board: Board, piece: ChessPiece, from: ChessLocation, offs: set<ChessLocation>,
                       s: ChessLocation, amount: int): int
  {
    if OffsetOf(from, s) in offs && Accepts(board, piece, from, s) then amount else 0
  }

  /** The elements an enumeration visits. */
  function Elems(order: seq<ChessLocation>): set<ChessLocation>
  {
    if order == [] then {} else Elems(order[..|order| - 1]) + {order[|order| - 1]}
  }

  /** No offset is visited twice. */
  predicate Distinct(order: seq<ChessLocation>)
  {
    order == [] || (Distinct(order[..|order| - 1]) && order[|order| - 1] !in Elems(order[..|order| - 1]))
  }

  lemma ElemsSnoc(order: seq<ChessLocation>, x: ChessLocation)
    ensures Elems(order + [x]) == Elems(order) + {x}
  {
    assert (order + [x])[..|order|] == order;
  }

  lemma {:induction false} ElemsBound(order: seq<ChessLocation>)
    ensures |Elems(order)| <= |order|
  {
    if order != [] {
      ElemsBound(order[..|order| - 1]);
    }
  }

  /** An enumeration with as many distinct elements as visits repeats
      nothing. */
  lemma {:induction false} CountedElemsDistinct(order: seq<ChessLocation>)
    requires |Elems(order)| == |order|
    ensures Distinct(order)
  {
    if order != [] {
      var init, x := order[..|order| - 1], order[|order| - 1];
      ElemsBound(init);
      assert order == init + [x];
      assert |Elems(order)| == |Elems(init)| + (if x in Elems(init) then 0 else 1);
      CountedElemsDistinct(init);
    }
  }

  /** What visiting one offset `o` appends: its target, if the oracle
      accepts it and the piece is `ours`. */
  function StepMoves(board: Board, piece: ChessPiece, from: ChessLocation, o: ChessLocation, ours: bool): seq<ChessMove>
  {
    var t := Target(from, o);
    if ours && Accepts(board, piece, from, t) then [ChessMove(from, t)] else []
  }

  /** What visiting one offset `o` adds to the gravity of `s`. */
  function StepDelta(board: Board, piece: ChessPiece, from: ChessLocation, o: ChessLocation, s: ChessLocation, amount: int): int
  {
    var t := Target(from, o);
    if s == t && Accepts(board, piece, from, t) then amount else 0
  }

  /** The moves a fixed-offset walk appends when it visits the offsets in
      the order `order` (the order a hash set happens to enumerate). */
  function OffsetMovesIn(board: Board, piece: ChessPiece, from: ChessLocation, order: seq<ChessLocation>, ours: bool): seq<ChessMove>
  {
    if order == [] then []
    else OffsetMovesIn(board, piece, from, order[..|order| - 1], ours) + StepMoves(board, piece, from, order[|order| - 1], ours)
  }

  /** Gravity added at `s` by a fixed-offset walk in the order `order`. */
  function OffsetDeltaIn(board: Board, piece: ChessPiece, from: ChessLocation, order: seq<ChessLocation>,
                         s: ChessLocation, amount: int): int
  {
    if order == [] then 0
    else OffsetDeltaIn(board, piece, from, order[..|order| - 1], s, amount) + StepDelta(board, piece, from, order[|order| - 1], s, amount)
  }

  /** A walk for a piece that is not `ours` appends nothing. */
  lemma {:induction false} OffsetMovesInNotOurs(board: Board, piece: ChessPiece, from: ChessLocation, order: seq<ChessLocation>)
    ensures OffsetMovesIn(board, piece, from, order, false) == []
  {
    if order != [] {
      OffsetMovesInNotOurs(board, piece, from, order[..|order| - 1]);
    }
  }

  /** Visiting one more offset appends and adds what that one visit does. */
  lemma OffsetWalkSnoc(board: Board, piece: ChessPiece, from: ChessLocation, order: seq<ChessLocation>, o: ChessLocation, ours: bool, amount: int)
    ensures OffsetMovesIn(board, piece, from, order + [o], ours) ==
      OffsetMovesIn(board, piece, from, order, ours) + StepMoves(board, piece, from, o, ours)
    ensures forall s ::
      OffsetDeltaIn(board, piece, from, order + [o], s, amount) ==
        OffsetDeltaIn(board, piece, from, order, s, amount) + StepDelta(board, piece, from, o, s, amount)
  {
    assert (order + [o])[..|order|] == order;
  }

  lemma AppendAssoc(a: seq<ChessMove>, b: seq<ChessMove>, c: seq<ChessMove>)
    ensures (a + b) + c == a + (b + c)
  {
  }

  /** Adding one offset to a walk adds its target, when accepted, and
      nothing else; the target was not produced before. */
  lemma OffsetStep(board: Board, piece: ChessPiece, from: ChessLocation, done: set<ChessLocation>, o: ChessLocation)
    requires o !in done
    ensures var t := Target(from, o);
      OffsetMoves(board, piece, from, done + {o}) ==
        OffsetMoves(board, piece, from, done) + (if Accepts(board, piece, from, t) then {ChessMove(from, t)} else {})
    ensures ChessMove(from, Target(from, o)) !in OffsetMoves(board, piece, from, done)
  {
    var t := Target(from, o);
    var before := OffsetMoves(board, piece, from, done);
    assert OffsetMoves(board, piece, from, done + {o}) ==
      before + (if Accepts(board, piece, from, t) then {ChessMove(from, t)} else {});
  }

  /** Whatever order the walk visits the offsets in, it appends each
      accepted target exactly once, and nothing unless the piece is `ours`. */
  lemma {:induction false} OffsetMovesInOrder(board: Board, piece: ChessPiece, from: ChessLocation, order: seq<ChessLocation>, ours: bool)
    requires Distinct(order)
    ensures multiset(OffsetMovesIn(board, piece, from, order, ours)) ==
      multiset(if ours then OffsetMoves(board, piece, from, Elems(order)) else {})
  {
    if order != [] {
      var init, o := order[..|order| - 1], order[|order| - 1];
      assert order == init + [o];
      assert Elems(order) == Elems(init) + {o};
      assert o !in Elems(init);
      OffsetMovesInOrder(board, piece, from, init, ours);
      OffsetStep(board, piece, from, Elems(init), o);
      var t := Target(from, o);
      var before := OffsetMoves(board, piece, from, Elems(init));
      var extra := StepMoves(board, piece, from, o, ours);
      assert multiset(OffsetMovesIn(board, piece, from, order, ours)) ==
        multiset(OffsetMovesIn(board, piece, from, init, ours)) + multiset(extra);
      if ours && Accepts(board, piece, from, t) {
        MultisetOfSetAdd(before, ChessMove(from, t));
      }
    }
  }

  lemma MultisetOfSetAdd(a: set<ChessMove>, x: ChessMove)
    requires x !in a
    ensures multiset(a + {x}) == multiset(a) + multiset{x}
  {
  }

  /** Whatever order the walk visits the offsets in, a square's gravity
      changes by the same amount. */
  lemma {:induction false} OffsetDeltaInOrder(board: Board, piece: ChessPiece, from: ChessLocation, order: seq<ChessLocation>,
                                              s: ChessLocation, amount: int)
    requires Distinct(order)
    ensures OffsetDeltaIn(board, piece, from, order, s, amount) == OffsetDelta(board, piece, from, Elems(order), s, amount)
  {
    if order != [] {
      var init, o := order[..|order| - 1], order[|order| - 1];
      assert order == init + [o];
      assert Elems(order) == Elems(init) + {o};
      assert o !in Elems(init);
      OffsetDeltaInOrder(board, piece, from, init, s, amount);
      assert s == Target(from, o) <==> OffsetOf(from, s) == o;
    }
  }

  /** A knight's or king's walk, in whatever order the table is enumerated,
      appends exactly the piece's moves and adds exactly its gravity; for a
      king that is not `ours`, the ray walk the source performs has the
      same effect as one step in each direction. */
  lemma OffsetWalkEffect(board: Board, piece: ChessPiece, from: ChessLocation, order: seq<ChessLocation>, ours: bool)
    requires piece != Empty && KindOf(piece) in {Knight, King}
    requires Distinct(order) && Elems(order) == if KindOf(piece) == Knight then KnightMoves else KingMoves
    ensures multiset(OffsetMovesIn(board, piece, from, order, ours)) == multiset(MovesOf(board, piece, from, ours))
    ensures forall s :: OffsetDeltaIn(board, piece, from, order, s, if ours then 1 else -1) == MoveDelta(board, piece, from, ours, s)
  {
    OffsetMovesInOrder(board, piece, from, order, ours);
    forall s
      ensures OffsetDeltaIn(board, piece, from, order, s, if ours then 1 else -1) == MoveDelta(board, piece, from, ours, s)
    {
      OffsetDeltaInOrder(board, piece, from, order, s, if ours then 1 else -1);
      if KindOf(piece) == King && !ours {
        EnemyKingRepels(board, piece, from, s);
      }
    }
  }

  /** Gravity added at `s` by a ray walk: `near` on the first step, `far` beyond. */
  function RayDelta(board: Board, piece: ChessPiece, from: ChessLocation, dirs: set<ChessLocation>,
                    s: ChessLocation, near: int, far: int): int
  {
    if OnRay(dirs, from, s) && Accepts(board, piece, from, s) then
      (if Span(ChessMove(from, s)) == 1 then near else far)
    else 0
  }

  function OffsetMoves(board: Board, piece: ChessPiece, from: ChessLocation, offs: set<ChessLocation>): set<ChessMove>
  {
    set o | o in offs && Accepts(board, piece, from, Target(from, o)) :: ChessMove(from, Target(from, o))
  }

  function RayMoves(board: Board, piece: ChessPiece, from: ChessLocation, dirs: set<ChessLocation>): set<ChessMove>
  {
    set x: int, y: int | 0 <= x < 8 && 0 <= y < 8 && OnRay(dirs, from, ChessLocation(x, y)) &&
      Accepts(board, piece, from, ChessLocation(x, y)) :: ChessMove(from, ChessLocation(x, y))
  }

  /** Gravity the generator adds at `s` for the piece on `from`. Pawns add
      nothing: every pawn target is rejected by the oracle, whatever rank the
      target expression produces. */
  function MoveDelta(board: Board, piece: ChessPiece, from: ChessLocation, ours: bool, s: ChessLocation): int
    requires piece != Empty
  {
    var amount := if ours then 1 else -1;
    match KindOf(piece)
    case Pawn => 0
    case Knight => OffsetDelta(board, piece, from, KnightMoves, s, amount)
    case King =>
      if ours then OffsetDelta(board, piece, from, KingMoves, s, 1)
      else RayDelta(board, piece, from, KingMoves, s, -1, 10)
    case Bishop => RayDelta(board, piece, from, BishopMoves, s, amount, amount)
    case Rook => RayDelta(board, piece, from, RookMoves, s, amount, amount)
    case Queen => RayDelta(board, piece, from, KingMoves, s, amount, amount)
  }

  /** The moves the generator appends for the piece on `from`: only when
      `ours` holds, each leaving `from` for a square the oracle accepts. */
  function MovesOf(board: Board, piece: ChessPiece, from: ChessLocation, ours: bool): (r: set<ChessMove>)
    requires piece != Empty
    ensures forall m :: m in r ==> ours && m.From == from && OnBoard(m.To) && Verdict(board, piece, SideOf(piece), m)
  {
    if !ours then {}
    else match KindOf(piece)
      case Pawn => {}
      case Knight => OffsetMoves(board, piece, from, KnightMoves)
      case King => OffsetMoves(board, piece, from, KingMoves)
      case Bishop => RayMoves(board, piece, from, BishopMoves)
      case Rook => RayMoves(board, piece, from, RookMoves)
      case Queen => RayMoves(board, piece, from, KingMoves)
  }

  /** Pawns, bishops, rooks and queens contribute nothing: no move and no
      gravity anywhere. */
  lemma SlidersContributeNothing(board: Board, piece: ChessPiece, from: ChessLocation, ours: bool)
    requires piece != Empty && KindOf(piece) in {Pawn, Bishop, Rook, Queen}
    ensures MovesOf(board, piece, from, ours) == {}
    ensures forall s :: MoveDelta(board, piece, from, ours, s) == 0
  {
    if KindOf(piece) == Queen {
      forall s | OnRay(KingMoves, from, s)
        ensures !Accepts(board, piece, from, s)
      {
        var m := ChessMove(from, s);
        assert Diagonal(m) || Orthogonal(m);
      }
    }
  }

  /** Each piece moves a square's gravity by at most one: the +10 of an
      enemy king two or more steps away never happens, and the king's
      repulsion reaches only adjacent squares. */
  lemma MoveDeltaIsUnit(board: Board, piece: ChessPiece, from: ChessLocation, ours: bool, s: ChessLocation)
    requires piece != Empty
    ensures -1 <= MoveDelta(board, piece, from, ours, s) <= 1
    ensures KindOf(piece) == King && !ours ==>
      MoveDelta(board, piece, from, ours, s) == (if Span(ChessMove(from, s)) == 1 && Accepts(board, piece, from, s) then -1 else 0)
  {
    if KindOf(piece) in {Pawn, Bishop, Rook, Queen} {
      SlidersContributeNothing(board, piece, from, ours);
    } else if KindOf(piece) == King && !ours {
      var m := ChessMove(from, s);
      if Span(m) == 1 {
        assert Abs(DeltaX(m)) <= 1 && Abs(DeltaY(m)) <= 1;
        var d := DirOf(from, s);
        assert d in KingMoves;
      }
    }
  }

  /** An enemy king's ray walk has the effect of one step in each king
      direction, each lowering an accepted target by one. */
  lemma EnemyKingRepels(board: Board, piece: ChessPiece, from: ChessLocation, s: ChessLocation)
    requires piece != Empty && KindOf(piece) == King
    ensures RayDelta(board, piece, from, KingMoves, s, -1, 10) == OffsetDelta(board, piece, from, KingMoves, s, -1)
  {
    MoveDeltaIsUnit(board, piece, from, false, s);
    var m := ChessMove(from, s);
    if Span(m) == 1 {
      assert OffsetOf(from, s) in KingMoves;
    }
  }

  // One scan of the board, rank by rank (y outer), file by file (x inner).

  /** Gravity added at `s` when the scan reaches `from`: the piece's value on
      its own square (only for pieces that are not `ours` and not kings) and
      the effect of its moves. */
  function ValueDelta(board: Board, our: ChessColor, from: ChessLocation, s: ChessLocation): int
    requires OnBoard(from)
  {
    var p := At(board, from);
    if p != Empty && s == from && !Ours(p, our) && KindOf(p) != King then PieceValue(KindOf(p)) else 0
  }

  function MobilityDelta(board: Board, our: ChessColor, from: ChessLocation, s: ChessLocation): int
    requires OnBoard(from)
  {
    var p := At(board, from);
    if p == Empty then 0 else MoveDelta(board, p, from, Ours(p, our), s)
  }

  function SquareDelta(board: Board, our: ChessColor, from: ChessLocation, s: ChessLocation): int
    requires OnBoard(from)
  {
    ValueDelta(board, our, from, s) + MobilityDelta(board, our, from, s)
  }

  function SquareMoves(board: Board, our: ChessColor, from: ChessLocation): set<ChessMove>
    requires OnBoard(from)
  {
    var p := At(board, from);
    if p == Empty then {} else MovesOf(board, p, from, Ours(p, our))
  }

  lemma SquareMovesLeave(board: Board, our: ChessColor, sq: ChessLocation, m: ChessMove)
    requires OnBoard(sq)
    ensures multiset(SquareMoves(board, our, sq))[m] == if m in SquareMoves(board, our, sq) then 1 else 0
    ensures m in SquareMoves(board, our, sq) ==> m.From == sq
  {
  }

  /** Gravity added at `s` by the first `x` squares of rank `y`. */
  function RowDelta(board: Board, our: ChessColor, y: int, x: int, s: ChessLocation): int
    requires 0 <= y < 8 && 0 <= x <= 8
  {
    if x == 0 then 0 else RowDelta(board, our, y, x - 1, s) + SquareDelta(board, our, ChessLocation(x - 1, y), s)
  }

  /** Gravity added at `s` by the first `y` ranks. */
  function GridDelta(board: Board, our: ChessColor, y: int, s: ChessLocation): int
    requires 0 <= y <= 8
  {
    if y == 0 then 0 else GridDelta(board, our, y - 1, s) + RowDelta(board, our, y - 1, 8, s)
  }

  function RowMoves(board: Board, our: ChessColor, y: int, x: int): multiset<ChessMove>
    requires 0 <= y < 8 && 0 <= x <= 8
  {
    if x == 0 then multiset{} else RowMoves(board, our, y, x - 1) + multiset(SquareMoves(board, our, ChessLocation(x - 1, y)))
  }

  function GridMoves(board: Board, our: ChessColor, y: int): multiset<ChessMove>
    requires 0 <= y <= 8
  {
    if y == 0 then multiset{} else GridMoves(board, our, y - 1) + RowMoves(board, our, y - 1, 8)
  }

  /** The moves of one full scan. */
  function ScanMoves(board: Board, our: ChessColor): multiset<ChessMove>
  {
    GridMoves(board, our, 8)
  }

  /** The gravity one full scan adds at `s`. */
  function ScanDelta(board: Board, our: ChessColor, s: ChessLocation): int
  {
    GridDelta(board, our, 8, s)
  }

  function RowMobility(board: Board, our: ChessColor, y: int, x: int, s: ChessLocation): int
    requires 0 <= y < 8 && 0 <= x <= 8
  {
    if x == 0 then 0 else RowMobility(board, our, y, x - 1, s) + MobilityDelta(board, our, ChessLocation(x - 1, y), s)
  }

  function GridMobility(board: Board, our: ChessColor, y: int, s: ChessLocation): int
    requires 0 <= y <= 8
  {
    if y == 0 then 0 else GridMobility(board, our, y - 1, s) + RowMobility(board, our, y - 1, 8, s)
  }

  /** The material part of a square's gravity: the value of a piece of the
      engine's own colour standing there, kings excepted. */
  function OwnMaterialAt(board: Board, our: ChessColor, s: ChessLocation): nat
    requires OnBoard(s)
  {
    var p := At(board, s);
    if p != Empty && ColorOf(p) == our && KindOf(p) != King then PieceValue(KindOf(p)) else 0
  }

  lemma {:induction false} RowDeltaSplit(board: Board, our: ChessColor, y: int, x: int, s: ChessLocation)
    requires 0 <= y < 8 && 0 <= x <= 8 && OnBoard(s)
    ensures RowDelta(board, our, y, x, s) ==
      (if s.Y == y && s.X < x then OwnMaterialAt(board, our, s) else 0) + RowMobility(board, our, y, x, s)
  {
    if x > 0 {
      RowDeltaSplit(board, our, y, x - 1, s);
    }
  }

  /** Every square is visited once: a square's gravity after the scan is the
      material standing on it plus the moves' effects, and only the square a
      piece stands on receives its value. */
  lemma {:induction false} GravityDecomposes(board: Board, our: ChessColor, y: int, s: ChessLocation)
    requires 0 <= y <= 8 && OnBoard(s)
    ensures GridDelta(board, our, y, s) ==
      (if s.Y < y then OwnMaterialAt(board, our, s) else 0) + GridMobility(board, our, y, s)
  {
    if y > 0 {
      GravityDecomposes(board, our, y - 1, s);
      RowDeltaSplit(board, our, y - 1, 8, s);
    }
  }

  lemma {:induction false} RowMovesCount(board: Board, our: ChessColor, y: int, x: int, m: ChessMove)
    requires 0 <= y < 8 && 0 <= x <= 8
    ensures RowMoves(board, our, y, x)[m] ==
      (if OnBoard(m.From) && m.From.Y == y && m.From.X < x && m in SquareMoves(board, our, m.From) then 1 else 0)
  {
    if x > 0 {
      RowMovesCount(board, our, y, x - 1, m);
      var sq := ChessLocation(x - 1, y);
      SquareMovesLeave(board, our, sq, m);
      var before := RowMoves(board, our, y, x - 1)[m];
      assert RowMoves(board, our, y, x)[m] == before + multiset(SquareMoves(board, our, sq))[m];
      if m.From == sq {
        assert before == 0;
      } else {
        assert multiset(SquareMoves(board, our, sq))[m] == 0;
      }
    }
  }

  /** A move occurs in the scan's output exactly once if the square it
      leaves has been scanned and produces it, and otherwise not at all. */
  lemma {:induction false} GridMovesCount(board: Board, our: ChessColor, y: int, m: ChessMove)
    requires 0 <= y <= 8
    ensures GridMoves(board, our, y)[m] ==
      (if OnBoard(m.From) && m.From.Y < y && m in SquareMoves(board, our, m.From) then 1 else 0)
  {
    if y > 0 {
      GridMovesCount(board, our, y - 1, m);
      RowMovesCount(board, our, y - 1, 8, m);
    }
  }

  /** The moves one full scan produces are exactly the knight leaps and king
      steps of the pieces NOT of the engine's colour that the oracle accepts,
      each once. */
  lemma GeneratedMoves(board: Board, our: ChessColor, m: ChessMove)
    ensures ScanMoves(board, our)[m] <= 1
    ensures m in ScanMoves(board, our) <==>
      OnBoard(m.From) && At(board, m.From) != Empty &&
      ColorOf(At(board, m.From)) != our &&
      (KindOf(At(board, m.From)) == Knight || KindOf(At(board, m.From)) == King) &&
      OffsetOf(m.From, m.To) in (if KindOf(At(board, m.From)) == Knight then KnightMoves else KingMoves) &&
      Verdict(board, At(board, m.From), ColorOf(At(board, m.From)), m)
  {
    GridMovesCount(board, our, 8, m);
    if OnBoard(m.From) && At(board, m.From) != Empty {
      var p := At(board, m.From);
      if KindOf(p) in {Pawn, Bishop, Rook, Queen} {
        SlidersContributeNothing(board, p, m.From, Ours(p, our));
      } else if m in ScanMoves(board, our) {
        var o :| o in (if KindOf(p) == Knight then KnightMoves else KingMoves) && m == ChessMove(m.From, Target(m.From, o))
          && Accepts(board, p, m.From, Target(m.From, o));
        assert OffsetOf(m.From, m.To) == o;
      } else if Ours(p, our) {
        var o := OffsetOf(m.From, m.To);
        assert m.To == Target(m.From, o);
      }
    }
  }
}
