/**
 * The script's move generator and attack test as methods with the script's
 * loops. They only read the board, the castling rights and the en-passant
 * square, so each takes that position as a value; each is proved equal to
 * its definition in module MoveGen.
 */
module Generator {
  import opened Options
  import opened Coords
  import opened Chessboard
  import opened MoveGen
  import opened MoveGenLemmas

  /** findKing: the first king of the colour in row-by-row order. */
  method FindKing(pos: Position, color: Color) returns (k: Option<(int, int)>)
    requires pos.Valid()
    ensures k == FindKingOf(pos.board, color)
  {
    for r := 0 to 8
      invariant KingFrom(pos.board, color, r, 0) == FindKingOf(pos.board, color)
    {
      for f := 0 to 8
        invariant KingFrom(pos.board, color, r, f) == FindKingOf(pos.board, color)
      {
        var c := pos.board[r][f];
        if c.Some? && c.value.kind == King && c.value.color == color {
          return Some((r, f));
        }
      }
    }
    return None;
  }

  /** isSquareAttacked: scan every piece of `byColor` and ask whether one of its attack-mode moves reaches (r, f). */
  method IsSquareAttacked(pos: Position, r: int, f: int, byColor: Color) returns (attacked: bool)
    requires pos.Valid()
    ensures attacked == Attacked(pos, r, f, byColor)
  {
    ghost var rows := BoardHits(pos, r, f, byColor);
    for rr := 0 to 8
      invariant AnyFrom(rows, rr) == AnyFrom(rows, 0)
    {
      var hit := AttackerInRow(pos, rr, r, f, byColor);
      if hit {
        return true;
      }
    }
    return false;
  }

  /** The inner loop of the scan: some square of row rr attacks (r, f) for `byColor`. */
  method AttackerInRow(pos: Position, rr: int, r: int, f: int, byColor: Color) returns (hit: bool)
    requires pos.Valid() && 0 <= rr < 8
    ensures hit == AnyFrom(RowHits(pos, rr, r, f, byColor), 0)
  {
    ghost var files := RowHits(pos, rr, r, f, byColor);
    for ff := 0 to 8
      invariant AnyFrom(files, ff) == AnyFrom(files, 0)
    {
      hit := AttacksFromSquare(pos, rr, ff, r, f, byColor);
      if hit {
        return;
      }
    }
    hit := false;
  }

  /** One square of the scan: it holds a piece of `byColor` whose attack-mode moves include (r, f). */
  method AttacksFromSquare(pos: Position, rr: int, ff: int, r: int, f: int, byColor: Color) returns (hit: bool)
    requires pos.Valid() && OnBoard(rr, ff)
    ensures hit == AttacksFrom(pos, rr, ff, r, f, byColor)
  {
    var pc := pos.board[rr][ff];
    if pc.Some? && pc.value.color == byColor {
      var attacks := PieceMovesFor(pos, rr, ff, true);
      hit := exists m :: m in attacks && m.r == r && m.f == f;
      ReachesSome(attacks, r, f);
    } else {
      hit := false;
    }
  }

  /**
   * generatePseudoMovesForSquare: the moves of the piece on (r, f) by its
   * movement rule; in attack mode pawns report their diagonals and kings do
   * not castle. The king's castling block, which ends the king branch, is
   * asked for after the movement rule.
   */
  method PseudoMovesForSquare(pos: Position, r: int, f: int, forAttack: bool) returns (moves: seq<Move>)
    requires pos.Valid() && OnBoard(r, f)
    ensures moves == PseudoMoves(pos, r, f, forAttack)
  {
    moves := PieceMovesFor(pos, r, f, forAttack);
    var pc := pos.board[r][f];
    if !forAttack && pc.Some? && pc.value.kind == King {
      var castles := CastlingMovesFor(pos, r, f, pc.value.color);
      moves := moves + castles;
    }
  }

  /** The switch on the piece type, without castling. */
  method PieceMovesFor(pos: Position, r: int, f: int, forAttack: bool) returns (moves: seq<Move>)
    requires pos.Valid() && OnBoard(r, f)
    ensures moves == PieceMoves(pos, r, f, forAttack)
  {
    var pc := pos.board[r][f];
    if pc.None? {
      return [];
    }
    var color := pc.value.color;
    match pc.value.kind {
      case Pawn =>
        moves := PawnMovesFor(pos, r, f, color, forAttack);
      case Knight =>
        moves := KnightMovesFor(pos, r, f, color);
      case King =>
        moves := KingStepsFor(pos, r, f, color);
      case _ =>
        moves := SliderMovesFor(pos, r, f, color, pc.value.kind);
    }
  }

  /** The pawn branch: the pushes (not in attack mode), then the two diagonals, left file first. */
  method PawnMovesFor(pos: Position, r: int, f: int, color: Color, forAttack: bool) returns (moves: seq<Move>)
    requires pos.Valid() && OnBoard(r, f)
    ensures moves == PawnMoves(pos, r, f, color, forAttack)
  {
    moves := [];
    if !forAttack {
      moves := PawnPushesFor(pos, r, f, color);
    }
    var left := PawnDiagonalFor(pos, r, f - 1, color, forAttack);
    var right := PawnDiagonalFor(pos, r, f + 1, color, forAttack);
    moves := moves + left + right;
  }

  /** One step forward onto an empty square, and from the starting row a second one. */
  method PawnPushesFor(pos: Position, r: int, f: int, color: Color) returns (moves: seq<Move>)
    requires pos.Valid() && OnBoard(r, f)
    ensures moves == PawnPushes(pos.board, r, f, color)
  {
    moves := [];
    var dir := if color == White then -1 else 1;
    var one := r + dir;
    if one >= 0 && one <= 7 && pos.board[one][f].None? {
      moves := moves + [Move(one, f, false, Plain)];
      var startRow := if color == White then 6 else 1;
      var two := r + 2 * dir;
      if r == startRow && pos.board[two][f].None? {
        moves := moves + [Move(two, f, false, Double)];
      }
    }
  }

  /** One diagonal square of a pawn on row r: enemy capture, en-passant capture, and in attack mode the empty square. */
  method PawnDiagonalFor(pos: Position, r: int, ff: int, color: Color, forAttack: bool) returns (here: seq<Move>)
    requires pos.Valid()
    ensures here == PawnDiagonal(pos, r, color, ff, forAttack)
  {
    here := [];
    var rr := r + (if color == White then -1 else 1);
    if 0 <= rr <= 7 && 0 <= ff <= 7 {
      if pos.board[rr][ff].Some? && pos.board[rr][ff].value.color != color {
        here := here + [Move(rr, ff, true, Plain)];
      }
      ghost var captures := here;
      var isTarget := EnPassantAt(pos, rr, ff);
      if isTarget {
        here := here + [Move(rr, ff, true, EnPassant)];
      }
      ghost var withEnPassant := here;
      assert withEnPassant == captures + (if IsEnPassantTarget(pos, rr, ff) then [Move(rr, ff, true, EnPassant)] else []);
      if forAttack && pos.board[rr][ff].None? {
        here := here + [Move(rr, ff, false, Plain)];
      }
      assert here == withEnPassant + (if forAttack && At(pos.board, rr, ff).None? then [Move(rr, ff, false, Plain)] else []);
    }
  }

  /** The en-passant square is set and decodes to (rr, ff). */
  method EnPassantAt(pos: Position, rr: int, ff: int) returns (isTarget: bool)
    ensures isTarget == IsEnPassantTarget(pos, rr, ff)
  {
    isTarget := false;
    if pos.enPassant.Some? {
      var ep := CoordToRF(pos.enPassant.value);
      isTarget := ep.Some? && ep.value.0 == rr && ep.value.1 == ff;
      if OnBoard(rr, ff) {
        DecodesTo(pos.enPassant.value, rr, ff);
      }
    }
  }

  /** The common step of knight and king: an empty square is a move, an enemy piece a capture, off the pos.board or an own piece nothing. */
  method StepMovesFor(pos: Position, rr: int, ff: int, color: Color) returns (here: seq<Move>)
    requires pos.Valid()
    ensures here == StepTo(pos.board, rr, ff, color)
  {
    here := [];
    if 0 <= rr <= 7 && 0 <= ff <= 7 {
      if pos.board[rr][ff].None? {
        here := [Move(rr, ff, false, Plain)];
      } else if pos.board[rr][ff].value.color != color {
        here := [Move(rr, ff, true, Plain)];
      }
    }
  }

  method KnightMovesFor(pos: Position, r: int, f: int, color: Color) returns (moves: seq<Move>)
    requires pos.Valid() && OnBoard(r, f)
    ensures moves == KnightFrom(pos.board, r, f, color, 0)
  {
    ghost var b := pos.board;
    moves := [];
    for i := 0 to |KnightOffsets|
      invariant moves + KnightFrom(b, r, f, color, i) == KnightFrom(b, r, f, color, 0)
    {
      var (dr, df) := KnightOffsets[i];
      var here := StepMovesFor(pos, r + dr, f + df, color);
      ghost var rest := KnightFrom(b, r, f, color, i + 1);
      assert KnightFrom(b, r, f, color, i) == here + rest;
      MovesAssoc(moves, here, rest);
      moves := moves + here;
    }
  }

  method SliderMovesFor(pos: Position, r: int, f: int, color: Color, kind: Kind) returns (moves: seq<Move>)
    requires pos.Valid() && OnBoard(r, f)
    ensures moves == SlideFrom(pos.board, r, f, color, SliderDirs(kind), 0)
  {
    var dirs := SliderDirsFor(kind);
    ghost var b := pos.board;
    moves := [];
    for i := 0 to |dirs|
      invariant moves + SlideFrom(b, r, f, color, dirs, i) == SlideFrom(b, r, f, color, dirs, 0)
    {
      var (dr, df) := dirs[i];
      var ray := RayMovesFor(pos, r + dr, f + df, dr, df, color);
      ghost var rest := SlideFrom(b, r, f, color, dirs, i + 1);
      assert SlideFrom(b, r, f, color, dirs, i) == ray + rest;
      MovesAssoc(moves, ray, rest);
      moves := moves + ray;
    }
  }

  /** The slider's direction list: the diagonals for bishop and queen, then the lines for rook and queen. */
  method SliderDirsFor(kind: Kind) returns (dirs: seq<(int, int)>)
    ensures dirs == SliderDirs(kind)
  {
    dirs := [];
    if kind == Bishop || kind == Queen {
      dirs := dirs + BishopDirs;
    }
    if kind == Rook || kind == Queen {
      dirs := dirs + RookDirs;
    }
  }

  /** One ray of a slider: walk from (rr, ff) in direction (dr, df) until the edge or the first piece. */
  method RayMovesFor(pos: Position, rr0: int, ff0: int, dr: int, df: int, color: Color) returns (moves: seq<Move>)
    requires pos.Valid() && IsDirection(dr, df)
    ensures moves == Ray(pos.board, rr0, ff0, dr, df, color)
  {
    moves := [];
    var rr, ff := rr0, ff0;
    while 0 <= rr <= 7 && 0 <= ff <= 7
      invariant moves + Ray(pos.board, rr, ff, dr, df, color) == Ray(pos.board, rr0, ff0, dr, df, color)
      decreases Reach(rr, dr) + Reach(ff, df)
    {
      if pos.board[rr][ff].None? {
        MovesAssoc(moves, [Move(rr, ff, false, Plain)], Ray(pos.board, rr + dr, ff + df, dr, df, color));
        moves := moves + [Move(rr, ff, false, Plain)];
      } else {
        if pos.board[rr][ff].value.color != color {
          moves := moves + [Move(rr, ff, true, Plain)];
        }
        return;
      }
      rr, ff := rr + dr, ff + df;
    }
  }

  method KingStepsFor(pos: Position, r: int, f: int, color: Color) returns (moves: seq<Move>)
    requires pos.Valid() && OnBoard(r, f)
    ensures moves == KingSteps(pos.board, r, f, color, -1)
  {
    ghost var b := pos.board;
    moves := [];
    for dr := -1 to 2
      invariant moves + KingSteps(b, r, f, color, dr) == KingSteps(b, r, f, color, -1)
    {
      var row := KingRowFor(pos, r, f, color, dr);
      ghost var rest := KingSteps(b, r, f, color, dr + 1);
      assert KingSteps(b, r, f, color, dr) == row + rest;
      MovesAssoc(moves, row, rest);
      moves := moves + row;
    }
  }

  /** The inner loop of the king branch: file offsets -1, 0, 1 in row offset dr, skipping the king's own square. */
  method KingRowFor(pos: Position, r: int, f: int, color: Color, dr: int) returns (moves: seq<Move>)
    requires pos.Valid()
    ensures moves == KingRow(pos.board, r, f, color, dr, -1)
  {
    ghost var b := pos.board;
    moves := [];
    for df := -1 to 2
      invariant moves + KingRow(b, r, f, color, dr, df) == KingRow(b, r, f, color, dr, -1)
    {
      var here: seq<Move> := [];
      if !(dr == 0 && df == 0) {
        here := StepMovesFor(pos, r + dr, f + df, color);
      }
      ghost var rest := KingRow(b, r, f, color, dr, df + 1);
      assert KingRow(b, r, f, color, dr, df) == here + rest;
      MovesAssoc(moves, here, rest);
      moves := moves + here;
    }
  }

  /** The three squares (row, f1), (row, f2), (row, f3) are all unattacked by `byColor`, asked in that order. */
  method NoneAttacked(pos: Position, row: int, f1: int, f2: int, f3: int, byColor: Color) returns (safe: bool)
    requires pos.Valid()
    ensures safe == (!Attacked(pos, row, f1, byColor) && !Attacked(pos, row, f2, byColor) && !Attacked(pos, row, f3, byColor))
  {
    var a := IsSquareAttacked(pos, row, f1, byColor);
    if a {
      return false;
    }
    a := IsSquareAttacked(pos, row, f2, byColor);
    if a {
      return false;
    }
    a := IsSquareAttacked(pos, row, f3, byColor);
    return !a;
  }

  /** The castling branch of the generator for a king of `color` on (r, f). */
  method CastlingMovesFor(pos: Position, r: int, f: int, color: Color) returns (moves: seq<Move>)
    requires pos.Valid()
    ensures moves == CastlingMoves(pos, r, f, color)
  {
    moves := [];
    var o := Other(color);
    if color == White && r == 7 && f == 4 {
      if pos.rights.wK && pos.board[7][5].None? && pos.board[7][6].None? {
        var safe := NoneAttacked(pos, 7, 4, 5, 6, o);
        if safe {
          moves := moves + [Move(7, 6, false, CastleK)];
        }
      }
      if pos.rights.wQ && pos.board[7][1].None? && pos.board[7][2].None? && pos.board[7][3].None? {
        var safe := NoneAttacked(pos, 7, 4, 3, 2, o);
        if safe {
          moves := moves + [Move(7, 2, false, CastleQ)];
        }
      }
    }
    if color == Black && r == 0 && f == 4 {
      if pos.rights.bK && pos.board[0][5].None? && pos.board[0][6].None? {
        var safe := NoneAttacked(pos, 0, 4, 5, 6, o);
        if safe {
          moves := moves + [Move(0, 6, false, CastleK)];
        }
      }
      if pos.rights.bQ && pos.board[0][1].None? && pos.board[0][2].None? && pos.board[0][3].None? {
        var safe := NoneAttacked(pos, 0, 4, 3, 2, o);
        if safe {
          moves := moves + [Move(0, 2, false, CastleQ)];
        }
      }
    }
  }
}
