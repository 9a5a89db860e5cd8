/**
 * Pseudo-legal move generation (moves that follow each piece's movement rule
 * but may leave the mover's own king attacked) and the attack detector built
 * on it. `forAttack` is the generator's attack mode: pawns report both
 * diagonal squares, never push, and kings never castle.
 *
 * The generator's castling branch consults the attack detector, which runs
 * the generator in attack mode only. Here that is made explicit: PieceMoves is
 * everything but castling, Attacked uses PieceMoves in attack mode, and
 * PseudoMoves adds the castling candidates on top.
 */
module MoveGen {
  import opened Options
  import opened Coords
  import opened Chessboard

  /** The rule shared by knight and king steps: an empty square is a quiet move, an enemy a capture, anything else nothing. */
  function StepTo(b: Board, rr: int, ff: int, c: Color): seq<Move>
    requires IsBoard(b)
  {
    if !OnBoard(rr, ff) then []
    else if At(b, rr, ff).None? then [Move(rr, ff, false, Plain)]
    else if At(b, rr, ff).value.color != c then [Move(rr, ff, true, Plain)]
    else []
  }

  const KnightOffsets: seq<(int, int)> := [(-2, -1), (-2, 1), (-1, -2), (-1, 2), (1, -2), (1, 2), (2, -1), (2, 1)]

  /** The knight's steps for offsets i.. of KnightOffsets, in that order. */
  function KnightFrom(b: Board, r: int, f: int, c: Color, i: int): seq<Move>
    requires IsBoard(b) && 0 <= i <= |KnightOffsets|
    decreases |KnightOffsets| - i
  {
    if i == |KnightOffsets| then []
    else StepTo(b, r + KnightOffsets[i].0, f + KnightOffsets[i].1, c) + KnightFrom(b, r, f, c, i + 1)
  }

  /** The king's one-square steps in row offset dr, file offsets df.. , skipping (0, 0). */
  function KingRow(b: Board, r: int, f: int, c: Color, dr: int, df: int): seq<Move>
    requires IsBoard(b) && -1 <= df <= 2
    decreases 2 - df
  {
    if df == 2 then []
    else (if dr == 0 && df == 0 then [] else StepTo(b, r + dr, f + df, c)) + KingRow(b, r, f, c, dr, df + 1)
  }

  /** The king's one-square steps for row offsets dr.. , in the order of the nested loops over dr and df. */
  function KingSteps(b: Board, r: int, f: int, c: Color, dr: int): seq<Move>
    requires IsBoard(b) && -1 <= dr <= 2
    decreases 2 - dr
  {
    if dr == 2 then [] else KingRow(b, r, f, c, dr, -1) + KingSteps(b, r, f, c, dr + 1)
  }

  predicate IsDirection(dr: int, df: int) {
    -1 <= dr <= 1 && -1 <= df <= 1 && (dr != 0 || df != 0)
  }

  /** How many steps in direction d are left from coordinate x before the edge (0 when d is 0). */
  function Reach(x: int, d: int): int {
    if d > 0 then 8 - x else if d < 0 then x + 1 else 0
  }

  /**
   * A ray starting at (rr, ff) and going on in direction (dr, df): empty
   * squares are quiet moves; the first occupied square ends the ray and is a
   * capture if it holds an enemy.
   */
  function Ray(b: Board, rr: int, ff: int, dr: int, df: int, c: Color): seq<Move>
    requires IsBoard(b) && IsDirection(dr, df)
    decreases Reach(rr, dr) + Reach(ff, df)
  {
    if !OnBoard(rr, ff) then []
    else if At(b, rr, ff).None? then [Move(rr, ff, false, Plain)] + Ray(b, rr + dr, ff + df, dr, df, c)
    else if At(b, rr, ff).value.color != c then [Move(rr, ff, true, Plain)]
    else []
  }

  const BishopDirs: seq<(int, int)> := [(-1, -1), (-1, 1), (1, -1), (1, 1)]
  const RookDirs: seq<(int, int)> := [(-1, 0), (1, 0), (0, -1), (0, 1)]

  predicate AllDirections(dirs: seq<(int, int)>) {
    forall i :: 0 <= i < |dirs| ==> IsDirection(dirs[i].0, dirs[i].1)
  }

  /** The directions a slider uses: the diagonals for bishop and queen, then the lines for rook and queen. */
  function SliderDirs(k: Kind): (dirs: seq<(int, int)>)
    ensures AllDirections(dirs)
  {
    (if k == Bishop || k == Queen then BishopDirs else []) + (if k == Rook || k == Queen then RookDirs else [])
  }

  /** The rays of a slider at (r, f) for directions i.. of dirs, one after another. */
  function SlideFrom(b: Board, r: int, f: int, c: Color, dirs: seq<(int, int)>, i: int): seq<Move>
    requires IsBoard(b) && AllDirections(dirs) && 0 <= i <= |dirs|
    decreases |dirs| - i
  {
    if i == |dirs| then []
    else Ray(b, r + dirs[i].0, f + dirs[i].1, dirs[i].0, dirs[i].1, c) + SlideFrom(b, r, f, c, dirs, i + 1)
  }

  /** The row from which a pawn of colour c may step two squares. */
  function StartRow(c: Color): int {
    if c == White then 6 else 1
  }

  /** The pawn's forward moves: one step onto an empty square, then two from its starting row if that square is empty too. */
  function PawnPushes(b: Board, r: int, f: int, c: Color): seq<Move>
    requires IsBoard(b) && OnBoard(r, f)
  {
    var one := r + Forward(c);
    if 0 <= one <= 7 && At(b, one, f).None? then
      var two := r + 2 * Forward(c);
      [Move(one, f, false, Plain)] + (if r == StartRow(c) && At(b, two, f).None? then [Move(two, f, false, Double)] else [])
    else []
  }

  /** The en-passant target is set and names square (rr, ff). */
  predicate IsEnPassantTarget(pos: Position, rr: int, ff: int) {
    OnBoard(rr, ff) && pos.enPassant == Some(RfToCoord(rr, ff))
  }

  /**
   * What a pawn of colour c on row r reports for the diagonal square in file
   * ff: a capture of an enemy, an en-passant capture of the target square,
   * and in attack mode the square itself when it is empty.
   */
  function PawnDiagonal(pos: Position, r: int, c: Color, ff: int, forAttack: bool): seq<Move>
    requires pos.Valid()
  {
    var rr := r + Forward(c);
    if !OnBoard(rr, ff) then []
    else
      (if At(pos.board, rr, ff).Some? && At(pos.board, rr, ff).value.color != c then [Move(rr, ff, true, Plain)] else [])
      + (if IsEnPassantTarget(pos, rr, ff) then [Move(rr, ff, true, EnPassant)] else [])
      + (if forAttack && At(pos.board, rr, ff).None? then [Move(rr, ff, false, Plain)] else [])
  }

  function PawnMoves(pos: Position, r: int, f: int, c: Color, forAttack: bool): seq<Move>
    requires pos.Valid() && OnBoard(r, f)
  {
    (if forAttack then [] else PawnPushes(pos.board, r, f, c))
    + PawnDiagonal(pos, r, c, f - 1, forAttack) + PawnDiagonal(pos, r, c, f + 1, forAttack)
  }

  /** The generator's output for square (r, f) without the castling candidates. */
  function PieceMoves(pos: Position, r: int, f: int, forAttack: bool): seq<Move>
    requires pos.Valid() && OnBoard(r, f)
  {
    match At(pos.board, r, f)
    case None => []
    case Some(pc) =>
      match pc.kind
      case Pawn => PawnMoves(pos, r, f, pc.color, forAttack)
      case Knight => KnightFrom(pos.board, r, f, pc.color, 0)
      case King => KingSteps(pos.board, r, f, pc.color, -1)
      case _ => SlideFrom(pos.board, r, f, pc.color, SliderDirs(pc.kind), 0)
  }

  /** Some move of the list lands on (r, f), looking from the front. */
  predicate Reaches(moves: seq<Move>, r: int, f: int)
    decreases |moves|
  {
    |moves| > 0 && ((moves[0].r == r && moves[0].f == f) || Reaches(moves[1..], r, f))
  }

  /** The piece on (rr, ff) belongs to `byColor` and its attack-mode moves reach (r, f). */
  predicate AttacksFrom(pos: Position, rr: int, ff: int, r: int, f: int, byColor: Color)
    requires pos.Valid() && OnBoard(rr, ff)
  {
    IsPieceOf(pos.board, rr, ff, byColor) && Reaches(PieceMoves(pos, rr, ff, true), r, f)
  }

  /** Some entry of `bits` from index k on is true, looking from k upwards. */
  predicate AnyFrom(bits: seq<bool>, k: nat)
    decreases |bits| - k
  {
    k < |bits| && (bits[k] || AnyFrom(bits, k + 1))
  }

  /** For each file of row rr, whether the square there attacks (r, f) for `byColor`. */
  function RowHits(pos: Position, rr: int, r: int, f: int, byColor: Color): (h: seq<bool>)
    requires pos.Valid() && 0 <= rr < 8
    ensures |h| == 8 && forall g :: 0 <= g < 8 ==> h[g] == AttacksFrom(pos, rr, g, r, f, byColor)
  {
    seq(8, g requires 0 <= g < 8 => AttacksFrom(pos, rr, g, r, f, byColor))
  }

  /** For each row, whether some square of it attacks (r, f) for `byColor`. */
  function BoardHits(pos: Position, r: int, f: int, byColor: Color): (h: seq<bool>)
    requires pos.Valid()
    ensures |h| == 8 && forall q :: 0 <= q < 8 ==> h[q] == AnyFrom(RowHits(pos, q, r, f, byColor), 0)
  {
    seq(8, q requires 0 <= q < 8 => AnyFrom(RowHits(pos, q, r, f, byColor), 0))
  }

  /** Square (r, f) is attacked by colour `byColor`: scanning row by row, file by file, some piece of `byColor` reaches it in attack mode. */
  predicate Attacked(pos: Position, r: int, f: int, byColor: Color)
    requires pos.Valid()
  {
    AnyFrom(BoardHits(pos, r, f, byColor), 0)
  }

  predicate Vacant(b: Board, r: int, f: int)
    requires IsBoard(b) && OnBoard(r, f)
  {
    At(b, r, f).None?
  }

  /** The castling candidates of a king of colour c standing on (r, f). */
  function CastlingMoves(pos: Position, r: int, f: int, c: Color): seq<Move>
    requires pos.Valid()
  {
    var b := pos.board;
    var o := Other(c);
    if c == White && r == 7 && f == 4 then
      (if pos.rights.wK && Vacant(b, 7, 5) && Vacant(b, 7, 6)
          && !Attacked(pos, 7, 4, o) && !Attacked(pos, 7, 5, o) && !Attacked(pos, 7, 6, o)
       then [Move(7, 6, false, CastleK)] else [])
      + (if pos.rights.wQ && Vacant(b, 7, 1) && Vacant(b, 7, 2) && Vacant(b, 7, 3)
          && !Attacked(pos, 7, 4, o) && !Attacked(pos, 7, 3, o) && !Attacked(pos, 7, 2, o)
         then [Move(7, 2, false, CastleQ)] else [])
    else if c == Black && r == 0 && f == 4 then
      (if pos.rights.bK && Vacant(b, 0, 5) && Vacant(b, 0, 6)
          && !Attacked(pos, 0, 4, o) && !Attacked(pos, 0, 5, o) && !Attacked(pos, 0, 6, o)
       then [Move(0, 6, false, CastleK)] else [])
      + (if pos.rights.bQ && Vacant(b, 0, 1) && Vacant(b, 0, 2) && Vacant(b, 0, 3)
          && !Attacked(pos, 0, 4, o) && !Attacked(pos, 0, 3, o) && !Attacked(pos, 0, 2, o)
         then [Move(0, 2, false, CastleQ)] else [])
    else []
  }

  /** The generator's output for square (r, f): empty for an empty square, castling only for a king outside attack mode. */
  function PseudoMoves(pos: Position, r: int, f: int, forAttack: bool): seq<Move>
    requires pos.Valid() && OnBoard(r, f)
  {
    PieceMoves(pos, r, f, forAttack)
    + (if !forAttack && At(pos.board, r, f).Some? && At(pos.board, r, f).value.kind == King
       then CastlingMoves(pos, r, f, At(pos.board, r, f).value.color) else [])
  }
}
