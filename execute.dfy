/**
 * The move executor: moving a piece with its side effects (en-passant
 * removal, promotion to a queen, the rook's half of castling) and, in real
 * mode only, the bookkeeping of castling rights and the en-passant target.
 * Trial mode is what the legality filter uses.
 */
module Execute {
  import opened Options
  import opened Coords
  import opened Chessboard

  /** The position after the move, and what it captured. */
  datatype Outcome = Outcome(pos: Position, captured: Capture)

  /**
   * What a caller must supply: both squares on the board and, for an
   * en-passant move of a piece on the origin, a capture square on the board
   * (the square behind the destination, seen from the mover).
   */
  predicate CanApply(b: Board, fromR: int, fromF: int, toR: int, toF: int, special: Special)
    requires IsBoard(b)
  {
    OnBoard(fromR, fromF) && OnBoard(toR, toF)
    && (At(b, fromR, fromF).Some? && special == EnPassant ==> OnBoard(toR - Forward(At(b, fromR, fromF).value.color), toF))
  }

  /** The row on which a pawn of colour c promotes. */
  function LastRank(c: Color): int {
    if c == White then 0 else 7
  }

  function IsRook(cap: Capture): bool {
    cap.Took? && cap.cell.Some? && cap.cell.value.kind == Rook
  }

  /** A king move drops both rights of its colour. */
  function KingMovedRights(cr: CastlingRights, moving: Piece): CastlingRights {
    if moving.kind != King then cr
    else if moving.color == White then cr.(wK := false, wQ := false)
    else cr.(bK := false, bQ := false)
  }

  /** A rook moving off a corner drops that corner's right. */
  function RookLeftRights(cr: CastlingRights, moving: Piece, fromR: int, fromF: int): CastlingRights {
    if moving.kind != Rook then cr
    else cr.(wQ := cr.wQ && !(fromR == 7 && fromF == 0), wK := cr.wK && !(fromR == 7 && fromF == 7),
             bQ := cr.bQ && !(fromR == 0 && fromF == 0), bK := cr.bK && !(fromR == 0 && fromF == 7))
  }

  /** A rook captured on a corner drops that corner's right. */
  function RookTakenRights(cr: CastlingRights, toR: int, toF: int, captured: Capture): CastlingRights {
    if !IsRook(captured) then cr
    else cr.(wQ := cr.wQ && !(toR == 7 && toF == 0), wK := cr.wK && !(toR == 7 && toF == 7),
             bQ := cr.bQ && !(toR == 0 && toF == 0), bK := cr.bK && !(toR == 0 && toF == 7))
  }

  /** Castling rights after a real move: the three updates, in the executor's order. */
  function UpdatedRights(cr: CastlingRights, moving: Piece, fromR: int, fromF: int, toR: int, toF: int, captured: Capture): CastlingRights
  {
    RookTakenRights(RookLeftRights(KingMovedRights(cr, moving), moving, fromR, fromF), toR, toF, captured)
  }

  /** The board after the moving piece's part of the move: the en-passant removal, the move itself, and promotion. */
  function PieceMovedBoard(b: Board, fromR: int, fromF: int, toR: int, toF: int, special: Special): (b': Board)
    requires IsBoard(b) && CanApply(b, fromR, fromF, toR, toF, special) && At(b, fromR, fromF).Some?
    ensures IsBoard(b')
  {
    var moving := At(b, fromR, fromF).value;
    var b1 := if special == EnPassant then Put(b, toR - Forward(moving.color), toF, None) else b;
    var b2 := Put(Put(b1, toR, toF, Some(moving)), fromR, fromF, None);
    if moving.kind == Pawn && toR == LastRank(moving.color) then Put(b2, toR, toF, Some(Piece(Queen, moving.color))) else b2
  }

  /** The rook's half of castling for colour c: the h-rook to the f-file, or the a-rook to the d-file, on the home row. */
  function RookCastled(b: Board, c: Color, special: Special): Board
    requires IsBoard(b)
  {
    var row := HomeRow(c);
    if special == CastleK then Put(Put(b, row, 5, At(b, row, 7)), row, 7, None)
    else if special == CastleQ then Put(Put(b, row, 3, At(b, row, 0)), row, 0, None)
    else b
  }

  /** The board after the move's piece movements, in the order the executor performs them: the rook's half of castling comes last. */
  function MovedBoard(b: Board, fromR: int, fromF: int, toR: int, toF: int, special: Special): Board
    requires IsBoard(b) && CanApply(b, fromR, fromF, toR, toF, special) && At(b, fromR, fromF).Some?
  {
    RookCastled(PieceMovedBoard(b, fromR, fromF, toR, toF, special), At(b, fromR, fromF).value.color, special)
  }

  /** What the move captures: the destination's piece, or for en passant the cell behind the destination. */
  function CapturedBy(b: Board, fromR: int, fromF: int, toR: int, toF: int, special: Special): Capture
    requires IsBoard(b) && CanApply(b, fromR, fromF, toR, toF, special) && At(b, fromR, fromF).Some?
  {
    if special == EnPassant then Took(At(b, toR - Forward(At(b, fromR, fromF).value.color), toF))
    else if At(b, toR, toF).Some? then Took(At(b, toR, toF))
    else NoCapture
  }

  /** The executor: nothing happens when the origin is empty; `applyToRealBoard` is false for a legality trial. */
  function MoveOnBoard(pos: Position, fromR: int, fromF: int, toR: int, toF: int, special: Special, applyToRealBoard: bool): (o: Outcome)
    requires pos.Valid() && CanApply(pos.board, fromR, fromF, toR, toF, special)
    ensures o.pos.Valid()
  {
    var b := pos.board;
    if At(b, fromR, fromF).None? then Outcome(pos, NoCapture)
    else
      var moving := At(b, fromR, fromF).value;
      var captured := CapturedBy(b, fromR, fromF, toR, toF, special);
      var rights := if applyToRealBoard then UpdatedRights(pos.rights, moving, fromR, fromF, toR, toF, captured) else pos.rights;
      var ep := if !applyToRealBoard then pos.enPassant
                else if special == Double then Some(RfToCoord((fromR + toR) / 2, fromF))
                else None;
      Outcome(Position(MovedBoard(b, fromR, fromF, toR, toF, special), rights, ep), captured)
  }
}
