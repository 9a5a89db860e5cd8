/**
 * The game controller's state and transitions as values: the side to move,
 * the move counter, the notation history and the single undo snapshot kept
 * in the last-move record. The class in module Engine is proved to follow
 * these transitions.
 */
module Controller {
  import opened Options
  import opened Coords
  import opened Chessboard
  import opened Execute

  /** What the controller records of a played move. */
  datatype MoveRecord = MoveRecord(fromR: int, fromF: int, toR: int, toF: int, special: Special, san: string)

  /**
   * The last-move record: none; the executor's record of a real move; or the
   * controller's record, which carries the snapshot undo restores.
   */
  datatype LastMove =
    | NoLastMove
    | AppliedMove(fromR: int, fromF: int, toR: int, toF: int, piece: Piece, captured: Capture, special: Special)
    | Recorded(snapshot: Snapshot, move: MoveRecord)

  /** The state before a move, taken by the controller. */
  datatype Snapshot = Snapshot(board: Board, castling: CastlingRights, enPassant: Option<string>,
                               lastMove: LastMove, turn: Color, halfMove: int)

  datatype GameState = GameState(board: Board, turn: Color, castlingRights: CastlingRights,
                                 enPassantSquare: Option<string>, halfMove: int,
                                 moveHistory: seq<string>, lastMove: LastMove)
  {
    function Pos(): Position {
      Position(board, castlingRights, enPassantSquare)
    }
  }

  function PieceLetter(k: Kind): string {
    match k
    case Pawn => ""
    case Knight => "N"
    case Bishop => "B"
    case Rook => "R"
    case Queen => "Q"
    case King => "K"
  }

  /** The history entry for a move: castling as O-O / O-O-O, otherwise piece letter, capture mark and destination. */
  function FormatMoveSan(piece: Piece, fromR: int, fromF: int, toR: int, toF: int, captured: Capture, special: Special): string
    requires OnBoard(toR, toF)
  {
    if special == CastleK || special == CastleQ then
      if special == CastleK then "O-O" else "O-O-O"
    else
      PieceLetter(piece.kind) + (if captured.Took? then "x" else "") + RfToCoord(toR, toF)
  }

  /** The state setStartingPosition establishes. */
  function StartingState(): GameState {
    GameState(StartingBoard(), White, CastlingRights(true, true, true, true), None, 1, [], NoLastMove)
  }

  /**
   * makeMove: a no-op unless the origin holds a piece of the side to move;
   * otherwise the real move, one history entry, the counter bumped after
   * Black's move, the turn passed, and the snapshot kept for undo.
   */
  function MakeMoveSpec(s: GameState, fromR: int, fromF: int, toR: int, toF: int, special: Special): GameState
    requires IsBoard(s.board) && CanApply(s.board, fromR, fromF, toR, toF, special)
  {
    var moving := At(s.board, fromR, fromF);
    if moving.None? || moving.value.color != s.turn then s
    else
      var outcome := MoveOnBoard(s.Pos(), fromR, fromF, toR, toF, special, true);
      var san := FormatMoveSan(moving.value, fromR, fromF, toR, toF, outcome.captured, special);
      var snapshot := Snapshot(s.board, s.castlingRights, s.enPassantSquare, s.lastMove, s.turn, s.halfMove);
      GameState(outcome.pos.board, Other(s.turn), outcome.pos.rights, outcome.pos.enPassant,
                if s.turn == Black then s.halfMove + 1 else s.halfMove,
                s.moveHistory + [san],
                Recorded(snapshot, MoveRecord(fromR, fromF, toR, toF, special, san)))
  }

  function PopLast(h: seq<string>): seq<string> {
    if |h| == 0 then h else h[..|h| - 1]
  }

  /** undoMove: restore the snapshot of the last-move record, if there is one, and drop the record. */
  function UndoSpec(s: GameState): GameState {
    match s.lastMove
    case Recorded(snap, _) =>
      GameState(snap.board, snap.turn, snap.castling, snap.enPassant, snap.halfMove, PopLast(s.moveHistory), NoLastMove)
    case _ => s
  }

  /** A pawn's entry is the destination, preceded by "x" for a capture and by no file letter. */
  lemma PawnSan(fromR: int, fromF: int, toR: int, toF: int, captured: Capture, special: Special, c: Color)
    requires OnBoard(toR, toF) && special != CastleK && special != CastleQ
    ensures var san := FormatMoveSan(Piece(Pawn, c), fromR, fromF, toR, toF, captured, special);
      (captured.Took? ==> |san| == 3 && san[0] == 'x' && san[1..] == RfToCoord(toR, toF))
      && (captured.NoCapture? ==> san == RfToCoord(toR, toF))
  {
  }

  /** Castling is written O-O on the king's side and O-O-O on the queen's side, whatever else the move carries. */
  lemma CastlingSan(piece: Piece, fromR: int, fromF: int, toR: int, toF: int, captured: Capture, special: Special)
    requires OnBoard(toR, toF) && (special == CastleK || special == CastleQ)
    ensures special == CastleK ==> FormatMoveSan(piece, fromR, fromF, toR, toF, captured, special) == "O-O"
    ensures special == CastleQ ==> FormatMoveSan(piece, fromR, fromF, toR, toF, captured, special) == "O-O-O"
  {
  }

  /**
   * Any other piece's entry is one letter that tells its kind apart from every
   * other kind, then "x" exactly for a capture, then the destination.
   */
  lemma PieceSan(piece: Piece, fromR: int, fromF: int, toR: int, toF: int, captured: Capture, special: Special)
    requires OnBoard(toR, toF) && piece.kind != Pawn && special != CastleK && special != CastleQ
    ensures var san := FormatMoveSan(piece, fromR, fromF, toR, toF, captured, special);
      |san| == (if captured.Took? then 4 else 3)
      && san[0] in "NBRQK"
      && (forall k :: k != piece.kind && k != Pawn ==> PieceLetter(k) != [san[0]])
      && (san[1] == 'x' <==> captured.Took?)
      && san[|san| - 2..] == RfToCoord(toR, toF)
  {
    var coord := RfToCoord(toR, toF);
    assert coord[0] in Files;
  }

  /** Every non-castling entry ends with the destination's name, which decodes back to the destination. */
  lemma SanNamesDestination(piece: Piece, fromR: int, fromF: int, toR: int, toF: int, captured: Capture, special: Special)
    requires OnBoard(toR, toF) && special != CastleK && special != CastleQ
    ensures var san := FormatMoveSan(piece, fromR, fromF, toR, toF, captured, special);
      |san| >= 2 && CoordToRF(san[|san| - 2..]) == Some((toR, toF))
      && (san[0] == 'x' <==> piece.kind == Pawn && captured.Took?)
  {
    var san := FormatMoveSan(piece, fromR, fromF, toR, toF, captured, special);
    assert san[|san| - 2..] == RfToCoord(toR, toF);
    CoordRoundTrip(toR, toF);
    assert RfToCoord(toR, toF)[0] in Files;
  }

  /** A move whose origin does not hold a piece of the side to move changes nothing. */
  lemma MakeMoveNeedsOwnPiece(s: GameState, fromR: int, fromF: int, toR: int, toF: int, special: Special)
    requires IsBoard(s.board) && CanApply(s.board, fromR, fromF, toR, toF, special)
    requires !IsPieceOf(s.board, fromR, fromF, s.turn)
    ensures MakeMoveSpec(s, fromR, fromF, toR, toF, special) == s
  {
  }

  /**
   * A move of the side to move passes the turn, appends exactly one history
   * entry, bumps the counter only after Black's move, and keeps the previous
   * state as the undo snapshot.
   */
  lemma MakeMoveBookkeeping(s: GameState, fromR: int, fromF: int, toR: int, toF: int, special: Special)
    requires IsBoard(s.board) && CanApply(s.board, fromR, fromF, toR, toF, special)
    requires IsPieceOf(s.board, fromR, fromF, s.turn)
    ensures var t := MakeMoveSpec(s, fromR, fromF, toR, toF, special);
      t.turn == Other(s.turn)
      && |t.moveHistory| == |s.moveHistory| + 1 && t.moveHistory[..|s.moveHistory|] == s.moveHistory
      && t.halfMove == s.halfMove + (if s.turn == Black then 1 else 0)
      && t.Pos() == MoveOnBoard(s.Pos(), fromR, fromF, toR, toF, special, true).pos
      && t.lastMove.Recorded?
      && t.lastMove.snapshot == Snapshot(s.board, s.castlingRights, s.enPassantSquare, s.lastMove, s.turn, s.halfMove)
  {
  }

  /**
   * Undo right after a move restores the board, rights, en-passant target,
   * turn and counter and removes that move's history entry; only the
   * last-move record is not restored, it is cleared.
   */
  lemma UndoAfterMove(s: GameState, fromR: int, fromF: int, toR: int, toF: int, special: Special)
    requires IsBoard(s.board) && CanApply(s.board, fromR, fromF, toR, toF, special)
    requires IsPieceOf(s.board, fromR, fromF, s.turn)
    ensures UndoSpec(MakeMoveSpec(s, fromR, fromF, toR, toF, special)) == s.(lastMove := NoLastMove)
  {
    var t := MakeMoveSpec(s, fromR, fromF, toR, toF, special);
    assert PopLast(t.moveHistory) == s.moveHistory;
  }

  /** Undo keeps a single level: a second undo in a row changes nothing. */
  lemma UndoIsSingleLevel(s: GameState)
    ensures UndoSpec(s).lastMove == NoLastMove || UndoSpec(s) == s
    ensures UndoSpec(UndoSpec(s)) == UndoSpec(s)
  {
  }

  /** The initial state: standard position, White to move, all rights, no target, counter 1, empty history. */
  lemma StartingStateFacts()
    ensures var s := StartingState();
      IsBoard(s.board) && s.turn == White && s.castlingRights == CastlingRights(true, true, true, true)
      && s.enPassantSquare == None && s.halfMove == 1 && s.moveHistory == [] && s.lastMove == NoLastMove
      && At(s.board, 7, 4) == Some(Piece(King, White)) && At(s.board, 0, 4) == Some(Piece(King, Black))
      && FindKingOf(s.board, White) == Some((7, 4)) && FindKingOf(s.board, Black) == Some((0, 4))
  {
  }
}
