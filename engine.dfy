/**
 * The script's global game state as one object, and its functions as
 * methods over it. Each method is proved against the value-level
 * definitions of modules MoveGen, Execute, Legality and Controller.
 */
module Engine {
  import opened Options
  import opened Coords
  import opened Chessboard
  import opened MoveGen
  import opened MoveGenLemmas
  import opened Execute
  import opened Legality
  import opened Controller
  import opened Generator

  class Game {
    var board: Board
    var turn: Color
    var moveHistory: seq<string>
    var halfMove: int
    var castlingRights: CastlingRights
    var enPassantSquare: Option<string>
    var lastMove: LastMove

    ghost predicate Valid()
      reads this
    {
      IsBoard(board) && (lastMove.Recorded? ==> IsBoard(lastMove.snapshot.board))
    }

    /** What the move generator reads. */
    function Pos(): Position
      reads this
    {
      Position(board, castlingRights, enPassantSquare)
    }

    function State(): GameState
      reads this
    {
      GameState(board, turn, castlingRights, enPassantSquare, halfMove, moveHistory, lastMove)
    }

    /** The globals as declared, then the bootstrap call of setStartingPosition. */
    constructor ()
      ensures Valid() && State() == StartingState()
    {
      board := [];
      turn := White;
      moveHistory := [];
      halfMove := 1;
      castlingRights := CastlingRights(true, true, true, true);
      enPassantSquare := None;
      lastMove := NoLastMove;
      new;
      SetStartingPosition();
    }

    /** setStartingPosition: an empty grid, the two armies placed file by file, and fresh metadata. */
    method SetStartingPosition()
      modifies this
      ensures Valid() && State() == StartingState()
    {
      board := EmptyBoard();
      for f := 0 to 8
        invariant IsBoard(board)
        invariant forall r, ff :: OnBoard(r, ff) ==> At(board, r, ff) == if ff < f then StartCell(r, ff) else None
      {
        board := Put(board, 0, f, Some(Piece(BackRank[f], Black)));
        board := Put(board, 1, f, Some(Piece(Pawn, Black)));
        board := Put(board, 6, f, Some(Piece(Pawn, White)));
        board := Put(board, 7, f, Some(Piece(BackRank[f], White)));
      }
      BoardsEqual(board, StartingBoard());
      turn := White;
      moveHistory := [];
      halfMove := 1;
      castlingRights := CastlingRights(true, true, true, true);
      enPassantSquare := None;
      lastMove := NoLastMove;
    }

    /**
     * generateLegalMovesForSquare as first declared: try each pseudo-move of
     * the piece on (r, f), keep it when the mover's king was then found and
     * not attacked, and mark it a capture when it was one, is en passant or
     * lands on an enemy. Every trial is undone, so the state is as before.
     */
    method LegalMovesForSquare(r: int, f: int) returns (legal: seq<Move>)
      requires Valid() && OnBoard(r, f)
      modifies this
      ensures Valid() && State() == old(State())
      ensures legal == LegalMoves(old(Pos()), r, f)
    {
      var pc := board[r][f];
      if pc.None? {
        return [];
      }
      var c := pc.value.color;
      var pseudo := PseudoMovesForSquare(Pos(), r, f, false);
      PseudoMovesShaped(Pos(), r, f, false);
      legal := FilterByTrial(r, f, c, pseudo);
    }

    /** The loop of the filter over the pseudo-moves ms of the piece on (r, f), of colour c. */
    method FilterByTrial(r: int, f: int, c: Color, ms: seq<Move>) returns (legal: seq<Move>)
      requires Valid() && OnBoard(r, f) && AllShaped(Pos(), r, f, c, ms)
      modifies this
      ensures Valid() && State() == old(State())
      ensures AllOnBoard(ms) && legal == FilterLegal(old(Pos()), c, ms, SafeMask(old(Pos()), r, f, c, ms), 0)
    {
      ghost var pos := Pos();
      ShapedOnBoard(pos, r, f, c, ms);
      ghost var keep := SafeMask(pos, r, f, c, ms);
      legal := [];
      for i := 0 to |ms|
        invariant Valid() && State() == old(State()) && Pos() == pos
        invariant legal + FilterLegal(pos, c, ms, keep, i) == FilterLegal(pos, c, ms, keep, 0)
      {
        ghost var here: seq<Move> := if keep[i] then [Annotate(pos, c, ms[i])] else [];
        ghost var rest := FilterLegal(pos, c, ms, keep, i + 1);
        assert FilterLegal(pos, c, ms, keep, i) == here + rest;
        MovesAssoc(legal, here, rest);
        legal := TryMove(r, f, c, ms, i, legal);
      }
    }

    /** One pass of the filter's loop: try ms[i] and append it, annotated, when the king stayed safe. */
    method TryMove(r: int, f: int, c: Color, ms: seq<Move>, i: int, legal: seq<Move>) returns (legal': seq<Move>)
      requires Valid() && OnBoard(r, f) && AllShaped(Pos(), r, f, c, ms) && AllOnBoard(ms) && 0 <= i < |ms|
      modifies this
      ensures Valid() && State() == old(State())
      ensures legal' == legal + if SafeMask(old(Pos()), r, f, c, ms)[i] then [Annotate(old(Pos()), c, ms[i])] else []
    {
      var mv := ms[i];
      assert Shaped(Pos(), r, f, c, mv);
      var inCheck := TrialInCheck(r, f, c, mv);
      legal' := legal;
      if !inCheck {
        var enemyThere := match board[mv.r][mv.f] case Some(target) => target.color != c case None => false;
        var wasCapture := mv.capture || mv.special == EnPassant || enemyThere;
        legal' := legal + [mv.(capture := wasCapture)];
      }
    }

    /**
     * One trial of the filter: save the grid, rights, target and last move,
     * apply mv in trial mode, look for the mover's king and ask whether it is
     * attacked (a missing king counts as in check), then restore.
     */
    method TrialInCheck(r: int, f: int, c: Color, mv: Move) returns (inCheck: bool)
      requires Valid() && CanApply(board, r, f, mv.r, mv.f, mv.special)
      modifies this
      ensures Valid() && State() == old(State())
      ensures inCheck == !KingSafeAfter(old(Pos()), r, f, c, mv)
    {
      var saveBoard := CloneBoard(board);
      CloneIsEqual(board);
      var saveCastling := castlingRights;
      var saveEnPassant := enPassantSquare;
      var saveLastMove := lastMove;
      var _ := MakeMoveOnBoard(r, f, mv.r, mv.f, mv.special, false);
      var kingPos := FindKing(Pos(), c);
      inCheck := true;
      if kingPos.Some? {
        inCheck := IsSquareAttacked(Pos(), kingPos.value.0, kingPos.value.1, Other(c));
      }
      board := saveBoard;
      castlingRights := saveCastling;
      enPassantSquare := saveEnPassant;
      lastMove := saveLastMove;
    }

    /**
     * makeMove: nothing unless the origin holds a piece of the side to move;
     * otherwise snapshot the state, make the real move, record its notation,
     * bump the counter after Black's move, pass the turn, keep the snapshot in
     * the last-move record, and ask for checkmate and stalemate.
     */
    method MakeMove(fromR: int, fromF: int, toR: int, toF: int, special: Special)
      requires Valid() && CanApply(board, fromR, fromF, toR, toF, special)
      modifies this
      ensures Valid() && State() == MakeMoveSpec(old(State()), fromR, fromF, toR, toF, special)
    {
      var moving := board[fromR][fromF];
      if moving.None? || moving.value.color != turn {
        return;
      }
      CloneIsEqual(board);
      var snapshot := Snapshot(CloneBoard(board), castlingRights, enPassantSquare, lastMove, turn, halfMove);
      var captured := MakeMoveOnBoard(fromR, fromF, toR, toF, special, true);
      var san := FormatMoveSan(moving.value, fromR, fromF, toR, toF, captured, special);
      moveHistory := moveHistory + [san];
      if turn == Black {
        halfMove := halfMove + 1;
      }
      turn := Other(turn);
      lastMove := Recorded(snapshot, MoveRecord(fromR, fromF, toR, toF, special, san));
      GameOverCheck();
    }

    /** The end of makeMove: ask whether the side now to move is checkmated, and if not whether it is stalemated; only the status text depends on the answers. */
    method GameOverCheck()
      requires Valid()
      modifies this
      ensures Valid() && State() == old(State())
    {
      var mate := IsCheckmate(turn);
      if !mate {
        var _ := IsStalemate(turn);
      }
    }

    /** undoMove: restore the snapshot kept in the last-move record, if any, drop the record and the last history entry. */
    method UndoMove()
      requires Valid()
      modifies this
      ensures Valid() && State() == UndoSpec(old(State()))
    {
      if !lastMove.Recorded? {
        return;
      }
      var snap := lastMove.snapshot;
      CloneIsEqual(snap.board);
      board := CloneBoard(snap.board);
      castlingRights := snap.castling;
      enPassantSquare := snap.enPassant;
      lastMove := NoLastMove;
      turn := snap.turn;
      halfMove := snap.halfMove;
      if |moveHistory| > 0 {
        moveHistory := moveHistory[..|moveHistory| - 1];
      }
    }

    /** isInCheck: the side's king is found and attacked by the other colour. */
    method IsInCheck(side: Color) returns (check: bool)
      requires Valid()
      ensures check == InCheck(Pos(), side)
    {
      var king := FindKing(Pos(), side);
      if king.None? {
        return false;
      }
      check := IsSquareAttacked(Pos(), king.value.0, king.value.1, Other(side));
    }

    /** isCheckmate: in check, and no piece of the side has a legal move. */
    method IsCheckmate(side: Color) returns (mate: bool)
      requires Valid()
      modifies this
      ensures Valid() && State() == old(State())
      ensures mate == Checkmate(old(Pos()), side)
    {
      var check := IsInCheck(side);
      if !check {
        return false;
      }
      var movable := AnyLegalMove(side);
      mate := !movable;
    }

    /** isStalemate: not in check, and no piece of the side has a legal move. */
    method IsStalemate(side: Color) returns (stale: bool)
      requires Valid()
      modifies this
      ensures Valid() && State() == old(State())
      ensures stale == Stalemate(old(Pos()), side)
    {
      var check := IsInCheck(side);
      if check {
        return false;
      }
      var movable := AnyLegalMove(side);
      stale := !movable;
    }

    /** The scan shared by isCheckmate and isStalemate: row by row, some piece of the side has a legal move. */
    method AnyLegalMove(side: Color) returns (found: bool)
      requires Valid()
      modifies this
      ensures Valid() && State() == old(State())
      ensures found == HasLegalMove(old(Pos()), side)
    {
      ghost var pos := Pos();
      ghost var rows := BoardMovable(pos, side);
      for r := 0 to 8
        invariant Valid() && State() == old(State()) && Pos() == pos
        invariant AnyFrom(rows, r) == AnyFrom(rows, 0)
      {
        found := LegalMoveInRow(side, r);
        if found {
          return;
        }
      }
      found := false;
    }

    /** The inner loop of the scan: some piece of the side in row r has a legal move. */
    method LegalMoveInRow(side: Color, r: int) returns (found: bool)
      requires Valid() && 0 <= r < 8
      modifies this
      ensures Valid() && State() == old(State())
      ensures found == AnyFrom(RowMovable(old(Pos()), side, r), 0)
    {
      ghost var pos := Pos();
      ghost var files := RowMovable(pos, side, r);
      for f := 0 to 8
        invariant Valid() && State() == old(State()) && Pos() == pos
        invariant AnyFrom(files, f) == AnyFrom(files, 0)
      {
        var c := board[r][f];
        if c.Some? && c.value.color == side {
          var legal := LegalMovesForSquare(r, f);
          if |legal| > 0 {
            return true;
          }
        }
      }
      found := false;
    }

    /**
     * makeMoveOnBoard: move the piece and apply its side effects to the grid
     * in place; in real mode also update the castling rights, the en-passant
     * target and the executor's last-move record. An empty origin changes
     * nothing and captures nothing.
     */
    method MakeMoveOnBoard(fromR: int, fromF: int, toR: int, toF: int, special: Special, applyToRealBoard: bool)
      returns (captured: Capture)
      requires Valid() && CanApply(board, fromR, fromF, toR, toF, special)
      modifies this
      ensures Valid()
      ensures Pos() == MoveOnBoard(old(Pos()), fromR, fromF, toR, toF, special, applyToRealBoard).pos
      ensures captured == MoveOnBoard(old(Pos()), fromR, fromF, toR, toF, special, applyToRealBoard).captured
      ensures lastMove == if applyToRealBoard && old(board[fromR][fromF]).Some?
                          then AppliedMove(fromR, fromF, toR, toF, old(board[fromR][fromF]).value, captured, special)
                          else old(lastMove)
      ensures turn == old(turn) && moveHistory == old(moveHistory) && halfMove == old(halfMove)
    {
      var moving := board[fromR][fromF];
      if moving.None? {
        return NoCapture;
      }
      var piece := moving.value;
      var target := board[toR][toF];
      captured := if target.Some? then Took(target) else NoCapture;
      if special == EnPassant {
        var dir := if piece.color == White then 1 else -1;
        captured := Took(board[toR + dir][toF]);
      }
      MoveCells(fromR, fromF, toR, toF, special);
      if applyToRealBoard {
        UpdateCastlingRights(piece, fromR, fromF, toR, toF, captured);
        if special == Double {
          enPassantSquare := Some(RfToCoord((fromR + toR) / 2, fromF));
        } else {
          enPassantSquare := None;
        }
        lastMove := AppliedMove(fromR, fromF, toR, toF, piece, captured, special);
      }
    }

    /**
     * The grid half of makeMoveOnBoard, in its order: clear the pawn taken en
     * passant, move the piece, promote a pawn on its last rank to a queen, and
     * bring the rook across for castling.
     */
    method MoveCells(fromR: int, fromF: int, toR: int, toF: int, special: Special)
      requires Valid() && CanApply(board, fromR, fromF, toR, toF, special) && board[fromR][fromF].Some?
      modifies this
      ensures Valid() && board == MovedBoard(old(board), fromR, fromF, toR, toF, special)
      ensures castlingRights == old(castlingRights) && enPassantSquare == old(enPassantSquare) && lastMove == old(lastMove)
      ensures turn == old(turn) && moveHistory == old(moveHistory) && halfMove == old(halfMove)
    {
      var color := board[fromR][fromF].value.color;
      MovePieceCells(fromR, fromF, toR, toF, special);
      MoveCastlingRook(color, special);
    }

    /** Clear the pawn taken en passant, move the piece, and promote a pawn on its last rank to a queen. */
    method MovePieceCells(fromR: int, fromF: int, toR: int, toF: int, special: Special)
      requires Valid() && CanApply(board, fromR, fromF, toR, toF, special) && board[fromR][fromF].Some?
      modifies this
      ensures Valid() && board == PieceMovedBoard(old(board), fromR, fromF, toR, toF, special)
      ensures castlingRights == old(castlingRights) && enPassantSquare == old(enPassantSquare) && lastMove == old(lastMove)
      ensures turn == old(turn) && moveHistory == old(moveHistory) && halfMove == old(halfMove)
    {
      var moving := board[fromR][fromF];
      var piece := moving.value;
      if special == EnPassant {
        var dir := if piece.color == White then 1 else -1;
        board := Put(board, toR + dir, toF, None);
      }
      board := Put(board, toR, toF, moving);
      board := Put(board, fromR, fromF, None);
      if piece.kind == Pawn {
        var lastRank := if piece.color == White then 0 else 7;
        if toR == lastRank {
          board := Put(board, toR, toF, Some(Piece(Queen, piece.color)));
        }
      }
    }

    /** The rook's half of castling: the h-rook to f, or the a-rook to d, on the mover's home row. */
    method MoveCastlingRook(color: Color, special: Special)
      requires Valid()
      modifies this
      ensures Valid() && board == RookCastled(old(board), color, special)
      ensures castlingRights == old(castlingRights) && enPassantSquare == old(enPassantSquare) && lastMove == old(lastMove)
      ensures turn == old(turn) && moveHistory == old(moveHistory) && halfMove == old(halfMove)
    {
      if special == CastleK {
        var row := if color == White then 7 else 0;
        var rook := board[row][7];
        board := Put(board, row, 5, rook);
        board := Put(board, row, 7, None);
      } else if special == CastleQ {
        var row := if color == White then 7 else 0;
        var rook := board[row][0];
        board := Put(board, row, 3, rook);
        board := Put(board, row, 0, None);
      }
    }

    /** The real-mode rights update: a king clears both of its colour's rights, a rook leaving or taken on a corner clears that corner's. */
    method UpdateCastlingRights(moving: Piece, fromR: int, fromF: int, toR: int, toF: int, captured: Capture)
      modifies this
      ensures castlingRights == UpdatedRights(old(castlingRights), moving, fromR, fromF, toR, toF, captured)
      ensures board == old(board) && enPassantSquare == old(enPassantSquare) && lastMove == old(lastMove)
      ensures turn == old(turn) && moveHistory == old(moveHistory) && halfMove == old(halfMove)
    {
      if moving.kind == King {
        if moving.color == White {
          castlingRights := castlingRights.(wK := false, wQ := false);
        } else {
          castlingRights := castlingRights.(bK := false, bQ := false);
        }
      }
      if moving.kind == Rook {
        castlingRights := ClearCorner(castlingRights, fromR, fromF);
      }
      if captured.Took? && captured.cell.Some? && captured.cell.value.kind == Rook {
        castlingRights := ClearCorner(castlingRights, toR, toF);
      }
    }
  }

  /** The four corner tests of the rights update: the right of the rook that starts on (r, f), if any, is cleared. */
  method ClearCorner(cr: CastlingRights, r: int, f: int) returns (cr': CastlingRights)
    ensures cr' == cr.(wQ := cr.wQ && !(r == 7 && f == 0), wK := cr.wK && !(r == 7 && f == 7),
                       bQ := cr.bQ && !(r == 0 && f == 0), bK := cr.bK && !(r == 0 && f == 7))
  {
    cr' := cr;
    if r == 7 && f == 0 { cr' := cr'.(wQ := false); }
    if r == 7 && f == 7 { cr' := cr'.(wK := false); }
    if r == 0 && f == 0 { cr' := cr'.(bQ := false); }
    if r == 0 && f == 7 { cr' := cr'.(bK := false); }
  }
}
