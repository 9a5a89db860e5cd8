/** What applying a generated move does to the board, the rights and the en-passant target. */
module ExecuteLemmas {
  import opened Options
  import opened Coords
  import opened Chessboard
  import opened MoveGen
  import opened MoveGenLemmas
  import opened Execute

  /**
   * The content of square (rr, ff) after the piece on (r, f) makes move m,
   * described square by square: the destination holds the mover (a queen
   * when a pawn reaches its last rank), the origin is empty, en passant also
   * empties the square on the origin's row behind the destination, castling
   * also moves the h-rook to f or the a-rook to d on the same row; every other
   * square is as before.
   */
  function Landed(pos: Position, r: int, f: int, m: Move, rr: int, ff: int): Cell
    requires pos.Valid() && OnBoard(r, f) && At(pos.board, r, f).Some? && OnBoard(rr, ff)
  {
    var b := pos.board;
    var moving := At(b, r, f).value;
    var row := HomeRow(moving.color);
    if rr == m.r && ff == m.f then
      if moving.kind == Pawn && m.r == LastRank(moving.color) then Some(Piece(Queen, moving.color)) else Some(moving)
    else if rr == r && ff == f then None
    else if m.special == EnPassant && rr == r && ff == m.f then None
    else if m.special == CastleK && rr == row && ff == 5 then At(b, row, 7)
    else if m.special == CastleK && rr == row && ff == 7 then None
    else if m.special == CastleQ && rr == row && ff == 3 then At(b, row, 0)
    else if m.special == CastleQ && rr == row && ff == 0 then None
    else At(b, rr, ff)
  }

  lemma ShapedCanApply(pos: Position, r: int, f: int, m: Move)
    requires pos.Valid() && OnBoard(r, f) && At(pos.board, r, f).Some?
    requires Shaped(pos, r, f, At(pos.board, r, f).value.color, m)
    ensures CanApply(pos.board, r, f, m.r, m.f, m.special)
  {
  }

  /** Applying a generated move, in either mode, changes the board exactly as Landed says. */
  lemma ApplyEffects(pos: Position, r: int, f: int, m: Move, applyToRealBoard: bool)
    requires pos.Valid() && OnBoard(r, f) && At(pos.board, r, f).Some?
    requires Shaped(pos, r, f, At(pos.board, r, f).value.color, m)
    ensures CanApply(pos.board, r, f, m.r, m.f, m.special)
    ensures forall rr, ff :: OnBoard(rr, ff) ==>
              At(MoveOnBoard(pos, r, f, m.r, m.f, m.special, applyToRealBoard).pos.board, rr, ff) == Landed(pos, r, f, m, rr, ff)
  {
    var b := pos.board;
    var moving := At(b, r, f).value;
    var c := moving.color;
    var row := HomeRow(c);
    var b1 := if m.special == EnPassant then Put(b, m.r - Forward(c), m.f, None) else b;
    var b2 := Put(Put(b1, m.r, m.f, Some(moving)), r, f, None);
    var b3 := if moving.kind == Pawn && m.r == LastRank(c) then Put(b2, m.r, m.f, Some(Piece(Queen, c))) else b2;
    var b4 := MovedBoard(b, r, f, m.r, m.f, m.special);
    assert MoveOnBoard(pos, r, f, m.r, m.f, m.special, applyToRealBoard).pos.board == b4;
    forall rr, ff | OnBoard(rr, ff) ensures At(b4, rr, ff) == Landed(pos, r, f, m, rr, ff) {
      if m.special == CastleK || m.special == CastleQ {
        assert m.r == row && (m.f == 6 || m.f == 2) && r == row && f == 4;
        assert moving.kind == King;
      }
    }
  }

  /**
   * Castling rights and the en-passant target after a move. In trial mode
   * both are untouched. In real mode rights only go from true to false, and
   * the en-passant target is set only by a double step.
   */
  lemma MetadataAfterMove(pos: Position, fromR: int, fromF: int, toR: int, toF: int, special: Special, applyToRealBoard: bool)
    requires pos.Valid() && CanApply(pos.board, fromR, fromF, toR, toF, special)
    ensures var after := MoveOnBoard(pos, fromR, fromF, toR, toF, special, applyToRealBoard).pos;
      (after.rights.wK ==> pos.rights.wK) && (after.rights.wQ ==> pos.rights.wQ)
      && (after.rights.bK ==> pos.rights.bK) && (after.rights.bQ ==> pos.rights.bQ)
      && (!applyToRealBoard || At(pos.board, fromR, fromF).None? ==> after.rights == pos.rights && after.enPassant == pos.enPassant)
      && (applyToRealBoard && At(pos.board, fromR, fromF).Some? ==>
            (special == Double <==> after.enPassant.Some?)
            && (special == Double ==> after.enPassant == Some(RfToCoord((fromR + toR) / 2, fromF))))
  {
    if applyToRealBoard && At(pos.board, fromR, fromF).Some? {
      var moving := At(pos.board, fromR, fromF).value;
      RightsOnlyDrop(pos.rights, moving, fromR, fromF, toR, toF, CapturedBy(pos.board, fromR, fromF, toR, toF, special));
    }
  }

  /** The real-mode rights update never sets a right. */
  lemma RightsOnlyDrop(cr: CastlingRights, moving: Piece, fromR: int, fromF: int, toR: int, toF: int, captured: Capture)
    ensures var cr' := UpdatedRights(cr, moving, fromR, fromF, toR, toF, captured);
      (cr'.wK ==> cr.wK) && (cr'.wQ ==> cr.wQ) && (cr'.bK ==> cr.bK) && (cr'.bQ ==> cr.bQ)
  {
  }

  /**
   * The rights after a real move, one right at a time: a right survives
   * exactly when it was held and none of its clearing events happened, the
   * events being a king move of its colour, a rook (of either colour) leaving
   * its corner and a rook captured on its corner.
   */
  lemma RightsCleared(pos: Position, fromR: int, fromF: int, toR: int, toF: int, special: Special)
    requires pos.Valid() && CanApply(pos.board, fromR, fromF, toR, toF, special) && At(pos.board, fromR, fromF).Some?
    ensures var moving := At(pos.board, fromR, fromF).value;
      var captured := MoveOnBoard(pos, fromR, fromF, toR, toF, special, true).captured;
      var cr := MoveOnBoard(pos, fromR, fromF, toR, toF, special, true).pos.rights;
      (cr.wK <==> (pos.rights.wK && moving != Piece(King, White)
                      && !(moving.kind == Rook && fromR == 7 && fromF == 7) && !(IsRook(captured) && toR == 7 && toF == 7)))
      && (cr.wQ <==> (pos.rights.wQ && moving != Piece(King, White)
                      && !(moving.kind == Rook && fromR == 7 && fromF == 0) && !(IsRook(captured) && toR == 7 && toF == 0)))
      && (cr.bK <==> (pos.rights.bK && moving != Piece(King, Black)
                      && !(moving.kind == Rook && fromR == 0 && fromF == 7) && !(IsRook(captured) && toR == 0 && toF == 7)))
      && (cr.bQ <==> (pos.rights.bQ && moving != Piece(King, Black)
                      && !(moving.kind == Rook && fromR == 0 && fromF == 0) && !(IsRook(captured) && toR == 0 && toF == 0)))
  {
  }

  /**
   * After a real double step the en-passant target names the square the
   * pawn skipped, and that square is empty.
   */
  lemma DoubleStepTarget(pos: Position, r: int, f: int, m: Move)
    requires pos.Valid() && OnBoard(r, f) && At(pos.board, r, f).Some?
    requires Shaped(pos, r, f, At(pos.board, r, f).value.color, m) && m.special == Double
    ensures var c := At(pos.board, r, f).value.color;
      var after := MoveOnBoard(pos, r, f, m.r, m.f, m.special, true).pos;
      IsEnPassantTarget(after, r + Forward(c), f) && Vacant(after.board, r + Forward(c), f)
  {
    var c := At(pos.board, r, f).value.color;
    var mid := r + Forward(c);
    assert m.r == mid + Forward(c) && m.f == f;
    if c == White {
      assert (r + m.r) / 2 == mid;
    } else {
      assert (r + m.r) / 2 == mid;
    }
    var after := MoveOnBoard(pos, r, f, m.r, m.f, m.special, true).pos;
    assert after.enPassant == Some(RfToCoord(mid, f));
    CoordRoundTrip(mid, f);
    ApplyEffects(pos, r, f, m, true);
    assert Landed(pos, r, f, m, mid, f) == None;
  }

  /** The en-passant target, when it names a square of the board, names an empty one. */
  predicate TargetVacant(pos: Position)
    requires pos.Valid()
  {
    forall rr, ff :: 0 <= rr < 8 && 0 <= ff < 8 && IsEnPassantTarget(pos, rr, ff) ==> Vacant(pos.board, rr, ff)
  }

  /** Every real move of a generated move leaves an en-passant target that is empty or unset. */
  lemma RealMoveKeepsTargetVacant(pos: Position, r: int, f: int, m: Move)
    requires pos.Valid() && OnBoard(r, f) && At(pos.board, r, f).Some?
    requires Shaped(pos, r, f, At(pos.board, r, f).value.color, m)
    ensures TargetVacant(MoveOnBoard(pos, r, f, m.r, m.f, m.special, true).pos)
  {
    var after := MoveOnBoard(pos, r, f, m.r, m.f, m.special, true).pos;
    if m.special == Double {
      var mid := r + Forward(At(pos.board, r, f).value.color);
      DoubleStepTarget(pos, r, f, m);
      forall rr, ff | IsEnPassantTarget(after, rr, ff) ensures rr == mid && ff == f {
        CoordRoundTrip(rr, ff);
        CoordRoundTrip(mid, f);
      }
    } else {
      assert after.enPassant == None;
    }
  }

  /** With a vacant en-passant target, no pseudo-move lands on a piece of the mover's own colour. */
  lemma NeverOwnPiece(pos: Position, r: int, f: int, forAttack: bool, i: int)
    requires pos.Valid() && OnBoard(r, f) && At(pos.board, r, f).Some? && TargetVacant(pos)
    requires 0 <= i < |PseudoMoves(pos, r, f, forAttack)|
    ensures var m := PseudoMoves(pos, r, f, forAttack)[i];
      OnBoard(m.r, m.f) && !IsPieceOf(pos.board, m.r, m.f, At(pos.board, r, f).value.color)
  {
    var c := At(pos.board, r, f).value.color;
    var m := PseudoMoves(pos, r, f, forAttack)[i];
    PseudoMovesShaped(pos, r, f, forAttack);
    assert Shaped(pos, r, f, c, m);
  }
}
