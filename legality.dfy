/**
 * The legality filter and the terminal states built on it. A pseudo-move is
 * legal when, after applying it in trial mode, the mover's first king in scan
 * order exists and is not attacked by the other colour.
 */
module Legality {
  import opened Options
  import opened Chessboard
  import opened MoveGen
  import opened MoveGenLemmas
  import opened Execute

  /** A king of colour c exists and is attacked by the other colour. */
  predicate KingAttacked(pos: Position, c: Color)
    requires pos.Valid()
  {
    match FindKingOf(pos.board, c)
    case None => false
    case Some(k) => Attacked(pos, k.0, k.1, Other(c))
  }

  /** After trying m from (r, f), a king of colour c is found and is not attacked. */
  predicate KingSafeAfter(pos: Position, r: int, f: int, c: Color, m: Move)
    requires pos.Valid() && CanApply(pos.board, r, f, m.r, m.f, m.special)
  {
    var after := MoveOnBoard(pos, r, f, m.r, m.f, m.special, false).pos;
    FindKingOf(after.board, c).Some? && !KingAttacked(after, c)
  }

  /** The move as the filter returns it: marked a capture when it was one, is en passant, or lands on an enemy. */
  function Annotate(pos: Position, c: Color, m: Move): Move
    requires pos.Valid() && OnBoard(m.r, m.f)
  {
    m.(capture := m.capture || m.special == EnPassant
                  || (At(pos.board, m.r, m.f).Some? && At(pos.board, m.r, m.f).value.color != c))
  }

  /** For each move of ms, whether trying it keeps the mover's king safe. */
  function SafeMask(pos: Position, r: int, f: int, c: Color, ms: seq<Move>): (keep: seq<bool>)
    requires pos.Valid() && OnBoard(r, f) && AllShaped(pos, r, f, c, ms)
    ensures |keep| == |ms|
    ensures forall j :: 0 <= j < |ms| ==> keep[j] == KingSafeAfter(pos, r, f, c, ms[j])
  {
    seq(|ms|, j requires 0 <= j < |ms| => assert Shaped(pos, r, f, c, ms[j]); KingSafeAfter(pos, r, f, c, ms[j]))
  }

  predicate AllOnBoard(ms: seq<Move>) {
    forall j :: 0 <= j < |ms| ==> OnBoard(ms[j].r, ms[j].f)
  }

  /** The moves i.. of ms whose entry in keep is set, annotated, in order. */
  function FilterLegal(pos: Position, c: Color, ms: seq<Move>, keep: seq<bool>, i: int): seq<Move>
    requires pos.Valid() && AllOnBoard(ms) && |keep| == |ms| && 0 <= i <= |ms|
    decreases |ms| - i
  {
    if i == |ms| then []
    else (if keep[i] then [Annotate(pos, c, ms[i])] else []) + FilterLegal(pos, c, ms, keep, i + 1)
  }

  /** The legal moves of the piece on (r, f); none for an empty square. */
  function LegalMoves(pos: Position, r: int, f: int): seq<Move>
    requires pos.Valid() && OnBoard(r, f)
  {
    match At(pos.board, r, f)
    case None => []
    case Some(pc) =>
      var ms := PseudoMoves(pos, r, f, false);
      PseudoMovesShaped(pos, r, f, false);
      ShapedOnBoard(pos, r, f, pc.color, ms);
      FilterLegal(pos, pc.color, ms, SafeMask(pos, r, f, pc.color, ms), 0)
  }

  /** The side's king is attacked; a side without a king is not in check. */
  predicate InCheck(pos: Position, side: Color)
    requires pos.Valid()
  {
    KingAttacked(pos, side)
  }

  /** For each file of row r, whether a piece of `side` stands there and has a legal move. */
  function RowMovable(pos: Position, side: Color, r: int): (h: seq<bool>)
    requires pos.Valid() && 0 <= r < 8
    ensures |h| == 8
    ensures forall f :: 0 <= f < 8 ==> h[f] == (IsPieceOf(pos.board, r, f, side) && |LegalMoves(pos, r, f)| > 0)
  {
    seq(8, f requires 0 <= f < 8 => IsPieceOf(pos.board, r, f, side) && |LegalMoves(pos, r, f)| > 0)
  }

  /** For each row, whether some piece of `side` in it has a legal move. */
  function BoardMovable(pos: Position, side: Color): (h: seq<bool>)
    requires pos.Valid()
    ensures |h| == 8
    ensures forall r :: 0 <= r < 8 ==> h[r] == AnyFrom(RowMovable(pos, side, r), 0)
  {
    seq(8, r requires 0 <= r < 8 => AnyFrom(RowMovable(pos, side, r), 0))
  }

  /** Scanning row by row, file by file, some piece of the side has at least one legal move. */
  predicate HasLegalMove(pos: Position, side: Color)
    requires pos.Valid()
  {
    AnyFrom(BoardMovable(pos, side), 0)
  }

  predicate Checkmate(pos: Position, side: Color)
    requires pos.Valid()
  {
    InCheck(pos, side) && !HasLegalMove(pos, side)
  }

  predicate Stalemate(pos: Position, side: Color)
    requires pos.Valid()
  {
    !InCheck(pos, side) && !HasLegalMove(pos, side)
  }

  /** A generated move is already annotated the way the filter annotates it. */
  lemma AnnotateKeepsShaped(pos: Position, r: int, f: int, c: Color, m: Move)
    requires pos.Valid() && OnBoard(r, f) && Shaped(pos, r, f, c, m)
    ensures Annotate(pos, c, m) == m
  {
  }

  lemma ShapedOnBoard(pos: Position, r: int, f: int, c: Color, ms: seq<Move>)
    requires pos.Valid() && OnBoard(r, f) && AllShaped(pos, r, f, c, ms)
    ensures AllOnBoard(ms)
  {
    forall j | 0 <= j < |ms| ensures OnBoard(ms[j].r, ms[j].f) {
      assert Shaped(pos, r, f, c, ms[j]);
    }
  }

  /** The filter returns exactly the annotations of the moves from i on whose entry in keep is set. */
  lemma {:induction false} FilterMembers(pos: Position, c: Color, ms: seq<Move>, keep: seq<bool>, i: int, m: Move)
    requires pos.Valid() && AllOnBoard(ms) && |keep| == |ms| && 0 <= i <= |ms|
    ensures m in FilterLegal(pos, c, ms, keep, i) <==> exists j :: i <= j < |ms| && keep[j] && Annotate(pos, c, ms[j]) == m
    decreases |ms| - i
  {
    if i < |ms| {
      FilterMembers(pos, c, ms, keep, i + 1, m);
      var head: seq<Move> := if keep[i] then [Annotate(pos, c, ms[i])] else [];
      var rest := FilterLegal(pos, c, ms, keep, i + 1);
      assert FilterLegal(pos, c, ms, keep, i) == head + rest;
      if m in head {
        assert i <= i < |ms| && keep[i] && Annotate(pos, c, ms[i]) == m;
      }
      if exists j :: i <= j < |ms| && keep[j] && Annotate(pos, c, ms[j]) == m {
        var j :| i <= j < |ms| && keep[j] && Annotate(pos, c, ms[j]) == m;
        if j == i {
          assert m in head;
        } else {
          assert i + 1 <= j < |ms|;
        }
      }
    }
  }

  /** On generated moves, the filter keeps exactly the moves whose entry in keep is set, unchanged. */
  lemma FilterKept(pos: Position, r: int, f: int, c: Color, ms: seq<Move>, keep: seq<bool>, m: Move)
    requires pos.Valid() && OnBoard(r, f) && AllShaped(pos, r, f, c, ms) && AllOnBoard(ms) && |keep| == |ms|
    ensures m in FilterLegal(pos, c, ms, keep, 0) <==> exists j :: 0 <= j < |ms| && keep[j] && ms[j] == m
  {
    FilterMembers(pos, c, ms, keep, 0, m);
    if m in FilterLegal(pos, c, ms, keep, 0) {
      var j :| 0 <= j < |ms| && keep[j] && Annotate(pos, c, ms[j]) == m;
      assert Shaped(pos, r, f, c, ms[j]);
      AnnotateKeepsShaped(pos, r, f, c, ms[j]);
    }
    if exists j :: 0 <= j < |ms| && keep[j] && ms[j] == m {
      var j :| 0 <= j < |ms| && keep[j] && ms[j] == m;
      assert Shaped(pos, r, f, c, ms[j]);
      AnnotateKeepsShaped(pos, r, f, c, ms[j]);
    }
  }

  /** Filtering shaped moves by the safety mask keeps exactly the safe ones, unchanged. */
  lemma FilterSafeExactly(pos: Position, r: int, f: int, c: Color, ms: seq<Move>, m: Move)
    requires pos.Valid() && OnBoard(r, f) && AllShaped(pos, r, f, c, ms) && AllOnBoard(ms)
    ensures m in FilterLegal(pos, c, ms, SafeMask(pos, r, f, c, ms), 0) <==>
            m in ms && CanApply(pos.board, r, f, m.r, m.f, m.special) && KingSafeAfter(pos, r, f, c, m)
  {
    var keep := SafeMask(pos, r, f, c, ms);
    FilterKept(pos, r, f, c, ms, keep, m);
    if m in ms {
      var j :| 0 <= j < |ms| && ms[j] == m;
      assert Shaped(pos, r, f, c, ms[j]);
      assert keep[j] == KingSafeAfter(pos, r, f, c, m);
    }
  }

  /**
   * The filter keeps exactly the pseudo-moves after whose trial the mover's
   * king is found and not attacked by the other colour, and returns them
   * unchanged.
   */
  lemma LegalMovesExactly(pos: Position, r: int, f: int, m: Move)
    requires pos.Valid() && OnBoard(r, f)
    ensures m in LegalMoves(pos, r, f) <==>
            At(pos.board, r, f).Some? && m in PseudoMoves(pos, r, f, false)
            && CanApply(pos.board, r, f, m.r, m.f, m.special)
            && KingSafeAfter(pos, r, f, At(pos.board, r, f).value.color, m)
  {
    if At(pos.board, r, f).Some? {
      var c := At(pos.board, r, f).value.color;
      var ms := PseudoMoves(pos, r, f, false);
      PseudoMovesShaped(pos, r, f, false);
      ShapedOnBoard(pos, r, f, c, ms);
      FilterSafeExactly(pos, r, f, c, ms, m);
    }
  }

  /**
   * Checkmate and stalemate never hold together; checkmate is check with no
   * legal move for any piece of the side, stalemate the same without check.
   */
  lemma TerminalStates(pos: Position, side: Color)
    requires pos.Valid()
    ensures !(Checkmate(pos, side) && Stalemate(pos, side))
    ensures Checkmate(pos, side) <==>
              (InCheck(pos, side) && forall r, f :: OnBoard(r, f) && IsPieceOf(pos.board, r, f, side) ==> LegalMoves(pos, r, f) == [])
    ensures Stalemate(pos, side) <==>
              (!InCheck(pos, side) && forall r, f :: OnBoard(r, f) && IsPieceOf(pos.board, r, f, side) ==> LegalMoves(pos, r, f) == [])
  {
    HasLegalMoveSome(pos, side);
  }

  /** The scan finds a movable piece exactly when some piece of the side on the board has a legal move. */
  lemma HasLegalMoveSome(pos: Position, side: Color)
    requires pos.Valid()
    ensures HasLegalMove(pos, side) <==>
            exists r, f :: OnBoard(r, f) && IsPieceOf(pos.board, r, f, side) && |LegalMoves(pos, r, f)| > 0
  {
    var rows := BoardMovable(pos, side);
    AnyFromSome(rows, 0);
    if HasLegalMove(pos, side) {
      var r :| 0 <= r < 8 && rows[r];
      AnyFromSome(RowMovable(pos, side, r), 0);
    }
    if exists r, f :: OnBoard(r, f) && IsPieceOf(pos.board, r, f, side) && |LegalMoves(pos, r, f)| > 0 {
      var r, f :| OnBoard(r, f) && IsPieceOf(pos.board, r, f, side) && |LegalMoves(pos, r, f)| > 0;
      AnyFromSome(RowMovable(pos, side, r), 0);
      assert rows[r];
    }
  }
}
