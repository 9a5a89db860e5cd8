/**
 * The script declares generateLegalMovesForSquare twice. Function
 * declarations are hoisted to the top of the script, so the second one
 * (index.php:717-719) is the one every caller reaches: it calls
 * generateLegalMovesForSquarePublic (index.php:687-689), which calls
 * generateLegalMovesForSquare again. This module models that pair as
 * written, with the depth of the call stack as a bound; running out of
 * stack is None.
 */
module Findings {
  import opened Options
  import opened Chessboard

  /** The second declaration of generateLegalMovesForSquare: forward to the public wrapper, one frame deeper. */
  function ShadowingLegalMoves(pos: Position, r: int, f: int, depth: nat): Option<seq<Move>>
    decreases depth
  {
    if depth == 0 then None else PublicLegalMoves(pos, r, f, depth - 1)
  }

  /** generateLegalMovesForSquarePublic: forward to whatever generateLegalMovesForSquare names, one frame deeper. */
  function PublicLegalMoves(pos: Position, r: int, f: int, depth: nat): Option<seq<Move>>
    decreases depth
  {
    if depth == 0 then None else ShadowingLegalMoves(pos, r, f, depth - 1)
  }

  /** As written, no stack is deep enough: a call of generateLegalMovesForSquare never returns a move list. */
  lemma {:induction false} ShadowingNeverReturns(pos: Position, r: int, f: int, depth: nat)
    ensures ShadowingLegalMoves(pos, r, f, depth) == None
    ensures PublicLegalMoves(pos, r, f, depth) == None
    decreases depth
  {
    if depth > 0 {
      ShadowingNeverReturns(pos, r, f, depth - 1);
    }
  }
}
