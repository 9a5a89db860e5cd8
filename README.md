# A verified model of a browser chess rules engine

The repository is a single page (`index.php`). Its inline script holds a chess
rules engine. The engine keeps:

- an 8×8 board of optional pieces, where row 0 is rank 8 and file 0 is the a-file;
- the side to move, four castling rights, the en-passant target as a coordinate string such as `"e3"`, a move counter and a move history;
- a one-level undo record.

The engine generates pseudo-moves for every piece kind. It tells whether a
square is attacked. It filters pseudo-moves to legal ones by trying each move on
the real globals and restoring them. It applies moves, with en passant,
promotion to a queen and castling. It detects check, checkmate and stalemate,
and it undoes the last move.

This project models that engine in Dafny and proves properties of the model.
The model keeps the shape of the code:

- **Pure functions of the script become Dafny functions.** These are the
  coordinate conversions, `other`, `cloneBoard` and `formatMoveSan`.
- **The loop-and-push generator becomes methods with loops.** The generator
  (`generatePseudoMovesForSquare` and its helpers), `findKing` and
  `isSquareAttacked` live in module `Generator`. Each method is proved to
  return exactly what a specification function in `MoveGen` /
  `Chessboard` defines.
- **The code that writes the globals becomes class `Engine.Game`.** Its fields
  are the globals, and its methods are `makeMoveOnBoard`, `makeMove`,
  `undoMove`, `setStartingPosition`, the legality filter and the terminal-state
  scans. Each method is proved equal to a state-transition function of
  `Execute` / `Controller` / `Legality`.
- **The properties are lemmas about those specification functions.** They live
  in `Coords`, `MoveGenLemmas`, `ExecuteLemmas`, `Legality` and `Controller`.

Modules, in dependency order:

- `Options`: the option type.
- `Coords`: `rfToCoord`, `coordToRF` and their round trip.
- `Chessboard`: the board and position types, `other`, `findKing` as a function, and `cloneBoard`.
- `MoveGen`: the pseudo-move generator and the attack test as functions, in two explicit modes:
  - the attack mode never reaches the castling branch;
  - the normal mode adds castling on top of the attack-free piece moves.
- `MoveGenLemmas`: what generated moves look like.
- `Generator`: the generator, `findKing` and `isSquareAttacked` as loop methods.
- `Execute`: `makeMoveOnBoard` as a function.
- `ExecuteLemmas`: the board effects and the bookkeeping of a move.
- `Legality`: the legality filter, check, checkmate and stalemate as functions, and their characterisations.
- `Controller`: `makeMove`, `formatMoveSan`, `undoMove` and the starting state as functions on the whole game state.
- `Engine`: class `Game`, holding the globals and the mutating operations.
- `Findings`: the shadowing declaration of the legality filter, as written.

Points where the code behaves differently than a reader might expect, and
which the model follows:

- Undo is single-level: the code keeps only `lastMove.snapshot` and clears it
  on undo (index.php:618, 698), so a second undo is a no-op.
- A move followed by undo does not restore the state exactly. It restores it
  except for `lastMove`, which the code sets to null: `Controller.UndoAfterMove`
  states this.
- The code declares the legality filter twice, and the second declaration
  (index.php:717-719) is the one every caller reaches (see "## Findings"). The
  model uses the first declaration (index.php:483-513), the trial-and-restore
  filter.

## Model

| member | source | states |
|---|---|---|
| Coords.IndexOf | index.php:220-221 | the result is -1 exactly when the character is absent; otherwise it is the index of its first occurrence |
| Coords.RfToCoord | index.php:217 | a square's name has two characters: a file letter a–h, then a rank digit 1–8 |
| Coords.CoordToRF | index.php:218-224 | a decoded square always lies on the board |
| Coords.CoordRoundTrip | index.php:217-224 | decoding the name of any square (r, f) with 0 ≤ r, f < 8 gives back (r, f) |
| Coords.CoordToRFExact | index.php:218-224 | decoding succeeds iff the string has length 2 with a file letter then a rank digit (null otherwise); on success, re-encoding gives back the string |
| Coords.DecodesTo | index.php:217-224 | a string decodes to square (r, f) iff it is that square's name |
| Chessboard.Other | index.php:338 | the other colour differs from the given one |
| Chessboard.EmptyBoard | index.php:233 | an 8×8 board with every square empty |
| Chessboard.StartingBoard | index.php:233-241 | an 8×8 board whose every square holds the standard initial piece: back ranks r n b q k b n r, pawns on rows 1 and 6, black on top |
| Chessboard.KingFrom | index.php:341-347 | the scan from (r, f) in row-major order returns the first square holding a king of the colour; it returns none iff no later square holds one |
| Chessboard.FindKingOf | index.php:341-347 | findKing as a function: the row-major scan from a8, whose result is characterised by Chessboard.KingFrom and computed by Generator.FindKing |
| Chessboard.CloneBoard | index.php:227-229 | the copy has the same shape and the same cell in every square |
| Chessboard.CloneIsEqual | index.php:227-229 | the copy equals the original board, so a restored clone is the saved state |
| MoveGen.PseudoMoves | index.php:364-480 | the generator's output: the per-kind moves, then castling candidates for a king outside attack mode; its properties are stated by MoveGenLemmas.PseudoMovesShaped, NeverOwnPiece and the castling lemmas |
| MoveGen.PieceMoves | index.php:381-455 | the per-kind switch without castling: nothing for an empty square; pawn, knight, king steps, or the rays of a bishop, rook or queen |
| MoveGen.CastlingMoves | index.php:456-476 | the four guarded castling pushes for a king on e1 or e8; characterised by MoveGenLemmas.CastleKingsideCandidate and CastleQueensideCandidate |
| MoveGen.Attacked | index.php:350-361 | the attack test as a scan over all 64 squares in row-major order; characterised by MoveGenLemmas.AttackedSome and computed by Generator.IsSquareAttacked |
| MoveGen.SliderDirs | index.php:425-431 | bishop, rook and queen directions are all non-zero unit steps, so every ray terminates |
| MoveGenLemmas.SliderDirsExactly | index.php:425-431 | a direction is used iff it is a non-zero unit step that is diagonal for a bishop or queen, or straight for a rook or queen; 4, 4 and 8 directions, the queen's diagonals first; none for other kinds |
| MoveGenLemmas.StepToLands | index.php:415-418 | a single knight/king step yields at most one move, and yields one iff the square is on the board and does not hold an own piece; that move is plain, and a capture exactly when the square is occupied |
| MoveGenLemmas.StepToExactly | index.php:415-418 | a move comes from a step onto (rr, ff) iff it lands there, on the board and not on an own piece, plain, and a capture exactly when the square is occupied |
| MoveGenLemmas.KnightLands | index.php:412-420 | every knight move lands on the board, never on an own piece, is a capture exactly when the square is occupied, and is plain |
| MoveGenLemmas.KnightFromExactly | index.php:412-420 | the knight moves from offset i on are exactly the step moves onto squares at the offsets i.. of the list |
| MoveGenLemmas.KnightMovesExactly | index.php:412-420 | a move is a knight move iff its offset from the knight is in the offset list and it is the step move onto an on-board, not-own square |
| MoveGenLemmas.KnightOffsetsAreJumps | index.php:413 | the offset list holds exactly the eight jumps of one row and two files or two rows and one file |
| MoveGenLemmas.KingRowLands | index.php:448-454 | the same for the king steps of one row offset |
| MoveGenLemmas.KingStepsLand | index.php:446-455 | the same for all eight king steps |
| MoveGenLemmas.KingRowExactly | index.php:448-454 | the king steps of row offset dr from file offset df on are exactly the step moves onto the squares of that row offset and those file offsets, leaving out the king's own square |
| MoveGenLemmas.KingStepsExactly | index.php:446-455 | the king steps from row offset dr on are exactly the step moves onto the squares at row offsets dr..1 and file offsets -1..1 other than the king's own |
| MoveGenLemmas.KingMovesExactly | index.php:446-455 | a move is a king step iff it is the step move onto one of the eight neighbouring squares that is on the board and not own |
| MoveGenLemmas.RayLands | index.php:433-442 | the same for every square of one slider ray |
| MoveGenLemmas.SlideLands | index.php:432-443 | the same for all rays of a bishop, rook or queen |
| MoveGenLemmas.PushesShaped | index.php:384-392 | pawn pushes are never captures and land on empty squares on the board; a double step starts on the pawn's starting row (6 for White, 1 for Black), goes two rows forward on the same file, and passes over an empty square |
| MoveGenLemmas.PawnPushesExactly | index.php:384-392 | a move is a push iff the square ahead is on the board and empty and the move is the quiet step there, or additionally the pawn is on its starting row, the square two ahead is empty and the move is the double step there |
| MoveGenLemmas.DiagonalShaped | index.php:395-409 | a pawn's diagonal moves land on the board, never on an own piece except as en passant; an en-passant move is a capture onto the en-passant target one row forward on a neighbouring file |
| MoveGenLemmas.PawnDiagonalExactly | index.php:395-409 | a move is reported for the diagonal square one row ahead in file ff iff that square is on the board and the move is a capture of an enemy standing there, an en-passant capture of that square as the target, or, in attack mode only, a quiet move onto it when empty |
| MoveGenLemmas.PawnShaped | index.php:382-410 | every pawn move, in either mode, lands as above; a double step has the start-row shape and an en-passant move the diagonal shape |
| MoveGenLemmas.PawnMovesExactly | index.php:382-410 | a move is a pawn move iff it is a push (outside attack mode only) or one of the moves reported for the diagonal square on file f - 1 or f + 1, each under the conditions above |
| MoveGenLemmas.PawnMoveGeometry | index.php:382-410 | every pawn move is plain, a double step or en passant; a double step occurs only outside attack mode, from the starting row, two rows forward on the same file; a move on the pawn's own file occurs only outside attack mode and is the single step forward; every other move is one row forward onto a neighbouring file, and is a capture unless in attack mode |
| MoveGenLemmas.CastlingShaped | index.php:456-476 | a castling candidate is the king's move from e1/e8 to g or c on its home row |
| MoveGenLemmas.PseudoMovesShaped | index.php:364-480 | every pseudo-move, in either mode, lands on the board; an en-passant move is a capture onto the en-passant target; any other move never lands on an own piece and is a capture exactly when it lands on a piece; each tagged move (double, en passant, castling) has its kind's shape |
| MoveGenLemmas.RayStraight | index.php:433-442 | a ray is the run of consecutive squares from its start in its direction |
| MoveGenLemmas.RayClear | index.php:435-439 | every square of a ray but the last is empty and not a capture; the last is a capture exactly when occupied, and then by an enemy |
| MoveGenLemmas.RayStops | index.php:434-440 | a ray that does not end in a capture stops at the edge of the board or just before a piece of the mover's colour |
| MoveGenLemmas.RayShape | index.php:432-443 | each slider ray stops at the first occupied square and includes it only when it holds an enemy |
| MoveGenLemmas.PawnNoCastle | index.php:382-410 | pawns never produce castling moves |
| MoveGenLemmas.PieceMovesNoCastle | index.php:381-455 | only the castling branch produces castling moves |
| MoveGenLemmas.CastleKingsideCandidate | index.php:456-475 | a king-side castling move is generated iff: not attack mode, a king on e1/e8 of its colour, the matching right held, f and g empty, e, f and g unattacked by the other colour; the move is to g |
| MoveGenLemmas.CastleQueensideCandidate | index.php:456-475 | a queen-side castling move is generated iff: not attack mode, a king on e1/e8, the matching right held, b, c and d empty, e, d and c unattacked by the other colour; the move is to c |
| MoveGenLemmas.ReachesSome | index.php:357 | the `some` test over the attack list holds iff some listed move ends on the square |
| MoveGenLemmas.AnyFromSome | index.php:352-360 | the early-return scan succeeds iff some remaining entry is set |
| MoveGenLemmas.AttackedSome | index.php:350-361 | a square is attacked by a colour iff some square holds a piece of that colour whose attack-mode moves reach it |
| Generator.FindKing | index.php:341-347 | the nested scan returns the first king of the colour in row-major order, or none |
| Generator.IsSquareAttacked | index.php:350-361 | the scan with early return answers exactly the attack predicate |
| Generator.AttackerInRow | index.php:353-358 | the inner scan of one row answers whether some square of that row attacks the target |
| Generator.AttacksFromSquare | index.php:354-357 | one square attacks the target iff it holds a piece of the colour whose attack-mode list reaches the target |
| Generator.PseudoMovesForSquare | index.php:364-480 | the generator returns exactly the pseudo-moves of the square in the given mode: empty for an empty square |
| Generator.PieceMovesFor | index.php:381-455 | the per-kind switch returns exactly the non-castling moves of the piece |
| Generator.PawnMovesFor | index.php:382-410 | the pawn branch returns pushes (normal mode only), then the two diagonals |
| Generator.PawnPushesFor | index.php:384-392 | the single step onto an empty square, and from the home row the double step onto an empty square |
| Generator.PawnDiagonalFor | index.php:395-409 | for one diagonal square: an enemy capture, an en-passant capture when it is the target, and in attack mode the empty square itself |
| Generator.EnPassantAt | index.php:400-403 | the decoded en-passant target is exactly this square |
| Generator.StepMovesFor | index.php:415-418 | the one-square accept/reject rule: empty gives a plain move, an enemy a capture, an own piece or off-board nothing |
| Generator.KnightMovesFor | index.php:412-420 | the eight knight offsets in the source's order under that rule |
| Generator.SliderMovesFor | index.php:422-444 | the rays of the piece's directions, bishop directions first for a queen |
| Generator.SliderDirsFor | index.php:425-431 | the directions pushed for a bishop, rook or queen |
| Generator.RayMovesFor | index.php:433-442 | the while loop returns exactly the ray: empty squares, then the first occupied square if it holds an enemy |
| Generator.KingStepsFor | index.php:446-455 | the eight king steps in the source's loop order |
| Generator.KingRowFor | index.php:448-454 | the king steps of one row offset, skipping the king's own square |
| Generator.NoneAttacked | index.php:460 | the three squares are all unattacked by the colour |
| Generator.CastlingMovesFor | index.php:456-476 | the castling candidates for a king on its home row |
| Execute.CapturedBy | index.php:520-529 | the captured cell: for en passant the cell behind the destination (taken even when empty, as the source's `{...null}` object is truthy), otherwise the destination's piece, or nothing |
| Execute.UpdatedRights | index.php:558-575 | the rights update of real mode in the source's order: king move, rook leaving a corner, rook taken on a corner; stated by ExecuteLemmas.RightsCleared and RightsOnlyDrop |
| Execute.MovedBoard | index.php:523-555 | the board after the piece move, en-passant removal, promotion and the castling rook move; stated square by square by ExecuteLemmas.ApplyEffects |
| Execute.PieceMovedBoard | index.php:523-541 | the board after the piece moves, en passant and promotion is again an 8×8 board; its contents are stated by ExecuteLemmas.ApplyEffects |
| Execute.MoveOnBoard | index.php:516-588 | the position after any move that can be applied is a well-formed position |
| ExecuteLemmas.ShapedCanApply | index.php:486-496 | every generated move can be trial-applied: its squares, and the en-passant capture square, are on the board |
| ExecuteLemmas.ApplyEffects | index.php:516-555 | after a generated move: the origin is empty and the destination holds the mover (a queen if a pawn reaches its last rank); en passant also empties the square on the origin row behind the destination; castling moves the h-rook to f or the a-rook to d; every other square is unchanged; the same in both modes |
| ExecuteLemmas.MetadataAfterMove | index.php:557-582 | rights only ever go from true to false; in trial mode, or with an empty origin, rights and en-passant target are untouched; in real mode the target is set iff the move is a double step, and then to the midpoint square |
| ExecuteLemmas.RightsOnlyDrop | index.php:558-575 | the rights update never turns a right back on |
| ExecuteLemmas.RightsCleared | index.php:558-575 | in real mode each right survives iff it was held and none of its clearing events happened: a king move of its colour, a rook leaving its corner, a rook captured on its corner; so for instance a knight move keeps all four rights |
| ExecuteLemmas.DoubleStepTarget | index.php:578-579 | after a real double step the en-passant target names the skipped square, and that square is empty |
| ExecuteLemmas.RealMoveKeepsTargetVacant | index.php:577-582 | after any real generated move, the en-passant target is unset or names an empty square |
| ExecuteLemmas.NeverOwnPiece | index.php:364-480 | when the en-passant target is empty or unset, no pseudo-move lands on a piece of the mover's colour, in either mode |
| Legality.KingSafeAfter | index.php:496-499 | after a trial move, a king of the mover's colour is found and is not attacked by the other colour; a missing king counts as in check |
| Legality.LegalMoves | index.php:483-513 | the first declaration of the filter: nothing for an empty square, else the pseudo-moves whose trial leaves the king safe, annotated, in order; characterised by Legality.LegalMovesExactly and computed by Engine.Game.LegalMovesForSquare |
| Legality.InCheck | index.php:640-644 | the side's king is found and attacked by the other colour; a side without a king is not in check |
| Legality.Checkmate | index.php:647-660 | in check and no piece of the side has a legal move; characterised by Legality.TerminalStates |
| Legality.Stalemate | index.php:663-675 | not in check and no piece of the side has a legal move; characterised by Legality.TerminalStates |
| Legality.AnnotateKeepsShaped | index.php:505-509 | the capture annotation leaves a generated move unchanged |
| Legality.FilterMembers | index.php:488-512 | the kept list holds exactly the annotated moves whose keep flag is set |
| Legality.FilterKept | index.php:505-509 | on generated moves the filter keeps exactly the moves whose trial flag is set, unchanged by the annotation |
| Legality.FilterSafeExactly | index.php:488-512 | with the king-safety flags, the filter keeps a move iff it was a candidate, can be applied, and leaves the mover's king unattacked |
| Legality.LegalMovesExactly | index.php:483-513 | a move is legal from a square iff the square holds a piece, the move is one of its normal-mode pseudo-moves, and after trial application the mover's king exists and is not attacked by the other colour |
| Legality.TerminalStates | index.php:640-675 | checkmate and stalemate never both hold; checkmate is check with no piece of the side having a legal move; stalemate is no check with no such piece |
| Legality.HasLegalMoveSome | index.php:650-659 | the board scan finds a legal move iff some piece of the side has a non-empty legal list |
| Controller.FormatMoveSan | index.php:628-637 | `O-O` or `O-O-O` for castling, otherwise the piece letter (none for a pawn), `x` when something was captured, and the destination's name; stated by Controller.CastlingSan, PieceSan, PawnSan and SanNamesDestination |
| Controller.StartingState | index.php:232-249 | the state set by setStartingPosition; stated by Controller.StartingStateFacts |
| Controller.MakeMoveSpec | index.php:591-625 | makeMove on the whole game state: nothing unless the origin holds a piece of the side to move, else the real-mode move, one notation entry, the counter, the turn flip and the undo record; stated by Controller.MakeMoveNeedsOwnPiece and MakeMoveBookkeeping |
| Controller.UndoSpec | index.php:692-704 | undoMove on the whole game state: restore the recorded snapshot, pop one history entry and drop the record, or nothing without a record; stated by Controller.UndoAfterMove and UndoIsSingleLevel |
| Controller.CastlingSan | index.php:629-631 | a kingside castle is written `O-O` and a queenside castle `O-O-O` |
| Controller.PieceSan | index.php:632-636 | a non-pawn, non-castling move is written as one of the letters N, B, R, Q, K, which no other kind shares, then `x` exactly when something was captured, then the destination's name; the entry is three characters long, four with a capture |
| Controller.PawnSan | index.php:628-637 | a pawn's move is written as the destination, and a capture as `x` plus the destination, with no file letter |
| Controller.SanNamesDestination | index.php:628-637 | a non-castling move's notation ends with the destination's name; it starts with `x` iff a pawn captured |
| Controller.MakeMoveNeedsOwnPiece | index.php:591-593 | makeMove changes nothing unless the origin holds a piece of the side to move |
| Controller.MakeMoveBookkeeping | index.php:591-618 | otherwise: the turn flips; exactly one entry is appended to the history; the counter grows only after Black's move; the position is the real-mode move of the old one; the undo record holds the old state |
| Controller.UndoAfterMove | index.php:692-704 | undo right after a move restores board, rights, en-passant target, turn, counter and history; only the undo record differs, which becomes null |
| Controller.UndoIsSingleLevel | index.php:692-698 | undo leaves no undo record, or changes nothing; undoing twice is the same as undoing once |
| Controller.StartingStateFacts | index.php:232-249 | the starting state: white to move, all four rights, no en-passant target, counter 1, empty history, no undo record, kings on e1 and e8 found by findKing |
| Engine.Game.constructor | index.php:183-191 | the globals as declared, then the bootstrap set-up, give exactly the starting state |
| Engine.Game.SetStartingPosition | index.php:232-249 | the whole state becomes the starting state |
| Engine.Game.LegalMovesForSquare | index.php:483-513 | returns exactly the legal moves of the square, and leaves every global as before the call |
| Engine.Game.FilterByTrial | index.php:487-512 | the loop over the pseudo-moves returns the moves whose trial leaves the king safe, annotated, in order, and restores the state |
| Engine.Game.TryMove | index.php:489-510 | one candidate is appended, annotated, iff its trial leaves the king safe; the state is restored |
| Engine.Game.TrialInCheck | index.php:490-504 | the save, trial move, king search, attack test and restore answer "in check" iff the king is not safe after the move, and leave the state as it was |
| Engine.Game.MakeMove | index.php:591-625 | the new game state is the makeMove transition of the old one |
| Engine.Game.GameOverCheck | index.php:619-624 | the checkmate-then-stalemate test leaves the state unchanged |
| Engine.Game.UndoMove | index.php:692-704 | the new game state is the undo transition of the old one |
| Engine.Game.IsInCheck | index.php:640-644 | answers whether the side's king exists and is attacked by the other colour |
| Engine.Game.IsCheckmate | index.php:647-660 | answers checkmate of the side, leaving the state unchanged |
| Engine.Game.IsStalemate | index.php:663-675 | answers stalemate of the side, leaving the state unchanged |
| Engine.Game.AnyLegalMove | index.php:650-659 | the nested scan answers whether some piece of the side has a legal move, leaving the state unchanged |
| Engine.Game.LegalMoveInRow | index.php:651-657 | the inner scan of one row answers whether a piece of the side on that row has a legal move |
| Engine.Game.MakeMoveOnBoard | index.php:516-588 | the position and the captured cell are those of the move function; the last-move record is set only in real mode with a piece on the origin; turn, counter and history are unchanged |
| Engine.Game.MoveCells | index.php:523-555 | the board becomes the board after the piece move and the castling rook move; nothing else changes |
| Engine.Game.MovePieceCells | index.php:523-541 | the board after en-passant removal, the move and promotion; nothing else changes |
| Engine.Game.MoveCastlingRook | index.php:543-555 | the board after the castling rook moves; nothing else changes |
| Engine.Game.UpdateCastlingRights | index.php:558-575 | the rights become the staged update of king move, rook departure and rook capture; nothing else changes |
| Engine.ClearCorner | index.php:564-567 | clears exactly the right of the rook that starts on the given corner and keeps the other three |
| Findings.ShadowingNeverReturns | index.php:717-719 | as written, the hoisted second declaration and the public wrapper call each other, so at any stack depth neither returns a move list |

## Left out

- HTML, CSS, glyphs, DOM references, `initBoardUI`, `render` and `onSquareClick` are not modelled: they are presentation and event handling. The click handler only attempts a move whose destination is in the legal list, so `Engine.Game.MakeMove` is modelled for any move the caller can apply.
- The status and turn-indicator text written by `render` and by `makeMove` (index.php:292-293, 623) is not modelled. The checkmate and stalemate answers computed at the end of `makeMove` only feed that text, so `Engine.Game.GameOverCheck` computes and discards them.
- `selected` and `legalSquares` (UI selection state) are not fields of `Game`.
- `generateLegalMovesForSquareUI` (index.php:678-684) is not modelled: nothing calls it.
- The wrapper pair (index.php:687-689, 717-719) is modelled only in `Findings`: as written it recurses without end. The rest of the model uses the first declaration of the filter.
- `pushIfEmpty` and `pushIfEnemy` (index.php:371-379) are not modelled: they are never called.
- Draw by repetition or the fifty-move rule, underpromotion and notation disambiguation are not modelled: the code has none of them.
- The board is a value (`seq<seq<Option<Piece>>>`) reassigned on each cell write, not a JavaScript array of arrays. The identity and aliasing of the row arrays are not modelled. The source never shares a row between two boards that are later written separately (it clones before saving), so this does not change the outcome.
- The generator, `findKing` and `isSquareAttacked` read the globals in the source. In the model they take the board, rights and en-passant target as a value. They never write state, so this is equivalent.
- The inner loops of `isSquareAttacked`, the legality filter and the terminal-state scans are separate methods (`AttackerInRow`, `TryMove`, `LegalMoveInRow`). This keeps each proof small; the iteration order and the early returns are the source's.
- Off-board indices are not modelled. `Engine.Game.MakeMove`, `Engine.Game.MakeMoveOnBoard`, `Engine.Game.LegalMovesForSquare` and `Engine.Game.TrialInCheck` require both squares on the board, and for an en-passant move the capture square too. Every caller in the script passes such squares: the click handler (index.php:314, 323) and the filter, with generated moves. Outside that, JavaScript does different things by index:
  - an off-board row index (origin, destination or en-passant capture row) throws a TypeError when indexing `board`;
  - an off-board origin file reads `undefined`, so `makeMoveOnBoard` and `makeMove` return as for an empty origin (index.php:518-519, 592-593), and the filter returns an empty list (index.php:484-485);
  - an off-board destination file makes `board[toR][toF] = moving` (index.php:532) store the piece outside the row's eight squares, without an error.
- MoveGen.SliderDirs: its own contract states only that every direction is a non-zero unit step; which directions each kind gets is stated by `MoveGenLemmas.SliderDirsExactly`.
- MoveGenLemmas.KnightLands: states only where the knight's moves land; that every on-board, not-own square a knight's jump away is generated is stated by `MoveGenLemmas.KnightMovesExactly`.
- MoveGenLemmas.KingRowLands: states only where the moves land; the converse is `MoveGenLemmas.KingRowExactly`.
- MoveGenLemmas.KingStepsLand: states only where the moves land; the converse is `MoveGenLemmas.KingStepsExactly` and `MoveGenLemmas.KingMovesExactly`.
- MoveGenLemmas.DiagonalShaped: states only where the diagonal moves land and their shape; which moves are reported, and in which mode, is stated by `MoveGenLemmas.PawnDiagonalExactly`.
- MoveGenLemmas.PawnShaped: states only where pawn moves land and their shape; the converse is `MoveGenLemmas.PawnMovesExactly`.
- MoveGenLemmas.PawnMoveGeometry: states only the geometry of each generated pawn move; the converse is `MoveGenLemmas.PawnMovesExactly`.
- The board invariant that play through the legal lists keeps exactly one king of each colour, so that no legal move ever captures a king, is not proved. A proof needs further invariants carried across `Controller.MakeMoveSpec` and `Controller.UndoSpec`: the side not to move is not in check; the en-passant target has the opposing pawn right behind it; and each castling right still held has its king and rook on their home squares, since castling moves whatever stands on the rook's corner (index.php:543-555). It also needs a lemma that every normal-mode capture lands on a square the attack-mode generator reaches. None of these is stated. The model's lemmas hold for every board instead, including boards with no king of a colour or with more than one; there `findKing` gives its null result or the first king in row order, as in index.php:341-347.
- The capture returned by the move executor for an en-passant move onto a square without a pawn behind it is `Took(None)`: the source's `{...null}` is an empty but truthy object, so notation still writes `x`. The model keeps this, but no lemma singles it out.

## Findings

| source | as written | input that shows it | evidently intended | confidence | as-written member | corrected member |
|---|---|---|---|---|---|---|
| index.php:717-719 | a second `function generateLegalMovesForSquare` is hoisted over the first and calls `generateLegalMovesForSquarePublic` (index.php:687-689), which calls it back | any call, e.g. clicking a piece of the side to move, or `isCheckmate` after a move that gives check | the trial-and-restore filter of index.php:483-513 | not executed | Findings.ShadowingNeverReturns | Engine.Game.LegalMovesForSquare |
