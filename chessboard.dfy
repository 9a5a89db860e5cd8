/**
 * The board model: pieces, the 8x8 grid of optional pieces (row 0 is rank 8,
 * row 7 is rank 1), castling rights, and the moves the generator produces.
 */
module Chessboard {
  import opened Options

  datatype Color = White | Black
  datatype Kind = Pawn | Knight | Bishop | Rook | Queen | King
  datatype Piece = Piece(kind: Kind, color: Color)

  /** A square's content: a piece or nothing. */
  type Cell = Option<Piece>
  type Board = seq<seq<Cell>>

  /** The four castling rights: king side (K) and queen side (Q) for each colour. */
  datatype CastlingRights = CastlingRights(wK: bool, wQ: bool, bK: bool, bQ: bool)

  /** The `special` tag of a move; Plain is the untagged move. */
  datatype Special = Plain | Double | EnPassant | CastleK | CastleQ

  /** A generated move: its destination, whether it is marked as a capture, and its tag. */
  datatype Move = Move(r: int, f: int, capture: bool, special: Special)

  /**
   * What applying a move reports as captured: nothing, or a copy of a cell.
   * The en-passant branch copies the cell behind the destination even when it
   * is empty, which still counts as "something captured".
   */
  datatype Capture = NoCapture | Took(cell: Cell)

  /** Everything the move generator reads: the grid, the rights and the en-passant target's name. */
  datatype Position = Position(board: Board, rights: CastlingRights, enPassant: Option<string>)
  {
    predicate Valid() { IsBoard(board) }
  }

  function Other(c: Color): (o: Color)
    ensures o != c
  {
    if c == White then Black else White
  }

  predicate OnBoard(r: int, f: int) {
    0 <= r < 8 && 0 <= f < 8
  }

  predicate IsBoard(b: Board) {
    |b| == 8 && forall r :: 0 <= r < 8 ==> |b[r]| == 8
  }

  function At(b: Board, r: int, f: int): Cell
    requires IsBoard(b) && OnBoard(r, f)
  {
    b[r][f]
  }

  /** The board with square (r, f) set to `c` and every other square as before. */
  function Put(b: Board, r: int, f: int, c: Cell): (b': Board)
    requires IsBoard(b) && OnBoard(r, f)
    ensures IsBoard(b')
    ensures forall rr, ff :: OnBoard(rr, ff) ==> At(b', rr, ff) == if rr == r && ff == f then c else At(b, rr, ff)
  {
    b[r := b[r][f := c]]
  }

  predicate IsPieceOf(b: Board, r: int, f: int, c: Color)
    requires IsBoard(b) && OnBoard(r, f)
  {
    At(b, r, f).Some? && At(b, r, f).value.color == c
  }

  /** The row a pawn of colour c moves towards: -1 for White (towards rank 8), +1 for Black. */
  function Forward(c: Color): int {
    if c == White then -1 else 1
  }

  /** The back row of a colour: row 7 (rank 1) for White, row 0 (rank 8) for Black. */
  function HomeRow(c: Color): int {
    if c == White then 7 else 0
  }

  const BackRank: seq<Kind> := [Rook, Knight, Bishop, Queen, King, Bishop, Knight, Rook]

  function StartCell(r: int, f: int): Cell
    requires OnBoard(r, f)
  {
    if r == 0 then Some(Piece(BackRank[f], Black))
    else if r == 1 then Some(Piece(Pawn, Black))
    else if r == 6 then Some(Piece(Pawn, White))
    else if r == 7 then Some(Piece(BackRank[f], White))
    else None
  }

  /** The standard initial arrangement. */
  function StartingBoard(): (b: Board)
    ensures IsBoard(b)
    ensures forall r, f :: OnBoard(r, f) ==> At(b, r, f) == StartCell(r, f)
  {
    seq(8, r requires 0 <= r < 8 => seq(8, f requires 0 <= f < 8 => StartCell(r, f)))
  }

  function EmptyBoard(): (b: Board)
    ensures IsBoard(b)
    ensures forall r, f :: OnBoard(r, f) ==> At(b, r, f) == None
  {
    seq(8, r => seq(8, f => None))
  }

  /** (r', f') comes at or after (r, f) in the row-by-row scan order of the script's nested loops. */
  predicate NotBefore(r': int, f': int, r: int, f: int) {
    r' > r || (r' == r && f' >= f)
  }

  predicate IsKingOf(b: Board, r: int, f: int, c: Color)
    requires IsBoard(b) && OnBoard(r, f)
  {
    At(b, r, f) == Some(Piece(King, c))
  }

  /**
   * The first king of colour c at or after (r, f) in scan order. The
   * script's findKing is this scan started at (0, 0).
   */
  function KingFrom(b: Board, c: Color, r: int, f: int): (k: Option<(int, int)>)
    requires IsBoard(b) && 0 <= r <= 8 && 0 <= f <= 8
    ensures k.Some? ==> OnBoard(k.value.0, k.value.1) && NotBefore(k.value.0, k.value.1, r, f)
                        && IsKingOf(b, k.value.0, k.value.1, c)
                        && forall rr, ff :: OnBoard(rr, ff) && NotBefore(rr, ff, r, f) && !NotBefore(rr, ff, k.value.0, k.value.1)
                             ==> !IsKingOf(b, rr, ff, c)
    ensures k.None? ==> forall rr, ff :: OnBoard(rr, ff) && NotBefore(rr, ff, r, f) ==> !IsKingOf(b, rr, ff, c)
    decreases 8 - r, 8 - f
  {
    if r == 8 then None
    else if f == 8 then KingFrom(b, c, r + 1, 0)
    else if IsKingOf(b, r, f, c) then Some((r, f))
    else KingFrom(b, c, r, f + 1)
  }

  function FindKingOf(b: Board, c: Color): Option<(int, int)>
    requires IsBoard(b)
  {
    KingFrom(b, c, 0, 0)
  }

  /** Two boards with the same content on every square are equal. */
  lemma BoardsEqual(a: Board, b: Board)
    requires IsBoard(a) && IsBoard(b)
    requires forall r, f :: OnBoard(r, f) ==> At(a, r, f) == At(b, r, f)
    ensures a == b
  {
    forall r | 0 <= r < 8 ensures a[r] == b[r] {
      forall f | 0 <= f < 8 ensures a[r][f] == b[r][f] {
        assert At(a, r, f) == At(b, r, f);
      }
    }
  }

  /** cloneBoard: a row-by-row, cell-by-cell copy. */
  function CloneBoard(b: Board): (c: Board)
    ensures |c| == |b| && forall r :: 0 <= r < |b| ==> |c[r]| == |b[r]| && forall f :: 0 <= f < |b[r]| ==> c[r][f] == b[r][f]
  {
    seq(|b|, r requires 0 <= r < |b| => seq(|b[r]|, f requires 0 <= f < |b[r]| => b[r][f]))
  }

  /** Because pieces are values, the copy is equal to the original. */
  lemma CloneIsEqual(b: Board)
    ensures CloneBoard(b) == b
  {
    var c := CloneBoard(b);
    forall r | 0 <= r < |b| ensures c[r] == b[r] {
    }
  }

  lemma MovesAssoc(a: seq<Move>, b: seq<Move>, c: seq<Move>)
    ensures (a + b) + c == a + (b + c)
  {
  }
}
