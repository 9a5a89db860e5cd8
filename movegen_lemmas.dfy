/** What the pseudo-move generator guarantees about the moves it produces. */
module MoveGenLemmas {
  import opened Options
  import opened Coords
  import opened Chessboard
  import opened MoveGen

  /**
   * Where a move of a colour-c piece may land: on the board; an en-passant
   * capture on the en-passant target; any other move never on a piece of its
   * own colour, and marked as a capture exactly when the square is occupied.
   */
  predicate Lands(pos: Position, c: Color, m: Move)
    requires pos.Valid()
  {
    OnBoard(m.r, m.f)
    && (m.special == EnPassant ==> m.capture && IsEnPassantTarget(pos, m.r, m.f))
    && (m.special != EnPassant ==> !IsPieceOf(pos.board, m.r, m.f, c) && (m.capture <==> At(pos.board, m.r, m.f).Some?))
  }

  predicate AllLand(pos: Position, c: Color, ms: seq<Move>)
    requires pos.Valid()
  {
    forall i :: 0 <= i < |ms| ==> Lands(pos, c, ms[i])
  }

  predicate AllPlain(ms: seq<Move>) {
    forall i :: 0 <= i < |ms| ==> ms[i].special == Plain
  }

  lemma ConcatLand(pos: Position, c: Color, a: seq<Move>, b: seq<Move>)
    requires pos.Valid() && AllLand(pos, c, a) && AllLand(pos, c, b)
    ensures AllLand(pos, c, a + b)
  {
    forall i | 0 <= i < |a + b| ensures Lands(pos, c, (a + b)[i]) {
      if i < |a| { assert (a + b)[i] == a[i]; } else { assert (a + b)[i] == b[i - |a|]; }
    }
  }

  lemma ConcatPlain(a: seq<Move>, b: seq<Move>)
    requires AllPlain(a) && AllPlain(b)
    ensures AllPlain(a + b)
  {
    forall i | 0 <= i < |a + b| ensures (a + b)[i].special == Plain {
      if i < |a| { assert (a + b)[i] == a[i]; } else { assert (a + b)[i] == b[i - |a|]; }
    }
  }

  /** A knight's jump: one row and two files, or two rows and one file, either way. */
  predicate KnightJump(dr: int, df: int) {
    ((dr == 1 || dr == -1) && (df == 2 || df == -2)) || ((dr == 2 || dr == -2) && (df == 1 || df == -1))
  }

  /** The move a knight or king step onto (m.r, m.f) produces: on the board, not onto its own colour, a capture exactly when occupied. */
  predicate StepMove(b: Board, c: Color, m: Move)
    requires IsBoard(b)
  {
    OnBoard(m.r, m.f) && !IsPieceOf(b, m.r, m.f, c) && m == Move(m.r, m.f, At(b, m.r, m.f).Some?, Plain)
  }

  /** A step gives at most one move, and gives one exactly when the square is on the board and not the mover's own. */
  lemma StepToLands(pos: Position, rr: int, ff: int, c: Color)
    requires pos.Valid()
    ensures AllLand(pos, c, StepTo(pos.board, rr, ff, c)) && AllPlain(StepTo(pos.board, rr, ff, c))
    ensures |StepTo(pos.board, rr, ff, c)| <= 1
    ensures StepTo(pos.board, rr, ff, c) != [] <==> OnBoard(rr, ff) && !IsPieceOf(pos.board, rr, ff, c)
  {
  }

  /** The one move a step gives is the StepMove onto its square. */
  lemma StepToExactly(b: Board, rr: int, ff: int, c: Color, m: Move)
    requires IsBoard(b)
    ensures m in StepTo(b, rr, ff, c) <==> m.r == rr && m.f == ff && StepMove(b, c, m)
  {
  }

  /** The knight's steps for offsets i.. are the StepMoves at those offsets. */
  lemma {:induction false} KnightFromExactly(b: Board, r: int, f: int, c: Color, i: int, m: Move)
    requires IsBoard(b) && 0 <= i <= |KnightOffsets|
    ensures m in KnightFrom(b, r, f, c, i) <==> (m.r - r, m.f - f) in KnightOffsets[i..] && StepMove(b, c, m)
    decreases |KnightOffsets| - i
  {
    if i < |KnightOffsets| {
      var d := KnightOffsets[i];
      OffsetsFrom(KnightOffsets, (m.r - r, m.f - f), i);
      StepToExactly(b, r + d.0, f + d.1, c, m);
      KnightFromExactly(b, r, f, c, i + 1, m);
    }
  }

  lemma OffsetsFrom(ds: seq<(int, int)>, d: (int, int), i: int)
    requires 0 <= i < |ds|
    ensures d in ds[i..] <==> d == ds[i] || d in ds[i + 1..]
  {
    assert ds[i..] == [ds[i]] + ds[i + 1..];
  }

  lemma WholeSlice(ds: seq<(int, int)>)
    ensures ds[0..] == ds
  {
  }

  /**
   * The knight's moves are exactly the steps to the on-board, not-own squares
   * at an offset of KnightOffsets, which KnightOffsetsAreJumps shows to be
   * the eight knight's jumps.
   */
  lemma KnightMovesExactly(b: Board, r: int, f: int, c: Color, m: Move)
    requires IsBoard(b)
    ensures m in KnightFrom(b, r, f, c, 0) <==> (m.r - r, m.f - f) in KnightOffsets && StepMove(b, c, m)
  {
    KnightFromExactly(b, r, f, c, 0, m);
    WholeSlice(KnightOffsets);
  }

  /** The offsets a knight tries are the eight knight's jumps. */
  lemma KnightOffsetsAreJumps(dr: int, df: int)
    ensures (dr, df) in KnightOffsets <==> KnightJump(dr, df)
  {
    if KnightJump(dr, df) {
      if dr == -2 && df == -1 { assert KnightOffsets[0] == (dr, df); }
      else if dr == -2 { assert KnightOffsets[1] == (dr, df); }
      else if dr == -1 && df == -2 { assert KnightOffsets[2] == (dr, df); }
      else if dr == -1 { assert KnightOffsets[3] == (dr, df); }
      else if dr == 1 && df == -2 { assert KnightOffsets[4] == (dr, df); }
      else if dr == 1 { assert KnightOffsets[5] == (dr, df); }
      else if df == -1 { assert KnightOffsets[6] == (dr, df); }
      else { assert KnightOffsets[7] == (dr, df); }
    }
  }

  lemma {:induction false} KingRowExactly(b: Board, r: int, f: int, c: Color, dr: int, df: int, m: Move)
    requires IsBoard(b) && -1 <= df <= 2
    ensures m in KingRow(b, r, f, c, dr, df) <==>
              m.r == r + dr && df <= m.f - f <= 1 && (dr != 0 || m.f != f) && StepMove(b, c, m)
    decreases 2 - df
  {
    if df < 2 {
      StepToExactly(b, r + dr, f + df, c, m);
      KingRowExactly(b, r, f, c, dr, df + 1, m);
    }
  }

  lemma {:induction false} KingStepsExactly(b: Board, r: int, f: int, c: Color, dr: int, m: Move)
    requires IsBoard(b) && -1 <= dr <= 2
    ensures m in KingSteps(b, r, f, c, dr) <==>
              dr <= m.r - r <= 1 && -1 <= m.f - f <= 1 && (m.r != r || m.f != f) && StepMove(b, c, m)
    decreases 2 - dr
  {
    if dr < 2 {
      KingRowExactly(b, r, f, c, dr, -1, m);
      KingStepsExactly(b, r, f, c, dr + 1, m);
    }
  }

  /** The king's steps are exactly the steps to the on-board, not-own squares among the eight neighbours. */
  lemma KingMovesExactly(b: Board, r: int, f: int, c: Color, m: Move)
    requires IsBoard(b)
    ensures m in KingSteps(b, r, f, c, -1) <==> IsDirection(m.r - r, m.f - f) && StepMove(b, c, m)
  {
    KingStepsExactly(b, r, f, c, -1, m);
  }

  /**
   * The directions of each slider: the four diagonals for a bishop, the four
   * lines for a rook, all eight for a queen (diagonals first), none otherwise.
   */
  lemma SliderDirsExactly(k: Kind, d: (int, int))
    ensures d in SliderDirs(k) <==>
              IsDirection(d.0, d.1)
              && (((k == Bishop || k == Queen) && d.0 != 0 && d.1 != 0) || ((k == Rook || k == Queen) && (d.0 == 0 || d.1 == 0)))
    ensures |SliderDirs(k)| == (if k == Queen then 8 else if k == Bishop || k == Rook then 4 else 0)
    ensures k == Queen ==> SliderDirs(k)[..4] == SliderDirs(Bishop) && SliderDirs(k)[4..] == SliderDirs(Rook)
  {
    if k == Queen {
      assert SliderDirs(k) == BishopDirs + RookDirs;
    }
  }

  lemma {:induction false} KnightLands(pos: Position, r: int, f: int, c: Color, i: int)
    requires pos.Valid() && 0 <= i <= |KnightOffsets|
    ensures AllLand(pos, c, KnightFrom(pos.board, r, f, c, i)) && AllPlain(KnightFrom(pos.board, r, f, c, i))
    decreases |KnightOffsets| - i
  {
    if i < |KnightOffsets| {
      var (dr, df) := KnightOffsets[i];
      var head := StepTo(pos.board, r + dr, f + df, c);
      assert KnightFrom(pos.board, r, f, c, i) == head + KnightFrom(pos.board, r, f, c, i + 1);
      StepToLands(pos, r + dr, f + df, c);
      KnightLands(pos, r, f, c, i + 1);
      ConcatLand(pos, c, head, KnightFrom(pos.board, r, f, c, i + 1));
      ConcatPlain(head, KnightFrom(pos.board, r, f, c, i + 1));
    }
  }

  lemma {:induction false} KingRowLands(pos: Position, r: int, f: int, c: Color, dr: int, df: int)
    requires pos.Valid() && -1 <= df <= 2
    ensures AllLand(pos, c, KingRow(pos.board, r, f, c, dr, df)) && AllPlain(KingRow(pos.board, r, f, c, dr, df))
    decreases 2 - df
  {
    if df < 2 {
      var b := pos.board;
      var head: seq<Move> := if dr == 0 && df == 0 then [] else StepTo(b, r + dr, f + df, c);
      var rest := KingRow(b, r, f, c, dr, df + 1);
      assert KingRow(b, r, f, c, dr, df) == head + rest;
      StepToLands(pos, r + dr, f + df, c);
      KingRowLands(pos, r, f, c, dr, df + 1);
      ConcatLand(pos, c, head, rest);
      ConcatPlain(head, rest);
    }
  }

  lemma {:induction false} KingStepsLand(pos: Position, r: int, f: int, c: Color, dr: int)
    requires pos.Valid() && -1 <= dr <= 2
    ensures AllLand(pos, c, KingSteps(pos.board, r, f, c, dr)) && AllPlain(KingSteps(pos.board, r, f, c, dr))
    decreases 2 - dr
  {
    if dr < 2 {
      KingRowLands(pos, r, f, c, dr, -1);
      KingStepsLand(pos, r, f, c, dr + 1);
      ConcatLand(pos, c, KingRow(pos.board, r, f, c, dr, -1), KingSteps(pos.board, r, f, c, dr + 1));
      ConcatPlain(KingRow(pos.board, r, f, c, dr, -1), KingSteps(pos.board, r, f, c, dr + 1));
    }
  }

  lemma {:induction false} RayLands(pos: Position, rr: int, ff: int, dr: int, df: int, c: Color)
    requires pos.Valid() && IsDirection(dr, df)
    ensures AllLand(pos, c, Ray(pos.board, rr, ff, dr, df, c)) && AllPlain(Ray(pos.board, rr, ff, dr, df, c))
    decreases Reach(rr, dr) + Reach(ff, df)
  {
    if OnBoard(rr, ff) && At(pos.board, rr, ff).None? {
      RayLands(pos, rr + dr, ff + df, dr, df, c);
      ConcatLand(pos, c, [Move(rr, ff, false, Plain)], Ray(pos.board, rr + dr, ff + df, dr, df, c));
      ConcatPlain([Move(rr, ff, false, Plain)], Ray(pos.board, rr + dr, ff + df, dr, df, c));
    }
  }

  lemma {:induction false} SlideLands(pos: Position, r: int, f: int, c: Color, dirs: seq<(int, int)>, i: int)
    requires pos.Valid() && AllDirections(dirs) && 0 <= i <= |dirs|
    ensures AllLand(pos, c, SlideFrom(pos.board, r, f, c, dirs, i)) && AllPlain(SlideFrom(pos.board, r, f, c, dirs, i))
    decreases |dirs| - i
  {
    if i < |dirs| {
      var ray := Ray(pos.board, r + dirs[i].0, f + dirs[i].1, dirs[i].0, dirs[i].1, c);
      RayLands(pos, r + dirs[i].0, f + dirs[i].1, dirs[i].0, dirs[i].1, c);
      SlideLands(pos, r, f, c, dirs, i + 1);
      ConcatLand(pos, c, ray, SlideFrom(pos.board, r, f, c, dirs, i + 1));
      ConcatPlain(ray, SlideFrom(pos.board, r, f, c, dirs, i + 1));
    }
  }

  /**
   * How a generated move relates to the square (r, f) it starts from, whose
   * piece has colour c: it lands as Lands says, and each tagged move has the
   * shape of its kind.
   */
  predicate Shaped(pos: Position, r: int, f: int, c: Color, m: Move)
    requires pos.Valid() && OnBoard(r, f)
  {
    var b := pos.board;
    Lands(pos, c, m)
    && (m.special == Double ==>
          At(b, r, f) == Some(Piece(Pawn, c)) && r == StartRow(c) && m.f == f && m.r == r + 2 * Forward(c)
          && OnBoard(r + Forward(c), f) && Vacant(b, r + Forward(c), f))
    && (m.special == EnPassant ==>
          At(b, r, f) == Some(Piece(Pawn, c)) && m.r == r + Forward(c) && (m.f == f - 1 || m.f == f + 1))
    && (m.special == CastleK ==>
          At(b, r, f) == Some(Piece(King, c)) && r == HomeRow(c) && f == 4 && m == Move(r, 6, false, CastleK))
    && (m.special == CastleQ ==>
          At(b, r, f) == Some(Piece(King, c)) && r == HomeRow(c) && f == 4 && m == Move(r, 2, false, CastleQ))
  }

  predicate AllShaped(pos: Position, r: int, f: int, c: Color, ms: seq<Move>)
    requires pos.Valid() && OnBoard(r, f)
  {
    forall i :: 0 <= i < |ms| ==> Shaped(pos, r, f, c, ms[i])
  }

  lemma ConcatShaped(pos: Position, r: int, f: int, c: Color, a: seq<Move>, b: seq<Move>)
    requires pos.Valid() && OnBoard(r, f) && AllShaped(pos, r, f, c, a) && AllShaped(pos, r, f, c, b)
    ensures AllShaped(pos, r, f, c, a + b)
  {
    forall i | 0 <= i < |a + b| ensures Shaped(pos, r, f, c, (a + b)[i]) {
      if i < |a| { assert (a + b)[i] == a[i]; } else { assert (a + b)[i] == b[i - |a|]; }
    }
  }

  lemma PlainShaped(pos: Position, r: int, f: int, c: Color, ms: seq<Move>)
    requires pos.Valid() && OnBoard(r, f) && AllLand(pos, c, ms) && AllPlain(ms)
    ensures AllShaped(pos, r, f, c, ms)
  {
    forall i | 0 <= i < |ms| ensures Shaped(pos, r, f, c, ms[i]) {
      assert Lands(pos, c, ms[i]) && ms[i].special == Plain;
    }
  }

  lemma PushesShaped(pos: Position, r: int, f: int, c: Color)
    requires pos.Valid() && OnBoard(r, f) && At(pos.board, r, f) == Some(Piece(Pawn, c))
    ensures AllShaped(pos, r, f, c, PawnPushes(pos.board, r, f, c))
    ensures forall m :: m in PawnPushes(pos.board, r, f, c) ==> !m.capture && OnBoard(m.r, m.f) && Vacant(pos.board, m.r, m.f)
  {
  }

  lemma DiagonalShaped(pos: Position, r: int, f: int, c: Color, ff: int, forAttack: bool)
    requires pos.Valid() && OnBoard(r, f) && At(pos.board, r, f) == Some(Piece(Pawn, c))
    requires ff == f - 1 || ff == f + 1
    ensures AllShaped(pos, r, f, c, PawnDiagonal(pos, r, c, ff, forAttack))
  {
    var rr := r + Forward(c);
    if OnBoard(rr, ff) {
      var a := if At(pos.board, rr, ff).Some? && At(pos.board, rr, ff).value.color != c then [Move(rr, ff, true, Plain)] else [];
      var e := if IsEnPassantTarget(pos, rr, ff) then [Move(rr, ff, true, EnPassant)] else [];
      var q := if forAttack && At(pos.board, rr, ff).None? then [Move(rr, ff, false, Plain)] else [];
      assert AllShaped(pos, r, f, c, a);
      assert AllShaped(pos, r, f, c, e);
      assert AllShaped(pos, r, f, c, q);
      ConcatShaped(pos, r, f, c, a, e);
      ConcatShaped(pos, r, f, c, a + e, q);
    }
  }

  lemma PawnShaped(pos: Position, r: int, f: int, c: Color, forAttack: bool)
    requires pos.Valid() && OnBoard(r, f) && At(pos.board, r, f) == Some(Piece(Pawn, c))
    ensures AllShaped(pos, r, f, c, PawnMoves(pos, r, f, c, forAttack))
  {
    var pushes := if forAttack then [] else PawnPushes(pos.board, r, f, c);
    var left := PawnDiagonal(pos, r, c, f - 1, forAttack);
    var right := PawnDiagonal(pos, r, c, f + 1, forAttack);
    if !forAttack {
      PushesShaped(pos, r, f, c);
    }
    DiagonalShaped(pos, r, f, c, f - 1, forAttack);
    DiagonalShaped(pos, r, f, c, f + 1, forAttack);
    ConcatShaped(pos, r, f, c, pushes, left);
    ConcatShaped(pos, r, f, c, pushes + left, right);
  }

  lemma CastlingShaped(pos: Position, r: int, f: int, c: Color)
    requires pos.Valid() && OnBoard(r, f) && At(pos.board, r, f) == Some(Piece(King, c))
    ensures AllShaped(pos, r, f, c, CastlingMoves(pos, r, f, c))
  {
  }

  /**
   * Every pseudo-move of the piece on (r, f), in either mode: it lands on the
   * board, never on a piece of the mover's colour (an en-passant capture lands
   * on the en-passant target), is marked a capture exactly when it lands on a
   * piece, and has the shape its tag says.
   */
  lemma PseudoMovesShaped(pos: Position, r: int, f: int, forAttack: bool)
    requires pos.Valid() && OnBoard(r, f) && At(pos.board, r, f).Some?
    ensures AllShaped(pos, r, f, At(pos.board, r, f).value.color, PseudoMoves(pos, r, f, forAttack))
  {
    var pc := At(pos.board, r, f).value;
    var c := pc.color;
    var piece := PieceMoves(pos, r, f, forAttack);
    match pc.kind {
      case Pawn => PawnShaped(pos, r, f, c, forAttack);
      case Knight =>
        KnightLands(pos, r, f, c, 0);
        PlainShaped(pos, r, f, c, piece);
      case King =>
        KingStepsLand(pos, r, f, c, -1);
        PlainShaped(pos, r, f, c, piece);
      case _ =>
        SlideLands(pos, r, f, c, SliderDirs(pc.kind), 0);
        PlainShaped(pos, r, f, c, piece);
    }
    var castles := if !forAttack && pc.kind == King then CastlingMoves(pos, r, f, c) else [];
    if !forAttack && pc.kind == King {
      CastlingShaped(pos, r, f, c);
    }
    ConcatShaped(pos, r, f, c, piece, castles);
  }

  /** The moves of `ray` are consecutive squares from (rr, ff) in direction (dr, df). */
  predicate Straight(ray: seq<Move>, rr: int, ff: int, dr: int, df: int) {
    (|ray| > 0 ==> ray[0].r == rr && ray[0].f == ff)
    && forall i :: 0 <= i < |ray| - 1 ==> ray[i + 1].r == ray[i].r + dr && ray[i + 1].f == ray[i].f + df
  }

  /** Every square of `ray` but the last is an empty square, not marked as a capture. */
  predicate ClearBeforeLast(b: Board, ray: seq<Move>)
    requires IsBoard(b)
  {
    forall i :: 0 <= i < |ray| - 1 ==> OnBoard(ray[i].r, ray[i].f) && Vacant(b, ray[i].r, ray[i].f) && !ray[i].capture
  }

  /** The last square of `ray` is on the board; it is a capture exactly when occupied, and then by an enemy. */
  predicate EndsWell(b: Board, ray: seq<Move>, c: Color)
    requires IsBoard(b)
  {
    |ray| > 0 ==>
      var last := ray[|ray| - 1];
      OnBoard(last.r, last.f)
      && (last.capture <==> At(b, last.r, last.f).Some?)
      && (last.capture ==> At(b, last.r, last.f).value.color != c)
  }

  /** A ray that does not end in a capture stops at the edge or just before a piece of colour c. */
  predicate StopsWell(b: Board, ray: seq<Move>, rr: int, ff: int, dr: int, df: int, c: Color)
    requires IsBoard(b)
  {
    (|ray| == 0 || !ray[|ray| - 1].capture) ==>
      var nr := if |ray| == 0 then rr else ray[|ray| - 1].r + dr;
      var nf := if |ray| == 0 then ff else ray[|ray| - 1].f + df;
      !OnBoard(nr, nf) || IsPieceOf(b, nr, nf, c)
  }

  lemma {:induction false} RayStraight(b: Board, rr: int, ff: int, dr: int, df: int, c: Color)
    requires IsBoard(b) && IsDirection(dr, df)
    ensures Straight(Ray(b, rr, ff, dr, df, c), rr, ff, dr, df)
    decreases Reach(rr, dr) + Reach(ff, df)
  {
    var ray := Ray(b, rr, ff, dr, df, c);
    if OnBoard(rr, ff) && At(b, rr, ff).None? {
      var rest := Ray(b, rr + dr, ff + df, dr, df, c);
      RayStraight(b, rr + dr, ff + df, dr, df, c);
      assert ray == [Move(rr, ff, false, Plain)] + rest;
      forall i | 0 <= i < |ray| - 1
        ensures ray[i + 1].r == ray[i].r + dr && ray[i + 1].f == ray[i].f + df
      {
        assert ray[i + 1] == rest[i];
        if i > 0 { assert ray[i] == rest[i - 1]; }
      }
    }
  }

  lemma {:induction false} RayClear(b: Board, rr: int, ff: int, dr: int, df: int, c: Color)
    requires IsBoard(b) && IsDirection(dr, df)
    ensures ClearBeforeLast(b, Ray(b, rr, ff, dr, df, c)) && EndsWell(b, Ray(b, rr, ff, dr, df, c), c)
    decreases Reach(rr, dr) + Reach(ff, df)
  {
    var ray := Ray(b, rr, ff, dr, df, c);
    if OnBoard(rr, ff) && At(b, rr, ff).None? {
      var rest := Ray(b, rr + dr, ff + df, dr, df, c);
      RayClear(b, rr + dr, ff + df, dr, df, c);
      assert ray == [Move(rr, ff, false, Plain)] + rest;
      forall i | 0 <= i < |ray| - 1
        ensures OnBoard(ray[i].r, ray[i].f) && Vacant(b, ray[i].r, ray[i].f) && !ray[i].capture
      {
        if i > 0 { assert ray[i] == rest[i - 1]; }
      }
      if |rest| > 0 {
        assert ray[|ray| - 1] == rest[|rest| - 1];
      }
    }
  }

  lemma {:induction false} RayStops(b: Board, rr: int, ff: int, dr: int, df: int, c: Color)
    requires IsBoard(b) && IsDirection(dr, df)
    ensures StopsWell(b, Ray(b, rr, ff, dr, df, c), rr, ff, dr, df, c)
    decreases Reach(rr, dr) + Reach(ff, df)
  {
    var ray := Ray(b, rr, ff, dr, df, c);
    if OnBoard(rr, ff) && At(b, rr, ff).None? {
      var rest := Ray(b, rr + dr, ff + df, dr, df, c);
      RayStops(b, rr + dr, ff + df, dr, df, c);
      assert ray == [Move(rr, ff, false, Plain)] + rest;
      if |rest| > 0 {
        assert ray[|ray| - 1] == rest[|rest| - 1];
      }
    }
  }

  /**
   * A slider's ray is a straight run of squares from its start: all but the
   * last are empty; the last is a capture exactly when it holds a piece, and
   * that piece is an enemy; a ray that does not end in a capture stops only
   * at the edge of the board or just before a piece of the mover's colour.
   */
  lemma RayShape(b: Board, rr: int, ff: int, dr: int, df: int, c: Color)
    requires IsBoard(b) && IsDirection(dr, df)
    ensures var ray := Ray(b, rr, ff, dr, df, c);
      Straight(ray, rr, ff, dr, df) && ClearBeforeLast(b, ray) && EndsWell(b, ray, c)
      && StopsWell(b, ray, rr, ff, dr, df, c)
  {
    RayStraight(b, rr, ff, dr, df, c);
    RayClear(b, rr, ff, dr, df, c);
    RayStops(b, rr, ff, dr, df, c);
  }

  /** The conditions under which a colour-c king on its home square may castle king side. */
  predicate KingsideOpen(pos: Position, c: Color)
    requires pos.Valid()
  {
    var b := pos.board;
    var row := HomeRow(c);
    var o := Other(c);
    (if c == White then pos.rights.wK else pos.rights.bK)
    && Vacant(b, row, 5) && Vacant(b, row, 6)
    && !Attacked(pos, row, 4, o) && !Attacked(pos, row, 5, o) && !Attacked(pos, row, 6, o)
  }

  /** The conditions under which a colour-c king on its home square may castle queen side. */
  predicate QueensideOpen(pos: Position, c: Color)
    requires pos.Valid()
  {
    var b := pos.board;
    var row := HomeRow(c);
    var o := Other(c);
    (if c == White then pos.rights.wQ else pos.rights.bQ)
    && Vacant(b, row, 1) && Vacant(b, row, 2) && Vacant(b, row, 3)
    && !Attacked(pos, row, 4, o) && !Attacked(pos, row, 3, o) && !Attacked(pos, row, 2, o)
  }

  lemma PawnNoCastle(pos: Position, r: int, f: int, c: Color, forAttack: bool, m: Move)
    requires pos.Valid() && OnBoard(r, f) && m in PawnMoves(pos, r, f, c, forAttack)
    ensures m.special != CastleK && m.special != CastleQ
  {
    var pushes := if forAttack then [] else PawnPushes(pos.board, r, f, c);
    var left := PawnDiagonal(pos, r, c, f - 1, forAttack);
    var right := PawnDiagonal(pos, r, c, f + 1, forAttack);
    assert PawnMoves(pos, r, f, c, forAttack) == pushes + left + right;
    if m in pushes {
    } else if m in left {
    } else {
      assert m in right;
    }
  }

  /**
   * Where a pawn moves, by mode: a double step only outside attack mode,
   * from its starting row, two rows forward on its file; a move on its own
   * file only outside attack mode, the single step forward; any other move
   * one row forward onto a neighbouring file, and a quiet one only in attack
   * mode.
   */
  lemma PawnMoveGeometry(pos: Position, r: int, f: int, c: Color, forAttack: bool, m: Move)
    requires pos.Valid() && OnBoard(r, f) && m in PawnMoves(pos, r, f, c, forAttack)
    ensures m.special == Plain || m.special == Double || m.special == EnPassant
    ensures m.special == Double ==> !forAttack && r == StartRow(c) && m == Move(r + 2 * Forward(c), f, false, Double)
    ensures m.special != Double && m.f == f ==> !forAttack && m == Move(r + Forward(c), f, false, Plain)
    ensures m.special != Double && m.f != f ==>
              m.r == r + Forward(c) && (m.f == f - 1 || m.f == f + 1) && (m.capture || forAttack)
  {
    var pushes := if forAttack then [] else PawnPushes(pos.board, r, f, c);
    var left := PawnDiagonal(pos, r, c, f - 1, forAttack);
    var right := PawnDiagonal(pos, r, c, f + 1, forAttack);
    assert PawnMoves(pos, r, f, c, forAttack) == pushes + left + right;
    if m in pushes {
      assert !forAttack;
    } else if m in left {
    } else {
      assert m in right;
    }
  }

  /** The single step onto an empty square ahead, and the double step from the starting row over two empty squares. */
  predicate PushCase(b: Board, r: int, f: int, c: Color, m: Move)
    requires IsBoard(b) && OnBoard(r, f)
  {
    var one := r + Forward(c);
    var two := r + 2 * Forward(c);
    OnBoard(one, f) && Vacant(b, one, f)
    && (m == Move(one, f, false, Plain)
        || (m == Move(two, f, false, Double) && r == StartRow(c) && OnBoard(two, f) && Vacant(b, two, f)))
  }

  /**
   * The three things a pawn reports for a diagonal square one row ahead: an
   * enemy there as a capture, the en-passant target as an en-passant capture,
   * and in attack mode an empty square as a quiet move.
   */
  predicate DiagonalCase(pos: Position, r: int, ff: int, c: Color, forAttack: bool, m: Move)
    requires pos.Valid()
  {
    var rr := r + Forward(c);
    OnBoard(rr, ff)
    && ((m == Move(rr, ff, true, Plain) && At(pos.board, rr, ff).Some? && At(pos.board, rr, ff).value.color != c)
        || (m == Move(rr, ff, true, EnPassant) && IsEnPassantTarget(pos, rr, ff))
        || (m == Move(rr, ff, false, Plain) && forAttack && Vacant(pos.board, rr, ff)))
  }

  lemma PawnPushesExactly(b: Board, r: int, f: int, c: Color, m: Move)
    requires IsBoard(b) && OnBoard(r, f)
    ensures m in PawnPushes(b, r, f, c) <==> PushCase(b, r, f, c, m)
  {
  }

  lemma PawnDiagonalExactly(pos: Position, r: int, c: Color, ff: int, forAttack: bool, m: Move)
    requires pos.Valid()
    ensures m in PawnDiagonal(pos, r, c, ff, forAttack) <==> DiagonalCase(pos, r, ff, c, forAttack, m)
  {
  }

  /**
   * A pawn's moves are exactly its pushes outside attack mode and what it
   * reports for the two diagonal squares ahead.
   */
  lemma PawnMovesExactly(pos: Position, r: int, f: int, c: Color, forAttack: bool, m: Move)
    requires pos.Valid() && OnBoard(r, f)
    ensures m in PawnMoves(pos, r, f, c, forAttack) <==>
              (!forAttack && PushCase(pos.board, r, f, c, m))
              || DiagonalCase(pos, r, f - 1, c, forAttack, m) || DiagonalCase(pos, r, f + 1, c, forAttack, m)
  {
    var pushes := if forAttack then [] else PawnPushes(pos.board, r, f, c);
    var left := PawnDiagonal(pos, r, c, f - 1, forAttack);
    var right := PawnDiagonal(pos, r, c, f + 1, forAttack);
    assert PawnMoves(pos, r, f, c, forAttack) == pushes + left + right;
    PawnPushesExactly(pos.board, r, f, c, m);
    PawnDiagonalExactly(pos, r, c, f - 1, forAttack, m);
    PawnDiagonalExactly(pos, r, c, f + 1, forAttack, m);
  }

  /** Only the castling branch produces castling moves. */
  lemma PieceMovesNoCastle(pos: Position, r: int, f: int, forAttack: bool, m: Move)
    requires pos.Valid() && OnBoard(r, f) && m in PieceMoves(pos, r, f, forAttack)
    ensures m.special != CastleK && m.special != CastleQ
  {
    var pc := At(pos.board, r, f).value;
    var c := pc.color;
    match pc.kind {
      case Pawn => PawnNoCastle(pos, r, f, c, forAttack, m);
      case Knight => KnightLands(pos, r, f, c, 0);
      case King => KingStepsLand(pos, r, f, c, -1);
      case _ => SlideLands(pos, r, f, c, SliderDirs(pc.kind), 0);
    }
  }

  /**
   * A king-side castling candidate is generated exactly when the generator is
   * not in attack mode, the square holds a king on its home square e1 or e8,
   * the matching right is held, f and g are empty and e, f and g are not
   * attacked by the other colour; the candidate is the king's move to g.
   */
  lemma CastleKingsideCandidate(pos: Position, r: int, f: int, forAttack: bool, m: Move)
    requires pos.Valid() && OnBoard(r, f)
    ensures (m in PseudoMoves(pos, r, f, forAttack) && m.special == CastleK) <==>
            (!forAttack && At(pos.board, r, f).Some? && At(pos.board, r, f).value.kind == King
             && r == HomeRow(At(pos.board, r, f).value.color) && f == 4
             && KingsideOpen(pos, At(pos.board, r, f).value.color) && m == Move(r, 6, false, CastleK))
  {
    if m in PieceMoves(pos, r, f, forAttack) {
      PieceMovesNoCastle(pos, r, f, forAttack, m);
    }
  }

  /**
   * A queen-side castling candidate is generated exactly when the generator
   * is not in attack mode, the square holds a king on e1 or e8, the matching
   * right is held, b, c and d are empty and e, d and c are not attacked by the
   * other colour; the candidate is the king's move to c.
   */
  lemma CastleQueensideCandidate(pos: Position, r: int, f: int, forAttack: bool, m: Move)
    requires pos.Valid() && OnBoard(r, f)
    ensures (m in PseudoMoves(pos, r, f, forAttack) && m.special == CastleQ) <==>
            (!forAttack && At(pos.board, r, f).Some? && At(pos.board, r, f).value.kind == King
             && r == HomeRow(At(pos.board, r, f).value.color) && f == 4
             && QueensideOpen(pos, At(pos.board, r, f).value.color) && m == Move(r, 2, false, CastleQ))
  {
    if m in PieceMoves(pos, r, f, forAttack) {
      PieceMovesNoCastle(pos, r, f, forAttack, m);
    }
  }

  /** Reaching (r, f) is having a move to (r, f) somewhere in the list. */
  lemma {:induction false} ReachesSome(moves: seq<Move>, r: int, f: int)
    ensures Reaches(moves, r, f) <==> exists m :: m in moves && m.r == r && m.f == f
    decreases |moves|
  {
    if |moves| > 0 {
      ReachesSome(moves[1..], r, f);
      assert moves == [moves[0]] + moves[1..];
      if Reaches(moves, r, f) && !(moves[0].r == r && moves[0].f == f) {
        var m :| m in moves[1..] && m.r == r && m.f == f;
        assert m in moves;
      }
    }
  }

  /** A scan from index k finds a true entry exactly when one exists at k or later. */
  lemma {:induction false} AnyFromSome(bits: seq<bool>, k: nat)
    ensures AnyFrom(bits, k) <==> exists j :: k <= j < |bits| && bits[j]
    decreases |bits| - k
  {
    if k < |bits| {
      AnyFromSome(bits, k + 1);
    }
  }

  /** A square is attacked exactly when some square of the board holds a piece of the attacker whose attack-mode moves reach it. */
  lemma AttackedSome(pos: Position, r: int, f: int, byColor: Color)
    requires pos.Valid()
    ensures Attacked(pos, r, f, byColor)
        <==> exists q, g :: OnBoard(q, g) && AttacksFrom(pos, q, g, r, f, byColor)
  {
    var rows := BoardHits(pos, r, f, byColor);
    AnyFromSome(rows, 0);
    if Attacked(pos, r, f, byColor) {
      var q :| 0 <= q < 8 && rows[q];
      AnyFromSome(RowHits(pos, q, r, f, byColor), 0);
    }
    if exists q, g :: OnBoard(q, g) && AttacksFrom(pos, q, g, r, f, byColor) {
      var q, g :| OnBoard(q, g) && AttacksFrom(pos, q, g, r, f, byColor);
      AnyFromSome(RowHits(pos, q, r, f, byColor), 0);
      assert rows[q];
    }
  }
}
