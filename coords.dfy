/**
 * Algebraic coordinates: a square (row, file) is written as the file letter
 * followed by the rank digit. Row 0 is rank 8, so row r carries the digit
 * Ranks[r].
 */
module Coords {
  import opened Options

  const Files: string := "abcdefgh"
  const Ranks: string := "87654321"

  /** The first position at or after k where `c` occurs in `s`, or -1. */
  function IndexFrom(s: string, c: char, k: int): (i: int)
    requires 0 <= k <= |s|
    ensures i == -1 || (k <= i < |s| && s[i] == c)
    ensures i == -1 <==> forall j :: k <= j < |s| ==> s[j] != c
    ensures 0 <= i ==> forall j :: k <= j < i ==> s[j] != c
    decreases |s| - k
  {
    if k == |s| then -1
    else if s[k] == c then k
    else IndexFrom(s, c, k + 1)
  }

  /** JavaScript's `indexOf`: the first position of `c` in `s`, or -1. */
  function IndexOf(s: string, c: char): (i: int)
    ensures -1 <= i < |s|
    ensures 0 <= i ==> s[i] == c && forall j :: 0 <= j < i ==> s[j] != c
    ensures i == -1 <==> c !in s
  {
    IndexFrom(s, c, 0)
  }

  /** The name of square (r, f), e.g. (5, 4) is "e3". */
  function RfToCoord(r: int, f: int): (s: string)
    requires 0 <= r < 8 && 0 <= f < 8
    ensures |s| == 2 && s[0] in Files && s[1] in Ranks
  {
    [Files[f], Ranks[r]]
  }

  /** The square a name denotes; None unless it is two characters, a file letter then a rank digit. */
  function CoordToRF(coord: string): (rf: Option<(int, int)>)
    ensures rf.Some? ==> 0 <= rf.value.0 < 8 && 0 <= rf.value.1 < 8
  {
    if |coord| != 2 then None
    else
      var f := IndexOf(Files, coord[0]);
      var r := IndexOf(Ranks, coord[1]);
      if f < 0 || r < 0 then None else Some((r, f))
  }

  lemma FilesDistinct(i: int, j: int)
    requires 0 <= i < 8 && 0 <= j < 8 && i != j
    ensures Files[i] != Files[j] && Ranks[i] != Ranks[j]
  {
  }

  /** Naming a square and reading the name back gives the square. */
  lemma {:induction false} CoordRoundTrip(r: int, f: int)
    requires 0 <= r < 8 && 0 <= f < 8
    ensures CoordToRF(RfToCoord(r, f)) == Some((r, f))
  {
    var s := RfToCoord(r, f);
    var fi := IndexOf(Files, s[0]);
    var ri := IndexOf(Ranks, s[1]);
    if fi != f {
      FilesDistinct(fi, f);
    }
    if ri != r {
      FilesDistinct(ri, r);
    }
  }

  /** A name is accepted exactly when it is a file letter followed by a rank digit, and then it names the square it decodes to. */
  lemma CoordToRFExact(coord: string)
    ensures CoordToRF(coord).Some? <==> |coord| == 2 && coord[0] in Files && coord[1] in Ranks
    ensures CoordToRF(coord).Some? ==> RfToCoord(CoordToRF(coord).value.0, CoordToRF(coord).value.1) == coord
  {
    if |coord| == 2 {
      var f := IndexOf(Files, coord[0]);
      var r := IndexOf(Ranks, coord[1]);
      if 0 <= f && 0 <= r {
        var s := RfToCoord(r, f);
        assert s[0] == coord[0] && s[1] == coord[1];
        assert s == coord;
      }
    }
  }

  /** A name decodes to (r, f) exactly when it is the name of (r, f). */
  lemma DecodesTo(coord: string, r: int, f: int)
    requires 0 <= r < 8 && 0 <= f < 8
    ensures CoordToRF(coord) == Some((r, f)) <==> coord == RfToCoord(r, f)
  {
    CoordRoundTrip(r, f);
    CoordToRFExact(coord);
  }
}
