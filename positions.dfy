/** Board coordinates of the Xiangqi engine.
    A position is a (rank, file) pair of 0-based indices: rank 0 is the
    string rank "1" (red's back rank) and file 0 is the letter 'a'.
    Strings of the form <file letter><rank number> are used only at the
    boundary (`PosString`, `ParsePos`, `OutOfRange`). */
module Positions {

  datatype Option<+T> = None | Some(value: T)

  datatype Side = Red | Black

  /** The other side (`Piece._opp`). */
  function Opp(s: Side): (r: Side)
    ensures r != s
  {
    if s == Red then Black else Red
  }

  datatype Pos = Pos(rank: int, file: int)

  const RankCount := 10
  const FileCount := 9

  predicate OnBoard(p: Pos) {
    0 <= p.rank < RankCount && 0 <= p.file < FileCount
  }

  /** The board's file letters, in order. */
  const Files: seq<char> := ['a', 'b', 'c', 'd', 'e', 'f', 'g', 'h', 'i']

  /** The board's rank strings, in order: Ranks[k] is the decimal text of k + 1. */
  const Ranks: seq<string> := ["1", "2", "3", "4", "5", "6", "7", "8", "9", "10"]

  /** First index of `x` in `xs` (Python's `list.index`). */
  function IndexOf<T(==)>(xs: seq<T>, x: T): (i: nat)
    requires x in xs
    ensures i < |xs| && xs[i] == x && x !in xs[..i]
  {
    if xs[0] == x then 0
    else
      assert xs == [xs[0]] + xs[1..];
      var j := IndexOf(xs[1..], x);
      assert xs[..j + 1] == [xs[0]] + xs[1..][..j];
      j + 1
  }

  /** `get_pos_from_loc`: the string name of a position. */
  function PosString(p: Pos): string
    requires OnBoard(p)
  {
    [Files[p.file]] + Ranks[p.rank]
  }

  /** `out_of_range`: true iff the text after the first character is not one of
      "1".."10" or the first character is not one of 'a'..'i'.
      The empty string counts as out of range. */
  predicate OutOfRange(s: string) {
    |s| == 0 || s[1..] !in Ranks || s[0] !in Files
  }

  /** `get_loc_from_pos` on a checked position string. On the ten rank strings
      `int(pos[1:]) - 1` is the index of the string in `Ranks`. */
  function ParsePos(s: string): (r: Option<Pos>)
    ensures r.Some? <==> !OutOfRange(s)
    ensures r.Some? ==> OnBoard(r.value)
  {
    if OutOfRange(s) then None
    else Some(Pos(IndexOf(Ranks, s[1..]), IndexOf(Files, s[0])))
  }

  lemma RanksDistinct(i: int, j: int)
    requires 0 <= i < j < |Ranks|
    ensures Ranks[i] != Ranks[j]
  {
    if |Ranks[i]| == |Ranks[j]| {
      assert Ranks[i][0] != Ranks[j][0];
    }
  }

  lemma IndexOfDistinct<T>(xs: seq<T>, k: nat)
    requires k < |xs|
    requires forall i, j :: 0 <= i < j < |xs| ==> xs[i] != xs[j]
    ensures IndexOf(xs, xs[k]) == k
  {
  }

  /** `get_pos_from_loc` followed by `get_loc_from_pos` is the identity on the board. */
  lemma ParsePosString(p: Pos)
    requires OnBoard(p)
    ensures ParsePos(PosString(p)) == Some(p)
  {
    var s := PosString(p);
    assert s[0] == Files[p.file];
    assert s[1..] == Ranks[p.rank];
    forall i, j | 0 <= i < j < |Ranks| ensures Ranks[i] != Ranks[j] {
      RanksDistinct(i, j);
    }
    IndexOfDistinct(Ranks, p.rank);
    IndexOfDistinct(Files, p.file);
  }

  /** Every string accepted by `out_of_range` is the name of the position it parses to. */
  lemma StringParsePos(s: string)
    requires !OutOfRange(s)
    ensures PosString(ParsePos(s).value) == s
  {
    assert s == [s[0]] + s[1..];
  }

  /** The 3x3 castle (palace) of each side, as listed in `Board.__init__`
      ({d,e,f} x {1,2,3} for red, {d,e,f} x {8,9,10} for black). */
  function Castle(s: Side): set<Pos> {
    if s == Red then
      {Pos(0, 3), Pos(1, 3), Pos(2, 3), Pos(0, 4), Pos(1, 4), Pos(2, 4), Pos(0, 5), Pos(1, 5), Pos(2, 5)}
    else
      {Pos(9, 3), Pos(8, 3), Pos(7, 3), Pos(9, 4), Pos(8, 4), Pos(7, 4), Pos(9, 5), Pos(8, 5), Pos(7, 5)}
  }

  /** A castle is the block of files d..f on the side's three home ranks. */
  lemma CastleShape(s: Side, p: Pos)
    ensures p in Castle(s) <==>
      3 <= p.file <= 5 && (if s == Red then 0 <= p.rank <= 2 else 7 <= p.rank <= 9)
  {
  }

  /** Ranks an elephant may occupy (`ElephantPiece.legal_ranks`): "1".."5" for
      red and "6".."10" for black, as 0-based rank indices. */
  predicate ElephantRank(s: Side, rank: int) {
    if s == Red then 0 <= rank <= 4 else 5 <= rank <= 9
  }

  /** The rank string a soldier reaches when it crosses the river: "6" for red
      and "5" for black (`SoldierPiece.move`). */
  function RiverRank(s: Side): int {
    if s == Red then 5 else 4
  }
}
