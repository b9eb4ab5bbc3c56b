/** The board's path geometry (`Board.get_ortho_path`, `get_diagonal_path`,
    `get_L_path`, occupancy lookups and `get_available_positions`) as
    functions over a grid value. The grid is `cells[rank][file]`, each cell
    holding an occupant or nothing; the occupant type is generic so that the
    same definitions serve a grid of piece objects and a grid of piece ids. */
module Paths {
  import opened Positions
  import opened Kinds

  type Grid<T> = seq<seq<Option<T>>>

  /** Ten ranks of nine files each (`Board._board_state`). */
  predicate Shaped<T>(g: Grid<T>) {
    |g| == RankCount && forall r :: 0 <= r < |g| ==> |g[r]| == FileCount
  }

  /** The empty board of `Board.__init__`. */
  function EmptyGrid<T>(): (g: Grid<T>)
    ensures Shaped(g)
    ensures forall p :: OnBoard(p) ==> g[p.rank][p.file] == None
  {
    seq(RankCount, r => seq(FileCount, f => None))
  }

  /** `get_piece_from_pos`: the occupant of a point; nothing off the board. */
  function Occ<T>(g: Grid<T>, p: Pos): Option<T> {
    if Shaped(g) && OnBoard(p) then g[p.rank][p.file] else None
  }

  /** The grid with one cell overwritten. */
  function SetCell<T>(g: Grid<T>, p: Pos, o: Option<T>): (g': Grid<T>)
    requires Shaped(g) && OnBoard(p)
    ensures Shaped(g')
    ensures Occ(g', p) == o
    ensures forall q :: q != p ==> Occ(g', q) == Occ(g, q)
  {
    g[p.rank := g[p.rank][p.file := o]]
  }

  /** One entry of a path: a point and its occupant at the time of the query. */
  datatype Step<T> = Step(pos: Pos, occupant: Option<T>)

  function Sign(x: int): int {
    if x > 0 then 1 else if x < 0 then -1 else 0
  }

  function Abs(x: int): nat {
    if x < 0 then -x else x
  }

  /** k units in direction d (d is -1, 0 or 1). */
  function Offset(k: int, d: int): int {
    if d > 0 then k else if d < 0 then -k else 0
  }

  /** The point k steps from `from` in direction (dr, df). */
  function Along(from: Pos, dr: int, df: int, k: int): Pos {
    Pos(from.rank + Offset(k, dr), from.file + Offset(k, df))
  }

  /** The n points after `from` in direction (dr, df), each with its occupant. */
  function Ray<T>(g: Grid<T>, from: Pos, dr: int, df: int, n: nat): (path: seq<Step<T>>)
    ensures |path| == n
  {
    seq(n, i => Step(Along(from, dr, df, i + 1), Occ(g, Along(from, dr, df, i + 1))))
  }

  predicate SameLine(from: Pos, to: Pos) {
    from.rank == to.rank || from.file == to.file
  }

  /** `get_ortho_path`: empty unless the points share a rank or a file;
      otherwise every point after `from` up to and including `to`. */
  function OrthoPath<T>(g: Grid<T>, from: Pos, to: Pos): seq<Step<T>> {
    if !SameLine(from, to) then []
    else
      var dr, df := to.rank - from.rank, to.file - from.file;
      Ray(g, from, Sign(dr), Sign(df), Abs(dr) + Abs(df))
  }

  predicate OnDiagonal(from: Pos, to: Pos) {
    var dr, df := to.rank - from.rank, to.file - from.file;
    dr != 0 && df != 0 && Abs(dr) == Abs(df)
  }

  /** `get_diagonal_path`: empty unless |rank change| = |file change| != 0. */
  function DiagonalPath<T>(g: Grid<T>, from: Pos, to: Pos): seq<Step<T>> {
    if !OnDiagonal(from, to) then []
    else
      var dr, df := to.rank - from.rank, to.file - from.file;
      Ray(g, from, Sign(dr), Sign(df), Abs(dr))
  }

  /** A horse displacement: two points one way and one point the other. */
  predicate HorseLeap(from: Pos, to: Pos) {
    var dr, df := Abs(to.rank - from.rank), Abs(to.file - from.file);
    (dr == 2 && df == 1) || (dr == 1 && df == 2)
  }

  /** The point one orthogonal step from `from` toward the long leg of a horse leap. */
  function LMidpoint(from: Pos, to: Pos): Pos {
    if Abs(to.rank - from.rank) == 2 then Pos(from.rank + Sign(to.rank - from.rank), from.file)
    else Pos(from.rank, from.file + Sign(to.file - from.file))
  }

  /** The L-shaped path as a reference definition: [midpoint, destination] for
      a horse leap, empty otherwise. `Engine.Board.GetLPath` runs the source's
      candidate loop and is proved to agree with it. */
  function LPath<T>(g: Grid<T>, from: Pos, to: Pos): seq<Step<T>> {
    if HorseLeap(from, to) then
      var mid := LMidpoint(from, to);
      [Step(mid, Occ(g, mid)), Step(to, Occ(g, to))]
    else []
  }

  /** The four points orthogonally next to `from` in the source's order
      (toward file "a", toward file "i", toward rank "10", toward rank "1"),
      keeping those on the board. */
  function LCandidates(from: Pos): (cs: seq<Pos>)
    ensures forall c :: c in cs ==> OnBoard(c) && OrthoAdjacent(from, c)
    ensures forall c :: OnBoard(c) && OrthoAdjacent(from, c) ==> c in cs
  {
    OnBoardOnly([Pos(from.rank, from.file - 1), Pos(from.rank, from.file + 1),
                 Pos(from.rank + 1, from.file), Pos(from.rank - 1, from.file)])
  }

  function OnBoardOnly(ps: seq<Pos>): (qs: seq<Pos>)
    ensures forall q :: q in qs <==> q in ps && OnBoard(q)
  {
    if |ps| == 0 then []
    else
      var last := if OnBoard(ps[|ps| - 1]) then [ps[|ps| - 1]] else [];
      OnBoardOnly(ps[..|ps| - 1]) + last
  }

  /** The candidate test of `get_L_path`: the step from `from` to `c` repeated
      once more along the rank, or once more along the file, reaches `to`'s
      rank or file. */
  predicate Continues(c: Pos, from: Pos, to: Pos) {
    from.rank - c.rank == c.rank - to.rank || from.file - c.file == c.file - to.file
  }

  /** The candidate the loop keeps: the last one that passes the test. */
  function LastMatch(cs: seq<Pos>, from: Pos, to: Pos): (m: Option<Pos>)
    ensures m.Some? ==> m.value in cs && Continues(m.value, from, to)
    ensures m.None? ==> forall c :: c in cs ==> !Continues(c, from, to)
  {
    if |cs| == 0 then None
    else if Continues(cs[|cs| - 1], from, to) then Some(cs[|cs| - 1])
    else LastMatch(cs[..|cs| - 1], from, to)
  }

  /** `get_L_path` as the source computes it: the kept candidate, then the
      diagonal path from it to `to`, when both exist. */
  function LPathAsLooped<T>(g: Grid<T>, from: Pos, to: Pos): seq<Step<T>> {
    var mid := LastMatch(LCandidates(from), from, to);
    if mid.Some? && |DiagonalPath(g, mid.value, to)| > 0 then
      [Step(mid.value, Occ(g, mid.value))] + DiagonalPath(g, mid.value, to)
    else []
  }

  /** For two points of the board, the candidate loop yields the reference L
      path: [midpoint, destination] for a horse leap and nothing otherwise. */
  lemma LPathLoopAgrees<T>(g: Grid<T>, from: Pos, to: Pos)
    requires OnBoard(from) && OnBoard(to)
    ensures LPathAsLooped(g, from, to) == LPath(g, from, to)
  {
    var cs := LCandidates(from);
    var mid := LastMatch(cs, from, to);
    if HorseLeap(from, to) {
      var m := LMidpoint(from, to);
      assert OnBoard(m) && OrthoAdjacent(from, m);
      assert m in cs;
      assert Continues(m, from, to);
      assert forall c :: c in cs && Continues(c, from, to) ==> c == m;
      assert mid == Some(m);
      assert OnDiagonal(m, to);
      DiagonalPathShape(g, m, to);
    } else if mid.Some? {
      var m := mid.value;
      assert OrthoAdjacent(from, m);
      assert !OnDiagonal(m, to);
    }
  }

  /** A path read off the grid: each step carries the current occupant of its
      point. */
  ghost predicate Observed<T>(g: Grid<T>, path: seq<Step<T>>) {
    forall i :: 0 <= i < |path| ==> path[i].occupant == Occ(g, path[i].pos)
  }

  /** A path goes in a straight line from `from` in direction (dr, df): the
      first step is adjacent to `from` and each later step one further on. */
  predicate Straight<T>(path: seq<Step<T>>, from: Pos, dr: int, df: int) {
    (|path| > 0 ==> path[0].pos == Pos(from.rank + dr, from.file + df)) &&
    forall i :: 0 <= i < |path| - 1 ==>
      path[i + 1].pos == Pos(path[i].pos.rank + dr, path[i].pos.file + df)
  }

  lemma RayFacts<T>(g: Grid<T>, from: Pos, dr: int, df: int, n: nat)
    requires -1 <= dr <= 1 && -1 <= df <= 1
    ensures Straight(Ray(g, from, dr, df, n), from, dr, df)
    ensures Observed(g, Ray(g, from, dr, df, n))
    ensures n > 0 ==> Ray(g, from, dr, df, n)[n - 1].pos == Along(from, dr, df, n)
  {
  }

  /** A ray one point longer is the ray with that point appended; this is
      how the source's loops build paths. */
  lemma RaySnoc<T>(g: Grid<T>, from: Pos, dr: int, df: int, n: nat)
    ensures Ray(g, from, dr, df, n + 1) ==
      Ray(g, from, dr, df, n) + [Step(Along(from, dr, df, n + 1), Occ(g, Along(from, dr, df, n + 1)))]
  {
    var longer := Ray(g, from, dr, df, n + 1);
    var built := Ray(g, from, dr, df, n) + [Step(Along(from, dr, df, n + 1), Occ(g, Along(from, dr, df, n + 1)))];
    assert |longer| == |built|;
    forall i | 0 <= i < n + 1
      ensures longer[i] == built[i]
    {
    }
  }

  /** Sign and Abs recombine into the displacement. */
  lemma AlongEnd(from: Pos, to: Pos, n: nat)
    requires n == Abs(to.rank - from.rank) || to.rank == from.rank
    requires n == Abs(to.file - from.file) || to.file == from.file
    requires n > 0
    ensures Along(from, Sign(to.rank - from.rank), Sign(to.file - from.file), n) == to
  {
  }

  /** The orthogonal path is empty exactly when the two points share no rank
      or file, or are the same point. */
  lemma OrthoPathEmpty<T>(g: Grid<T>, from: Pos, to: Pos)
    ensures OrthoPath(g, from, to) == [] <==> !SameLine(from, to) || from == to
  {
  }

  /** An orthogonal path has one entry per point of distance, goes in travel
      order from the point next to `from`, carries each point's occupant and
      ends at `to`. */
  lemma OrthoPathShape<T>(g: Grid<T>, from: Pos, to: Pos)
    requires SameLine(from, to) && from != to
    ensures var path := OrthoPath(g, from, to);
      && |path| == Abs(to.rank - from.rank) + Abs(to.file - from.file)
      && Straight(path, from, Sign(to.rank - from.rank), Sign(to.file - from.file))
      && Observed(g, path)
      && path[|path| - 1].pos == to
  {
    var dr, df := to.rank - from.rank, to.file - from.file;
    var n := Abs(dr) + Abs(df);
    RayFacts(g, from, Sign(dr), Sign(df), n);
    AlongEnd(from, to, n);
  }

  /** Every point of an orthogonal path between two points on the board is on the board. */
  lemma OrthoPathOnBoard<T>(g: Grid<T>, from: Pos, to: Pos, i: int)
    requires OnBoard(from) && OnBoard(to)
    requires 0 <= i < |OrthoPath(g, from, to)|
    ensures OnBoard(OrthoPath(g, from, to)[i].pos)
  {
  }

  /** The diagonal path is empty exactly when the points are not on one diagonal. */
  lemma DiagonalPathEmpty<T>(g: Grid<T>, from: Pos, to: Pos)
    ensures DiagonalPath(g, from, to) == [] <==> !OnDiagonal(from, to)
  {
  }

  /** A diagonal path has |rank change| entries, each one rank and one file
      further on, and ends at the destination. */
  lemma DiagonalPathShape<T>(g: Grid<T>, from: Pos, to: Pos)
    requires OnDiagonal(from, to)
    ensures var path := DiagonalPath(g, from, to);
      && |path| == Abs(to.rank - from.rank)
      && Straight(path, from, Sign(to.rank - from.rank), Sign(to.file - from.file))
      && Observed(g, path)
      && path[|path| - 1].pos == to
  {
    var dr, df := to.rank - from.rank, to.file - from.file;
    RayFacts(g, from, Sign(dr), Sign(df), Abs(dr));
    AlongEnd(from, to, Abs(dr));
  }

  lemma DiagonalPathOnBoard<T>(g: Grid<T>, from: Pos, to: Pos, i: int)
    requires OnBoard(from) && OnBoard(to)
    requires 0 <= i < |DiagonalPath(g, from, to)|
    ensures OnBoard(DiagonalPath(g, from, to)[i].pos)
  {
  }

  predicate OrthoAdjacent(a: Pos, b: Pos) {
    Abs(a.rank - b.rank) + Abs(a.file - b.file) == 1
  }

  predicate DiagAdjacent(a: Pos, b: Pos) {
    Abs(a.rank - b.rank) == 1 && Abs(a.file - b.file) == 1
  }

  /** An L path is empty or exactly [intermediate, destination], the
      intermediate on the board and orthogonally next to the source, the
      destination diagonally next to the intermediate and the step continuing
      the same way. */
  lemma LPathShape<T>(g: Grid<T>, from: Pos, to: Pos)
    requires OnBoard(from) && OnBoard(to)
    ensures var path := LPath(g, from, to);
      path == [] || (
        && |path| == 2
        && path[1].pos == to
        && OnBoard(path[0].pos)
        && OrthoAdjacent(from, path[0].pos)
        && DiagAdjacent(path[0].pos, to)
        && DiagonalPath(g, path[0].pos, to) == [path[1]]
        && Observed(g, path))
  {
    if HorseLeap(from, to) {
      var mid := LMidpoint(from, to);
      assert OnDiagonal(mid, to);
      DiagonalPathShape(g, mid, to);
    }
  }

  /** No two of the three patterns give a path for the same pair of points. */
  lemma PatternsExclusive<T>(g: Grid<T>, from: Pos, to: Pos)
    ensures OrthoPath(g, from, to) == [] || DiagonalPath(g, from, to) == []
    ensures OrthoPath(g, from, to) == [] || LPath(g, from, to) == []
    ensures DiagonalPath(g, from, to) == [] || LPath(g, from, to) == []
  {
  }

  // ---------------------------------------------------------------------
  // get_available_positions

  /** A point a piece of `side` could move to as far as occupancy goes: empty
      or held by the other side. */
  predicate Available(g: Grid<PieceId>, side: Side, p: Pos) {
    Occ(g, p).None? || Occ(g, p).value.side != side
  }

  /** Available points of file `f` among ranks 0..nr-1, in rank order. */
  function AvailableInFile(g: Grid<PieceId>, side: Side, f: int, nr: nat): seq<Pos> {
    if nr == 0 then []
    else
      var last := if Available(g, side, Pos(nr - 1, f)) then [Pos(nr - 1, f)] else [];
      AvailableInFile(g, side, f, nr - 1) + last
  }

  lemma {:induction false} AvailableInFileExact(g: Grid<PieceId>, side: Side, f: int, nr: nat, p: Pos)
    ensures p in AvailableInFile(g, side, f, nr) <==> p.file == f && 0 <= p.rank < nr && Available(g, side, p)
  {
    if nr > 0 {
      AvailableInFileExact(g, side, f, nr - 1, p);
    }
  }

  /** Available points of files 0..nf-1, file by file, in the order of the
      source's nested loops (file letters outside, rank numbers inside). */
  function AvailableUpTo(g: Grid<PieceId>, side: Side, nf: nat): seq<Pos> {
    if nf == 0 then []
    else AvailableUpTo(g, side, nf - 1) + AvailableInFile(g, side, nf - 1, RankCount)
  }

  lemma {:induction false} AvailableUpToExact(g: Grid<PieceId>, side: Side, nf: nat, p: Pos)
    ensures p in AvailableUpTo(g, side, nf) <==> 0 <= p.file < nf && 0 <= p.rank < RankCount && Available(g, side, p)
  {
    if nf > 0 {
      AvailableUpToExact(g, side, nf - 1, p);
      AvailableInFileExact(g, side, nf - 1, RankCount, p);
    }
  }

  /** `get_available_positions(side)`: exactly the points of the board that
      are empty or hold a piece of the other side. */
  function AvailablePositions(g: Grid<PieceId>, side: Side): (ps: seq<Pos>)
    ensures forall p :: p in ps <==> OnBoard(p) && Available(g, side, p)
  {
    var ps := AvailableUpTo(g, side, FileCount);
    assert forall p :: p in ps <==> OnBoard(p) && Available(g, side, p) by {
      forall p
        ensures p in ps <==> OnBoard(p) && Available(g, side, p)
      {
        AvailableUpToExact(g, side, FileCount, p);
      }
    }
    ps
  }
}
