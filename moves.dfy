/** The effect of `Piece.move` and `Piece.reverse_move` on the board's two
    views (grid and piece record), `Piece.get_possible_moves`, and the
    soldier's river flag. */
module Moves {
  import opened Positions
  import opened Kinds
  import opened Paths
  import opened Rules

  /** The two views the Board keeps: `_board_state` and `_piece_state`. */
  datatype BoardState = BoardState(cells: IdGrid, record: Record)

  predicate WellFormed(s: BoardState) {
    Shaped(s.cells)
  }

  /** `place_piece`: the cell holds the piece and the piece's record is the point. */
  function Place(s: BoardState, id: PieceId, p: Pos): (s': BoardState)
    requires WellFormed(s) && OnBoard(p)
    ensures WellFormed(s')
    ensures Occ(s'.cells, p) == Some(id) && forall q :: q != p ==> Occ(s'.cells, q) == Occ(s.cells, q)
    ensures id in s'.record && s'.record[id] == Some(p)
    ensures forall x :: x != id ==> (x in s'.record <==> x in s.record) && (x in s.record ==> s'.record[x] == s.record[x])
  {
    BoardState(SetCell(s.cells, p, Some(id)), s.record[id := Some(p)])
  }

  /** `clear_pos`: the cell is emptied; no record changes. */
  function ClearPos(s: BoardState, p: Pos): (s': BoardState)
    requires WellFormed(s) && OnBoard(p)
    ensures WellFormed(s')
    ensures Occ(s'.cells, p).None? && forall q :: q != p ==> Occ(s'.cells, q) == Occ(s.cells, q)
    ensures s'.record == s.record
  {
    BoardState(SetCell(s.cells, p, None), s.record)
  }

  /** `clear_piece`: the piece's record becomes None; the grid is untouched. */
  function ClearPiece(s: BoardState, id: PieceId): (s': BoardState)
    ensures s'.cells == s.cells
    ensures id in s'.record && s'.record[id].None?
    ensures forall x :: x != id ==> (x in s'.record <==> x in s.record) && (x in s.record ==> s'.record[x] == s.record[x])
  {
    BoardState(s.cells, s.record[id := None])
  }

  /** The board after a successful `move` of `id` from `from` to `to`, and the
      captive, if `to` was occupied. */
  function MoveEffect(s: BoardState, id: PieceId, from: Pos, to: Pos): (r: (BoardState, Option<PieceId>))
    requires WellFormed(s) && OnBoard(from) && OnBoard(to)
    ensures WellFormed(r.0)
    ensures r.1 == Occ(s.cells, to)
  {
    var captive := Occ(s.cells, to);
    var s1 := Place(ClearPos(s, from), id, to);
    if captive.Some? then (ClearPiece(s1, captive.value), captive) else (s1, captive)
  }

  /** The board after `reverse_move(from, to, captive)`. */
  function ReverseEffect(s: BoardState, id: PieceId, from: Pos, to: Pos, captive: Option<PieceId>): (s': BoardState)
    requires WellFormed(s) && OnBoard(from) && OnBoard(to)
    ensures WellFormed(s')
  {
    var s1 := if captive.Some? then Place(s, captive.value, to) else ClearPos(s, to);
    Place(s1, id, from)
  }

  /** A successful move leaves the old cell empty and the new cell holding the
      mover, records the mover at `to` and any captive as captured, and
      changes no other cell or record. */
  lemma MoveEffectFacts(s: BoardState, id: PieceId, from: Pos, to: Pos)
    requires WellFormed(s) && OnBoard(from) && OnBoard(to) && from != to
    requires Occ(s.cells, to) != Some(id)
    ensures var (s', captive) := MoveEffect(s, id, from, to);
      && Occ(s'.cells, from) == None
      && Occ(s'.cells, to) == Some(id)
      && (forall p :: p != from && p != to ==> Occ(s'.cells, p) == Occ(s.cells, p))
      && s'.record[id] == Some(to)
      && (captive.Some? ==> s'.record[captive.value] == None)
      && (forall x :: x in s.record && x != id && Some(x) != captive ==> x in s'.record && s'.record[x] == s.record[x])
  {
  }

  /** Grid and record agree: every occupant is recorded at its cell and every
      recorded point holds the recorded piece (the Board's stated invariant). */
  ghost predicate Consistent(s: BoardState) {
    && WellFormed(s)
    && (forall p :: OnBoard(p) && Occ(s.cells, p).Some? ==>
          Occ(s.cells, p).value in s.record && s.record[Occ(s.cells, p).value] == Some(p))
    && (forall x :: x in s.record && s.record[x].Some? ==>
          OnBoard(s.record[x].value) && Occ(s.cells, s.record[x].value) == Some(x))
  }

  /** A move of the piece standing on `from` keeps grid and record in agreement. */
  lemma MovePreservesConsistency(s: BoardState, id: PieceId, from: Pos, to: Pos)
    requires Consistent(s) && OnBoard(from) && OnBoard(to) && from != to
    requires Occ(s.cells, from) == Some(id)
    ensures Consistent(MoveEffect(s, id, from, to).0)
  {
    var (s', captive) := MoveEffect(s, id, from, to);
    assert Occ(s.cells, to) != Some(id) by {
      assert s.record[id] == Some(from);
    }
    MoveEffectFacts(s, id, from, to);
    forall p | OnBoard(p) && Occ(s'.cells, p).Some?
      ensures Occ(s'.cells, p).value in s'.record && s'.record[Occ(s'.cells, p).value] == Some(p)
    {
      if p != to {
        var x := Occ(s.cells, p).value;
        assert x != id;
        assert Some(x) != captive;
      }
    }
    forall x | x in s'.record && s'.record[x].Some?
      ensures OnBoard(s'.record[x].value) && Occ(s'.cells, s'.record[x].value) == Some(x)
    {
      if x != id && Some(x) != captive {
        var p := s.record[x].value;
        assert p != from;
        assert p != to;
      }
    }
  }

  /** Placing a piece that is not yet on the board onto an empty point keeps
      grid and record in agreement (the placement loop of `Player.__init__`). */
  lemma PlacePreservesConsistency(s: BoardState, id: PieceId, p: Pos)
    requires Consistent(s) && OnBoard(p)
    requires Occ(s.cells, p).None?
    requires id !in s.record || s.record[id].None?
    ensures Consistent(Place(s, id, p))
  {
    var s' := Place(s, id, p);
    forall x | x in s'.record && s'.record[x].Some?
      ensures OnBoard(s'.record[x].value) && Occ(s'.cells, s'.record[x].value) == Some(x)
    {
      if x != id {
        assert s.record[x].value != p;
      }
    }
  }

  /** `move` followed by `reverse_move` with the returned captive restores
      the grid and every record, provided the mover was recorded at `from`
      and the captive, if any, at `to`. */
  lemma MoveThenReverse(s: BoardState, id: PieceId, from: Pos, to: Pos)
    requires WellFormed(s) && OnBoard(from) && OnBoard(to) && from != to
    requires Occ(s.cells, from) == Some(id)
    requires id in s.record && s.record[id] == Some(from)
    requires Occ(s.cells, to).Some? ==>
      Occ(s.cells, to).value != id && Occ(s.cells, to).value in s.record &&
      s.record[Occ(s.cells, to).value] == Some(to)
    ensures var (s', captive) := MoveEffect(s, id, from, to);
      ReverseEffect(s', id, from, to, captive) == s
  {
    var (s', captive) := MoveEffect(s, id, from, to);
    var s'' := ReverseEffect(s', id, from, to, captive);
    forall r | 0 <= r < RankCount
      ensures s''.cells[r] == s.cells[r]
    {
      forall f | 0 <= f < FileCount
        ensures s''.cells[r][f] == s.cells[r][f]
      {
        assert Occ(s''.cells, Pos(r, f)) == Occ(s.cells, Pos(r, f));
      }
    }
    assert s''.record == s.record;
  }

  /** `get_possible_moves`: pairs (current point, p) for every available point
      p the piece may legally move to; empty for a captured piece. */
  function PossibleMoves(g: IdGrid, rec: Record, v: PieceView): set<(Pos, Pos)> {
    if v.pos.None? then {}
    else set p | p in AvailablePositions(g, v.id.side) && Legal(g, rec, v, p) :: (v.pos.value, p)
  }

  /** The available-positions prefilter loses no legal move: the possible
      moves are exactly the legal moves to points of the board. */
  lemma PossibleMovesExact(g: IdGrid, rec: Record, v: PieceView, m: (Pos, Pos))
    ensures m in PossibleMoves(g, rec, v) <==>
      v.pos.Some? && m.0 == v.pos.value && OnBoard(m.1) && Legal(g, rec, v, m.1)
  {
    if v.pos.Some? && m.0 == v.pos.value && OnBoard(m.1) && Legal(g, rec, v, m.1) {
      assert Available(g, v.id.side, m.1);
    }
  }

  /** The soldier's `_crossed_river` after a move attempt that reached `to`:
      set once a move succeeds onto the river rank ("6" for red, "5" for
      black), never cleared. */
  function CrossedAfter(side: Side, crossed: bool, moved: bool, to: Pos): (c: bool)
    ensures crossed ==> c
    ensures moved && to.rank == RiverRank(side) ==> c
    ensures c ==> crossed || to.rank == RiverRank(side)
    ensures !moved ==> c == crossed
  {
    crossed || (moved && to.rank == RiverRank(side))
  }

  /** `SoldierPiece.move` as written: the rank test runs whatever the move's
      result was. After a successful move it agrees with the corrected flag;
      after a refused move toward the river rank it sets a flag the corrected
      rule leaves clear. */
  function CrossedAfterAsWritten(side: Side, crossed: bool, to: Pos): (c: bool)
    ensures c == CrossedAfter(side, crossed, true, to)
    ensures !crossed && to.rank == RiverRank(side) ==> c && !CrossedAfter(side, crossed, false, to)
  {
    crossed || to.rank == RiverRank(side)
  }
}
