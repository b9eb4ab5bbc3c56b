/** `Player`: one side's pieces on the shared board, the moves it makes, the
    attacks it has on a point and the defences it has against attacks. */
module Players {
  import opened Positions
  import opened Kinds
  import opened Paths
  import opened Rules
  import opened Moves
  import opened Checks
  import opened Engine

  /** The pieces `Player.__init__` creates: the general, chariots 1 and 2,
      soldiers 1 to 5. */
  function Roster(side: Side): (ids: seq<PieceId>)
    ensures |ids| == 8 && ids[0] == PieceId(side, General, 1)
    ensures forall i :: 0 <= i < |ids| ==> ValidId(ids[i]) && ids[i].side == side
    ensures forall i, j :: 0 <= i < |ids| && 0 <= j < |ids| && ids[i] == ids[j] ==> i == j
  {
    [PieceId(side, General, 1), PieceId(side, Chariot, 1), PieceId(side, Chariot, 2),
     PieceId(side, Soldier, 1), PieceId(side, Soldier, 2), PieceId(side, Soldier, 3),
     PieceId(side, Soldier, 4), PieceId(side, Soldier, 5)]
  }

  /** The roster's pieces start on eight different points. */
  lemma StartPointsDistinct(side: Side)
    ensures forall i, j :: 0 <= i < 8 && 0 <= j < 8 && i != j ==> StartPos(Roster(side)[i]) != StartPos(Roster(side)[j])
  {
    var ids := Roster(side);
    forall i, j | 0 <= i < 8 && 0 <= j < 8 && i != j
      ensures StartPos(ids[i]) != StartPos(ids[j])
    {
      StartPosInjective(ids[i], ids[j]);
    }
  }

  /** The snapshot a freshly constructed piece has. */
  function StartView(id: PieceId): PieceView
    requires ValidId(id)
  {
    PieceView(id, Some(StartPos(id)), DefaultPathLength(id.kind), 0, false)
  }

  /** The snapshots of a sequence of pieces, in order. */
  function ViewsOf(ps: seq<Piece>): (vs: seq<PieceView>)
    reads set p | p in ps
    ensures |vs| == |ps| && forall i :: 0 <= i < |ps| ==> vs[i] == ps[i].View()
  {
    if |ps| == 0 then []
    else ViewsOf(ps[..|ps| - 1]) + [ps[|ps| - 1].View()]
  }

  /** The start points of the roster, in roster order. */
  function Home(side: Side): (pts: seq<Pos>)
    ensures |pts| == 8 && forall i :: 0 <= i < 8 ==> pts[i] == StartPos(Roster(side)[i])
  {
    seq(8, i requires 0 <= i < 8 => StartPos(Roster(side)[i]))
  }

  /** Red's start points lie in red's half and black's in black's, so the
      two sides never start on the same point. */
  lemma HomesApart()
    ensures forall i, j :: 0 <= i < 8 && 0 <= j < 8 ==> Home(Red)[i] != Home(Black)[j]
  {
    forall i, j | 0 <= i < 8 && 0 <= j < 8
      ensures Home(Red)[i] != Home(Black)[j]
    {
      StartPosHomeHalf(Roster(Red)[i]);
      StartPosHomeHalf(Roster(Black)[j]);
    }
  }

  /** The pieces of a roster, each built by its class's constructor. */
  method NewPieces(ids: seq<PieceId>, board: Board) returns (ps: seq<Piece>)
    requires forall i :: 0 <= i < |ids| ==> ValidId(ids[i])
    ensures |ps| == |ids|
    ensures forall i :: 0 <= i < |ids| ==>
      fresh(ps[i]) && ps[i].id == ids[i] && ps[i].board == board && ps[i].View() == StartView(ids[i])
  {
    ps := [];
    for i := 0 to |ids|
      invariant |ps| == i
      invariant forall j :: 0 <= j < i ==>
        fresh(ps[j]) && ps[j].id == ids[j] && ps[j].board == board && ps[j].View() == StartView(ids[j])
    {
      var piece := new Piece(ids[i], board);
      ps := ps + [piece];
    }
  }

  /** The placement loop of `Player.__init__`: each piece of the roster is
      placed on its own start point. The points are distinct and empty and
      the side has no recorded piece yet, so grid and record stay in
      agreement. */
  method PlaceAll(board: Board, ps: seq<Piece>, side: Side)
    requires board.Valid() && board.Shaped() && |ps| == 8
    requires forall j :: 0 <= j < 8 ==> ps[j].id == Roster(side)[j] && ps[j].pos == Some(Home(side)[j])
    requires forall j :: 0 <= j < 8 ==> Occ(board.cells, Home(side)[j]).None?
    requires forall id :: id in board.record ==> id.side != side
    modifies board
    ensures board.Valid() && board.Shaped()
    ensures forall j :: 0 <= j < 8 ==> Occ(board.cells, Home(side)[j]) == Some(ps[j])
    ensures forall p :: p !in Home(side) ==> Occ(board.cells, p) == Occ(old(board.cells), p)
    ensures forall id :: id in old(board.record) ==> id in board.record && board.record[id] == old(board.record)[id]
    ensures forall id :: id in board.record ==> id in old(board.record) || id.side == side
  {
    var pts := Home(side);
    StartPointsDistinct(side);
    for i := 0 to 8
      invariant board.Valid() && board.Shaped()
      invariant forall j :: 0 <= j < i ==> Occ(board.cells, pts[j]) == Some(ps[j])
      invariant forall j :: i <= j < 8 ==> Occ(board.cells, pts[j]).None? && ps[j].id !in board.record
      invariant forall p :: p !in pts[..i] ==> Occ(board.cells, p) == Occ(old(board.cells), p)
      invariant forall id :: id in old(board.record) ==> id in board.record && board.record[id] == old(board.record)[id]
      invariant forall id :: id in board.record ==> id in old(board.record) || id.side == side
    {
      var piece := ps[i];
      assert pts[..i + 1] == pts[..i] + [pts[i]];
      PlacePreservesConsistency(board.State(), piece.id, piece.pos.value);
      board.PlacePiece(piece, piece.pos.value);
    }
    assert pts[..8] == pts;
  }

  /** The body of the loop of `get_attacks`: whether the piece may legally
      move to `target`, and if so its attack (its point and its path). */
  method AttackOf(piece: Piece, target: Pos) returns (found: bool, a: Attack)
    requires piece.board.Shaped() && piece.AtRest() && piece.OnGrid() && OnBoard(target)
    modifies piece`pathLength, piece`jumps
    ensures piece.View() == old(piece.View())
    ensures found == Attacking(LegalOn(piece.board.Ids(), piece.board.record), piece.View(), target)
    ensures found ==> a == AttackBy(piece.board.Ids(), piece.View(), target)
  {
    found := piece.IsLegal(target);
    a := Attack(piece.id, target, []);
    if found {
      var path := piece.GetPath(target);
      a := Attack(piece.id, piece.pos.value, path);
    }
  }

  class Player {
    const side: Side
    const board: Board
    /** `_pieces`, with the general first. */
    const pieces: seq<Piece>
    /** `_general`. */
    const general: Piece

    function Objects(): set<Piece> {
      set p | p in pieces
    }

    function Views(): (vs: seq<PieceView>)
      reads Objects()
      ensures |vs| == |pieces| && forall i :: 0 <= i < |pieces| ==> vs[i] == pieces[i].View()
    {
      ViewsOf(pieces)
    }

    /** What the queries need: the board has its shape and every piece is on
        it, at rest and on the grid. */
    predicate Ready()
      reads board, Objects()
    {
      board.Shaped() && forall i :: 0 <= i < |pieces| ==>
        pieces[i].board == board && pieces[i].AtRest() && pieces[i].OnGrid()
    }

    /** A piece of this player: on this board, of this side, at rest, and
        recorded at its own point. */
    predicate Member(p: Piece)
      reads p, board
    {
      p.board == board && p.id.side == side && p.AtRest() && p.OnGrid() && p.Synced()
    }

    /** Every point holding a piece of this side holds one of `_pieces`. */
    ghost predicate Owns()
      reads board
    {
      forall p :: OnBoard(p) && board.PieceAt(p).Some? && board.PieceAt(p).value.id.side == side ==>
        board.PieceAt(p).value in pieces
    }

    ghost predicate Valid()
      reads board, Objects()
    {
      && Ready() && board.Valid()
      && |pieces| > 0 && pieces[0] == general && general.id == PieceId(side, General, 1)
      && (forall i :: 0 <= i < |pieces| ==> Member(pieces[i]))
      && (forall i, j :: 0 <= i < |pieces| && 0 <= j < |pieces| && pieces[i].id == pieces[j].id ==> i == j)
      && Owns()
    }

    /** Queries leave the board and every piece's fields as they were, so
        they keep `Valid`. */
    twostate lemma ValidKept()
      requires old(Valid()) && board.cells == old(board.cells) && board.record == old(board.record)
      requires forall i :: 0 <= i < |pieces| ==> pieces[i].View() == old(pieces[i].View())
      ensures Valid()
    {
      forall i | 0 <= i < |pieces|
        ensures Member(pieces[i]) && pieces[i].AtRest() && pieces[i].OnGrid()
      {
        assert pieces[i].View() == old(pieces[i].View());
        assert old(Member(pieces[i]));
      }
    }

    /** Pieces whose fields are all unchanged give unchanged views. */
    twostate lemma ViewsKept()
      requires forall i :: 0 <= i < |pieces| ==> pieces[i].View() == old(pieces[i].View())
      ensures Views() == old(Views())
    {
    }

    /** `Player.__init__`: create the pieces at their start points and place
        each on the board. */
    constructor (side: Side, board: Board)
      requires board.Valid() && board.Shaped()
      requires forall id :: id in board.record ==> id.side != side
      requires forall p :: OnBoard(p) && board.PieceAt(p).Some? ==> board.PieceAt(p).value.id.side != side
      requires forall i :: 0 <= i < 8 ==> board.PieceAt(Home(side)[i]).None?
      modifies board
      ensures this.side == side && this.board == board
      ensures |pieces| == 8
      ensures forall i :: 0 <= i < 8 ==> fresh(pieces[i]) && pieces[i].View() == StartView(Roster(side)[i])
      ensures fresh(Objects())
      ensures Valid()
      ensures forall i :: 0 <= i < 8 ==> board.PieceAt(Home(side)[i]) == Some(pieces[i])
      ensures forall p :: p !in Home(side) ==> board.PieceAt(p) == old(board.PieceAt(p))
      ensures forall id :: id in old(board.record) ==> id in board.record && board.record[id] == old(board.record)[id]
      ensures forall id :: id in board.record ==> id in old(board.record) || id.side == side
    {
      var ids := Roster(side);
      var ps := NewPieces(ids, board);
      this.side := side;
      this.board := board;
      pieces := ps;
      general := ps[0];
      new;
      PlaceAll(board, pieces, side);
      PlacedValid(old(board.cells));
    }

    /** Right after the placement loop: the eight pieces stand at rest on
        their start points and every other point holds what it held before
        (`before`), which was no piece of this side. */
    lemma PlacedValid(before: Grid<Piece>)
      requires |pieces| == 8 && general == pieces[0] && board.Valid() && board.Shaped()
      requires forall i :: 0 <= i < 8 ==>
        && pieces[i].board == board && pieces[i].View() == StartView(Roster(side)[i])
        && board.PieceAt(Home(side)[i]) == Some(pieces[i])
      requires forall p :: OnBoard(p) && Occ(before, p).Some? ==> Occ(before, p).value.id.side != side
      requires forall p :: p !in Home(side) ==> board.PieceAt(p) == Occ(before, p)
      ensures Valid()
    {
      var ids := Roster(side);
      forall i | 0 <= i < 8
        ensures Member(pieces[i])
      {
        assert board.State().record[Occ(board.State().cells, Home(side)[i]).value] == Some(Home(side)[i]);
      }
      forall p | OnBoard(p) && board.PieceAt(p).Some? && board.PieceAt(p).value.id.side == side
        ensures board.PieceAt(p).value in pieces
      {
        var j :| 0 <= j < 8 && p == Home(side)[j];
      }
    }

    /** `get_general_pos`: the general's own point, which is what the board
        records for it. */
    function GeneralPosition(): (r: Option<Pos>)
      requires Valid()
      reads board, Objects()
      ensures r == GeneralPos(board.record, side)
    {
      assert Member(pieces[0]);
      general.pos
    }

    /** Pieces of one player stand on distinct points. */
    lemma ViewsDistinct()
      requires Valid()
      ensures DistinctPoints(Views())
    {
      var vs := Views();
      forall v, w | v in vs && w in vs && v.pos.Some? && v.pos == w.pos
        ensures v == w
      {
        var i :| 0 <= i < |vs| && vs[i] == v;
        var j :| 0 <= j < |vs| && vs[j] == w;
        assert Member(pieces[i]) && Member(pieces[j]);
        assert board.record[v.id] == v.pos;
      }
    }

    /** `Player.move`: rejected when `from` is empty or holds a piece of the
        other side; otherwise whatever the piece's own `move` does. */
    method Move(from: Pos, to: Pos) returns (r: MoveResult)
      requires Valid() && OnBoard(from) && OnBoard(to)
      modifies board, Objects(), board.At(to)
      ensures Valid()
      ensures old(board.PieceAt(from)).None? || old(board.PieceAt(from)).value.id.side != side ==>
        r.Rejected? && board.cells == old(board.cells) && board.record == old(board.record)
      ensures old(board.PieceAt(from)).Some? && old(board.PieceAt(from)).value.id.side == side ==>
        var piece := old(board.PieceAt(from)).value;
        && piece in pieces
        && (r.Rejected? <==> !old(Legal(board.Ids(), board.record, piece.View(), to)))
        && (r.Rejected? ==> board.cells == old(board.cells) && board.record == old(board.record))
        && (!r.Rejected? ==>
              && board.cells == SetCell(SetCell(old(board.cells), from, None), to, Some(piece))
              && board.State() == MoveEffect(old(board.State()), piece.id, from, to).0
              && piece.View() == old(piece.View()).(pos := Some(to), crossedRiver := FlagAfter(old(piece.View()), true, to))
              && r == (if old(board.PieceAt(to)).Some? then Captured(old(board.PieceAt(to)).value) else Moved)
              && forall i :: 0 <= i < |pieces| ==> pieces[i].View() == MovedView(old(pieces[i].View()), from, to))
        && forall i :: 0 <= i < |pieces| && pieces[i] != piece ==> pieces[i].View() == old(pieces[i].View())
      ensures r.Rejected? ==> forall i :: 0 <= i < |pieces| ==> pieces[i].View() == old(pieces[i].View())
      ensures r.Captured? ==> r.captive.id.side != side && r.captive.View() == old(r.captive.View()).(pos := None)
      ensures !r.Captured? ==> forall o :: o in old(board.At(to)) ==> o.View() == old(o.View())
    {
      var piece := board.PieceAt(from);
      if piece.None? {
        return Rejected;
      }
      if piece.value.id.side != side {
        return Rejected;
      }
      var mover := piece.value;
      OwnPieceAt(from);
      Located(from);
      Located(to);
      ghost var occupant := board.PieceAt(to);
      r := mover.Move(to);
      forall i | 0 <= i < |pieces| && pieces[i] != mover
        ensures pieces[i].View() == old(pieces[i].View())
      {
        assert old(Member(pieces[i]));
      }
      if r.Rejected? {
        ValidKept();
      } else {
        assert occupant.Some? ==> occupant.value.id.side != side;
        MoveKeepsValid((from, to));
        ViewsMoved((from, to));
      }
    }

    /** After an accepted move of this player's piece from `step.0` to
        `step.1`, each view is the one `MovedView` gives: no other own
        piece stood on either point. */
    twostate lemma ViewsMoved(step: (Pos, Pos))
      requires old(board.PieceAt(step.0)).Some?
      requires old(board.PieceAt(step.1)).Some? ==> old(board.PieceAt(step.1)).value.id.side != side
      requires old(forall i :: 0 <= i < |pieces| && pieces[i].pos == Some(step.0) ==> board.PieceAt(step.0) == Some(pieces[i]))
      requires old(forall i :: 0 <= i < |pieces| && pieces[i].pos == Some(step.1) ==> board.PieceAt(step.1) == Some(pieces[i]))
      requires forall i :: 0 <= i < |pieces| ==> pieces[i].id.side == side
      requires var mover := old(board.PieceAt(step.0)).value;
        && old(mover.pos) == Some(step.0)
        && mover.View() == old(mover.View()).(pos := Some(step.1), crossedRiver := FlagAfter(old(mover.View()), true, step.1))
        && forall i :: 0 <= i < |pieces| && pieces[i] != mover ==> pieces[i].View() == old(pieces[i].View())
      ensures forall i :: 0 <= i < |pieces| ==> pieces[i].View() == MovedView(old(pieces[i].View()), step.0, step.1)
    {
      var mover := old(board.PieceAt(step.0)).value;
      forall i | 0 <= i < |pieces|
        ensures pieces[i].View() == MovedView(old(pieces[i].View()), step.0, step.1)
      {
        if pieces[i] != mover {
          assert old(pieces[i].pos) != Some(step.1);
        }
      }
    }

    /** After an accepted move of the other side's piece from `step.0` to
        `step.1`, each of this player's views is the one `MovedView` gives: only
        the captive, the own piece that stood on `step.1`, changes. */
    twostate lemma OpponentViewsMoved(step: (Pos, Pos))
      requires old(Valid()) && OnBoard(step.0) && OnBoard(step.1)
      requires old(board.PieceAt(step.0)).Some? && old(board.PieceAt(step.0)).value.id.side != side
      requires forall i :: 0 <= i < |pieces| && Some(pieces[i]) != old(board.PieceAt(step.1)) ==>
        pieces[i].View() == old(pieces[i].View())
      requires old(board.PieceAt(step.1)).Some? ==>
        old(board.PieceAt(step.1)).value.View() == old(board.PieceAt(step.1).value.View()).(pos := None)
      ensures forall i :: 0 <= i < |pieces| ==> pieces[i].View() == MovedView(old(pieces[i].View()), step.0, step.1)
    {
      forall i | 0 <= i < |pieces|
        ensures pieces[i].View() == MovedView(old(pieces[i].View()), step.0, step.1)
      {
        assert old(Member(pieces[i]));
        var id := pieces[i].id;
        assert old(board.record[id] == pieces[i].pos);
        if old(pieces[i].pos) == Some(step.0) {
          assert false;
        }
        if old(pieces[i].pos) == Some(step.1) {
          assert old(Occ(board.Ids(), step.1)) == Some(id);
          var o := old(board.PieceAt(step.1)).value;
          assert o in pieces;
          var j :| 0 <= j < |pieces| && pieces[j] == o;
          assert i == j;
        } else if Some(pieces[i]) == old(board.PieceAt(step.1)) {
          assert false;
        }
      }
    }

    /** Each piece of this player that stands on `q` is the board's occupant
        of `q`. */
    lemma Located(q: Pos)
      requires Valid() && OnBoard(q)
      ensures forall i :: 0 <= i < |pieces| && pieces[i].pos == Some(q) ==> board.PieceAt(q) == Some(pieces[i])
    {
      forall i | 0 <= i < |pieces| && pieces[i].pos == Some(q)
        ensures board.PieceAt(q) == Some(pieces[i])
      {
        assert Member(pieces[i]);
        assert board.record[pieces[i].id] == Some(q);
        assert Occ(board.Ids(), q) == Some(pieces[i].id);
        var o := board.PieceAt(q).value;
        assert o in pieces;
        var j :| 0 <= j < |pieces| && pieces[j] == o;
      }
    }

    /** The piece on a point holding a piece of this side is one of
        `_pieces`, stands there and is recorded there. */
    lemma OwnPieceAt(from: Pos)
      requires Valid() && OnBoard(from)
      requires board.PieceAt(from).Some? && board.PieceAt(from).value.id.side == side
      ensures board.PieceAt(from).value in pieces && Member(board.PieceAt(from).value)
      ensures board.PieceAt(from).value.pos == Some(from)
    {
      var mover := board.PieceAt(from).value;
      var i :| 0 <= i < |pieces| && pieces[i] == mover;
      assert Member(pieces[i]);
      assert board.record[mover.id] == Some(from);
    }

    /** A successful move of one of the player's pieces from `step.0` to
        `step.1` keeps `Valid`: the mover is recorded at its new point, the
        captive (if any) is of the other side, and no other cell or piece
        changes. */
    twostate lemma MoveKeepsValid(step: (Pos, Pos))
      requires old(Valid()) && OnBoard(step.0) && OnBoard(step.1) && step.0 != step.1
      requires old(board.PieceAt(step.0)).Some? && old(board.PieceAt(step.0)).value in pieces
      requires old(board.PieceAt(step.1)).Some? ==> old(board.PieceAt(step.1)).value.id.side != side
      requires board.Valid() && board.Shaped()
      requires var mover := old(board.PieceAt(step.0)).value;
        && board.cells == SetCell(SetCell(old(board.cells), step.0, None), step.1, Some(mover))
        && board.State() == MoveEffect(old(board.State()), mover.id, step.0, step.1).0
        && mover.AtRest() && mover.pos == Some(step.1)
        && forall i :: 0 <= i < |pieces| && pieces[i] != mover ==> pieces[i].View() == old(pieces[i].View())
      ensures Valid()
    {
      var (from, to) := step;
      var mover := old(board.PieceAt(from)).value;
      MoveEffectFacts(old(board.State()), mover.id, from, to);
      forall i | 0 <= i < |pieces|
        ensures Member(pieces[i])
      {
        if pieces[i] != mover {
          assert old(Member(pieces[i]));
          assert pieces[i].id != mover.id;
        }
      }
      forall p | OnBoard(p) && board.PieceAt(p).Some? && board.PieceAt(p).value.id.side == side
        ensures board.PieceAt(p).value in pieces
      {
        if p != from && p != to {
          assert board.PieceAt(p) == old(board.PieceAt(p));
        }
      }
    }

    /** A successful move by the other side from `step.0` to `step.1` keeps
        `Valid`: the only piece of this side it touches is a captive on
        `step.1`, which leaves the board and is recorded as captured; the
        views are then those `MovedView` gives. */
    twostate lemma OpponentMoveKeepsValid(step: (Pos, Pos))
      requires old(Valid()) && OnBoard(step.0) && OnBoard(step.1) && step.0 != step.1
      requires old(board.PieceAt(step.0)).Some? && old(board.PieceAt(step.0)).value.id.side != side
      requires board.Valid() && board.Shaped()
      requires var mover := old(board.PieceAt(step.0)).value;
        && board.cells == SetCell(SetCell(old(board.cells), step.0, None), step.1, Some(mover))
        && board.State() == MoveEffect(old(board.State()), mover.id, step.0, step.1).0
      requires forall i :: 0 <= i < |pieces| && Some(pieces[i]) != old(board.PieceAt(step.1)) ==>
        pieces[i].View() == old(pieces[i].View())
      requires old(board.PieceAt(step.1)).Some? ==>
        old(board.PieceAt(step.1)).value.View() == old(board.PieceAt(step.1).value.View()).(pos := None)
      ensures Valid()
      ensures forall i :: 0 <= i < |pieces| ==> pieces[i].View() == MovedView(old(pieces[i].View()), step.0, step.1)
    {
      var (from, to) := step;
      var mover := old(board.PieceAt(from)).value;
      var captive := old(board.PieceAt(to));
      assert Occ(old(board.State()).cells, to) != Some(mover.id) by {
        assert old(board.record)[mover.id] == Some(from);
      }
      MoveEffectFacts(old(board.State()), mover.id, from, to);
      forall i | 0 <= i < |pieces|
        ensures Member(pieces[i])
      {
        assert old(Member(pieces[i]));
      }
      forall p | OnBoard(p) && board.PieceAt(p).Some? && board.PieceAt(p).value.id.side == side
        ensures board.PieceAt(p).value in pieces
      {
        assert p != from && p != to;
        assert board.PieceAt(p) == old(board.PieceAt(p));
      }
      OpponentViewsMoved(step);
    }

    /** Placing pieces of the other side keeps `Valid` when it changes no
        record of this side, no piece of this side and only cells that end
        up holding a piece of the other side (the second `Player.__init__`
        of a game). */
    twostate lemma OtherSidePlaced()
      requires old(Valid()) && board.Valid() && board.Shaped()
      requires forall id :: id in old(board.record) ==> id in board.record && board.record[id] == old(board.record)[id]
      requires forall p :: OnBoard(p) && board.PieceAt(p) != old(board.PieceAt(p)) ==>
        board.PieceAt(p).Some? && board.PieceAt(p).value.id.side != side
      requires forall i :: 0 <= i < |pieces| ==> pieces[i].View() == old(pieces[i].View())
      ensures Valid()
    {
      forall i | 0 <= i < |pieces|
        ensures Member(pieces[i])
      {
        assert old(Member(pieces[i]));
      }
      forall p | OnBoard(p) && board.PieceAt(p).Some? && board.PieceAt(p).value.id.side == side
        ensures board.PieceAt(p).value in pieces
      {
        assert board.PieceAt(p) == old(board.PieceAt(p));
      }
    }

    /** `get_attacks(target)`: the attack of every piece that may legally
        move to `target`, in order. */
    method GetAttacks(target: Pos) returns (attacks: seq<Attack>)
      requires Ready() && OnBoard(target)
      modifies Objects()
      ensures Ready() && Views() == old(Views())
      ensures attacks == Attacks(board.Ids(), LegalOn(board.Ids(), board.record), Views(), target)
    {
      ghost var vs := Views();
      ghost var g, rec := board.Ids(), board.record;
      attacks := [];
      for i := 0 to |pieces|
        invariant forall j :: 0 <= j < |pieces| ==> pieces[j].View() == vs[j]
        invariant attacks == Attacks(g, LegalOn(g, rec), vs[..i], target)
      {
        var found, attack := AttackOf(pieces[i], target);
        AttacksSnoc(g, LegalOn(g, rec), vs, i, target);
        if found {
          attacks := attacks + [attack];
        }
      }
      assert vs[..|pieces|] == vs;
    }

    /** `get_defense_moves(attack)` with the capture of the attacker included:
        every legal move of a piece onto a point of the path or onto the
        attacker's point. */
    method GetDefenseMoves(a: Attack) returns (moves: set<(Pos, Pos)>)
      requires Ready() && AttackOnBoard(a)
      modifies Objects()
      ensures Ready() && Views() == old(Views())
      ensures moves == DefenseMoves(LegalOn(board.Ids(), board.record), Views(), a)
    {
      ghost var vs := Views();
      ghost var legalOn := LegalOn(board.Ids(), board.record);
      var targets := PathPointList(a.path) + [a.at];
      moves := {};
      for i := 0 to |pieces|
        invariant forall j :: 0 <= j < |pieces| ==> pieces[j].View() == vs[j]
        invariant moves == DefenseSweep(legalOn, vs[..i], targets)
      {
        var more := pieces[i].LegalMovesTo(targets);
        DefenseSweepSnoc(legalOn, vs, targets, i);
        moves := moves + more;
      }
      assert vs[..|pieces|] == vs;
      SweepIsDefenseMoves(legalOn, vs, a);
    }

    /** `defend_all_checks(attacks)`: the defences common to every attack. */
    method DefendAllChecks(attacks: seq<Attack>) returns (defense: set<(Pos, Pos)>)
      requires Ready() && |attacks| > 0
      requires forall k :: 0 <= k < |attacks| ==> AttackOnBoard(attacks[k])
      modifies Objects()
      ensures Ready() && Views() == old(Views())
      ensures defense == DefendAll(LegalOn(board.Ids(), board.record), Views(), attacks)
    {
      ghost var legalOn := LegalOn(board.Ids(), board.record);
      ghost var vs := Views();
      defense := GetDefenseMoves(attacks[0]);
      assert attacks[..1][..0] == [];
      for index := 1 to |attacks|
        invariant Ready() && Views() == vs
        invariant defense == DefendAll(legalOn, vs, attacks[..index])
      {
        var more := GetDefenseMoves(attacks[index]);
        DefendAllSnoc(legalOn, vs, attacks, index);
        defense := defense * more;
      }
      assert attacks[..|attacks|] == attacks;
    }
  }
}
