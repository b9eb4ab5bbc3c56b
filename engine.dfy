/** The mutable engine: the `Board` (grid of piece objects and piece record)
    and the `Piece` objects that move on it. Board and pieces refer to each
    other, so both classes live in this module. Every query is proved to
    compute the pure definitions of `Paths`, `Rules` and `Moves` on the
    board's id projection. */
module Engine {
  import opened Positions
  import opened Kinds
  import opened Paths
  import opened Rules
  import opened Moves
  import opened Checks

  /** The identity of an occupant. */
  function IdOf(o: Option<Piece>): Option<PieceId> {
    if o.Some? then Some(o.value.id) else None
  }

  /** The grid of piece objects seen as a grid of piece identities. */
  function Project(c: Grid<Piece>): (g: IdGrid)
    ensures |g| == |c| && forall r :: 0 <= r < |c| ==> |g[r]| == |c[r]|
    ensures forall r, f :: 0 <= r < |c| && 0 <= f < |c[r]| ==> g[r][f] == IdOf(c[r][f])
    ensures Shaped(g) <==> Shaped(c)
    ensures forall p :: Occ(g, p) == IdOf(Occ(c, p))
  {
    seq(|c|, r requires 0 <= r < |c| => seq(|c[r]|, f requires 0 <= f < |c[r]| => IdOf(c[r][f])))
  }

  /** Overwriting a cell commutes with the projection. */
  lemma ProjectSetCell(c: Grid<Piece>, p: Pos, o: Option<Piece>)
    requires Shaped(c) && OnBoard(p)
    ensures Project(SetCell(c, p, o)) == SetCell(Project(c), p, IdOf(o))
  {
    var lhs, rhs := Project(SetCell(c, p, o)), SetCell(Project(c), p, IdOf(o));
    forall r | 0 <= r < RankCount
      ensures lhs[r] == rhs[r]
    {
      forall f | 0 <= f < FileCount
        ensures lhs[r][f] == rhs[r][f]
      {
        assert Occ(lhs, Pos(r, f)) == Occ(rhs, Pos(r, f));
      }
    }
  }

  class Board {
    /** `_board_state[rank][file]`: the piece object on each point. */
    var cells: Grid<Piece>
    /** `_piece_state`: each placed piece's point, None once captured. */
    var record: Record

    /** The board's data as values: occupant identities and the record. */
    function State(): BoardState
      reads this
    {
      BoardState(Project(cells), record)
    }

    function Ids(): IdGrid
      reads this
    {
      Project(cells)
    }

    predicate Shaped()
      reads this
    {
      Paths.Shaped(cells)
    }

    /** Grid and record agree (the invariant `Piece.move` and
        `Piece.reverse_move` keep). */
    ghost predicate Valid()
      reads this
    {
      Consistent(State())
    }

    /** `Board.__init__`: an empty ten-by-nine grid and an empty record. */
    constructor()
      ensures cells == EmptyGrid() && record == map[]
      ensures Valid()
    {
      cells := EmptyGrid();
      record := map[];
    }

    /** `get_piece_from_pos`. */
    function PieceAt(p: Pos): (o: Option<Piece>)
      reads this
      ensures IdOf(o) == Occ(Ids(), p)
    {
      Occ(cells, p)
    }

    /** The occupant of `p`, as a set (for frames). */
    function At(p: Pos): set<Piece>
      reads this
    {
      if Occ(cells, p).Some? then {Occ(cells, p).value} else {}
    }

    /** `get_general_pos`: the recorded point of a side's general. */
    function GeneralAt(side: Side): (r: Option<Pos>)
      reads this
      ensures r == GeneralPos(record, side)
    {
      var key := PieceId(side, General, 1);
      if key in record then record[key] else None
    }

    /** `place_piece`: the cell holds the piece and the piece's record is the
        point; nothing else changes. */
    method PlacePiece(piece: Piece, p: Pos)
      requires Shaped() && OnBoard(p)
      modifies this
      ensures cells == SetCell(old(cells), p, Some(piece))
      ensures record == old(record)[piece.id := Some(p)]
      ensures State() == Place(old(State()), piece.id, p)
    {
      ProjectSetCell(cells, p, Some(piece));
      cells := SetCell(cells, p, Some(piece));
      record := record[piece.id := Some(p)];
    }

    /** `clear_pos`: the cell is emptied; the record is untouched. */
    method ClearPos(p: Pos)
      requires Shaped() && OnBoard(p)
      modifies this
      ensures cells == SetCell(old(cells), p, None)
      ensures record == old(record)
      ensures State() == Moves.ClearPos(old(State()), p)
    {
      ProjectSetCell(cells, p, None);
      cells := SetCell(cells, p, None);
    }

    /** `clear_piece`: the piece's record becomes None; the grid is untouched. */
    method ClearPiece(piece: Piece)
      modifies this
      ensures cells == old(cells)
      ensures record == old(record)[piece.id := None]
      ensures State() == Moves.ClearPiece(old(State()), piece.id)
    {
      record := record[piece.id := None];
    }

    /** `get_ortho_path`: the source's direction flag and range loops. */
    method GetOrthoPath(from: Pos, to: Pos) returns (path: seq<Step<PieceId>>)
      requires Shaped()
      ensures path == OrthoPath(Ids(), from, to)
    {
      ghost var g := Ids();
      path := [];
      if from.rank != to.rank && from.file != to.file {
        return;
      }
      var flip := to.rank < from.rank || to.file < from.file;
      if from.rank == to.rank && !flip {
        for file := from.file + 1 to to.file + 1
          invariant path == Ray(g, from, 0, Sign(to.file - from.file), file - from.file - 1)
        {
          var p := Pos(to.rank, file);
          RaySnoc(g, from, 0, Sign(to.file - from.file), file - from.file - 1);
          path := path + [Step(p, IdOf(PieceAt(p)))];
        }
      } else if from.rank == to.rank {
        for file := from.file downto to.file
          invariant path == Ray(g, from, 0, -1, from.file - file)
        {
          var p := Pos(to.rank, file);
          RaySnoc(g, from, 0, -1, from.file - file - 1);
          path := path + [Step(p, IdOf(PieceAt(p)))];
        }
      } else if !flip {
        for rank := from.rank + 1 to to.rank + 1
          invariant path == Ray(g, from, Sign(to.rank - from.rank), 0, rank - from.rank - 1)
        {
          var p := Pos(rank, to.file);
          RaySnoc(g, from, Sign(to.rank - from.rank), 0, rank - from.rank - 1);
          path := path + [Step(p, IdOf(PieceAt(p)))];
        }
      } else {
        for rank := from.rank downto to.rank
          invariant path == Ray(g, from, -1, 0, from.rank - rank)
        {
          var p := Pos(rank, to.file);
          RaySnoc(g, from, -1, 0, from.rank - rank - 1);
          path := path + [Step(p, IdOf(PieceAt(p)))];
        }
      }
    }

    /** `get_diagonal_path`: ranks and files stepped together, the source's
        zip of two ranges. */
    method GetDiagonalPath(from: Pos, to: Pos) returns (path: seq<Step<PieceId>>)
      requires Shaped()
      ensures path == DiagonalPath(Ids(), from, to)
    {
      ghost var g := Ids();
      path := [];
      if from.rank == to.rank || from.file == to.file {
        return;
      }
      var rankDiff, fileDiff := to.rank - from.rank, to.file - from.file;
      if Abs(rankDiff) != Abs(fileDiff) {
        return;
      }
      var dr := if rankDiff < 0 then -1 else 1;
      var df := if fileDiff < 0 then -1 else 1;
      for k := 1 to Abs(rankDiff) + 1
        invariant path == Ray(g, from, dr, df, k - 1)
      {
        var p := Pos(from.rank + dr * k, from.file + df * k);
        RaySnoc(g, from, dr, df, k - 1);
        path := path + [Step(p, IdOf(PieceAt(p)))];
      }
    }

    /** `get_L_path`: the candidate loop over the orthogonal neighbours of
        `from`, then the diagonal step from the kept candidate. */
    method GetLPath(from: Pos, to: Pos) returns (path: seq<Step<PieceId>>)
      requires Shaped() && OnBoard(from) && OnBoard(to)
      ensures path == LPath(Ids(), from, to)
    {
      ghost var g := Ids();
      var intLocs := LCandidates(from);
      var intPos: Option<Pos> := None;
      for i := 0 to |intLocs|
        invariant intPos == LastMatch(intLocs[..i], from, to)
      {
        var c := intLocs[i];
        assert intLocs[..i + 1][..i] == intLocs[..i];
        if from.rank - c.rank == c.rank - to.rank {
          intPos := Some(c);
        } else if from.file - c.file == c.file - to.file {
          intPos := Some(c);
        }
      }
      assert intLocs[..|intLocs|] == intLocs;
      LPathLoopAgrees(g, from, to);
      path := [];
      if intPos.Some? {
        var tryDest := GetDiagonalPath(intPos.value, to);
        if |tryDest| > 0 {
          path := [Step(intPos.value, IdOf(PieceAt(intPos.value)))] + tryDest;
        }
      }
    }

    /** `get_available_positions`: files outside, ranks inside, keeping the
        points that are empty or hold a piece of the other side. */
    method GetAvailablePositions(side: Side) returns (ps: seq<Pos>)
      requires Shaped()
      ensures ps == AvailablePositions(Ids(), side)
    {
      ghost var g := Ids();
      ps := [];
      for file := 0 to FileCount
        invariant ps == AvailableUpTo(g, side, file)
      {
        for rank := 0 to RankCount
          invariant ps == AvailableUpTo(g, side, file) + AvailableInFile(g, side, file, rank)
        {
          var occupant := PieceAt(Pos(rank, file));
          ghost var before := ps;
          if occupant.None? || occupant.value.id.side != side {
            ps := ps + [Pos(rank, file)];
          }
          ghost var last := if Available(g, side, Pos(rank, file)) then [Pos(rank, file)] else [];
          assert ps == before + last;
          assert AvailableInFile(g, side, file, rank + 1) == AvailableInFile(g, side, file, rank) + last;
        }
      }
    }
  }

  /** What `Piece.move` returns: False, True, or the captured piece. */
  datatype MoveResult = Rejected | Moved | Captured(captive: Piece)

  /** The fields after an `is_legal` query: the general's path length is
      back at one step and the cannon's jump count at zero; nothing else
      changes, and a piece at rest is left as it was. */
  function AfterQuery(v: PieceView): (w: PieceView)
    ensures w.id == v.id && w.pos == v.pos && w.crossedRiver == v.crossedRiver
    ensures v.id.kind == General ==> w.pathLength == Some(1)
    ensures v.id.kind == Cannon ==> w.jumps == 0
    ensures Resting(v) ==> w == v
  {
    match v.id.kind
    case General => v.(pathLength := Some(1))
    case Cannon => v.(jumps := 0)
    case _ => v
  }

  /** The soldier's river flag after a move attempt to `to`, successful or
      not; other kinds have no such flag. */
  function FlagAfter(v: PieceView, moved: bool, to: Pos): bool {
    if v.id.kind == Soldier then CrossedAfter(v.id.side, v.crossedRiver, moved, to) else v.crossedRiver
  }

  /** A resting piece's fields after a successful move from `from` to `to`:
      the mover stands on `to` with its river flag updated, a piece on `to`
      is captured, and every other piece is as it was. */
  function MovedView(v: PieceView, from: Pos, to: Pos): PieceView {
    if v.pos == Some(from) then v.(pos := Some(to), crossedRiver := FlagAfter(v, true, to))
    else if v.pos == Some(to) then v.(pos := None)
    else v
  }

  /** Pieces and board move together: a piece whose point agrees with the
      board record before a move still agrees with the record `MoveEffect`
      leaves, and only the mover's flag can change. */
  lemma MovedViewSynced(s: BoardState, id: PieceId, from: Pos, to: Pos, v: PieceView)
    requires Consistent(s) && OnBoard(from) && OnBoard(to) && from != to
    requires Occ(s.cells, from) == Some(id)
    requires v.id in s.record && s.record[v.id] == v.pos
    ensures var s' := MoveEffect(s, id, from, to).0;
      v.id in s'.record && s'.record[v.id] == MovedView(v, from, to).pos
    ensures MovedView(v, from, to).id == v.id
    ensures v.id != id ==> MovedView(v, from, to).crossedRiver == v.crossedRiver
  {
    assert s.record[id] == Some(from);
    MoveEffectFacts(s, id, from, to);
    if v.pos == Some(from) {
      assert v.id == id;
    } else if v.pos == Some(to) {
      assert Occ(s.cells, to) == Some(v.id);
    }
  }

  class Piece {
    /** Side, kind and number: the object's identity and its label. */
    const id: PieceId
    const board: Board
    /** `_pos`, None once captured. */
    var pos: Option<Pos>
    /** `_path_length`, None for no limit. */
    var pathLength: Option<nat>
    /** `_jumps`: the number of pieces a legal path must pass over. */
    var jumps: nat
    /** `_crossed_river` (used by soldiers only). */
    var crossedRiver: bool

    function View(): PieceView
      reads this
    {
      PieceView(id, pos, pathLength, jumps, crossedRiver)
    }

    /** The configuration the constructor gives and every query restores. */
    predicate AtRest()
      reads this
    {
      Resting(View())
    }

    /** The piece stands on a point of the board, or is captured. */
    predicate OnGrid()
      reads this
    {
      pos.Some? ==> OnBoard(pos.value)
    }

    /** The constructors of the seven subclasses: movement parameters of the
        kind and the start point from the kind's position table. */
    constructor (id: PieceId, board: Board)
      requires ValidId(id)
      ensures this.id == id && this.board == board
      ensures pos == Some(StartPos(id)) && !crossedRiver
      ensures AtRest() && OnGrid()
    {
      this.id := id;
      this.board := board;
      pos := Some(StartPos(id));
      pathLength := DefaultPathLength(id.kind);
      jumps := 0;
      crossedRiver := false;
    }

    /** `get_path`: all three builders run, the piece's pattern picks one. */
    method GetPath(to: Pos) returns (path: seq<Step<PieceId>>)
      requires board.Shaped() && pos.Some? && OnBoard(pos.value) && OnBoard(to)
      ensures path == Rules.GetPath(board.Ids(), MovementOf(id.kind), pos.value, to)
    {
      var tryOrtho := board.GetOrthoPath(pos.value, to);
      var tryDiag := board.GetDiagonalPath(pos.value, to);
      var tryL := board.GetLPath(pos.value, to);
      var movement := MovementOf(id.kind);
      if movement == LShaped && |tryL| > 0 {
        return tryL;
      }
      if movement == Ortho && |tryOrtho| > 0 {
        return tryOrtho;
      } else if movement == Diagonal && |tryDiag| > 0 {
        return tryDiag;
      } else {
        return [];
      }
    }

    /** `num_jumps`: counts the occupied steps of the path but its last. */
    method NumJumps(path: seq<Step<PieceId>>) returns (count: nat)
      ensures count == JumpCount(path)
    {
      count := 0;
      var front := if |path| == 0 then [] else path[..|path| - 1];
      for i := 0 to |front|
        invariant count == Occupied(front[..i])
      {
        assert front[..i + 1][..i] == front[..i];
        if front[i].occupant.Some? {
          count := count + 1;
        }
      }
      assert front[..|front|] == front;
    }

    /** `Piece.is_legal`, rejecting in the source's order. */
    method BaseIsLegal(to: Pos) returns (r: bool)
      requires board.Shaped() && OnGrid() && OnBoard(to)
      ensures r == BaseLegal(board.Ids(), View(), to)
    {
      if pos == Some(to) {
        return false;
      }
      if pos.None? {
        return false;
      }
      var occupant := board.PieceAt(to);
      if occupant.Some? && occupant.value.id.side == id.side {
        return false;
      }
      var tryPath := GetPath(to);
      if |tryPath| == 0 {
        return false;
      }
      if pathLength.Some? && pathLength.value != 0 {
        if |tryPath| > pathLength.value {
          return false;
        }
      }
      var n := NumJumps(tryPath);
      if n != jumps {
        return false;
      }
      return true;
    }

    /** `GeneralPiece.is_flying_general`. */
    method IsFlyingGeneral(to: Pos) returns (r: bool)
      requires board.Shaped() && OnGrid() && OnBoard(to)
      ensures r == FlyingGeneral(board.Ids(), board.record, View(), to)
    {
      var otherGenPos := board.GeneralAt(Opp(id.side));
      if otherGenPos == Some(to) && pos.Some? && to.file == pos.value.file {
        var pathToGen := GetPath(to);
        var n := NumJumps(pathToGen);
        if n == 0 {
          return true;
        }
      }
      return false;
    }

    /** `GeneralPiece.is_legal`: the length limit is lifted for a possible
        flying-general capture and set back to one step on every exit. */
    method GeneralIsLegal(to: Pos) returns (r: bool)
      requires id.kind == General
      requires board.Shaped() && OnGrid() && OnBoard(to)
      modifies this`pathLength
      ensures r == GeneralLegal(board.Ids(), board.record, old(View()), to)
      ensures pathLength == Some(1)
    {
      var flyingGeneralFlag := IsFlyingGeneral(to);
      if flyingGeneralFlag {
        pathLength := None;
      }
      var base := BaseIsLegal(to);
      if !base {
        pathLength := Some(1);
        return false;
      }
      if !flyingGeneralFlag && to !in Castle(id.side) {
        pathLength := Some(1);
        return false;
      }
      pathLength := Some(1);
      return true;
    }

    /** `CannonPiece.is_legal`: one jump is required for a capture, and the
        jump count is set back to zero afterwards. */
    method CannonIsLegal(to: Pos) returns (r: bool)
      requires board.Shaped() && OnGrid() && OnBoard(to)
      modifies this`jumps
      ensures r == CannonLegal(board.Ids(), old(View()), to)
      ensures jumps == 0
    {
      var occupant := board.PieceAt(to);
      if occupant.Some? && occupant.value.id.side != id.side {
        jumps := 1;
      }
      r := BaseIsLegal(to);
      jumps := 0;
    }

    /** `SoldierPiece.is_legal`. */
    method SoldierIsLegal(to: Pos) returns (r: bool)
      requires board.Shaped() && OnGrid() && OnBoard(to)
      ensures r == SoldierLegal(board.Ids(), View(), to)
    {
      var tryPath := BaseIsLegal(to);
      if !tryPath {
        return false;
      }
      var from := pos.value;
      if from.file == to.file && id.side == Red && to.rank < from.rank {
        return false;
      }
      if from.file == to.file && id.side == Black && to.rank > from.rank {
        return false;
      }
      if to.rank == from.rank && !crossedRiver {
        return false;
      }
      return true;
    }

    /** `AdvisorPiece.is_legal`. */
    method AdvisorIsLegal(to: Pos) returns (r: bool)
      requires board.Shaped() && OnGrid() && OnBoard(to)
      ensures r == AdvisorLegal(board.Ids(), View(), to)
    {
      if to !in Castle(id.side) {
        return false;
      }
      r := BaseIsLegal(to);
    }

    /** `ElephantPiece.is_legal`. */
    method ElephantIsLegal(to: Pos) returns (r: bool)
      requires board.Shaped() && OnGrid() && OnBoard(to)
      ensures r == ElephantLegal(board.Ids(), View(), to)
    {
      r := BaseIsLegal(to);
      r := r && ElephantRank(id.side, to.rank);
    }

    /** `is_legal` of the object's class. */
    method IsLegal(to: Pos) returns (r: bool)
      requires board.Shaped() && OnGrid() && OnBoard(to)
      modifies this`pathLength, this`jumps
      ensures r == Legal(board.Ids(), board.record, old(View()), to)
      ensures View() == AfterQuery(old(View()))
    {
      match id.kind
      case General => r := GeneralIsLegal(to);
      case Advisor => r := AdvisorIsLegal(to);
      case Elephant => r := ElephantIsLegal(to);
      case Horse => r := BaseIsLegal(to);
      case Chariot => r := BaseIsLegal(to);
      case Cannon => r := CannonIsLegal(to);
      case Soldier => r := SoldierIsLegal(to);
    }

    /** The `is_legal` loop over a list of points shared by
        `get_possible_moves` and `get_defense_moves`: the moves onto the
        points this piece may legally move to. */
    method LegalMovesTo(targets: seq<Pos>) returns (moves: set<(Pos, Pos)>)
      requires board.Shaped() && OnGrid() && AtRest()
      requires forall k :: 0 <= k < |targets| ==> OnBoard(targets[k])
      modifies this`pathLength, this`jumps
      ensures View() == old(View())
      ensures moves == MovesOnto(LegalOn(board.Ids(), board.record), View(), targets)
    {
      ghost var legalOn := LegalOn(board.Ids(), board.record);
      moves := {};
      for k := 0 to |targets|
        invariant View() == old(View())
        invariant moves == MovesOnto(legalOn, View(), targets[..k])
      {
        var legal := IsLegal(targets[k]);
        MovesOntoSnoc(legalOn, View(), targets, k);
        if legal {
          moves := moves + {(pos.value, targets[k])};
        }
      }
      assert targets[..|targets|] == targets;
    }

    /** The board's record holds this piece's point (None once captured). */
    predicate Synced()
      reads this, board
    {
      id in board.record && board.record[id] == pos
    }

    /** `Piece.move`: when legal, vacate the old point, occupy `to`, and
        capture any piece found there. */
    method BaseMove(to: Pos) returns (r: MoveResult)
      requires board.Valid() && board.Shaped() && OnGrid() && OnBoard(to) && Synced()
      modifies this, board, board.At(to)
      ensures board.Valid() && board.Shaped() && Synced() && OnGrid()
      ensures r.Rejected? <==> !old(Legal(board.Ids(), board.record, View(), to))
      ensures r.Rejected? ==>
        board.cells == old(board.cells) && board.record == old(board.record) &&
        View() == AfterQuery(old(View()))
      ensures !r.Rejected? ==>
        && old(pos).Some?
        && board.cells == SetCell(SetCell(old(board.cells), old(pos).value, None), to, Some(this))
        && board.State() == MoveEffect(old(board.State()), id, old(pos).value, to).0
        && View() == AfterQuery(old(View())).(pos := Some(to))
        && r == (if old(board.PieceAt(to)).Some? then Captured(old(board.PieceAt(to)).value) else Moved)
      ensures r.Captured? ==> r.captive.id.side != id.side && r.captive.View() == old(r.captive.View()).(pos := None)
      ensures !r.Captured? ==> forall o :: o in old(board.At(to)) && o != this ==> o.View() == old(o.View())
    {
      var legal := IsLegal(to);
      if !legal {
        return Rejected;
      }
      var from := pos.value;
      var captive := board.PieceAt(to);
      MovePreservesConsistency(board.State(), id, from, to);
      board.ClearPos(from);
      board.PlacePiece(this, to);
      pos := Some(to);
      if captive.Some? {
        board.ClearPiece(captive.value);
        captive.value.pos := None;
        return Captured(captive.value);
      }
      return Moved;
    }

    /** `Piece.move` with the soldier's override, which sets the river flag
        once a move onto the river rank succeeds. */
    method Move(to: Pos) returns (r: MoveResult)
      requires board.Valid() && board.Shaped() && OnGrid() && OnBoard(to) && Synced()
      modifies this, board, board.At(to)
      ensures board.Valid() && board.Shaped() && Synced() && OnGrid()
      ensures r.Rejected? <==> !old(Legal(board.Ids(), board.record, View(), to))
      ensures r.Rejected? ==>
        board.cells == old(board.cells) && board.record == old(board.record) &&
        View() == AfterQuery(old(View()))
      ensures !r.Rejected? ==>
        && old(pos).Some?
        && board.cells == SetCell(SetCell(old(board.cells), old(pos).value, None), to, Some(this))
        && board.State() == MoveEffect(old(board.State()), id, old(pos).value, to).0
        && View() == AfterQuery(old(View())).(pos := Some(to), crossedRiver := FlagAfter(old(View()), true, to))
        && r == (if old(board.PieceAt(to)).Some? then Captured(old(board.PieceAt(to)).value) else Moved)
      ensures r.Captured? ==> r.captive.id.side != id.side && r.captive.View() == old(r.captive.View()).(pos := None)
      ensures !r.Captured? ==> forall o :: o in old(board.At(to)) && o != this ==> o.View() == old(o.View())
    {
      r := BaseMove(to);
      if id.kind == Soldier && !r.Rejected? && to.rank == RiverRank(id.side) {
        crossedRiver := true;
      }
    }

    /** `Piece.reverse_move`: the captive, if any, goes back to `to` and this
        piece back to `from`. */
    method ReverseMove(from: Pos, to: Pos, captive: Option<Piece>)
      requires board.Shaped() && OnBoard(from) && OnBoard(to)
      modifies this`pos, board, if captive.Some? then {captive.value} else {}
      ensures board.cells == SetCell(SetCell(old(board.cells), to, captive), from, Some(this))
      ensures board.State() == ReverseEffect(old(board.State()), id, from, to, IdOf(captive))
      ensures pos == Some(from)
      ensures captive.Some? && captive.value != this ==> captive.value.View() == old(captive.value.View()).(pos := Some(to))
    {
      if captive.Some? {
        board.PlacePiece(captive.value, to);
        captive.value.pos := Some(to);
      } else {
        board.ClearPos(to);
      }
      board.PlacePiece(this, from);
      pos := Some(from);
    }

    /** `get_possible_moves`: the legal moves to the available points, none
        for a captured piece. */
    method GetPossibleMoves() returns (moves: set<(Pos, Pos)>)
      requires board.Shaped() && OnGrid() && AtRest()
      modifies this`pathLength, this`jumps
      ensures View() == old(View())
      ensures moves == PossibleMoves(board.Ids(), board.record, View())
    {
      var possiblePos := board.GetAvailablePositions(id.side);
      moves := {};
      if pos.Some? {
        moves := LegalMovesTo(possiblePos);
        PossibleMovesSwept(board.Ids(), board.record, View());
      }
    }
  }
}
