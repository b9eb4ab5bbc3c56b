/** Piece-level legality (`Piece.is_legal` and the overrides of the seven
    subclasses) as functions of a grid of piece ids, the board's piece record
    and a snapshot of the moving piece's fields. */
module Rules {
  import opened Positions
  import opened Kinds
  import opened Paths

  type IdGrid = Grid<PieceId>

  /** `Board._piece_state`: the recorded point of each piece, None once captured. */
  type Record = map<PieceId, Option<Pos>>

  /** The fields of a Piece object that legality reads: `_pos`, `_path_length`
      (None = unlimited), `_jumps` and, for soldiers, `_crossed_river`. */
  datatype PieceView = PieceView(id: PieceId, pos: Option<Pos>, pathLength: Option<nat>, jumps: nat, crossedRiver: bool)

  /** A snapshot with the configuration its constructor gives and that every
      `is_legal` call restores. */
  predicate Resting(v: PieceView) {
    v.pathLength == DefaultPathLength(v.id.kind) && v.jumps == 0
  }

  /** `get_path`: the path along the piece's own movement pattern, empty
      (Python's False) when that pattern does not reach `to`. */
  function GetPath(g: IdGrid, m: Movement, from: Pos, to: Pos): seq<Step<PieceId>> {
    match m
    case LShaped => LPath(g, from, to)
    case Ortho => OrthoPath(g, from, to)
    case Diagonal => DiagonalPath(g, from, to)
  }

  /** Number of occupied steps. */
  function Occupied<T>(s: seq<Step<T>>): nat {
    if |s| == 0 then 0
    else Occupied(s[..|s| - 1]) + (if s[|s| - 1].occupant.Some? then 1 else 0)
  }

  /** `num_jumps`: occupied steps of the path other than its last one. */
  function JumpCount<T>(path: seq<Step<T>>): nat {
    if |path| == 0 then 0 else Occupied(path[..|path| - 1])
  }

  function OccupiedIndices<T>(s: seq<Step<T>>): set<int> {
    set i | 0 <= i < |s| && s[i].occupant.Some?
  }

  /** `Occupied` counts exactly the occupied entries. */
  lemma {:induction false} OccupiedCount<T>(s: seq<Step<T>>)
    ensures Occupied(s) == |OccupiedIndices(s)|
  {
    if |s| > 0 {
      var n := |s| - 1;
      OccupiedCount(s[..n]);
      var rest := OccupiedIndices(s[..n]);
      if s[n].occupant.Some? {
        assert OccupiedIndices(s) == rest + {n};
      } else {
        assert OccupiedIndices(s) == rest;
      }
    } else {
      assert OccupiedIndices(s) == {};
    }
  }

  predicate FriendAt(g: IdGrid, p: Pos, side: Side) {
    Occ(g, p).Some? && Occ(g, p).value.side == side
  }

  predicate FoeAt(g: IdGrid, p: Pos, side: Side) {
    Occ(g, p).Some? && Occ(g, p).value.side != side
  }

  /** The length test of `is_legal`: `if self._path_length:` treats None (and 0)
      as no limit. */
  predicate WithinLength(limit: Option<nat>, n: nat) {
    limit.None? || limit.value == 0 || n <= limit.value
  }

  /** `Piece.is_legal`, rejecting in the source's order: null move, captured
      piece, friendly destination, no path along the pattern, path too long,
      wrong number of jumps. */
  predicate BaseLegal(g: IdGrid, v: PieceView, to: Pos) {
    if v.pos == Some(to) then false
    else if v.pos.None? then false
    else if FriendAt(g, to, v.id.side) then false
    else
      var path := GetPath(g, MovementOf(v.id.kind), v.pos.value, to);
      if |path| == 0 then false
      else if !WithinLength(v.pathLength, |path|) then false
      else JumpCount(path) == v.jumps
  }

  /** `Board.get_general_pos`: the recorded point of a side's general. */
  function GeneralPos(rec: Record, side: Side): Option<Pos> {
    var key := PieceId(side, General, 1);
    if key in rec then rec[key] else None
  }

  /** `GeneralPiece.is_flying_general`: `to` is the other general's recorded
      point, on this general's file, with nothing between. */
  predicate FlyingGeneral(g: IdGrid, rec: Record, v: PieceView, to: Pos) {
    && v.pos.Some?
    && GeneralPos(rec, Opp(v.id.side)) == Some(to)
    && to.file == v.pos.value.file
    && JumpCount(GetPath(g, MovementOf(v.id.kind), v.pos.value, to)) == 0
  }

  /** `GeneralPiece.is_legal`: the base check, with the length limit lifted
      while a flying-general capture is possible, then the castle bound
      unless the move is such a capture. */
  predicate GeneralLegal(g: IdGrid, rec: Record, v: PieceView, to: Pos) {
    var fly := FlyingGeneral(g, rec, v, to);
    var v' := if fly then v.(pathLength := None) else v;
    BaseLegal(g, v', to) && (fly || to in Castle(v.id.side))
  }

  /** `AdvisorPiece.is_legal`: castle bound first, then the base check. */
  predicate AdvisorLegal(g: IdGrid, v: PieceView, to: Pos) {
    to in Castle(v.id.side) && BaseLegal(g, v, to)
  }

  /** `ElephantPiece.is_legal`: the base check and a rank on the own side of the river. */
  predicate ElephantLegal(g: IdGrid, v: PieceView, to: Pos) {
    BaseLegal(g, v, to) && ElephantRank(v.id.side, to.rank)
  }

  /** `CannonPiece.is_legal`: one jump is required while `to` holds a foe. */
  predicate CannonLegal(g: IdGrid, v: PieceView, to: Pos) {
    var v' := if FoeAt(g, to, v.id.side) then v.(jumps := 1) else v;
    BaseLegal(g, v', to)
  }

  predicate Retreat(side: Side, from: Pos, to: Pos) {
    from.file == to.file &&
    ((side == Red && to.rank < from.rank) || (side == Black && to.rank > from.rank))
  }

  /** `SoldierPiece.is_legal`: the base check, no retreat, and no move along
      the rank before the river has been crossed. */
  predicate SoldierLegal(g: IdGrid, v: PieceView, to: Pos) {
    BaseLegal(g, v, to) &&
    !Retreat(v.id.side, v.pos.value, to) &&
    !(to.rank == v.pos.value.rank && !v.crossedRiver)
  }

  /** `is_legal` of the object's class. Whatever the kind, a legal move starts
      from a point, changes it, and does not land on a friend. */
  predicate Legal(g: IdGrid, rec: Record, v: PieceView, to: Pos)
    ensures Legal(g, rec, v, to) ==>
      v.pos.Some? && v.pos.value != to && !FriendAt(g, to, v.id.side) &&
      |GetPath(g, MovementOf(v.id.kind), v.pos.value, to)| > 0
  {
    match v.id.kind
    case General => GeneralLegal(g, rec, v, to)
    case Advisor => AdvisorLegal(g, v, to)
    case Elephant => ElephantLegal(g, v, to)
    case Horse => BaseLegal(g, v, to)
    case Chariot => BaseLegal(g, v, to)
    case Cannon => CannonLegal(g, v, to)
    case Soldier => SoldierLegal(g, v, to)
  }
}
