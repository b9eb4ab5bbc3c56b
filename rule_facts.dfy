/** What the legality rules mean on the board, one characterisation per
    piece kind in purely geometric terms, for a piece in its resting
    configuration. */
module RuleFacts {
  import opened Positions
  import opened Kinds
  import opened Paths
  import opened Rules

  /** Step indices (0-based: index i is the point i + 1 steps away) of the
      occupied points strictly between `from` and `to` on their shared rank or file. */
  function Between(g: IdGrid, from: Pos, to: Pos): set<int> {
    var n := Abs(to.rank - from.rank) + Abs(to.file - from.file);
    set i | 0 <= i < n - 1 && OccupiedAhead(g, from, to, i)
  }

  /** The point i + 1 steps from `from` toward `to` is occupied. */
  predicate OccupiedAhead(g: IdGrid, from: Pos, to: Pos, i: int) {
    Occ(g, Along(from, Sign(to.rank - from.rank), Sign(to.file - from.file), i + 1)).Some?
  }

  /** The jumps on an orthogonal path are the occupied points between the ends. */
  lemma OrthoJumps(g: IdGrid, from: Pos, to: Pos)
    requires SameLine(from, to) && from != to
    ensures JumpCount(OrthoPath(g, from, to)) == |Between(g, from, to)|
  {
    var path := OrthoPath(g, from, to);
    var n := |path|;
    var front := path[..n - 1];
    OccupiedCount(front);
    assert OccupiedIndices(front) == Between(g, from, to);
  }

  /** A first step of length one has no jumps; a path of length two has one
      jump exactly when its first point is occupied. */
  lemma ShortJumps<T>(path: seq<Step<T>>)
    requires 1 <= |path| <= 2
    ensures JumpCount(path) == if |path| == 2 && path[0].occupant.Some? then 1 else 0
  {
    if |path| == 2 {
      var front := path[..1];
      assert front[..0] == [];
      assert Occupied(front) == Occupied(front[..0]) + (if front[0].occupant.Some? then 1 else 0);
      assert front[0] == path[0];
    }
  }

  /** A resting chariot reaches any point on its rank or file that does not
      hold a friend and has nothing in between. */
  lemma ChariotRule(g: IdGrid, rec: Record, v: PieceView, from: Pos, to: Pos)
    requires v.id.kind == Chariot && Resting(v) && v.pos == Some(from)
    ensures Legal(g, rec, v, to) <==>
      from != to && SameLine(from, to) && !FriendAt(g, to, v.id.side) && Between(g, from, to) == {}
  {
    if from != to && SameLine(from, to) {
      OrthoJumps(g, from, to);
      OrthoPathEmpty(g, from, to);
    }
  }

  /** A resting cannon moves like a chariot when `to` is empty and captures a
      foe only over exactly one piece between, of either side. */
  lemma CannonRule(g: IdGrid, rec: Record, v: PieceView, from: Pos, to: Pos)
    requires v.id.kind == Cannon && Resting(v) && v.pos == Some(from)
    ensures Legal(g, rec, v, to) <==>
      && from != to && SameLine(from, to) && !FriendAt(g, to, v.id.side)
      && |Between(g, from, to)| == (if FoeAt(g, to, v.id.side) then 1 else 0)
  {
    if from != to && SameLine(from, to) {
      OrthoJumps(g, from, to);
      OrthoPathEmpty(g, from, to);
    }
  }

  /** Consequence: a cannon never moves off its rank and file. */
  lemma CannonNoDiagonal(g: IdGrid, rec: Record, v: PieceView, from: Pos, to: Pos)
    requires v.id.kind == Cannon && v.pos == Some(from) && !SameLine(from, to)
    ensures !Legal(g, rec, v, to)
  {
  }

  /** A resting soldier takes one orthogonal step onto a point without a
      friend, never back along its file, and along its rank only when it has
      crossed the river. */
  lemma SoldierRule(g: IdGrid, rec: Record, v: PieceView, from: Pos, to: Pos)
    requires v.id.kind == Soldier && Resting(v) && v.pos == Some(from)
    ensures Legal(g, rec, v, to) <==>
      && OrthoAdjacent(from, to) && !FriendAt(g, to, v.id.side)
      && !Retreat(v.id.side, from, to)
      && (to.rank != from.rank || v.crossedRiver)
  {
    var path := OrthoPath(g, from, to);
    if OrthoAdjacent(from, to) {
      OrthoPathShape(g, from, to);
      ShortJumps(path);
    }
    if SameLine(from, to) && from != to {
      OrthoPathShape(g, from, to);
    }
  }

  /** A soldier never moves toward its own side: red never to a lower rank,
      black never to a higher one. */
  lemma SoldierForward(g: IdGrid, rec: Record, v: PieceView, from: Pos, to: Pos)
    requires v.id.kind == Soldier && Resting(v) && v.pos == Some(from)
    requires Legal(g, rec, v, to)
    ensures if v.id.side == Red then to.rank >= from.rank else to.rank <= from.rank
  {
    SoldierRule(g, rec, v, from, to);
  }

  /** A resting advisor takes one diagonal step inside its own castle onto a
      point without a friend. */
  lemma AdvisorRule(g: IdGrid, rec: Record, v: PieceView, from: Pos, to: Pos)
    requires v.id.kind == Advisor && Resting(v) && v.pos == Some(from)
    ensures Legal(g, rec, v, to) <==>
      to in Castle(v.id.side) && DiagAdjacent(from, to) && !FriendAt(g, to, v.id.side)
  {
    var path := DiagonalPath(g, from, to);
    if OnDiagonal(from, to) {
      DiagonalPathShape(g, from, to);
      if |path| == 1 {
        ShortJumps(path);
      }
    }
  }

  /** The point one diagonal step from `from` toward `to`. */
  function DiagonalMidpoint(from: Pos, to: Pos): Pos {
    Pos(from.rank + Sign(to.rank - from.rank), from.file + Sign(to.file - from.file))
  }

  /** A resting elephant takes one or two diagonal steps, not across the
      river and not over an occupied midpoint, onto a point without a friend. */
  lemma ElephantRule(g: IdGrid, rec: Record, v: PieceView, from: Pos, to: Pos)
    requires v.id.kind == Elephant && Resting(v) && v.pos == Some(from)
    ensures Legal(g, rec, v, to) <==>
      && OnDiagonal(from, to) && Abs(to.rank - from.rank) <= 2
      && !FriendAt(g, to, v.id.side) && ElephantRank(v.id.side, to.rank)
      && (Abs(to.rank - from.rank) == 2 ==> Occ(g, DiagonalMidpoint(from, to)).None?)
  {
    var path := DiagonalPath(g, from, to);
    if OnDiagonal(from, to) {
      DiagonalPathShape(g, from, to);
      if |path| <= 2 {
        ShortJumps(path);
      }
    }
  }

  /** A resting horse makes a horse leap onto a point without a friend when
      the orthogonal point next to it on the way is empty. */
  lemma HorseRule(g: IdGrid, rec: Record, v: PieceView, from: Pos, to: Pos)
    requires v.id.kind == Horse && Resting(v) && v.pos == Some(from)
    ensures Legal(g, rec, v, to) <==>
      HorseLeap(from, to) && !FriendAt(g, to, v.id.side) && Occ(g, LMidpoint(from, to)).None?
  {
    var path := LPath(g, from, to);
    if HorseLeap(from, to) {
      ShortJumps(path);
    }
  }

  /** A horse does not move orthogonally or diagonally. */
  lemma HorseOnlyLeaps(g: IdGrid, rec: Record, v: PieceView, from: Pos, to: Pos)
    requires v.id.kind == Horse && v.pos == Some(from)
    requires SameLine(from, to) || OnDiagonal(from, to)
    ensures !Legal(g, rec, v, to)
  {
  }

  /** A resting general without a flying-general capture takes one orthogonal
      step inside its castle onto a point without a friend. */
  lemma GeneralRule(g: IdGrid, rec: Record, v: PieceView, from: Pos, to: Pos)
    requires v.id.kind == General && Resting(v) && v.pos == Some(from)
    requires !FlyingGeneral(g, rec, v, to)
    ensures Legal(g, rec, v, to) <==>
      OrthoAdjacent(from, to) && to in Castle(v.id.side) && !FriendAt(g, to, v.id.side)
  {
    var path := OrthoPath(g, from, to);
    if OrthoAdjacent(from, to) {
      OrthoPathShape(g, from, to);
      ShortJumps(path);
    }
    if SameLine(from, to) && from != to {
      OrthoPathShape(g, from, to);
    }
  }

  /** Flying general: a general captures the other general along a clear
      file at any distance, inside or outside its castle. */
  lemma FlyingGeneralCapture(g: IdGrid, rec: Record, v: PieceView, from: Pos, to: Pos)
    requires v.id.kind == General && v.pos == Some(from) && v.jumps == 0
    requires GeneralPos(rec, Opp(v.id.side)) == Some(to)
    requires to.file == from.file && from != to
    requires Between(g, from, to) == {} && !FriendAt(g, to, v.id.side)
    ensures FlyingGeneral(g, rec, v, to)
    ensures Legal(g, rec, v, to)
  {
    OrthoJumps(g, from, to);
    OrthoPathEmpty(g, from, to);
  }

  /** `is_flying_general` holds only for the other general's point on the same
      file with nothing between. */
  lemma FlyingGeneralOnly(g: IdGrid, rec: Record, v: PieceView, to: Pos)
    requires v.id.kind == General && FlyingGeneral(g, rec, v, to)
    requires v.pos.value != to
    ensures GeneralPos(rec, Opp(v.id.side)) == Some(to)
    ensures to.file == v.pos.value.file
    ensures Between(g, v.pos.value, to) == {}
  {
    OrthoJumps(g, v.pos.value, to);
  }

  /** Without a flying-general capture, a general's legal point is in its castle. */
  lemma GeneralStaysInCastle(g: IdGrid, rec: Record, v: PieceView, to: Pos)
    requires v.id.kind == General && Legal(g, rec, v, to) && !FlyingGeneral(g, rec, v, to)
    ensures to in Castle(v.id.side)
  {
  }

  /** The general's override only narrows the base check, evaluated with the
      length limit in force for that call. */
  lemma GeneralWithinBase(g: IdGrid, rec: Record, v: PieceView, to: Pos)
    requires v.id.kind == General
    ensures !FlyingGeneral(g, rec, v, to) && !BaseLegal(g, v, to) ==> !Legal(g, rec, v, to)
    ensures !BaseLegal(g, v.(pathLength := None), to) ==> !Legal(g, rec, v, to)
  {
  }
}
