/** The seven piece kinds and their fixed configuration: movement pattern,
    maximum path length, number per side, start positions and labels
    (the constructors and `__repr__` of the seven Piece subclasses). */
module Kinds {
  import opened Positions

  datatype Kind = General | Advisor | Elephant | Horse | Chariot | Cannon | Soldier

  /** Identity of a piece: its side, its kind and its 1-based number among the
      pieces of that kind and side (the general is number 1). Stands for the
      Python object and for its label `str(piece)`. */
  datatype PieceId = PieceId(side: Side, kind: Kind, num: nat)

  datatype Movement = Ortho | Diagonal | LShaped

  /** `_movement` as each constructor sets it. */
  function MovementOf(k: Kind): Movement {
    match k
    case General => Ortho
    case Advisor => Diagonal
    case Elephant => Diagonal
    case Horse => LShaped
    case Chariot => Ortho
    case Cannon => Ortho
    case Soldier => Ortho
  }

  /** `_path_length` as each constructor sets it; None means unlimited. */
  function DefaultPathLength(k: Kind): Option<nat> {
    match k
    case General => Some(1)
    case Advisor => Some(1)
    case Elephant => Some(2)
    case Horse => Some(2)
    case Chariot => None
    case Cannon => None
    case Soldier => Some(1)
  }

  /** How many pieces of a kind each side has (lengths of the position tables). */
  function KindCount(k: Kind): nat {
    match k
    case General => 1
    case Soldier => 5
    case _ => 2
  }

  predicate ValidId(id: PieceId) {
    1 <= id.num <= KindCount(id.kind)
  }

  /** A rank index seen from the given side: home rank 0 is rank "1" for red
      and rank "10" for black. */
  function HomeRank(s: Side, r: int): int {
    if s == Red then r else 9 - r
  }

  /** The start position of each piece, from the class-level position tables
      (`general_positions`, `advisor_positions`, ..., `soldier_positions`). */
  function StartPos(id: PieceId): (p: Pos)
    requires ValidId(id)
    ensures OnBoard(p)
  {
    var n := id.num;
    match id.kind
    case General => Pos(HomeRank(id.side, 0), 4)
    case Advisor => Pos(HomeRank(id.side, 0), if n == 1 then 3 else 5)
    case Elephant => Pos(HomeRank(id.side, 0), if n == 1 then 2 else 6)
    case Horse => Pos(HomeRank(id.side, 0), if n == 1 then 1 else 7)
    case Chariot => Pos(HomeRank(id.side, 0), if n == 1 then 0 else 8)
    case Cannon => Pos(HomeRank(id.side, 2), if n == 1 then 1 else 7)
    case Soldier => Pos(HomeRank(id.side, 3), 2 * (n - 1))
  }

  /** No two pieces start on the same point. */
  lemma StartPosInjective(a: PieceId, b: PieceId)
    requires ValidId(a) && ValidId(b) && a != b
    ensures StartPos(a) != StartPos(b)
  {
  }

  /** Red pieces start on ranks "1".."5" and black pieces on ranks "6".."10". */
  lemma StartPosHomeHalf(id: PieceId)
    requires ValidId(id)
    ensures ElephantRank(id.side, StartPos(id).rank)
  {
  }

  function KindTag(k: Kind): string {
    match k
    case General => "Ge"
    case Advisor => "Ad"
    case Elephant => "El"
    case Horse => "Ho"
    case Chariot => "Ch"
    case Cannon => "Ca"
    case Soldier => "So"
  }

  /** `__repr__`: side letter, two-letter kind tag and, except for the
      general, the piece number. */
  function Label(id: PieceId): string
    requires ValidId(id)
  {
    [if id.side == Red then 'r' else 'b'] + KindTag(id.kind) +
      (if id.kind == General then "" else [Ranks[id.num - 1][0]])
  }

  /** Labels are unique, so the board's label-keyed piece record can be keyed
      by piece identity instead. */
  lemma LabelInjective(a: PieceId, b: PieceId)
    requires ValidId(a) && ValidId(b)
    requires Label(a) == Label(b)
    ensures a == b
  {
    var la, lb := Label(a), Label(b);
    assert la[0] == lb[0];
    assert la[1..3] == KindTag(a.kind) && lb[1..3] == KindTag(b.kind);
    assert a.kind == b.kind;
    if a.kind != General {
      assert la[3] == lb[3];
    }
  }
}
