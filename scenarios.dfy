/** Concrete positions that show the two places where the engine, as
    written, departs from what its own comments promise, next to the
    corrected definitions the rest of the model uses. */
module Scenarios {
  import opened Positions
  import opened Kinds
  import opened Paths
  import opened Rules
  import opened Moves
  import opened Checks
  import opened RuleFacts

  /** Red's third soldier on its start point e4. */
  function SoldierOnE4(crossed: bool): PieceView {
    PieceView(PieceId(Red, Soldier, 3), Some(Pos(3, 4)), Some(1), 0, crossed)
  }

  /** The soldier on e4 tries e6, two points forward. The move is refused,
      yet `SoldierPiece.move` as written sets the river flag because e6 is
      on rank "6"; with the flag set, the soldier may then step sideways
      to d4 on its own side of the river. The corrected flag stays clear
      and the sideways step stays refused. */
  lemma SoldierFlagAfterFailedMove(g: IdGrid, rec: Record)
    requires Shaped(g) && Occ(g, Pos(3, 3)).None?
    ensures !Legal(g, rec, SoldierOnE4(false), Pos(5, 4))
    ensures CrossedAfterAsWritten(Red, false, Pos(5, 4))
    ensures !CrossedAfter(Red, false, false, Pos(5, 4))
    ensures Legal(g, rec, SoldierOnE4(CrossedAfterAsWritten(Red, false, Pos(5, 4))), Pos(3, 3))
    ensures !Legal(g, rec, SoldierOnE4(CrossedAfter(Red, false, false, Pos(5, 4))), Pos(3, 3))
  {
    var from := Pos(3, 4);
    OrthoPathShape(g, from, Pos(5, 4));
    OrthoPathShape(g, from, Pos(3, 3));
    var side := OrthoPath(g, from, Pos(3, 3));
    assert side == [Step(Pos(3, 3), Occ(g, Pos(3, 3)))];
    assert JumpCount(side) == 0;
  }

  /** Red's first chariot on e9 and black's general on its start point e10. */
  const RedChariot := PieceView(PieceId(Red, Chariot, 1), Some(Pos(8, 4)), None, 0, false)
  const BlackGeneral := PieceView(PieceId(Black, General, 1), Some(Pos(9, 4)), Some(1), 0, false)

  /** The red chariot on e9 checks the black general on e10 from the next
      point of file e, and the general can take it. The attack path is e10
      alone, so `get_defense_moves` as written offers no defence whatever
      black pieces defend: a lone attack of this kind would be judged
      checkmate. The corrected defences contain the general's capture. */
  lemma CaptureMissed(g: IdGrid, rec: Record, vs: seq<PieceView>)
    requires ChaseBoard(g)
    requires forall v :: v in vs ==> v.id.side == Black
    requires BlackGeneral in vs
    ensures Attacking(LegalOn(g, rec), RedChariot, Pos(9, 4))
    ensures DefenseMovesAsWritten(LegalOn(g, rec), vs, AttackBy(g, RedChariot, Pos(9, 4))) == {}
    ensures (Pos(9, 4), Pos(8, 4)) in DefenseMoves(LegalOn(g, rec), vs, AttackBy(g, RedChariot, Pos(9, 4)))
  {
    var legal := LegalOn(g, rec);
    var a := AttackBy(g, RedChariot, Pos(9, 4));
    ChariotChecks(g, rec);
    AttackMissesAttacker(g, rec, vs);
    GeneralCaptures(g, rec);
    CaptureDefends(legal, vs, a, BlackGeneral);
  }

  /** The points of the scene: the red chariot on e9 and the black general
      on e10. */
  predicate ChaseBoard(g: IdGrid) {
    && Shaped(g)
    && Occ(g, Pos(8, 4)) == Some(RedChariot.id) && Occ(g, Pos(9, 4)) == Some(BlackGeneral.id)
  }

  /** The chariot attacks the general, and its path is the general's point. */
  lemma ChariotChecks(g: IdGrid, rec: Record)
    requires ChaseBoard(g)
    ensures Legal(g, rec, RedChariot, Pos(9, 4))
    ensures PathPoints(AttackBy(g, RedChariot, Pos(9, 4)).path) == {Pos(9, 4)}
  {
    ChariotRule(g, rec, RedChariot, Pos(8, 4), Pos(9, 4));
    assert Between(g, Pos(8, 4), Pos(9, 4)) == {};
    OrthoPathShape(g, Pos(8, 4), Pos(9, 4));
    assert AttackBy(g, RedChariot, Pos(9, 4)).path == [Step(Pos(9, 4), Occ(g, Pos(9, 4)))];
  }

  /** No black piece may move onto the general's own point, so the defence
      set as written is empty for every list of black defenders. */
  lemma AttackMissesAttacker(g: IdGrid, rec: Record, vs: seq<PieceView>)
    requires ChaseBoard(g)
    requires forall v :: v in vs ==> v.id.side == Black
    ensures DefenseMovesAsWritten(LegalOn(g, rec), vs, AttackBy(g, RedChariot, Pos(9, 4))) == {}
  {
    var legal := LegalOn(g, rec);
    var a := AttackBy(g, RedChariot, Pos(9, 4));
    ChariotChecks(g, rec);
    forall v, p | v in vs && p in PathPoints(a.path)
      ensures !Attacking(legal, v, p)
    {
      assert p == Pos(9, 4) && FriendAt(g, p, v.id.side);
    }
  }

  /** The general may capture the chariot on e9, with or without the
      flying-general capture in play. */
  lemma GeneralCaptures(g: IdGrid, rec: Record)
    requires ChaseBoard(g)
    ensures Legal(g, rec, BlackGeneral, Pos(8, 4))
  {
    var from, to := Pos(9, 4), Pos(8, 4);
    if FlyingGeneral(g, rec, BlackGeneral, to) {
      OrthoPathShape(g, from, to);
      ShortJumps(OrthoPath(g, from, to));
    } else {
      GeneralRule(g, rec, BlackGeneral, from, to);
    }
  }
}
