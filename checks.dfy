/** Check and defence aggregation over a side's pieces (`Player.get_attacks`,
    the block/capture part of `Player.get_defense_moves`,
    `Player.defend_all_checks`) and the game-level verdicts built on them.
    The aggregation is stated over a legality oracle, instantiated with
    `Rules.Legal` on the current board by `LegalOn`. */
module Checks {
  import opened Positions
  import opened Kinds
  import opened Paths
  import opened Rules
  import opened Moves

  /** Whether a piece may legally move to a point (`piece.is_legal`). */
  type Oracle = (PieceView, Pos) -> bool

  /** The legality of the current board. */
  function LegalOn(g: IdGrid, rec: Record): (legal: Oracle)
    ensures forall v, p :: legal(v, p) == Legal(g, rec, v, p)
  {
    (v, p) => Legal(g, rec, v, p)
  }

  /** An entry of `get_attacks`: the attacking piece (with its point) and its
      path to the attacked point. */
  datatype Attack = Attack(attacker: PieceId, at: Pos, path: seq<Step<PieceId>>)

  function AttackBy(g: IdGrid, v: PieceView, target: Pos): Attack
    requires v.pos.Some?
  {
    Attack(v.id, v.pos.value, GetPath(g, MovementOf(v.id.kind), v.pos.value, target))
  }

  /** The pieces `get_attacks` reports: those that may legally move to
      `target` (a legal move always starts from a point). */
  predicate Attacking(legal: Oracle, v: PieceView, target: Pos) {
    legal(v, target) && v.pos.Some?
  }

  /** `get_attacks(target)`: one entry per attacking piece, in order. */
  function Attacks(g: IdGrid, legal: Oracle, vs: seq<PieceView>, target: Pos): (r: seq<Attack>)
    ensures |r| <= |vs|
  {
    if |vs| == 0 then []
    else
      var n := |vs| - 1;
      var front := Attacks(g, legal, vs[..n], target);
      if Attacking(legal, vs[n], target) then front + [AttackBy(g, vs[n], target)] else front
  }

  /** One more piece adds its attack, if it attacks, at the end. */
  lemma AttacksSnoc(g: IdGrid, legal: Oracle, vs: seq<PieceView>, n: nat, target: Pos)
    requires n < |vs|
    ensures Attacks(g, legal, vs[..n + 1], target) ==
      Attacks(g, legal, vs[..n], target) + (if Attacking(legal, vs[n], target) then [AttackBy(g, vs[n], target)] else [])
  {
    assert vs[..n + 1][..n] == vs[..n];
  }

  /** The attacks reported are exactly those of the attacking pieces: none
      when no piece attacks, one for each attacking piece, and nothing else. */
  lemma {:induction false} AttacksExact(g: IdGrid, legal: Oracle, vs: seq<PieceView>, target: Pos)
    ensures var r := Attacks(g, legal, vs, target);
      && (|r| == 0 <==> forall i :: 0 <= i < |vs| ==> !Attacking(legal, vs[i], target))
      && (forall i :: 0 <= i < |vs| && Attacking(legal, vs[i], target) ==> AttackBy(g, vs[i], target) in r)
      && (forall a :: a in r ==>
            exists i :: 0 <= i < |vs| && Attacking(legal, vs[i], target) && a == AttackBy(g, vs[i], target))
  {
    if |vs| > 0 {
      var n := |vs| - 1;
      AttacksExact(g, legal, vs[..n], target);
      var front := Attacks(g, legal, vs[..n], target);
      var r := Attacks(g, legal, vs, target);
      forall a | a in r
        ensures exists i :: 0 <= i < |vs| && Attacking(legal, vs[i], target) && a == AttackBy(g, vs[i], target)
      {
        if a in front {
          var i :| 0 <= i < n && Attacking(legal, vs[..n][i], target) && a == AttackBy(g, vs[..n][i], target);
          assert vs[..n][i] == vs[i];
        }
      }
      forall i | 0 <= i < |vs| && Attacking(legal, vs[i], target)
        ensures AttackBy(g, vs[i], target) in r
      {
        if i < n {
          assert vs[..n][i] == vs[i];
        }
      }
      if |r| == 0 {
        forall i | 0 <= i < |vs|
          ensures !Attacking(legal, vs[i], target)
        {
          if i < n {
            assert vs[..n][i] == vs[i];
          }
        }
      }
    }
  }

  /** A path along any pattern, when it exists, ends on its destination. */
  lemma GetPathEnds(g: IdGrid, m: Movement, from: Pos, to: Pos)
    requires |GetPath(g, m, from, to)| > 0
    ensures GetPath(g, m, from, to)[|GetPath(g, m, from, to)| - 1].pos == to
  {
    match m
    case Ortho => OrthoPathShape(g, from, to);
    case Diagonal => DiagonalPathShape(g, from, to);
    case LShaped =>
  }

  /** Every attack reported on the board ends on the attacked point. */
  lemma AttackPathEnds(g: IdGrid, rec: Record, vs: seq<PieceView>, target: Pos, a: Attack)
    requires a in Attacks(g, LegalOn(g, rec), vs, target)
    ensures |a.path| > 0 && a.path[|a.path| - 1].pos == target
  {
    AttacksExact(g, LegalOn(g, rec), vs, target);
    var i :| 0 <= i < |vs| && Attacking(LegalOn(g, rec), vs[i], target) && a == AttackBy(g, vs[i], target);
    var v := vs[i];
    assert Legal(g, rec, v, target);
    GetPathEnds(g, MovementOf(v.id.kind), v.pos.value, target);
  }

  /** The points of an attack's path. */
  function PathPoints(path: seq<Step<PieceId>>): set<Pos> {
    set s | s in path :: s.pos
  }

  /** The block/capture moves of `get_defense_moves` as written: a defender's
      legal move onto a point of the attack path. The attacker's own point is
      not on the path, so capturing the attacker is never among them. */
  function DefenseMovesAsWritten(legal: Oracle, vs: seq<PieceView>, a: Attack): set<(Pos, Pos)> {
    set v, p | v in vs && p in PathPoints(a.path) && Attacking(legal, v, p) :: (v.pos.value, p)
  }

  /** The points a defence may move to, as the source's comment intends:
      any point of the path, or the attacker's own point (a capture). */
  function DefenseTargets(a: Attack): set<Pos> {
    PathPoints(a.path) + {a.at}
  }

  /** Block/capture defences with the capture of the attacker included. */
  function DefenseMoves(legal: Oracle, vs: seq<PieceView>, a: Attack): set<(Pos, Pos)> {
    set v, p | v in vs && p in DefenseTargets(a) && Attacking(legal, v, p) :: (v.pos.value, p)
  }

  /** The corrected defences keep every defence the source finds. */
  lemma AsWrittenWithin(legal: Oracle, vs: seq<PieceView>, a: Attack)
    ensures DefenseMovesAsWritten(legal, vs, a) <= DefenseMoves(legal, vs, a)
  {
  }

  /** A defender that can legally capture the attacker yields a defence. */
  lemma CaptureDefends(legal: Oracle, vs: seq<PieceView>, a: Attack, v: PieceView)
    requires v in vs && Attacking(legal, v, a.at)
    ensures (v.pos.value, a.at) in DefenseMoves(legal, vs, a)
  {
    assert a.at in DefenseTargets(a);
  }

  /** A defence move starts from a defender's point and moves it, legally,
      onto the path or the attacker's point. */
  lemma DefenseMoveLegal(legal: Oracle, vs: seq<PieceView>, a: Attack, m: (Pos, Pos))
    requires m in DefenseMoves(legal, vs, a)
    ensures exists v :: v in vs && v.pos == Some(m.0) && m.1 in DefenseTargets(a) && legal(v, m.1)
  {
  }

  /** The points of a path in travel order. */
  function PathPointList(path: seq<Step<PieceId>>): (ps: seq<Pos>)
    ensures |ps| == |path| && forall i :: 0 <= i < |path| ==> ps[i] == path[i].pos
    ensures forall p :: p in ps <==> p in PathPoints(path)
  {
    seq(|path|, i requires 0 <= i < |path| => path[i].pos)
  }

  /** The legal moves of one piece onto a list of points, as a loop over
      the points collects them: one piece's defences in `get_defense_moves`,
      and its moves in `get_possible_moves`. */
  function MovesOnto(legal: Oracle, v: PieceView, ps: seq<Pos>): set<(Pos, Pos)> {
    if |ps| == 0 then {}
    else
      var p := ps[|ps| - 1];
      MovesOnto(legal, v, ps[..|ps| - 1]) + (if Attacking(legal, v, p) then {(v.pos.value, p)} else {})
  }

  /** One more point adds the move onto it, if legal. */
  lemma MovesOntoSnoc(legal: Oracle, v: PieceView, ps: seq<Pos>, n: nat)
    requires n < |ps|
    ensures MovesOnto(legal, v, ps[..n + 1]) ==
      MovesOnto(legal, v, ps[..n]) + (if Attacking(legal, v, ps[n]) then {(v.pos.value, ps[n])} else {})
  {
    assert ps[..n + 1][..n] == ps[..n];
  }

  /** A piece's defences are its legal moves onto the listed points. */
  lemma {:induction false} MovesOntoExact(legal: Oracle, v: PieceView, ps: seq<Pos>, m: (Pos, Pos))
    ensures m in MovesOnto(legal, v, ps) <==>
      v.pos == Some(m.0) && m.1 in ps && Attacking(legal, v, m.1)
  {
    if |ps| > 0 {
      var n := |ps| - 1;
      MovesOntoExact(legal, v, ps[..n], m);
      assert m.1 in ps <==> m.1 in ps[..n] || m.1 == ps[n];
    }
  }

  /** Sweeping the available points gives the possible moves
      (`get_possible_moves` collects them in that loop). */
  lemma PossibleMovesSwept(g: IdGrid, rec: Record, v: PieceView)
    requires v.pos.Some?
    ensures MovesOnto(LegalOn(g, rec), v, AvailablePositions(g, v.id.side)) == PossibleMoves(g, rec, v)
  {
    forall m
      ensures m in MovesOnto(LegalOn(g, rec), v, AvailablePositions(g, v.id.side)) <==> m in PossibleMoves(g, rec, v)
    {
      MovesOntoExact(LegalOn(g, rec), v, AvailablePositions(g, v.id.side), m);
      PossibleMovesExact(g, rec, v, m);
    }
  }

  /** The defences of a list of pieces over a list of points, as the nested
      loops of `get_defense_moves` collect them. */
  function DefenseSweep(legal: Oracle, vs: seq<PieceView>, ps: seq<Pos>): set<(Pos, Pos)> {
    if |vs| == 0 then {}
    else
      var n := |vs| - 1;
      DefenseSweep(legal, vs[..n], ps) + MovesOnto(legal, vs[n], ps)
  }

  /** One more piece adds its moves onto the listed points. */
  lemma DefenseSweepSnoc(legal: Oracle, vs: seq<PieceView>, ps: seq<Pos>, n: nat)
    requires n < |vs|
    ensures DefenseSweep(legal, vs[..n + 1], ps) == DefenseSweep(legal, vs[..n], ps) + MovesOnto(legal, vs[n], ps)
  {
    assert vs[..n + 1][..n] == vs[..n];
  }

  /** The sweep holds the legal moves of the listed pieces onto the listed points. */
  lemma {:induction false} DefenseSweepExact(legal: Oracle, vs: seq<PieceView>, ps: seq<Pos>, m: (Pos, Pos))
    ensures m in DefenseSweep(legal, vs, ps) <==>
      exists v :: v in vs && v.pos == Some(m.0) && m.1 in ps && Attacking(legal, v, m.1)
  {
    if |vs| > 0 {
      var n := |vs| - 1;
      DefenseSweepExact(legal, vs[..n], ps, m);
      MovesOntoExact(legal, vs[n], ps, m);
      assert forall v :: v in vs <==> v in vs[..n] || v == vs[n];
    }
  }

  /** Sweeping the path's points and then the attacker's point gives the
      block/capture defences. */
  lemma SweepIsDefenseMoves(legal: Oracle, vs: seq<PieceView>, a: Attack)
    ensures DefenseSweep(legal, vs, PathPointList(a.path) + [a.at]) == DefenseMoves(legal, vs, a)
  {
    var ps := PathPointList(a.path) + [a.at];
    assert forall p :: p in ps <==> p in DefenseTargets(a);
    forall m
      ensures m in DefenseSweep(legal, vs, ps) <==> m in DefenseMoves(legal, vs, a)
    {
      DefenseSweepExact(legal, vs, ps, m);
    }
  }

  /** The points an attack mentions are points of the board. */
  predicate AttackOnBoard(a: Attack) {
    OnBoard(a.at) && forall i :: 0 <= i < |a.path| ==> OnBoard(a.path[i].pos)
  }

  /** Attacks read off the board between points of the board stay on it. */
  lemma AttacksOnBoard(g: IdGrid, legal: Oracle, vs: seq<PieceView>, target: Pos)
    requires OnBoard(target)
    requires forall i :: 0 <= i < |vs| && vs[i].pos.Some? ==> OnBoard(vs[i].pos.value)
    ensures forall a :: a in Attacks(g, legal, vs, target) ==> AttackOnBoard(a)
  {
    AttacksExact(g, legal, vs, target);
    forall a | a in Attacks(g, legal, vs, target)
      ensures AttackOnBoard(a)
    {
      var i :| 0 <= i < |vs| && Attacking(legal, vs[i], target) && a == AttackBy(g, vs[i], target);
      var from := vs[i].pos.value;
      forall k | 0 <= k < |a.path|
        ensures OnBoard(a.path[k].pos)
      {
        match MovementOf(vs[i].id.kind)
        case Ortho => OrthoPathOnBoard(g, from, target, k);
        case Diagonal => DiagonalPathOnBoard(g, from, target, k);
        case LShaped => LPathShape(g, from, target);
      }
    }
  }

  /** `defend_all_checks(attacks)`: the defences of the first attack,
      intersected with those of each later one. */
  function DefendAll(legal: Oracle, vs: seq<PieceView>, attacks: seq<Attack>): set<(Pos, Pos)>
    requires |attacks| > 0
  {
    var n := |attacks| - 1;
    if n == 0 then DefenseMoves(legal, vs, attacks[0])
    else DefendAll(legal, vs, attacks[..n]) * DefenseMoves(legal, vs, attacks[n])
  }

  /** One more attack narrows the common defences by its own. */
  lemma DefendAllSnoc(legal: Oracle, vs: seq<PieceView>, attacks: seq<Attack>, n: nat)
    requires 0 < n < |attacks|
    ensures DefendAll(legal, vs, attacks[..n + 1]) == DefendAll(legal, vs, attacks[..n]) * DefenseMoves(legal, vs, attacks[n])
  {
    assert attacks[..n + 1][..n] == attacks[..n];
  }

  /** A common defence is exactly a defence against each attack. */
  lemma {:induction false} DefendAllExact(legal: Oracle, vs: seq<PieceView>, attacks: seq<Attack>, m: (Pos, Pos))
    requires |attacks| > 0
    ensures m in DefendAll(legal, vs, attacks) <==>
      forall k :: 0 <= k < |attacks| ==> m in DefenseMoves(legal, vs, attacks[k])
  {
    var n := |attacks| - 1;
    if n > 0 {
      DefendAllExact(legal, vs, attacks[..n], m);
      assert forall k :: 0 <= k < n ==> attacks[..n][k] == attacks[k];
    }
  }

  /** `is_in_check`: the opponent's pieces attack the general's point. A
      captured general (no point) is not in check. */
  predicate InCheck(g: IdGrid, legal: Oracle, attackers: seq<PieceView>, general: Option<Pos>) {
    general.Some? && |Attacks(g, legal, attackers, general.value)| > 0
  }

  /** In check exactly when some opposing piece may legally move onto the general. */
  lemma InCheckMeans(g: IdGrid, rec: Record, attackers: seq<PieceView>, general: Option<Pos>)
    ensures InCheck(g, LegalOn(g, rec), attackers, general) <==>
      general.Some? && exists i :: 0 <= i < |attackers| && Legal(g, rec, attackers[i], general.value)
  {
    if general.Some? {
      var legal := LegalOn(g, rec);
      AttacksExact(g, legal, attackers, general.value);
      if exists i :: 0 <= i < |attackers| && Legal(g, rec, attackers[i], general.value) {
        var i :| 0 <= i < |attackers| && Legal(g, rec, attackers[i], general.value);
        assert Attacking(legal, attackers[i], general.value);
      } else {
        assert forall i :: 0 <= i < |attackers| ==> !Attacking(legal, attackers[i], general.value);
      }
    }
  }

  /** `is_in_checkmate`: in check, and no single defence answers every attack. */
  predicate InCheckmate(g: IdGrid, legal: Oracle, defenders: seq<PieceView>, attackers: seq<PieceView>, general: Option<Pos>) {
    InCheck(g, legal, attackers, general) &&
    DefendAll(legal, defenders, Attacks(g, legal, attackers, general.value)) == {}
  }

  /** No two pieces that stand on the board stand on the same point. */
  predicate DistinctPoints(vs: seq<PieceView>) {
    forall v, w :: v in vs && w in vs && v.pos.Some? && v.pos == w.pos ==> v == w
  }

  /** Moving to `p` blocks or captures every attack. */
  predicate AnswersAll(attacks: seq<Attack>, p: Pos) {
    forall k :: 0 <= k < |attacks| ==> p in DefenseTargets(attacks[k])
  }

  /** A legal move onto a point answering every attack is a common defence. */
  lemma AnswerDefendsAll(legal: Oracle, defenders: seq<PieceView>, attacks: seq<Attack>, v: PieceView, p: Pos)
    requires |attacks| > 0
    requires v in defenders && Attacking(legal, v, p) && AnswersAll(attacks, p)
    ensures (v.pos.value, p) in DefendAll(legal, defenders, attacks)
  {
    DefendAllExact(legal, defenders, attacks, (v.pos.value, p));
    forall k | 0 <= k < |attacks|
      ensures (v.pos.value, p) in DefenseMoves(legal, defenders, attacks[k])
    {
      assert p in DefenseTargets(attacks[k]);
    }
  }

  /** With defenders on distinct points, every common defence is one
      defender's legal move onto a point answering every attack. */
  lemma DefendAllAnswers(legal: Oracle, defenders: seq<PieceView>, attacks: seq<Attack>, m: (Pos, Pos))
    requires |attacks| > 0 && DistinctPoints(defenders)
    requires m in DefendAll(legal, defenders, attacks)
    ensures exists v :: v in defenders && v.pos == Some(m.0) && Attacking(legal, v, m.1) && AnswersAll(attacks, m.1)
  {
    DefendAllExact(legal, defenders, attacks, m);
    assert m in DefenseMoves(legal, defenders, attacks[0]);
    var v0, p0 :| v0 in defenders && p0 in DefenseTargets(attacks[0]) && Attacking(legal, v0, p0) && m == (v0.pos.value, p0);
    forall k | 0 <= k < |attacks|
      ensures p0 in DefenseTargets(attacks[k])
    {
      assert m in DefenseMoves(legal, defenders, attacks[k]);
      var vk, pk :| vk in defenders && pk in DefenseTargets(attacks[k]) && Attacking(legal, vk, pk) && m == (vk.pos.value, pk);
      assert vk == v0;
    }
  }

  /** Checkmate exactly when in check and no defender has a legal move onto a
      point that blocks or captures every attack at once. */
  lemma CheckmateMeans(g: IdGrid, legal: Oracle, defenders: seq<PieceView>, attackers: seq<PieceView>, general: Option<Pos>)
    requires DistinctPoints(defenders)
    ensures InCheckmate(g, legal, defenders, attackers, general) <==>
      && InCheck(g, legal, attackers, general)
      && forall v, p :: v in defenders && Attacking(legal, v, p) ==>
           !AnswersAll(Attacks(g, legal, attackers, general.value), p)
  {
    if InCheck(g, legal, attackers, general) {
      var atts := Attacks(g, legal, attackers, general.value);
      var d := DefendAll(legal, defenders, atts);
      if d != {} {
        var m :| m in d;
        DefendAllAnswers(legal, defenders, atts, m);
      } else {
        forall v, p | v in defenders && Attacking(legal, v, p)
          ensures !AnswersAll(atts, p)
        {
          if AnswersAll(atts, p) {
            AnswerDefendsAll(legal, defenders, atts, v, p);
          }
        }
      }
    }
  }
}
