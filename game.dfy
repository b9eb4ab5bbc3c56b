/** `XiangqiGame`: the two players sharing one board, whose turn it is and
    the game state, with `make_move` and the check and checkmate tests it
    relies on. */
module Game {
  import opened Positions
  import opened Kinds
  import opened Paths
  import opened Rules
  import opened Moves
  import opened Checks
  import opened Engine
  import opened Players
  import RuleFacts

  /** `_game_state`: 'UNFINISHED', 'RED_WON' or 'BLACK_WON'. */
  datatype GameState = Unfinished | RedWon | BlackWon

  /** The finished state naming `side` as the winner. */
  function Winner(side: Side): (s: GameState)
    ensures s != Unfinished
    ensures s == RedWon <==> side == Red
  {
    if side == Red then RedWon else BlackWon
  }

  /** `is_in_stalemate`: the side has no available move. Whether it has one
      (`has_available_move`) is supplied by the caller. */
  predicate Stalemated(hasAvailableMove: bool) {
    !hasAvailableMove
  }

  /** The state `update_game_state` leaves: when the next side is checkmated
      or stalemated the side that just moved has won; otherwise the state is
      as it was. */
  function Outcome(current: GameState, mover: Side, checkmate: bool, stalemate: bool): (s: GameState)
    ensures checkmate || stalemate ==> s == Winner(mover)
    ensures !checkmate && !stalemate ==> s == current
    ensures s == Unfinished ==> current == Unfinished && !checkmate && !stalemate
  {
    if checkmate then Winner(mover)
    else if stalemate then Winner(mover)
    else current
  }

  /** The attacks `get_attacks` finds on the general of `side` on the board
      `s`, given the opponent's pieces; none for a captured general. */
  function AttacksOnGeneral(s: BoardState, attackers: seq<PieceView>, side: Side): seq<Attack> {
    var general := GeneralPos(s.record, side);
    if general.None? then [] else Attacks(s.cells, LegalOn(s.cells, s.record), attackers, general.value)
  }

  /** `is_in_check(side)` on the board `s`, given the opponent's pieces: they
      attack the general's point (a captured general is not in check). */
  ghost predicate CheckedOn(s: BoardState, attackers: seq<PieceView>, side: Side) {
    InCheck(s.cells, LegalOn(s.cells, s.record), attackers, GeneralPos(s.record, side))
  }

  /** `is_in_checkmate(side)` on the board `s`, given the side's own pieces
      and the opponent's. */
  ghost predicate CheckmateOn(s: BoardState, defenders: seq<PieceView>, attackers: seq<PieceView>, side: Side) {
    InCheckmate(s.cells, LegalOn(s.cells, s.record), defenders, attackers, GeneralPos(s.record, side))
  }

  /** In check exactly when the general stands on a point some opposing
      piece may legally move to. */
  lemma CheckedMeans(s: BoardState, attackers: seq<PieceView>, side: Side)
    ensures CheckedOn(s, attackers, side) <==>
      && GeneralPos(s.record, side).Some?
      && exists i :: 0 <= i < |attackers| && Legal(s.cells, s.record, attackers[i], GeneralPos(s.record, side).value)
  {
    InCheckMeans(s.cells, s.record, attackers, GeneralPos(s.record, side));
  }

  /** Checkmated exactly when in check and no defender has a legal move onto
      a point that blocks or captures every attack on the general. */
  lemma CheckmateOnMeans(s: BoardState, defenders: seq<PieceView>, attackers: seq<PieceView>, side: Side)
    requires DistinctPoints(defenders)
    ensures CheckmateOn(s, defenders, attackers, side) <==>
      && CheckedOn(s, attackers, side)
      && forall v, p :: v in defenders && v.pos.Some? && Legal(s.cells, s.record, v, p) ==>
           !AnswersAll(AttacksOnGeneral(s, attackers, side), p)
  {
    var legal := LegalOn(s.cells, s.record);
    CheckmateMeans(s.cells, legal, defenders, attackers, GeneralPos(s.record, side));
    assert forall v, p :: Attacking(legal, v, p) <==> v.pos.Some? && Legal(s.cells, s.record, v, p);
  }

  /** A player and its opponent on the same board, each valid, sharing no
      piece. */
  ghost predicate Opposed(mine: Player, theirs: Player)
    reads mine.board, mine.Objects(), theirs.Objects()
  {
    && mine.board == theirs.board && theirs.side == Opp(mine.side)
    && mine.Objects() !! theirs.Objects() && mine.Valid() && theirs.Valid()
  }

  /** Opposition holds both ways round. */
  lemma OpposedSym(mine: Player, theirs: Player)
    requires Opposed(mine, theirs)
    ensures Opposed(theirs, mine)
  {
  }

  /** Whatever stands on a point of the board belongs to one of the players. */
  lemma OccupantOwned(mine: Player, theirs: Player, p: Pos)
    requires Opposed(mine, theirs) && OnBoard(p)
    ensures mine.board.At(p) <= mine.Objects() + theirs.Objects()
  {
    if mine.board.PieceAt(p).Some? {
      assert mine.Owns() && theirs.Owns();
    }
  }

  /** The move `make_move` hands to the player of `side`: a piece of that side
      stands on `from` and may legally move to `to`. */
  predicate MayMove(b: Board, side: Side, from: Pos, to: Pos)
    reads b, b.At(from)
  {
    b.PieceAt(from).Some? && b.PieceAt(from).value.id.side == side &&
    Legal(b.Ids(), b.record, b.PieceAt(from).value.View(), to)
  }

  /** The opening of `is_in_check` and `is_in_checkmate`: `get_general_pos`,
      then the opponent's `get_attacks` on that point (none once the general
      has been captured). */
  method GeneralAttacks(mine: Player, theirs: Player) returns (attacks: seq<Attack>)
    requires Opposed(mine, theirs)
    modifies theirs.Objects()
    ensures Opposed(mine, theirs) && mine.Views() == old(mine.Views()) && theirs.Views() == old(theirs.Views())
    ensures attacks == AttacksOnGeneral(mine.board.State(), theirs.Views(), mine.side)
    ensures forall k :: 0 <= k < |attacks| ==> AttackOnBoard(attacks[k])
  {
    var generalPos := mine.GeneralPosition();
    if generalPos.None? {
      return [];
    }
    assert mine.Member(mine.general);
    attacks := theirs.GetAttacks(generalPos.value);
    theirs.ValidKept();
    AttacksOnBoard(mine.board.Ids(), LegalOn(mine.board.Ids(), mine.board.record), theirs.Views(), generalPos.value);
  }

  /** The body of `is_in_check`: some attack on the general. */
  method CheckTest(mine: Player, theirs: Player) returns (r: bool)
    requires Opposed(mine, theirs)
    modifies theirs.Objects()
    ensures Opposed(mine, theirs) && mine.Views() == old(mine.Views()) && theirs.Views() == old(theirs.Views())
    ensures r == CheckedOn(mine.board.State(), theirs.Views(), mine.side)
  {
    var attacks := GeneralAttacks(mine, theirs);
    r := |attacks| > 0;
  }

  /** The body of `is_in_checkmate`: attacked, and `defend_all_checks` finds
      no single move answering every attack. */
  method CheckmateTest(mine: Player, theirs: Player) returns (r: bool)
    requires Opposed(mine, theirs)
    modifies mine.Objects(), theirs.Objects()
    ensures Opposed(mine, theirs) && mine.Views() == old(mine.Views()) && theirs.Views() == old(theirs.Views())
    ensures r == CheckmateOn(mine.board.State(), mine.Views(), theirs.Views(), mine.side)
  {
    var attacks := GeneralAttacks(mine, theirs);
    r := false;
    if |attacks| > 0 {
      var defense := mine.DefendAllChecks(attacks);
      r := defense == {};
      mine.ValidKept();
    }
  }

  /** `turn_player.move(from_pos, to_pos)` inside `make_move`: the player
      attempts the move, and both players stay valid whatever the outcome. */
  method MoveBy(mine: Player, theirs: Player, from: Pos, to: Pos) returns (r: MoveResult)
    requires Opposed(mine, theirs) && OnBoard(from) && OnBoard(to) && from != to
    modifies mine.board, mine.Objects(), theirs.Objects()
    ensures Opposed(mine, theirs)
    ensures r.Rejected? <==> !old(MayMove(mine.board, mine.side, from, to))
    ensures r.Rejected? ==>
      && mine.board.cells == old(mine.board.cells) && mine.board.record == old(mine.board.record)
      && (forall i :: 0 <= i < |mine.pieces| ==> mine.pieces[i].View() == old(mine.pieces[i].View()))
      && (forall i :: 0 <= i < |theirs.pieces| ==> theirs.pieces[i].View() == old(theirs.pieces[i].View()))
    ensures !r.Rejected? ==>
      && mine.board.State() == MoveEffect(old(mine.board.State()), old(mine.board.PieceAt(from)).value.id, from, to).0
      && (forall i :: 0 <= i < |mine.pieces| ==> mine.pieces[i].View() == MovedView(old(mine.pieces[i].View()), from, to))
      && (forall i :: 0 <= i < |theirs.pieces| ==> theirs.pieces[i].View() == MovedView(old(theirs.pieces[i].View()), from, to))
  {
    OccupantOwned(mine, theirs, to);
    ghost var captive := mine.board.PieceAt(to);
    r := mine.Move(from, to);
    if r.Rejected? {
      theirs.ValidKept();
    } else {
      forall i | 0 <= i < |theirs.pieces| && Some(theirs.pieces[i]) != captive
        ensures theirs.pieces[i].View() == old(theirs.pieces[i].View())
      {
        assert theirs.pieces[i] !in mine.Objects();
      }
      theirs.OpponentMoveKeepsValid((from, to));
    }
  }

  /** The board and the two players of `XiangqiGame.__init__`: red's pieces
      are placed first, then black's, each on its own start points. */
  method SeatPlayers() returns (b: Board, rp: Player, bp: Player)
    ensures rp.side == Red && bp.side == Black && rp.board == b && Opposed(rp, bp)
    ensures fresh(b) && fresh(rp.Objects()) && fresh(bp.Objects())
    ensures forall side, i :: 0 <= i < 8 ==>
      b.PieceAt(Home(side)[i]).Some? && b.PieceAt(Home(side)[i]).value.View() == StartView(Roster(side)[i])
    ensures forall p :: p !in Home(Red) && p !in Home(Black) ==> b.PieceAt(p).None?
  {
    b := new Board();
    rp := new Player(Red, b);
    HomesApart();
    bp := SeatBlack(b, rp);
  }

  /** Black's half of `XiangqiGame.__init__`, once red's pieces stand on
      their start points of an otherwise empty board. */
  method SeatBlack(b: Board, rp: Player) returns (bp: Player)
    requires rp.side == Red && rp.board == b && rp.Valid() && |rp.pieces| == 8
    requires forall i :: 0 <= i < 8 ==> rp.pieces[i].View() == StartView(Roster(Red)[i])
    requires forall i :: 0 <= i < 8 ==> b.PieceAt(Home(Red)[i]) == Some(rp.pieces[i])
    requires forall p :: p !in Home(Red) ==> b.PieceAt(p).None?
    requires forall id :: id in b.record ==> id.side == Red
    requires forall i, j :: 0 <= i < 8 && 0 <= j < 8 ==> Home(Red)[i] != Home(Black)[j]
    modifies b
    ensures bp.side == Black && Opposed(rp, bp) && fresh(bp.Objects())
    ensures forall side, i :: 0 <= i < 8 ==>
      b.PieceAt(Home(side)[i]).Some? && b.PieceAt(Home(side)[i]).value.View() == StartView(Roster(side)[i])
    ensures forall p :: p !in Home(Red) && p !in Home(Black) ==> b.PieceAt(p).None?
  {
    bp := new Player(Black, b);
    forall p | OnBoard(p) && b.PieceAt(p) != old(b.PieceAt(p))
      ensures b.PieceAt(p).Some? && b.PieceAt(p).value.id.side != Red
    {
      var j :| 0 <= j < 8 && p == Home(Black)[j];
    }
    rp.OtherSidePlaced();
    forall side, i | 0 <= i < 8
      ensures b.PieceAt(Home(side)[i]).Some? && b.PieceAt(Home(side)[i]).value.View() == StartView(Roster(side)[i])
    {
      if side == Red {
        assert Home(Red)[i] !in Home(Black);
        assert b.PieceAt(Home(Red)[i]) == Some(rp.pieces[i]);
      } else {
        assert b.PieceAt(Home(Black)[i]) == Some(bp.pieces[i]);
      }
    }
  }

  class XiangqiGame {
    const board: Board
    /** `_red_player` and `_black_player`. */
    const red: Player
    const black: Player
    /** `_turn`: the side to move. */
    var turn: Side
    var state: GameState

    /** Each player sits on its own side. */
    predicate Seated() {
      red.side == Red && black.side == Black
    }

    /** `get_player`. */
    function GetPlayer(side: Side): (p: Player)
      requires Seated()
      ensures p.side == side && (p == red || p == black)
    {
      if side == Red then red else black
    }

    /** `get_opponent`: the player of the other side. */
    function GetOpponent(side: Side): (p: Player)
      requires Seated()
      ensures p.side == Opp(side) && p == GetPlayer(Opp(side)) && p != GetPlayer(side)
    {
      if side == Red then black else red
    }

    /** The pieces of both players. */
    function Objects(): set<Piece> {
      red.Objects() + black.Objects()
    }

    ghost predicate Valid()
      reads board, Objects()
    {
      Seated() && red.board == board && Opposed(red, black)
    }

    /** No piece belongs to both players. */
    lemma Disjoint()
      requires Valid()
      ensures red.Objects() !! black.Objects()
    {
      forall i, j | 0 <= i < |red.pieces| && 0 <= j < |black.pieces|
        ensures red.pieces[i] != black.pieces[j]
      {
        assert red.Member(red.pieces[i]) && black.Member(black.pieces[j]);
      }
    }

    /** `XiangqiGame.__init__`: a new board, red's pieces and then black's
        placed on their start points, red to move, the game unfinished. */
    constructor ()
      ensures Valid() && turn == Red && state == Unfinished
      ensures fresh(board) && fresh(Objects())
      ensures forall side, i :: 0 <= i < 8 ==>
        board.PieceAt(Home(side)[i]).Some? && board.PieceAt(Home(side)[i]).value.View() == StartView(Roster(side)[i])
      ensures forall p :: p !in Home(Red) && p !in Home(Black) ==> board.PieceAt(p).None?
    {
      var b, rp, bp := SeatPlayers();
      board := b;
      red := rp;
      black := bp;
      turn := Red;
      state := Unfinished;
    }

    /** `is_in_check(side)`. */
    method IsInCheck(side: Side) returns (r: bool)
      requires Valid()
      modifies Objects()
      ensures Valid() && red.Views() == old(red.Views()) && black.Views() == old(black.Views())
      ensures r == CheckedOn(board.State(), GetOpponent(side).Views(), side)
    {
      OpposedSym(red, black);
      r := CheckTest(GetPlayer(side), GetOpponent(side));
      OpposedSym(GetPlayer(side), GetOpponent(side));
    }

    /** `is_in_checkmate(side)`. */
    method IsInCheckmate(side: Side) returns (r: bool)
      requires Valid()
      modifies Objects()
      ensures Valid() && red.Views() == old(red.Views()) && black.Views() == old(black.Views())
      ensures r == old(CheckmateOn(board.State(), GetPlayer(side).Views(), GetOpponent(side).Views(), side))
    {
      OpposedSym(red, black);
      r := CheckmateTest(GetPlayer(side), GetOpponent(side));
      OpposedSym(GetPlayer(side), GetOpponent(side));
    }

    /** `update_game_state`: checkmate of the next side is tested before
        stalemate; either one records the side to move as the winner. */
    method UpdateGameState(nextHasMove: bool)
      requires Valid()
      modifies this`state, Objects()
      ensures Valid() && red.Views() == old(red.Views()) && black.Views() == old(black.Views())
      ensures state == Outcome(old(state), turn,
        old(CheckmateOn(board.State(), GetPlayer(Opp(turn)).Views(), GetOpponent(Opp(turn)).Views(), Opp(turn))), Stalemated(nextHasMove))
    {
      var nextTurn := Opp(turn);
      var mate := IsInCheckmate(nextTurn);
      if mate {
        SetState(Winner(turn));
        return;
      }
      if Stalemated(nextHasMove) {
        SetState(Winner(turn));
        return;
      }
    }

    /** The assignment to `_game_state`; no piece is touched. */
    method SetState(s: GameState)
      requires Valid()
      modifies this`state
      ensures state == s
      ensures Valid() && red.Views() == old(red.Views()) && black.Views() == old(black.Views())
    {
      state := s;
    }

    /** `update_turn`: the other side moves next. */
    method UpdateTurn()
      requires Valid()
      modifies this`turn
      ensures turn == Opp(old(turn))
      ensures Valid() && red.Views() == old(red.Views()) && black.Views() == old(black.Views())
    {
      turn := if turn == Red then Black else Red;
    }

    /** The part of `make_move` after the checks on the strings: the player
        to move attempts the move; on success the state is updated and the
        turn passes. */
    method Play(from: Pos, to: Pos, nextHasMove: bool) returns (ok: bool)
      requires Valid() && OnBoard(from) && OnBoard(to) && from != to
      modifies this, board, Objects()
      ensures Valid()
      ensures ok <==> old(MayMove(board, turn, from, to))
      ensures !ok ==>
        && turn == old(turn) && state == old(state)
        && board.cells == old(board.cells) && board.record == old(board.record)
        && red.Views() == old(red.Views()) && black.Views() == old(black.Views())
      ensures ok ==>
        && turn == Opp(old(turn))
        && board.State() == MoveEffect(old(board.State()), old(board.PieceAt(from)).value.id, from, to).0
        && (forall i :: 0 <= i < |red.pieces| ==> red.pieces[i].View() == MovedView(old(red.pieces[i].View()), from, to))
        && (forall i :: 0 <= i < |black.pieces| ==> black.pieces[i].View() == MovedView(old(black.pieces[i].View()), from, to))
        && state == Outcome(old(state), old(turn),
             CheckmateOn(board.State(), GetPlayer(turn).Views(), GetOpponent(turn).Views(), turn), Stalemated(nextHasMove))
    {
      ok := Attempt(from, to);
      if ok {
        Conclude(nextHasMove);
      }
    }

    /** `turn_player.move(from_pos, to_pos)` for the player to move. */
    method Attempt(from: Pos, to: Pos) returns (ok: bool)
      requires Valid() && OnBoard(from) && OnBoard(to) && from != to
      modifies board, Objects()
      ensures Valid()
      ensures ok <==> old(MayMove(board, turn, from, to))
      ensures !ok ==>
        && board.cells == old(board.cells) && board.record == old(board.record)
        && red.Views() == old(red.Views()) && black.Views() == old(black.Views())
      ensures ok ==>
        && board.State() == MoveEffect(old(board.State()), old(board.PieceAt(from)).value.id, from, to).0
        && (forall i :: 0 <= i < |red.pieces| ==> red.pieces[i].View() == MovedView(old(red.pieces[i].View()), from, to))
        && (forall i :: 0 <= i < |black.pieces| ==> black.pieces[i].View() == MovedView(old(black.pieces[i].View()), from, to))
    {
      OpposedSym(red, black);
      var r := MoveBy(GetPlayer(turn), GetOpponent(turn), from, to);
      OpposedSym(GetPlayer(turn), GetOpponent(turn));
      ok := !r.Rejected?;
      if !ok {
        red.ViewsKept();
        black.ViewsKept();
      }
    }

    /** The end of a successful `make_move`: `update_game_state`, then
        `update_turn`. */
    method Conclude(nextHasMove: bool)
      requires Valid()
      modifies this, Objects()
      ensures Valid() && turn == Opp(old(turn)) && board.State() == old(board.State())
      ensures red.Views() == old(red.Views()) && black.Views() == old(black.Views())
      ensures state == Outcome(old(state), old(turn),
        CheckmateOn(board.State(), GetPlayer(turn).Views(), GetOpponent(turn).Views(), turn), Stalemated(nextHasMove))
    {
      UpdateGameState(nextHasMove);
      UpdateTurn();
    }

    /** `make_move(from_pos, to_pos)`: refused once the game is over, for a
        move that names one square twice, and for a square off the board;
        otherwise the move of the player to move. Whether the next side has
        an available move is `nextHasMove`. */
    method MakeMove(fromPos: string, toPos: string, nextHasMove: bool) returns (ok: bool)
      requires Valid()
      modifies this, board, Objects()
      ensures Valid()
      ensures ok <==>
        && old(state) == Unfinished && fromPos != toPos && !OutOfRange(fromPos) && !OutOfRange(toPos)
        && old(MayMove(board, turn, ParsePos(fromPos).value, ParsePos(toPos).value))
      ensures !ok ==>
        && turn == old(turn) && state == old(state)
        && board.cells == old(board.cells) && board.record == old(board.record)
        && red.Views() == old(red.Views()) && black.Views() == old(black.Views())
      ensures ok ==>
        var (from, to) := (ParsePos(fromPos).value, ParsePos(toPos).value);
        && turn == Opp(old(turn))
        && board.State() == MoveEffect(old(board.State()), old(board.PieceAt(from)).value.id, from, to).0
        && (forall i :: 0 <= i < |red.pieces| ==> red.pieces[i].View() == MovedView(old(red.pieces[i].View()), from, to))
        && (forall i :: 0 <= i < |black.pieces| ==> black.pieces[i].View() == MovedView(old(black.pieces[i].View()), from, to))
        && state == Outcome(Unfinished, old(turn),
             CheckmateOn(board.State(), GetPlayer(turn).Views(), GetOpponent(turn).Views(), turn), Stalemated(nextHasMove))
    {
      if state != Unfinished {
        return false;
      }
      if fromPos == toPos {
        return false;
      }
      if OutOfRange(fromPos) || OutOfRange(toPos) {
        return false;
      }
      var from, to := ParsePos(fromPos).value, ParsePos(toPos).value;
      StringParsePos(fromPos);
      StringParsePos(toPos);
      ok := Play(from, to, nextHasMove);
    }
  }

  /** On the start position, red's chariot on a1 may step to a2. */
  lemma OpeningChariotMay(b: Board)
    requires forall side, i :: 0 <= i < 8 ==>
      b.PieceAt(Home(side)[i]).Some? && b.PieceAt(Home(side)[i]).value.View() == StartView(Roster(side)[i])
    requires forall p :: p !in Home(Red) && p !in Home(Black) ==> b.PieceAt(p).None?
    ensures MayMove(b, Red, Pos(0, 0), Pos(1, 0))
  {
    var from, to := Pos(0, 0), Pos(1, 0);
    assert Home(Red)[1] == from;
    assert to !in Home(Red) && to !in Home(Black);
    var v := b.PieceAt(from).value.View();
    assert v == StartView(Roster(Red)[1]);
    RuleFacts.ChariotRule(b.Ids(), b.record, v, from, to);
  }

  /** A new game, then red's first move a1→a2 (the chariot on a1 steps one
      point up its file): the move is accepted and black is to move. */
  method OpeningMove() returns (ok: bool, next: Side)
    ensures ok && next == Black
  {
    var g := new XiangqiGame();
    OpeningChariotMay(g.board);
    ParsePosString(Pos(0, 0));
    ParsePosString(Pos(1, 0));
    ok := g.MakeMove(PosString(Pos(0, 0)), PosString(Pos(1, 0)), true);
    next := g.turn;
  }
}
