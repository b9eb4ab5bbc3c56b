# Xiangqi move legality, modelled in Dafny

This project models the engine of a Python Xiangqi (Chinese chess) game. The
engine is made of three parts:

- the `Board` in `XiangqiGame.py`, a 10 × 9 grid of piece objects plus a
  record of each piece's point;
- the `Piece` class in `Piece.py` and its seven per-kind subclasses, which
  decide whether a move is legal and carry it out or undo it;
- the `Player` in `Player.py` and the `XiangqiGame` controller in
  `XiangqiGame_single_module.py`, which find checks, defences and
  checkmate, take turns and record the winner.

Points are written as in the game, `<file letter><rank number>` (`"e1"` …
`"i10"`), and are held as 0-based `Pos(rank, file)` values.

The model has two layers.

- **Value layer** (`Positions`, `Kinds`, `Paths`, `Rules`, `RuleFacts`,
  `Moves`, `Checks`). These modules define the same computations as pure
  functions over a grid of piece identities. Examples are `Paths.OrthoPath`
  for `get_ortho_path`, `Rules.Legal` for the `is_legal` chain of every
  kind, `Moves.MoveEffect` for the board update of `Piece.move`, and
  `Checks.DefendAll` for `defend_all_checks`. The lemmas about them state
  what the game promises:
  - every kind's movement rule, as an if-and-only-if;
  - the flying-general capture;
  - that undoing a move restores the board;
  - that the two board representations stay consistent;
  - that the defences computed are exactly the legal blocks and captures;
  - that checkmate means "in check and no single move answers every
    attack".
- **Object layer** (`Engine`, `Players`, `Game`). These modules hold the
  source's own classes: `Board`, `Piece`, `Player` and `XiangqiGame`.
  Their fields are updated in place by methods with `modifies` clauses, and
  their loops are the source's loops, with invariants. Every method is
  proved against the value layer: its result, or its new state, is the
  value-level function of the old state. For example,
  `Player.DefendAllChecks` returns `DefendAll`. An accepted move leaves the
  board in the state `MoveEffect` gives, and every piece of both players
  with the fields `Engine.MovedView` gives: the mover stands on its new
  point with its river flag updated, the captive has no point, and every
  other piece is unchanged. In the model, `XiangqiGame.MakeMove` succeeds
  exactly when the game is unfinished, both points name board points, they
  differ and the mover's piece may legally go there by the piece-level
  rules. The game as shipped also screens out moves that leave the mover's
  own general in check. That screening runs in code that is not part of
  this model (see "Left out"), so this is a piece-level acceptance, not
  the whole game's.

Pieces are identified by `PieceId(side, kind, number)`. This is the model's
form of the unique label that `__repr__` gives each piece, and
`Kinds.LabelInjective` proves those labels distinct. The board record is a
`map<PieceId, Option<Pos>>`, the source's `_piece_state` dictionary.

## Model

| member | source | states |
|---|---|---|
| Positions.Opp | Piece.py:12-15 | the opposing side differs from the side |
| Positions.IndexOf | XiangqiGame.py:91 | the index found holds the sought value and is its first occurrence |
| Positions.ParsePos | XiangqiGame_single_module.py:141-144 | a point string names a point exactly when `out_of_range` is false, and the point it names is on the board |
| Positions.ParsePosString | XiangqiGame.py:88-98 | reading back the string of any board point gives that point (`get_loc_from_pos` after `get_pos_from_loc`) |
| Positions.StringParsePos | XiangqiGame.py:88-98 | every in-range string is the string of the point it names, so `get_loc_from_pos` loses nothing |
| Positions.CastleShape | XiangqiGame.py:22-25 | a castle is files d–f, ranks 1–3 for red and 8–10 for black |
| Positions.OutOfRange | XiangqiGame_single_module.py:141-145 | defines `out_of_range`: a string is in range when its first character is a file letter a–i and the rest is a rank "1"–"10"; its meaning is stated by Positions.ParsePos |
| Positions.Castle | XiangqiGame.py:22-39 | defines the castle sets of `get_castle_spots`; Positions.CastleShape states which points they hold |
| Positions.RiverRank | SoldierPiece.py:67-72 | defines the rank a soldier reaches on crossing: "6" for red and "5" for black; used by Moves.CrossedAfter |
| Positions.PosString | XiangqiGame.py:94-98 | defines `get_pos_from_loc`: the file letter, then the 1-based rank; Positions.ParsePosString and Positions.StringParsePos state that it inverts `get_loc_from_pos` |
| Kinds.MovementOf | ChariotPiece.py:16 | defines the `_movement` setting of each of the seven kinds (also GeneralPiece.py:12, AdvisorPiece.py:17, ElephantPiece.py:22, HorsePiece.py:14, CannonPiece.py:16, SoldierPiece.py:17); RuleFacts.HorseOnlyLeaps and RuleFacts.CannonNoDiagonal state what it implies |
| Kinds.DefaultPathLength | HorsePiece.py:15 | defines the `_path_length` setting of each kind, `None` where the constructor leaves it unset (also GeneralPiece.py:13, AdvisorPiece.py:18, ElephantPiece.py:23, SoldierPiece.py:18); the kinds' rules in RuleFacts state its effect |
| Kinds.Label | GeneralPiece.py:16-19 | defines `__repr__`: side letter, two-letter kind tag and, except for the general, the piece number; Kinds.LabelInjective states that labels are unique |
| Kinds.StartPos | ChariotPiece.py:7-10 | every piece's start point (the `*_positions` tables of all seven kinds) is on the board |
| Kinds.StartPosInjective | SoldierPiece.py:8-11 | no two pieces share a start point |
| Kinds.StartPosHomeHalf | ElephantPiece.py:13-16 | every piece starts on its own side of the river |
| Kinds.LabelInjective | ChariotPiece.py:22-25 | the `__repr__` labels, which key the board record, are unique per piece |
| Paths.EmptyGrid | XiangqiGame.py:27-30 | the new grid has 10 ranks of 9 files and every point is empty |
| Paths.SetCell | XiangqiGame.py:73 | writing a cell changes that point's occupant and no other |
| Paths.LCandidates | XiangqiGame.py:120-126 | the candidates are exactly the board points orthogonally next to the source |
| Paths.LastMatch | XiangqiGame.py:133-138 | the chosen candidate continues diagonally to the destination, and none is chosen only when no candidate does |
| Paths.LPathLoopAgrees | XiangqiGame.py:109-147 | the looped search of `get_L_path` gives the same path as the direct horse-leap definition |
| Paths.OrthoPathEmpty | XiangqiGame.py:186-196 | the orthogonal path is empty exactly when the points share no line or coincide |
| Paths.OrthoPathShape | XiangqiGame.py:186-225 | an orthogonal path lists every point after the source in travel order with its occupant, one per unit of distance, ending at the destination |
| Paths.OrthoPathOnBoard | XiangqiGame.py:186-225 | every point of an orthogonal path between board points is on the board |
| Paths.DiagonalPathEmpty | XiangqiGame.py:156-162 | the diagonal path is empty exactly when the points are not on one diagonal |
| Paths.DiagonalPathShape | XiangqiGame.py:149-184 | a diagonal path steps one rank and one file at a time to the destination, with occupants |
| Paths.DiagonalPathOnBoard | XiangqiGame.py:149-184 | every point of a diagonal path between board points is on the board |
| Paths.LPathShape | XiangqiGame.py:109-147 | an L path is empty or is [orthogonal neighbour, destination], with the diagonal step continuing outward |
| Paths.OrthoPath | XiangqiGame.py:186-225 | defines `get_ortho_path`; Paths.OrthoPathEmpty, Paths.OrthoPathShape and Engine.Board.GetOrthoPath state what it is |
| Paths.DiagonalPath | XiangqiGame.py:149-184 | defines `get_diagonal_path`; Paths.DiagonalPathEmpty, Paths.DiagonalPathShape and Engine.Board.GetDiagonalPath state what it is |
| Paths.LPath | XiangqiGame.py:109-147 | defines the horse leap path of `get_L_path`; Paths.LPathShape and Paths.LPathLoopAgrees state what it is |
| Paths.PatternsExclusive | Piece.py:17-32 | no pair of points has paths under two movement patterns, so `get_path`'s order of tries does not matter |
| Paths.AvailableInFileExact | XiangqiGame.py:240-243 | the inner loop collects exactly the points of one file that are empty or hold a foe |
| Paths.AvailableUpToExact | XiangqiGame.py:239-243 | the outer loop collects exactly the points of the first files that are empty or hold a foe |
| Paths.AvailablePositions | XiangqiGame.py:235-244 | the available positions are exactly the board points that are empty or hold a foe |
| Rules.OccupiedCount | Piece.py:34-40 | the jump count is the number of occupied points on the path |
| Rules.Legal | Piece.py:55-67 | a legal move leaves the piece's point, lands on no friend and has a path under the piece's pattern |
| Rules.GeneralPos | XiangqiGame.py:105-107 | defines `get_general_pos` as the record entry of the side's general; Engine.Board.GeneralAt and Players.Player.GeneralPosition return it |
| Rules.GetPath | Piece.py:17-32 | defines `get_path` as the path under the piece's movement pattern; Paths.PatternsExclusive and Checks.GetPathEnds state its properties |
| Rules.JumpCount | Piece.py:34-40 | defines `num_jumps`; Rules.OccupiedCount and RuleFacts.OrthoJumps state what it counts |
| Rules.BaseLegal | Piece.py:50-77 | defines the base checks of `Piece.is_legal` in the source's order; Engine.Piece.BaseIsLegal is proved to decide it |
| Rules.FlyingGeneral | GeneralPiece.py:48-55 | defines `is_flying_general`; RuleFacts.FlyingGeneralOnly and RuleFacts.FlyingGeneralCapture state its meaning |
| Rules.GeneralLegal | GeneralPiece.py:21-46 | defines the general's `is_legal`; RuleFacts.GeneralRule and RuleFacts.GeneralStaysInCastle state its meaning |
| Rules.AdvisorLegal | AdvisorPiece.py:29-38 | defines the advisor's `is_legal`; RuleFacts.AdvisorRule states its meaning |
| Rules.ElephantLegal | ElephantPiece.py:13-16 | defines the elephant's `is_legal` with its own-half rank sets; RuleFacts.ElephantRule states its meaning |
| Rules.CannonLegal | CannonPiece.py:27-38 | defines the cannon's `is_legal`; RuleFacts.CannonRule states its meaning |
| Rules.SoldierLegal | SoldierPiece.py:31-58 | defines the soldier's `is_legal`; RuleFacts.SoldierRule and RuleFacts.SoldierForward state its meaning |
| RuleFacts.OrthoJumps | Piece.py:34-40 | the jumps on an orthogonal path are the occupied points strictly between the ends |
| RuleFacts.ShortJumps | Piece.py:34-40 | a path of one step jumps nothing, and a path of two steps jumps its first point when occupied |
| RuleFacts.ChariotRule | ChariotPiece.py:16 | a chariot moves along a rank or file with nothing between, onto a point without a friend, and nowhere else |
| RuleFacts.CannonRule | CannonPiece.py:27-38 | a cannon moves to an empty point with nothing between, or captures a foe over exactly one piece, and nothing else |
| RuleFacts.CannonNoDiagonal | CannonPiece.py:16 | a cannon never moves off its rank and file |
| RuleFacts.SoldierRule | SoldierPiece.py:31-58 | a soldier takes one orthogonal step, never backward, and sideways only once it has crossed the river, onto a point without a friend |
| RuleFacts.SoldierForward | SoldierPiece.py:44-50 | a soldier never moves toward its own side |
| RuleFacts.AdvisorRule | AdvisorPiece.py:29-38 | an advisor takes one diagonal step inside its castle onto a point without a friend, and nothing else |
| RuleFacts.ElephantRule | ElephantPiece.py:34-37 | an elephant takes one or two diagonal steps on its own side of the river, not over an occupied midpoint, onto a point without a friend |
| RuleFacts.HorseRule | HorsePiece.py:14-15 | a horse makes a horse leap with the orthogonal point next to it empty, onto a point without a friend |
| RuleFacts.HorseOnlyLeaps | HorsePiece.py:14 | a horse never moves along a line or a diagonal |
| RuleFacts.GeneralRule | GeneralPiece.py:21-46 | without a flying capture, a general takes one orthogonal step inside its castle onto a point without a friend |
| RuleFacts.FlyingGeneralCapture | GeneralPiece.py:26-35 | a general facing the other general on a clear file may capture it at any distance |
| RuleFacts.FlyingGeneralOnly | GeneralPiece.py:48-55 | `is_flying_general` holds only for the other general's point, on the same file, with nothing between |
| RuleFacts.GeneralStaysInCastle | GeneralPiece.py:40-42 | apart from a flying capture, a general's legal point is in its castle |
| RuleFacts.GeneralWithinBase | GeneralPiece.py:33-35 | the general's rule only narrows the base rule, whichever length limit is in force |
| Moves.MoveEffect | Piece.py:98-110 | the piece returned as captive is the previous occupant of the destination |
| Moves.MoveEffectFacts | Piece.py:98-110 | after a move the source is empty, the mover is at the destination in both cells and record, the captive is off the record and every other point and piece is unchanged |
| Moves.Place | XiangqiGame.py:68-75 | the cell holds the piece and the record maps the piece to the point; no other cell or record entry changes |
| Moves.ClearPos | XiangqiGame.py:83-86 | the cell is emptied; no other cell and no record entry changes |
| Moves.ClearPiece | XiangqiGame.py:77-81 | the piece's record entry becomes None; the grid and every other record entry are unchanged |
| Moves.ReverseEffect | Piece.py:112-132 | defines the board after `reverse_move`; Moves.MoveThenReverse states that it undoes `MoveEffect` |
| Moves.MovePreservesConsistency | XiangqiGame.py:11-17 | a move keeps the grid and the record describing the same placement |
| Moves.PlacePreservesConsistency | Player.py:28-30 | placing a new piece on an empty point keeps grid and record consistent |
| Moves.MoveThenReverse | Piece.py:112-132 | `reverse_move` after `move` restores the board exactly, captive included |
| Moves.PossibleMovesExact | Piece.py:134-148 | the possible moves of a piece are exactly its legal moves to board points; the available-positions prefilter loses none |
| Moves.PossibleMoves | Piece.py:134-148 | defines `get_possible_moves` as a set of legal moves from the piece's point; Moves.PossibleMovesExact and Checks.PossibleMovesSwept state its meaning |
| Moves.CrossedAfter | SoldierPiece.py:62-73 | corrected river flag: it never resets, a successful move onto the river rank sets it, it is set only by reaching that rank, and a refused move leaves it alone |
| Moves.CrossedAfterAsWritten | SoldierPiece.py:62-73 | river flag as written: it agrees with the corrected flag after a successful move, and after a refused move onto the river rank it is set where the corrected flag stays clear |
| Checks.AttacksExact | Player.py:94-103 | the attack list is empty exactly when no piece attacks the point, and holds exactly the (piece, path) pair of each attacking piece |
| Checks.Attacks | Player.py:94-103 | defines `get_attacks`; it has at most one entry per piece, and Checks.AttacksExact states which |
| Checks.GetPathEnds | Piece.py:17-32 | a non-empty path ends at its destination |
| Checks.AttackPathEnds | Player.py:99-102 | every attack's path is non-empty and ends on the attacked point |
| Checks.AsWrittenWithin | Player.py:40-45 | the defences as written are among the corrected defences |
| Checks.DefenseMovesAsWritten | Player.py:32-45 | defines the block-and-capture moves of `get_defense_moves` as written, onto the attack path only; Checks.AsWrittenWithin and Scenarios.CaptureMissed state how it falls short |
| Checks.DefenseMoves | Player.py:32-45 | defines the corrected defences, onto the attack path or the attacker's point; Checks.CaptureDefends, Checks.DefenseMoveLegal and Checks.SweepIsDefenseMoves state its meaning |
| Checks.CaptureDefends | Player.py:40-41 | capturing the attacker with a legal move is a defence against that attack |
| Checks.DefenseMoveLegal | Player.py:42-45 | every defence is a legal move of a defending piece onto the attack path or the attacker |
| Checks.MovesOntoExact | Piece.py:143-145 | a piece's sweep over target points yields exactly its legal moves onto them |
| Checks.PossibleMovesSwept | Piece.py:134-148 | the loop of `get_possible_moves` over available positions yields the possible moves |
| Checks.DefenseSweepExact | Player.py:42-45 | the double loop yields exactly the legal moves of some defender onto some target |
| Checks.SweepIsDefenseMoves | Player.py:42-45 | sweeping the path points and the attacker's point gives the defence moves |
| Checks.AttacksOnBoard | Player.py:94-103 | every attack stands on the board: attacker, path and target |
| Checks.DefendAllExact | Player.py:59-74 | a move defends all checks exactly when it defends each one |
| Checks.DefendAll | Player.py:59-74 | defines `defend_all_checks` as the intersection of each attack's defences; Checks.DefendAllExact, Checks.AnswerDefendsAll and Checks.DefendAllAnswers state its meaning |
| Checks.InCheckMeans | XiangqiGame_single_module.py:31-41 | a side is in check exactly when its general is on the board and some opposing piece may legally move onto it |
| Checks.InCheck | XiangqiGame_single_module.py:31-41 | defines `is_in_check`; Checks.InCheckMeans states its meaning |
| Checks.InCheckmate | XiangqiGame_single_module.py:51-63 | defines `is_in_checkmate` over piece-level defences, without self-check screening; Checks.CheckmateMeans states its meaning |
| Checks.AnswerDefendsAll | Player.py:59-74 | a defender's legal move onto a point that answers every attack is among the common defences |
| Checks.DefendAllAnswers | Player.py:59-74 | every common defence is a defender's legal move onto a point that answers every attack |
| Checks.CheckmateMeans | XiangqiGame_single_module.py:51-63 | checkmate is being in check with no defender's legal move answering every attack |
| Engine.Board.constructor | XiangqiGame.py:10-32 | a new board has every point empty and an empty record |
| Engine.Board.PieceAt | XiangqiGame.py:100-103 | the piece returned is the occupant of the point |
| Engine.Board.GeneralAt | XiangqiGame.py:105-107 | the general's point is the one the record holds for that side's general |
| Engine.Board.PlacePiece | XiangqiGame.py:68-75 | the point now holds the piece, the record maps the piece to the point, nothing else changes |
| Engine.Board.ClearPos | XiangqiGame.py:83-86 | the point is emptied, the record untouched |
| Engine.Board.ClearPiece | XiangqiGame.py:77-81 | the piece's record entry becomes None and the grid is untouched |
| Engine.Board.GetOrthoPath | XiangqiGame.py:186-225 | the loop builds exactly the orthogonal path |
| Engine.Board.GetDiagonalPath | XiangqiGame.py:149-184 | the loop builds exactly the diagonal path |
| Engine.Board.GetLPath | XiangqiGame.py:109-147 | the candidate search builds exactly the L path |
| Engine.Board.GetAvailablePositions | XiangqiGame.py:235-244 | the double loop returns exactly the available positions in file-major order |
| Engine.AfterQuery | GeneralPiece.py:33-46 | a legality query restores a general's length limit to 1 and a cannon's jump allowance to 0, and changes nothing else |
| Engine.FlagAfter | SoldierPiece.py:62-73 | a soldier's river flag after a move attempt is the corrected `CrossedAfter`; other kinds keep their flag |
| Engine.MovedView | Piece.py:79-110 | defines a piece's fields after an accepted move: the mover on its new point with its river flag updated, the captive with no point, and every other piece unchanged |
| Engine.MovedViewSynced | Piece.py:98-110 | a piece that agrees with the board record before a move agrees with the record `MoveEffect` leaves after it, once its fields are updated by `MovedView`; only the mover's flag can change |
| Engine.Piece.constructor | Piece.py:4-15 | a new piece stands on its start point, uncrossed and at rest: its kind's length limit and no jump allowance |
| Engine.Piece.GetPath | Piece.py:17-32 | the path returned is the one for the piece's movement pattern |
| Engine.Piece.NumJumps | Piece.py:34-40 | the loop counts the occupied points before the last step |
| Engine.Piece.BaseIsLegal | Piece.py:50-77 | the base checks decide exactly the base legality predicate |
| Engine.Piece.IsFlyingGeneral | GeneralPiece.py:48-55 | the method decides exactly the flying-general condition |
| Engine.Piece.GeneralIsLegal | GeneralPiece.py:21-46 | the general's check decides general legality and leaves the length limit at 1 |
| Engine.Piece.CannonIsLegal | CannonPiece.py:27-38 | the cannon's check decides cannon legality and leaves the jump allowance at 0 |
| Engine.Piece.SoldierIsLegal | SoldierPiece.py:31-58 | the soldier's check decides soldier legality |
| Engine.Piece.AdvisorIsLegal | AdvisorPiece.py:29-38 | the advisor's check decides advisor legality |
| Engine.Piece.ElephantIsLegal | ElephantPiece.py:34-37 | the elephant's check decides elephant legality |
| Engine.Piece.IsLegal | Piece.py:50-77 | the subclass dispatch decides `Legal` and leaves the piece at rest |
| Engine.Piece.LegalMovesTo | Piece.py:143-145 | the loop collects exactly the legal moves onto the given points |
| Engine.Piece.BaseMove | Piece.py:79-110 | an illegal move changes nothing; a legal one performs `MoveEffect`, returns the captive or plain success and takes the captive off the board |
| Engine.Piece.Move | SoldierPiece.py:62-73 | as `BaseMove`, and a soldier's river flag follows the corrected rule |
| Engine.Piece.ReverseMove | Piece.py:112-132 | the captive returns to the destination and the piece to its source, as `ReverseEffect` |
| Engine.Piece.GetPossibleMoves | Piece.py:134-148 | the method returns exactly `PossibleMoves` |
| Players.Roster | Player.py:14-26 | a player's roster is its general first, two chariots and five soldiers, all of its side and distinct |
| Players.StartPointsDistinct | Player.py:28-30 | the roster's start points are pairwise distinct |
| Players.HomesApart | XiangqiGame_single_module.py:11-12 | no red start point is a black start point |
| Players.NewPieces | Player.py:14-26 | the new pieces are fresh, one per roster entry, each at rest on its start point |
| Players.PlaceAll | Player.py:28-30 | every piece is placed on its start point and nothing else on the board changes |
| Players.AttackOf | Player.py:99-102 | a piece reports an attack exactly when it may legally move onto the target, with its path |
| Players.Player.constructor | Player.py:7-30 | a new player owns its eight fresh pieces, each standing at its start point on the board |
| Players.Player.GeneralPosition | Player.py:80-82 | the position returned is the general's recorded point |
| Players.Player.Move | Player.py:84-92 | a move from an empty point or a foe's piece is refused with no change; for an own piece it succeeds exactly when legal, performs `MoveEffect`, returns the captive, moves the piece with its river flag updated, and leaves the player's other pieces unchanged |
| Players.Player.Located | Player.py:84-86 | every piece of the player that stands on a point is the board's occupant of that point |
| Players.Player.ViewsMoved | Player.py:84-92 | after an accepted move of the player's own piece, each of the player's pieces has the fields `MovedView` gives |
| Players.Player.MoveKeepsValid | Player.py:84-92 | an accepted move of the player's own piece keeps the player's invariant: pieces on their recorded points, every own piece on the board owned |
| Players.Player.OpponentMoveKeepsValid | Player.py:84-92 | an accepted move of the other side keeps this player's invariant, and each of this player's pieces has the fields `MovedView` gives |
| Players.Player.OpponentViewsMoved | Piece.py:98-110 | after an accepted move of the other side, only this player's piece on the destination changes, and it loses its point |
| Players.Player.GetAttacks | Player.py:94-103 | the loop returns exactly `Attacks` over the player's pieces |
| Players.Player.GetDefenseMoves | Player.py:32-45 | the loop returns exactly the corrected `DefenseMoves` |
| Players.Player.DefendAllChecks | Player.py:59-74 | the loop returns exactly `DefendAll`, the intersection over all attacks |
| Game.Winner | XiangqiGame_single_module.py:118-121 | red's win when red moved last, black's otherwise, and never "unfinished" |
| Game.Outcome | XiangqiGame_single_module.py:106-132 | checkmate or stalemate of the next side gives the mover the win; otherwise the state is unchanged |
| Game.CheckedMeans | XiangqiGame_single_module.py:31-41 | a side is in check exactly when its general stands where an opposing piece may legally move |
| Game.Stalemated | XiangqiGame_single_module.py:43-49 | defines `is_in_stalemate` as having no available move, which the caller supplies |
| Game.MayMove | Player.py:84-92 | defines the move `Player.move` accepts: a piece of the player's side on the source point that may legally go to the destination; Game.MoveBy states that moves succeed exactly then |
| Game.CheckmateOnMeans | XiangqiGame_single_module.py:51-63 | checkmate is check with no defender's legal move onto a point answering every attack |
| Game.GeneralAttacks | XiangqiGame_single_module.py:34-39 | the attacks on the general, and none once the general has been captured |
| Game.CheckTest | XiangqiGame_single_module.py:31-41 | the test answers exactly the in-check predicate |
| Game.CheckmateTest | XiangqiGame_single_module.py:51-63 | the test answers exactly the checkmate predicate |
| Game.MoveBy | XiangqiGame_single_module.py:88-92 | the move succeeds exactly when the mover owns the piece and it may legally move by the piece rules (no self-check screening), and then performs `MoveEffect` and gives every piece of both players the fields `MovedView` gives; otherwise nothing changes |
| Game.SeatPlayers | XiangqiGame_single_module.py:10-12 | the board and both players' pieces are new; both players' pieces stand on their start points and every other point is empty |
| Game.SeatBlack | XiangqiGame_single_module.py:12 | seating black creates new pieces, leaves red's pieces in place and fills black's start points |
| Game.XiangqiGame.GetPlayer | XiangqiGame_single_module.py:20-25 | the player returned plays the given side |
| Game.XiangqiGame.GetOpponent | XiangqiGame_single_module.py:99-104 | the opponent plays the other side and is not the side's own player |
| Game.XiangqiGame.Disjoint | XiangqiGame_single_module.py:11-12 | the two players share no piece |
| Game.XiangqiGame.constructor | XiangqiGame_single_module.py:9-14 | a new game is unfinished, red to move, with every piece on its start point; its board and pieces are new, so the caller may go on to play on them |
| Game.XiangqiGame.IsInCheck | XiangqiGame_single_module.py:31-41 | the answer is the in-check predicate of the current board |
| Game.XiangqiGame.IsInCheckmate | XiangqiGame_single_module.py:51-63 | the answer is the checkmate predicate of the current board |
| Game.XiangqiGame.UpdateGameState | XiangqiGame_single_module.py:106-132 | the new state is `Outcome` of the next side's checkmate and stalemate |
| Game.XiangqiGame.UpdateTurn | XiangqiGame_single_module.py:134-139 | the turn passes to the other side |
| Game.XiangqiGame.Attempt | XiangqiGame_single_module.py:88-92 | the move goes ahead exactly when the mover owns the piece and the move is legal by the piece rules; it then performs `MoveEffect` and updates every piece as `MovedView` says, and otherwise changes nothing |
| Game.XiangqiGame.Conclude | XiangqiGame_single_module.py:94-97 | the game state becomes `Outcome` of the next side's checkmate and stalemate and the turn flips, while the board and every piece stay as they are |
| Game.XiangqiGame.Play | XiangqiGame_single_module.py:87-97 | a refused move changes nothing; an accepted one performs `MoveEffect`, updates every piece as `MovedView` says, flips the turn and records the outcome on the resulting position |
| Game.XiangqiGame.MakeMove | XiangqiGame_single_module.py:65-97 | a move succeeds exactly when the game is unfinished, the points differ and are in range and the mover may legally move by the piece rules (self-check screening is not modelled); an accepted move then performs `MoveEffect`, updates every piece as `MovedView` says, flips the turn and records the outcome |
| Game.OpeningChariotMay | XiangqiGame_single_module.py:9-14 | on the start position, red's chariot on a1 may step to a2 |
| Game.OpeningMove | XiangqiGame_single_module.py:9-97 | a new game (lines 9-14) followed by `make_move("a1", "a2")`: the move is accepted and black is to move |
| Scenarios.SoldierFlagAfterFailedMove | SoldierPiece.py:62-73 | the refused move e4→e6 sets the flag as written, which then lets the soldier step sideways to d4; the corrected flag does not |
| Scenarios.CaptureMissed | Player.py:37-45 | the red chariot on e9 checks the black general on e10; as written, no black piece has a defence, while the corrected defences contain the general's capture e10→e9 |
| Scenarios.ChariotChecks | Player.py:94-103 | the chariot on e9 attacks e10, and its attack path is e10 alone |
| Scenarios.AttackMissesAttacker | Player.py:42-45 | in that position the as-written defence set is empty for every list of black defenders |
| Scenarios.GeneralCaptures | GeneralPiece.py:21-46 | the general on e10 may capture the chariot on e9 |

## Left out

- Printing: `display_board` and the `print` calls in `update_game_state`.
- `play_game.py` is not part of this model. It is an interactive loop.
- `Board.py` is not part of this model. It is an older board class that
  lists the file `d` twice; the board class of `XiangqiGame.py` is the one
  modelled.
- `game_test.py` is not replayed. Its flying-general case is covered in
  general by `RuleFacts.FlyingGeneralCapture`, and its checkmate scenario is
  not stated as a concrete position.
- The screen-piece loop of `get_defense_moves` (Player.py:50-54) is left
  out. It compares against an undefined name, adds a bound method as a
  point, and calls `add` on a dictionary literal, so it cannot yield a
  move. The model's defences are the block-and-capture moves only, and a
  set stands for the `{}` literal.
- Player.py creates only the general, two chariots and five soldiers. The
  model's roster follows that code: the advisor, elephant, horse and cannon
  rules are modelled and proved, but no player owns such a piece.
- `has_available_move` is not part of this model. `is_in_stalemate`
  therefore becomes `Game.Stalemated` of a boolean that the caller of
  `MakeMove` supplies.
- Calls whose arguments do not match the definitions shown are modelled by
  the definitions:
  - `make_move` calls `Player.move` with three arguments, but it is
    defined with two;
  - `is_in_checkmate` calls `defend_all_checks` with two arguments, but it
    is defined with one.

  The three- and two-argument versions take the opponent. Piece.py:52-53
  says they screen out moves that would leave the mover in check. Their
  code is not part of this model, so the model does not screen for
  self-check. The next four lines name what this loses.
- Game.XiangqiGame.MakeMove: self-check screening is not modelled. An
  accepted move may leave the mover's own general attacked, so the
  `ok <==> … MayMove(…)` clause is piece-level acceptance only. The same
  holds for `Game.XiangqiGame.Play` and `Game.XiangqiGame.Attempt`.
- Game.MoveBy: it is the shown two-argument `Player.move`. It accepts a
  legal piece move even when that move exposes the mover's general.
- Checks.InCheckmate: the defences counted are every defender's legal
  block or capture. This includes defences that would expose the general
  to another attack, which the opponent-aware `defend_all_checks` would
  presumably drop. So the model may find a defence where the game finds
  none, and it then reports no checkmate.
- Game.CheckmateTest: inherits the `Checks.InCheckmate` gap above. The
  same holds for `Game.XiangqiGame.IsInCheckmate` and the checkmate report
  in `Game.XiangqiGame.UpdateGameState` and `Game.XiangqiGame.Conclude`.
- `CannonPiece.__init__` and `SoldierPiece.__init__` (SoldierPiece.py:23)
  read the undefined name `player`. The model reads it as `side`. As
  written, `Player.__init__` would therefore stop with a NameError when it
  creates its soldiers.
- Python object identity is modelled as `PieceId`, the identity the
  `__repr__` labels give.
- Sets that the source iterates in hash order are iterated in sequence
  order in the model. The results proved are sets, so the order does not
  show in them.
- Checks.InCheck: a captured general is treated as not in check, with no
  attacks. The source would fail while reading the point `None`. The same
  holds for `Game.GeneralAttacks`, `Game.CheckTest` and
  `Game.XiangqiGame.IsInCheck`.
- Rules.GeneralPos: a general missing from the record reads as `None`,
  as does one recorded as captured. `get_general_pos` (XiangqiGame.py:105-107)
  would raise a KeyError for the missing key. No game the constructors
  build reaches that state, because every general is placed when its
  player is created. The same holds for `Engine.Board.GeneralAt`.
- Engine.Piece.IsFlyingGeneral: for a captured general whose query names
  the other general's point, the model answers false. The source raises a
  TypeError on `self._pos[0]` (GeneralPiece.py:52).
- Positions.ParsePos: the empty string counts as out of range. The source
  would raise on `pos[0]`. The same holds for `Positions.OutOfRange`, where
  the test `|s| == 0` stands for that failure.
- Players.Player.DefendAllChecks: requires a non-empty list of attacks.
  The source reads `attackers[0]` and is only ever called with a
  non-empty list.
- Players.Player.constructor: requires its side's start points to be empty
  and none of its side's pieces to be on the record already. These are the
  states in which the game creates players; the source does not check
  them.
- Game.XiangqiGame.SetState is a helper that writes the state field; it
  stands for the two assignments in `update_game_state`.

## Findings

| source | as written | input that shows it | evidently intended | confidence | as-written member | corrected member |
|---|---|---|---|---|---|---|
| SoldierPiece.py:62-73 | `SoldierPiece.move` sets `_crossed_river` whenever the requested point is on the far rank, even when `Piece.move` refused the move | a red soldier on e4 asked to move to e6: the move is refused, yet the flag is set and the soldier may then step sideways to d4 on its own side | set the flag only after a successful move onto the far rank | not executed | Moves.CrossedAfterAsWritten, Scenarios.SoldierFlagAfterFailedMove | Moves.CrossedAfter, Engine.Piece.Move |
| Player.py:38-45 | `get_defense_moves` tries only the points of the attack path; the path never contains the attacker's own point, and `target` is computed but unused, so capturing the attacker is never a defence | red chariot on e9 next to the black general on e10: the general's capture on e9 answers the check, but the attack path is e10 alone, so the as-written defence set is empty for every black defender; with the screen loop and the argument-count mismatch set aside, as the model does, a lone attack then reads as checkmate | also try the attacker's point, as the comment on lines 40-41 says | not executed | Checks.DefenseMovesAsWritten, Scenarios.CaptureMissed | Checks.DefenseMoves, Checks.CaptureDefends |
