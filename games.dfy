/**
 * One game record and the two transactions that change it: a move
 * (`move`, `transactMove`, `checkAndApplyMove` in functions/index.js) and a
 * liveness checkin (`transactCheckin`, `checkPlayerTimeout`).
 */
module Games {
  import opened Wrappers
  import opened Store
  import opened Board

  /** A player's id. */
  type Uid = string

  /** How often, in milliseconds, a client checks in. */
  const CheckinPeriod: int := 20000

  /** The outcome names written to a game record. */
  const WinP1: string := "win_p1"
  const WinP2: string := "win_p2"
  const TieOutcome: string := "tie"
  const ForfeitP1: string := "forfeit_p1"
  const ForfeitP2: string := "forfeit_p2"

  /** One logged move. Moves are only logged after the bounds check, so their cells are on the board. */
  datatype Move = Move(player: PlayerNum, x: Coord, y: Coord)

  /**
   * A stored game. `outcome` is a free string as in the store; a missing
   * `moves` list is the empty sequence.
   */
  datatype Game = Game(
    p1uid: Uid,
    p2uid: Uid,
    turn: Option<Uid>,
    moves: seq<Move>,
    outcome: Option<string>,
    winMoves: Option<Line>,
    p1checkin: int,
    p2checkin: int)

  /** The source's `if (game_state.outcome)`: absent and the empty string both read as "not over". */
  predicate Decided(outcome: Option<string>)
  {
    outcome.Some? && outcome.value != ""
  }

  /** The errors a move can raise. */
  datatype MoveError = OutOfBounds | GameOver | NotPlaying | NotYourTurn | SpaceTaken

  function MoveErrorMessage(e: MoveError): string
  {
    match e
    case OutOfBounds => "That move is out of bounds!"
    case GameOver => "Game is over!"
    case NotPlaying => "You're not playing this game!"
    case NotYourTurn => "It's not your turn. Be patient!"
    case SpaceTaken => "You can't move there - space already taken!"
  }

  /** The errors a checkin can raise. */
  datatype CheckinError = CheckinAfterGameOver | NotInThisGame(uid: Uid)

  function CheckinErrorMessage(e: CheckinError): string
  {
    match e
    case CheckinAfterGameOver => "Game is over, client shouldn't be checking in"
    case NotInThisGame(uid) => "uid " + uid + " is not in this game"
  }

  /** Each move error is told apart by its message (no two of the five texts have the same length). */
  lemma MoveErrorMessagesDistinct(e1: MoveError, e2: MoveError)
    ensures MoveErrorMessage(e1) == MoveErrorMessage(e2) ==> e1 == e2
  {
    if MoveErrorMessage(e1) == MoveErrorMessage(e2) {
      assert |MoveErrorMessage(e1)| == |MoveErrorMessage(e2)|;
    }
  }

  /** Each checkin error is told apart by its message, down to the uid it names. */
  lemma CheckinErrorMessagesDistinct(c1: CheckinError, c2: CheckinError)
    ensures CheckinErrorMessage(c1) == CheckinErrorMessage(c2) ==> c1 == c2
  {
    if c1.NotInThisGame? != c2.NotInThisGame? {
      CheckinMessageHeads(if c1.NotInThisGame? then c1.uid else c2.uid);
    } else if c1.NotInThisGame? && CheckinErrorMessage(c1) == CheckinErrorMessage(c2) {
      var m := CheckinErrorMessage(c1);
      assert |c1.uid| == |c2.uid| == |m| - 24;
      assert c1.uid == m[4..4 + |c1.uid|] == c2.uid;
    }
  }

  /** The two kinds of checkin message start with different letters. */
  lemma CheckinMessageHeads(u: Uid)
    ensures CheckinErrorMessage(NotInThisGame(u))[0] == 'u'
    ensures CheckinErrorMessage(CheckinAfterGameOver)[0] == 'G'
  {
    var head: string := "Game is over, ";
    var rest: string := "client shouldn't be checking in";
    assert CheckinErrorMessage(CheckinAfterGameOver) == head + rest;
    assert (head + rest)[0] == head[0] == 'G';
  }

  /** The board the move log builds, later moves overwriting earlier ones on the same cell. */
  function Replay(moves: seq<Move>): Grid
  {
    if moves == [] then EmptyGrid
    else
      var m := moves[|moves| - 1];
      Place(Replay(moves[..|moves| - 1]), m.x, m.y, Some(m.player))
  }

  /** Move `i` of the log is on cell (x, y). */
  predicate On(moves: seq<Move>, i: int, x: Coord, y: Coord)
    requires 0 <= i < |moves|
  {
    moves[i].x == x && moves[i].y == y
  }

  /** No two logged moves share a cell. */
  predicate DistinctCells(moves: seq<Move>)
  {
    forall i, j :: 0 <= i < j < |moves| ==> !(moves[i].x == moves[j].x && moves[i].y == moves[j].y)
  }

  /** The other player's id. */
  function Other(g: Game, pl: PlayerNum): Uid
  {
    if pl == 1 then g.p2uid else g.p1uid
  }

  /**
   * The move transform on a stored game (`checkAndApplyMove`), once the
   * coordinates are known to be on the board.
   */
  function ApplyMove(g: Game, uid: Uid, x: Coord, y: Coord): (r: Result<Game, MoveError>)
    ensures r.Ok? ==> r.value.p1uid == g.p1uid && r.value.p2uid == g.p2uid
    ensures r.Ok? ==> r.value.p1checkin == g.p1checkin && r.value.p2checkin == g.p2checkin
  {
    if Decided(g.outcome) then Err(GameOver)
    else if uid != g.p1uid && uid != g.p2uid then Err(NotPlaying)
    else if Some(uid) != g.turn then Err(NotYourTurn)
    else if Replay(g.moves)[x][y].Some? then Err(SpaceTaken)
    else Ok(Accept(g, if uid == g.p1uid then 1 else 2, x, y))
  }

  /**
   * A move that passed the checks: log it, then end the game on the new
   * board's endgame or pass the turn to the other player.
   */
  function Accept(g: Game, pl: PlayerNum, x: Coord, y: Coord): Game
  {
    var end := Endgame(Place(Replay(g.moves), x, y, Some(pl)));
    var logged := g.(moves := g.moves + [Move(pl, x, y)]);
    match end
    case None => logged.(turn := Some(Other(g, pl)))
    case Some(Win(w, line)) =>
      logged.(turn := None, outcome := Some(if w == 1 then WinP1 else WinP2), winMoves := Some(line))
    case Some(Tie) => logged.(turn := None, outcome := Some(TieOutcome))
  }

  /** The checkin transform on a stored game (`checkPlayerTimeout`), at clock reading `now`. */
  function ApplyCheckin(g: Game, uid: Uid, now: int): (r: Result<Game, CheckinError>)
    ensures r.Ok? ==> r.value.moves == g.moves && r.value.turn == g.turn && r.value.winMoves == g.winMoves
    ensures r.Ok? ==> r.value.p1uid == g.p1uid && r.value.p2uid == g.p2uid
  {
    if Decided(g.outcome) then Err(CheckinAfterGameOver)
    else if g.p1uid == uid then
      Ok(g.(outcome := if g.p2checkin + CheckinPeriod * 2 < now then Some(ForfeitP2) else g.outcome,
            p1checkin := now))
    else if g.p2uid == uid then
      Ok(g.(outcome := if g.p1checkin + CheckinPeriod * 2 < now then Some(ForfeitP1) else g.outcome,
            p2checkin := now))
    else Err(NotInThisGame(uid))
  }

  /**
   * The board view `checkAndApplyMove` builds: a 3x3 array of empty cells,
   * then every logged move written into its cell in log order.
   */
  method BuildSpaces(moves: seq<Move>) returns (spaces: array2<Cell>)
    ensures fresh(spaces) && spaces.Length0 == 3 && spaces.Length1 == 3
    ensures Snapshot(spaces) == Replay(moves)
  {
    spaces := new Cell[3, 3];
    for i := 0 to 3
      invariant forall i', j' :: 0 <= i' < i && 0 <= j' < 3 ==> spaces[i', j'] == None
    {
      for j := 0 to 3
        invariant forall i', j' :: 0 <= i' < i && 0 <= j' < 3 ==> spaces[i', j'] == None
        invariant forall j' :: 0 <= j' < j ==> spaces[i, j'] == None
      {
        spaces[i, j] := None;
      }
    }
    SnapshotIs(spaces, EmptyGrid);

    for k := 0 to |moves|
      invariant Snapshot(spaces) == Replay(moves[..k])
    {
      ghost var before := Snapshot(spaces);
      var m := moves[k];
      spaces[m.x, m.y] := Some(m.player);
      assert moves[..k + 1][..k] == moves[..k];
      SnapshotIs(spaces, Place(before, m.x, m.y, Some(m.player)));
    }
    assert moves[..|moves|] == moves;
  }

  /** A game record being updated in place, as the transaction's update function does. */
  class GameState {
    var p1uid: Uid
    var p2uid: Uid
    var turn: Option<Uid>
    var moves: seq<Move>
    var outcome: Option<string>
    var winMoves: Option<Line>
    var p1checkin: int
    var p2checkin: int

    /** The record the fields currently hold. */
    function Value(): Game
      reads this
    {
      Game(p1uid, p2uid, turn, moves, outcome, winMoves, p1checkin, p2checkin)
    }

    constructor (g: Game)
      ensures Value() == g
    {
      p1uid, p2uid, turn, moves := g.p1uid, g.p2uid, g.turn, g.moves;
      outcome, winMoves, p1checkin, p2checkin := g.outcome, g.winMoves, g.p1checkin, g.p2checkin;
    }

    /**
     * `checkAndApplyMove`: checks the move, replays the log into a fresh 3x3
     * array, then logs the move and either ends the game or passes the turn.
     * On an error the record is left as it was.
     */
    method CheckAndApplyMove(uid: Uid, x: Coord, y: Coord) returns (err: Option<MoveError>)
      modifies this
      ensures ApplyMove(old(Value()), uid, x, y) == if err.None? then Ok(Value()) else Err(err.value)
      ensures err.Some? ==> Value() == old(Value())
    {
      if Decided(outcome) {
        return Some(GameOver);
      }
      var plNum: PlayerNum;
      if uid == p1uid {
        plNum := 1;
      } else if uid == p2uid {
        plNum := 2;
      } else {
        return Some(NotPlaying);
      }
      if Some(uid) != turn {
        return Some(NotYourTurn);
      }

      var spaces := BuildSpaces(moves);
      if spaces[x, y].Some? {
        return Some(SpaceTaken);
      }
      ghost var replayed := Snapshot(spaces);
      spaces[x, y] := Some(plNum);
      SnapshotIs(spaces, Place(replayed, x, y, Some(plNum)));
      var end := CheckEndgame(spaces);

      moves := moves + [Move(plNum, x, y)];
      match end {
        case None =>
          turn := Some(if plNum == 1 then p2uid else p1uid);
        case Some(Win(w, line)) =>
          turn := None;
          outcome := Some(if w == 1 then WinP1 else WinP2);
          winMoves := Some(line);
        case Some(Tie) =>
          turn := None;
          outcome := Some(TieOutcome);
      }
      return None;
    }

    /**
     * `checkPlayerTimeout`: records the caller's checkin time and declares
     * the other player forfeited when their last checkin is older than two
     * periods. On an error the record is left as it was.
     */
    method CheckPlayerTimeout(uid: Uid, now: int) returns (err: Option<CheckinError>)
      modifies this
      ensures ApplyCheckin(old(Value()), uid, now) == if err.None? then Ok(Value()) else Err(err.value)
      ensures err.Some? ==> Value() == old(Value())
    {
      if Decided(outcome) {
        return Some(CheckinAfterGameOver);
      }
      var p1Last, p2Last := p1checkin, p2checkin;
      if p1uid == uid {
        if p2Last + CheckinPeriod * 2 < now {
          outcome := Some(ForfeitP2);
        }
        p1checkin := now;
      } else if p2uid == uid {
        if p1Last + CheckinPeriod * 2 < now {
          outcome := Some(ForfeitP1);
        }
        p2checkin := now;
      } else {
        return Some(NotInThisGame(uid));
      }
      return None;
    }
  }

  /** The update function of the move transaction: a missing record stays missing. */
  function MoveTransform(stored: Option<Game>, uid: Uid, x: Coord, y: Coord): Tx<Option<Game>, MoveError>
  {
    match stored
    case None => Commit(None)
    case Some(g) =>
      match ApplyMove(g, uid, x, y)
      case Ok(g') => Commit(Some(g'))
      case Err(e) => Abort(e)
  }

  /** A `move` command: the bounds check, then the transaction on the player's game. */
  function MoveCommand(stored: Option<Game>, uid: Uid, x: int, y: int): Tx<Option<Game>, MoveError>
  {
    if x < 0 || x > 2 || y < 0 || y > 2 then Abort(OutOfBounds)
    else MoveTransform(stored, uid, x, y)
  }

  /** The update function of the checkin transaction: a missing record stays missing. */
  function CheckinTransform(stored: Option<Game>, uid: Uid, now: int): Tx<Option<Game>, CheckinError>
  {
    match stored
    case None => Commit(None)
    case Some(g) =>
      match ApplyCheckin(g, uid, now)
      case Ok(g') => Commit(Some(g'))
      case Err(e) => Abort(e)
  }

  /** `transactMove`'s update function, run on a copy of the stored record as the store hands it over. */
  method TransactMove(stored: Option<Game>, uid: Uid, x: Coord, y: Coord) returns (r: Tx<Option<Game>, MoveError>)
    ensures r == MoveTransform(stored, uid, x, y)
  {
    if stored.None? {
      return Commit(None);
    }
    var state := new GameState(stored.value);
    var err := state.CheckAndApplyMove(uid, x, y);
    if err.Some? {
      r := Abort(err.value);
    } else {
      r := Commit(Some(state.Value()));
    }
  }

  /** `transactCheckin`'s update function, run on a copy of the stored record. */
  method TransactCheckin(stored: Option<Game>, uid: Uid, now: int) returns (r: Tx<Option<Game>, CheckinError>)
    ensures r == CheckinTransform(stored, uid, now)
  {
    if stored.None? {
      return Commit(None);
    }
    var state := new GameState(stored.value);
    var err := state.CheckPlayerTimeout(uid, now);
    if err.Some? {
      r := Abort(err.value);
    } else {
      r := Commit(Some(state.Value()));
    }
  }

  // ---------------------------------------------------------------------
  // Properties of the transforms

  /** The outcome names the server functions write. */
  const Outcomes: set<string> := {WinP1, WinP2, TieOutcome, ForfeitP1, ForfeitP2}

  /**
   * What every game the server functions create and update satisfies: distinct
   * players; a log of distinct cells whose moves alternate, the first player
   * first; an outcome, once set, from `Outcomes`; a winning line only
   * with a win, held by the winner on the replayed board; and, while the
   * game is on, the turn given by the parity of the log and a board that
   * `checkEndgame` has not ended.
   */
  ghost predicate Inv(g: Game)
  {
    && g.p1uid != g.p2uid
    && DistinctCells(g.moves)
    && Alternates(g.moves)
    && (Decided(g.outcome) ==> g.outcome.value in Outcomes)
    && (g.winMoves.Some? ==> g.outcome == Some(WinP1) || g.outcome == Some(WinP2))
    && (g.outcome == Some(WinP1) ==> LineRecorded(g, 1))
    && (g.outcome == Some(WinP2) ==> LineRecorded(g, 2))
    && (!Decided(g.outcome) ==> InPlay(g))
  }

  /** The moves alternate, the first player moving first. */
  predicate Alternates(moves: seq<Move>)
  {
    forall i :: 0 <= i < |moves| ==> moves[i].player == if i % 2 == 0 then 1 else 2
  }

  /**
   * The recorded winning line is the win `checkEndgame` reports for the
   * replayed board, so (by `EndgameWin`) the first line of the table held
   * by player `w`.
   */
  ghost predicate LineRecorded(g: Game, w: PlayerNum)
  {
    g.winMoves.Some? && Endgame(Replay(g.moves)) == Some(Win(w, g.winMoves.value))
  }

  /** The turn follows the parity of the log, and the replayed board has not ended the game. */
  ghost predicate InPlay(g: Game)
  {
    g.turn == Some(if |g.moves| % 2 == 0 then g.p1uid else g.p2uid) && Endgame(Replay(g.moves)).None?
  }

  /** A cell of the replayed board is empty exactly when no logged move is on it. */
  lemma {:induction false} ReplayEmptyAt(moves: seq<Move>, x: Coord, y: Coord)
    ensures Replay(moves)[x][y].None? <==> forall i :: 0 <= i < |moves| ==> !On(moves, i, x, y)
  {
    if moves != [] {
      var n := |moves| - 1;
      var init := moves[..n];
      ReplayEmptyAt(init, x, y);
      assert forall i :: 0 <= i < n ==> (On(moves, i, x, y) <==> On(init, i, x, y));
      if On(moves, n, x, y) {
        assert Replay(moves)[x][y].Some?;
      } else {
        assert Replay(moves)[x][y] == Replay(init)[x][y];
      }
    }
  }

  /** A log of distinct cells takes one board cell per move, so it holds at most nine moves. */
  lemma {:induction false} DistinctLogFits(moves: seq<Move>)
    requires DistinctCells(moves)
    ensures Occupied(Replay(moves)) == |moves| && |moves| <= 9
  {
    if moves != [] {
      var n := |moves| - 1;
      var init, m := moves[..n], moves[n];
      assert DistinctCells(init);
      DistinctLogFits(init);
      ReplayEmptyAt(init, m.x, m.y);
      PlaceOccupied(Replay(init), m.x, m.y, m.player);
    }
  }

  /** The board replayed from a log with one more move is the previous board with that move placed. */
  lemma ReplayAppend(moves: seq<Move>, m: Move)
    ensures Replay(moves + [m]) == Place(Replay(moves), m.x, m.y, Some(m.player))
  {
    assert (moves + [m])[..|moves|] == moves;
  }

  /**
   * A move is refused, and the stored record kept, exactly when it is off
   * the board, the game is over, the caller is not a player, it is not the
   * caller's turn, or a logged move already took the cell.
   */
  lemma MoveRejected(g: Game, uid: Uid, x: int, y: int)
    ensures MoveCommand(Some(g), uid, x, y).Abort? <==>
      x < 0 || x > 2 || y < 0 || y > 2 || Decided(g.outcome) || (uid != g.p1uid && uid != g.p2uid) ||
      g.turn != Some(uid) || exists i :: 0 <= i < |g.moves| && On(g.moves, i, x, y)
    ensures MoveCommand(Some(g), uid, x, y).Abort? ==> Resolve(Some(g), MoveCommand(Some(g), uid, x, y)) == Some(g)
  {
    if 0 <= x <= 2 && 0 <= y <= 2 {
      ReplayEmptyAt(g.moves, x, y);
    }
  }

  /**
   * Which error a refused move reports: the checks run in the source's
   * order (bounds, game over, not a player, not the caller's turn, cell
   * taken), and the first that fails names the error.
   */
  lemma MoveErrorOrder(g: Game, uid: Uid, x: int, y: int)
    ensures x < 0 || x > 2 || y < 0 || y > 2 ==> MoveCommand(Some(g), uid, x, y) == Abort(OutOfBounds)
    ensures 0 <= x <= 2 && 0 <= y <= 2 ==>
      var r := MoveCommand(Some(g), uid, x, y);
      && (Decided(g.outcome) ==> r == Abort(GameOver))
      && (!Decided(g.outcome) && uid != g.p1uid && uid != g.p2uid ==> r == Abort(NotPlaying))
      && (!Decided(g.outcome) && (uid == g.p1uid || uid == g.p2uid) && g.turn != Some(uid) ==> r == Abort(NotYourTurn))
      && ((!Decided(g.outcome) && (uid == g.p1uid || uid == g.p2uid) && g.turn == Some(uid)
            && exists i :: 0 <= i < |g.moves| && On(g.moves, i, x, y)) ==> r == Abort(SpaceTaken))
  {
    if 0 <= x <= 2 && 0 <= y <= 2 {
      ReplayEmptyAt(g.moves, x, y);
    }
  }

  /**
   * An accepted move appends exactly one entry, the caller's number on the
   * requested cell, after the untouched earlier moves; a log of distinct
   * cells stays distinct and within nine moves.
   */
  lemma MoveAppends(g: Game, uid: Uid, x: Coord, y: Coord)
    ensures ApplyMove(g, uid, x, y).Ok? ==>
      ApplyMove(g, uid, x, y).value.moves == g.moves + [Move(if uid == g.p1uid then 1 else 2, x, y)]
    ensures ApplyMove(g, uid, x, y).Ok? && DistinctCells(g.moves) ==>
      DistinctCells(ApplyMove(g, uid, x, y).value.moves) && |ApplyMove(g, uid, x, y).value.moves| <= 9
  {
    var r := ApplyMove(g, uid, x, y);
    if r.Ok? && DistinctCells(g.moves) {
      var ms, n := r.value.moves, |g.moves|;
      ReplayEmptyAt(g.moves, x, y);
      forall i, j | 0 <= i < j < |ms|
        ensures !(ms[i].x == ms[j].x && ms[i].y == ms[j].y)
      {
        if j < n {
          assert ms[i] == g.moves[i] && ms[j] == g.moves[j];
        } else {
          assert !On(g.moves, i, x, y);
        }
      }
      DistinctLogFits(ms);
    }
  }

  /**
   * After an accepted move, the board replayed from the new log decides the
   * record: a win ends the game with that winner's outcome and line, a full
   * board ends it as a tie, and otherwise the turn passes to the other
   * player with the outcome unchanged.
   */
  lemma MoveEndsOrPasses(g: Game, uid: Uid, x: Coord, y: Coord)
    ensures ApplyMove(g, uid, x, y).Ok? ==>
      var g' := ApplyMove(g, uid, x, y).value;
      match Endgame(Replay(g'.moves))
      case None =>
        g'.turn == Some(if uid == g.p1uid then g.p2uid else g.p1uid) && g'.outcome == g.outcome &&
        g'.winMoves == g.winMoves && (g.p1uid != g.p2uid ==> g'.turn != g.turn)
      case Some(Win(w, line)) =>
        g'.turn.None? && g'.outcome == Some(if w == 1 then WinP1 else WinP2) && g'.winMoves == Some(line)
      case Some(Tie) =>
        g'.turn.None? && g'.outcome == Some(TieOutcome) && g'.winMoves == g.winMoves
  {
    if ApplyMove(g, uid, x, y).Ok? {
      OutcomeNamesDistinct();
      ReplayAppend(g.moves, Move(if uid == g.p1uid then 1 else 2, x, y));
    }
  }

  /** An accepted move keeps the game invariant. */
  lemma MovePreservesInv(g: Game, uid: Uid, x: Coord, y: Coord)
    requires Inv(g)
    ensures ApplyMove(g, uid, x, y).Ok? ==> Inv(ApplyMove(g, uid, x, y).value)
  {
    if ApplyMove(g, uid, x, y).Ok? {
      var pl: PlayerNum := if uid == g.p1uid then 1 else 2;
      assert pl == if |g.moves| % 2 == 0 then 1 else 2;
      MoveAppends(g, uid, x, y);
      AcceptOutcome(g, pl, x, y);
      AcceptRecordsLine(g, pl, x, y);
      AcceptKeepsInPlay(g, pl, x, y);
      AcceptAlternates(g, pl, x, y);
    }
  }

  /** The outcome names are distinct and non-empty. */
  lemma OutcomeNamesDistinct()
    ensures WinP1 != WinP2 && WinP1 != TieOutcome && WinP2 != TieOutcome
    ensures ForfeitP1 != ForfeitP2 && ForfeitP1 !in {WinP1, WinP2, TieOutcome} && ForfeitP2 !in {WinP1, WinP2, TieOutcome}
    ensures "" !in Outcomes
  {
  }

  /** An accepted move on a game in play writes only outcome names in `Outcomes`, and a line only with a win. */
  lemma AcceptOutcome(g: Game, pl: PlayerNum, x: Coord, y: Coord)
    requires !Decided(g.outcome) && g.winMoves.None?
    ensures var g' := Accept(g, pl, x, y);
      (Decided(g'.outcome) ==> g'.outcome.value in Outcomes) &&
      (g'.winMoves.Some? ==> g'.outcome == Some(WinP1) || g'.outcome == Some(WinP2))
  {
    OutcomeNamesDistinct();
  }

  /** A win written by an accepted move records the win `checkEndgame` reports for the new board. */
  lemma AcceptRecordsLine(g: Game, pl: PlayerNum, x: Coord, y: Coord)
    requires !Decided(g.outcome)
    ensures var g' := Accept(g, pl, x, y);
      (g'.outcome == Some(WinP1) ==> LineRecorded(g', 1)) && (g'.outcome == Some(WinP2) ==> LineRecorded(g', 2))
  {
    OutcomeNamesDistinct();
    ReplayAppend(g.moves, Move(pl, x, y));
  }

  /**
   * An accepted move by the player whose turn the parity gives, which does
   * not end the game, leaves it in play with the turn given by the parity of
   * the longer log.
   */
  lemma AcceptKeepsInPlay(g: Game, pl: PlayerNum, x: Coord, y: Coord)
    requires g.p1uid != g.p2uid && InPlay(g) && pl == if |g.moves| % 2 == 0 then 1 else 2
    ensures var g' := Accept(g, pl, x, y);
      !Decided(g'.outcome) ==> InPlay(g')
  {
    var end := Endgame(Place(Replay(g.moves), x, y, Some(pl)));
    if end.None? {
      ReplayAppend(g.moves, Move(pl, x, y));
    } else {
      OutcomeNamesDistinct();
      assert Decided(Accept(g, pl, x, y).outcome);
    }
  }

  /** A move by the player the parity gives keeps the log alternating. */
  lemma AcceptAlternates(g: Game, pl: PlayerNum, x: Coord, y: Coord)
    requires Alternates(g.moves) && pl == if |g.moves| % 2 == 0 then 1 else 2
    ensures Alternates(Accept(g, pl, x, y).moves)
  {
    var ms, n := Accept(g, pl, x, y).moves, |g.moves|;
    assert ms == g.moves + [Move(pl, x, y)];
    assert forall i :: 0 <= i < n ==> ms[i] == g.moves[i];
  }

  /** A finished game refuses every move and every checkin, so its record no longer changes. */
  lemma FinishedIsFinal(g: Game, uid: Uid, x: int, y: int, now: int)
    requires Decided(g.outcome)
    ensures MoveCommand(Some(g), uid, x, y).Abort?
    ensures CheckinTransform(Some(g), uid, now).Abort?
  {
  }

  /** A missing game record stays missing under a move or a checkin. */
  lemma MissingGameStaysMissing(uid: Uid, x: Coord, y: Coord, now: int)
    ensures Resolve(None, MoveTransform(None, uid, x, y)) == None
    ensures Resolve(None, CheckinTransform(None, uid, now)) == None
  {
  }

  /**
   * A checkin is refused exactly when the game is over (checked first) or
   * the caller is not a player, each with its own error. When the first
   * player checks in, its checkin time becomes `now`, and the game ends as
   * a forfeit by the second player exactly when the second player's last
   * checkin is more than two periods old; nothing
   * else changes. The second player's checkin is the mirror image.
   */
  lemma CheckinEffect(g: Game, uid: Uid, now: int)
    ensures ApplyCheckin(g, uid, now).Err? <==> Decided(g.outcome) || (uid != g.p1uid && uid != g.p2uid)
    ensures Decided(g.outcome) ==> ApplyCheckin(g, uid, now) == Err(CheckinAfterGameOver)
    ensures !Decided(g.outcome) && uid != g.p1uid && uid != g.p2uid ==> ApplyCheckin(g, uid, now) == Err(NotInThisGame(uid))
    ensures !Decided(g.outcome) && uid == g.p1uid ==>
      var g' := ApplyCheckin(g, uid, now).value;
      && g'.p1checkin == now
      && (Decided(g'.outcome) <==> g.p2checkin + 2 * CheckinPeriod < now)
      && (Decided(g'.outcome) ==> g'.outcome == Some(ForfeitP2))
      && (!Decided(g'.outcome) ==> g'.outcome == g.outcome)
      && g'.(p1checkin := g.p1checkin, outcome := g.outcome) == g
    ensures !Decided(g.outcome) && uid == g.p2uid && uid != g.p1uid ==>
      var g' := ApplyCheckin(g, uid, now).value;
      && g'.p2checkin == now
      && (Decided(g'.outcome) <==> g.p1checkin + 2 * CheckinPeriod < now)
      && (Decided(g'.outcome) ==> g'.outcome == Some(ForfeitP1))
      && (!Decided(g'.outcome) ==> g'.outcome == g.outcome)
      && g'.(p2checkin := g.p2checkin, outcome := g.outcome) == g
  {
  }

  /** A checkin keeps the game invariant. */
  lemma CheckinPreservesInv(g: Game, uid: Uid, now: int)
    requires Inv(g)
    ensures ApplyCheckin(g, uid, now).Ok? ==> Inv(ApplyCheckin(g, uid, now).value)
  {
  }

  /** The same game with the two players' roles exchanged. */
  function Mirror(g: Game): Game
  {
    Game(g.p2uid, g.p1uid, g.turn,
      seq(|g.moves|, i requires 0 <= i < |g.moves| => g.moves[i].(player := 3 - g.moves[i].player)),
      MirrorOutcome(g.outcome), g.winMoves, g.p2checkin, g.p1checkin)
  }

  /** An outcome with the two players' roles exchanged. */
  function MirrorOutcome(o: Option<string>): Option<string>
  {
    if o == Some(WinP1) then Some(WinP2)
    else if o == Some(WinP2) then Some(WinP1)
    else if o == Some(ForfeitP1) then Some(ForfeitP2)
    else if o == Some(ForfeitP2) then Some(ForfeitP1)
    else o
  }

  /** The checkin rule treats the two players alike: checking in on the mirrored game gives the mirrored result. */
  lemma CheckinSymmetric(g: Game, uid: Uid, now: int)
    requires g.p1uid != g.p2uid
    ensures ApplyCheckin(Mirror(g), uid, now) ==
      match ApplyCheckin(g, uid, now)
      case Ok(g') => Ok(Mirror(g'))
      case Err(e) => Err(e)
  {
  }
}
