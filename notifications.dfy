/**
 * The per-player messages derived from a game record after each committed
 * move or checkin (`notifyPlayers` in functions/index.js).
 */
module Notifications {
  import opened Wrappers
  import opened Board
  import opened Games

  const YourTurn: string := "It's your turn! Make a move!"
  const Waiting: string := "Waiting for other player..."
  const YouWon: string := "You won! Good job!"
  const TheyWon: string := "They won! Better luck next time!"
  const TieGame: string := "It's a tie game!"
  const GaveUp: string := "Looks like you gave up."
  const OtherQuit: string := "The other player has apparently quit, so you win!"
  const UnexpectedCase: string := "Unexpected case for notifications"

  /** The update written to each player's state; `clearGame` sets its game reference to null. */
  datatype Notice = Notice(p1Message: string, p2Message: string, clearGame: bool)

  /** The message pair for a finished game, by outcome name; none for a name outside `Outcomes`. */
  function OutcomeMessages(outcome: string): Option<(string, string)>
  {
    if outcome == WinP1 then Some((YouWon, TheyWon))
    else if outcome == WinP2 then Some((TheyWon, YouWon))
    else if outcome == TieOutcome then Some((TieGame, TieGame))
    else if outcome == ForfeitP1 then Some((GaveUp, OtherQuit))
    else if outcome == ForfeitP2 then Some((OtherQuit, GaveUp))
    else None
  }

  /** The notices for a game, or the error raised for an outcome outside `Outcomes`. */
  function Notify(g: Game): Result<Notice, string>
  {
    if Decided(g.outcome) then
      match OutcomeMessages(g.outcome.value)
      case Some((m1, m2)) => Ok(Notice(m1, m2, true))
      case None => Err(UnexpectedCase)
    else if g.turn == Some(g.p1uid) then Ok(Notice(YourTurn, Waiting, false))
    else Ok(Notice(Waiting, YourTurn, false))
  }

  /** The player an outcome name declares the winner, if any. */
  function Winner(outcome: string): Option<PlayerNum>
  {
    if outcome == WinP1 || outcome == ForfeitP2 then Some(1)
    else if outcome == WinP2 || outcome == ForfeitP1 then Some(2)
    else None
  }

  /**
   * Deriving notices fails exactly for a finished game whose outcome is not
   * one of the outcome names in `Outcomes`; otherwise the game reference is cleared exactly when
   * the game is finished.
   */
  lemma NotifyResult(g: Game)
    ensures Notify(g).Err? <==> Decided(g.outcome) && g.outcome.value !in Outcomes
    ensures Notify(g).Ok? ==> (Notify(g).value.clearGame <==> Decided(g.outcome))
  {
  }

  /** The message a notice gives player `pl`. */
  function MessageFor(n: Notice, pl: PlayerNum): string
  {
    if pl == 1 then n.p1Message else n.p2Message
  }

  /**
   * For a game won on the board the winner is told they won and the other
   * player that they lost; for a forfeit the winner is told the other player
   * quit and the loser that they gave up; a tie tells both so. For a game in
   * play the player whose turn it is is asked to move and the other to wait.
   */
  lemma NotifyTellsEach(g: Game)
    requires Notify(g).Ok?
    ensures var n := Notify(g).value;
      && (g.outcome == Some(WinP1) || g.outcome == Some(WinP2) ==>
            var w := Winner(g.outcome.value).value;
            MessageFor(n, w) == YouWon && MessageFor(n, 3 - w) == TheyWon)
      && (g.outcome == Some(ForfeitP1) || g.outcome == Some(ForfeitP2) ==>
            var w := Winner(g.outcome.value).value;
            MessageFor(n, w) == OtherQuit && MessageFor(n, 3 - w) == GaveUp)
      && (Decided(g.outcome) && Winner(g.outcome.value).None? ==> n.p1Message == n.p2Message == TieGame)
      && (!Decided(g.outcome) && g.turn != Some(g.p1uid) ==>
            n.p1Message == Waiting && n.p2Message == YourTurn)
      && (!Decided(g.outcome) && g.turn == Some(g.p1uid) ==> n.p1Message == YourTurn && n.p2Message == Waiting)
  {
    OutcomeNamesDistinct();
  }

  /**
   * The notices depend on nothing but the outcome of a finished game, and on
   * nothing but whether the first player has the turn in a game in play.
   */
  lemma NotifyDependsOnly(g1: Game, g2: Game)
    ensures Decided(g1.outcome) && g1.outcome == g2.outcome ==> Notify(g1) == Notify(g2)
    ensures (!Decided(g1.outcome) && !Decided(g2.outcome) && (g1.turn == Some(g1.p1uid) <==> g2.turn == Some(g2.p1uid)))
      ==> Notify(g1) == Notify(g2)
  {
  }

  /** A game the server functions created and updated never reaches the "unexpected case" error. */
  lemma NotifyNeverFails(g: Game)
    requires Inv(g)
    ensures Notify(g).Ok?
  {
    NotifyResult(g);
  }

  /**
   * The messages treat the players alike: for a game with distinct players
   * whose turn, while in play, is one of theirs, the mirrored game gets the
   * swapped messages.
   */
  lemma NotifySymmetric(g: Game)
    requires g.p1uid != g.p2uid
    requires !Decided(g.outcome) ==> g.turn == Some(g.p1uid) || g.turn == Some(g.p2uid)
    ensures Notify(Mirror(g)) ==
      match Notify(g)
      case Ok(n) => Ok(Notice(n.p2Message, n.p1Message, n.clearGame))
      case Err(e) => Err(e)
  {
  }
}
