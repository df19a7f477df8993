/**
 * Pairing players through the single waiting slot (`match` in
 * functions/index.js): the slot transaction and the step that follows it.
 */
module Matchmaking {
  import opened Wrappers
  import opened Store
  import opened Board
  import opened Games
  import opened Notifications

  /** Why the slot transaction aborts: the waiting player asked to be matched again. */
  datatype MatchError = SelfMatch

  /**
   * The slot's update function: an empty slot parks the caller, the caller's
   * own id aborts, and another player's id empties the slot.
   */
  function MatchTransform(slot: Option<Uid>, uid: Uid): Tx<Option<Uid>, MatchError>
  {
    match slot
    case None => Commit(Some(uid))
    case Some(waiting) => if waiting == uid then Abort(SelfMatch) else Commit(None)
  }

  /** The game record written on a pairing, at clock reading `now`. */
  function NewGame(p1uid: Uid, p2uid: Uid, now: int): (g: Game)
    ensures g.p1uid == p1uid && g.p2uid == p2uid
    ensures g.turn == Some(g.p1uid) && g.moves == [] && g.outcome.None? && g.winMoves.None?
    ensures g.p1checkin == now && g.p2checkin == now
  {
    Game(p1uid, p2uid, Some(p1uid), [], None, None, now, now)
  }

  /** What follows the slot transaction. */
  datatype MatchStep =
    | MarkMatching                                              // the caller's state gets `matching: true`
    | StartGame(game: Game, p1Message: string, p2Message: string) // a new game and each player's first message

  /** The slot after the transaction and the step taken on it. */
  datatype Matched = Matched(slot: Option<Uid>, step: MatchStep)

  /**
   * A `match` command: run the slot transaction, then, if the slot still
   * holds a player, mark the caller as matching; otherwise start a game
   * between the player who was waiting and the caller.
   */
  function Match(slot: Option<Uid>, uid: Uid, now: int): Matched
  {
    var after := Resolve(slot, MatchTransform(slot, uid));
    if after.Some? then Matched(after, MarkMatching)
    else Matched(after, StartGame(NewGame(slot.value, uid, now), YourTurn, Waiting))
  }

  /**
   * An empty slot parks the caller; a slot holding the caller is left as it
   * is; a slot holding another player is emptied and a game starts with the
   * waiting player first and the caller second.
   */
  lemma MatchCases(slot: Option<Uid>, uid: Uid, now: int)
    ensures MatchTransform(slot, uid).Abort? <==> slot == Some(uid)
    ensures slot.None? ==> Match(slot, uid, now) == Matched(Some(uid), MarkMatching)
    ensures slot == Some(uid) ==> Match(slot, uid, now) == Matched(slot, MarkMatching)
    ensures slot.Some? && slot.value != uid ==>
      var m := Match(slot, uid, now);
      m.slot.None? && m.step.StartGame? &&
      m.step.game.p1uid == slot.value && m.step.game.p2uid == uid &&
      m.step.game.turn == Some(slot.value) && m.step.game.p1checkin == now && m.step.game.p2checkin == now
  {
  }

  /** Two distinct callers on an empty slot: the first is parked, the second starts a game with the first, and a third call parks again. */
  lemma MatchSequence(a: Uid, b: Uid, c: Uid, now: int)
    requires a != b
    ensures Match(None, a, now) == Matched(Some(a), MarkMatching)
    ensures Match(Some(a), b, now).step.StartGame? && Match(Some(a), b, now).slot.None?
    ensures Match(None, c, now) == Matched(Some(c), MarkMatching)
  {
  }

  /**
   * A game started by a pairing satisfies the game invariant, and the first
   * messages written to the players are the ones derived from the new game.
   */
  lemma PairingStartsValidGame(waiting: Uid, uid: Uid, now: int)
    requires waiting != uid
    ensures var s := Match(Some(waiting), uid, now).step;
      s.StartGame? && Inv(s.game) && Notify(s.game) == Ok(Notice(s.p1Message, s.p2Message, false))
  {
    var g := NewGame(waiting, uid, now);
    assert Replay([]) == EmptyGrid;
    EndgameNone(EmptyGrid);
    assert !Full(EmptyGrid) by {
      assert EmptyGrid[0][0].None?;
    }
    WinsIsTable();
    forall k | 0 <= k < |Wins|
      ensures !Complete(EmptyGrid, Wins[k])
    {
      assert At(EmptyGrid, Wins[k][0]).None?;
    }
  }
}
