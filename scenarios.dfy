/** Concrete games played through the model. */
module Scenarios {
  import opened Wrappers
  import opened Board
  import opened Games
  import opened Matchmaking

  /** On a fresh game the first player takes the centre: the log holds that one move and the turn passes. */
  lemma FirstMoveInCentre(a: Uid, b: Uid, now: int)
    requires a != b
    ensures var r := ApplyMove(NewGame(a, b, now), a, 1, 1);
      r.Ok? && r.value.moves == [Move(1, 1, 1)] && r.value.turn == Some(b) && !Decided(r.value.outcome)
  {
    var g := NewGame(a, b, now);
    assert Replay([]) == EmptyGrid;
    var grid := Place(EmptyGrid, 1, 1, Some(1));
    EndgameNone(grid);
    WinsIsTable();
    assert !Full(grid) by {
      assert grid[0][0].None?;
    }
    forall k | 0 <= k < |Wins|
      ensures !Complete(grid, Wins[k])
    {
      // no line of the table starts at the centre
      assert At(grid, Wins[k][0]).None?;
    }
  }

  /** The first player fills the line x = 0 while the second plays x = 1: the first line of the table is the win. */
  lemma ColumnWin()
    ensures Endgame(Replay([Move(1, 0, 0), Move(2, 1, 0), Move(1, 0, 1), Move(2, 1, 1), Move(1, 0, 2)]))
      == Some(Win(1, [(0, 0), (0, 1), (0, 2)]))
  {
    var ms := [Move(1, 0, 0), Move(2, 1, 0), Move(1, 0, 1), Move(2, 1, 1), Move(1, 0, 2)];
    ReplayPrefixes(ms);
    assert ms[..0] == [] && ms[..5] == ms;
    var g1 := Place(EmptyGrid, 0, 0, Some(1));
    assert Replay(ms[..1]) == g1;
    var g2 := Place(g1, 1, 0, Some(2));
    assert Replay(ms[..2]) == g2;
    var g3 := Place(g2, 0, 1, Some(1));
    assert Replay(ms[..3]) == g3;
    var g4 := Place(g3, 1, 1, Some(2));
    assert Replay(ms[..4]) == g4;
    var g5 := Place(g4, 0, 2, Some(1));
    assert Replay(ms) == g5;
    assert g5[0] == [Some(1), Some(1), Some(1)];
    WinsIsTable();
    assert HeldBy(g5, Wins[0], 1);
    FirstWinFinds(g5, Wins, 0, 0, 1);
  }

  /** Nine alternating moves that complete no line. */
  const TieLog: seq<Move> := [Move(1, 0, 0), Move(2, 0, 1), Move(1, 0, 2), Move(2, 1, 1), Move(1, 1, 0),
                              Move(2, 1, 2), Move(1, 2, 1), Move(2, 2, 0), Move(1, 2, 2)]

  /** The board `TieLog` fills. */
  const TieBoard: Grid := [[Some(1), Some(2), Some(1)], [Some(1), Some(2), Some(2)], [Some(2), Some(1), Some(1)]]

  /** Nine alternating moves that complete no line end in a tie. */
  lemma FullBoardTie()
    ensures Endgame(Replay(TieLog)) == Some(Tie)
  {
    TieLogFillsBoard();
    assert FirstWin(TieBoard, Wins, 0) == None;
    assert Full(TieBoard) by {
      forall x: Coord, y: Coord
        ensures TieBoard[x][y].Some?
      {
        assert TieBoard[x] in TieBoard;
      }
    }
  }

  /** Replaying `TieLog` gives `TieBoard`. */
  lemma TieLogFillsBoard()
    ensures Replay(TieLog) == TieBoard
  {
    var ms := TieLog;
    ReplayPrefixes(ms);
    assert ms[..0] == [] && ms[..9] == ms;
    var g1 := Place(EmptyGrid, 0, 0, Some(1));
    assert Replay(ms[..1]) == g1;
    var g2 := Place(g1, 0, 1, Some(2));
    assert Replay(ms[..2]) == g2;
    var g3 := Place(g2, 0, 2, Some(1));
    assert Replay(ms[..3]) == g3;
    var g4 := Place(g3, 1, 1, Some(2));
    assert Replay(ms[..4]) == g4;
    var g5 := Place(g4, 1, 0, Some(1));
    assert Replay(ms[..5]) == g5;
    var g6 := Place(g5, 1, 2, Some(2));
    assert Replay(ms[..6]) == g6;
    var g7 := Place(g6, 2, 1, Some(1));
    assert Replay(ms[..7]) == g7;
    var g8 := Place(g7, 2, 0, Some(2));
    assert Replay(ms[..8]) == g8;
    var g9 := Place(g8, 2, 2, Some(1));
    assert Replay(ms) == g9;
    assert g9[0] == TieBoard[0] && g9[1] == TieBoard[1] && g9[2] == TieBoard[2];
  }

  /** Replaying a log is replaying each of its prefixes in turn. */
  lemma ReplayPrefixes(ms: seq<Move>)
    ensures forall n :: 0 < n <= |ms| ==>
      Replay(ms[..n]) == Place(Replay(ms[..n - 1]), ms[n - 1].x, ms[n - 1].y, Some(ms[n - 1].player))
  {
    forall n | 0 < n <= |ms|
      ensures Replay(ms[..n]) == Place(Replay(ms[..n - 1]), ms[n - 1].x, ms[n - 1].y, Some(ms[n - 1].player))
    {
      assert ms[..n] == ms[..n - 1] + [ms[n - 1]];
      ReplayAppend(ms[..n - 1], ms[n - 1]);
    }
  }

  /** The second player checks in three periods after the first player last did: the first player forfeits. */
  lemma StaleFirstPlayerForfeits(g: Game, now: int)
    requires !Decided(g.outcome) && g.p1uid != g.p2uid
    requires g.p1checkin == now - 3 * CheckinPeriod
    ensures ApplyCheckin(g, g.p2uid, now) == Ok(g.(outcome := Some(ForfeitP1), p2checkin := now))
  {
  }
}
