/**
 * The 3x3 board: the table of winning lines and the end-of-game check
 * (`wins` and `checkEndgame` in functions/index.js).
 */
module Board {
  import opened Wrappers

  /** A board coordinate on either axis. */
  type Coord = n: int | 0 <= n <= 2

  /** The number a player's marks carry: 1 for the first player, 2 for the second. */
  type PlayerNum = n: int | 1 <= n <= 2 witness 1

  /** A cell: empty (`undefined` in the source) or the number of the player who took it. */
  type Cell = Option<PlayerNum>

  /** A position, written `[x, y]` in the source. */
  type Pos = (Coord, Coord)

  /** A line of three positions. */
  type Line = seq<Pos>

  predicate IsGrid(g: seq<seq<Cell>>)
  {
    |g| == 3 && forall i :: 0 <= i < 3 ==> |g[i]| == 3
  }

  /** The board, indexed `g[x][y]` like the source's `spaces[x][y]`. */
  type Grid = g: seq<seq<Cell>> | IsGrid(g)
    witness [[None, None, None], [None, None, None], [None, None, None]]

  const EmptyGrid: Grid := [[None, None, None], [None, None, None], [None, None, None]]

  /** The eight lines, in the order the source scans them. */
  const Wins: seq<Line> := [
    // x fixed
    [(0, 0), (0, 1), (0, 2)],
    [(1, 0), (1, 1), (1, 2)],
    [(2, 0), (2, 1), (2, 2)],
    // y fixed
    [(0, 0), (1, 0), (2, 0)],
    [(0, 1), (1, 1), (2, 1)],
    [(0, 2), (1, 2), (2, 2)],
    // diagonals
    [(0, 0), (1, 1), (2, 2)],
    [(2, 0), (1, 1), (0, 2)]
  ]

  /** How a game ends: a player completed a line, or the board filled up. */
  datatype End = Win(winner: PlayerNum, winMoves: Line) | Tie

  function At(g: Grid, p: Pos): Cell
  {
    g[p.0][p.1]
  }

  /** The board with cell (x, y) set to `c`. */
  function Place(g: Grid, x: Coord, y: Coord, c: Cell): Grid
  {
    g[x := g[x][y := c]]
  }

  /** Player `w` holds all three cells of `line`. */
  predicate HeldBy(g: Grid, line: Line, w: PlayerNum)
    requires |line| == 3
  {
    forall k :: 0 <= k < 3 ==> At(g, line[k]) == Some(w)
  }

  /** Some player holds all of `line`. */
  predicate Complete(g: Grid, line: Line)
    requires |line| == 3
  {
    HeldBy(g, line, 1) || HeldBy(g, line, 2)
  }

  /** A table of lines of three positions each; `Wins` is one. */
  predicate IsTable(table: seq<Line>)
  {
    forall k :: 0 <= k < |table| ==> |table[k]| == 3
  }

  /** None of the first `j` lines of `table` is complete. */
  predicate NoneCompleteBefore(g: Grid, table: seq<Line>, j: nat)
    requires IsTable(table) && j <= |table|
  {
    forall k :: 0 <= k < j ==> !Complete(g, table[k])
  }

  /** Every cell is taken. */
  predicate Full(g: Grid)
  {
    forall x: Coord, y: Coord :: g[x][y].Some?
  }

  /** The scan of `table` from line `i` on: the first line whose three cells hold the same mark. */
  function FirstWin(g: Grid, table: seq<Line>, i: nat): Option<End>
    requires IsTable(table) && i <= |table|
    decreases |table| - i
  {
    if i == |table| then None
    else
      var line := table[i];
      var t1, t2, t3 := At(g, line[0]), At(g, line[1]), At(g, line[2]);
      if t1.Some? && t2.Some? && t3.Some? && t1 == t2 && t1 == t3 then Some(Win(t1.value, line))
      else FirstWin(g, table, i + 1)
  }

  /** What `checkEndgame` reports for a board: the first complete line, else a tie on a full board, else nothing. */
  function Endgame(g: Grid): Option<End>
  {
    var w := FirstWin(g, Wins, 0);
    if w.Some? then w
    else if Full(g) then Some(Tie)
    else None
  }

  /** A win reported by the scan from line `i` names a line at or after `i` that its winner holds, with no complete line between. */
  lemma {:induction false} FirstWinSound(g: Grid, table: seq<Line>, i: nat)
    requires IsTable(table) && i <= |table|
    ensures FirstWin(g, table, i).Some? ==>
      FirstWin(g, table, i).value.Win? &&
      exists j :: i <= j < |table| && FirstWin(g, table, i).value.winMoves == table[j] &&
        HeldBy(g, table[j], FirstWin(g, table, i).value.winner) &&
        forall k :: i <= k < j ==> !Complete(g, table[k])
    decreases |table| - i
  {
    if i < |table| {
      var line := table[i];
      var t1, t2, t3 := At(g, line[0]), At(g, line[1]), At(g, line[2]);
      if t1.Some? && t2.Some? && t3.Some? && t1 == t2 && t1 == t3 {
        assert HeldBy(g, table[i], t1.value);
      } else {
        assert !Complete(g, table[i]);
        FirstWinSound(g, table, i + 1);
      }
    }
  }

  /** The scan from line `i` reports line `j` when `w` holds it and no line in between is complete. */
  lemma {:induction false} FirstWinFinds(g: Grid, table: seq<Line>, i: nat, j: nat, w: PlayerNum)
    requires IsTable(table) && i <= j < |table|
    requires HeldBy(g, table[j], w)
    requires forall k :: i <= k < j ==> !Complete(g, table[k])
    ensures FirstWin(g, table, i) == Some(Win(w, table[j]))
    decreases j - i
  {
    if i < j {
      assert !Complete(g, table[i]);
      assert !HeldBy(g, table[i], 1) && !HeldBy(g, table[i], 2);
      FirstWinFinds(g, table, i + 1, j, w);
    } else {
      assert At(g, table[j][0]) == Some(w) && At(g, table[j][1]) == Some(w) && At(g, table[j][2]) == Some(w);
    }
  }

  /** The scan from line `i` finds nothing exactly when no line from `i` on is complete. */
  lemma {:induction false} FirstWinNone(g: Grid, table: seq<Line>, i: nat)
    requires IsTable(table) && i <= |table|
    ensures FirstWin(g, table, i).None? <==> forall k :: i <= k < |table| ==> !Complete(g, table[k])
    decreases |table| - i
  {
    if i < |table| {
      FirstWinNone(g, table, i + 1);
      if Complete(g, table[i]) {
        var w: PlayerNum := if HeldBy(g, table[i], 1) then 1 else 2;
        FirstWinFinds(g, table, i, i, w);
      } else {
        assert !HeldBy(g, table[i], 1) && !HeldBy(g, table[i], 2);
      }
    }
  }

  lemma WinsIsTable()
    ensures IsTable(Wins) && |Wins| == 8
  {
  }

  /**
   * `checkEndgame` reports that `w` won along `line` exactly when `line` is
   * some line of the table that `w` holds and no earlier line of the table is
   * complete.
   */
  lemma EndgameWin(g: Grid, w: PlayerNum, line: Line)
    ensures IsTable(Wins)
    ensures Endgame(g) == Some(Win(w, line)) <==>
      exists j :: 0 <= j < |Wins| && Wins[j] == line && HeldBy(g, line, w) && NoneCompleteBefore(g, Wins, j)
  {
    WinsIsTable();
    FirstWinSound(g, Wins, 0);
    if j :| 0 <= j < |Wins| && Wins[j] == line && HeldBy(g, line, w) && NoneCompleteBefore(g, Wins, j) {
      FirstWinFinds(g, Wins, 0, j, w);
    }
  }

  /** A reported win names a line of the table that the winner holds. */
  lemma EndgameWinHeld(g: Grid)
    ensures Endgame(g).Some? && Endgame(g).value.Win? ==>
      var line := Endgame(g).value.winMoves;
      line in Wins && |line| == 3 && HeldBy(g, line, Endgame(g).value.winner)
  {
    WinsIsTable();
    FirstWinSound(g, Wins, 0);
  }

  /** `checkEndgame` reports a tie exactly when no line is complete and every cell is taken. */
  lemma EndgameTie(g: Grid)
    ensures IsTable(Wins)
    ensures Endgame(g) == Some(Tie) <==> NoneCompleteBefore(g, Wins, |Wins|) && Full(g)
  {
    WinsIsTable();
    FirstWinNone(g, Wins, 0);
    FirstWinSound(g, Wins, 0);
  }

  /** `checkEndgame` reports nothing exactly when no line is complete and some cell is empty. */
  lemma EndgameNone(g: Grid)
    ensures IsTable(Wins)
    ensures Endgame(g).None? <==> NoneCompleteBefore(g, Wins, |Wins|) && !Full(g)
  {
    WinsIsTable();
    FirstWinNone(g, Wins, 0);
  }

  function CellCount(c: Cell): nat
  {
    if c.Some? then 1 else 0
  }

  /** The number of taken cells. */
  function Occupied(g: Grid): (n: nat)
    ensures n <= 9
  {
    CellCount(g[0][0]) + CellCount(g[0][1]) + CellCount(g[0][2]) +
    CellCount(g[1][0]) + CellCount(g[1][1]) + CellCount(g[1][2]) +
    CellCount(g[2][0]) + CellCount(g[2][1]) + CellCount(g[2][2])
  }

  /** Taking an empty cell adds one to the number of taken cells. */
  lemma PlaceOccupied(g: Grid, x: Coord, y: Coord, p: PlayerNum)
    requires g[x][y].None?
    ensures Occupied(Place(g, x, y, Some(p))) == Occupied(g) + 1
  {
  }

  /** The board an array holds, as a value. */
  function Snapshot(a: array2<Cell>): Grid
    requires a.Length0 == 3 && a.Length1 == 3
    reads a
  {
    seq(3, i requires 0 <= i < 3 reads a => seq(3, j requires 0 <= j < 3 reads a => a[i, j]))
  }

  /** An array holding the same cells as `g` has `g` for its snapshot. */
  lemma SnapshotIs(a: array2<Cell>, g: Grid)
    requires a.Length0 == 3 && a.Length1 == 3
    requires forall i, j :: 0 <= i < 3 && 0 <= j < 3 ==> a[i, j] == g[i][j]
    ensures Snapshot(a) == g
  {
    var s := Snapshot(a);
    forall i | 0 <= i < 3
      ensures s[i] == g[i]
    {
      assert forall j :: 0 <= j < 3 ==> s[i][j] == g[i][j];
    }
  }

  /**
   * The loop `checkEndgame` runs over the board in `spaces`: the table in
   * order with an early return on the first complete line, then every cell
   * in search of an empty one.
   */
  method CheckEndgame(spaces: array2<Cell>) returns (r: Option<End>)
    requires spaces.Length0 == 3 && spaces.Length1 == 3
    ensures r == Endgame(Snapshot(spaces))
  {
    ghost var g := Snapshot(spaces);
    WinsIsTable();
    for i := 0 to |Wins|
      invariant FirstWin(g, Wins, i) == FirstWin(g, Wins, 0)
    {
      var win := Wins[i];
      var m1, m2, m3 := win[0], win[1], win[2];
      var t1, t2, t3 := spaces[m1.0, m1.1], spaces[m2.0, m2.1], spaces[m3.0, m3.1];
      if t1.Some? && t2.Some? && t3.Some? && t1 == t2 && t1 == t3 {
        return Some(Win(t1.value, win));
      }
    }
    assert FirstWin(g, Wins, 0).None?;
    for x := 0 to 3
      invariant forall x', y' :: 0 <= x' < x && 0 <= y' < 3 ==> g[x'][y'].Some?
    {
      for y := 0 to 3
        invariant forall x', y' :: 0 <= x' < x && 0 <= y' < 3 ==> g[x'][y'].Some?
        invariant forall y' :: 0 <= y' < y ==> g[x][y'].Some?
      {
        if spaces[x, y].None? {
          assert !Full(g) by {
            assert g[x][y] == spaces[x, y];
          }
          return None;
        }
      }
    }
    assert Full(g);
    return Some(Tie);
  }
}
