# Tic-tac-toe arbitration, modelled in Dafny

This project models the server-side game arbitration of a two-player
tic-tac-toe service built on a shared, transactional database
(`functions/index.js`). Clients send three commands: `match`, `move` and
`checkin`. Each command runs one atomic read-modify-write transaction on a
single record. The store may re-run the update function on a conflict, so the
function must be free of side effects. Each transaction body is modelled
as a pure transform from the current record to `Commit(next)` or
`Abort(error)`. `Store.Resolve` gives the stored value afterwards: on an abort
it is the value that was there before.

Modules:

- `Board`: the 3x3 grid, the table `Wins` of eight lines in the source's order,
  and `checkEndgame`. `Endgame` is the specification function. `CheckEndgame` is the loop
  over a 3x3 `array2`, proved equal to `Endgame`. The lemmas characterise a win,
  a tie and "no result" against an independent definition: `HeldBy`,
  `Complete` and `Full`.
- `Games`: the game record (`Game`) and the two game transactions.
  - `GameState` is a class whose fields the move and checkin methods update in
    place, as `checkAndApplyMove` and `checkPlayerTimeout` do.
  - `BuildSpaces` replays the move log into a fresh array with the source's
    nested loops.
  - `ApplyMove`, `Accept` and `ApplyCheckin` are the value-level
    specifications. `MoveTransform`, `CheckinTransform` and `MoveCommand` wrap
    them as transactions.
  - The lemmas cover rejection, the append-only log, ending the game or
    passing the turn, checkin and forfeit, and the game invariant `Inv`, which
    every transform preserves.
- `Notifications`: the message pair `notifyPlayers` derives from a game, and
  its "unexpected case" error.
- `Matchmaking`: the waiting-slot transaction, the step that follows it, and
  the new game record.
- `Scenarios`: concrete games: a first move, a completed line x = 0, a
  full-board tie, and a forfeit.

Representation choices:

- The clock (`new Date().getTime()`) is a parameter `now: int`.
- Player and game ids are strings.
- `outcome` is stored as a free string, like in the store. It counts as set
  when it is truthy in JavaScript: present and non-empty.
- Logged moves have typed coordinates (0..2) and player numbers (1..2).
- A missing `moves` list is the empty sequence.
- A missing game record is `None`.

Behaviour of the code that the model keeps:

- A forfeit sets `outcome` but leaves `turn` as it was
  (functions/index.js:462-475). `Games.ApplyCheckin` states that `turn` is
  kept.
- The bounds check on `x`/`y` runs first, in `move`
  (functions/index.js:136-140), before the game checks.
- A self-match aborts the slot transaction. The snapshot still holds the
  caller's id, so the code then marks the caller as matching again
  (functions/index.js:94-100). `Matchmaking.Match` models this.
- The table is scanned in this order: lines with x fixed, then lines with
  y fixed, then the two diagonals (functions/index.js:484-496).

## Model

| member | source | states |
|---|---|---|
| `Board.Wins` | functions/index.js:484-496 | No ensures: the eight winning lines in the source's order. `Board.WinsIsTable` and `Board.EndgameWinHeld` state its properties. |
| `Board.WinsIsTable` | functions/index.js:484-496 | The table has eight lines of three cells each; the `Pos` type keeps every cell on the board. |
| `Board.FirstWin` | functions/index.js:499-513 | No ensures: the definition of the scan over the table. `Board.FirstWinSound`, `Board.FirstWinFinds` and `Board.FirstWinNone` state its properties. |
| `Board.Endgame` | functions/index.js:498-526 | No ensures: the definition of `checkEndgame` on a board. `Board.EndgameWin`, `Board.EndgameTie`, `Board.EndgameNone` and `Board.CheckEndgame` state its properties. |
| `Games.Replay` | functions/index.js:262-277 | No ensures: the definition of the board built from the log. `Games.ReplayEmptyAt`, `Games.ReplayAppend` and `Games.BuildSpaces` state its properties. |
| `Games.Accept` | functions/index.js:284-312 | No ensures: the definition of placing a checked move, logging it and ending the game or passing the turn. `Games.MoveEndsOrPasses`, `Games.AcceptOutcome`, `Games.AcceptRecordsLine`, `Games.AcceptKeepsInPlay` and `Games.AcceptAlternates` state its properties. |
| `Games.MoveCommand` | functions/index.js:136-191 | No ensures: the definition of the bounds check followed by the move transaction. `Games.MoveRejected` and `Games.FinishedIsFinal` state its properties. |
| `Games.MoveTransform` | functions/index.js:179-191 | No ensures: the definition of the move transaction's update function. `Games.TransactMove` and `Games.MissingGameStaysMissing` state its properties. |
| `Games.CheckinTransform` | functions/index.js:413-420 | No ensures: the definition of the checkin transaction's update function. `Games.TransactCheckin`, `Games.FinishedIsFinal` and `Games.MissingGameStaysMissing` state its properties. |
| `Games.MoveErrorMessage` | functions/index.js:139-281 | No ensures: the definition of the texts of the five move errors. `Games.MoveErrorMessagesDistinct` states that they differ, and `Games.MoveErrorOrder` which one a refused move reports. |
| `Games.MoveErrorMessagesDistinct` | functions/index.js:139-281 | Different move errors have different messages. |
| `Games.CheckinErrorMessage` | functions/index.js:453-477 | No ensures: the definition of the texts of the two checkin errors. `Games.CheckinErrorMessagesDistinct` states that they differ, and `Games.CheckinEffect` which one a refused checkin reports. |
| `Games.CheckinErrorMessagesDistinct` | functions/index.js:453-477 | Different checkin errors have different messages, including "not in this game" errors for different uids. |
| `Notifications.OutcomeMessages` | functions/index.js:332-350 | No ensures: the definition of the message pair for each outcome name. `Notifications.NotifyTellsEach` and `Notifications.NotifyResult` state its properties. |
| `Notifications.Notify` | functions/index.js:329-381 | No ensures: the definition of `notifyPlayers`' choice of messages. `Notifications.NotifyResult`, `Notifications.NotifyTellsEach`, `Notifications.NotifyDependsOnly`, `Notifications.NotifyNeverFails` and `Notifications.NotifySymmetric` state its properties. |
| `Matchmaking.MatchTransform` | functions/index.js:64-81 | No ensures: the definition of the slot transaction's update function. `Matchmaking.MatchCases` states its properties. |
| `Matchmaking.Match` | functions/index.js:64-124 | No ensures: the definition of the slot transaction and the step that follows it. `Matchmaking.MatchCases`, `Matchmaking.MatchSequence` and `Matchmaking.PairingStartsValidGame` state its properties. |
| `Board.CheckEndgame` | functions/index.js:498-526 | The loop over the board array returns exactly `Endgame` of the board it holds: the first line of the table whose three cells hold the same mark, else a tie on a full board, else nothing. |
| `Board.FirstWinSound` | functions/index.js:499-513 | A win found by scanning the table from line `i` names a table line at or after `i` that the winner holds, with no complete line between. |
| `Board.FirstWinFinds` | functions/index.js:499-513 | If player `w` holds line `j` and no line from `i` to `j` is complete, the scan from `i` reports `w` winning along line `j`. |
| `Board.FirstWinNone` | functions/index.js:499-513 | The scan from `i` finds nothing exactly when no line from `i` on is complete. |
| `Board.EndgameWin` | functions/index.js:484-512 | `checkEndgame` reports `{winner: w, win_moves: L}` if and only if `L` is a line of the table that `w` holds, with no earlier line of the table complete. |
| `Board.EndgameWinHeld` | functions/index.js:498-512 | A reported winning line is a line of the table, and the reported winner holds all three of its cells. |
| `Board.EndgameTie` | functions/index.js:515-525 | `checkEndgame` reports a tie if and only if no line is complete and all nine cells are taken. |
| `Board.EndgameNone` | functions/index.js:515-525 | `checkEndgame` reports nothing if and only if no line is complete and some cell is empty. |
| `Games.BuildSpaces` | functions/index.js:262-277 | The fresh 3x3 array, after the empty fill and the pass over the log, holds the board replayed from the log. |
| `Games.GameState.CheckAndApplyMove` | functions/index.js:237-315 | On success the record's fields become `ApplyMove` of the old record. On an error the method returns that error and no field changes. |
| `Games.GameState.CheckPlayerTimeout` | functions/index.js:451-481 | On success the record's fields become `ApplyCheckin` of the old record at `now`. On an error the method returns that error and no field changes. |
| `Games.ApplyMove` | functions/index.js:237-315 | An accepted move keeps both player ids and both checkin times. |
| `Games.ApplyCheckin` | functions/index.js:451-481 | An accepted checkin keeps the move log, the winning line, both player ids, and `turn`, including on a forfeit. |
| `Games.TransactMove` | functions/index.js:176-191 | The move transaction's update function, run on a copy of the stored record, commits a missing record unchanged. It aborts with the move's error, or commits the updated record, exactly as `MoveTransform` says. |
| `Games.TransactCheckin` | functions/index.js:412-420 | The checkin transaction's update function behaves like `CheckinTransform`: a missing record stays missing, a failed checkin aborts, and otherwise the updated record is committed. |
| `Games.ReplayEmptyAt` | functions/index.js:275-282 | A cell of the board replayed from the log is free exactly when no logged move is on it. |
| `Games.ReplayAppend` | functions/index.js:275-286 | Replaying the log with one more move gives the previous board with that move placed. |
| `Games.DistinctLogFits` | functions/index.js:275-293 | A log whose moves are on pairwise distinct cells takes one cell per move, so it has at most nine moves. |
| `Games.MoveRejected` | functions/index.js:138-282 | A move is refused, and the stored record kept, if and only if one of these holds: a coordinate is outside [0,2], the outcome is set, the caller is not a player, it is not the caller's turn, or a logged move is on the cell. |
| `Games.MoveErrorOrder` | functions/index.js:138-282 | A refused move reports the first failing check in the source's order: out of bounds, then game over, then not a player, then not the caller's turn, then space taken. |
| `Games.MoveAppends` | functions/index.js:275-293 | An accepted move appends exactly `{player: caller's number, x, y}` after the untouched earlier moves. A log of distinct cells stays distinct and has at most nine moves. |
| `Games.MoveEndsOrPasses` | functions/index.js:295-312 | After an accepted move, the board replayed from the new log decides the record. A win sets `turn` to null, `outcome` to `win_p1` or `win_p2`, and `win_moves` to that line. A tie sets `turn` to null and `outcome` to `tie`. Otherwise the turn passes to the other player, and `outcome` and `win_moves` stay unchanged. |
| `Games.MovePreservesInv` | functions/index.js:237-315 | An accepted move keeps the game invariant `Inv`. |
| `Games.AcceptOutcome` | functions/index.js:295-308 | An accepted move on a game in play writes only outcome names in `Outcomes`, and writes a winning line only together with a win. |
| `Games.AcceptRecordsLine` | functions/index.js:295-304 | A win written by a move records the win that `checkEndgame` reports for the new board. |
| `Games.AcceptKeepsInPlay` | functions/index.js:309-312 | A move that does not end the game leaves it in play, with the turn set by the parity of the longer log. |
| `Games.AcceptAlternates` | functions/index.js:289-293 | A move by the player the parity names keeps the log alternating, first player first. |
| `Games.FinishedIsFinal` | functions/index.js:238-240 | Once the outcome is set, every move and every checkin is refused, so the record no longer changes. |
| `Games.MissingGameStaysMissing` | functions/index.js:182-184 | A missing game record stays missing under the move and checkin transactions. |
| `Games.CheckinEffect` | functions/index.js:451-481 | A checkin fails if and only if the outcome is set or the caller is not a player. A set outcome is checked first and reports "Game is over"; a caller who is not a player gets "uid … is not in this game" with their uid. When p1 checks in, `p1checkin` becomes `now`, and `outcome` becomes `forfeit_p2` exactly when `p2checkin + 2*20000 < now`; otherwise `outcome` stays as it was, and nothing else changes. The p2 case is symmetric, with `forfeit_p1`. |
| `Games.CheckinPreservesInv` | functions/index.js:451-481 | A checkin keeps the game invariant `Inv`. |
| `Games.CheckinSymmetric` | functions/index.js:462-475 | With distinct players, a checkin on the game with the roles swapped gives the swapped result. |
| `Notifications.NotifyResult` | functions/index.js:329-381 | Deriving messages fails if and only if the outcome is set to a name outside `Outcomes`. Otherwise the game reference is cleared if and only if the outcome is set. |
| `Notifications.NotifyTellsEach` | functions/index.js:329-361 | After `win_p1`/`win_p2` the winner gets "You won!" and the other player "They won!". After `forfeit_p1`/`forfeit_p2` the winner gets "The other player has apparently quit" and the loser "Looks like you gave up". After a tie both get the tie message. While the game is in play, p1 is asked to move and p2 told to wait when the turn is p1's; for any other value of `turn`, null included, it is the reverse. |
| `Notifications.NotifyDependsOnly` | functions/index.js:329-361 | Two finished games with the same outcome get the same notices. Two games in play get the same notices when the first player has the turn in both or in neither. |
| `Notifications.NotifyNeverFails` | functions/index.js:379-381 | Every game satisfying `Inv` gets its messages; the "unexpected case" error is not reached. |
| `Notifications.NotifySymmetric` | functions/index.js:329-361 | When the players are distinct and the turn belongs to one of them, the game with the roles swapped gets the swapped messages. |
| `Matchmaking.NewGame` | functions/index.js:103-111 | The new game has `p1uid` and `p2uid` as given, and gives the turn to p1. It has an empty log, no outcome and no winning line, and both checkin times equal `now`. |
| `Matchmaking.MatchCases` | functions/index.js:64-124 | The slot transaction aborts exactly when the slot holds the caller. An empty slot becomes the caller's id, and the caller is marked as matching. A slot holding the caller is kept and the caller is marked again. A slot holding another player is emptied, and a game starts with `p1uid` = the waiting player, `p2uid` = the caller, `turn = p1uid` and both checkins = `now`. |
| `Matchmaking.MatchSequence` | functions/index.js:64-81 | On an empty slot, two distinct callers give one park (the slot holds the first caller, who is marked as matching) and then one pairing that empties the slot; the next call on the empty slot parks again. |
| `Matchmaking.PairingStartsValidGame` | functions/index.js:103-121 | A paired game satisfies `Inv`, and the first messages written to the two players are the ones `notifyPlayers` derives for it. |
| `Scenarios.FirstMoveInCentre` | functions/index.js:237-312 | On a new game, p1 moving at (1,1) logs exactly that move, does not end the game, and passes the turn to p2. |
| `Scenarios.ColumnWin` | functions/index.js:484-512 | The log (1,0,0),(2,1,0),(1,0,1),(2,1,1),(1,0,2) ends with p1 winning along [[0,0],[0,1],[0,2]]. |
| `Scenarios.FullBoardTie` | functions/index.js:515-525 | Nine alternating moves that complete no line end in a tie. |
| `Scenarios.StaleFirstPlayerForfeits` | functions/index.js:469-475 | p2 checking in three periods after p1's last checkin declares `forfeit_p1`. |

## Left out

- public/js/game.js is not part of this model. It is browser UI: DOM updates, sign-in, the checkin timer, listeners and command throttling.
- The `onWrite` command dispatcher and command deletion (functions/index.js:20-54) are not modelled. This includes the "Unknown command" rejection. The model takes each command's transform on its own.
- Writing a rejection's message into the player's state is not modelled. In the source, the out-of-bounds error of `move` is thrown before the promise chain starts. The transforms return the error values, and `MoveErrorMessage` and `CheckinErrorMessage` give the source's texts.
- The player-state lookup that finds the caller's game (`once("value")`, functions/index.js:147-156 and 391-402) and its "You're not in a game" error are left out, because they are reads from the external store. Each game transaction takes the stored record, or its absence, as a parameter.
- The transaction completion callbacks, promise chaining, and every `set`/`update` write of player states are left out. `Notifications.Notify` and `Matchmaking.Match` return the values those writes would store.
- Retry on conflict and concurrency are left to the store and not modelled. The transforms are pure functions, so re-running them is harmless. When the store retries, `match` reads the pair of ids from the last run of its update function; the model uses the slot that run saw.
- `Games.TransactCheckin`: the checkin update function has no `try`/`catch` (functions/index.js:412-420), so an error from `checkPlayerTimeout` escapes the update function instead of returning undefined. The model treats that thrown error as an abort. In both cases the stored record stays unchanged.
- The clock is a `now` parameter. `parseInt` coercion of `x`/`y` is replaced by integer inputs. Logging and the generated game key are left out.
- Stored records that the server functions would never write are not represented. These are moves with coordinates off the board or player numbers other than 1 and 2, and missing or non-numeric checkin times.
