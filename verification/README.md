# Gem Hunters: players, turns and the winner

Gem Hunters is a two-player console game played on a 6×6 grid. Players
take turns pressing U, D, L or R to move. Each valid move counts one turn.
After thirty valid moves, the player with more gems wins, and equal counts
are a tie. This project models the game rules in `Gemhunters1/Gemhunters1/Program.cs`:

- `players.dfy` (module `Players`): the `Position` and `Player` classes. This
  includes `Player.Move`, which changes the player's position object in
  place. The pure function `Moved` states what one key press does to a
  coordinate.
- `game.dfy` (module `Games`): the `Game` class with its fields
  `Player1`, `Player2`, `CurrentTurn` and `TotalTurns`. `CurrentTurn` is a
  `Side` (`P1` or `P2`) rather than an object reference. The class has its
  constructor, the `Start` loop, `SwitchTurn`, `IsGameOver` and
  `AnnounceWinner`. Beside the class, the game is also described as a value
  (`GameState`):
  - `Iterate` is one pass of the loop.
  - `Run` is the whole loop.
  - `Decide` is the decision that `AnnounceWinner` announces.

  The lemmas about `Run` and the other functions state the turn rules.
  `Start` is proved to end in `Run` of its initial state.

The `Board` class appears in the source only where it is used; its code is
not part of this model. The loop therefore reads a script of `Attempt`s. Each
attempt is a key together with the board's answer to it:

- `Rejected`: `Board.IsValidMove` was false.
- `Accepted(at, gems)`: the move was valid. The answer holds the coordinate
  and gem count that `Board.UpdatePlayerPosition` and `Board.CollectGem`
  leave the current player with.

No rule of the board (bounds, obstacles, gems) is assumed.

## Model

| member | source | states |
|---|---|---|
| `Players.Moved` | Gemhunters1/Gemhunters1/Program.cs:27-44 | a direction key moves the coordinate by exactly one step, along its own axis (U/D change only y, L/R only x), towards smaller y for U and smaller x for L; any other key leaves it unchanged |
| `Players.MovedUndone` | Gemhunters1/Gemhunters1/Program.cs:27-44 | the coordinate is unclamped: any direction key changes it, wherever it is, and the opposite key brings it back |
| `Players.MovedUnclamped` | Gemhunters1/Gemhunters1/Program.cs:27-44 | no clamping at the start corners: from (0,0) U and L go to -1, from (5,5) D and R go to 6 |
| `Players.Position.constructor` | Gemhunters1/Gemhunters1/Program.cs:8-12 | a new position holds the given X and Y |
| `Players.Player.constructor` | Gemhunters1/Gemhunters1/Program.cs:20-25 | a new player has the given name and position object and a gem count of 0 |
| `Players.Player.Move` | Gemhunters1/Gemhunters1/Program.cs:27-44 | U: Y-1, D: Y+1, L: X-1, R: X+1, the other coordinate unchanged. Any other key leaves the position untouched. Name, gem count and the position object's identity never change |
| `Games.Other` | Gemhunters1/Gemhunters1/Program.cs:96-99 | switching the turn always gives it to the other player |
| `Games.OtherTwice` | Gemhunters1/Gemhunters1/Program.cs:96-99 | switching twice restores the current player |
| `Games.Decide` | Gemhunters1/Gemhunters1/Program.cs:111-122 | player 1 wins iff it has more gems, player 2 wins iff it has more gems, tie iff the counts are equal |
| `Games.DecideFair` | Gemhunters1/Gemhunters1/Program.cs:111-122 | exchanging the two gem counts exchanges the winner and keeps a tie |
| `Games.Iterate` | Gemhunters1/Gemhunters1/Program.cs:81-91 | a rejected key changes nothing. An accepted key applies the board's update to the current player only, switches the turn and adds exactly 1 to the counter |
| `Games.RunTotal` | Gemhunters1/Gemhunters1/Program.cs:75-92 | the loop keeps `0 <= TotalTurns <= 30` and "P1 to move iff TotalTurns is even"; the counter ends at min(30, start + accepted attempts) |
| `Games.RunEndsAtLimit` | Gemhunters1/Gemhunters1/Program.cs:101-104 | with enough valid moves, the loop stops with exactly 30 moves made and P1 next |
| `Games.MoversAlternate` | Gemhunters1/Gemhunters1/Program.cs:81-86 | valid moves alternate strictly between the players, starting with the current one, whatever invalid attempts come between |
| `Games.FifteenMovesEach` | Gemhunters1/Gemhunters1/Program.cs:64-104 | a complete game from a new game gives each player exactly 15 valid moves |
| `Games.Game.constructor` | Gemhunters1/Gemhunters1/Program.cs:64-71 | P1 "P1" at (0,0), P2 "P2" at (5,5), no gems, `CurrentTurn` = P1, `TotalTurns` = 0, distinct fresh objects |
| `Games.Game.IsGameOver` | Gemhunters1/Gemhunters1/Program.cs:101-104 | while the turn invariant holds, the game is over exactly when 30 moves have been made and P1 would be next |
| `Games.Game.SwitchTurn` | Gemhunters1/Gemhunters1/Program.cs:96-99 | `CurrentTurn` becomes the other player; nothing else changes |
| `Games.Game.UpdateCurrentPlayer` | Gemhunters1/Gemhunters1/Program.cs:83-84 | the board's update reaches the current player's position and gem count only; the other player is unchanged |
| `Games.Game.Start` | Gemhunters1/Gemhunters1/Program.cs:73-94 | the loop ends in `Run` of the initial state, with `TotalTurns` = 30 and P1 next. It has read exactly the attempts up to the thirtieth valid one. The announced outcome is `Decide` of the final gem counts |
| `Games.Game.AnnounceWinner` | Gemhunters1/Gemhunters1/Program.cs:106-123 | the announced outcome is P1 wins, P2 wins or tie, matching the three-way comparison of the two gem counts |

## Left out

- Console output is left out: the "Hello, World!" line, `Console.Clear`, the prompts, the invalid-move message and the printed result. `AnnounceWinner` returns an `Outcome` instead of printing it.
- Keyboard input (`Console.ReadKey`) is replaced by the `script` parameter of `Start`. `Start` returns how many attempts it read.
- `Board` (its constructor, `Display`, `IsValidMove`, `UpdatePlayerPosition`, `CollectGem` and any gem or obstacle placement) is not part of this model. Its verdict and its effect on the current player come with each `Attempt`. The model assumes that the board changes only the player it is given, the current one.
- The `Cell` class only holds a string and is used only by `Board`, so it is left out.
- Games.Game.Start: requires the script to hold at least `30 - TotalTurns` accepted attempts. The real loop waits for keys forever, so it has no termination guarantee if no valid move is ever entered.
- Players.Player.Move: uses unbounded integers, so it does not model C# 32-bit wrap-around at `int.MinValue` and `int.MaxValue`. Coordinates only change by one per move, and the board limits them in practice.
- `Game.CurrentTurn` is compared by reference in the source. With two distinct player objects, this is the same as comparing the `Side` values used here.
