# Checkers rules engine

A Dafny model of the rules engine of a two-player 8×8 checkers game played in
a turn-based room. The engine has two halves:

- **The move generator** of the client (`frontend/src/App.jsx`). For the
  square a player selects, it lists the capturing jumps and the regular
  diagonal steps of the piece there. Men move forward only: player 0 (`'1'`)
  toward row 0 and player 1 (`'2'`) toward row 7. The mover's king (`'11'`,
  `'22'`) moves both ways. It also decides what happens after a jump: offer
  the piece its further jumps, or ask for the turn to pass.
  Module `MoveGen`, pure functions over a board value.
- **The game state machine** of the server (`index.js`). It covers the
  opening position, the join handler that starts the game, the move handler
  and the quit handler. The move handler either passes the turn or relocates
  a piece: it clears the origin, removes a captured piece, decrements the
  opponent's counter, promotes on the far row, records the move details and
  ends the game when a counter reaches zero. Module `GameState`, class `Game`:
  its board is an `array2`, and its fields are the status, turn index,
  counters, move details and winner.

Module `Board` holds what both halves share. The string/number piece tags
become `Piece = Man(owner) | King(owner)`, with owner 0 for `'1'`/`'11'` and
owner 1 for `'2'`/`'22'`. A board is `seq<seq<Option<Piece>>>` of size 8×8.
The module also defines single-cell updates and piece counts.

The server's move handler does not check a move against the generator. It
applies any in-bounds relocation it is given, and the model does the same.
The lemmas `GeneratedMoveCounts`, `GeneratedMoveKeepsCounters` and
`PromotedPieceMovesBothWays` state what happens when the applied move is one
the generator offered.

Where the code and the design description disagree, the model follows the
code:
- regular steps are offered even when a jump exists;
- the server does not re-validate moves;
- continuing a jump chain is decided only on the client.

The one exception is the end-of-game check. The code as written throws when a
counter reaches zero (see Findings), and `EndCheckAsWritten` models that.
The class follows the evident intent instead: it uses `EndCheck`, which
records the winner and reports the game finished.

Some helpers appear only inside the contracts of the handlers:
- `CounterAfterMove` is the counter decrement of index.js:151-155.
- `PlayerAt` is `players[i]` at index.js:170 and index.js:176, which is undefined past the end of the list.
- `HoldsTurn` is the turn check of index.js:126.
- `Game.WriteCell` is one cell write, `board[x][y] = v`, at index.js:147, index.js:149 and index.js:163.

## Model

| member | source | states |
|---|---|---|
| `MoveGen.JumpCondition` | frontend/src/App.jsx:101-107 | true exactly when the square holds a man or king of the opponent of the player to move |
| `MoveGen.JumpMovesHelper` | frontend/src/App.jsx:109-154 | at most two options; an option is listed iff it lands in bounds on an empty square two rows (in the given direction) and two columns away, capturing the midpoint, which holds an opponent piece; left landing before right |
| `MoveGen.JumpMoves` | frontend/src/App.jsx:156-184 | at most four options, all with a capture; an option is listed iff it is a jump in the mover's forward direction, or in either direction when the piece is the mover's own king; backward options come first |
| `MoveGen.RegularMovesHelper` | frontend/src/App.jsx:205-233 | at most two options; an option is listed iff it is one row (in the given direction) and one column away, in bounds, on an empty square, with no capture |
| `MoveGen.RegularMoves` | frontend/src/App.jsx:235-263 | at most four options, none with a capture; listed iff a step forward, or either way for the mover's own king; backward first |
| `MoveGen.PossibleMoves` | frontend/src/App.jsx:266-323 | error "Illegal move/location" iff the square does not hold the mover's man or king; otherwise the selected square and at most eight options, listed iff they are allowed jumps or allowed steps, every jump before every step, and within each kind in the source order (backward before forward, left before right), hence without duplicates |
| `MoveGen.ContinueAfterJump` | frontend/src/App.jsx:186-203 | requests a turn switch iff the landed piece has no allowed jump; otherwise offers exactly its allowed jumps (a non-empty list) for that square |
| `MoveGen.MenMoveForwardOnly` | frontend/src/App.jsx:163-181 | a piece that is not the mover's king gets only row-decreasing options for player 0 and only row-increasing ones for player 1 |
| `MoveGen.KingsMoveBothWays` | frontend/src/App.jsx:242-260 | the mover's king is offered every jump and every step in both directions |
| `MoveGen.NoMandatoryCapture` | frontend/src/App.jsx:310-314 | when a piece has both a jump and a step, both are offered, the jump listed before the step |
| `MoveGen.SingleJumpScenario` | frontend/src/App.jsx:109-184 | a lone player-0 man on (5,2) next to a player-1 man on (4,1) has exactly one jump: to (3,0), capturing (4,1) |
| `GameState.InitialLayout` | index.js:59-68 | the opening board has player 1's men on the odd squares of rows 0-2, player 0's men on the odd squares of rows 5-7, and nothing else |
| `GameState.InitialCounts` | index.js:59-71 | the opening board holds twelve pieces of each player, equal to the opening counters |
| `GameState.Game.constructor` | index.js:55-74 | the opening state: PreGame, the opening board, both counters 12, no winner, no move details, no player to move yet |
| `GameState.PlrMark` | index.js:13-22 | the mark is player 0's (`'1'`/`'11'`) iff the player's id is that of the first player in the list, and a king iff a king is asked for |
| `GameState.MarkOwnerIsMover` | index.js:126-160 | with two distinct player ids, the mark written for the player holding the turn belongs to the player at the turn index |
| `GameState.MovedPiece` | index.js:138-163 | the written piece is a king iff the origin held a king of either player or the destination is row 0 for player 0 or row 7 for player 1; so a king never reverts |
| `GameState.ApplyMove` | index.js:147-163 | the destination holds the mark; the origin and the captured square are empty unless they are the destination; every other square is unchanged |
| `GameState.EndCheckAsWritten` | index.js:168-178 | as written: the game goes on iff both counters are non-zero, and otherwise the handler throws rather than naming a winner |
| `GameState.EndCheck` | index.js:168-178 | as intended: never throws; the game goes on iff both counters are non-zero; player 0's counter at zero makes the second player the winner, otherwise player 1's counter at zero makes the first player the winner |
| `GameState.EndCheckDefect` | index.js:168-178 | with at least two players in the room, whenever a counter is zero the code as written throws, while the intended check names the second player when player 0's counter is zero and otherwise the first player |
| `GameState.GeneratedMoveCounts` | index.js:147-156 | applying a generated move with the mover's mark: a jump removes exactly one opponent piece, a step none, and the mover keeps all its pieces |
| `GameState.GeneratedMoveKeepsCounters` | index.js:148-156 | if the counters equal the pieces on the board, then after a generated move they still do, and neither goes negative |
| `GameState.PromotedPieceMovesBothWays` | index.js:158-163 | a generated move onto the far row leaves the mover's king there, which is then offered backward steps as well |
| `GameState.Game.OnPlayerJoin` | index.js:83-107 | throws outside PreGame with nothing changed; with exactly two players: InGame, player 0 to move, not joinable; otherwise unchanged and joinable |
| `GameState.Game.OnPlayerMove` | index.js:116-182 | throws with nothing changed outside InGame, when no player is at the turn index, or when the player is not the one at the turn index (`HoldsTurn`). A switch flips the turn index and clears the move details, touching nothing else. Any other move: the board becomes `ApplyMove` with the `MovedPiece` mark; only the opponent's counter drops by one, and only on a capture (`CounterAfterMove`); move details become {JUMP or REGULAR, destination}; a zero counter ends the game with `EndCheck`'s winner and reports finished |
| `GameState.Game.MovePiece` | index.js:138-181 | the relocation branch of the move handler, with the same new state as above |
| `GameState.Game.OnPlayerQuit` | index.js:190-199 | status EndGame, not joinable, finished; with exactly one player left that player wins and the state is returned, otherwise the winner is unchanged and no state is returned |

## Left out

- React rendering and UI helpers are not modelled: highlighting, the snackbar, row/stack keys and the status message.
- The asynchronous client plumbing is not modelled: `client.makeMove`, event subscription, React state, the `onClick` flow. This is network I/O and event wiring. `ContinueAfterJump` returns the continue-or-switch decision; the switch request it would send, and that request's error message, are left out.
- The client's `plrToMoveIndex` is undefined before the game starts. The generator then lists nothing and reports no error. The model's generators take the index as 0 or 1 only.
- The coercion of numeric piece tags to strings disappears with the `Piece` datatype.
- The room's player list, `version` and persistence belong to the room platform; the player list is an input to each handler.
- `Game.OnPlayerMove`: takes in-bounds coordinates as a precondition, so it does not model what the source does with an out-of-range coordinate:
  - Only an out-of-range origin row throws a TypeError before any write (index.js:138).
  - An out-of-range capture row throws at index.js:149. By then index.js:147 has already cleared the origin.
  - An out-of-range destination row throws at index.js:163. By then index.js:147-155 have cleared the origin and the captured square, and the opponent's counter has dropped.
  - An out-of-range column throws nothing; the write adds a stray property to the row array.
- `EndCheckAsWritten` models only the outcome of the undefined `plrs` reference: the handler throws. It does not model that the status has already been set to EndGame in the mutated state. The class uses the corrected `EndCheck`.
- Validating moves on the server, mandatory capture and forced continuation of jump chains on the server are not in the code, so the model does not add them.

## Findings

| source | as written | input that shows it | evidently intended | confidence | as-written member | corrected member |
|---|---|---|---|---|---|---|
| index.js:168-178 | the winner is read from `plrs[1]` / `plrs[0]`, but only `players` is defined, so the handler throws a ReferenceError after setting the status to EndGame | a capture that brings either counter to 0, e.g. player 0 capturing player 1's last piece | the winner is `players[1]` when player 0's counter is 0, else `players[0]` when player 1's counter is 0, and the move reports finished | high (not executed) | `GameState.EndCheckAsWritten` | `GameState.EndCheck` |
