# Sokoban game state, modelled in Dafny

This project models the core of a terminal Sokoban game in which up to two
players (`A`, keys WASD, and `B`, keys HJKL) push boxes onto destinations
on a map. It covers these parts of the Java code:

- `GameMap`: a map loaded from text, with its width, height, destinations,
  undo limit and a 2-D grid of entities written in place.
- `GameState`: a running game. It holds the original map, which it never
  writes, a live copy of that map, the undo quota left, a one-slot
  checkpoint and an `init` flag.
- `AbstractSokobanGame`: resolves one action against the game state and
  decides when the game stops.
- `TerminalInputEngine`: turns a line typed at the terminal into an action.

The model has two layers:

- The classes `GameMaps.GameMap`, `GameStates.GameState` and
  `SokobanGames.SokobanGame` keep the Java objects' fields and update them
  in place. A `GameMap`'s grid is an `array2<Entity>` and its player index
  is a `map<Char16, Position>` field.
- Beneath them are value-level specification functions. `MoveEntity` is
  `move`, `Checkpointed` is `checkpoint`, `Undone` is `undo`, `Process` is
  `processAction` and `ParseLayout` is `parse`.

Every mutating method's `ensures` ties its new state to one of those
functions, and the game's properties are lemmas about the functions.

Several Java behaviours are written out explicitly:

- A Java `null` slot in the grid is the entity `Unset`.
- A player's map key `(char)('A' + id)` is computed modulo 2^16 (`PlayerKey`).
- The quota decrement in `undo` wraps around like a 32-bit `int`
  (`Int32.Decrement`).
- `String.split("\\r?\\n")` and `Integer.parseInt` are modelled by
  `MapText.SplitLines` and `MapText.ParseInt`, edge cases included:
  - trailing empty strings are dropped;
  - `""` splits to `[""]`;
  - a leading sign is accepted;
  - values outside the `int` range are rejected.

A playable board (`GameMaps.Playable`) is one that meets all of these:

- it is rectangular;
- no cell is unset;
- every border cell is a wall;
- every player-index entry is an interior cell.

The Java code relies on this without checking it: it never tests whether a
step leaves the grid. Here it is the precondition of `Process`, and
`ProcessPreservesWellFormed` proves that every action keeps it.

Where the intended design and the code differ, the model follows the code:

- `parse` does no validation. It takes the undo limit from the first line,
  the width from the first row of the map and the height from the row
  count, and collects the `@` cells. It fails with an index error when a
  later row is shorter than the first, or when the text has no map row.
- The checkpoint history holds one entry, not a chain. `checkpoint()`
  stores a `GameState` whose own `checkpoint` is `null`.
- `undo()` restores the checkpoint only when some box now stands on a
  cell that held no box in the checkpoint. Otherwise it drops the
  checkpoint, clears `init` and resets to the original map. That reset
  costs one unit of quota. During play this branch is never taken: every
  push leaves its box on a cell that held none when the checkpoint was
  taken, and a walk moves no box, so a checkpoint is never stale
  (`ProcessKeepsCheckpointUseful`). So `init` stays set, every reset to the
  original map is free, and restores stop taking quota at 1: with any limit
  of at least 1 the quota never runs out. This departs from the "decreases
  the undo quota by one" that GameState.java:151 documents for `undo()`.
- A restore lowers the quota only when it is above 1, so a quota of 1 is
  never used up by restores. A quota of -1 (meant as "unlimited") refuses
  every undo, since `processAction` only allows undo on a positive or
  absent quota.
- A push never checks who owns the box.

## Model

| member | source | states |
|---|---|---|
| Int32.Decrement | src/main/java/hk/ust/comp3021/game/GameState.java:160-162 | Java's `int` subtraction of 1: the result stays in the 32-bit range and is exactly n-1 above the minimum; at the minimum it wraps to the maximum |
| Entities.PlayerKey | src/main/java/hk/ust/comp3021/game/GameState.java:51-54 | the map key `(char)('A'+id)`; for ids 0..25 it is the letter `'A'+id` |
| Actions.Step | src/main/java/hk/ust/comp3021/game/AbstractSokobanGame.java:66-71 | a move's next position is a different cell at distance exactly one |
| Actions.StepTwiceMovesOn | src/main/java/hk/ust/comp3021/game/AbstractSokobanGame.java:66-71 | the cell beyond a pushed box is never the pusher's own cell |
| MapText.Pieces | src/main/java/hk/ust/comp3021/game/GameMap.java:86 | splitting at newlines yields at least one piece and no piece holds a newline |
| MapText.DropTrailingEmpty | src/main/java/hk/ust/comp3021/game/GameMap.java:86 | `split` drops exactly the trailing empty strings: the result is a prefix, does not end in `""`, and only `""` was removed |
| MapText.PiecesAfterLine | src/main/java/hk/ust/comp3021/game/GameMap.java:86 | a line followed by a newline splits off as the first piece |
| MapText.PiecesOfJoin | src/main/java/hk/ust/comp3021/game/GameMap.java:86 | splitting lines joined with newline terminators gives the lines back plus one empty piece |
| MapText.SplitJoinedLines | src/main/java/hk/ust/comp3021/game/GameMap.java:86 | round trip: `split("\\r?\\n")` of lines written one per line returns those lines |
| MapText.SplitLines | src/main/java/hk/ust/comp3021/game/GameMap.java:86 | `mapText.split("\\r?\\n")`: no resulting line holds a line feed |
| MapText.StripSeparators | src/main/java/hk/ust/comp3021/game/GameMap.java:86 | taking the optional carriage return of each `\r?\n` separator off the piece before it keeps one line per piece |
| MapText.PiecesOfLine | src/main/java/hk/ust/comp3021/game/GameMap.java:86 | text without a line feed is a single piece |
| MapText.SplitSingleLine | src/main/java/hk/ust/comp3021/game/GameMap.java:86 | `split` of a text without a separator is that text alone, the empty text included |
| MapText.ParseInt | src/main/java/hk/ust/comp3021/game/GameMap.java:87 | `Integer.parseInt` accepts only values in the 32-bit range |
| MapText.Digits | src/main/java/hk/ust/comp3021/game/GameMap.java:87 | a non-negative number's decimal text is a non-empty string of digits |
| MapText.DigitsValueOfDigits | src/main/java/hk/ust/comp3021/game/GameMap.java:87 | reading decimal digits back gives the number written |
| MapText.ParseIntOfDecimal | src/main/java/hk/ust/comp3021/game/GameMap.java:87 | round trip: parsing the decimal text of any `int` gives that `int` |
| MapText.ParseIntRejectsNonDigit | src/main/java/hk/ust/comp3021/game/GameMap.java:87 | a non-digit character anywhere other than a leading sign makes `parseInt` fail |
| GameMaps.Put | src/main/java/hk/ust/comp3021/game/GameMap.java:122-132 | writing a cell keeps the grid's shape, sets that cell and leaves every other cell as it was |
| GameMaps.BoxPositions | src/main/java/hk/ust/comp3021/game/GameState.java:164 | the box positions are exactly the cells holding a box |
| GameMaps.NotWallIsInterior | src/main/java/hk/ust/comp3021/game/AbstractSokobanGame.java:65-72 | on a playable grid every non-wall cell is interior, so one step from it stays on the grid |
| GameMaps.DestinationCells | src/main/java/hk/ust/comp3021/game/GameMap.java:91-100 | a position is a destination exactly when it lies in the map rows below the first line and its character is `@` |
| GameMaps.CollectDestinations | src/main/java/hk/ust/comp3021/game/GameMap.java:91-100 | the nested scan loops compute the destination set, or the index error a short row raises |
| GameMaps.DecimalIsPlain | src/main/java/hk/ust/comp3021/game/GameMap.java:86-87 | a number's decimal text is a single line with no carriage return |
| GameMaps.ParseRenderedMap | src/main/java/hk/ust/comp3021/game/GameMap.java:84-102 | parsing an undo limit line followed by equal-length rows gives that limit, the first row's width, the row count and the `@` cells |
| GameMaps.ParseRejectsBadUndoLimit | src/main/java/hk/ust/comp3021/game/GameMap.java:87 | a first line that is not an integer makes `parse` fail |
| GameMaps.ParseExample | src/main/java/hk/ust/comp3021/game/GameMap.java:84-102 | the text `3\n.A.@\n` parses to limit 3, width 4, height 1 and destination (3,0) |
| GameMaps.ParseLayout | src/main/java/hk/ust/comp3021/game/GameMap.java:84-102 | `parse` on values. On success the undo limit is the first line's integer (a 32-bit value), the width is the length of the first row, the height is the number of lines after the first (at least one), and a cell is a destination exactly when its row is a map row, its column is below the width, and it holds `@` (so an `@` past the width in a longer later row is not one). It fails with `NotAnInteger` exactly when the first line is not an integer, and succeeds exactly when that line is one, at least one row follows, and no row is shorter than the first |
| GameMaps.ParseOfLines | src/main/java/hk/ust/comp3021/game/GameMap.java:84-102 | a text that splits into an integer line and rows no shorter than the first row parses to exactly that integer, that width, that row count and the `@` cells within the width |
| GameMaps.ParseJoinedLines | src/main/java/hk/ust/comp3021/game/GameMap.java:84-102 | the same for a map file written out one plain line per line |
| GameMaps.ParseJoinedLinesAs | src/main/java/hk/ust/comp3021/game/GameMap.java:84-102 | the same, with the expected limit, width, height and destinations given separately |
| GameMaps.PlainLinesPrepend | src/main/java/hk/ust/comp3021/game/GameMap.java:86 | a line without a line feed or trailing carriage return, put before plain lines, leaves lines that the split returns unchanged |
| GameMaps.RenderedLines | src/main/java/hk/ust/comp3021/game/GameMap.java:86-88 | the decimal limit line followed by equal-length rows is a plain file whose first line parses back to the limit and whose rows are all as long as the first |
| GameMaps.ParseIgnoresBeyondWidth | src/main/java/hk/ust/comp3021/game/GameMap.java:94-100 | the text `1\n.@\n.@@\n` parses to width 2 and height 2 with destinations (1,0) and (1,1): the `@` in column 2 of the longer second row is not read |
| GameMaps.OneRowExampleLines | src/main/java/hk/ust/comp3021/game/GameMap.java:86-87 | the lines `3` and `.A.@` are plain, the first parses to 3, and together they are the text `3\n.A.@\n` |
| GameMaps.LongerRowExampleLines | src/main/java/hk/ust/comp3021/game/GameMap.java:86-87 | the lines `1`, `.@` and `.@@` are plain, the first parses to 1, and together they are the text `1\n.@\n.@@\n` |
| GameMaps.ExampleDestinations | src/main/java/hk/ust/comp3021/game/GameMap.java:94-100 | the `@` cells within the width of the two example maps are exactly (3,0), and exactly (1,0) and (1,1) |
| GameMaps.GameMap.constructor | src/main/java/hk/ust/comp3021/game/GameMap.java:39-47 | a new map keeps its width, height, destinations and undo limit, and has a grid of that size with every cell unset |
| GameMaps.GameMap.Copy | src/main/java/hk/ust/comp3021/game/GameState.java:42 | copying a map gives a fresh grid with the same cells, player index and metadata |
| GameMaps.GameMap.Parse | src/main/java/hk/ust/comp3021/game/GameMap.java:84-102 | `parse` returns a fresh map with exactly the layout `ParseLayout` gives, or its error. The returned map has every cell unset and an empty player index, as `parse` builds it with the plain constructor |
| GameMaps.GameMap.GetEntity | src/main/java/hk/ust/comp3021/game/GameMap.java:111-114 | reads the cell at column x, row y |
| GameMaps.GameMap.PutEntity | src/main/java/hk/ust/comp3021/game/GameMap.java:122-132 | afterwards the cell holds the entity, every other cell and the player index are unchanged |
| GameMaps.GameMap.GetBoxPositions | src/main/java/hk/ust/comp3021/game/GameState.java:164 | the scan over the grid returns exactly the box positions |
| GameMaps.GameMap.GetDestinations | src/main/java/hk/ust/comp3021/game/GameMap.java:139-142 | the destinations the map was built with |
| GameMaps.GameMap.GetUndoLimit | src/main/java/hk/ust/comp3021/game/GameMap.java:149-152 | the undo limit, always present |
| GameMaps.GameMap.GetMaxWidth | src/main/java/hk/ust/comp3021/game/GameMap.java:169-172 | the width, which is the grid's column count |
| GameMaps.GameMap.GetMaxHeight | src/main/java/hk/ust/comp3021/game/GameMap.java:179-182 | the height, which is the grid's row count |
| GameStates.MoveEntity | src/main/java/hk/ust/comp3021/game/GameState.java:125-132 | `move(from, to)`: `from` becomes empty, `to` receives what stood at `from`, all other cells stay, and only a moved player's key changes, to `to` |
| GameStates.Checkpointed | src/main/java/hk/ust/comp3021/game/GameState.java:142-147 | `checkpoint()` on values: live board, quota and `init` are kept, and the slot holds the live board and the quota |
| GameStates.Undone | src/main/java/hk/ust/comp3021/game/GameState.java:156-181 | `undo()` on values, recursion included. It always empties the slot and keeps the quota a present 32-bit value. The live board becomes the original map or the checkpoint's board |
| GameStates.MoveKeepsIndex | src/main/java/hk/ust/comp3021/game/GameState.java:125-132 | moving into an empty cell keeps the player index in step with the cells |
| GameStates.UndoneClosedForm | src/main/java/hk/ust/comp3021/game/GameState.java:156-181 | `undo()` always empties the checkpoint slot. It restores a checkpoint that is not stale and otherwise resets to the original map. On a restore the quota drops only from above 1; on a reset it drops only when `init` is clear. `init` is cleared exactly when a stale checkpoint is skipped |
| GameStates.ResetFreeWhileInit | src/main/java/hk/ust/comp3021/game/GameState.java:158-163 | with no checkpoint and `init` set, undo resets to the original map at no quota cost |
| GameStates.UndoneQuotaBounds | src/main/java/hk/ust/comp3021/game/GameState.java:156-181 | one `undo()` lowers the quota by at most one and never raises it |
| GameStates.UndonePreservesWellFormed | src/main/java/hk/ust/comp3021/game/GameState.java:156-181 | undo keeps the live board playable and the quota a present 32-bit value |
| GameStates.WonIffDestinationsCovered | src/main/java/hk/ust/comp3021/game/GameState.java:106-115 | the game is won exactly when every destination holds a box; with no destinations it is won |
| GameStates.RemovingBoxLoses | src/main/java/hk/ust/comp3021/game/GameState.java:106-115 | emptying any destination means the game is not won |
| GameStates.GameState.constructor | src/main/java/hk/ust/comp3021/game/GameState.java:38-43 | a new game plays on a fresh copy of the map, with quota equal to the undo limit, no checkpoint and `init` set |
| GameStates.GameState.GetPlayerPositionById | src/main/java/hk/ust/comp3021/game/GameState.java:51-54 | present exactly when the live index has the key `(char)('A'+id)`, and then that entry |
| GameStates.GameState.GetAllPlayerPositions | src/main/java/hk/ust/comp3021/game/GameState.java:61-64 | exactly the positions in the live player index |
| GameStates.GameState.GetEntity | src/main/java/hk/ust/comp3021/game/GameState.java:72-75 | the live board's cell |
| GameStates.GameState.GetDestinations | src/main/java/hk/ust/comp3021/game/GameState.java:83-86 | the original map's destinations |
| GameStates.GameState.GetUndoQuota | src/main/java/hk/ust/comp3021/game/GameState.java:95-98 | the quota left, which is always present |
| GameStates.GameState.GetMapMaxWidth | src/main/java/hk/ust/comp3021/game/GameState.java:189-192 | the original map's width, equal to the live map's |
| GameStates.GameState.GetMapMaxHeight | src/main/java/hk/ust/comp3021/game/GameState.java:200-203 | the original map's height, equal to the live map's |
| GameStates.GameState.IsWin | src/main/java/hk/ust/comp3021/game/GameState.java:106-115 | the loop over the destinations returns true exactly when each holds a box on the live board |
| GameStates.GameState.Move | src/main/java/hk/ust/comp3021/game/GameState.java:125-132 | the live board becomes `MoveEntity` of it; quota, checkpoint and `init` stay |
| GameStates.GameState.Checkpoint | src/main/java/hk/ust/comp3021/game/GameState.java:142-147 | the slot holds a newly allocated record whose map and grid are newly allocated too, holding a copy of the live board and the current quota, and the saved state has no checkpoint of its own |
| GameStates.GameState.CheckpointDiffers | src/main/java/hk/ust/comp3021/game/GameState.java:164-174 | the loop over the live box positions finds a box on a cell that held none in the checkpoint exactly when the checkpoint is not stale |
| GameStates.GameState.ResetToOriginal | src/main/java/hk/ust/comp3021/game/GameState.java:158-163 | the no-checkpoint branch of `undo()`, as `Undone` states it |
| GameStates.GameState.RestoreCheckpoint | src/main/java/hk/ust/comp3021/game/GameState.java:166-174 | the restoring branch of `undo()`, as `Undone` states it |
| GameStates.GameState.Undo | src/main/java/hk/ust/comp3021/game/GameState.java:156-181 | the new game state is `Undone` of the old one |
| SokobanGames.StepFromInterior | src/main/java/hk/ust/comp3021/game/AbstractSokobanGame.java:55-58 | a step from an interior cell stays on the grid |
| SokobanGames.MovePreservesPlayable | src/main/java/hk/ust/comp3021/game/GameState.java:125-132 | a move between interior cells keeps a board playable |
| SokobanGames.Process | src/main/java/hk/ust/comp3021/game/AbstractSokobanGame.java:39-86 | `processAction` on values: the result carries the action, a failure leaves the game unchanged, and the quota stays present |
| SokobanGames.ProcessPreservesWellFormed | src/main/java/hk/ust/comp3021/game/AbstractSokobanGame.java:39-86 | every action keeps the live board, the checkpoint and the quota well formed |
| SokobanGames.ProcessKeepsIndex | src/main/java/hk/ust/comp3021/game/AbstractSokobanGame.java:39-86 | every action keeps the player index in step with the cells, on the live board and on the checkpoint |
| SokobanGames.FailureChangesNothing | src/main/java/hk/ust/comp3021/game/AbstractSokobanGame.java:39-86 | a failed action and Exit leave the game as it was; the result carries the action; Exit succeeds; invalid input fails with the invalid-input message |
| SokobanGames.UndoGate | src/main/java/hk/ust/comp3021/game/AbstractSokobanGame.java:43-51 | undo succeeds exactly when the quota is positive, and then runs `undo()`; otherwise the game is unchanged and the reason is the quota message |
| SokobanGames.MissingPlayerFails | src/main/java/hk/ust/comp3021/game/AbstractSokobanGame.java:53-55 | an initiator above 1, or one with no index entry, fails with the player-not-found message and changes nothing |
| SokobanGames.BlockedMoveFails | src/main/java/hk/ust/comp3021/game/AbstractSokobanGame.java:58-60 | walking into a player or a wall changes nothing and fails: with the hit-player message for a player, the hit-wall message for a wall |
| SokobanGames.MoveIntoEmpty | src/main/java/hk/ust/comp3021/game/AbstractSokobanGame.java:61-64 | walking into an empty cell succeeds. The player's cell empties and the target takes its content. Other cells stay, the index follows the player, and quota and checkpoint stay |
| SokobanGames.PushMovesBox | src/main/java/hk/ust/comp3021/game/AbstractSokobanGame.java:65-77 | a push with an empty cell beyond succeeds. The checkpoint holds the pre-push board and quota. The box moves one cell on and the player takes its cell; nothing else moves. The pusher's index entry moves to the box's old cell and no other entry changes |
| SokobanGames.PushBlockedFails | src/main/java/hk/ust/comp3021/game/AbstractSokobanGame.java:72-80 | a box without an empty cell beyond stays and the move fails with the push message |
| SokobanGames.PushThenUndo | src/main/java/hk/ust/comp3021/game/AbstractSokobanGame.java:43-77 | undo right after a push restores the pre-push board and empties the slot; the quota pays one only from above 1 |
| SokobanGames.UndoRevertsOnlyLastPush | src/main/java/hk/ust/comp3021/game/GameState.java:142-181 | after two pushes one undo restores the board between them, which differs from the board before both |
| SokobanGames.QuotaNeverRises | src/main/java/hk/ust/comp3021/game/AbstractSokobanGame.java:39-86 | no action raises the quota, a non-negative quota stays non-negative, and -1 stays -1 |
| SokobanGames.ProcessKeepsCheckpointUseful | src/main/java/hk/ust/comp3021/game/AbstractSokobanGame.java:39-86 | every action keeps the checkpoint non-stale (some box stands where the checkpoint had none), keeps `init` set once set, and while `init` is set never takes a quota of at least 1 below 1 |
| SokobanGames.ExampleIsPlayable | src/main/java/hk/ust/comp3021/game/GameMap.java:50-83 | the three-row walled level used below is playable |
| SokobanGames.ExamplePushWinsAndUndoTakesItBack | src/main/java/hk/ust/comp3021/game/AbstractSokobanGame.java:39-86 | on `#.Aa@.#` with limit 3, pushing right wins; undo then succeeds, restores the unwon start and leaves quota 2 |
| SokobanGames.SokobanGame.constructor | src/main/java/hk/ust/comp3021/game/AbstractSokobanGame.java:19-21 | the game runs on the given state, with no exit requested |
| SokobanGames.SokobanGame.ShouldStop | src/main/java/hk/ust/comp3021/game/AbstractSokobanGame.java:27-33 | true exactly when the live board is won or an exit was requested |
| SokobanGames.SokobanGame.ProcessAction | src/main/java/hk/ust/comp3021/game/AbstractSokobanGame.java:39-86 | the new game state and the result are what `Process` gives for the old state, and the original map (cells, index and metadata) is unchanged |
| SokobanGames.SokobanGame.ProcessMove | src/main/java/hk/ust/comp3021/game/AbstractSokobanGame.java:52-83 | the Move case: new state and result are what `Process` gives for the move, and the original map is unchanged |
| SokobanGames.SokobanGame.Push | src/main/java/hk/ust/comp3021/game/AbstractSokobanGame.java:72-76 | a push records the checkpoint, then moves the box one cell on and the player into the box's old cell, leaving the original map unchanged |
| TerminalInput.FetchAction | src/main/java/hk/ust/comp3021/tui/TerminalInputEngine.java:40-64 | the action for one line. Moves come only from players 0 and 1, every other action has initiator -1, and invalid input carries the invalid-input message |
| TerminalInput.Upper | src/main/java/hk/ust/comp3021/tui/TerminalInputEngine.java:41 | upper-casing maps each character by itself and keeps the length |
| TerminalInput.UpperSpells | src/main/java/hk/ust/comp3021/tui/TerminalInputEngine.java:41 | a line upper-cases to an all-capitals word exactly when it spells that word in either case |
| TerminalInput.FetchIgnoresCase | src/main/java/hk/ust/comp3021/tui/TerminalInputEngine.java:41-64 | the action read from a line does not depend on the line's letter case |
| TerminalInput.PlayerZeroKeys | src/main/java/hk/ust/comp3021/tui/TerminalInputEngine.java:42-49 | A/S/W/D, in either case and nothing else, move player 0 left/down/up/right |
| TerminalInput.PlayerOneKeys | src/main/java/hk/ust/comp3021/tui/TerminalInputEngine.java:50-57 | H/J/K/L, in either case and nothing else, move player 1 left/down/up/right |
| TerminalInput.UndoAndExitKeys | src/main/java/hk/ust/comp3021/tui/TerminalInputEngine.java:58-61 | `u` is Undo and `exit` is Exit, in any case, both with initiator -1 |
| TerminalInput.OtherLinesInvalid | src/main/java/hk/ust/comp3021/tui/TerminalInputEngine.java:62-64 | every other line is InvalidInput(-1, the invalid-input message), and moves only come from players 0 and 1 |

## Left out

- How the original map's cells and player index get filled. `GameMap`'s
  constructor leaves every cell `null` and the index empty, and nothing in
  the code modelled here fills them. Three members are called from
  `GameState.java` but not defined in `GameMap.java`: the copy constructor
  `GameMap(GameMap)`, `getPlayerPosition()` and `getBoxPositions()`. `Copy`
  and `GetBoxPositions` are modelled on what those calls evidently do, and
  the player index is the `players` field.
- The validation `parse` promises in its documentation (duplicate players,
  boxes without owners, bad undo limits) is not in the code, so it is not
  modelled.
- `getPlayerIds()`: not modelled, because the Java method only throws
  `NotImplementedException`.
- Entities are values here. The fresh objects `putEntity` allocates, and
  their identity, are not modelled.
- `GameMaps.GameMap.constructor`: requires non-negative sizes; Java would
  throw `NegativeArraySizeException` on a negative one.
- `GameMaps.GameMap.GetEntity`: requires an in-bounds position, where Java
  throws `ArrayIndexOutOfBoundsException`.
- `SokobanGames.Process`: requires a well-formed game. With a walled border
  and interior players no step leaves the grid. It is the state every
  action keeps, since the code itself never bounds-checks a step.
- `GameStates.GameState.IsWin`: requires the destinations to lie inside the
  map, as `parse` produces them. Java would throw on an outside one.
- `GameStates.GameState.IsWin`: states what the loop returns, not the order
  in which it visits the set.
- `GameStates.GameState.Move`: requires the source cell to be set. A
  `null` source makes the type-pattern switch in Java's `putEntity` throw
  `NullPointerException`, and the game never moves from an empty slot.
- `GameStates.GameState.Undo`: assumes the quota is present, as
  `getUndoLimit()` always makes it.
- `StringResources` is not part of this model. Its three messages are
  stood in for by their constant names.
- `Action` and `ActionResult` enter only through the data they carry.
  `Move.nextPosition` is modelled as `Step`.
- Reading a line from the terminal (`Scanner.nextLine`) is left out. The
  line is a parameter of `FetchAction`.
- `toUpperCase` is modelled for ASCII letters only. Non-ASCII and
  locale-dependent case mappings are left out, and they do change which
  action a line gives:
  - `"ſ"` (U+017F) upper-cases to `"S"`, so Java moves player 0 down on it;
  - `"exıt"` (with U+0131) upper-cases to `"EXIT"`;
  - in a Turkish locale `"exit"` upper-cases to `"EXİT"`, which is invalid
    input.

  Here all three lines are invalid input, and `"exit"` is always Exit.
- Map text is a Dafny `string`, whose characters are Unicode scalar
  values. Java's `length()` and `charAt` in `parse` count UTF-16 code
  units. For a row holding a character outside the Basic Multilingual
  Plane, Java's width is larger and the `@` columns after that character
  are shifted by one per such character to their left. The model does not
  capture this.
- `Integer.parseInt` is modelled for ASCII digits only. Java also accepts
  other Unicode decimal digits.
- Setting `requestExit` happens outside the core: `processAction` answers
  Exit with a success and leaves `requestExit` alone. The run loop in
  `TerminalSokobanGame`, rendering and output are left out.
