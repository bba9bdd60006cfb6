# Arcade hub game rules in Dafny

This project models the rules of the four games in the arcade hub and proves properties about them:

- **Connect Four**: gravity-drop placement on a 6 x 7 grid, a local four-direction win count, and the turn / victory / draw transition.
- **Flappy Drone**: one animation-frame tick covering these steps:
  - an Euler velocity/position step and a boundary check;
  - a spawn countdown that appends pipe pairs;
  - shifting the pipes, and evicting the oldest one from the head;
  - box collision with the pipes;
  - pass-once scoring with a score-driven gap ramp.

  It also models jump, reset and the best-score rule.
- **Star Catcher**: one animation-frame tick (spawn countdown, then a walk over the falling items from last to first that moves, catches or drops each one), the one-second countdown, starting a round and steering the basket.
- **Memory Match**: dealing a shuffled deck in which every icon appears twice, the click guard (at most two face-up cards), move counting, match and mismatch resolution, and victory on the last pair.

Module layout:

| file | module | content |
|---|---|---|
| `arcade.dfy` | `Arcade` | the session status, the best-score rule, scaling a random draw |
| `connect_four.dfy` | `ConnectFour` | the `Game` class plus the pure board model it is proved against |
| `flappy_bird.dfy` | `FlappyBird` | the `FlappyGame` class plus the pure step functions its tick is proved against |
| `catcher.dfy` | `Catcher` | the `CatcherGame` class plus the recursive model of its item loop |
| `memory.dfy` | `Memory` | the `MemoryGame` class plus the pure deck and resolution functions |

Each component becomes a class whose fields are the component's state hooks and its mutable game-state record. Every method that changes state is proved against a pure function of the old state. The properties the games promise are proved as lemmas about those functions.

How the model treats inputs and timing:

- **Parameters.** Randomness (`Math.random()`), the canvas size, the pointer position and the responsive sizes derived from the window are parameters.
- **Reals.** Positions and speeds are exact `real`s.
- **Explicit steps.** Each timer callback is one explicit method call: the animation frame, the one-second countdown, and the delayed resolution of a face-up pair.
- **Immediate state.** React state updates take effect at once. A callback that reads a value captured in an earlier render is therefore modelled as reading the current value.

Two behaviours of the code worth knowing:

- Both physics games update the best score whenever the score rises during play, not once at the end of a round.
- The Flappy Drone collision loop keeps scoring the remaining pipes in the frame that crashed.

## Model

| member | source | states |
|---|---|---|
| Arcade.UpdateBest | games/FlappyBird.tsx:69-74 | The best score becomes the larger of best and score. It changes exactly when the score is strictly greater. |
| Arcade.Scale | games/FlappyBird.tsx:156-158 | A random draw in [0, 1) times a non-negative span lands in [0, span], and strictly below a positive span. |
| ConnectFour.Other | games/ConnectFour.tsx:115 | The turn toggle always hands the move to the other player. |
| ConnectFour.BoardFull | games/ConnectFour.tsx:112 | The draw test: every cell holds a piece, so no column has room left. |
| ConnectFour.EmptyBoard | games/ConnectFour.tsx:25 | A well-formed 6 x 7 board with every cell empty. |
| ConnectFour.Initial | games/ConnectFour.tsx:24-31 | initGame gives an empty board, player 1 to move, PLAYING, no winner and no last move. |
| ConnectFour.Delta | games/ConnectFour.tsx:40-45 | The four scan directions (horizontal, vertical, two diagonals), in the code's order. Each is a non-zero unit step that never points upwards. |
| ConnectFour.Run | games/ConnectFour.tsx:51-65 | A one-sided scan counts at most 3 cells (4 - k from step k). |
| ConnectFour.LineCount | games/ConnectFour.tsx:47-84 | The count through a cell along one direction, the cell itself plus both one-sided scans, is between 1 and 7. |
| ConnectFour.Wins | games/ConnectFour.tsx:47-86 | checkWin's verdict for a cell: some direction's count reaches 4. Its meaning is proved in WinsIffLine. |
| ConnectFour.RunCovers | games/ConnectFour.tsx:51-82 | Every cell a scan counts holds the player's piece. The scan stops exactly at the first step that is off the grid or not the player's. |
| ConnectFour.RunAtLeast | games/ConnectFour.tsx:51-82 | A scan counts at least every consecutive stretch of the player's pieces starting at its first step. |
| ConnectFour.WinsIffLine | games/ConnectFour.tsx:33-87 | Take a cell holding the player's piece. The local count reaches 4 in some direction iff some four-in-a-row of that player passes through the cell (both directions proved). |
| ConnectFour.ScannedCell | games/ConnectFour.tsx:52-59 | The bounds-checked cell test at step i holds exactly when the cell at offset i along the direction is on the grid and holds the player's piece. |
| ConnectFour.ScanRun | games/ConnectFour.tsx:51-82 | Each inner loop of checkWin returns the contiguous run of the player's pieces one way along a direction. |
| ConnectFour.CheckWin | games/ConnectFour.tsx:33-87 | checkWin is true iff one of the four directions counts at least 4. |
| ConnectFour.ColumnFull | games/ConnectFour.tsx:104 | No row of the column is empty, so no row is found for the piece and the drop does nothing. |
| ConnectFour.LowestEmpty | games/ConnectFour.tsx:96-102 | The scan from the bottom finds an empty row with every row below it occupied, or -1 for a full column. |
| ConnectFour.Place | games/ConnectFour.tsx:98 | Writing the piece changes exactly the chosen cell, to the mover's piece, and leaves every other cell and the 6 x 7 shape as they were. |
| ConnectFour.Drop | games/ConnectFour.tsx:89-117 | See the list after this table. |
| ConnectFour.DropAll | games/ConnectFour.tsx:89-117 | Any sequence of drops keeps the state consistent. |
| ConnectFour.EndedGameIsFrozen | games/ConnectFour.tsx:90 | Once VICTORY or a draw is reached, no further drop changes anything, so a confirmed winning line is final. |
| ConnectFour.Game.constructor | games/ConnectFour.tsx:20-31 | Mounting yields the initGame state. |
| ConnectFour.Game.InitGame | games/ConnectFour.tsx:24-31 | initGame (and retry) yields the initial state. |
| ConnectFour.Game.DropPiece | games/ConnectFour.tsx:89-117 | The in-place dropPiece (bottom-up scan, write, checkWin, full-board test) yields exactly Drop of the old state, and the invariant is kept. |
| FlappyBird.MinGapY | games/FlappyBird.tsx:148 | The top of the gap window is at least 100 and at least 20% of the height. |
| FlappyBird.MaxGapY | games/FlappyBird.tsx:151-154 | The gap window never inverts: its bottom is at least its top, and at least height - margin - gap. |
| FlappyBird.SpawnGapY | games/FlappyBird.tsx:156-158 | A new gap top is a whole number strictly between minGapY - 1 and maxGapY + 1. |
| FlappyBird.Spawned | games/FlappyBird.tsx:142-160 | See the list after this table. |
| FlappyBird.Scrolled | games/FlappyBird.tsx:141-224 | The post-boundary part of a tick keeps the spawn countdown within its bound, adds at most one obstacle, and never lowers the score. |
| FlappyBird.Advanced | games/FlappyBird.tsx:163-165 | Every obstacle's x decreases by exactly the speed. Its gap and passed flag are unchanged, and so is the count. |
| FlappyBird.Evicted | games/FlappyBird.tsx:168-173 | At most one obstacle is removed, only the head, and exactly when it is entirely left of the canvas. |
| FlappyBird.OutOfBounds | games/FlappyBird.tsx:136 | A drone that passes the boundary test lies wholly between the top and bottom edges of the canvas. |
| FlappyBird.HitsPipe | games/FlappyBird.tsx:188-203 | Touching the top or bottom pipe needs the drone's box to overlap the pipe horizontally, so an obstacle the drone has cleared can never be hit. |
| FlappyBird.Cleared | games/FlappyBird.tsx:206 | The scoring test: the drone's left edge is past the obstacle's right edge. |
| FlappyBird.Visit | games/FlappyBird.tsx:184-223 | One iteration of the collision loop keeps the number of obstacles, adds at most one point, and never undoes a crash. |
| FlappyBird.VisitCrashes | games/FlappyBird.tsx:187-203 | One iteration has crashed exactly when the loop already had, or the visited obstacle's top or bottom pipe touches the drone with the current gap. |
| FlappyBird.MinGap | games/FlappyBird.tsx:215 | The gap floor is at least 100 and at least 62.5% of the base gap. |
| FlappyBird.GapForScore | games/FlappyBird.tsx:210-216 | The gap is never below the floor, nor below the base less the score rounded down to a multiple of 10. It is either the floor or the base less 10 per 10 points, and never above the base. |
| FlappyBird.GapNonIncreasing | games/FlappyBird.tsx:210-216 | A higher score never widens the gap. |
| FlappyBird.GapStepsEveryTen | games/FlappyBird.tsx:210 | The gap only changes at multiples of ten points. |
| FlappyBird.SweepUpTo | games/FlappyBird.tsx:183-224 | The collision loop keeps every obstacle's position and gap. An obstacle ends up passed iff it already was or the drone has cleared it, so passed never reverts. The score never drops and a crash is never undone. |
| FlappyBird.SweepCrashes | games/FlappyBird.tsx:183-203 | The loop has crashed exactly when it already had, or the drone's box touches a pipe of some visited obstacle, measured with the gap in force when the loop reaches that obstacle. |
| FlappyBird.SweepScoreGrows | games/FlappyBird.tsx:206-208 | The score never drops as the loop advances. |
| FlappyBird.QuietSweepCrashes | games/FlappyBird.tsx:183-203 | In a frame that scores nothing, the loop crashes exactly when it already had or some visited obstacle's pipes, with the frame's starting gap, touch the drone. |
| FlappyBird.PassedCountMark | games/FlappyBird.tsx:206-208 | Flagging one unscored obstacle adds exactly one to the number of passed obstacles. |
| FlappyBird.SweepScoresEachPassOnce | games/FlappyBird.tsx:206-208 | The points scored in a frame equal the number of obstacles newly flagged passed, so no obstacle scores twice. |
| FlappyBird.SweepGapFollowsScore | games/FlappyBird.tsx:206-216 | After a frame that scored, the gap is the ramp's value for the new score; otherwise it is unchanged. |
| FlappyBird.SweepBestTracksScore | games/FlappyBird.tsx:218-222 | After the loop the best score is UpdateBest(old best, new score) and covers the score. |
| FlappyBird.NoPrematureScoring | games/FlappyBird.tsx:206 | An obstacle the drone has not cleared is never flagged passed. |
| FlappyBird.FlappyGame.constructor | games/FlappyBird.tsx:34-47 | Initial ref values: drone at 300 at rest, no obstacles, timer and score 0, IDLE, the stored best. |
| FlappyBird.FlappyGame.ResetGame | games/FlappyBird.tsx:51-67 | Drone mid-canvas (300 without a canvas) at rest, no obstacles, timer and score 0, the base gap, PLAYING. The best score and tuning are kept. |
| FlappyBird.FlappyGame.Jump | games/FlappyBird.tsx:76-82 | In PLAYING only the velocity changes, to jumpStrength. In IDLE the game resets (drone mid-canvas at rest, empty course, score 0, base gap) and enters PLAYING. Otherwise nothing changes. In every branch the drone size, gravity, jump strength, pipe width and speed are kept. |
| FlappyBird.FlappyGame.UpdateHighScore | games/FlappyBird.tsx:69-74 | The best is replaced only by a strictly greater score. |
| FlappyBird.FlappyGame.Update | games/FlappyBird.tsx:128-225 | See the list after this table. |
| FlappyBird.FlappyGame.Scroll | games/FlappyBird.tsx:141-224 | The post-boundary part of the tick equals the Scrolled frame of the old state, and the score stays within the best. |
| FlappyBird.FlappyGame.SpawnTick | games/FlappyBird.tsx:142-160 | The in-place countdown and push equal Spawned. |
| FlappyBird.FlappyGame.MoveObstacles | games/FlappyBird.tsx:163-165 | The in-place loop equals Advanced of the old list. |
| FlappyBird.FlappyGame.CollideAndScore | games/FlappyBird.tsx:176-224 | The in-place collision loop equals SweepUpTo over the whole list. The best score is UpdateBest(old best, new score). |
| FlappyBird.FlappyGame.VisitObstacle | games/FlappyBird.tsx:184-223 | One in-place iteration (both pipe tests, then pass-once scoring with the gap ramp and the best-score offer) equals Visit of the old state. |
| Catcher.NewItem | games/CatcherGame.tsx:108-114 | A spawned item starts at y = -50 and is a star iff the draw exceeds 0.2. Its speed is in [3, 5), and its x is in [0, width - 50] when the canvas is at least 50 wide. |
| Catcher.Spawned | games/CatcherGame.tsx:105-115 | The timer counts frames. Past 40 it resets to 0 and exactly one new item is appended; otherwise the list is unchanged. |
| Catcher.Moved | games/CatcherGame.tsx:120 | An item falls by exactly its own speed; nothing else about it changes. |
| Catcher.Caught | games/CatcherGame.tsx:124-129 | The basket test. An item it catches is still above the bottom edge, so it is never also counted as missed. |
| Catcher.Missed | games/CatcherGame.tsx:151 | The missed-item test: the item is below the bottom edge. |
| Catcher.Penalized | games/CatcherGame.tsx:137 | A bomb costs 50 points, and the score is clamped at 0 and never rises. |
| Catcher.BombAsWritten | games/CatcherGame.tsx:139-144 | As written: on the last life the round ends and the lives are left as they were; otherwise one life is lost. |
| Catcher.Bomb | games/CatcherGame.tsx:139-144 | Corrected: a bomb costs one life, and the round ends exactly when that was the last one. |
| Catcher.BombBy | games/CatcherGame.tsx:139-144 | The bomb rule the tick follows. Under either rule the round ends exactly on the last life, and otherwise one life is lost. At the end the lives are kept as written, and 0 under the corrected rule. |
| Catcher.VerdictFor | games/CatcherGame.tsx:234-237 | The result dialog says the player ran out of lives iff no life is left. |
| Catcher.Visit | games/CatcherGame.tsx:119-153 | One loop iteration, under either bomb rule, removes at most the visited item and never touches the items before it. It never raises the lives, and a round once over stays over. |
| Catcher.VisitScore | games/CatcherGame.tsx:130-137 | One iteration adds 10 for a caught star, applies the 50-point penalty (clamped at 0) for a caught bomb, whether or not that bomb ends the round, and leaves the score alone otherwise. |
| Catcher.VisitLeavesRest | games/CatcherGame.tsx:119-153 | The items after the visited one stay at the end of the list, unchanged. |
| Catcher.FatalBombStopsLoop | games/CatcherGame.tsx:136-141 | A bomb caught on the last life ends the round at once. The score is penalized and the bomb stays in the list, already moved. The loop stops and leaves the items below it unmoved. Under the rule as written the lives are left as they were; under the corrected rule none is left. |
| Catcher.Descend | games/CatcherGame.tsx:118-154 | The reverse loop over the first i items keeps between |items| - i and |items| items, and never raises the lives. |
| Catcher.DescendLeavesUnvisited | games/CatcherGame.tsx:118-154 | The items the loop has not reached stay at the end of the list, unchanged. |
| Catcher.DescendKeeps | games/CatcherGame.tsx:118-154 | See the list after this table. |
| Catcher.DescendLives | games/CatcherGame.tsx:136-144 | While the round goes on, every caught bomb costs one life and at least one is left. When a bomb ends the round, exactly 1 life is left under the rule as written and 0 under the corrected one. |
| Catcher.LoopVerdict | games/CatcherGame.tsx:139-141 | When the item loop ends the round, the result dialog says "Time's Up!" under the rule as written and "Game Over" under the corrected one. |
| Catcher.DescendScore | games/CatcherGame.tsx:130-135 | With no caught bomb the round goes on and the score rises by 10 per caught star. |
| Catcher.DescendBest | games/CatcherGame.tsx:131-135 | The best score never falls and always covers the score. |
| Catcher.FatalBombAsWrittenSaysTimesUp | games/CatcherGame.tsx:139-141 | As written, a bomb on the last life leaves one life, so the dialog says "Time's Up!". |
| Catcher.FatalBombSaysOutOfLives | games/CatcherGame.tsx:234-237 | With the corrected rule the dialog says "Game Over" exactly when a bomb ended the round. |
| Catcher.Clock | games/CatcherGame.tsx:48-54 | The countdown never increases the time left. |
| Catcher.ClockRunsOut | games/CatcherGame.tsx:44-58 | A round of t seconds is still running after k < t ticks with t - k left. It has ended with 0 left after t ticks. |
| Catcher.CatcherGame.constructor | games/CatcherGame.tsx:8-23 | Initial hooks: score 0, IDLE, 3 lives, 60 seconds, the stored best, basket at 0, no items. It also fixes the bomb rule the tick follows. |
| Catcher.CatcherGame.InitGame | games/CatcherGame.tsx:27-34 | Score 0, 3 lives, 60 seconds, PLAYING, no items, timer 0. The best score and basket are kept. |
| Catcher.CatcherGame.HandleInteractionStart | games/CatcherGame.tsx:198-202 | A press starts a round only from IDLE; otherwise nothing changes. |
| Catcher.CatcherGame.UpdateHighScore | games/CatcherGame.tsx:36-41 | The best is replaced only by a strictly greater score. |
| Catcher.CatcherGame.HandleMove | games/CatcherGame.tsx:61-66 | The basket's centre is put under the pointer. Nothing happens before the canvas exists. |
| Catcher.CatcherGame.Countdown | games/CatcherGame.tsx:47-55 | At 1 second or less the time becomes 0 and the status GAME_OVER; otherwise one second is taken off. This is one step of Clock. |
| Catcher.CatcherGame.Update | games/CatcherGame.tsx:101-155 | A frame equals Spawned followed by the whole item loop (Descend under the game's bomb rule), and the invariant (lives, best, timer bounds) is kept. If the frame ends the round, the dialog says "Time's Up!" under the rule as written and "Game Over" under the corrected one. |
| Catcher.CatcherGame.SpawnTick | games/CatcherGame.tsx:104-115 | The in-place countdown and push equal Spawned. |
| Catcher.CatcherGame.FallAndCatch | games/CatcherGame.tsx:117-154 | The reverse in-place loop with splices and an early return equals Descend over the whole list, under the game's bomb rule. Lives never rise, a running round keeps at least one life, and the verdict of an ended round is as in LoopVerdict. |
| Catcher.CatcherGame.VisitItem | games/CatcherGame.tsx:119-153 | One in-place iteration equals Visit under the game's bomb rule, and it reports whether it ended the round. |
| Memory.IconsFor | games/MemoryGame.tsx:56-59 | 6, 8 or 12 icons by difficulty, all distinct. |
| Memory.IsShuffle | games/MemoryGame.tsx:60-61 | The random-comparator sort's result: as many cards as the doubled icon list, with as many copies of every icon. |
| Memory.ShuffleIsPermutation | games/MemoryGame.tsx:60-61 | A list is such a shuffle iff its multiset equals the doubled list's (both directions), so any reordering the sort produces qualifies. |
| Memory.ShuffleSwap | games/MemoryGame.tsx:60-61 | Swapping two cards of a shuffle, as one step of a sort does, leaves a shuffle. |
| Memory.Deck | games/MemoryGame.tsx:60-67 | The cards are numbered 0 .. n-1 in deck order, face down and unmatched, with the shuffled faces. |
| Memory.DeckPairs | games/MemoryGame.tsx:60-67 | A deck dealt from a shuffle of the doubled distinct icon list shows every icon exactly twice and no other face. |
| Memory.DealtDeck | games/MemoryGame.tsx:55-71 | The deck has 12, 16 or 24 cards by difficulty, each icon of that difficulty twice and no other. |
| Memory.MarkMatched | games/MemoryGame.tsx:99-103 | A match flags exactly the two cards as matched. Every other card is unchanged. |
| Memory.Unflip | games/MemoryGame.tsx:114-118 | A mismatch turns exactly the two cards face down. Every other card, and every matched flag, is unchanged. |
| Memory.Unmatched | games/MemoryGame.tsx:107 | The number of cards not yet matched, at most the deck's size. |
| Memory.NoneUnmatched | games/MemoryGame.tsx:107 | The unmatched count is zero iff every card is matched. |
| Memory.MatchCountsTwo | games/MemoryGame.tsx:99-107 | Matching two distinct unmatched cards lowers the unmatched count by exactly two. |
| Memory.VictoryIffLastPair | games/MemoryGame.tsx:106-109 | The victory test (at most 2 unmatched before the match) holds iff the match leaves every card matched. |
| Memory.MemoryGame.constructor | games/MemoryGame.tsx:41-47 | No cards, nothing face up, no moves, IDLE, EASY. |
| Memory.MemoryGame.InitializeDeck | games/MemoryGame.tsx:55-71 | A fresh deck from the shuffle, nothing face up, no moves, and the invariant holds. |
| Memory.MemoryGame.Start | games/MemoryGame.tsx:132-137 | A difficulty button selects it, enters PLAYING and deals its deck. |
| Memory.MemoryGame.HandleCardClick | games/MemoryGame.tsx:73-93 | See the list after this table. |
| Memory.MemoryGame.Resolve | games/MemoryGame.tsx:95-122 | See the list after this table. |
| Memory.MemoryGame.Retry | games/MemoryGame.tsx:248-251 | The retry button clears the cards and returns to IDLE. |

The longer contracts:

- **ConnectFour.Drop.** Outside PLAYING, or on a full column, nothing changes. Otherwise the piece lands in the lowest empty row and only that cell changes, to the mover's piece. Then exactly one of these holds:
  - a four-in-a-row through the piece gives VICTORY and the mover as winner;
  - a full board gives GAME_OVER with no winner;
  - otherwise the turn passes.
- **FlappyBird.Spawned.** The timer counts frames. Past 180 it resets to 0 and exactly one obstacle is appended, at x = width, not passed, with its gap inside the window. Otherwise the list is unchanged.
- **FlappyBird.FlappyGame.Update.** The velocity gains gravity, and the position moves by the updated velocity. Leaving the field gives GAME_OVER with nothing else touched. Otherwise the obstacles, timer, score, gap, best and status equal the spawn → shift → evict → collision-loop composition of the old state.
- **Catcher.DescendKeeps.** If the round goes on, the items left are exactly the items neither caught nor missed, each moved, in their original order. This lemma says nothing about a frame that a bomb ends. For that frame, FatalBombStopsLoop and DescendLeavesUnvisited describe the list, and the next round starts from an empty list anyway (InitGame).
- **Memory.MemoryGame.HandleCardClick.** A click on a matched or face-up card, or while two cards are up, is a no-op. Otherwise exactly that card turns face up and is appended, and moves rises by 1 exactly on the second card. The invariant holds: at most two face-up unmatched cards, exactly the listed distinct indices.
- **Memory.MemoryGame.Resolve.** For an equal pair the result is MarkMatched, with VICTORY iff at most 2 cards were unmatched before. For an unequal pair it is Unflip. Either way nothing stays listed face up, and the invariant (including "VICTORY means every card is matched") is kept.

## Left out

- Rendering is not modelled: every `draw` function, the JSX markup, canvas sizing and the resize listeners, and the result dialog's animation. Only its title choice in the Star Catcher is modelled, as `Catcher.VerdictFor`.
- Scheduling is not modelled: `requestAnimationFrame`, `setInterval` and the 500 ms / 1000 ms `setTimeout` delays of checkForMatch. Each callback is one explicit method call, and the model says nothing about how often or in what interleaving they run.
- The React hook machinery is not modelled. Stale closures are modelled as reading current values: the `lives` read by the catcher loop, and the `cards` read by the memory victory test. The memory victory test counts the unmatched cards before the match, which is what the stale read sees.
- The second Flappy Drone score counter, kept in React state beside the game-state ref, is dropped. The model keeps only one score.
- FlappyBird.FlappyGame.Update carries the ramped gap into the next frame. In the code, the drawing effect depends on `[status, highScore]` (games/FlappyBird.tsx:126). Each re-run calls `resize()` (line 110), which sets the gap back to the base gap (line 105). So every new best score during play undoes the gap ramp until the next pipe is scored. The model does not capture this reset.
- Persistence (`localStorage` reads and writes of the best score) is I/O. The stored best is a constructor parameter, and only the "replace if strictly greater" rule is modelled.
- `getResponsiveValues` (games/FlappyBird.tsx:6-28) is floating-point scaling with rounding. Its outputs (drone size, gravity, jump strength, pipe width, base gap, speed) are parameters, and the base gap the score ramp recomputes is passed to each tick.
- IEEE floating point is not modelled: positions, speeds and the random draws are exact reals, and `Math.floor` is `.Floor`.
- `Math.random` is not modelled. Each draw is a parameter in [0, 1). The deck's `sort` with a random comparator is modelled as any rearrangement of the doubled icon list (same length and the same number of copies of every icon). The model does not capture how likely each arrangement is.
- Memory.Icon: the card faces are the twenty image paths, modelled as one constructor each. The path strings themselves are not modelled.
- Memory.MemoryGame.HandleCardClick requires an index inside the deck, because the component only offers clicks on rendered cards.
- Memory.MemoryGame.Start folds the effect that deals the deck on entering PLAYING (games/MemoryGame.tsx:49-53) into the button action. The effect's re-deal on a difficulty change while PLAYING cannot be reached from the interface and is not modelled.
- Catcher.CatcherGame.Countdown is only called while PLAYING, as the interval is only installed then. The model does not capture the interval being torn down and re-created on status changes.
- `components/SettingsModal.tsx`, `utils/gameSettings.ts`, `views/Home.tsx`, `App.tsx`, `components/GameLayout.tsx` and `components/Button.tsx` hold no game rules and are not part of this model.

## Findings

| source | as written | input that shows it | evidently intended | confidence | as-written member | corrected member |
|---|---|---|---|---|---|---|
| games/CatcherGame.tsx:139-141 | A bomb caught on the last life sets GAME_OVER and returns without taking the life away, so `lives` stays 1. | lives = 1 and a bomb lands in the basket. The result dialog (lines 234-237) tests `lives > 0` and shows "Time's Up!" / "Great job! You survived the time limit." with a victory flag. | Losing the last life leaves 0 lives, so the dialog says "Game Over" / "You ran out of lives!". | high; not executed | Catcher.FatalBombAsWrittenSaysTimesUp | Catcher.FatalBombSaysOutOfLives |

`Catcher.CatcherGame` takes the bomb rule (`Catcher.BombRule`) as a constructor argument. `AsWritten` follows lines 139-141 exactly, and `Corrected` is the intended behaviour. The item loop (`Catcher.Visit`, `Catcher.Descend`) and its lemmas are proved for both rules. `Catcher.DescendLives` and `Catcher.LoopVerdict` show the difference: a fatal bomb leaves 1 life and "Time's Up!" as written, and 0 lives and "Game Over" when corrected.
