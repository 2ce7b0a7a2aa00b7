# Darts counter scoring core, in Dafny

This project models the scoring state machine of a browser darts counter for
x01 games (301/501) with optional double-out. Players enter a visit dart by
dart: a number from the pad, then single, double or triple, or "Miss", with
at most three darts a turn. Validating the turn applies the x01 rules. Going
below zero is a bust. Under double-out, leaving one is a bust, and so is
reaching zero without a double. Reaching zero otherwise wins and ends the game.
Any other result becomes the player's new score. The turn is then logged,
and play passes to the next player (not after a win). A new game, a
validation and the forced end of a leg each save a snapshot of the state
first, and undo restores the latest snapshot.

Files and modules:

- `decimal.dfy` (`Decimal`): how a non-negative number is written in decimal. Dart labels and player names use it.
- `darts.dfy` (`Darts`): darts, the turn total, the double test and the dart label.
- `rules.dfy` (`Rules`): the verdict on a validated turn (bust, win or new score) and the score it leaves.
- `game.dfy` (`Game`): the mutable state as a class `Match`, one method per operation. There are also snapshots, the player line-up and a "scores in play" invariant (`Live`).
- `properties.dfy` (`Properties`): undo after each saving operation, removing a dart after entering it, the rule examples, and a full opening visit.

Behaviours of app.js worth stating plainly:

- A miss is labelled `Miss` (app.js:182).
- Removing a dart does nothing when no game runs (app.js:149).
- The forced end of a leg saves a snapshot first (app.js:534).
- A new game gives every player the mode value as their score, with no check on the player count (app.js:270-273).
- A new game with zero players is accepted. Validating a turn in that game saves the snapshot and then fails on the missing player (app.js:197-200). The model records only that snapshot.

## Model

| member | source | states |
|---|---|---|
| `Decimal.Show` | app.js:185 | a number's decimal text is never empty and is all digits |
| `Decimal.ParseShow` | app.js:185 | reading the decimal text back gives the number |
| `Decimal.ShowNoLeadingZero` | app.js:185 | the decimal text starts with `0` exactly for zero, which is written `0` alone, so there are no leading zeros |
| `Decimal.ShowInjective` | app.js:185 | different numbers get different texts, so a number in a label or name is recoverable |
| `Darts.TurnTotal` | app.js:177-179 | no dart of a turn is worth more than the turn total, and the total is 0 exactly when every dart scored 0 |
| `Darts.IsDouble` | app.js:188-191 | for a recorded dart that hit the board, "double" means exactly that it is worth twice its base; the outer bull entered with D counts |
| `Darts.TotalIsFaceSum` | app.js:126-129 | for recorded darts, the running total (the left fold of `reduce`) equals the sum of base times multiplier; a miss adds 0 |
| `Darts.TotalAppend` | app.js:177-179 | appending a dart raises the turn total by exactly that dart's points |
| `Darts.MissAddsNothing` | app.js:168 | appending the miss dart leaves the turn total unchanged |
| `Darts.LegalPointsBound` | app.js:116-127 | a dart that the entry operations can record scores at most 60; triple 25 is refused |
| `Darts.TotalBound` | app.js:118 | a turn of recorded darts totals at most 60 per dart, so at most 180 for a full turn |
| `Darts.Label` | app.js:181-186 | a label is never empty, and its first character tells its form: miss, bull, 25, or the multiplier letter |
| `Darts.LabelExamples` | app.js:181-186 | the exact texts: `T20 (60)`, `S7 (7)`, `Bull (50)`, `25`, `Miss` |
| `Darts.PlainLabelInjective` | app.js:185 | two labels of the form letter, base, points that are equal have the same multiplier and base |
| `Darts.LabelInjective` | app.js:181-186 | two recorded darts with the same log label are the same dart |
| `Rules.Judge` | app.js:199-226 | win exactly when the turn brings the score to 0 and, under double-out, the last dart is a double; bust exactly when the score goes below 0, or under double-out reaches 1 or reaches 0 off a double; a new score is score minus total, at least 1, and at least 2 under double-out; "below zero" is the reason exactly when the total exceeds the score |
| `Rules.SettleJudge` | app.js:228-243 | a bust keeps the score; a win or a normal turn takes off the total; the score never rises; it never goes below zero from a non-negative start; double-out never leaves a player on 1 from a score other than 1 |
| `Game.Lineup` | app.js:270-273 | a new game creates exactly the requested number of players |
| `Game.LineupShape` | app.js:270-273 | player i of a new game is named `Joueur i+1` and starts on the mode's score |
| `Game.LineupNamesDistinct` | app.js:270-273 | no two players of a new game share a name |
| `Game.Match.constructor` | app.js:12-23 | the initial state: not started, 501, double-out on, 2 players chosen, nothing recorded |
| `Game.Match.PushUndo` | app.js:50-53 | the current snapshot goes on top of the history; nothing else changes |
| `Game.Match.Restore` | app.js:42-48 | every snapshotted field takes the snapshot's value; the history is untouched |
| `Game.Match.SelectNumber` | app.js:84-98 | a pad number is remembered only while a game runs; nothing else changes |
| `Game.Match.AddDart` | app.js:116-142 | appends exactly one dart (base, multiplier, base times 1, 2 or 3) and clears the selection, exactly when a game runs, the turn has fewer than 3 darts, a number is selected and it is not triple 25; otherwise the state is unchanged |
| `Game.Match.RemoveLastDart` | app.js:148-163 | while a game runs with a non-empty turn, drops exactly the last dart (the earlier darts stay in order) and clears the selection; otherwise no change |
| `Game.Match.RecordMiss` | app.js:165-175 | appends a 0-point single dart exactly when a game runs and the turn has fewer than 3 darts; otherwise no change |
| `Game.Match.ValidateTurn` | app.js:193-261 | with no game or an empty turn, nothing changes, not even the history; otherwise it saves the snapshot, gives only the current player the verdict's score, prepends one log entry, empties the turn, clears the selection, stops the game only on a win, and otherwise moves to the next player modulo the player count; scores in play stay in play |
| `Game.Match.NewGame` | app.js:263-286 | saves the snapshot, then sets the options, a fresh line-up of the requested size on the mode's score, player 0, an empty turn, no selection, game started, empty log; with a positive mode the scores are in play |
| `Game.Match.ResetAll` | app.js:288-301 | stops the game and empties the players, turn, selection, log and history; player index 0; the options stay |
| `Game.Match.Undo` | app.js:303-309 | with an empty history, nothing changes; otherwise the latest snapshot is removed from the history and becomes the state |
| `Game.Match.ForceEnd` | app.js:532-541 | when a game runs and the current player exists, saves the snapshot, sets that player's score to 0, stops the game and prepends one log entry; otherwise no change |
| `Properties.NewGameThenUndo` | app.js:263-264 | undo right after a new game restores every snapshotted field and the history |
| `Properties.ValidateThenUndo` | app.js:193-197 | undo right after validating a turn restores the state before it, the darts included |
| `Properties.ForceEndThenUndo` | app.js:532-534 | undo right after a forced end restores the running game |
| `Properties.AddThenRemove` | app.js:116-151 | removing the last dart undoes an accepted dart; only the selection, now cleared, differs |
| `Properties.MissThenRemove` | app.js:148-168 | removing the last dart right after a miss restores the turn; only the selection, now cleared, may differ |
| `Properties.WinOnDoubleTwenty` | app.js:214-222 | with 40 left under double-out, a double 20 wins |
| `Properties.WinWithoutDoubleOut` | app.js:224-226 | with 32 left and double-out off, reaching zero wins |
| `Properties.SingleFinishBusts` | app.js:216-220 | with 50 left under double-out, single 20, single 20, single 10 busts and keeps 50 |
| `Properties.BullFinishes` | app.js:188-191 | the bull entered as a double (25 with D) is a legal double-out finish |

## Left out

- The page itself is not modelled: number-pad highlighting, enabling the multiplier buttons, status messages, rendering, the hint, and the undo/validate/back button states. They are presentation only.
- The mobile overlay is not modelled. For an accepted dart, its dart entry is the same as `SelectNumber` followed by `AddDart`. It differs on a refused dart: on a full turn or a triple 25 it returns before touching the selection, and it can write an empty selection.
- Event wiring, keyboard shortcuts, resize handling and media queries are browser input/output.
- The option change listeners (app.js:544-546) are event wiring and are not modelled. So the options change only through `NewGame` and `Undo`.
- `NewGame` takes the mode, player count and double-out switch as parameters, not from the form inputs. The conversion from form text to numbers is not modelled.
- `deepClone` through JSON is not modelled. Snapshots are immutable values, so a restored state shares nothing with the history.
- Log lines are abstract entries: the player, the darts, the total, the verdict and the score shown, or a forced end. The French wording and layout are not modelled. The labels inside those lines are modelled exactly, by `Darts.Label`.
- Multiplier letters are limited to the three buttons S, D and T. The source would treat any other letter as a triple, but no button sends one.
- `Game.Match.SelectNumber`: requires a pad number (1 to 20 or 25), because only the pad buttons call it.
