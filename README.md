# Tic-tac-toe with appearance preferences, in Dafny

This project models `script.js`, the script behind a single-page tic-tac-toe game.
It has two parts.

- `tictactoe.dfy`, module `TicTacToe`: the game engine. It holds a nine-cell board,
  the player to move (X or O) and a game-over flag. A click on a cell writes the
  mover's mark, then checks the eight winning lines in their declared order (rows,
  columns, diagonals), then checks for a full board. Only after both checks fail
  does the turn pass to the other player. A restart brings back an empty board
  with X to move.
  The engine is specified by the pure transition function `Play` on `GameState`
  values. The class `Game` keeps the state in mutable fields, with the board as
  an array, as the page does. Its click handler is proved to follow `Play`.
  Its constructor and its restart are proved to produce the initial state.
  Lemmas about `Play` give:
  - the reachability invariant: marks alternate, X moves first, and the game is
    over exactly on a line or a full board;
  - permanence of marks;
  - finality of a finished game;
  - the concrete game scenarios.
- `preferences.dfy`, module `Preferences`: the dark/light theme toggle and the
  board and marker colours picked from a seven-colour palette.
  Each choice is saved in the browser's key-value storage and applied again on
  the next page load. The storage is modelled as a `map<string, string>`. The
  `class Page` holds the document attributes and style properties that the
  script writes.

Decisions about the source's behaviour:
- An index outside the board is ignored. `board[index]` is then `undefined`,
  which is not `""`, so the click returns early.
- An absent `data-theme` attribute is modelled as the empty string. Both are
  falsy for the `||` that supplies the default.
- The nine-move sequence X@0, O@1, X@2, O@3, X@4, O@6, X@5, O@7, X@8 is a win for
  X, not a draw: the last mark completes both the right column (2, 5, 8) and the
  main diagonal (0, 4, 8). The code reports the column, because columns are
  checked first. `DoubleLineFromStart` proves this from the empty board.
  `DrawFromStart` proves a genuine draw from the empty board.
- The long scenarios are proved in pieces of at most two clicks. Each piece
  states the board before and after. `PlayAllAppend` composes the pieces. The
  two nine-click lemmas take their clicks as four pairs, each pinned by a
  precondition, and state the result for their concatenation.

## Model

| member | source | states |
|---|---|---|
| TicTacToe.Other | script.js:161 | the player to move after a turn is never the one who just moved |
| TicTacToe.FirstComplete | script.js:167-170 | the index found is of a complete line, and no line scanned before it is complete; past the end means none is |
| TicTacToe.WinningLine | script.js:166-171 | no line is returned exactly when no winning line is complete; otherwise the line returned is the first complete one in declared order |
| TicTacToe.GetWinningLine | script.js:166-171 | the scan over the array with its early return yields exactly `WinningLine` of the board's contents |
| TicTacToe.Complete | script.js:168 | a line is complete exactly when its three cells all hold X or all hold O |
| TicTacToe.Legal | script.js:138-141 | a click is accepted exactly when the game is not over and the value read at the index is an empty cell; outside the board nothing is read, so the click is refused |
| TicTacToe.IsDraw | script.js:173-175 | true exactly when no cell of the board is empty |
| TicTacToe.Play | script.js:137-164 | an ignored click is one made after the end, outside the board or onto a taken cell, and it changes nothing; a legal click writes the mover's mark into that cell only; a win is reported exactly when a line is complete afterwards, with the mover as winner and the first complete line; a draw is reported exactly when no line is complete and the board is full; the game ends exactly on a win or a draw; the turn passes only when the game goes on |
| TicTacToe.CellDisabled | script.js:132 | a cell's button is disabled exactly when a click on it would be ignored |
| TicTacToe.MarkText | script.js:148 | a mark is shown as its own single letter: X as "X" and O as "O" |
| TicTacToe.StatusText | script.js:148-162 | the status reads "Draw!" exactly for a draw; a win message and a turn message begin with the mark of the winner or of the player to move |
| TicTacToe.PlayAll | script.js:137-164 | a sequence of clicks keeps a nine-cell board |
| TicTacToe.InitialConsistent | script.js:91-93 | the empty board with X to move satisfies the reachability invariant |
| TicTacToe.PlayPreservesConsistent | script.js:137-164 | every click keeps the reachability invariant: mark counts differ by at most one in X's favour, X moves exactly when the counts are equal, the game is over exactly on a complete line or a full board, and a complete line holds the last mover's mark |
| TicTacToe.PlayAllPreservesConsistent | script.js:137-164 | any sequence of clicks keeps the reachability invariant |
| TicTacToe.TurnsAlternate | script.js:143-161 | from the empty board X has as many marks as O or one more, and while the game goes on it is X's turn exactly when the counts are equal |
| TicTacToe.MarksAreNeverOverwritten | script.js:141-143 | a non-empty cell keeps its mark through any sequence of clicks |
| TicTacToe.OverIsFinal | script.js:138 | once the game is over, no sequence of clicks changes the state |
| TicTacToe.PlayAllAppend | script.js:137-164 | playing two sequences of clicks one after the other is playing their concatenation |
| TicTacToe.TopRowWin | script.js:137-164 | X@0, O@4, X@1, O@5 leave the game running, and X@2 then wins on the top row |
| TicTacToe.OpeningPartOne | script.js:137-164 | X@0, O@1 from the empty board complete no line and leave X to move |
| TicTacToe.OpeningPartTwo | script.js:137-164 | X@2, O@3 then complete no line and leave X to move |
| TicTacToe.DoubleLinePartOne | script.js:137-164 | X@4, O@6 after the opening complete no line |
| TicTacToe.DoubleLinePartTwo | script.js:137-164 | X@5, O@7 then complete no line and leave X to move |
| TicTacToe.DoubleLineWin | script.js:145-152 | X@8 then completes both the right column and the main diagonal; the column, scanned first, is reported and the game ends |
| TicTacToe.FullBoardPartOne | script.js:137-164 | X@5, O@8 after the opening complete no line |
| TicTacToe.FullBoardPartTwo | script.js:137-164 | X@6, O@4 then complete no line and leave X to move |
| TicTacToe.FullBoardDraw | script.js:154-159 | X@7 then fills the board with no line complete: a draw, and the game ends |
| TicTacToe.DoubleLineFromStart | script.js:137-164 | from the empty board the clicks 0, 1, 2, 3, 4, 6, 5, 7 reach the stated board with X to move, and the click at 8 then wins for X on the right column (2, 5, 8) |
| TicTacToe.DrawFromStart | script.js:137-164 | from the empty board the clicks 0, 1, 2, 3, 5, 8, 6, 4 reach the stated board with X to move, and the click at 7 then ends in a draw |
| TicTacToe.FillingMove | script.js:154-159 | a legal click into the last empty cell that completes no line is reported as a draw |
| TicTacToe.SecondClickOnSameCell | script.js:141 | a second click on cell 0, now by O, is ignored and X's mark stays |
| TicTacToe.Game.constructor | script.js:91-93 | a new game has a fresh nine-cell board, all empty, with X to move and the game not over |
| TicTacToe.Game.OnCellClick | script.js:137-164 | the new fields and the reported outcome are exactly those `Play` gives for the old fields and the click |
| TicTacToe.Game.RestartGame | script.js:182-188 | whatever came before, the board is a fresh all-empty array, X is to move and the game is not over |
| Preferences.NormalizeTheme | script.js:24 | the theme shown is "light" or "dark", and it is "light" exactly when "light" was asked for |
| Preferences.ToggledTheme | script.js:41-42 | a toggle always switches to a theme, and always to the other one than is shown (an absent attribute counts as dark) |
| Preferences.ToggleLabel | script.js:27-31 | the button names the theme a click switches to; it reads "Dark mode" exactly while the light theme is shown |
| Preferences.ToggleTwice | script.js:40-45 | two toggles bring back the theme that was shown |
| Preferences.Load | script.js:61-62 | a missing or empty stored value yields the default; any other stored value is returned as saved; a non-empty default never yields an empty value |
| Preferences.LoadAfterSave | script.js:76 | a non-empty value saved under a key is what the next read of that key returns |
| Preferences.LoadOtherKey | script.js:8-10 | saving under one key leaves what every other key reads unchanged |
| Preferences.ThemeSurvivesReload | script.js:35-45 | a toggled theme is saved, and the same theme is shown when the page is loaded again |
| Preferences.PaletteEntry | script.js:47-50 | a colour name selects the palette's own entry for that name, and blue for any other name; the result is always a palette entry |
| Preferences.BlueIsFallback | script.js:13-21 | blue is shown exactly for "blue" and for names not in the palette, because the seven swatches differ |
| Preferences.ColorSurvivesReload | script.js:57-86 | whatever colour name is saved, the next page load shows the swatch that name showed, the empty name included |
| Preferences.PaletteEntryAsWritten | script.js:48 | as written, names inherited from the object prototype give a swatch whose colours are the text "undefined"; all other names give the corrected entry |
| Preferences.AsWrittenLosesTint | script.js:48 | a saved board colour "constructor" gives the tint "undefined" as written, while the corrected lookup gives blue |
| Preferences.Page.constructor | script.js:8-10 | a page before the start-up calls: its storage holds whatever was saved under these keys, no theme attribute is set and no colour is applied |
| Preferences.Page.ApplyTheme | script.js:23-33 | the theme attribute becomes the normalised theme; if the button exists, its caption offers the other theme and it is pressed exactly for light; storage and colours are unchanged |
| Preferences.Page.InitTheme | script.js:35-38 | the theme shown is the saved one, dark when none is saved, and the storage is unchanged |
| Preferences.Page.ToggleTheme | script.js:40-45 | the other theme is shown, it is saved under the theme key, and the button is updated to match |
| Preferences.Page.ApplyBoardColor | script.js:47-50 | the board tint becomes the tint of the named swatch, and nothing else changes; a toggle button in step with the theme stays so |
| Preferences.Page.ApplyMarkerColor | script.js:52-55 | the marker colour becomes the marker of the named swatch, and nothing else changes; a toggle button in step with the theme stays so |
| Preferences.Page.InitColorPickers | script.js:57-70 | the board tint and marker colour are those of the saved names, blue when none is saved; storage and theme are unchanged; a toggle button in step with the theme stays so |
| Preferences.Page.OnBoardColorChange | script.js:74-78 | the chosen name is saved under the board colour key and its tint is applied; a toggle button in step with the theme stays so |
| Preferences.Page.OnMarkerColorChange | script.js:82-86 | the chosen name is saved under the marker colour key and its marker colour is applied; a toggle button in step with the theme stays so |

## Left out

- Rendering is not modelled: building the cell buttons (script.js:112-126), writing their text, and the highlight of the winning line (`highlightWin`). `CellDisabled` states each cell's disabled flag.
- The status line is not modelled as a page element. `StatusText` gives the text each outcome writes.
- TicTacToe.StatusText: states only the first character of the win and turn messages and the draw text, not the fixed wording after the mark.
- The text shown in the status line before the first click comes from the page's markup, which is not part of this model.
- `role` and `aria-label` attributes of the cells are not modelled.
- The displayed value of the two colour pickers, set from storage at load, is not modelled.
- Event wiring and the start-up sequence (script.js:191-198) are not modelled. Each handler is a method, and the start-up calls are the `Page` methods `InitTheme` and `InitColorPickers` and the `Game` constructor.
- Storage failures (quota, disabled storage) are not modelled, because the script does not handle them.
- How the browser renders the `--boardTint` and `--markerColor` properties is not modelled. They are strings.
- The `Page` constructor starts with an empty caption and unset colours. The initial markup values are not part of this model.
- Preferences.Page.ApplyBoardColor: uses the corrected lookup `PaletteEntry`, not the lookup as written, so the twelve prototype names give blue where the page sets "undefined" (see Findings).
- Preferences.Page.ApplyMarkerColor: uses the corrected lookup `PaletteEntry`, not the lookup as written, so the twelve prototype names give blue where the page sets "undefined" (see Findings).
- Preferences.Page.InitColorPickers: uses the corrected lookup `PaletteEntry`, not the lookup as written, so the twelve prototype names give blue where the page sets "undefined" (see Findings).
- Preferences.Page.OnBoardColorChange: uses the corrected lookup `PaletteEntry`, not the lookup as written, so the twelve prototype names give blue where the page sets "undefined" (see Findings).
- Preferences.Page.OnMarkerColorChange: uses the corrected lookup `PaletteEntry`, not the lookup as written, so the twelve prototype names give blue where the page sets "undefined" (see Findings).

## Findings

| source | as written | input that shows it | evidently intended | confidence | as-written member | corrected member |
|---|---|---|---|---|---|---|
| script.js:48 | `RAINBOW[colorName] \|\| RAINBOW.blue` also finds names inherited from the object prototype, so they get no fallback to blue and the colour set is the text "undefined" | stored board colour "constructor" (or "toString", "__proto__", …) | an unknown name falls back to blue, as the palette's own keys are the only colours | not executed | Preferences.PaletteEntryAsWritten, Preferences.AsWrittenLosesTint | Preferences.PaletteEntry |
