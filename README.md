# Tic-tac-toe game controller, modelled in Dafny

This project models the logic under the React Native tic-tac-toe screen
`KeyConservationAssessment_Brenna.jsx`. Two local players take turns
placing X and O on a 3x3 grid. A status line shows the winner, the next
player or a draw. A reset button starts a new game. Every finished game
is kept in a history list along with its final board and its result text.

The model has three modules:

- `Board` (board.dfy): the cells, the eight winning lines in the order the
  source scans them, and the win detector. The detector is a `while` loop
  over the live board array (`CalculateWinner`). It is specified by the
  recursive scan `Winner`/`WinnerFrom`. That scan is in turn proved
  equal to a second definition: "the first line, in scan order, whose
  three cells hold one player's mark". The module also has the status
  text and a mark count used by the turn invariant.
- `Game` (game.dfy): the controller as a pure reducer. `Click` is the
  click handler, `Reset` is the reset button and `Run` folds a list of
  user actions. The lemmas cover the no-op guard, the single-cell update,
  turn alternation, the history-append rule, reset and the invariant of
  every reachable state. Two concrete games are also proved: a diagonal
  win and a draw.
- `Controller` (controller.dfy): the component's state in place. Class
  `App` holds a 9-element `array<Cell>`, the `isXNext` flag and the
  `history` sequence. `HandleClick` and `ResetGame` are proved to move
  the object exactly as `Game.Click` and `Game.Reset` move the state
  value. Both keep `Valid()`, which includes the reachability invariant.

The source's `null` cell is `Empty`, and `"X"`/`"O"` are `Marked(X)` and
`Marked(O)`. The status and result texts stay strings: `"Winner: X"`,
`"Next Player: O"` and `"Draw"`.

A history entry in the source holds `newBoard`. That is the same array
object the click installs as the live board. The sharing cannot be
observed, because the handlers never write into an installed array:
every click copies the board first, and reset allocates a new one. The
model shows this directly. `HandleClick` and `ResetGame` modify only the
`App` object's own fields and never an existing array. A taken click
leaves a fresh array as the board. The entry itself stores the board's
contents (a `seq<Cell>`), so it is frozen by construction.

## Model

| member | source | states |
|---|---|---|
| `Board.CalculateWinner` | KeyConservationAssessment_Brenna.jsx:52-75 | the loop over the eight triples, with its early return, yields exactly the scan result `Winner` of the array's contents |
| `Board.Winner` | KeyConservationAssessment_Brenna.jsx:52-75 | the detector returns null if and only if none of the eight lines holds three equal non-null cells (this covers a full board with no line), and any mark it returns holds one of the lines |
| `Board.CompleteIsWon` | KeyConservationAssessment_Brenna.jsx:66-70 | the source's per-triple test (first cell set and equal to the other two) holds exactly when one player holds all three cells of that line, and that player is the first cell's mark |
| `Board.WinnerFromSome` | KeyConservationAssessment_Brenna.jsx:64-73 | the scan from line k returns m exactly when some line j at or after k holds three m's and no line between k and j is held by anyone |
| `Board.WinnerFromNone` | KeyConservationAssessment_Brenna.jsx:64-74 | the scan from line k returns null exactly when no line at or after k is held by a player |
| `Board.WinnerIsFirstWonLine` | KeyConservationAssessment_Brenna.jsx:52-75 | the detector returns m if and only if some line holds three m's and no earlier line in the order rows, columns, diagonals is held; when several lines qualify, the first one decides |
| `Board.WinnerOfSingleLineHolder` | KeyConservationAssessment_Brenna.jsx:64-73 | if m holds some line and the other player holds none, the detector returns m |
| `Board.EmptyBoardHasNoWinner` | KeyConservationAssessment_Brenna.jsx:48 | the initial all-null board has no winner |
| `Board.Status` | KeyConservationAssessment_Brenna.jsx:124-130 | once the game is over (a winner or no null cell) the status is exactly the result text a finished game is recorded with; while it is open the status is exactly "Next Player: " and the mark to move |
| `Board.StatusWinner` | KeyConservationAssessment_Brenna.jsx:125-127 | the status reads "Winner: m" if and only if the detector returns m |
| `Board.StatusNextPlayer` | KeyConservationAssessment_Brenna.jsx:125-130 | the status starts with "Next Player: " if and only if no line is held and some cell is null; it reads "Next Player: m" exactly then and when m is the mark to move |
| `Board.StatusDraw` | KeyConservationAssessment_Brenna.jsx:125-130 | the status reads "Draw" if and only if every cell is marked and no line is held |
| `Board.CountPlace` | KeyConservationAssessment_Brenna.jsx:80-81 | writing mark m into a null cell adds one m and leaves the other mark's count unchanged |
| `Board.CountFull` | KeyConservationAssessment_Brenna.jsx:86 | on a board with no null cell the X count and the O count add up to the number of cells |
| `Board.CountNoMarks` | KeyConservationAssessment_Brenna.jsx:93 | an all-null board has no marks of either player |
| `Game.Initial` | KeyConservationAssessment_Brenna.jsx:48-50 | the mounted state has no marks of either player, X to move, no finished game on the board and an empty history, and it satisfies the invariant |
| `Game.Click` | KeyConservationAssessment_Brenna.jsx:77-83 | the turn passes exactly when the click is taken (cell null and no winner yet), and a taken click writes the mover's mark into that cell |
| `Game.Reset` | KeyConservationAssessment_Brenna.jsx:92-95 | reset makes all nine cells null, gives the turn to X, keeps the history (length and contents), leaves no winner and keeps the invariant |
| `Game.ClickIgnored` | KeyConservationAssessment_Brenna.jsx:78 | a click leaves board, turn and history unchanged if and only if the cell is taken or the board already has a winner |
| `Game.FullBoardIgnoresClicks` | KeyConservationAssessment_Brenna.jsx:78 | on a full board every click is a no-op |
| `Game.ClickMarksOneCell` | KeyConservationAssessment_Brenna.jsx:80-83 | a taken click sets cell i to X when isXNext and to O otherwise, keeps the other eight cells and flips isXNext |
| `Game.ClickRecordsFinishedGame` | KeyConservationAssessment_Brenna.jsx:85-89 | a taken click keeps every earlier entry; it appends exactly one entry, holding the new board and "Winner: m" or "Draw", when the new board has a winner or no null cell, and otherwise leaves the history alone |
| `Game.RecordedResultIsStatus` | KeyConservationAssessment_Brenna.jsx:85-89 | the result text of an appended entry is the status line shown right after that click |
| `Game.ClickInv` | KeyConservationAssessment_Brenna.jsx:77-90 | a click keeps the invariant: #X = #O when X is to move and #X = #O + 1 otherwise, and every history entry is a finished board whose text names its outcome |
| `Game.FullBoardCounts` | KeyConservationAssessment_Brenna.jsx:81-83 | in a reachable state whose board has no null cell, X holds five cells and O four, and the turn flag says O (the status then shows the result, not a next player) |
| `Game.RunInv` | KeyConservationAssessment_Brenna.jsx:77-95 | any sequence of clicks and resets keeps the invariant |
| `Game.ReachableInv` | KeyConservationAssessment_Brenna.jsx:48-95 | every state reachable from the mounted state by clicks and resets satisfies the count invariant and holds only finished games in its history |
| `Game.RunKeepsHistory` | KeyConservationAssessment_Brenna.jsx:88 | the history is append-only: a run never shortens it or changes an earlier entry |
| `Game.ApplyIgnoresHistory` | KeyConservationAssessment_Brenna.jsx:77-95 | one click or reset from any history gives the same board and turn as from an empty history and only appends to the history it had |
| `Game.RunIgnoresHistory` | KeyConservationAssessment_Brenna.jsx:77-95 | play never depends on the history: a run from any history acts like the same run from an empty one and only appends to the history it started with |
| `Game.DiagonalGame` | KeyConservationAssessment_Brenna.jsx:77-90 | from an empty board with X to move and any history, X at 0 and 4 with O at 1 and 2 gives that board with no winner and the history untouched; X at 8 then wins, O is to move, and one "Winner: X" entry with that board is appended |
| `Game.DrawnGame` | KeyConservationAssessment_Brenna.jsx:77-90 | from an empty board with X to move and any history, the nine moves 0,1,2,4,3,5,7,6,8 fill the board without a complete line, and one "Draw" entry with the full board is appended |
| `Controller.App.constructor` | KeyConservationAssessment_Brenna.jsx:48-50 | the mounted component has an empty 9-cell board, X to move and no history, and it satisfies the invariant |
| `Controller.App.HandleClick` | KeyConservationAssessment_Brenna.jsx:77-90 | the object's new board, turn and history are those `Game.Click` gives for the old ones, so the invariant is kept; a taken click installs a fresh array, an ignored one keeps the same array, and the previous board array is never written |
| `Controller.App.ResetGame` | KeyConservationAssessment_Brenna.jsx:92-95 | the object's new state is `Game.Reset` of the old one: a fresh all-null array, X to move, and the same history |

## Left out

- Rendering is not modelled: `renderSquare`, `renderHistory` and the JSX tree (KeyConservationAssessment_Brenna.jsx:97-149). These only display state, using `board[index]` and `value || "-"`.
- The "Game N" label of each history row (line 112) is display-only and not modelled.
- The `StyleSheet` block and the viewport arithmetic `Dimensions.get("window").width * 0.8` (lines 152-223) are not modelled. They are layout and floating point.
- React's `useState` batching and re-rendering are not modelled. Each handler updates the three state variables one after another. Like the source, it reads the values from before the click.
- A history entry holds a copy of the final board's contents, not a reference to the array object. The source shares the array with the live board; this is sound because no installed array is ever written again, which `HandleClick` and `ResetGame` prove by modifying no existing array.
- `Controller.App.HandleClick` takes an index in 0..8 only (type `Index`). The only callers are the nine squares, which pass those indices.
