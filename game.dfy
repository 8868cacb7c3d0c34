/** The game controller's state machine as a pure reducer: a click on a
    cell and the reset button, each mapping the state to the next one. */
module Game {
  import opened Board

  /** A finished game as kept in the history: its final board and the
      result text. */
  datatype Entry = Entry(board: seq<Cell>, result: string)

  /** The three state variables of the component. */
  datatype State = State(board: seq<Cell>, isXNext: bool, history: seq<Entry>)

  /** The game is over: some line is complete or no cell is free. */
  predicate Finished(b: seq<Cell>)
    requires IsBoard(b)
  {
    Winner(b).Some? || Full(b)
  }

  /** A click on cell i is taken: the cell is free and nobody has won. */
  predicate Accepts(b: seq<Cell>, i: Index)
    requires IsBoard(b)
  {
    b[i] == Empty && Winner(b).None?
  }

  /** The state when the component mounts: no marks on the board, X to
      move, nobody has won, and no finished games yet. It satisfies the
      invariant `Inv` below. */
  function Initial(): (r: State)
    ensures Inv(r) && r.isXNext && r.history == []
    ensures Count(r.board, X) == 0 && Count(r.board, O) == 0
    ensures !Finished(r.board)
  {
    CountNoMarks(EmptyBoard(), X);
    CountNoMarks(EmptyBoard(), O);
    State(EmptyBoard(), true, [])
  }

  /** A click on cell i. The turn passes exactly when the click is taken
      (the cell is free and nobody has won), and a taken click puts the
      mover's mark in cell i. */
  function Click(s: State, i: Index): (t: State)
    requires IsBoard(s.board)
    ensures IsBoard(t.board)
    ensures t.isXNext == (s.isXNext != Accepts(s.board, i))
    ensures Accepts(s.board, i) ==> t.board[i] == Marked(Turn(s.isXNext))
  {
    if s.board[i] != Empty || Winner(s.board).Some? then s
    else
      var nb := s.board[i := Marked(Turn(s.isXNext))];
      var w := Winner(nb);
      var history := if w.Some? || Full(nb) then s.history + [Entry(nb, ResultText(w))] else s.history;
      State(nb, !s.isXNext, history)
  }

  /** The reset button: every cell becomes null, X is to move, nobody
      has won, and the history (length and contents) is kept. It keeps
      the invariant `Inv` below. */
  function Reset(s: State): (t: State)
    ensures IsBoard(t.board) && forall j :: 0 <= j < 9 ==> t.board[j] == Empty
    ensures t.isXNext && t.history == s.history
    ensures Winner(t.board) == None
    ensures Inv(s) ==> Inv(t)
  {
    CountNoMarks(EmptyBoard(), X);
    CountNoMarks(EmptyBoard(), O);
    State(EmptyBoard(), true, s.history)
  }

  /** A click on a taken cell, or any click once a line is complete,
      leaves board, turn and history as they were; any other click
      changes the state. */
  lemma ClickIgnored(s: State, i: Index)
    requires IsBoard(s.board)
    ensures Click(s, i) == s <==> !Accepts(s.board, i)
  {
    if Accepts(s.board, i) {
      assert Click(s, i).board[i] != s.board[i];
    }
  }

  /** Once every cell is marked, every click is ignored. */
  lemma FullBoardIgnoresClicks(s: State, i: Index)
    requires IsBoard(s.board) && Full(s.board)
    ensures Click(s, i) == s
  {
    assert s.board[i] in s.board;
  }

  /** A taken click marks cell i for the player to move, keeps the other
      eight cells and passes the turn. */
  lemma ClickMarksOneCell(s: State, i: Index)
    requires IsBoard(s.board) && Accepts(s.board, i)
    ensures Click(s, i).board[i] == Marked(Turn(s.isXNext))
    ensures forall j :: 0 <= j < 9 && j != i ==> Click(s, i).board[j] == s.board[j]
    ensures Click(s, i).isXNext == !s.isXNext
  {
  }

  /** A taken click adds one history entry exactly when it ends the game;
      the entry holds the new board and names the winner, or a draw.
      Earlier entries are kept as they were. */
  lemma ClickRecordsFinishedGame(s: State, i: Index)
    requires IsBoard(s.board) && Accepts(s.board, i)
    ensures var t := Click(s, i);
      && t.history[..|s.history|] == s.history
      && (Finished(t.board) ==> t.history == s.history + [Entry(t.board, ResultText(Winner(t.board)))])
      && (!Finished(t.board) ==> t.history == s.history)
  {
  }

  // ---------------------------------------------------------------------
  // Invariant of every reachable state.

  /** The turn matches the marks on the board (X moves first, turns
      alternate), and every history entry is a finished board whose text
      names its outcome. */
  predicate Inv(s: State)
  {
    && IsBoard(s.board)
    && (s.isXNext ==> Count(s.board, X) == Count(s.board, O))
    && (!s.isXNext ==> Count(s.board, X) == Count(s.board, O) + 1)
    && forall k :: 0 <= k < |s.history| ==> EntryValid(s.history[k])
  }

  predicate EntryValid(e: Entry)
  {
    IsBoard(e.board) && Finished(e.board) && e.result == ResultText(Winner(e.board))
  }

  lemma ClickInv(s: State, i: Index)
    requires Inv(s)
    ensures Inv(Click(s, i))
  {
    if Accepts(s.board, i) {
      CountPlace(s.board, i, Turn(s.isXNext), X);
      CountPlace(s.board, i, Turn(s.isXNext), O);
    }
  }

  /** A reachable board that is full was filled by X's fifth mark: O is
      "to move", X holds five cells and O four. */
  lemma FullBoardCounts(s: State)
    requires Inv(s) && Full(s.board)
    ensures !s.isXNext && Count(s.board, X) == 5 && Count(s.board, O) == 4
  {
    CountFull(s.board);
  }

  /** A recorded entry shows the same text as the status line did right
      after the finishing click. */
  lemma RecordedResultIsStatus(s: State, i: Index)
    requires IsBoard(s.board) && Accepts(s.board, i)
    requires |Click(s, i).history| > |s.history|
    ensures Click(s, i).history[|s.history|].result == Status(Click(s, i).board, Click(s, i).isXNext)
  {
  }

  // ---------------------------------------------------------------------
  // Runs of user actions from the initial state.

  datatype Action = Press(index: Index) | PressReset

  function Apply(s: State, a: Action): (t: State)
    requires IsBoard(s.board)
    ensures IsBoard(t.board)
  {
    match a
    case Press(i) => Click(s, i)
    case PressReset => Reset(s)
  }

  function Run(s: State, actions: seq<Action>): (t: State)
    requires IsBoard(s.board)
    ensures IsBoard(t.board)
    decreases |actions|
  {
    if actions == [] then s else Run(Apply(s, actions[0]), actions[1..])
  }

  lemma {:induction false} RunInv(s: State, actions: seq<Action>)
    requires Inv(s)
    ensures Inv(Run(s, actions))
    decreases |actions|
  {
    if actions != [] {
      var t := Apply(s, actions[0]);
      match actions[0] {
        case Press(i) => ClickInv(s, i);
        case PressReset =>
      }
      RunInv(t, actions[1..]);
    }
  }

  /** Every state reachable from the start keeps the invariant: when X is
      to move the two players have the same number of marks, otherwise X
      has one more; and the history holds only finished games. */
  lemma ReachableInv(actions: seq<Action>)
    ensures Inv(Run(Initial(), actions))
  {
    RunInv(Initial(), actions);
  }

  /** The history only grows: a run keeps every earlier entry in place. */
  lemma {:induction false} RunKeepsHistory(s: State, actions: seq<Action>)
    requires IsBoard(s.board)
    ensures |Run(s, actions).history| >= |s.history|
    ensures Run(s, actions).history[..|s.history|] == s.history
    decreases |actions|
  {
    if actions != [] {
      var t := Apply(s, actions[0]);
      assert t.history[..|s.history|] == s.history;
      RunKeepsHistory(t, actions[1..]);
      assert Run(s, actions).history[..|t.history|] == t.history;
    }
  }

  /** Runs an action list one step at a time. */
  lemma {:induction false} RunStep(s: State, a: Action, rest: seq<Action>)
    requires IsBoard(s.board)
    ensures Run(s, [a] + rest) == Run(Apply(s, a), rest)
  {
    assert ([a] + rest)[1..] == rest;
  }

  /** One action from a state acts like the same action from that board
      and turn with an empty history, appended to the history it had. */
  lemma ApplyIgnoresHistory(s: State, a: Action)
    requires IsBoard(s.board)
    ensures var t0 := Apply(State(s.board, s.isXNext, []), a);
      Apply(s, a) == State(t0.board, t0.isXNext, s.history + t0.history)
  {
    match a
    case PressReset =>
      assert s.history + [] == s.history;
    case Press(i) =>
      if !Accepts(s.board, i) {
        assert s.history + [] == s.history;
      }
  }

  /** The history never influences play: a run from a state behaves as
      the same run from that board and turn with an empty history, and
      only appends to the history it started with. */
  lemma {:induction false} RunIgnoresHistory(s: State, actions: seq<Action>)
    requires IsBoard(s.board)
    ensures var r := Run(State(s.board, s.isXNext, []), actions);
      Run(s, actions) == State(r.board, r.isXNext, s.history + r.history)
    decreases |actions|
  {
    var s0 := State(s.board, s.isXNext, []);
    if actions == [] {
      assert s.history + [] == s.history;
    } else {
      var t, t0 := Apply(s, actions[0]), Apply(s0, actions[0]);
      ApplyIgnoresHistory(s, actions[0]);
      var u0 := State(t0.board, t0.isXNext, []);
      assert State(t.board, t.isXNext, []) == u0;
      RunIgnoresHistory(t, actions[1..]);
      RunIgnoresHistory(t0, actions[1..]);
      var r := Run(u0, actions[1..]);
      assert Run(s, actions) == Run(t, actions[1..]);
      assert Run(s0, actions) == Run(t0, actions[1..]);
      assert s.history + (t0.history + r.history) == (s.history + t0.history) + r.history;
    }
  }

  /** A state at the start of a game: empty board, X to move, and any
      history of earlier games. */
  predicate AtGameStart(s: State)
  {
    s.board == EmptyBoard() && s.isXNext
  }

  /** A taken click that leaves the game open: the new board is b, the
      turn passes and the history is unchanged. */
  lemma OpenMove(s: State, i: Index, b: seq<Cell>)
    requires IsBoard(s.board) && Accepts(s.board, i)
    requires b == s.board[i := Marked(Turn(s.isXNext))] && !Finished(b)
    ensures Click(s, i) == State(b, !s.isXNext, s.history)
  {
  }

  /** A taken click that ends the game: the new board is b, the turn
      passes and one entry with b and its result text is recorded. */
  lemma FinishingMove(s: State, i: Index, b: seq<Cell>)
    requires IsBoard(s.board) && Accepts(s.board, i)
    requires b == s.board[i := Marked(Turn(s.isXNext))] && Finished(b)
    ensures Click(s, i) == State(b, !s.isXNext, s.history + [Entry(b, ResultText(Winner(b)))])
  {
  }

  /** Both games, move 1: X takes 0. */
  lemma OpeningX0(h: seq<Entry>)
    ensures Click(State([Empty, Empty, Empty,  Empty, Empty, Empty,  Empty, Empty, Empty], true, h), 0)
            == State([Marked(X), Empty, Empty,  Empty, Empty, Empty,  Empty, Empty, Empty], false, h)
  {
    var x, o, e := Marked(X), Marked(O), Empty;
    var b := [x, e, e,  e, e, e,  e, e, e];
    assert Winner([e, e, e,  e, e, e,  e, e, e]) == None;
    assert Winner(b) == None && Empty in b;
    OpenMove(State([e, e, e,  e, e, e,  e, e, e], true, h), 0, b);
  }

  /** Both games, move 2: O takes 1. */
  lemma OpeningO1(h: seq<Entry>)
    ensures Click(State([Marked(X), Empty, Empty,  Empty, Empty, Empty,  Empty, Empty, Empty], false, h), 1)
            == State([Marked(X), Marked(O), Empty,  Empty, Empty, Empty,  Empty, Empty, Empty], true, h)
  {
    var x, o, e := Marked(X), Marked(O), Empty;
    var b := [x, o, e,  e, e, e,  e, e, e];
    assert Winner([x, e, e,  e, e, e,  e, e, e]) == None;
    assert Winner(b) == None && Empty in b;
    OpenMove(State([x, e, e,  e, e, e,  e, e, e], false, h), 1, b);
  }

  /** Diagonal game, move 3: X takes 4. */
  lemma DiagonalX4(h: seq<Entry>)
    ensures Click(State([Marked(X), Marked(O), Empty,  Empty, Empty, Empty,  Empty, Empty, Empty], true, h), 4)
            == State([Marked(X), Marked(O), Empty,  Empty, Marked(X), Empty,  Empty, Empty, Empty], false, h)
  {
    var x, o, e := Marked(X), Marked(O), Empty;
    var b := [x, o, e,  e, x, e,  e, e, e];
    assert Winner([x, o, e,  e, e, e,  e, e, e]) == None;
    assert Winner(b) == None && Empty in b;
    OpenMove(State([x, o, e,  e, e, e,  e, e, e], true, h), 4, b);
  }

  /** Diagonal game, move 4: O takes 2. */
  lemma DiagonalO2(h: seq<Entry>)
    ensures Click(State([Marked(X), Marked(O), Empty,  Empty, Marked(X), Empty,  Empty, Empty, Empty], false, h), 2)
            == State([Marked(X), Marked(O), Marked(O),  Empty, Marked(X), Empty,  Empty, Empty, Empty], true, h)
  {
    var x, o, e := Marked(X), Marked(O), Empty;
    var b := [x, o, o,  e, x, e,  e, e, e];
    assert Winner([x, o, e,  e, x, e,  e, e, e]) == None;
    assert Winner(b) == None && Empty in b;
    OpenMove(State([x, o, e,  e, x, e,  e, e, e], false, h), 2, b);
  }

  /** Diagonal game, move 5: X takes 8 and completes the diagonal 0-4-8. */
  lemma DiagonalX8(h: seq<Entry>)
    ensures Click(State([Marked(X), Marked(O), Marked(O),  Empty, Marked(X), Empty,  Empty, Empty, Empty], true, h), 8)
            == State([Marked(X), Marked(O), Marked(O),  Empty, Marked(X), Empty,  Empty, Empty, Marked(X)], false,
                     h + [Entry([Marked(X), Marked(O), Marked(O),  Empty, Marked(X), Empty,  Empty, Empty, Marked(X)], "Winner: X")])
  {
    var x, o, e := Marked(X), Marked(O), Empty;
    var b := [x, o, o,  e, x, e,  e, e, x];
    assert Winner([x, o, o,  e, x, e,  e, e, e]) == None;
    assert Winner(b) == Some(X);
    assert ResultText(Winner(b)) == "Winner: X";
    FinishingMove(State([x, o, o,  e, x, e,  e, e, e], true, h), 8, b);
  }

  /** Drawn game, move 3: X takes 2. */
  lemma DrawX2(h: seq<Entry>)
    ensures Click(State([Marked(X), Marked(O), Empty,  Empty, Empty, Empty,  Empty, Empty, Empty], true, h), 2)
            == State([Marked(X), Marked(O), Marked(X),  Empty, Empty, Empty,  Empty, Empty, Empty], false, h)
  {
    var x, o, e := Marked(X), Marked(O), Empty;
    var b := [x, o, x,  e, e, e,  e, e, e];
    assert Winner([x, o, e,  e, e, e,  e, e, e]) == None;
    assert Winner(b) == None && Empty in b;
    OpenMove(State([x, o, e,  e, e, e,  e, e, e], true, h), 2, b);
  }

  /** Drawn game, move 4: O takes 4. */
  lemma DrawO4(h: seq<Entry>)
    ensures Click(State([Marked(X), Marked(O), Marked(X),  Empty, Empty, Empty,  Empty, Empty, Empty], false, h), 4)
            == State([Marked(X), Marked(O), Marked(X),  Empty, Marked(O), Empty,  Empty, Empty, Empty], true, h)
  {
    var x, o, e := Marked(X), Marked(O), Empty;
    var b := [x, o, x,  e, o, e,  e, e, e];
    assert Winner([x, o, x,  e, e, e,  e, e, e]) == None;
    assert Winner(b) == None && Empty in b;
    OpenMove(State([x, o, x,  e, e, e,  e, e, e], false, h), 4, b);
  }

  /** Drawn game, move 5: X takes 3. */
  lemma DrawX3(h: seq<Entry>)
    ensures Click(State([Marked(X), Marked(O), Marked(X),  Empty, Marked(O), Empty,  Empty, Empty, Empty], true, h), 3)
            == State([Marked(X), Marked(O), Marked(X),  Marked(X), Marked(O), Empty,  Empty, Empty, Empty], false, h)
  {
    var x, o, e := Marked(X), Marked(O), Empty;
    var b := [x, o, x,  x, o, e,  e, e, e];
    assert Winner([x, o, x,  e, o, e,  e, e, e]) == None;
    assert Winner(b) == None && Empty in b;
    OpenMove(State([x, o, x,  e, o, e,  e, e, e], true, h), 3, b);
  }

  /** Drawn game, move 6: O takes 5. */
  lemma DrawO5(h: seq<Entry>)
    ensures Click(State([Marked(X), Marked(O), Marked(X),  Marked(X), Marked(O), Empty,  Empty, Empty, Empty], false, h), 5)
            == State([Marked(X), Marked(O), Marked(X),  Marked(X), Marked(O), Marked(O),  Empty, Empty, Empty], true, h)
  {
    var x, o, e := Marked(X), Marked(O), Empty;
    var b := [x, o, x,  x, o, o,  e, e, e];
    assert Winner([x, o, x,  x, o, e,  e, e, e]) == None;
    assert Winner(b) == None && Empty in b;
    OpenMove(State([x, o, x,  x, o, e,  e, e, e], false, h), 5, b);
  }

  /** Drawn game, move 7: X takes 7. */
  lemma DrawX7(h: seq<Entry>)
    ensures Click(State([Marked(X), Marked(O), Marked(X),  Marked(X), Marked(O), Marked(O),  Empty, Empty, Empty], true, h), 7)
            == State([Marked(X), Marked(O), Marked(X),  Marked(X), Marked(O), Marked(O),  Empty, Marked(X), Empty], false, h)
  {
    var x, o, e := Marked(X), Marked(O), Empty;
    var b := [x, o, x,  x, o, o,  e, x, e];
    assert Winner([x, o, x,  x, o, o,  e, e, e]) == None;
    assert Winner(b) == None && Empty in b;
    OpenMove(State([x, o, x,  x, o, o,  e, e, e], true, h), 7, b);
  }

  /** Drawn game, move 8: O takes 6. */
  lemma DrawO6(h: seq<Entry>)
    ensures Click(State([Marked(X), Marked(O), Marked(X),  Marked(X), Marked(O), Marked(O),  Empty, Marked(X), Empty], false, h), 6)
            == State([Marked(X), Marked(O), Marked(X),  Marked(X), Marked(O), Marked(O),  Marked(O), Marked(X), Empty], true, h)
  {
    var x, o, e := Marked(X), Marked(O), Empty;
    var b := [x, o, x,  x, o, o,  o, x, e];
    assert Winner([x, o, x,  x, o, o,  e, x, e]) == None;
    assert Winner(b) == None && Empty in b;
    OpenMove(State([x, o, x,  x, o, o,  e, x, e], false, h), 6, b);
  }

  /** Drawn game, move 9: X takes 8 and fills the board. */
  lemma DrawX8(h: seq<Entry>)
    ensures Click(State([Marked(X), Marked(O), Marked(X),  Marked(X), Marked(O), Marked(O),  Marked(O), Marked(X), Empty], true, h), 8)
            == State([Marked(X), Marked(O), Marked(X),  Marked(X), Marked(O), Marked(O),  Marked(O), Marked(X), Marked(X)], false,
                     h + [Entry([Marked(X), Marked(O), Marked(X),  Marked(X), Marked(O), Marked(O),  Marked(O), Marked(X), Marked(X)], "Draw")])
  {
    var x, o, e := Marked(X), Marked(O), Empty;
    var b := [x, o, x,  x, o, o,  o, x, x];
    assert Winner([x, o, x,  x, o, o,  o, x, e]) == None;
    assert Winner(b) == None && Full(b);
    assert ResultText(Winner(b)) == "Draw";
    FinishingMove(State([x, o, x,  x, o, o,  o, x, e], true, h), 8, b);
  }

  /** The diagonal game's board before and after the last move. */
  lemma DiagonalBoards()
    ensures Winner([Marked(X), Marked(O), Marked(O),  Empty, Marked(X), Empty,  Empty, Empty, Empty]) == None
    ensures Winner([Marked(X), Marked(O), Marked(O),  Empty, Marked(X), Empty,  Empty, Empty, Marked(X)]) == Some(X)
  {
  }

  /** Diagonal game, moves 1 to 4 and moves 1 to 5, from an empty board
      with any history. */
  lemma DiagonalGameRun(h: seq<Entry>)
    ensures Run(State([Empty, Empty, Empty,  Empty, Empty, Empty,  Empty, Empty, Empty], true, h),
                [Press(0), Press(1), Press(4), Press(2)])
            == State([Marked(X), Marked(O), Marked(O),  Empty, Marked(X), Empty,  Empty, Empty, Empty], true, h)
    ensures Run(State([Empty, Empty, Empty,  Empty, Empty, Empty,  Empty, Empty, Empty], true, h),
                [Press(0), Press(1), Press(4), Press(2), Press(8)])
            == State([Marked(X), Marked(O), Marked(O),  Empty, Marked(X), Empty,  Empty, Empty, Marked(X)], false,
                     h + [Entry([Marked(X), Marked(O), Marked(O),  Empty, Marked(X), Empty,  Empty, Empty, Marked(X)], "Winner: X")])
  {
    var x, o, e := Marked(X), Marked(O), Empty;
    OpeningX0(h);
    OpeningO1(h);
    DiagonalX4(h);
    DiagonalO2(h);
    DiagonalX8(h);
    RunStep(State([e, e, e,  e, e, e,  e, e, e], true, h), Press(0), [Press(1), Press(4), Press(2)]);
    RunStep(State([x, e, e,  e, e, e,  e, e, e], false, h), Press(1), [Press(4), Press(2)]);
    RunStep(State([x, o, e,  e, e, e,  e, e, e], true, h), Press(4), [Press(2)]);
    RunStep(State([x, o, e,  e, x, e,  e, e, e], false, h), Press(2), []);
    RunStep(State([e, e, e,  e, e, e,  e, e, e], true, h), Press(0), [Press(1), Press(4), Press(2), Press(8)]);
    RunStep(State([x, e, e,  e, e, e,  e, e, e], false, h), Press(1), [Press(4), Press(2), Press(8)]);
    RunStep(State([x, o, e,  e, e, e,  e, e, e], true, h), Press(4), [Press(2), Press(8)]);
    RunStep(State([x, o, e,  e, x, e,  e, e, e], false, h), Press(2), [Press(8)]);
    RunStep(State([x, o, o,  e, x, e,  e, e, e], true, h), Press(8), []);
  }

  /** X takes 0, 4 and 8 while O takes 1 and 2: no line is complete
      before the diagonal is; then X wins and one entry with the final
      board and "Winner: X" is recorded. */
  lemma DiagonalGame(s: State)
    requires AtGameStart(s)
    ensures Run(s, [Press(0), Press(1), Press(4), Press(2)])
            == State([Marked(X), Marked(O), Marked(O),  Empty, Marked(X), Empty,  Empty, Empty, Empty], true, s.history)
    ensures Winner([Marked(X), Marked(O), Marked(O),  Empty, Marked(X), Empty,  Empty, Empty, Empty]) == None
    ensures Run(s, [Press(0), Press(1), Press(4), Press(2), Press(8)])
            == State([Marked(X), Marked(O), Marked(O),  Empty, Marked(X), Empty,  Empty, Empty, Marked(X)], false,
                     s.history + [Entry([Marked(X), Marked(O), Marked(O),  Empty, Marked(X), Empty,  Empty, Empty, Marked(X)], "Winner: X")])
    ensures Winner([Marked(X), Marked(O), Marked(O),  Empty, Marked(X), Empty,  Empty, Empty, Marked(X)]) == Some(X)
  {
    var x, o, e := Marked(X), Marked(O), Empty;
    assert s == State([Empty, Empty, Empty,  Empty, Empty, Empty,  Empty, Empty, Empty], true, s.history);
    DiagonalGameRun(s.history);
    DiagonalBoards();
  }

  /** Drawn game, all nine moves, from an empty board with any history. */
  lemma DrawnGameRun(h: seq<Entry>)
    ensures Run(State([Empty, Empty, Empty,  Empty, Empty, Empty,  Empty, Empty, Empty], true, h),
                [Press(0), Press(1), Press(2), Press(4), Press(3), Press(5), Press(7), Press(6), Press(8)])
            == State([Marked(X), Marked(O), Marked(X),  Marked(X), Marked(O), Marked(O),  Marked(O), Marked(X), Marked(X)], false,
                     h + [Entry([Marked(X), Marked(O), Marked(X),  Marked(X), Marked(O), Marked(O),  Marked(O), Marked(X), Marked(X)], "Draw")])
  {
    var x, o, e := Marked(X), Marked(O), Empty;
    OpeningX0(h);
    OpeningO1(h);
    DrawX2(h);
    DrawO4(h);
    DrawX3(h);
    DrawO5(h);
    DrawX7(h);
    DrawO6(h);
    DrawX8(h);
    RunStep(State([e, e, e,  e, e, e,  e, e, e], true, h), Press(0), [Press(1), Press(2), Press(4), Press(3), Press(5), Press(7), Press(6), Press(8)]);
    RunStep(State([x, e, e,  e, e, e,  e, e, e], false, h), Press(1), [Press(2), Press(4), Press(3), Press(5), Press(7), Press(6), Press(8)]);
    RunStep(State([x, o, e,  e, e, e,  e, e, e], true, h), Press(2), [Press(4), Press(3), Press(5), Press(7), Press(6), Press(8)]);
    RunStep(State([x, o, x,  e, e, e,  e, e, e], false, h), Press(4), [Press(3), Press(5), Press(7), Press(6), Press(8)]);
    RunStep(State([x, o, x,  e, o, e,  e, e, e], true, h), Press(3), [Press(5), Press(7), Press(6), Press(8)]);
    RunStep(State([x, o, x,  x, o, e,  e, e, e], false, h), Press(5), [Press(7), Press(6), Press(8)]);
    RunStep(State([x, o, x,  x, o, o,  e, e, e], true, h), Press(7), [Press(6), Press(8)]);
    RunStep(State([x, o, x,  x, o, o,  e, x, e], false, h), Press(6), [Press(8)]);
    RunStep(State([x, o, x,  x, o, o,  o, x, e], true, h), Press(8), []);
  }

  /** The drawn game's final board: full, with no complete line. */
  lemma DrawnBoard()
    ensures Full([Marked(X), Marked(O), Marked(X),  Marked(X), Marked(O), Marked(O),  Marked(O), Marked(X), Marked(X)])
    ensures Winner([Marked(X), Marked(O), Marked(X),  Marked(X), Marked(O), Marked(O),  Marked(O), Marked(X), Marked(X)]) == None
  {
  }

  /** Nine moves that fill the board without a complete line: the game
      is recorded as a draw. */
  lemma DrawnGame(s: State)
    requires AtGameStart(s)
    ensures Run(s, [Press(0), Press(1), Press(2), Press(4), Press(3), Press(5), Press(7), Press(6), Press(8)])
            == State([Marked(X), Marked(O), Marked(X),  Marked(X), Marked(O), Marked(O),  Marked(O), Marked(X), Marked(X)], false,
                     s.history + [Entry([Marked(X), Marked(O), Marked(X),  Marked(X), Marked(O), Marked(O),  Marked(O), Marked(X), Marked(X)], "Draw")])
    ensures Full([Marked(X), Marked(O), Marked(X),  Marked(X), Marked(O), Marked(O),  Marked(O), Marked(X), Marked(X)])
    ensures Winner([Marked(X), Marked(O), Marked(X),  Marked(X), Marked(O), Marked(O),  Marked(O), Marked(X), Marked(X)]) == None
  {
    assert s == State([Empty, Empty, Empty,  Empty, Empty, Empty,  Empty, Empty, Empty], true, s.history);
    DrawnGameRun(s.history);
    DrawnBoard();
  }
}
