/** The 3x3 board: its cells, the eight winning lines, the win detector
    and the status line shown above the grid. */
module Board {

  datatype Option<T> = None | Some(value: T)

  /** The symbol a player places. */
  datatype Mark = X | O

  /** One square of the grid; `Empty` stands for the source's `null`. */
  datatype Cell = Empty | Marked(mark: Mark)

  /** A position on the grid, 0..8 in row-major order. */
  type Index = i: nat | i < 9

  /** The index triples the win detector scans, in its order:
      three rows, three columns, two diagonals. */
  const Lines: seq<(Index, Index, Index)> :=
    [(0, 1, 2), (3, 4, 5), (6, 7, 8),
     (0, 3, 6), (1, 4, 7), (2, 5, 8),
     (0, 4, 8), (2, 4, 6)]

  predicate IsBoard(b: seq<Cell>) { |b| == 9 }

  /** Every cell holds a mark (the source's `!board.includes(null)`). */
  predicate Full(b: seq<Cell>) { Empty !in b }

  function EmptyBoard(): (b: seq<Cell>)
    ensures IsBoard(b) && forall i :: 0 <= i < |b| ==> b[i] == Empty
  {
    [Empty, Empty, Empty, Empty, Empty, Empty, Empty, Empty, Empty]
  }

  function Other(m: Mark): Mark { if m == X then O else X }

  /** The mark of the player whose turn it is. */
  function Turn(isXNext: bool): (m: Mark)
    ensures (m == X) == isXNext
  {
    if isXNext then X else O
  }

  // ---------------------------------------------------------------------
  // Reference definition of a win: line k holds three cells marked m.

  predicate LineOf(b: seq<Cell>, k: nat, m: Mark)
    requires IsBoard(b) && k < |Lines|
  {
    b[Lines[k].0] == Marked(m) && b[Lines[k].1] == Marked(m) && b[Lines[k].2] == Marked(m)
  }

  /** Line k is held entirely by one of the two players. */
  predicate Won(b: seq<Cell>, k: nat)
    requires IsBoard(b) && k < |Lines|
  {
    LineOf(b, k, X) || LineOf(b, k, O)
  }

  // ---------------------------------------------------------------------
  // The win detector, as the source tests each triple.

  /** The test applied to one triple: the first cell is set and the other
      two equal it. */
  predicate Complete(b: seq<Cell>, k: nat)
    requires IsBoard(b) && k < |Lines|
  {
    var (p, q, r) := Lines[k];
    b[p] != Empty && b[p] == b[q] && b[p] == b[r]
  }

  /** The scan of the triples from position k on: the mark of the first
      complete one, or None. */
  function WinnerFrom(b: seq<Cell>, k: nat): Option<Mark>
    requires IsBoard(b) && k <= |Lines|
    decreases |Lines| - k
  {
    if k == |Lines| then None
    else if Complete(b, k) then Some(b[Lines[k].0].mark)
    else WinnerFrom(b, k + 1)
  }

  /** The win detector: the mark of the first complete triple in scan
      order, or None when no line is held. */
  function Winner(b: seq<Cell>): (w: Option<Mark>)
    requires IsBoard(b)
    ensures w.None? <==> forall j :: 0 <= j < |Lines| ==> !Won(b, j)
    ensures w.Some? ==> exists j :: 0 <= j < |Lines| && LineOf(b, j, w.value)
  {
    WinnerFromNone(b, 0);
    if WinnerFrom(b, 0).Some? then
      WinnerFromSome(b, 0, WinnerFrom(b, 0).value);
      WinnerFrom(b, 0)
    else WinnerFrom(b, 0)
  }

  /** The loop of the source's win detector, over the live board array. */
  method CalculateWinner(squares: array<Cell>) returns (w: Option<Mark>)
    requires squares.Length == 9
    ensures w == Winner(squares[..])
  {
    var k := 0;
    while k < |Lines|
      invariant 0 <= k <= |Lines|
      invariant Winner(squares[..]) == WinnerFrom(squares[..], k)
    {
      var (p, q, r) := Lines[k];
      if squares[p] != Empty && squares[p] == squares[q] && squares[p] == squares[r] {
        return Some(squares[p].mark);
      }
      k := k + 1;
    }
    return None;
  }

  lemma CompleteIsWon(b: seq<Cell>, k: nat)
    requires IsBoard(b) && k < |Lines|
    ensures Complete(b, k) <==> Won(b, k)
    ensures Complete(b, k) ==> LineOf(b, k, b[Lines[k].0].mark)
  {
    var c := b[Lines[k].0];
    if c.Marked? {
      assert LineOf(b, k, c.mark) <==> Complete(b, k);
      assert !LineOf(b, k, Other(c.mark));
    }
  }

  lemma {:induction false} WinnerFromSome(b: seq<Cell>, k: nat, m: Mark)
    requires IsBoard(b) && k <= |Lines|
    ensures WinnerFrom(b, k) == Some(m) <==>
              exists j :: k <= j < |Lines| && LineOf(b, j, m) &&
                          forall i :: k <= i < j ==> !Won(b, i)
    decreases |Lines| - k
  {
    if k < |Lines| {
      WinnerFromSome(b, k + 1, m);
      CompleteIsWon(b, k);
      if Won(b, k) {
        if LineOf(b, k, m) {
          assert WinnerFrom(b, k) == Some(m);
        } else {
          assert WinnerFrom(b, k) != Some(m);
          forall j | k <= j < |Lines| && LineOf(b, j, m)
            ensures exists i :: k <= i < j && Won(b, i)
          {
            assert j != k;
          }
        }
      } else {
        assert WinnerFrom(b, k) == WinnerFrom(b, k + 1);
        if WinnerFrom(b, k) == Some(m) {
          var j :| k + 1 <= j < |Lines| && LineOf(b, j, m) &&
                   forall i :: k + 1 <= i < j ==> !Won(b, i);
          assert forall i :: k <= i < j ==> !Won(b, i);
        }
        if j :| k <= j < |Lines| && LineOf(b, j, m) && forall i :: k <= i < j ==> !Won(b, i) {
          assert j != k;
        }
      }
    }
  }

  lemma {:induction false} WinnerFromNone(b: seq<Cell>, k: nat)
    requires IsBoard(b) && k <= |Lines|
    ensures WinnerFrom(b, k) == None <==> forall j :: k <= j < |Lines| ==> !Won(b, j)
    decreases |Lines| - k
  {
    if k < |Lines| {
      WinnerFromNone(b, k + 1);
      CompleteIsWon(b, k);
    }
  }

  /** The detector returns m exactly when some line is held by m and no
      earlier line in the scan order is held by anyone: with several
      winning lines the first one decides. */
  lemma WinnerIsFirstWonLine(b: seq<Cell>, m: Mark)
    requires IsBoard(b)
    ensures Winner(b) == Some(m) <==>
              exists j :: 0 <= j < |Lines| && LineOf(b, j, m) &&
                          forall i :: 0 <= i < j ==> !Won(b, i)
  {
    WinnerFromSome(b, 0, m);
  }

  /** When only one player holds a line, the detector names that player,
      whatever the order of the lines. */
  lemma WinnerOfSingleLineHolder(b: seq<Cell>, m: Mark, k: nat)
    requires IsBoard(b) && k < |Lines| && LineOf(b, k, m)
    requires forall j :: 0 <= j < |Lines| ==> !LineOf(b, j, Other(m))
    ensures Winner(b) == Some(m)
  {
    var w :| w == Winner(b).value;
    WinnerIsFirstWonLine(b, w);
    WinnerIsFirstWonLine(b, Other(m));
    assert w != Other(m);
  }

  lemma EmptyBoardHasNoWinner()
    ensures Winner(EmptyBoard()) == None
  {
  }

  // ---------------------------------------------------------------------
  // The texts the component displays.

  function MarkText(m: Mark): string { if m == X then "X" else "O" }

  /** The result recorded for a finished game. */
  function ResultText(w: Option<Mark>): string
  {
    match w
    case Some(m) => "Winner: " + MarkText(m)
    case None => "Draw"
  }

  /** The status line: the winner, else whose turn it is while a cell is
      free, else a draw. Once the game is over it shows the result text a
      finished game is recorded with; before that it names the player to
      move. */
  function Status(b: seq<Cell>, isXNext: bool): (s: string)
    requires IsBoard(b)
    ensures (Winner(b).Some? || Full(b)) <==> s == ResultText(Winner(b))
    ensures !(Winner(b).Some? || Full(b)) <==> s == "Next Player: " + MarkText(Turn(isXNext))
  {
    var next := "Next Player: " + MarkText(Turn(isXNext));
    assert |next| == 14 && |ResultText(Winner(b))| < 14;
    if Winner(b).Some? then ResultText(Winner(b))
    else if !Full(b) then next
    else "Draw"
  }

  lemma StatusWinner(b: seq<Cell>, isXNext: bool, m: Mark)
    requires IsBoard(b)
    ensures Status(b, isXNext) == "Winner: " + MarkText(m) <==> Winner(b) == Some(m)
  {
    var s := Status(b, isXNext);
    if s == "Winner: " + MarkText(m) {
      assert |s| == 9 && s[8] == MarkText(m)[0];
    }
  }

  /** "Next Player" is shown exactly while the game is open: no line is
      held and some cell is free; it names the player to move. */
  lemma StatusNextPlayer(b: seq<Cell>, isXNext: bool, m: Mark)
    requires IsBoard(b)
    ensures "Next Player: " <= Status(b, isXNext) <==>
              (forall j :: 0 <= j < |Lines| ==> !Won(b, j)) && !Full(b)
    ensures Status(b, isXNext) == "Next Player: " + MarkText(m) <==>
              (forall j :: 0 <= j < |Lines| ==> !Won(b, j)) && !Full(b) && m == Turn(isXNext)
  {
    var s := Status(b, isXNext);
    if s == "Next Player: " + MarkText(m) {
      assert s[13] == MarkText(m)[0];
    }
  }

  /** "Draw" is shown exactly when every cell is marked and no line is held. */
  lemma StatusDraw(b: seq<Cell>, isXNext: bool)
    requires IsBoard(b)
    ensures Status(b, isXNext) == "Draw" <==>
              Full(b) && forall j :: 0 <= j < |Lines| ==> !Won(b, j)
  {
  }

  // ---------------------------------------------------------------------
  // Counting marks, for the turn invariant.

  /** The number of cells holding mark m. */
  function Count(b: seq<Cell>, m: Mark): nat
  {
    if b == [] then 0 else (if b[0] == Marked(m) then 1 else 0) + Count(b[1..], m)
  }

  /** Marking an empty cell with m adds one m and no other mark. */
  lemma {:induction false} CountPlace(b: seq<Cell>, i: nat, m: Mark, n: Mark)
    requires i < |b| && b[i] == Empty
    ensures Count(b[i := Marked(m)], n) == Count(b, n) + (if n == m then 1 else 0)
  {
    if i == 0 {
      assert b[i := Marked(m)][1..] == b[1..];
    } else {
      assert b[i := Marked(m)][1..] == b[1..][i - 1 := Marked(m)];
      CountPlace(b[1..], i - 1, m, n);
    }
  }

  lemma {:induction false} CountNoMarks(b: seq<Cell>, m: Mark)
    requires forall i :: 0 <= i < |b| ==> b[i] == Empty
    ensures Count(b, m) == 0
  {
    if b != [] {
      CountNoMarks(b[1..], m);
    }
  }

  /** On a full board every cell holds one of the two marks. */
  lemma {:induction false} CountFull(b: seq<Cell>)
    requires Full(b)
    ensures Count(b, X) + Count(b, O) == |b|
  {
    if b != [] {
      assert b[0] in b;
      assert b[0] == Marked(X) || b[0] == Marked(O) by {
        assert b[0] != Empty;
        assert b[0].mark.X? || b[0].mark.O?;
      }
      CountFull(b[1..]);
      assert Count(b, X) == (if b[0] == Marked(X) then 1 else 0) + Count(b[1..], X);
      assert Count(b, O) == (if b[0] == Marked(O) then 1 else 0) + Count(b[1..], O);
    }
  }
}
