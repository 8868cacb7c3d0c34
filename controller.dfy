/** The component's state held in place: the live board array, the turn
    flag and the history, updated by the click and reset handlers. */
module Controller {
  import opened Board
  import opened Game

  class App {
    var board: array<Cell>
    var isXNext: bool
    var history: seq<Entry>

    /** The board has nine cells and the state is one the game can reach. */
    ghost predicate Valid()
      reads this, board
    {
      board.Length == 9 && Inv(Model())
    }

    /** The state as a value. */
    ghost function Model(): State
      reads this, board
    {
      State(board[..], isXNext, history)
    }

    /** Mounting the component: an empty board, X to move, no history. */
    constructor ()
      ensures Valid() && fresh(board)
      ensures Model() == Initial()
    {
      board := new Cell[9](_ => Empty);
      isXNext := true;
      history := [];
      new;
      assert board[..] == EmptyBoard();
    }

    /** The click handler of square `index`. A taken click installs a
        fresh copy of the board with the cell marked; no array that
        already exists is written, so the board array of before stays as
        it was. */
    method HandleClick(index: Index)
      requires Valid()
      modifies this
      ensures Valid()
      ensures Model() == Click(old(Model()), index)
      ensures Accepts(old(board[..]), index) ==> fresh(board)
      ensures !Accepts(old(board[..]), index) ==> board == old(board)
      ensures unchanged(old(board))
    {
      var current := CalculateWinner(board);
      if board[index] != Empty || current.Some? {
        return;
      }
      ghost var before := Model();
      ClickInv(before, index);

      var live := board;
      var newBoard := new Cell[9](k requires 0 <= k < 9 reads live => live[k]);
      newBoard[index] := if isXNext then Marked(X) else Marked(O);
      assert newBoard[..] == before.board[index := Marked(Turn(before.isXNext))];
      board := newBoard;
      isXNext := !isXNext;

      var winner := CalculateWinner(newBoard);
      if winner.Some? || Empty !in newBoard[..] {
        var result := if winner.Some? then "Winner: " + MarkText(winner.value) else "Draw";
        history := history + [Entry(newBoard[..], result)];
      }
    }

    /** The reset button: a new empty board and X to move; the history is
        kept. */
    method ResetGame()
      requires Valid()
      modifies this
      ensures Valid() && fresh(board)
      ensures Model() == Reset(old(Model()))
    {
      board := new Cell[9](_ => Empty);
      isXNext := true;
      assert board[..] == EmptyBoard();
    }
  }
}
