/**
 * The `Connect4` object of src/game.js: a 6 x 7 array of cells updated in
 * place, the player to move and the winner (0 standing for `null`).
 * Every method is proved against the functions of module Board: the new
 * abstract state, and the value returned, are those functions of the old
 * state.
 */
module Engine {
  import opened Wrappers
  import opened Board

  class Connect4 {
    var board: array2<int>
    var currentPlayer: int
    var winner: int
    /** The board as a value, row by row. */
    ghost var cells: Grid

    /** `cells` is what `board` holds. */
    ghost predicate Coherent()
      reads this, board
    {
      && board.Length0 == Rows && board.Length1 == Cols
      && Shaped(cells)
      && forall r, c :: InBounds(r, c) ==> cells[r][c] == board[r, c]
    }

    ghost function State(): Game
      reads this
    {
      Game(cells, currentPlayer, winner)
    }

    ghost predicate Valid()
      reads this, board
    {
      Coherent() && Legal(State())
    }

    constructor()
      ensures Valid() && fresh(board)
      ensures State() == Initial()
    {
      board := new int[0, 0];
      currentPlayer := 1;
      winner := 0;
      cells := [];
      new;
      Reset();
    }

    /** Rebuilds the board empty, gives the move to player 1 and clears the winner. */
    method Reset()
      modifies this
      ensures Valid() && fresh(board)
      ensures State() == Initial()
    {
      board := new int[Rows, Cols]((r, c) => 0);
      currentPlayer := 1;
      winner := 0;
      cells := EmptyGrid();
      LegalInitial();
    }

    /** Drops the current player's piece into column `col`. */
    method DropPiece(col: int) returns (result: Option<Placed>)
      requires Valid()
      modifies this, board
      ensures Valid() && board == old(board)
      ensures (State(), result) == Drop(old(State()), col)
    {
      ghost var s := State();
      if winner != 0 || col < 0 || col >= Cols {
        return None;
      }
      var row := Rows - 1;
      while row >= 0
        invariant -1 <= row < Rows
        invariant State() == s && Coherent()
        invariant LandingRow(s.cells, col, Rows - 1) == LandingRow(s.cells, col, row)
      {
        if board[row, col] == 0 {
          board[row, col] := currentPlayer;
          cells := Place(cells, row, col, currentPlayer);
          var won := CheckWin(row, col);
          DropLands(s, col, row, won);
          DropKeepsLegal(s, col);
          if won {
            winner := currentPlayer;
          } else {
            currentPlayer := if currentPlayer == 1 then 2 else 1;
          }
          return Some(Placed(row, col, board[row, col]));
        }
        row := row - 1;
      }
      return None;
    }

    /** Whether the piece at (row, col) completes four in a row: tries the
        directions in order and answers true once a count reaches four. */
    method CheckWin(row: int, col: int) returns (won: bool)
      requires Coherent() && InBounds(row, col)
      ensures won == WinAt(cells, row, col)
    {
      var directions := Directions;
      for d := 0 to |directions|
        invariant WinAt(cells, row, col) == WinFrom(cells, row, col, d)
      {
        var count := CountAxis(row, col, directions[d].0, directions[d].1);
        if count >= 4 {
          return true;
        }
      }
      return false;
    }

    /** The body of the direction loop of `checkWin`: starting from 1,
        counts the pieces equal to the one at (row, col) forward along
        (dr, dc) and then backward, at most three each way. */
    method CountAxis(row: int, col: int, dr: int, dc: int) returns (count: int)
      requires Coherent() && InBounds(row, col)
      ensures count == AxisCount(cells, row, col, dr, dc)
    {
      ghost var g := cells;
      var player := board[row, col];
      count := 1;
      var i := 1;
      while i < 4
        invariant 1 <= i <= 4
        invariant count == i
        invariant Ray(g, row, col, dr, dc, Forward, i - 1, player)
      {
        var r := row + dr * i;
        var c := col + dc * i;
        if r < 0 || r >= Rows || c < 0 || c >= Cols || board[r, c] != player {
          break;
        }
        count := count + 1;
        i := i + 1;
      }
      RunIs(g, row, col, dr, dc, Forward, player, i - 1);
      ghost var forward := count - 1;
      i := 1;
      while i < 4
        invariant 1 <= i <= 4
        invariant count == forward + i
        invariant Ray(g, row, col, dr, dc, Backward, i - 1, player)
      {
        var r := row - dr * i;
        var c := col - dc * i;
        if r < 0 || r >= Rows || c < 0 || c >= Cols || board[r, c] != player {
          break;
        }
        count := count + 1;
        i := i + 1;
      }
      RunIs(g, row, col, dr, dc, Backward, player, i - 1);
    }
  }

  /** Two boards that receive the same columns in the same order, as the two
      peers' boards do, end in the same state with the same results. */
  method TwoBoards(cols: seq<int>) returns (a: Connect4, b: Connect4, ra: seq<Option<Placed>>, rb: seq<Option<Placed>>)
    ensures a.Valid() && b.Valid()
    ensures a.State() == b.State() == Replay(Initial(), cols).0
    ensures ra == rb == Replay(Initial(), cols).1
  {
    a := new Connect4();
    b := new Connect4();
    ra, rb := [], [];
    var n := 0;
    assert cols[n..] == cols;
    while n < |cols|
      invariant 0 <= n <= |cols|
      invariant fresh(a) && fresh(b) && fresh(a.board) && fresh(b.board)
      invariant a != b && a.board != b.board
      invariant a.Valid() && b.Valid()
      invariant Replay(a.State(), cols[n..]).0 == Replay(Initial(), cols).0
      invariant ra + Replay(a.State(), cols[n..]).1 == Replay(Initial(), cols).1
      invariant a.State() == b.State() && ra == rb
    {
      ghost var s := a.State();
      var x := a.DropPiece(cols[n]);
      var y := b.DropPiece(cols[n]);
      assert cols[n..][0] == cols[n] && cols[n..][1..] == cols[n + 1..];
      assert Replay(s, cols[n..]).1 == [x] + Replay(a.State(), cols[n + 1..]).1;
      ra, rb := ra + [x], rb + [y];
      n := n + 1;
    }
    assert cols[n..] == [];
  }
}
