/**
 * The rules of the 6 x 7 Connect-Four board (src/game.js), as values.
 *
 * A `Game` is what a `Connect4` object holds: the cells (row 0 is the top,
 * row Rows - 1 the bottom; 0 is an empty cell, 1 and 2 the players'
 * pieces), the player to move and the winner (0 standing for `null`).
 * `Drop` is what `dropPiece` does to that state and what it returns;
 * `WinAt` is what `checkWin` answers. The class in module Engine is
 * proved against these functions; the lemmas here state what the game
 * promises about them.
 */
module Board {
  import opened Wrappers

  const Rows: int := 6
  const Cols: int := 7
  const Empty: int := 0

  type Grid = seq<seq<int>>

  /** Rows x Cols cells */
  predicate Shaped(g: Grid) {
    |g| == Rows && forall r :: 0 <= r < Rows ==> |g[r]| == Cols
  }

  predicate InBounds(r: int, c: int) {
    0 <= r < Rows && 0 <= c < Cols
  }

  datatype Game = Game(cells: Grid, current: int, winner: int)

  /** The `{row, col, player}` record returned for an accepted drop. */
  datatype Placed = Placed(row: int, col: int, player: int)

  function EmptyGrid(): (g: Grid)
    ensures Shaped(g)
    ensures forall r, c :: InBounds(r, c) ==> g[r][c] == Empty
  {
    seq(Rows, _ => seq(Cols, _ => Empty))
  }

  /** The state `reset` leaves: every cell empty, player 1 to move, no winner. */
  function Initial(): Game {
    Game(EmptyGrid(), 1, 0)
  }

  /** Pieces only rest on pieces: in every column the occupied cells run
      without a gap from the bottom row upward. */
  ghost predicate Gravity(g: Grid)
    requires Shaped(g)
  {
    forall r1, r2, c :: 0 <= r1 < r2 < Rows && 0 <= c < Cols && g[r1][c] != Empty ==> g[r2][c] != Empty
  }

  /** The invariant every reachable board state keeps. */
  ghost predicate Legal(s: Game) {
    && Shaped(s.cells)
    && (forall r, c :: InBounds(r, c) ==> s.cells[r][c] in {0, 1, 2})
    && s.current in {1, 2}
    && s.winner in {0, 1, 2}
    && Gravity(s.cells)
  }

  /** The player who moves after `p` (`currentPlayer === 1 ? 2 : 1`): for
      a player, the other player. */
  function Other(p: int): (q: int)
    ensures p in {1, 2} ==> q in {1, 2} && q != p
  {
    if p == 1 then 2 else 1
  }

  /** The first empty cell of column `col` met when scanning from row `from`
      up to row 0, as the loop of `dropPiece` scans it. */
  function LandingRow(g: Grid, col: int, from: int): (r: Option<int>)
    requires Shaped(g) && 0 <= col < Cols && -1 <= from < Rows
    ensures r.Some? ==> 0 <= r.value <= from && g[r.value][col] == Empty
    ensures r.Some? ==> forall k :: r.value < k <= from ==> g[k][col] != Empty
    ensures r.None? <==> forall k :: 0 <= k <= from ==> g[k][col] != Empty
    decreases from + 1
  {
    if from < 0 then None
    else if g[from][col] == Empty then Some(from)
    else LandingRow(g, col, from - 1)
  }

  /** `g` with the one cell (row, col) set to `p`. */
  function Place(g: Grid, row: int, col: int, p: int): (h: Grid)
    requires Shaped(g) && InBounds(row, col)
    ensures Shaped(h)
    ensures h[row][col] == p
    ensures forall r, c :: InBounds(r, c) && (r, c) != (row, col) ==> h[r][c] == g[r][c]
  {
    g[row := g[row][col := p]]
  }

  // ---------------------------------------------------------------------
  // checkWin
  // ---------------------------------------------------------------------

  /** Which of the two counting loops of `checkWin`: the one stepping by
      +(dr, dc) or the one stepping by -(dr, dc). */
  datatype Sense = Forward | Backward

  /** The cell `i` steps from (row, col) along (dr, dc), in sense `sense`,
      is on the board and holds `p`. */
  predicate MatchesAt(g: Grid, row: int, col: int, dr: int, dc: int, sense: Sense, i: int, p: int)
    requires Shaped(g)
  {
    var r := if sense == Forward then row + dr * i else row - dr * i;
    var c := if sense == Forward then col + dc * i else col - dc * i;
    InBounds(r, c) && g[r][c] == p
  }

  /** What one counting loop of `checkWin` adds when resumed at step `i`:
      the number of consecutive cells at steps i, i + 1, ..., 3 that hold `p`. */
  function Run(g: Grid, row: int, col: int, dr: int, dc: int, sense: Sense, p: int, i: int): (n: int)
    requires Shaped(g) && 1 <= i <= 4
    ensures 0 <= n <= 4 - i
    decreases 4 - i
  {
    if i == 4 || !MatchesAt(g, row, col, dr, dc, sense, i, p) then 0
    else 1 + Run(g, row, col, dr, dc, sense, p, i + 1)
  }

  /** `count` of `checkWin` for one direction: the cell itself, plus the run
      forward and the run backward, each capped at 3. It reaches four iff
      the piece at (row, col) lies on a line of four along that axis. */
  function AxisCount(g: Grid, row: int, col: int, dr: int, dc: int): (n: int)
    requires Shaped(g) && InBounds(row, col)
    ensures 1 <= n <= 7
    ensures n >= 4 <==> LineOfFour(g, row, col, dr, dc)
  {
    var p := g[row][col];
    AxisIffLine(g, row, col, dr, dc);
    1 + Run(g, row, col, dr, dc, Forward, p, 1) + Run(g, row, col, dr, dc, Backward, p, 1)
  }

  /** Horizontal, vertical and the two diagonals, in the order `checkWin` tries them. */
  const Directions: seq<(int, int)> := [(0, 1), (1, 0), (1, 1), (1, -1)]

  /** Some direction from the `k`-th on has a count of at least four: what
      the direction loop of `checkWin` answers when resumed at direction `k`.
      That is, the piece at (row, col) lies on a line of four along one of
      those directions. */
  predicate WinFrom(g: Grid, row: int, col: int, k: nat)
    requires Shaped(g) && InBounds(row, col)
    ensures WinFrom(g, row, col, k) <==>
      exists j :: k <= j < |Directions| && LineOfFour(g, row, col, Directions[j].0, Directions[j].1)
    decreases |Directions| - k
  {
    k < |Directions| &&
    (AxisCount(g, row, col, Directions[k].0, Directions[k].1) >= 4 || WinFrom(g, row, col, k + 1))
  }

  /** The answer of `checkWin(row, col)`: true iff the piece at (row, col)
      completes four in a row horizontally, vertically or along either
      diagonal. */
  predicate WinAt(g: Grid, row: int, col: int)
    requires Shaped(g) && InBounds(row, col)
    ensures WinAt(g, row, col) <==>
      exists j :: 0 <= j < |Directions| && LineOfFour(g, row, col, Directions[j].0, Directions[j].1)
  {
    WinFrom(g, row, col, 0)
  }

  /** The `n` cells following (row, col) along (dr, dc) are on the board and hold `p`. */
  ghost predicate Ray(g: Grid, row: int, col: int, dr: int, dc: int, sense: Sense, n: int, p: int)
    requires Shaped(g)
  {
    forall i :: 1 <= i <= n ==> MatchesAt(g, row, col, dr, dc, sense, i, p)
  }

  /** Four cells in a row along (dr, dc) hold the piece at (row, col): `back`
      of them behind it, the cell itself and 3 - back ahead of it. */
  ghost predicate Line(g: Grid, row: int, col: int, dr: int, dc: int, back: int)
    requires Shaped(g) && InBounds(row, col)
  {
    var p := g[row][col];
    && 0 <= back <= 3
    && Ray(g, row, col, dr, dc, Forward, 3 - back, p)
    && Ray(g, row, col, dr, dc, Backward, back, p)
  }

  /** The rule of the game, independent of how `checkWin` counts: (row, col)
      is one of four same-player cells in a row along (dr, dc). */
  ghost predicate LineOfFour(g: Grid, row: int, col: int, dr: int, dc: int)
    requires Shaped(g) && InBounds(row, col)
  {
    exists back :: 0 <= back <= 3 && Line(g, row, col, dr, dc, back)
  }

  // ---------------------------------------------------------------------
  // dropPiece
  // ---------------------------------------------------------------------

  /** The new state and the result of `dropPiece(col)` on state `s`. */
  function Drop(s: Game, col: int): (res: (Game, Option<Placed>))
    requires Shaped(s.cells)
    ensures Shaped(res.0.cells)
  {
    if s.winner != 0 || col < 0 || col >= Cols then (s, None)
    else match LandingRow(s.cells, col, Rows - 1)
      case None => (s, None)
      case Some(row) =>
        var cells := Place(s.cells, row, col, s.current);
        var placed := Some(Placed(row, col, s.current));
        if WinAt(cells, row, col) then (Game(cells, s.current, s.current), placed)
        else (Game(cells, Other(s.current), s.winner), placed)
  }

  /** The state and result of an accepted drop landing at `row`, given
      whether the piece wins there. */
  lemma DropLands(s: Game, col: int, row: int, won: bool)
    requires Shaped(s.cells) && s.winner == 0 && 0 <= col < Cols
    requires LandingRow(s.cells, col, Rows - 1) == Some(row)
    requires won == WinAt(Place(s.cells, row, col, s.current), row, col)
    ensures Drop(s, col) ==
      (Game(Place(s.cells, row, col, s.current), if won then s.current else Other(s.current), if won then s.current else 0),
       Some(Placed(row, col, s.current)))
  {
  }

  /** Column `col` has no empty cell. */
  ghost predicate ColumnFull(g: Grid, col: int)
    requires Shaped(g) && 0 <= col < Cols
  {
    forall r :: 0 <= r < Rows ==> g[r][col] != Empty
  }

  /** The state and results after dropping into `cols` one after another. */
  function Replay(s: Game, cols: seq<int>): (res: (Game, seq<Option<Placed>>))
    requires Shaped(s.cells)
    ensures Shaped(res.0.cells) && |res.1| == |cols|
    decreases |cols|
  {
    if cols == [] then (s, [])
    else
      var (t, r) := Drop(s, cols[0]);
      var (u, rs) := Replay(t, cols[1..]);
      (u, [r] + rs)
  }

  // ---------------------------------------------------------------------
  // What checkWin decides
  // ---------------------------------------------------------------------

  /** A counting loop resumed at step `i` counts at least `m` iff the `m`
      cells from step `i` on all hold `p`. */
  lemma {:induction false} RunAtLeast(g: Grid, row: int, col: int, dr: int, dc: int, sense: Sense, p: int, i: int, m: int)
    requires Shaped(g) && 1 <= i <= 4 && 0 <= m <= 4 - i
    ensures Run(g, row, col, dr, dc, sense, p, i) >= m <==> forall k :: i <= k < i + m ==> MatchesAt(g, row, col, dr, dc, sense, k, p)
    decreases m
  {
    if m > 0 {
      RunAtLeast(g, row, col, dr, dc, sense, p, i + 1, m - 1);
    }
  }

  /** A counting loop that matched steps 1 to n and then stopped (at the
      cap, or at a cell that does not match) has counted exactly n. */
  lemma RunIs(g: Grid, row: int, col: int, dr: int, dc: int, sense: Sense, p: int, n: int)
    requires Shaped(g) && 0 <= n <= 3
    requires Ray(g, row, col, dr, dc, sense, n, p)
    requires n == 3 || !MatchesAt(g, row, col, dr, dc, sense, n + 1, p)
    ensures Run(g, row, col, dr, dc, sense, p, 1) == n
  {
    RunAtLeast(g, row, col, dr, dc, sense, p, 1, n);
    if n < 3 {
      RunAtLeast(g, row, col, dr, dc, sense, p, 1, n + 1);
    }
  }

  /** The cell plus the two runs along one axis reach 4 iff the placed piece
      lies on a line of four along that axis. */
  lemma AxisIffLine(g: Grid, row: int, col: int, dr: int, dc: int)
    requires Shaped(g) && InBounds(row, col)
    ensures var p := g[row][col];
      1 + Run(g, row, col, dr, dc, Forward, p, 1) + Run(g, row, col, dr, dc, Backward, p, 1) >= 4
      <==> LineOfFour(g, row, col, dr, dc)
  {
    var p := g[row][col];
    var b := Run(g, row, col, dr, dc, Backward, p, 1);
    if 1 + Run(g, row, col, dr, dc, Forward, p, 1) + b >= 4 {
      RunAtLeast(g, row, col, dr, dc, Forward, p, 1, 3 - b);
      RunAtLeast(g, row, col, dr, dc, Backward, p, 1, b);
      assert Line(g, row, col, dr, dc, b);
    }
    if LineOfFour(g, row, col, dr, dc) {
      var back :| 0 <= back <= 3 && Line(g, row, col, dr, dc, back);
      RunAtLeast(g, row, col, dr, dc, Forward, p, 1, 3 - back);
      RunAtLeast(g, row, col, dr, dc, Backward, p, 1, back);
    }
  }

  // ---------------------------------------------------------------------
  // What dropPiece does
  // ---------------------------------------------------------------------

  /** `dropPiece` returns null exactly when the game is won, the column is
      out of range or the column is full, and then nothing changes. */
  lemma DropRejects(s: Game, col: int)
    requires Shaped(s.cells)
    ensures Drop(s, col).1.None? <==> s.winner != 0 || col < 0 || col >= Cols || ColumnFull(s.cells, col)
    ensures Drop(s, col).1.None? ==> Drop(s, col).0 == s
  {
  }

  /** An accepted drop fills the lowest empty cell of the column with the
      mover's piece, changes no other cell and reports that cell. */
  lemma DropPlaces(s: Game, col: int)
    requires Shaped(s.cells)
    requires Drop(s, col).1.Some?
    ensures var (t, placed) := Drop(s, col);
      var row := placed.value.row;
      && placed.value == Placed(row, col, s.current)
      && InBounds(row, col)
      && s.cells[row][col] == Empty
      && (forall k :: row < k < Rows ==> s.cells[k][col] != Empty)
      && t.cells[row][col] == s.current
      && (forall r, c :: InBounds(r, c) && (r, c) != (row, col) ==> t.cells[r][c] == s.cells[r][c])
  {
  }

  /** After an accepted drop either the move won (the mover is recorded as
      winner and keeps the turn) or the turn passes to the other player. */
  lemma DropOutcome(s: Game, col: int)
    requires Shaped(s.cells)
    requires Drop(s, col).1.Some?
    ensures var (t, placed) := Drop(s, col);
      var row := placed.value.row;
      InBounds(row, col) &&
      if WinAt(t.cells, row, col) then t.winner == s.current && t.current == s.current
      else t.winner == s.winner == 0 && t.current == Other(s.current)
  {
  }

  lemma LegalInitial()
    ensures Legal(Initial())
  {
  }

  /** `dropPiece` keeps cells in {0, 1, 2}, the turn in {1, 2}, the winner in
      {null, 1, 2} and the gravity invariant. */
  lemma DropKeepsLegal(s: Game, col: int)
    requires Legal(s)
    ensures Legal(Drop(s, col).0)
  {
    var (t, placed) := Drop(s, col);
    if placed.Some? {
      DropPlaces(s, col);
      var row := placed.value.row;
      forall r1, r2, c | 0 <= r1 < r2 < Rows && 0 <= c < Cols && t.cells[r1][c] != Empty
        ensures t.cells[r2][c] != Empty
      {
        if c == col && r1 != row {
          assert s.cells[r1][c] != Empty;
        }
      }
    }
  }

  /** Once the game is won every further drop is refused: the state is fixed
      until `reset`. */
  lemma {:induction false} WonStaysWon(s: Game, cols: seq<int>)
    requires Shaped(s.cells) && s.winner != 0
    ensures Replay(s, cols).0 == s
    ensures forall k :: 0 <= k < |cols| ==> Replay(s, cols).1[k].None?
    decreases |cols|
  {
    if cols != [] {
      WonStaysWon(s, cols[1..]);
    }
  }
}
