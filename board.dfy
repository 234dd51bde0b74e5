/** The checkers board shared by the move generator and the game state:
    pieces, cells, coordinates, single-cell updates and piece counting.

    The source tags pieces with the strings '1', '11', '2' and '22'
    (sometimes as numbers). Here a piece is an owner and a rank:
    '1' is Man(0), '11' is King(0), '2' is Man(1), '22' is King(1), where
    the owner is the index of the player in the room's player list. */
module Board {
  import opened Wrappers

  /** Index of a player in the room's player list: 0 moves first. */
  type PlayerIndex = i: int | 0 <= i < 2

  datatype Piece = Man(owner: PlayerIndex) | King(owner: PlayerIndex)

  /** A square: `null` in the source is None. */
  type Cell = Option<Piece>

  /** A board coordinate as the source writes it: `x` is the row, `y` the column. */
  datatype Loc = Loc(x: int, y: int)

  const Size := 8

  predicate IsGrid(b: seq<seq<Cell>>) {
    |b| == Size && forall r :: 0 <= r < |b| ==> |b[r]| == Size
  }

  /** An 8 by 8 grid of cells, indexed b[row][column]. */
  type Board = b: seq<seq<Cell>> | IsGrid(b) witness seq(Size, _ => seq(Size, _ => None))

  predicate InBounds(l: Loc) {
    0 <= l.x < Size && 0 <= l.y < Size
  }

  function At(b: Board, l: Loc): Cell
    requires InBounds(l)
  {
    b[l.x][l.y]
  }

  function Opponent(p: PlayerIndex): (q: PlayerIndex)
    ensures q != p
  {
    1 - p
  }

  /** The cell holds a piece, man or king, of player p. */
  predicate OwnedBy(c: Cell, p: PlayerIndex) {
    c.Some? && c.value.owner == p
  }

  /** `board[x][y] = v`: the board with one cell replaced. */
  function Set(b: Board, l: Loc, v: Cell): (r: Board)
    requires InBounds(l)
    ensures At(r, l) == v
    ensures forall m :: InBounds(m) && m != l ==> At(r, m) == At(b, m)
  {
    b[l.x := b[l.x][l.y := v]]
  }

  /** Number of pieces of player p in one row. */
  function RowCount(row: seq<Cell>, p: PlayerIndex): (n: nat)
    ensures n <= |row|
  {
    if row == [] then 0
    else (if OwnedBy(row[0], p) then 1 else 0) + RowCount(row[1..], p)
  }

  /** Number of pieces of player p on the rows of b. */
  function RowsCount(b: seq<seq<Cell>>, p: PlayerIndex): nat {
    if b == [] then 0 else RowCount(b[0], p) + RowsCount(b[1..], p)
  }

  /** Number of pieces (men and kings) of player p on the board. */
  function Count(b: Board, p: PlayerIndex): nat {
    RowsCount(b, p)
  }

  function Indicator(c: Cell, p: PlayerIndex): int {
    if OwnedBy(c, p) then 1 else 0
  }

  lemma {:induction false} RowCountUpdate(row: seq<Cell>, k: int, v: Cell, p: PlayerIndex)
    requires 0 <= k < |row|
    ensures RowCount(row[k := v], p) == RowCount(row, p) - Indicator(row[k], p) + Indicator(v, p)
  {
    if k > 0 {
      assert row[k := v][1..] == row[1..][k - 1 := v];
      RowCountUpdate(row[1..], k - 1, v, p);
    } else {
      assert row[k := v][1..] == row[1..];
    }
  }

  lemma {:induction false} RowsCountUpdate(b: seq<seq<Cell>>, i: int, row: seq<Cell>, p: PlayerIndex)
    requires 0 <= i < |b|
    ensures RowsCount(b[i := row], p) == RowsCount(b, p) - RowCount(b[i], p) + RowCount(row, p)
  {
    if i > 0 {
      assert b[i := row][1..] == b[1..][i - 1 := row];
      RowsCountUpdate(b[1..], i - 1, row, p);
    } else {
      assert b[i := row][1..] == b[1..];
    }
  }

  lemma RowCountDrop(row: seq<Cell>, k: int, p: PlayerIndex)
    requires 0 <= k < |row|
    ensures RowCount(row[k..], p) == Indicator(row[k], p) + RowCount(row[k + 1..], p)
  {
  }

  lemma RowsCountDrop(b: seq<seq<Cell>>, k: int, p: PlayerIndex)
    requires 0 <= k < |b|
    ensures RowsCount(b[k..], p) == RowCount(b[k], p) + RowsCount(b[k + 1..], p)
  {
  }

  /** The count of an eight-cell row, cell by cell. */
  lemma RowCount8(row: seq<Cell>, p: PlayerIndex)
    requires |row| == Size
    ensures RowCount(row, p) ==
      Indicator(row[0], p) + Indicator(row[1], p) + Indicator(row[2], p) + Indicator(row[3], p)
      + Indicator(row[4], p) + Indicator(row[5], p) + Indicator(row[6], p) + Indicator(row[7], p)
  {
    assert row[0..] == row && row[8..] == [];
    RowCountDrop(row, 0, p); RowCountDrop(row, 1, p); RowCountDrop(row, 2, p); RowCountDrop(row, 3, p);
    RowCountDrop(row, 4, p); RowCountDrop(row, 5, p); RowCountDrop(row, 6, p); RowCountDrop(row, 7, p);
  }

  /** The count of an eight-row board, row by row. */
  lemma RowsCount8(b: seq<seq<Cell>>, p: PlayerIndex)
    requires |b| == Size
    ensures RowsCount(b, p) ==
      RowCount(b[0], p) + RowCount(b[1], p) + RowCount(b[2], p) + RowCount(b[3], p)
      + RowCount(b[4], p) + RowCount(b[5], p) + RowCount(b[6], p) + RowCount(b[7], p)
  {
    assert b[0..] == b && b[8..] == [];
    RowsCountDrop(b, 0, p); RowsCountDrop(b, 1, p); RowsCountDrop(b, 2, p); RowsCountDrop(b, 3, p);
    RowsCountDrop(b, 4, p); RowsCountDrop(b, 5, p); RowsCountDrop(b, 6, p); RowsCountDrop(b, 7, p);
  }

  /** Writing one cell changes a player's piece count only by what
      leaves and what enters that cell. */
  lemma CountSet(b: Board, l: Loc, v: Cell, p: PlayerIndex)
    requires InBounds(l)
    ensures Count(Set(b, l, v), p) == Count(b, p) - Indicator(At(b, l), p) + Indicator(v, p)
  {
    RowCountUpdate(b[l.x], l.y, v, p);
    RowsCountUpdate(b, l.x, b[l.x][l.y := v], p);
  }
}
