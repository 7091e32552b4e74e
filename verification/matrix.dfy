/** The board as a value: an 8x8 grid of cell codes, 0 empty, 1 and 3 the odd
    side's man and queen, 2 and 4 the even side's man and queen. Cells are
    numbered row-major, cell n being (n / 8, n % 8). */
module Matrices {

  type Matrix = seq<seq<int>>

  predicate InBounds(i: int, j: int) {
    0 <= i < 8 && 0 <= j < 8
  }

  /** An 8x8 grid whose cells all hold one of the five codes. */
  predicate ValidBoard(b: Matrix) {
    && |b| == 8
    && (forall i :: 0 <= i < 8 ==> |b[i]| == 8)
    && (forall i, j :: 0 <= i < 8 && 0 <= j < 8 ==> 0 <= b[i][j] <= 4)
  }

  /** Two boards with the same cells are the same board. */
  lemma BoardExt(a: Matrix, b: Matrix)
    requires ValidBoard(a) && ValidBoard(b)
    requires forall i, j :: InBounds(i, j) ==> a[i][j] == b[i][j]
    ensures a == b
  {
    forall i | 0 <= i < 8 ensures a[i] == b[i] {
      assert forall j :: 0 <= j < 8 ==> a[i][j] == b[i][j];
    }
  }

  /** The board with one cell overwritten. */
  function SetCell(b: Matrix, i: int, j: int, v: int): (r: Matrix)
    requires ValidBoard(b) && InBounds(i, j) && 0 <= v <= 4
    ensures ValidBoard(r)
    ensures r[i][j] == v
    ensures forall p, q :: InBounds(p, q) && (p != i || q != j) ==> r[p][q] == b[p][q]
  {
    b[i := b[i][j := v]]
  }

  /** The code held by cell number n (0 <= n < 64) in row-major order. */
  function CellAt(b: Matrix, n: int): (v: int)
    requires ValidBoard(b) && 0 <= n < 64
    ensures 0 <= v <= 4
  {
    b[n / 8][n % 8]
  }

  /** How many of the first n cells hold the code v. */
  function Tally(b: Matrix, v: int, n: int): (t: nat)
    requires ValidBoard(b) && 0 <= n <= 64
    ensures t <= n
  {
    if n == 0 then 0 else Tally(b, v, n - 1) + (if CellAt(b, n - 1) == v then 1 else 0)
  }

  /** The sum of the row numbers of the first n cells that hold the code v. */
  function RowSum(b: Matrix, v: int, n: int): (r: nat)
    requires ValidBoard(b) && 0 <= n <= 64
    ensures r <= 7 * Tally(b, v, n)
  {
    if n == 0 then 0 else RowSum(b, v, n - 1) + (if CellAt(b, n - 1) == v then (n - 1) / 8 else 0)
  }

  /** The number of occupied cells. */
  function PieceCount(b: Matrix): nat
    requires ValidBoard(b)
  {
    64 - Tally(b, 0, 64)
  }

  /** Cell number k is (i, j) exactly when k == 8 * i + j. */
  lemma CellNumber(k: int, i: int, j: int)
    requires 0 <= k < 64 && InBounds(i, j)
    ensures k == 8 * i + j <==> k / 8 == i && k % 8 == j
  {
    assert k == 8 * (k / 8) + k % 8;
  }

  /** Overwriting cell (i, j) moves that cell from the tally of its old code
      to the tally of its new code. */
  lemma {:induction false} TallySetCell(b: Matrix, i: int, j: int, w: int, v: int, n: int)
    requires ValidBoard(b) && InBounds(i, j) && 0 <= w <= 4 && 0 <= n <= 64
    ensures Tally(SetCell(b, i, j, w), v, n)
         == Tally(b, v, n)
          - (if 8 * i + j < n && b[i][j] == v then 1 else 0)
          + (if 8 * i + j < n && w == v then 1 else 0)
  {
    if n > 0 {
      TallySetCell(b, i, j, w, v, n - 1);
      CellNumber(n - 1, i, j);
    }
  }

  /** Overwriting cell (i, j) moves its row number from the row sum of its
      old code to that of its new code. */
  lemma {:induction false} RowSumSetCell(b: Matrix, i: int, j: int, w: int, v: int, n: int)
    requires ValidBoard(b) && InBounds(i, j) && 0 <= w <= 4 && 0 <= n <= 64
    ensures RowSum(SetCell(b, i, j, w), v, n)
         == RowSum(b, v, n)
          - (if 8 * i + j < n && b[i][j] == v then i else 0)
          + (if 8 * i + j < n && w == v then i else 0)
  {
    if n > 0 {
      RowSumSetCell(b, i, j, w, v, n - 1);
      CellNumber(n - 1, i, j);
    }
  }

  /** The occupied-cell count after overwriting one cell. */
  lemma PieceCountSetCell(b: Matrix, i: int, j: int, w: int)
    requires ValidBoard(b) && InBounds(i, j) && 0 <= w <= 4
    ensures PieceCount(SetCell(b, i, j, w))
         == PieceCount(b) - (if b[i][j] != 0 then 1 else 0) + (if w != 0 then 1 else 0)
  {
    TallySetCell(b, i, j, w, 0, 64);
  }
}
