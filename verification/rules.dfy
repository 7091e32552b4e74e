/** The rules for one piece (Logic::make_turn and the per-piece
    Logic::find_turns): how a move changes the board, and which moves the
    piece on a given cell has. The generators are written the way the source
    loops run, as "the rest of the loop from here" functions, so that the
    imperative versions in module Engine can be proved equal to them; the
    lemmas then say what those lists contain. */
module Rules {
  import opened Moves
  import opened Matrices

  /** A man (1 or 2) reaching the far row (row 0 for 1, row 7 for 2) becomes
      the queen of its side (3 or 4). */
  function Promote(v: int, x2: int): (p: int)
    ensures (v == 1 && x2 == 0) || (v == 2 && x2 == 7) ==> p == v + 2
    ensures !((v == 1 && x2 == 0) || (v == 2 && x2 == 7)) ==> p == v
  {
    if (v == 1 && x2 == 0) || (v == 2 && x2 == 7) then v + 2 else v
  }

  /** The board after move m, on a copy: the captured cell is cleared, the
      piece is promoted if it lands on its far row, placed on the destination
      and its source is cleared. */
  function MakeTurn(b: Matrix, m: Move): (r: Matrix)
    requires ValidBoard(b) && InBounds(m.x, m.y) && InBounds(m.x2, m.y2)
    requires IsCapture(m) ==> InBounds(m.xb, m.yb)
    ensures ValidBoard(r)
    ensures r[m.x][m.y] == 0
    ensures (m.x2, m.y2) != (m.x, m.y) && (!IsCapture(m) || (m.xb, m.yb) != (m.x, m.y))
            ==> r[m.x2][m.y2] == Promote(b[m.x][m.y], m.x2)
    ensures IsCapture(m) && (m.xb, m.yb) != (m.x2, m.y2) ==> r[m.xb][m.yb] == 0
    ensures forall i, j ::
              (InBounds(i, j) && (i, j) != (m.x, m.y) && (i, j) != (m.x2, m.y2)
               && (!IsCapture(m) || (i, j) != (m.xb, m.yb))) ==> r[i][j] == b[i][j]
  {
    var c1 := if IsCapture(m) then SetCell(b, m.xb, m.yb, 0) else b;
    var c2 := SetCell(c1, m.x, m.y, Promote(c1[m.x][m.y], m.x2));
    var c3 := SetCell(c2, m.x2, m.y2, c2[m.x][m.y]);
    SetCell(c3, m.x, m.y, 0)
  }

  /** A move the rules allow on board b: both ends on the board, a piece on
      the source, an empty destination and, for a capture, an opponent piece
      (other parity) on the captured cell. */
  predicate Legal(b: Matrix, m: Move)
    requires ValidBoard(b)
  {
    && InBounds(m.x, m.y) && InBounds(m.x2, m.y2)
    && b[m.x][m.y] != 0 && b[m.x2][m.y2] == 0
    && (IsCapture(m) ==> InBounds(m.xb, m.yb) && b[m.xb][m.yb] != 0 && b[m.xb][m.yb] % 2 != b[m.x][m.y] % 2)
  }

  /** Every move of the list is legal, and all are captures or none is. */
  predicate MovesOk(b: Matrix, moves: seq<Move>, haveBeats: bool)
    requires ValidBoard(b)
  {
    forall m :: m in moves ==> Legal(b, m) && IsCapture(m) == haveBeats
  }

  /** A legal capture removes exactly one piece from the board, and the moved
      piece stands on the destination afterwards. */
  lemma CaptureShrinks(b: Matrix, m: Move)
    requires ValidBoard(b) && Legal(b, m)
    ensures MakeTurn(b, m)[m.x2][m.y2] != 0
    ensures IsCapture(m) ==> PieceCount(MakeTurn(b, m)) == PieceCount(b) - 1
    ensures !IsCapture(m) ==> PieceCount(MakeTurn(b, m)) == PieceCount(b)
  {
    var c1 := if IsCapture(m) then SetCell(b, m.xb, m.yb, 0) else b;
    var c2 := SetCell(c1, m.x, m.y, Promote(c1[m.x][m.y], m.x2));
    var c3 := SetCell(c2, m.x2, m.y2, c2[m.x][m.y]);
    if IsCapture(m) {
      PieceCountSetCell(b, m.xb, m.yb, 0);
    }
    PieceCountSetCell(c1, m.x, m.y, Promote(c1[m.x][m.y], m.x2));
    PieceCountSetCell(c2, m.x2, m.y2, c2[m.x][m.y]);
    PieceCountSetCell(c3, m.x, m.y, 0);
  }

  // ---------------------------------------------------------------------
  // Moves of one piece, as the loops of the per-piece find_turns run.
  // ---------------------------------------------------------------------

  /** The row a man steps to: odd pieces move up (x - 1), even pieces down. */
  function Forward(t: int, x: int): int {
    if t % 2 == 1 then x - 1 else x + 1
  }

  predicate IsMan(t: int) {
    t == 1 || t == 2
  }

  /** One iteration of the man-capture loop: the jump from (x, y) to (i, j)
      over the midpoint, if the landing is on the board and empty and the
      midpoint holds an opponent. */
  function ManJump(b: Matrix, x: int, y: int, i: int, j: int): seq<Move>
    requires ValidBoard(b) && InBounds(x, y)
  {
    if i < 0 || i > 7 || j < 0 || j > 7 then []
    else
      var xb, yb := (x + i) / 2, (y + j) / 2;
      if b[i][j] != 0 || b[xb][yb] == 0 || b[xb][yb] % 2 == b[x][y] % 2 then []
      else [CaptureMove(x, y, i, j, xb, yb)]
  }

  /** The rest of the inner man-capture loop, from column j on. */
  function ManJumpRow(b: Matrix, x: int, y: int, i: int, j: int): seq<Move>
    requires ValidBoard(b) && InBounds(x, y) && j <= y + 6
    decreases y + 6 - j
  {
    if j > y + 2 then [] else ManJump(b, x, y, i, j) + ManJumpRow(b, x, y, i, j + 4)
  }

  /** The rest of the outer man-capture loop, from row i on. */
  function ManJumps(b: Matrix, x: int, y: int, i: int): seq<Move>
    requires ValidBoard(b) && InBounds(x, y) && i <= x + 6
    decreases x + 6 - i
  {
    if i > x + 2 then [] else ManJumpRow(b, x, y, i, y - 2) + ManJumps(b, x, y, i + 4)
  }

  function ManCaptures(b: Matrix, x: int, y: int): seq<Move>
    requires ValidBoard(b) && InBounds(x, y)
  {
    ManJumps(b, x, y, x - 2)
  }

  /** The rest of a queen's capture scan along direction (di, dj), standing
      on (i2, j2); (xb, yb) is the opponent passed so far on this diagonal,
      or -1. A second piece, or a piece of the queen's own side, ends it. */
  function QueenWalk(b: Matrix, x: int, y: int, di: int, dj: int, i2: int, j2: int, xb: int, yb: int): seq<Move>
    requires ValidBoard(b) && InBounds(x, y)
    requires (di == 1 || di == -1) && (dj == 1 || dj == -1)
    requires -1 <= i2 <= 8 && -1 <= j2 <= 8
    decreases if di > 0 then 8 - i2 else i2 + 1
  {
    if i2 == 8 || j2 == 8 || i2 == -1 || j2 == -1 then []
    else if b[i2][j2] != 0 && (b[i2][j2] % 2 == b[x][y] % 2 || (b[i2][j2] % 2 != b[x][y] % 2 && xb != -1)) then []
    else
      var xb', yb' := if b[i2][j2] != 0 then i2 else xb, if b[i2][j2] != 0 then j2 else yb;
      (if xb' != -1 && xb' != i2 then [CaptureMove(x, y, i2, j2, xb', yb')] else [])
        + QueenWalk(b, x, y, di, dj, i2 + di, j2 + dj, xb', yb')
  }

  /** The queen's capture walk stops at a piece of its own side and at a
      second opponent. */
  lemma QueenWalkBlocked(b: Matrix, x: int, y: int, di: int, dj: int, i2: int, j2: int, xb: int, yb: int)
    requires ValidBoard(b) && InBounds(x, y) && InBounds(i2, j2)
    requires (di == 1 || di == -1) && (dj == 1 || dj == -1)
    requires b[i2][j2] != 0 && (b[i2][j2] % 2 == b[x][y] % 2 || xb != -1)
    ensures QueenWalk(b, x, y, di, dj, i2, j2, xb, yb) == []
  {
  }

  /** Otherwise the walk records a landing past the captured piece
      (xb', yb') and goes on with the next cell. */
  lemma QueenWalkNext(b: Matrix, x: int, y: int, di: int, dj: int, i2: int, j2: int, xb: int, yb: int,
                      xb': int, yb': int, added: seq<Move>)
    requires ValidBoard(b) && InBounds(x, y) && InBounds(i2, j2)
    requires (di == 1 || di == -1) && (dj == 1 || dj == -1)
    requires !(b[i2][j2] != 0 && (b[i2][j2] % 2 == b[x][y] % 2 || xb != -1))
    requires xb' == (if b[i2][j2] != 0 then i2 else xb) && yb' == (if b[i2][j2] != 0 then j2 else yb)
    requires added == if xb' != -1 && xb' != i2 then [CaptureMove(x, y, i2, j2, xb', yb')] else []
    ensures QueenWalk(b, x, y, di, dj, i2, j2, xb, yb) == added + QueenWalk(b, x, y, di, dj, i2 + di, j2 + dj, xb', yb')
  {
  }

  /** The rest of the inner direction loop (dj = -1, 1) of the queen captures. */
  function QueenRow(b: Matrix, x: int, y: int, di: int, dj: int): seq<Move>
    requires ValidBoard(b) && InBounds(x, y) && (di == 1 || di == -1) && (dj == -1 || dj == 1 || dj == 3)
    decreases 3 - dj
  {
    if dj > 1 then [] else QueenWalk(b, x, y, di, dj, x + di, y + dj, -1, -1) + QueenRow(b, x, y, di, dj + 2)
  }

  /** The rest of the outer direction loop (di = -1, 1) of the queen captures. */
  function QueenDirs(b: Matrix, x: int, y: int, di: int): seq<Move>
    requires ValidBoard(b) && InBounds(x, y) && (di == -1 || di == 1 || di == 3)
    decreases 3 - di
  {
    if di > 1 then [] else QueenRow(b, x, y, di, -1) + QueenDirs(b, x, y, di + 2)
  }

  function QueenCaptures(b: Matrix, x: int, y: int): seq<Move>
    requires ValidBoard(b) && InBounds(x, y)
  {
    QueenDirs(b, x, y, -1)
  }

  /** The rest of the man-step loop over the columns y - 1, y + 1 of row i. */
  function ManSteps(b: Matrix, x: int, y: int, i: int, j: int): seq<Move>
    requires ValidBoard(b) && j <= y + 3
    decreases y + 3 - j
  {
    if j > y + 1 then []
    else (if i < 0 || i > 7 || j < 0 || j > 7 || b[i][j] != 0 then [] else [PlainMove(x, y, i, j)])
           + ManSteps(b, x, y, i, j + 2)
  }

  /** The rest of a queen's slide along (di, dj) from (i2, j2): every empty
      cell up to the first occupied one or the edge. */
  function SlideWalk(b: Matrix, x: int, y: int, di: int, dj: int, i2: int, j2: int): seq<Move>
    requires ValidBoard(b) && (di == 1 || di == -1) && (dj == 1 || dj == -1)
    requires -1 <= i2 <= 8 && -1 <= j2 <= 8
    decreases if di > 0 then 8 - i2 else i2 + 1
  {
    if i2 == 8 || j2 == 8 || i2 == -1 || j2 == -1 then []
    else if b[i2][j2] != 0 then []
    else [PlainMove(x, y, i2, j2)] + SlideWalk(b, x, y, di, dj, i2 + di, j2 + dj)
  }

  function SlideRow(b: Matrix, x: int, y: int, di: int, dj: int): seq<Move>
    requires ValidBoard(b) && InBounds(x, y) && (di == 1 || di == -1) && (dj == -1 || dj == 1 || dj == 3)
    decreases 3 - dj
  {
    if dj > 1 then [] else SlideWalk(b, x, y, di, dj, x + di, y + dj) + SlideRow(b, x, y, di, dj + 2)
  }

  function SlideDirs(b: Matrix, x: int, y: int, di: int): seq<Move>
    requires ValidBoard(b) && InBounds(x, y) && (di == -1 || di == 1 || di == 3)
    decreases 3 - di
  {
    if di > 1 then [] else SlideRow(b, x, y, di, -1) + SlideDirs(b, x, y, di + 2)
  }

  function QueenSlides(b: Matrix, x: int, y: int): seq<Move>
    requires ValidBoard(b) && InBounds(x, y)
  {
    SlideDirs(b, x, y, -1)
  }

  /** The result of a find_turns call: the list `turns` and the flag `have_beats`. */
  datatype Turns = Turns(moves: seq<Move>, haveBeats: bool)

  /** The per-piece find_turns: the captures of the piece on (x, y) if it has
      any (codes 1 and 2 capture as men, every other code as a queen),
      otherwise its plain moves. */
  function PieceTurns(b: Matrix, x: int, y: int): Turns
    requires ValidBoard(b) && InBounds(x, y)
  {
    var t := b[x][y];
    var caps := if IsMan(t) then ManCaptures(b, x, y) else QueenCaptures(b, x, y);
    if caps != [] then Turns(caps, true)
    else if IsMan(t) then Turns(ManSteps(b, x, y, Forward(t, x), y - 1), false)
    else Turns(QueenSlides(b, x, y), false)
  }
}
