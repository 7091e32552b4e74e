/** What the per-piece generators of module Rules produce, stated without
    their loops: the geometry of a man's jump and step, and of a queen's
    long-range capture and slide. Each generator is proved to produce exactly
    the moves of its shape, in both directions. */
module MoveShapes {
  import opened Moves
  import opened Matrices
  import opened Rules

  /** Distance and direction between two coordinates of a diagonal, and the
      coordinate s steps from a in direction d. */
  function Dist(a: int, c: int): nat {
    if c >= a then c - a else a - c
  }

  function Dir(a: int, c: int): int {
    if c > a then 1 else -1
  }

  function Step(a: int, d: int, s: int): int {
    if d > 0 then a + s else a - s
  }

  /** The cell s steps from (x, y) along (di, dj), or -1 off the board. */
  function RayCell(b: Matrix, x: int, y: int, di: int, dj: int, s: int): int
    requires ValidBoard(b)
  {
    var i, j := Step(x, di, s), Step(y, dj, s);
    if InBounds(i, j) then b[i][j] else -1
  }

  /** A man's capture: a jump of two rows and two columns, in any of the four
      diagonal directions, onto an empty cell, over an opponent piece. */
  predicate ManJumpShape(b: Matrix, x: int, y: int, m: Move)
    requires ValidBoard(b) && InBounds(x, y)
  {
    && m.x == x && m.y == y
    && (m.x2 == x - 2 || m.x2 == x + 2) && (m.y2 == y - 2 || m.y2 == y + 2)
    && InBounds(m.x2, m.y2)
    && m.xb == (x + m.x2) / 2 && m.yb == (y + m.y2) / 2
    && b[m.x2][m.y2] == 0
    && b[m.xb][m.yb] != 0 && b[m.xb][m.yb] % 2 != b[x][y] % 2
  }

  /** A man's plain move: one row forward for its side, one column sideways,
      onto an empty cell. */
  predicate ManStepShape(b: Matrix, x: int, y: int, m: Move)
    requires ValidBoard(b) && InBounds(x, y)
  {
    && m.x == x && m.y == y && m.xb == NONE && m.yb == NONE
    && m.x2 == Forward(b[x][y], x) && (m.y2 == y - 1 || m.y2 == y + 1)
    && InBounds(m.x2, m.y2) && b[m.x2][m.y2] == 0
  }

  /** Every cell 1 .. n - 1 steps out from (x, y) along (di, dj), except
      the one `skip` steps out, is on the board and empty. */
  predicate RayClear(b: Matrix, x: int, y: int, di: int, dj: int, n: int, skip: int)
    requires ValidBoard(b)
    decreases n
  {
    n <= 1 || (RayClear(b, x, y, di, dj, n - 1, skip) && (n - 1 == skip || RayCell(b, x, y, di, dj, n - 1) == 0))
  }

  /** A queen's capture: along one diagonal, passing exactly one opponent piece
      (the captured cell), every other cell up to and including the landing
      cell empty. */
  predicate QueenCaptureShape(b: Matrix, x: int, y: int, m: Move)
    requires ValidBoard(b) && InBounds(x, y)
  {
    && m.x == x && m.y == y
    && InBounds(m.x2, m.y2) && InBounds(m.xb, m.yb)
    && m.x2 != x && Dist(x, m.x2) == Dist(y, m.y2)
    && 1 <= Dist(x, m.xb) < Dist(x, m.x2)
    && m.xb == Step(x, Dir(x, m.x2), Dist(x, m.xb))
    && m.yb == Step(y, Dir(y, m.y2), Dist(x, m.xb))
    && b[m.x2][m.y2] == 0
    && b[m.xb][m.yb] != 0 && b[m.xb][m.yb] % 2 != b[x][y] % 2
    && RayClear(b, x, y, Dir(x, m.x2), Dir(y, m.y2), Dist(x, m.x2), Dist(x, m.xb))
  }

  /** A queen's plain move: along one diagonal through empty cells only. */
  predicate QueenSlideShape(b: Matrix, x: int, y: int, m: Move)
    requires ValidBoard(b) && InBounds(x, y)
  {
    && m.x == x && m.y == y && m.xb == NONE && m.yb == NONE
    && InBounds(m.x2, m.y2)
    && m.x2 != x && Dist(x, m.x2) == Dist(y, m.y2)
    && RayClear(b, x, y, Dir(x, m.x2), Dir(y, m.y2), Dist(x, m.x2) + 1, 0)
  }

  /** The capture shape and the plain-move shape of the piece on (x, y):
      codes 1 and 2 move as men, every other code as a queen. */
  predicate CaptureShape(b: Matrix, x: int, y: int, m: Move)
    requires ValidBoard(b) && InBounds(x, y)
  {
    if IsMan(b[x][y]) then ManJumpShape(b, x, y, m) else QueenCaptureShape(b, x, y, m)
  }

  predicate StepShape(b: Matrix, x: int, y: int, m: Move)
    requires ValidBoard(b) && InBounds(x, y)
  {
    if IsMan(b[x][y]) then ManStepShape(b, x, y, m) else QueenSlideShape(b, x, y, m)
  }

  // ---------------------------------------------------------------------
  // Men
  // ---------------------------------------------------------------------

  lemma ManCapturesUnfold(b: Matrix, x: int, y: int)
    requires ValidBoard(b) && InBounds(x, y)
    ensures ManCaptures(b, x, y)
         == ManJump(b, x, y, x - 2, y - 2) + ManJump(b, x, y, x - 2, y + 2)
          + ManJump(b, x, y, x + 2, y - 2) + ManJump(b, x, y, x + 2, y + 2)
  {
    assert ManJumpRow(b, x, y, x - 2, y + 2) == ManJump(b, x, y, x - 2, y + 2) + ManJumpRow(b, x, y, x - 2, y + 6);
    assert ManJumpRow(b, x, y, x + 2, y + 2) == ManJump(b, x, y, x + 2, y + 2) + ManJumpRow(b, x, y, x + 2, y + 6);
    assert ManJumps(b, x, y, x + 2) == ManJumpRow(b, x, y, x + 2, y - 2) + ManJumps(b, x, y, x + 6);
  }

  /** One jump of the loop yields exactly the jump of ManJumpShape that lands
      on (i, j). */
  lemma ManJumpExactly(b: Matrix, x: int, y: int, i: int, j: int)
    requires ValidBoard(b) && InBounds(x, y)
    requires (i == x - 2 || i == x + 2) && (j == y - 2 || j == y + 2)
    ensures forall m :: m in ManJump(b, x, y, i, j) <==> ManJumpShape(b, x, y, m) && m.x2 == i && m.y2 == j
  {
  }

  /** The man-capture loop yields exactly the jumps of ManJumpShape. */
  lemma ManCapturesExactly(b: Matrix, x: int, y: int)
    requires ValidBoard(b) && InBounds(x, y)
    ensures forall m :: m in ManCaptures(b, x, y) <==> ManJumpShape(b, x, y, m)
  {
    ManCapturesUnfold(b, x, y);
    ManJumpExactly(b, x, y, x - 2, y - 2);
    ManJumpExactly(b, x, y, x - 2, y + 2);
    ManJumpExactly(b, x, y, x + 2, y - 2);
    ManJumpExactly(b, x, y, x + 2, y + 2);
  }

  /** The man-step loop yields exactly the steps of ManStepShape. */
  lemma ManStepsExactly(b: Matrix, x: int, y: int)
    requires ValidBoard(b) && InBounds(x, y)
    ensures forall m :: m in ManSteps(b, x, y, Forward(b[x][y], x), y - 1) <==> ManStepShape(b, x, y, m)
  {
    var i := Forward(b[x][y], x);
    assert ManSteps(b, x, y, i, y + 1)
        == (if i < 0 || i > 7 || y + 1 > 7 || b[i][y + 1] != 0 then [] else [PlainMove(x, y, i, y + 1)])
           + ManSteps(b, x, y, i, y + 3);
  }

  // ---------------------------------------------------------------------
  // Queens
  // ---------------------------------------------------------------------

  lemma QueenCapturesUnfold(b: Matrix, x: int, y: int)
    requires ValidBoard(b) && InBounds(x, y)
    ensures QueenCaptures(b, x, y)
         == QueenWalk(b, x, y, -1, -1, x - 1, y - 1, -1, -1) + QueenWalk(b, x, y, -1, 1, x - 1, y + 1, -1, -1)
          + QueenWalk(b, x, y, 1, -1, x + 1, y - 1, -1, -1) + QueenWalk(b, x, y, 1, 1, x + 1, y + 1, -1, -1)
  {
    assert QueenRow(b, x, y, -1, 1) == QueenWalk(b, x, y, -1, 1, x - 1, y + 1, -1, -1) + QueenRow(b, x, y, -1, 3);
    assert QueenRow(b, x, y, 1, 1) == QueenWalk(b, x, y, 1, 1, x + 1, y + 1, -1, -1) + QueenRow(b, x, y, 1, 3);
    assert QueenDirs(b, x, y, 1) == QueenRow(b, x, y, 1, -1) + QueenDirs(b, x, y, 3);
  }

  lemma QueenSlidesUnfold(b: Matrix, x: int, y: int)
    requires ValidBoard(b) && InBounds(x, y)
    ensures QueenSlides(b, x, y)
         == SlideWalk(b, x, y, -1, -1, x - 1, y - 1) + SlideWalk(b, x, y, -1, 1, x - 1, y + 1)
          + SlideWalk(b, x, y, 1, -1, x + 1, y - 1) + SlideWalk(b, x, y, 1, 1, x + 1, y + 1)
  {
    assert SlideRow(b, x, y, -1, 1) == SlideWalk(b, x, y, -1, 1, x - 1, y + 1) + SlideRow(b, x, y, -1, 3);
    assert SlideRow(b, x, y, 1, 1) == SlideWalk(b, x, y, 1, 1, x + 1, y + 1) + SlideRow(b, x, y, 1, 3);
    assert SlideDirs(b, x, y, 1) == SlideRow(b, x, y, 1, -1) + SlideDirs(b, x, y, 3);
  }

  /** A clear ray has an empty cell at every step short of its end other
      than the skipped one. */
  lemma {:induction false} RayClearAt(b: Matrix, x: int, y: int, di: int, dj: int, n: int, skip: int, t: int)
    requires ValidBoard(b) && RayClear(b, x, y, di, dj, n, skip)
    requires 1 <= t < n && t != skip
    ensures RayCell(b, x, y, di, dj, t) == 0
    decreases n
  {
    if t < n - 1 {
      RayClearAt(b, x, y, di, dj, n - 1, skip, t);
    }
  }

  /** Which step is skipped does not matter when it lies outside the ray. */
  lemma {:induction false} RayClearSkip(b: Matrix, x: int, y: int, di: int, dj: int, n: int, skip: int, skip': int)
    requires ValidBoard(b) && RayClear(b, x, y, di, dj, n, skip)
    requires (skip < 1 || skip >= n) && (skip' < 1 || skip' >= n)
    ensures RayClear(b, x, y, di, dj, n, skip')
    decreases n
  {
    if n > 1 {
      RayClearSkip(b, x, y, di, dj, n - 1, skip, skip');
    }
  }

  /** The state of a queen's capture scan after the cells 1 .. s - 1 steps
      out: (xb, yb) is the one opponent passed, or xb = -1 when none was;
      every other cell passed is empty. */
  predicate Scanned(b: Matrix, x: int, y: int, di: int, dj: int, s: int, xb: int, yb: int)
    requires ValidBoard(b) && InBounds(x, y)
    decreases s
  {
    if s <= 1 then xb == -1
    else
      var c := RayCell(b, x, y, di, dj, s - 1);
      if c == 0 then Scanned(b, x, y, di, dj, s - 1, xb, yb)
      else
        && c > 0 && c % 2 != b[x][y] % 2
        && xb == Step(x, di, s - 1) && yb == Step(y, dj, s - 1)
        && Scanned(b, x, y, di, dj, s - 1, -1, -1)
  }

  /** With no opponent passed, the scan state does not depend on yb. */
  lemma {:induction false} ScannedNone(b: Matrix, x: int, y: int, di: int, dj: int, s: int, yb: int, yb': int)
    requires ValidBoard(b) && InBounds(x, y) && Scanned(b, x, y, di, dj, s, -1, yb)
    ensures Scanned(b, x, y, di, dj, s, -1, yb')
    decreases s
  {
    if s > 1 && RayCell(b, x, y, di, dj, s - 1) == 0 {
      ScannedNone(b, x, y, di, dj, s - 1, yb, yb');
    }
  }

  /** What a scan state says about the cells passed: all empty when no
      opponent was passed; otherwise the opponent lies on the diagonal
      behind the scan and every other cell passed is empty. */
  lemma {:induction false} ScannedCells(b: Matrix, x: int, y: int, di: int, dj: int, s: int, xb: int, yb: int)
    requires ValidBoard(b) && InBounds(x, y) && (di == 1 || di == -1) && (dj == 1 || dj == -1)
    requires 1 <= s && Scanned(b, x, y, di, dj, s, xb, yb)
    ensures xb == -1 ==> RayClear(b, x, y, di, dj, s, 0)
    ensures xb != -1 ==>
              && 1 <= Dist(x, xb) < s
              && xb == Step(x, di, Dist(x, xb)) && yb == Step(y, dj, Dist(x, xb))
              && InBounds(xb, yb) && b[xb][yb] != 0 && b[xb][yb] % 2 != b[x][y] % 2
              && RayClear(b, x, y, di, dj, s, Dist(x, xb))
    decreases s
  {
    if s > 1 {
      var c := RayCell(b, x, y, di, dj, s - 1);
      if c == 0 {
        ScannedCells(b, x, y, di, dj, s - 1, xb, yb);
      } else {
        ScannedCells(b, x, y, di, dj, s - 1, -1, -1);
        StepFacts(x, y, di, dj, s - 1);
        RayClearSkip(b, x, y, di, dj, s - 1, 0, s - 1);
      }
    }
  }

  /** The cell s steps out along a diagonal lies s rows and s columns away. */
  lemma StepFacts(x: int, y: int, di: int, dj: int, s: nat)
    requires (di == 1 || di == -1) && (dj == 1 || dj == -1) && 1 <= s
    ensures Dist(x, Step(x, di, s)) == s && Dir(x, Step(x, di, s)) == di
    ensures Dist(y, Step(y, dj, s)) == s && Dir(y, Step(y, dj, s)) == dj
    ensures Step(x, di, s + 1) == Step(x, di, s) + di && Step(y, dj, s + 1) == Step(y, dj, s) + dj
  {
  }

  /** Moving one cell on, to (i2, j2), past an empty cell or the first
      opponent, advances the scan state; (xb', yb') is the opponent passed
      afterwards. */
  lemma ScanAdvance(b: Matrix, x: int, y: int, di: int, dj: int, s: int, i2: int, j2: int, xb: int, yb: int)
    returns (xb': int, yb': int)
    requires ValidBoard(b) && InBounds(x, y) && (di == 1 || di == -1) && (dj == 1 || dj == -1)
    requires 1 <= s && i2 == Step(x, di, s) && j2 == Step(y, dj, s) && InBounds(i2, j2)
    requires Scanned(b, x, y, di, dj, s, xb, yb)
    requires b[i2][j2] == 0 || (b[i2][j2] % 2 != b[x][y] % 2 && xb == -1)
    ensures xb' == (if b[i2][j2] != 0 then i2 else xb) && yb' == (if b[i2][j2] != 0 then j2 else yb)
    ensures Scanned(b, x, y, di, dj, s + 1, xb', yb')
  {
    assert RayCell(b, x, y, di, dj, s) == b[i2][j2];
    if b[i2][j2] != 0 {
      ScannedNone(b, x, y, di, dj, s, yb, -1);
    }
    xb', yb' := if b[i2][j2] != 0 then i2 else xb, if b[i2][j2] != 0 then j2 else yb;
  }

  /** An empty cell (i2, j2) reached after passing one opponent completes a
      capture. */
  lemma ScanHead(b: Matrix, x: int, y: int, di: int, dj: int, s: int, i2: int, j2: int, xb: int, yb: int, m: Move)
    requires ValidBoard(b) && InBounds(x, y) && (di == 1 || di == -1) && (dj == 1 || dj == -1)
    requires 1 <= s && i2 == Step(x, di, s) && j2 == Step(y, dj, s) && InBounds(i2, j2)
    requires Scanned(b, x, y, di, dj, s, xb, yb) && xb != -1
    requires b[i2][j2] == 0 && m == CaptureMove(x, y, i2, j2, xb, yb)
    ensures QueenCaptureShape(b, x, y, m)
  {
    ScannedCells(b, x, y, di, dj, s, xb, yb);
    StepFacts(x, y, di, dj, s);
  }

  /** Membership in QueenWalk as a plain condition: the capture ending on
      the current cell, or one further along the diagonal. */
  predicate WalkHas(b: Matrix, x: int, y: int, di: int, dj: int, i2: int, j2: int, xb: int, yb: int, m: Move)
    requires ValidBoard(b) && InBounds(x, y)
    requires (di == 1 || di == -1) && (dj == 1 || dj == -1)
    requires -1 <= i2 <= 8 && -1 <= j2 <= 8
    decreases if di > 0 then 8 - i2 else i2 + 1
  {
    if i2 == 8 || j2 == 8 || i2 == -1 || j2 == -1 then false
    else if b[i2][j2] != 0 && (b[i2][j2] % 2 == b[x][y] % 2 || (b[i2][j2] % 2 != b[x][y] % 2 && xb != -1)) then false
    else
      var xb', yb' := if b[i2][j2] != 0 then i2 else xb, if b[i2][j2] != 0 then j2 else yb;
      || (xb' != -1 && xb' != i2 && m == CaptureMove(x, y, i2, j2, xb', yb'))
      || WalkHas(b, x, y, di, dj, i2 + di, j2 + dj, xb', yb', m)
  }

  /** One step of QueenWalk and of WalkHas from an open cell (i2, j2). */
  lemma WalkStep(b: Matrix, x: int, y: int, di: int, dj: int, i2: int, j2: int, xb: int, yb: int, m: Move)
    returns (xb': int, yb': int)
    requires ValidBoard(b) && InBounds(x, y) && (di == 1 || di == -1) && (dj == 1 || dj == -1)
    requires InBounds(i2, j2)
    requires !(b[i2][j2] != 0 && (b[i2][j2] % 2 == b[x][y] % 2 || (b[i2][j2] % 2 != b[x][y] % 2 && xb != -1)))
    ensures xb' == (if b[i2][j2] != 0 then i2 else xb) && yb' == (if b[i2][j2] != 0 then j2 else yb)
    ensures QueenWalk(b, x, y, di, dj, i2, j2, xb, yb)
         == (if xb' != -1 && xb' != i2 then [CaptureMove(x, y, i2, j2, xb', yb')] else [])
            + QueenWalk(b, x, y, di, dj, i2 + di, j2 + dj, xb', yb')
    ensures WalkHas(b, x, y, di, dj, i2, j2, xb, yb, m)
         == ((xb' != -1 && xb' != i2 && m == CaptureMove(x, y, i2, j2, xb', yb'))
             || WalkHas(b, x, y, di, dj, i2 + di, j2 + dj, xb', yb', m))
  {
    xb', yb' := if b[i2][j2] != 0 then i2 else xb, if b[i2][j2] != 0 then j2 else yb;
    QueenWalkNext(b, x, y, di, dj, i2, j2, xb, yb, xb', yb',
                  if xb' != -1 && xb' != i2 then [CaptureMove(x, y, i2, j2, xb', yb')] else []);
  }

  lemma {:induction false} WalkHasIff(b: Matrix, x: int, y: int, di: int, dj: int, i2: int, j2: int, xb: int, yb: int, m: Move)
    requires ValidBoard(b) && InBounds(x, y)
    requires (di == 1 || di == -1) && (dj == 1 || dj == -1)
    requires -1 <= i2 <= 8 && -1 <= j2 <= 8
    ensures m in QueenWalk(b, x, y, di, dj, i2, j2, xb, yb) <==> WalkHas(b, x, y, di, dj, i2, j2, xb, yb, m)
    decreases if di > 0 then 8 - i2 else i2 + 1
  {
    if i2 == 8 || j2 == 8 || i2 == -1 || j2 == -1 {
    } else if b[i2][j2] != 0 && (b[i2][j2] % 2 == b[x][y] % 2 || (b[i2][j2] % 2 != b[x][y] % 2 && xb != -1)) {
    } else {
      var xb', yb' := WalkStep(b, x, y, di, dj, i2, j2, xb, yb, m);
      var head := if xb' != -1 && xb' != i2 then [CaptureMove(x, y, i2, j2, xb', yb')] else [];
      var rest := QueenWalk(b, x, y, di, dj, i2 + di, j2 + dj, xb', yb');
      WalkHasIff(b, x, y, di, dj, i2 + di, j2 + dj, xb', yb', m);
      assert m in head + rest <==> m in head || m in rest;
    }
  }

  /** Every capture QueenWalk yields from a scan state s steps out, at
      (i2, j2), has the capture shape. */
  lemma {:induction false} QueenWalkSound(b: Matrix, x: int, y: int, di: int, dj: int, s: int,
                                          i2: int, j2: int, xb: int, yb: int, m: Move)
    requires ValidBoard(b) && InBounds(x, y) && (di == 1 || di == -1) && (dj == 1 || dj == -1)
    requires 1 <= s && i2 == Step(x, di, s) && j2 == Step(y, dj, s) && -1 <= i2 <= 8 && -1 <= j2 <= 8
    requires Scanned(b, x, y, di, dj, s, xb, yb)
    requires WalkHas(b, x, y, di, dj, i2, j2, xb, yb, m)
    ensures QueenCaptureShape(b, x, y, m)
    decreases 10 - s
  {
    if b[i2][j2] == 0 && xb != -1 && xb != i2 && m == CaptureMove(x, y, i2, j2, xb, yb) {
      ScanHead(b, x, y, di, dj, s, i2, j2, xb, yb, m);
    } else {
      var xb', yb' := ScanAdvance(b, x, y, di, dj, s, i2, j2, xb, yb);
      StepFacts(x, y, di, dj, s);
      QueenWalkSound(b, x, y, di, dj, s + 1, i2 + di, j2 + dj, xb', yb', m);
    }
  }

  /** QueenWalk reaches the capture along (di, dj) that passes the opponent
      kb steps out and lands k steps out, from every step s of the way, at
      (i2, j2), with the scan state it has there. */
  lemma {:induction false} WalkReaches(b: Matrix, x: int, y: int, di: int, dj: int, k: int, kb: int,
                                       s: int, i2: int, j2: int, xb: int, yb: int)
    requires ValidBoard(b) && InBounds(x, y) && (di == 1 || di == -1) && (dj == 1 || dj == -1)
    requires 1 <= kb < k && 1 <= s <= k && i2 == Step(x, di, s) && j2 == Step(y, dj, s)
    requires RayCell(b, x, y, di, dj, k) == 0
    requires RayCell(b, x, y, di, dj, kb) > 0 && RayCell(b, x, y, di, dj, kb) % 2 != b[x][y] % 2
    requires RayClear(b, x, y, di, dj, k, kb)
    requires s <= kb ==> xb == -1
    requires s > kb ==> xb == Step(x, di, kb) && yb == Step(y, dj, kb)
    ensures -1 <= i2 <= 8 && -1 <= j2 <= 8
    ensures WalkHas(b, x, y, di, dj, i2, j2, xb, yb,
                    CaptureMove(x, y, Step(x, di, k), Step(y, dj, k), Step(x, di, kb), Step(y, dj, kb)))
    decreases k - s
  {
    StepFacts(x, y, di, dj, s);
    if s != kb && s < k {
      RayClearAt(b, x, y, di, dj, k, kb, s);
    }
    assert InBounds(i2, j2) && RayCell(b, x, y, di, dj, s) == b[i2][j2];
    if s < k {
      var xb', yb' := if b[i2][j2] != 0 then i2 else xb, if b[i2][j2] != 0 then j2 else yb;
      WalkReaches(b, x, y, di, dj, k, kb, s + 1, i2 + di, j2 + dj, xb', yb');
    } else {
      StepFacts(x, y, di, dj, kb);
    }
  }

  /** Every capture of the capture shape is reached by QueenWalk from the
      first cell of its diagonal. */
  lemma QueenWalkComplete(b: Matrix, x: int, y: int, m: Move)
    requires ValidBoard(b) && InBounds(x, y) && QueenCaptureShape(b, x, y, m)
    ensures m in QueenWalk(b, x, y, Dir(x, m.x2), Dir(y, m.y2), x + Dir(x, m.x2), y + Dir(y, m.y2), -1, -1)
  {
    var di, dj, k, kb := Dir(x, m.x2), Dir(y, m.y2), Dist(x, m.x2), Dist(x, m.xb);
    assert Step(x, di, k) == m.x2 && Step(y, dj, k) == m.y2;
    assert RayCell(b, x, y, di, dj, k) == 0;
    assert RayCell(b, x, y, di, dj, kb) == b[m.xb][m.yb];
    WalkReaches(b, x, y, di, dj, k, kb, 1, x + di, y + dj, -1, -1);
    WalkHasIff(b, x, y, di, dj, x + di, y + dj, -1, -1, m);
  }

  /** A capture the queen-capture loops yield has the capture shape. */
  lemma QueenCaptureSound(b: Matrix, x: int, y: int, m: Move)
    requires ValidBoard(b) && InBounds(x, y) && m in QueenCaptures(b, x, y)
    ensures QueenCaptureShape(b, x, y, m)
  {
    QueenCapturesUnfold(b, x, y);
    var di := if m in QueenWalk(b, x, y, -1, -1, x - 1, y - 1, -1, -1) || m in QueenWalk(b, x, y, -1, 1, x - 1, y + 1, -1, -1)
              then -1 else 1;
    var dj := if m in QueenWalk(b, x, y, di, -1, x + di, y - 1, -1, -1) then -1 else 1;
    QueenDirSound(b, x, y, di, dj, m);
  }

  /** A capture found along one diagonal has the queen-capture shape. */
  lemma QueenDirSound(b: Matrix, x: int, y: int, di: int, dj: int, m: Move)
    requires ValidBoard(b) && InBounds(x, y) && (di == 1 || di == -1) && (dj == 1 || dj == -1)
    requires m in QueenWalk(b, x, y, di, dj, x + di, y + dj, -1, -1)
    ensures QueenCaptureShape(b, x, y, m)
  {
    WalkHasIff(b, x, y, di, dj, x + di, y + dj, -1, -1, m);
    QueenWalkSound(b, x, y, di, dj, 1, x + di, y + dj, -1, -1, m);
  }

  /** A move of the capture shape is yielded by the queen-capture loops. */
  lemma QueenCaptureComplete(b: Matrix, x: int, y: int, m: Move)
    requires ValidBoard(b) && InBounds(x, y) && QueenCaptureShape(b, x, y, m)
    ensures m in QueenCaptures(b, x, y)
  {
    QueenCapturesUnfold(b, x, y);
    QueenWalkComplete(b, x, y, m);
  }

  /** The queen-capture loops yield exactly the captures of QueenCaptureShape. */
  lemma QueenCapturesExactly(b: Matrix, x: int, y: int)
    requires ValidBoard(b) && InBounds(x, y)
    ensures forall m :: m in QueenCaptures(b, x, y) <==> QueenCaptureShape(b, x, y, m)
  {
    forall m | m in QueenCaptures(b, x, y) ensures QueenCaptureShape(b, x, y, m) {
      QueenCaptureSound(b, x, y, m);
    }
    forall m | QueenCaptureShape(b, x, y, m) ensures m in QueenCaptures(b, x, y) {
      QueenCaptureComplete(b, x, y, m);
    }
  }

  /** Every slide SlideWalk yields from a clear stretch has the slide shape. */
  lemma {:induction false} SlideWalkSound(b: Matrix, x: int, y: int, di: int, dj: int, s: int, m: Move)
    requires ValidBoard(b) && InBounds(x, y) && (di == 1 || di == -1) && (dj == 1 || dj == -1)
    requires 1 <= s && -1 <= Step(x, di, s) <= 8 && -1 <= Step(y, dj, s) <= 8
    requires RayClear(b, x, y, di, dj, s, 0)
    requires m in SlideWalk(b, x, y, di, dj, Step(x, di, s), Step(y, dj, s))
    ensures QueenSlideShape(b, x, y, m)
    decreases 10 - s
  {
    var i2, j2 := Step(x, di, s), Step(y, dj, s);
    StepFacts(x, y, di, dj, s);
    assert RayCell(b, x, y, di, dj, s) == b[i2][j2];
    if m == PlainMove(x, y, i2, j2) {
    } else {
      SlideWalkSound(b, x, y, di, dj, s + 1, m);
    }
  }

  /** The slide along (di, dj) to the cell k steps out, over a clear
      stretch, is reached by SlideWalk from every step s of the way, at
      (i2, j2). */
  lemma {:induction false} SlideWalkReaches(b: Matrix, x: int, y: int, di: int, dj: int, k: int,
                                            s: int, i2: int, j2: int)
    requires ValidBoard(b) && InBounds(x, y) && (di == 1 || di == -1) && (dj == 1 || dj == -1)
    requires 1 <= s <= k && i2 == Step(x, di, s) && j2 == Step(y, dj, s)
    requires InBounds(Step(x, di, k), Step(y, dj, k)) && RayClear(b, x, y, di, dj, k + 1, 0)
    ensures -1 <= i2 <= 8 && -1 <= j2 <= 8
    ensures PlainMove(x, y, Step(x, di, k), Step(y, dj, k)) in SlideWalk(b, x, y, di, dj, i2, j2)
    decreases k - s
  {
    StepFacts(x, y, di, dj, s);
    RayClearAt(b, x, y, di, dj, k + 1, 0, s);
    assert InBounds(i2, j2) && RayCell(b, x, y, di, dj, s) == b[i2][j2];
    if s < k {
      SlideWalkReaches(b, x, y, di, dj, k, s + 1, i2 + di, j2 + dj);
    }
  }

  /** A slide the queen-slide loops yield has the slide shape. */
  lemma QueenSlideSound(b: Matrix, x: int, y: int, m: Move)
    requires ValidBoard(b) && InBounds(x, y) && m in QueenSlides(b, x, y)
    ensures QueenSlideShape(b, x, y, m)
  {
    QueenSlidesUnfold(b, x, y);
    if m in SlideWalk(b, x, y, -1, -1, x - 1, y - 1) {
      SlideWalkSound(b, x, y, -1, -1, 1, m);
    } else if m in SlideWalk(b, x, y, -1, 1, x - 1, y + 1) {
      SlideWalkSound(b, x, y, -1, 1, 1, m);
    } else if m in SlideWalk(b, x, y, 1, -1, x + 1, y - 1) {
      SlideWalkSound(b, x, y, 1, -1, 1, m);
    } else {
      SlideWalkSound(b, x, y, 1, 1, 1, m);
    }
  }

  /** A move of the slide shape is yielded by the queen-slide loops. */
  lemma SlideWalkComplete(b: Matrix, x: int, y: int, m: Move)
    requires ValidBoard(b) && InBounds(x, y) && QueenSlideShape(b, x, y, m)
    ensures m in SlideWalk(b, x, y, Dir(x, m.x2), Dir(y, m.y2), x + Dir(x, m.x2), y + Dir(y, m.y2))
  {
    var di, dj, k := Dir(x, m.x2), Dir(y, m.y2), Dist(x, m.x2);
    assert Step(x, di, k) == m.x2 && Step(y, dj, k) == m.y2;
    SlideWalkReaches(b, x, y, di, dj, k, 1, x + di, y + dj);
  }

  lemma QueenSlideComplete(b: Matrix, x: int, y: int, m: Move)
    requires ValidBoard(b) && InBounds(x, y) && QueenSlideShape(b, x, y, m)
    ensures m in QueenSlides(b, x, y)
  {
    QueenSlidesUnfold(b, x, y);
    SlideWalkComplete(b, x, y, m);
  }

  /** The queen-slide loops yield exactly the slides of QueenSlideShape: every
      empty cell of each diagonal up to the first occupied one. */
  lemma QueenSlidesExactly(b: Matrix, x: int, y: int)
    requires ValidBoard(b) && InBounds(x, y)
    ensures forall m :: m in QueenSlides(b, x, y) <==> QueenSlideShape(b, x, y, m)
  {
    forall m | m in QueenSlides(b, x, y) ensures QueenSlideShape(b, x, y, m) {
      QueenSlideSound(b, x, y, m);
    }
    forall m | QueenSlideShape(b, x, y, m) ensures m in QueenSlides(b, x, y) {
      QueenSlideComplete(b, x, y, m);
    }
  }

  // ---------------------------------------------------------------------
  // The per-piece find_turns
  // ---------------------------------------------------------------------

  /** The per-piece find_turns yields the piece's captures when it has any,
      and then sets have_beats; otherwise, with have_beats false, no capture
      of any shape exists and the list is exactly the piece's plain moves. */
  lemma PieceTurnsExactly(b: Matrix, x: int, y: int)
    requires ValidBoard(b) && InBounds(x, y)
    ensures PieceTurns(b, x, y).haveBeats ==> PieceTurns(b, x, y).moves != []
    ensures PieceTurns(b, x, y).haveBeats ==>
              forall m :: m in PieceTurns(b, x, y).moves <==> CaptureShape(b, x, y, m)
    ensures !PieceTurns(b, x, y).haveBeats ==>
              (forall m :: !CaptureShape(b, x, y, m))
              && forall m :: m in PieceTurns(b, x, y).moves <==> StepShape(b, x, y, m)
  {
    ManCapturesExactly(b, x, y);
    ManStepsExactly(b, x, y);
    QueenCapturesExactly(b, x, y);
    QueenSlidesExactly(b, x, y);
  }

  /** Every move the per-piece find_turns yields starts on (x, y), whatever
      the cell holds. */
  lemma PieceTurnsStart(b: Matrix, x: int, y: int)
    requires ValidBoard(b) && InBounds(x, y)
    ensures forall m :: m in PieceTurns(b, x, y).moves ==> m.x == x && m.y == y
  {
    PieceTurnsExactly(b, x, y);
  }

  /** Every move the per-piece find_turns yields starts on (x, y) and is
      legal, and it is a capture exactly when have_beats is set. */
  lemma PieceTurnsLegal(b: Matrix, x: int, y: int)
    requires ValidBoard(b) && InBounds(x, y) && b[x][y] != 0
    ensures MovesOk(b, PieceTurns(b, x, y).moves, PieceTurns(b, x, y).haveBeats)
    ensures forall m :: m in PieceTurns(b, x, y).moves ==> m.x == x && m.y == y
  {
    var r := PieceTurns(b, x, y);
    forall m | m in r.moves ensures Legal(b, m) && IsCapture(m) == r.haveBeats && m.x == x && m.y == y {
      PieceTurnsExactly(b, x, y);
      ShapesLegal(b, x, y, m);
    }
  }

  /** A move of either shape from an occupied cell is legal; the capture
      shape is a capture and the plain shape is not. */
  lemma ShapesLegal(b: Matrix, x: int, y: int, m: Move)
    requires ValidBoard(b) && InBounds(x, y) && b[x][y] != 0
    ensures CaptureShape(b, x, y, m) ==> Legal(b, m) && IsCapture(m) && m.x == x && m.y == y
    ensures StepShape(b, x, y, m) ==> Legal(b, m) && !IsCapture(m) && m.x == x && m.y == y
  {
    if StepShape(b, x, y, m) && !IsMan(b[x][y]) {
      RayClearAt(b, x, y, Dir(x, m.x2), Dir(y, m.y2), Dist(x, m.x2) + 1, 0, Dist(x, m.x2));
      assert RayCell(b, x, y, Dir(x, m.x2), Dir(y, m.y2), Dist(x, m.x2)) == 0;
      assert Step(x, Dir(x, m.x2), Dist(x, m.x2)) == m.x2;
      assert Step(y, Dir(y, m.y2), Dist(x, m.x2)) == m.y2;
    }
  }
}
