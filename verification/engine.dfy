/** Class Logic: the engine as the source runs it, with the scratch fields
    `turns` / `have_beats` that every find_turns call clears and refills,
    the vectors `next_move` / `next_best_state` that find_first_best_turn
    grows, and the random state the shuffle advances. Each method is proved
    equal to the function of modules Rules, SideRules and Search that
    describes it, so the properties proved there hold of the methods. */
module Engine {
  import opened Moves
  import opened Matrices
  import opened Rules
  import opened MoveShapes
  import opened SideRules
  import Search
  import BestLine
  import opened BoardState

  /** Appending a step's output to the list and dropping that step from
      the rest of the loop keep their concatenation. */
  lemma AppendStep<T>(before: seq<T>, added: seq<T>, now: seq<T>, rest: seq<T>, whole: seq<T>)
    requires now == before + added && whole == added + rest
    ensures before + whole == now + rest
  {
  }

  /** One more cell of calc_score's counters, cell (i, j) being cell number n. */
  lemma CountStep(mode: string, b: Matrix, n: int, i: int, j: int)
    requires ValidBoard(b) && 0 <= n < 64 && InBounds(i, j) && n == 8 * i + j
    ensures Search.MenUpTo(mode, b, false, n + 1) == Search.MenUpTo(mode, b, false, n)
              + (if b[i][j] == 1 then 1.0 else 0.0)
              + (if Search.Potential(mode) && b[i][j] == 1 then 0.05 * (7 - i) as real else 0.0)
    ensures Search.MenUpTo(mode, b, true, n + 1) == Search.MenUpTo(mode, b, true, n)
              + (if b[i][j] == 2 then 1.0 else 0.0)
              + (if Search.Potential(mode) && b[i][j] == 2 then 0.05 * i as real else 0.0)
    ensures Tally(b, 3, n + 1) == Tally(b, 3, n) + (if b[i][j] == 3 then 1 else 0)
    ensures Tally(b, 4, n + 1) == Tally(b, 4, n) + (if b[i][j] == 4 then 1 else 0)
  {
    CellNumber(n, i, j);
    assert CellAt(b, n) == b[i][j];
  }

  class Logic {
    /** The board the engine reads (the source keeps a pointer to it). */
    const board: Board
    /** BotScoringType and Optimization, read once by the constructor. */
    const scoringMode: string
    const optimization: string
    /** Max_depth, set by the owner of the engine. The source's field is a
        signed int compared with an unsigned depth; only non-negative depths
        are modelled. */
    var maxDepth: nat
    /** The state of the random engine used by the shuffle. */
    var rng: nat
    /** The moves and the capture flag found by the last find_turns call. */
    var turns: seq<Move>
    var haveBeats: bool
    /** The best line found by find_first_best_turn: per state, the move
        chosen there and the state it continues in (-1 for none). */
    var nextMove: seq<Move>
    var nextBestState: seq<int>

    function Cfg(): (c: Search.Config)
      reads this`maxDepth
      ensures c.maxDepth == maxDepth && c.scoringMode == scoringMode && c.optimization == optimization
    {
      Search.Config(maxDepth, scoringMode, optimization)
    }

    /** Logic(board, config): the settings and the seed of the random engine
        (the current time, or 0 with NoRandom) come in as parameters. As
        std::minstd_rand0 does, the seed is taken modulo 2^31 - 1, and a
        seed that leaves 0 starts the engine at 1. */
    constructor(board: Board, scoringMode: string, optimization: string, seed: nat)
      ensures this.board == board && this.scoringMode == scoringMode && this.optimization == optimization
      ensures 0 < rng < 2147483647
      ensures rng == (if seed % 2147483647 == 0 then 1 else seed % 2147483647) && maxDepth == 0
      ensures turns == [] && !haveBeats && nextMove == [] && nextBestState == []
    {
      this.board := board;
      this.scoringMode := scoringMode;
      this.optimization := optimization;
      maxDepth := 0;
      rng := if seed % 2147483647 == 0 then 1 else seed % 2147483647;
      turns := [];
      haveBeats := false;
      nextMove := [];
      nextBestState := [];
    }

    // -------------------------------------------------------------------
    // find_turns for one piece
    // -------------------------------------------------------------------

    /** One row of the man-capture loops: the jumps onto row i, to the
        columns y - 2 and y + 2. */
    method AddManJumpRow(x: int, y: int, i: int, b: Matrix)
      requires ValidBoard(b) && InBounds(x, y)
      modifies this`turns
      ensures turns == old(turns) + ManJumpRow(b, x, y, i, y - 2)
    {
      var j := y - 2;
      while j <= y + 2
        invariant j == y - 2 || j == y + 2 || j == y + 6
        invariant turns + ManJumpRow(b, x, y, i, j) == old(turns) + ManJumpRow(b, x, y, i, y - 2)
      {
        ghost var before := turns;
        if 0 <= i <= 7 && 0 <= j <= 7 {
          var xb, yb := (x + i) / 2, (y + j) / 2;
          if !(b[i][j] != 0 || b[xb][yb] == 0 || b[xb][yb] % 2 == b[x][y] % 2) {
            turns := turns + [CaptureMove(x, y, i, j, xb, yb)];
          }
        }
        assert turns == before + ManJump(b, x, y, i, j);
        AppendStep(before, ManJump(b, x, y, i, j), turns, ManJumpRow(b, x, y, i, j + 4), ManJumpRow(b, x, y, i, j));
        j := j + 4;
      }
    }

    /** The man-capture loops: jumps two cells diagonally, in all four
        directions, over an opponent onto an empty cell. */
    method AddManCaptures(x: int, y: int, b: Matrix)
      requires ValidBoard(b) && InBounds(x, y)
      modifies this`turns
      ensures turns == old(turns) + ManCaptures(b, x, y)
    {
      var i := x - 2;
      while i <= x + 2
        invariant i == x - 2 || i == x + 2 || i == x + 6
        invariant turns + ManJumps(b, x, y, i) == old(turns) + ManCaptures(b, x, y)
      {
        ghost var before := turns;
        AddManJumpRow(x, y, i, b);
        AppendStep(before, ManJumpRow(b, x, y, i, y - 2), turns, ManJumps(b, x, y, i + 4), ManJumps(b, x, y, i));
        i := i + 4;
      }
    }

    /** The scan of one diagonal for queen captures: past empty cells and
        at most one opponent, stopping at the edge, at a piece of the
        queen's side or at a second opponent; every cell after the
        opponent is a landing. */
    method AddQueenWalk(x: int, y: int, di: int, dj: int, b: Matrix)
      requires ValidBoard(b) && InBounds(x, y) && (di == 1 || di == -1) && (dj == 1 || dj == -1)
      modifies this`turns
      ensures turns == old(turns) + QueenWalk(b, x, y, di, dj, x + di, y + dj, -1, -1)
    {
      var xb, yb := -1, -1;
      var i2, j2 := x + di, y + dj;
      while i2 != 8 && j2 != 8 && i2 != -1 && j2 != -1
        invariant -1 <= i2 <= 8 && -1 <= j2 <= 8
        invariant turns + QueenWalk(b, x, y, di, dj, i2, j2, xb, yb)
               == old(turns) + QueenWalk(b, x, y, di, dj, x + di, y + dj, -1, -1)
        decreases if di > 0 then 8 - i2 else i2 + 1
      {
        var stop;
        stop, xb, yb := QueenCell(x, y, di, dj, i2, j2, xb, yb, b);
        if stop {
          break;
        }
        i2, j2 := i2 + di, j2 + dj;
      }
    }

    /** One cell (i2, j2) of the queen's capture walk: stop at a piece of the
        queen's side or at a second opponent; otherwise remember an opponent
        as the captured piece and, past one, record the landing. */
    method QueenCell(x: int, y: int, di: int, dj: int, i2: int, j2: int, xb: int, yb: int, b: Matrix)
      returns (stop: bool, xb': int, yb': int)
      requires ValidBoard(b) && InBounds(x, y) && InBounds(i2, j2) && (di == 1 || di == -1) && (dj == 1 || dj == -1)
      modifies this`turns
      ensures stop ==> turns == old(turns) && QueenWalk(b, x, y, di, dj, i2, j2, xb, yb) == []
      ensures !stop ==> turns + QueenWalk(b, x, y, di, dj, i2 + di, j2 + dj, xb', yb')
                        == old(turns) + QueenWalk(b, x, y, di, dj, i2, j2, xb, yb)
    {
      stop, xb', yb' := false, xb, yb;
      if b[i2][j2] != 0 {
        if b[i2][j2] % 2 == b[x][y] % 2 || (b[i2][j2] % 2 != b[x][y] % 2 && xb != -1) {
          QueenWalkBlocked(b, x, y, di, dj, i2, j2, xb, yb);
          return true, xb, yb;
        }
        xb', yb' := i2, j2;
      }
      ghost var added: seq<Move> := [];
      if xb' != -1 && xb' != i2 {
        added := [CaptureMove(x, y, i2, j2, xb', yb')];
        turns := turns + [CaptureMove(x, y, i2, j2, xb', yb')];
      }
      QueenWalkNext(b, x, y, di, dj, i2, j2, xb, yb, xb', yb', added);
      AppendStep(old(turns), added, turns, QueenWalk(b, x, y, di, dj, i2 + di, j2 + dj, xb', yb'),
                 QueenWalk(b, x, y, di, dj, i2, j2, xb, yb));
    }

    /** The inner direction loop of the queen captures (dj = -1, 1). */
    method AddQueenRow(x: int, y: int, di: int, b: Matrix)
      requires ValidBoard(b) && InBounds(x, y) && (di == 1 || di == -1)
      modifies this`turns
      ensures turns == old(turns) + QueenRow(b, x, y, di, -1)
    {
      var dj := -1;
      while dj <= 1
        invariant dj == -1 || dj == 1 || dj == 3
        invariant turns + QueenRow(b, x, y, di, dj) == old(turns) + QueenRow(b, x, y, di, -1)
      {
        ghost var before := turns;
        AddQueenWalk(x, y, di, dj, b);
        AppendStep(before, QueenWalk(b, x, y, di, dj, x + di, y + dj, -1, -1), turns, QueenRow(b, x, y, di, dj + 2), QueenRow(b, x, y, di, dj));
        dj := dj + 2;
      }
    }

    /** The queen-capture loops over the four directions. */
    method AddQueenCaptures(x: int, y: int, b: Matrix)
      requires ValidBoard(b) && InBounds(x, y)
      modifies this`turns
      ensures turns == old(turns) + QueenCaptures(b, x, y)
    {
      var di := -1;
      while di <= 1
        invariant di == -1 || di == 1 || di == 3
        invariant turns + QueenDirs(b, x, y, di) == old(turns) + QueenCaptures(b, x, y)
      {
        ghost var before := turns;
        AddQueenRow(x, y, di, b);
        AppendStep(before, QueenRow(b, x, y, di, -1), turns, QueenDirs(b, x, y, di + 2), QueenDirs(b, x, y, di));
        di := di + 2;
      }
    }

    /** The man-step loop: one row forward, one column to either side, onto
        an empty cell. */
    method AddManSteps(x: int, y: int, b: Matrix)
      requires ValidBoard(b) && InBounds(x, y)
      modifies this`turns
      ensures turns == old(turns) + ManSteps(b, x, y, Forward(b[x][y], x), y - 1)
    {
      var i := if b[x][y] % 2 == 1 then x - 1 else x + 1;
      var j := y - 1;
      while j <= y + 1
        invariant j == y - 1 || j == y + 1 || j == y + 3
        invariant turns + ManSteps(b, x, y, i, j) == old(turns) + ManSteps(b, x, y, i, y - 1)
      {
        ghost var before := turns;
        if !(i < 0 || i > 7 || j < 0 || j > 7 || b[i][j] != 0) {
          turns := turns + [PlainMove(x, y, i, j)];
        }
        ghost var added := turns[|before|..];
        assert turns == before + added;
        AppendStep(before, added, turns, ManSteps(b, x, y, i, j + 2), ManSteps(b, x, y, i, j));
        j := j + 2;
      }
    }

    /** The slide along one diagonal: every empty cell up to the first
        occupied one or the edge. */
    method AddSlideWalk(x: int, y: int, di: int, dj: int, b: Matrix)
      requires ValidBoard(b) && InBounds(x, y) && (di == 1 || di == -1) && (dj == 1 || dj == -1)
      modifies this`turns
      ensures turns == old(turns) + SlideWalk(b, x, y, di, dj, x + di, y + dj)
    {
      var i2, j2 := x + di, y + dj;
      while i2 != 8 && j2 != 8 && i2 != -1 && j2 != -1
        invariant -1 <= i2 <= 8 && -1 <= j2 <= 8
        invariant turns + SlideWalk(b, x, y, di, dj, i2, j2) == old(turns) + SlideWalk(b, x, y, di, dj, x + di, y + dj)
        decreases if di > 0 then 8 - i2 else i2 + 1
      {
        if b[i2][j2] != 0 {
          assert SlideWalk(b, x, y, di, dj, i2, j2) == [];
          break;
        }
        ghost var before := turns;
        turns := turns + [PlainMove(x, y, i2, j2)];
        AppendStep(before, [PlainMove(x, y, i2, j2)], turns, SlideWalk(b, x, y, di, dj, i2 + di, j2 + dj), SlideWalk(b, x, y, di, dj, i2, j2));
        i2, j2 := i2 + di, j2 + dj;
      }
    }

    /** The inner direction loop of the queen slides (dj = -1, 1). */
    method AddSlideRow(x: int, y: int, di: int, b: Matrix)
      requires ValidBoard(b) && InBounds(x, y) && (di == 1 || di == -1)
      modifies this`turns
      ensures turns == old(turns) + SlideRow(b, x, y, di, -1)
    {
      var dj := -1;
      while dj <= 1
        invariant dj == -1 || dj == 1 || dj == 3
        invariant turns + SlideRow(b, x, y, di, dj) == old(turns) + SlideRow(b, x, y, di, -1)
      {
        ghost var before := turns;
        AddSlideWalk(x, y, di, dj, b);
        AppendStep(before, SlideWalk(b, x, y, di, dj, x + di, y + dj), turns, SlideRow(b, x, y, di, dj + 2), SlideRow(b, x, y, di, dj));
        dj := dj + 2;
      }
    }

    /** The queen-slide loops over the four directions. */
    method AddQueenSlides(x: int, y: int, b: Matrix)
      requires ValidBoard(b) && InBounds(x, y)
      modifies this`turns
      ensures turns == old(turns) + QueenSlides(b, x, y)
    {
      var di := -1;
      while di <= 1
        invariant di == -1 || di == 1 || di == 3
        invariant turns + SlideDirs(b, x, y, di) == old(turns) + QueenSlides(b, x, y)
      {
        ghost var before := turns;
        AddSlideRow(x, y, di, b);
        AppendStep(before, SlideRow(b, x, y, di, -1), turns, SlideDirs(b, x, y, di + 2), SlideDirs(b, x, y, di));
        di := di + 2;
      }
    }

    /** find_turns(x, y, mtx): clear the list, collect the piece's
        captures (as a man for codes 1 and 2, as a queen otherwise); with
        any, set have_beats and stop, else collect its plain moves. Equal to
        PieceTurns, which MoveShapes.PieceTurnsExactly characterises. */
    method FindPieceTurns(x: int, y: int, b: Matrix)
      requires ValidBoard(b) && InBounds(x, y)
      modifies this`turns, this`haveBeats
      ensures turns == PieceTurns(b, x, y).moves && haveBeats == PieceTurns(b, x, y).haveBeats
    {
      turns := [];
      haveBeats := false;
      var t := b[x][y];
      if t == 1 || t == 2 {
        AddManCaptures(x, y, b);
      } else {
        AddQueenCaptures(x, y, b);
      }
      if turns != [] {
        haveBeats := true;
        return;
      }
      if t == 1 || t == 2 {
        AddManSteps(x, y, b);
      } else {
        AddQueenSlides(x, y, b);
      }
    }

    // -------------------------------------------------------------------
    // find_turns for a side
    // -------------------------------------------------------------------

    /** std::shuffle of `turns` with the engine's random state, modelled as
        the permutation Shuffle draws: each step moves one drawn element to
        the output. */
    method ShuffleTurns()
      modifies this`turns, this`rng
      ensures turns == Shuffle(old(turns), old(rng)).moves && rng == Shuffle(old(turns), old(rng)).seed
      ensures multiset(turns) == multiset(old(turns))
    {
      var out: seq<Move> := [];
      var rest := turns;
      var seed: nat := rng;
      while |rest| > 1
        invariant out + Shuffle(rest, seed).moves == Shuffle(old(turns), old(rng)).moves
        invariant Shuffle(rest, seed).seed == Shuffle(old(turns), old(rng)).seed
        decreases |rest|
      {
        ghost var out0, rest0, seed0 := out, rest, seed;
        seed := NextRand(seed);
        var k := seed % |rest|;
        out := out + [rest[k]];
        rest := rest[..k] + rest[k + 1..];
        ShuffleStep(rest0, seed0);
        AppendStep(out0, [rest0[k]], out, Shuffle(rest, seed).moves, Shuffle(rest0, seed0).moves);
      }
      turns := out + rest;
      rng := seed;
    }

    /** One cell of the side scan, as ScanCell describes it. */
    method ScanOne(color: bool, i: int, j: int, b: Matrix, res: seq<Move>, before: bool)
      returns (res': seq<Move>, before': bool)
      requires ValidBoard(b) && InBounds(i, j)
      modifies this`turns, this`haveBeats
      ensures Turns(res', before') == ScanCell(Own(b, color, i, j), PieceTurns(b, i, j), Turns(res, before))
    {
      res', before' := res, before;
      if b[i][j] != 0 && b[i][j] % 2 != Bit(color) {
        FindPieceTurns(i, j, b);
        if haveBeats && !before' {
          before' := true;
          res' := [];
        }
        if (before' && haveBeats) || !before' {
          res' := res' + turns;
        }
      }
    }

    /** One row of the scan of find_turns(color, mtx): cells (i, 0) to (i, 7). */
    method ScanRow(color: bool, i: int, b: Matrix, res: seq<Move>, before: bool)
      returns (res': seq<Move>, before': bool)
      requires ValidBoard(b) && 0 <= i < 8 && Turns(res, before) == SideScan(b, color, 8 * i)
      modifies this`turns, this`haveBeats
      ensures Turns(res', before') == SideScan(b, color, 8 * i + 8)
    {
      res', before' := res, before;
      var j := 0;
      while j < 8
        invariant 0 <= j <= 8
        invariant Turns(res', before') == SideScan(b, color, 8 * i + j)
      {
        res', before' := ScanOne(color, i, j, b, res', before');
        SideScanStep(b, color, 8 * i + j, i, j);
        j := j + 1;
      }
    }

    /** The scan of find_turns(color, mtx), row by row: each piece of the
        side contributes its moves, the first capturing piece discards the
        plain moves collected before it and afterwards only capturing pieces
        contribute. */
    method ScanBoard(color: bool, b: Matrix) returns (res: seq<Move>, before: bool)
      requires ValidBoard(b)
      modifies this`turns, this`haveBeats
      ensures Turns(res, before) == SideScan(b, color, 64)
    {
      res, before := [], false;
      var i := 0;
      while i < 8
        invariant 0 <= i <= 8
        invariant Turns(res, before) == SideScan(b, color, 8 * i)
      {
        res, before := ScanRow(color, i, b, res, before);
        i := i + 1;
      }
    }

    /** find_turns(color, mtx): the scan, then the shuffle. Equal to
        SideTurns, which SideRules.SideTurnsRule characterises (mandatory
        capture). */
    method FindSideTurns(color: bool, b: Matrix)
      requires ValidBoard(b)
      modifies this`turns, this`haveBeats, this`rng
      ensures var f := SideTurns(b, color, old(rng)); turns == f.moves && haveBeats == f.haveBeats && rng == f.rng
    {
      var res, before := ScanBoard(color, b);
      turns := res;
      ShuffleTurns();
      haveBeats := before;
    }

    /** The public find_turns(color): the side's moves on the engine's board. */
    method FindTurns(color: bool)
      requires board.Valid()
      modifies this`turns, this`haveBeats, this`rng
      ensures var f := SideTurns(board.mtx, color, old(rng)); turns == f.moves && haveBeats == f.haveBeats && rng == f.rng
    {
      FindSideTurns(color, board.GetBoard());
    }

    /** The public find_turns(x, y): the moves of one piece on the engine's board. */
    method FindTurnsAt(x: int, y: int)
      requires board.Valid() && InBounds(x, y)
      modifies this`turns, this`haveBeats
      ensures turns == PieceTurns(board.mtx, x, y).moves && haveBeats == PieceTurns(board.mtx, x, y).haveBeats
    {
      FindPieceTurns(x, y, board.GetBoard());
    }

    // -------------------------------------------------------------------
    // calc_score and the search
    // -------------------------------------------------------------------

    /** The counting pass of calc_score: the odd men (w), odd queens (wq),
        even men (bl) and even queens (bq), a man weighing 1 plus, in
        potential mode, 0.05 per row of progress. */
    method CountPieces(b: Matrix) returns (w: real, wq: real, bl: real, bq: real)
      requires ValidBoard(b)
      ensures w == Search.Men(scoringMode, b, false) && wq == Search.Queens(b, false)
      ensures bl == Search.Men(scoringMode, b, true) && bq == Search.Queens(b, true)
    {
      w, wq, bl, bq := 0.0, 0.0, 0.0, 0.0;
      var i := 0;
      while i < 8
        invariant 0 <= i <= 8
        invariant w == Search.MenUpTo(scoringMode, b, false, 8 * i) && bl == Search.MenUpTo(scoringMode, b, true, 8 * i)
        invariant wq == Tally(b, 3, 8 * i) as real && bq == Tally(b, 4, 8 * i) as real
      {
        var j := 0;
        while j < 8
          invariant 0 <= j <= 8
          invariant w == Search.MenUpTo(scoringMode, b, false, 8 * i + j) && bl == Search.MenUpTo(scoringMode, b, true, 8 * i + j)
          invariant wq == Tally(b, 3, 8 * i + j) as real && bq == Tally(b, 4, 8 * i + j) as real
        {
          CountStep(scoringMode, b, 8 * i + j, i, j);
          w := w + (if b[i][j] == 1 then 1.0 else 0.0);
          wq := wq + (if b[i][j] == 3 then 1.0 else 0.0);
          bl := bl + (if b[i][j] == 2 then 1.0 else 0.0);
          bq := bq + (if b[i][j] == 4 then 1.0 else 0.0);
          if scoringMode == "NumberAndPotential" {
            if b[i][j] == 1 {
              w := w + 0.05 * (7 - i) as real;
            }
            if b[i][j] == 2 {
              bl := bl + 0.05 * i as real;
            }
          }
          j := j + 1;
        }
        i := i + 1;
      }
      assert 8 * i == 64;
    }

    /** calc_score: count both sides, swap them when the bot does not move
        the odd side, and return the ratio of the bot's material to the
        other side's, INF when the other side has nothing and 0 when the
        bot has nothing. Equal to Search.CalcScore. */
    method CalcScore(b: Matrix, firstBotColor: bool) returns (r: real)
      requires ValidBoard(b)
      ensures r == Search.CalcScore(scoringMode, b, firstBotColor)
    {
      var w, wq, bl, bq := CountPieces(b);
      if !firstBotColor {
        w, bl := bl, w;
        wq, bq := bq, wq;
      }
      assert w == Search.Men(scoringMode, b, !firstBotColor) && wq == Search.Queens(b, !firstBotColor);
      assert bl == Search.Men(scoringMode, b, firstBotColor) && bq == Search.Queens(b, firstBotColor);
      if w + wq == 0.0 {
        return Search.INF;
      }
      if bl + bq == 0.0 {
        return 0.0;
      }
      var q := 4.0;
      if scoringMode == "NumberAndPotential" {
        q := 5.0;
      }
      r := (bl + bq * q) / (w + wq * q);
    }

    /** The move generation at the head of find_best_turns_rec: the pinned
        piece's moves when x != -1, otherwise the side's. */
    method TurnsFor(b: Matrix, color: bool, x: int, y: int)
      requires ValidBoard(b) && (x != -1 ==> InBounds(x, y) && b[x][y] != 0)
      modifies this`turns, this`haveBeats, this`rng
      ensures var t := Search.TurnsAt(b, color, x, y, old(rng));
              turns == t.moves && haveBeats == t.haveBeats && rng == t.rng
    {
      if x != -1 {
        FindPieceTurns(x, y, b);
      } else {
        FindSideTurns(color, b);
      }
    }

    /** find_best_turns_rec: the alpha-beta search below the root, equal to
        RecScore (whose value module Minimax relates to plain minimax). */
    method FindBestTurnsRec(b: Matrix, color: bool, depth: nat, alpha: real, beta: real, x: int, y: int)
      returns (score: real)
      requires ValidBoard(b) && depth <= maxDepth
      requires x != -1 ==> InBounds(x, y) && b[x][y] != 0
      modifies this`turns, this`haveBeats, this`rng
      ensures var s := Search.RecScore(Cfg(), b, color, depth, alpha, beta, x, y, old(rng));
              score == s.score && rng == s.rng
      decreases maxDepth - depth, PieceCount(b), 4
    {
      if depth == maxDepth {
        score := CalcScore(b, depth % 2 == Bit(color));
        return;
      }
      score := RecSearch(b, color, depth, alpha, beta, x, y);
    }

    /** find_best_turns_rec below the depth limit: generate the moves, then
        go on as RecFoundRun says. */
    method RecSearch(b: Matrix, color: bool, depth: nat, alpha: real, beta: real, x: int, y: int)
      returns (score: real)
      requires ValidBoard(b) && depth < maxDepth
      requires x != -1 ==> InBounds(x, y) && b[x][y] != 0
      modifies this`turns, this`haveBeats, this`rng
      ensures var s := Search.RecScore(Cfg(), b, color, depth, alpha, beta, x, y, old(rng));
              score == s.score && rng == s.rng
      decreases maxDepth - depth, PieceCount(b), 3
    {
      TurnsFor(b, color, x, y);
      score := RecFoundRun(b, color, depth, alpha, beta, x, turns, haveBeats);
    }

    /** find_best_turns_rec after the move generation: pass the turn when
        the pinned piece can capture no more, score a position without
        moves, or run the loop. */
    method RecFoundRun(b: Matrix, color: bool, depth: nat, alpha: real, beta: real, x: int, moves: seq<Move>, hb: bool)
      returns (score: real)
      requires ValidBoard(b) && depth < maxDepth && MovesOk(b, moves, hb)
      modifies this`turns, this`haveBeats, this`rng
      ensures var s := Search.RecFound(Cfg(), b, color, depth, alpha, beta, x, moves, hb, old(rng));
              score == s.score && rng == s.rng
      decreases maxDepth - depth, PieceCount(b), 2
    {
      if !hb && x != -1 {
        score := FindBestTurnsRec(b, !color, depth + 1, alpha, beta, -1, -1);
      } else if |moves| == 0 {
        score := if depth % 2 == 1 then 0.0 else Search.INF;
      } else {
        score := RecLoop(b, color, depth, alpha, beta, x, moves, hb);
      }
    }

    /** The loop of find_best_turns_rec over the moves found: fold each
        child's score into min_score / max_score, narrow the window, and
        stop early when it closes unless the optimisation is "O0". */
    method RecLoop(b: Matrix, color: bool, depth: nat, alpha: real, beta: real, x: int, moves: seq<Move>, hb: bool)
      returns (score: real)
      requires ValidBoard(b) && depth < maxDepth
      requires MovesOk(b, moves, hb) && (x != -1 ==> hb)
      modifies this`turns, this`haveBeats, this`rng
      ensures var s := Search.LoopScore(Cfg(), b, color, depth, alpha, beta, x, moves, hb, 0, Search.INF + 1.0, -1.0, old(rng));
              score == s.score && rng == s.rng
      decreases maxDepth - depth, PieceCount(b), 1
    {
      ghost var cfg := Cfg();
      ghost var whole := Search.LoopScore(cfg, b, color, depth, alpha, beta, x, moves, hb, 0, Search.INF + 1.0, -1.0, rng);
      var minS, maxS := Search.INF + 1.0, -1.0;
      var a, bt := alpha, beta;
      var i := 0;
      while i < |moves|
        invariant 0 <= i <= |moves| && Cfg() == cfg
        invariant Search.LoopScore(cfg, b, color, depth, a, bt, x, moves, hb, i, minS, maxS, rng) == whole
      {
        var turn := moves[i];
        ghost var a0, bt0, minS0, maxS0, rng0 := a, bt, minS, maxS, rng;
        ghost var c := Search.ChildScore(cfg, b, color, depth, a, bt, x, turn, hb, rng);
        var sc := RecChild(b, color, depth, a, bt, x, turn, hb);
        minS := Search.Min(minS, sc);
        maxS := Search.Max(maxS, sc);
        if depth % 2 == 1 {
          a := Search.Max(a, maxS);
        } else {
          bt := Search.Min(bt, minS);
        }
        assert sc == c.score && rng == c.rng;
        assert minS == Search.Min(minS0, c.score) && maxS == Search.Max(maxS0, c.score);
        Search.LoopScoreAt(cfg, b, color, depth, a0, bt0, x, moves, hb, i, minS0, maxS0, rng0);
        if optimization != "O0" && a >= bt {
          return if depth % 2 == 1 then maxS + 1.0 else minS - 1.0;
        }
        assert whole == Search.LoopScore(cfg, b, color, depth, a, bt, x, moves, hb, i + 1, minS, maxS, rng);
        i := i + 1;
      }
      score := if depth % 2 == 1 then maxS else minS;
    }

    /** The body of the loop of find_best_turns_rec for one move: a plain
        move from a free position passes the turn one level deeper, any
        other (a capture) goes on with the capturing piece pinned. */
    method RecChild(b: Matrix, color: bool, depth: nat, alpha: real, beta: real, x: int, turn: Move, hb: bool)
      returns (score: real)
      requires ValidBoard(b) && depth < maxDepth
      requires Legal(b, turn) && IsCapture(turn) == hb && (x != -1 ==> hb)
      modifies this`turns, this`haveBeats, this`rng
      ensures var c := Search.ChildScore(Cfg(), b, color, depth, alpha, beta, x, turn, hb, old(rng));
              score == c.score && rng == c.rng
      decreases maxDepth - depth, PieceCount(b), 0
    {
      CaptureShrinks(b, turn);
      if !hb && x == -1 {
        score := FindBestTurnsRec(MakeTurn(b, turn), !color, depth + 1, alpha, beta, -1, -1);
      } else {
        score := FindBestTurnsRec(MakeTurn(b, turn), color, depth, alpha, beta, turn.x2, turn.y2);
      }
    }

    /** find_first_best_turn: push a placeholder slot for this state and, in
        a capture chain, generate the piece's moves; then go on as
        FirstFoundRun says. Equal to FirstBest. */
    method FirstBestTurn(b: Matrix, color: bool, x: int, y: int, state: nat, alpha: real) returns (bestScore: real)
      requires ValidBoard(b) && state == |nextMove| == |nextBestState|
      requires state == 0 ==> MovesOk(b, turns, haveBeats)
      requires state != 0 ==> InBounds(x, y) && b[x][y] != 0
      modifies this`turns, this`haveBeats, this`rng, this`nextMove, this`nextBestState
      ensures Search.Line(bestScore, nextMove, nextBestState, rng)
              == Search.FirstBest(Cfg(), b, color, x, y, state, alpha, old(turns), old(haveBeats),
                                  old(nextMove), old(nextBestState), old(rng))
      decreases PieceCount(b), 5
    {
      nextBestState := nextBestState + [-1];
      nextMove := nextMove + [Search.NoMove];
      if state != 0 {
        bestScore := ChainBest(b, color, x, y, state, alpha);
      } else {
        bestScore := FirstFoundRun(b, color, state, alpha, turns, haveBeats);
      }
    }

    /** The capture-chain half of find_first_best_turn, once the slot is
        pushed: generate the moves of the piece on (x, y), then go on as
        FirstFoundRun says. */
    method ChainBest(b: Matrix, color: bool, x: int, y: int, state: nat, alpha: real) returns (bestScore: real)
      requires ValidBoard(b) && 0 < state < |nextMove| == |nextBestState|
      requires InBounds(x, y) && b[x][y] != 0
      modifies this`turns, this`haveBeats, this`rng, this`nextMove, this`nextBestState
      ensures var t := PieceTurns(b, x, y);
              && MovesOk(b, t.moves, t.haveBeats)
              && Search.Line(bestScore, nextMove, nextBestState, rng)
                 == Search.FirstFound(Cfg(), b, color, state, alpha, t.moves, t.haveBeats,
                                      old(nextMove), old(nextBestState), old(rng))
      decreases PieceCount(b), 4
    {
      FindPieceTurns(x, y, b);
      PieceTurnsLegal(b, x, y);
      bestScore := FirstFoundRun(b, color, state, alpha, turns, haveBeats);
    }

    /** find_first_best_turn after the move generation: a chain piece that
        can capture no more hands over to the opponent's search, anything
        else runs the loop. */
    method FirstFoundRun(b: Matrix, color: bool, state: nat, alpha: real, moves: seq<Move>, hb: bool)
      returns (bestScore: real)
      requires ValidBoard(b) && MovesOk(b, moves, hb) && state < |nextMove| == |nextBestState|
      modifies this`turns, this`haveBeats, this`rng, this`nextMove, this`nextBestState
      ensures var r := Search.FirstFound(Cfg(), b, color, state, alpha, moves, hb, old(nextMove), old(nextBestState), old(rng));
              && bestScore == r.score && nextMove == r.nextMove && nextBestState == r.nextBestState && rng == r.rng
      decreases PieceCount(b), 3
    {
      if !hb && state != 0 {
        bestScore := FindBestTurnsRec(b, !color, 0, alpha, Search.INF + 1.0, -1, -1);
      } else {
        bestScore := FirstLoopRun(b, color, state, moves, hb);
      }
    }

    /** The loop of find_first_best_turn: score each move and record, at
        slot `state`, the first move with the highest score and, for a
        capture, the state where its chain goes on. */
    method FirstLoopRun(b: Matrix, color: bool, state: nat, moves: seq<Move>, hb: bool) returns (bestScore: real)
      requires ValidBoard(b) && MovesOk(b, moves, hb) && state < |nextMove| == |nextBestState|
      modifies this`turns, this`haveBeats, this`rng, this`nextMove, this`nextBestState
      ensures var r := Search.FirstLoop(Cfg(), b, color, state, moves, hb, 0, -1.0, old(nextMove), old(nextBestState), old(rng));
              && bestScore == r.score && nextMove == r.nextMove && nextBestState == r.nextBestState && rng == r.rng
      decreases PieceCount(b), 2
    {
      ghost var cfg := Cfg();
      ghost var whole := Search.FirstLoop(cfg, b, color, state, moves, hb, 0, -1.0, nextMove, nextBestState, rng);
      bestScore := -1.0;
      var i := 0;
      while i < |moves|
        invariant 0 <= i <= |moves| && state < |nextMove| == |nextBestState| && Cfg() == cfg
        invariant Search.FirstLoop(cfg, b, color, state, moves, hb, i, bestScore, nextMove, nextBestState, rng) == whole
      {
        bestScore := FirstStep(b, color, state, moves, hb, i, bestScore);
        i := i + 1;
      }
    }

    /** One iteration of the loop of find_first_best_turn: score moves[i]
        and, when it beats the best so far, record it at slot `state`
        together with the state where its chain goes on (-1 for a plain
        move). */
    method FirstStep(b: Matrix, color: bool, state: nat, moves: seq<Move>, hb: bool, i: nat, best: real)
      returns (best': real)
      requires ValidBoard(b) && MovesOk(b, moves, hb) && i < |moves| && state < |nextMove| == |nextBestState|
      modifies this`turns, this`haveBeats, this`rng, this`nextMove, this`nextBestState
      ensures state < |nextMove| == |nextBestState|
      ensures Search.FirstLoop(Cfg(), b, color, state, moves, hb, i + 1, best', nextMove, nextBestState, rng)
              == Search.FirstLoop(Cfg(), b, color, state, moves, hb, i, best, old(nextMove), old(nextBestState), old(rng))
      decreases PieceCount(b), 1
    {
      var turn := moves[i];
      var nextState := |nextMove|;
      Search.FirstLoopAt(Cfg(), b, color, state, moves, hb, i, best, nextMove, nextBestState, rng);
      var score := FirstChildRun(b, color, turn, hb, best);
      best' := best;
      if score > best {
        best' := score;
        nextBestState := nextBestState[state := if hb then nextState else -1];
        nextMove := nextMove[state := turn];
      }
    }

    /** The score of one move of find_first_best_turn: a capture continues
        the chain with the same piece in a new state at the end of the
        vectors, a plain move hands over to the opponent's search. */
    method FirstChildRun(b: Matrix, color: bool, turn: Move, hb: bool, best: real) returns (score: real)
      requires ValidBoard(b) && Legal(b, turn) && IsCapture(turn) == hb && 0 < |nextMove| == |nextBestState|
      modifies this`turns, this`haveBeats, this`rng, this`nextMove, this`nextBestState
      ensures var c := Search.FirstChild(Cfg(), b, color, turn, hb, best, old(nextMove), old(nextBestState), old(rng));
              && score == c.score && nextMove == c.nextMove && nextBestState == c.nextBestState && rng == c.rng
      decreases PieceCount(b), 0
    {
      CaptureShrinks(b, turn);
      if hb {
        Search.FirstBestInChain(Cfg(), MakeTurn(b, turn), color, turn.x2, turn.y2, |nextMove|, best,
                                turns, haveBeats, nextMove, nextBestState, rng);
        score := FirstBestTurn(MakeTurn(b, turn), color, turn.x2, turn.y2, |nextMove|, best);
      } else {
        score := FindBestTurnsRec(MakeTurn(b, turn), !color, 0, best, Search.INF + 1.0, -1, -1);
      }
    }

    /** find_best_turns(color): search from the board with the list left by
        the last find_turns(color), then follow next_best_state from the
        root. The result is empty or starts with one of those moves; it is a
        single move when they are plain, and a chain of captures, each
        starting where the previous one ended, when they are captures. */
    method FindBestTurns(color: bool) returns (result: seq<Move>)
      requires board.Valid() && MovesOk(board.mtx, turns, haveBeats)
      modifies this`turns, this`haveBeats, this`rng, this`nextMove, this`nextBestState
      ensures var r := Search.FirstBest(Cfg(), board.mtx, color, -1, -1, 0, -1.0, old(turns), old(haveBeats), [], [], old(rng));
              && nextMove == r.nextMove && nextBestState == r.nextBestState && rng == r.rng
              && Search.Linked(nextMove, nextBestState) && result == Search.Walk(nextMove, nextBestState, 0)
      ensures result == [] || result[0] in old(turns)
      ensures !old(haveBeats) ==> |result| <= 1
      ensures old(haveBeats) ==> forall k :: 0 <= k < |result| ==> IsCapture(result[k])
      ensures Search.IsChain(result)
      ensures optimization == "O0" ==> (result == [] <==> old(turns) == [])
      ensures optimization == "O0" && old(turns) != [] ==>
                exists k :: BestLine.FirstMax(BestLine.MoveValues(Cfg(), board.mtx, color, old(turns), old(haveBeats)), k)
                            && result != [] && result[0] == old(turns)[k]
    {
      nextBestState := [];
      nextMove := [];
      Search.BestLineShape(Cfg(), board.mtx, color, turns, haveBeats, rng);
      if optimization == "O0" {
        BestLine.RootBestMove(Cfg(), board.mtx, color, turns, haveBeats, rng);
      }
      var score := FirstBestTurn(board.GetBoard(), color, -1, -1, 0, -1.0);
      result := WalkLine();
    }

    /** The walk at the end of find_best_turns: from state 0, collect each
        recorded move and follow next_best_state until -1 or a placeholder. */
    method WalkLine() returns (result: seq<Move>)
      requires 0 < |nextMove| == |nextBestState| && Search.PointsForward(nextBestState)
      ensures result == Search.Walk(nextMove, nextBestState, 0)
    {
      var cur := 0;
      result := [];
      while cur != -1 && nextMove[cur].x != -1
        invariant -1 <= cur < |nextMove|
        invariant result + Search.Walk(nextMove, nextBestState, cur) == Search.Walk(nextMove, nextBestState, 0)
        decreases if cur == -1 then 0 else |nextMove| - cur
      {
        AppendStep(result, [nextMove[cur]], result + [nextMove[cur]],
                   Search.Walk(nextMove, nextBestState, nextBestState[cur]), Search.Walk(nextMove, nextBestState, cur));
        result := result + [nextMove[cur]];
        cur := nextBestState[cur];
      }
    }
  }
}
