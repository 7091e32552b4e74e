/** The evaluation and the search of Logic: calc_score, find_best_turns_rec,
    find_first_best_turn and the walk of find_best_turns, written as
    functions of the board, the scratch vectors and the random state. The
    imperative versions in module Engine are proved equal to them. */
module Search {
  import opened Moves
  import opened Matrices
  import opened Rules
  import opened MoveShapes
  import opened SideRules

  /** The engine's "infinity". */
  const INF: real := 1000000000.0

  /** The bot settings the search reads: Max_depth, BotScoringType and
      Optimization. */
  datatype Config = Config(maxDepth: nat, scoringMode: string, optimization: string)

  function Min(a: real, b: real): real {
    if b < a then b else a
  }

  function Max(a: real, b: real): real {
    if a < b then b else a
  }

  // ---------------------------------------------------------------------
  // calc_score
  // ---------------------------------------------------------------------

  predicate Potential(mode: string) {
    mode == "NumberAndPotential"
  }

  /** The pieces of a side: colour false owns 1 and 3, colour true 2 and 4. */
  function SideCount(b: Matrix, side: bool): nat
    requires ValidBoard(b)
  {
    if side then Tally(b, 2, 64) + Tally(b, 4, 64) else Tally(b, 1, 64) + Tally(b, 3, 64)
  }

  /** The men of a side among the first n cells. An odd man counts 1 plus,
      in potential mode, 0.05 per row still to go to row 0; an even man 1
      plus 0.05 per row already advanced from row 0. */
  function MenUpTo(mode: string, b: Matrix, side: bool, n: int): (w: real)
    requires ValidBoard(b) && 0 <= n <= 64
    ensures w >= (if side then Tally(b, 2, n) else Tally(b, 1, n)) as real
  {
    if side then
      Tally(b, 2, n) as real + (if Potential(mode) then 0.05 * RowSum(b, 2, n) as real else 0.0)
    else
      Tally(b, 1, n) as real
        + (if Potential(mode) then 0.05 * (7 * Tally(b, 1, n) - RowSum(b, 1, n)) as real else 0.0)
  }

  /** The men of a side on the whole board. */
  function Men(mode: string, b: Matrix, side: bool): (w: real)
    requires ValidBoard(b)
    ensures w >= (if side then Tally(b, 2, 64) else Tally(b, 1, 64)) as real
  {
    MenUpTo(mode, b, side, 64)
  }

  /** The queens of a side. */
  function Queens(b: Matrix, side: bool): (n: real)
    requires ValidBoard(b)
  {
    (if side then Tally(b, 4, 64) else Tally(b, 3, 64)) as real
  }

  function QueenWeight(mode: string): real {
    if Potential(mode) then 5.0 else 4.0
  }

  /** calc_score: the material of side fbc over the material of the other
      side, INF when the other side has nothing left and 0 when side fbc has
      nothing left. (w, wq) are the counts of the other side and (bb, bq)
      those of side fbc, as after the swap of the source.) */
  function CalcScore(mode: string, b: Matrix, fbc: bool): (r: real)
    requires ValidBoard(b)
    ensures r == INF <==> SideCount(b, !fbc) == 0
    ensures r == 0.0 <==> SideCount(b, !fbc) != 0 && SideCount(b, fbc) == 0
    ensures 0.0 <= r <= INF
  {
    var w, wq := Men(mode, b, !fbc), Queens(b, !fbc);
    var bb, bq := Men(mode, b, fbc), Queens(b, fbc);
    MaterialRange(mode, b, !fbc);
    MaterialRange(mode, b, fbc);
    if w + wq == 0.0 then INF
    else if bb + bq == 0.0 then 0.0
    else
      RatioBounds(Material(mode, b, fbc), Material(mode, b, !fbc));
      (bb + bq * QueenWeight(mode)) / (w + wq * QueenWeight(mode))
  }

  /** A side's men and queens add up to nothing exactly when it has no
      pieces; otherwise its material lies between 1 and 1000. */
  lemma MaterialRange(mode: string, b: Matrix, side: bool)
    requires ValidBoard(b)
    ensures Men(mode, b, side) + Queens(b, side) == 0.0 <==> SideCount(b, side) == 0
    ensures SideCount(b, side) != 0 ==> 1.0 <= Material(mode, b, side) <= 1000.0
  {
    var t, q := if side then Tally(b, 2, 64) else Tally(b, 1, 64), if side then Tally(b, 4, 64) else Tally(b, 3, 64);
    var men := Men(mode, b, side);
    assert t as real <= men <= 2.0 * t as real by {
      var rs := if side then RowSum(b, 2, 64) else RowSum(b, 1, 64);
      assert 0 <= rs <= 7 * t;
    }
    assert Queens(b, side) == q as real;
    if Potential(mode) {
      assert Material(mode, b, side) == men + q as real * 5.0;
    } else {
      assert Material(mode, b, side) == men + q as real * 4.0;
    }
  }

  /** A ratio of material: at least 1 in the denominator keeps it within the
      numerator. */
  lemma RatioBounds(num: real, den: real)
    requires 1.0 <= num <= 1000.0 && 1.0 <= den
    ensures 0.0 < num / den <= num
  {
  }

  /** A ratio only grows when its denominator shrinks. */
  lemma RatioGrows(num: real, den: real, den': real)
    requires 0.0 <= num && 0.0 < den' <= den
    ensures num / den <= num / den'
  {
    assert num / den * den == num;
    assert num / den' * den' == num;
  }

  /** Emptying a cell of side `side` lowers that side's men and queens,
      one of them strictly, and leaves the other side's untouched. */
  lemma ClearPiece(mode: string, b: Matrix, side: bool, i: int, j: int)
    requires ValidBoard(b) && InBounds(i, j) && Own(b, side, i, j)
    ensures Men(mode, SetCell(b, i, j, 0), side) <= Men(mode, b, side)
    ensures Queens(SetCell(b, i, j, 0), side) <= Queens(b, side)
    ensures SideCount(SetCell(b, i, j, 0), side) == SideCount(b, side) - 1
    ensures Men(mode, SetCell(b, i, j, 0), !side) == Men(mode, b, !side)
    ensures Queens(SetCell(b, i, j, 0), !side) == Queens(b, !side)
    ensures SideCount(SetCell(b, i, j, 0), !side) == SideCount(b, !side)
  {
    TallySetCell(b, i, j, 0, 1, 64);
    TallySetCell(b, i, j, 0, 2, 64);
    TallySetCell(b, i, j, 0, 3, 64);
    TallySetCell(b, i, j, 0, 4, 64);
    RowSumSetCell(b, i, j, 0, 1, 64);
    RowSumSetCell(b, i, j, 0, 2, 64);
  }

  /** The weighted material of a side: its men plus its queens times the
      queen weight. */
  function Material(mode: string, b: Matrix, side: bool): real
    requires ValidBoard(b)
  {
    Men(mode, b, side) + Queens(b, side) * QueenWeight(mode)
  }

  /** When both sides have pieces, calc_score is the ratio of their
      materials, and the denominator is at least 1. */
  lemma ScoreIsRatio(mode: string, b: Matrix, fbc: bool)
    requires ValidBoard(b) && SideCount(b, !fbc) != 0 && SideCount(b, fbc) != 0
    ensures Material(mode, b, !fbc) >= 1.0
    ensures CalcScore(mode, b, fbc) == Material(mode, b, fbc) / Material(mode, b, !fbc)
  {
  }

  /** Emptying a cell of a side never raises that side's material. */
  lemma MaterialAfterClear(mode: string, b: Matrix, side: bool, i: int, j: int)
    requires ValidBoard(b) && InBounds(i, j) && Own(b, side, i, j)
    ensures Material(mode, SetCell(b, i, j, 0), side) <= Material(mode, b, side)
    ensures Material(mode, SetCell(b, i, j, 0), !side) == Material(mode, b, !side)
    ensures SideCount(SetCell(b, i, j, 0), side) == SideCount(b, side) - 1
    ensures SideCount(SetCell(b, i, j, 0), !side) == SideCount(b, !side)
  {
    ClearPiece(mode, b, side, i, j);
    var b' := SetCell(b, i, j, 0);
    if Potential(mode) {
      assert Queens(b', side) * 5.0 <= Queens(b, side) * 5.0;
    } else {
      assert Queens(b', side) * 4.0 <= Queens(b, side) * 4.0;
    }
  }

  /** Capturing: removing a piece of the side opposite to fbc never lowers
      the score of side fbc. */
  lemma CaptureNeverLowersScore(mode: string, b: Matrix, fbc: bool, i: int, j: int)
    requires ValidBoard(b) && InBounds(i, j) && Own(b, !fbc, i, j)
    ensures CalcScore(mode, SetCell(b, i, j, 0), fbc) >= CalcScore(mode, b, fbc)
  {
    var b' := SetCell(b, i, j, 0);
    MaterialAfterClear(mode, b, !fbc, i, j);
    if SideCount(b', !fbc) != 0 && SideCount(b, fbc) != 0 {
      ScoreIsRatio(mode, b, fbc);
      ScoreIsRatio(mode, b', fbc);
      RatioGrows(Material(mode, b, fbc), Material(mode, b, !fbc), Material(mode, b', !fbc));
    }
  }

  /** Losing: removing a piece of side fbc never raises its score. */
  lemma LossNeverRaisesScore(mode: string, b: Matrix, fbc: bool, i: int, j: int)
    requires ValidBoard(b) && InBounds(i, j) && Own(b, fbc, i, j)
    ensures CalcScore(mode, SetCell(b, i, j, 0), fbc) <= CalcScore(mode, b, fbc)
  {
    var b' := SetCell(b, i, j, 0);
    MaterialAfterClear(mode, b, fbc, i, j);
    if SideCount(b, !fbc) != 0 && SideCount(b', fbc) != 0 {
      ScoreIsRatio(mode, b, fbc);
      ScoreIsRatio(mode, b', fbc);
      RatioShrinks(Material(mode, b', fbc), Material(mode, b, fbc), Material(mode, b, !fbc));
    }
  }

  /** A ratio only shrinks with its numerator. */
  lemma RatioShrinks(num': real, num: real, den: real)
    requires 0.0 <= num' <= num && 0.0 < den
    ensures num' / den <= num / den
  {
    assert num / den - num' / den == (num - num') / den;
  }

  // ---------------------------------------------------------------------
  // find_best_turns_rec
  // ---------------------------------------------------------------------

  /** A score together with the random state after computing it. */
  datatype Scored = Scored(score: real, rng: nat)

  /** The move generation at the head of find_best_turns_rec: the pinned
      piece's moves when x != -1, otherwise the side's (shuffled) moves. */
  function TurnsAt(b: Matrix, color: bool, x: int, y: int, rng: nat): (r: Found)
    requires ValidBoard(b) && (x != -1 ==> InBounds(x, y) && b[x][y] != 0)
    ensures MovesOk(b, r.moves, r.haveBeats)
    ensures x != -1 ==> r.rng == rng && forall m :: m in r.moves ==> m.x == x && m.y == y
  {
    if x != -1 then
      PieceTurnsLegal(b, x, y);
      Found(PieceTurns(b, x, y).moves, PieceTurns(b, x, y).haveBeats, rng)
    else
      SideTurnsOk(b, color, rng);
      SideTurns(b, color, rng)
  }

  /** find_best_turns_rec(mtx, color, depth, alpha, beta, x, y): the score of
      the position for the bot, searched to depth Max_depth. A plain move
      passes the turn one level deeper; a capture continues at the same depth
      with the capturing piece pinned, and when it can capture no more the
      turn passes one level deeper. */
  function RecScore(cfg: Config, b: Matrix, color: bool, depth: nat, alpha: real, beta: real,
                    x: int, y: int, rng: nat): Scored
    requires ValidBoard(b) && depth <= cfg.maxDepth
    requires x != -1 ==> InBounds(x, y) && b[x][y] != 0
    decreases cfg.maxDepth - depth, PieceCount(b), 2, 0
  {
    if depth == cfg.maxDepth then Scored(CalcScore(cfg.scoringMode, b, depth % 2 == Bit(color)), rng)
    else
      var t := TurnsAt(b, color, x, y, rng);
      RecFound(cfg, b, color, depth, alpha, beta, x, t.moves, t.haveBeats, t.rng)
  }

  /** find_best_turns_rec once its moves are found: a pinned piece that can
      capture no more passes the turn one level deeper, a position without
      moves scores 0 at odd depth and INF at even depth, anything else runs
      the loop over the moves. */
  function RecFound(cfg: Config, b: Matrix, color: bool, depth: nat, alpha: real, beta: real, x: int,
                    moves: seq<Move>, hb: bool, rng: nat): Scored
    requires ValidBoard(b) && depth < cfg.maxDepth && MovesOk(b, moves, hb)
    decreases cfg.maxDepth - depth, PieceCount(b), 1, 0
  {
    if !hb && x != -1 then RecScore(cfg, b, !color, depth + 1, alpha, beta, -1, -1, rng)
    else if |moves| == 0 then Scored(if depth % 2 == 1 then 0.0 else INF, rng)
    else LoopScore(cfg, b, color, depth, alpha, beta, x, moves, hb, 0, INF + 1.0, -1.0, rng)
  }

  /** The rest of the loop of find_best_turns_rec over moves[i..], with the
      running alpha, beta, min_score and max_score. */
  function LoopScore(cfg: Config, b: Matrix, color: bool, depth: nat, alpha: real, beta: real, x: int,
                     moves: seq<Move>, hb: bool, i: nat, minS: real, maxS: real, rng: nat): Scored
    requires ValidBoard(b) && depth < cfg.maxDepth
    requires MovesOk(b, moves, hb) && i <= |moves| && (x != -1 ==> hb)
    decreases cfg.maxDepth - depth, PieceCount(b), 0, |moves| - i
  {
    if i == |moves| then Scored(if depth % 2 == 1 then maxS else minS, rng)
    else
      var c := ChildScore(cfg, b, color, depth, alpha, beta, x, moves[i], hb, rng);
      var minS', maxS' := Min(minS, c.score), Max(maxS, c.score);
      var alpha' := if depth % 2 == 1 then Max(alpha, maxS') else alpha;
      var beta' := if depth % 2 == 1 then beta else Min(beta, minS');
      if cfg.optimization != "O0" && alpha' >= beta' then
        Scored(if depth % 2 == 1 then maxS' + 1.0 else minS' - 1.0, c.rng)
      else LoopScore(cfg, b, color, depth, alpha', beta', x, moves, hb, i + 1, minS', maxS', c.rng)
  }

  /** The score after move m: a plain move from a free position passes the
      turn one level deeper; otherwise (a capture) the search goes on at the
      same depth with the capturing piece pinned on its landing cell. */
  function ChildScore(cfg: Config, b: Matrix, color: bool, depth: nat, alpha: real, beta: real, x: int,
                      m: Move, hb: bool, rng: nat): Scored
    requires ValidBoard(b) && depth < cfg.maxDepth
    requires Legal(b, m) && IsCapture(m) == hb && (x != -1 ==> hb)
    decreases cfg.maxDepth - depth, PieceCount(b), 0, 0
  {
    CaptureShrinks(b, m);
    if !hb && x == -1 then RecScore(cfg, MakeTurn(b, m), !color, depth + 1, alpha, beta, -1, -1, rng)
    else RecScore(cfg, MakeTurn(b, m), color, depth, alpha, beta, m.x2, m.y2, rng)
  }

  /** One iteration of the loop of find_best_turns_rec, unfolded. */
  lemma LoopScoreAt(cfg: Config, b: Matrix, color: bool, depth: nat, alpha: real, beta: real, x: int,
                    moves: seq<Move>, hb: bool, i: nat, minS: real, maxS: real, rng: nat)
    requires ValidBoard(b) && depth < cfg.maxDepth
    requires MovesOk(b, moves, hb) && i < |moves| && (x != -1 ==> hb)
    ensures var c := ChildScore(cfg, b, color, depth, alpha, beta, x, moves[i], hb, rng);
            var minS', maxS' := Min(minS, c.score), Max(maxS, c.score);
            var alpha' := if depth % 2 == 1 then Max(alpha, maxS') else alpha;
            var beta' := if depth % 2 == 1 then beta else Min(beta, minS');
            LoopScore(cfg, b, color, depth, alpha, beta, x, moves, hb, i, minS, maxS, rng)
            == if cfg.optimization != "O0" && alpha' >= beta' then
                 Scored(if depth % 2 == 1 then maxS' + 1.0 else minS' - 1.0, c.rng)
               else LoopScore(cfg, b, color, depth, alpha', beta', x, moves, hb, i + 1, minS', maxS', c.rng)
  {
  }

  /** Without pruning ("O0") the loop never stops early: each iteration
      folds the child's score into min_score / max_score, moves the window,
      and goes on with the next move. */
  lemma LoopScoreStep(cfg: Config, b: Matrix, color: bool, depth: nat, alpha: real, beta: real, x: int,
                      moves: seq<Move>, hb: bool, i: nat, minS: real, maxS: real, rng: nat)
    requires ValidBoard(b) && depth < cfg.maxDepth && cfg.optimization == "O0"
    requires MovesOk(b, moves, hb) && i < |moves| && (x != -1 ==> hb)
    ensures var c := ChildScore(cfg, b, color, depth, alpha, beta, x, moves[i], hb, rng);
            var minS', maxS' := Min(minS, c.score), Max(maxS, c.score);
            LoopScore(cfg, b, color, depth, alpha, beta, x, moves, hb, i, minS, maxS, rng)
            == LoopScore(cfg, b, color, depth,
                         if depth % 2 == 1 then Max(alpha, maxS') else alpha,
                         if depth % 2 == 1 then beta else Min(beta, minS'),
                         x, moves, hb, i + 1, minS', maxS', c.rng)
  {
  }

  // ---------------------------------------------------------------------
  // find_first_best_turn and find_best_turns
  // ---------------------------------------------------------------------

  /** The placeholder find_first_best_turn pushes onto next_move. */
  const NoMove: Move := PlainMove(-1, -1, -1, -1)

  /** The result of find_first_best_turn: its score and the scratch vectors
      next_move / next_best_state and random state it leaves. */
  datatype Line = Line(score: real, nextMove: seq<Move>, nextBestState: seq<int>, rng: nat)

  /** find_first_best_turn(mtx, color, x, y, state, alpha), entered with the
      vectors nm / nbs of length state. At the root (state 0) it searches the
      list `turns` / flag `hb` left by an earlier find_turns(color); in a
      capture chain it generates the moves of the piece on (x, y) and, when
      that piece can capture no more, hands over to the opponent. */
  function FirstBest(cfg: Config, b: Matrix, color: bool, x: int, y: int, state: nat, alpha: real,
                     turns: seq<Move>, hb: bool, nm: seq<Move>, nbs: seq<int>, rng: nat): (r: Line)
    requires ValidBoard(b) && state == |nm| == |nbs|
    requires state == 0 ==> MovesOk(b, turns, hb)
    requires state != 0 ==> InBounds(x, y) && b[x][y] != 0
    ensures |r.nextMove| == |r.nextBestState| > state
    ensures r.nextMove[..state] == nm && r.nextBestState[..state] == nbs
    decreases PieceCount(b), 2, 0
  {
    var r :=
      if state != 0 then
        PieceTurnsLegal(b, x, y);
        var t := PieceTurns(b, x, y);
        FirstFound(cfg, b, color, state, alpha, t.moves, t.haveBeats, nm + [NoMove], nbs + [-1], rng)
      else FirstFound(cfg, b, color, state, alpha, turns, hb, nm + [NoMove], nbs + [-1], rng);
    assert (nm + [NoMove])[..state] == nm && (nbs + [-1])[..state] == nbs;
    r
  }

  /** find_first_best_turn once its slot is pushed and its moves are found:
      a chain piece that can capture no more hands over to the opponent's
      search, anything else runs the loop over the moves. */
  function FirstFound(cfg: Config, b: Matrix, color: bool, state: nat, alpha: real,
                      moves: seq<Move>, hb: bool, nm: seq<Move>, nbs: seq<int>, rng: nat): (r: Line)
    requires ValidBoard(b) && MovesOk(b, moves, hb) && state < |nm| == |nbs|
    ensures |r.nextMove| == |r.nextBestState| >= |nm|
    ensures r.nextMove[..state] == nm[..state] && r.nextBestState[..state] == nbs[..state]
    decreases PieceCount(b), 1, 0
  {
    if !hb && state != 0 then
      var s := RecScore(cfg, b, !color, 0, alpha, INF + 1.0, -1, -1, rng);
      Line(s.score, nm, nbs, s.rng)
    else
      FirstLoop(cfg, b, color, state, moves, hb, 0, -1.0, nm, nbs, rng)
  }

  /** The rest of the loop of find_first_best_turn over moves[i..], with the
      best score so far. */
  function FirstLoop(cfg: Config, b: Matrix, color: bool, state: nat, moves: seq<Move>, hb: bool, i: nat,
                     best: real, nm: seq<Move>, nbs: seq<int>, rng: nat): (r: Line)
    requires ValidBoard(b) && MovesOk(b, moves, hb) && i <= |moves|
    requires state < |nm| == |nbs|
    ensures |r.nextMove| == |r.nextBestState| >= |nm|
    ensures r.nextMove[..state] == nm[..state] && r.nextBestState[..state] == nbs[..state]
    decreases PieceCount(b), 0, |moves| - i
  {
    if i == |moves| then Line(best, nm, nbs, rng)
    else
      var m := moves[i];
      var next := |nm|;
      var c := FirstChild(cfg, b, color, m, hb, best, nm, nbs, rng);
      assert c.nextMove[..state] == nm[..state] by {
        assert c.nextMove[..next][..state] == c.nextMove[..state];
      }
      assert c.nextBestState[..state] == nbs[..state] by {
        assert c.nextBestState[..next][..state] == c.nextBestState[..state];
      }
      if c.score > best then
        FirstLoop(cfg, b, color, state, moves, hb, i + 1, c.score,
                  c.nextMove[state := m], c.nextBestState[state := if hb then next else -1], c.rng)
      else
        FirstLoop(cfg, b, color, state, moves, hb, i + 1, best, c.nextMove, c.nextBestState, c.rng)
  }

  /** The score of one root or chain move m: a capture continues the chain
      with the same piece (a new state at the end of the vectors), a plain
      move hands over to the opponent's search. */
  function FirstChild(cfg: Config, b: Matrix, color: bool, m: Move, hb: bool,
                      best: real, nm: seq<Move>, nbs: seq<int>, rng: nat): (c: Line)
    requires ValidBoard(b) && Legal(b, m) && IsCapture(m) == hb
    requires |nm| == |nbs|
    ensures |c.nextMove| == |c.nextBestState| >= |nm|
    ensures c.nextMove[..|nm|] == nm && c.nextBestState[..|nm|] == nbs
    decreases PieceCount(b), 0, 0
  {
    CaptureShrinks(b, m);
    if hb then FirstBest(cfg, MakeTurn(b, m), color, m.x2, m.y2, |nm|, best, [], false, nm, nbs, rng)
    else
      var s := RecScore(cfg, MakeTurn(b, m), !color, 0, best, INF + 1.0, -1, -1, rng);
      Line(s.score, nm, nbs, s.rng)
  }

  /** One iteration of the loop of find_first_best_turn, unfolded. */
  lemma FirstLoopAt(cfg: Config, b: Matrix, color: bool, state: nat, moves: seq<Move>, hb: bool, i: nat,
                    best: real, nm: seq<Move>, nbs: seq<int>, rng: nat)
    requires ValidBoard(b) && MovesOk(b, moves, hb) && i < |moves|
    requires state < |nm| == |nbs|
    ensures var c := FirstChild(cfg, b, color, moves[i], hb, best, nm, nbs, rng);
            FirstLoop(cfg, b, color, state, moves, hb, i, best, nm, nbs, rng)
            == if c.score > best then
                 FirstLoop(cfg, b, color, state, moves, hb, i + 1, c.score,
                           c.nextMove[state := moves[i]], c.nextBestState[state := if hb then |nm| else -1], c.rng)
               else FirstLoop(cfg, b, color, state, moves, hb, i + 1, best, c.nextMove, c.nextBestState, c.rng)
  {
  }

  /** In a capture chain find_first_best_turn generates its own moves, so
      the list left by an earlier find_turns plays no part. */
  lemma FirstBestInChain(cfg: Config, b: Matrix, color: bool, x: int, y: int, state: nat, alpha: real,
                         turns: seq<Move>, hb: bool, nm: seq<Move>, nbs: seq<int>, rng: nat)
    requires ValidBoard(b) && state == |nm| == |nbs| && state != 0 && InBounds(x, y) && b[x][y] != 0
    ensures FirstBest(cfg, b, color, x, y, state, alpha, turns, hb, nm, nbs, rng)
            == FirstBest(cfg, b, color, x, y, state, alpha, [], false, nm, nbs, rng)
  {
  }

  /** next_best_state only points forward, so the walk of find_best_turns
      ends. */
  predicate PointsForward(nbs: seq<int>) {
    forall s :: 0 <= s < |nbs| && nbs[s] != -1 ==> s < nbs[s] < |nbs|
  }

  /** The walk of find_best_turns from state cur: the recorded move of each
      state, following next_best_state, until -1 or a placeholder. */
  function Walk(nm: seq<Move>, nbs: seq<int>, cur: int): seq<Move>
    requires |nm| == |nbs| && PointsForward(nbs) && -1 <= cur < |nm|
    decreases if cur == -1 then 0 else |nm| - cur
  {
    if cur == -1 || nm[cur].x == -1 then [] else [nm[cur]] + Walk(nm, nbs, nbs[cur])
  }

  /** Move c may follow move a in a line: c is a placeholder, or a capture
      that starts where a ended. */
  predicate Continues(a: Move, c: Move) {
    c.x == -1 || (IsCapture(c) && c.x == a.x2 && c.y == a.y2)
  }

  /** The vectors as find_first_best_turn keeps them: every link points
      forward, from a capture to a move that continues it. */
  ghost predicate Linked(nm: seq<Move>, nbs: seq<int>) {
    && |nm| == |nbs| && PointsForward(nbs)
    && forall s :: 0 <= s < |nbs| && nbs[s] != -1 ==> IsCapture(nm[s]) && Continues(nm[s], nm[nbs[s]])
  }

  /** A line of moves: a single move, or captures each starting where the
      previous one ended. */
  predicate IsChain(w: seq<Move>) {
    |w| <= 1
    || (&& IsCapture(w[0]) && IsCapture(w[1]) && w[1].x == w[0].x2 && w[1].y == w[0].y2
        && IsChain(w[1..]))
  }

  /** Walking linked vectors yields a chain, all of captures once it has
      more than one move. */
  lemma {:induction false} WalkIsChain(nm: seq<Move>, nbs: seq<int>, cur: int)
    requires Linked(nm, nbs) && -1 <= cur < |nm|
    ensures var w := Walk(nm, nbs, cur);
            && IsChain(w)
            && (w != [] ==> w[0] == nm[cur])
            && (|w| > 1 ==> forall k :: 0 <= k < |w| ==> IsCapture(w[k]))
            && (cur != -1 && nbs[cur] == -1 ==> |w| <= 1)
    decreases if cur == -1 then 0 else |nm| - cur
  {
    if cur != -1 && nm[cur].x != -1 {
      WalkIsChain(nm, nbs, nbs[cur]);
      var w := Walk(nm, nbs, cur);
      assert w[1..] == Walk(nm, nbs, nbs[cur]);
    }
  }

  /** The slot `state` of the vectors: a placeholder, or a move of the list
      with a link exactly when the list is of captures. */
  ghost predicate SlotOk(nm: seq<Move>, nbs: seq<int>, state: nat, moves: seq<Move>, hb: bool)
    requires state < |nm| == |nbs|
  {
    nm[state].x == -1 || (nm[state] in moves && (hb <==> nbs[state] != -1))
  }

  /** No state before `state` links to it. */
  ghost predicate NoneInto(nbs: seq<int>, state: nat) {
    forall s :: 0 <= s < state && s < |nbs| ==> nbs[s] != state
  }

  /** Recording move m at slot `state`, linked to `next` when it is a capture
      that the move at `next` continues, keeps the vectors linked. */
  lemma RecordLinked(nm: seq<Move>, nbs: seq<int>, state: nat, next: nat, m: Move, hb: bool)
    requires Linked(nm, nbs) && state < |nm| && NoneInto(nbs, state)
    requires hb ==> state < next < |nm| && IsCapture(m) && Continues(m, nm[next])
    ensures Linked(nm[state := m], nbs[state := if hb then next else -1])
  {
    var nm', nbs' := nm[state := m], nbs[state := if hb then next else -1];
    forall s | 0 <= s < |nbs'| && nbs'[s] != -1
      ensures s < nbs'[s] < |nbs'| && IsCapture(nm'[s]) && Continues(nm'[s], nm'[nbs'[s]])
    {
      if s != state {
        assert nbs[s] != state;
      }
    }
  }

  /** The child line of a move keeps the vectors linked; a capture's chain
      records, at the new state, a placeholder or a capture that continues
      it. */
  lemma {:induction false} FirstChildLinked(cfg: Config, b: Matrix, color: bool, m: Move, hb: bool,
                                            best: real, nm: seq<Move>, nbs: seq<int>, rng: nat)
    requires ValidBoard(b) && Legal(b, m) && IsCapture(m) == hb
    requires Linked(nm, nbs)
    ensures var c := FirstChild(cfg, b, color, m, hb, best, nm, nbs, rng);
            && Linked(c.nextMove, c.nextBestState)
            && (hb ==> |c.nextMove| > |nm| && Continues(m, c.nextMove[|nm|]))
    decreases PieceCount(b), 0, 0
  {
    CaptureShrinks(b, m);
    if hb {
      FirstBestLinked(cfg, MakeTurn(b, m), color, m.x2, m.y2, |nm|, best, [], false, nm, nbs, rng);
    }
  }

  /** find_first_best_turn keeps the vectors linked; in a capture chain the
      move it records at its own state is a capture of the piece on (x, y),
      and at the root it is one of `turns`. */
  lemma {:induction false} FirstBestLinked(cfg: Config, b: Matrix, color: bool, x: int, y: int, state: nat, alpha: real,
                                           turns: seq<Move>, hb: bool, nm: seq<Move>, nbs: seq<int>, rng: nat)
    requires ValidBoard(b) && state == |nm| == |nbs|
    requires state == 0 ==> MovesOk(b, turns, hb)
    requires state != 0 ==> InBounds(x, y) && b[x][y] != 0
    requires Linked(nm, nbs)
    ensures var r := FirstBest(cfg, b, color, x, y, state, alpha, turns, hb, nm, nbs, rng);
            && Linked(r.nextMove, r.nextBestState)
            && (state != 0 ==>
                  r.nextMove[state].x == -1
                  || (IsCapture(r.nextMove[state]) && r.nextMove[state].x == x && r.nextMove[state].y == y))
            && (state == 0 ==> SlotOk(r.nextMove, r.nextBestState, 0, turns, hb))
    decreases PieceCount(b), 2, 0
  {
    var nm1, nbs1 := nm + [NoMove], nbs + [-1];
    LinkedPush(nm, nbs);
    if state != 0 {
      PieceTurnsLegal(b, x, y);
      var t := PieceTurns(b, x, y);
      FirstFoundLinked(cfg, b, color, state, alpha, t.moves, t.haveBeats, nm1, nbs1, rng);
      var r := FirstBest(cfg, b, color, x, y, state, alpha, turns, hb, nm, nbs, rng);
      if r.nextMove[state].x != -1 {
        assert r.nextMove[state] in t.moves;
      }
    } else {
      FirstFoundLinked(cfg, b, color, state, alpha, turns, hb, nm1, nbs1, rng);
    }
  }

  /** Pushing a placeholder slot keeps the vectors linked, and nothing links
      into the new slot. */
  lemma LinkedPush(nm: seq<Move>, nbs: seq<int>)
    requires Linked(nm, nbs)
    ensures Linked(nm + [NoMove], nbs + [-1]) && NoneInto(nbs + [-1], |nm|)
  {
    var nm1, nbs1 := nm + [NoMove], nbs + [-1];
    forall s | 0 <= s < |nbs1| && nbs1[s] != -1
      ensures s < nbs1[s] < |nbs1| && IsCapture(nm1[s]) && Continues(nm1[s], nm1[nbs1[s]])
    {
      assert s < |nbs| && nbs1[s] == nbs[s] && nm1[s] == nm[s] && nm1[nbs1[s]] == nm[nbs[s]];
    }
  }

  /** Growing the vectors past slot `state` leaves that slot as it was and
      nothing before it links into it. */
  lemma SlotKept(nm: seq<Move>, nbs: seq<int>, nm': seq<Move>, nbs': seq<int>, state: nat, moves: seq<Move>, hb: bool)
    requires state < |nm| == |nbs| && |nm| <= |nm'| == |nbs'|
    requires nm'[..|nm|] == nm && nbs'[..|nm|] == nbs
    requires SlotOk(nm, nbs, state, moves, hb) && NoneInto(nbs, state)
    ensures SlotOk(nm', nbs', state, moves, hb) && NoneInto(nbs', state)
  {
    var next := |nm|;
    assert nm'[state] == nm'[..next][state];
    assert nbs'[state] == nbs'[..next][state];
    forall s | 0 <= s < state ensures nbs'[s] != state {
      assert nbs'[s] == nbs'[..next][s];
    }
  }

  /** FirstFound keeps the vectors linked; its slot holds a move of the
      list, or stays a placeholder when a chain piece can capture no more. */
  lemma {:induction false} FirstFoundLinked(cfg: Config, b: Matrix, color: bool, state: nat, alpha: real,
                                            moves: seq<Move>, hb: bool, nm: seq<Move>, nbs: seq<int>, rng: nat)
    requires ValidBoard(b) && MovesOk(b, moves, hb) && state < |nm| == |nbs|
    requires Linked(nm, nbs) && nm[state] == NoMove && NoneInto(nbs, state)
    ensures var r := FirstFound(cfg, b, color, state, alpha, moves, hb, nm, nbs, rng);
            && Linked(r.nextMove, r.nextBestState) && SlotOk(r.nextMove, r.nextBestState, state, moves, hb)
            && (state != 0 && !hb ==> r.nextMove[state].x == -1)
    decreases PieceCount(b), 1, 0
  {
    if hb || state == 0 {
      FirstLoopLinked(cfg, b, color, state, moves, hb, 0, -1.0, nm, nbs, rng);
    }
  }


  lemma {:induction false} FirstLoopLinked(cfg: Config, b: Matrix, color: bool, state: nat, moves: seq<Move>, hb: bool, i: nat,
                                           best: real, nm: seq<Move>, nbs: seq<int>, rng: nat)
    requires ValidBoard(b) && MovesOk(b, moves, hb) && i <= |moves|
    requires state < |nm| == |nbs|
    requires Linked(nm, nbs) && SlotOk(nm, nbs, state, moves, hb) && NoneInto(nbs, state)
    ensures var r := FirstLoop(cfg, b, color, state, moves, hb, i, best, nm, nbs, rng);
            Linked(r.nextMove, r.nextBestState) && SlotOk(r.nextMove, r.nextBestState, state, moves, hb)
    decreases PieceCount(b), 0, |moves| - i
  {
    if i < |moves| {
      var m := moves[i];
      var next := |nm|;
      var c := FirstChild(cfg, b, color, m, hb, best, nm, nbs, rng);
      FirstChildLinked(cfg, b, color, m, hb, best, nm, nbs, rng);
      SlotKept(nm, nbs, c.nextMove, c.nextBestState, state, moves, hb);
      FirstLoopAt(cfg, b, color, state, moves, hb, i, best, nm, nbs, rng);
      if c.score > best {
        RecordLinked(c.nextMove, c.nextBestState, state, next, m, hb);
        FirstLoopLinked(cfg, b, color, state, moves, hb, i + 1, c.score,
                        c.nextMove[state := m], c.nextBestState[state := if hb then next else -1], c.rng);
      } else {
        FirstLoopLinked(cfg, b, color, state, moves, hb, i + 1, best, c.nextMove, c.nextBestState, c.rng);
      }
    }
  }

  /** The line find_best_turns rebuilds from the root search: empty, or
      starting with one of the root moves; a single move when the root moves
      are plain; a chain of captures, each starting where the previous one
      ended, when they are captures. */
  lemma BestLineShape(cfg: Config, b: Matrix, color: bool, turns: seq<Move>, hb: bool, rng: nat)
    requires ValidBoard(b) && MovesOk(b, turns, hb)
    ensures var r := FirstBest(cfg, b, color, -1, -1, 0, -1.0, turns, hb, [], [], rng);
            && Linked(r.nextMove, r.nextBestState)
            && var w := Walk(r.nextMove, r.nextBestState, 0);
               && (w == [] || w[0] in turns)
               && (!hb ==> |w| <= 1)
               && (hb ==> forall k :: 0 <= k < |w| ==> IsCapture(w[k]))
               && IsChain(w)
  {
    var r := FirstBest(cfg, b, color, -1, -1, 0, -1.0, turns, hb, [], [], rng);
    FirstBestLinked(cfg, b, color, -1, -1, 0, -1.0, turns, hb, [], [], rng);
    WalkIsChain(r.nextMove, r.nextBestState, 0);
  }
}
