/** A reference for find_best_turns_rec: the plain minimax value of a
    position, over the unshuffled move lists, with no alpha-beta bounds and
    no random state. Without pruning ("O0") the search computes exactly this
    value, whatever order the shuffle put the moves in. */
module Minimax {
  import opened Moves
  import opened Matrices
  import opened Rules
  import opened MoveShapes
  import opened SideRules
  import opened Search

  /** The moves searched from a position: the pinned piece's when x != -1,
      otherwise the side's, in scan order. */
  function Options(b: Matrix, color: bool, x: int, y: int): (t: Turns)
    requires ValidBoard(b) && (x != -1 ==> InBounds(x, y) && b[x][y] != 0)
    ensures MovesOk(b, t.moves, t.haveBeats)
  {
    if x != -1 then
      PieceTurnsLegal(b, x, y);
      PieceTurns(b, x, y)
    else
      SideScanOk(b, color);
      SideScan(b, color, 64)
  }

  /** The minimax value: calc_score at Max_depth, 0 (odd depth) or INF (even
      depth) for a side without moves, otherwise the best child value for
      the side to move. A pinned piece that cannot capture any more passes
      the turn. */
  function Value(cfg: Config, b: Matrix, color: bool, depth: nat, x: int, y: int): (v: real)
    requires ValidBoard(b) && depth <= cfg.maxDepth
    requires x != -1 ==> InBounds(x, y) && b[x][y] != 0
    ensures 0.0 <= v <= INF
    decreases cfg.maxDepth - depth, PieceCount(b), 1, 0
  {
    if depth == cfg.maxDepth then CalcScore(cfg.scoringMode, b, depth % 2 == Bit(color))
    else
      var t := Options(b, color, x, y);
      if !t.haveBeats && x != -1 then Value(cfg, b, !color, depth + 1, -1, -1)
      else if |t.moves| == 0 then (if depth % 2 == 1 then 0.0 else INF)
      else
        var vs := Values(cfg, b, color, depth, x, t.moves, t.haveBeats);
        BestWithin(depth % 2 == 1, vs, 0, 0.0, INF);
        Best(depth % 2 == 1, vs, 0)
  }

  /** The value after move m: one level deeper for the opponent after a
      plain move, the same level with the moved piece pinned after a
      capture. */
  function ChildValue(cfg: Config, b: Matrix, color: bool, depth: nat, x: int, m: Move, hb: bool): (v: real)
    requires ValidBoard(b) && depth < cfg.maxDepth
    requires Legal(b, m) && IsCapture(m) == hb && (x != -1 ==> hb)
    ensures 0.0 <= v <= INF
    decreases cfg.maxDepth - depth, PieceCount(b), 0, 0
  {
    CaptureShrinks(b, m);
    if !hb && x == -1 then Value(cfg, MakeTurn(b, m), !color, depth + 1, -1, -1)
    else Value(cfg, MakeTurn(b, m), color, depth, m.x2, m.y2)
  }

  /** The values of the moves, in list order. */
  function Values(cfg: Config, b: Matrix, color: bool, depth: nat, x: int, moves: seq<Move>, hb: bool): (vs: seq<real>)
    requires ValidBoard(b) && depth < cfg.maxDepth
    requires MovesOk(b, moves, hb) && (x != -1 ==> hb)
    ensures |vs| == |moves|
    decreases cfg.maxDepth - depth, PieceCount(b), 0, 1
  {
    seq(|moves|, k requires 0 <= k < |moves| => ChildValue(cfg, b, color, depth, x, moves[k], hb))
  }

  lemma ValuesAt(cfg: Config, b: Matrix, color: bool, depth: nat, x: int, moves: seq<Move>, hb: bool, i: nat)
    requires ValidBoard(b) && depth < cfg.maxDepth
    requires MovesOk(b, moves, hb) && (x != -1 ==> hb) && i < |moves|
    ensures Values(cfg, b, color, depth, x, moves, hb)[i] == ChildValue(cfg, b, color, depth, x, moves[i], hb)
  {
  }

  /** The best of vs[i..] for the side to move: the largest at the bot's
      turn (odd depth), the smallest at the opponent's. */
  function Best(odd: bool, vs: seq<real>, i: nat): real
    requires i < |vs|
    decreases |vs| - i
  {
    if i == |vs| - 1 then vs[i]
    else if odd then Max(vs[i], Best(odd, vs, i + 1))
    else Min(vs[i], Best(odd, vs, i + 1))
  }

  /** One step of Best: the last value, or the better of vs[i] and the rest. */
  lemma BestStep(odd: bool, vs: seq<real>, i: nat)
    requires i < |vs|
    ensures i == |vs| - 1 ==> Best(odd, vs, i) == vs[i]
    ensures i < |vs| - 1 && odd ==> Best(odd, vs, i) == Max(vs[i], Best(odd, vs, i + 1))
    ensures i < |vs| - 1 && !odd ==> Best(odd, vs, i) == Min(vs[i], Best(odd, vs, i + 1))
  {
  }

  /** No value of vs[i..] is better for the side to move than Best. */
  lemma {:induction false} BestBounds(odd: bool, vs: seq<real>, i: nat, k: nat)
    requires i <= k < |vs|
    ensures odd ==> vs[k] <= Best(odd, vs, i)
    ensures !odd ==> Best(odd, vs, i) <= vs[k]
    decreases k - i
  {
    if k > i {
      BestBounds(odd, vs, i + 1, k);
    }
  }

  /** Best is attained: it is one of vs[i..]. */
  lemma {:induction false} BestAttained(odd: bool, vs: seq<real>, i: nat) returns (k: nat)
    requires i < |vs|
    ensures i <= k < |vs| && Best(odd, vs, i) == vs[k]
    decreases |vs| - i
  {
    k := i;
    if i < |vs| - 1 && Best(odd, vs, i) != vs[i] {
      k := BestAttained(odd, vs, i + 1);
    }
  }

  /** Within the bounds lo and hi whenever all the values are. */
  lemma {:induction false} BestWithin(odd: bool, vs: seq<real>, i: nat, lo: real, hi: real)
    requires i < |vs| && forall k :: i <= k < |vs| ==> lo <= vs[k] <= hi
    ensures lo <= Best(odd, vs, i) <= hi
  {
    var k := BestAttained(odd, vs, i);
  }

  /** The best value does not depend on the order of the moves. */
  lemma BestOrderFree(cfg: Config, b: Matrix, color: bool, depth: nat, x: int,
                      moves: seq<Move>, moves': seq<Move>, hb: bool)
    requires ValidBoard(b) && depth < cfg.maxDepth
    requires MovesOk(b, moves, hb) && (x != -1 ==> hb) && |moves| > 0
    requires multiset(moves') == multiset(moves)
    ensures MovesOk(b, moves', hb) && |moves'| > 0
    ensures Best(depth % 2 == 1, Values(cfg, b, color, depth, x, moves', hb), 0)
         == Best(depth % 2 == 1, Values(cfg, b, color, depth, x, moves, hb), 0)
  {
    forall m | m in moves' ensures m in moves {
      assert m in multiset(moves');
    }
    assert moves[0] in multiset(moves');
    var odd := depth % 2 == 1;
    var vs, vs' := Values(cfg, b, color, depth, x, moves, hb), Values(cfg, b, color, depth, x, moves', hb);
    var k := BestAttained(odd, vs, 0);
    assert moves[k] in multiset(moves');
    var j :| 0 <= j < |moves'| && moves'[j] == moves[k];
    assert vs'[j] == vs[k];
    BestBounds(odd, vs', 0, j);
    var k' := BestAttained(odd, vs', 0);
    assert moves'[k'] in moves;
    var j' :| 0 <= j' < |moves| && moves[j'] == moves'[k'];
    assert vs[j'] == vs'[k'];
    BestBounds(odd, vs, 0, j');
  }

  /** Without pruning, find_best_turns_rec returns the minimax value,
      whatever the window (alpha, beta) and the random state. */
  lemma {:induction false} SearchIsMinimax(cfg: Config, b: Matrix, color: bool, depth: nat, alpha: real, beta: real,
                                           x: int, y: int, rng: nat)
    requires ValidBoard(b) && depth <= cfg.maxDepth && cfg.optimization == "O0"
    requires x != -1 ==> InBounds(x, y) && b[x][y] != 0
    ensures RecScore(cfg, b, color, depth, alpha, beta, x, y, rng).score == Value(cfg, b, color, depth, x, y)
    decreases cfg.maxDepth - depth, PieceCount(b), 2, 0
  {
    if depth < cfg.maxDepth {
      if x != -1 {
        PinnedIsMinimax(cfg, b, color, depth, alpha, beta, x, y, rng);
      } else {
        FreeIsMinimax(cfg, b, color, depth, alpha, beta, rng);
      }
    }
  }

  /** The search with a pinned piece (inside a capture chain). */
  lemma {:induction false} PinnedIsMinimax(cfg: Config, b: Matrix, color: bool, depth: nat, alpha: real, beta: real,
                                           x: int, y: int, rng: nat)
    requires ValidBoard(b) && depth < cfg.maxDepth && cfg.optimization == "O0"
    requires InBounds(x, y) && b[x][y] != 0
    ensures RecScore(cfg, b, color, depth, alpha, beta, x, y, rng).score == Value(cfg, b, color, depth, x, y)
    decreases cfg.maxDepth - depth, PieceCount(b), 1, 0
  {
    var t := TurnsAt(b, color, x, y, rng);
    var o := Options(b, color, x, y);
    assert t.moves == o.moves && t.haveBeats == o.haveBeats && t.rng == rng;
    assert RecScore(cfg, b, color, depth, alpha, beta, x, y, rng)
        == RecFound(cfg, b, color, depth, alpha, beta, x, t.moves, t.haveBeats, rng);
    if !t.haveBeats {
      SearchIsMinimax(cfg, b, !color, depth + 1, alpha, beta, -1, -1, rng);
    } else if |t.moves| != 0 {
      LoopIsBest(cfg, b, color, depth, alpha, beta, x, t.moves, t.haveBeats, 0, INF + 1.0, -1.0, rng);
    }
  }

  /** The search from a free position: the shuffled list of the side. */
  lemma {:induction false} FreeIsMinimax(cfg: Config, b: Matrix, color: bool, depth: nat, alpha: real, beta: real, rng: nat)
    requires ValidBoard(b) && depth < cfg.maxDepth && cfg.optimization == "O0"
    ensures RecScore(cfg, b, color, depth, alpha, beta, -1, -1, rng).score == Value(cfg, b, color, depth, -1, -1)
    decreases cfg.maxDepth - depth, PieceCount(b), 1, 0
  {
    var t := TurnsAt(b, color, -1, -1, rng);
    var o := Options(b, color, -1, -1);
    assert multiset(t.moves) == multiset(o.moves) && t.haveBeats == o.haveBeats;
    if |t.moves| != 0 {
      LoopIsBest(cfg, b, color, depth, alpha, beta, -1, t.moves, t.haveBeats, 0, INF + 1.0, -1.0, t.rng);
      BestOrderFree(cfg, b, color, depth, -1, o.moves, t.moves, o.haveBeats);
    } else {
      assert |o.moves| == |multiset(o.moves)| == |multiset(t.moves)| == 0;
    }
  }

  /** The loop of find_best_turns_rec over moves[i..], without pruning,
      folds the best child value into the running max_score (odd depth) or
      min_score (even depth). */
  lemma {:induction false} LoopIsBest(cfg: Config, b: Matrix, color: bool, depth: nat, alpha: real, beta: real, x: int,
                                         moves: seq<Move>, hb: bool, i: nat, minS: real, maxS: real, rng: nat)
    requires ValidBoard(b) && depth < cfg.maxDepth && cfg.optimization == "O0"
    requires MovesOk(b, moves, hb) && i < |moves| && (x != -1 ==> hb)
    ensures LoopScore(cfg, b, color, depth, alpha, beta, x, moves, hb, i, minS, maxS, rng).score
         == if depth % 2 == 1 then Max(maxS, Best(true, Values(cfg, b, color, depth, x, moves, hb), i))
            else Min(minS, Best(false, Values(cfg, b, color, depth, x, moves, hb), i))
    decreases cfg.maxDepth - depth, PieceCount(b), 0, |moves| - i
  {
    var odd := depth % 2 == 1;
    var c := ChildScore(cfg, b, color, depth, alpha, beta, x, moves[i], hb, rng);
    var minS', maxS' := Min(minS, c.score), Max(maxS, c.score);
    var alpha' := if odd then Max(alpha, maxS') else alpha;
    var beta' := if odd then beta else Min(beta, minS');
    if i + 1 < |moves| {
      LoopIsBest(cfg, b, color, depth, alpha', beta', x, moves, hb, i + 1, minS', maxS', c.rng);
    }
    var vs := Values(cfg, b, color, depth, x, moves, hb);
    ValuesAt(cfg, b, color, depth, x, moves, hb, i);
    ChildIsValue(cfg, b, color, depth, alpha, beta, x, moves[i], hb, rng);
    LoopScoreStep(cfg, b, color, depth, alpha, beta, x, moves, hb, i, minS, maxS, rng);
    BestStep(odd, vs, i);
  }

  /** The score of one move is its minimax value. */
  lemma {:induction false} ChildIsValue(cfg: Config, b: Matrix, color: bool, depth: nat, alpha: real, beta: real, x: int,
                                        m: Move, hb: bool, rng: nat)
    requires ValidBoard(b) && depth < cfg.maxDepth && cfg.optimization == "O0"
    requires Legal(b, m) && IsCapture(m) == hb && (x != -1 ==> hb)
    ensures ChildScore(cfg, b, color, depth, alpha, beta, x, m, hb, rng).score == ChildValue(cfg, b, color, depth, x, m, hb)
    decreases cfg.maxDepth - depth, PieceCount(b), 0, 0
  {
    CaptureShrinks(b, m);
    if !hb && x == -1 {
      SearchIsMinimax(cfg, MakeTurn(b, m), !color, depth + 1, alpha, beta, -1, -1, rng);
    } else {
      SearchIsMinimax(cfg, MakeTurn(b, m), color, depth, alpha, beta, m.x2, m.y2, rng);
    }
  }

  /** Without pruning, every score of the search lies between 0 and INF. */
  lemma SearchScoreBounds(cfg: Config, b: Matrix, color: bool, depth: nat, alpha: real, beta: real,
                          x: int, y: int, rng: nat)
    requires ValidBoard(b) && depth <= cfg.maxDepth && cfg.optimization == "O0"
    requires x != -1 ==> InBounds(x, y) && b[x][y] != 0
    ensures 0.0 <= RecScore(cfg, b, color, depth, alpha, beta, x, y, rng).score <= INF
  {
    SearchIsMinimax(cfg, b, color, depth, alpha, beta, x, y, rng);
  }
}
