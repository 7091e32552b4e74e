/** What find_first_best_turn computes, without pruning ("O0"): at every
    state the score is the greatest value of the moves there, and the move
    recorded is the first one with that value. The values come from the
    minimax reference of module Minimax, so the line find_best_turns
    rebuilds starts with a best root move. */
module BestLine {
  import opened Moves
  import opened Matrices
  import opened Rules
  import opened MoveShapes
  import opened Search
  import opened Minimax

  /** The value for the bot of a capture chain continued by the piece on
      (x, y): the best of its captures, or, when it can capture no more, the
      minimax value of the opponent's turn. */
  function ChainValue(cfg: Config, b: Matrix, color: bool, x: int, y: int): (v: real)
    requires ValidBoard(b) && InBounds(x, y) && b[x][y] != 0
    ensures 0.0 <= v <= INF
    decreases PieceCount(b), 1, 0
  {
    PieceTurnsLegal(b, x, y);
    PieceTurnsExactly(b, x, y);
    var t := PieceTurns(b, x, y);
    if !t.haveBeats then Value(cfg, b, !color, 0, -1, -1)
    else
      var vs := MoveValues(cfg, b, color, t.moves, true);
      BestWithin(true, vs, 0, 0.0, INF);
      Best(true, vs, 0)
  }

  /** The value for the bot of a root or chain move m: a capture continues
      the chain with the moved piece, a plain move hands the turn over. */
  function MoveValue(cfg: Config, b: Matrix, color: bool, m: Move, hb: bool): (v: real)
    requires ValidBoard(b) && Legal(b, m) && IsCapture(m) == hb
    ensures 0.0 <= v <= INF
    decreases PieceCount(b), 0, 0
  {
    CaptureShrinks(b, m);
    if hb then ChainValue(cfg, MakeTurn(b, m), color, m.x2, m.y2)
    else Value(cfg, MakeTurn(b, m), !color, 0, -1, -1)
  }

  /** The values of the moves, in list order. */
  function MoveValues(cfg: Config, b: Matrix, color: bool, moves: seq<Move>, hb: bool): (vs: seq<real>)
    requires ValidBoard(b) && MovesOk(b, moves, hb)
    ensures |vs| == |moves|
    ensures forall k :: 0 <= k < |vs| ==> 0.0 <= vs[k] <= INF
    decreases PieceCount(b), 0, 1
  {
    seq(|moves|, k requires 0 <= k < |moves| => MoveValue(cfg, b, color, moves[k], hb))
  }

  lemma MoveValuesAt(cfg: Config, b: Matrix, color: bool, moves: seq<Move>, hb: bool, i: nat)
    requires ValidBoard(b) && MovesOk(b, moves, hb) && i < |moves|
    ensures MoveValues(cfg, b, color, moves, hb)[i] == MoveValue(cfg, b, color, moves[i], hb)
  {
  }

  /** k is the first index of a greatest value of vs. */
  predicate FirstMax(vs: seq<real>, k: int) {
    && 0 <= k < |vs|
    && (forall j :: 0 <= j < |vs| ==> vs[j] <= vs[k])
    && (forall j :: 0 <= j < k ==> vs[j] < vs[k])
  }

  /** Without pruning, the score find_first_best_turn gives one move is the
      move's value, whatever the bound and the vectors it is given. */
  lemma {:induction false} FirstChildValue(cfg: Config, b: Matrix, color: bool, m: Move, hb: bool,
                                           best: real, nm: seq<Move>, nbs: seq<int>, rng: nat)
    requires ValidBoard(b) && Legal(b, m) && IsCapture(m) == hb && cfg.optimization == "O0"
    requires 0 < |nm| == |nbs|
    ensures FirstChild(cfg, b, color, m, hb, best, nm, nbs, rng).score == MoveValue(cfg, b, color, m, hb)
    decreases PieceCount(b), 0, 0
  {
    CaptureShrinks(b, m);
    if hb {
      FirstBestValue(cfg, MakeTurn(b, m), color, m.x2, m.y2, |nm|, best, [], false, nm, nbs, rng);
    } else {
      SearchIsMinimax(cfg, MakeTurn(b, m), !color, 0, best, INF + 1.0, -1, -1, rng);
    }
  }

  /** Without pruning, find_first_best_turn inside a capture chain scores
      the chain's value. */
  lemma {:induction false} FirstBestValue(cfg: Config, b: Matrix, color: bool, x: int, y: int, state: nat, alpha: real,
                                          turns: seq<Move>, hb: bool, nm: seq<Move>, nbs: seq<int>, rng: nat)
    requires ValidBoard(b) && state == |nm| == |nbs| && state != 0 && InBounds(x, y) && b[x][y] != 0
    requires cfg.optimization == "O0"
    ensures FirstBest(cfg, b, color, x, y, state, alpha, turns, hb, nm, nbs, rng).score == ChainValue(cfg, b, color, x, y)
    decreases PieceCount(b), 2, 0
  {
    PieceTurnsLegal(b, x, y);
    PieceTurnsExactly(b, x, y);
    var t := PieceTurns(b, x, y);
    var nm1, nbs1 := nm + [NoMove], nbs + [-1];
    assert FirstBest(cfg, b, color, x, y, state, alpha, turns, hb, nm, nbs, rng)
        == FirstFound(cfg, b, color, state, alpha, t.moves, t.haveBeats, nm1, nbs1, rng);
    if t.haveBeats {
      FirstLoopBest(cfg, b, color, state, t.moves, t.haveBeats, nm1, nbs1, rng);
    } else {
      SearchIsMinimax(cfg, b, !color, 0, alpha, INF + 1.0, -1, -1, rng);
    }
  }

  /** What the loop of find_first_best_turn leaves after scanning moves[i..]
      with best score `best` so far, as values vs: the score is at least
      `best` and at least every value of vs[i..]. Either nothing beats
      `best`, the score is `best` and the slot still holds `before`; or the
      slot holds a move of moves[i..] whose value is the score, beats
      `best`, and is strictly greater than the values before it. */
  predicate LoopOutcome(vs: seq<real>, moves: seq<Move>, i: int, best: real, score: real, slot: Move, before: Move)
    requires |vs| == |moves| && 0 <= i <= |moves|
  {
    && best <= score
    && (forall j :: i <= j < |vs| ==> vs[j] <= score)
    && ((score == best && slot == before)
        || exists k :: i <= k < |vs| && slot == moves[k] && vs[k] == score > best
                       && forall j :: i <= j < k ==> vs[j] < score)
  }

  /** One move of the loop: a value that beats `best` becomes the new best
      and its move the slot's content; any other value changes nothing. */
  lemma OutcomeStep(vs: seq<real>, moves: seq<Move>, i: int, best: real, score: real, slot: Move, before: Move)
    requires |vs| == |moves| && 0 <= i < |moves|
    requires vs[i] > best ==> LoopOutcome(vs, moves, i + 1, vs[i], score, slot, moves[i])
    requires vs[i] <= best ==> LoopOutcome(vs, moves, i + 1, best, score, slot, before)
    ensures LoopOutcome(vs, moves, i, best, score, slot, before)
  {
    if vs[i] > best && score == vs[i] && slot == moves[i] {
      assert i <= i < |vs| && slot == moves[i] && vs[i] == score > best;
    }
  }

  /** The loop of find_first_best_turn on values alone: the best score so
      far and the move in the slot, updated only by a strictly greater value. */
  datatype Picked = Picked(score: real, slot: Move)

  function Pick(vs: seq<real>, moves: seq<Move>, i: nat, best: real, before: Move): (p: Picked)
    requires |vs| == |moves| && i <= |moves|
    ensures best <= p.score
    decreases |moves| - i
  {
    if i == |moves| then Picked(best, before)
    else if vs[i] > best then Pick(vs, moves, i + 1, vs[i], moves[i])
    else Pick(vs, moves, i + 1, best, before)
  }

  /** The strict update from index i ends as LoopOutcome says. */
  lemma {:induction false} PickOutcome(vs: seq<real>, moves: seq<Move>, i: nat, best: real, before: Move)
    requires |vs| == |moves| && i <= |moves|
    ensures var p := Pick(vs, moves, i, best, before);
            LoopOutcome(vs, moves, i, best, p.score, p.slot, before)
    decreases |moves| - i
  {
    if i < |moves| {
      var p := Pick(vs, moves, i, best, before);
      if vs[i] > best {
        PickOutcome(vs, moves, i + 1, vs[i], moves[i]);
      } else {
        PickOutcome(vs, moves, i + 1, best, before);
      }
      OutcomeStep(vs, moves, i, best, p.score, p.slot, before);
    }
  }

  /** Without pruning, the loop of find_first_best_turn from moves[i] is Pick
      over the move values, its slot being slot `state`. */
  lemma {:induction false} FirstLoopPick(cfg: Config, b: Matrix, color: bool, state: nat, moves: seq<Move>, hb: bool,
                                         i: nat, best: real, nm: seq<Move>, nbs: seq<int>, rng: nat)
    requires ValidBoard(b) && MovesOk(b, moves, hb) && i <= |moves| && state < |nm| == |nbs|
    requires cfg.optimization == "O0"
    ensures var r := FirstLoop(cfg, b, color, state, moves, hb, i, best, nm, nbs, rng);
            var p := Pick(MoveValues(cfg, b, color, moves, hb), moves, i, best, nm[state]);
            r.score == p.score && r.nextMove[state] == p.slot
    decreases PieceCount(b), 0, |moves| - i
  {
    if i < |moves| {
      var vs := MoveValues(cfg, b, color, moves, hb);
      var m := moves[i];
      var c := FirstChild(cfg, b, color, m, hb, best, nm, nbs, rng);
      var r := FirstLoop(cfg, b, color, state, moves, hb, i, best, nm, nbs, rng);
      FirstLoopAt(cfg, b, color, state, moves, hb, i, best, nm, nbs, rng);
      FirstChildValue(cfg, b, color, m, hb, best, nm, nbs, rng);
      MoveValuesAt(cfg, b, color, moves, hb, i);
      assert c.nextMove[state] == nm[state] by {
        assert c.nextMove[..|nm|][state] == c.nextMove[state];
      }
      if c.score > best {
        var nm', nbs' := c.nextMove[state := m], c.nextBestState[state := if hb then |nm| else -1];
        assert r == FirstLoop(cfg, b, color, state, moves, hb, i + 1, c.score, nm', nbs', c.rng);
        FirstLoopPick(cfg, b, color, state, moves, hb, i + 1, c.score, nm', nbs', c.rng);
        assert Pick(vs, moves, i, best, nm[state]) == Pick(vs, moves, i + 1, vs[i], m);
      } else {
        assert r == FirstLoop(cfg, b, color, state, moves, hb, i + 1, best, c.nextMove, c.nextBestState, c.rng);
        FirstLoopPick(cfg, b, color, state, moves, hb, i + 1, best, c.nextMove, c.nextBestState, c.rng);
        assert Pick(vs, moves, i, best, nm[state]) == Pick(vs, moves, i + 1, best, nm[state]);
      }
    }
  }

  /** The loop of find_first_best_turn from moves[i] with best score `best`
      so far, without pruning, ends as LoopOutcome says, the slot being
      slot `state` and its content before the loop nm[state]. */
  lemma FirstLoopValue(cfg: Config, b: Matrix, color: bool, state: nat, moves: seq<Move>, hb: bool,
                       i: nat, best: real, nm: seq<Move>, nbs: seq<int>, rng: nat)
    requires ValidBoard(b) && MovesOk(b, moves, hb) && i <= |moves| && state < |nm| == |nbs|
    requires cfg.optimization == "O0"
    ensures var r := FirstLoop(cfg, b, color, state, moves, hb, i, best, nm, nbs, rng);
            LoopOutcome(MoveValues(cfg, b, color, moves, hb), moves, i, best, r.score, r.nextMove[state], nm[state])
    decreases PieceCount(b), 0, |moves| - i + 1
  {
    FirstLoopPick(cfg, b, color, state, moves, hb, i, best, nm, nbs, rng);
    PickOutcome(MoveValues(cfg, b, color, moves, hb), moves, i, best, nm[state]);
  }

  /** The whole loop of find_first_best_turn over a non-empty list, without
      pruning: the score is the greatest value, and slot `state` holds the
      first move with that value. */
  lemma {:induction false} FirstLoopBest(cfg: Config, b: Matrix, color: bool, state: nat, moves: seq<Move>, hb: bool,
                      nm: seq<Move>, nbs: seq<int>, rng: nat)
    requires ValidBoard(b) && MovesOk(b, moves, hb) && state < |nm| == |nbs|
    requires cfg.optimization == "O0" && moves != []
    ensures var r := FirstLoop(cfg, b, color, state, moves, hb, 0, -1.0, nm, nbs, rng);
            var vs := MoveValues(cfg, b, color, moves, hb);
            && r.score == Best(true, vs, 0)
            && exists k :: FirstMax(vs, k) && r.nextMove[state] == moves[k]
    decreases PieceCount(b), 1, 0
  {
    var r := FirstLoop(cfg, b, color, state, moves, hb, 0, -1.0, nm, nbs, rng);
    var vs := MoveValues(cfg, b, color, moves, hb);
    FirstLoopValue(cfg, b, color, state, moves, hb, 0, -1.0, nm, nbs, rng);
    assert 0.0 <= vs[0] <= r.score;
    var k :| 0 <= k < |moves| && r.nextMove[state] == moves[k] && vs[k] == r.score
             && forall j :: 0 <= j < k ==> vs[j] < r.score;
    assert FirstMax(vs, k);
    var a := BestAttained(true, vs, 0);
    BestBounds(true, vs, 0, k);
  }

  /** find_first_best_turn at the root, without pruning: with no moves in
      `turns` the score is -1 and the line rebuilt from state 0 is empty;
      otherwise the score is the greatest value of the moves, and the line
      starts with the first move of `turns` that has it. */
  lemma RootBestMove(cfg: Config, b: Matrix, color: bool, turns: seq<Move>, hb: bool, rng: nat)
    requires ValidBoard(b) && MovesOk(b, turns, hb) && cfg.optimization == "O0"
    ensures var r := FirstBest(cfg, b, color, -1, -1, 0, -1.0, turns, hb, [], [], rng);
            && Linked(r.nextMove, r.nextBestState)
            && var w := Walk(r.nextMove, r.nextBestState, 0);
               && (turns == [] ==> r.score == -1.0 && w == [])
               && (turns != [] ==>
                     && r.score == Best(true, MoveValues(cfg, b, color, turns, hb), 0)
                     && exists k :: FirstMax(MoveValues(cfg, b, color, turns, hb), k) && w != [] && w[0] == turns[k])
  {
    var r := FirstBest(cfg, b, color, -1, -1, 0, -1.0, turns, hb, [], [], rng);
    BestLineShape(cfg, b, color, turns, hb, rng);
    assert r == FirstLoop(cfg, b, color, 0, turns, hb, 0, -1.0, [NoMove], [-1], rng);
    if turns != [] {
      FirstLoopBest(cfg, b, color, 0, turns, hb, [NoMove], [-1], rng);
      var k :| FirstMax(MoveValues(cfg, b, color, turns, hb), k) && r.nextMove[0] == turns[k];
      assert Legal(b, turns[k]);
    }
  }
}
