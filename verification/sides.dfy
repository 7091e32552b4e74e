/** The side-level find_turns (Logic::find_turns(color, mtx)): the scan of
    the whole board that enforces mandatory capture, followed by the shuffle
    of the resulting list. */
module SideRules {
  import opened Moves
  import opened Matrices
  import opened Rules
  import opened MoveShapes

  /** The integer a colour takes in `mtx[i][j] % 2 != color`. */
  function Bit(color: bool): int {
    if color then 1 else 0
  }

  /** The piece on (i, j) belongs to the side that `color` moves: colour false
      moves the odd pieces (1, 3), colour true the even ones (2, 4). */
  predicate Own(b: Matrix, color: bool, i: int, j: int)
    requires ValidBoard(b) && InBounds(i, j)
  {
    b[i][j] != 0 && b[i][j] % 2 != Bit(color)
  }

  /** One iteration of the scan over a cell whose piece belongs to the side
      (own) and has the moves t, given the list and the have_beats_before flag
      accumulated so far: the first capturing piece discards the plain moves
      gathered before it, and after it only capturing pieces contribute. */
  function ScanCell(own: bool, t: Turns, acc: Turns): Turns {
    if own then
      var res := if t.haveBeats && !acc.haveBeats then [] else acc.moves;
      var before := acc.haveBeats || t.haveBeats;
      if (before && t.haveBeats) || !before then Turns(res + t.moves, before) else Turns(res, before)
    else acc
  }

  /** The scan over the first n cells, given per cell whether it holds a
      piece of the side and that piece's find_turns result. */
  function ScanFrom(owns: seq<bool>, cells: seq<Turns>, n: int): Turns
    requires 0 <= n <= |owns| && n <= |cells|
  {
    if n == 0 then Turns([], false) else ScanCell(owns[n - 1], cells[n - 1], ScanFrom(owns, cells, n - 1))
  }

  /** Per cell, in row-major order: does it hold a piece of the side? */
  function OwnTable(b: Matrix, color: bool): (t: seq<bool>)
    requires ValidBoard(b)
    ensures |t| == 64 && forall p :: 0 <= p < 64 ==> t[p] == Own(b, color, p / 8, p % 8)
  {
    seq(64, p requires 0 <= p < 64 => Own(b, color, p / 8, p % 8))
  }

  /** Per cell, in row-major order: the per-piece find_turns of that cell. */
  function PieceTable(b: Matrix): (t: seq<Turns>)
    requires ValidBoard(b)
    ensures |t| == 64 && forall p :: 0 <= p < 64 ==> t[p] == PieceTurns(b, p / 8, p % 8)
  {
    seq(64, p requires 0 <= p < 64 => PieceTurns(b, p / 8, p % 8))
  }

  /** The list and flag after the scan has visited the first n cells. */
  function SideScan(b: Matrix, color: bool, n: int): Turns
    requires ValidBoard(b) && 0 <= n <= 64
  {
    ScanFrom(OwnTable(b, color), PieceTable(b), n)
  }

  /** One more cell of the scan, cell (i, j) being cell number n. */
  lemma SideScanStep(b: Matrix, color: bool, n: int, i: int, j: int)
    requires ValidBoard(b) && 0 <= n < 64 && InBounds(i, j) && n == 8 * i + j
    ensures SideScan(b, color, n + 1) == ScanCell(Own(b, color, i, j), PieceTurns(b, i, j), SideScan(b, color, n))
  {
    CellNumber(n, i, j);
  }

  /** Every move listed for cell p starts on cell p. */
  ghost predicate Rooted(cells: seq<Turns>)
  {
    forall p, m :: 0 <= p < |cells| && m in cells[p].moves ==> InBounds(m.x, m.y) && 8 * m.x + m.y == p
  }

  /** What the scan holds after n cells: the flag says whether one of them
      holds a capturing piece of the side, and the list holds exactly the
      moves of the side's pieces among them whose own flag equals it. */
  ghost predicate ScanInv(owns: seq<bool>, cells: seq<Turns>, n: int, t: Turns)
    requires 0 <= n <= |owns| && n <= |cells|
  {
    && (t.haveBeats <==> exists p :: 0 <= p < n && owns[p] && cells[p].haveBeats)
    && forall m :: m in t.moves <==>
         (InBounds(m.x, m.y) && 8 * m.x + m.y < n && owns[8 * m.x + m.y]
          && m in cells[8 * m.x + m.y].moves && cells[8 * m.x + m.y].haveBeats == t.haveBeats)
  }

  lemma ScanCellInv(owns: seq<bool>, cells: seq<Turns>, n: int)
    requires 0 < n <= |owns| && n <= |cells| && Rooted(cells)
    requires ScanInv(owns, cells, n - 1, ScanFrom(owns, cells, n - 1))
    ensures ScanInv(owns, cells, n, ScanFrom(owns, cells, n))
  {
    var p := n - 1;
    var prev := ScanFrom(owns, cells, p);
    var r := ScanFrom(owns, cells, n);
    assert r == ScanCell(owns[p], cells[p], prev);
    if owns[p] && cells[p].haveBeats && !prev.haveBeats {
      forall m: Move | InBounds(m.x, m.y) && 8 * m.x + m.y < n && owns[8 * m.x + m.y]
                       && m in cells[8 * m.x + m.y].moves && cells[8 * m.x + m.y].haveBeats
        ensures m in r.moves
      {
      }
    }
  }

  /** The scan over n cells satisfies ScanInv. */
  lemma {:induction false} ScanFromContents(owns: seq<bool>, cells: seq<Turns>, n: int)
    requires 0 <= n <= |owns| && n <= |cells| && Rooted(cells)
    ensures ScanInv(owns, cells, n, ScanFrom(owns, cells, n))
  {
    if n > 0 {
      ScanFromContents(owns, cells, n - 1);
      ScanCellInv(owns, cells, n);
    }
  }

  /** The per-piece table is rooted: each cell's moves start on that cell. */
  lemma PieceTableRooted(b: Matrix)
    requires ValidBoard(b)
    ensures Rooted(PieceTable(b))
  {
    var cells := PieceTable(b);
    forall p, m | 0 <= p < 64 && m in cells[p].moves ensures InBounds(m.x, m.y) && 8 * m.x + m.y == p {
      var i, j := p / 8, p % 8;
      assert cells[p] == PieceTurns(b, i, j);
      PieceTurnsStart(b, i, j);
    }
  }

  /** Mandatory capture, as the rules state it. The side has a capture exactly
      when one of its pieces has a move of capture shape; the list then holds
      exactly the side's capture-shaped moves, and otherwise exactly its
      plain-shaped moves. Every move of it is legal. */
  lemma SideScanRule(b: Matrix, color: bool)
    requires ValidBoard(b)
    ensures SideScan(b, color, 64).haveBeats <==>
              exists i, j, m :: InBounds(i, j) && Own(b, color, i, j) && CaptureShape(b, i, j, m)
    ensures forall m :: m in SideScan(b, color, 64).moves <==>
              && InBounds(m.x, m.y) && Own(b, color, m.x, m.y)
              && (if SideScan(b, color, 64).haveBeats then CaptureShape(b, m.x, m.y, m) else StepShape(b, m.x, m.y, m))
    ensures MovesOk(b, SideScan(b, color, 64).moves, SideScan(b, color, 64).haveBeats)
  {
    var r := SideScan(b, color, 64);
    PieceTableRooted(b);
    ScanFromContents(OwnTable(b, color), PieceTable(b), 64);
    SideFlagRule(b, color);
    forall m: Move ensures m in r.moves <==>
              && InBounds(m.x, m.y) && Own(b, color, m.x, m.y)
              && (if r.haveBeats then CaptureShape(b, m.x, m.y, m) else StepShape(b, m.x, m.y, m))
    {
      if InBounds(m.x, m.y) {
        SideMoveRule(b, color, m);
      }
    }
    forall m: Move | m in r.moves ensures Legal(b, m) && IsCapture(m) == r.haveBeats {
      SideMoveRule(b, color, m);
      PieceTurnsLegal(b, m.x, m.y);
    }
  }

  /** One move of the scan's list, read through the tables. */
  lemma SideMoveRule(b: Matrix, color: bool, m: Move)
    requires ValidBoard(b) && InBounds(m.x, m.y)
    requires ScanInv(OwnTable(b, color), PieceTable(b), 64, SideScan(b, color, 64))
    requires SideScan(b, color, 64).haveBeats <==>
               exists i, j, m :: InBounds(i, j) && Own(b, color, i, j) && CaptureShape(b, i, j, m)
    ensures m in SideScan(b, color, 64).moves <==>
              Own(b, color, m.x, m.y) && m in PieceTurns(b, m.x, m.y).moves
              && PieceTurns(b, m.x, m.y).haveBeats == SideScan(b, color, 64).haveBeats
    ensures m in SideScan(b, color, 64).moves <==>
              && Own(b, color, m.x, m.y)
              && (if SideScan(b, color, 64).haveBeats then CaptureShape(b, m.x, m.y, m) else StepShape(b, m.x, m.y, m))
  {
    var r := SideScan(b, color, 64);
    var q := 8 * m.x + m.y;
    assert q / 8 == m.x && q % 8 == m.y;
    assert OwnTable(b, color)[q] == Own(b, color, m.x, m.y);
    assert PieceTable(b)[q] == PieceTurns(b, m.x, m.y);
    PieceTurnsExactly(b, m.x, m.y);
  }

  /** A piece's flag is set exactly when it has a move of capture shape. */
  lemma PieceFlagRule(b: Matrix, i: int, j: int)
    requires ValidBoard(b) && InBounds(i, j)
    ensures PieceTurns(b, i, j).haveBeats <==> exists m :: CaptureShape(b, i, j, m)
  {
    PieceTurnsExactly(b, i, j);
    if PieceTurns(b, i, j).haveBeats {
      assert CaptureShape(b, i, j, PieceTurns(b, i, j).moves[0]);
    }
  }

  /** A set flag comes from a piece of the side with a capture-shaped move. */
  lemma SideFlagWitness(b: Matrix, color: bool) returns (i: int, j: int, m: Move)
    requires ValidBoard(b) && SideScan(b, color, 64).haveBeats
    ensures InBounds(i, j) && Own(b, color, i, j) && CaptureShape(b, i, j, m)
  {
    var owns, cells := OwnTable(b, color), PieceTable(b);
    PieceTableRooted(b);
    ScanFromContents(owns, cells, 64);
    var p :| 0 <= p < 64 && owns[p] && cells[p].haveBeats;
    i, j := p / 8, p % 8;
    PieceFlagRule(b, i, j);
    m :| CaptureShape(b, i, j, m);
  }

  /** A piece of the side with a capture-shaped move sets the flag. */
  lemma SideFlagSet(b: Matrix, color: bool, i: int, j: int, m: Move)
    requires ValidBoard(b) && InBounds(i, j) && Own(b, color, i, j) && CaptureShape(b, i, j, m)
    ensures SideScan(b, color, 64).haveBeats
  {
    var owns, cells := OwnTable(b, color), PieceTable(b);
    PieceTableRooted(b);
    ScanFromContents(owns, cells, 64);
    PieceFlagRule(b, i, j);
    var q := 8 * i + j;
    assert q / 8 == i && q % 8 == j;
    assert owns[q] && cells[q].haveBeats;
  }

  /** The side's flag is set exactly when one of its pieces has a move of
      capture shape. */
  lemma SideFlagRule(b: Matrix, color: bool)
    requires ValidBoard(b)
    ensures SideScan(b, color, 64).haveBeats <==>
              exists i, j, m :: InBounds(i, j) && Own(b, color, i, j) && CaptureShape(b, i, j, m)
  {
    if SideScan(b, color, 64).haveBeats {
      var i, j, m := SideFlagWitness(b, color);
    }
    if exists i, j, m :: InBounds(i, j) && Own(b, color, i, j) && CaptureShape(b, i, j, m) {
      var i, j, m :| InBounds(i, j) && Own(b, color, i, j) && CaptureShape(b, i, j, m);
      SideFlagSet(b, color, i, j, m);
    }
  }

  // ---------------------------------------------------------------------
  // The shuffle
  // ---------------------------------------------------------------------

  /** The engine's random state: one step of a multiplicative congruential
      generator modulo 2^31 - 1. */
  function NextRand(s: nat): nat {
    (16807 * s) % 2147483647
  }

  datatype Shuffled = Shuffled(moves: seq<Move>, seed: nat)

  /** A permutation of s chosen by the random state: a drawn element goes to
      the front and the rest is shuffled with the advanced state. */
  function Shuffle(s: seq<Move>, seed: nat): (r: Shuffled)
    ensures multiset(r.moves) == multiset(s)
    decreases |s|
  {
    if |s| <= 1 then Shuffled(s, seed)
    else
      var seed' := NextRand(seed);
      var k := seed' % |s|;
      assert s == s[..k] + [s[k]] + s[k + 1..];
      var rest := Shuffle(s[..k] + s[k + 1..], seed');
      Shuffled([s[k]] + rest.moves, rest.seed)
  }

  /** One draw of the shuffle. */
  lemma ShuffleStep(s: seq<Move>, seed: nat)
    requires |s| > 1
    ensures var k := NextRand(seed) % |s|;
            var rest := Shuffle(s[..k] + s[k + 1..], NextRand(seed));
            Shuffle(s, seed) == Shuffled([s[k]] + rest.moves, rest.seed)
  {
  }

  /** Found moves together with the random state after finding them. */
  datatype Found = Found(moves: seq<Move>, haveBeats: bool, rng: nat)

  /** The side-level find_turns: the scan, then the shuffle of its list. */
  function SideTurns(b: Matrix, color: bool, rng: nat): (r: Found)
    requires ValidBoard(b)
    ensures multiset(r.moves) == multiset(SideScan(b, color, 64).moves)
    ensures r.haveBeats == SideScan(b, color, 64).haveBeats
  {
    var scan := SideScan(b, color, 64);
    var sh := Shuffle(scan.moves, rng);
    Found(sh.moves, scan.haveBeats, sh.seed)
  }

  /** The shuffled list obeys the mandatory-capture rule as the scan does. */
  lemma SideTurnsRule(b: Matrix, color: bool, rng: nat)
    requires ValidBoard(b)
    ensures SideTurns(b, color, rng).haveBeats <==>
              exists i, j, m :: InBounds(i, j) && Own(b, color, i, j) && CaptureShape(b, i, j, m)
    ensures forall m :: m in SideTurns(b, color, rng).moves <==>
              && InBounds(m.x, m.y) && Own(b, color, m.x, m.y)
              && (if SideTurns(b, color, rng).haveBeats then CaptureShape(b, m.x, m.y, m) else StepShape(b, m.x, m.y, m))
    ensures MovesOk(b, SideTurns(b, color, rng).moves, SideTurns(b, color, rng).haveBeats)
  {
    SideScanRule(b, color);
    var r := SideTurns(b, color, rng);
    forall m: Move ensures m in r.moves <==> m in SideScan(b, color, 64).moves {
      assert m in r.moves <==> m in multiset(r.moves);
    }
  }

  /** The side's (shuffled) list is legal and obeys its flag. */
  lemma SideTurnsOk(b: Matrix, color: bool, rng: nat)
    requires ValidBoard(b)
    ensures MovesOk(b, SideTurns(b, color, rng).moves, SideTurns(b, color, rng).haveBeats)
  {
    SideTurnsRule(b, color, rng);
  }

  /** The side's scan list is legal and obeys its flag. */
  lemma SideScanOk(b: Matrix, color: bool)
    requires ValidBoard(b)
    ensures MovesOk(b, SideScan(b, color, 64).moves, SideScan(b, color, 64).haveBeats)
  {
    SideScanRule(b, color);
  }
}
