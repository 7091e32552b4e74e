/** The board-state bookkeeping of class Board: the 8x8 grid `mtx` and the
    two history stacks `history_mtx` / `history_beat_series` that commit
    and undo moves. Rendering, textures and the window are not part of this
    model; every `rerender` call is a no-op on the grid. */
module BoardState {
  import opened Moves
  import opened Matrices
  import opened Rules

  /** The outcome of an operation that the source guards with a
      `runtime_error`: it either completes or fails with that message. */
  datatype Outcome = Done | Failed(reason: string)

  /** The opening position: the even side's men (2) on the dark cells
      ((i + j) odd) of rows 0..2, the odd side's men (1) on those of rows
      5..7, every other cell empty. */
  function StartCell(i: int, j: int): (v: int)
    ensures 0 <= v <= 2
  {
    if i < 3 && (i + j) % 2 == 1 then 2
    else if i > 4 && (i + j) % 2 == 1 then 1
    else 0
  }

  function StartMatrix(): (b: Matrix)
    ensures ValidBoard(b)
    ensures forall i, j :: InBounds(i, j) ==> b[i][j] == StartCell(i, j)
  {
    seq(8, i requires 0 <= i < 8 => seq(8, j requires 0 <= j < 8 => StartCell(i, j)))
  }

  /** The opening position described cell by cell. */
  lemma StartPosition(i: int, j: int)
    requires InBounds(i, j)
    ensures StartMatrix()[i][j] == 2 <==> i <= 2 && (i + j) % 2 == 1
    ensures StartMatrix()[i][j] == 1 <==> i >= 5 && (i + j) % 2 == 1
    ensures StartMatrix()[i][j] == 0 <==> (3 <= i <= 4 || (i + j) % 2 == 0)
  {
  }

  /** How many entries rollback pops: max(1, last beat series), but never
      the last remaining snapshot. */
  function PopCount(last: int, n: nat): (k: nat)
    requires n >= 1
    ensures k <= n - 1
    ensures k == n - 1 || k == (if last > 1 then last else 1)
    ensures k >= 1 || n == 1
  {
    var want := if last > 1 then last else 1;
    if want < n - 1 then want else n - 1
  }

  class Board {
    /** The grid, row by row. */
    var mtx: Matrix
    /** The snapshots of the grid after each committed move. */
    var historyMtx: seq<Matrix>
    /** The number of captures in the series each snapshot ended (0 for a
        plain move). */
    var historyBeatSeries: seq<int>

    /** The grid is 8x8 with codes 0..4, every snapshot is too, and the two
        stacks have the same height. */
    predicate Valid()
      reads this
    {
      && ValidBoard(mtx)
      && |historyMtx| == |historyBeatSeries|
      && forall k :: 0 <= k < |historyMtx| ==> ValidBoard(historyMtx[k])
    }

    /** The default Board(): an empty 8x8 grid and empty histories. */
    constructor()
      ensures Valid()
      ensures forall i, j :: InBounds(i, j) ==> mtx[i][j] == 0
      ensures historyMtx == [] && historyBeatSeries == []
    {
      mtx := seq(8, i => seq(8, j => 0));
      historyMtx := [];
      historyBeatSeries := [];
    }

    /** get_board: the grid, by value. */
    function GetBoard(): (b: Matrix)
      reads this
      requires Valid()
      ensures ValidBoard(b)
      ensures forall i, j :: InBounds(i, j) ==> b[i][j] == mtx[i][j]
    {
      mtx
    }

    /** add_history: push the current grid and the series length. */
    method AddHistory(beatSeries: int)
      requires Valid()
      modifies this`historyMtx, this`historyBeatSeries
      ensures Valid()
      ensures historyMtx == old(historyMtx) + [mtx]
      ensures historyBeatSeries == old(historyBeatSeries) + [beatSeries]
    {
      historyMtx := historyMtx + [mtx];
      historyBeatSeries := historyBeatSeries + [beatSeries];
    }

    /** drop_piece: empty one cell. */
    method DropPiece(i: int, j: int)
      requires Valid() && InBounds(i, j)
      modifies this`mtx
      ensures Valid()
      ensures mtx == SetCell(old(mtx), i, j, 0)
    {
      mtx := SetCell(mtx, i, j, 0);
    }

    /** turn_into_queen: a man (1 or 2) becomes the queen of its side (3 or
        4); an empty cell or a queen is refused and nothing changes. */
    method TurnIntoQueen(i: int, j: int) returns (o: Outcome)
      requires Valid() && InBounds(i, j)
      modifies this`mtx
      ensures Valid()
      ensures o == Done <==> old(mtx)[i][j] == 1 || old(mtx)[i][j] == 2
      ensures o == Done ==> mtx[i][j] == old(mtx)[i][j] + 2 && mtx[i][j] % 2 == old(mtx)[i][j] % 2
      ensures o == Done ==> forall p, q :: InBounds(p, q) && (p, q) != (i, j) ==> mtx[p][q] == old(mtx)[p][q]
      ensures o != Done ==> mtx == old(mtx)
    {
      if mtx[i][j] == 0 || mtx[i][j] > 2 {
        return Failed("can't turn into queen in this position");
      }
      mtx := SetCell(mtx, i, j, mtx[i][j] + 2);
      o := Done;
    }

    /** move_piece(i, j, i2, j2, beat_series): refuses a move onto an
        occupied cell or from an empty one and then changes nothing;
        otherwise does to the grid what make_turn does with the plain move
        and records one history entry. */
    method MovePieceAt(i: int, j: int, i2: int, j2: int, beatSeries: int) returns (o: Outcome)
      requires Valid() && InBounds(i, j) && InBounds(i2, j2)
      modifies this`mtx, this`historyMtx, this`historyBeatSeries
      ensures Valid()
      ensures old(mtx)[i2][j2] != 0 ==> o == Failed("final position is not empty, can't move")
      ensures old(mtx)[i2][j2] == 0 && old(mtx)[i][j] == 0 ==> o == Failed("begin position is empty, can't move")
      ensures o == Done <==> old(mtx)[i2][j2] == 0 && old(mtx)[i][j] != 0
      ensures o != Done ==> mtx == old(mtx) && historyMtx == old(historyMtx) && historyBeatSeries == old(historyBeatSeries)
      ensures o == Done ==> mtx == MakeTurn(old(mtx), PlainMove(i, j, i2, j2))
      ensures o == Done ==> historyMtx == old(historyMtx) + [mtx] && historyBeatSeries == old(historyBeatSeries) + [beatSeries]
    {
      if mtx[i2][j2] != 0 {
        return Failed("final position is not empty, can't move");
      }
      if mtx[i][j] == 0 {
        return Failed("begin position is empty, can't move");
      }
      ghost var before := mtx;
      mtx := SetCell(mtx, i, j, Promote(mtx[i][j], i2));
      mtx := SetCell(mtx, i2, j2, mtx[i][j]);
      DropPiece(i, j);
      assert mtx == MakeTurn(before, PlainMove(i, j, i2, j2));
      AddHistory(beatSeries);
      o := Done;
    }

    /** move_piece(turn, beat_series): clears the captured cell first, then
        moves as the four-coordinate overload does. The clearing happens
        before the checks, so a refused move still loses its captured
        piece. A completed move does to the grid exactly what make_turn
        does. */
    method MovePiece(turn: Move, beatSeries: int) returns (o: Outcome)
      requires Valid() && InBounds(turn.x, turn.y) && InBounds(turn.x2, turn.y2)
      requires IsCapture(turn) ==> InBounds(turn.xb, turn.yb)
      modifies this`mtx, this`historyMtx, this`historyBeatSeries
      ensures Valid()
      ensures var cleared := if IsCapture(turn) then SetCell(old(mtx), turn.xb, turn.yb, 0) else old(mtx);
              && (o == Done <==> cleared[turn.x2][turn.y2] == 0 && cleared[turn.x][turn.y] != 0)
              && (o != Done ==> mtx == cleared)
      ensures o != Done ==> historyMtx == old(historyMtx) && historyBeatSeries == old(historyBeatSeries)
      ensures o == Done ==> mtx == MakeTurn(old(mtx), turn)
      ensures o == Done ==> historyMtx == old(historyMtx) + [mtx] && historyBeatSeries == old(historyBeatSeries) + [beatSeries]
    {
      if turn.xb != -1 {
        mtx := SetCell(mtx, turn.xb, turn.yb, 0);
      }
      o := MovePieceAt(turn.x, turn.y, turn.x2, turn.y2, beatSeries);
    }

    /** make_start_mtx: fill the grid with the opening position, cell by
        cell, and record it. */
    method MakeStartMtx()
      requires Valid()
      modifies this`mtx, this`historyMtx, this`historyBeatSeries
      ensures Valid()
      ensures mtx == StartMatrix()
      ensures historyMtx == old(historyMtx) + [StartMatrix()]
      ensures historyBeatSeries == old(historyBeatSeries) + [0]
    {
      var i := 0;
      while i < 8
        invariant 0 <= i <= 8 && ValidBoard(mtx)
        invariant forall p, q :: InBounds(p, q) && p < i ==> mtx[p][q] == StartCell(p, q)
        invariant historyMtx == old(historyMtx) && historyBeatSeries == old(historyBeatSeries)
      {
        var j := 0;
        while j < 8
          invariant 0 <= j <= 8 && ValidBoard(mtx)
          invariant forall p, q :: InBounds(p, q) && (p < i || (p == i && q < j)) ==> mtx[p][q] == StartCell(p, q)
          invariant historyMtx == old(historyMtx) && historyBeatSeries == old(historyBeatSeries)
        {
          mtx := SetCell(mtx, i, j, 0);
          if i < 3 && (i + j) % 2 == 1 {
            mtx := SetCell(mtx, i, j, 2);
          }
          if i > 4 && (i + j) % 2 == 1 {
            mtx := SetCell(mtx, i, j, 1);
          }
          j := j + 1;
        }
        i := i + 1;
      }
      BoardExt(mtx, StartMatrix());
      AddHistory(0);
    }

    /** rollback: pop max(1, last beat series) entries, keeping at least
        one, and restore the grid from the last remaining snapshot. */
    method Rollback()
      requires Valid() && |historyBeatSeries| > 0
      modifies this`mtx, this`historyMtx, this`historyBeatSeries
      ensures Valid()
      ensures var k := PopCount(old(historyBeatSeries)[|old(historyBeatSeries)| - 1], |old(historyMtx)|);
              && historyMtx == old(historyMtx)[..|old(historyMtx)| - k]
              && historyBeatSeries == old(historyBeatSeries)[..|old(historyBeatSeries)| - k]
      ensures |historyMtx| >= 1 && mtx == historyMtx[|historyMtx| - 1]
    {
      var last := historyBeatSeries[|historyBeatSeries| - 1];
      ghost var k := PopCount(last, |historyMtx|);
      ghost var n := |historyMtx|;
      var beatSeries := if last > 1 then last else 1;
      while beatSeries != 0 && |historyMtx| > 1
        invariant Valid()
        invariant 1 <= |historyMtx| <= n
        invariant 0 <= beatSeries == (if last > 1 then last else 1) - (n - |historyMtx|)
        invariant historyMtx == old(historyMtx)[..|historyMtx|]
        invariant historyBeatSeries == old(historyBeatSeries)[..|historyMtx|]
        invariant mtx == old(mtx)
        decreases |historyMtx|
      {
        beatSeries := beatSeries - 1;
        historyMtx := historyMtx[..|historyMtx| - 1];
        historyBeatSeries := historyBeatSeries[..|historyBeatSeries| - 1];
      }
      assert |historyMtx| == n - k;
      mtx := historyMtx[|historyMtx| - 1];
    }

    /** redraw, its grid part: forget the history and start over from the
        opening position, which becomes the only snapshot. */
    method Redraw()
      requires Valid()
      modifies this`mtx, this`historyMtx, this`historyBeatSeries
      ensures Valid()
      ensures mtx == StartMatrix()
      ensures historyMtx == [StartMatrix()] && historyBeatSeries == [0]
    {
      historyMtx := [];
      historyBeatSeries := [];
      MakeStartMtx();
    }
  }
}
