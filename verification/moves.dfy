/** The move value type of the engine (`move_pos`): a source cell, a
    destination cell and an optional captured cell, where -1 stands for
    "no capture". */
module Moves {

  /** The sentinel coordinate: "no captured piece" in xb/yb, "no move" in x. */
  const NONE: int := -1

  datatype Move = Move(x: int, y: int, x2: int, y2: int, xb: int, yb: int)

  /** A move removes an opponent piece exactly when its captured cell is set. */
  predicate IsCapture(m: Move) {
    m.xb != NONE
  }

  /** The four-argument constructor: a move that captures nothing. */
  function PlainMove(x: int, y: int, x2: int, y2: int): (m: Move)
    ensures m.x == x && m.y == y && m.x2 == x2 && m.y2 == y2
    ensures m.xb == NONE && m.yb == NONE
    ensures !IsCapture(m)
  {
    Move(x, y, x2, y2, NONE, NONE)
  }

  /** The six-argument constructor: a move that records the captured cell. */
  function CaptureMove(x: int, y: int, x2: int, y2: int, xb: int, yb: int): (m: Move)
    ensures m.x == x && m.y == y && m.x2 == x2 && m.y2 == y2
    ensures m.xb == xb && m.yb == yb
    ensures IsCapture(m) <==> xb != NONE
  {
    Move(x, y, x2, y2, xb, yb)
  }

  /** `operator==`: two moves are the same when their visible endpoints agree. */
  predicate Same(a: Move, b: Move) {
    a.x == b.x && a.y == b.y && a.x2 == b.x2 && a.y2 == b.y2
  }

  /** `operator!=`. */
  predicate Differs(a: Move, b: Move) {
    !Same(a, b)
  }

  /** Equality of moves is structural equality once the captured cell is
      disregarded: overwriting one move's captured cell with the other's
      makes them identical exactly when they are the same. */
  lemma SameIgnoresCapture(a: Move, b: Move)
    ensures Same(a, b) <==> a.(xb := b.xb, yb := b.yb) == b
    ensures Same(a, b) ==> Same(a.(xb := 0, yb := 0), b)
  {
  }

  /** `==` on moves is an equivalence relation, and `!=` its complement. */
  lemma SameIsEquivalence()
    ensures forall a: Move :: Same(a, a)
    ensures forall a: Move, b: Move :: Same(a, b) ==> Same(b, a)
    ensures forall a: Move, b: Move, c: Move :: Same(a, b) && Same(b, c) ==> Same(a, c)
    ensures forall a: Move, b: Move :: Differs(a, b) <==> !Same(a, b)
  {
  }

  /** Two moves that differ only in the captured cell are `==`: a plain move
      and a capture with the same endpoints cannot be told apart by `==`. */
  lemma CaptureInvisibleToSame(x: int, y: int, x2: int, y2: int, xb: int, yb: int)
    ensures Same(PlainMove(x, y, x2, y2), CaptureMove(x, y, x2, y2, xb, yb))
    ensures xb != NONE ==> PlainMove(x, y, x2, y2) != CaptureMove(x, y, x2, y2, xb, yb)
  {
  }
}
