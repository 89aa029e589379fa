/** Integer 2-tuples and the mapping between screen and canvas coordinates.
    The canvas is drawn on the screen at `offset`, so a screen point `p`
    shows the canvas point `p - offset`. */
module Tuples {

  datatype Pair = Pair(x: int, y: int)

  /** Component-wise sum of two pairs. */
  function Add(a: Pair, b: Pair): Pair {
    Pair(a.x + b.x, a.y + b.y)
  }

  /** Component-wise difference; adding `b` back gives `a`. */
  function Sub(a: Pair, b: Pair): (r: Pair)
    ensures Add(r, b) == a
  {
    Pair(a.x - b.x, a.y - b.y)
  }

  /** The canvas point shown at screen position `pos`: the point that
      `offset` carries back onto `pos`. */
  function RealPos(pos: Pair, offset: Pair): (r: Pair)
    ensures Add(r, offset) == pos
  {
    Sub(pos, offset)
  }

  /** The screen position at which canvas point `pos` is shown: the point
      from which removing `offset` gives `pos` back. */
  function RelPos(pos: Pair, offset: Pair): (r: Pair)
    ensures Sub(r, offset) == pos
  {
    Add(pos, offset)
  }

  /** Screen-to-canvas and canvas-to-screen are inverse to each other for
      every offset. */
  lemma PositionRoundTrip(p: Pair, offset: Pair)
    ensures RelPos(RealPos(p, offset), offset) == p
    ensures RealPos(RelPos(p, offset), offset) == p
  {
  }
}
