/**
 * The platform rectangles the scanner works with, and the Float-to-Int
 * conversion it applies to them. Kotlin `Float` is modelled as `real`.
 */
module Geometry {

  /** android.graphics.Rect: a rectangle with integer edges. */
  datatype Rect = Rect(left: int, top: int, right: int, bottom: int)

  /**
   * The edges of a floating-point rectangle: the value held by an
   * android.graphics.RectF, or an androidx.compose.ui.geometry.Rect.
   */
  datatype Box = Box(left: real, top: real, right: real, bottom: real)

  /** Compose's `Rect.Zero`. */
  const ZeroBox: Box := Box(0.0, 0.0, 0.0, 0.0)

  /** `Rect.toRectF()`: the same edges, as floating-point numbers. */
  function ToBox(r: Rect): Box
  {
    Box(r.left as real, r.top as real, r.right as real, r.bottom as real)
  }

  /** A RectF is empty unless left < right and top < bottom. */
  predicate IsEmpty(b: Box)
  {
    !(b.left < b.right && b.top < b.bottom)
  }

  /**
   * `RectF.contains(RectF)`: an empty rectangle contains nothing; otherwise
   * `inner` is contained when each of its edges lies on or inside `outer`.
   */
  predicate Contains(outer: Box, inner: Box)
    ensures Contains(outer, inner) ==> !IsEmpty(outer)
    ensures Contains(outer, inner) ==>
      forall x, y :: Inside(inner, x, y) ==> Inside(outer, x, y)
  {
    && !IsEmpty(outer)
    && outer.left <= inner.left
    && outer.top <= inner.top
    && inner.right <= outer.right
    && inner.bottom <= outer.bottom
  }

  /** The point (x, y) lies on or inside the edges of b. */
  predicate Inside(b: Box, x: real, y: real)
  {
    b.left <= x <= b.right && b.top <= y <= b.bottom
  }

  /**
   * Conversely, a non-empty rectangle contains every well-ordered box whose
   * points all lie inside it.
   */
  lemma ContainsFromPoints(outer: Box, inner: Box)
    requires !IsEmpty(outer)
    requires inner.left <= inner.right && inner.top <= inner.bottom
    requires forall x, y :: Inside(inner, x, y) ==> Inside(outer, x, y)
    ensures Contains(outer, inner)
  {
    assert Inside(inner, inner.left, inner.top);
    assert Inside(inner, inner.right, inner.bottom);
  }

  /** The edges after `RectF.offset(dx, dy)`. */
  function Shifted(b: Box, dx: real, dy: real): Box
  {
    Box(b.left + dx, b.top + dy, b.right + dx, b.bottom + dy)
  }

  /** A rectangle that is not empty contains itself. */
  lemma ContainsItself(b: Box)
    requires !IsEmpty(b)
    ensures Contains(b, b)
  {
  }

  /** Moving any one edge of the container inwards by d > 0 loses every box that touches that edge. */
  lemma ShrunkContainerRejects(b: Box, inner: Box, d: real)
    requires d > 0.0
    ensures inner.left == b.left ==> !Contains(b.(left := b.left + d), inner)
    ensures inner.top == b.top ==> !Contains(b.(top := b.top + d), inner)
    ensures inner.right == b.right ==> !Contains(b.(right := b.right - d), inner)
    ensures inner.bottom == b.bottom ==> !Contains(b.(bottom := b.bottom - d), inner)
  {
  }

  /** An empty rectangle, `Rect.Zero` among them, contains nothing. */
  lemma EmptyContainsNothing(outer: Box, inner: Box)
    requires IsEmpty(outer)
    ensures !Contains(outer, inner)
  {
  }

  /** Offsetting by (dx, dy) and then by (-dx, -dy) restores the edges. */
  lemma ShiftedInverse(b: Box, dx: real, dy: real)
    ensures Shifted(Shifted(b, dx, dy), -dx, -dy) == b
  {
  }

  /**
   * android.graphics.RectF: a mutable rectangle whose edges are assigned
   * one by one and moved in place by `offset`.
   */
  class RectF {
    var left: real
    var top: real
    var right: real
    var bottom: real

    /** The edges this rectangle holds now. */
    function Edges(): Box
      reads this
    {
      Box(left, top, right, bottom)
    }

    /** `r.toRectF()`. */
    constructor FromRect(r: Rect)
      ensures Edges() == ToBox(r)
    {
      left, top := r.left as real, r.top as real;
      right, bottom := r.right as real, r.bottom as real;
    }

    /** `offset(dx, dy)`: moves all four edges. */
    method Offset(dx: real, dy: real)
      modifies this
      ensures Edges() == Shifted(old(Edges()), dx, dy)
    {
      left := left + dx;
      top := top + dy;
      right := right + dx;
      bottom := bottom + dy;
    }
  }

  /** Bounds of Kotlin's 32-bit `Int`. */
  const IntMin: int := -0x8000_0000
  const IntMax: int := 0x7fff_ffff

  /**
   * Kotlin's `Float.toInt()`: rounds toward zero, and saturates at the
   * bounds of `Int` for values outside its range.
   */
  function FloatToInt(x: real): (r: int)
    ensures IntMin <= r <= IntMax
    ensures IntMin as real <= x <= IntMax as real && 0.0 <= x ==> r as real <= x < r as real + 1.0
    ensures IntMin as real <= x <= IntMax as real && x < 0.0 ==> r as real - 1.0 < x <= r as real
    ensures x < IntMin as real ==> r == IntMin
    ensures x > IntMax as real ==> r == IntMax
  {
    var t := if x >= 0.0 then x.Floor else -((-x).Floor);
    if t < IntMin then IntMin else if t > IntMax then IntMax else t
  }

  /** Truncation never flips the sign and never grows the magnitude; whole numbers in range are unchanged. */
  lemma FloatToIntTowardZero(x: real)
    ensures 0.0 <= x ==> 0 <= FloatToInt(x) && FloatToInt(x) as real <= x
    ensures x <= 0.0 ==> FloatToInt(x) <= 0 && x <= FloatToInt(x) as real
    ensures x == x.Floor as real && IntMin <= x.Floor <= IntMax ==> FloatToInt(x) == x.Floor
  {
  }
}
