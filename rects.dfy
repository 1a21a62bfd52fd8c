/** The part of pygame's Rect that the game relies on: integer rectangles,
    their edges and centre, the strict overlap test `colliderect`, the
    in-place clamp `clamp_ip` and the `center` setter.  `Box` is the value of
    a rectangle; `Rect` is the mutable object the game loop updates. */
module Rects {

  function Min(a: int, b: int): int { if a <= b then a else b }

  function Max(a: int, b: int): int { if a <= b then b else a }

  /** Where `clamp_ip` puts one coordinate `p` of a rectangle of extent `size`
      so that it lies within [lo, lo + extent]: centred when it does not fit,
      moved to the nearer edge when it sticks out, left alone otherwise. */
  function ClampAxis(p: int, size: int, lo: int, extent: int): (r: int)
    requires 0 <= size && 0 <= extent
    ensures size <= extent ==> lo <= r && r + size <= lo + extent
    ensures size <= extent ==> r == Max(lo, Min(p, lo + extent - size))
    ensures lo <= p && p + size <= lo + extent ==> r == p
    ensures extent < size ==> r + size / 2 == lo + extent / 2
  {
    if size >= extent then lo + extent / 2 - size / 2
    else if p < lo then lo
    else if p + size > lo + extent then lo + extent - size
    else p
  }

  /** The value of a pygame Rect: top-left corner (x, y), width w, height h. */
  datatype Box = Box(x: int, y: int, w: int, h: int) {

    predicate Sized() { 0 <= w && 0 <= h }

    function Left(): int { x }

    function Right(): int { x + w }

    function Top(): int { y }

    function Bottom(): int { y + h }

    function CenterX(): int requires Sized() { x + w / 2 }

    function CenterY(): int requires Sized() { y + h / 2 }

    /** `colliderect`: a rectangle of zero area touches nothing; otherwise the
        two must overlap by at least one unit on both axes (shared edges do
        not count). */
    predicate Collides(other: Box)
      requires Sized() && other.Sized()
    {
      w != 0 && h != 0 && other.w != 0 && other.h != 0 &&
      Left() < other.Right() && other.Left() < Right() &&
      Top() < other.Bottom() && other.Top() < Bottom()
    }

    predicate Inside(bounds: Box) {
      bounds.Left() <= Left() && Right() <= bounds.Right() &&
      bounds.Top() <= Top() && Bottom() <= bounds.Bottom()
    }

    /** The rectangle `clamp_ip(bounds)` leaves behind. */
    function Clamped(bounds: Box): (r: Box)
      requires Sized() && bounds.Sized()
      ensures r.w == w && r.h == h
      ensures w <= bounds.w && h <= bounds.h ==> r.Inside(bounds)
      ensures h <= bounds.h ==> r.y == Max(bounds.y, Min(y, bounds.Bottom() - h))
      ensures w <= bounds.w ==> r.x == Max(bounds.x, Min(x, bounds.Right() - w))
      ensures Inside(bounds) ==> r == this
    {
      Box(ClampAxis(x, w, bounds.x, bounds.w), ClampAxis(y, h, bounds.y, bounds.h), w, h)
    }

    /** The rectangle after `center = (cx, cy)`: moved, same size, centred there. */
    function Centered(cx: int, cy: int): (r: Box)
      requires Sized()
      ensures r.Sized() && r.w == w && r.h == h
      ensures r.CenterX() == cx && r.CenterY() == cy
    {
      Box(cx - w / 2, cy - h / 2, w, h)
    }
  }

  /** A pygame Rect object: its position changes in place, its size is fixed
      in this game. */
  class Rect {
    var x: int
    var y: int
    const w: int
    const h: int

    constructor (x0: int, y0: int, w0: int, h0: int)
      ensures Value() == Box(x0, y0, w0, h0)
    {
      x, y := x0, y0;
      w, h := w0, h0;
    }

    function Value(): Box
      reads this
    {
      Box(x, y, w, h)
    }

    function Left(): int reads this { Value().Left() }

    function Right(): int reads this { Value().Right() }

    function Top(): int reads this { Value().Top() }

    function Bottom(): int reads this { Value().Bottom() }

    function CenterY(): int
      reads this
      requires Value().Sized()
    {
      Value().CenterY()
    }

    predicate CollideRect(other: Rect)
      reads this, other
      requires Value().Sized() && other.Value().Sized()
    {
      Value().Collides(other.Value())
    }

    method ClampIp(bounds: Box)
      requires Value().Sized() && bounds.Sized()
      modifies this
      ensures Value() == old(Value()).Clamped(bounds)
    {
      x := ClampAxis(x, w, bounds.x, bounds.w);
      y := ClampAxis(y, h, bounds.y, bounds.h);
    }

    method SetCenter(cx: int, cy: int)
      requires Value().Sized()
      modifies this
      ensures Value() == old(Value()).Centered(cx, cy)
    {
      x := cx - w / 2;
      y := cy - h / 2;
    }
  }
}
