// Rectangles of pixels, closed at the top left and open at the bottom right.
module Rects {
  datatype Pixel = Pixel(x: int, y: int)

  datatype Rect = Rect(x1: int, y1: int, x2: int, y2: int) {
    predicate IsEmpty() { x1 >= x2 || y1 >= y2 }

    predicate Contains(p: Pixel) { x1 <= p.x < x2 && y1 <= p.y < y2 }

    function Width(): int { x2 - x1 }

    function Height(): int { y2 - y1 }

    function Intersect(r: Rect): (i: Rect)
      ensures forall p :: i.Contains(p) <==> this.Contains(p) && r.Contains(p)
    {
      var left, top := Max(x1, r.x1), Max(y1, r.y1);
      Rect(left, top, Max(Min(x2, r.x2), left), Max(Min(y2, r.y2), top))
    }

    // The smallest rectangle around two; an empty one adds nothing.
    function UnionBoundary(r: Rect): (u: Rect)
      ensures forall p :: this.Contains(p) || r.Contains(p) ==> u.Contains(p)
    {
      if r.IsEmpty() then this
      else if IsEmpty() then r
      else Rect(Min(x1, r.x1), Min(y1, r.y1), Max(x2, r.x2), Max(y2, r.y2))
    }
  }

  const EMPTY := Rect(0, 0, 0, 0)

  function Min(a: int, b: int): int { if a < b then a else b }

  function Max(a: int, b: int): int { if a < b then b else a }
}
