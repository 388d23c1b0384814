// Converting a clip region from logical to backing pixels under a fractional scale by
// divide and conquer.
module ClipRegions {
  import opened Rects

  datatype Containment = Out | Part | In

  function Floor(x: int, q: real): int { (x as real * q).Floor }

  function Ceil(x: int, q: real): int { -((-(x as real * q)).Floor) }

  // The backing pixels that a rectangle of logical pixels touches.
  function Backing(r: Rect, qx: real, qy: real): Rect {
    Rect(Floor(r.x1, qx), Floor(r.y1, qy), Ceil(r.x2, qx), Ceil(r.y2, qy))
  }

  function Single(l: Pixel): Rect { Rect(l.x, l.y, l.x + 1, l.y + 1) }

  // Logical position i, once scaled, and backing position b share more than an edge.
  predicate Meets(i: int, b: int, q: real) {
    i as real * q < (b + 1) as real && b as real < (i + 1) as real * q
  }

  predicate Overlaps(l: Pixel, p: Pixel, qx: real, qy: real) {
    Meets(l.x, p.x, qx) && Meets(l.y, p.y, qy)
  }

  // Backing pixel p is in the image of the logical clip within r: some clipped logical
  // pixel overlaps it.
  ghost predicate Touched(logical: Pixel -> bool, r: Rect, qx: real, qy: real, p: Pixel) {
    exists l :: r.Contains(l) && logical(l) && Overlaps(l, p, qx, qy)
  }

  // What XRectInRegion() promises: never wrong, except that it may answer "partly" for
  // more than one pixel inside the region.
  ghost predicate Sound(oracle: Rect -> Containment, logical: Pixel -> bool) {
    forall r: Rect :: !r.IsEmpty() ==>
      match oracle(r)
      case Out => forall l :: r.Contains(l) ==> !logical(l)
      case In => forall l :: r.Contains(l) ==> logical(l)
      case Part => r.Width() == 1 && r.Height() == 1 ==> logical(Pixel(r.x1, r.y1))
  }

  // ----- 16-bit rectangles ----------------------------------------------------------

  function ToShort(v: int): int { (v + 0x8000) % 0x1_0000 - 0x8000 }

  function ToUShort(v: int): int { v % 0x1_0000 }

  // What a region gets: an XRectangle holds a short origin and an unsigned short size, and
  // the client library's regions keep all four edges as shorts.
  function Stored(r: Rect): Rect {
    var x, y := ToShort(r.x1), ToShort(r.y1);
    Rect(x, y, ToShort(x + ToUShort(r.Width())), ToShort(y + ToUShort(r.Height())))
  }

  predicate Fits(r: Rect) {
    -0x8000 <= r.x1 && r.x2 <= 0x7fff && -0x8000 <= r.y1 && r.y2 <= 0x7fff
  }

  // The pixels that a region can have.
  predicate InBox(p: Pixel) {
    -0x8000 <= p.x < 0x7fff && -0x8000 <= p.y < 0x7fff
  }

  lemma StoredInBox(r: Rect, p: Pixel)
    requires Stored(r).Contains(p)
    ensures InBox(p)
  {
  }

  lemma FitsIffInBox(r: Rect)
    requires !r.IsEmpty()
    ensures Fits(r) <==> forall p :: r.Contains(p) ==> InBox(p)
  {
    assert r.Contains(Pixel(r.x1, r.y1)) && r.Contains(Pixel(r.x2 - 1, r.y2 - 1));
  }

  lemma FittingStays(r: Rect)
    requires !r.IsEmpty() && Fits(r)
    ensures Stored(r) == r
  {
  }

  // Storing keeps a nonempty rectangle exactly when its edges fit.
  lemma StoredIff(r: Rect)
    requires !r.IsEmpty()
    ensures (forall p :: Stored(r).Contains(p) <==> r.Contains(p)) <==> Fits(r)
  {
    if Fits(r) {
      FittingStays(r);
    } else {
      FitsIffInBox(r);
      var p :| r.Contains(p) && !InBox(p);
      if Stored(r).Contains(p) { StoredInBox(r, p); }
      assert !Stored(r).Contains(p);
    }
  }

  // ----- One axis ---------------------------------------------------------------------

  lemma Scaled(a: int, b: int, q: real)
    requires a <= b && q > 0.0
    ensures a as real * q <= b as real * q
    ensures Floor(a, q) <= Floor(b, q) && Ceil(a, q) <= Ceil(b, q) && Floor(a, q) <= Ceil(a, q)
    ensures a < b ==> Floor(a, q) < Ceil(b, q)
  {
    assert (b - a) as real * q >= 0.0;
    assert a < b ==> (b - a) as real * q > 0.0;
  }

  lemma FloorBelow(x: int, q: real, b: int)
    ensures Floor(x, q) <= b <==> x as real * q < (b + 1) as real
  {
    var v := x as real * q;
    assert v.Floor as real <= v < (v.Floor + 1) as real;
  }

  lemma CeilAbove(x: int, q: real, b: int)
    ensures b < Ceil(x, q) <==> b as real < x as real * q
  {
    var v := -(x as real * q);
    assert v.Floor as real <= v < (v.Floor + 1) as real;
  }

  // The enclosing rectangle of one logical pixel is exactly the backing pixels it overlaps.
  lemma SingleIsOverlap(l: Pixel, p: Pixel, qx: real, qy: real)
    ensures Backing(Single(l), qx, qy).Contains(p) <==> Overlaps(l, p, qx, qy)
  {
    hide Floor, Ceil;
    FloorBelow(l.x, qx, p.x);
    CeilAbove(l.x + 1, qx, p.x);
    FloorBelow(l.y, qy, p.y);
    CeilAbove(l.y + 1, qy, p.y);
  }

  lemma Ordered(a: int, b: int, q: real)
    requires a <= b && q > 0.0
    ensures a as real * q <= b as real * q
  {
    assert (b - a) as real * q >= 0.0;
  }

  // A scaled span overlaps what its pixels overlap: there are no gaps.
  lemma {:induction false} SpanCovered(x: int, end: int, q: real, b: int) returns (i: int)
    requires x < end && x as real * q < (b + 1) as real && b as real < end as real * q
    ensures x <= i < end && Meets(i, b, q)
    decreases end - x
  {
    if x + 1 == end || b as real < (x + 1) as real * q {
      i := x;
    } else {
      i := SpanCovered(x + 1, end, q, b);
    }
  }

  lemma SpanHolds(x: int, end: int, q: real, b: int, i: int)
    requires x <= i < end && q > 0.0 && Meets(i, b, q)
    ensures x as real * q < (b + 1) as real && b as real < end as real * q
  {
    var first, last := i as real * q, (i + 1) as real * q;
    assert first < (b + 1) as real && b as real < last;
    Ordered(x, i, q);
    Ordered(i + 1, end, q);
    assert x as real * q <= first && last <= end as real * q;
  }

  // A rectangle inside the region converts to exactly what its pixels overlap.
  lemma WholeRect(logical: Pixel -> bool, r: Rect, qx: real, qy: real, p: Pixel)
    requires !r.IsEmpty() && qx > 0.0 && qy > 0.0 && forall l :: r.Contains(l) ==> logical(l)
    ensures Backing(r, qx, qy).Contains(p) <==> Touched(logical, r, qx, qy, p)
  {
    hide Floor, Ceil, Meets;
    FloorBelow(r.x1, qx, p.x);
    CeilAbove(r.x2, qx, p.x);
    FloorBelow(r.y1, qy, p.y);
    CeilAbove(r.y2, qy, p.y);
    if Backing(r, qx, qy).Contains(p) {
      var i := SpanCovered(r.x1, r.x2, qx, p.x);
      var j := SpanCovered(r.y1, r.y2, qy, p.y);
      assert r.Contains(Pixel(i, j)) && Overlaps(Pixel(i, j), p, qx, qy);
    }
    if Touched(logical, r, qx, qy, p) {
      var l :| r.Contains(l) && logical(l) && Overlaps(l, p, qx, qy);
      SpanHolds(r.x1, r.x2, qx, p.x, l.x);
      SpanHolds(r.y1, r.y2, qy, p.y, l.y);
    }
  }

  // Scaled, the span lies in the part of the screen that regions have.
  predicate AxisFits(x: int, end: int, q: real) {
    -32768.0 <= x as real * q && end as real * q <= 32767.0
  }

  predicate PixelFits(l: Pixel, qx: real, qy: real) {
    AxisFits(l.x, l.x + 1, qx) && AxisFits(l.y, l.y + 1, qy)
  }

  // So does every clipped logical pixel within r.
  ghost predicate ClipFits(logical: Pixel -> bool, r: Rect, qx: real, qy: real) {
    forall l :: r.Contains(l) && logical(l) ==> PixelFits(l, qx, qy)
  }

  lemma FitsIffInReals(r: Rect, qx: real, qy: real)
    ensures Fits(Backing(r, qx, qy)) <==> AxisFits(r.x1, r.x2, qx) && AxisFits(r.y1, r.y2, qy)
  {
    hide Floor, Ceil;
    FloorBelow(r.x1, qx, -0x8001);
    FloorBelow(r.y1, qy, -0x8001);
    CeilAbove(r.x2, qx, 0x7fff);
    CeilAbove(r.y2, qy, 0x7fff);
  }

  lemma InnerFits(x: int, end: int, q: real, i: int)
    requires x <= i < end && q > 0.0 && AxisFits(x, end, q)
    ensures AxisFits(i, i + 1, q)
  {
    Ordered(x, i, q);
    Ordered(i + 1, end, q);
  }

  lemma OuterFits(x: int, end: int, q: real)
    requires AxisFits(x, x + 1, q) && AxisFits(end - 1, end, q)
    ensures AxisFits(x, end, q)
  {
  }

  lemma WholeFitsIff(logical: Pixel -> bool, r: Rect, qx: real, qy: real)
    requires !r.IsEmpty() && qx > 0.0 && qy > 0.0 && forall l :: r.Contains(l) ==> logical(l)
    ensures Fits(Backing(r, qx, qy)) <==> ClipFits(logical, r, qx, qy)
  {
    hide Fits, Backing, AxisFits;
    FitsIffInReals(r, qx, qy);
    var first, last := Pixel(r.x1, r.y1), Pixel(r.x2 - 1, r.y2 - 1);
    assert r.Contains(first) && r.Contains(last);
    if Fits(Backing(r, qx, qy)) {
      forall l | r.Contains(l) && logical(l) ensures PixelFits(l, qx, qy) {
        InnerFits(r.x1, r.x2, qx, l.x);
        InnerFits(r.y1, r.y2, qy, l.y);
      }
    }
    if ClipFits(logical, r, qx, qy) {
      assert PixelFits(first, qx, qy) && PixelFits(last, qx, qy);
      OuterFits(r.x1, r.x2, qx);
      OuterFits(r.y1, r.y2, qy);
    }
  }

  // What is added for a rectangle inside the region is right exactly when its pixels fit.
  lemma WholeStoredIff(logical: Pixel -> bool, r: Rect, qx: real, qy: real)
    requires !r.IsEmpty() && qx > 0.0 && qy > 0.0 && forall l :: r.Contains(l) ==> logical(l)
    ensures (forall p :: Stored(Backing(r, qx, qy)).Contains(p) <==> Touched(logical, r, qx, qy, p)) <==>
      ClipFits(logical, r, qx, qy)
  {
    var b := Backing(r, qx, qy);
    Scaled(r.x1, r.x2, qx);
    Scaled(r.y1, r.y2, qy);
    forall p ensures b.Contains(p) <==> Touched(logical, r, qx, qy, p) {
      WholeRect(logical, r, qx, qy, p);
    }
    WholeFitsIff(logical, r, qx, qy);
    hide Touched, Backing, Stored, ClipFits;
    StoredIff(b);
  }

  // Splitting a rectangle splits what is touched.
  lemma SplitTouched(logical: Pixel -> bool, r: Rect, a: Rect, b: Rect, qx: real, qy: real, p: Pixel)
    requires forall l :: r.Contains(l) <==> a.Contains(l) || b.Contains(l)
    ensures Touched(logical, r, qx, qy, p) <==> Touched(logical, a, qx, qy, p) || Touched(logical, b, qx, qy, p)
  {
  }

  // A clipped pixel that does not fit overlaps a backing pixel that no region has.
  lemma MisfitTouches(logical: Pixel -> bool, r: Rect, qx: real, qy: real) returns (p: Pixel)
    requires qx > 0.0 && qy > 0.0 && !ClipFits(logical, r, qx, qy)
    ensures Touched(logical, r, qx, qy, p) && !InBox(p)
  {
    var l :| r.Contains(l) && logical(l) && !PixelFits(l, qx, qy);
    var one := Single(l);
    assert !Backing(one, qx, qy).IsEmpty() by {
      Scaled(l.x, l.x + 1, qx);
      Scaled(l.y, l.y + 1, qy);
    }
    hide Backing, AxisFits, Overlaps;
    FitsIffInReals(one, qx, qy);
    FitsIffInBox(Backing(one, qx, qy));
    p :| Backing(one, qx, qy).Contains(p) && !InBox(p);
    SingleIsOverlap(l, p, qx, qy);
  }

  function PixelsOf(r: Rect): (s: set<Pixel>)
    ensures forall p :: p in s <==> r.Contains(p)
  {
    set x, y | r.x1 <= x < r.x2 && r.y1 <= y < r.y2 :: Pixel(x, y)
  }

  // A region of the X client library.
  class Region {
    var pixels: set<Pixel>

    ghost predicate Valid()
      reads this
    {
      forall p :: p in pixels ==> InBox(p)
    }

    method Clear()
      modifies this
      ensures Valid() && pixels == {}
    {
      pixels := {};
    }

    method UnionRect(r: Rect)
      requires Valid()
      modifies this
      ensures Valid()
      ensures forall p :: p in pixels <==> p in old(pixels) || Stored(r).Contains(p)
    {
      forall p | Stored(r).Contains(p) ensures InBox(p) { StoredInBox(r, p); }
      hide Stored, InBox;
      pixels := pixels + PixelsOf(Stored(r));
    }
  }

  // The region is what it was and the image of the clip within r.
  ghost predicate Added(before: set<Pixel>, after: set<Pixel>, logical: Pixel -> bool, r: Rect, qx: real, qy: real) {
    forall p :: p in after <==> p in before || Touched(logical, r, qx, qy, p)
  }

  // Adds the image of the logical clip within r to the backing region, whatever the
  // oracle's answers make of the splitting, exactly when the clip fits.
  method BackingClip(ghost logical: Pixel -> bool, oracle: Rect -> Containment, backing: Region, r: Rect,
      qx: real, qy: real)
    requires qx > 0.0 && qy > 0.0 && Sound(oracle, logical) && backing.Valid()
    modifies backing
    ensures backing.Valid()
    ensures Added(old(backing.pixels), backing.pixels, logical, r, qx, qy) <==> ClipFits(logical, r, qx, qy)
    decreases if r.IsEmpty() then 0 else r.Width() + r.Height()
  {
    hide Stored, InBox, Backing, PixelFits, Overlaps;
    ghost var before := backing.pixels;
    if r.IsEmpty() {
      assert forall l :: !r.Contains(l);
      return;
    }
    var inside := oracle(r);
    if inside == Out {
      return;
    }
    if inside == In || (r.Width() == 1 && r.Height() == 1) {
      backing.UnionRect(Backing(r, qx, qy));
      assert forall l :: r.Contains(l) ==> logical(l);
      AddedWhole(before, backing.pixels, logical, r, qx, qy);
    } else {
      var w, h := r.Width(), r.Height();
      var first := if w >= h then Rect(r.x1, r.y1, r.x1 + w / 2, r.y2) else Rect(r.x1, r.y1, r.x2, r.y1 + h / 2);
      var second := if w >= h then Rect(r.x1 + w / 2, r.y1, r.x2, r.y2) else Rect(r.x1, r.y1 + h / 2, r.x2, r.y2);
      BackingClip(logical, oracle, backing, first, qx, qy);
      ghost var between := backing.pixels;
      BackingClip(logical, oracle, backing, second, qx, qy);
      AddedParts(before, between, backing.pixels, logical, r, first, second, qx, qy);
    }
    AddedOnlyIfFits(before, backing.pixels, logical, r, qx, qy);
  }

  lemma AddedWhole(before: set<Pixel>, after: set<Pixel>, logical: Pixel -> bool, r: Rect, qx: real, qy: real)
    requires !r.IsEmpty() && qx > 0.0 && qy > 0.0 && forall l :: r.Contains(l) ==> logical(l)
    requires forall p :: p in after <==> p in before || Stored(Backing(r, qx, qy)).Contains(p)
    ensures ClipFits(logical, r, qx, qy) ==> Added(before, after, logical, r, qx, qy)
  {
    if ClipFits(logical, r, qx, qy) {
      hide Stored, Backing, Touched, ClipFits;
      WholeStoredIff(logical, r, qx, qy);
    }
  }

  lemma AddedParts(before: set<Pixel>, between: set<Pixel>, after: set<Pixel>, logical: Pixel -> bool,
      r: Rect, a: Rect, b: Rect, qx: real, qy: real)
    requires forall l :: r.Contains(l) <==> a.Contains(l) || b.Contains(l)
    requires ClipFits(logical, a, qx, qy) ==> Added(before, between, logical, a, qx, qy)
    requires ClipFits(logical, b, qx, qy) ==> Added(between, after, logical, b, qx, qy)
    ensures ClipFits(logical, r, qx, qy) ==> Added(before, after, logical, r, qx, qy)
  {
    if ClipFits(logical, r, qx, qy) {
      forall p ensures Touched(logical, r, qx, qy, p) <==>
        Touched(logical, a, qx, qy, p) || Touched(logical, b, qx, qy, p)
      {
        SplitTouched(logical, r, a, b, qx, qy, p);
      }
      hide Touched, PixelFits;
    }
  }

  lemma AddedOnlyIfFits(before: set<Pixel>, after: set<Pixel>, logical: Pixel -> bool, r: Rect, qx: real, qy: real)
    requires qx > 0.0 && qy > 0.0 && forall p :: p in after ==> InBox(p)
    ensures Added(before, after, logical, r, qx, qy) ==> ClipFits(logical, r, qx, qy)
  {
    if !ClipFits(logical, r, qx, qy) {
      var p := MisfitTouches(logical, r, qx, qy);
      assert p !in after;
    }
  }

  // It happens at scale 2 with one clipped pixel 16384 to the right: a region can have that
  // pixel, but whatever the backing region then holds, it is not what it should.
  lemma FarPixelLost(before: set<Pixel>, after: set<Pixel>)
    requires forall p :: p in after ==> InBox(p)
    ensures var far := Pixel(0x4000, 0);
      InBox(far) && !Added(before, after, (l: Pixel) => l == far, Single(far), 2.0, 2.0)
  {
    var far := Pixel(0x4000, 0);
    var logical := (l: Pixel) => l == far;
    assert Single(far).Contains(far) && logical(far);
    assert !PixelFits(far, 2.0, 2.0);
    AddedOnlyIfFits(before, after, logical, Single(far), 2.0, 2.0);
  }

  // ----- drawBacking() ----------------------------------------------------------------

  function FloorDiv(b: int, q: real): int
    requires q > 0.0
  {
    (b as real / q).Floor
  }

  function CeilDiv(b: int, q: real): int
    requires q > 0.0
  {
    -((-(b as real / q)).Floor)
  }

  // The logical pixels that the clip is taken over, for a backing rectangle d.
  function Logical(d: Rect, qx: real, qy: real): Rect
    requires qx > 0.0 && qy > 0.0
  {
    Rect(FloorDiv(d.x1, qx), FloorDiv(d.y1, qy), CeilDiv(d.x2, qx), CeilDiv(d.y2, qy))
  }

  lemma FloorDivBelow(b: int, q: real, i: int)
    requires q > 0.0
    ensures FloorDiv(b, q) <= i <==> (b as real) < (i + 1) as real * q
  {
    var y := b as real / q;
    assert y * q == b as real;
    assert y.Floor as real <= y < (y.Floor + 1) as real;
    if y < (i + 1) as real { Times(y, (i + 1) as real, q); } else { Times((i + 1) as real, y, q); }
  }

  lemma CeilDivAbove(b: int, q: real, i: int)
    requires q > 0.0
    ensures i < CeilDiv(b, q) <==> i as real * q < b as real
  {
    var y := b as real / q;
    assert y * q == b as real;
    var v := -y;
    assert v.Floor as real <= v < (v.Floor + 1) as real;
    if i as real < y { Times(i as real, y, q); } else { Times(y, i as real, q); }
  }

  lemma Times(x: real, y: real, q: real)
    requires x <= y && q > 0.0
    ensures x * q <= y * q && (x < y ==> x * q < y * q)
  {
    assert (y - x) * q >= 0.0;
    assert x < y ==> (y - x) * q > 0.0;
  }

  // Scaled, the logical pixel and backing rectangle d share more than an edge.
  predicate Under(l: Pixel, d: Rect, qx: real, qy: real) {
    && d.x1 as real < (l.x + 1) as real * qx && l.x as real * qx < d.x2 as real
    && d.y1 as real < (l.y + 1) as real * qy && l.y as real * qy < d.y2 as real
  }

  // The clip is taken over exactly the logical pixels that d overlaps.
  lemma LogicalIsUnder(d: Rect, qx: real, qy: real, l: Pixel)
    requires qx > 0.0 && qy > 0.0
    ensures Logical(d, qx, qy).Contains(l) <==> Under(l, d, qx, qy)
  {
    hide FloorDiv, CeilDiv;
    FloorDivBelow(d.x1, qx, l.x);
    CeilDivAbove(d.x2, qx, l.x);
    FloorDivBelow(d.y1, qy, l.y);
    CeilDivAbove(d.y2, qy, l.y);
  }

  // The top left corner of backing pixel p lies in the scaled logical pixel.
  predicate Owns(l: Pixel, p: Pixel, qx: real, qy: real) {
    && l.x as real * qx <= p.x as real < (l.x + 1) as real * qx
    && l.y as real * qy <= p.y as real < (l.y + 1) as real * qy
  }

  // What a copy to d is clipped to: some clipped logical pixel under d overlaps it.
  ghost predicate ClippedIn(logical: Pixel -> bool, d: Rect, qx: real, qy: real, p: Pixel) {
    exists l :: Under(l, d, qx, qy) && logical(l) && Overlaps(l, p, qx, qy)
  }

  lemma OwnedIsClippedIn(logical: Pixel -> bool, d: Rect, qx: real, qy: real, p: Pixel, l: Pixel)
    requires qx > 0.0 && qy > 0.0 && d.Contains(p) && logical(l) && Owns(l, p, qx, qy)
    ensures ClippedIn(logical, d, qx, qy, p)
  {
    assert Under(l, d, qx, qy) && Overlaps(l, p, qx, qy);
  }

  // The native clip of a copy to backing rectangle d is exactly what the clipped logical
  // pixels under d overlap if and only if those fit; then every backing pixel of d whose own
  // logical pixel is in the clip is let through.
  method DrawBackingClip(ghost logical: Pixel -> bool, oracle: Rect -> Containment, d: Rect, qx: real, qy: real)
    returns (native: Region)
    requires qx > 0.0 && qy > 0.0 && Sound(oracle, logical)
    ensures fresh(native)
    ensures (forall p :: p in native.pixels <==> ClippedIn(logical, d, qx, qy, p)) <==>
      forall l :: Under(l, d, qx, qy) && logical(l) ==> PixelFits(l, qx, qy)
    ensures (forall l :: Under(l, d, qx, qy) && logical(l) ==> PixelFits(l, qx, qy)) ==>
      forall p, l :: d.Contains(p) && logical(l) && Owns(l, p, qx, qy) ==> p in native.pixels
  {
    native := new Region;
    native.Clear();
    var r := Logical(d, qx, qy);
    BackingClip(logical, oracle, native, r, qx, qy);
    hide PixelFits, Overlaps, Owns, Logical;
    forall l ensures r.Contains(l) <==> Under(l, d, qx, qy) {
      LogicalIsUnder(d, qx, qy, l);
    }
    hide Under;
    assert forall p :: ClippedIn(logical, d, qx, qy, p) <==> Touched(logical, r, qx, qy, p);
    forall p, l | d.Contains(p) && logical(l) && Owns(l, p, qx, qy) ensures ClippedIn(logical, d, qx, qy, p) {
      OwnedIsClippedIn(logical, d, qx, qy, p, l);
    }
    hide Touched, ClippedIn;
  }
}
