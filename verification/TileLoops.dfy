// The tile loops: 256-pixel tiles of the scaled image inside 1024-pixel pieces of the
// window.
module TileLoops {
  import opened Rects

  const TILE: int := 256
  const PIECE: int := 1024

  // How many of the rectangles contain a pixel.
  function Count(rects: seq<Rect>, p: Pixel): nat {
    if rects == [] then 0
    else Count(rects[..|rects| - 1], p) + (if rects[|rects| - 1].Contains(p) then 1 else 0)
  }

  // Each pixel of the area is in exactly one of the rectangles, any other in none.
  ghost predicate Partition(rects: seq<Rect>, area: Rect) {
    forall p :: Count(rects, p) == if area.Contains(p) then 1 else 0
  }

  lemma CountOne(rects: seq<Rect>, r: Rect, p: Pixel)
    ensures Count(rects + [r], p) == Count(rects, p) + (if r.Contains(p) then 1 else 0)
  {
    assert (rects + [r])[..|rects|] == rects;
  }

  lemma {:induction false} CountConcat(a: seq<Rect>, b: seq<Rect>, p: Pixel)
    ensures Count(a + b, p) == Count(a, p) + Count(b, p)
    decreases |b|
  {
    if b == [] {
      assert a + b == a;
    } else {
      var n := |b| - 1;
      CountConcat(a, b[..n], p);
      assert (a + b)[..|a + b| - 1] == a + b[..n];
    }
  }

  // Division of the source's language, which rounds towards zero.
  function TruncDiv(a: int, b: int): int
    requires b > 0
  {
    if a >= 0 then a / b else -((-a) / b)
  }

  // Pixels of the area that are drawn once the row at y is done up to x.
  predicate Done(area: Rect, x: int, y: int, height: int, p: Pixel) {
    area.Contains(p) && (p.y < y || (p.y < y + height && p.x < x))
  }

  // A tile of the image is one the tile cache accepts: on the grid, within the image,
  // neither empty nor larger than the scratch buffer.
  predicate TileOk(t: Rect, width: int, height: int) {
    && 0 <= t.x1 < t.x2 <= width && 0 <= t.y1 < t.y2 <= height
    && t.x1 % TILE == 0 && t.y1 % TILE == 0 && t.Width() <= TILE && t.Height() <= TILE
  }

  function Moved(r: Rect, dx: int, dy: int): Rect {
    Rect(r.x1 + dx, r.y1 + dy, r.x2 + dx, r.y2 + dy)
  }

  // What is drawn of a tile is its place in the image, as far as the clip goes.
  ghost predicate InPlace(drawn: Rect, tile: Rect, ox: int, oy: int, clip: Rect) {
    drawn == Moved(tile, ox, oy).Intersect(clip)
  }

  lemma PlacedTile(tx: int, ty: int, tw: int, th: int, ox: int, oy: int, clip: Rect)
    ensures InPlace(Rect(tx + ox, ty + oy, tx + ox + tw, ty + oy + th).Intersect(clip),
      Rect(tx, ty, tx + tw, ty + th), ox, oy, clip)
  {
  }

  lemma GridTile(tx: int, ty: int, width: int, height: int)
    requires 0 <= tx < width && 0 <= ty < height && tx % TILE == 0 && ty % TILE == 0
    ensures TileOk(Rect(tx, ty, tx + Min(TILE, width - tx), ty + Min(TILE, height - ty)), width, height)
  {
  }

  // The first tile starts at the last grid line not past the clip.
  lemma StartsBefore(d: int)
    requires d >= 0
    ensures var start := TruncDiv(d, TILE) * TILE; 0 <= start <= d < start + TILE && start % TILE == 0
  {
  }

  // The loops of renderDesktop(), for an image at (ox, oy). `drawn` is what is copied
  // to the destination, `tiles` what is asked of the cache.
  method RenderTiles(clip: Rect, ox: int, oy: int, width: int, height: int)
    returns (drawn: seq<Rect>, tiles: seq<Rect>)
    requires !clip.IsEmpty() && ox <= clip.x1 && oy <= clip.y1 && clip.x2 <= ox + width && clip.y2 <= oy + height
    ensures Partition(drawn, clip)
    ensures |tiles| == |drawn| && forall i :: 0 <= i < |tiles| ==> TileOk(tiles[i], width, height)
    ensures forall i :: 0 <= i < |drawn| ==> !drawn[i].IsEmpty() && InPlace(drawn[i], tiles[i], ox, oy, clip)
  {
    hide InPlace, TileOk, TruncDiv;
    StartsBefore(clip.x1 - ox);
    StartsBefore(clip.y1 - oy);
    drawn, tiles := [], [];
    var startX := TruncDiv(clip.x1 - ox, TILE) * TILE;
    var startY := TruncDiv(clip.y1 - oy, TILE) * TILE;
    var ty := startY;
    while ty < clip.y2 - oy
      invariant 0 <= ty && ty % TILE == 0 && (ty == startY || clip.y1 - oy < ty)
      invariant forall p :: Count(drawn, p) == if Done(clip, clip.x1, ty + oy, 0, p) then 1 else 0
      invariant |tiles| == |drawn| && forall i :: 0 <= i < |tiles| ==> TileOk(tiles[i], width, height)
      invariant forall i :: 0 <= i < |drawn| ==> !drawn[i].IsEmpty() && InPlace(drawn[i], tiles[i], ox, oy, clip)
    {
      var tx := startX;
      while tx < clip.x2 - ox
        invariant 0 <= tx && tx % TILE == 0 && (tx == startX || clip.x1 - ox < tx)
        invariant forall p :: Count(drawn, p) == if Done(clip, tx + ox, ty + oy, TILE, p) then 1 else 0
        invariant |tiles| == |drawn| && forall i :: 0 <= i < |tiles| ==> TileOk(tiles[i], width, height)
        invariant forall i :: 0 <= i < |drawn| ==> !drawn[i].IsEmpty() && InPlace(drawn[i], tiles[i], ox, oy, clip)
      {
        var tw, th := Min(TILE, width - tx), Min(TILE, height - ty);
        assert TileOk(Rect(tx, ty, tx + tw, ty + th), width, height) by { GridTile(tx, ty, width, height); }
        tiles := tiles + [Rect(tx, ty, tx + tw, ty + th)];
        var left, top := tx + ox, ty + oy;
        var visible := Rect(left, top, left + tw, top + th).Intersect(clip);
        forall p ensures Count(drawn + [visible], p) == Count(drawn, p) + (if visible.Contains(p) then 1 else 0) {
          CountOne(drawn, visible, p);
        }
        assert InPlace(visible, Rect(tx, ty, tx + tw, ty + th), ox, oy, clip) by {
          PlacedTile(tx, ty, tw, th, ox, oy, clip);
        }
        assert visible.Contains(Pixel(Max(left, clip.x1), Max(top, clip.y1)));
        drawn := drawn + [visible];
        tx := tx + TILE;
      }
      ty := ty + TILE;
    }
  }

  // The loops of a window's draw(): each piece is composed and then copied out.
  method WindowPieces(area: Rect) returns (pieces: seq<Rect>)
    ensures Partition(pieces, area)
    ensures forall i :: 0 <= i < |pieces| ==>
      !pieces[i].IsEmpty() && pieces[i].Width() <= PIECE && pieces[i].Height() <= PIECE
  {
    pieces := [];
    var top := area.y1;
    while top < area.y2
      invariant area.y1 <= top
      invariant forall p :: Count(pieces, p) == if Done(area, area.x1, top, 0, p) then 1 else 0
      invariant forall i :: 0 <= i < |pieces| ==>
        !pieces[i].IsEmpty() && pieces[i].Width() <= PIECE && pieces[i].Height() <= PIECE
    {
      var left := area.x1;
      while left < area.x2
        invariant area.x1 <= left
        invariant forall p :: Count(pieces, p) == if Done(area, left, top, PIECE, p) then 1 else 0
        invariant forall i :: 0 <= i < |pieces| ==>
          !pieces[i].IsEmpty() && pieces[i].Width() <= PIECE && pieces[i].Height() <= PIECE
      {
        var tw, th := Min(PIECE, area.x2 - left), Min(PIECE, area.y2 - top);
        var piece := Rect(left, top, left + tw, top + th);
        forall p ensures Count(pieces + [piece], p) == Count(pieces, p) + (if piece.Contains(p) then 1 else 0) {
          CountOne(pieces, piece, p);
        }
        pieces := pieces + [piece];
        left := left + PIECE;
      }
      top := top + PIECE;
    }
  }

  // A whole draw: the view draws its tiles into every piece of the window. Each pixel
  // of the image to be shown is drawn exactly once over all pieces, and no other is.
  method DrawWindow(window: Rect, clip: Rect, ox: int, oy: int, width: int, height: int) returns (drawn: seq<Rect>)
    requires clip.IsEmpty() || (ox <= clip.x1 && oy <= clip.y1 && clip.x2 <= ox + width && clip.y2 <= oy + height)
    ensures Partition(drawn, window.Intersect(clip))
  {
    drawn := [];
    var pieces := WindowPieces(window);
    var i := 0;
    while i < |pieces|
      invariant 0 <= i <= |pieces|
      invariant forall p :: Count(drawn, p) == if clip.Contains(p) then Count(pieces[..i], p) else 0
    {
      var part := clip.Intersect(pieces[i]);
      assert pieces[..i + 1] == pieces[..i] + [pieces[i]];
      forall p ensures Count(pieces[..i + 1], p) == Count(pieces[..i], p) + (if pieces[i].Contains(p) then 1 else 0) {
        CountOne(pieces[..i], pieces[i], p);
      }
      if !part.IsEmpty() {
        var more, tiles := RenderTiles(part, ox, oy, width, height);
        forall p ensures Count(drawn + more, p) == Count(drawn, p) + Count(more, p) {
          CountConcat(drawn, more, p);
        }
        drawn := drawn + more;
      } else {
        assert forall p :: !part.Contains(p);
      }
      i := i + 1;
    }
    assert pieces[..i] == pieces;
  }
}
