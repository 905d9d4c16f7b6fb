/** Compositing an object image onto the canvas (`_paste_object`): a binary
    mask is taken from the object's gray image (set where gray > 1), the background
    is kept where the mask is clear, the object where it is set, and the two
    are added with saturation into the canvas region at (x, y). Images are in
    OpenCV's BGR channel order. */
module Compositor {
  import opened Geometry

  newtype byte = x: int | 0 <= x < 256

  datatype Pixel = Pixel(b: byte, g: byte, r: byte)

  const Black := Pixel(0, 0, 0)

  /** An image as rows of pixels, top row first. */
  type Grid = seq<seq<Pixel>>

  function Width(g: Grid): nat {
    if g == [] then 0 else |g[0]|
  }

  predicate Rectangular(g: Grid) {
    forall i :: 0 <= i < |g| ==> |g[i]| == Width(g)
  }

  /** np.zeros((h, w, 3), dtype=np.uint8). */
  function Blank(h: nat, w: nat): (g: Grid)
    ensures |g| == h && forall i :: 0 <= i < h ==> |g[i]| == w
    ensures forall i, j :: 0 <= i < h && 0 <= j < w ==> g[i][j] == Black
  {
    seq(h, i => seq(w, j => Black))
  }

  /** cv2.threshold(gray, 1, 255, THRESH_BINARY) on one pixel. */
  function Threshold(gray: byte): byte {
    if gray > 1 then 255 else 0
  }

  /** cv2.bitwise_not on an 8-bit value. */
  function BitwiseNot(v: byte): byte {
    255 - v
  }

  /** cv2.bitwise_and(src, src, mask=m) on one pixel: the pixel where the
      mask is set, black elsewhere. */
  function Masked(p: Pixel, m: byte): Pixel {
    if m != 0 then p else Black
  }

  /** cv2.add on 8-bit values saturates at 255. */
  function SaturatingAdd(a: byte, b: byte): byte {
    if a as int + b as int > 255 then 255 else a + b
  }

  function AddPixels(p: Pixel, q: Pixel): Pixel {
    Pixel(SaturatingAdd(p.b, q.b), SaturatingAdd(p.g, q.g), SaturatingAdd(p.r, q.r))
  }

  /** A resized object image together with its gray image (cv2.cvtColor to
      gray), which has the same shape. */
  datatype Sprite = Sprite(pixels: Grid, gray: seq<seq<byte>>)

  predicate WellFormed(s: Sprite) {
    Rectangular(s.pixels) && |s.gray| == |s.pixels| &&
    forall i :: 0 <= i < |s.gray| ==> |s.gray[i]| == |s.pixels[i]|
  }

  function Height(s: Sprite): nat { |s.pixels| }
  function SpriteWidth(s: Sprite): nat { Width(s.pixels) }

  /** A gray value above the threshold: the object pixel covers the background. */
  predicate Opaque(gray: byte) {
    gray > 1
  }

  /** One pixel of the pasted region: bg + fg with bg = roi under the inverted
      mask and fg = object under the mask. The masks are complementary, so the
      addition never saturates and the result is one of the two inputs. */
  function Combine(roi: Pixel, obj: Pixel, gray: byte): (p: Pixel)
    ensures p == if Opaque(gray) then obj else roi
  {
    var mask := Threshold(gray);
    AddPixels(Masked(roi, BitwiseNot(mask)), Masked(obj, mask))
  }

  /** The object, at column x and row y, lies wholly inside the grid. */
  predicate Fits(g: Grid, obj: Sprite, x: nat, y: nat) {
    WellFormed(obj) && y + Height(obj) <= |g| &&
    forall i :: y <= i < y + Height(obj) ==> x + SpriteWidth(obj) <= |g[i]|
  }

  /** The pixel box the object covers when its top-left corner is at (x, y). */
  function Footprint(obj: Sprite, x: nat, y: nat): Box {
    Box(x, y, SpriteWidth(obj), Height(obj))
  }

  /** Row i, column j lies in the box. */
  predicate Covers(b: Box, i: int, j: int) {
    b.y <= i < b.y + b.h && b.x <= j < b.x + b.w
  }

  /** The region base_img[y:y+h, x:x+w] replaced by the combined pixels: inside
      the object's footprint the object pixel where its gray value exceeds 1 and
      the old pixel elsewhere; outside the footprint nothing changes. */
  function PasteGrid(g: Grid, obj: Sprite, x: nat, y: nat): (r: Grid)
    requires Fits(g, obj, x, y)
    ensures |r| == |g| && forall i :: 0 <= i < |g| ==> |r[i]| == |g[i]|
    ensures forall i, j :: 0 <= i < |g| && 0 <= j < |g[i]| ==>
      r[i][j] == if Covers(Footprint(obj, x, y), i, j) && Opaque(obj.gray[i - y][j - x])
        then obj.pixels[i - y][j - x] else g[i][j]
  {
    seq(|g|, i requires 0 <= i < |g| =>
      seq(|g[i]|, j requires 0 <= j < |g[i]| =>
        if Covers(Footprint(obj, x, y), i, j)
        then Combine(g[i][j], obj.pixels[i - y][j - x], obj.gray[i - y][j - x])
        else g[i][j]))
  }

  /** Pasting the same object at the same place twice is pasting it once. */
  lemma PasteIdempotent(g: Grid, obj: Sprite, x: nat, y: nat)
    requires Fits(g, obj, x, y)
    ensures Fits(PasteGrid(g, obj, x, y), obj, x, y)
    ensures PasteGrid(PasteGrid(g, obj, x, y), obj, x, y) == PasteGrid(g, obj, x, y)
  {
    var once := PasteGrid(g, obj, x, y);
    assert Fits(once, obj, x, y);
    var twice := PasteGrid(once, obj, x, y);
    assert forall i :: 0 <= i < |g| ==> twice[i] == once[i];
  }

  /** An object whose gray image is nowhere above the threshold leaves the canvas as it was. */
  lemma PasteTransparent(g: Grid, obj: Sprite, x: nat, y: nat)
    requires Fits(g, obj, x, y)
    requires forall i, j :: 0 <= i < |obj.gray| && 0 <= j < |obj.gray[i]| ==> !Opaque(obj.gray[i][j])
    ensures PasteGrid(g, obj, x, y) == g
  {
    var r := PasteGrid(g, obj, x, y);
    assert forall i :: 0 <= i < |g| ==> r[i] == g[i];
  }

  /** Objects pasted into disjoint regions do not interfere: their order does not matter. */
  lemma PasteCommutes(g: Grid, a: Sprite, xa: nat, ya: nat, b: Sprite, xb: nat, yb: nat)
    requires Fits(g, a, xa, ya) && Fits(g, b, xb, yb)
    requires Separated(Footprint(a, xa, ya), Footprint(b, xb, yb))
    ensures Fits(PasteGrid(g, a, xa, ya), b, xb, yb) && Fits(PasteGrid(g, b, xb, yb), a, xa, ya)
    ensures PasteGrid(PasteGrid(g, a, xa, ya), b, xb, yb) == PasteGrid(PasteGrid(g, b, xb, yb), a, xa, ya)
  {
    var ga, gb := PasteGrid(g, a, xa, ya), PasteGrid(g, b, xb, yb);
    assert Fits(ga, b, xb, yb) && Fits(gb, a, xa, ya);
    var ab, ba := PasteGrid(ga, b, xb, yb), PasteGrid(gb, a, xa, ya);
    assert forall i, j :: 0 <= i < |g| && 0 <= j < |g[i]| ==>
      !(Covers(Footprint(a, xa, ya), i, j) && Covers(Footprint(b, xb, yb), i, j));
    assert forall i :: 0 <= i < |g| ==> ab[i] == ba[i];
  }

  /** The pixels of a canvas array as a grid. */
  ghost function Snapshot(a: array2<Pixel>): (g: Grid)
    reads a
    ensures |g| == a.Length0 && forall i :: 0 <= i < |g| ==> |g[i]| == a.Length1
  {
    seq(a.Length0, i reads a requires 0 <= i < a.Length0 =>
      seq(a.Length1, j reads a requires 0 <= j < a.Length1 => a[i, j]))
  }

  /** `_paste_object`: updates the canvas in place, region by region as the
      slice assignment does. */
  method PasteObject(canvas: array2<Pixel>, obj: Sprite, x: nat, y: nat)
    requires WellFormed(obj) && y + Height(obj) <= canvas.Length0 && x + SpriteWidth(obj) <= canvas.Length1
    modifies canvas
    ensures Fits(old(Snapshot(canvas)), obj, x, y)
    ensures Snapshot(canvas) == PasteGrid(old(Snapshot(canvas)), obj, x, y)
  {
    ghost var before := Snapshot(canvas);
    forall i, j | y <= i < y + Height(obj) && x <= j < x + SpriteWidth(obj) {
      canvas[i, j] := Combine(canvas[i, j], obj.pixels[i - y][j - x], obj.gray[i - y][j - x]);
    }
    assert Fits(before, obj, x, y);
    ghost var after := Snapshot(canvas);
    ghost var expected := PasteGrid(before, obj, x, y);
    assert forall i, j :: 0 <= i < canvas.Length0 && 0 <= j < canvas.Length1 ==> after[i][j] == expected[i][j];
    assert forall i :: 0 <= i < canvas.Length0 ==> after[i] == expected[i];
  }
}
