/**
 * The coordinate arithmetic of a rectangle region: the `|| 1` scale default,
 * conversion between percentages of a display extent and pixels, the one-shot
 * percent-to-pixel migration of the stored placement, and the drag clamp.
 * Every number of the region is a JavaScript number; here it is a `real`, so
 * the multiplications and divisions are exact.
 */
module Coords {

  /** The coordinate-space tag `coordstype` of a region. */
  datatype CoordsType = Px | Perc

  /**
   * JavaScript's `s || 1` on a number: a (falsy) zero scale factor stands
   * for "no scaling", every other factor is kept.
   */
  function ScaleOr1(s: real): (r: real)
    ensures r != 0.0
    ensures s != 0.0 ==> r == s
    ensures s == 0.0 ==> r == 1.0
  {
    if s != 0.0 then s else 1.0
  }

  /** A percentage `v` of the extent `extent`, in pixels: `(extent * v) / 100`. */
  function ToPixel(v: real, extent: real): (r: real)
    ensures extent != 0.0 ==> r * 100.0 / extent == v
    ensures 0.0 <= v <= 100.0 && 0.0 <= extent ==> 0.0 <= r <= extent
  {
    (extent * v) / 100.0
  }

  /** A pixel value `v` as a percentage of the extent `extent`: `(v * 100) / extent`. */
  function ToPercent(v: real, extent: real): (r: real)
    requires extent != 0.0
    ensures extent * r / 100.0 == v
    ensures 0.0 < extent && 0.0 <= v <= extent ==> 0.0 <= r <= 100.0
  {
    (v * 100.0) / extent
  }

  /** A percentage of a scaled pixel value is the scaled percentage. */
  lemma PercentIsLinear(s: real, v: real, extent: real)
    requires extent != 0.0
    ensures ToPercent(s * v, extent) == s * ToPercent(v, extent)
  {
    var w := ToPercent(v, extent);
    calc {
      extent * (s * w) / 100.0;
      s * (extent * w / 100.0);
      s * v;
    }
    ToPercentUnique(s * v, s * w, extent);
  }

  /** The percentage of a pixel value is the only value that scales back to it. */
  lemma ToPercentUnique(v: real, w: real, extent: real)
    requires extent != 0.0
    requires extent * w / 100.0 == v
    ensures ToPercent(v, extent) == w
  {
    calc {
      ToPercent(v, extent);
      (extent * w / 100.0) * 100.0 / extent;
      (extent * w) / extent;
      w;
    }
  }

  /**
   * The part of a region that an image-size update may rewrite: the unscaled
   * origin and size, and the coordinate-space tag they are expressed in.
   */
  datatype Placement = Placement(x: real, y: real, width: real, height: real, coords: CoordsType)

  /**
   * The geometry rewrite of `updateImageSize(wp, hp, sw, sh)`: a placement in
   * percentages is converted to pixels of the display extents `sw` and `sh`
   * and tagged as pixels; a placement already in pixels is left as it is.
   */
  function Migrate(p: Placement, sw: real, sh: real): (r: Placement)
    ensures r.coords == Px
    ensures p.coords == Px ==> r == p
    ensures p.coords == Perc && sw != 0.0 ==>
              ToPercent(r.x, sw) == p.x && ToPercent(r.width, sw) == p.width
    ensures p.coords == Perc && sh != 0.0 ==>
              ToPercent(r.y, sh) == p.y && ToPercent(r.height, sh) == p.height
    ensures p.coords == Perc && sw == 0.0 ==> r.x == 0.0 && r.width == 0.0
    ensures p.coords == Perc && sh == 0.0 ==> r.y == 0.0 && r.height == 0.0
  {
    match p.coords
    case Perc =>
      Placement(ToPixel(p.x, sw), ToPixel(p.y, sh), ToPixel(p.width, sw), ToPixel(p.height, sh), Px)
    case Px => p
  }

  /**
   * The migration happens once: after the first image-size update, any
   * further update, whatever the new sizes, leaves the placement as it is.
   */
  lemma MigrateOnce(p: Placement, sw1: real, sh1: real, sw2: real, sh2: real)
    ensures Migrate(Migrate(p, sw1, sh1), sw2, sh2) == Migrate(p, sw1, sh1)
  {
  }

  /** A position on the drawing stage. */
  datatype Point = Point(x: real, y: real)

  /**
   * The drag bound of the rectangle view: a dragged position is kept at
   * non-negative coordinates. Each coordinate of the result is the least
   * value that is both non-negative and no less than the requested one.
   */
  function DragBound(pos: Point): (r: Point)
    ensures 0.0 <= r.x && pos.x <= r.x && (r.x == pos.x || r.x == 0.0)
    ensures 0.0 <= r.y && pos.y <= r.y && (r.y == pos.y || r.y == 0.0)
  {
    var x := if pos.x < 0.0 then 0.0 else pos.x;
    var y := if pos.y < 0.0 then 0.0 else pos.y;
    Point(x, y)
  }

  /** Clamping a clamped position changes nothing; an allowed position is kept. */
  lemma DragBoundIdempotent(pos: Point)
    ensures DragBound(DragBound(pos)) == DragBound(pos)
    ensures 0.0 <= pos.x && 0.0 <= pos.y ==> DragBound(pos) == pos
  {
  }
}
