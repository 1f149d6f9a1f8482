/**
 The crop geometry of the editor: the render matrix, its closed form, and what it means
 for a crop to be valid.  Angles carry their cosine and sine; arithmetic is over the reals.
 */
module Crop {
  import opened Basics
  import opened Reals
  import opened Affines

  datatype Rect = Rect(width: real, height: real)

  datatype Rotation = Rotation(deg: real, cos: real, sin: real)

  const UPRIGHT := Rotation(0.0, 1.0, 0.0)

  datatype EditTransform = EditTransform(
    translateX: real, translateY: real, scale: real, rotation: Rotation, flipX: bool)

  const IDENTITY_TRANSFORM := EditTransform(0.0, 0.0, 1.0, UPRIGHT, false)

  const MIN_SCALE := 1.0
  const MAX_SCALE := 8.0
  const SLACK := 0.000001

  predicate ProperRect(r: Rect) {
    r.width > 0.0 && r.height > 0.0
  }

  /** Cosine and sine lie on the unit circle, and those of no rotation are 1 and 0. */
  predicate ProperRotation(r: Rotation) {
    r.cos * r.cos + r.sin * r.sin == 1.0 && (r.deg == 0.0 ==> r == UPRIGHT)
  }

  predicate Proper(t: EditTransform) {
    t.scale > 0.0 && ProperRotation(t.rotation)
  }

  function CoverScale(src: Rect, out: Rect): real
    requires ProperRect(src)
  {
    MaxReal(Over(out.width, src.width), Over(out.height, src.height))
  }

  /** Source pixels to canvas pixels so that the source just covers the canvas, centred. */
  function Cover(src: Rect, out: Rect): Affine
    requires ProperRect(src)
  {
    var cs := CoverScale(src, out);
    Affine(cs, 0.0, 0.0, cs, (out.width - src.width * cs) / 2.0, (out.height - src.height * cs) / 2.0)
  }

  function ToCentre(out: Rect): Affine {
    Affine(1.0, 0.0, 0.0, 1.0, out.width / 2.0, out.height / 2.0)
  }

  function FromCentre(out: Rect): Affine {
    Affine(1.0, 0.0, 0.0, 1.0, -(out.width / 2.0), -(out.height / 2.0))
  }

  function Zoom(t: EditTransform): Affine {
    Affine(t.scale, 0.0, 0.0, t.scale, 0.0, 0.0)
  }

  function Flip(t: EditTransform, out: Rect): Affine {
    if t.flipX then Affine(-1.0, 0.0, 0.0, 1.0, out.width, 0.0) else IDENTITY
  }

  function Turn(t: EditTransform): Affine {
    Affine(t.rotation.cos, -t.rotation.sin, t.rotation.sin, t.rotation.cos, 0.0, 0.0)
  }

  function Translation(t: EditTransform, out: Rect): Affine {
    Affine(1.0, 0.0, 0.0, 1.0, Times(t.translateX, out.width), Times(t.translateY, out.height))
  }

  /** cover, then scale, flip, rotation and translation, the middle three about the canvas centre. */
  function RenderMatrix(t: EditTransform, src: Rect, out: Rect): Affine
    requires ProperRect(src)
  {
    Compose(
      Translation(t, out),
      Compose(
        ToCentre(out),
        Compose(
          Turn(t),
          Compose(
            FromCentre(out),
            Compose(
              Flip(t, out),
              Compose(ToCentre(out), Compose(Zoom(t), Compose(FromCentre(out), Cover(src, out)))))))))
  }

  // ----- the closed form -----

  /** Canvas pixels per source pixel. */
  function Magnification(t: EditTransform, src: Rect, out: Rect): real
    requires ProperRect(src)
  {
    Times(CoverScale(src, out), t.scale)
  }

  function Mirror(flipX: bool): real {
    if flipX then -1.0 else 1.0
  }

  /** The map that turns and magnifies about the source centre, put at the canvas centre plus the translation. */
  function Centred(t: EditTransform, k: real, src: Rect, out: Rect): Affine {
    var m, c, s := Mirror(t.flipX), t.rotation.cos, t.rotation.sin;
    Affine(
      m * c * k, -(m * s * k), s * k, c * k,
      out.width / 2.0 + Times(t.translateX, out.width) - (m * c * k * (src.width / 2.0) + s * k * (src.height / 2.0)),
      out.height / 2.0 + Times(t.translateY, out.height)
      - (-(m * s * k) * (src.width / 2.0) + c * k * (src.height / 2.0)))
  }

  /** Cover and scale, seen from the canvas centre. */
  function Scaled(t: EditTransform, src: Rect, out: Rect): Affine
    requires ProperRect(src)
  {
    var k := Magnification(t, src, out);
    Affine(k, 0.0, 0.0, k, -(src.width / 2.0 * k), -(src.height / 2.0 * k))
  }

  /** Then the flip, seen from there too. */
  function Flipped(t: EditTransform, src: Rect, out: Rect): Affine
    requires ProperRect(src)
  {
    var k, m := Magnification(t, src, out), Mirror(t.flipX);
    Affine(m * k, 0.0, 0.0, k, -(m * k * (src.width / 2.0)), -(src.height / 2.0 * k))
  }

  lemma ScalesCentred(t: EditTransform, src: Rect, out: Rect)
    requires ProperRect(src)
    ensures Compose(Zoom(t), Compose(FromCentre(out), Cover(src, out))) == Scaled(t, src, out)
  {
    hide CoverScale;
    var cs := CoverScale(src, out);
    assert Compose(FromCentre(out), Cover(src, out)) ==
           Affine(cs, 0.0, 0.0, cs, -(src.width / 2.0 * cs), -(src.height / 2.0 * cs));
  }

  lemma FlipsCentred(t: EditTransform, src: Rect, out: Rect)
    requires ProperRect(src)
    ensures Compose(FromCentre(out), Compose(Flip(t, out), Compose(ToCentre(out), Scaled(t, src, out)))) ==
            Flipped(t, src, out)
  {
    hide CoverScale, Magnification;
  }

  /** Then the rotation. */
  function Turned(t: EditTransform, src: Rect, out: Rect): Affine
    requires ProperRect(src)
  {
    var k, m, c, s := Magnification(t, src, out), Mirror(t.flipX), t.rotation.cos, t.rotation.sin;
    Affine(
      m * c * k, -(m * s * k), s * k, c * k,
      -(m * c * k * (src.width / 2.0) + s * k * (src.height / 2.0)),
      -(-(m * s * k) * (src.width / 2.0) + c * k * (src.height / 2.0)))
  }

  lemma TurnsFlipped(t: EditTransform, src: Rect, out: Rect)
    requires ProperRect(src)
    ensures Compose(Turn(t), Flipped(t, src, out)) == Turned(t, src, out)
  {
    hide CoverScale, Magnification;
  }

  lemma ShiftsCentred(t: EditTransform, src: Rect, out: Rect)
    requires ProperRect(src)
    ensures Compose(Translation(t, out), Compose(ToCentre(out), Turned(t, src, out))) ==
            Centred(t, Magnification(t, src, out), src, out)
  {
    hide CoverScale, Magnification;
  }

  /** The nine matrices compose to that map. */
  lemma RenderIsCentred(t: EditTransform, src: Rect, out: Rect)
    requires ProperRect(src)
    ensures RenderMatrix(t, src, out) == Centred(t, Magnification(t, src, out), src, out)
  {
    hide Compose, Turn, Flip, Zoom, ToCentre, FromCentre, Translation, Cover;
    hide Centred, Scaled, Flipped, Turned, Magnification;
    ScalesCentred(t, src, out);
    FlipsCentred(t, src, out);
    TurnsFlipped(t, src, out);
    ShiftsCentred(t, src, out);
  }

  lemma CoverScaleIsPositive(src: Rect, out: Rect)
    requires ProperRect(src) && ProperRect(out)
    ensures CoverScale(src, out) > 0.0
    ensures Times(CoverScale(src, out), src.width) >= out.width && Times(CoverScale(src, out), src.height) >= out.height
  {
    hide Times, Over;
    OverIsPositive(out.width, src.width);
    OverUndoes(out.width, src.width);
    OverUndoes(out.height, src.height);
    TimesGrows(src.width, Over(out.width, src.width), CoverScale(src, out));
    TimesGrows(src.height, Over(out.height, src.height), CoverScale(src, out));
  }

  /** det = +-(cover scale * scale)^2, so a positive scale makes the matrix invertible. */
  lemma RenderDeterminant(t: EditTransform, src: Rect, out: Rect)
    requires ProperRect(src) && ProperRotation(t.rotation)
    ensures
      var area := Square(Magnification(t, src, out));
      Det(RenderMatrix(t, src, out)) == if t.flipX then -area else area
  {
    hide Magnification, RenderMatrix;
    RenderIsCentred(t, src, out);
    CircleTimes(t.rotation.cos, t.rotation.sin, Magnification(t, src, out));
  }

  lemma RenderIsRegular(t: EditTransform, src: Rect, out: Rect)
    requires ProperRect(src) && ProperRect(out) && Proper(t)
    ensures Det(RenderMatrix(t, src, out)) != 0.0
  {
    hide RenderMatrix, Magnification, Square;
    MagnificationIsPositive(t, src, out);
    RenderDeterminant(t, src, out);
    SquareIsZero(Magnification(t, src, out));
  }

  lemma CircleTimes(c: real, s: real, k: real)
    requires c * c + s * s == 1.0
    ensures (c * k) * (c * k) + (s * k) * (s * k) == Square(k)
  {
    assert (c * k) * (c * k) + (s * k) * (s * k) == (c * c + s * s) * (k * k);
  }

  // ----- validity -----

  predicate InSource(p: Point, src: Rect) {
    -SLACK <= p.x <= src.width + SLACK && -SLACK <= p.y <= src.height + SLACK
  }

  /** Whether all four corners of the canvas come from inside the source; `None` for a singular matrix. */
  function CornersInside(t: EditTransform, src: Rect, out: Rect): Option<bool>
    requires ProperRect(src)
  {
    match Invert(RenderMatrix(t, src, out))
    case None => None
    case Some(inv) =>
      Some(
        && InSource(Apply(inv, Point(0.0, 0.0)), src)
        && InSource(Apply(inv, Point(out.width, 0.0)), src)
        && InSource(Apply(inv, Point(0.0, out.height)), src)
        && InSource(Apply(inv, Point(out.width, out.height)), src))
  }

  predicate IsValid(t: EditTransform, src: Rect, out: Rect)
    requires ProperRect(src)
  {
    CornersInside(t, src, out) == Some(true)
  }

  /** The check raises an error only for a zero scale. */
  lemma ValidityIsDefined(t: EditTransform, src: Rect, out: Rect)
    requires ProperRect(src) && ProperRect(out) && ProperRotation(t.rotation)
    ensures CornersInside(t, src, out) == None <==> t.scale == 0.0
  {
    hide RenderMatrix, InSource, Square, CoverScale, Times;
    RenderDeterminant(t, src, out);
    CoverScaleIsPositive(src, out);
    SquareIsZero(Magnification(t, src, out));
    TimesZero(CoverScale(src, out));
    if t.scale > 0.0 {
      TimesIsPositive(CoverScale(src, out), t.scale);
    } else if t.scale < 0.0 {
      TimesIsPositive(CoverScale(src, out), -t.scale);
      TimesNegated(CoverScale(src, out), t.scale);
    }
  }

  // ----- validity in closed form -----

  /** A canvas point from the translated centre, turned back: the two coordinates the source sees. */
  function TurnedX(t: EditTransform, out: Rect, p: Point): real {
    t.rotation.cos * (p.x - out.width / 2.0 - Times(t.translateX, out.width))
    - t.rotation.sin * (p.y - out.height / 2.0 - Times(t.translateY, out.height))
  }

  function TurnedY(t: EditTransform, out: Rect, p: Point): real {
    t.rotation.sin * (p.x - out.width / 2.0 - Times(t.translateX, out.width))
    + t.rotation.cos * (p.y - out.height / 2.0 - Times(t.translateY, out.height))
  }

  /** Turning back a map that turns leaves the magnified distance from the centre. */
  lemma TurnsBack(c: real, s: real, k: real, x: real, y: real)
    requires c * c + s * s == 1.0
    ensures c * (c * k * x + s * k * y) - s * (-(s * k) * x + c * k * y) == k * x
    ensures s * (c * k * x + s * k * y) + c * (-(s * k) * x + c * k * y) == k * y
  {
    assert c * (c * k * x + s * k * y) - s * (-(s * k) * x + c * k * y) == (c * c + s * s) * (k * x);
    assert s * (c * k * x + s * k * y) + c * (-(s * k) * x + c * k * y) == (c * c + s * s) * (k * y);
  }

  /** A source point from the source centre, after the flip. */
  function OffCentreX(t: EditTransform, src: Rect, q: Point): real {
    if t.flipX then src.width / 2.0 - q.x else q.x - src.width / 2.0
  }

  function OffCentreY(src: Rect, q: Point): real {
    q.y - src.height / 2.0
  }

  /** Where a canvas point comes from, measured from the source centre. */
  lemma ComesFrom(t: EditTransform, src: Rect, out: Rect, p: Point)
    requires ProperRect(src) && ProperRect(out) && Proper(t)
    ensures Invert(RenderMatrix(t, src, out)).Some?
    ensures
      var k := Magnification(t, src, out);
      var q := Apply(Invert(RenderMatrix(t, src, out)).value, p);
      && k > 0.0
      && Times(k, OffCentreX(t, src, q)) == TurnedX(t, out, p) && Times(k, OffCentreY(src, q)) == TurnedY(t, out, p)
  {
    hide RenderMatrix, Magnification, TurnedX, TurnedY;
    MagnificationIsPositive(t, src, out);
    RenderIsRegular(t, src, out);
    InvertUndoes(RenderMatrix(t, src, out), p);
    RenderIsCentred(t, src, out);
    CentredTurns(t, Magnification(t, src, out), src, out, Apply(Invert(RenderMatrix(t, src, out)).value, p), p);
  }

  lemma MagnificationIsPositive(t: EditTransform, src: Rect, out: Rect)
    requires ProperRect(src) && ProperRect(out) && t.scale > 0.0
    ensures Magnification(t, src, out) > 0.0
  {
    hide Times, CoverScale;
    CoverScaleIsPositive(src, out);
    TimesIsPositive(CoverScale(src, out), t.scale);
  }

  lemma CentredTurns(t: EditTransform, k: real, src: Rect, out: Rect, q: Point, p: Point)
    requires ProperRotation(t.rotation) && p == Apply(Centred(t, k, src, out), q)
    ensures Times(k, OffCentreX(t, src, q)) == TurnedX(t, out, p) && Times(k, OffCentreY(src, q)) == TurnedY(t, out, p)
  {
    var c, s := t.rotation.cos, t.rotation.sin;
    var x, y := OffCentreX(t, src, q), OffCentreY(src, q);
    assert p.x - out.width / 2.0 - Times(t.translateX, out.width) == c * k * x + s * k * y;
    assert p.y - out.height / 2.0 - Times(t.translateY, out.height) == -(s * k) * x + c * k * y;
    TurnsBack(c, s, k, x, y);
  }

  /** The source's extent from its centre, with the slack, in canvas pixels. */
  function RoomX(t: EditTransform, src: Rect, out: Rect): real
    requires ProperRect(src)
  {
    Times(Magnification(t, src, out), src.width / 2.0 + SLACK)
  }

  function RoomY(t: EditTransform, src: Rect, out: Rect): real
    requires ProperRect(src)
  {
    Times(Magnification(t, src, out), src.height / 2.0 + SLACK)
  }

  /** The point lies inside the source exactly when both turned coordinates are within reach. */
  lemma InSourceIff(t: EditTransform, src: Rect, out: Rect, p: Point)
    requires ProperRect(src) && ProperRect(out) && Proper(t)
    ensures Invert(RenderMatrix(t, src, out)).Some?
    ensures
      InSource(Apply(Invert(RenderMatrix(t, src, out)).value, p), src) <==>
      Abs(TurnedX(t, out, p)) <= RoomX(t, src, out) && Abs(TurnedY(t, out, p)) <= RoomY(t, src, out)
  {
    hide RenderMatrix, Magnification, TurnedX, TurnedY, Times, Apply, Invert;
    ComesFrom(t, src, out, p);
    var k := Magnification(t, src, out);
    var q := Apply(Invert(RenderMatrix(t, src, out)).value, p);
    WithinScaled(k, OffCentreX(t, src, q), src.width / 2.0 + SLACK);
    WithinScaled(k, OffCentreY(src, q), src.height / 2.0 + SLACK);
  }

  /** The translation, turned back. */
  function PullX(t: EditTransform, out: Rect): real {
    Dot(t.rotation.cos, -t.rotation.sin, Times(t.translateX, out.width), Times(t.translateY, out.height))
  }

  function PullY(t: EditTransform, out: Rect): real {
    Dot(t.rotation.sin, t.rotation.cos, Times(t.translateX, out.width), Times(t.translateY, out.height))
  }

  /** Half of the box around the turned canvas. */
  function HalfX(r: Rotation, out: Rect): real {
    Times(Abs(r.cos), out.width / 2.0) + Times(Abs(r.sin), out.height / 2.0)
  }

  function HalfY(r: Rotation, out: Rect): real {
    Times(Abs(r.sin), out.width / 2.0) + Times(Abs(r.cos), out.height / 2.0)
  }

  /** How far the canvas corners reach from the source centre along each source axis, in canvas pixels. */
  function ReachX(t: EditTransform, out: Rect): real {
    Abs(PullX(t, out)) + HalfX(t.rotation, out)
  }

  function ReachY(t: EditTransform, out: Rect): real {
    Abs(PullY(t, out)) + HalfY(t.rotation, out)
  }

  predicate WithinReach(t: EditTransform, src: Rect, out: Rect)
    requires ProperRect(src)
  {
    ReachX(t, out) <= RoomX(t, src, out) && ReachY(t, out) <= RoomY(t, src, out)
  }

  /** `p` and `q` are the magnitudes of `u` and `v`. */
  lemma FourCorners(
    a: real, b: real, c: real, d: real, u: real, v: real, p: real, q: real, shift: real, limit: real)
    requires a == -u - v - shift && b == u - v - shift && c == -u + v - shift && d == u + v - shift
    requires p >= 0.0 && (p == u || p == -u) && q >= 0.0 && (q == v || q == -v)
    ensures Abs(a) <= limit && Abs(b) <= limit && Abs(c) <= limit && Abs(d) <= limit <==> Abs(shift) + (p + q) <= limit
  {
  }

  /** Four corners inside is one inequality per source axis. */
  lemma ValidIffWithinReach(t: EditTransform, src: Rect, out: Rect)
    requires ProperRect(src) && ProperRect(out) && Proper(t)
    ensures IsValid(t, src, out) <==> WithinReach(t, src, out)
  {
    hide RenderMatrix, RoomX, RoomY, TurnedX, TurnedY, InSource, ReachX, ReachY, Abs, Apply, Invert;
    InSourceIff(t, src, out, Point(0.0, 0.0));
    InSourceIff(t, src, out, Point(out.width, 0.0));
    InSourceIff(t, src, out, Point(0.0, out.height));
    InSourceIff(t, src, out, Point(out.width, out.height));
    RenderIsRegular(t, src, out);
    CornersReach(t, out, RoomX(t, src, out), RoomY(t, src, out));
  }

  lemma CornersReach(t: EditTransform, out: Rect, limitX: real, limitY: real)
    requires ProperRect(out)
    ensures
      && Abs(TurnedX(t, out, Point(0.0, 0.0))) <= limitX && Abs(TurnedX(t, out, Point(out.width, 0.0))) <= limitX
      && Abs(TurnedX(t, out, Point(0.0, out.height))) <= limitX
      && Abs(TurnedX(t, out, Point(out.width, out.height))) <= limitX
      <==> ReachX(t, out) <= limitX
    ensures
      && Abs(TurnedY(t, out, Point(0.0, 0.0))) <= limitY && Abs(TurnedY(t, out, Point(out.width, 0.0))) <= limitY
      && Abs(TurnedY(t, out, Point(0.0, out.height))) <= limitY
      && Abs(TurnedY(t, out, Point(out.width, out.height))) <= limitY
      <==> ReachY(t, out) <= limitY
  {
    hide Abs, TurnedX, TurnedY, PullX, PullY, Times;
    CornersTurned(t, out);
    var c, s, w, h := t.rotation.cos, t.rotation.sin, out.width / 2.0, out.height / 2.0;
    Magnitude(c, w);
    Magnitude(s, h);
    Magnitude(s, w);
    Magnitude(c, h);
    FourCorners(
      TurnedX(t, out, Point(0.0, out.height)), TurnedX(t, out, Point(out.width, out.height)),
      TurnedX(t, out, Point(0.0, 0.0)), TurnedX(t, out, Point(out.width, 0.0)),
      Times(c, w), Times(s, h), Times(Abs(c), w), Times(Abs(s), h), PullX(t, out), limitX);
    FourCorners(
      TurnedY(t, out, Point(0.0, 0.0)), TurnedY(t, out, Point(out.width, 0.0)),
      TurnedY(t, out, Point(0.0, out.height)), TurnedY(t, out, Point(out.width, out.height)),
      Times(s, w), Times(c, h), Times(Abs(s), w), Times(Abs(c), h), PullY(t, out), limitY);
  }

  lemma CornersTurned(t: EditTransform, out: Rect)
    ensures
      var c, s, w, h := t.rotation.cos, t.rotation.sin, out.width / 2.0, out.height / 2.0;
      var a, b := PullX(t, out), PullY(t, out);
      && TurnedX(t, out, Point(0.0, 0.0)) == -Times(c, w) + Times(s, h) - a
      && TurnedX(t, out, Point(out.width, 0.0)) == Times(c, w) + Times(s, h) - a
      && TurnedX(t, out, Point(0.0, out.height)) == -Times(c, w) - Times(s, h) - a
      && TurnedX(t, out, Point(out.width, out.height)) == Times(c, w) - Times(s, h) - a
      && TurnedY(t, out, Point(0.0, 0.0)) == -Times(s, w) - Times(c, h) - b
      && TurnedY(t, out, Point(out.width, 0.0)) == Times(s, w) - Times(c, h) - b
      && TurnedY(t, out, Point(0.0, out.height)) == -Times(s, w) + Times(c, h) - b
      && TurnedY(t, out, Point(out.width, out.height)) == Times(s, w) + Times(c, h) - b
  {
  }
}
