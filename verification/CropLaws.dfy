/** What validity of a crop implies: no blank pixel, convexity, monotony, and independence of the output size. */
module CropLaws {
  import opened Basics
  import opened Reals
  import opened Affines
  import opened Crop

  predicate InCanvas(p: Point, out: Rect) {
    0.0 <= p.x <= out.width && 0.0 <= p.y <= out.height
  }

  lemma TurnedIsPulled(t: EditTransform, out: Rect, p: Point)
    ensures
      var c, s, x, y := t.rotation.cos, t.rotation.sin, p.x - out.width / 2.0, p.y - out.height / 2.0;
      && TurnedX(t, out, p) == Times(c, x) - Times(s, y) - PullX(t, out)
      && TurnedY(t, out, p) == Times(s, x) + Times(c, y) - PullY(t, out)
  {
  }

  /** The two coordinates of a point of the canvas, turned, stay within the box of the turned canvas. */
  lemma TurnedWithin(c: real, s: real, x: real, y: real, w: real, h: real, pull: real, turned: real)
    requires -w <= x <= w && -h <= y <= h
    requires turned == Times(c, x) + Times(s, y) - pull || turned == Times(c, x) - Times(s, y) - pull
    ensures Abs(turned) <= Abs(pull) + (Times(Abs(c), w) + Times(Abs(s), h))
  {
    hide Times;
    ProductWithin(c, x, w);
    ProductWithin(s, y, h);
  }

  lemma CanvasIsWithinReach(t: EditTransform, out: Rect, p: Point)
    requires ProperRect(out) && InCanvas(p, out)
    ensures Abs(TurnedX(t, out, p)) <= ReachX(t, out) && Abs(TurnedY(t, out, p)) <= ReachY(t, out)
  {
    hide TurnedX, TurnedY, PullX, PullY, Abs, Times;
    var c, s, w, h := t.rotation.cos, t.rotation.sin, out.width / 2.0, out.height / 2.0;
    TurnedIsPulled(t, out, p);
    TurnedWithin(c, s, p.x - w, p.y - h, w, h, PullX(t, out), TurnedX(t, out, p));
    TurnedWithin(s, c, p.x - w, p.y - h, w, h, PullY(t, out), TurnedY(t, out, p));
  }

  /** If the four corners are inside, every point of the canvas comes from inside the source: no blank pixel. */
  lemma ValidCoversCanvas(t: EditTransform, src: Rect, out: Rect, p: Point)
    requires ProperRect(src) && ProperRect(out) && Proper(t) && IsValid(t, src, out) && InCanvas(p, out)
    ensures Invert(RenderMatrix(t, src, out)).Some?
    ensures
      var q := Apply(Invert(RenderMatrix(t, src, out)).value, p);
      -0.000001 <= q.x <= src.width + 0.000001 && -0.000001 <= q.y <= src.height + 0.000001
    ensures Apply(RenderMatrix(t, src, out), Apply(Invert(RenderMatrix(t, src, out)).value, p)) == p
  {
    hide RenderMatrix, IsValid, InSource, TurnedX, TurnedY, ReachX, ReachY;
    ValidIffWithinReach(t, src, out);
    CanvasIsWithinReach(t, out, p);
    InSourceIff(t, src, out, p);
    RenderIsRegular(t, src, out);
    InvertUndoes(RenderMatrix(t, src, out), p);
    InSourceMeans(Apply(Invert(RenderMatrix(t, src, out)).value, p), src);
  }

  lemma InSourceMeans(q: Point, src: Rect)
    requires InSource(q, src)
    ensures -0.000001 <= q.x <= src.width + 0.000001 && -0.000001 <= q.y <= src.height + 0.000001
  {
  }

  // ----- the valid translations -----

  /** The same crop, moved elsewhere. */
  function Moved(t: EditTransform, x: real, y: real): EditTransform {
    t.(translateX := x, translateY := y)
  }

  function Mix(r: real, x: real, y: real): real {
    Times(r, x) + Times(1.0 - r, y)
  }

  lemma DotOfMix(a: real, c: real, r: real, x: real, x': real, y: real, y': real)
    ensures Dot(a, c, Mix(r, x, x'), Mix(r, y, y')) == Mix(r, Dot(a, c, x, y), Dot(a, c, x', y'))
  {
  }

  lemma TimesOfMix(r: real, x: real, x': real, w: real)
    ensures Times(Mix(r, x, x'), w) == Mix(r, Times(x, w), Times(x', w))
  {
  }

  lemma PullOfMix(t: EditTransform, x: real, y: real, x': real, y': real, r: real, out: Rect)
    ensures
      var mixed := Moved(t, Mix(r, x, x'), Mix(r, y, y'));
      && PullX(mixed, out) == Mix(r, PullX(Moved(t, x, y), out), PullX(Moved(t, x', y'), out))
      && PullY(mixed, out) == Mix(r, PullY(Moved(t, x, y), out), PullY(Moved(t, x', y'), out))
  {
    hide Mix, Dot, Times;
    var c, s, w, h := t.rotation.cos, t.rotation.sin, out.width, out.height;
    TimesOfMix(r, x, x', w);
    TimesOfMix(r, y, y', h);
    DotOfMix(c, -s, r, Times(x, w), Times(x', w), Times(y, h), Times(y', h));
    DotOfMix(s, c, r, Times(x, w), Times(x', w), Times(y, h), Times(y', h));
  }

  lemma MixBelow(r: real, x: real, y: real, limit: real)
    requires 0.0 <= r <= 1.0 && x <= limit && y <= limit
    ensures Mix(r, x, y) <= limit
  {
    hide Times;
    TimesGrows(r, x, limit);
    TimesGrows(1.0 - r, y, limit);
    TimesDistributes(limit, 1.0, r);
    TimesZero(limit);
  }

  lemma MixWithin(r: real, x: real, y: real, limit: real)
    requires 0.0 <= r <= 1.0 && Abs(x) <= limit && Abs(y) <= limit
    ensures Abs(Mix(r, x, y)) <= limit
  {
    hide Times;
    MixBelow(r, x, y, limit);
    MixBelow(r, -x, -y, limit);
    TimesNegated(r, x);
    TimesNegated(1.0 - r, y);
  }

  /** The valid translations form a convex set. */
  lemma ValidIsConvex(
    t: EditTransform, x: real, y: real, x': real, y': real, r: real, midX: real, midY: real, src: Rect, out: Rect)
    requires ProperRect(src) && ProperRect(out) && Proper(t)
    requires 0.0 <= r <= 1.0 && midX == Mix(r, x, x') && midY == Mix(r, y, y')
    requires IsValid(Moved(t, x, y), src, out) && IsValid(Moved(t, x', y'), src, out)
    ensures IsValid(Moved(t, midX, midY), src, out)
  {
    hide IsValid, PullX, PullY, HalfX, HalfY, Abs, Mix, Magnification, Times;
    ValidIffWithinReach(Moved(t, x, y), src, out);
    ValidIffWithinReach(Moved(t, x', y'), src, out);
    ValidIffWithinReach(Moved(t, midX, midY), src, out);
    SameScale(t, Moved(t, x, y), src, out);
    SameScale(t, Moved(t, x', y'), src, out);
    SameScale(t, Moved(t, midX, midY), src, out);
    PullOfMix(t, x, y, x', y', r, out);
    MixWithin(r, PullX(Moved(t, x, y), out), PullX(Moved(t, x', y'), out), RoomX(t, src, out) - HalfX(t.rotation, out));
    MixWithin(r, PullY(Moved(t, x, y), out), PullY(Moved(t, x', y'), out), RoomY(t, src, out) - HalfY(t.rotation, out));
  }

  lemma SameScale(t: EditTransform, u: EditTransform, src: Rect, out: Rect)
    requires ProperRect(src) && t.scale == u.scale
    ensures Magnification(t, src, out) == Magnification(u, src, out)
  {
  }

  lemma DotOfOpposite(a: real, c: real, x: real, y: real)
    ensures Dot(a, c, -x, -y) == -Dot(a, c, x, y)
  {
  }

  lemma PullOfOpposite(t: EditTransform, out: Rect)
    ensures PullX(Moved(t, -t.translateX, -t.translateY), out) == -PullX(t, out)
    ensures PullY(Moved(t, -t.translateX, -t.translateY), out) == -PullY(t, out)
  {
    hide Dot, Times;
    var c, s, x, y := t.rotation.cos, t.rotation.sin, Times(t.translateX, out.width), Times(t.translateY, out.height);
    TimesNegated(t.translateX, out.width);
    TimesNegated(t.translateY, out.height);
    DotOfOpposite(c, -s, x, y);
    DotOfOpposite(s, c, x, y);
  }

  /** It is symmetric about the centre. */
  lemma ValidIsSymmetric(t: EditTransform, src: Rect, out: Rect)
    requires ProperRect(src) && ProperRect(out) && Proper(t)
    ensures IsValid(t, src, out) <==> IsValid(Moved(t, -t.translateX, -t.translateY), src, out)
  {
    hide IsValid, PullX, PullY, HalfX, HalfY, Magnification, Times;
    SameScale(t, Moved(t, -t.translateX, -t.translateY), src, out);
    ValidIffWithinReach(t, src, out);
    ValidIffWithinReach(Moved(t, -t.translateX, -t.translateY), src, out);
    PullOfOpposite(t, out);
  }

  /** The crop at parameter `r` of the segment from the centre to the wanted translation. */
  function Along(t: EditTransform, r: real): EditTransform {
    Moved(t, t.translateX * r, t.translateY * r)
  }

  /** Along the segment from the centre, validity at one point implies it at every nearer one. */
  lemma ValidNearerCentre(t: EditTransform, far: real, near: real, src: Rect, out: Rect)
    requires ProperRect(src) && ProperRect(out) && Proper(t) && 0.0 <= near <= far
    requires IsValid(Along(t, far), src, out)
    ensures IsValid(Along(t, near), src, out)
  {
    hide IsValid;
    var end, point := Along(t, far), Along(t, near);
    if far > 0.0 {
      Fraction(near, far);
      ValidIsSymmetric(end, src, out);
      MixOfOpposites(t.translateX, near, far, end.translateX, point.translateX);
      MixOfOpposites(t.translateY, near, far, end.translateY, point.translateY);
      ValidIsConvex(
        t, end.translateX, end.translateY, -end.translateX, -end.translateY,
        (near / far + 1.0) / 2.0, point.translateX, point.translateY, src, out);
    }
  }

  lemma Fraction(near: real, far: real)
    requires 0.0 <= near <= far && far > 0.0
    ensures 0.0 <= near / far <= 1.0
  {
  }

  lemma MixOfOpposites(x: real, near: real, far: real, end: real, point: real)
    requires far > 0.0 && end == x * far && point == x * near
    ensures point == Mix((near / far + 1.0) / 2.0, end, -end)
  {
    var q := near / far;
    assert q * far == near;
    MixOfEnds((q + 1.0) / 2.0, q, end);
    Regroup(q, x, far, near);
  }

  lemma MixOfEnds(r: real, q: real, end: real)
    requires r == (q + 1.0) / 2.0
    ensures Mix(r, end, -end) == q * end
  {
  }

  lemma Regroup(q: real, x: real, far: real, near: real)
    requires q * far == near
    ensures q * (x * far) == x * near
  {
  }

  // ----- scale -----

  /** Enlarging keeps a crop valid. */
  lemma ValidGrowsWithScale(t: EditTransform, scale: real, src: Rect, out: Rect)
    requires ProperRect(src) && ProperRect(out) && Proper(t) && t.scale <= scale
    requires IsValid(t, src, out)
    ensures IsValid(t.(scale := scale), src, out)
  {
    hide IsValid, CoverScale, ReachX, ReachY, Times;
    var u := t.(scale := scale);
    ValidIffWithinReach(t, src, out);
    ValidIffWithinReach(u, src, out);
    CoverScaleIsPositive(src, out);
    TimesGrows(CoverScale(src, out), t.scale, scale);
    TimesGrows(src.width / 2.0 + SLACK, Magnification(t, src, out), Magnification(u, src, out));
    TimesGrows(src.height / 2.0 + SLACK, Magnification(t, src, out), Magnification(u, src, out));
    SameReach(t, u, out);
  }

  lemma SameReach(t: EditTransform, u: EditTransform, out: Rect)
    requires u == t.(scale := u.scale)
    ensures ReachX(t, out) == ReachX(u, out) && ReachY(t, out) == ReachY(u, out)
  {
    hide Times, Abs, HalfX, HalfY;
    SamePull(t, u, out);
  }

  lemma SamePull(t: EditTransform, u: EditTransform, out: Rect)
    requires u == t.(scale := u.scale)
    ensures PullX(t, out) == PullX(u, out) && PullY(t, out) == PullY(u, out)
  {
  }

  lemma IdentityReach(out: Rect)
    requires ProperRect(out)
    ensures ReachX(IDENTITY_TRANSFORM, out) == out.width / 2.0 && ReachY(IDENTITY_TRANSFORM, out) == out.height / 2.0
  {
  }

  /** The untouched photo is always a valid crop. */
  lemma IdentityIsValid(src: Rect, out: Rect)
    requires ProperRect(src) && ProperRect(out)
    ensures Proper(IDENTITY_TRANSFORM) && IsValid(IDENTITY_TRANSFORM, src, out)
  {
    hide IsValid, CoverScale, Times, ReachX, ReachY;
    ValidIffWithinReach(IDENTITY_TRANSFORM, src, out);
    IdentityReach(out);
    CoverScaleIsPositive(src, out);
    var cs := CoverScale(src, out);
    TimesZero(cs);
    TimesIsPositive(cs, SLACK);
    TimesDistributes(cs, src.width / 2.0, SLACK);
    TimesDistributes(cs, src.height / 2.0, SLACK);
    TimesDistributes(cs, src.width / 2.0, src.width / 2.0);
    TimesDistributes(cs, src.height / 2.0, src.height / 2.0);
  }

  // ----- output size -----

  function Enlarged(out: Rect, r: real): Rect {
    Rect(Times(r, out.width), Times(r, out.height))
  }

  lemma MagnificationOfEnlarged(t: EditTransform, src: Rect, out: Rect, r: real)
    requires ProperRect(src) && ProperRect(out) && r > 0.0
    ensures Magnification(t, src, Enlarged(out, r)) == Times(r, Magnification(t, src, out))
  {
    hide Times, Over;
    OverScales(r, out.width, src.width);
    OverScales(r, out.height, src.height);
    OrderScales(r, Over(out.height, src.height), Over(out.width, src.width));
    OrderScales(r, Over(out.width, src.width), Over(out.height, src.height));
    TimesAssociates(r, CoverScale(src, out), t.scale);
  }

  lemma DotOfScaled(a: real, c: real, r: real, x: real, y: real)
    ensures Dot(a, c, Times(r, x), Times(r, y)) == Times(r, Dot(a, c, x, y))
  {
  }

  lemma PullOfEnlarged(t: EditTransform, out: Rect, r: real)
    ensures PullX(t, Enlarged(out, r)) == Times(r, PullX(t, out))
    ensures PullY(t, Enlarged(out, r)) == Times(r, PullY(t, out))
  {
    hide Dot, Times;
    var c, s, x, y := t.rotation.cos, t.rotation.sin, Times(t.translateX, out.width), Times(t.translateY, out.height);
    Commutes(t.translateX, r, out.width);
    Commutes(t.translateY, r, out.height);
    DotOfScaled(c, -s, r, x, y);
    DotOfScaled(s, c, r, x, y);
  }

  lemma Commutes(x: real, r: real, w: real)
    ensures Times(x, Times(r, w)) == Times(r, Times(x, w))
  {
  }

  lemma HalfSum(r: real, a: real, w: real, b: real, h: real)
    ensures Times(a, Times(r, w) / 2.0) + Times(b, Times(r, h) / 2.0) == Times(r, Times(a, w / 2.0) + Times(b, h / 2.0))
  {
  }

  lemma HalfOfEnlarged(a: Rotation, out: Rect, r: real)
    ensures HalfX(a, Enlarged(out, r)) == Times(r, HalfX(a, out))
    ensures HalfY(a, Enlarged(out, r)) == Times(r, HalfY(a, out))
  {
    hide Abs, Times;
    HalfSum(r, Abs(a.cos), out.width, Abs(a.sin), out.height);
    HalfSum(r, Abs(a.sin), out.width, Abs(a.cos), out.height);
  }

  lemma ReachOfEnlarged(t: EditTransform, out: Rect, r: real)
    requires r > 0.0
    ensures ReachX(t, Enlarged(out, r)) == Times(r, ReachX(t, out))
    ensures ReachY(t, Enlarged(out, r)) == Times(r, ReachY(t, out))
  {
    hide PullX, PullY, HalfX, HalfY, Abs, Times;
    PullOfEnlarged(t, out, r);
    HalfOfEnlarged(t.rotation, out, r);
    ScaledAbs(r, PullX(t, out));
    ScaledAbs(r, PullY(t, out));
    TimesDistributes(r, Abs(PullX(t, out)), HalfX(t.rotation, out));
    TimesDistributes(r, Abs(PullY(t, out)), HalfY(t.rotation, out));
  }

  /** Validity depends on the output's aspect only: scaling the output uniformly changes nothing. */
  lemma ValidAtEverySize(t: EditTransform, src: Rect, out: Rect, r: real)
    requires ProperRect(src) && ProperRect(out) && Proper(t) && r > 0.0
    ensures ProperRect(Enlarged(out, r))
    ensures IsValid(t, src, Enlarged(out, r)) <==> IsValid(t, src, out)
  {
    hide IsValid, Magnification, ReachX, ReachY, Times;
    TimesIsPositive(r, out.width);
    TimesIsPositive(r, out.height);
    ValidIffWithinReach(t, src, out);
    ValidIffWithinReach(t, src, Enlarged(out, r));
    MagnificationOfEnlarged(t, src, out, r);
    ReachOfEnlarged(t, out, r);
    TimesAssociates(r, Magnification(t, src, out), src.width / 2.0 + SLACK);
    TimesAssociates(r, Magnification(t, src, out), src.height / 2.0 + SLACK);
    OrderScales(r, ReachX(t, out), RoomX(t, src, out));
    OrderScales(r, ReachY(t, out), RoomY(t, src, out));
  }
}
