/** Pulling a crop back into the valid region: the two bisections of the editor and their composition. */
module Fit {
  import opened Basics
  import opened Reals
  import opened Crop
  import opened CropLaws

  const TRANSLATION_STEPS := 24
  const TRANSLATION_TOLERANCE := 0.00001
  const SCALE_STEPS := 30
  const SCALE_TOLERANCE := 0.0001

  /** Both searches stop by tolerance, not by their step limits. */
  lemma EnoughSteps()
    ensures 1.0 <= TRANSLATION_TOLERANCE * (Pow2(TRANSLATION_STEPS) as real)
    ensures 100000.0 <= SCALE_TOLERANCE * (Pow2(SCALE_STEPS) as real)
  {
    assert Pow2(6) == 64;
    Pow2Sum(6, 6);
    Pow2Sum(12, 12);
    Pow2Sum(24, 6);
  }

  predicate Setting(t: EditTransform, src: Rect, out: Rect) {
    ProperRect(src) && ProperRect(out) && Proper(t)
  }

  // ----- clampTranslation -----

  /** What the bisection of the segment returns from the state `lo`, `hi` after `i` steps. */
  function Nearest(t: EditTransform, lo: real, hi: real, i: nat, src: Rect, out: Rect): real
    requires ProperRect(src) && i <= TRANSLATION_STEPS
    decreases TRANSLATION_STEPS - i
  {
    if i == TRANSLATION_STEPS || hi - lo <= TRANSLATION_TOLERANCE then lo
    else
      var mid := (lo + hi) / 2.0;
      if IsValid(Along(t, mid), src, out) then Nearest(t, mid, hi, i + 1, src, out)
      else Nearest(t, lo, mid, i + 1, src, out)
  }

  function Clamped(t: EditTransform, src: Rect, out: Rect): EditTransform
    requires ProperRect(src)
  {
    if IsValid(t, src, out) then t else Along(t, Nearest(t, 0.0, 1.0, 0, src, out))
  }

  lemma AlongEnds(t: EditTransform)
    ensures Along(t, 1.0) == t && Along(t, 0.0) == Moved(t, 0.0, 0.0)
  {
  }

  lemma AlongMovesOnly(t: EditTransform, r: real)
    ensures Moved(Along(t, r), t.translateX, t.translateY) == t
    ensures Moved(Along(t, r), 0.0, 0.0) == Moved(t, 0.0, 0.0)
  {
  }

  method ClampTranslation(t: EditTransform, src: Rect, out: Rect) returns (clamped: EditTransform)
    requires Setting(t, src, out)
    ensures clamped == Clamped(t, src, out)
  {
    hide IsValid, Along;
    if IsValid(t, src, out) {
      return t;
    }
    var lo, hi := 0.0, 1.0;
    AlongEnds(t);
    if !IsValid(Along(t, 1.0), src, out) {
      var i := 0;
      while i < TRANSLATION_STEPS && hi - lo > TRANSLATION_TOLERANCE
        invariant 0 <= i <= TRANSLATION_STEPS
        invariant Nearest(t, lo, hi, i, src, out) == Nearest(t, 0.0, 1.0, 0, src, out)
      {
        var mid := (lo + hi) / 2.0;
        if IsValid(Along(t, mid), src, out) {
          lo := mid;
        } else {
          hi := mid;
        }
        i := i + 1;
      }
    }
    clamped := Along(t, lo);
  }

  /** Everything farther than an invalid point of the segment is invalid. */
  lemma BeyondInvalid(t: EditTransform, near: real, src: Rect, out: Rect)
    requires Setting(t, src, out) && 0.0 <= near && !IsValid(Along(t, near), src, out)
    ensures forall far | near <= far :: !IsValid(Along(t, far), src, out)
  {
    hide IsValid, Along;
    forall far | near <= far ensures !IsValid(Along(t, far), src, out) {
      if IsValid(Along(t, far), src, out) {
        ValidNearerCentre(t, far, near, src, out);
      }
    }
  }

  /** The bisection keeps an invalid point just ahead, and stops within the tolerance of it. */
  lemma {:induction false} NearestIsNear(t: EditTransform, lo: real, hi: real, i: nat, src: Rect, out: Rect)
    requires Setting(t, src, out) && i <= TRANSLATION_STEPS && 0.0 <= lo < hi
    requires hi - lo <= TRANSLATION_TOLERANCE * (Pow2(TRANSLATION_STEPS - i) as real)
    requires lo == 0.0 || IsValid(Along(t, lo), src, out)
    requires !IsValid(Along(t, hi), src, out)
    ensures
      var r := Nearest(t, lo, hi, i, src, out);
      && lo <= r < hi && (r == 0.0 || IsValid(Along(t, r), src, out))
      && forall far | r + TRANSLATION_TOLERANCE <= far :: !IsValid(Along(t, far), src, out)
    decreases TRANSLATION_STEPS - i
  {
    hide IsValid, Along;
    if i == TRANSLATION_STEPS || hi - lo <= TRANSLATION_TOLERANCE {
      BeyondInvalid(t, hi, src, out);
    } else {
      var mid := (lo + hi) / 2.0;
      if IsValid(Along(t, mid), src, out) {
        NearestIsNear(t, mid, hi, i + 1, src, out);
      } else {
        NearestIsNear(t, lo, mid, i + 1, src, out);
      }
    }
  }

  /** A zero translation is valid whenever any translation is. */
  lemma CentreIsValid(t: EditTransform, src: Rect, out: Rect)
    requires Setting(t, src, out) && IsValid(t, src, out)
    ensures IsValid(Moved(t, 0.0, 0.0), src, out)
  {
    hide IsValid;
    AlongEnds(t);
    ValidNearerCentre(t, 1.0, 0.0, src, out);
  }

  /**
   The clamped crop is valid exactly when the centred one is; then it lies on the segment,
   within the tolerance of the farthest valid point.  Only the translation changes.
   */
  lemma ClampedIsFarthest(t: EditTransform, src: Rect, out: Rect)
    requires Setting(t, src, out)
    ensures
      var c := Clamped(t, src, out);
      && (IsValid(t, src, out) ==> c == t)
      && (IsValid(c, src, out) <==> IsValid(Moved(t, 0.0, 0.0), src, out))
      && exists r :: 0.0 <= r <= 1.0 && c == Along(t, r)
                     && forall far | r + TRANSLATION_TOLERANCE <= far <= 1.0 :: !IsValid(Along(t, far), src, out)
  {
    hide IsValid, Along, Pow2;
    AlongEnds(t);
    if IsValid(t, src, out) {
      CentreIsValid(t, src, out);
      assert Clamped(t, src, out) == Along(t, 1.0);
    } else {
      EnoughSteps();
      NearestIsNear(t, 0.0, 1.0, 0, src, out);
      var r := Nearest(t, 0.0, 1.0, 0, src, out);
      AlongMovesOnly(t, r);
      if IsValid(Along(t, r), src, out) {
        CentreIsValid(Along(t, r), src, out);
      }
    }
  }

  // ----- minScaleForRotation -----

  /** Whether the rotation fits at this scale with the crop centred. */
  predicate Fits(t: EditTransform, scale: real, src: Rect, out: Rect)
    requires ProperRect(src)
  {
    IsValid(t.(translateX := 0.0, translateY := 0.0, scale := scale), src, out)
  }

  function Smallest(t: EditTransform, lo: real, hi: real, i: nat, src: Rect, out: Rect): real
    requires ProperRect(src) && i <= SCALE_STEPS
    decreases SCALE_STEPS - i
  {
    if i == SCALE_STEPS || hi - lo <= SCALE_TOLERANCE then hi
    else
      var mid := (lo + hi) / 2.0;
      if Fits(t, mid, src, out) then Smallest(t, lo, mid, i + 1, src, out)
      else Smallest(t, mid, hi, i + 1, src, out)
  }

  function NeededScale(t: EditTransform, src: Rect, out: Rect, maxScale: real): Option<real>
    requires ProperRect(src)
  {
    if Fits(t, t.scale, src, out) then Some(t.scale)
    else if !Fits(t, maxScale, src, out) then None
    else Some(Smallest(t, MaxReal(MIN_SCALE, t.scale), maxScale, 0, src, out))
  }

  method MinScaleForRotation(t: EditTransform, src: Rect, out: Rect, maxScale: real) returns (scale: Option<real>)
    requires Setting(t, src, out) && maxScale > 0.0
    ensures scale == NeededScale(t, src, out, maxScale)
  {
    if Fits(t, t.scale, src, out) {
      return Some(t.scale);
    }
    if !Fits(t, maxScale, src, out) {
      return None;
    }
    var lo, hi := MaxReal(MIN_SCALE, t.scale), maxScale;
    var i := 0;
    while i < SCALE_STEPS && hi - lo > SCALE_TOLERANCE
      invariant 0 <= i <= SCALE_STEPS
      invariant Smallest(t, lo, hi, i, src, out) ==
                Smallest(t, MaxReal(MIN_SCALE, t.scale), maxScale, 0, src, out)
    {
      var mid := (lo + hi) / 2.0;
      if Fits(t, mid, src, out) {
        hi := mid;
      } else {
        lo := mid;
      }
      i := i + 1;
    }
    return Some(hi);
  }

  lemma FitsAbove(t: EditTransform, low: real, high: real, src: Rect, out: Rect)
    requires Setting(t, src, out) && 0.0 < low <= high && Fits(t, low, src, out)
    ensures Fits(t, high, src, out)
  {
    hide IsValid;
    ValidGrowsWithScale(t.(translateX := 0.0, translateY := 0.0, scale := low), high, src, out);
  }

  lemma {:induction false} SmallestIsSmall(t: EditTransform, lo: real, hi: real, i: nat, src: Rect, out: Rect)
    requires Setting(t, src, out) && i <= SCALE_STEPS && 0.0 < lo && Fits(t, hi, src, out)
    ensures
      var r := Smallest(t, lo, hi, i, src, out);
      && Fits(t, r, src, out) && r <= hi && (lo <= hi ==> lo <= r) && (hi < lo ==> r == hi)
      && (hi - lo <= SCALE_TOLERANCE * (Pow2(SCALE_STEPS - i) as real) ==>
            forall x | lo <= x < r && Fits(t, x, src, out) :: r - x <= SCALE_TOLERANCE)
    decreases SCALE_STEPS - i
  {
    hide Fits;
    if i < SCALE_STEPS && hi - lo > SCALE_TOLERANCE {
      var mid := (lo + hi) / 2.0;
      if Fits(t, mid, src, out) {
        SmallestIsSmall(t, lo, mid, i + 1, src, out);
      } else {
        SmallestIsSmall(t, mid, hi, i + 1, src, out);
        forall x | lo <= x < mid ensures !Fits(t, x, src, out) {
          if Fits(t, x, src, out) {
            FitsAbove(t, x, mid, src, out);
          }
        }
      }
    }
  }

  /**
   There is no scale exactly when neither the present nor the largest one fits.  Otherwise
   the scale returned fits, is not below the present one and not above the larger of the
   two, and no scale from the floor up that fits is smaller by more than the tolerance
   (which the steps suffice to reach for a ceiling up to 100000; the default is 8).
   */
  lemma NeededScaleIsLeast(t: EditTransform, src: Rect, out: Rect, maxScale: real)
    requires Setting(t, src, out) && 0.0 < maxScale
    ensures
      var needed := NeededScale(t, src, out, maxScale);
      && (needed == None <==> !Fits(t, t.scale, src, out) && !Fits(t, maxScale, src, out))
      && (needed.Some? ==>
        && Fits(t, needed.value, src, out) && t.scale <= needed.value <= MaxReal(t.scale, maxScale)
        && (maxScale <= 100000.0 ==>
              forall x | MaxReal(MIN_SCALE, t.scale) <= x < needed.value && Fits(t, x, src, out) ::
                needed.value - x <= SCALE_TOLERANCE))
  {
    hide Fits, Pow2;
    if !Fits(t, t.scale, src, out) && Fits(t, maxScale, src, out) {
      EnoughSteps();
      var floor := MaxReal(MIN_SCALE, t.scale);
      SmallestIsSmall(t, floor, maxScale, 0, src, out);
      var r := Smallest(t, floor, maxScale, 0, src, out);
      if r < t.scale {
        FitsAbove(t, maxScale, t.scale, src, out);
      }
    }
  }

  // ----- fitTransform -----

  function Fitted(t: EditTransform, src: Rect, out: Rect, maxScale: real): EditTransform
    requires ProperRect(src)
  {
    match NeededScale(t, src, out, maxScale)
    case None => Clamped(t, src, out)
    case Some(scale) => Clamped(t.(scale := scale), src, out)
  }

  method FitTransform(t: EditTransform, src: Rect, out: Rect, maxScale: real) returns (fitted: EditTransform)
    requires Setting(t, src, out) && 0.0 < maxScale
    ensures fitted == Fitted(t, src, out, maxScale)
  {
    var scale := MinScaleForRotation(t, src, out, maxScale);
    NeededScaleIsLeast(t, src, out, maxScale);
    if scale == None {
      fitted := ClampTranslation(t, src, out);
    } else {
      fitted := ClampTranslation(t.(scale := scale.value), src, out);
    }
  }

  /**
   The fitted crop is valid exactly when the centred crop is at the present or the largest
   scale; rotation and flip are kept, the scale is never lowered, and a valid crop is
   left alone.
   */
  lemma FittedIsValid(t: EditTransform, src: Rect, out: Rect, maxScale: real)
    requires Setting(t, src, out) && 0.0 < maxScale
    ensures
      var f := Fitted(t, src, out, maxScale);
      && (IsValid(f, src, out) <==> Fits(t, t.scale, src, out) || Fits(t, maxScale, src, out))
      && f.rotation == t.rotation && f.flipX == t.flipX && t.scale <= f.scale && Setting(f, src, out)
      && (IsValid(t, src, out) ==> f == t)
  {
    hide IsValid, NeededScale;
    NeededScaleIsLeast(t, src, out, maxScale);
    if IsValid(t, src, out) {
      CentreIsValid(t, src, out);
      PresentScaleFits(t, src, out, maxScale);
    }
    match NeededScale(t, src, out, maxScale)
    case None => ClampedIsFarthest(t, src, out);
    case Some(scale) => ClampedIsFarthest(t.(scale := scale), src, out);
  }

  lemma ScaleChosen(t: EditTransform, src: Rect, out: Rect, maxScale: real)
    requires ProperRect(src)
    ensures Fits(t, t.scale, src, out) ==> NeededScale(t, src, out, maxScale) == Some(t.scale)
  {
  }

  /**
   Where the fitted crop ends up.  Its translation lies on the segment from the centre to the one
   asked for, within the tolerance of the farthest valid point at its scale.  Its scale is the
   present one if the centred crop fits there, or nowhere; otherwise no fitting scale from the
   floor up is smaller by more than the tolerance.
   */
  lemma FittedIsNearest(t: EditTransform, src: Rect, out: Rect, maxScale: real)
    requires Setting(t, src, out) && 0.0 < maxScale
    ensures
      var f := Fitted(t, src, out, maxScale);
      var scaled := t.(scale := f.scale);
      && (exists r :: 0.0 <= r <= 1.0 && f == Along(scaled, r)
                      && forall far | r + 0.00001 <= far <= 1.0 :: !IsValid(Along(scaled, far), src, out))
      && (Fits(t, t.scale, src, out) || !Fits(t, maxScale, src, out) ==> f.scale == t.scale)
      && (maxScale <= 100000.0 ==>
            forall x | MaxReal(1.0, t.scale) <= x < f.scale && Fits(t, x, src, out) :: f.scale - x <= 0.0001)
  {
    hide IsValid, NeededScale, Fits, Clamped, Along;
    NeededScaleIsLeast(t, src, out, maxScale);
    ScaleChosen(t, src, out, maxScale);
    var needed := NeededScale(t, src, out, maxScale);
    var scaled := if needed == None then t else t.(scale := needed.value);
    ClampedIsFarthest(scaled, src, out);
    var r :| 0.0 <= r <= 1.0 && Clamped(scaled, src, out) == Along(scaled, r)
             && forall far | r + TRANSLATION_TOLERANCE <= far <= 1.0 :: !IsValid(Along(scaled, far), src, out);
    AlongKeepsScale(scaled, r);
    assert t.(scale := scaled.scale) == scaled;
  }

  lemma AlongKeepsScale(t: EditTransform, r: real)
    ensures Along(t, r).scale == t.scale
  {
  }

  lemma PresentScaleFits(t: EditTransform, src: Rect, out: Rect, maxScale: real)
    requires ProperRect(src) && IsValid(Moved(t, 0.0, 0.0), src, out)
    ensures NeededScale(t, src, out, maxScale) == Some(t.scale)
  {
    hide IsValid;
  }
}
