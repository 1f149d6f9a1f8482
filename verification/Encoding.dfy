/** Fitting a photo under a byte cap: the server's quality ladder and the browser's quality search. */
module Encoding {
  import opened Basics
  import opened Jpeg
  import opened Templates

  const MAX_REENCODE_QUALITY := 92
  const MIN_REENCODE_QUALITY := 40

  datatype PhotoError = TooLarge | Invalid | SizeMismatch | Unwritable(why: WriteError)

  // ----- the server's ladder -----

  function NextQuality(quality: int): int {
    Max(MIN_REENCODE_QUALITY, quality - if quality - 4 >= MIN_REENCODE_QUALITY then 4 else 1)
  }

  /** The first encoding that fits on the way down from `quality`. */
  function FirstFitting(encode: int -> Bytes, cap: nat, quality: int): Option<Bytes>
    decreases quality - MIN_REENCODE_QUALITY
  {
    if |encode(quality)| <= cap then Some(encode(quality))
    else if quality <= MIN_REENCODE_QUALITY then None
    else FirstFitting(encode, cap, NextQuality(quality))
  }

  function WithPpi(encoded: Bytes, ppi: Option<nat>): Result<Bytes, PhotoError> {
    if ppi == None then Ok(encoded)
    else
      match ServerRewritten(encoded, ppi.value)
      case Ok(r) => Ok(r)
      case Err(e) => Err(if e == DensityOverflow then Unwritable(e) else Invalid)
  }

  function EncodedWithin(encode: int -> Bytes, cap: Option<nat>, ppi: Option<nat>): Result<Bytes, PhotoError> {
    if cap == None then WithPpi(encode(MAX_REENCODE_QUALITY), ppi)
    else
      match FirstFitting(encode, cap.value, MAX_REENCODE_QUALITY)
      case None => Err(TooLarge)
      case Some(b) => WithPpi(b, ppi)
  }

  method EncodeWithin(encode: int -> Bytes, cap: Option<nat>, ppi: Option<nat>) returns (r: Result<Bytes, PhotoError>)
    ensures r == EncodedWithin(encode, cap, ppi)
  {
    var encoded;
    if cap == None {
      encoded := encode(MAX_REENCODE_QUALITY);
    } else {
      var quality := MAX_REENCODE_QUALITY;
      encoded := encode(quality);
      while |encoded| > cap.value && quality > MIN_REENCODE_QUALITY
        invariant encoded == encode(quality)
        invariant FirstFitting(encode, cap.value, quality) == FirstFitting(encode, cap.value, MAX_REENCODE_QUALITY)
        decreases quality
      {
        quality := NextQuality(quality);
        encoded := encode(quality);
      }
      if |encoded| > cap.value {
        return Err(TooLarge);
      }
    }
    if ppi == None {
      return Ok(encoded);
    }
    var written := WriteJfifDensity(encoded, ppi.value);
    match written {
      case Ok(b) => return Ok(b);
      case Err(e) => return Err(if e == DensityOverflow then Unwritable(e) else Invalid);
    }
  }

  /** 92, 88, and so on down to 40. */
  predicate Rung(quality: int) {
    40 <= quality <= 92 && quality % 4 == 0
  }

  /** The ladder steps by four all the way: the step of one is never taken. */
  lemma AlwaysStepsByFour(quality: int)
    requires Rung(quality) && quality > MIN_REENCODE_QUALITY
    ensures NextQuality(quality) == quality - 4 && Rung(NextQuality(quality))
  {
  }

  predicate Fits(encode: int -> Bytes, cap: nat, quality: int) {
    |encode(quality)| <= cap
  }

  lemma {:induction false} FirstFittingIsHighest(encode: int -> Bytes, cap: nat, quality: int)
    requires Rung(quality)
    ensures
      match FirstFitting(encode, cap, quality)
      case None => forall q | Rung(q) && q <= quality :: !Fits(encode, cap, q)
      case Some(b) => exists q :: Rung(q) && q <= quality && b == encode(q) && Fits(encode, cap, q)
                                  && forall better | Rung(better) && q < better <= quality :: !Fits(encode, cap, better)
    decreases quality
  {
    if Fits(encode, cap, quality) {
    } else if quality == MIN_REENCODE_QUALITY {
    } else {
      AlwaysStepsByFour(quality);
      FirstFittingIsHighest(encode, cap, quality - 4);
      assert forall q | Rung(q) && q <= quality :: q == quality || q <= quality - 4;
    }
  }

  /**
   The server's output fits its cap even after the density has been written, comes from the
   highest rung that fits, and is refused as too large only when no rung fits.
   */
  lemma OutputFitsItsCap(encode: int -> Bytes, cap: nat, ppi: Option<nat>)
    ensures
      var r := EncodedWithin(encode, Some(cap), ppi);
      && (r == Err(TooLarge) <==> forall q | Rung(q) :: !Fits(encode, cap, q))
      && (r.Ok? ==>
        && |r.value| <= cap
        && (exists q :: Rung(q) && WithPpi(encode(q), ppi) == r && |encode(q)| == |r.value|
                        && forall better | Rung(better) && q < better :: !Fits(encode, cap, better))
        && (ppi.Some? ==> DensityOf(r.value) == Some(Density(1, ppi.value, ppi.value))))
  {
    hide FirstFitting, DensityOf;
    FirstFittingIsHighest(encode, cap, MAX_REENCODE_QUALITY);
    match FirstFitting(encode, cap, MAX_REENCODE_QUALITY) {
      case None =>
      case Some(b) =>
        PpiKeepsLength(b, ppi);
        var q :| Rung(q) && b == encode(q) && Fits(encode, cap, q)
                 && forall better | Rung(better) && q < better <= MAX_REENCODE_QUALITY :: !Fits(encode, cap, better);
        assert Fits(encode, cap, q);
    }
  }

  lemma PpiKeepsLength(b: Bytes, ppi: Option<nat>)
    ensures WithPpi(b, ppi) != Err(TooLarge)
    ensures WithPpi(b, ppi).Ok? ==>
      && |WithPpi(b, ppi).value| == |b|
      && (ppi.Some? ==> DensityOf(WithPpi(b, ppi).value) == Some(Density(1, ppi.value, ppi.value)))
  {
    hide ServerRewritten, DensityOf;
    if ppi.Some? {
      ServerRewriteThenRead(b, ppi.value);
    }
  }

  /**
   Writing the density fails as a defect of the photo exactly when the encoding is no JFIF file,
   and as an overflow exactly when it is one and the density does not fit in two bytes.
   */
  lemma DensityErrors(encoded: Bytes, ppi: nat)
    ensures
      var r, jfif := WithPpi(encoded, Some(ppi)), StartsImage(encoded) && DensityOf(encoded).Some?;
      && (r == Err(Invalid) <==> !jfif)
      && (r == Err(Unwritable(DensityOverflow)) <==> jfif && ppi >= 65536)
      && (r.Ok? <==> jfif && ppi < 65536) && WithPpi(encoded, None) == Ok(encoded)
  {
  }

  /** Without a cap the encoding is that of quality 92. */
  lemma UncappedIsTopQuality(encode: int -> Bytes, ppi: Option<nat>)
    ensures EncodedWithin(encode, None, ppi) == WithPpi(encode(92), ppi)
    ensures EncodedWithin(encode, None, ppi) == EncodedWithin(encode, Some(|encode(92)|), ppi)
  {
  }

  lemma NeverSizeMismatch(encode: int -> Bytes, cap: Option<nat>, ppi: Option<nat>)
    ensures EncodedWithin(encode, cap, ppi) != Err(SizeMismatch)
  {
    hide FirstFitting, ServerRewritten;
  }

  // ----- validate_and_reencode -----

  /** What the decoder reports of an upload it can decode, and the encoder for its pixels. */
  datatype Picture = Picture(isJpeg: bool, frames: nat, stored: Size, turned: bool, encode: int -> Bytes)

  datatype ServerLimits = ServerLimits(maxUploadBytes: nat, maxPixels: int, maxEdgePx: int)

  datatype Accepted = Accepted(data: Bytes, size: Size)

  function Oriented(p: Picture): Size {
    if p.turned then Size(p.stored.height, p.stored.width) else p.stored
  }

  function EffectiveMax(maxBytes: Option<nat>, limits: ServerLimits): nat {
    if maxBytes == None then limits.maxUploadBytes else Min(maxBytes.value, limits.maxUploadBytes)
  }

  /** No longer than the global limit, nor than the template's if it has one. */
  predicate WithinCaps(length: nat, maxBytes: Option<nat>, limits: ServerLimits) {
    length <= limits.maxUploadBytes && (maxBytes.Some? ==> length <= maxBytes.value)
  }

  lemma EffectiveMaxIsBothCaps(length: nat, maxBytes: Option<nat>, limits: ServerLimits)
    ensures length <= EffectiveMax(maxBytes, limits) <==> WithinCaps(length, maxBytes, limits)
  {
  }

  predicate IsSingleJpeg(picture: Option<Picture>) {
    picture.Some? && picture.value.isJpeg && picture.value.frames == 1
  }

  /** A photo that can be decoded and is a single JPEG within the pixel limits, of a size that suits. */
  predicate Suitable(picture: Option<Picture>, limits: ServerLimits, constraint: SizeConstraint) {
    && IsSingleJpeg(picture)
    && picture.value.stored.width * picture.value.stored.height <= limits.maxPixels
    && Max(picture.value.stored.width, picture.value.stored.height) <= limits.maxEdgePx
    && MeetsConstraint(Oriented(picture.value), constraint)
  }

  /** The outcome of the checks, made in the order of the code. */
  function Validated(
    dataLength: nat, picture: Option<Picture>, maxBytes: Option<nat>, limits: ServerLimits,
    constraint: SizeConstraint, ppi: Option<nat>): Result<Accepted, PhotoError>
  {
    var cap := EffectiveMax(maxBytes, limits);
    if dataLength > cap then Err(TooLarge)
    else
      match picture
      case None => Err(Invalid)
      case Some(img) =>
        if !img.isJpeg || img.frames != 1 then Err(Invalid)
        else if img.stored.width * img.stored.height > limits.maxPixels then Err(TooLarge)
        else if Max(img.stored.width, img.stored.height) > limits.maxEdgePx then Err(TooLarge)
        else if !MeetsConstraint(Oriented(img), constraint) then Err(SizeMismatch)
        else
          match EncodedWithin(img.encode, Some(cap), ppi)
          case Ok(data) => Ok(Accepted(data, Oriented(img)))
          case Err(e) => Err(e)
  }

  /** What an accepted photo meets: its template's size, every cap, and the density asked for. */
  lemma AcceptedMeetsItsLimits(
    dataLength: nat, picture: Option<Picture>, maxBytes: Option<nat>, limits: ServerLimits,
    constraint: SizeConstraint, ppi: Option<nat>)
    ensures
      var r := Validated(dataLength, picture, maxBytes, limits, constraint, ppi);
      r.Ok? ==>
        && r.value.size == Oriented(picture.value) && MeetsConstraint(r.value.size, constraint)
        && (picture.value.turned ==> r.value.size == Size(picture.value.stored.height, picture.value.stored.width))
        && (!picture.value.turned ==> r.value.size == picture.value.stored)
        && WithinCaps(dataLength, maxBytes, limits) && WithinCaps(|r.value.data|, maxBytes, limits)
        && r.value.size.width * r.value.size.height <= limits.maxPixels
        && r.value.size.width <= limits.maxEdgePx && r.value.size.height <= limits.maxEdgePx
        && |r.value.data| <= EffectiveMax(maxBytes, limits)
        && (ppi.Some? ==> DensityOf(r.value.data) == Some(Density(1, ppi.value, ppi.value)))
  {
    hide EncodedWithin, DensityOf, MeetsConstraint, EffectiveMax;
    EffectiveMaxIsBothCaps(dataLength, maxBytes, limits);
    if picture.Some? {
      if EncodedWithin(picture.value.encode, Some(EffectiveMax(maxBytes, limits)), ppi).Ok? {
        EffectiveMaxIsBothCaps(
          |EncodedWithin(picture.value.encode, Some(EffectiveMax(maxBytes, limits)), ppi).value|, maxBytes, limits);
      }
      var stored := picture.value.stored;
      assert stored.width * stored.height == stored.height * stored.width;
      OutputFitsItsCap(picture.value.encode, EffectiveMax(maxBytes, limits), ppi);
    }
  }

  /**
   Why an upload is refused as too large: for its own length, exactly when it exceeds either
   limit; for its pixels; or because no quality of the ladder fits both limits.
   */
  lemma TooLargeExactly(
    dataLength: nat, picture: Option<Picture>, maxBytes: Option<nat>, limits: ServerLimits,
    constraint: SizeConstraint, ppi: Option<nat>)
    ensures
      var r := Validated(dataLength, picture, maxBytes, limits, constraint, ppi);
      && (!WithinCaps(dataLength, maxBytes, limits) ==> r == Err(TooLarge))
      && (WithinCaps(dataLength, maxBytes, limits) && Suitable(picture, limits, constraint) ==>
            (r == Err(TooLarge) <==>
             forall q | Rung(q) :: !WithinCaps(|picture.value.encode(q)|, maxBytes, limits)))
      && (WithinCaps(dataLength, maxBytes, limits) && !IsSingleJpeg(picture) ==> r == Err(Invalid))
  {
    hide EncodedWithin, MeetsConstraint, EffectiveMax, Rung;
    EffectiveMaxIsBothCaps(dataLength, maxBytes, limits);
    if Suitable(picture, limits, constraint) {
      var encode, cap := picture.value.encode, EffectiveMax(maxBytes, limits);
      OutputFitsItsCap(encode, cap, ppi);
      forall q | Rung(q) ensures Fits(encode, cap, q) <==> WithinCaps(|encode(q)|, maxBytes, limits) {
        EffectiveMaxIsBothCaps(|encode(q)|, maxBytes, limits);
      }
    }
  }

  method ValidateAndReencode(
    dataLength: nat, picture: Option<Picture>, maxBytes: Option<nat>, limits: ServerLimits,
    constraint: SizeConstraint, ppi: Option<nat>)
    returns (r: Result<Accepted, PhotoError>)
    ensures r == Validated(dataLength, picture, maxBytes, limits, constraint, ppi)
    ensures r.Ok? <==>
      && dataLength <= EffectiveMax(maxBytes, limits)
      && picture.Some? && picture.value.isJpeg && picture.value.frames == 1
      && picture.value.stored.width * picture.value.stored.height <= limits.maxPixels
      && Max(picture.value.stored.width, picture.value.stored.height) <= limits.maxEdgePx
      && MeetsConstraint(Oriented(picture.value), constraint)
      && EncodedWithin(picture.value.encode, Some(EffectiveMax(maxBytes, limits)), ppi).Ok?
    ensures r.Ok? ==>
      && r.value.size == Oriented(picture.value) && MeetsConstraint(r.value.size, constraint)
      && EncodedWithin(picture.value.encode, Some(EffectiveMax(maxBytes, limits)), ppi) == Ok(r.value.data)
      && r.value.size.width * r.value.size.height <= limits.maxPixels
      && r.value.size.width <= limits.maxEdgePx && r.value.size.height <= limits.maxEdgePx
      && |r.value.data| <= EffectiveMax(maxBytes, limits)
      && |r.value.data| <= limits.maxUploadBytes && (maxBytes.Some? ==> |r.value.data| <= maxBytes.value)
      && (ppi.Some? ==> DensityOf(r.value.data) == Some(Density(1, ppi.value, ppi.value)))
    ensures dataLength > limits.maxUploadBytes || (maxBytes.Some? && dataLength > maxBytes.value) ==> r == Err(TooLarge)
    ensures WithinCaps(dataLength, maxBytes, limits) && Suitable(picture, limits, constraint) ==>
      (r == Err(TooLarge) <==> forall q | Rung(q) :: !WithinCaps(|picture.value.encode(q)|, maxBytes, limits))
    ensures dataLength > EffectiveMax(maxBytes, limits) ==> r == Err(TooLarge)
    ensures r == Err(SizeMismatch) <==>
      && dataLength <= EffectiveMax(maxBytes, limits)
      && picture.Some? && picture.value.isJpeg && picture.value.frames == 1
      && picture.value.stored.width * picture.value.stored.height <= limits.maxPixels
      && Max(picture.value.stored.width, picture.value.stored.height) <= limits.maxEdgePx
      && !MeetsConstraint(Oriented(picture.value), constraint)
  {
    hide EncodedWithin, Rung;
    AcceptedMeetsItsLimits(dataLength, picture, maxBytes, limits, constraint, ppi);
    TooLargeExactly(dataLength, picture, maxBytes, limits, constraint, ppi);
    var effectiveMax := EffectiveMax(maxBytes, limits);
    if dataLength > effectiveMax {
      return Err(TooLarge);
    }
    if picture == None {
      return Err(Invalid);
    }
    var img := picture.value;
    if !img.isJpeg || img.frames != 1 {
      return Err(Invalid);
    }
    if img.stored.width * img.stored.height > limits.maxPixels {
      return Err(TooLarge);
    }
    if Max(img.stored.width, img.stored.height) > limits.maxEdgePx {
      return Err(TooLarge);
    }
    var size := Oriented(img);
    assert size.width * size.height == img.stored.width * img.stored.height;
    match constraint {
      case Exact(exact) =>
        if size != exact {
          return Err(SizeMismatch);
        }
      case Bounded(min, max, aspect, allowed) =>
        if !(min.width <= size.width <= max.width && min.height <= size.height <= max.height) {
          return Err(SizeMismatch);
        }
        if size.width * aspect.height != size.height * aspect.width {
          return Err(SizeMismatch);
        }
        if allowed.Some? && size !in allowed.value {
          return Err(SizeMismatch);
        }
    }
    NeverSizeMismatch(img.encode, Some(effectiveMax), ppi);
    OutputFitsItsCap(img.encode, effectiveMax, ppi);
    var encoded := EncodeWithin(img.encode, Some(effectiveMax), ppi);
    match encoded {
      case Ok(data) => return Ok(Accepted(data, size));
      case Err(e) => return Err(e);
    }
  }

  // ----- the browser's search -----

  const MIN_QUALITY := 0.4
  const MAX_QUALITY := 0.95
  const QUALITY_STEPS := 10
  const QUALITY_EPSILON := 0.005

  /** The bracket of the search and the best quality that has fitted so far. */
  datatype Bracket = Bracket(lo: real, hi: real, best: Option<real>)

  function Middle(b: Bracket): real {
    (b.lo + b.hi) / 2.0
  }

  function Narrowed(size: real -> nat, maxBytes: nat, b: Bracket): Bracket {
    var q := Middle(b);
    if size(q) <= maxBytes then Bracket(q, b.hi, if b.best == None || q > b.best.value then Some(q) else b.best)
    else b.(hi := q)
  }

  function Searched(size: real -> nat, maxBytes: nat, b: Bracket, i: nat): Option<real>
    requires i <= QUALITY_STEPS
    decreases QUALITY_STEPS - i
  {
    if i == QUALITY_STEPS then b.best
    else
      var next := Narrowed(size, maxBytes, b);
      if next.hi - next.lo <= QUALITY_EPSILON then next.best else Searched(size, maxBytes, next, i + 1)
  }

  const WHOLE_RANGE := Bracket(MIN_QUALITY, MAX_QUALITY, None)

  /** The quality of the artifact, or `None` for the size-limit error. */
  function QualityFor(size: real -> nat, maxBytes: nat): Option<real> {
    var best := Searched(size, maxBytes, WHOLE_RANGE, 0);
    if best.Some? then best else if size(MIN_QUALITY) <= maxBytes then Some(MIN_QUALITY) else None
  }

  lemma SearchStep(size: real -> nat, maxBytes: nat, b: Bracket, i: nat)
    requires i < QUALITY_STEPS
    ensures
      var next := Narrowed(size, maxBytes, b);
      Searched(size, maxBytes, b, i) ==
      if next.hi - next.lo <= QUALITY_EPSILON then next.best else Searched(size, maxBytes, next, i + 1)
  {
    hide Narrowed;
  }

  lemma SearchEnds(size: real -> nat, maxBytes: nat, b: Bracket)
    ensures Searched(size, maxBytes, b, QUALITY_STEPS) == b.best
  {
  }

  lemma NarrowedParts(size: real -> nat, maxBytes: nat, lo: real, hi: real, best: Option<real>, q: real)
    requires q == (lo + hi) / 2.0
    ensures
      Narrowed(size, maxBytes, Bracket(lo, hi, best)) ==
      if size(q) <= maxBytes then Bracket(q, hi, if best == None || q > best.value then Some(q) else best)
      else Bracket(lo, q, best)
  {
  }

  method SearchQuality(size: real -> nat, maxBytes: nat) returns (quality: Option<real>)
    ensures quality == QualityFor(size, maxBytes)
  {
    hide Searched, Narrowed;
    var lo, hi := MIN_QUALITY, MAX_QUALITY;
    var best: Option<real> := None;
    var i := 0;
    while i < QUALITY_STEPS
      invariant 0 <= i <= QUALITY_STEPS
      invariant Searched(size, maxBytes, Bracket(lo, hi, best), i) == Searched(size, maxBytes, WHOLE_RANGE, 0)
    {
      var q := (lo + hi) / 2.0;
      SearchStep(size, maxBytes, Bracket(lo, hi, best), i);
      NarrowedParts(size, maxBytes, lo, hi, best, q);
      if size(q) <= maxBytes {
        if best == None || q > best.value {
          best := Some(q);
        }
        lo := q;
      } else {
        hi := q;
      }
      if hi - lo <= QUALITY_EPSILON {
        break;
      }
      i := i + 1;
    }
    SearchEnds(size, maxBytes, Bracket(lo, hi, best));
    if best == None {
      var floor := size(MIN_QUALITY);
      return if floor <= maxBytes then Some(MIN_QUALITY) else None;
    }
    return best;
  }

  ghost predicate Monotone(size: real -> nat) {
    forall p, q :: p <= q ==> size(p) <= size(q)
  }

  /** The best so far is the lower end of the bracket, or nothing has fitted yet. */
  predicate Holds(size: real -> nat, maxBytes: nat, b: Bracket) {
    && MIN_QUALITY <= b.lo < b.hi <= MAX_QUALITY
    && (match b.best case None => b.lo == MIN_QUALITY case Some(q) => q == b.lo && size(q) <= maxBytes)
    && (b.hi == MAX_QUALITY || size(b.hi) > maxBytes)
  }

  lemma NarrowedHolds(size: real -> nat, maxBytes: nat, b: Bracket)
    requires Holds(size, maxBytes, b)
    ensures
      var n := Narrowed(size, maxBytes, b);
      Holds(size, maxBytes, n) && n.hi - n.lo == (b.hi - b.lo) / 2.0 && b.lo <= n.lo && n.hi <= b.hi
  {
  }

  function Floor(best: Option<real>): real {
    if best.Some? then best.value else MIN_QUALITY
  }

  lemma {:induction false} SearchedFits(size: real -> nat, maxBytes: nat, b: Bracket, i: nat)
    requires i <= QUALITY_STEPS && Holds(size, maxBytes, b)
    ensures
      var r := Searched(size, maxBytes, b, i);
      r.Some? ==> MIN_QUALITY <= r.value <= MAX_QUALITY && size(r.value) <= maxBytes
    decreases QUALITY_STEPS - i
  {
    hide Narrowed;
    if i < QUALITY_STEPS {
      NarrowedHolds(size, maxBytes, b);
      SearchedFits(size, maxBytes, Narrowed(size, maxBytes, b), i + 1);
    }
  }

  lemma NearTheTop(size: real -> nat, maxBytes: nat, b: Bracket)
    requires Holds(size, maxBytes, b) && Monotone(size) && b.hi - b.lo <= QUALITY_EPSILON
    ensures forall q | q <= MAX_QUALITY && size(q) <= maxBytes :: q <= Floor(b.best) + QUALITY_EPSILON
  {
    forall q | q <= MAX_QUALITY && size(q) <= maxBytes ensures q <= b.hi {
      if b.hi <= q {
        assert size(b.hi) <= size(q);
      }
    }
  }

  /** The bracket halves until it is within the tolerance, which takes seven steps of the ten. */
  lemma {:induction false} SearchedIsNear(size: real -> nat, maxBytes: nat, b: Bracket, i: nat)
    requires i < 7 && Holds(size, maxBytes, b) && Monotone(size)
    requires b.hi - b.lo <= QUALITY_EPSILON * (Pow2(7 - i) as real)
    ensures
      var r := Searched(size, maxBytes, b, i);
      forall q | q <= MAX_QUALITY && size(q) <= maxBytes :: q <= Floor(r) + QUALITY_EPSILON
    decreases 7 - i
  {
    hide Narrowed, Monotone, Holds;
    var next := Narrowed(size, maxBytes, b);
    NarrowedHolds(size, maxBytes, b);
    assert Pow2(7 - i) == 2 * Pow2(6 - i);
    if next.hi - next.lo <= QUALITY_EPSILON {
      NearTheTop(size, maxBytes, next);
    } else {
      SearchedIsNear(size, maxBytes, next, i + 1);
    }
  }

  /**
   The search never exceeds its cap and fails only if the lowest quality does not fit.  For
   an encoder whose size grows with quality it is within the tolerance of every quality
   that fits, and fails only if none does.
   */
  lemma QualityIsNearBest(size: real -> nat, maxBytes: nat)
    ensures
      var quality := QualityFor(size, maxBytes);
      && (quality == None ==> size(0.4) > maxBytes)
      && (quality.Some? ==> 0.4 <= quality.value <= 0.95 && size(quality.value) <= maxBytes)
      && (Monotone(size) ==>
            forall q | 0.4 <= q <= 0.95 && size(q) <= maxBytes ::
              quality.Some? && q <= quality.value + 0.005)
  {
    hide Searched;
    assert Pow2(7) == 128;
    SearchedFits(size, maxBytes, WHOLE_RANGE, 0);
    if Monotone(size) {
      SearchedIsNear(size, maxBytes, WHOLE_RANGE, 0);
      forall q | MIN_QUALITY <= q <= MAX_QUALITY && size(q) <= maxBytes ensures size(MIN_QUALITY) <= maxBytes {
        assert size(MIN_QUALITY) <= size(q);
      }
    }
  }
}
