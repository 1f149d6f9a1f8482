/** Output sizes of a template: the bands a user may choose, what a choice resolves to, and what the server accepts. */
module Templates {
  import opened Basics
  import opened Reals
  import opened Crop
  import opened CropLaws

  datatype Size = Size(width: int, height: int)

  datatype Output =
    | ExactPixels(size: Size)
    | RangedPixels(default: Size, min: Size, max: Size, aspect: Size, allowed: Option<seq<Size>>)
    | PhysicalRaster(size: Size, printPpi: nat)
    | NoLocalSize

  function OutputSize(output: Output): Option<Size> {
    match output
    case ExactPixels(size) => Some(size)
    case RangedPixels(default, _, _, _, _) => Some(default)
    case PhysicalRaster(size, _) => Some(size)
    case NoLocalSize => None
  }

  predicate InRange(s: Size, output: Output)
    requires output.RangedPixels?
  {
    && output.min.width <= s.width <= output.max.width
    && output.min.height <= s.height <= output.max.height
    && s.width * output.aspect.height == s.height * output.aspect.width
  }

  function FilterInRange(sizes: seq<Size>, output: Output): seq<Size>
    requires output.RangedPixels?
  {
    if sizes == [] then []
    else (if InRange(sizes[0], output) then [sizes[0]] else []) + FilterInRange(sizes[1..], output)
  }

  /** The official sizes that meet the template's own range and aspect; without a list, the default and the largest. */
  function AllowedOutputSizes(output: Output): seq<Size> {
    if !output.RangedPixels? then []
    else if output.allowed.Some? && output.allowed.value != [] then FilterInRange(output.allowed.value, output)
    else if output.default == output.max then [output.default]
    else [output.default, output.max]
  }

  function ResolveOutputSize(output: Output, selected: Option<Size>): Option<Size> {
    if !output.RangedPixels? then OutputSize(output)
    else if selected.Some? && selected.value in AllowedOutputSizes(output) then selected
    else Some(output.default)
  }

  /** The size is official, if there is a list of those, and within the template's own range and aspect. */
  predicate OnOffer(s: Size, output: Output)
    requires output.RangedPixels?
  {
    if HasList(output) then s in output.allowed.value && InRange(s, output) else s == output.default || s == output.max
  }

  lemma OfferedExactly(output: Output, s: Size)
    requires output.RangedPixels?
    ensures s in AllowedOutputSizes(output) <==> OnOffer(s, output)
  {
    if HasList(output) {
      FilterKeepsInRange(output.allowed.value, output, s);
    }
  }

  /** A choice on offer is what is rendered; any other, and no choice, gives the default; a fixed size stays. */
  lemma ResolvedExactly(output: Output, selected: Option<Size>)
    ensures
      var resolved := ResolveOutputSize(output, selected);
      match output
      case RangedPixels(default, _, _, _, _) =>
        resolved == if selected.Some? && OnOffer(selected.value, output) then selected else Some(default)
      case ExactPixels(size) => resolved == Some(size)
      case PhysicalRaster(size, _) => resolved == Some(size)
      case NoLocalSize => resolved == None
  {
    if output.RangedPixels? && selected.Some? {
      OfferedExactly(output, selected.value);
    }
  }

  predicate HasList(output: Output) {
    output.RangedPixels? && output.allowed.Some? && output.allowed.value != []
  }

  // ----- bands of one template -----

  predicate WellFormedSize(s: Size, aspect: Size) {
    s.width > 0 && s.height > 0 && s.width * aspect.height == s.height * aspect.width
  }

  /** What the catalogue promises of a ranged template: its sizes are positive and have its aspect. */
  predicate WellFormed(output: Output) {
    match output
    case ExactPixels(size) => size.width > 0 && size.height > 0
    case PhysicalRaster(size, _) => size.width > 0 && size.height > 0
    case RangedPixels(default, min, max, aspect, _) =>
      && aspect.width > 0 && aspect.height > 0 && min.width > 0 && min.height > 0
      && WellFormedSize(default, aspect) && WellFormedSize(max, aspect)
    case NoLocalSize => true
  }

  lemma {:induction false} FilterKeepsInRange(sizes: seq<Size>, output: Output, s: Size)
    requires output.RangedPixels?
    ensures s in FilterInRange(sizes, output) <==> s in sizes && InRange(s, output)
  {
    if sizes != [] {
      assert sizes == [sizes[0]] + sizes[1..];
      FilterKeepsInRange(sizes[1..], output, s);
    }
  }

  function RectOf(s: Size): Rect {
    Rect(s.width as real, s.height as real)
  }

  function Ratio(b: Size, a: Size): real
    requires a.width > 0
  {
    Over(b.width as real, a.width as real)
  }

  /** Two sizes of one aspect are uniform enlargements of each other. */
  lemma SameAspect(a: Size, b: Size, aspect: Size)
    requires aspect.width > 0 && aspect.height > 0 && WellFormedSize(a, aspect) && WellFormedSize(b, aspect)
    ensures ProperRect(RectOf(a)) && ProperRect(RectOf(b))
    ensures RectOf(b) == Enlarged(RectOf(a), Ratio(b, a)) && Ratio(b, a) > 0.0
  {
    hide Times, Over;
    var aw, ah, bw, bh := a.width as real, a.height as real, b.width as real, b.height as real;
    CrossRatio(a.width, a.height, b.width, b.height, aspect.width, aspect.height);
    AsReals(a.width, a.height, b.width, b.height);
    OverIsPositive(bw, aw);
    OverUndoes(bw, aw);
    OtherSide(aw, ah, bw, bh);
  }

  lemma CrossRatio(aw: int, ah: int, bw: int, bh: int, w: int, h: int)
    requires w > 0 && h > 0 && aw * h == ah * w && bw * h == bh * w
    ensures bw * ah == bh * aw
  {
    assert (bw * ah) * w == bw * (ah * w) == bw * (aw * h) == (bw * h) * aw == (bh * w) * aw == (bh * aw) * w;
    CancelFactor(bw * ah, bh * aw, w);
  }

  lemma CancelFactor(x: int, y: int, w: int)
    requires w > 0 && x * w == y * w
    ensures x == y
  {
    assert (x - y) * w == 0;
  }

  lemma AsReals(aw: int, ah: int, bw: int, bh: int)
    requires bw * ah == bh * aw
    ensures Times(bw as real, ah as real) == Times(bh as real, aw as real)
  {
    assert (bw as real) * (ah as real) == (bw * ah) as real;
    assert (bh as real) * (aw as real) == (bh * aw) as real;
  }

  lemma OtherSide(aw: real, ah: real, bw: real, bh: real)
    requires aw > 0.0 && Times(bw, ah) == Times(bh, aw)
    ensures Times(Over(bw, aw), ah) == bh
  {
    hide Times, Over;
    OverScales(ah, bw, aw);
    OverScales(bh, aw, aw);
    OverItself(aw);
    TimesZero(bh);
    TimesAssociates(Over(bw, aw), ah, 1.0);
    TimesAssociates(bw, ah, 1.0);
  }

  lemma ResolvedIsWellFormed(output: Output, selected: Option<Size>)
    requires output.RangedPixels? && WellFormed(output)
    ensures ResolveOutputSize(output, selected).Some?
    ensures WellFormedSize(ResolveOutputSize(output, selected).value, output.aspect)
  {
    if selected.Some? && output.allowed.Some? && output.allowed.value != [] {
      FilterKeepsInRange(output.allowed.value, output, selected.value);
    }
  }

  /** Switching between the bands of a template never invalidates, and never repairs, a crop. */
  lemma SwitchingBandsKeepsValidity(
    t: EditTransform, src: Rect, output: Output, a: Option<Size>, b: Option<Size>)
    requires ProperRect(src) && Proper(t) && output.RangedPixels? && WellFormed(output)
    ensures ResolveOutputSize(output, a).Some? && ResolveOutputSize(output, b).Some?
    ensures IsValid(t, src, RectOf(ResolveOutputSize(output, a).value)) <==>
            IsValid(t, src, RectOf(ResolveOutputSize(output, b).value))
  {
    hide IsValid, ResolveOutputSize;
    ResolvedIsWellFormed(output, a);
    ResolvedIsWellFormed(output, b);
    var x, y := ResolveOutputSize(output, a).value, ResolveOutputSize(output, b).value;
    SameAspect(x, y, output.aspect);
    ValidAtEverySize(t, src, RectOf(x), Ratio(y, x));
  }

  // ----- the server's size check -----

  datatype SizeConstraint =
    | Exact(size: Size)
    | Bounded(min: Size, max: Size, aspect: Size, allowed: Option<seq<Size>>)

  /** A template without a local size has no constraint: saving it is an error. */
  function ConstraintOf(output: Output): Option<SizeConstraint> {
    match output
    case ExactPixels(size) => Some(Exact(size))
    case PhysicalRaster(size, _) => Some(Exact(size))
    case RangedPixels(_, min, max, aspect, allowed) =>
      Some(Bounded(min, max, aspect, if allowed == Some([]) then None else allowed))
    case NoLocalSize => None
  }

  predicate MeetsConstraint(s: Size, c: SizeConstraint) {
    match c
    case Exact(size) => s == size
    case Bounded(min, max, aspect, allowed) =>
      && min.width <= s.width <= max.width && min.height <= s.height <= max.height
      && s.width * aspect.height == s.height * aspect.width
      && (allowed.Some? ==> s in allowed.value)
  }

  /**
   What the server accepts: of a fixed size exactly that one, of a range exactly the sizes in
   it, of its aspect, and listed if there is a list.
   */
  lemma AcceptedSizes(output: Output, s: Size)
    requires ConstraintOf(output).Some?
    ensures MeetsConstraint(s, ConstraintOf(output).value) <==>
            if output.RangedPixels? then InRange(s, output) && (HasList(output) ==> s in output.allowed.value)
            else ResolveOutputSize(output, None) == Some(s)
  {
  }

  /**
   The server accepts the size the editor renders, whatever the user selects, exactly when
   it accepts the template's default and, for a template without a list, its largest size.
   */
  lemma ServerAcceptsEverySelection(output: Output)
    requires ConstraintOf(output).Some?
    ensures
      (forall selected :: MeetsConstraint(ResolveOutputSize(output, selected).value, ConstraintOf(output).value)) <==>
      && MeetsConstraint(OutputSize(output).value, ConstraintOf(output).value)
      && (output.RangedPixels? && !HasList(output) ==> MeetsConstraint(output.max, ConstraintOf(output).value))
  {
    var c := ConstraintOf(output).value;
    assert ResolveOutputSize(output, None) == OutputSize(output);
    if output.RangedPixels? && !HasList(output) {
      assert ResolveOutputSize(output, Some(output.max)) == Some(output.max);
    }
    if HasList(output) {
      forall selected: Option<Size> | selected.Some? && selected.value in AllowedOutputSizes(output)
        ensures MeetsConstraint(selected.value, c)
      {
        FilterKeepsInRange(output.allowed.value, output, selected.value);
      }
    }
  }
}
