/** The geometry checks of the final artifact, against the bands the editor drew and the crops a user can pan to. */
module Checks {
  import opened Basics
  import opened Reals
  import opened Affines
  import opened Crop
  import opened CropLaws
  import opened Overlay

  datatype Status = Pass | Warn | Unknown

  datatype Advice = MoveLeft | MoveRight | MoveUp | MoveDown | CropTighter

  datatype CheckItem = CheckItem(ruleId: string, status: Status, advice: Option<Advice>)

  datatype Anchors = Anchors(faceCenter: Point, chinTip: Point, eyeLine: Point, hairline: Point)

  function Unmeasured(rule: Rule): CheckItem {
    CheckItem(rule.id, Unknown, None)
  }

  predicate Within(x: real, b: Bounds) {
    (b.min == None || x >= b.min.value) && (b.max == None || x <= b.max.value)
  }

  /** Chin to hairline is a lower bound on the head's height: it can refute the rule, never confirm it. */
  function HeadHeightCheck(rule: Rule, sheet: Sheet, chin: Point, hairline: Point): CheckItem {
    var span := chin.y - hairline.y;
    var b := BoundsOf(rule, sheet);
    if span <= 0.0 || b == Bounds(None, None) then Unmeasured(rule)
    else if b.max.Some? && span > b.max.value then CheckItem(rule.id, Warn, Some(CropTighter))
    else CheckItem(rule.id, Unknown, None)
  }

  function FaceCenterOffsetCheck(rule: Rule, sheet: Sheet, center: Point): CheckItem {
    var offset := center.x - sheet.out.width / 2.0;
    var b := BoundsOf(rule, sheet);
    if b == Bounds(None, None) then Unmeasured(rule)
    else if Within(offset, b) then CheckItem(rule.id, Pass, None)
    else CheckItem(rule.id, Warn, Some(if offset < 0.0 then MoveRight else MoveLeft))
  }

  function MarginFromBottomCheck(rule: Rule, sheet: Sheet, point: Point): CheckItem {
    var distance := sheet.out.height - point.y;
    var b := BoundsOf(rule, sheet);
    if b == Bounds(None, None) then Unmeasured(rule)
    else if Within(distance, b) then CheckItem(rule.id, Pass, None)
    else CheckItem(rule.id, Warn, Some(if b.min.Some? && distance < b.min.value then MoveUp else MoveDown))
  }

  predicate Handled(metric: Metric) {
    metric == HeadHeight || metric == FaceCenterOffsetX || metric == ChinBottomMargin || metric == EyeLineFromBottom
  }

  /** The item of a handled rule, from anchors in source pixels and the artifact's own matrix. */
  function ItemFor(rule: Rule, sheet: Sheet, anchors: Option<Anchors>, matrix: Affine): CheckItem
    requires Handled(rule.metric)
  {
    if anchors == None then Unmeasured(rule)
    else
      match rule.metric
      case HeadHeight =>
        HeadHeightCheck(rule, sheet, Apply(matrix, anchors.value.chinTip), Apply(matrix, anchors.value.hairline))
      case FaceCenterOffsetX => FaceCenterOffsetCheck(rule, sheet, Apply(matrix, anchors.value.faceCenter))
      case ChinBottomMargin => MarginFromBottomCheck(rule, sheet, Apply(matrix, anchors.value.chinTip))
      case EyeLineFromBottom => MarginFromBottomCheck(rule, sheet, Apply(matrix, anchors.value.eyeLine))
  }

  function Items(rules: seq<Rule>, sheet: Sheet, anchors: Option<Anchors>, matrix: Affine): seq<CheckItem> {
    if rules == [] then []
    else
      Items(rules[..|rules| - 1], sheet, anchors, matrix)
      + if Handled(rules[|rules| - 1].metric) then [ItemFor(rules[|rules| - 1], sheet, anchors, matrix)] else []
  }

  method GeometryChecks(rules: seq<Rule>, sheet: Sheet, anchors: Option<Anchors>, matrix: Affine)
    returns (items: seq<CheckItem>)
    ensures items == Items(rules, sheet, anchors, matrix)
  {
    hide HeadHeightCheck, FaceCenterOffsetCheck, MarginFromBottomCheck;
    items := [];
    for i := 0 to |rules|
      invariant items == Items(rules[..i], sheet, anchors, matrix)
    {
      assert rules[..i + 1][..i] == rules[..i];
      var rule := rules[i];
      if !Handled(rule.metric) {
        continue;
      }
      if anchors == None {
        items := items + [Unmeasured(rule)];
        continue;
      }
      match rule.metric {
        case HeadHeight =>
          var chin, hairline := Apply(matrix, anchors.value.chinTip), Apply(matrix, anchors.value.hairline);
          items := items + [HeadHeightCheck(rule, sheet, chin, hairline)];
        case FaceCenterOffsetX =>
          items := items + [FaceCenterOffsetCheck(rule, sheet, Apply(matrix, anchors.value.faceCenter))];
        case ChinBottomMargin =>
          items := items + [MarginFromBottomCheck(rule, sheet, Apply(matrix, anchors.value.chinTip))];
        case EyeLineFromBottom =>
          items := items + [MarginFromBottomCheck(rule, sheet, Apply(matrix, anchors.value.eyeLine))];
      }
    }
    assert rules[..|rules|] == rules;
  }

  /** No handled rule vanishes from the summary, with or without anchors. */
  lemma {:induction false} EveryHandledRuleReports(
    rules: seq<Rule>, sheet: Sheet, anchors: Option<Anchors>, matrix: Affine, i: nat)
    requires i < |rules|
    requires rules[i].metric in {HeadHeight, FaceCenterOffsetX, ChinBottomMargin, EyeLineFromBottom}
    ensures Handled(rules[i].metric)
    ensures ItemFor(rules[i], sheet, anchors, matrix) in Items(rules, sheet, anchors, matrix)
    ensures ItemFor(rules[i], sheet, anchors, matrix).ruleId == rules[i].id
    ensures anchors == None ==> ItemFor(rules[i], sheet, anchors, matrix).status == Unknown
    decreases |rules|
  {
    if i < |rules| - 1 {
      assert rules[..|rules| - 1][i] == rules[i];
      EveryHandledRuleReports(rules[..|rules| - 1], sheet, anchors, matrix, i);
    }
  }

  /** The bounds convert to canvas pixels, and the value is within them. */
  predicate Passes(rule: Rule, sheet: Sheet, x: real) {
    BoundsOf(rule, sheet) != Bounds(None, None) && Within(x, BoundsOf(rule, sheet))
  }

  /**
   Which anchor each rule judges: the centre line rule the face centre, across the canvas; the
   chin rule the chin tip and the eye rule the eye line, up from the bottom edge; the head rule
   the height from chin tip to hairline.  Without convertible bounds nothing is concluded.
   */
  lemma EachRuleJudgesItsAnchor(rule: Rule, sheet: Sheet, a: Anchors, matrix: Affine)
    requires Handled(rule.metric)
    ensures
      var item := ItemFor(rule, sheet, Some(a), matrix);
      && (BoundsOf(rule, sheet) == Bounds(None, None) ==> item.status == Unknown)
      && match rule.metric
         case FaceCenterOffsetX =>
           item.status == Pass <==> Passes(rule, sheet, Apply(matrix, a.faceCenter).x - sheet.out.width / 2.0)
         case ChinBottomMargin =>
           item.status == Pass <==> Passes(rule, sheet, sheet.out.height - Apply(matrix, a.chinTip).y)
         case EyeLineFromBottom =>
           item.status == Pass <==> Passes(rule, sheet, sheet.out.height - Apply(matrix, a.eyeLine).y)
         case HeadHeight =>
           var tall, max := Apply(matrix, a.chinTip).y - Apply(matrix, a.hairline).y, BoundsOf(rule, sheet).max;
           && (item.status == Warn <==> tall > 0.0 && max.Some? && tall > max.value)
           && (item.status == Warn <==> item.advice == Some(CropTighter))
         case _ => true
  {
    hide BoundsOf, Row;
  }

  // ----- the head height is never confirmed -----

  /**
   No measurement passes.  A warning is sound wherever the crown is, and given whenever the
   part that can be measured is too tall already.
   */
  lemma HeadHeightIsOneSided(rule: Rule, sheet: Sheet, chin: Point, hairline: Point, crown: Point)
    requires crown.y <= hairline.y
    ensures
      var item := HeadHeightCheck(rule, sheet, chin, hairline);
      var max := BoundsOf(rule, sheet).max;
      && item.status != Pass
      && (item.status == Warn ==> max.Some? && chin.y - crown.y > max.value)
      && (hairline.y < chin.y && max.Some? && chin.y - hairline.y > max.value ==> item.status == Warn)
  {
  }

  // ----- checks against the drawn bands -----

  /** A check with a real pass or warn conclusion. */
  predicate Positional(metric: Metric) {
    metric == FaceCenterOffsetX || metric == ChinBottomMargin || metric == EyeLineFromBottom
  }

  function PositionCheck(rule: Rule, sheet: Sheet, at: Point): CheckItem
    requires Positional(rule.metric)
  {
    if rule.metric == FaceCenterOffsetX then FaceCenterOffsetCheck(rule, sheet, at)
    else MarginFromBottomCheck(rule, sheet, at)
  }

  /** A point whose measured value is `x`. */
  function PointMeasuring(metric: Metric, x: real, out: Rect): Point {
    if metric == FaceCenterOffsetX then Point(out.width / 2.0 + x, 0.0) else Point(0.0, out.height - x)
  }

  /**
   A check passes exactly on the points of the band drawn for its rule if and only if the
   rule has both bounds, in order.
   */
  lemma BandsAgreeWithChecks(rule: Rule, sheet: Sheet)
    requires Positional(rule.metric) && BoundsOf(rule, sheet) != Bounds(None, None)
    ensures GuideFor(rule, sheet).Some?
    ensures
      (forall at: Point :: PositionCheck(rule, sheet, at).status == Pass <==> InBand(at, GuideFor(rule, sheet).value))
      <==> TwoSided(BoundsOf(rule, sheet))
  {
    hide BoundsOf;
    var b, g := BoundsOf(rule, sheet), GuideFor(rule, sheet).value;
    if !TwoSided(b) {
      var x :=
        if b.min == None then MinReal(b.max.value, 0.0) - 1.0
        else if b.max == None then MaxReal(b.min.value, MaxReal(0.0, sheet.out.height)) + 1.0
        else b.min.value;
      var at := PointMeasuring(rule.metric, x, sheet.out);
      OneSidedDiffers(rule, sheet, b, x, at);
    }
  }

  lemma OneSidedDiffers(rule: Rule, sheet: Sheet, b: Bounds, x: real, at: Point)
    requires Positional(rule.metric) && b == BoundsOf(rule, sheet) && b != Bounds(None, None) && !TwoSided(b)
    requires at == PointMeasuring(rule.metric, x, sheet.out)
    requires
      if b.min == None then x == MinReal(b.max.value, 0.0) - 1.0
      else if b.max == None then x == MaxReal(b.min.value, MaxReal(0.0, sheet.out.height)) + 1.0
      else x == b.min.value
    ensures GuideFor(rule, sheet).Some?
    ensures PositionCheck(rule, sheet, at).status != Pass <==> InBand(at, GuideFor(rule, sheet).value)
  {
    hide BoundsOf;
  }

  /** On the canvas, a missing bound of a margin rule makes no difference if the other bound lies on the canvas. */
  lemma OneSidedMarginsAgreeOnCanvas(rule: Rule, sheet: Sheet, at: Point)
    requires rule.metric == ChinBottomMargin || rule.metric == EyeLineFromBottom
    requires BoundsOf(rule, sheet) != Bounds(None, None) && 0.0 <= at.y <= sheet.out.height
    requires
      var b := BoundsOf(rule, sheet);
      if b.min == None then 0.0 <= b.max.value
      else if b.max == None then b.min.value <= sheet.out.height
      else b.min.value <= b.max.value
    ensures GuideFor(rule, sheet).Some?
    ensures PositionCheck(rule, sheet, at).status == Pass <==> InBand(at, GuideFor(rule, sheet).value)
  {
    hide BoundsOf;
  }

  // ----- the advice of a warning -----

  /** How a pan by `d` in the advised direction moves a point of the canvas. */
  function Panned(at: Point, advice: Advice, d: real): Point {
    match advice
    case MoveLeft => Point(at.x - d, at.y)
    case MoveRight => Point(at.x + d, at.y)
    case MoveUp => Point(at.x, at.y - d)
    case MoveDown => Point(at.x, at.y + d)
    case CropTighter => at
  }

  /** Some pan in the advised direction turns the warning into a pass. */
  ghost predicate AdviceWorks(rule: Rule, sheet: Sheet, at: Point)
    requires Positional(rule.metric)
  {
    var item := PositionCheck(rule, sheet, at);
    item.status == Warn ==>
      && item.advice.Some?
      && exists d :: d > 0.0 && PositionCheck(rule, sheet, Panned(at, item.advice.value, d)).status == Pass
  }

  predicate InOrder(b: Bounds) {
    b.min.Some? && b.max.Some? ==> b.min.value <= b.max.value
  }

  /** Up and down advice always works when some distance passes at all. */
  lemma MarginAdviceWorks(rule: Rule, sheet: Sheet)
    requires rule.metric == ChinBottomMargin || rule.metric == EyeLineFromBottom
    requires BoundsOf(rule, sheet) != Bounds(None, None)
    ensures (forall at: Point :: AdviceWorks(rule, sheet, at)) <==> InOrder(BoundsOf(rule, sheet))
  {
    hide BoundsOf;
    var b := BoundsOf(rule, sheet);
    if InOrder(b) {
      forall at: Point ensures AdviceWorks(rule, sheet, at) {
        var item, distance := PositionCheck(rule, sheet, at), sheet.out.height - at.y;
        if item.status == Warn {
          var d := if item.advice == Some(MoveUp) then b.min.value - distance else distance - b.max.value;
          assert d > 0.0 && PositionCheck(rule, sheet, Panned(at, item.advice.value, d)).status == Pass;
        }
      }
    } else {
      assert !AdviceWorks(rule, sheet, Point(0.0, 0.0));
    }
  }

  /** The allowed offsets include a centred face. */
  predicate AllowsCentre(b: Bounds) {
    (b.min.Some? ==> b.min.value <= 0.0) && (b.max.Some? ==> 0.0 <= b.max.value)
  }

  /** Left and right advice looks only at the side of the centre line: it always works iff a centred face passes. */
  lemma CentreAdviceWorks(rule: Rule, sheet: Sheet)
    requires rule.metric == FaceCenterOffsetX && BoundsOf(rule, sheet) != Bounds(None, None)
    ensures (forall at: Point :: AdviceWorks(rule, sheet, at)) <==> AllowsCentre(BoundsOf(rule, sheet))
  {
    hide BoundsOf;
    var b := BoundsOf(rule, sheet);
    if AllowsCentre(b) {
      forall at: Point ensures AdviceWorks(rule, sheet, at) {
        CentringWorks(rule, sheet, at);
      }
    } else {
      var offset := if b.min.Some? && b.min.value > 0.0 then 0.0 else b.max.value / 2.0;
      WrongSide(rule, sheet, Point(sheet.out.width / 2.0 + offset, 0.0), offset);
    }
  }

  lemma CentringWorks(rule: Rule, sheet: Sheet, at: Point)
    requires rule.metric == FaceCenterOffsetX && AllowsCentre(BoundsOf(rule, sheet))
    requires BoundsOf(rule, sheet) != Bounds(None, None)
    ensures AdviceWorks(rule, sheet, at)
  {
    hide BoundsOf;
    var item, offset := PositionCheck(rule, sheet, at), at.x - sheet.out.width / 2.0;
    if item.status == Warn {
      assert PositionCheck(rule, sheet, Panned(at, item.advice.value, Abs(offset))).status == Pass;
    }
  }

  /** Just beside the centre line, on the far side of it from the allowed offsets, the advice leads away from them. */
  lemma WrongSide(rule: Rule, sheet: Sheet, at: Point, offset: real)
    requires rule.metric == FaceCenterOffsetX && at.x == sheet.out.width / 2.0 + offset
    requires
      var b := BoundsOf(rule, sheet);
      !AllowsCentre(b) && offset == if b.min.Some? && b.min.value > 0.0 then 0.0 else b.max.value / 2.0
    ensures !AdviceWorks(rule, sheet, at)
  {
    hide BoundsOf;
  }

  /** Panning the photo by a fraction of the canvas moves every point of it by that many canvas pixels. */
  lemma PanMovesThePhoto(t: EditTransform, dx: real, dy: real, src: Rect, out: Rect, p: Point)
    requires ProperRect(src)
    ensures
      var panned := t.(translateX := t.translateX + dx, translateY := t.translateY + dy);
      var before, after := Apply(RenderMatrix(t, src, out), p), Apply(RenderMatrix(panned, src, out), p);
      after == Point(before.x + Times(dx, out.width), before.y + Times(dy, out.height))
  {
    hide Turn, Flip, Zoom, ToCentre, FromCentre, Cover, Translation, Times, Apply, Compose;
    var panned := t.(translateX := t.translateX + dx, translateY := t.translateY + dy);
    var rest := Compose(
      ToCentre(out),
      Compose(
        Turn(t),
        Compose(
          FromCentre(out),
          Compose(Flip(t, out), Compose(ToCentre(out), Compose(Zoom(t), Compose(FromCentre(out), Cover(src, out))))))));
    SameRest(t, panned, out);
    TranslationShifts(t, panned, dx, dy, out);
    ShiftedApplies(Translation(t, out), Translation(panned, out), rest, Times(dx, out.width), Times(dy, out.height), p);
  }

  lemma SameRest(t: EditTransform, u: EditTransform, out: Rect)
    requires u == t.(translateX := u.translateX, translateY := u.translateY)
    ensures Turn(t) == Turn(u) && Flip(t, out) == Flip(u, out) && Zoom(t) == Zoom(u)
  {
  }

  lemma TranslationShifts(t: EditTransform, u: EditTransform, dx: real, dy: real, out: Rect)
    requires u.translateX == t.translateX + dx && u.translateY == t.translateY + dy
    ensures
      var m, n := Translation(t, out), Translation(u, out);
      n == m.(e := m.e + Times(dx, out.width), f := m.f + Times(dy, out.height))
  {
    hide Times;
    TimesDistributes(out.width, t.translateX, dx);
    TimesDistributes(out.height, t.translateY, dy);
  }

  lemma ShiftedRow(a: real, c: real, e: real, shift: real, x: real, y: real)
    ensures Row(a, c, e + shift, x, y) == Row(a, c, e, x, y) + shift
  {
  }

  lemma ShiftedApplies(m: Affine, n: Affine, rest: Affine, x: real, y: real, p: Point)
    requires n == m.(e := m.e + x, f := m.f + y)
    ensures
      var before, after := Apply(Compose(m, rest), p), Apply(Compose(n, rest), p);
      after == Point(before.x + x, before.y + y)
  {
    hide Row, Compose;
    var q := Apply(rest, p);
    ComposeApplies(m, rest, p);
    ComposeApplies(n, rest, p);
    ShiftedRow(m.a, m.c, m.e, x, q.x, q.y);
    ShiftedRow(m.b, m.d, m.f, y, q.x, q.y);
  }

  /** The crop panned as advised, so that the photo moves by `d` canvas pixels. */
  function PanBy(t: EditTransform, advice: Advice, d: real, out: Rect): EditTransform
    requires ProperRect(out)
  {
    match advice
    case MoveLeft => t.(translateX := t.translateX - Over(d, out.width))
    case MoveRight => t.(translateX := t.translateX + Over(d, out.width))
    case MoveUp => t.(translateY := t.translateY - Over(d, out.height))
    case MoveDown => t.(translateY := t.translateY + Over(d, out.height))
    case CropTighter => t
  }

  /** The check of the photo rendered with crop `t`, for the anchor at source point `p`. */
  function CheckRendered(rule: Rule, sheet: Sheet, t: EditTransform, src: Rect, p: Point): CheckItem
    requires Positional(rule.metric) && ProperRect(src)
  {
    PositionCheck(rule, sheet, Apply(RenderMatrix(t, src, sheet.out), p))
  }

  /** How far the measured distance is from the allowed ones. */
  function Shortfall(rule: Rule, sheet: Sheet, at: Point): real
    requires IsDistance(rule.metric)
  {
    var b, x := BoundsOf(rule, sheet), Measured(rule.metric, at, sheet.out);
    if b.min.Some? && x < b.min.value then b.min.value - x
    else if b.max.Some? && x > b.max.value then x - b.max.value
    else 0.0
  }

  lemma PanByMoves(t: EditTransform, advice: Advice, d: real, src: Rect, out: Rect, p: Point)
    requires ProperRect(src) && ProperRect(out)
    ensures Apply(RenderMatrix(PanBy(t, advice, d, out), src, out), p) ==
            Panned(Apply(RenderMatrix(t, src, out), p), advice, d)
  {
    hide RenderMatrix, Apply, Times, Over;
    TimesZero(out.width);
    TimesZero(out.height);
    var x, y := Over(d, out.width), Over(d, out.height);
    OverUndoes(d, out.width);
    OverUndoes(d, out.height);
    TimesNegated(x, out.width);
    TimesNegated(y, out.height);
    match advice
    case MoveLeft => PanMovesThePhoto(t, -x, 0.0, src, out, p);
    case MoveRight => PanMovesThePhoto(t, x, 0.0, src, out, p);
    case MoveUp => PanMovesThePhoto(t, 0.0, -y, src, out, p);
    case MoveDown => PanMovesThePhoto(t, 0.0, y, src, out, p);
    case CropTighter => PanMovesThePhoto(t, 0.0, 0.0, src, out, p);
  }

  /** Where the advice works, the shortfall is the smallest advised pan that passes. */
  lemma ShortfallIsLeastPan(rule: Rule, sheet: Sheet, at: Point)
    requires Positional(rule.metric) && PositionCheck(rule, sheet, at).status == Warn && AdviceWorks(rule, sheet, at)
    ensures
      var advice := PositionCheck(rule, sheet, at).advice.value;
      var least := Shortfall(rule, sheet, at);
      && advice != CropTighter && least > 0.0
      && PositionCheck(rule, sheet, Panned(at, advice, least)).status == Pass
      && forall d | d > 0.0 && PositionCheck(rule, sheet, Panned(at, advice, d)).status == Pass :: least <= d
  {
    hide BoundsOf;
  }

  /** On the way to a valid crop every smaller pan of a valid crop is valid. */
  lemma SmallerPanIsValid(t: EditTransform, advice: Advice, near: real, far: real, src: Rect, out: Rect)
    requires ProperRect(src) && ProperRect(out) && Proper(t) && 0.0 < near <= far
    requires IsValid(t, src, out) && IsValid(PanBy(t, advice, far, out), src, out)
    ensures IsValid(PanBy(t, advice, near, out), src, out)
  {
    hide IsValid, Mix, Over;
    var end, mid := PanBy(t, advice, far, out), PanBy(t, advice, near, out);
    var r := 1.0 - near / far;
    Fraction(near, far);
    MixOfSame(r, t.translateX);
    MixOfSame(r, t.translateY);
    MixPartWay(t.translateX, near, far, out.width);
    MixPartWay(t.translateY, near, far, out.height);
    assert Moved(t, t.translateX, t.translateY) == t && Moved(t, end.translateX, end.translateY) == end;
    ValidIsConvex(
      t, t.translateX, t.translateY, end.translateX, end.translateY, r, mid.translateX, mid.translateY, src, out);
  }

  lemma MixOfSame(r: real, x: real)
    ensures Mix(r, x, x) == x
  {
  }

  lemma MixPartWay(x: real, near: real, far: real, w: real)
    requires 0.0 < near <= far && w > 0.0
    ensures Mix(1.0 - near / far, x, x + Over(far, w)) == x + Over(near, w)
    ensures Mix(1.0 - near / far, x, x - Over(far, w)) == x - Over(near, w)
  {
    hide Over;
    var q := near / far;
    assert Times(q, far) == near;
    OverScales(q, far, w);
    MixAhead(q, x, Over(far, w));
  }

  lemma MixAhead(q: real, x: real, step: real)
    ensures Mix(1.0 - q, x, x + step) == x + Times(q, step) && Mix(1.0 - q, x, x - step) == x - Times(q, step)
  {
  }

  /**
   Where the advice works, the smallest pan that follows it and passes is the shortfall.  From
   a valid crop the user can follow the advice to a crop that is both valid and passes if and
   only if that smallest pan leaves the crop valid: the editor admits no other.
   */
  lemma FollowingAdviceFixes(rule: Rule, sheet: Sheet, t: EditTransform, src: Rect, p: Point)
    requires Positional(rule.metric) && ProperRect(src) && ProperRect(sheet.out)
    requires CheckRendered(rule, sheet, t, src, p).status == Warn
    requires AdviceWorks(rule, sheet, Apply(RenderMatrix(t, src, sheet.out), p))
    ensures
      var out := sheet.out;
      var advice := CheckRendered(rule, sheet, t, src, p).advice.value;
      var least := Shortfall(rule, sheet, Apply(RenderMatrix(t, src, out), p));
      && least > 0.0 && CheckRendered(rule, sheet, PanBy(t, advice, least, out), src, p).status == Pass
      && (forall d | 0.0 < d < least :: CheckRendered(rule, sheet, PanBy(t, advice, d, out), src, p).status != Pass)
      && (Proper(t) && IsValid(t, src, out) ==>
            ((exists d :: d > 0.0 && IsValid(PanBy(t, advice, d, out), src, out)
                          && CheckRendered(rule, sheet, PanBy(t, advice, d, out), src, p).status == Pass)
             <==> IsValid(PanBy(t, advice, least, out), src, out)))
  {
    hide RenderMatrix, Apply, PositionCheck, Panned, IsValid, Shortfall, PanBy;
    var out := sheet.out;
    var at := Apply(RenderMatrix(t, src, out), p);
    var advice, least := PositionCheck(rule, sheet, at).advice.value, Shortfall(rule, sheet, at);
    ShortfallIsLeastPan(rule, sheet, at);
    forall d | d > 0.0
      ensures CheckRendered(rule, sheet, PanBy(t, advice, d, out), src, p) ==
              PositionCheck(rule, sheet, Panned(at, advice, d))
    {
      PanByMoves(t, advice, d, src, out, p);
    }
    if Proper(t) && IsValid(t, src, out) {
      forall d | d > 0.0 && IsValid(PanBy(t, advice, d, out), src, out)
                 && CheckRendered(rule, sheet, PanBy(t, advice, d, out), src, p).status == Pass
        ensures IsValid(PanBy(t, advice, least, out), src, out)
      {
        SmallerPanIsValid(t, advice, least, d, src, out);
      }
    }
  }

  lemma ExactCover(r: Rect)
    requires ProperRect(r)
    ensures Magnification(IDENTITY_TRANSFORM, r, r) == 1.0
  {
    hide Over, Times;
    OverItself(r.width);
    OverItself(r.height);
    TimesZero(1.0);
  }

  lemma PullOfPan(t: EditTransform, advice: Advice, d: real, r: Rect)
    requires ProperRect(r) && t == PanBy(IDENTITY_TRANSFORM, advice, d, r) && advice != CropTighter
    ensures
      if advice == MoveLeft || advice == MoveRight then Abs(PullX(t, r)) == Abs(d) else Abs(PullY(t, r)) == Abs(d)
  {
    hide Over, Times;
    OverUndoes(d, r.width);
    OverUndoes(d, r.height);
    TimesNegated(Over(d, r.width), r.width);
    TimesNegated(Over(d, r.height), r.height);
    TimesZero(r.width);
    TimesZero(r.height);
  }

  lemma HalfUpright(r: Rect)
    ensures HalfX(UPRIGHT, r) == r.width / 2.0 && HalfY(UPRIGHT, r) == r.height / 2.0
  {
  }

  /** A photo of exactly the canvas's size cannot be panned by more than the slack in any direction. */
  lemma NoRoomToPan(advice: Advice, d: real, r: Rect)
    requires ProperRect(r) && advice != CropTighter && d > SLACK
    ensures !IsValid(PanBy(IDENTITY_TRANSFORM, advice, d, r), r, r)
  {
    hide IsValid, Times, Over, PullX, PullY, HalfX, HalfY, CoverScale;
    var t := PanBy(IDENTITY_TRANSFORM, advice, d, r);
    ExactCover(r);
    SameScale(IDENTITY_TRANSFORM, t, r, r);
    TimesZero(r.width / 2.0 + SLACK);
    TimesZero(r.height / 2.0 + SLACK);
    HalfUpright(r);
    PullOfPan(t, advice, d, r);
    ValidIffWithinReach(t, r, r);
  }

  /**
   The condition does fail: with a photo of exactly the canvas's size, a valid crop, no warning
   by more than the slack can be followed to a crop that is valid and passes.
   */
  lemma NoRoomToFollow(rule: Rule, sheet: Sheet, p: Point)
    requires Positional(rule.metric) && ProperRect(sheet.out)
    requires CheckRendered(rule, sheet, IDENTITY_TRANSFORM, sheet.out, p).status == Warn
    requires AdviceWorks(rule, sheet, Apply(RenderMatrix(IDENTITY_TRANSFORM, sheet.out, sheet.out), p))
    requires Shortfall(rule, sheet, Apply(RenderMatrix(IDENTITY_TRANSFORM, sheet.out, sheet.out), p)) > SLACK
    ensures IsValid(IDENTITY_TRANSFORM, sheet.out, sheet.out)
    ensures
      var advice := CheckRendered(rule, sheet, IDENTITY_TRANSFORM, sheet.out, p).advice.value;
      forall d | d > 0.0 ::
        var t := PanBy(IDENTITY_TRANSFORM, advice, d, sheet.out);
        !(IsValid(t, sheet.out, sheet.out) && CheckRendered(rule, sheet, t, sheet.out, p).status == Pass)
  {
    hide RenderMatrix, Apply, PositionCheck, Panned, IsValid, Shortfall, PanBy;
    var out := sheet.out;
    var at := Apply(RenderMatrix(IDENTITY_TRANSFORM, out, out), p);
    IdentityIsValid(out, out);
    FollowingAdviceFixes(rule, sheet, IDENTITY_TRANSFORM, out, p);
    ShortfallIsLeastPan(rule, sheet, at);
    NoRoomToPan(PositionCheck(rule, sheet, at).advice.value, Shortfall(rule, sheet, at), out);
  }

  // ----- a rule of a shipped template -----

  /** Face centre line at 17 mm +- 2 mm, on a print of 35 mm by 45 mm at 300 ppi. */
  const JAPANESE_PASSPORT := Sheet(Rect(413.0, 531.0), Some(300.0))
  const JAPANESE_FACE_CENTER :=
    Rule("jp-passport-paper-face-center", FaceCenterOffsetX, PhysicalMillimetres, true, Some(15.0), Some(19.0))

  /**
   The 15 to 19 mm of this rule are meant from the edge of the print, but checked from its centre
   line: every face that meets the official rule is warned about, only faces at the far right
   edge pass, and a centred face is advised to move away from them.
   */
  lemma JapaneseFaceCenterIsMisread(at: Point)
    ensures 15.0 <= at.x / 300.0 * 25.4 <= 19.0 ==>
      FaceCenterOffsetCheck(JAPANESE_FACE_CENTER, JAPANESE_PASSPORT, at).status == Warn
    ensures FaceCenterOffsetCheck(JAPANESE_FACE_CENTER, JAPANESE_PASSPORT, at).status == Pass ==> at.x > 383.0
    ensures at.x == 206.5 ==> !AdviceWorks(JAPANESE_FACE_CENTER, JAPANESE_PASSPORT, at)
  {
  }

  // ----- cropping tighter -----

  /** The height from `low` up to `high` on the canvas, `u` times the magnification. */
  lemma RenderedHeight(t: EditTransform, src: Rect, out: Rect, high: Point, low: Point)
    requires ProperRect(src)
    ensures
      var m := RenderMatrix(t, src, out);
      var u := Dot(-(Mirror(t.flipX) * t.rotation.sin), t.rotation.cos, low.x - high.x, low.y - high.y);
      Apply(m, low).y - Apply(m, high).y == Times(Magnification(t, src, out), u)
  {
    hide RenderMatrix, Magnification;
    RenderIsCentred(t, src, out);
    var k := Magnification(t, src, out);
    CentredHeight(t, k, src, out, high, low);
  }

  lemma CentredHeight(t: EditTransform, k: real, src: Rect, out: Rect, high: Point, low: Point)
    ensures
      var m := Centred(t, k, src, out);
      Apply(m, low).y - Apply(m, high).y ==
      Times(k, Dot(-(Mirror(t.flipX) * t.rotation.sin), t.rotation.cos, low.x - high.x, low.y - high.y))
  {
    var m := Centred(t, k, src, out);
    HeightOfRows(m.b, m.d, m.f, high, low);
    var s, c, dx, dy := -(Mirror(t.flipX) * t.rotation.sin), t.rotation.cos, low.x - high.x, low.y - high.y;
    assert m.b == s * k && m.d == c * k;
    FactorOut(s, c, k, dx, dy);
  }

  lemma HeightOfRows(b: real, d: real, f: real, high: Point, low: Point)
    ensures Row(b, d, f, low.x, low.y) - Row(b, d, f, high.x, high.y) == Dot(b, d, low.x - high.x, low.y - high.y)
  {
  }

  lemma FactorOut(s: real, c: real, k: real, dx: real, dy: real)
    ensures Dot(s * k, c * k, dx, dy) == Times(k, Dot(s, c, dx, dy))
  {
  }

  /**
   A head that is too tall comes with the advice to crop tighter (or to take another photo from
   farther away).  Cropping tighter never helps: at every larger scale, wherever the crop is
   moved, the warning remains.
   */
  lemma CroppingTighterNeverHelps(
    rule: Rule, sheet: Sheet, t: EditTransform, tighter: EditTransform, src: Rect, chin: Point, hairline: Point)
    requires ProperRect(src) && ProperRect(sheet.out) && Proper(t)
    requires tighter.rotation == t.rotation && tighter.flipX == t.flipX && t.scale <= tighter.scale
    requires
      var m := RenderMatrix(t, src, sheet.out);
      HeadHeightCheck(rule, sheet, Apply(m, chin), Apply(m, hairline)).advice == Some(CropTighter)
    ensures
      var m := RenderMatrix(tighter, src, sheet.out);
      HeadHeightCheck(rule, sheet, Apply(m, chin), Apply(m, hairline)).status == Warn
  {
    hide RenderMatrix, Magnification, Apply, BoundsOf, Dot, Times;
    RenderedHeight(t, src, sheet.out, hairline, chin);
    RenderedHeight(tighter, src, sheet.out, hairline, chin);
    var u := Dot(-(Mirror(t.flipX) * t.rotation.sin), t.rotation.cos, chin.x - hairline.x, chin.y - hairline.y);
    TallerWhenTighter(t, tighter, src, sheet.out, u);
  }

  lemma TallerWhenTighter(t: EditTransform, tighter: EditTransform, src: Rect, out: Rect, u: real)
    requires ProperRect(src) && ProperRect(out) && Proper(t) && t.scale <= tighter.scale
    requires Times(Magnification(t, src, out), u) > 0.0
    ensures Times(Magnification(tighter, src, out), u) >= Times(Magnification(t, src, out), u)
  {
    hide CoverScale;
    MagnificationIsPositive(t, src, out);
    CoverScaleIsPositive(src, out);
    var cs := CoverScale(src, out);
    Grows(cs, t.scale, tighter.scale);
    SameSign(Magnification(t, src, out), u);
    Grows(u, Magnification(t, src, out), Magnification(tighter, src, out));
    assert Times(u, Magnification(t, src, out)) == Times(Magnification(t, src, out), u);
  }

  lemma Grows(f: real, x: real, y: real)
    requires f > 0.0 && x <= y
    ensures Times(f, x) <= Times(f, y) && Times(f, x) == Times(x, f) && Times(f, y) == Times(y, f)
  {
    assert f * (y - x) >= 0.0;
  }

  lemma SameSign(k: real, u: real)
    requires k > 0.0 && Times(k, u) > 0.0
    ensures u > 0.0
  {
  }
}
