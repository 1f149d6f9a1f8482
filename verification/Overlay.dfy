/** The bands the editor draws for a template's measurement rules. */
module Overlay {
  import opened Basics
  import opened Affines
  import opened Crop
  import opened Reals

  datatype Metric =
    | HeadHeight | HeadTopMargin | ChinBottomMargin | EyeLineFromBottom
    | FaceLeftMargin | FaceRightMargin | FaceCenterOffsetX | FaceWidth | InterpupilDistance | OtherMetric

  datatype Space = OutputPixels | PhysicalMillimetres | Normalized | OtherSpace

  datatype Rule = Rule(
    id: string, metric: Metric, space: Space, alongX: bool, min: Option<real>, max: Option<real>)

  /** The canvas, and the print density if the template declares one. */
  datatype Sheet = Sheet(out: Rect, printPpi: Option<real>)

  function ToOutputPixels(value: real, rule: Rule, sheet: Sheet): Option<real> {
    match rule.space
    case OutputPixels => Some(value)
    case PhysicalMillimetres => if sheet.printPpi == None then None else Some(value / 25.4 * sheet.printPpi.value)
    case Normalized => Some(if rule.alongX then value * sheet.out.width else value * sheet.out.height)
    case OtherSpace => None
  }

  datatype Bounds = Bounds(min: Option<real>, max: Option<real>)

  function BoundsOf(rule: Rule, sheet: Sheet): Bounds {
    Bounds(
      if rule.min == None then None else ToOutputPixels(rule.min.value, rule, sheet),
      if rule.max == None then None else ToOutputPixels(rule.max.value, rule, sheet))
  }

  datatype GuideKind = HorizontalBand | VerticalBand | SizeY | SizeX

  datatype Span = Span(from: real, to: real, kind: GuideKind)

  function Or(x: Option<real>, other: real): real {
    if x.Some? then x.value else other
  }

  /** An absent bound falls back to the canvas edge, for the centre line to the centre. */
  function SpanFor(metric: Metric, b: Bounds, out: Rect): Option<Span> {
    var w, h := out.width, out.height;
    match metric
    case HeadTopMargin => Some(Span(Or(b.min, 0.0), Or(b.max, h), HorizontalBand))
    case ChinBottomMargin => Some(Span(h - Or(b.max, h), h - Or(b.min, 0.0), HorizontalBand))
    case EyeLineFromBottom => Some(Span(h - Or(b.max, h), h - Or(b.min, 0.0), HorizontalBand))
    case FaceLeftMargin => Some(Span(Or(b.min, 0.0), Or(b.max, w), VerticalBand))
    case FaceRightMargin => Some(Span(w - Or(b.max, w), w - Or(b.min, 0.0), VerticalBand))
    case FaceCenterOffsetX => Some(Span(w / 2.0 + Or(b.min, 0.0), w / 2.0 + Or(b.max, 0.0), VerticalBand))
    case HeadHeight => Some(Span(Or(b.min, 0.0), Or(b.max, h), SizeY))
    case FaceWidth => Some(Span(Or(b.min, 0.0), Or(b.max, w), SizeX))
    case InterpupilDistance => Some(Span(Or(b.min, 0.0), Or(b.max, w), SizeX))
    case OtherMetric => None
  }

  datatype Guide = Guide(ruleId: string, metric: Metric, kind: GuideKind, from: real, to: real)

  /** The guide of one rule, its ends in order; none without a bound that converts. */
  function GuideFor(rule: Rule, sheet: Sheet): Option<Guide> {
    var b := BoundsOf(rule, sheet);
    if b == Bounds(None, None) then None
    else
      match SpanFor(rule.metric, b, sheet.out)
      case None => None
      case Some(span) =>
        Some(Guide(rule.id, rule.metric, span.kind,
                   if span.to < span.from then span.to else span.from, MaxReal(span.from, span.to)))
  }

  predicate InBand(at: Point, g: Guide) {
    if g.kind == VerticalBand then g.from <= at.x <= g.to else g.from <= at.y <= g.to
  }

  predicate TwoSided(b: Bounds) {
    b.min.Some? && b.max.Some? && b.min.value <= b.max.value
  }

  predicate IsDistance(metric: Metric) {
    metric.HeadTopMargin? || metric.ChinBottomMargin? || metric.EyeLineFromBottom?
    || metric.FaceLeftMargin? || metric.FaceRightMargin? || metric.FaceCenterOffsetX?
  }

  /** The distance a rule is about, for its anchor at a point of the canvas. */
  function Measured(metric: Metric, at: Point, out: Rect): real
    requires IsDistance(metric)
  {
    match metric
    case HeadTopMargin => at.y
    case ChinBottomMargin => out.height - at.y
    case EyeLineFromBottom => out.height - at.y
    case FaceLeftMargin => at.x
    case FaceRightMargin => out.width - at.x
    case FaceCenterOffsetX => at.x - out.width / 2.0
  }

  /** The band of a rule with both bounds holds exactly the points at which the rule is met. */
  lemma BandIsWhereTheRuleHolds(rule: Rule, sheet: Sheet, at: Point)
    requires IsDistance(rule.metric) && TwoSided(BoundsOf(rule, sheet))
    ensures GuideFor(rule, sheet).Some?
    ensures
      var b := BoundsOf(rule, sheet);
      InBand(at, GuideFor(rule, sheet).value) <==> b.min.value <= Measured(rule.metric, at, sheet.out) <= b.max.value
  {
    hide BoundsOf;
  }

  /** Looking a rule up by id: of rules sharing an id the last one counts. */
  function RuleById(rules: seq<Rule>, id: string): Option<Rule> {
    if rules == [] then None
    else if rules[|rules| - 1].id == id then Some(rules[|rules| - 1])
    else RuleById(rules[..|rules| - 1], id)
  }

  lemma {:induction false} RuleByIdFinds(rules: seq<Rule>, i: nat)
    requires i < |rules| && forall j :: i < j < |rules| ==> rules[j].id != rules[i].id
    ensures RuleById(rules, rules[i].id) == Some(rules[i])
    decreases |rules|
  {
    if i < |rules| - 1 {
      RuleByIdFinds(rules[..|rules| - 1], i);
    }
  }

  function GuideNamed(rules: seq<Rule>, id: string, sheet: Sheet): Option<Guide> {
    match RuleById(rules, id)
    case None => None
    case Some(rule) => GuideFor(rule, sheet)
  }

  function Guides(rules: seq<Rule>, ids: seq<string>, sheet: Sheet): seq<Guide> {
    if ids == [] then []
    else
      Guides(rules, ids[..|ids| - 1], sheet)
      + match GuideNamed(rules, ids[|ids| - 1], sheet) case None => [] case Some(g) => [g]
  }

  method BuildOverlayGuides(rules: seq<Rule>, overlay: Option<seq<string>>, sheet: Sheet) returns (guides: seq<Guide>)
    ensures guides == if overlay == None then [] else Guides(rules, overlay.value, sheet)
  {
    guides := [];
    if overlay == None {
      return;
    }
    var ids := overlay.value;
    for i := 0 to |ids|
      invariant guides == Guides(rules, ids[..i], sheet)
    {
      assert ids[..i + 1][..i] == ids[..i];
      var rule := RuleById(rules, ids[i]);
      if rule == None {
        continue;
      }
      var b := BoundsOf(rule.value, sheet);
      if b.min == None && b.max == None {
        continue;
      }
      var span := SpanFor(rule.value.metric, b, sheet.out);
      if span == None {
        continue;
      }
      var from := if span.value.to < span.value.from then span.value.to else span.value.from;
      var to := MaxReal(span.value.from, span.value.to);
      guides := guides + [Guide(rule.value.id, rule.value.metric, span.value.kind, from, to)];
    }
    assert ids[..|ids|] == ids;
  }

  /** Exactly the guides of the named rules are drawn. */
  lemma {:induction false} GuidesAreOfNamedRules(rules: seq<Rule>, ids: seq<string>, sheet: Sheet, g: Guide)
    ensures g in Guides(rules, ids, sheet) <==> exists id <- ids :: GuideNamed(rules, id, sheet) == Some(g)
  {
    if ids != [] {
      var front, last := ids[..|ids| - 1], ids[|ids| - 1];
      assert ids == front + [last];
      GuidesAreOfNamedRules(rules, front, sheet, g);
    }
  }

  // ----- one-sided bands, sizes and units -----

  /** The canvas shows the point. */
  predicate OnCanvas(at: Point, out: Rect) {
    0.0 <= at.x <= out.width && 0.0 <= at.y <= out.height
  }

  /**
   A margin band with one bound reaches to the edge of the canvas: of the points on the canvas
   it holds exactly those at which that bound is met.
   */
  lemma OneSidedBandReachesTheEdge(rule: Rule, sheet: Sheet, at: Point)
    requires IsDistance(rule.metric) && rule.metric != FaceCenterOffsetX && OnCanvas(at, sheet.out)
    ensures
      var b, x := BoundsOf(rule, sheet), Measured(rule.metric, at, sheet.out);
      && (b.min.Some? && b.max == None && OnCanvas(PointAt(rule.metric, b.min.value, sheet.out), sheet.out) ==>
            GuideFor(rule, sheet).Some? && (InBand(at, GuideFor(rule, sheet).value) <==> b.min.value <= x))
      && (b.max.Some? && b.min == None && OnCanvas(PointAt(rule.metric, b.max.value, sheet.out), sheet.out) ==>
            GuideFor(rule, sheet).Some? && (InBand(at, GuideFor(rule, sheet).value) <==> x <= b.max.value))
  {
    hide BoundsOf;
  }

  /** A point at the distance `x`. */
  function PointAt(metric: Metric, x: real, out: Rect): Point
    requires IsDistance(metric)
  {
    match metric
    case HeadTopMargin => Point(0.0, x)
    case ChinBottomMargin => Point(0.0, out.height - x)
    case EyeLineFromBottom => Point(0.0, out.height - x)
    case FaceLeftMargin => Point(x, 0.0)
    case FaceRightMargin => Point(out.width - x, 0.0)
    case FaceCenterOffsetX => Point(out.width / 2.0 + x, 0.0)
  }

  /** A rule has a guide exactly when it has a metric the editor draws and a bound that converts. */
  lemma GuideExactly(rule: Rule, sheet: Sheet)
    ensures GuideFor(rule, sheet).Some? <==>
            rule.metric != OtherMetric && (BoundsOf(rule, sheet).min.Some? || BoundsOf(rule, sheet).max.Some?)
    ensures GuideFor(rule, sheet).Some? ==>
      var g, b := GuideFor(rule, sheet).value, BoundsOf(rule, sheet);
      && g.ruleId == rule.id && g.metric == rule.metric && g.from <= g.to
      && (g.kind == SizeY <==> rule.metric == HeadHeight)
      && (IsSize(rule.metric) && TwoSided(b) ==> g.from == b.min.value && g.to == b.max.value)
  {
    hide BoundsOf;
  }

  predicate IsSize(metric: Metric) {
    metric.HeadHeight? || metric.FaceWidth? || metric.InterpupilDistance?
  }

  /**
   A guide with one bound: a size reaches down to nothing or up to the side of the canvas, and
   the centre line band reaches to the centre line.
   */
  lemma OneSidedGuides(rule: Rule, sheet: Sheet)
    requires IsSize(rule.metric) || rule.metric == FaceCenterOffsetX
    ensures
      var b := BoundsOf(rule, sheet);
      var far :=
        if rule.metric == HeadHeight then sheet.out.height
        else if rule.metric == FaceCenterOffsetX then 0.0
        else sheet.out.width;
      var line := if rule.metric == FaceCenterOffsetX then sheet.out.width / 2.0 else 0.0;
      && (b.min.Some? && b.max == None ==>
            GuideFor(rule, sheet).Some? && Spans(GuideFor(rule, sheet).value, line + b.min.value, line + far))
      && (b.max.Some? && b.min == None ==>
            GuideFor(rule, sheet).Some? && Spans(GuideFor(rule, sheet).value, line, line + b.max.value))
  {
    hide BoundsOf;
  }

  /** The guide lies between the two values. */
  predicate Spans(g: Guide, x: real, y: real) {
    (g.from == x && g.to == y) || (g.from == y && g.to == x)
  }

  /** Both bounds convert by the same rule, and only bounds that are given. */
  lemma BoundsConvertAlike(rule: Rule, sheet: Sheet)
    ensures
      var b := BoundsOf(rule, sheet);
      && (rule.min == None ==> b.min == None) && (rule.max == None ==> b.max == None)
      && (rule.min.Some? ==> b.min == ToOutputPixels(rule.min.value, rule, sheet))
      && (rule.min == rule.max ==> b.min == b.max)
      && (rule.min.Some? && rule.max.Some? ==>
            ToOutputPixels(rule.max.value, rule, sheet) == BoundsOf(rule.(min := rule.max), sheet).min == b.max)
  {
  }

  /** Inches convert by the print density, shares of the canvas by its side, pixels as they are, and nothing else. */
  lemma UnitsAgree(rule: Rule, sheet: Sheet, x: real)
    ensures rule.space == PhysicalMillimetres ==>
      var pixels := ToOutputPixels(x * 25.4, rule, sheet);
      pixels.Some? == sheet.printPpi.Some? && (pixels.Some? ==> pixels.value == Times(x, sheet.printPpi.value))
    ensures rule.space == Normalized ==>
      var pixels := ToOutputPixels(x, rule, sheet);
      pixels.Some? && pixels.value == Times(x, if rule.alongX then sheet.out.width else sheet.out.height)
    ensures rule.space == OutputPixels ==> ToOutputPixels(x, rule, sheet) == Some(x)
    ensures rule.space == OtherSpace ==> ToOutputPixels(x, rule, sheet) == None
  {
    if rule.space == PhysicalMillimetres && sheet.printPpi.Some? {
      ByInches(x, x * 25.4, sheet.printPpi.value);
    }
  }

  lemma ByInches(inches: real, millimetres: real, ppi: real)
    requires millimetres == inches * 25.4
    ensures millimetres / 25.4 * ppi == Times(inches, ppi)
  {
    assert millimetres / 25.4 == inches;
  }

  // ----- headEllipse -----

  datatype Ellipse = Ellipse(cx: real, cy: real, rx: real, ry: real)

  function FirstOf(guides: seq<Guide>, metric: Metric): Option<Guide> {
    if guides == [] then None
    else if guides[0].metric == metric then Some(guides[0])
    else FirstOf(guides[1..], metric)
  }

  function HeadEllipse(guides: seq<Guide>, out: Rect): Option<Ellipse> {
    var top, bottom := FirstOf(guides, HeadTopMargin), FirstOf(guides, ChinBottomMargin);
    if top == None || bottom == None then None
    else
      var crownY, chinY := (top.value.from + top.value.to) / 2.0, (bottom.value.from + bottom.value.to) / 2.0;
      if chinY <= crownY then None
      else
        var ry := (chinY - crownY) / 2.0;
        Some(Ellipse(out.width / 2.0, crownY + ry, ry * 0.72, ry))
  }

  /** The first guide of the metric is the one looked at, and none is only if there is none. */
  lemma {:induction false} FirstOfIsFirst(guides: seq<Guide>, metric: Metric)
    ensures
      match FirstOf(guides, metric)
      case None => forall g <- guides :: g.metric != metric
      case Some(g) =>
        exists k :: 0 <= k < |guides| && guides[k] == g && g.metric == metric
                    && forall j :: 0 <= j < k ==> guides[j].metric != metric
  {
    if guides != [] && guides[0].metric != metric {
      FirstOfIsFirst(guides[1..], metric);
      if FirstOf(guides[1..], metric).Some? {
        var g := FirstOf(guides[1..], metric).value;
        var k :| 0 <= k < |guides[1..]| && guides[1..][k] == g && g.metric == metric
                 && forall j :: 0 <= j < k ==> guides[1..][j].metric != metric;
        assert guides[k + 1] == g;
        assert forall j :: 0 <= j < k + 1 ==> j == 0 || guides[j] == guides[1..][j - 1];
      } else {
        assert forall g <- guides :: g == guides[0] || g in guides[1..];
      }
    }
  }

  /** The middle of a guide. */
  function MiddleOf(g: Guide): real {
    (g.from + g.to) / 2.0
  }

  /**
   There is an ellipse exactly when crown and chin have bands, the chin's middle below the
   crown's; it stands on both middles, upright, centred, and 0.72 times as wide as high.
   */
  lemma EllipseSpansTheBands(guides: seq<Guide>, out: Rect)
    ensures
      var top, bottom := FirstOf(guides, HeadTopMargin), FirstOf(guides, ChinBottomMargin);
      && (HeadEllipse(guides, out).Some? <==>
          top.Some? && bottom.Some? && MiddleOf(top.value) < MiddleOf(bottom.value))
      && (HeadEllipse(guides, out).Some? ==>
            var e := HeadEllipse(guides, out).value;
            && e.cx == out.width / 2.0 && 0.0 < e.rx < e.ry && e.rx == 0.72 * e.ry
            && e.cy - e.ry == MiddleOf(top.value) && e.cy + e.ry == MiddleOf(bottom.value))
  {
  }
}
