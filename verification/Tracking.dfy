/** The pose tracker: primary face, smoothing, hysteresis, stability timing and hints. */
module Tracking {
  import opened Basics
  import opened Reals
  import opened Affines

  datatype Angles = Angles(yaw: real, pitch: real, roll: real)

  /**
   One face of one frame: the landmarks used, and the angles decomposed from its matrix if
   that can be done.
   */
  datatype Face = Face(
    leftEye: Option<Point>, rightEye: Option<Point>, chin: Option<Point>, top: Option<Point>, angles: Option<Angles>)

  datatype Frame = Frame(faces: seq<Face>, now: real)

  datatype Thresholds = Thresholds(
    yaw: real, pitch: real, roll: real, stableMs: real, widthMin: real, widthMax: real, offsetMax: real)

  datatype Status = NoFace | MultiFace | OutOfPosition | Unstable | Ready

  datatype Hint =
    | MoveCloser | MoveFarther | MoveOwnLeft | MoveOwnRight | MoveUp | MoveDown | AdjustPosition
    | TurnOwnLeft | TurnOwnRight | RaiseHead | LowerHead | LevelOwnLeft | LevelOwnRight | HoldStill

  datatype PoseState = PoseState(
    status: Status, angles: Angles, width: real, offset: Point, stableMs: real, shootable: bool, hints: seq<Hint>)

  const EXIT_FACTOR := 1.3

  /** The settings of a tracker; `dist` is the length of a plane vector. */
  datatype Settings = Settings(limits: Thresholds, alpha: real, dist: (real, real) -> real)

  ghost predicate Measures(dist: (real, real) -> real) {
    forall x, y :: dist(x, y) >= 0.0
  }

  datatype Metrics = Metrics(width: real, center: Point)

  function FaceMetrics(face: Face): (m: Option<Metrics>)
    ensures m.Some? ==> m.value.width >= 0.0
  {
    if face.leftEye == None || face.rightEye == None || face.chin == None then None
    else
      var left, right, chin := face.leftEye.value, face.rightEye.value, face.chin.value;
      Some(Metrics(
             Abs(left.x - right.x),
             Point(
               (left.x + right.x) / 2.0,
               if face.top.Some? then (face.top.value.y + chin.y) / 2.0 else (left.y + right.y) / 2.0)))
  }

  // ----- selectPrimaryFace -----

  /** Face width times centredness, discounted by the drift from the previous position. */
  function Score(m: Metrics, previous: Option<Point>, dist: (real, real) -> real): real
    requires Measures(dist)
  {
    var offCenter := dist(m.center.x - 0.5, m.center.y - 0.5);
    var centering := 1.0 - if offCenter * 2.0 < 1.0 then offCenter * 2.0 else 1.0;
    var score := m.width * (0.5 + 0.5 * centering);
    if previous == None then score
    else score / (1.0 + dist(m.center.x - previous.value.x, m.center.y - previous.value.y) * 4.0)
  }

  datatype Lead = Lead(index: nat, score: real)

  function Leader(faces: seq<Face>, previous: Option<Point>, dist: (real, real) -> real): (lead: Option<Lead>)
    requires Measures(dist)
    ensures lead.Some? ==> lead.value.index < |faces|
  {
    if faces == [] then None
    else
      var before := Leader(faces[..|faces| - 1], previous, dist);
      var metrics := FaceMetrics(faces[|faces| - 1]);
      if metrics == None then before
      else
        var score := Score(metrics.value, previous, dist);
        if before == None || score > before.value.score then Some(Lead(|faces| - 1, score)) else before
  }

  function Primary(faces: seq<Face>, previous: Option<Point>, dist: (real, real) -> real): Option<Face>
    requires Measures(dist)
  {
    if faces == [] then None
    else if |faces| == 1 then Some(faces[0])
    else
      var lead := Leader(faces, previous, dist);
      Some(if lead == None then faces[0] else faces[lead.value.index])
  }

  /** Face `i` can be measured and scores higher than every earlier such face, and no later one scores higher. */
  ghost predicate Leads(faces: seq<Face>, previous: Option<Point>, dist: (real, real) -> real, lead: Lead)
    requires Measures(dist)
  {
    && lead.index < |faces| && FaceMetrics(faces[lead.index]).Some?
    && lead.score == Score(FaceMetrics(faces[lead.index]).value, previous, dist)
    && forall j :: 0 <= j < |faces| && FaceMetrics(faces[j]).Some? ==>
         var other := Score(FaceMetrics(faces[j]).value, previous, dist);
         other <= lead.score && (j < lead.index ==> other < lead.score)
  }

  /** The primary face is the first of the highest-scoring ones; if no face can be measured, it is the first of all. */
  lemma {:induction false} LeaderLeads(faces: seq<Face>, previous: Option<Point>, dist: (real, real) -> real)
    requires Measures(dist)
    ensures
      match Leader(faces, previous, dist)
      case None => forall f <- faces :: FaceMetrics(f) == None
      case Some(lead) => Leads(faces, previous, dist, lead)
    decreases |faces|
  {
    hide FaceMetrics, Score;
    if faces != [] {
      var n := |faces| - 1;
      LeaderLeads(faces[..n], previous, dist);
      assert forall j :: 0 <= j < |faces| ==> j == n || faces[j] == faces[..n][j];
    }
  }

  /**
   Some face is primary whenever there is one: a leading one if any can be measured, else the
   first.
   */
  lemma PrimaryExactly(faces: seq<Face>, previous: Option<Point>, dist: (real, real) -> real)
    requires Measures(dist)
    ensures
      var primary := Primary(faces, previous, dist);
      && (primary == None <==> faces == [])
      && ((exists f <- faces :: FaceMetrics(f).Some?) ==>
            primary.Some? && exists lead :: Leads(faces, previous, dist, lead) && primary.value == faces[lead.index])
      && (faces != [] && (forall f <- faces :: FaceMetrics(f) == None) ==> primary == Some(faces[0]))
  {
    hide FaceMetrics, Score;
    LeaderLeads(faces, previous, dist);
    if |faces| == 1 {
      assert faces[..0] == [];
      if f :| f in faces && FaceMetrics(f).Some? {
        assert Leads(faces, previous, dist, Lead(0, Score(FaceMetrics(faces[0]).value, previous, dist)));
      }
    }
  }

  method SelectPrimaryFace(faces: seq<Face>, previous: Option<Point>, dist: (real, real) -> real)
    returns (best: Option<Face>)
    requires Measures(dist)
    ensures best == Primary(faces, previous, dist)
  {
    hide FaceMetrics, Score;
    if |faces| == 0 {
      return None;
    }
    if |faces| == 1 {
      return Some(faces[0]);
    }
    best := Some(faces[0]);
    var bestScore: Option<real> := None;
    for i := 0 to |faces|
      invariant
        match Leader(faces[..i], previous, dist)
        case None => bestScore == None && best == Some(faces[0])
        case Some(lead) => bestScore == Some(lead.score) && best == Some(faces[lead.index])
    {
      assert faces[..i + 1][..i] == faces[..i];
      var metrics := FaceMetrics(faces[i]);
      if metrics == None {
        continue;
      }
      var score := Score(metrics.value, previous, dist);
      if bestScore == None || score > bestScore.value {
        bestScore := Some(score);
        best := Some(faces[i]);
      }
    }
    assert faces[..|faces|] == faces;
  }

  // ----- one update, on values -----

  /** The fields of a tracker. */
  datatype Memory = Memory(
    smoothed: Option<Angles>, lastStatus: Status, lastComputed: Status, stableSince: Option<real>,
    lastAngles: Angles, lastWidth: real, lastOffset: Point, lastCenter: Option<Point>)

  const ORIGIN := Point(0.0, 0.0)
  const FRESH := Memory(None, NoFace, NoFace, None, Angles(0.0, 0.0, 0.0), 0.0, ORIGIN, None)

  predicate InPosition(width: real, offset: Point, limits: Thresholds, factor: real)
    requires factor > 0.0
  {
    && limits.widthMin / factor <= width <= limits.widthMax * factor
    && Abs(offset.x) <= limits.offsetMax * factor && Abs(offset.y) <= limits.offsetMax * factor
  }

  predicate WithinAngles(a: Angles, limits: Thresholds, factor: real) {
    && Abs(a.yaw) <= limits.yaw * factor && Abs(a.pitch) <= limits.pitch * factor
    && Abs(a.roll) <= limits.roll * factor
  }

  function Blend(previous: real, observed: real, alpha: real): real {
    previous * (1.0 - alpha) + observed * alpha
  }

  function Smoothed(before: Option<Angles>, a: Angles, alpha: real): Angles {
    if before == None then a
    else Angles(Blend(before.value.yaw, a.yaw, alpha), Blend(before.value.pitch, a.pitch, alpha),
                Blend(before.value.roll, a.roll, alpha))
  }

  /** What one frame measures, after smoothing. */
  datatype Reading = Reading(angles: Angles, width: real, offset: Point, center: Option<Point>)

  function ReadingOf(m: Memory, frame: Frame, cfg: Settings): (r: Option<Reading>)
    requires Measures(cfg.dist)
    ensures r.Some? ==> frame.faces != [] && r.value.width >= 0.0
  {
    var primary := Primary(frame.faces, m.lastCenter, cfg.dist);
    if primary == None || primary.value.angles == None then None
    else
      var metrics := FaceMetrics(primary.value);
      var angles := Smoothed(m.smoothed, primary.value.angles.value, cfg.alpha);
      if metrics == None then Some(Reading(angles, 0.0, ORIGIN, None))
      else
        var center := metrics.value.center;
        Some(Reading(angles, metrics.value.width, Point(center.x - 0.5, center.y - 0.5), Some(center)))
  }

  function Factor(settled: bool): (f: real)
    ensures f > 0.0
  {
    if settled then EXIT_FACTOR else 1.0
  }

  predicate Meets(r: Reading, limits: Thresholds, factor: real)
    requires factor > 0.0
  {
    InPosition(r.width, r.offset, limits, factor) && WithinAngles(r.angles, limits, factor)
  }

  function Computed(r: Reading, limits: Thresholds, factor: real): Status
    requires factor > 0.0
  {
    if !InPosition(r.width, r.offset, limits, factor) then OutOfPosition
    else if !WithinAngles(r.angles, limits, factor) then Unstable
    else Ready
  }

  function Updated(m: Memory, frame: Frame, cfg: Settings): Memory
    requires Measures(cfg.dist)
  {
    if frame.faces == [] then
      m.(lastStatus := NoFace, lastComputed := NoFace, stableSince := None, smoothed := None, lastCenter := None)
    else
      match ReadingOf(m, frame, cfg)
      case None => m
      case Some(r) =>
        var computed := Computed(r, cfg.limits, Factor(m.lastComputed == Ready));
        Memory(
          Some(r.angles), if |frame.faces| > 1 then MultiFace else computed, computed,
          if computed != Ready then None else if m.stableSince.Some? then m.stableSince else Some(frame.now),
          r.angles, r.width, r.offset, r.center)
  }

  // ----- hints -----

  function PositionHints(m: Memory, limits: Thresholds): seq<Hint> {
    (if m.lastWidth < limits.widthMin then [MoveCloser]
     else if m.lastWidth > limits.widthMax then [MoveFarther] else [])
    + (if Abs(m.lastOffset.x) > limits.offsetMax
       then [if m.lastOffset.x > 0.0 then MoveOwnRight else MoveOwnLeft] else [])
    + (if Abs(m.lastOffset.y) > limits.offsetMax
       then [if m.lastOffset.y > 0.0 then MoveUp else MoveDown] else [])
  }

  function AngleHints(m: Memory, limits: Thresholds): seq<Hint> {
    (if Abs(m.lastAngles.yaw) > limits.yaw
     then [if m.lastAngles.yaw > 0.0 then TurnOwnRight else TurnOwnLeft] else [])
    + (if Abs(m.lastAngles.pitch) > limits.pitch
       then [if m.lastAngles.pitch > 0.0 then RaiseHead else LowerHead] else [])
    + (if Abs(m.lastAngles.roll) > limits.roll
       then [if m.lastAngles.roll > 0.0 then LevelOwnRight else LevelOwnLeft] else [])
  }

  function Guidance(m: Memory, status: Status, limits: Thresholds): seq<Hint> {
    match status
    case OutOfPosition =>
      var hints := PositionHints(m, limits);
      if hints == [] then [AdjustPosition] else hints
    case Unstable =>
      var hints := AngleHints(m, limits);
      if hints == [] then [HoldStill] else hints
    case _ => []
  }

  function StateOf(m: Memory, status: Status, now: real, limits: Thresholds): PoseState {
    var held := if m.stableSince == None then 0.0 else now - m.stableSince.value;
    var stableMs := if held < 0.0 then 0.0 else held;
    PoseState(
      status, m.lastAngles, m.lastWidth, m.lastOffset, stableMs,
      status == Ready && stableMs >= limits.stableMs, Guidance(m, status, limits))
  }

  // ----- the tracker -----

  class PoseTracker {
    const settings: Settings
    var smoothed: Option<Angles>
    var lastStatus: Status
    var lastComputed: Status
    var stableSince: Option<real>
    var lastAngles: Angles
    var lastWidth: real
    var lastOffset: Point
    var lastCenter: Option<Point>

    constructor (settings: Settings)
      ensures this.settings == settings && Contents() == FRESH
    {
      this.settings := settings;
      smoothed, lastStatus, lastComputed, stableSince := None, NoFace, NoFace, None;
      lastAngles, lastWidth, lastOffset, lastCenter := Angles(0.0, 0.0, 0.0), 0.0, ORIGIN, None;
    }

    function Contents(): Memory
      reads this
    {
      Memory(smoothed, lastStatus, lastComputed, stableSince, lastAngles, lastWidth, lastOffset, lastCenter)
    }

    method Update(faces: seq<Face>, now: real) returns (state: PoseState)
      requires Measures(settings.dist)
      modifies this
      ensures Contents() == Updated(old(Contents()), Frame(faces, now), settings)
      ensures state == StateOf(Contents(), lastStatus, now, settings.limits)
    {
      var primary := SelectPrimaryFace(faces, lastCenter, settings.dist);
      if primary == None {
        lastStatus, lastComputed := NoFace, NoFace;
        stableSince, smoothed, lastCenter := None, None, None;
        return StateOf(Contents(), NoFace, now, settings.limits);
      }
      var angles := primary.value.angles;
      if angles == None {
        return StateOf(Contents(), lastStatus, now, settings.limits);
      }
      smoothed := Some(Smoothed(smoothed, angles.value, settings.alpha));
      lastAngles := smoothed.value;
      var metrics := FaceMetrics(primary.value);
      if metrics == None {
        lastWidth, lastCenter, lastOffset := 0.0, None, ORIGIN;
      } else {
        lastWidth, lastCenter := metrics.value.width, Some(metrics.value.center);
        lastOffset := Point(metrics.value.center.x - 0.5, metrics.value.center.y - 0.5);
      }
      var factor := Factor(lastComputed == Ready);
      var computed;
      if !InPosition(lastWidth, lastOffset, settings.limits, factor) {
        computed := OutOfPosition;
        stableSince := None;
      } else if !WithinAngles(lastAngles, settings.limits, factor) {
        computed := Unstable;
        stableSince := None;
      } else {
        computed := Ready;
        if stableSince == None {
          stableSince := Some(now);
        }
      }
      lastComputed := computed;
      lastStatus := if |faces| > 1 then MultiFace else computed;
      return StateOf(Contents(), lastStatus, now, settings.limits);
    }
  }

  // ----- runs -----

  function After(frames: seq<Frame>, cfg: Settings): Memory
    requires Measures(cfg.dist)
  {
    if frames == [] then FRESH else Updated(After(frames[..|frames| - 1], cfg), frames[|frames| - 1], cfg)
  }

  /** What frame `i` of the run measured, if it was usable. */
  function ReadingAt(frames: seq<Frame>, i: nat, cfg: Settings): Option<Reading>
    requires Measures(cfg.dist) && i < |frames|
  {
    ReadingOf(After(frames[..i], cfg), frames[i], cfg)
  }

  /** The state the tracker returns for the last frame. */
  function Shown(frames: seq<Frame>, cfg: Settings): PoseState
    requires Measures(cfg.dist) && frames != []
  {
    var m := After(frames, cfg);
    StateOf(m, m.lastStatus, frames[|frames| - 1].now, cfg.limits)
  }

  /**
   At frame `e` the pose met the base thresholds, and since then every frame showed a face
   and every usable one stayed within the widened thresholds.
   */
  ghost predicate SettledSince(frames: seq<Frame>, e: nat, cfg: Settings)
    requires Measures(cfg.dist)
  {
    && e < |frames|
    && ReadingAt(frames, e, cfg).Some? && Meets(ReadingAt(frames, e, cfg).value, cfg.limits, 1.0)
    && forall j :: e < j < |frames| ==> KeepsSettled(frames, j, cfg)
  }

  ghost predicate KeepsSettled(frames: seq<Frame>, j: nat, cfg: Settings)
    requires Measures(cfg.dist) && j < |frames|
  {
    && frames[j].faces != []
    && (ReadingAt(frames, j, cfg).Some? ==> Meets(ReadingAt(frames, j, cfg).value, cfg.limits, EXIT_FACTOR))
  }

  /** Whether the last usable frame showed more than one face. */
  function Crowded(frames: seq<Frame>, cfg: Settings): bool
    requires Measures(cfg.dist)
  {
    if frames == [] || frames[|frames| - 1].faces == [] then false
    else if ReadingAt(frames, |frames| - 1, cfg) == None then Crowded(frames[..|frames| - 1], cfg)
    else |frames[|frames| - 1].faces| > 1
  }

  lemma ReadingOfFront(frames: seq<Frame>, j: nat, cfg: Settings)
    requires Measures(cfg.dist) && j < |frames| - 1
    ensures ReadingAt(frames[..|frames| - 1], j, cfg) == ReadingAt(frames, j, cfg)
  {
    assert frames[..|frames| - 1][..j] == frames[..j];
  }

  lemma SettledExtends(frames: seq<Frame>, e: nat, cfg: Settings)
    requires Measures(cfg.dist) && frames != [] && e < |frames| - 1
    ensures SettledSince(frames, e, cfg) <==>
            SettledSince(frames[..|frames| - 1], e, cfg) && KeepsSettled(frames, |frames| - 1, cfg)
  {
    hide ReadingAt;
    var front := frames[..|frames| - 1];
    forall j | 0 <= j < |frames| - 1
      ensures ReadingAt(front, j, cfg) == ReadingAt(frames, j, cfg)
    {
      ReadingOfFront(frames, j, cfg);
    }
    if SettledSince(frames, e, cfg) {
      forall j | e < j < |frames| - 1 ensures KeepsSettled(front, j, cfg) {
        assert KeepsSettled(frames, j, cfg);
      }
    }
    if SettledSince(front, e, cfg) && KeepsSettled(frames, |frames| - 1, cfg) {
      forall j | e < j < |frames| ensures KeepsSettled(frames, j, cfg) {
        if j < |frames| - 1 { assert KeepsSettled(front, j, cfg); }
      }
    }
  }

  /** A pose within the base thresholds is within the widened ones, whatever the thresholds. */
  lemma BaseIsWithinWidened(r: Reading, limits: Thresholds)
    requires r.width >= 0.0 && Meets(r, limits, 1.0)
    ensures Meets(r, limits, EXIT_FACTOR)
  {
    if limits.widthMin >= 0.0 {
      assert limits.widthMin / EXIT_FACTOR <= limits.widthMin;
    }
  }

  lemma ComputedIsReady(r: Reading, limits: Thresholds, factor: real)
    requires factor > 0.0
    ensures Computed(r, limits, factor) == Ready <==> Meets(r, limits, factor)
  {
  }

  /** Whenever the pose counts as ready, some frame met the base thresholds at the time stability is measured from. */
  lemma {:induction false} ReadyHasEntry(frames: seq<Frame>, cfg: Settings)
    requires Measures(cfg.dist)
    ensures
      var m := After(frames, cfg);
      && (m.lastComputed == Ready <==> m.stableSince.Some?)
      && (m.lastComputed == Ready ==> exists e ::
            0 <= e < |frames| && SettledSince(frames, e, cfg) && Some(frames[e].now) == m.stableSince)
    decreases |frames|
  {
    hide ReadingOf, Computed, Meets, SettledSince;
    if frames != [] {
      var n := |frames| - 1;
      var front := frames[..n];
      ReadyHasEntry(front, cfg);
      var before := After(front, cfg);
      var reading := ReadingOf(before, frames[n], cfg);
      var factor := Factor(before.lastComputed == Ready);
      if frames[n].faces != [] && (reading == None || Computed(reading.value, cfg.limits, factor) == Ready) {
        if reading.Some? {
          ComputedIsReady(reading.value, cfg.limits, Factor(before.lastComputed == Ready));
        }
        if before.lastComputed == Ready {
          var e :| 0 <= e < |front| && SettledSince(front, e, cfg) && Some(front[e].now) == before.stableSince;
          SettledExtends(frames, e, cfg);
          assert SettledSince(frames, e, cfg);
        } else if reading.Some? {
          EntersAtLast(frames, cfg);
        }
      }
    }
  }

  lemma InFront(frames: seq<Frame>, e: nat, cfg: Settings)
    requires Measures(cfg.dist) && SettledSince(frames, e, cfg)
    ensures e < |frames|
  {
  }

  lemma EntersAtLast(frames: seq<Frame>, cfg: Settings)
    requires Measures(cfg.dist) && frames != [] && ReadingAt(frames, |frames| - 1, cfg).Some?
    requires Meets(ReadingAt(frames, |frames| - 1, cfg).value, cfg.limits, 1.0)
    ensures SettledSince(frames, |frames| - 1, cfg)
  {
  }

  predicate InTime(frames: seq<Frame>) {
    forall i, j :: 0 <= i < j < |frames| ==> frames[i].now <= frames[j].now
  }

  /** Conversely, a pose settled since some frame counts as ready, and as stable since that frame at the latest. */
  lemma {:induction false} SettledIsReady(frames: seq<Frame>, e: nat, cfg: Settings)
    requires Measures(cfg.dist) && SettledSince(frames, e, cfg) && InTime(frames)
    ensures
      var m := After(frames, cfg);
      m.lastComputed == Ready && m.stableSince.Some? && m.stableSince.value <= frames[e].now
    decreases |frames|
  {
    hide ReadingOf, Computed, Meets, SettledSince;
    InFront(frames, e, cfg);
    var n := |frames| - 1;
    var front := frames[..n];
    var before := After(front, cfg);
    ReadyHasEntry(front, cfg);
    LastKeeps(frames, e, cfg);
    if e < n {
      SettledExtends(frames, e, cfg);
      SettledIsReady(front, e, cfg);
    } else if before.lastComputed == Ready {
      var e' :| 0 <= e' < |front| && SettledSince(front, e', cfg) && Some(front[e'].now) == before.stableSince;
    }
    var reading := ReadingOf(before, frames[n], cfg);
    if reading.Some? {
      ComputedIsReady(reading.value, cfg.limits, Factor(before.lastComputed == Ready));
    }
  }

  /** The last frame of a settled run shows a face and meets the thresholds that apply to it. */
  lemma LastKeeps(frames: seq<Frame>, e: nat, cfg: Settings)
    requires Measures(cfg.dist) && SettledSince(frames, e, cfg)
    ensures frames != [] && frames[|frames| - 1].faces != []
    ensures
      var reading := ReadingAt(frames, |frames| - 1, cfg);
      if e == |frames| - 1
      then reading.Some? && Meets(reading.value, cfg.limits, 1.0) && Meets(reading.value, cfg.limits, EXIT_FACTOR)
      else reading.Some? ==> Meets(reading.value, cfg.limits, EXIT_FACTOR)
  {
    hide ReadingOf, Meets;
    if e == |frames| - 1 {
      UsableShowsFace(After(frames[..e], cfg), frames[e], cfg);
      BaseIsWithinWidened(ReadingAt(frames, e, cfg).value, cfg.limits);
    } else {
      assert KeepsSettled(frames, |frames| - 1, cfg);
    }
  }

  lemma UsableShowsFace(m: Memory, frame: Frame, cfg: Settings)
    requires Measures(cfg.dist) && ReadingOf(m, frame, cfg).Some?
    ensures frame.faces != [] && ReadingOf(m, frame, cfg).value.width >= 0.0
  {
  }

  /** A ready pose is shown as such unless the last usable frame was crowded. */
  lemma {:induction false} CrowdHidesReady(frames: seq<Frame>, cfg: Settings)
    requires Measures(cfg.dist)
    ensures
      var m := After(frames, cfg);
      && (m.lastStatus == Ready <==> m.lastComputed == Ready && !Crowded(frames, cfg))
    decreases |frames|
  {
    hide ReadingOf, Computed;
    if frames != [] {
      CrowdHidesReady(frames[..|frames| - 1], cfg);
    }
  }

  predicate LongEnough(from: real, to: real, stableMs: real) {
    to - from >= stableMs || stableMs <= 0.0
  }

  /**
   The tracker says shootable only if some frame, at least the stability time ago, met the
   base thresholds, no frame since was without a face, every usable one since met the
   widened thresholds, and the last usable one showed a single face.
   */
  lemma ShootableHasEntry(frames: seq<Frame>, cfg: Settings)
    requires Measures(cfg.dist) && frames != [] && Shown(frames, cfg).shootable
    ensures !Crowded(frames, cfg)
    ensures exists e :: 0 <= e < |frames| && SettledSince(frames, e, cfg)
                        && LongEnough(frames[e].now, frames[|frames| - 1].now, cfg.limits.stableMs)
  {
    hide SettledSince, After;
    ReadyHasEntry(frames, cfg);
    CrowdHidesReady(frames, cfg);
    var e :| 0 <= e < |frames| && SettledSince(frames, e, cfg) && Some(frames[e].now) == After(frames, cfg).stableSince;
    assert LongEnough(frames[e].now, frames[|frames| - 1].now, cfg.limits.stableMs);
  }

  /** With a clock that does not run backwards, it says so exactly then. */
  lemma ShootableExactly(frames: seq<Frame>, cfg: Settings)
    requires Measures(cfg.dist) && frames != [] && InTime(frames)
    ensures Shown(frames, cfg).shootable <==>
            !Crowded(frames, cfg)
            && exists e :: 0 <= e < |frames| && SettledSince(frames, e, cfg)
                           && LongEnough(frames[e].now, frames[|frames| - 1].now, cfg.limits.stableMs)
  {
    hide SettledSince, After, Crowded;
    if Shown(frames, cfg).shootable {
      ShootableHasEntry(frames, cfg);
    }
    if e :| !Crowded(frames, cfg) && 0 <= e < |frames| && SettledSince(frames, e, cfg)
            && LongEnough(frames[e].now, frames[|frames| - 1].now, cfg.limits.stableMs)
    {
      SettledIsReady(frames, e, cfg);
      CrowdHidesReady(frames, cfg);
    }
  }

  // ----- hints -----

  /** A hinting status was judged on the values the hints look at. */
  predicate Justified(m: Memory, limits: Thresholds) {
    && m.lastWidth >= 0.0
    && (m.lastStatus == OutOfPosition ==>
          || !InPosition(m.lastWidth, m.lastOffset, limits, 1.0)
          || !InPosition(m.lastWidth, m.lastOffset, limits, EXIT_FACTOR))
    && (m.lastStatus == Unstable ==>
          !WithinAngles(m.lastAngles, limits, 1.0) || !WithinAngles(m.lastAngles, limits, EXIT_FACTOR))
  }

  lemma {:induction false} HintsAreJustified(frames: seq<Frame>, cfg: Settings)
    requires Measures(cfg.dist)
    ensures Justified(After(frames, cfg), cfg.limits)
    decreases |frames|
  {
    hide ReadingOf, InPosition, WithinAngles;
    if frames != [] {
      var n := |frames| - 1;
      HintsAreJustified(frames[..n], cfg);
      if ReadingOf(After(frames[..n], cfg), frames[n], cfg).Some? {
        UsableShowsFace(After(frames[..n], cfg), frames[n], cfg);
      }
    }
  }

  /** Something always moves the subject: the two fallback hints are never given, for any thresholds. */
  lemma NoFallbackHints(frames: seq<Frame>, cfg: Settings)
    requires Measures(cfg.dist) && frames != []
    ensures AdjustPosition !in Shown(frames, cfg).hints && HoldStill !in Shown(frames, cfg).hints
  {
    hide After;
    HintsAreJustified(frames, cfg);
    var m := After(frames, cfg);
    if m.lastStatus == OutOfPosition {
      JustifiedPosition(m, cfg.limits);
    } else if m.lastStatus == Unstable {
      JustifiedAngles(m, cfg.limits);
    }
  }

  lemma JustifiedPosition(m: Memory, limits: Thresholds)
    requires Justified(m, limits) && m.lastStatus == OutOfPosition
    ensures PositionHints(m, limits) != []
  {
    if limits.widthMin >= 0.0 {
      assert limits.widthMin / EXIT_FACTOR <= limits.widthMin;
    }
  }

  lemma JustifiedAngles(m: Memory, limits: Thresholds)
    requires Justified(m, limits) && m.lastStatus == Unstable
    ensures AngleHints(m, limits) != []
  {
  }

  /** A value moved up, down, or not at all. */
  predicate Steers(from: real, to: real, up: bool, down: bool) {
    if up then !down && from < to else if down then to < from else from == to
  }

  /**
   The hints about position, followed by some amount each and with nothing else changed,
   lead into position: moving to one's own right or up lowers the offset.
   */
  lemma PositionHintsLeadIn(m: Memory, limits: Thresholds) returns (width: real, offset: Point)
    requires limits.widthMin <= limits.widthMax && limits.offsetMax >= 0.0
    ensures
      var hints := PositionHints(m, limits);
      && Steers(m.lastWidth, width, MoveCloser in hints, MoveFarther in hints)
      && Steers(m.lastOffset.x, offset.x, MoveOwnLeft in hints, MoveOwnRight in hints)
      && Steers(m.lastOffset.y, offset.y, MoveDown in hints, MoveUp in hints)
    ensures InPosition(width, offset, limits, 1.0)
  {
    width := MinReal(MaxReal(m.lastWidth, limits.widthMin), limits.widthMax);
    offset := Point(if Abs(m.lastOffset.x) > limits.offsetMax then 0.0 else m.lastOffset.x,
                    if Abs(m.lastOffset.y) > limits.offsetMax then 0.0 else m.lastOffset.y);
  }

  /** The hints about angles do so too: turning or levelling to one's own right, or raising the head, lowers it. */
  lemma AngleHintsLeadIn(m: Memory, limits: Thresholds) returns (angles: Angles)
    requires limits.yaw >= 0.0 && limits.pitch >= 0.0 && limits.roll >= 0.0
    ensures
      var hints := AngleHints(m, limits);
      && Steers(m.lastAngles.yaw, angles.yaw, TurnOwnLeft in hints, TurnOwnRight in hints)
      && Steers(m.lastAngles.pitch, angles.pitch, LowerHead in hints, RaiseHead in hints)
      && Steers(m.lastAngles.roll, angles.roll, LevelOwnLeft in hints, LevelOwnRight in hints)
    ensures WithinAngles(angles, limits, 1.0)
  {
    var a := m.lastAngles;
    angles := Angles(if Abs(a.yaw) > limits.yaw then 0.0 else a.yaw,
                     if Abs(a.pitch) > limits.pitch then 0.0 else a.pitch,
                     if Abs(a.roll) > limits.roll then 0.0 else a.roll);
  }

  /**
   The hints shown: out of position at least one, each about position and together leading into
   position; unsteady at least one, each about angles and together leading within them; none
   otherwise.
   */
  lemma ShownHintsHelp(frames: seq<Frame>, cfg: Settings) returns (width: real, offset: Point, angles: Angles)
    requires Measures(cfg.dist) && frames != []
    requires cfg.limits.widthMin <= cfg.limits.widthMax && cfg.limits.offsetMax >= 0.0
    requires cfg.limits.yaw >= 0.0 && cfg.limits.pitch >= 0.0 && cfg.limits.roll >= 0.0
    ensures
      var shown := Shown(frames, cfg);
      match shown.status
      case OutOfPosition =>
        && shown.hints != [] && (forall h <- shown.hints :: AboutPosition(h))
        && Steers(shown.width, width, MoveCloser in shown.hints, MoveFarther in shown.hints)
        && Steers(shown.offset.x, offset.x, MoveOwnLeft in shown.hints, MoveOwnRight in shown.hints)
        && Steers(shown.offset.y, offset.y, MoveDown in shown.hints, MoveUp in shown.hints)
        && InPosition(width, offset, cfg.limits, 1.0)
      case Unstable =>
        && shown.hints != [] && (forall h <- shown.hints :: AboutAngles(h))
        && Steers(shown.angles.yaw, angles.yaw, TurnOwnLeft in shown.hints, TurnOwnRight in shown.hints)
        && Steers(shown.angles.pitch, angles.pitch, LowerHead in shown.hints, RaiseHead in shown.hints)
        && Steers(shown.angles.roll, angles.roll, LevelOwnLeft in shown.hints, LevelOwnRight in shown.hints)
        && WithinAngles(angles, cfg.limits, 1.0)
      case _ => shown.hints == []
  {
    hide After;
    var m := After(frames, cfg);
    HintsAreJustified(frames, cfg);
    width, offset := PositionHintsLeadIn(m, cfg.limits);
    angles := AngleHintsLeadIn(m, cfg.limits);
    HintsAreOfTheirKind(m, cfg.limits);
    if m.lastStatus == OutOfPosition {
      JustifiedPosition(m, cfg.limits);
    } else if m.lastStatus == Unstable {
      JustifiedAngles(m, cfg.limits);
    }
  }

  predicate AboutPosition(h: Hint) {
    h in {MoveCloser, MoveFarther, MoveOwnLeft, MoveOwnRight, MoveUp, MoveDown}
  }

  predicate AboutAngles(h: Hint) {
    h in {TurnOwnLeft, TurnOwnRight, RaiseHead, LowerHead, LevelOwnLeft, LevelOwnRight}
  }

  lemma HintsAreOfTheirKind(m: Memory, limits: Thresholds)
    ensures forall h <- PositionHints(m, limits) :: AboutPosition(h)
    ensures forall h <- AngleHints(m, limits) :: AboutAngles(h)
  {
  }

  /** There is something to hint at exactly when the pose misses the base thresholds. */
  lemma HintsExactlyWhenNeeded(m: Memory, limits: Thresholds)
    ensures PositionHints(m, limits) == [] <==> InPosition(m.lastWidth, m.lastOffset, limits, 1.0)
    ensures AngleHints(m, limits) == [] <==> WithinAngles(m.lastAngles, limits, 1.0)
  {
  }

  /** Thresholds widened by a factor. */
  function Widened(limits: Thresholds, factor: real): Thresholds
    requires factor > 0.0
  {
    limits.(
    yaw := limits.yaw * factor, pitch := limits.pitch * factor, roll := limits.roll * factor,
    widthMin := limits.widthMin / factor, widthMax := limits.widthMax * factor,
    offsetMax := limits.offsetMax * factor)
  }

  /** Hysteresis is the same test against wider thresholds. */
  lemma HysteresisWidens(r: Reading, limits: Thresholds, factor: real)
    requires factor > 0.0
    ensures Meets(r, limits, factor) <==> Meets(r, Widened(limits, factor), 1.0)
  {
    hide InPosition, WithinAngles;
    var wide := Widened(limits, factor);
    PositionBounds(r, limits, factor, wide.widthMin, wide.widthMax, wide.offsetMax);
    PositionBounds(r, wide, 1.0, wide.widthMin, wide.widthMax, wide.offsetMax);
    AngleBounds(r, limits, factor, wide.yaw, wide.pitch, wide.roll);
    AngleBounds(r, wide, 1.0, wide.yaw, wide.pitch, wide.roll);
  }

  lemma PositionBounds(r: Reading, limits: Thresholds, factor: real, low: real, high: real, far: real)
    requires factor > 0.0 && low == limits.widthMin / factor && high == limits.widthMax * factor
    requires far == limits.offsetMax * factor
    ensures InPosition(r.width, r.offset, limits, factor) <==>
            low <= r.width <= high && Abs(r.offset.x) <= far && Abs(r.offset.y) <= far
  {
  }

  lemma AngleBounds(r: Reading, limits: Thresholds, factor: real, yaw: real, pitch: real, roll: real)
    requires yaw == limits.yaw * factor && pitch == limits.pitch * factor && roll == limits.roll * factor
    ensures WithinAngles(r.angles, limits, factor) <==>
            Abs(r.angles.yaw) <= yaw && Abs(r.angles.pitch) <= pitch && Abs(r.angles.roll) <= roll
  {
  }

  // ----- what is remembered -----

  /**
   A usable frame is remembered for the next: its angles for smoothing, the centre of its face
   for telling the face again.  An unusable frame changes nothing; one without a face makes the
   tracker measure the next frame as if it were the first.
   */
  lemma Remembered(frames: seq<Frame>, next: Frame, cfg: Settings)
    requires Measures(cfg.dist) && frames != []
    ensures
      var m, last := After(frames, cfg), frames[|frames| - 1];
      if last.faces == [] then ReadingOf(m, next, cfg) == ReadingOf(FRESH, next, cfg)
      else
        match ReadingAt(frames, |frames| - 1, cfg)
        case None => m == After(frames[..|frames| - 1], cfg)
        case Some(r) => m.smoothed == Some(r.angles) && m.lastCenter == r.center
  {
    hide FaceMetrics, Primary, Computed;
  }

  // ----- what is measured and what is shown -----

  /**
   A face is measured when both eyes and the chin are found: its width is the horizontal distance
   of the eyes, its centre lies midway between them and, in height, midway between crown and
   chin, or between the eyes if there is no crown.
   */
  lemma FaceIsMeasured(face: Face)
    ensures FaceMetrics(face).Some? <==> face.leftEye.Some? && face.rightEye.Some? && face.chin.Some?
    ensures FaceMetrics(face).Some? ==>
      var m, left, right := FaceMetrics(face).value, face.leftEye.value, face.rightEye.value;
      && (m.width == left.x - right.x || m.width == right.x - left.x) && m.width >= 0.0
      && m.center.x - left.x == right.x - m.center.x
      && if face.top.Some? then m.center.y - face.top.value.y == face.chin.value.y - m.center.y
         else m.center.y - left.y == right.y - m.center.y
  {
  }

  /**
   A face scores by its width, less by as much of it as its centre is off the frame's, at most
   half; and the less, the farther it is from where the face was last seen.
   */
  lemma ScoreWeighs(m: Metrics, previous: Option<Point>, dist: (real, real) -> real)
    requires Measures(dist)
    ensures
      var score := Score(m, previous, dist);
      var plain := Score(m, None, dist);
      && plain == m.width * (1.0 - MinReal(dist(m.center.x - 0.5, m.center.y - 0.5), 0.5))
      && (previous.Some? ==>
            var drift := dist(m.center.x - previous.value.x, m.center.y - previous.value.y);
            score * (1.0 + 4.0 * drift) == plain)
  {
    var c := dist(m.center.x - 0.5, m.center.y - 0.5);
    if c * 2.0 < 1.0 {
      assert 0.5 + 0.5 * (1.0 - c * 2.0) == 1.0 - c;
    }
    if previous.Some? {
      var drift := dist(m.center.x - previous.value.x, m.center.y - previous.value.y);
      var plain, factor := Score(m, None, dist), 1.0 + drift * 4.0;
      assert plain / factor * factor == plain;
    }
  }

  /** Smoothing starts at the first angles seen, and then moves by the share `alpha` of the way to each new one. */
  lemma SmoothingMoves(before: Angles, a: Angles, alpha: real)
    ensures Smoothed(None, a, alpha) == a
    ensures
      var s := Smoothed(Some(before), a, alpha);
      && s.yaw - before.yaw == Times(alpha, a.yaw - before.yaw)
      && s.pitch - before.pitch == Times(alpha, a.pitch - before.pitch)
      && s.roll - before.roll == Times(alpha, a.roll - before.roll)
  {
    BlendMoves(before.yaw, a.yaw, alpha);
    BlendMoves(before.pitch, a.pitch, alpha);
    BlendMoves(before.roll, a.roll, alpha);
  }

  lemma BlendMoves(previous: real, observed: real, alpha: real)
    ensures Blend(previous, observed, alpha) - previous == Times(alpha, observed - previous)
  {
  }

  /**
   A frame without a face shows that and nothing held; a usable one shows what it measured, the
   thresholds it misses first, and whether it is crowded; an unusable one the status before.
   */
  lemma ShownIsMeasured(frames: seq<Frame>, cfg: Settings)
    requires Measures(cfg.dist) && frames != []
    ensures
      var shown, last := Shown(frames, cfg), frames[|frames| - 1];
      var before := After(frames[..|frames| - 1], cfg);
      if last.faces == [] then shown.status == NoFace && !shown.shootable && shown.stableMs == 0.0
      else
        match ReadingAt(frames, |frames| - 1, cfg)
        case None => shown.status == before.lastStatus && shown.angles == before.lastAngles
        case Some(r) =>
          var f := if before.lastComputed == Ready then 1.3 else 1.0;
          && shown.angles == r.angles && shown.width == r.width && shown.offset == r.offset
          && (shown.status == MultiFace <==> |last.faces| > 1)
          && (|last.faces| == 1 ==>
            && (shown.status == OutOfPosition <==> !InPosition(r.width, r.offset, cfg.limits, f))
            && (shown.status == Unstable <==>
                  InPosition(r.width, r.offset, cfg.limits, f) && !WithinAngles(r.angles, cfg.limits, f)))
  {
    hide ReadingOf, InPosition, WithinAngles;
  }

  /** A usable frame measures the smoothed angles, the width and the offset from the centre of its primary face. */
  lemma ReadingIsOfPrimary(m: Memory, frame: Frame, cfg: Settings)
    requires Measures(cfg.dist)
    ensures
      var primary := Primary(frame.faces, m.lastCenter, cfg.dist);
      && (ReadingOf(m, frame, cfg).Some? <==> primary.Some? && primary.value.angles.Some?)
      && (ReadingOf(m, frame, cfg).Some? ==>
            var r := ReadingOf(m, frame, cfg).value;
            && r.angles == Smoothed(m.smoothed, primary.value.angles.value, cfg.alpha)
            && match FaceMetrics(primary.value)
               case None => r.width == 0.0 && r.offset == ORIGIN && r.center == None
               case Some(metrics) =>
                 && r.width == metrics.width && r.center == Some(metrics.center)
                 && r.offset.x + 0.5 == metrics.center.x && r.offset.y + 0.5 == metrics.center.y)
  {
    hide FaceMetrics, Primary, Smoothed;
  }
}
