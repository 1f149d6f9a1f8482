/** The bound on the two delays is exact: at or beyond it, a prompt run loses a live photo. */
module SweepGate {
  import opened Basics
  import opened Records
  import opened Protocol
  import opened Invariant
  import opened Safety
  import PurgeLaws
  import opened DiskSafety

  const ROW := RowKey("session", "key")
  const UPLOAD := Upload([], "template", 1)
  const JOB := Job(ROW, UPLOAD, 0)
  const ENC := Encoded([0], 1, 1)
  const NAME := "object"
  const ID := IdFor(JOB, "KEY000")

  // The states of the run, up to the fields that a later action reads.

  ghost predicate AfterWrite(s: State) {
    && s.clock == 0 && s.procs == map[0 := Staged(JOB, ENC, NAME, 0)] && s.writer == None
    && s.disk == map[NAME := File(ENC.data, 0)] && s.db.keys == map[] && s.db.photos == map[] && s.tampered == {}
  }

  ghost predicate AfterCommit(s: State, now: int, cfg: Config) {
    && s.clock == now && s.procs == map[1 := SweepRead({}, now)]
    && s.disk == map[NAME := File(ENC.data, 0)] && s.tampered == {} && PhotoCommitted(s, cfg)
  }

  ghost predicate PhotoCommitted(s: State, cfg: Config) {
    && ID in s.db.photos && s.db.photos[ID].name == NAME && s.db.photos[ID].status == Active
    && s.db.photos[ID].expiresAt == cfg.ttlSeconds
  }

  function Opening(): seq<Action> {
    [Lease(BeginSave(0, ROW, UPLOAD)), Lease(TryInsert(0)), Save(WriteObject(0, ENC, NAME))]
  }

  function Middle(wait: nat): seq<Action> {
    [Env(Tick(wait)), Clean(ReadKnown(1)), Save(CommitPhoto(0, "KEY000", "secret"))]
  }

  function Ending(wait: nat): seq<Action> {
    [Env(Tick(wait)), Clean(ComputeCutoff(1)), Clean(UnlinkOrphan(1, NAME))]
  }

  lemma {:induction false} RunsCompose(
    s: State, first: seq<Action>, t: State, second: seq<Action>, u: State, d: Delays, cfg: Config)
    requires PromptRun(s, first, t, d, cfg) && PromptRun(t, second, u, d, cfg)
    ensures PromptRun(s, first + second, u, d, cfg)
    decreases |first|
  {
    hide Step, Enabled, Prompt;
    if first == [] {
      assert first + second == second;
    } else {
      assert (first + second)[1..] == first[1..] + second;
      RunsCompose(Step(s, first[0], cfg), first[1..], t, second, u, d, cfg);
    }
  }

  lemma ThreeSteps(s: State, run: seq<Action>, t: State, u: State, v: State, d: Delays, cfg: Config)
    requires |run| == 3 && Prompt(s, d) && Prompt(t, d) && Prompt(u, d) && Prompt(v, d)
    requires Enabled(s, run[0]) && t == Step(s, run[0], cfg)
    requires Enabled(t, run[1]) && u == Step(t, run[1], cfg)
    requires Enabled(u, run[2]) && v == Step(u, run[2], cfg)
    ensures PromptRun(s, run, v, d, cfg)
  {
    hide Step, Enabled, Prompt;
    assert PromptRun(v, run[1..][1..][1..], v, d, cfg);
    assert PromptRun(u, run[1..][1..], v, d, cfg);
    assert PromptRun(t, run[1..], v, d, cfg);
  }

  lemma OpeningRuns(d: Delays, cfg: Config) returns (v: State)
    ensures PromptRun(Initial, Opening(), v, d, cfg) && AfterWrite(v)
  {
    hide PromptRun;
    var t := Advance(Initial, LeaseApply(Initial, BeginSave(0, ROW, UPLOAD), cfg));
    NothingLeft(Initial, LeaseApply(Initial, BeginSave(0, ROW, UPLOAD), cfg));
    var u := Advance(t, LeaseApply(t, TryInsert(0), cfg));
    NothingLeft(t, LeaseApply(t, TryInsert(0), cfg));
    v := Advance(u, SaveApply(u, WriteObject(0, ENC, NAME), cfg));
    NothingLeft(u, SaveApply(u, WriteObject(0, ENC, NAME), cfg));
    ThreeSteps(Initial, Opening(), t, u, v, d, cfg);
  }

  ghost predicate AfterRead(s: State, now: int) {
    && s.clock == now && s.procs == map[0 := Staged(JOB, ENC, NAME, 0), 1 := SweepRead({}, now)] && s.writer == None
    && s.disk == map[NAME := File(ENC.data, 0)] && s.db.keys == map[] && s.db.photos == map[] && s.tampered == {}
  }

  lemma TickStep(s: State, wait: nat, cfg: Config)
    ensures Enabled(s, Env(Tick(wait))) && Step(s, Env(Tick(wait)), cfg) == Advance(s, s.(clock := s.clock + wait))
  {
    NothingLeft(s, EnvApply(s, Tick(wait)));
  }

  lemma ReadStep(s: State, cfg: Config)
    requires AfterWrite(s.(clock := 0))
    ensures Enabled(s, Clean(ReadKnown(1))) && AfterRead(Step(s, Clean(ReadKnown(1)), cfg), s.clock)
  {
    hide Departed;
    NothingLeft(s, CleanApply(s, ReadKnown(1), cfg));
    assert KnownObjects(s.db) == {};
  }

  lemma Committed(s: State, now: int, cfg: Config)
    requires AfterRead(s, now)
    ensures
      var t := ApplyCommit(s, 0, "KEY000", "secret", cfg);
      && AfterCommit(Advance(s, t), now, cfg) && t.leftActive == s.leftActive
      && forall id <- s.db.photos :: IsActive(s.db, id) ==> IsActive(t.db, id)
  {
    hide ApplyCommit, CommitSave;
    CommitShape(s, 0, "KEY000", "secret", cfg);
    PurgeLaws.CommitSaveEffect(s.db, JOB, ENC, NAME, "KEY000", "secret", cfg);
    assert ApplyCommit(s, 0, "KEY000", "secret", cfg).procs == map[1 := SweepRead({}, now)];
  }

  lemma CommitStep(s: State, now: int, cfg: Config)
    requires AfterRead(s, now)
    ensures var a := Save(CommitPhoto(0, "KEY000", "secret")); Enabled(s, a) && AfterCommit(Step(s, a, cfg), now, cfg)
  {
    hide Departed, ApplyCommit, AfterCommit;
    Committed(s, now, cfg);
    NothingLeft(s, ApplyCommit(s, 0, "KEY000", "secret", cfg));
  }

  lemma MiddleRuns(s: State, wait: nat, d: Delays, cfg: Config) returns (v: State)
    requires AfterWrite(s) && wait <= d.commitMillis
    ensures PromptRun(s, Middle(wait), v, d, cfg) && AfterCommit(v, wait, cfg)
  {
    hide PromptRun, Step, Enabled, CommitSave;
    TickStep(s, wait, cfg);
    var t := Step(s, Env(Tick(wait)), cfg);
    ReadStep(t, cfg);
    var u := Step(t, Clean(ReadKnown(1)), cfg);
    CommitStep(u, wait, cfg);
    v := Step(u, Save(CommitPhoto(0, "KEY000", "secret")), cfg);
    ThreeSteps(s, Middle(wait), t, u, v, d, cfg);
  }

  ghost predicate AfterCutoff(s: State, cfg: Config) {
    && s.procs == map[1 := Sweeping({}, 0)] && s.disk == map[NAME := File(ENC.data, 0)] && s.tampered == {}
    && PhotoCommitted(s, cfg)
  }

  lemma CutoffStep(s: State, cfg: Config)
    requires s.procs.Keys == {1} && s.procs[1].SweepRead? && s.procs[1].known == {}
    requires s.clock == 1000 * cfg.orphanMinAgeSeconds
    requires s.disk == map[NAME := File(ENC.data, 0)] && s.tampered == {} && PhotoCommitted(s, cfg)
    ensures Enabled(s, Clean(ComputeCutoff(1)))
    ensures var t := Step(s, Clean(ComputeCutoff(1)), cfg); AfterCutoff(t, cfg) && t.clock == s.clock
  {
    hide Departed;
    NothingLeft(s, CleanApply(s, ComputeCutoff(1), cfg));
    assert CleanApply(s, ComputeCutoff(1), cfg).procs == map[1 := Sweeping({}, 0)];
  }

  lemma OrphanStep(s: State, cfg: Config)
    requires AfterCutoff(s, cfg)
    ensures Enabled(s, Clean(UnlinkOrphan(1, NAME)))
    ensures var t := Step(s, Clean(UnlinkOrphan(1, NAME)), cfg);
            && t.procs == s.procs && t.clock == s.clock && NAME !in t.disk && t.tampered == {} && PhotoCommitted(t, cfg)
  {
    hide Departed;
    NothingLeft(s, CleanApply(s, UnlinkOrphan(1, NAME), cfg));
  }

  lemma EndingRuns(s: State, now: nat, wait: nat, d: Delays, cfg: Config) returns (v: State)
    requires AfterCommit(s, now, cfg) && wait <= d.sweepMillis
    requires now + wait == 1000 * cfg.orphanMinAgeSeconds
    ensures PromptRun(s, Ending(wait), v, d, cfg) && PhotoCommitted(v, cfg)
    ensures v.clock == now + wait && NAME !in v.disk && v.tampered == {}
  {
    hide PromptRun, Step, Enabled;
    TickStep(s, wait, cfg);
    var t := Step(s, Env(Tick(wait)), cfg);
    CutoffStep(t, cfg);
    var u := Step(t, Clean(ComputeCutoff(1)), cfg);
    OrphanStep(u, cfg);
    v := Step(u, Clean(UnlinkOrphan(1, NAME)), cfg);
    ThreeSteps(s, Ending(wait), t, u, v, d, cfg);
  }

  /** A retrievable photo, untouched from outside, whose bytes are not on disk. */
  ghost predicate Lost(s: State, id: PhotoId) {
    && id in s.db.photos && Retrievable(s.db.photos[id], Iso(s.clock)) && s.db.photos[id].name !in s.tampered
    && s.db.photos[id].name !in s.disk
  }

  lemma BeyondTheGate(d: Delays, cfg: Config) returns (run: seq<Action>, t: State)
    requires !GateHolds(d, cfg) && cfg.orphanMinAgeSeconds < cfg.ttlSeconds
    ensures PromptRun(Initial, run, t, d, cfg) && Lost(t, ID)
  {
    hide PromptRun;
    var gate := 1000 * cfg.orphanMinAgeSeconds;
    var wait := Min(d.commitMillis, gate);
    var s := OpeningRuns(d, cfg);
    var m := MiddleRuns(s, wait, d, cfg);
    t := EndingRuns(m, wait, gate - wait, d, cfg);
    RunsCompose(Initial, Opening(), s, Middle(wait), m, d, cfg);
    RunsCompose(Initial, Opening() + Middle(wait), m, Ending(gate - wait), t, d, cfg);
    run := Opening() + Middle(wait) + Ending(gate - wait);
  }

  /** Prompt runs lose no retrievable photo if and only if the two delays stay below the age gate. */
  lemma GateIsExact(d: Delays, cfg: Config)
    requires cfg.orphanMinAgeSeconds < cfg.ttlSeconds
    ensures GateHolds(d, cfg) <==>
            forall run, t, id :: PromptRun(Initial, run, t, d, cfg) ==> !Lost(t, id)
  {
    hide PromptRun;
    if GateHolds(d, cfg) {
      forall run, t, id | PromptRun(Initial, run, t, d, cfg) ensures !Lost(t, id) {
        if Lost(t, id) { RetrievablePhotosKeepTheirBytes(run, t, id, d, cfg); }
      }
    } else {
      var run, t := BeyondTheGate(d, cfg);
    }
  }
}
