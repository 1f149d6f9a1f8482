/** Why the cleanup window must cover the lease: a shorter one deletes rows that are still held. */
module LeaseWindow {
  import opened Basics
  import opened Records
  import opened Protocol
  import opened Invariant
  import opened Safety
  import opened LeaseSafety
  import opened LeaseRace

  ghost predicate NoTakeover(run: seq<Action>) {
    forall a <- run :: !(a.Lease? && a.lease.UpdateLease?)
  }

  ghost predicate Alone(s: State, now: int, procs: map<nat, Proc>, names: set<Name>) {
    && s.clock == now && s.writer == None && s.procs == procs && s.names == names && s.generations == map[ROW := 1]
    && s.db.keys == map[] && s.db.photos == map[] && s.saved == map[]
  }

  lemma FirstStages(cfg: Config) returns (run: seq<Action>, v: State)
    requires 1 <= cfg.leaseSeconds
    ensures TimelyRun(Initial, run, v, cfg) && NoTakeover(run)
    ensures Alone(v, 0, map[0 := Staged(JOB, ENC, "a", 0)], {"a"})
    ensures v.db.leases == map[ROW := LeaseRow(UPLOAD, Processing, None, None, 0, 0)]
  {
    hide Step, TimelyRun;
    run := [Lease(BeginSave(0, ROW, UPLOAD)), Lease(TryInsert(0)), Save(WriteObject(0, ENC, "a"))];
    StepOfLease(Initial, BeginSave(0, ROW, UPLOAD), cfg);
    var t := Step(Initial, run[0], cfg);
    StepOfLease(t, TryInsert(0), cfg);
    var u := Step(t, run[1], cfg);
    StepOfSave(u, WriteObject(0, ENC, "a"), cfg);
    v := Step(u, run[2], cfg);
    ThreeSteps(Initial, run, t, u, v, cfg);
  }

  lemma StepOfTick(s: State, wait: nat, cfg: Config)
    ensures Step(s, Env(Tick(wait)), cfg) == Advance(s, s.(clock := s.clock + wait))
  {
    hide Departed;
    NothingLeft(s, EnvApply(s, Tick(wait)));
  }

  lemma StepOfCleaning(s: State, at: int, cfg: Config)
    requires CleanEnabled(s, CleanLeaseRows(at))
    ensures Step(s, Clean(CleanLeaseRows(at)), cfg) == Advance(s, s.(db := CleanLeases(s.db, at, cfg)))
  {
    hide Departed, CleanLeases;
    CleaningKeepsPhotos(s.db, at, cfg);
    NothingLeft(s, CleanApply(s, CleanLeaseRows(at), cfg));
  }

  lemma CleaningKeepsPhotos(db: Db, at: int, cfg: Config)
    ensures CleanLeases(db, at, cfg).photos == db.photos && CleanLeases(db, at, cfg).keys == db.keys
  {
  }

  lemma HeldRowIsCleaned(s: State, cfg: Config)
    requires s.db.leases == map[ROW := LeaseRow(UPLOAD, Processing, None, None, 0, 0)]
    ensures CleanLeases(s.db, 1000 * cfg.windowSeconds, cfg).leases.Keys == {}
  {
  }

  /** Once the window is over, the cleanup deletes the row of a save that is still in time. */
  lemma RowVanishes(s: State, cfg: Config) returns (run: seq<Action>, v: State)
    requires cfg.windowSeconds < cfg.leaseSeconds && Alone(s, 0, map[0 := Staged(JOB, ENC, "a", 0)], {"a"})
    requires s.db.leases == map[ROW := LeaseRow(UPLOAD, Processing, None, None, 0, 0)]
    ensures TimelyRun(s, run, v, cfg) && NoTakeover(run) && ROW !in v.db.leases
    ensures var now := 1000 * cfg.windowSeconds;
            Alone(v, now, map[0 := Staged(JOB, ENC, "a", 0), 1 := Saving(Job(ROW, UPLOAD, now))], {"a"})
  {
    hide Step, TimelyRun, CleanLeases;
    var now := 1000 * cfg.windowSeconds;
    run := [Env(Tick(now)), Clean(CleanLeaseRows(now)), Lease(BeginSave(1, ROW, UPLOAD))];
    StepOfTick(s, now, cfg);
    var t := Step(s, run[0], cfg);
    StepOfCleaning(t, now, cfg);
    HeldRowIsCleaned(t, cfg);
    CleaningKeepsPhotos(t.db, now, cfg);
    var u := Step(t, run[1], cfg);
    StepOfLease(u, BeginSave(1, ROW, UPLOAD), cfg);
    v := Step(u, run[2], cfg);
    ThreeSteps(s, run, t, u, v, cfg);
  }

  function SecondJob(cfg: Config): Job {
    Job(ROW, UPLOAD, 1000 * cfg.windowSeconds)
  }

  /** The row has been created a second time, and both saves have written their objects. */
  lemma BothStage(s: State, cfg: Config) returns (run: seq<Action>, v: State)
    requires cfg.windowSeconds < cfg.leaseSeconds && ROW !in s.db.leases
    requires Alone(s, 1000 * cfg.windowSeconds, map[0 := Staged(JOB, ENC, "a", 0), 1 := Saving(SecondJob(cfg))], {"a"})
    ensures TimelyRun(s, run, v, cfg) && NoTakeover(run)
    ensures Committing(v, cfg) && v.db.keys == map[] && v.saved == map[]
    ensures v.procs == map[
        0 := Staged(JOB, ENC, "a", 0), 1 := Staged(SecondJob(cfg), ENC, "b", 1000 * cfg.windowSeconds)]
  {
    hide Step, TimelyRun;
    run := [Lease(TryInsert(1)), Save(WriteObject(1, ENC, "b"))];
    StepOfLease(s, TryInsert(1), cfg);
    var t := Step(s, run[0], cfg);
    StepOfSave(t, WriteObject(1, ENC, "b"), cfg);
    v := Step(t, run[1], cfg);
    TwoSteps(s, run, t, v, cfg);
  }

  lemma TwoSteps(s: State, run: seq<Action>, t: State, u: State, cfg: Config)
    requires |run| == 2 && Timely(s, cfg) && Timely(t, cfg) && Timely(u, cfg)
    requires Enabled(s, run[0]) && t == Step(s, run[0], cfg)
    requires Enabled(t, run[1]) && u == Step(t, run[1], cfg)
    ensures TimelyRun(s, run, u, cfg)
  {
    hide Step, Enabled, Timely;
    assert TimelyRun(u, run[1..][1..], u, cfg);
    assert TimelyRun(t, run[1..], u, cfg);
  }

  /** What both commits need. */
  ghost predicate Committing(s: State, cfg: Config) {
    s.clock == 1000 * cfg.windowSeconds && s.writer == None && ROW in s.db.leases && s.generations == map[ROW := 2]
  }

  ghost predicate SavedUnder(s: State, id: PhotoId) {
    id in s.saved && s.saved[id].row == ROW && s.saved[id].generation == 2
  }

  lemma CommitsUnder(s: State, p: nat, key: string, cfg: Config)
    requires Committing(s, cfg) && p in s.procs && s.procs[p].Staged? && s.procs[p].job.row == ROW
    requires Fingerprint(key) !in s.db.keys
    ensures Enabled(s, Save(CommitPhoto(p, key, "secret")))
    ensures var t := Step(s, Save(CommitPhoto(p, key, "secret")), cfg);
            && Committing(t, cfg) && SavedUnder(t, IdFor(s.procs[p].job, key)) && t.procs == s.procs - {p}
            && t.db.keys.Keys == s.db.keys.Keys + {Fingerprint(key)}
            && forall id <- s.saved :: id != IdFor(s.procs[p].job, key) ==> id in t.saved && t.saved[id] == s.saved[id]
  {
    hide CommitSave, Departed, ReceiptFor, ApplyCommit;
    CommitShape(s, p, key, "secret", cfg);
    PurgeLaws.CommitSaveEffect(s.db, s.procs[p].job, s.procs[p].enc, s.procs[p].name, key, "secret", cfg);
  }

  lemma BothCommit(s: State, cfg: Config) returns (run: seq<Action>, v: State)
    requires cfg.windowSeconds < cfg.leaseSeconds && Committing(s, cfg) && s.db.keys == map[] && s.saved == map[]
    requires s.procs == map[
        0 := Staged(JOB, ENC, "a", 0), 1 := Staged(SecondJob(cfg), ENC, "b", 1000 * cfg.windowSeconds)]
    ensures TimelyRun(s, run, v, cfg) && NoTakeover(run)
    ensures SavedUnder(v, IdFor(JOB, "KEY001")) && SavedUnder(v, IdFor(SecondJob(cfg), "KEY002"))
  {
    hide Step, TimelyRun, Enabled;
    run := [Save(CommitPhoto(0, "KEY001", "secret")), Save(CommitPhoto(1, "KEY002", "secret"))];
    CommitsUnder(s, 0, "KEY001", cfg);
    var t := Step(s, run[0], cfg);
    assert t.procs == map[1 := Staged(SecondJob(cfg), ENC, "b", 1000 * cfg.windowSeconds)];
    CommitsUnder(t, 1, "KEY002", cfg);
    v := Step(t, run[1], cfg);
    assert v.procs == map[];
    assert IdFor(JOB, "KEY001") != IdFor(SecondJob(cfg), "KEY002");
    TwoSteps(s, run, t, v, cfg);
  }

  lemma {:induction false} TimelyIsDisciplined(s: State, run: seq<Action>, t: State, cfg: Config)
    requires TimelyRun(s, run, t, cfg) && NoTakeover(run)
    ensures DisciplinedRun(s, run, t, cfg)
    decreases |run|
  {
    hide Step, Enabled, Timely;
    if run != [] {
      assert run[0] in run && forall a <- run[1..] :: a in run;
      TimelyIsDisciplined(Step(s, run[0], cfg), run[1..], t, cfg);
    }
  }

  /** A disciplined run under a window shorter than the lease that commits two photos for one lease row. */
  lemma ShortWindowSavesTwice(cfg: Config) returns (run: seq<Action>, t: State)
    requires cfg.windowSeconds < cfg.leaseSeconds
    ensures DisciplinedRun(Initial, run, t, cfg)
    ensures SavedUnder(t, IdFor(JOB, "KEY001")) && SavedUnder(t, IdFor(SecondJob(cfg), "KEY002"))
  {
    hide TimelyRun, Alone, Committing, DisciplinedRun;
    var r0, s0 := FirstStages(cfg);
    var r1, s1 := RowVanishes(s0, cfg);
    var r2, s2 := BothStage(s1, cfg);
    var r3, s3 := BothCommit(s2, cfg);
    RunsCompose(Initial, r0, s0, r1, s1, cfg);
    RunsCompose(Initial, r0 + r1, s1, r2, s2, cfg);
    RunsCompose(Initial, r0 + r1 + r2, s2, r3, s3, cfg);
    run, t := r0 + r1 + r2 + r3, s3;
    TimelyIsDisciplined(Initial, run, t, cfg);
  }

  ghost predicate OnePhotoEach(s: State) {
    forall a, b :: a in s.saved && b in s.saved && SameLease(s.saved[a], s.saved[b]) ==> a == b
  }

  /** Disciplined runs commit at most one photo per lease row if and only if the cleanup window covers the lease. */
  lemma WindowIsExact(cfg: Config)
    requires 1 <= cfg.leaseSeconds
    ensures cfg.leaseSeconds <= cfg.windowSeconds <==>
            forall run, t :: DisciplinedRun(Initial, run, t, cfg) ==> OnePhotoEach(t)
  {
    hide DisciplinedRun;
    if cfg.leaseSeconds <= cfg.windowSeconds {
      forall run, t | DisciplinedRun(Initial, run, t, cfg) ensures OnePhotoEach(t) {
        forall a, b | a in t.saved && b in t.saved && SameLease(t.saved[a], t.saved[b]) ensures a == b {
          OnePhotoPerLease(run, t, a, b, cfg);
        }
      }
    } else {
      var run, t := ShortWindowSavesTwice(cfg);
      assert IdFor(JOB, "KEY001") != IdFor(SecondJob(cfg), "KEY002");
      assert SameLease(t.saved[IdFor(JOB, "KEY001")], t.saved[IdFor(SecondJob(cfg), "KEY002")]);
      assert !OnePhotoEach(t);
    }
  }
}
