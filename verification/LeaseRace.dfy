/**
 Why takeovers must find the row as they read it: the takeover UPDATE names only the
 primary key, so two saves that have read the same failed row can both take it over and
 both commit, within their leases and within one generation of the row.
 */
module LeaseRace {
  import opened Basics
  import opened Records
  import opened Protocol
  import opened Invariant
  import opened Safety
  import opened LeaseSafety

  /** A run in which every holder is in time, with no demand on takeovers. */
  ghost predicate TimelyRun(s: State, run: seq<Action>, t: State, cfg: Config)
    decreases |run|
  {
    && Timely(s, cfg)
    && if run == [] then s == t
       else Enabled(s, run[0]) && TimelyRun(Step(s, run[0], cfg), run[1..], t, cfg)
  }

  lemma {:induction false} RunsCompose(
    s: State, first: seq<Action>, t: State, second: seq<Action>, u: State, cfg: Config)
    requires TimelyRun(s, first, t, cfg) && TimelyRun(t, second, u, cfg)
    ensures TimelyRun(s, first + second, u, cfg)
    decreases |first|
  {
    hide Step, Enabled, Timely;
    if first == [] {
      assert first + second == second;
    } else {
      assert (first + second)[1..] == first[1..] + second;
      RunsCompose(Step(s, first[0], cfg), first[1..], t, second, u, cfg);
    }
  }

  lemma ThreeSteps(s: State, run: seq<Action>, t: State, u: State, v: State, cfg: Config)
    requires |run| == 3 && Timely(s, cfg) && Timely(t, cfg) && Timely(u, cfg) && Timely(v, cfg)
    requires Enabled(s, run[0]) && t == Step(s, run[0], cfg)
    requires Enabled(t, run[1]) && u == Step(t, run[1], cfg)
    requires Enabled(u, run[2]) && v == Step(u, run[2], cfg)
    ensures TimelyRun(s, run, v, cfg)
  {
    hide Step, Enabled, Timely;
    assert TimelyRun(v, run[1..][1..][1..], v, cfg);
    assert TimelyRun(u, run[1..][1..], v, cfg);
    assert TimelyRun(t, run[1..], v, cfg);
  }

  const ROW := RowKey("session", "key")
  const UPLOAD := Upload([], "template", 1)
  const JOB := Job(ROW, UPLOAD, 0)
  const FAILED := LeaseRow(UPLOAD, Failed, None, None, 0, 0)
  const ENC := Encoded([0], 1, 1)

  /** The row stands as given, nothing has been saved, and the processes are at the given points. */
  ghost predicate Stands(s: State, row: LeaseRow, procs: map<nat, Proc>) {
    && s.clock == 0 && s.writer == None && s.procs == procs
    && ROW in s.db.leases && s.db.leases[ROW] == row && s.generations == map[ROW := 1]
    && s.db.keys == map[] && s.db.photos == map[] && s.names == {} && s.saved == map[]
  }

  lemma StepOfLease(s: State, a: LeaseAction, cfg: Config)
    requires LeaseEnabled(s, a)
    ensures Step(s, Lease(a), cfg) == Advance(s, LeaseApply(s, a, cfg))
  {
    hide LeaseApply, LeaseEnabled, Departed;
    LeaseEffect(s, a, cfg);
    NothingLeft(s, LeaseApply(s, a, cfg));
  }

  lemma StepOfSave(s: State, a: SaveAction, cfg: Config)
    requires SaveEnabled(s, a) && !a.CommitPhoto?
    ensures Step(s, Save(a), cfg) == Advance(s, SaveApply(s, a, cfg))
  {
    hide Departed;
    NothingLeft(s, SaveApply(s, a, cfg));
  }

  // ----- one save fails, two others read its failed row -----

  lemma FirstFails(cfg: Config) returns (run: seq<Action>, s: State)
    requires 1 <= cfg.leaseSeconds
    ensures TimelyRun(Initial, run, s, cfg)
    ensures Stands(s, LeaseRow(UPLOAD, Processing, None, None, 0, 0), map[0 := Failing(JOB)])
  {
    hide Step, TimelyRun;
    run := [Lease(BeginSave(0, ROW, UPLOAD)), Lease(TryInsert(0)), Save(Reject(0))];
    StepOfLease(Initial, BeginSave(0, ROW, UPLOAD), cfg);
    var t := Step(Initial, run[0], cfg);
    StepOfLease(t, TryInsert(0), cfg);
    var u := Step(t, run[1], cfg);
    StepOfSave(u, Reject(0), cfg);
    s := Step(u, run[2], cfg);
    ThreeSteps(Initial, run, t, u, s, cfg);
  }

  lemma SecondLosesInsert(s: State, cfg: Config) returns (run: seq<Action>, v: State)
    requires 1 <= cfg.leaseSeconds
    requires Stands(s, LeaseRow(UPLOAD, Processing, None, None, 0, 0), map[0 := Failing(JOB)])
    ensures TimelyRun(s, run, v, cfg) && Stands(v, FAILED, map[1 := LostInsert(JOB)])
  {
    hide Step, TimelyRun;
    run := [Lease(ReleaseLease(0)), Lease(BeginSave(1, ROW, UPLOAD)), Lease(TryInsert(1))];
    StepOfLease(s, ReleaseLease(0), cfg);
    var t := Step(s, run[0], cfg);
    assert Stands(t, FAILED, map[]);
    StepOfLease(t, BeginSave(1, ROW, UPLOAD), cfg);
    var u := Step(t, run[1], cfg);
    assert Stands(u, FAILED, map[1 := Saving(JOB)]);
    StepOfLease(u, TryInsert(1), cfg);
    v := Step(u, run[2], cfg);
    ThreeSteps(s, run, t, u, v, cfg);
  }

  lemma ThirdLosesInsert(s: State, cfg: Config) returns (run: seq<Action>, v: State)
    requires 1 <= cfg.leaseSeconds && Stands(s, FAILED, map[1 := LostInsert(JOB)])
    ensures TimelyRun(s, run, v, cfg)
    ensures Stands(v, FAILED, map[1 := TakingOver(JOB, FAILED), 2 := LostInsert(JOB)])
  {
    hide Step, TimelyRun;
    run := [Lease(ReadLease(1)), Lease(BeginSave(2, ROW, UPLOAD)), Lease(TryInsert(2))];
    StepOfLease(s, ReadLease(1), cfg);
    var t := Step(s, run[0], cfg);
    assert Stands(t, FAILED, map[1 := TakingOver(JOB, FAILED)]);
    StepOfLease(t, BeginSave(2, ROW, UPLOAD), cfg);
    var u := Step(t, run[1], cfg);
    assert Stands(u, FAILED, map[1 := TakingOver(JOB, FAILED), 2 := Saving(JOB)]);
    StepOfLease(u, TryInsert(2), cfg);
    v := Step(u, run[2], cfg);
    ThreeSteps(s, run, t, u, v, cfg);
  }

  // ----- both take over -----

  const HELD := FAILED.(status := Processing)

  lemma SecondDecides(s: State, cfg: Config) returns (t: State)
    requires Stands(s, FAILED, map[1 := TakingOver(JOB, FAILED), 2 := LostInsert(JOB)])
    ensures Enabled(s, Lease(ReadLease(2))) && t == Step(s, Lease(ReadLease(2)), cfg)
    ensures Stands(t, FAILED, map[1 := TakingOver(JOB, FAILED), 2 := TakingOver(JOB, FAILED)])
  {
    hide Step;
    StepOfLease(s, ReadLease(2), cfg);
    t := Step(s, Lease(ReadLease(2)), cfg);
  }

  lemma FirstTakesOver(s: State, cfg: Config) returns (t: State)
    requires Stands(s, FAILED, map[1 := TakingOver(JOB, FAILED), 2 := TakingOver(JOB, FAILED)])
    ensures Enabled(s, Lease(UpdateLease(1))) && t == Step(s, Lease(UpdateLease(1)), cfg)
    ensures Stands(t, HELD, map[1 := Holding(JOB), 2 := TakingOver(JOB, FAILED)])
  {
    hide Step;
    StepOfLease(s, UpdateLease(1), cfg);
    t := Step(s, Lease(UpdateLease(1)), cfg);
  }

  /** The first taker has written its object; the second has still to take over. */
  ghost predicate FirstStaged(s: State) {
    && s.clock == 0 && s.writer == None && s.names == {"a"} && ROW in s.db.leases && s.generations == map[ROW := 1]
    && s.procs == map[1 := Staged(JOB, ENC, "a", 0), 2 := TakingOver(JOB, FAILED)]
    && s.db.keys == map[] && s.db.photos == map[] && s.saved == map[]
  }

  lemma FirstStages(s: State, cfg: Config) returns (t: State)
    requires Stands(s, HELD, map[1 := Holding(JOB), 2 := TakingOver(JOB, FAILED)])
    ensures Enabled(s, Save(WriteObject(1, ENC, "a"))) && t == Step(s, Save(WriteObject(1, ENC, "a")), cfg)
    ensures FirstStaged(t)
  {
    hide Step;
    StepOfSave(s, WriteObject(1, ENC, "a"), cfg);
    t := Step(s, Save(WriteObject(1, ENC, "a")), cfg);
  }

  lemma BothDecide(s: State, cfg: Config) returns (run: seq<Action>, v: State)
    requires 1 <= cfg.leaseSeconds && Stands(s, FAILED, map[1 := TakingOver(JOB, FAILED), 2 := LostInsert(JOB)])
    ensures TimelyRun(s, run, v, cfg) && FirstStaged(v)
  {
    hide Step, TimelyRun, Enabled;
    run := [Lease(ReadLease(2)), Lease(UpdateLease(1)), Save(WriteObject(1, ENC, "a"))];
    var t := SecondDecides(s, cfg);
    var u := FirstTakesOver(t, cfg);
    v := FirstStages(u, cfg);
    ThreeSteps(s, run, t, u, v, cfg);
  }

  /** One photo of the row's first generation has been saved. */
  ghost predicate SavedOnce(s: State, key: string) {
    && s.clock == 0 && s.writer == None && ROW in s.db.leases && s.generations == map[ROW := 1]
    && Fingerprint(key) in s.db.keys && IdFor(JOB, key) in s.saved
    && s.saved[IdFor(JOB, key)].row == ROW && s.saved[IdFor(JOB, key)].generation == 1
  }

  lemma CommitsInGeneration(s: State, p: nat, key: string, cfg: Config)
    requires p in s.procs && s.procs[p].Staged? && s.procs[p].job == JOB && s.writer == None && s.clock == 0
    requires ROW in s.db.leases && s.generations == map[ROW := 1] && Fingerprint(key) !in s.db.keys
    ensures Enabled(s, Save(CommitPhoto(p, key, "secret")))
    ensures var t := Step(s, Save(CommitPhoto(p, key, "secret")), cfg);
            && SavedOnce(t, key) && t.procs == s.procs - {p} && t.names == s.names
            && t.db.keys.Keys == s.db.keys.Keys + {Fingerprint(key)}
            && (forall id <- s.saved :: id != IdFor(JOB, key) ==> id in t.saved && t.saved[id] == s.saved[id])
  {
    hide CommitSave, Departed, ReceiptFor, ApplyCommit;
    CommitShape(s, p, key, "secret", cfg);
    PurgeLaws.CommitSaveEffect(s.db, JOB, s.procs[p].enc, s.procs[p].name, key, "secret", cfg);
  }

  lemma LaterTakeover(t: State, cfg: Config) returns (u: State)
    requires SavedOnce(t, "KEY001") && t.procs == map[2 := TakingOver(JOB, FAILED)]
    ensures Enabled(t, Lease(UpdateLease(2))) && u == Step(t, Lease(UpdateLease(2)), cfg)
    ensures SavedOnce(u, "KEY001") && u.procs == map[2 := Holding(JOB)] && u.names == t.names && u.db.keys == t.db.keys
  {
    hide Step;
    StepOfLease(t, UpdateLease(2), cfg);
    u := Step(t, Lease(UpdateLease(2)), cfg);
  }

  lemma LaterWrite(u: State, cfg: Config) returns (v: State)
    requires SavedOnce(u, "KEY001") && u.procs == map[2 := Holding(JOB)] && "b" !in u.names
    ensures Enabled(u, Save(WriteObject(2, ENC, "b"))) && v == Step(u, Save(WriteObject(2, ENC, "b")), cfg)
    ensures SavedOnce(v, "KEY001") && v.procs == map[2 := Staged(JOB, ENC, "b", 0)] && v.db.keys == u.db.keys
  {
    hide Step;
    StepOfSave(u, WriteObject(2, ENC, "b"), cfg);
    v := Step(u, Save(WriteObject(2, ENC, "b")), cfg);
  }

  lemma FirstCommits(s: State, cfg: Config) returns (run: seq<Action>, v: State)
    requires 1 <= cfg.leaseSeconds && FirstStaged(s)
    ensures TimelyRun(s, run, v, cfg) && SavedOnce(v, "KEY001")
    ensures v.procs == map[2 := Staged(JOB, ENC, "b", 0)] && Fingerprint("KEY002") !in v.db.keys
  {
    hide Step, TimelyRun, Enabled;
    run := [Save(CommitPhoto(1, "KEY001", "secret")), Lease(UpdateLease(2)), Save(WriteObject(2, ENC, "b"))];
    CommitsInGeneration(s, 1, "KEY001", cfg);
    var t := Step(s, run[0], cfg);
    assert t.procs == map[2 := TakingOver(JOB, FAILED)];
    var u := LaterTakeover(t, cfg);
    v := LaterWrite(u, cfg);
    ThreeSteps(s, run, t, u, v, cfg);
  }

  lemma SecondCommits(s: State, cfg: Config) returns (run: seq<Action>, v: State)
    requires 1 <= cfg.leaseSeconds && SavedOnce(s, "KEY001")
    requires s.procs == map[2 := Staged(JOB, ENC, "b", 0)] && Fingerprint("KEY002") !in s.db.keys
    ensures TimelyRun(s, run, v, cfg) && SavedOnce(v, "KEY001") && SavedOnce(v, "KEY002")
  {
    hide Step, Enabled;
    CommitsInGeneration(s, 2, "KEY002", cfg);
    run := [Save(CommitPhoto(2, "KEY002", "secret"))];
    v := Step(s, run[0], cfg);
    assert IdFor(JOB, "KEY001") != IdFor(JOB, "KEY002");
    assert TimelyRun(v, run[1..], v, cfg);
  }

  /** A timely run that saves two photos under one lease: its second takeover is disturbed. */
  lemma RacingTakeoversSaveTwice(cfg: Config) returns (run: seq<Action>, t: State, a: PhotoId, b: PhotoId)
    requires 1 <= cfg.leaseSeconds
    ensures TimelyRun(Initial, run, t, cfg) && a in t.saved && b in t.saved && a != b
    ensures SameLease(t.saved[a], t.saved[b])
  {
    hide TimelyRun, Stands;
    var r0, s0 := FirstFails(cfg);
    var r1, s1 := SecondLosesInsert(s0, cfg);
    var r2, s2 := ThirdLosesInsert(s1, cfg);
    var r3, s3 := BothDecide(s2, cfg);
    var r4, s4 := FirstCommits(s3, cfg);
    var r5, s5 := SecondCommits(s4, cfg);
    RunsCompose(Initial, r0, s0, r1, s1, cfg);
    RunsCompose(Initial, r0 + r1, s1, r2, s2, cfg);
    RunsCompose(Initial, r0 + r1 + r2, s2, r3, s3, cfg);
    RunsCompose(Initial, r0 + r1 + r2 + r3, s3, r4, s4, cfg);
    RunsCompose(Initial, r0 + r1 + r2 + r3 + r4, s4, r5, s5, cfg);
    run, t := r0 + r1 + r2 + r3 + r4 + r5, s5;
    a, b := IdFor(JOB, "KEY001"), IdFor(JOB, "KEY002");
  }
}
