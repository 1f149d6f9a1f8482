/**
 How long a holder may live: with stored times truncated to whole seconds, one photo per
 lease needs every holder to end within `1000 * (lease - 1)` milliseconds, and no less
 strict bound will do.
 */
module LeaseBound {
  import opened Basics
  import opened Records
  import opened Protocol
  import opened Safety
  import opened LeaseSafety
  import opened LeaseRace
  import opened LeaseWindow

  ghost predicate HoldersWithin(s: State, bound: int) {
    forall p <- s.procs :: IsHolder(s.procs[p]) ==> s.clock - s.procs[p].job.startedAt <= bound
  }

  /** A run in which no holder outlives `bound` milliseconds and every takeover finds the row as it read it. */
  ghost predicate BoundedRun(s: State, run: seq<Action>, t: State, bound: int, cfg: Config)
    decreases |run|
  {
    && HoldersWithin(s, bound)
    && if run == [] then s == t
       else
         Enabled(s, run[0]) && Undisturbed(s, run[0]) && BoundedRun(Step(s, run[0], cfg), run[1..], t, bound, cfg)
  }

  lemma {:induction false} BoundedIsDisciplined(s: State, run: seq<Action>, t: State, bound: int, cfg: Config)
    requires BoundedRun(s, run, t, bound, cfg) && bound <= 1000 * (cfg.leaseSeconds - 1)
    ensures DisciplinedRun(s, run, t, cfg)
    decreases |run|
  {
    hide Step, Enabled, Undisturbed;
    if run != [] {
      BoundedIsDisciplined(Step(s, run[0], cfg), run[1..], t, bound, cfg);
    }
  }

  lemma {:induction false} OneMore(s: State, run: seq<Action>, t: State, a: Action, bound: int, cfg: Config)
    requires BoundedRun(s, run, t, bound, cfg) && Enabled(t, a) && Undisturbed(t, a)
    requires HoldersWithin(Step(t, a, cfg), bound)
    ensures BoundedRun(s, run + [a], Step(t, a, cfg), bound, cfg)
    decreases |run|
  {
    hide Step, Enabled, Undisturbed, HoldersWithin;
    if run == [] {
      assert ([] + [a])[1..] == [];
      assert BoundedRun(Step(t, a, cfg), [], Step(t, a, cfg), bound, cfg);
    } else {
      assert (run + [a])[1..] == run[1..] + [a];
      OneMore(Step(s, run[0], cfg), run[1..], t, a, bound, cfg);
    }
  }

  // ----- a holder one millisecond too slow -----

  const FIRST := Job(ROW, UPLOAD, 999)
  const FIRST_ROW := LeaseRow(UPLOAD, Processing, None, None, 0, 0)

  function Second(cfg: Config): Job {
    Job(ROW, UPLOAD, 1000 * cfg.leaseSeconds)
  }

  /** The time, the lease row, the processes and the names drawn; nothing has been saved. */
  ghost predicate Stage(s: State, now: int, row: Option<LeaseRow>, procs: map<nat, Proc>, names: set<Name>) {
    && s.clock == now && s.writer == None && s.procs == procs && s.names == names && LeaseAt(s.db, ROW) == row
    && s.generations == (if row == None then map[] else map[ROW := 1])
    && s.db.keys == map[] && s.db.photos == map[] && s.saved == map[]
  }

  lemma Takes(s: State, a: LeaseAction, cfg: Config) returns (t: State)
    requires LeaseEnabled(s, a)
    ensures Enabled(s, Lease(a)) && t == Step(s, Lease(a), cfg) == Advance(s, LeaseApply(s, a, cfg))
  {
    StepOfLease(s, a, cfg);
    t := Step(s, Lease(a), cfg);
  }

  /** Started at 999 milliseconds, its row says second 0. */
  lemma FirstHolds(bound: int, cfg: Config) returns (run: seq<Action>, v: State)
    requires 0 <= bound
    ensures BoundedRun(Initial, run, v, bound, cfg)
    ensures Stage(v, 999, Some(FIRST_ROW), map[0 := Staged(FIRST, ENC, "a", 999)], {"a"})
  {
    hide Step, BoundedRun;
    assert BoundedRun(Initial, [], Initial, bound, cfg) by { StartsBounded(bound, cfg); }
    StepOfTick(Initial, 999, cfg);
    var t := Step(Initial, Env(Tick(999)), cfg);
    assert Stage(t, 999, None, map[], {});
    OneMore(Initial, [], Initial, Env(Tick(999)), bound, cfg);
    var u := Takes(t, BeginSave(0, ROW, UPLOAD), cfg);
    assert Stage(u, 999, None, map[0 := Saving(FIRST)], {});
    OneMore(Initial, [] + [Env(Tick(999))], t, Lease(BeginSave(0, ROW, UPLOAD)), bound, cfg);
    run := [] + [Env(Tick(999))] + [Lease(BeginSave(0, ROW, UPLOAD))];
    run, v := FirstInserts(run, u, bound, cfg);
  }

  lemma StartsBounded(bound: int, cfg: Config)
    ensures BoundedRun(Initial, [], Initial, bound, cfg)
  {
  }

  lemma FirstInserts(run0: seq<Action>, s: State, bound: int, cfg: Config) returns (run: seq<Action>, v: State)
    requires 0 <= bound && BoundedRun(Initial, run0, s, bound, cfg)
    requires Stage(s, 999, None, map[0 := Saving(FIRST)], {})
    ensures BoundedRun(Initial, run, v, bound, cfg)
    ensures Stage(v, 999, Some(FIRST_ROW), map[0 := Staged(FIRST, ENC, "a", 999)], {"a"})
  {
    hide Step, BoundedRun;
    var t := Takes(s, TryInsert(0), cfg);
    assert Stage(t, 999, Some(FIRST_ROW), map[0 := Holding(FIRST)], {});
    OneMore(Initial, run0, s, Lease(TryInsert(0)), bound, cfg);
    StepOfSave(t, WriteObject(0, ENC, "a"), cfg);
    v := Step(t, Save(WriteObject(0, ENC, "a")), cfg);
    OneMore(Initial, run0 + [Lease(TryInsert(0))], t, Save(WriteObject(0, ENC, "a")), bound, cfg);
    run := run0 + [Lease(TryInsert(0))] + [Save(WriteObject(0, ENC, "a"))];
  }

  /** At the full second the lease looks run out, while the holder is 999 milliseconds younger. */
  lemma TimePasses(run0: seq<Action>, s: State, bound: int, cfg: Config) returns (run: seq<Action>, v: State)
    requires 1 <= cfg.leaseSeconds && 1000 * (cfg.leaseSeconds - 1) < bound && BoundedRun(Initial, run0, s, bound, cfg)
    requires Stage(s, 999, Some(FIRST_ROW), map[0 := Staged(FIRST, ENC, "a", 999)], {"a"})
    ensures BoundedRun(Initial, run, v, bound, cfg)
    ensures Stage(v, 1000 * cfg.leaseSeconds, Some(FIRST_ROW), map[0 := Staged(FIRST, ENC, "a", 999)], {"a"})
  {
    hide Step, BoundedRun;
    var a := Env(Tick(1000 * cfg.leaseSeconds - 999));
    StepOfTick(s, a.env.millis, cfg);
    v := Step(s, a, cfg);
    OneMore(Initial, run0, s, a, bound, cfg);
    run := run0 + [a];
  }

  lemma SecondBegins(run0: seq<Action>, s: State, bound: int, cfg: Config) returns (run: seq<Action>, v: State)
    requires 1 <= cfg.leaseSeconds && 1000 * (cfg.leaseSeconds - 1) < bound && BoundedRun(Initial, run0, s, bound, cfg)
    requires Stage(s, 1000 * cfg.leaseSeconds, Some(FIRST_ROW), map[0 := Staged(FIRST, ENC, "a", 999)], {"a"})
    ensures BoundedRun(Initial, run, v, bound, cfg)
    ensures Stage(v, 1000 * cfg.leaseSeconds, Some(FIRST_ROW),
                  map[0 := Staged(FIRST, ENC, "a", 999), 1 := Saving(Second(cfg))], {"a"})
  {
    hide Step, BoundedRun;
    v := Takes(s, BeginSave(1, ROW, UPLOAD), cfg);
    OneMore(Initial, run0, s, Lease(BeginSave(1, ROW, UPLOAD)), bound, cfg);
    run := run0 + [Lease(BeginSave(1, ROW, UPLOAD))];
  }

  lemma SecondLosesInsert(run0: seq<Action>, s: State, bound: int, cfg: Config) returns (run: seq<Action>, v: State)
    requires 1 <= cfg.leaseSeconds && 1000 * (cfg.leaseSeconds - 1) < bound && BoundedRun(Initial, run0, s, bound, cfg)
    requires Stage(s, 1000 * cfg.leaseSeconds, Some(FIRST_ROW),
                   map[0 := Staged(FIRST, ENC, "a", 999), 1 := Saving(Second(cfg))], {"a"})
    ensures BoundedRun(Initial, run, v, bound, cfg)
    ensures Stage(v, 1000 * cfg.leaseSeconds, Some(FIRST_ROW),
                  map[0 := Staged(FIRST, ENC, "a", 999), 1 := LostInsert(Second(cfg))], {"a"})
  {
    hide Step, BoundedRun;
    v := Takes(s, TryInsert(1), cfg);
    OneMore(Initial, run0, s, Lease(TryInsert(1)), bound, cfg);
    run := run0 + [Lease(TryInsert(1))];
  }

  lemma SecondDecides(run0: seq<Action>, s: State, bound: int, cfg: Config) returns (run: seq<Action>, v: State)
    requires 1 <= cfg.leaseSeconds && 1000 * (cfg.leaseSeconds - 1) < bound && BoundedRun(Initial, run0, s, bound, cfg)
    requires Stage(s, 1000 * cfg.leaseSeconds, Some(FIRST_ROW),
                   map[0 := Staged(FIRST, ENC, "a", 999), 1 := LostInsert(Second(cfg))], {"a"})
    ensures BoundedRun(Initial, run, v, bound, cfg)
    ensures Stage(v, 1000 * cfg.leaseSeconds, Some(FIRST_ROW),
                  map[0 := Staged(FIRST, ENC, "a", 999), 1 := TakingOver(Second(cfg), FIRST_ROW)], {"a"})
  {
    hide Step, BoundedRun;
    v := Takes(s, ReadLease(1), cfg);
    OneMore(Initial, run0, s, Lease(ReadLease(1)), bound, cfg);
    run := run0 + [Lease(ReadLease(1))];
  }

  lemma SecondTakesOver(run0: seq<Action>, s: State, bound: int, cfg: Config) returns (run: seq<Action>, v: State)
    requires 1 <= cfg.leaseSeconds && 1000 * (cfg.leaseSeconds - 1) < bound && BoundedRun(Initial, run0, s, bound, cfg)
    requires Stage(s, 1000 * cfg.leaseSeconds, Some(FIRST_ROW),
                   map[0 := Staged(FIRST, ENC, "a", 999), 1 := TakingOver(Second(cfg), FIRST_ROW)], {"a"})
    ensures BoundedRun(Initial, run, v, bound, cfg)
    ensures Stage(v, 1000 * cfg.leaseSeconds, Some(FIRST_ROW.(updatedAt := cfg.leaseSeconds)),
                  map[0 := Staged(FIRST, ENC, "a", 999), 1 := Holding(Second(cfg))], {"a"})
  {
    hide Step, BoundedRun;
    v := Takes(s, UpdateLease(1), cfg);
    OneMore(Initial, run0, s, Lease(UpdateLease(1)), bound, cfg);
    run := run0 + [Lease(UpdateLease(1))];
  }

  /** `id` was saved in the first generation of the row. */
  ghost predicate SavedFirst(s: State, id: PhotoId) {
    id in s.saved && s.saved[id].row == ROW && s.saved[id].generation == 1
  }

  lemma CommitsFirst(s: State, p: nat, key: string, cfg: Config) returns (t: State)
    requires p in s.procs && s.procs[p].Staged? && s.procs[p].job.row == ROW && s.writer == None
    requires ROW in s.db.leases && s.generations == map[ROW := 1] && Fingerprint(key) !in s.db.keys
    ensures Enabled(s, Save(CommitPhoto(p, key, "secret"))) && t == Step(s, Save(CommitPhoto(p, key, "secret")), cfg)
    ensures SavedFirst(t, IdFor(s.procs[p].job, key)) && t.procs == s.procs - {p}
    ensures t.clock == s.clock && t.writer == None && ROW in t.db.leases && t.generations == s.generations
    ensures t.db.keys.Keys == s.db.keys.Keys + {Fingerprint(key)}
    ensures forall id <- s.saved :: id != IdFor(s.procs[p].job, key) ==> id in t.saved && t.saved[id] == s.saved[id]
  {
    hide CommitSave, Departed, ReceiptFor, ApplyCommit;
    t := Step(s, Save(CommitPhoto(p, key, "secret")), cfg);
    CommitShape(s, p, key, "secret", cfg);
    PurgeLaws.CommitSaveEffect(s.db, s.procs[p].job, s.procs[p].enc, s.procs[p].name, key, "secret", cfg);
  }

  lemma SecondStages(run0: seq<Action>, s: State, bound: int, cfg: Config) returns (run: seq<Action>, v: State)
    requires 1 <= cfg.leaseSeconds && 1000 * (cfg.leaseSeconds - 1) < bound && BoundedRun(Initial, run0, s, bound, cfg)
    requires Stage(s, 1000 * cfg.leaseSeconds, Some(FIRST_ROW.(updatedAt := cfg.leaseSeconds)),
                   map[0 := Staged(FIRST, ENC, "a", 999), 1 := Holding(Second(cfg))], {"a"})
    ensures BoundedRun(Initial, run, v, bound, cfg)
    ensures BothStaged(v, cfg)
  {
    hide Step, BoundedRun;
    var a := Save(WriteObject(1, ENC, "b"));
    StepOfSave(s, a.save, cfg);
    v := Step(s, a, cfg);
    OneMore(Initial, run0, s, a, bound, cfg);
    run := run0 + [a];
  }

  ghost predicate BothStaged(s: State, cfg: Config) {
    && s.clock == 1000 * cfg.leaseSeconds && s.writer == None && ROW in s.db.leases && s.generations == map[ROW := 1]
    && s.db.keys == map[] && s.saved == map[]
    && s.procs == map[0 := Staged(FIRST, ENC, "a", 999), 1 := Staged(Second(cfg), ENC, "b", 1000 * cfg.leaseSeconds)]
  }

  lemma BothSave(run0: seq<Action>, s: State, bound: int, cfg: Config) returns (run: seq<Action>, v: State)
    requires 1 <= cfg.leaseSeconds && 1000 * (cfg.leaseSeconds - 1) < bound && BoundedRun(Initial, run0, s, bound, cfg)
    requires BothStaged(s, cfg)
    ensures BoundedRun(Initial, run, v, bound, cfg)
    ensures SavedFirst(v, IdFor(FIRST, "KEY001")) && SavedFirst(v, IdFor(Second(cfg), "KEY002"))
  {
    hide Step, BoundedRun, IdFor, Enabled;
    var first, second := Save(CommitPhoto(0, "KEY001", "secret")), Save(CommitPhoto(1, "KEY002", "secret"));
    var t := CommitsFirst(s, 0, "KEY001", cfg);
    assert t.procs == map[1 := Staged(Second(cfg), ENC, "b", 1000 * cfg.leaseSeconds)];
    OneMore(Initial, run0, s, first, bound, cfg);
    v := CommitsFirst(t, 1, "KEY002", cfg);
    assert v.procs == map[];
    OneMore(Initial, run0 + [first], t, second, bound, cfg);
    run := run0 + [first] + [second];
    Distinct(cfg);
  }

  lemma Distinct(cfg: Config)
    ensures IdFor(FIRST, "KEY001") != IdFor(Second(cfg), "KEY002")
  {
    assert "KEY001"[5] != "KEY002"[5];
  }

  /** A run in which no holder lives longer than `bound` and two photos are saved for one lease. */
  lemma SlowHolderSavesTwice(bound: int, cfg: Config) returns (run: seq<Action>, t: State)
    requires 1 <= cfg.leaseSeconds && 1000 * (cfg.leaseSeconds - 1) < bound
    ensures BoundedRun(Initial, run, t, bound, cfg)
    ensures SavedFirst(t, IdFor(FIRST, "KEY001")) && SavedFirst(t, IdFor(Second(cfg), "KEY002"))
  {
    hide BoundedRun, Stage, BothStaged;
    var r0, s0 := FirstHolds(bound, cfg);
    var r1, s1 := TimePasses(r0, s0, bound, cfg);
    var r2, s2 := SecondBegins(r1, s1, bound, cfg);
    var r3, s3 := SecondLosesInsert(r2, s2, bound, cfg);
    var r4, s4 := SecondDecides(r3, s3, bound, cfg);
    var r5, s5 := SecondTakesOver(r4, s4, bound, cfg);
    var r6, s6 := SecondStages(r5, s5, bound, cfg);
    run, t := BothSave(r6, s6, bound, cfg);
  }

  /**
   A bound on how long holders live, to the millisecond: it gives one photo per lease over
   all interleavings if and only if it is at most one second less than the lease.
   */
  lemma HolderBoundIsExact(bound: int, cfg: Config)
    requires 1 <= cfg.leaseSeconds <= cfg.windowSeconds
    ensures bound <= 1000 * (cfg.leaseSeconds - 1) <==>
            forall run, t :: BoundedRun(Initial, run, t, bound, cfg) ==> OnePhotoEach(t)
  {
    hide BoundedRun, DisciplinedRun;
    if bound <= 1000 * (cfg.leaseSeconds - 1) {
      forall run, t | BoundedRun(Initial, run, t, bound, cfg) ensures OnePhotoEach(t) {
        BoundedIsDisciplined(Initial, run, t, bound, cfg);
        forall a, b | a in t.saved && b in t.saved && SameLease(t.saved[a], t.saved[b]) ensures a == b {
          OnePhotoPerLease(run, t, a, b, cfg);
        }
      }
    } else {
      var run, t := SlowHolderSavesTwice(bound, cfg);
      Distinct(cfg);
      assert SameLease(t.saved[IdFor(FIRST, "KEY001")], t.saved[IdFor(Second(cfg), "KEY002")]);
      assert !OnePhotoEach(t);
    }
  }
}
