/**
 What a completed save is good for afterwards: as long as the cleanup window lasts, the same
 request is answered with the same receipt, whatever else happens and however often the
 worker cleans up; and no sealed receipt is kept for longer.
 */
module LeaseReplay {
  import opened Basics
  import opened Records
  import opened Protocol
  import opened PurgeLaws
  import opened Invariant
  import opened Safety
  import opened LeaseSafety
  import opened Lifetime
  import opened Worker

  // ----- a completed row, over one step -----

  ghost predicate Has(s: State, r: RowKey, row: LeaseRow) {
    r in s.db.leases && s.db.leases[r] == row
  }

  /** The row was taken so recently that no cleanup up to now deletes it. */
  predicate Recent(row: LeaseRow, clock: int, cfg: Config) {
    Iso(clock) < row.updatedAt + cfg.windowSeconds
  }

  lemma TakeoverSpares(s: State, p: nat, r: RowKey, row: LeaseRow, cfg: Config)
    requires LeaseEnabled(s, UpdateLease(p)) && Undisturbed(s, Lease(UpdateLease(p)))
    requires ClaimOk(s, s.procs[p], cfg) && Has(s, r, row) && row.status == Completed
    ensures Has(LeaseApply(s, UpdateLease(p), cfg), r, row)
  {
  }

  lemma LeaseStepSpares(s: State, a: LeaseAction, r: RowKey, row: LeaseRow, cfg: Config)
    requires LeaseEnabled(s, a) && Undisturbed(s, Lease(a)) && LeaseInv(s, cfg)
    requires Has(s, r, row) && row.status == Completed
    ensures Has(LeaseApply(s, a, cfg), r, row)
  {
    hide ClaimOk, CommitsOk, Undisturbed, DecideLease, ApplyReadLease;
    match a
    case BeginSave(_, _, _) =>
    case TryInsert(p) =>
    case ReadLease(p) => ReadLeaseEffect(s, p, cfg);
    case UpdateLease(p) =>
      assert ClaimOk(s, s.procs[p], cfg);
      TakeoverSpares(s, p, r, row, cfg);
    case ReleaseLease(p) =>
  }

  lemma CommitSpares(s: State, p: nat, key: string, secret: string, r: RowKey, row: LeaseRow, cfg: Config)
    requires SaveEnabled(s, CommitPhoto(p, key, secret)) && ClaimOk(s, s.procs[p], cfg)
    requires Has(s, r, row) && row.status == Completed
    ensures Has(ApplyCommit(s, p, key, secret, cfg), r, row)
  {
    hide ApplyCommit, CommitSave;
    CommitShape(s, p, key, secret, cfg);
    CommitSaveEffect(s.db, s.procs[p].job, s.procs[p].enc, s.procs[p].name, key, secret, cfg);
  }

  lemma SaveStepSpares(s: State, a: SaveAction, r: RowKey, row: LeaseRow, cfg: Config)
    requires SaveEnabled(s, a) && LeaseInv(s, cfg) && Has(s, r, row) && row.status == Completed
    ensures Has(SaveApply(s, a, cfg), r, row)
  {
    hide ClaimOk, CommitsOk, ApplyCommit;
    if a.CommitPhoto? {
      assert ClaimOk(s, s.procs[a.p], cfg);
      CommitSpares(s, a.p, a.key, a.secret, r, row, cfg);
    }
  }

  lemma CleaningSpares(s: State, a: CleanAction, r: RowKey, row: LeaseRow, cfg: Config)
    requires CleanEnabled(s, a) && Has(s, r, row) && Recent(row, s.clock, cfg)
    ensures Has(CleanApply(s, a, cfg), r, row)
  {
    hide CleanLeases, KnownObjects;
    if a.CleanLeaseRows? {
      CleanedLeases(s.db, a.at, cfg);
    }
  }

  lemma PurgeStepSpares(s: State, a: PurgeAction, r: RowKey, row: LeaseRow)
    requires PurgeEnabled(s, a) && Has(s, r, row)
    ensures Has(PurgeApply(s, a), r, row)
  {
    hide PurgeEnabled, PurgeApply;
    PurgeSame(s, a);
  }

  lemma RetrieveStepSpares(s: State, a: RetrieveAction, r: RowKey, row: LeaseRow, cfg: Config)
    requires RetrieveEnabled(s, a) && Has(s, r, row)
    ensures Has(RetrieveApply(s, a, cfg), r, row)
  {
    hide RetrieveEnabled, RetrieveApply;
    RetrieveSame(s, a, cfg);
  }

  lemma StampSpares(s: State, t: State, r: RowKey, row: LeaseRow)
    requires Has(t, r, row)
    ensures Has(Stamp(s, t), r, row)
  {
    hide Departed;
  }

  lemma StepSpares(s: State, a: Action, r: RowKey, row: LeaseRow, cfg: Config)
    requires Enabled(s, a) && Undisturbed(s, a) && LeaseInv(s, cfg)
    requires Has(s, r, row) && row.status == Completed && Recent(row, s.clock, cfg)
    ensures Has(Step(s, a, cfg), r, row)
  {
    hide EnvEnabled, LeaseEnabled, SaveEnabled, PurgeEnabled, CleanEnabled, RetrieveEnabled;
    hide LeaseApply, SaveApply, PurgeApply, CleanApply, RetrieveApply, Stamp, LeaseInv, Undisturbed, Recent, Has;
    match a
    case Env(e) =>
      EnvStepSpares(s, e, r, row);
      StampSpares(s, EnvApply(s, e), r, row);
    case Lease(l) =>
      LeaseStepSpares(s, l, r, row, cfg);
      StampSpares(s, LeaseApply(s, l, cfg), r, row);
    case Save(v) =>
      SaveStepSpares(s, v, r, row, cfg);
      StampSpares(s, SaveApply(s, v, cfg), r, row);
    case Purge(g) =>
      PurgeStepSpares(s, g, r, row);
      StampSpares(s, PurgeApply(s, g), r, row);
    case Clean(c) =>
      CleaningSpares(s, c, r, row, cfg);
      StampSpares(s, CleanApply(s, c, cfg), r, row);
    case Retrieve(q) =>
      RetrieveStepSpares(s, q, r, row, cfg);
      StampSpares(s, RetrieveApply(s, q, cfg), r, row);
  }

  lemma EnvStepSpares(s: State, a: EnvAction, r: RowKey, row: LeaseRow)
    requires EnvEnabled(s, a) && Has(s, r, row)
    ensures Has(EnvApply(s, a), r, row)
  {
  }

  // ----- over runs -----

  lemma {:induction false} DisciplinedReaches(s: State, run: seq<Action>, t: State, cfg: Config)
    requires DisciplinedRun(s, run, t, cfg)
    ensures Reaches(s, run, t, cfg) && Timely(s, cfg)
    decreases |run|
  {
    hide Step, Enabled, Timely, Undisturbed;
    if run != [] {
      DisciplinedReaches(Step(s, run[0], cfg), run[1..], t, cfg);
    }
  }

  lemma {:induction false} RunSpares(s: State, run: seq<Action>, t: State, r: RowKey, row: LeaseRow, cfg: Config)
    requires Inv(s) && LeaseInv(s, cfg) && DisciplinedRun(s, run, t, cfg) && cfg.leaseSeconds <= cfg.windowSeconds
    requires Has(s, r, row) && row.status == Completed && Recent(row, t.clock, cfg)
    ensures Has(t, r, row)
    decreases |run|
  {
    hide LeaseInv, Step, Enabled, Timely, Undisturbed, Has, ProcsOk, DownloadsOk, ErasureOk;
    hide HistoryOk, PhotosOk, KeysOk, LeasesOk, LeftOk, GrantsOk;
    if run != [] {
      var u := Step(s, run[0], cfg);
      DisciplinedReaches(s, run, t, cfg);
      TimeGoesOn(s, run, t, cfg);
      StepSpares(s, run[0], r, row, cfg);
      StepKeepsLeases(s, run[0], cfg);
      StepKeepsInv(s, run[0], cfg);
      RunSpares(u, run[1..], t, r, row, cfg);
    }
  }

  /** The commit leaves the row completed, stamped with the start of the save. */
  lemma CommitCompletes(s: State, p: nat, key: string, secret: string, cfg: Config)
    requires SaveEnabled(s, CommitPhoto(p, key, secret))
    ensures
      var job, t := s.procs[p].job, Step(s, Save(CommitPhoto(p, key, secret)), cfg);
      && t.clock == s.clock && job.row in t.db.leases
      && var row := t.db.leases[job.row];
      && row.status == Completed && row.upload == job.upload && row.updatedAt == Iso(job.startedAt)
      && row.envelope == Some(Sealed(ReceiptFor(job, s.procs[p].enc, key, secret, cfg)))
  {
    hide Departed, ReceiptFor, InsertPhoto, ReserveKey, ActivateKey;
  }

  /**
   A disciplined run saves a photo and goes on, with cleanups wherever they fall.  Until the
   window counted from the start of the save is over, the same request finds the row
   completed and is answered with that save's receipt.
   */
  lemma ReplayedWithinWindow(
    before: seq<Action>, s: State, p: nat, key: string, secret: string, after: seq<Action>, t: State, again: Job,
    cfg: Config)
    requires DisciplinedRun(Initial, before, s, cfg) && cfg.leaseSeconds <= cfg.windowSeconds
    requires SaveEnabled(s, CommitPhoto(p, key, secret))
    requires DisciplinedRun(Step(s, Save(CommitPhoto(p, key, secret)), cfg), after, t, cfg)
    requires Iso(t.clock) < Iso(s.procs[p].job.startedAt) + cfg.windowSeconds
    requires again.row == s.procs[p].job.row && again.upload == s.procs[p].job.upload
    ensures again.row in t.db.leases
    ensures DecideLease(LeaseAt(t.db, again.row), again, cfg) ==
            Replay(Some(Sealed(ReceiptFor(s.procs[p].job, s.procs[p].enc, key, secret, cfg))))
  {
    hide DisciplinedRun, Inv, LeaseInv, Step, SaveEnabled, ReceiptFor, Timely;
    InvInitial();
    InitialLeases(cfg);
    RunKeepsLeases(Initial, before, s, cfg);
    CommitCompletes(s, p, key, secret, cfg);
    CommitKeepsBoth(before, s, p, key, secret, cfg);
    var u := Step(s, Save(CommitPhoto(p, key, secret)), cfg);
    RunSpares(u, after, t, again.row, u.db.leases[again.row], cfg);
  }

  lemma {:induction false} EndsTimely(s: State, run: seq<Action>, t: State, cfg: Config)
    requires DisciplinedRun(s, run, t, cfg)
    ensures Timely(t, cfg)
    decreases |run|
  {
    hide Step, Enabled, Timely, Undisturbed;
    if run != [] {
      EndsTimely(Step(s, run[0], cfg), run[1..], t, cfg);
    }
  }

  lemma CommitKeepsBoth(before: seq<Action>, s: State, p: nat, key: string, secret: string, cfg: Config)
    requires DisciplinedRun(Initial, before, s, cfg) && Inv(s) && LeaseInv(s, cfg)
    requires SaveEnabled(s, CommitPhoto(p, key, secret)) && cfg.leaseSeconds <= cfg.windowSeconds
    ensures Inv(Step(s, Save(CommitPhoto(p, key, secret)), cfg))
    ensures LeaseInv(Step(s, Save(CommitPhoto(p, key, secret)), cfg), cfg)
  {
    hide DisciplinedRun, Step, SaveEnabled, Timely, LeaseInv, ProcsOk, DownloadsOk, ErasureOk;
    hide HistoryOk, PhotosOk, KeysOk, LeasesOk, LeftOk, GrantsOk;
    EndsTimely(Initial, before, s, cfg);
    StepKeepsInv(s, Save(CommitPhoto(p, key, secret)), cfg);
    StepKeepsLeases(s, Save(CommitPhoto(p, key, secret)), cfg);
  }

  // ----- no envelope outlives the window -----

  /** A sealed receipt lies only in the completed row of its commit, whose times are not later than that. */
  ghost predicate SealOk(s: State, row: LeaseRow) {
    && row.createdAt <= Iso(s.clock) && row.updatedAt <= Iso(s.clock)
    && (row.envelope.Some? ==>
      && row.status == Completed && row.photo.Some? && row.photo.value in s.saved
      && row.createdAt <= Iso(s.saved[row.photo.value].committedAt)
      && row.updatedAt <= Iso(s.saved[row.photo.value].committedAt))
  }

  ghost predicate SealsOk(s: State) {
    forall r <- s.db.leases :: SealOk(s, s.db.leases[r])
  }

  /** Rows of `t` are rows of `s`, whose commits are still known. */
  ghost predicate FewerRows(s: State, t: State) {
    && s.clock <= t.clock && t.saved == s.saved
    && forall r <- t.db.leases :: r in s.db.leases && t.db.leases[r] == s.db.leases[r]
  }

  lemma FewerRowsKeep(s: State, t: State)
    requires SealsOk(s) && FewerRows(s, t)
    ensures SealsOk(t)
  {
    forall r | r in t.db.leases ensures SealOk(t, t.db.leases[r]) {
      assert SealOk(s, s.db.leases[r]);
    }
  }

  lemma InsertKeepsSeals(s: State, p: nat, cfg: Config)
    requires LeaseEnabled(s, TryInsert(p)) && SealsOk(s) && ClaimOk(s, s.procs[p], cfg)
    ensures SealsOk(ApplyInsert(s, p))
  {
    var t := ApplyInsert(s, p);
    forall r | r in t.db.leases ensures SealOk(t, t.db.leases[r]) {
      if r in s.db.leases { assert SealOk(s, s.db.leases[r]); }
    }
  }

  lemma TakeoverKeepsSeals(s: State, p: nat, cfg: Config)
    requires LeaseEnabled(s, UpdateLease(p)) && Undisturbed(s, Lease(UpdateLease(p)))
    requires SealsOk(s) && ClaimOk(s, s.procs[p], cfg)
    ensures SealsOk(LeaseApply(s, UpdateLease(p), cfg))
  {
    hide Undisturbed;
    RowAsRead(s, p);
    var t := LeaseApply(s, UpdateLease(p), cfg);
    assert SealOk(s, s.db.leases[s.procs[p].job.row]);
    forall r | r in t.db.leases ensures SealOk(t, t.db.leases[r]) {
      assert SealOk(s, s.db.leases[r]);
    }
  }

  lemma ReleaseKeepsSeals(s: State, p: nat, cfg: Config)
    requires LeaseEnabled(s, ReleaseLease(p)) && SealsOk(s) && ClaimOk(s, s.procs[p], cfg)
    ensures SealsOk(LeaseApply(s, ReleaseLease(p), cfg))
  {
    var t := LeaseApply(s, ReleaseLease(p), cfg);
    forall r | r in t.db.leases ensures SealOk(t, t.db.leases[r]) {
      assert SealOk(s, s.db.leases[r]);
    }
  }

  lemma LeaseKeepsSeals(s: State, a: LeaseAction, cfg: Config)
    requires LeaseEnabled(s, a) && Undisturbed(s, Lease(a)) && LeaseInv(s, cfg) && SealsOk(s)
    ensures SealsOk(LeaseApply(s, a, cfg))
  {
    hide ClaimOk, CommitsOk, Undisturbed, ApplyReadLease, ApplyInsert, TakeOverLease, MarkFailed, SealsOk;
    assert !a.BeginSave? ==> ClaimOk(s, s.procs[a.p], cfg);
    match a
    case BeginSave(p, row, upload) => FewerRowsKeep(s, LeaseApply(s, a, cfg));
    case TryInsert(p) => InsertKeepsSeals(s, p, cfg);
    case ReadLease(p) =>
      ReadLeaseEffect(s, p, cfg);
      FewerRowsKeep(s, ApplyReadLease(s, p, cfg));
    case UpdateLease(p) => TakeoverKeepsSeals(s, p, cfg);
    case ReleaseLease(p) => ReleaseKeepsSeals(s, p, cfg);
  }

  lemma CommitKeepsSeals(s: State, p: nat, key: string, secret: string, cfg: Config)
    requires SaveEnabled(s, CommitPhoto(p, key, secret)) && SealsOk(s) && ClaimOk(s, s.procs[p], cfg)
    requires IdFor(s.procs[p].job, key) !in s.saved
    ensures SealsOk(ApplyCommit(s, p, key, secret, cfg))
  {
    hide ApplyCommit, CommitSave, ReceiptFor;
    CommitShape(s, p, key, secret, cfg);
    CommitSaveEffect(s.db, s.procs[p].job, s.procs[p].enc, s.procs[p].name, key, secret, cfg);
    CommitStampsRow(s.db, s.procs[p].job, s.procs[p].enc, s.procs[p].name, key, secret, cfg);
    var t := ApplyCommit(s, p, key, secret, cfg);
    forall r | r in t.db.leases ensures SealOk(t, t.db.leases[r]) {
      if r in s.db.leases { assert SealOk(s, s.db.leases[r]); }
    }
  }

  lemma CommitStampsRow(
    db: Db, job: Job, enc: Encoded, name: Name, key: string, secret: string, cfg: Config)
    ensures
      var t := CommitSave(db, job, enc, name, key, secret, cfg);
      && job.row in t.leases && t.leases[job.row].updatedAt == Iso(job.startedAt)
      && t.leases[job.row].createdAt ==
         if job.row in db.leases then db.leases[job.row].createdAt else Iso(job.startedAt)
  {
    hide ReceiptFor;
  }

  lemma SaveKeepsSeals(s: State, a: SaveAction, cfg: Config)
    requires SaveEnabled(s, a) && LeaseInv(s, cfg) && SealsOk(s) && KeysOk(s) && PhotosOk(s)
    ensures SealsOk(SaveApply(s, a, cfg))
  {
    hide ClaimOk, CommitsOk, ApplyCommit, SealsOk, KeysOk, PhotosOk;
    if a.CommitPhoto? {
      CommitIsNew(s, a.p, a.key, a.secret);
      assert ClaimOk(s, s.procs[a.p], cfg);
      CommitKeepsSeals(s, a.p, a.key, a.secret, cfg);
    } else {
      FewerRowsKeep(s, SaveApply(s, a, cfg));
    }
  }

  lemma CleanKeepsSeals(s: State, a: CleanAction, cfg: Config)
    requires CleanEnabled(s, a) && SealsOk(s)
    ensures SealsOk(CleanApply(s, a, cfg))
  {
    hide SealsOk, KnownObjects;
    FewerRowsKeep(s, CleanApply(s, a, cfg));
  }

  lemma PurgeKeepsSeals(s: State, a: PurgeAction)
    requires PurgeEnabled(s, a) && SealsOk(s)
    ensures SealsOk(PurgeApply(s, a))
  {
    hide SealsOk, PurgeEnabled, PurgeApply;
    PurgeSame(s, a);
    FewerRowsKeep(s, PurgeApply(s, a));
  }

  lemma RetrieveKeepsSeals(s: State, a: RetrieveAction, cfg: Config)
    requires RetrieveEnabled(s, a) && SealsOk(s)
    ensures SealsOk(RetrieveApply(s, a, cfg))
  {
    hide SealsOk, RetrieveEnabled, RetrieveApply;
    RetrieveSame(s, a, cfg);
    FewerRowsKeep(s, RetrieveApply(s, a, cfg));
  }

  lemma StampKeepsSeals(s: State, t: State)
    requires SealsOk(t)
    ensures SealsOk(Stamp(s, t))
  {
    hide Departed;
    FewerRowsKeep(t, Stamp(s, t));
  }

  lemma StepKeepsSeals(s: State, a: Action, cfg: Config)
    requires Enabled(s, a) && Undisturbed(s, a) && LeaseInv(s, cfg) && SealsOk(s) && KeysOk(s) && PhotosOk(s)
    ensures SealsOk(Step(s, a, cfg))
  {
    hide EnvEnabled, LeaseEnabled, SaveEnabled, PurgeEnabled, CleanEnabled, RetrieveEnabled, KeysOk, PhotosOk;
    hide LeaseApply, SaveApply, PurgeApply, CleanApply, RetrieveApply, Stamp, LeaseInv, Undisturbed, SealsOk;
    match a
    case Env(e) =>
      FewerRowsKeep(s, EnvApply(s, e));
      StampKeepsSeals(s, EnvApply(s, e));
    case Lease(l) =>
      LeaseKeepsSeals(s, l, cfg);
      StampKeepsSeals(s, LeaseApply(s, l, cfg));
    case Save(v) =>
      SaveKeepsSeals(s, v, cfg);
      StampKeepsSeals(s, SaveApply(s, v, cfg));
    case Purge(g) =>
      PurgeKeepsSeals(s, g);
      StampKeepsSeals(s, PurgeApply(s, g));
    case Clean(c) =>
      CleanKeepsSeals(s, c, cfg);
      StampKeepsSeals(s, CleanApply(s, c, cfg));
    case Retrieve(q) =>
      RetrieveKeepsSeals(s, q, cfg);
      StampKeepsSeals(s, RetrieveApply(s, q, cfg));
  }

  lemma {:induction false} RunKeepsSeals(s: State, run: seq<Action>, t: State, cfg: Config)
    requires Inv(s) && LeaseInv(s, cfg) && SealsOk(s)
    requires DisciplinedRun(s, run, t, cfg) && cfg.leaseSeconds <= cfg.windowSeconds
    ensures Inv(t) && SealsOk(t)
    decreases |run|
  {
    hide LeaseInv, SealsOk, Step, Enabled, Timely, Undisturbed, ProcsOk, DownloadsOk, ErasureOk;
    hide HistoryOk, PhotosOk, KeysOk, LeasesOk, LeftOk, GrantsOk;
    if run != [] {
      StepKeepsSeals(s, run[0], cfg);
      StepKeepsLeases(s, run[0], cfg);
      StepKeepsInv(s, run[0], cfg);
      RunKeepsSeals(Step(s, run[0], cfg), run[1..], t, cfg);
    }
  }

  /** The sealed receipt is that of a commit made within the window. */
  ghost predicate SealedWithin(s: State, row: LeaseRow, now: int, cfg: Config) {
    && row.photo.Some? && row.photo.value in s.saved
    && row.envelope == Some(Sealed(s.saved[row.photo.value].receipt))
    && Iso(now) < Iso(s.saved[row.photo.value].committedAt) + cfg.windowSeconds
  }

  /** After a round of the worker, every sealed receipt left is that of a save committed within the window. */
  lemma NoReceiptOutlivesTheWindow(run: seq<Action>, s: State, at: Times, cfg: Config)
    requires DisciplinedRun(Initial, run, s, cfg) && cfg.leaseSeconds <= cfg.windowSeconds
    ensures
      var t := RoundDb(s.db, at, cfg);
      forall r <- t.leases :: t.leases[r].envelope.Some? ==> SealedWithin(s, t.leases[r], at.leases, cfg)
  {
    hide DisciplinedRun, RoundDb, LeaseInv, HistoryOk, PhotosOk, KeysOk, LeftOk, GrantsOk, ProcsOk, DownloadsOk;
    hide ErasureOk;
    InvInitial();
    InitialLeases(cfg);
    RunKeepsSeals(Initial, run, s, cfg);
    RoundKeepsRecentLeases(s, at, cfg);
    forall r | r in RoundDb(s.db, at, cfg).leases && RoundDb(s.db, at, cfg).leases[r].envelope.Some?
      ensures SealedWithin(s, RoundDb(s.db, at, cfg).leases[r], at.leases, cfg)
    {
      assert SealOk(s, s.db.leases[r]) && LeaseRowOk(s, r, s.db.leases[r]);
    }
  }
}
