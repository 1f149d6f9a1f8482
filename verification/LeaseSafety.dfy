/**
 One photo per lease: if every holder finishes a second before its lease runs out and
 every takeover writes the row it read, then at most one photo is committed for a lease
 row between its creation and its deletion, and all answers for it agree.
 */
module LeaseSafety {
  import opened Basics
  import opened Records
  import opened Protocol
  import opened PurgeLaws
  import opened Invariant
  import opened Safety

  predicate IsHolder(q: Proc) {
    q.Holding? || q.Staged? || q.Undoing? || q.Failing?
  }

  /** Holders finish within `lease - 1` seconds: stored times are truncated to whole seconds. */
  ghost predicate Timely(s: State, cfg: Config) {
    forall p <- s.procs :: IsHolder(s.procs[p]) ==>
      s.clock - s.procs[p].job.startedAt <= 1000 * (cfg.leaseSeconds - 1)
  }

  /** A takeover finds the row as it read it. */
  ghost predicate Undisturbed(s: State, a: Action) {
    a.Lease? && a.lease.UpdateLease? && a.lease.p in s.procs && s.procs[a.lease.p].TakingOver? ==>
      LeaseAt(s.db, s.procs[a.lease.p].job.row) == Some(s.procs[a.lease.p].seen)
  }

  ghost predicate DisciplinedRun(s: State, run: seq<Action>, t: State, cfg: Config)
    decreases |run|
  {
    && Timely(s, cfg)
    && if run == [] then s == t
       else
         Enabled(s, run[0]) && Undisturbed(s, run[0]) && DisciplinedRun(Step(s, run[0], cfg), run[1..], t, cfg)
  }

  // ----- the invariant -----

  /** The row a holder works on is marked processing, with the holder's own start. */
  ghost predicate Holds(s: State, job: Job) {
    && job.startedAt <= s.clock && job.row in s.db.leases
    && s.db.leases[job.row].status == Processing && s.db.leases[job.row].updatedAt == Iso(job.startedAt)
  }

  ghost predicate MayTake(job: Job, seen: LeaseRow, cfg: Config) {
    || seen.status == Failed
    || (seen.status == Processing && 1000 * cfg.leaseSeconds <= job.startedAt - 1000 * seen.updatedAt)
  }

  ghost predicate ClaimOk(s: State, q: Proc, cfg: Config) {
    && (IsHolder(q) ==> Holds(s, q.job))
    && (q.Saving? || q.LostInsert? || q.TakingOver? ==> q.job.startedAt <= s.clock)
    && (q.TakingOver? ==> MayTake(q.job, q.seen, cfg))
  }

  ghost predicate ClaimsOk(s: State, cfg: Config) {
    && (forall p <- s.procs :: ClaimOk(s, s.procs[p], cfg))
    && (forall p, q :: p in s.procs && q in s.procs && p != q && IsHolder(s.procs[p]) && IsHolder(s.procs[q]) ==>
          s.procs[p].job.row != s.procs[q].job.row)
  }

  /** A commit of the row's current generation is the one that completed the row. */
  ghost predicate CommitCounted(s: State, id: PhotoId) {
    && id in s.saved && s.saved[id].row in s.generations
    && var c := s.saved[id];
    && c.generation <= s.generations[c.row]
    && (c.generation == s.generations[c.row] && c.row in s.db.leases ==>
      s.db.leases[c.row].status == Completed && s.db.leases[c.row].photo == Some(id))
  }

  /** The two commits were made for the same lease row between its creation and its deletion. */
  predicate SameLease(a: Protocol.Commit, b: Protocol.Commit) {
    a.row == b.row && a.generation == b.generation
  }

  ghost predicate CommitsOk(s: State) {
    && (forall id <- s.saved :: CommitCounted(s, id))
    && (forall r <- s.db.leases :: r in s.generations)
    && (forall a, b :: a in s.saved && b in s.saved && SameLease(s.saved[a], s.saved[b]) ==> a == b)
  }

  ghost predicate LeaseInv(s: State, cfg: Config) {
    ClaimsOk(s, cfg) && CommitsOk(s)
  }

  // ----- steps that leave leases and holders alone -----

  ghost predicate SameClaims(s: State, t: State) {
    && t.db.leases == s.db.leases && t.generations == s.generations && t.saved == s.saved && s.clock <= t.clock
    && (forall p <- t.procs :: Claims(t.procs[p]) ==>
          p in s.procs && Claims(s.procs[p]) && t.procs[p].job == s.procs[p].job
          && (IsHolder(t.procs[p]) <==> IsHolder(s.procs[p]))
          && (t.procs[p].TakingOver? ==> t.procs[p] == s.procs[p]))
  }

  predicate Claims(q: Proc) {
    IsHolder(q) || q.Saving? || q.LostInsert? || q.TakingOver?
  }

  lemma SameClaimsKeep(s: State, t: State, cfg: Config)
    requires LeaseInv(s, cfg) && SameClaims(s, t)
    ensures LeaseInv(t, cfg)
  {
    forall p | p in t.procs ensures ClaimOk(t, t.procs[p], cfg) {
      if Claims(t.procs[p]) { assert ClaimOk(s, s.procs[p], cfg); }
    }
    forall id | id in t.saved ensures CommitCounted(t, id) {
      assert CommitCounted(s, id);
    }
  }

  lemma EnvSame(s: State, a: EnvAction)
    requires EnvEnabled(s, a)
    ensures SameClaims(s, EnvApply(s, a))
  {
  }

  lemma SaveSame(s: State, a: SaveAction, cfg: Config)
    requires SaveEnabled(s, a) && !a.CommitPhoto?
    ensures SameClaims(s, SaveApply(s, a, cfg))
  {
  }

  lemma CloseSame(s: State, p: nat)
    requires PurgeEnabled(s, ClosePurge(p))
    ensures SameClaims(s, ApplyClose(s, p))
  {
    hide PurgeRows, ListsDeleted, ListsExpired;
    CloseTables(s, p);
  }

  lemma RevokeTouchesPhotos(db: Db, id: PhotoId, at: int)
    ensures Revoke(db, id, at) == db.(photos := Revoke(db, id, at).photos)
  {
  }

  lemma PurgeSame(s: State, a: PurgeAction)
    requires PurgeEnabled(s, a)
    ensures SameClaims(s, PurgeApply(s, a))
  {
    hide ListsDeleted, ListsExpired, ApplyClose, Revoke, ExpirePhotos;
    if a.ClosePurge? {
      CloseSame(s, a.p);
    } else if a.RevokePhoto? {
      RevokeTouchesPhotos(s.db, s.procs[a.p].id, s.procs[a.p].at);
    }
  }

  lemma CleanSame(s: State, a: CleanAction, cfg: Config)
    requires CleanEnabled(s, a) && !a.CleanLeaseRows?
    ensures SameClaims(s, CleanApply(s, a, cfg))
  {
  }

  lemma RetrieveSame(s: State, a: RetrieveAction, cfg: Config)
    requires RetrieveEnabled(s, a)
    ensures SameClaims(s, RetrieveApply(s, a, cfg))
  {
    hide RetrieveApply, RetrieveEnabled;
    RetrieveEffect(s, a, cfg);
  }

  // ----- steps on leases -----

  lemma BeginKeeps(s: State, p: nat, row: RowKey, upload: Upload, cfg: Config)
    requires p !in s.procs && LeaseInv(s, cfg)
    ensures LeaseInv(Goto(s, p, Saving(Job(row, upload, s.clock))), cfg)
  {
    var t := Goto(s, p, Saving(Job(row, upload, s.clock)));
    forall q | q in t.procs ensures ClaimOk(t, t.procs[q], cfg) {
      if q != p { assert ClaimOk(s, s.procs[q], cfg); }
    }
    forall id | id in t.saved ensures CommitCounted(t, id) {
      assert CommitCounted(s, id);
    }
  }

  lemma InsertedRow(db: Db, job: Job)
    ensures
      var t := InsertLease(db, job);
      && t.leases.Keys == db.leases.Keys + {job.row} && t.leases[job.row].status == Processing
      && t.leases[job.row].updatedAt == Iso(job.startedAt)
      && forall r <- db.leases :: r != job.row ==> t.leases[r] == db.leases[r]
  {
  }

  lemma InsertClaim(s: State, p: nat, q: nat, cfg: Config)
    requires LeaseEnabled(s, TryInsert(p)) && q in s.procs && ClaimOk(s, s.procs[q], cfg)
    ensures
      var t := ApplyInsert(s, p);
      && q in t.procs && ClaimOk(t, t.procs[q], cfg)
      && (q != p ==> t.procs[q] == s.procs[q] && (IsHolder(s.procs[q]) ==> s.procs[q].job.row in s.db.leases))
      && (IsHolder(t.procs[p]) ==> CanInsertLease(s.db, s.procs[p].job) && t.procs[p].job == s.procs[p].job)
  {
    hide InsertLease, MayTake;
    InsertedRow(s.db, s.procs[p].job);
  }

  lemma InsertClaims(s: State, p: nat, cfg: Config)
    requires LeaseEnabled(s, TryInsert(p)) && ClaimsOk(s, cfg)
    ensures ClaimsOk(ApplyInsert(s, p), cfg)
  {
    hide ApplyInsert, ClaimOk;
    InsertDomain(s, p);
    forall q | q in s.procs
      ensures
        var t := ApplyInsert(s, p);
        && q in t.procs && ClaimOk(t, t.procs[q], cfg)
        && (q != p ==> t.procs[q] == s.procs[q] && (IsHolder(s.procs[q]) ==> s.procs[q].job.row in s.db.leases))
        && (IsHolder(t.procs[p]) ==> CanInsertLease(s.db, s.procs[p].job) && t.procs[p].job == s.procs[p].job)
    {
      InsertClaim(s, p, q, cfg);
    }
  }

  lemma InsertDomain(s: State, p: nat)
    requires LeaseEnabled(s, TryInsert(p))
    ensures ApplyInsert(s, p).procs.Keys == s.procs.Keys
  {
    hide InsertLease, CanInsertLease;
  }

  lemma InsertCommits(s: State, p: nat)
    requires LeaseEnabled(s, TryInsert(p)) && CommitsOk(s)
    ensures CommitsOk(ApplyInsert(s, p))
  {
    var t := ApplyInsert(s, p);
    forall id | id in t.saved ensures CommitCounted(t, id) {
      assert CommitCounted(s, id);
    }
  }

  /** A decided takeover claims the row only if it is failed or its lease has run out. */
  lemma DecidedMayTake(row: Option<LeaseRow>, job: Job, seen: LeaseRow, cfg: Config)
    requires DecideLease(row, job, cfg) == TakeOver(seen)
    ensures MayTake(job, seen, cfg) && row == Some(seen) && seen.upload == job.upload
  {
  }

  lemma ReadLeaseKeepsClaims(s: State, p: nat, cfg: Config)
    requires LeaseEnabled(s, ReadLease(p)) && ClaimsOk(s, cfg)
    ensures ClaimsOk(ApplyReadLease(s, p, cfg), cfg)
  {
    hide Iso, ApplyReadLease, DecideLease, LeaseAt, MayTake;
    var t := ApplyReadLease(s, p, cfg);
    var job := s.procs[p].job;
    ReadLeaseEffect(s, p, cfg);
    assert ClaimOk(s, s.procs[p], cfg);
    if p in t.procs {
      DecidedMayTake(LeaseAt(s.db, job.row), job, t.procs[p].seen, cfg);
    }
    forall q | q in t.procs ensures ClaimOk(t, t.procs[q], cfg) {
      if q != p { assert ClaimOk(s, s.procs[q], cfg); }
    }
  }

  lemma CommitsFrame(s: State, t: State)
    requires CommitsOk(s) && t.db.leases == s.db.leases && t.generations == s.generations && t.saved == s.saved
    ensures CommitsOk(t)
  {
    forall id | id in t.saved ensures CommitCounted(t, id) {
      assert CommitCounted(s, id);
    }
  }

  /** Nobody holds a row that may be taken over. */
  lemma TakenRowIsFree(s: State, p: nat, q: nat, cfg: Config)
    requires LeaseEnabled(s, UpdateLease(p)) && Undisturbed(s, Lease(UpdateLease(p))) && Timely(s, cfg)
    requires ClaimOk(s, s.procs[p], cfg) && q in s.procs && ClaimOk(s, s.procs[q], cfg)
    ensures IsHolder(s.procs[q]) ==> s.procs[q].job.row != s.procs[p].job.row
  {
  }

  lemma TakeOverClaims(s: State, p: nat, cfg: Config)
    requires LeaseEnabled(s, UpdateLease(p)) && Undisturbed(s, Lease(UpdateLease(p))) && Timely(s, cfg)
    requires ClaimsOk(s, cfg)
    ensures ClaimsOk(LeaseApply(s, UpdateLease(p), cfg), cfg)
  {
    hide Timely, Undisturbed;
    var t := LeaseApply(s, UpdateLease(p), cfg);
    assert ClaimOk(s, s.procs[p], cfg);
    assert s.procs[p].job.row in s.db.leases by { RowAsRead(s, p); }
    forall q | q in t.procs ensures ClaimOk(t, t.procs[q], cfg) {
      assert ClaimOk(s, s.procs[q], cfg);
      if q != p { TakenRowIsFree(s, p, q, cfg); }
    }
    forall q | q in t.procs && q != p && IsHolder(t.procs[q]) ensures t.procs[q].job.row != s.procs[p].job.row {
      assert ClaimOk(s, s.procs[q], cfg);
      TakenRowIsFree(s, p, q, cfg);
    }
  }

  lemma RowAsRead(s: State, p: nat)
    requires LeaseEnabled(s, UpdateLease(p)) && Undisturbed(s, Lease(UpdateLease(p)))
    ensures s.procs[p].job.row in s.db.leases && s.db.leases[s.procs[p].job.row] == s.procs[p].seen
  {
  }

  lemma TakeOverCommits(s: State, p: nat, cfg: Config)
    requires LeaseEnabled(s, UpdateLease(p)) && Undisturbed(s, Lease(UpdateLease(p)))
    requires ClaimOk(s, s.procs[p], cfg) && CommitsOk(s)
    ensures CommitsOk(LeaseApply(s, UpdateLease(p), cfg))
  {
    var t := LeaseApply(s, UpdateLease(p), cfg);
    forall id | id in t.saved ensures CommitCounted(t, id) {
      assert CommitCounted(s, id);
    }
  }

  lemma ReleaseKeeps(s: State, p: nat, cfg: Config)
    requires LeaseEnabled(s, ReleaseLease(p)) && LeaseInv(s, cfg)
    ensures LeaseInv(LeaseApply(s, ReleaseLease(p), cfg), cfg)
  {
    var t := LeaseApply(s, ReleaseLease(p), cfg);
    assert ClaimOk(s, s.procs[p], cfg);
    forall q | q in t.procs ensures ClaimOk(t, t.procs[q], cfg) {
      assert ClaimOk(s, s.procs[q], cfg);
    }
    forall id | id in t.saved ensures CommitCounted(t, id) {
      assert CommitCounted(s, id);
    }
  }

  lemma CommitClaims(s: State, p: nat, key: string, secret: string, cfg: Config)
    requires SaveEnabled(s, CommitPhoto(p, key, secret)) && ClaimsOk(s, cfg)
    ensures ClaimsOk(ApplyCommit(s, p, key, secret, cfg), cfg)
  {
    hide CommitSave, ReceiptFor;
    CommitSaveEffect(s.db, s.procs[p].job, s.procs[p].enc, s.procs[p].name, key, secret, cfg);
    var t := ApplyCommit(s, p, key, secret, cfg);
    forall q | q in t.procs ensures ClaimOk(t, t.procs[q], cfg) {
      assert ClaimOk(s, s.procs[q], cfg);
    }
  }

  lemma CommitCommits(s: State, p: nat, key: string, secret: string, cfg: Config)
    requires SaveEnabled(s, CommitPhoto(p, key, secret)) && ClaimOk(s, s.procs[p], cfg) && CommitsOk(s)
    requires IdFor(s.procs[p].job, key) !in s.saved
    ensures CommitsOk(ApplyCommit(s, p, key, secret, cfg))
  {
    hide CommitSave, ReceiptFor;
    CommitSaveEffect(s.db, s.procs[p].job, s.procs[p].enc, s.procs[p].name, key, secret, cfg);
    var t := ApplyCommit(s, p, key, secret, cfg);
    forall id | id in t.saved ensures CommitCounted(t, id) {
      if id in s.saved { assert CommitCounted(s, id); }
    }
  }

  /** Rows of live holders are too young for the cleanup. */
  lemma CleanupSpares(s: State, q: Proc, at: int, cfg: Config)
    requires IsHolder(q) && Holds(s, q.job) && at <= s.clock && cfg.leaseSeconds <= cfg.windowSeconds
    requires s.clock - q.job.startedAt <= 1000 * (cfg.leaseSeconds - 1)
    ensures q.job.row in CleanLeases(s.db, at, cfg).leases
  {
  }

  lemma CleanupKeeps(s: State, at: int, cfg: Config)
    requires CleanEnabled(s, CleanLeaseRows(at)) && LeaseInv(s, cfg) && Timely(s, cfg)
    requires cfg.leaseSeconds <= cfg.windowSeconds
    ensures LeaseInv(s.(db := CleanLeases(s.db, at, cfg)), cfg)
  {
    var t := s.(db := CleanLeases(s.db, at, cfg));
    forall q | q in t.procs ensures ClaimOk(t, t.procs[q], cfg) {
      assert ClaimOk(s, s.procs[q], cfg);
      if IsHolder(s.procs[q]) { CleanupSpares(s, s.procs[q], at, cfg); }
    }
    forall id | id in t.saved ensures CommitCounted(t, id) {
      assert CommitCounted(s, id);
    }
  }

  // ----- every action -----

  lemma StampKeepsLeases(s: State, t: State, cfg: Config)
    requires LeaseInv(t, cfg)
    ensures LeaseInv(Stamp(s, t), cfg)
  {
    hide Departed;
    SameClaimsKeep(t, Stamp(s, t), cfg);
  }

  lemma LeaseStepKeepsLeases(s: State, a: LeaseAction, cfg: Config)
    requires LeaseEnabled(s, a) && LeaseInv(s, cfg) && Timely(s, cfg) && Undisturbed(s, Lease(a))
    ensures LeaseInv(LeaseApply(s, a, cfg), cfg)
  {
    hide Timely, Undisturbed, CommitsOk, ClaimOk, ApplyInsert, ApplyReadLease, MarkFailed, TakeOverLease;
    match a {
      case BeginSave(p, row, upload) => BeginKeeps(s, p, row, upload, cfg);
      case TryInsert(p) =>
        InsertClaims(s, p, cfg);
        InsertCommits(s, p);
      case ReadLease(p) =>
        ReadLeaseKeepsClaims(s, p, cfg);
        ReadLeaseEffect(s, p, cfg);
        CommitsFrame(s, ApplyReadLease(s, p, cfg));
      case UpdateLease(p) =>
        TakeOverClaims(s, p, cfg);
        assert ClaimOk(s, s.procs[p], cfg);
        TakeOverCommits(s, p, cfg);
      case ReleaseLease(p) => ReleaseKeeps(s, p, cfg);
    }
  }

  lemma SaveStepKeepsLeases(s: State, a: SaveAction, cfg: Config)
    requires SaveEnabled(s, a) && LeaseInv(s, cfg) && KeysOk(s) && PhotosOk(s)
    ensures LeaseInv(SaveApply(s, a, cfg), cfg)
  {
    hide CommitsOk, ClaimOk, KeysOk, PhotosOk, ApplyCommit, SameClaims;
    if a.CommitPhoto? {
      CommitIsNew(s, a.p, a.key, a.secret);
      CommitClaims(s, a.p, a.key, a.secret, cfg);
      assert ClaimOk(s, s.procs[a.p], cfg);
      CommitCommits(s, a.p, a.key, a.secret, cfg);
    } else {
      SaveSame(s, a, cfg);
      SameClaimsKeep(s, SaveApply(s, a, cfg), cfg);
    }
  }

  lemma StepKeepsLeases(s: State, a: Action, cfg: Config)
    requires Enabled(s, a) && LeaseInv(s, cfg) && Timely(s, cfg) && Undisturbed(s, a) && KeysOk(s) && PhotosOk(s)
    requires cfg.leaseSeconds <= cfg.windowSeconds
    ensures LeaseInv(Step(s, a, cfg), cfg)
  {
    hide EnvEnabled, LeaseEnabled, SaveEnabled, PurgeEnabled, RetrieveEnabled, EnvApply;
    hide LeaseApply, SaveApply, PurgeApply, RetrieveApply, Stamp, LeaseInv, SameClaims, Timely, Undisturbed;
    hide KeysOk, PhotosOk;
    match a
    case Env(e) =>
      EnvSame(s, e);
      SameClaimsKeep(s, EnvApply(s, e), cfg);
      StampKeepsLeases(s, EnvApply(s, e), cfg);
    case Lease(l) =>
      LeaseStepKeepsLeases(s, l, cfg);
      StampKeepsLeases(s, LeaseApply(s, l, cfg), cfg);
    case Save(v) =>
      SaveStepKeepsLeases(s, v, cfg);
      StampKeepsLeases(s, SaveApply(s, v, cfg), cfg);
    case Purge(g) =>
      PurgeSame(s, g);
      SameClaimsKeep(s, PurgeApply(s, g), cfg);
      StampKeepsLeases(s, PurgeApply(s, g), cfg);
    case Clean(c) =>
      if c.CleanLeaseRows? {
        CleanupKeeps(s, c.at, cfg);
      } else {
        CleanSame(s, c, cfg);
        SameClaimsKeep(s, CleanApply(s, c, cfg), cfg);
      }
      StampKeepsLeases(s, CleanApply(s, c, cfg), cfg);
    case Retrieve(r) =>
      RetrieveSame(s, r, cfg);
      SameClaimsKeep(s, RetrieveApply(s, r, cfg), cfg);
      StampKeepsLeases(s, RetrieveApply(s, r, cfg), cfg);
  }

  lemma {:induction false} RunKeepsLeases(s: State, run: seq<Action>, t: State, cfg: Config)
    requires Inv(s) && LeaseInv(s, cfg) && DisciplinedRun(s, run, t, cfg) && cfg.leaseSeconds <= cfg.windowSeconds
    ensures Inv(t) && LeaseInv(t, cfg)
    decreases |run|
  {
    hide LeaseInv, Step, Enabled, Timely, Undisturbed, ProcsOk, DownloadsOk, ErasureOk;
    hide HistoryOk, PhotosOk, KeysOk, LeasesOk, LeftOk, GrantsOk;
    if run != [] {
      StepKeepsLeases(s, run[0], cfg);
      StepKeepsInv(s, run[0], cfg);
      RunKeepsLeases(Step(s, run[0], cfg), run[1..], t, cfg);
    }
  }

  lemma InitialLeases(cfg: Config)
    ensures LeaseInv(Initial, cfg)
  {
  }

  /**
   At most one photo is committed for a lease row between its creation and its deletion,
   over all interleavings of saves, failures, takeovers and cleanups.
   */
  lemma OnePhotoPerLease(run: seq<Action>, t: State, a: PhotoId, b: PhotoId, cfg: Config)
    requires DisciplinedRun(Initial, run, t, cfg) && cfg.leaseSeconds <= cfg.windowSeconds
    requires a in t.saved && b in t.saved
    requires SameLease(t.saved[a], t.saved[b])
    ensures a == b
  {
    hide Inv, ClaimsOk, DisciplinedRun;
    InvInitial();
    InitialLeases(cfg);
    RunKeepsLeases(Initial, run, t, cfg);
  }

  /** All answers given for one lease, first or replayed, carry the same receipt. */
  lemma AnswersAgree(run: seq<Action>, t: State, i: nat, j: nat, cfg: Config)
    requires DisciplinedRun(Initial, run, t, cfg) && cfg.leaseSeconds <= cfg.windowSeconds
    requires i < |t.answers| && j < |t.answers|
    requires t.answers[i].row == t.answers[j].row && t.answers[i].generation == t.answers[j].generation
    ensures t.answers[i].receipt == t.answers[j].receipt
  {
    hide DisciplinedRun, HistoryOk, PhotosOk, KeysOk, LeftOk, GrantsOk, ProcsOk, DownloadsOk, ErasureOk, LeaseInv;
    InvInitial();
    InitialLeases(cfg);
    RunKeepsLeases(Initial, run, t, cfg);
    assert AnswerOk(t, t.answers[i]) && AnswerOk(t, t.answers[j]);
    OnePhotoPerLease(run, t, t.answers[i].photo.value, t.answers[j].photo.value, cfg);
  }
}
