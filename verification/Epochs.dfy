/**
 The revocation epoch: a photo leaves epoch 0 exactly when it stops being active, so every
 token issued before is refused by its epoch alone.
 */
module Epochs {
  import opened Basics
  import opened Records
  import opened Protocol
  import opened PurgeLaws
  import opened Invariant
  import opened Safety
  import opened Guarantees

  ghost predicate RecordEpochsOk(db: Db) {
    forall id <- db.photos :: IsActive(db, id) <==> db.photos[id].epoch == 0
  }

  ghost predicate GrantEpochsOk(db: Db) {
    forall token <- db.grants :: db.grants[token].epoch == 0
  }

  /** Look-ups under way have read an active record. */
  ghost predicate LookupsOk(procs: map<nat, Proc>) {
    forall p <- procs :: procs[p].Resolving? ==> procs[p].epoch == 0
  }

  ghost predicate EpochsOk(s: State) {
    RecordEpochsOk(s.db) && GrantEpochsOk(s.db) && LookupsOk(s.procs)
  }

  lemma EnvKeepsEpochs(s: State, a: EnvAction)
    requires EnvEnabled(s, a) && EpochsOk(s)
    ensures EpochsOk(EnvApply(s, a))
  {
  }

  lemma LeaseKeepsEpochs(s: State, a: LeaseAction, cfg: Config)
    requires LeaseEnabled(s, a) && EpochsOk(s)
    ensures EpochsOk(LeaseApply(s, a, cfg))
  {
    hide LeaseApply, LeaseEnabled;
    LeaseEffect(s, a, cfg);
  }

  lemma NewRecordIsFresh(db: Db, job: Job, enc: Encoded, name: Name, key: string, secret: string, cfg: Config)
    ensures
      var t := CommitSave(db, job, enc, name, key, secret, cfg);
      IdFor(job, key) in t.photos && t.photos[IdFor(job, key)].epoch == 0
  {
    hide ReceiptFor;
  }

  lemma CommitKeepsEpochs(s: State, p: nat, key: string, secret: string, cfg: Config)
    requires SaveEnabled(s, CommitPhoto(p, key, secret)) && EpochsOk(s)
    ensures EpochsOk(ApplyCommit(s, p, key, secret, cfg))
  {
    hide ApplyCommit, CommitSave, ReceiptFor;
    var q := s.procs[p];
    CommitShape(s, p, key, secret, cfg);
    CommitSaveEffect(s.db, q.job, q.enc, q.name, key, secret, cfg);
    NewRecordIsFresh(s.db, q.job, q.enc, q.name, key, secret, cfg);
  }

  lemma SaveKeepsEpochs(s: State, a: SaveAction, cfg: Config)
    requires SaveEnabled(s, a) && EpochsOk(s)
    ensures EpochsOk(SaveApply(s, a, cfg))
  {
    hide ApplyCommit;
    if a.CommitPhoto? {
      CommitKeepsEpochs(s, a.p, a.key, a.secret, cfg);
    }
  }

  lemma CloseKeepsEpochs(s: State, p: nat)
    requires PurgeEnabled(s, ClosePurge(p)) && EpochsOk(s) && ProcOk(s, p, s.procs[p]) && PhotosOk(s)
    ensures EpochsOk(ApplyClose(s, p))
  {
    hide PurgeRows, ListsDeleted, ListsExpired, ApplyClose, Closed, PhotosOk, RecordEpochsOk;
    CloseTables(s, p);
    ClosedGrants(s, p);
    ClosedEpochs(s, p);
  }

  lemma ClosedEpochs(s: State, p: nat)
    requires p in s.procs && s.procs[p].Purging? && ProcOk(s, p, s.procs[p]) && PhotosOk(s) && RecordEpochsOk(s.db)
    ensures RecordEpochsOk(Closed(s, p))
  {
    hide Closed, ProcOk, PhotosOk, IsActive;
    forall id | id in Closed(s, p).photos
      ensures IsActive(Closed(s, p), id) <==> Closed(s, p).photos[id].epoch == 0
    {
      ClosedEpoch(s, p, id);
    }
  }

  lemma ClosedGrants(s: State, p: nat)
    requires p in s.procs && s.procs[p].Purging? && GrantEpochsOk(s.db)
    ensures GrantEpochsOk(Closed(s, p))
  {
    hide Ids;
  }

  /** A purge finds records that have left epoch 0, or moves them out of it itself. */
  lemma ClosedEpoch(s: State, p: nat, id: PhotoId)
    requires p in s.procs && s.procs[p].Purging? && ProcOk(s, p, s.procs[p]) && PhotosOk(s) && RecordEpochsOk(s.db)
    requires id in Closed(s, p).photos
    ensures IsActive(Closed(s, p), id) <==> Closed(s, p).photos[id].epoch == 0
  {
    assert id in s.db.photos;
    assert RecordOf(s.db.photos[id], id, s.saved[id]);
    if id in Ids(s.procs[p].rows) {
      var i :| 0 <= i < |s.procs[p].rows| && s.procs[p].rows[i].id == id;
      assert Doomed(s, s.procs[p].rows[i].id, s.procs[p].at);
    } else {
      ClosedRecord(s, p, id);
    }
  }

  lemma PurgeKeepsEpochs(s: State, a: PurgeAction)
    requires PurgeEnabled(s, a) && EpochsOk(s) && ProcsOk(s) && PhotosOk(s)
    ensures EpochsOk(PurgeApply(s, a))
  {
    hide ListsDeleted, ListsExpired, ApplyClose, PhotosOk, ProcsOk;
    if a.ClosePurge? {
      AtItsPoint(s, a.p);
      CloseKeepsEpochs(s, a.p);
    } else if a.RevokePhoto? {
      RevokeKeepsEpochs(s.db, s.procs[a.p].id, s.procs[a.p].at);
    }
  }

  lemma AtItsPoint(s: State, p: nat)
    requires p in s.procs && ProcsOk(s)
    ensures ProcOk(s, p, s.procs[p])
  {
  }

  lemma RevokeKeepsEpochs(db: Db, id: PhotoId, at: int)
    requires RecordEpochsOk(db)
    ensures RecordEpochsOk(Revoke(db, id, at)) && Revoke(db, id, at).grants == db.grants
  {
  }

  lemma CleanKeepsEpochs(s: State, a: CleanAction, cfg: Config)
    requires CleanEnabled(s, a) && EpochsOk(s)
    ensures EpochsOk(CleanApply(s, a, cfg))
  {
    hide KnownObjects, CleanLeases;
    LeasesOnly(s.db, if a.CleanLeaseRows? then a.at else 0, cfg);
  }

  lemma LeasesOnly(db: Db, at: int, cfg: Config)
    ensures CleanLeases(db, at, cfg).photos == db.photos && CleanLeases(db, at, cfg).grants == db.grants
  {
  }

  lemma IssueKeepsEpochs(s: State, p: nat, token: Token, cfg: Config)
    requires RetrieveEnabled(s, InsertGrant(p, token)) && EpochsOk(s)
    ensures EpochsOk(ApplyIssue(s, p, token, cfg))
  {
  }

  lemma ConsumeKeepsEpochs(s: State, p: nat)
    requires RetrieveEnabled(s, ConsumeToken(p)) && EpochsOk(s)
    ensures EpochsOk(ApplyConsume(s, p))
  {
  }

  lemma RetrieveKeepsEpochs(s: State, a: RetrieveAction, cfg: Config)
    requires RetrieveEnabled(s, a) && EpochsOk(s)
    ensures EpochsOk(RetrieveApply(s, a, cfg))
  {
    hide ApplyIssue, ApplyConsume, PassesIntegrity;
    match a
    case InsertGrant(p, token) => IssueKeepsEpochs(s, p, token, cfg);
    case ConsumeToken(p) => ConsumeKeepsEpochs(s, p);
    case _ =>
  }

  lemma StampKeepsEpochs(s: State, t: State)
    requires EpochsOk(t)
    ensures EpochsOk(Stamp(s, t))
  {
    hide Departed;
  }

  lemma StepKeepsEpochs(s: State, a: Action, cfg: Config)
    requires Enabled(s, a) && EpochsOk(s) && ProcsOk(s) && PhotosOk(s)
    ensures EpochsOk(Step(s, a, cfg))
  {
    hide EnvEnabled, LeaseEnabled, SaveEnabled, PurgeEnabled, CleanEnabled, RetrieveEnabled, EnvApply, LeaseApply;
    hide SaveApply, PurgeApply, CleanApply, RetrieveApply, Stamp, EpochsOk, ProcsOk, PhotosOk;
    match a
    case Env(e) =>
      EnvKeepsEpochs(s, e);
      StampKeepsEpochs(s, EnvApply(s, e));
    case Lease(l) =>
      LeaseKeepsEpochs(s, l, cfg);
      StampKeepsEpochs(s, LeaseApply(s, l, cfg));
    case Save(v) =>
      SaveKeepsEpochs(s, v, cfg);
      StampKeepsEpochs(s, SaveApply(s, v, cfg));
    case Purge(g) =>
      PurgeKeepsEpochs(s, g);
      StampKeepsEpochs(s, PurgeApply(s, g));
    case Clean(c) =>
      CleanKeepsEpochs(s, c, cfg);
      StampKeepsEpochs(s, CleanApply(s, c, cfg));
    case Retrieve(r) =>
      RetrieveKeepsEpochs(s, r, cfg);
      StampKeepsEpochs(s, RetrieveApply(s, r, cfg));
  }

  lemma {:induction false} RunKeepsEpochs(s: State, run: seq<Action>, t: State, cfg: Config)
    requires Inv(s) && EpochsOk(s) && Reaches(s, run, t, cfg)
    ensures EpochsOk(t)
    decreases |run|
  {
    hide Step, Enabled, EpochsOk, HistoryOk, PhotosOk, KeysOk, LeasesOk, LeftOk, GrantsOk, DownloadsOk, ProcsOk;
    hide ErasureOk;
    if run != [] {
      StepKeepsEpochs(s, run[0], cfg);
      StepKeepsInv(s, run[0], cfg);
      RunKeepsEpochs(Step(s, run[0], cfg), run[1..], t, cfg);
    }
  }

  /**
   In every reachable state a token's epoch is that of its photo exactly while the photo is
   active: a revoked or expired photo refuses every token by its epoch alone, whatever its
   status says.
   */
  lemma EpochRefusesRevoked(run: seq<Action>, t: State, token: Token, cfg: Config)
    requires Reaches(Initial, run, t, cfg) && token in t.db.grants && t.db.grants[token].photo in t.db.photos
    ensures t.db.grants[token].epoch == t.db.photos[t.db.grants[token].photo].epoch <==>
            IsActive(t.db, t.db.grants[token].photo)
  {
    hide Inv, Reaches;
    InvInitial();
    RunKeepsEpochs(Initial, run, t, cfg);
  }
}
