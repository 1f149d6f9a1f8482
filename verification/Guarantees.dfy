/** What a user of the staging service can rely on, for every run from the empty service. */
module Guarantees {
  import opened Basics
  import opened Records
  import opened Protocol
  import opened PurgeLaws
  import opened Invariant
  import opened Safety

  // ----- history only grows -----

  ghost predicate HistoryGrows(s: State, t: State) {
    && s.steps <= t.steps && s.saved.Keys <= t.saved.Keys && s.leftActive.Keys <= t.leftActive.Keys
    && (forall id <- s.saved :: t.saved[id] == s.saved[id])
    && (forall id <- s.leftActive :: t.leftActive[id] == s.leftActive[id])
  }

  /** Before the stamp: only a commit adds to the history, under a new photo id. */
  ghost predicate HistoryKept(s: State, t: State) {
    && t.steps == s.steps && t.leftActive == s.leftActive
    && forall id <- s.saved :: id in t.saved && t.saved[id] == s.saved[id]
  }

  lemma StampGrows(s: State, t: State)
    requires LeftOk(s) && HistoryKept(s, t)
    ensures HistoryGrows(s, Stamp(s, t))
  {
  }

  lemma SaveKeepsHistory(s: State, a: SaveAction, cfg: Config)
    requires SaveEnabled(s, a) && KeysOk(s) && PhotosOk(s)
    ensures HistoryKept(s, SaveApply(s, a, cfg))
  {
    hide CommitSave, ReceiptFor;
    if a.CommitPhoto? {
      CommitIsNew(s, a.p, a.key, a.secret);
    }
  }

  lemma LeaseKeepsHistory(s: State, a: LeaseAction, cfg: Config)
    requires LeaseEnabled(s, a)
    ensures HistoryKept(s, LeaseApply(s, a, cfg))
  {
    hide LeaseApply, LeaseEnabled;
    LeaseEffect(s, a, cfg);
  }

  lemma PurgeKeepsHistory(s: State, a: PurgeAction)
    requires PurgeEnabled(s, a)
    ensures HistoryKept(s, PurgeApply(s, a))
  {
    hide ListsDeleted, ListsExpired, PurgeRows, ExpirePhotos, Revoke;
  }

  lemma RetrieveKeepsHistory(s: State, a: RetrieveAction, cfg: Config)
    requires RetrieveEnabled(s, a)
    ensures HistoryKept(s, RetrieveApply(s, a, cfg))
  {
    hide RetrieveApply, RetrieveEnabled;
    RetrieveEffect(s, a, cfg);
  }

  lemma CleanKeepsHistory(s: State, a: CleanAction, cfg: Config)
    requires CleanEnabled(s, a)
    ensures HistoryKept(s, CleanApply(s, a, cfg))
  {
    hide CleanLeases, CleanGrants, CleanPhotos, KnownObjects;
  }

  lemma StepGrows(s: State, a: Action, cfg: Config)
    requires Enabled(s, a) && KeysOk(s) && PhotosOk(s) && LeftOk(s)
    ensures HistoryGrows(s, Step(s, a, cfg))
  {
    hide EnvEnabled, LeaseEnabled, SaveEnabled, PurgeEnabled, CleanEnabled, RetrieveEnabled;
    hide LeaseApply, SaveApply, PurgeApply, CleanApply, RetrieveApply, Stamp, KeysOk, PhotosOk, LeftOk, HistoryGrows;
    match a {
      case Env(e) => StampGrows(s, EnvApply(s, e));
      case Lease(l) =>
        LeaseKeepsHistory(s, l, cfg);
        StampGrows(s, LeaseApply(s, l, cfg));
      case Save(v) =>
        SaveKeepsHistory(s, v, cfg);
        StampGrows(s, SaveApply(s, v, cfg));
      case Purge(g) =>
        PurgeKeepsHistory(s, g);
        StampGrows(s, PurgeApply(s, g));
      case Clean(c) =>
        CleanKeepsHistory(s, c, cfg);
        StampGrows(s, CleanApply(s, c, cfg));
      case Retrieve(r) =>
        RetrieveKeepsHistory(s, r, cfg);
        StampGrows(s, RetrieveApply(s, r, cfg));
    }
  }

  lemma {:induction false} RunGrows(s: State, run: seq<Action>, t: State, cfg: Config)
    requires Inv(s) && Reaches(s, run, t, cfg)
    ensures HistoryGrows(s, t)
    decreases |run|
  {
    hide Step, Enabled, HistoryOk, PhotosOk, KeysOk, LeasesOk, LeftOk, GrantsOk, DownloadsOk, ProcsOk, ErasureOk;
    if run != [] {
      StepGrows(s, run[0], cfg);
      StepKeepsInv(s, run[0], cfg);
      RunGrows(Step(s, run[0], cfg), run[1..], t, cfg);
    }
  }

  lemma ReachableInv(run: seq<Action>, t: State, cfg: Config)
    requires Reaches(Initial, run, t, cfg)
    ensures Inv(t)
  {
    hide Inv, Reaches;
    InvInitial();
    RunKeepsInv(Initial, run, t, cfg);
  }

  // ----- keys -----

  /** `id` is the photo of exactly one active key: the one printed in its own record. */
  ghost predicate HasItsKey(db: Db, id: PhotoId) {
    && id in db.photos && db.photos[id].fingerprint in db.keys
    && forall f <- db.keys ::
      db.keys[f].state == KeyActive && db.keys[f].photo == Some(id) <==> f == db.photos[id].fingerprint
  }

  /** An active key row names an existing record of its own photo, not yet purged. */
  ghost predicate LeadsToPhoto(db: Db, f: Fingerprint) {
    && f in db.keys && db.keys[f].photo.Some?
    && var id := db.keys[f].photo.value;
    && id in db.photos && db.photos[id].fingerprint == f && db.photos[id].status != Purged
  }

  lemma KeyLedger(t: State)
    requires KeysOk(t) && PhotosOk(t)
    ensures forall id <- t.db.photos :: IsActive(t.db, id) ==> HasItsKey(t.db, id)
    ensures forall f <- t.db.keys :: t.db.keys[f].state == KeyActive ==> LeadsToPhoto(t.db, f)
    ensures forall f <- t.db.keys :: t.db.keys[f].state != KeyReserved
  {
    forall f | f in t.db.keys ensures t.db.keys[f].state != KeyReserved {
      assert KeyRowOk(t.db, f, t.db.keys[f]);
    }
    forall f | f in t.db.keys && t.db.keys[f].state == KeyActive ensures LeadsToPhoto(t.db, f) {
      assert KeyRowOk(t.db, f, t.db.keys[f]);
    }
    forall id | id in t.db.photos && IsActive(t.db, id) ensures HasItsKey(t.db, id) {
      forall f | f in t.db.keys
        ensures t.db.keys[f].state == KeyActive && t.db.keys[f].photo == Some(id) <==> f == t.db.photos[id].fingerprint
      {
        assert KeyRowOk(t.db, f, t.db.keys[f]);
      }
    }
  }

  /**
   No key is issued twice, even after its photo has been purged and its record deleted;
   no reservation is left behind; an active photo has exactly one active key, and an
   active key leads to an existing photo that has not been purged.
   */
  lemma KeysAreSafe(run: seq<Action>, t: State, cfg: Config)
    requires Reaches(Initial, run, t, cfg)
    ensures forall i, j :: 0 <= i < j < |t.issued| ==> t.issued[i] != t.issued[j]
    ensures forall f <- t.db.keys :: f in t.issued && t.db.keys[f].state != KeyReserved
    ensures forall id <- t.db.photos :: IsActive(t.db, id) ==> HasItsKey(t.db, id)
    ensures forall f <- t.db.keys :: t.db.keys[f].state == KeyActive ==> LeadsToPhoto(t.db, f)
  {
    hide LeasesOk, LeftOk, GrantsOk, DownloadsOk, ProcsOk, ErasureOk, Reaches, HasItsKey, LeadsToPhoto;
    ReachableInv(run, t, cfg);
    KeyLedger(t);
  }

  // ----- revocation -----

  lemma CheckedBefore(s: State, t: State, id: PhotoId)
    requires LeftOk(s) && LeftOk(t) && DownloadsOk(t) && HistoryGrows(s, t)
    requires id in s.saved && !IsActive(s.db, id)
    ensures !IsActive(t.db, id)
    ensures forall d <- t.downloads :: d.id == id ==> d.checkedAt < s.steps
  {
    forall d | d in t.downloads && d.id == id ensures d.checkedAt < s.steps {
      assert DownloadOk(t, d);
    }
  }

  /**
   Once a saved photo is no longer active it is never active again, and every download
   of it, whenever its token was issued, made its photo check before that.
   */
  lemma RevocationIsFinal(before: seq<Action>, s: State, after: seq<Action>, t: State, id: PhotoId, cfg: Config)
    requires Reaches(Initial, before, s, cfg) && Reaches(s, after, t, cfg)
    requires id in s.saved && !IsActive(s.db, id)
    ensures !IsActive(t.db, id)
    ensures forall d <- t.downloads :: d.id == id ==> d.checkedAt < s.steps
  {
    hide HistoryOk, PhotosOk, KeysOk, LeasesOk, LeftOk, GrantsOk, DownloadsOk, ProcsOk, ErasureOk;
    hide Reaches, HistoryGrows;
    ReachableInv(before, s, cfg);
    RunKeepsInv(s, after, t, cfg);
    RunGrows(s, after, t, cfg);
    CheckedBefore(s, t, id);
  }

  /** A token serves bytes at most once, and they are the bytes the photo was saved with. */
  lemma DownloadsAreExactAndSingle(run: seq<Action>, t: State, cfg: Config)
    requires Reaches(Initial, run, t, cfg)
    ensures forall i, j :: 0 <= i < j < |t.downloads| ==> t.downloads[i].token != t.downloads[j].token
    ensures forall d <- t.downloads :: d.id in t.saved && d.data == t.saved[d.id].data
  {
    hide Ledger, ProcsOk, ErasureOk, Reaches;
    ReachableInv(run, t, cfg);
    forall d | d in t.downloads ensures d.id in t.saved && d.data == t.saved[d.id].data {
      assert DownloadOk(t, d);
    }
  }

  /** Bytes whose record says purged, or whose record is gone, are not on disk. */
  lemma PurgedBytesAreGone(run: seq<Action>, t: State, id: PhotoId, cfg: Config)
    requires Reaches(Initial, run, t, cfg)
    requires id in t.saved && (id !in t.db.photos || t.db.photos[id].status == Purged)
    ensures t.saved[id].name !in t.disk
  {
    hide Ledger, ProcsOk, DownloadsOk, Reaches;
    ReachableInv(run, t, cfg);
  }

  // ----- saving is all or nothing -----

  /** A completed lease row, its photo and its receipt stem from one commit. */
  ghost predicate Complete(db: Db, row: RowKey, id: PhotoId, receipt: Receipt) {
    && row in db.leases && db.leases[row].status == Completed
    && db.leases[row].photo == Some(id) && db.leases[row].envelope == Some(Sealed(receipt))
  }

  /**
   The commit of a save makes photo, active key and sealed receipt appear together;
   the receipt opens with the key that retrieves the photo.
   */
  lemma CommitIsWhole(s: State, p: nat, key: string, secret: string, cfg: Config)
    requires SaveEnabled(s, CommitPhoto(p, key, secret))
    ensures
      var job := s.procs[p].job;
      var id := IdFor(job, key);
      var t := Step(s, Save(CommitPhoto(p, key, secret)), cfg);
      && IsActive(t.db, id) && t.db.photos[id].name == s.procs[p].name
      && t.db.keys[Fingerprint(key)] == KeyRow(KeyActive, Some(id))
      && exists receipt ::
           Complete(t.db, job.row, id, receipt) && receipt.key == key && receipt.deleteSecret == secret
  {
    CommitSaveEffect(s.db, s.procs[p].job, s.procs[p].enc, s.procs[p].name, key, secret, cfg);
    var receipt := ReceiptFor(s.procs[p].job, s.procs[p].enc, key, secret, cfg);
    assert Complete(ApplyCommit(s, p, key, secret, cfg).db, s.procs[p].job.row, IdFor(s.procs[p].job, key), receipt);
  }

  ghost predicate CreatesNothing(s: Db, t: Db) {
    && t.photos.Keys <= s.photos.Keys && t.keys.Keys == s.keys.Keys
    && (forall row <- t.leases :: t.leases[row].status == Completed ==>
          row in s.leases && t.leases[row] == s.leases[row])
  }

  lemma SaveCreatesNothing(s: State, a: SaveAction, cfg: Config)
    requires SaveEnabled(s, a) && !a.CommitPhoto?
    ensures CreatesNothing(s.db, SaveApply(s, a, cfg).db)
  {
  }

  lemma ReadLeaseChangesNothing(s: State, p: nat, cfg: Config)
    requires LeaseEnabled(s, ReadLease(p))
    ensures ApplyReadLease(s, p, cfg).db == s.db && ApplyReadLease(s, p, cfg).disk == s.disk
  {
    hide ApplyReadLease;
    ReadLeaseEffect(s, p, cfg);
  }

  lemma LeaseCreatesNothing(s: State, a: LeaseAction, cfg: Config)
    requires LeaseEnabled(s, a)
    ensures CreatesNothing(s.db, LeaseApply(s, a, cfg).db)
  {
    hide DecideLease, ApplyReadLease;
    if a.ReadLease? {
      ReadLeaseChangesNothing(s, a.p, cfg);
    }
  }

  lemma CloseCreatesNothing(s: State, p: nat)
    requires PurgeEnabled(s, ClosePurge(p))
    ensures CreatesNothing(s.db, ApplyClose(s, p).db)
  {
    hide PurgeRows, ListsDeleted, ListsExpired;
    CloseTables(s, p);
  }

  lemma PurgeCreatesNothing(s: State, a: PurgeAction)
    requires PurgeEnabled(s, a)
    ensures CreatesNothing(s.db, PurgeApply(s, a).db)
  {
    hide ListsDeleted, ListsExpired, ApplyClose;
    if a.ClosePurge? {
      CloseCreatesNothing(s, a.p);
    }
  }

  lemma RetrieveCreatesNothing(s: State, a: RetrieveAction, cfg: Config)
    requires RetrieveEnabled(s, a)
    ensures CreatesNothing(s.db, RetrieveApply(s, a, cfg).db)
  {
    hide RetrieveApply, RetrieveEnabled;
    RetrieveEffect(s, a, cfg);
  }

  /**
   Nothing but the commit of a save creates a photo or a key or completes a lease: a save
   that crashes or fails at any other point leaves none of the three.
   */
  lemma OnlyCommitCreates(s: State, a: Action, cfg: Config)
    requires Enabled(s, a) && !(a.Save? && a.save.CommitPhoto?)
    ensures CreatesNothing(s.db, Step(s, a, cfg).db)
  {
    hide CreatesNothing, EnvEnabled, LeaseEnabled, SaveEnabled, PurgeEnabled, RetrieveEnabled;
    hide LeaseApply, SaveApply, PurgeApply, RetrieveApply;
    match a
    case Env(e) => NothingCreated(s.db);
    case Lease(l) => LeaseCreatesNothing(s, l, cfg);
    case Save(v) => SaveCreatesNothing(s, v, cfg);
    case Purge(g) => PurgeCreatesNothing(s, g);
    case Clean(c) => CleanCreatesNothing(s, c, cfg);
    case Retrieve(r) => RetrieveCreatesNothing(s, r, cfg);
  }

  lemma NothingCreated(db: Db)
    ensures CreatesNothing(db, db)
  {
  }

  lemma CleanCreatesNothing(s: State, a: CleanAction, cfg: Config)
    requires CleanEnabled(s, a)
    ensures CreatesNothing(s.db, CleanApply(s, a, cfg).db)
  {
  }

  /**
   In every reachable state, a save that finds a completed row with its own content is
   answered with the sealed receipt, which is that of the very commit that completed the row
   in its present generation, and changes neither table nor disk.
   */
  lemma ReplayIsFaithful(run: seq<Action>, s: State, p: nat, cfg: Config)
    requires Reaches(Initial, run, s, cfg) && LeaseEnabled(s, ReadLease(p))
    requires
      var job := s.procs[p].job;
      job.row in s.db.leases && s.db.leases[job.row].status == Completed && s.db.leases[job.row].upload == job.upload
    ensures
      var job := s.procs[p].job;
      var row := s.db.leases[job.row];
      var t := Step(s, Lease(ReadLease(p)), cfg);
      && t.db == s.db && t.disk == s.disk
      && row.photo.Some? && row.photo.value in s.saved
      && var c := s.saved[row.photo.value];
      && c.row == job.row && c.upload == job.upload && c.generation == Generation(s, job.row)
      && row.envelope == Some(Sealed(c.receipt))
      && t.answers == s.answers + [Answer(job.row, c.generation, job.upload, row.photo, c.receipt)]
  {
    hide HistoryOk, PhotosOk, KeysOk, LeftOk, GrantsOk, ProcsOk, DownloadsOk, ErasureOk, Reaches;
    ReachableInv(run, s, cfg);
    var job := s.procs[p].job;
    assert LeaseRowOk(s, job.row, s.db.leases[job.row]);
  }

  // ----- a completed row stays -----

  /** The row is as it was. */
  ghost predicate SameRow(db: Db, t: Db, row: RowKey) {
    row in db.leases && row in t.leases && t.leases[row] == db.leases[row]
  }

  /** The action is a takeover or a commit by a process that works on the row, or a cleanup of rows that old. */
  ghost predicate MayTouch(s: State, a: Action, row: RowKey, cfg: Config)
    requires row in s.db.leases
  {
    || (a.Lease? && a.lease.UpdateLease? && a.lease.p in s.procs && s.procs[a.lease.p].TakingOver?
        && s.procs[a.lease.p].job.row == row)
    || (a.Save? && a.save.CommitPhoto? && a.save.p in s.procs && s.procs[a.save.p].Staged?
        && s.procs[a.save.p].job.row == row)
    || (a.Clean? && a.clean.CleanLeaseRows?
        && s.db.leases[row].createdAt + cfg.windowSeconds <= Iso(a.clean.at)
        && s.db.leases[row].updatedAt + cfg.windowSeconds <= Iso(a.clean.at))
  }

  lemma InsertKeepsRows(s: State, p: nat, row: RowKey)
    requires LeaseEnabled(s, TryInsert(p)) && row in s.db.leases
    ensures SameRow(s.db, ApplyInsert(s, p).db, row)
  {
  }

  lemma ReleaseKeepsCompleted(s: State, p: nat, row: RowKey, cfg: Config)
    requires LeaseEnabled(s, ReleaseLease(p)) && row in s.db.leases && s.db.leases[row].status == Completed
    ensures SameRow(s.db, LeaseApply(s, ReleaseLease(p), cfg).db, row)
  {
  }

  lemma TakeoverKeepsOthers(s: State, p: nat, row: RowKey, cfg: Config)
    requires LeaseEnabled(s, UpdateLease(p)) && row in s.db.leases && s.procs[p].job.row != row
    ensures SameRow(s.db, LeaseApply(s, UpdateLease(p), cfg).db, row)
  {
  }

  lemma LeaseKeepsCompleted(s: State, a: LeaseAction, row: RowKey, cfg: Config)
    requires LeaseEnabled(s, a) && row in s.db.leases && s.db.leases[row].status == Completed
    ensures SameRow(s.db, LeaseApply(s, a, cfg).db, row) || MayTouch(s, Lease(a), row, cfg)
  {
    hide DecideLease, ApplyReadLease, ApplyInsert, TakeOverLease, MarkFailed;
    match a
    case BeginSave(_, _, _) =>
    case TryInsert(p) => InsertKeepsRows(s, p, row);
    case ReadLease(p) => ReadLeaseChangesNothing(s, p, cfg);
    case UpdateLease(p) =>
      if s.procs[p].job.row != row {
        TakeoverKeepsOthers(s, p, row, cfg);
      }
    case ReleaseLease(p) => ReleaseKeepsCompleted(s, p, row, cfg);
  }

  lemma SaveKeepsCompleted(s: State, a: SaveAction, row: RowKey, cfg: Config)
    requires SaveEnabled(s, a) && row in s.db.leases
    ensures SameRow(s.db, SaveApply(s, a, cfg).db, row) || MayTouch(s, Save(a), row, cfg)
  {
    hide CommitSave, ReceiptFor;
    if a.CommitPhoto? {
      CommitSaveEffect(s.db, s.procs[a.p].job, s.procs[a.p].enc, s.procs[a.p].name, a.key, a.secret, cfg);
    }
  }

  lemma PurgeKeepsRows(s: State, a: PurgeAction, row: RowKey)
    requires PurgeEnabled(s, a) && row in s.db.leases
    ensures SameRow(s.db, PurgeApply(s, a).db, row)
  {
    hide ListsDeleted, ListsExpired, ApplyClose;
    if a.ClosePurge? {
      CloseKeepsRows(s, a.p);
    }
  }

  lemma CloseKeepsRows(s: State, p: nat)
    requires PurgeEnabled(s, ClosePurge(p))
    ensures ApplyClose(s, p).db.leases == s.db.leases
  {
    hide PurgeRows, ListsDeleted, ListsExpired;
    CloseTables(s, p);
  }

  lemma CleanKeepsCompleted(s: State, a: CleanAction, row: RowKey, cfg: Config)
    requires CleanEnabled(s, a) && row in s.db.leases
    ensures SameRow(s.db, CleanApply(s, a, cfg).db, row) || MayTouch(s, Clean(a), row, cfg)
  {
  }

  lemma RetrieveKeepsRows(s: State, a: RetrieveAction, row: RowKey, cfg: Config)
    requires RetrieveEnabled(s, a) && row in s.db.leases
    ensures SameRow(s.db, RetrieveApply(s, a, cfg).db, row)
  {
    hide RetrieveApply, RetrieveEnabled;
    RetrieveEffect(s, a, cfg);
  }

  /**
   In any state, with no assumption on timing, a completed row is touched by nothing but a
   takeover decided earlier, another commit for the row, or a cleanup once the window is over:
   a late release of the lease, above all, leaves it alone.
   */
  lemma CompletedRowsStay(s: State, a: Action, row: RowKey, cfg: Config)
    requires Enabled(s, a) && row in s.db.leases && s.db.leases[row].status == Completed
    ensures SameRow(s.db, Step(s, a, cfg).db, row) || MayTouch(s, a, row, cfg)
  {
    hide SameRow, MayTouch, EnvEnabled, LeaseEnabled, SaveEnabled, PurgeEnabled, CleanEnabled, RetrieveEnabled;
    hide LeaseApply, SaveApply, PurgeApply, CleanApply, RetrieveApply;
    match a
    case Env(e) => RowsAreKept(s.db, row);
    case Lease(l) => LeaseKeepsCompleted(s, l, row, cfg);
    case Save(v) => SaveKeepsCompleted(s, v, row, cfg);
    case Purge(g) => PurgeKeepsRows(s, g, row);
    case Clean(c) => CleanKeepsCompleted(s, c, row, cfg);
    case Retrieve(r) => RetrieveKeepsRows(s, r, row, cfg);
  }

  lemma RowsAreKept(db: Db, row: RowKey)
    requires row in db.leases
    ensures SameRow(db, db, row)
  {
  }

  // ----- a receipt opens its photo -----

  /** The KEY leads to this photo and no other, and the delete secret is the one its record asks for. */
  ghost predicate Opens(db: Db, receipt: Receipt, id: PhotoId) {
    && id in db.photos && db.photos[id].fingerprint == Fingerprint(receipt.key)
    && Fingerprint(receipt.key) in db.keys && db.keys[Fingerprint(receipt.key)] == KeyRow(KeyActive, Some(id))
    && db.photos[id].deleteDigest == SecretDigest(receipt.deleteSecret)
  }

  /** Every receipt ever handed out, first or replayed, opens its own photo for as long as that photo is active. */
  lemma ReceiptsOpenTheirPhotos(run: seq<Action>, t: State, cfg: Config)
    requires Reaches(Initial, run, t, cfg)
    ensures forall a <- t.answers ::
      && a.photo.Some? && a.photo.value.fingerprint == Fingerprint(a.receipt.key)
      && (IsActive(t.db, a.photo.value) ==> Opens(t.db, a.receipt, a.photo.value))
  {
    hide LeftOk, GrantsOk, DownloadsOk, ProcsOk, ErasureOk, Reaches;
    ReachableInv(run, t, cfg);
    forall a | a in t.answers
      ensures a.photo.Some? && a.photo.value.fingerprint == Fingerprint(a.receipt.key)
      ensures IsActive(t.db, a.photo.value) ==> Opens(t.db, a.receipt, a.photo.value)
    {
      assert AnswerOk(t, a);
    }
  }
}
