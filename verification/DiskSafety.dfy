/**
 The age gate of the orphan sweep: while saves commit soon after writing their object and
 sweeps compute their cutoff soon after reading the known names, every retrievable photo
 has its exact bytes on disk.
 */
module DiskSafety {
  import opened Basics
  import opened Records
  import opened Protocol
  import opened Invariant
  import opened Safety

  /** Bounds on two delays: object write to commit, and known names to cutoff. */
  datatype Delays = Delays(commitMillis: nat, sweepMillis: nat)

  predicate GateHolds(d: Delays, cfg: Config) {
    d.commitMillis + d.sweepMillis < 1000 * cfg.orphanMinAgeSeconds
  }

  ghost predicate Prompt(s: State, d: Delays) {
    forall p <- s.procs ::
      && (s.procs[p].Staged? ==> s.clock - s.procs[p].writtenAt <= d.commitMillis)
      && (s.procs[p].SweepRead? ==> s.clock - s.procs[p].readAt <= d.sweepMillis)
  }

  /** A run all of whose states are prompt. */
  ghost predicate PromptRun(s: State, run: seq<Action>, t: State, d: Delays, cfg: Config)
    decreases |run|
  {
    && Prompt(s, d)
    && if run == [] then s == t
       else Enabled(s, run[0]) && PromptRun(Step(s, run[0], cfg), run[1..], t, d, cfg)
  }

  // ----- the invariant -----

  ghost predicate Live(s: State, id: PhotoId) {
    id in s.db.photos && Retrievable(s.db.photos[id], Iso(s.clock)) && s.db.photos[id].name !in s.tampered
  }

  ghost predicate OnDisk(s: State, name: Name, data: Bytes, writtenAt: int) {
    name in s.disk && s.disk[name] == File(data, writtenAt)
  }

  ghost predicate PhotosOnDisk(s: State) {
    forall id <- s.db.photos :: Live(s, id) ==>
      id in s.saved && OnDisk(s, s.db.photos[id].name, s.saved[id].data, s.saved[id].writtenAt)
  }

  ghost predicate StagedOnDisk(s: State) {
    forall p <- s.procs :: s.procs[p].Staged? && s.procs[p].name !in s.tampered ==>
      OnDisk(s, s.procs[p].name, s.procs[p].enc.data, s.procs[p].writtenAt)
  }

  ghost predicate CommitTimes(s: State, d: Delays) {
    forall id <- s.saved ::
      s.saved[id].committedAt <= s.clock && s.saved[id].committedAt - s.saved[id].writtenAt <= d.commitMillis
  }

  ghost predicate SweepSpares(s: State, q: Proc, cfg: Config) {
    match q
    case SweepRead(known, readAt) =>
      readAt <= s.clock && forall id <- s.db.photos :: Live(s, id) ==>
        s.db.photos[id].name in known || (id in s.saved && readAt <= s.saved[id].committedAt)
    case Sweeping(known, cutoff) =>
      cutoff <= s.clock - 1000 * cfg.orphanMinAgeSeconds && forall id <- s.db.photos :: Live(s, id) ==>
        s.db.photos[id].name in known || (id in s.saved && cutoff < s.saved[id].writtenAt)
    case _ => true
  }

  ghost predicate SweepsSpare(s: State, cfg: Config) {
    forall p <- s.procs :: SweepSpares(s, s.procs[p], cfg)
  }

  ghost predicate DiskInv(s: State, d: Delays, cfg: Config) {
    PhotosOnDisk(s) && StagedOnDisk(s) && CommitTimes(s, d) && SweepsSpare(s, cfg)
  }

  // ----- steps that lose no protected byte -----

  /** No photo becomes live, no object is staged, no sweep starts, and no protected file changes. */
  ghost predicate DiskFrame(s: State, t: State) {
    && t.saved == s.saved && s.clock <= t.clock
    && (forall id <- t.db.photos :: Live(t, id) ==> Live(s, id) && t.db.photos[id].name == s.db.photos[id].name)
    && (forall p <- t.procs :: t.procs[p].Staged? || t.procs[p].SweepRead? || t.procs[p].Sweeping? ==>
          p in s.procs && t.procs[p] == s.procs[p])
    && s.tampered <= t.tampered
    && (forall id <- t.db.photos :: Live(t, id) ==> SameFile(s, t, t.db.photos[id].name))
    && (forall p <- t.procs :: t.procs[p].Staged? && t.procs[p].name !in t.tampered ==>
          SameFile(s, t, t.procs[p].name))
  }

  ghost predicate SameFile(s: State, t: State, name: Name) {
    name in s.disk ==> name in t.disk && t.disk[name] == s.disk[name]
  }

  lemma FrameKeeps(s: State, t: State, d: Delays, cfg: Config)
    requires DiskInv(s, d, cfg) && DiskFrame(s, t)
    ensures DiskInv(t, d, cfg)
  {
    forall p | p in t.procs ensures SweepSpares(t, t.procs[p], cfg) {
      if p in s.procs { assert SweepSpares(s, s.procs[p], cfg); }
    }
  }

  /** What most steps satisfy: the disk is untouched and no photo is added. */
  ghost predicate DiskUntouched(s: State, t: State) {
    && t.disk == s.disk && t.saved == s.saved && t.clock == s.clock && t.tampered == s.tampered
    && (forall id <- t.db.photos :: t.db.photos[id].status == Active ==>
          && id in s.db.photos && s.db.photos[id].status == Active
          && t.db.photos[id].name == s.db.photos[id].name && t.db.photos[id].expiresAt == s.db.photos[id].expiresAt)
    && (forall p <- t.procs :: t.procs[p].Staged? || t.procs[p].SweepRead? || t.procs[p].Sweeping? ==>
          p in s.procs && t.procs[p] == s.procs[p])
  }

  lemma UntouchedKeeps(s: State, t: State, d: Delays, cfg: Config)
    requires DiskInv(s, d, cfg) && DiskUntouched(s, t)
    ensures DiskInv(t, d, cfg)
  {
    hide DiskInv;
    FrameKeeps(s, t, d, cfg);
  }

  lemma StampKeeps(s: State, t: State, d: Delays, cfg: Config)
    requires DiskInv(t, d, cfg)
    ensures DiskInv(Stamp(s, t), d, cfg)
  {
    var u := Stamp(s, t);
    forall p | p in u.procs ensures SweepSpares(u, u.procs[p], cfg) {
      assert SweepSpares(t, t.procs[p], cfg);
    }
  }

  lemma LeaseUntouched(s: State, a: LeaseAction, cfg: Config)
    requires LeaseEnabled(s, a)
    ensures DiskUntouched(s, LeaseApply(s, a, cfg))
  {
    hide LeaseApply, LeaseEnabled;
    LeaseEffect(s, a, cfg);
  }

  lemma RetrieveUntouched(s: State, a: RetrieveAction, cfg: Config)
    requires RetrieveEnabled(s, a)
    ensures DiskUntouched(s, RetrieveApply(s, a, cfg))
  {
    hide RetrieveApply, RetrieveEnabled;
    RetrieveEffect(s, a, cfg);
  }

  lemma CloseUntouched(s: State, p: nat)
    requires PurgeEnabled(s, ClosePurge(p))
    ensures DiskUntouched(s, ApplyClose(s, p))
  {
    hide PurgeRows, ListsDeleted, ListsExpired;
    CloseTables(s, p);
  }

  lemma PurgeUntouched(s: State, a: PurgeAction)
    requires PurgeEnabled(s, a) && !a.UnlinkPurged?
    ensures DiskUntouched(s, PurgeApply(s, a))
  {
    hide ListsDeleted, ListsExpired, ApplyClose;
    if a.ClosePurge? {
      CloseUntouched(s, a.p);
    }
  }

  lemma RecordsUntouched(s: State, a: CleanAction, cfg: Config)
    requires CleanEnabled(s, a) && (a.CleanLeaseRows? || a.CleanGrantRows? || a.CleanPhotoRows?)
    ensures DiskUntouched(s, CleanApply(s, a, cfg))
  {
  }

  lemma EnvFrame(s: State, a: EnvAction)
    requires EnvEnabled(s, a)
    ensures DiskFrame(s, EnvApply(s, a))
  {
  }

  // ----- steps on the disk -----

  /** Removing a file that is neither a live photo's nor staged. */
  lemma UnlinkFrame(s: State, t: State, name: Name)
    requires t == s.(procs := t.procs, disk := s.disk - {name})
    requires forall p <- t.procs :: t.procs[p].Staged? || t.procs[p].SweepRead? || t.procs[p].Sweeping? ==>
          p in s.procs && t.procs[p] == s.procs[p]
    requires forall id <- s.db.photos :: Live(s, id) ==> s.db.photos[id].name != name
    requires forall p <- t.procs :: t.procs[p].Staged? && t.procs[p].name !in s.tampered ==> t.procs[p].name != name
    ensures DiskFrame(s, t)
  {
  }

  /** The object a purge is about to unlink belongs to no live photo and to no save in flight. */
  lemma PurgedNameIsFree(s: State, p: nat)
    requires PurgeEnabled(s, UnlinkPurged(p)) && HistoryOk(s) && PhotosOk(s) && ProcsOk(s)
    ensures
      var name := s.procs[p].rows[s.procs[p].next].name;
      && (forall id <- s.db.photos :: Live(s, id) ==> s.db.photos[id].name != name)
      && (forall r <- s.procs :: s.procs[r].Staged? ==> s.procs[r].name != name)
  {
    hide Apart, WriterOk;
    var q := s.procs[p];
    assert ProcOk(s, p, q);
    var row := q.rows[q.next];
    assert Names(s, row.id, row.name) && Doomed(s, row.id, q.at);
    forall id | id in s.db.photos && Live(s, id) ensures s.db.photos[id].name != row.name {
      assert RecordOf(s.db.photos[id], id, s.saved[id]);
    }
    forall r | r in s.procs && s.procs[r].Staged? ensures s.procs[r].name != row.name {
      assert ProcOk(s, r, s.procs[r]);
    }
  }

  lemma PurgeUnlinkFrame(s: State, p: nat)
    requires PurgeEnabled(s, UnlinkPurged(p)) && HistoryOk(s) && PhotosOk(s) && ProcsOk(s)
    ensures DiskFrame(s, ApplyUnlink(s, p))
  {
    hide HistoryOk, PhotosOk, ProcsOk, DiskFrame, Live;
    PurgedNameIsFree(s, p);
    UnlinkFrame(s, ApplyUnlink(s, p), s.procs[p].rows[s.procs[p].next].name);
  }

  lemma UndoneNameIsFree(s: State, p: nat)
    requires SaveEnabled(s, UnlinkStaged(p)) && PhotosOk(s) && ProcsOk(s)
    ensures
      var name := s.procs[p].name;
      && (forall id <- s.db.photos :: Live(s, id) ==> s.db.photos[id].name != name)
      && (forall r <- s.procs :: s.procs[r].Staged? ==> s.procs[r].name != name)
  {
    assert ProcOk(s, p, s.procs[p]);
    forall id | id in s.db.photos && Live(s, id) ensures s.db.photos[id].name != s.procs[p].name {
      assert RecordOf(s.db.photos[id], id, s.saved[id]);
    }
    forall r | r in s.procs && s.procs[r].Staged? ensures s.procs[r].name != s.procs[p].name {
      assert ObjectOf(s.procs[r]) != ObjectOf(s.procs[p]);
    }
  }

  lemma SaveUndoFrame(s: State, a: SaveAction, cfg: Config)
    requires SaveEnabled(s, a) && (a.Reject? || a.RollBack? || a.UnlinkStaged?)
    requires PhotosOk(s) && ProcsOk(s)
    ensures DiskFrame(s, SaveApply(s, a, cfg))
  {
    if a.UnlinkStaged? {
      hide PhotosOk, ProcsOk, DiskFrame, Live;
      UndoneNameIsFree(s, a.p);
      UnlinkFrame(s, SaveApply(s, a, cfg), s.procs[a.p].name);
    } else {
      hide PhotosOk, ProcsOk;
    }
  }

  /** A sweep spares live photos, known or younger than its cutoff, and staged objects. */
  lemma OrphanUnlinkFrame(s: State, p: nat, victim: Name, d: Delays, cfg: Config)
    requires CleanEnabled(s, UnlinkOrphan(p, victim)) && DiskInv(s, d, cfg) && Prompt(s, d) && GateHolds(d, cfg)
    ensures DiskFrame(s, s.(disk := s.disk - {victim}))
  {
    hide DiskFrame;
    assert SweepSpares(s, s.procs[p], cfg);
    forall r | r in s.procs && s.procs[r].Staged? && s.procs[r].name !in s.tampered ensures s.procs[r].name != victim {
      assert OnDisk(s, s.procs[r].name, s.procs[r].enc.data, s.procs[r].writtenAt);
    }
    UnlinkFrame(s, s.(disk := s.disk - {victim}), victim);
  }

  lemma WriteKeeps(s: State, a: SaveAction, d: Delays, cfg: Config)
    requires SaveEnabled(s, a) && a.WriteObject? && DiskInv(s, d, cfg) && DiskDrawn(s)
    ensures DiskInv(SaveApply(s, a, cfg), d, cfg)
  {
    var t := SaveApply(s, a, cfg);
    forall p | p in t.procs ensures SweepSpares(t, t.procs[p], cfg) {
      if p in s.procs && p != a.p { assert SweepSpares(s, s.procs[p], cfg); }
    }
  }

  lemma ReadKnownKeeps(s: State, p: nat, d: Delays, cfg: Config)
    requires CleanEnabled(s, ReadKnown(p)) && DiskInv(s, d, cfg)
    ensures DiskInv(CleanApply(s, ReadKnown(p), cfg), d, cfg)
  {
    var t := CleanApply(s, ReadKnown(p), cfg);
    forall q | q in t.procs ensures SweepSpares(t, t.procs[q], cfg) {
      if q != p { assert SweepSpares(s, s.procs[q], cfg); }
    }
  }

  /** A photo missing from the names read committed afterwards, so its object is younger than the cutoff. */
  lemma CutoffKeeps(s: State, p: nat, d: Delays, cfg: Config)
    requires CleanEnabled(s, ComputeCutoff(p)) && DiskInv(s, d, cfg) && Prompt(s, d) && GateHolds(d, cfg)
    ensures DiskInv(CleanApply(s, ComputeCutoff(p), cfg), d, cfg)
  {
    var t := CleanApply(s, ComputeCutoff(p), cfg);
    assert SweepSpares(s, s.procs[p], cfg);
    forall q | q in t.procs ensures SweepSpares(t, t.procs[q], cfg) {
      if q != p { assert SweepSpares(s, s.procs[q], cfg); }
    }
  }

  lemma CommitPhotosOnDisk(s: State, p: nat, key: string, secret: string, cfg: Config)
    requires SaveEnabled(s, CommitPhoto(p, key, secret)) && PhotosOnDisk(s) && StagedOnDisk(s)
    requires IdFor(s.procs[p].job, key) !in s.db.photos
    ensures PhotosOnDisk(ApplyCommit(s, p, key, secret, cfg))
  {
    hide CommitSave, ReceiptFor;
    PurgeLaws.CommitSaveEffect(s.db, s.procs[p].job, s.procs[p].enc, s.procs[p].name, key, secret, cfg);
    var t := ApplyCommit(s, p, key, secret, cfg);
    forall id | id in t.db.photos && Live(t, id)
      ensures id in t.saved && OnDisk(t, t.db.photos[id].name, t.saved[id].data, t.saved[id].writtenAt)
    {
      if id in s.db.photos { assert Live(s, id); }
    }
  }

  /** A sweep spares one more photo, committed just now and written not long ago. */
  lemma SparesOneMore(s: State, t: State, q: Proc, id: PhotoId, d: Delays, cfg: Config)
    requires SweepSpares(s, q, cfg) && GateHolds(d, cfg) && t.clock == s.clock
    requires id in t.saved && t.saved[id].committedAt == s.clock && s.clock - t.saved[id].writtenAt <= d.commitMillis
    requires forall other <- s.saved :: other != id ==> other in t.saved && t.saved[other] == s.saved[other]
    requires forall other <- t.db.photos :: Live(t, other) && other != id ==>
      Live(s, other) && t.db.photos[other].name == s.db.photos[other].name
    ensures SweepSpares(t, q, cfg)
  {
    hide Retrievable;
  }

  lemma CommitSweeps(s: State, p: nat, key: string, secret: string, d: Delays, cfg: Config)
    requires SaveEnabled(s, CommitPhoto(p, key, secret)) && SweepsSpare(s, cfg) && Prompt(s, d) && GateHolds(d, cfg)
    requires IdFor(s.procs[p].job, key) !in s.db.photos
    ensures SweepsSpare(ApplyCommit(s, p, key, secret, cfg), cfg)
  {
    hide CommitSave, ReceiptFor, SweepSpares;
    PurgeLaws.CommitSaveEffect(s.db, s.procs[p].job, s.procs[p].enc, s.procs[p].name, key, secret, cfg);
    var t := ApplyCommit(s, p, key, secret, cfg);
    var id := IdFor(s.procs[p].job, key);
    forall other | other in t.db.photos && Live(t, other) && other != id
      ensures Live(s, other) && t.db.photos[other].name == s.db.photos[other].name
    {
    }
    forall q | q in t.procs ensures SweepSpares(t, t.procs[q], cfg) {
      assert SweepSpares(s, s.procs[q], cfg);
      SparesOneMore(s, t, s.procs[q], id, d, cfg);
    }
  }

  lemma CommitKeepsDisk(s: State, p: nat, key: string, secret: string, d: Delays, cfg: Config)
    requires SaveEnabled(s, CommitPhoto(p, key, secret)) && DiskInv(s, d, cfg) && Prompt(s, d) && GateHolds(d, cfg)
    requires IdFor(s.procs[p].job, key) !in s.db.photos
    ensures DiskInv(ApplyCommit(s, p, key, secret, cfg), d, cfg)
  {
    hide CommitSave, ReceiptFor, SweepsSpare, PhotosOnDisk;
    CommitPhotosOnDisk(s, p, key, secret, cfg);
    CommitSweeps(s, p, key, secret, d, cfg);
  }

  // ----- every action -----

  lemma SaveKeepsDisk(s: State, a: SaveAction, d: Delays, cfg: Config)
    requires SaveEnabled(s, a) && Ledger(s) && ProcsOk(s) && DiskDrawn(s)
    requires DiskInv(s, d, cfg) && Prompt(s, d) && GateHolds(d, cfg)
    ensures DiskInv(SaveApply(s, a, cfg), d, cfg)
  {
    hide HistoryOk, PhotosOk, KeysOk, LeasesOk, LeftOk, GrantsOk, ProcsOk, DiskInv, Prompt, DiskFrame, CommitSave;
    match a {
      case CommitPhoto(p, key, secret) =>
        CommitIsNew(s, p, key, secret);
        CommitKeepsDisk(s, p, key, secret, d, cfg);
      case WriteObject(_, _, _) => WriteKeeps(s, a, d, cfg);
      case _ =>
        SaveUndoFrame(s, a, cfg);
        FrameKeeps(s, SaveApply(s, a, cfg), d, cfg);
    }
  }

  lemma PurgeKeepsDisk(s: State, a: PurgeAction, d: Delays, cfg: Config)
    requires PurgeEnabled(s, a) && HistoryOk(s) && PhotosOk(s) && ProcsOk(s) && DiskInv(s, d, cfg)
    ensures DiskInv(PurgeApply(s, a), d, cfg)
  {
    hide HistoryOk, PhotosOk, ProcsOk, DiskInv, DiskFrame, DiskUntouched, ApplyUnlink;
    if a.UnlinkPurged? {
      PurgeUnlinkFrame(s, a.p);
      FrameKeeps(s, PurgeApply(s, a), d, cfg);
    } else {
      PurgeUntouched(s, a);
      UntouchedKeeps(s, PurgeApply(s, a), d, cfg);
    }
  }

  lemma CleanKeepsDisk(s: State, a: CleanAction, d: Delays, cfg: Config)
    requires CleanEnabled(s, a) && DiskInv(s, d, cfg) && Prompt(s, d) && GateHolds(d, cfg)
    ensures DiskInv(CleanApply(s, a, cfg), d, cfg)
  {
    hide DiskInv, DiskFrame, DiskUntouched, Prompt;
    match a {
      case ReadKnown(p) => ReadKnownKeeps(s, p, d, cfg);
      case ComputeCutoff(p) => CutoffKeeps(s, p, d, cfg);
      case UnlinkOrphan(p, victim) =>
        OrphanUnlinkFrame(s, p, victim, d, cfg);
        FrameKeeps(s, CleanApply(s, a, cfg), d, cfg);
      case _ =>
        RecordsUntouched(s, a, cfg);
        UntouchedKeeps(s, CleanApply(s, a, cfg), d, cfg);
    }
  }

  lemma StepKeepsDisk(s: State, a: Action, d: Delays, cfg: Config)
    requires Inv(s) && DiskInv(s, d, cfg) && Enabled(s, a) && Prompt(s, d) && GateHolds(d, cfg)
    ensures DiskInv(Step(s, a, cfg), d, cfg)
  {
    hide EnvEnabled, LeaseEnabled, SaveEnabled, PurgeEnabled, CleanEnabled, RetrieveEnabled, EnvApply;
    hide LeaseApply, SaveApply, PurgeApply, CleanApply, RetrieveApply, Stamp;
    hide HistoryOk, PhotosOk, KeysOk, LeasesOk, LeftOk, GrantsOk, ProcsOk, DownloadsOk, DiskDrawn;
    hide DiskInv, Prompt, DiskUntouched, DiskFrame;
    match a
    case Env(e) =>
      EnvFrame(s, e);
      FrameKeeps(s, EnvApply(s, e), d, cfg);
      StampKeeps(s, EnvApply(s, e), d, cfg);
    case Lease(l) =>
      LeaseUntouched(s, l, cfg);
      UntouchedKeeps(s, LeaseApply(s, l, cfg), d, cfg);
      StampKeeps(s, LeaseApply(s, l, cfg), d, cfg);
    case Save(v) =>
      SaveKeepsDisk(s, v, d, cfg);
      StampKeeps(s, SaveApply(s, v, cfg), d, cfg);
    case Purge(g) =>
      PurgeKeepsDisk(s, g, d, cfg);
      StampKeeps(s, PurgeApply(s, g), d, cfg);
    case Clean(c) =>
      CleanKeepsDisk(s, c, d, cfg);
      StampKeeps(s, CleanApply(s, c, cfg), d, cfg);
    case Retrieve(r) =>
      RetrieveUntouched(s, r, cfg);
      UntouchedKeeps(s, RetrieveApply(s, r, cfg), d, cfg);
      StampKeeps(s, RetrieveApply(s, r, cfg), d, cfg);
  }

  lemma {:induction false} RunKeepsDisk(s: State, run: seq<Action>, t: State, d: Delays, cfg: Config)
    requires Inv(s) && DiskInv(s, d, cfg) && PromptRun(s, run, t, d, cfg) && GateHolds(d, cfg)
    ensures Inv(t) && DiskInv(t, d, cfg)
    decreases |run|
  {
    hide Inv, DiskInv, Step, Enabled, Prompt;
    if run != [] {
      StepKeepsDisk(s, run[0], d, cfg);
      StepKeepsInv(s, run[0], cfg);
      RunKeepsDisk(Step(s, run[0], cfg), run[1..], t, d, cfg);
    }
  }

  /**
   Every active, unexpired photo whose object was not changed from outside has its exact
   saved bytes on disk, in every interleaving of saves, failed saves, deletes, interrupted
   purges and sweeps.
   */
  lemma RetrievablePhotosKeepTheirBytes(run: seq<Action>, t: State, id: PhotoId, d: Delays, cfg: Config)
    requires PromptRun(Initial, run, t, d, cfg) && GateHolds(d, cfg)
    requires id in t.db.photos && Retrievable(t.db.photos[id], Iso(t.clock)) && t.db.photos[id].name !in t.tampered
    ensures id in t.saved && t.db.photos[id].name in t.disk
    ensures t.disk[t.db.photos[id].name].data == t.saved[id].data
  {
    hide Inv, StagedOnDisk, CommitTimes, SweepsSpare, PromptRun;
    InvInitial();
    InitialDisk(d, cfg);
    RunKeepsDisk(Initial, run, t, d, cfg);
    assert Live(t, id);
  }

  lemma InitialDisk(d: Delays, cfg: Config)
    ensures DiskInv(Initial, d, cfg)
  {
  }
}
