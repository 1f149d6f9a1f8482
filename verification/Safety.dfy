/** Every action of the protocol keeps the invariant, and what follows for whole runs. */
module Safety {
  import opened Basics
  import opened Records
  import opened Protocol
  import opened PurgeLaws
  import opened Invariant

  /** One more step, with no photo leaving `active`. */
  function Advance(s: State, t: State): State {
    t.(steps := s.steps + 1)
  }

  lemma NothingLeft(s: State, t: State)
    requires t.leftActive == s.leftActive
    requires forall id <- s.db.photos :: IsActive(s.db, id) ==> IsActive(t.db, id)
    ensures Stamp(s, t) == Advance(s, t)
  {
  }

  // ----- actions that change no table -----

  lemma CrashMoves(s: State, p: nat)
    requires p in s.procs && DiskDrawn(s) && WriterOk(s)
    ensures LegalMove(s, Advance(s, EnvApply(s, Crash(p))), p)
  {
    hide ProcOk, Departed;
  }

  lemma EnvEvolves(s: State, a: EnvAction)
    requires EnvEnabled(s, a) && !a.Crash? && DiskDrawn(s)
    ensures Evolves(s, Advance(s, EnvApply(s, a)))
  {
  }

  lemma EnvMoves(s: State, a: EnvAction)
    requires EnvEnabled(s, a) && HistoryOk(s) && ProcsOk(s) && DiskDrawn(s)
    ensures LegalMove(s, Advance(s, EnvApply(s, a)), if a.Crash? then a.p else 0)
  {
    hide HistoryOk, Evolves, LegalMove, ProcOk, Apart, DiskDrawn;
    if a.Crash? {
      CrashMoves(s, a.p);
    } else {
      EnvEvolves(s, a);
      NobodyMoves(s, Advance(s, EnvApply(s, a)));
    }
  }

  /** A process moves on without touching photo, grant, disk or lock. */
  lemma GotoMoves(s: State, t: State, p: nat, q: Proc)
    requires WriterOk(s) && DiskDrawn(s) && NameFromOwn(s, p, q) && TokenFromOwn(s, p, q)
    requires s.writer != Some(p) && t.procs == s.procs[p := q] && ProcOk(Advance(s, t), p, q)
    requires SamePhotos(s, t) && t.db.grants == s.db.grants && t.disk == s.disk && t.writer == s.writer
    requires t.clock == s.clock && t.names == s.names && t.tokens == s.tokens
    ensures LegalMove(s, Advance(s, t), p)
  {
  }

  lemma EndMoves(s: State, t: State, p: nat)
    requires WriterOk(s) && DiskDrawn(s) && p in s.procs && s.writer != Some(p) && t.procs == s.procs - {p}
    requires SamePhotos(s, t) && t.db.grants == s.db.grants && t.disk == s.disk && t.writer == s.writer
    requires t.clock == s.clock && t.names == s.names && t.tokens == s.tokens
    ensures LegalMove(s, Advance(s, t), p)
  {
  }

  lemma SaveMoves(s: State, a: SaveAction, cfg: Config)
    requires SaveEnabled(s, a) && !a.CommitPhoto?
    requires ProcOk(s, a.p, s.procs[a.p]) && WriterOk(s) && DiskDrawn(s) && HistoryOk(s)
    ensures LegalMove(s, Advance(s, SaveApply(s, a, cfg)), a.p)
  {
  }

  lemma ReadForDeleteMoves(s: State, p: nat, id: PhotoId, secret: string)
    requires PurgeEnabled(s, ReadForDelete(p, id, secret)) && WriterOk(s) && DiskDrawn(s) && PhotosOk(s)
    ensures LegalMove(s, Advance(s, PurgeApply(s, ReadForDelete(p, id, secret))), p)
  {
    hide LegalMove, DiskDrawn, ListsDeleted, ListsExpired;
    GotoMoves(s, PurgeApply(s, ReadForDelete(p, id, secret)), p, Deleting(id, s.db.photos[id].name, Iso(s.clock)));
  }

  lemma ReadDueMoves(s: State, p: nat, rows: seq<PurgeRow>)
    requires PurgeEnabled(s, ReadDue(p, rows)) && WriterOk(s) && DiskDrawn(s) && PhotosOk(s)
    ensures LegalMove(s, Advance(s, PurgeApply(s, ReadDue(p, rows))), p)
  {
    hide LegalMove, DiskDrawn, ListsExpired;
    GotoMoves(s, PurgeApply(s, ReadDue(p, rows)), p, PurgeSelected(rows, Iso(s.clock)));
  }

  lemma PurgeSelectMoves(s: State, a: PurgeAction)
    requires PurgeEnabled(s, a) && (a.ReadForDelete? || a.ReadDue?)
    requires WriterOk(s) && DiskDrawn(s) && PhotosOk(s)
    ensures LegalMove(s, Advance(s, PurgeApply(s, a)), a.p)
  {
    hide PurgeEnabled, PurgeApply, LegalMove, WriterOk, DiskDrawn, PhotosOk;
    match a
    case ReadForDelete(p, id, secret) => ReadForDeleteMoves(s, p, id, secret);
    case ReadDue(p, rows) => ReadDueMoves(s, p, rows);
  }

  /** A purge opens its write transaction. */
  lemma OpeningMoves(s: State, t: State, p: nat, q: Proc)
    requires s.writer == None && DiskDrawn(s) && q.Purging? && ProcOk(t, p, q)
    requires t == Advance(s, Goto(s, p, q).(writer := Some(p)))
    ensures LegalMove(s, t, p)
  {
    hide ProcOk;
  }

  lemma OpenPurgeMoves(s: State, p: nat)
    requires PurgeEnabled(s, OpenPurge(p)) && DiskDrawn(s) && ProcOk(s, p, s.procs[p])
    ensures LegalMove(s, Advance(s, PurgeApply(s, OpenPurge(p))), p)
  {
    hide LegalMove, DiskDrawn, ListsDeleted, ListsExpired;
    OpeningMoves(
      s, Advance(s, PurgeApply(s, OpenPurge(p))), p, Purging(s.procs[p].rows, 0, s.procs[p].at, false));
  }

  lemma ExpiredAreListed(db: Db, rows: seq<PurgeRow>, at: int)
    requires ListsExpired(rows, ExpirePhotos(db, at), at)
    ensures forall id <- db.photos :: HasExpired(db.photos[id], at) ==> PurgeRow(id, db.photos[id].name) in rows
    ensures forall r <- rows :: r.id in db.photos && r.name == db.photos[r.id].name && db.photos[r.id].expiresAt <= at
  {
    var expired := ExpirePhotos(db, at);
    forall id | id in db.photos && HasExpired(db.photos[id], at) ensures PurgeRow(id, db.photos[id].name) in rows {
      assert ExpiryPurges(expired.photos[id], at);
    }
  }

  lemma OpenExpiryMoves(s: State, p: nat, rows: seq<PurgeRow>, at: int)
    requires PurgeEnabled(s, OpenExpiry(p, rows, at)) && DiskDrawn(s) && PhotosOk(s)
    ensures LegalMove(s, Advance(s, PurgeApply(s, OpenExpiry(p, rows, at))), p)
  {
    hide LegalMove, DiskDrawn, ListsExpired, ListsDeleted, ExpirePhotos, HasExpired, IsActive;
    ExpiredAreListed(s.db, rows, at);
    OpeningMoves(s, Advance(s, PurgeApply(s, OpenExpiry(p, rows, at))), p, Purging(rows, 0, at, true));
  }

  lemma UnlinkMoves(s: State, p: nat)
    requires PurgeEnabled(s, UnlinkPurged(p)) && WriterOk(s) && DiskDrawn(s) && ProcOk(s, p, s.procs[p])
    ensures LegalMove(s, Advance(s, ApplyUnlink(s, p)), p)
  {
  }

  lemma SweepMoves(s: State, a: CleanAction, cfg: Config)
    requires CleanEnabled(s, a) && (a.ReadKnown? || a.ComputeCutoff? || a.UnlinkOrphan?)
    requires WriterOk(s) && DiskDrawn(s)
    ensures LegalMove(s, Advance(s, CleanApply(s, a, cfg)), a.p)
  {
  }

  lemma ReadForResolveMoves(s: State, p: nat, id: PhotoId, cfg: Config)
    requires RetrieveEnabled(s, ReadForResolve(p, id)) && WriterOk(s) && DiskDrawn(s) && PhotosOk(s)
    ensures LegalMove(s, Advance(s, RetrieveApply(s, ReadForResolve(p, id), cfg)), p)
  {
    hide LegalMove, DiskDrawn, RecordOf;
    GotoMoves(s, RetrieveApply(s, ReadForResolve(p, id), cfg), p, Resolving(id, s.db.photos[id].epoch));
  }

  lemma ReadGrantMoves(s: State, p: nat, token: Token, cfg: Config)
    requires RetrieveEnabled(s, ReadGrant(p, token)) && WriterOk(s) && DiskDrawn(s) && GrantsOk(s)
    ensures LegalMove(s, Advance(s, RetrieveApply(s, ReadGrant(p, token), cfg)), p)
  {
    hide LegalMove, DiskDrawn;
    GotoMoves(s, RetrieveApply(s, ReadGrant(p, token), cfg), p, GrantRead(token, s.db.grants[token], Iso(s.clock)));
  }

  lemma ReadMoves(s: State, a: RetrieveAction, cfg: Config)
    requires RetrieveEnabled(s, a) && (a.ReadForResolve? || a.ReadGrant?)
    requires WriterOk(s) && DiskDrawn(s) && PhotosOk(s) && GrantsOk(s)
    ensures LegalMove(s, Advance(s, RetrieveApply(s, a, cfg)), a.p)
  {
    hide RetrieveEnabled, RetrieveApply, LegalMove, WriterOk, DiskDrawn, PhotosOk, GrantsOk;
    match a
    case ReadForResolve(p, id) => ReadForResolveMoves(s, p, id, cfg);
    case ReadGrant(p, token) => ReadGrantMoves(s, p, token, cfg);
  }

  lemma CheckMoves(s: State, p: nat)
    requires RetrieveEnabled(s, CheckPhoto(p)) && ProcOk(s, p, s.procs[p])
    requires WriterOk(s) && DiskDrawn(s) && LeftOk(s) && PhotosOk(s)
    ensures LegalMove(s, Advance(s, ApplyCheck(s, p)), p)
  {
    hide LegalMove, DiskDrawn, RecordOf;
    var t := ApplyCheck(s, p);
    if p in t.procs {
      GotoMoves(s, t, p, t.procs[p]);
    } else {
      EndMoves(s, t, p);
    }
  }

  lemma QuietKeeps(s: State, t: State, p: nat)
    requires Inv(s) && t.db == s.db && t.saved == s.saved && t.issued == s.issued && t.generations == s.generations
    requires t.answers == s.answers && t.downloads == s.downloads && t.leftActive == s.leftActive
    requires LegalMove(s, Advance(s, t), p)
    ensures Inv(Advance(s, t))
  {
    MoveKeepsInv(s, Advance(s, t), p);
  }

  // ----- actions on the lease table -----

  /** A save that only decides: it holds no object and touches neither photo, grant nor disk. */
  ghost predicate LeaseMove(s: State, t: State, p: nat) {
    && SamePhotos(s, t) && t.db.grants == s.db.grants && t.disk == s.disk && t.writer == s.writer
    && t.clock == s.clock && t.names == s.names && t.tokens == s.tokens && t.downloads == s.downloads
    && t.steps == s.steps + 1
    && (if p in t.procs then t.procs == s.procs[p := t.procs[p]] && Deciding(t.procs[p])
        else p in s.procs && t.procs == s.procs - {p})
    && (p in s.procs ==> Deciding(s.procs[p]))
  }

  ghost predicate Deciding(q: Proc) {
    q.Saving? || q.LostInsert? || q.TakingOver? || q.Holding? || q.Failing?
  }

  lemma LeaseMoveIsLegal(s: State, t: State, p: nat)
    requires WriterOk(s) && DiskDrawn(s) && LeaseMove(s, t, p)
    ensures LegalMove(s, t, p)
  {
    var u := t.(steps := s.steps);
    if p in t.procs {
      GotoMoves(s, u, p, t.procs[p]);
    } else {
      EndMoves(s, u, p);
    }
  }

  lemma LeaseWriteMoves(s: State, a: LeaseAction, cfg: Config)
    requires LeaseEnabled(s, a) && (a.BeginSave? || a.UpdateLease? || a.ReleaseLease?)
    ensures LeaseMove(s, Advance(s, LeaseApply(s, a, cfg)), a.p)
  {
  }

  lemma InsertMoves(s: State, p: nat)
    requires LeaseEnabled(s, TryInsert(p))
    ensures LeaseMove(s, Advance(s, ApplyInsert(s, p)), p)
  {
    hide InsertLease, CanInsertLease;
    InsertTouchesLeases(s.db, s.procs[p].job);
  }

  lemma InsertTouchesLeases(db: Db, job: Job)
    ensures InsertLease(db, job) == db.(leases := InsertLease(db, job).leases)
  {
  }

  /** Reading the lease row changes only the process itself and, on a replay, the answers. */
  lemma ReadLeaseEffect(s: State, p: nat, cfg: Config)
    requires LeaseEnabled(s, ReadLease(p))
    ensures var t := ApplyReadLease(s, p, cfg);
            && t == s.(procs := t.procs, answers := t.answers)
            && (t.procs == s.procs - {p} || exists seen ::
                  && DecideLease(LeaseAt(s.db, s.procs[p].job.row), s.procs[p].job, cfg) == TakeOver(seen)
                  && t.procs == s.procs[p := TakingOver(s.procs[p].job, seen)])
  {
    hide LeaseAt;
    match DecideLease(LeaseAt(s.db, s.procs[p].job.row), s.procs[p].job, cfg)
    case TakeOver(seen) => assert ApplyReadLease(s, p, cfg).procs == s.procs[p := TakingOver(s.procs[p].job, seen)];
    case Replay(_) =>
    case Refuse(_) =>
  }

  lemma LeaseReadMoves(s: State, p: nat, cfg: Config)
    requires LeaseEnabled(s, ReadLease(p))
    ensures LeaseMove(s, Advance(s, ApplyReadLease(s, p, cfg)), p)
  {
    hide ApplyReadLease;
    ReadLeaseEffect(s, p, cfg);
  }

  lemma InsertTable(s: State, p: nat)
    requires LeaseEnabled(s, TryInsert(p)) && LeasesOk(s)
    ensures LeasesOk(Advance(s, ApplyInsert(s, p)))
  {
    var t := Advance(s, ApplyInsert(s, p));
    forall r | r in t.db.leases ensures LeaseRowOk(t, r, t.db.leases[r]) {
      if r in s.db.leases { assert LeaseRowOk(s, r, s.db.leases[r]); }
    }
    forall x | x in t.answers ensures AnswerOk(t, x) {
      assert AnswerOk(s, x);
    }
  }

  lemma UpdateTable(s: State, t: State, job: Job)
    requires LeasesOk(s)
    requires t.saved == s.saved && t.generations == s.generations && t.answers == s.answers
    requires t.db.leases == s.db.leases || t.db == TakeOverLease(s.db, job) || t.db == MarkFailed(s.db, job)
    ensures LeasesOk(t)
  {
    forall r | r in t.db.leases ensures LeaseRowOk(t, r, t.db.leases[r]) {
      assert LeaseRowOk(s, r, s.db.leases[r]);
    }
    forall x | x in t.answers ensures AnswerOk(t, x) {
      assert AnswerOk(s, x);
    }
  }

  lemma LeaseTableKept(s: State, a: LeaseAction, cfg: Config)
    requires LeaseEnabled(s, a) && LeasesOk(s) && !a.ReadLease?
    ensures LeasesOk(Advance(s, LeaseApply(s, a, cfg)))
  {
    hide LeasesOk, TakeOverLease, MarkFailed, InsertLease;
    if a.TryInsert? {
      InsertTable(s, a.p);
    } else {
      UpdateTable(
        s, Advance(s, LeaseApply(s, a, cfg)),
        if a.BeginSave? then Job(a.row, a.upload, s.clock) else s.procs[a.p].job);
    }
  }

  /** A replay answers with the receipt of the save that completed the row. */
  lemma ReplayAnswers(s: State, p: nat, cfg: Config)
    requires LeaseEnabled(s, ReadLease(p)) && LeasesOk(s)
    ensures LeasesOk(Advance(s, ApplyReadLease(s, p, cfg)))
  {
    var job := s.procs[p].job;
    var t := Advance(s, ApplyReadLease(s, p, cfg));
    forall r | r in t.db.leases ensures LeaseRowOk(t, r, t.db.leases[r]) {
      assert LeaseRowOk(s, r, s.db.leases[r]);
    }
    forall x | x in t.answers ensures AnswerOk(t, x) {
      if x in s.answers {
        assert AnswerOk(s, x);
      } else {
        assert LeaseRowOk(s, job.row, s.db.leases[job.row]);
      }
    }
  }

  lemma LeaseStepKeeps(s: State, t: State, p: nat)
    requires Inv(s) && LegalMove(s, t, p) && SamePhotos(s, t) && LeasesOk(t)
    requires t.db.grants == s.db.grants && t.downloads == s.downloads
    ensures Inv(t)
  {
    PhotosFrame(s, t);
    KeysFrame(s, t);
    ErasureFrame(s, t);
    GrantsFrame(s, t);
    ProcsFrame(s, t, p);
    DownloadsFrame(s, t, p);
  }

  lemma LeaseTableOk(s: State, a: LeaseAction, cfg: Config)
    requires LeaseEnabled(s, a) && LeasesOk(s)
    ensures LeasesOk(Advance(s, LeaseApply(s, a, cfg)))
  {
    if a.ReadLease? {
      ReplayAnswers(s, a.p, cfg);
    } else {
      LeaseTableKept(s, a, cfg);
    }
  }

  lemma LeaseKeeps(s: State, a: LeaseAction, cfg: Config, t: State)
    requires Inv(s) && LeaseEnabled(s, a) && t == Advance(s, LeaseApply(s, a, cfg))
    ensures Inv(t)
  {
    if a.ReadLease? {
      LeaseReadMoves(s, a.p, cfg);
    } else if a.TryInsert? {
      InsertMoves(s, a.p);
    } else {
      LeaseWriteMoves(s, a, cfg);
    }
    LeaseMoveIsLegal(s, t, a.p);
    LeaseTableOk(s, a, cfg);
    LeaseStepKeeps(s, t, a.p);
  }

  lemma CleanLeasesKeeps(s: State, at: int, cfg: Config)
    requires Inv(s) && CleanEnabled(s, CleanLeaseRows(at))
    ensures Inv(Advance(s, CleanApply(s, CleanLeaseRows(at), cfg)))
  {
    var t := Advance(s, s.(db := CleanLeases(s.db, at, cfg)));
    CleanLeasesMoves(s, at, cfg);
    forall r | r in t.db.leases ensures LeaseRowOk(t, r, t.db.leases[r]) {
      assert LeaseRowOk(s, r, s.db.leases[r]);
    }
    forall x | x in t.answers ensures AnswerOk(t, x) {
      assert AnswerOk(s, x);
    }
    LeaseStepKeeps(s, t, 0);
  }

  lemma CleanLeasesMoves(s: State, at: int, cfg: Config)
    requires HistoryOk(s) && ProcsOk(s) && DiskDrawn(s)
    ensures LegalMove(s, Advance(s, s.(db := CleanLeases(s.db, at, cfg))), 0)
  {
    hide HistoryOk, ProcsOk, LegalMove;
    NobodyMoves(s, Advance(s, s.(db := CleanLeases(s.db, at, cfg))));
  }

  // ----- the saving transaction -----

  lemma CommitIsNew(s: State, p: nat, key: string, secret: string)
    requires SaveEnabled(s, CommitPhoto(p, key, secret)) && KeysOk(s) && PhotosOk(s)
    ensures IdFor(s.procs[p].job, key) !in s.saved && IdFor(s.procs[p].job, key) !in s.db.photos
    ensures Fingerprint(key) !in s.issued
  {
  }

  /** What a commit changes, table by table. */
  lemma CommitShape(s: State, p: nat, key: string, secret: string, cfg: Config)
    requires p in s.procs && s.procs[p].Staged?
    ensures
      var t := ApplyCommit(s, p, key, secret, cfg);
      var q := s.procs[p];
      var id := IdFor(q.job, key);
      && id in t.saved && t.saved[id].name == q.name && t.saved[id].data == q.enc.data
      && t.saved[id].receipt == ReceiptFor(q.job, q.enc, key, secret, cfg)
      && t.saved[id].row == q.job.row && t.saved[id].upload == q.job.upload
      && t.saved[id].writtenAt == q.writtenAt && t.saved[id].committedAt == s.clock
      && (q.job.row in s.db.leases && q.job.row in s.generations ==>
            t.generations == s.generations && t.saved[id].generation == s.generations[q.job.row])
      && t == s.(db := CommitSave(s.db, q.job, q.enc, q.name, key, secret, cfg), procs := s.procs - {p},
                 saved := s.saved[id := t.saved[id]], issued := s.issued + [Fingerprint(key)],
                 answers := t.answers, generations := t.generations)
  {
    hide CommitSave, ReceiptFor;
  }

  lemma CommitEvolves(s: State, p: nat, key: string, secret: string, cfg: Config)
    requires p in s.procs && s.procs[p].Staged? && s.writer == None && IdFor(s.procs[p].job, key) !in s.saved
    requires DiskDrawn(s)
    ensures Evolves(s, Advance(s, ApplyCommit(s, p, key, secret, cfg)))
  {
    hide CommitSave, ReceiptFor, ApplyCommit;
    CommitShape(s, p, key, secret, cfg);
    CommitSaveEffect(s.db, s.procs[p].job, s.procs[p].enc, s.procs[p].name, key, secret, cfg);
  }

  lemma CommitOnlyMoves(s: State, p: nat, key: string, secret: string, cfg: Config)
    requires p in s.procs && s.procs[p].Staged? && s.writer == None
    ensures var t := Advance(s, ApplyCommit(s, p, key, secret, cfg)); OnlyMoved(s, t, p) && p !in t.procs
  {
    hide CommitSave, ReceiptFor;
  }

  lemma CommitMoves(s: State, p: nat, key: string, secret: string, cfg: Config)
    requires SaveEnabled(s, CommitPhoto(p, key, secret)) && IdFor(s.procs[p].job, key) !in s.saved
    requires WriterOk(s) && DiskDrawn(s)
    ensures LegalMove(s, Advance(s, ApplyCommit(s, p, key, secret, cfg)), p)
  {
    hide ApplyCommit, Evolves, OnlyMoved, ProcOk;
    CommitEvolves(s, p, key, secret, cfg);
    CommitOnlyMoves(s, p, key, secret, cfg);
  }

  lemma CommitHistory(s: State, p: nat, key: string, secret: string, cfg: Config)
    requires SaveEnabled(s, CommitPhoto(p, key, secret)) && Unclaimed(s, s.procs[p].name) && HistoryOk(s)
    requires Fingerprint(key) !in s.issued && forall id <- s.saved :: id.fingerprint != Fingerprint(key)
    ensures HistoryOk(Advance(s, ApplyCommit(s, p, key, secret, cfg)))
  {
    hide CommitSave, ApplyCommit;
    CommitShape(s, p, key, secret, cfg);
  }

  lemma CommitPhotos(s: State, p: nat, key: string, secret: string, cfg: Config)
    requires SaveEnabled(s, CommitPhoto(p, key, secret)) && PhotosOk(s) && IdFor(s.procs[p].job, key) !in s.saved
    ensures PhotosOk(Advance(s, ApplyCommit(s, p, key, secret, cfg)))
  {
  }

  lemma CommitRest(s: State, p: nat, key: string, secret: string, cfg: Config)
    requires SaveEnabled(s, CommitPhoto(p, key, secret)) && LeftOk(s) && GrantsOk(s)
    requires IdFor(s.procs[p].job, key) !in s.saved
    ensures var t := Advance(s, ApplyCommit(s, p, key, secret, cfg)); LeftOk(t) && GrantsOk(t)
  {
  }

  lemma KeyRowsKept(db: Db, after: Db, id: PhotoId, f: Fingerprint)
    requires f in db.keys && KeyRowOk(db, f, db.keys[f]) && id !in db.photos
    requires forall other <- db.photos :: other in after.photos && after.photos[other] == db.photos[other]
    ensures KeyRowOk(after, f, db.keys[f])
  {
  }

  lemma NewKeyRow(db: Db, id: PhotoId)
    ensures IsActive(db, id) ==> KeyRowOk(db, id.fingerprint, KeyRow(KeyActive, Some(id)))
  {
  }

  lemma CommitKeys(s: State, p: nat, key: string, secret: string, cfg: Config)
    requires SaveEnabled(s, CommitPhoto(p, key, secret)) && KeysOk(s)
    requires IdFor(s.procs[p].job, key) !in s.db.photos
    ensures KeysOk(Advance(s, ApplyCommit(s, p, key, secret, cfg)))
  {
    hide CommitSave, ReceiptFor, ApplyCommit, KeyRowOk;
    var t := Advance(s, ApplyCommit(s, p, key, secret, cfg));
    NewKeyRow(t.db, IdFor(s.procs[p].job, key));
    CommitShape(s, p, key, secret, cfg);
    CommitSaveEffect(s.db, s.procs[p].job, s.procs[p].enc, s.procs[p].name, key, secret, cfg);
    forall f | f in t.db.keys ensures KeyRowOk(t.db, f, t.db.keys[f]) {
      if f != Fingerprint(key) { KeyRowsKept(s.db, t.db, IdFor(s.procs[p].job, key), f); }
    }
  }

  lemma CommitLeases(s: State, p: nat, key: string, secret: string, cfg: Config)
    requires SaveEnabled(s, CommitPhoto(p, key, secret)) && LeasesOk(s) && IdFor(s.procs[p].job, key) !in s.saved
    ensures LeasesOk(Advance(s, ApplyCommit(s, p, key, secret, cfg)))
  {
    var t := Advance(s, ApplyCommit(s, p, key, secret, cfg));
    forall r | r in t.db.leases ensures LeaseRowOk(t, r, t.db.leases[r]) {
      if r in s.db.leases { assert LeaseRowOk(s, r, s.db.leases[r]); }
    }
    forall x | x in t.answers ensures AnswerOk(t, x) {
      if x in s.answers { assert AnswerOk(s, x); }
    }
  }

  lemma CommitErasure(s: State, p: nat, key: string, secret: string, cfg: Config)
    requires SaveEnabled(s, CommitPhoto(p, key, secret)) && ErasureOk(s)
    ensures ErasureOk(Advance(s, ApplyCommit(s, p, key, secret, cfg)))
  {
    var job := s.procs[p].job;
    CommitSaveEffect(s.db, job, s.procs[p].enc, s.procs[p].name, key, secret, cfg);
  }

  lemma CommitKeeps(s: State, p: nat, key: string, secret: string, cfg: Config)
    requires Inv(s) && SaveEnabled(s, CommitPhoto(p, key, secret))
    ensures Inv(Advance(s, ApplyCommit(s, p, key, secret, cfg)))
  {
    hide RecordOf;
    CommitIsNew(s, p, key, secret);
    CommitMoves(s, p, key, secret, cfg);
    CommitHistory(s, p, key, secret, cfg);
    CommitPhotos(s, p, key, secret, cfg);
    CommitRest(s, p, key, secret, cfg);
    CommitKeys(s, p, key, secret, cfg);
    CommitLeases(s, p, key, secret, cfg);
    CommitErasure(s, p, key, secret, cfg);
    ProcsFrame(s, Advance(s, ApplyCommit(s, p, key, secret, cfg)), p);
    DownloadsFrame(s, Advance(s, ApplyCommit(s, p, key, secret, cfg)), p);
  }

  // ----- revocation and purge -----

  lemma RevokeMoves(s: State, p: nat, t: State)
    requires PurgeEnabled(s, RevokePhoto(p)) && t == Stamp(s, ApplyRevoke(s, p))
    requires WriterOk(s) && DiskDrawn(s) && ProcOk(s, p, s.procs[p])
    ensures LegalMove(s, t, p)
  {
    hide Departed, ListsDeleted, ListsExpired, RecordOf;
  }

  lemma RevokePhotos(s: State, p: nat, t: State)
    requires PurgeEnabled(s, RevokePhoto(p)) && t == Stamp(s, ApplyRevoke(s, p))
    requires PhotosOk(s) && HistoryOk(s)
    ensures PhotosOk(t) && HistoryOk(t)
  {
    hide Departed, ListsDeleted, ListsExpired, IsActive;
  }

  lemma RevokeLeft(s: State, p: nat, t: State)
    requires PurgeEnabled(s, RevokePhoto(p)) && t == Stamp(s, ApplyRevoke(s, p))
    requires PhotosOk(s) && LeftOk(s)
    ensures LeftOk(t)
  {
    hide ListsDeleted, ListsExpired, RecordOf;
  }

  lemma RevokeKeys(s: State, p: nat, t: State)
    requires PurgeEnabled(s, RevokePhoto(p)) && t == Stamp(s, ApplyRevoke(s, p))
    requires KeysOk(s)
    ensures KeysOk(t)
  {
    forall f | f in t.db.keys ensures KeyRowOk(t.db, f, t.db.keys[f]) {
      assert KeyRowOk(s.db, f, s.db.keys[f]);
    }
  }

  lemma RevokeErasure(s: State, p: nat, t: State)
    requires PurgeEnabled(s, RevokePhoto(p)) && t == Stamp(s, ApplyRevoke(s, p))
    requires ErasureOk(s) && s.procs[p].at <= Iso(s.clock)
    ensures ErasureOk(t)
  {
    hide Departed, ListsDeleted, ListsExpired, Revoke;
    RevokedRecord(s.db, s.procs[p].id, s.procs[p].at);
  }

  /** A revocation touches one record and leaves it neither purged nor active. */
  lemma RevokedRecord(db: Db, id: PhotoId, at: int)
    ensures
      var r := Revoke(db, id, at).photos;
      && r.Keys == db.photos.Keys
      && (forall other <- db.photos :: other != id ==> r[other] == db.photos[other])
      && (id in r ==> r[id].status == AccessRevoked && r[id].purgeDueAt == Some(at))
  {
  }

  /** A step on the photo table keeps the invariant if it keeps the photo ledger. */
  lemma PhotoStepKeeps(s: State, t: State, p: nat)
    requires HistoryOk(s) && ProcsOk(s) && LeasesOk(s) && GrantsOk(s) && DownloadsOk(s)
    requires LegalMove(s, t, p) && SameLeases(s, t) && t.downloads == s.downloads
    requires HistoryOk(t) && PhotosOk(t) && KeysOk(t) && LeftOk(t) && ErasureOk(t)
    requires forall k <- t.db.grants :: k in s.db.grants && t.db.grants[k].photo == s.db.grants[k].photo
    ensures Inv(t)
  {
    LeasesFrame(s, t);
    GrantsFrame(s, t);
    ProcsFrame(s, t, p);
    DownloadsFrame(s, t, p);
  }

  lemma RevokeTables(s: State, p: nat, t: State)
    requires PurgeEnabled(s, RevokePhoto(p)) && t == Stamp(s, ApplyRevoke(s, p))
    ensures SameLeases(s, t) && t.downloads == s.downloads && t.db.grants == s.db.grants
  {
    hide Departed;
  }

  lemma RevokeKeeps(s: State, p: nat, t: State)
    requires Inv(s) && PurgeEnabled(s, RevokePhoto(p)) && t == Stamp(s, ApplyRevoke(s, p))
    ensures Inv(t)
  {
    hide Stamp, ApplyRevoke, LegalMove, HistoryOk, PhotosOk, KeysOk, LeasesOk, LeftOk, GrantsOk, DownloadsOk, Apart;
    RevokeTables(s, p, t);
    RevokeMoves(s, p, t);
    RevokePhotos(s, p, t);
    RevokeLeft(s, p, t);
    RevokeKeys(s, p, t);
    RevokeErasure(s, p, t);
    PhotoStepKeeps(s, t, p);
  }

  /** The tables after the worker's purge commits. */
  function Closed(s: State, p: nat): Db
    requires p in s.procs && s.procs[p].Purging?
  {
    var q := s.procs[p];
    PurgeAll(if q.expiring then ExpirePhotos(s.db, q.at) else s.db, Ids(q.rows), q.at)
  }

  lemma CloseTables(s: State, p: nat)
    requires PurgeEnabled(s, ClosePurge(p))
    ensures ApplyClose(s, p) == End(s, p).(db := Closed(s, p), writer := None)
  {
    var q := s.procs[p];
    PurgeRowsIsPurgeAll(if q.expiring then ExpirePhotos(s.db, q.at) else s.db, q.rows, q.at);
  }

  lemma ClosedEvolves(s: State, p: nat)
    requires p in s.procs && s.procs[p].Purging?
    ensures forall id <- Closed(s, p).photos :: id in s.db.photos
    ensures forall id <- Closed(s, p).photos ::
      Closed(s, p).photos[id].status == Active ==> s.db.photos[id].status == Active
    ensures forall token :: Spent(s.db, token) ==> Spent(Closed(s, p), token)
  {
    hide Ids;
  }

  lemma CloseMoves(s: State, p: nat, t: State)
    requires PurgeEnabled(s, ClosePurge(p)) && t == Stamp(s, End(s, p).(db := Closed(s, p), writer := None))
    requires WriterOk(s) && DiskDrawn(s) && ProcOk(s, p, s.procs[p])
    ensures LegalMove(s, t, p)
  {
    hide ListsDeleted, ListsExpired, Departed, RecordOf, Closed, Spent, Names, Doomed;
    ClosedEvolves(s, p);
  }

  lemma ClosedRecords(s: State, p: nat)
    requires p in s.procs && s.procs[p].Purging?
    ensures Closed(s, p).photos.Keys == s.db.photos.Keys
    ensures forall id <- s.db.photos, c | RecordOf(s.db.photos[id], id, c) :: RecordOf(Closed(s, p).photos[id], id, c)
  {
    hide Ids;
  }

  lemma ClosePhotos(s: State, p: nat, t: State)
    requires PurgeEnabled(s, ClosePurge(p)) && t == Stamp(s, End(s, p).(db := Closed(s, p), writer := None))
    requires PhotosOk(s) && HistoryOk(s)
    ensures PhotosOk(t) && HistoryOk(t)
  {
    hide ListsDeleted, ListsExpired, Retrievable, Departed, Ids, Enabled, Closed;
    ClosedRecords(s, p);
    forall id | id in t.db.photos ensures RecordOf(t.db.photos[id], id, t.saved[id]) {
      assert RecordOf(s.db.photos[id], id, s.saved[id]);
    }
  }

  lemma CloseLeft(s: State, p: nat, t: State)
    requires PurgeEnabled(s, ClosePurge(p)) && t == Stamp(s, End(s, p).(db := Closed(s, p), writer := None))
    requires PhotosOk(s) && LeftOk(s)
    ensures LeftOk(t)
  {
  }

  /** A purge keeps a key row or retires it, and retires the row of every photo it marks purged. */
  lemma ClosedKeys(s: State, p: nat, f: Fingerprint)
    requires p in s.procs && s.procs[p].Purging? && f in s.db.keys && KeyRowOk(s.db, f, s.db.keys[f])
    ensures f in Closed(s, p).keys && KeyRowOk(Closed(s, p), f, Closed(s, p).keys[f])
    ensures forall id <- s.db.photos ::
      id in Closed(s, p).photos && (Closed(s, p).photos[id].status == Active && s.db.keys[f].photo == Some(id) ==>
                                      Closed(s, p).keys[f] == s.db.keys[f])
  {
    hide Ids;
  }

  lemma CloseKeys(s: State, p: nat, t: State)
    requires PurgeEnabled(s, ClosePurge(p)) && t == Stamp(s, End(s, p).(db := Closed(s, p), writer := None))
    requires KeysOk(s)
    ensures KeysOk(t)
  {
    hide Departed, ListsDeleted, ListsExpired, Closed, KeyRowOk;
    ClosedEvolves(s, p);
    ClosedDomain(s, p);
    forall f | f in s.db.keys ensures f in t.db.keys && KeyRowOk(t.db, f, t.db.keys[f]) {
      ClosedKeys(s, p, f);
    }
    forall id | id in t.db.photos && IsActive(t.db, id)
      ensures id.fingerprint in t.db.keys && t.db.keys[id.fingerprint] == KeyRow(KeyActive, Some(id))
    {
      assert IsActive(s.db, id);
      ClosedKeys(s, p, id.fingerprint);
    }
  }

  lemma ClosedDomain(s: State, p: nat)
    requires p in s.procs && s.procs[p].Purging?
    ensures Closed(s, p).keys.Keys == s.db.keys.Keys && Closed(s, p).photos.Keys == s.db.photos.Keys
  {
  }

  lemma RowHasId(rows: seq<PurgeRow>, row: PurgeRow)
    ensures row in rows ==> row.id in Ids(rows)
  {
    if row in rows {
      var i :| 0 <= i < |rows| && rows[i] == row;
      assert rows[i].id in Ids(rows);
    }
  }

  /** A purge that marks a record purged had it among its rows; one it leaves revoked was revoked before. */
  lemma ClosedRecord(s: State, p: nat, id: PhotoId)
    requires p in s.procs && s.procs[p].Purging? && id in s.db.photos
    requires s.procs[p].expiring && HasExpired(s.db.photos[id], s.procs[p].at) ==>
               PurgeRow(id, s.db.photos[id].name) in s.procs[p].rows
    ensures
      var c := Closed(s, p).photos;
      && id in c
      && (if id in Ids(s.procs[p].rows) then c[id].status == Purged && c[id].purgedAt.Some?
          else c[id] == s.db.photos[id])
  {
    hide Ids;
    RowHasId(s.procs[p].rows, PurgeRow(id, s.db.photos[id].name));
  }

  lemma CloseErasure(s: State, p: nat, t: State)
    requires PurgeEnabled(s, ClosePurge(p)) && t == Stamp(s, End(s, p).(db := Closed(s, p), writer := None))
    requires ErasureOk(s) && ProcOk(s, p, s.procs[p])
    ensures ErasureOk(t)
  {
    hide Departed, ListsDeleted, ListsExpired, Closed, Ids, RecordOf, Doomed, HasExpired;
    ClosedDomain(s, p);
    forall id | id in s.db.photos
      ensures if id in Ids(s.procs[p].rows) then t.db.photos[id].status == Purged && t.db.photos[id].purgedAt.Some?
              else t.db.photos[id] == s.db.photos[id]
    {
      ClosedRecord(s, p, id);
    }
    forall id | id in t.saved && Erased(t.db, id) ensures t.saved[id].name !in t.disk {
      if !Erased(s.db, id) {
        RowOfId(s.procs[p].rows, id);
      }
    }
  }

  lemma RowOfId(rows: seq<PurgeRow>, id: PhotoId)
    requires id in Ids(rows)
    ensures exists i :: 0 <= i < |rows| && rows[i].id == id
  {
  }

  lemma CloseKeepsPhotos(s: State, p: nat, t: State)
    requires PurgeEnabled(s, ClosePurge(p)) && t == Stamp(s, End(s, p).(db := Closed(s, p), writer := None))
    requires HistoryOk(s) && PhotosOk(s) && KeysOk(s) && LeftOk(s) && ErasureOk(s) && ProcOk(s, p, s.procs[p])
    ensures HistoryOk(t) && PhotosOk(t) && KeysOk(t) && LeftOk(t) && ErasureOk(t)
  {
    ClosePhotos(s, p, t);
    CloseLeft(s, p, t);
    CloseKeys(s, p, t);
    CloseErasure(s, p, t);
  }

  lemma CloseRest(s: State, p: nat, t: State)
    requires PurgeEnabled(s, ClosePurge(p)) && t == Stamp(s, End(s, p).(db := Closed(s, p), writer := None))
    ensures SameLeases(s, t) && t.downloads == s.downloads
    ensures forall k <- t.db.grants :: k in s.db.grants && t.db.grants[k].photo == s.db.grants[k].photo
  {
  }

  lemma CloseKeeps(s: State, p: nat, t: State)
    requires Inv(s) && PurgeEnabled(s, ClosePurge(p)) && t == Stamp(s, End(s, p).(db := Closed(s, p), writer := None))
    ensures Inv(t)
  {
    hide HistoryOk, PhotosOk, KeysOk, LeasesOk, LeftOk, GrantsOk, DownloadsOk, LegalMove, ProcOk, Closed, Stamp, Apart;
    CloseMoves(s, p, t);
    CloseKeepsPhotos(s, p, t);
    CloseRest(s, p, t);
    PhotoStepKeeps(s, t, p);
  }

  lemma CleanPhotosMoves(s: State, t: State)
    requires s.writer == None && t == Advance(s, s.(db := CleanPhotos(s.db)))
    requires HistoryOk(s) && ProcsOk(s) && DiskDrawn(s)
    ensures LegalMove(s, t, 0)
  {
    hide HistoryOk, ProcsOk, LegalMove;
    NobodyMoves(s, t);
  }

  lemma CleanPhotosLedger(s: State, t: State)
    requires t == Advance(s, s.(db := CleanPhotos(s.db)))
    requires HistoryOk(s) && PhotosOk(s)
    ensures HistoryOk(t) && PhotosOk(t)
  {
  }

  lemma CleanPhotosLeft(s: State, t: State)
    requires t == Advance(s, s.(db := CleanPhotos(s.db))) && LeftOk(s)
    ensures LeftOk(t)
  {
  }

  lemma CleanPhotosErasure(s: State, t: State)
    requires t == Advance(s, s.(db := CleanPhotos(s.db))) && ErasureOk(s)
    ensures ErasureOk(t)
  {
  }

  lemma CleanPhotosKeys(s: State, t: State)
    requires t == Advance(s, s.(db := CleanPhotos(s.db))) && KeysOk(s)
    ensures KeysOk(t)
  {
    forall f | f in t.db.keys ensures KeyRowOk(t.db, f, t.db.keys[f]) {
      assert KeyRowOk(s.db, f, s.db.keys[f]);
    }
  }

  lemma CleanPhotosKeeps(s: State, t: State)
    requires Inv(s) && s.writer == None && t == Stamp(s, s.(db := CleanPhotos(s.db)))
    ensures Inv(t)
  {
    NothingLeft(s, s.(db := CleanPhotos(s.db)));
    CleanPhotosMoves(s, t);
    CleanPhotosLedger(s, t);
    CleanPhotosLeft(s, t);
    CleanPhotosErasure(s, t);
    CleanPhotosKeys(s, t);
    PhotoStepKeeps(s, t, 0);
  }

  // ----- grants and downloads -----

  lemma GrantStepKeeps(s: State, t: State, p: nat)
    requires Inv(s) && LegalMove(s, t, p) && SamePhotos(s, t) && SameLeases(s, t) && GrantsOk(t) && DownloadsOk(t)
    ensures Inv(t)
  {
    PhotosFrame(s, t);
    KeysFrame(s, t);
    ErasureFrame(s, t);
    LeasesFrame(s, t);
    ProcsFrame(s, t, p);
  }

  lemma IssueKeeps(s: State, p: nat, token: Token, cfg: Config, t: State)
    requires Inv(s) && RetrieveEnabled(s, InsertGrant(p, token)) && t == Advance(s, ApplyIssue(s, p, token, cfg))
    ensures Inv(t)
  {
    IssueMoves(s, p, token, cfg, t);
    DownloadsFrame(s, t, p);
    GrantStepKeeps(s, t, p);
  }

  lemma IssueMoves(s: State, p: nat, token: Token, cfg: Config, t: State)
    requires RetrieveEnabled(s, InsertGrant(p, token)) && t == Advance(s, ApplyIssue(s, p, token, cfg))
    requires WriterOk(s) && DiskDrawn(s) && GrantsOk(s) && ProcOk(s, p, s.procs[p])
    ensures LegalMove(s, t, p) && GrantsOk(t)
  {
  }

  lemma TokenIsSpent(db: Db, token: Token, at: int)
    requires CanConsume(db, token)
    ensures ConsumeGrant(db, token, at) == db.(grants := ConsumeGrant(db, token, at).grants)
    ensures !Spent(db, token) && Spent(ConsumeGrant(db, token, at), token)
    ensures forall k :: Spent(db, k) ==> Spent(ConsumeGrant(db, token, at), k)
  {
  }

  lemma TakeEvolves(s: State, p: nat, point: Proc, at: int, t: State)
    requires p in s.procs && TokenOf(point).Some? && CanConsume(s.db, TokenOf(point).value) && DiskDrawn(s)
    requires t == Advance(s, Goto(s, p, point).(db := ConsumeGrant(s.db, TokenOf(point).value, at)))
    ensures Evolves(s, t) && Spent(t.db, TokenOf(point).value) && !Spent(s.db, TokenOf(point).value)
  {
    hide ConsumeGrant, CanConsume, Spent;
    TokenIsSpent(s.db, TokenOf(point).value, at);
  }

  lemma TakeMoves(s: State, p: nat, t: State)
    requires RetrieveEnabled(s, ConsumeToken(p)) && CanConsume(s.db, s.procs[p].token)
    requires WriterOk(s) && DiskDrawn(s) && ProcOk(s, p, s.procs[p])
    requires var q := s.procs[p];
             t == Advance(s, Goto(s, p, Consumed(q.token, q.id, q.photo, q.checkedAt)).(
                          db := ConsumeGrant(s.db, q.token, q.at)))
    ensures LegalMove(s, t, p)
  {
    hide RecordOf, ListsDeleted, ListsExpired, ConsumeGrant, CanConsume, Evolves, Spent, DiskDrawn;
    var q := s.procs[p];
    TakeEvolves(s, p, Consumed(q.token, q.id, q.photo, q.checkedAt), q.at, t);
  }

  lemma ConsumeMoves(s: State, p: nat, t: State)
    requires RetrieveEnabled(s, ConsumeToken(p)) && t == Advance(s, ApplyConsume(s, p))
    requires WriterOk(s) && DiskDrawn(s) && ProcOk(s, p, s.procs[p])
    ensures LegalMove(s, t, p)
  {
    hide ProcOk, LegalMove, ConsumeGrant;
    if CanConsume(s.db, s.procs[p].token) {
      TakeMoves(s, p, t);
    } else {
      EndMoves(s, ApplyConsume(s, p), p);
    }
  }

  lemma ConsumeGrants(s: State, p: nat, t: State)
    requires RetrieveEnabled(s, ConsumeToken(p)) && t == Advance(s, ApplyConsume(s, p)) && GrantsOk(s)
    ensures GrantsOk(t) && SamePhotos(s, t) && SameLeases(s, t) && t.downloads == s.downloads
  {
    hide ApplyConsume, RetrieveEnabled;
    ConsumeEffect(s, p);
    ConsumedTables(s, p);
  }

  lemma ConsumedTables(s: State, p: nat)
    requires RetrieveEnabled(s, ConsumeToken(p))
    ensures
      var t := ApplyConsume(s, p);
      && t.tokens == s.tokens && t.downloads == s.downloads && t.db.grants.Keys == s.db.grants.Keys
      && forall k <- s.db.grants :: t.db.grants[k].photo == s.db.grants[k].photo
  {
    hide ConsumeGrant, CanConsume;
    GrantsConsumed(s.db, s.procs[p].token, s.procs[p].at);
  }

  lemma GrantsConsumed(db: Db, token: Token, at: int)
    ensures
      var t := ConsumeGrant(db, token, at);
      && t == db.(grants := t.grants) && t.grants.Keys == db.grants.Keys
      && forall k <- db.grants :: t.grants[k].photo == db.grants[k].photo
  {
  }

  lemma ConsumeKeeps(s: State, p: nat, t: State)
    requires Inv(s) && RetrieveEnabled(s, ConsumeToken(p)) && t == Advance(s, ApplyConsume(s, p))
    ensures Inv(t)
  {
    ConsumeMoves(s, p, t);
    ConsumeGrants(s, p, t);
    DownloadsFrame(s, t, p);
    GrantStepKeeps(s, t, p);
  }

  lemma CleanGrantsMoves(s: State, at: int, t: State)
    requires t == Advance(s, s.(db := CleanGrants(s.db, at)))
    requires HistoryOk(s) && ProcsOk(s) && DiskDrawn(s)
    ensures LegalMove(s, t, 0)
  {
    hide HistoryOk, ProcsOk, LegalMove;
    NobodyMoves(s, t);
  }

  lemma CleanGrantsKeeps(s: State, at: int, t: State)
    requires Inv(s) && t == Advance(s, s.(db := CleanGrants(s.db, at)))
    ensures Inv(t)
  {
    CleanGrantsMoves(s, at, t);
    GrantsFrame(s, t);
    DownloadsFrame(s, t, 0);
    GrantStepKeeps(s, t, 0);
  }

  lemma ServeMoves(s: State, p: nat, t: State)
    requires RetrieveEnabled(s, Serve(p)) && t == Advance(s, ApplyServe(s, p))
    requires WriterOk(s) && DiskDrawn(s)
    ensures LegalMove(s, t, p)
  {
    hide ProcOk, LegalMove, ApplyServe, IsRetrieval, DiskDrawn;
    ServeShape(s, p);
    EndMoves(s, ApplyServe(s, p), p);
  }

  /** Bytes that pass the integrity check are the bytes that were saved. */
  lemma ServedBytes(photo: Photo, id: PhotoId, c: Protocol.Commit, data: Bytes)
    requires RecordOf(photo, id, c)
    ensures PassesIntegrity(photo, data) <==> data == c.data
  {
  }

  /** Serving ends the process and adds at most one download, of bytes that passed the integrity check. */
  lemma ServeShape(s: State, p: nat)
    requires RetrieveEnabled(s, Serve(p))
    ensures
      var t := ApplyServe(s, p);
      var q := s.procs[p];
      && t == s.(procs := s.procs - {p}, downloads := t.downloads)
      && (t.downloads == s.downloads
          || exists data :: PassesIntegrity(q.photo, data)
                            && t.downloads == s.downloads + [Download(q.token, q.id, data, q.checkedAt)])
  {
    hide PassesIntegrity;
  }

  lemma ServeDownloads(s: State, p: nat, t: State)
    requires RetrieveEnabled(s, Serve(p)) && t == Advance(s, ApplyServe(s, p))
    requires DownloadsOk(s) && TokensApart(s) && ProcOk(s, p, s.procs[p])
    ensures DownloadsOk(t)
  {
    hide PassesIntegrity, RecordOf, ApplyServe, CheckedInTime, Spent;
    var q := s.procs[p];
    ServeShape(s, p);
    SameChecks(s, t);
    forall d | d in s.downloads ensures DownloadOk(t, d) {
      assert DownloadOk(s, d);
    }
    if data :| PassesIntegrity(q.photo, data)
               && t.downloads == s.downloads + [Download(q.token, q.id, data, q.checkedAt)]
    {
      ServedBytes(q.photo, q.id, s.saved[q.id], data);
    }
  }

  lemma SameChecks(s: State, t: State)
    requires t.steps == s.steps + 1 && t.leftActive == s.leftActive && t.db == s.db
    ensures forall id, at: nat :: CheckedInTime(s, id, at) ==> CheckedInTime(t, id, at)
    ensures forall token :: Spent(s.db, token) ==> Spent(t.db, token)
  {
  }

  lemma ServeKeeps(s: State, p: nat, t: State)
    requires Inv(s) && RetrieveEnabled(s, Serve(p)) && t == Advance(s, ApplyServe(s, p))
    ensures Inv(t)
  {
    hide ApplyServe, PassesIntegrity;
    ServeShape(s, p);
    ServeMoves(s, p, t);
    ServeDownloads(s, p, t);
    GrantsFrame(s, t);
    GrantStepKeeps(s, t, p);
  }

  // ----- what a retrieval can change -----

  predicate IsRetrieval(q: Proc) {
    q.Resolving? || q.GrantRead? || q.PhotoChecked? || q.Consumed?
  }

  /** Only grants, tokens, downloads and the retrieving process itself change. */
  ghost predicate RetrievalOnly(s: State, t: State, p: nat) {
    && t == s.(db := s.db.(grants := t.db.grants), procs := t.procs, tokens := t.tokens, downloads := t.downloads)
    && (if p in t.procs then IsRetrieval(t.procs[p]) && t.procs == s.procs[p := t.procs[p]]
        else t.procs == s.procs - {p})
  }

  lemma CheckEffect(s: State, p: nat)
    requires RetrieveEnabled(s, CheckPhoto(p))
    ensures RetrievalOnly(s, ApplyCheck(s, p), p)
  {
  }

  lemma ConsumeEffect(s: State, p: nat)
    requires RetrieveEnabled(s, ConsumeToken(p))
    ensures RetrievalOnly(s, ApplyConsume(s, p), p)
  {
    hide CanConsume;
  }

  lemma ServeEffect(s: State, p: nat)
    requires RetrieveEnabled(s, Serve(p))
    ensures RetrievalOnly(s, ApplyServe(s, p), p)
  {
    hide PassesIntegrity;
  }

  lemma IssueEffect(s: State, p: nat, token: Token, cfg: Config)
    requires RetrieveEnabled(s, InsertGrant(p, token))
    ensures RetrievalOnly(s, ApplyIssue(s, p, token, cfg), p)
  {
  }

  lemma RetrieveEffect(s: State, a: RetrieveAction, cfg: Config)
    requires RetrieveEnabled(s, a)
    ensures RetrievalOnly(s, RetrieveApply(s, a, cfg), a.p)
  {
    hide ApplyCheck, ApplyConsume, ApplyServe, ApplyIssue, Retrievable;
    match a {
      case CheckPhoto(p) => CheckEffect(s, p);
      case ConsumeToken(p) => ConsumeEffect(s, p);
      case Serve(p) => ServeEffect(s, p);
      case InsertGrant(p, token) => IssueEffect(s, p, token, cfg);
      case ReadGrant(_, _) =>
      case ReadForResolve(_, _) =>
    }
  }

  // ----- every action -----

  lemma EnvKeeps(s: State, a: EnvAction)
    requires Inv(s) && EnvEnabled(s, a)
    ensures Inv(Stamp(s, EnvApply(s, a)))
  {
    hide HistoryOk, PhotosOk, KeysOk, LeasesOk, LeftOk, GrantsOk, DownloadsOk, LegalMove;
    NothingLeft(s, EnvApply(s, a));
    EnvMoves(s, a);
    QuietKeeps(s, EnvApply(s, a), if a.Crash? then a.p else 0);
  }

  lemma SaveMoveKeeps(s: State, a: SaveAction, cfg: Config)
    requires Inv(s) && SaveEnabled(s, a) && !a.CommitPhoto?
    ensures Inv(Stamp(s, SaveApply(s, a, cfg)))
  {
    hide HistoryOk, PhotosOk, KeysOk, LeasesOk, LeftOk, GrantsOk, DownloadsOk, LegalMove;
    NothingLeft(s, SaveApply(s, a, cfg));
    SaveMoves(s, a, cfg);
    QuietKeeps(s, SaveApply(s, a, cfg), a.p);
  }

  lemma SaveKeeps(s: State, a: SaveAction, cfg: Config)
    requires Inv(s) && SaveEnabled(s, a)
    ensures Inv(Stamp(s, SaveApply(s, a, cfg)))
  {
    hide HistoryOk, KeysOk, LeasesOk, LeftOk, GrantsOk, DownloadsOk, LegalMove, CommitSave;
    if a.CommitPhoto? {
      CommitIsNew(s, a.p, a.key, a.secret);
      CommitSaveEffect(s.db, s.procs[a.p].job, s.procs[a.p].enc, s.procs[a.p].name, a.key, a.secret, cfg);
      NothingLeft(s, ApplyCommit(s, a.p, a.key, a.secret, cfg));
      CommitKeeps(s, a.p, a.key, a.secret, cfg);
    } else {
      SaveMoveKeeps(s, a, cfg);
    }
  }

  lemma PurgeReadKeeps(s: State, a: PurgeAction)
    requires Inv(s) && PurgeEnabled(s, a) && (a.ReadForDelete? || a.ReadDue?)
    ensures Inv(Stamp(s, PurgeApply(s, a)))
  {
    hide HistoryOk, PhotosOk, KeysOk, LeasesOk, LeftOk, GrantsOk, DownloadsOk, LegalMove;
    NothingLeft(s, PurgeApply(s, a));
    PurgeSelectMoves(s, a);
    QuietKeeps(s, PurgeApply(s, a), a.p);
  }

  lemma PurgeMoveKeeps(s: State, a: PurgeAction)
    requires Inv(s) && PurgeEnabled(s, a) && (a.OpenPurge? || a.OpenExpiry? || a.UnlinkPurged?)
    ensures Inv(Stamp(s, PurgeApply(s, a)))
  {
    hide HistoryOk, PhotosOk, KeysOk, LeasesOk, LeftOk, GrantsOk, DownloadsOk, LegalMove;
    NothingLeft(s, PurgeApply(s, a));
    match a {
      case OpenPurge(p) => OpenPurgeMoves(s, p);
      case OpenExpiry(p, rows, at) => OpenExpiryMoves(s, p, rows, at);
      case UnlinkPurged(p) => UnlinkMoves(s, p);
    }
    QuietKeeps(s, PurgeApply(s, a), a.p);
  }

  lemma PurgeKeeps(s: State, a: PurgeAction)
    requires Inv(s) && PurgeEnabled(s, a)
    ensures Inv(Stamp(s, PurgeApply(s, a)))
  {
    hide Inv, Stamp, ApplyRevoke, ApplyUnlink, PurgeRows;
    match a {
      case RevokePhoto(p) => RevokeKeeps(s, p, Stamp(s, PurgeApply(s, a)));
      case ClosePurge(p) =>
        CloseTables(s, p);
        CloseKeeps(s, p, Stamp(s, PurgeApply(s, a)));
      case ReadForDelete(_, _, _) => PurgeReadKeeps(s, a);
      case ReadDue(_, _) => PurgeReadKeeps(s, a);
      case _ => PurgeMoveKeeps(s, a);
    }
  }

  lemma SweepKeeps(s: State, a: CleanAction, cfg: Config)
    requires Inv(s) && CleanEnabled(s, a) && (a.ReadKnown? || a.ComputeCutoff? || a.UnlinkOrphan?)
    ensures Inv(Stamp(s, CleanApply(s, a, cfg)))
  {
    hide HistoryOk, PhotosOk, KeysOk, LeasesOk, LeftOk, GrantsOk, DownloadsOk, LegalMove;
    NothingLeft(s, CleanApply(s, a, cfg));
    SweepMoves(s, a, cfg);
    QuietKeeps(s, CleanApply(s, a, cfg), a.p);
  }

  lemma CleanKeeps(s: State, a: CleanAction, cfg: Config)
    requires Inv(s) && CleanEnabled(s, a)
    ensures Inv(Stamp(s, CleanApply(s, a, cfg)))
  {
    hide Inv, Stamp;
    match a {
      case CleanPhotoRows => CleanPhotosKeeps(s, Stamp(s, CleanApply(s, a, cfg)));
      case CleanLeaseRows(at) =>
        NothingLeft(s, CleanApply(s, a, cfg));
        CleanLeasesKeeps(s, at, cfg);
      case CleanGrantRows(at) =>
        NothingLeft(s, CleanApply(s, a, cfg));
        CleanGrantsKeeps(s, at, Advance(s, CleanApply(s, a, cfg)));
      case _ => SweepKeeps(s, a, cfg);
    }
  }

  lemma ReadKeeps(s: State, a: RetrieveAction, cfg: Config)
    requires Inv(s) && RetrieveEnabled(s, a) && (a.ReadForResolve? || a.ReadGrant?)
    ensures Inv(Stamp(s, RetrieveApply(s, a, cfg)))
  {
    hide HistoryOk, PhotosOk, KeysOk, LeasesOk, LeftOk, GrantsOk, DownloadsOk, LegalMove;
    NothingLeft(s, RetrieveApply(s, a, cfg));
    ReadMoves(s, a, cfg);
    QuietKeeps(s, RetrieveApply(s, a, cfg), a.p);
  }

  lemma CheckShape(s: State, p: nat)
    requires RetrieveEnabled(s, CheckPhoto(p))
    ensures ApplyCheck(s, p) == s.(procs := ApplyCheck(s, p).procs)
  {
  }

  lemma CheckKeeps(s: State, p: nat)
    requires Inv(s) && RetrieveEnabled(s, CheckPhoto(p))
    ensures Inv(Stamp(s, ApplyCheck(s, p)))
  {
    hide HistoryOk, PhotosOk, KeysOk, LeasesOk, LeftOk, GrantsOk, DownloadsOk, LegalMove, ApplyCheck, Stamp;
    CheckShape(s, p);
    NothingLeft(s, ApplyCheck(s, p));
    CheckMoves(s, p);
    QuietKeeps(s, ApplyCheck(s, p), p);
  }

  lemma RetrieveKeeps(s: State, a: RetrieveAction, cfg: Config)
    requires Inv(s) && RetrieveEnabled(s, a)
    ensures Inv(Stamp(s, RetrieveApply(s, a, cfg)))
  {
    hide Inv, Stamp, ApplyIssue, ApplyConsume, ApplyServe, ApplyCheck;
    RetrieveEffect(s, a, cfg);
    NothingLeft(s, RetrieveApply(s, a, cfg));
    var t := Advance(s, RetrieveApply(s, a, cfg));
    match a {
      case InsertGrant(p, token) => IssueKeeps(s, p, token, cfg, t);
      case ConsumeToken(p) => ConsumeKeeps(s, p, t);
      case Serve(p) => ServeKeeps(s, p, t);
      case CheckPhoto(p) => CheckKeeps(s, p);
      case _ => ReadKeeps(s, a, cfg);
    }
  }

  /** A lease action changes the lease table and its history, and moves one process that holds no object. */
  ghost predicate LeaseOnly(s: State, t: State, p: nat) {
    && t == s.(db := s.db.(leases := t.db.leases), procs := t.procs, answers := t.answers, generations := t.generations)
    && (if p in t.procs then t.procs == s.procs[p := t.procs[p]] && Deciding(t.procs[p]) else t.procs == s.procs - {p})
  }

  lemma InsertEffect(s: State, p: nat)
    requires LeaseEnabled(s, TryInsert(p))
    ensures LeaseOnly(s, ApplyInsert(s, p), p)
  {
    hide InsertLease, CanInsertLease;
    InsertTouchesLeases(s.db, s.procs[p].job);
  }

  lemma UpdatesTouchLeases(db: Db, job: Job)
    ensures TakeOverLease(db, job) == db.(leases := TakeOverLease(db, job).leases)
    ensures MarkFailed(db, job) == db.(leases := MarkFailed(db, job).leases)
  {
  }

  lemma LeaseEffect(s: State, a: LeaseAction, cfg: Config)
    requires LeaseEnabled(s, a)
    ensures LeaseOnly(s, LeaseApply(s, a, cfg), a.p)
  {
    hide ApplyReadLease, ApplyInsert, TakeOverLease, MarkFailed, DecideLease;
    match a {
      case ReadLease(p) => ReadLeaseEffect(s, p, cfg);
      case TryInsert(p) => InsertEffect(s, p);
      case UpdateLease(p) => UpdatesTouchLeases(s.db, s.procs[p].job);
      case ReleaseLease(p) => UpdatesTouchLeases(s.db, s.procs[p].job);
      case BeginSave(_, _, _) =>
    }
  }

  lemma LeaseStampKeeps(s: State, a: LeaseAction, cfg: Config)
    requires Inv(s) && LeaseEnabled(s, a)
    ensures Inv(Stamp(s, LeaseApply(s, a, cfg)))
  {
    hide Inv, Stamp, LeaseApply, LeaseEnabled;
    LeaseEffect(s, a, cfg);
    NothingLeft(s, LeaseApply(s, a, cfg));
    LeaseKeeps(s, a, cfg, Advance(s, LeaseApply(s, a, cfg)));
  }

  lemma StepKeepsInv(s: State, a: Action, cfg: Config)
    requires Inv(s) && Enabled(s, a)
    ensures Inv(Step(s, a, cfg))
  {
    hide Inv, Stamp, EnvApply, LeaseApply, SaveApply, PurgeApply, CleanApply, RetrieveApply;
    hide EnvEnabled, LeaseEnabled, SaveEnabled, PurgeEnabled, CleanEnabled, RetrieveEnabled;
    match a
    case Env(e) => EnvKeeps(s, e);
    case Lease(l) => LeaseStampKeeps(s, l, cfg);
    case Save(v) => SaveKeeps(s, v, cfg);
    case Purge(g) => PurgeKeeps(s, g);
    case Clean(c) => CleanKeeps(s, c, cfg);
    case Retrieve(r) => RetrieveKeeps(s, r, cfg);
  }

  /** The invariant holds in every state any run reaches. */
  lemma {:induction false} RunKeepsInv(s: State, run: seq<Action>, t: State, cfg: Config)
    requires Inv(s) && Reaches(s, run, t, cfg)
    ensures Inv(t)
    decreases |run|
  {
    hide Inv, Step, Enabled;
    if run != [] {
      StepKeepsInv(s, run[0], cfg);
      RunKeepsInv(Step(s, run[0], cfg), run[1..], t, cfg);
    }
  }
}
