/**
 The staging protocol as a state machine.

 One action is one statement that other requests can observe: a committed
 transaction, one `storage` call, or one read.  Requests and the cleanup worker are
 processes, each at a program point; the database admits one writer at a time.  A
 process may crash between any two actions, which rolls back its open transaction
 and undoes nothing on disk.
 */
module Protocol {
  import opened Basics
  import opened Records

  /** A process and its local variables, named by the point it has reached. */
  datatype Proc =
    // save_photo
    | Saving(job: Job)                            // lease not yet attempted
    | LostInsert(job: Job)                        // the lease INSERT hit the primary key
    | TakingOver(job: Job, seen: LeaseRow)        // decided on a row it has read
    | Holding(job: Job)
    | Staged(job: Job, enc: Encoded, name: Name, writtenAt: int)
    | Undoing(job: Job, name: Name)               // rolled back, object not yet unlinked
    | Failing(job: Job)
    // delete_save and the worker's purges
    | Deleting(id: PhotoId, name: Name, at: int)  // row read, secret matched
    | PurgeSelected(rows: seq<PurgeRow>, at: int)
    | Purging(rows: seq<PurgeRow>, next: nat, at: int, expiring: bool)  // write transaction open
    // the orphan sweep
    | SweepRead(known: set<Name>, readAt: int)
    | Sweeping(known: set<Name>, cutoff: int)
    // retrieval
    | Resolving(id: PhotoId, epoch: nat)
    | GrantRead(token: Token, grant: Grant, at: int)
    | PhotoChecked(token: Token, id: PhotoId, photo: Photo, at: int, checkedAt: nat)
    | Consumed(token: Token, id: PhotoId, photo: Photo, checkedAt: nat)

  /** History of one committed save. */
  datatype Commit = Commit(
    row: RowKey, generation: nat, upload: Upload, receipt: Receipt,
    data: Bytes, name: Name, writtenAt: int, committedAt: int)

  /** A receipt handed to a client. */
  datatype Answer = Answer(row: RowKey, generation: nat, upload: Upload, photo: Option<PhotoId>, receipt: Receipt)

  /** Bytes handed to a client. */
  datatype Download = Download(token: Token, id: PhotoId, data: Bytes, checkedAt: nat)

  datatype State = State(
    db: Db, disk: Disk, clock: int, procs: map<nat, Proc>, writer: Option<nat>,
    // history, read by no action
    steps: nat,
    saved: map<PhotoId, Commit>,         // every photo ever committed
    issued: seq<Fingerprint>,
    names: set<Name>,                    // object names ever drawn
    tokens: set<Token>,                  // download tokens ever drawn
    answers: seq<Answer>,
    downloads: seq<Download>,
    generations: map<RowKey, nat>,       // how often each lease row was created
    leftActive: map<PhotoId, nat>,       // step at which a photo stopped being active
    tampered: set<Name>)                 // objects changed from outside

  const Initial := State(EmptyDb, map[], 0, map[], None, 0, map[], [], {}, {}, [], [], map[], map[], {})

  // ----- actions, by the request that takes them -----

  datatype EnvAction =
    | Tick(millis: nat)
    | Crash(p: nat)
    | Tamper(victim: Name, data: Bytes, modifiedAt: int)  // bytes changed from outside

  datatype LeaseAction =
    | BeginSave(p: nat, row: RowKey, upload: Upload)
    | TryInsert(p: nat)
    | ReadLease(p: nat)
    | UpdateLease(p: nat)
    | ReleaseLease(p: nat)

  datatype SaveAction =
    | Reject(p: nat)
    | WriteObject(p: nat, enc: Encoded, name: Name)
    | CommitPhoto(p: nat, key: string, secret: string)
    | RollBack(p: nat)
    | UnlinkStaged(p: nat)

  datatype PurgeAction =
    | ReadForDelete(p: nat, id: PhotoId, secret: string)
    | RevokePhoto(p: nat)
    | ReadDue(p: nat, rows: seq<PurgeRow>)
    | OpenPurge(p: nat)
    | OpenExpiry(p: nat, rows: seq<PurgeRow>, at: int)
    | UnlinkPurged(p: nat)
    | ClosePurge(p: nat)

  datatype CleanAction =
    | ReadKnown(p: nat)
    | ComputeCutoff(p: nat)
    | UnlinkOrphan(p: nat, victim: Name)
    | CleanLeaseRows(at: int)
    | CleanGrantRows(at: int)
    | CleanPhotoRows

  datatype RetrieveAction =
    | ReadForResolve(p: nat, id: PhotoId)
    | InsertGrant(p: nat, token: Token)
    | ReadGrant(p: nat, token: Token)
    | CheckPhoto(p: nat)
    | ConsumeToken(p: nat)
    | Serve(p: nat)

  datatype Action =
    | Env(env: EnvAction)
    | Lease(lease: LeaseAction)
    | Save(save: SaveAction)
    | Purge(purge: PurgeAction)
    | Clean(clean: CleanAction)
    | Retrieve(retrieve: RetrieveAction)

  // ----- the environment -----

  predicate EnvEnabled(s: State, a: EnvAction) {
    match a
    case Tick(_) => true
    case Crash(p) => p in s.procs
    case Tamper(victim, _, _) => victim in s.disk
  }

  function EnvApply(s: State, a: EnvAction): State
    requires EnvEnabled(s, a)
  {
    match a
    case Tick(millis) => s.(clock := s.clock + millis)
    case Crash(p) => End(s, p).(writer := if s.writer == Some(p) then None else s.writer)
    case Tamper(victim, data, modifiedAt) =>
      s.(disk := s.disk[victim := File(data, modifiedAt)], tampered := s.tampered + {victim})
  }

  function Goto(s: State, p: nat, point: Proc): State {
    s.(procs := s.procs[p := point])
  }

  function End(s: State, p: nat): State {
    s.(procs := s.procs - {p})
  }

  // ----- _acquire_lease and _mark_failed -----

  predicate LeaseEnabled(s: State, a: LeaseAction) {
    match a
    case BeginSave(p, _, _) => p !in s.procs
    case TryInsert(p) => p in s.procs && s.procs[p].Saving? && s.writer == None
    case ReadLease(p) => p in s.procs && s.procs[p].LostInsert?
    case UpdateLease(p) => p in s.procs && s.procs[p].TakingOver? && s.writer == None
    case ReleaseLease(p) => p in s.procs && s.procs[p].Failing? && s.writer == None
  }

  function Generation(s: State, row: RowKey): nat {
    if row in s.generations then s.generations[row] else 0
  }

  function Created(s: State, row: RowKey): map<RowKey, nat> {
    s.generations[row := Generation(s, row) + 1]
  }

  function ApplyInsert(s: State, p: nat): State
    requires p in s.procs && s.procs[p].Saving?
  {
    var job := s.procs[p].job;
    if CanInsertLease(s.db, job) then
      Goto(s, p, Holding(job)).(db := InsertLease(s.db, job), generations := Created(s, job.row))
    else
      Goto(s, p, LostInsert(job))
  }

  function ApplyReadLease(s: State, p: nat, cfg: Config): State
    requires p in s.procs && s.procs[p].LostInsert?
  {
    var job := s.procs[p].job;
    match DecideLease(LeaseAt(s.db, job.row), job, cfg)
    case TakeOver(seen) => Goto(s, p, TakingOver(job, seen))
    case Replay(envelope) =>
      if envelope == None then End(s, p)
      else End(s, p).(answers := s.answers + [
                          Answer(job.row, Generation(s, job.row), job.upload,
                                 s.db.leases[job.row].photo, envelope.value.receipt)])
    case Refuse(_) => End(s, p)
  }

  function LeaseApply(s: State, a: LeaseAction, cfg: Config): State
    requires LeaseEnabled(s, a)
  {
    match a
    case BeginSave(p, row, upload) => Goto(s, p, Saving(Job(row, upload, s.clock)))
    case TryInsert(p) => ApplyInsert(s, p)
    case ReadLease(p) => ApplyReadLease(s, p, cfg)
    case UpdateLease(p) => Goto(s, p, Holding(s.procs[p].job)).(db := TakeOverLease(s.db, s.procs[p].job))
    case ReleaseLease(p) => End(s, p).(db := MarkFailed(s.db, s.procs[p].job))
  }

  // ----- _do_save -----

  predicate SaveEnabled(s: State, a: SaveAction) {
    match a
    case Reject(p) => p in s.procs && s.procs[p].Holding?
    case WriteObject(p, _, name) => p in s.procs && s.procs[p].Holding? && name !in s.names
    case CommitPhoto(p, key, _) =>
      p in s.procs && s.procs[p].Staged? && s.writer == None && Fingerprint(key) !in s.db.keys
    case RollBack(p) => p in s.procs && s.procs[p].Staged?
    case UnlinkStaged(p) => p in s.procs && s.procs[p].Undoing?
  }

  function ApplyCommit(s: State, p: nat, key: string, secret: string, cfg: Config): State
    requires p in s.procs && s.procs[p].Staged?
  {
    var Staged(job, enc, name, writtenAt) := s.procs[p];
    var id := IdFor(job, key);
    var receipt := ReceiptFor(job, enc, key, secret, cfg);
    var generations := if job.row in s.db.leases then s.generations else Created(s, job.row);
    var generation := if job.row in generations then generations[job.row] else 0;
    End(s, p).(
    db := CommitSave(s.db, job, enc, name, key, secret, cfg),
    generations := generations,
    saved := s.saved[id :=
        Commit(job.row, generation, job.upload, receipt, enc.data, name, writtenAt, s.clock)],
    issued := s.issued + [Fingerprint(key)],
    answers := s.answers + [Answer(job.row, generation, job.upload, Some(id), receipt)])
  }

  function SaveApply(s: State, a: SaveAction, cfg: Config): State
    requires SaveEnabled(s, a)
  {
    match a
    case Reject(p) => Goto(s, p, Failing(s.procs[p].job))
    case WriteObject(p, enc, name) =>
      Goto(s, p, Staged(s.procs[p].job, enc, name, s.clock)).(
      disk := s.disk[name := File(enc.data, s.clock)], names := s.names + {name})
    case CommitPhoto(p, key, secret) => ApplyCommit(s, p, key, secret, cfg)
    case RollBack(p) => Goto(s, p, Undoing(s.procs[p].job, s.procs[p].name))
    case UnlinkStaged(p) => Goto(s, p, Failing(s.procs[p].job)).(disk := s.disk - {s.procs[p].name})
  }

  // ----- delete_save, purge_due and purge_expired -----

  /** `rows` is what the worker's query for photos deleted by their owners returns. */
  predicate ListsDeleted(rows: seq<PurgeRow>, db: Db, now: int) {
    && (forall r <- rows :: r.id in db.photos && DeletePurges(db.photos[r.id], now) && r.name == db.photos[r.id].name)
    && (forall id <- db.photos :: DeletePurges(db.photos[id], now) ==> PurgeRow(id, db.photos[id].name) in rows)
  }

  /** `rows` is what the worker's query for expired photos returns. */
  predicate ListsExpired(rows: seq<PurgeRow>, db: Db, now: int) {
    && (forall r <- rows :: r.id in db.photos && ExpiryPurges(db.photos[r.id], now) && r.name == db.photos[r.id].name)
    && (forall id <- db.photos :: ExpiryPurges(db.photos[id], now) ==> PurgeRow(id, db.photos[id].name) in rows)
  }

  predicate PurgeEnabled(s: State, a: PurgeAction) {
    match a
    case ReadForDelete(p, id, secret) =>
      && p !in s.procs && id in s.db.photos && s.db.photos[id].fingerprint in s.db.keys
      && s.db.photos[id].status != Purged && s.db.photos[id].deleteDigest == SecretDigest(secret)
    case RevokePhoto(p) => p in s.procs && s.procs[p].Deleting? && s.writer == None
    case ReadDue(p, rows) => p !in s.procs && ListsDeleted(rows, s.db, Iso(s.clock))
    case OpenPurge(p) => p in s.procs && s.procs[p].PurgeSelected? && s.writer == None
    case OpenExpiry(p, rows, at) =>
      && p !in s.procs && s.writer == None && at <= Iso(s.clock)
      && ListsExpired(rows, ExpirePhotos(s.db, at), at)
    case UnlinkPurged(p) => p in s.procs && s.procs[p].Purging? && s.procs[p].next < |s.procs[p].rows|
    case ClosePurge(p) => p in s.procs && s.procs[p].Purging? && s.procs[p].next == |s.procs[p].rows|
  }

  function ApplyRevoke(s: State, p: nat): State
    requires p in s.procs && s.procs[p].Deleting?
  {
    var Deleting(id, name, at) := s.procs[p];
    Goto(s, p, PurgeSelected([PurgeRow(id, name)], at)).(db := Revoke(s.db, id, at))
  }

  function ApplyUnlink(s: State, p: nat): State
    requires p in s.procs && s.procs[p].Purging? && s.procs[p].next < |s.procs[p].rows|
  {
    var Purging(rows, next, at, expiring) := s.procs[p];
    Goto(s, p, Purging(rows, next + 1, at, expiring)).(disk := s.disk - {rows[next].name})
  }

  function ApplyClose(s: State, p: nat): State
    requires p in s.procs && s.procs[p].Purging?
  {
    var Purging(rows, _, at, expiring) := s.procs[p];
    var db := if expiring then ExpirePhotos(s.db, at) else s.db;
    End(s, p).(db := PurgeRows(db, rows, at), writer := None)
  }

  function PurgeApply(s: State, a: PurgeAction): State
    requires PurgeEnabled(s, a)
  {
    match a
    case ReadForDelete(p, id, _) => Goto(s, p, Deleting(id, s.db.photos[id].name, Iso(s.clock)))
    case RevokePhoto(p) => ApplyRevoke(s, p)
    case ReadDue(p, rows) => Goto(s, p, PurgeSelected(rows, Iso(s.clock)))
    case OpenPurge(p) =>
      Goto(s, p, Purging(s.procs[p].rows, 0, s.procs[p].at, false)).(writer := Some(p))
    case OpenExpiry(p, rows, at) => Goto(s, p, Purging(rows, 0, at, true)).(writer := Some(p))
    case UnlinkPurged(p) => ApplyUnlink(s, p)
    case ClosePurge(p) => ApplyClose(s, p)
  }

  // ----- the orphan sweep and the record cleanups -----

  predicate CleanEnabled(s: State, a: CleanAction) {
    match a
    case ReadKnown(p) => p !in s.procs
    case ComputeCutoff(p) => p in s.procs && s.procs[p].SweepRead?
    case UnlinkOrphan(p, victim) =>
      && p in s.procs && s.procs[p].Sweeping? && victim !in s.procs[p].known
      && victim in s.disk && s.disk[victim].modifiedAt <= s.procs[p].cutoff
    case CleanLeaseRows(at) => s.writer == None && at <= s.clock
    case CleanGrantRows(at) => s.writer == None && at <= Iso(s.clock)
    case CleanPhotoRows => s.writer == None
  }

  function CleanApply(s: State, a: CleanAction, cfg: Config): State
    requires CleanEnabled(s, a)
  {
    match a
    case ReadKnown(p) => Goto(s, p, SweepRead(KnownObjects(s.db), s.clock))
    case ComputeCutoff(p) =>
      Goto(s, p, Sweeping(s.procs[p].known, s.clock - 1000 * cfg.orphanMinAgeSeconds))
    case UnlinkOrphan(_, victim) => s.(disk := s.disk - {victim})
    case CleanLeaseRows(at) => s.(db := CleanLeases(s.db, at, cfg))
    case CleanGrantRows(at) => s.(db := CleanGrants(s.db, at))
    case CleanPhotoRows => s.(db := CleanPhotos(s.db))
  }

  // ----- resolve and download -----

  predicate RetrieveEnabled(s: State, a: RetrieveAction) {
    match a
    case ReadForResolve(p, id) =>
      && p !in s.procs && id in s.db.photos && Retrievable(s.db.photos[id], Iso(s.clock))
      && s.db.photos[id].fingerprint in s.db.keys && s.db.keys[s.db.photos[id].fingerprint].state == KeyActive
    case InsertGrant(p, token) => p in s.procs && s.procs[p].Resolving? && s.writer == None && token !in s.tokens
    case ReadGrant(p, token) =>
      p !in s.procs && token in s.db.grants && GrantUsable(s.db.grants[token], Iso(s.clock))
    case CheckPhoto(p) => p in s.procs && s.procs[p].GrantRead?
    case ConsumeToken(p) => p in s.procs && s.procs[p].PhotoChecked? && s.writer == None
    case Serve(p) => p in s.procs && s.procs[p].Consumed?
  }

  function ApplyIssue(s: State, p: nat, token: Token, cfg: Config): State
    requires p in s.procs && s.procs[p].Resolving?
  {
    var Resolving(id, epoch) := s.procs[p];
    End(s, p).(db := IssueGrant(s.db, token, id, epoch, s.clock, cfg), tokens := s.tokens + {token})
  }

  function ApplyCheck(s: State, p: nat): State
    requires p in s.procs && s.procs[p].GrantRead?
  {
    var GrantRead(token, grant, at) := s.procs[p];
    if
      && grant.photo in s.db.photos && Retrievable(s.db.photos[grant.photo], at)
      && s.db.photos[grant.photo].epoch == grant.epoch
    then Goto(s, p, PhotoChecked(token, grant.photo, s.db.photos[grant.photo], at, s.steps))
    else End(s, p)
  }

  function ApplyServe(s: State, p: nat): State
    requires p in s.procs && s.procs[p].Consumed?
  {
    var Consumed(token, id, photo, checkedAt) := s.procs[p];
    if photo.name in s.disk && PassesIntegrity(photo, s.disk[photo.name].data) then
      End(s, p).(downloads := s.downloads + [Download(token, id, s.disk[photo.name].data, checkedAt)])
    else End(s, p)
  }

  function ApplyConsume(s: State, p: nat): State
    requires p in s.procs && s.procs[p].PhotoChecked?
  {
    var PhotoChecked(token, id, photo, at, checkedAt) := s.procs[p];
    if CanConsume(s.db, token) then
      Goto(s, p, Consumed(token, id, photo, checkedAt)).(db := ConsumeGrant(s.db, token, at))
    else End(s, p)
  }

  function RetrieveApply(s: State, a: RetrieveAction, cfg: Config): State
    requires RetrieveEnabled(s, a)
  {
    match a
    case ReadForResolve(p, id) => Goto(s, p, Resolving(id, s.db.photos[id].epoch))
    case InsertGrant(p, token) => ApplyIssue(s, p, token, cfg)
    case ReadGrant(p, token) => Goto(s, p, GrantRead(token, s.db.grants[token], Iso(s.clock)))
    case CheckPhoto(p) => ApplyCheck(s, p)
    case ConsumeToken(p) => ApplyConsume(s, p)
    case Serve(p) => ApplyServe(s, p)
  }

  // ----- steps and runs -----

  predicate IsActive(db: Db, id: PhotoId) {
    id in db.photos && db.photos[id].status == Active
  }

  predicate Leaves(s: State, t: State, id: PhotoId) {
    IsActive(s.db, id) && !IsActive(t.db, id)
  }

  /** The photos that have stopped being active, each with the step at which it first did. */
  function Departed(s: State, t: State): (m: map<PhotoId, nat>)
    ensures (forall id <- s.db.photos :: !Leaves(s, t, id)) ==> m == s.leftActive
    ensures forall id :: id in m <==> id in s.leftActive || Leaves(s, t, id)
    ensures forall id <- m :: m[id] == if Leaves(s, t, id) then s.steps else s.leftActive[id]
  {
    if forall id <- s.db.photos :: !Leaves(s, t, id) then s.leftActive
    else s.leftActive + map id | id in s.db.photos && Leaves(s, t, id) :: s.steps
  }

  /** Counts the step and records which photos stopped being active in it. */
  function Stamp(s: State, t: State): State {
    t.(steps := s.steps + 1, leftActive := Departed(s, t))
  }

  predicate Enabled(s: State, a: Action) {
    match a
    case Env(e) => EnvEnabled(s, e)
    case Lease(l) => LeaseEnabled(s, l)
    case Save(v) => SaveEnabled(s, v)
    case Purge(g) => PurgeEnabled(s, g)
    case Clean(c) => CleanEnabled(s, c)
    case Retrieve(r) => RetrieveEnabled(s, r)
  }

  function Step(s: State, a: Action, cfg: Config): State
    requires Enabled(s, a)
  {
    match a
    case Env(e) => Stamp(s, EnvApply(s, e))
    case Lease(l) => Stamp(s, LeaseApply(s, l, cfg))
    case Save(v) => Stamp(s, SaveApply(s, v, cfg))
    case Purge(g) => Stamp(s, PurgeApply(s, g))
    case Clean(c) => Stamp(s, CleanApply(s, c, cfg))
    case Retrieve(r) => Stamp(s, RetrieveApply(s, r, cfg))
  }

  /** `t` is reached from `s` by taking the actions of `run` in order. */
  predicate Reaches(s: State, run: seq<Action>, t: State, cfg: Config)
    decreases |run|
  {
    if run == [] then s == t
    else Enabled(s, run[0]) && Reaches(Step(s, run[0], cfg), run[1..], t, cfg)
  }
}
