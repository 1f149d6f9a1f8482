/**
 The staging service's durable rows, and one function for every SQL statement that
 changes them.

 Digests, MACs and the sealed response envelope are ideal: each is a constructor of
 its inputs, so equal values have equal inputs.  Times of day are milliseconds; the
 times stored in rows are whole seconds.
 */
module Records {
  import opened Basics

  type Name = string    // random object names
  type Token = string   // download tokens

  /** Seconds as stored by `_iso`, from a clock reading in milliseconds. */
  function Iso(millis: int): int {
    millis / 1000
  }

  datatype Config = Config(
    leaseSeconds: nat, windowSeconds: nat, ttlSeconds: nat, tokenTtlSeconds: nat, orphanMinAgeSeconds: nat)

  datatype Fingerprint = Fingerprint(key: string)
  datatype SecretDigest = SecretDigest(secret: string)
  datatype Mac = Mac(name: Name, length: nat, content: Bytes)
  datatype PhotoId = PhotoId(millis: int, fingerprint: Fingerprint)

  /** What a request digest covers. */
  datatype Upload = Upload(photo: Bytes, templateId: string, templateVersion: int)

  /** Session digest and idempotency-key digest: the primary key of a lease row. */
  datatype RowKey = RowKey(session: string, idempotency: string)

  /** The response of a completed save. */
  datatype Receipt = Receipt(
    key: string, deleteSecret: string, expiresAt: int,
    templateId: string, templateVersion: int, width: int, height: int)
  datatype Envelope = Sealed(receipt: Receipt)

  datatype Status = Active | AccessRevoked | BeingPurged | Purged

  datatype Photo = Photo(
    fingerprint: Fingerprint, deleteDigest: SecretDigest, name: Name, byteLength: nat, mac: Mac,
    status: Status, epoch: nat, createdAt: int, expiresAt: int,
    purgeDueAt: Option<int>, purgedAt: Option<int>)

  datatype KeyState = KeyReserved | KeyActive | KeyRetired
  datatype KeyRow = KeyRow(state: KeyState, photo: Option<PhotoId>)

  datatype Grant = Grant(photo: PhotoId, epoch: nat, expiresAt: int, consumedAt: Option<int>)

  datatype LeaseStatus = Processing | Completed | Failed
  datatype LeaseRow = LeaseRow(
    upload: Upload, status: LeaseStatus, photo: Option<PhotoId>, envelope: Option<Envelope>,
    createdAt: int, updatedAt: int)

  datatype Db = Db(
    photos: map<PhotoId, Photo>,
    keys: map<Fingerprint, KeyRow>,
    grants: map<Token, Grant>,
    leases: map<RowKey, LeaseRow>)

  const EmptyDb := Db(map[], map[], map[], map[])

  datatype File = File(data: Bytes, modifiedAt: int)
  type Disk = map<Name, File>

  // ----- save_service.py: the lease -----

  datatype Job = Job(row: RowKey, upload: Upload, startedAt: int)

  predicate CanInsertLease(db: Db, job: Job) {
    job.row !in db.leases
  }

  function InsertLease(db: Db, job: Job): Db {
    var at := Iso(job.startedAt);
    db.(leases := db.leases[job.row := LeaseRow(job.upload, Processing, None, None, at, at)])
  }

  datatype Refusal = CleanedUp | ContentConflict | InProgress(retryAfter: int)
  datatype LeaseDecision = Refuse(why: Refusal) | Replay(envelope: Option<Envelope>) | TakeOver(seen: LeaseRow)

  /** What a save does after losing the INSERT, given the row its SELECT returned. */
  function DecideLease(row: Option<LeaseRow>, job: Job, cfg: Config): LeaseDecision {
    match row
    case None => Refuse(CleanedUp)
    case Some(seen) =>
      if seen.upload != job.upload then Refuse(ContentConflict)
      else if seen.status == Completed then Replay(seen.envelope)
      else
        var heldFor := job.startedAt - 1000 * seen.updatedAt;
        if seen.status == Processing && heldFor < 1000 * cfg.leaseSeconds then
          Refuse(InProgress(Max(1, (1000 * cfg.leaseSeconds - heldFor) / 1000)))
        else
          TakeOver(seen)
  }

  function LeaseAt(db: Db, row: RowKey): Option<LeaseRow> {
    if row in db.leases then Some(db.leases[row]) else None
  }

  /** The UPDATE of a takeover: it names only the primary key. */
  function TakeOverLease(db: Db, job: Job): Db {
    if job.row !in db.leases then db
    else db.(leases := db.leases[job.row :=
        db.leases[job.row].(status := Processing, upload := job.upload, updatedAt := Iso(job.startedAt))])
  }

  function MarkFailed(db: Db, job: Job): Db {
    if job.row !in db.leases || db.leases[job.row].status != Processing then db
    else db.(leases := db.leases[job.row := db.leases[job.row].(status := Failed, updatedAt := Iso(job.startedAt))])
  }

  function CleanLeases(db: Db, now: int, cfg: Config): Db {
    var cutoff := Iso(now - 1000 * cfg.windowSeconds);
    db.(leases := map r | r in db.leases && !(db.leases[r].createdAt <= cutoff && db.leases[r].updatedAt <= cutoff)
                  :: db.leases[r])
  }

  // ----- save_service.py: the committing transaction -----

  /** A validated, re-encoded photo. */
  datatype Encoded = Encoded(data: Bytes, width: int, height: int)

  function IdFor(job: Job, key: string): PhotoId {
    PhotoId(job.startedAt, Fingerprint(key))
  }

  function ReceiptFor(job: Job, enc: Encoded, key: string, secret: string, cfg: Config): Receipt {
    Receipt(key, secret, Iso(job.startedAt + 1000 * cfg.ttlSeconds),
            job.upload.templateId, job.upload.templateVersion, enc.width, enc.height)
  }

  function ReserveKey(db: Db, key: string): Db {
    db.(keys := db.keys[Fingerprint(key) := KeyRow(KeyReserved, None)])
  }

  function InsertPhoto(db: Db, job: Job, enc: Encoded, name: Name, key: string, secret: string, cfg: Config): Db {
    var photo := Photo(
                   Fingerprint(key), SecretDigest(secret), name, |enc.data|, Mac(name, |enc.data|, enc.data),
                   Active, 0, Iso(job.startedAt), Iso(job.startedAt + 1000 * cfg.ttlSeconds), None, None);
    db.(photos := db.photos[IdFor(job, key) := photo])
  }

  function ActivateKey(db: Db, job: Job, key: string): Db {
    if Fingerprint(key) !in db.keys then db
    else db.(keys := db.keys[Fingerprint(key) := KeyRow(KeyActive, Some(IdFor(job, key)))])
  }

  /** The upsert that completes the lease: an absent row is created. */
  function CompleteLease(db: Db, job: Job, id: PhotoId, receipt: Receipt): Db {
    var at := Iso(job.startedAt);
    var created := if job.row in db.leases then db.leases[job.row].createdAt else at;
    db.(leases := db.leases[job.row :=
        LeaseRow(job.upload, Completed, Some(id), Some(Sealed(receipt)), created, at)])
  }

  /** All statements between the reservation and the commit. */
  function CommitSave(db: Db, job: Job, enc: Encoded, name: Name, key: string, secret: string, cfg: Config): Db {
    CompleteLease(
      ActivateKey(
        InsertPhoto(ReserveKey(db, key), job, enc, name, key, secret, cfg), job, key),
      job, IdFor(job, key), ReceiptFor(job, enc, key, secret, cfg))
  }

  // ----- saves.py and worker.py: revocation and purge -----

  /** The revocation UPDATE of a user's delete: it has no condition on the status. */
  function Revoke(db: Db, id: PhotoId, now: int): Db {
    if id !in db.photos then db
    else db.(photos := db.photos[id := db.photos[id].(
        status := AccessRevoked, epoch := db.photos[id].epoch + 1, purgeDueAt := Some(now))])
  }

  predicate HasExpired(photo: Photo, now: int) {
    photo.status == Active && photo.expiresAt <= now
  }

  function ExpirePhotos(db: Db, now: int): Db {
    db.(photos := map id | id in db.photos ::
          var p := db.photos[id];
          if HasExpired(p, now) then p.(status := AccessRevoked, epoch := p.epoch + 1) else p)
  }

  predicate AwaitsErasure(photo: Photo) {
    photo.status == AccessRevoked || photo.status == BeingPurged
  }

  predicate ExpiryPurges(photo: Photo, now: int) {
    AwaitsErasure(photo) && photo.expiresAt <= now
  }

  predicate DeletePurges(photo: Photo, now: int) {
    AwaitsErasure(photo) && photo.purgeDueAt.Some? && photo.purgeDueAt.value <= now
  }

  function MarkPurging(db: Db, id: PhotoId): Db {
    if id !in db.photos then db
    else db.(photos := db.photos[id := db.photos[id].(status := BeingPurged)])
  }

  function VoidGrants(db: Db, id: PhotoId, now: int): Db {
    db.(grants := map t | t in db.grants ::
          var g := db.grants[t];
          if g.photo == id && g.consumedAt == None then g.(consumedAt := Some(now)) else g)
  }

  function RetireKeys(db: Db, id: PhotoId): Db {
    db.(keys := map f | f in db.keys ::
          if db.keys[f].photo == Some(id) then KeyRow(KeyRetired, None) else db.keys[f])
  }

  function MarkPurged(db: Db, id: PhotoId, now: int): Db {
    if id !in db.photos then db
    else db.(photos := db.photos[id := db.photos[id].(status := Purged, purgedAt := Some(now))])
  }

  /** `purge_photo`, without its `storage.delete`. */
  function PurgePhoto(db: Db, id: PhotoId, now: int): Db {
    MarkPurged(RetireKeys(VoidGrants(MarkPurging(db, id), id, now), id), id, now)
  }

  datatype PurgeRow = PurgeRow(id: PhotoId, name: Name)

  function PurgeRows(db: Db, rows: seq<PurgeRow>, now: int): Db {
    if rows == [] then db
    else PurgePhoto(PurgeRows(db, rows[..|rows| - 1], now), rows[|rows| - 1].id, now)
  }

  function CleanGrants(db: Db, now: int): Db {
    db.(grants := map t | t in db.grants && db.grants[t].consumedAt == None && now < db.grants[t].expiresAt
                  :: db.grants[t])
  }

  function CleanPhotos(db: Db): Db {
    db.(photos := map id | id in db.photos && !(db.photos[id].status == Purged && db.photos[id].purgedAt.Some?)
                  :: db.photos[id])
  }

  function KnownObjects(db: Db): set<Name> {
    set id | id in db.photos :: db.photos[id].name
  }

  // ----- retrievals.py -----

  predicate Retrievable(photo: Photo, now: int) {
    photo.status == Active && now < photo.expiresAt
  }

  predicate GrantUsable(grant: Grant, now: int) {
    grant.consumedAt == None && now < grant.expiresAt
  }

  function IssueGrant(db: Db, token: Token, id: PhotoId, epoch: nat, now: int, cfg: Config): Db {
    db.(grants := db.grants[token := Grant(id, epoch, Iso(now + 1000 * cfg.tokenTtlSeconds), None)])
  }

  predicate CanConsume(db: Db, token: Token) {
    token in db.grants && db.grants[token].consumedAt == None
  }

  function ConsumeGrant(db: Db, token: Token, now: int): Db {
    if !CanConsume(db, token) then db
    else db.(grants := db.grants[token := db.grants[token].(consumedAt := Some(now))])
  }

  /** The length and MAC checks made on the bytes read back. */
  predicate PassesIntegrity(photo: Photo, data: Bytes) {
    |data| == photo.byteLength && Mac(photo.name, |data|, data) == photo.mac
  }
}
