/**
 The save request from lease to commit, run without interruption on one connection, and
 what its caller can do next: replay it, retry it, fetch the photo, delete it.
 */
module Saves {
  import opened Basics
  import opened Records
  import opened PurgeLaws
  import opened Store
  import opened Templates
  import opened Encoding
  import Jpeg

  /** Everything a save draws at random. */
  datatype Draws = Draws(name: Name, keys: seq<string>, secret: string)

  datatype SaveError =
    | Refused(why: Refusal) | EnvelopeMissing
    | TemplateUnavailable | PhotoRejected(reason: PhotoError)
    | NotStored | KeysExhausted | DatabaseFailed

  /** The statements of the committing transaction. */
  datatype Statement = Reserving | Inserting | Activating | Completing | Committing

  /** What goes wrong: the write after some bytes, a statement of the transaction, the release of the lease. */
  datatype Faults = Faults(write: Option<nat>, database: Option<Statement>, release: bool)

  type Answered = Result<Receipt, SaveError>

  datatype Outcome = Outcome(db: Db, files: Disk, answer: Answered)

  // ----- _reserve_key -----

  const RESERVE_ATTEMPTS := 50

  /** The keys a save tries before it gives up. */
  function Tried(draws: Draws): seq<string> {
    if |draws.keys| <= RESERVE_ATTEMPTS then draws.keys else draws.keys[..RESERVE_ATTEMPTS]
  }

  function FirstFree(db: Db, draws: seq<string>): Option<string> {
    if draws == [] then None
    else if Fingerprint(draws[0]) !in db.keys then Some(draws[0])
    else FirstFree(db, draws[1..])
  }

  /** The key reserved is the first drawn that was never issued; there is none only if all were. */
  lemma {:induction false} FirstFreeIsFirst(db: Db, draws: seq<string>)
    ensures FirstFree(db, draws) == None <==> forall k <- draws :: Fingerprint(k) in db.keys
    ensures FirstFree(db, draws).Some? ==>
      exists i :: 0 <= i < |draws| && draws[i] == FirstFree(db, draws).value && Fingerprint(draws[i]) !in db.keys
                  && forall j :: 0 <= j < i ==> Fingerprint(draws[j]) in db.keys
  {
    if draws != [] && Fingerprint(draws[0]) in db.keys {
      FirstFreeIsFirst(db, draws[1..]);
      assert draws == [draws[0]] + draws[1..];
      if FirstFree(db, draws).Some? {
        var i :| 0 <= i < |draws[1..]| && draws[1..][i] == FirstFree(db, draws[1..]).value
                 && Fingerprint(draws[1..][i]) !in db.keys
                 && forall j :: 0 <= j < i ==> Fingerprint(draws[1..][j]) in db.keys;
        assert draws[i + 1] == FirstFree(db, draws).value;
      }
    }
  }

  /** Each draw is tried by INSERT; a taken fingerprint is passed over. */
  method ReserveFreeKey(conn: Connection, draws: seq<string>) returns (key: Option<string>)
    modifies conn`db
    ensures key == FirstFree(old(conn.db), draws)
    ensures conn.db == if key.Some? then ReserveKey(old(conn.db), key.value) else old(conn.db)
  {
    for i := 0 to |draws|
      invariant conn.db == old(conn.db)
      invariant FirstFree(conn.db, draws) == FirstFree(conn.db, draws[i..])
    {
      assert draws[i..][1..] == draws[i + 1..];
      if Fingerprint(draws[i]) !in conn.db.keys {
        conn.db := ReserveKey(conn.db, draws[i]);
        return Some(draws[i]);
      }
    }
    return None;
  }

  // ----- _acquire_lease -----

  datatype Lease = Held | Turned(answer: Answered)

  function LeaseOf(db: Db, job: Job, cfg: Config): Lease {
    if CanInsertLease(db, job) then Held
    else
      match DecideLease(LeaseAt(db, job.row), job, cfg)
      case TakeOver(_) => Held
      case Replay(envelope) => Turned(if envelope == None then Err(EnvelopeMissing) else Ok(envelope.value.receipt))
      case Refuse(why) => Turned(Err(Refused(why)))
  }

  function Leased(db: Db, job: Job, cfg: Config): Db {
    if !LeaseOf(db, job, cfg).Held? then db
    else if CanInsertLease(db, job) then InsertLease(db, job)
    else TakeOverLease(db, job)
  }

  method AcquireLease(conn: Connection, job: Job, cfg: Config) returns (lease: Lease)
    requires conn.db == conn.committed
    modifies conn
    ensures lease == LeaseOf(old(conn.db), job, cfg)
    ensures conn.db == conn.committed == Leased(old(conn.db), job, cfg)
  {
    if CanInsertLease(conn.db, job) {
      conn.db := InsertLease(conn.db, job);
      conn.Commit();
      return Held;
    }
    conn.Rollback();
    match DecideLease(LeaseAt(conn.db, job.row), job, cfg) {
      case Refuse(why) => return Turned(Err(Refused(why)));
      case Replay(envelope) =>
        return Turned(if envelope == None then Err(EnvelopeMissing) else Ok(envelope.value.receipt));
      case TakeOver(_) =>
        conn.db := TakeOverLease(conn.db, job);
        conn.Commit();
        return Held;
    }
  }

  /**
   What a save that lost the INSERT is told: that the row has vanished, exactly when it has (and
   then a retry takes the lease); that the content differs, exactly when it does; the sealed
   receipt, exactly when the row is completed; to wait, exactly while the holder's lease runs.
   */
  lemma DecidedExactly(db: Db, job: Job, cfg: Config)
    ensures
      var row, decision := LeaseAt(db, job.row), DecideLease(LeaseAt(db, job.row), job, cfg);
      var same := row.Some? && row.value.upload == job.upload;
      var running := row.Some? && row.value.status == Processing
                     && job.startedAt < 1000 * (row.value.updatedAt + cfg.leaseSeconds);
      && (decision == Refuse(CleanedUp) <==> job.row !in db.leases)
      && (job.row !in db.leases ==> LeaseOf(db, job, cfg).Held?)
      && (decision == Refuse(ContentConflict) <==> job.row in db.leases && !same)
      && (decision.Replay? <==> same && row.value.status == Completed)
      && (decision.Replay? ==>
            LeaseOf(db, job, cfg) == Turned(
              if row.value.envelope.Some? then Ok(row.value.envelope.value.receipt) else Err(EnvelopeMissing)))
      && (decision.Refuse? && job.row in db.leases ==> LeaseOf(db, job, cfg) == Turned(Err(Refused(decision.why))))
      && (decision.Refuse? && decision.why.InProgress? <==> same && running)
      && (decision.TakeOver? <==> same && row.value.status != Completed && !running)
  {
  }

  // ----- _do_save: template and photo -----

  /** A published revision of a template. */
  datatype Entry = Entry(id: string, version: int, active: bool, output: Output, maxBytes: Option<nat>)

  /** What a save reads besides the stores: the catalogue, the decoder, the server's limits. */
  datatype Site = Site(catalog: seq<Entry>, decode: Bytes -> Option<Picture>, limits: ServerLimits)

  predicate Pins(upload: Upload, e: Entry) {
    e.id == upload.templateId && e.version == upload.templateVersion
  }

  function EntryFor(catalog: seq<Entry>, upload: Upload): Option<Entry> {
    if catalog == [] then None
    else if Pins(upload, catalog[0]) then Some(catalog[0])
    else EntryFor(catalog[1..], upload)
  }

  method FindEntry(catalog: seq<Entry>, upload: Upload) returns (entry: Option<Entry>)
    ensures entry == EntryFor(catalog, upload)
    ensures entry == None <==> forall e <- catalog :: !Pins(upload, e)
    ensures entry.Some? ==> entry.value in catalog && Pins(upload, entry.value)
  {
    for i := 0 to |catalog|
      invariant EntryFor(catalog, upload) == EntryFor(catalog[i..], upload)
      invariant forall j :: 0 <= j < i ==> !Pins(upload, catalog[j])
    {
      assert catalog[i..][1..] == catalog[i + 1..];
      if Pins(upload, catalog[i]) {
        return Some(catalog[i]);
      }
    }
    return None;
  }

  function PpiOf(output: Output): Option<nat> {
    if output.PhysicalRaster? then Some(output.printPpi) else None
  }

  /** The photo to store, or why there is none. */
  function Prepared(upload: Upload, site: Site): Result<Encoded, SaveError> {
    var entry := EntryFor(site.catalog, upload);
    if entry == None || !entry.value.active || ConstraintOf(entry.value.output) == None then Err(TemplateUnavailable)
    else
      var e := entry.value;
      match Validated(|upload.photo|, site.decode(upload.photo), e.maxBytes, site.limits,
                      ConstraintOf(e.output).value, PpiOf(e.output))
      case Ok(a) => Ok(Encoded(a.data, a.size.width, a.size.height))
      case Err(why) => Err(PhotoRejected(why))
  }

  method Prepare(upload: Upload, site: Site) returns (photo: Result<Encoded, SaveError>)
    ensures photo == Prepared(upload, site)
  {
    hide Validated;
    var entry := FindEntry(site.catalog, upload);
    if entry == None || !entry.value.active {
      return Err(TemplateUnavailable);
    }
    var e := entry.value;
    var constraint := ConstraintOf(e.output);
    if constraint == None {
      return Err(TemplateUnavailable);
    }
    var r := ValidateAndReencode(
      |upload.photo|, site.decode(upload.photo), e.maxBytes, site.limits, constraint.value, PpiOf(e.output));
    match r {
      case Ok(a) => return Ok(Encoded(a.data, a.size.width, a.size.height));
      case Err(why) => return Err(PhotoRejected(why));
    }
  }

  // ----- _do_save: object and transaction -----

  function Attempt(
    db: Db, files: Disk, job: Job, photo: Result<Encoded, SaveError>, draws: Draws, now: int, faults: Faults,
    cfg: Config): Outcome
  {
    if photo.Err? then Outcome(db, files, Err(photo.error))
    else if draws.name in files || faults.write.Some? then Outcome(db, files, Err(NotStored))
    else if faults.database == Some(Reserving) then Outcome(db, files, Err(DatabaseFailed))
    else
      match FirstFree(db, Tried(draws))
      case None => Outcome(db, files, Err(KeysExhausted))
      case Some(key) =>
        if faults.database.Some? then Outcome(db, files, Err(DatabaseFailed))
        else Outcome(
            CommitSave(db, job, photo.value, draws.name, key, draws.secret, cfg),
            files[draws.name := File(photo.value.data, now)],
            Ok(ReceiptFor(job, photo.value, key, draws.secret, cfg)))
  }

  /** The committing transaction, up to the statement that fails. */
  method Transact(
    conn: Connection, job: Job, enc: Encoded, draws: Draws, fault: Option<Statement>, cfg: Config)
    returns (answer: Answered)
    requires conn.db == conn.committed
    modifies conn
    ensures
      var key := FirstFree(old(conn.db), Tried(draws));
      if fault == Some(Reserving) then answer == Err(DatabaseFailed)
      else if key == None then answer == Err(KeysExhausted)
      else if fault.Some? then answer == Err(DatabaseFailed)
      else
        && answer == Ok(ReceiptFor(job, enc, key.value, draws.secret, cfg))
        && conn.db == conn.committed == CommitSave(old(conn.db), job, enc, draws.name, key.value, draws.secret, cfg)
    ensures answer.Err? ==> conn.committed == old(conn.committed)
  {
    hide FirstFree, ReserveKey, InsertPhoto, ActivateKey, CompleteLease, ReceiptFor;
    assert fault.Some? ==> fault.value.Reserving? || fault.value.Inserting? || fault.value.Activating?
                           || fault.value.Completing? || fault.value.Committing?;
    if fault == Some(Reserving) {
      return Err(DatabaseFailed);
    }
    var key := ReserveFreeKey(conn, Tried(draws));
    if key == None {
      return Err(KeysExhausted);
    }
    var receipt := ReceiptFor(job, enc, key.value, draws.secret, cfg);
    if fault == Some(Inserting) {
      return Err(DatabaseFailed);
    }
    conn.db := InsertPhoto(conn.db, job, enc, draws.name, key.value, draws.secret, cfg);
    if fault == Some(Activating) {
      return Err(DatabaseFailed);
    }
    conn.db := ActivateKey(conn.db, job, key.value);
    if fault == Some(Completing) {
      return Err(DatabaseFailed);
    }
    conn.db := CompleteLease(conn.db, job, IdFor(job, key.value), receipt);
    if fault == Some(Committing) {
      return Err(DatabaseFailed);
    }
    conn.Commit();
    return Ok(receipt);
  }

  /**
   Validates, writes the object, then runs the committing transaction; any failure after the
   write rolls back and unlinks the object.
   */
  method DoSave(
    conn: Connection, storage: Storage, job: Job, site: Site, draws: Draws, now: int, faults: Faults, cfg: Config)
    returns (answer: Answered)
    requires conn.db == conn.committed
    modifies conn, storage
    ensures Outcome(conn.db, storage.files, answer) ==
            Attempt(old(conn.db), old(storage.files), job, Prepared(job.upload, site), draws, now, faults, cfg)
    ensures conn.db == conn.committed
  {
    hide Prepared, FirstFree, CommitSave, ReceiptFor;
    var photo := Prepare(job.upload, site);
    if photo.Err? {
      return Err(photo.error);
    }
    var enc := photo.value;
    var written := storage.Write(draws.name, enc.data, now, faults.write);
    if !written {
      return Err(NotStored);
    }
    answer := Transact(conn, job, enc, draws, faults.database, cfg);
    if answer.Err? {
      conn.Rollback();
      storage.Delete(draws.name);
      assert old(storage.files)[draws.name := File(enc.data, now)] - {draws.name} == old(storage.files);
    }
  }

  // ----- save_photo -----

  function SaveOutcome(
    db: Db, files: Disk, job: Job, photo: Result<Encoded, SaveError>, draws: Draws, now: int, faults: Faults,
    cfg: Config): Outcome
  {
    match LeaseOf(db, job, cfg)
    case Turned(answer) => Outcome(db, files, answer)
    case Held =>
      var o := Attempt(Leased(db, job, cfg), files, job, photo, draws, now, faults, cfg);
      if o.answer.Ok? || faults.release then o else o.(db := MarkFailed(o.db, job))
  }

  method SavePhoto(
    conn: Connection, storage: Storage, job: Job, site: Site, draws: Draws, now: int, faults: Faults, cfg: Config)
    returns (answer: Answered)
    requires conn.db == conn.committed
    modifies conn, storage
    ensures Outcome(conn.db, storage.files, answer) ==
            SaveOutcome(old(conn.db), old(storage.files), job, Prepared(job.upload, site), draws, now, faults, cfg)
    ensures conn.db == conn.committed
  {
    hide Attempt, DecideLease, InsertLease, TakeOverLease, Prepared;
    var lease := AcquireLease(conn, job, cfg);
    if lease.Turned? {
      return lease.answer;
    }
    answer := DoSave(conn, storage, job, site, draws, now, faults, cfg);
    if answer.Err? {
      conn.Rollback();
      if !faults.release {
        conn.db := MarkFailed(conn.db, job);
        conn.Commit();
      }
    }
  }

  // ----- what a save leaves behind -----

  predicate SameButLease(db: Db, after: Db, row: RowKey) {
    && after.photos == db.photos && after.keys == db.keys && after.grants == db.grants
    && after.leases.Keys == db.leases.Keys + {row}
    && forall r <- db.leases :: r != row ==> after.leases[r] == db.leases[r]
  }

  /** The photo is one the pinned, active template allows, within every cap. */
  ghost predicate Allowed(enc: Encoded, upload: Upload, site: Site) {
    exists e <- site.catalog ::
      && Pins(upload, e) && e.active && ConstraintOf(e.output).Some?
      && MeetsConstraint(Size(enc.width, enc.height), ConstraintOf(e.output).value)
      && enc.width * enc.height <= site.limits.maxPixels && |enc.data| <= site.limits.maxUploadBytes
      && (e.maxBytes.Some? ==> |enc.data| <= e.maxBytes.value)
      && (e.output.PhysicalRaster? ==>
            Jpeg.DensityOf(enc.data) == Some(Jpeg.Density(1, e.output.printPpi, e.output.printPpi)))
  }

  /** Entry `i` is the first of the catalogue that the upload pins. */
  ghost predicate FirstPinned(catalog: seq<Entry>, upload: Upload, i: int) {
    0 <= i < |catalog| && Pins(upload, catalog[i]) && forall j :: 0 <= j < i ==> !Pins(upload, catalog[j])
  }

  lemma {:induction false} EntryIsFirst(catalog: seq<Entry>, upload: Upload)
    ensures
      match EntryFor(catalog, upload)
      case None => forall e <- catalog :: !Pins(upload, e)
      case Some(e) => e in catalog && Pins(upload, e) && exists i :: FirstPinned(catalog, upload, i) && catalog[i] == e
  {
    if catalog != [] {
      assert catalog == [catalog[0]] + catalog[1..];
      if Pins(upload, catalog[0]) {
        assert FirstPinned(catalog, upload, 0);
      } else {
        EntryIsFirst(catalog[1..], upload);
        if EntryFor(catalog[1..], upload).Some? {
          var i :| FirstPinned(catalog[1..], upload, i) && catalog[1..][i] == EntryFor(catalog[1..], upload).value;
          assert forall j :: 0 <= j < i + 1 ==> j == 0 || catalog[j] == catalog[1..][j - 1];
          assert FirstPinned(catalog, upload, i + 1);
        }
      }
    }
  }

  lemma PreparedIsAllowed(upload: Upload, site: Site)
    requires Prepared(upload, site).Ok?
    ensures Allowed(Prepared(upload, site).value, upload, site)
  {
    hide Validated, MeetsConstraint, ConstraintOf, EffectiveMax, Jpeg.DensityOf;
    EntryIsFirst(site.catalog, upload);
    var e := EntryFor(site.catalog, upload).value;
    AcceptedMeetsItsLimits(|upload.photo|, site.decode(upload.photo), e.maxBytes, site.limits,
                           ConstraintOf(e.output).value, PpiOf(e.output));
  }

  /**
   A save that takes the lease and answers with a receipt has stored a photo that the
   receipt's own template, active and in the catalogue, allows, under the receipt's size.
   */
  lemma SavedMeetsItsTemplate(
    db: Db, files: Disk, job: Job, site: Site, draws: Draws, now: int, faults: Faults, cfg: Config)
    requires LeaseOf(db, job, cfg).Held?
    ensures
      var o := SaveOutcome(db, files, job, Prepared(job.upload, site), draws, now, faults, cfg);
      o.answer.Ok? ==>
        && var receipt := o.answer.value;
        && draws.name !in files && draws.name in o.files
        && receipt.templateId == job.upload.templateId && receipt.templateVersion == job.upload.templateVersion
        && Allowed(Encoded(o.files[draws.name].data, receipt.width, receipt.height), job.upload, site)
  {
    hide Prepared, Allowed, Leased, FirstFree, CommitSave;
    if Prepared(job.upload, site).Ok? {
      PreparedIsAllowed(job.upload, site);
    }
  }

  lemma LeasedIsProcessing(db: Db, job: Job, cfg: Config)
    requires LeaseOf(db, job, cfg).Held?
    ensures
      var held := Leased(db, job, cfg);
      && SameButLease(db, held, job.row)
      && held.leases[job.row].status == Processing && held.leases[job.row].upload == job.upload
      && held.leases[job.row].updatedAt == Iso(job.startedAt)
  {
  }

  lemma FailedAttemptIsUndone(
    db: Db, files: Disk, job: Job, photo: Result<Encoded, SaveError>, draws: Draws, now: int, faults: Faults,
    cfg: Config)
    requires Attempt(db, files, job, photo, draws, now, faults, cfg).answer.Err?
    ensures
      var o := Attempt(db, files, job, photo, draws, now, faults, cfg);
      o.db == db && o.files == files
  {
    hide CommitSave, ReceiptFor, FirstFree;
  }

  /** How long after the start recorded in the lease row the other request comes. */
  function HeldFor(job: Job, other: Job): int {
    other.startedAt - 1000 * Iso(job.startedAt)
  }

  /**
   A save that fails after taking the lease leaves no photo, key, grant or object, touches
   no other lease, and hands its own on: the same request takes it at any later moment, or,
   if not even the release could be written, exactly when the lease has run out.
   */
  lemma FailedSaveIsUndone(
    db: Db, files: Disk, job: Job, photo: Result<Encoded, SaveError>, draws: Draws, now: int, faults: Faults,
    cfg: Config, retry: Job)
    requires LeaseOf(db, job, cfg).Held? && SaveOutcome(db, files, job, photo, draws, now, faults, cfg).answer.Err?
    requires retry.row == job.row && retry.upload == job.upload
    ensures
      var o := SaveOutcome(db, files, job, photo, draws, now, faults, cfg);
      && o.files == files && SameButLease(db, o.db, job.row)
      && (LeaseOf(o.db, retry, cfg).Held? <==> !faults.release || 1000 * cfg.leaseSeconds <= HeldFor(job, retry))
  {
    hide Attempt, Leased;
    LeasedIsProcessing(db, job, cfg);
    FailedAttemptIsUndone(Leased(db, job, cfg), files, job, photo, draws, now, faults, cfg);
  }

  /** Until the holder's lease has run out, anyone else is told to wait, for at most the time it has left. */
  lemma LeaseExcludes(db: Db, job: Job, cfg: Config, other: Job)
    requires LeaseOf(db, job, cfg).Held? && other.row == job.row && other.upload == job.upload
    ensures
      var heldFor := HeldFor(job, other);
      var lease := LeaseOf(Leased(db, job, cfg), other, cfg);
      if heldFor < 1000 * cfg.leaseSeconds
      then exists wait :: lease == Turned(Err(Refused(InProgress(wait))))
                          && 1 <= wait && (wait == 1 || 1000 * wait <= 1000 * cfg.leaseSeconds - heldFor)
      else lease.Held?
  {
    hide Leased;
    var held := Leased(db, job, cfg);
    LeasedIsProcessing(db, job, cfg);
    var heldFor := HeldFor(job, other);
    if heldFor < 1000 * cfg.leaseSeconds {
      var wait := Max(1, (1000 * cfg.leaseSeconds - heldFor) / 1000);
      assert LeaseOf(held, other, cfg) == Turned(Err(Refused(InProgress(wait))));
    }
  }

  lemma CompletedRow(
    db: Db, files: Disk, job: Job, photo: Result<Encoded, SaveError>, draws: Draws, now: int, faults: Faults,
    cfg: Config)
    requires LeaseOf(db, job, cfg).Held? && SaveOutcome(db, files, job, photo, draws, now, faults, cfg).answer.Ok?
    ensures
      var o := SaveOutcome(db, files, job, photo, draws, now, faults, cfg);
      && job.row in o.db.leases
      && var row := o.db.leases[job.row];
      && row.status == Completed && row.upload == job.upload && row.envelope == Some(Sealed(o.answer.value))
  {
    hide Leased, LeaseOf, FirstFree, ReceiptFor;
    var key := FirstFree(Leased(db, job, cfg), Tried(draws)).value;
    CommitSaveEffect(Leased(db, job, cfg), job, photo.value, draws.name, key, draws.secret, cfg);
  }

  /**
   After a successful save, the same request is answered with the same receipt and changes
   nothing, and the same idempotency key with other content is refused and changes nothing.
   */
  lemma SavedOnce(
    db: Db, files: Disk, job: Job, photo: Result<Encoded, SaveError>, draws: Draws, now: int, faults: Faults,
    cfg: Config, again: Job, photo': Result<Encoded, SaveError>, draws': Draws, now': int, faults': Faults)
    requires LeaseOf(db, job, cfg).Held? && SaveOutcome(db, files, job, photo, draws, now, faults, cfg).answer.Ok?
    requires again.row == job.row
    ensures
      var o := SaveOutcome(db, files, job, photo, draws, now, faults, cfg);
      SaveOutcome(o.db, o.files, again, photo', draws', now', faults', cfg) ==
      if again.upload == job.upload then o else Outcome(o.db, o.files, Err(Refused(ContentConflict)))
  {
    hide Leased, Attempt;
    CompletedRow(db, files, job, photo, draws, now, faults, cfg);
  }

  /**
   Who is turned away, over all requests on the row: while the save runs, those with other
   content and those within the lease; once it has ended, those with other content and, if it
   succeeded, everyone; if it failed without releasing the lease, again those within it.
   */
  lemma TurnedAwayExactly(
    db: Db, files: Disk, job: Job, photo: Result<Encoded, SaveError>, draws: Draws, now: int, faults: Faults,
    cfg: Config, other: Job)
    requires LeaseOf(db, job, cfg).Held? && other.row == job.row
    ensures
      var o := SaveOutcome(db, files, job, photo, draws, now, faults, cfg);
      var tooEarly := HeldFor(job, other) < 1000 * cfg.leaseSeconds;
      && (LeaseOf(Leased(db, job, cfg), other, cfg).Turned? <==> other.upload != job.upload || tooEarly)
      && (LeaseOf(o.db, other, cfg).Turned? <==>
          other.upload != job.upload || o.answer.Ok? || (faults.release && tooEarly))
  {
    hide Attempt, Leased;
    LeasedIsProcessing(db, job, cfg);
    var o := SaveOutcome(db, files, job, photo, draws, now, faults, cfg);
    if o.answer.Ok? {
      CompletedRow(db, files, job, photo, draws, now, faults, cfg);
    } else {
      FailedAttemptIsUndone(Leased(db, job, cfg), files, job, photo, draws, now, faults, cfg);
    }
  }

  /**
   The wait told to a client is the shortest in whole seconds, up to the last: returning
   earlier is in vain, returning then finds the lease free or is told one last second, and
   that second suffices.  The row is as the client left it.
   */
  lemma AdvisedWaitIsShortest(db: Db, first: Job, wait: int, again: Job, cfg: Config)
    requires LeaseOf(db, first, cfg) == Turned(Err(Refused(InProgress(wait))))
    requires again.row == first.row && again.upload == first.upload
    ensures
      var lease := LeaseOf(db, again, cfg);
      var waited := again.startedAt - first.startedAt;
      && (waited < 1000 * wait && wait > 1 ==> lease.Turned?)
      && (1000 * wait <= waited ==> lease.Held? || lease == Turned(Err(Refused(InProgress(1)))))
      && (1000 * (wait + 1) <= waited ==> lease.Held?)
  {
  }

  /** The template the upload pins can be saved for: it is published, and rendered by the editor. */
  ghost predicate Open(upload: Upload, site: Site) {
    exists i :: FirstPinned(site.catalog, upload, i) && site.catalog[i].active
                && ConstraintOf(site.catalog[i].output).Some?
  }

  lemma TemplateUnavailableExactly(upload: Upload, site: Site)
    ensures Prepared(upload, site) == Err(TemplateUnavailable) <==> !Open(upload, site)
  {
    hide Validated, ConstraintOf;
    EntryIsFirst(site.catalog, upload);
    var entry := EntryFor(site.catalog, upload);
    forall i, j | FirstPinned(site.catalog, upload, i) && FirstPinned(site.catalog, upload, j) ensures i == j {
    }
    if i :| FirstPinned(site.catalog, upload, i) {
      assert site.catalog[i] in site.catalog;
    }
  }

  lemma PreparedOrRejected(upload: Upload, site: Site)
    ensures
      var photo := Prepared(upload, site);
      photo.Err? ==> photo.error == TemplateUnavailable || photo.error.PhotoRejected?
  {
    hide Validated, ConstraintOf;
  }

  lemma WhyAnAttemptFails(
    db: Db, files: Disk, job: Job, photo: Result<Encoded, SaveError>, draws: Draws, now: int, faults: Faults,
    cfg: Config)
    ensures
      var answer := Attempt(db, files, job, photo, draws, now, faults, cfg).answer;
      var stored := photo.Ok? && draws.name !in files && faults.write == None;
      var spent := forall i :: 0 <= i < |draws.keys| && i < 50 ==> Fingerprint(draws.keys[i]) in db.keys;
      if photo.Err? then answer == Err(photo.error)
      else
        && (answer == Err(NotStored) <==> !stored)
        && (answer == Err(KeysExhausted) <==> stored && faults.database != Some(Reserving) && spent)
        && (answer.Ok? <==> stored && faults.database == None && !spent)
        && (answer.Err? ==> answer.error in {NotStored, KeysExhausted, DatabaseFailed})
  {
    hide CommitSave, ReceiptFor, FirstFree;
    FirstFreeIsFirst(db, Tried(draws));
    forall i | 0 <= i < |draws.keys| && i < 50 ensures draws.keys[i] in Tried(draws) {
      assert Tried(draws)[i] == draws.keys[i];
    }
  }

  /**
   Why a save that took the lease fails: the template cannot be used; the photo is rejected; the
   object cannot be written; all of the first fifty keys drawn were issued before; or the
   database fails.
   */
  lemma WhyASaveFails(db: Db, files: Disk, job: Job, site: Site, draws: Draws, now: int, faults: Faults, cfg: Config)
    requires LeaseOf(db, job, cfg).Held?
    ensures
      var photo := Prepared(job.upload, site);
      var answer := SaveOutcome(db, files, job, photo, draws, now, faults, cfg).answer;
      var stored := photo.Ok? && draws.name !in files && faults.write == None;
      var spent := forall i :: 0 <= i < |draws.keys| && i < 50 ==> Fingerprint(draws.keys[i]) in db.keys;
      && (answer == Err(TemplateUnavailable) <==> !Open(job.upload, site))
      && (answer.Err? && answer.error.PhotoRejected? <==> Open(job.upload, site) && photo.Err?)
      && (answer == Err(NotStored) <==> photo.Ok? && !stored)
      && (answer == Err(KeysExhausted) <==> stored && faults.database != Some(Reserving) && spent)
      && (answer.Ok? <==> stored && faults.database == None && !spent)
  {
    hide Prepared, Leased, Attempt, Open, LeaseOf;
    LeasedIsProcessing(db, job, cfg);
    TemplateUnavailableExactly(job.upload, site);
    PreparedOrRejected(job.upload, site);
    WhyAnAttemptFails(Leased(db, job, cfg), files, job, Prepared(job.upload, site), draws, now, faults, cfg);
  }
}
