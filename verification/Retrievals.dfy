/** Resolving a KEY, downloading with a token, and deleting a save, each run on one connection. */
module Retrievals {
  import opened Basics
  import opened Records
  import opened PurgeLaws
  import opened Store
  import opened RateLimit
  import opened Saves
  import Worker
  import Protocol
  import Invariant
  import Guarantees
  import Lifetime

  datatype Limits = Limits(ipWindow: int, ipLimit: nat, failWindow: int, failLimit: nat)

  /** Whatever the caller typed: a normalised KEY, or the first characters of something else. */
  datatype Typed = Typed(key: string) | Malformed(prefix: string)

  /** The constraints of the schema: fingerprints are unique and registered. */
  ghost predicate Schema(db: Db) {
    && (forall a, b :: a in db.photos && b in db.photos && db.photos[a].fingerprint == db.photos[b].fingerprint ==>
          a == b)
    && (forall id <- db.photos :: db.photos[id].fingerprint in db.keys)
  }

  lemma ReachableSchema(run: seq<Protocol.Action>, s: Protocol.State, cfg: Config)
    requires Protocol.Reaches(Protocol.Initial, run, s, cfg)
    ensures Schema(s.db)
  {
    hide Protocol.Reaches, Invariant.LeasesOk, Invariant.LeftOk, Invariant.GrantsOk, Invariant.ProcsOk;
    hide Invariant.DownloadsOk, Invariant.ErasureOk;
    Guarantees.ReachableInv(run, s, cfg);
  }

  predicate Addresses(db: Db, key: string, id: PhotoId) {
    id in db.photos && db.photos[id].fingerprint == Fingerprint(key)
  }

  /** The KEY leads to a photo that may be handed out now. */
  ghost predicate Available(db: Db, key: string, id: PhotoId, now: int) {
    && Addresses(db, key, id)
    && Fingerprint(key) in db.keys && db.keys[Fingerprint(key)].state == KeyActive
    && Retrievable(db.photos[id], Iso(now))
  }

  function IpCell(client: string, now: int, limits: Limits): Cell
    requires limits.ipWindow > 0
  {
    Cell(ResolveIp, client, WindowStart(Iso(now), limits.ipWindow))
  }

  function FailBucket(typed: Typed): string {
    match typed
    case Typed(key) => "k:" + key
    case Malformed(prefix) => "m:" + prefix
  }

  function FailCell(typed: Typed, now: int, limits: Limits): Cell
    requires limits.failWindow > 0
  {
    Cell(ResolveFail, FailBucket(typed), WindowStart(Iso(now), limits.failWindow))
  }

  /** Every KEY, and every malformed beginning, has a failure count of its own. */
  lemma OwnBucket(a: Typed, b: Typed)
    ensures FailBucket(a) == FailBucket(b) <==> a == b
  {
    var x, y := FailBucket(a), FailBucket(b);
    assert x[0] == if a.Typed? then 'k' else 'm';
    assert y[0] == if b.Typed? then 'k' else 'm';
    assert x[2..] == if a.Typed? then a.key else a.prefix;
    assert y[2..] == if b.Typed? then b.key else b.prefix;
  }

  /** Two clock readings, in milliseconds, that fall in the same fixed window. */
  predicate SameWindow(a: int, b: int, window: int)
    requires window > 0
  {
    Iso(a) / window == Iso(b) / window
  }

  lemma OwnIpCell(client: string, other: string, a: int, b: int, limits: Limits)
    requires limits.ipWindow > 0
    ensures IpCell(client, a, limits) == IpCell(other, b, limits) <==>
            client == other && SameWindow(a, b, limits.ipWindow)
  {
    hide WindowStart;
    StartIsMultiple(Iso(a), limits.ipWindow);
    StartIsMultiple(Iso(b), limits.ipWindow);
    CancelFactor(Iso(a) / limits.ipWindow, Iso(b) / limits.ipWindow, limits.ipWindow);
  }

  lemma OwnFailCell(typed: Typed, other: Typed, a: int, b: int, limits: Limits)
    requires limits.failWindow > 0
    ensures FailCell(typed, a, limits) == FailCell(other, b, limits) <==>
            typed == other && SameWindow(a, b, limits.failWindow)
  {
    hide WindowStart, FailBucket;
    OwnBucket(typed, other);
    StartIsMultiple(Iso(a), limits.failWindow);
    StartIsMultiple(Iso(b), limits.failWindow);
    CancelFactor(Iso(a) / limits.failWindow, Iso(b) / limits.failWindow, limits.failWindow);
  }

  lemma CancelFactor(x: int, y: int, w: int)
    requires w > 0
    ensures x * w == y * w <==> x == y
  {
    if x * w == y * w {
      assert (x - y) * w == 0;
    }
  }

  /** A count that this request may change: its client's in this window, or that of what was typed. */
  ghost predicate IpCounted(client: string, now: int, other: string, at: int, limits: Limits)
    requires limits.ipWindow > 0
  {
    other == client && SameWindow(now, at, limits.ipWindow)
  }

  ghost predicate FailCounted(typed: Typed, now: int, other: Typed, at: int, limits: Limits)
    requires limits.failWindow > 0
  {
    other == typed && SameWindow(now, at, limits.failWindow)
  }

  /** The clock readings of one request: for the client's limit, the look-up, the failure limit, the token. */
  datatype Readings = Readings(ip: int, lookup: int, failures: int, issue: int)

  /**
   A token is issued exactly when the client is within its limit, the KEY leads to an
   available photo, and its failures in this window are below the limit.  Only failed
   lookups count as failures, and no count of another client, another KEY or another window
   is touched.
   */
  method Resolve(
    conn: Connection, limiter: RateLimiter, client: string, typed: Typed, token: Token, now: Readings, cfg: Config,
    limits: Limits)
    returns (issued: bool)
    requires conn.db == conn.committed && Schema(conn.db) && limits.ipWindow > 0 && limits.failWindow > 0
    modifies conn, limiter
    ensures conn.db == conn.committed
    ensures
      var within := CountAt(old(limiter.counts), IpCell(client, now.ip, limits)) < limits.ipLimit;
      var failures := CountAt(old(limiter.counts), FailCell(typed, now.failures, limits));
      && (issued <==>
          && within && failures < limits.failLimit
          && typed.Typed? && exists id :: Available(old(conn.db), typed.key, id, now.lookup))
      && (issued <==> Issues(old(conn.db), old(limiter.counts), client, typed, now, limits))
    ensures !issued ==> conn.db == old(conn.db)
    ensures issued ==> exists id ::
      && Available(old(conn.db), typed.key, id, now.lookup)
      && conn.db == IssueGrant(old(conn.db), token, id, old(conn.db).photos[id].epoch, now.issue, cfg)
    ensures
      var ip, fail := IpCell(client, now.ip, limits), FailCell(typed, now.failures, limits);
      var counted := old(limiter.counts)[ip := CountAt(old(limiter.counts), ip) + 1];
      limiter.counts ==
      if CountAt(old(limiter.counts), ip) < limits.ipLimit
         && !(typed.Typed? && exists id :: Available(old(conn.db), typed.key, id, now.lookup))
      then counted[fail := CountAt(counted, fail) + 1]
      else counted
    ensures forall other: string, at: int :: !IpCounted(client, now.ip, other, at, limits) ==>
      CountAt(limiter.counts, IpCell(other, at, limits)) == CountAt(old(limiter.counts), IpCell(other, at, limits))
    ensures forall other: Typed, at: int :: !FailCounted(typed, now.failures, other, at, limits) ==>
      CountAt(limiter.counts, FailCell(other, at, limits)) == CountAt(old(limiter.counts), FailCell(other, at, limits))
  {
    hide WindowStart, FailBucket, SameWindow;
    forall other: string, at: int
      ensures IpCell(client, now.ip, limits) == IpCell(other, at, limits) <==>
              IpCounted(client, now.ip, other, at, limits)
    {
      OwnIpCell(client, other, now.ip, at, limits);
    }
    forall other: Typed, at: int
      ensures FailCell(typed, now.failures, limits) == FailCell(other, at, limits) <==>
              FailCounted(typed, now.failures, other, at, limits)
    {
      OwnFailCell(typed, other, now.failures, at, limits);
    }
    var within := limiter.Check(ResolveIp, client, Iso(now.ip), limits.ipWindow, limits.ipLimit);
    if !within {
      return false;
    }
    if typed.Malformed? {
      var _ := limiter.Check(ResolveFail, FailBucket(typed), Iso(now.failures), limits.failWindow, limits.failLimit);
      return false;
    }
    var f := Fingerprint(typed.key);
    if id :| id in conn.db.photos && conn.db.photos[id].fingerprint == f && conn.db.keys[f].state == KeyActive {
      var photo := conn.db.photos[id];
      if !Retrievable(photo, Iso(now.lookup)) {
        var _ := limiter.Check(ResolveFail, FailBucket(typed), Iso(now.failures), limits.failWindow, limits.failLimit);
        return false;
      }
      assert Available(conn.db, typed.key, id, now.lookup);
      var failures := limiter.Peek(ResolveFail, FailBucket(typed), Iso(now.failures), limits.failWindow);
      if failures >= limits.failLimit {
        return false;
      }
      conn.db := IssueGrant(conn.db, token, id, photo.epoch, now.issue, cfg);
      conn.Commit();
      return true;
    } else {
      var _ := limiter.Check(ResolveFail, FailBucket(typed), Iso(now.failures), limits.failWindow, limits.failLimit);
      return false;
    }
  }

  /** Whether a token is issued, as `Resolve` decides it. */
  ghost predicate Issues(
    db: Db, counts: map<Cell, nat>, client: string, typed: Typed, now: Readings, limits: Limits)
    requires limits.ipWindow > 0 && limits.failWindow > 0
  {
    && CountAt(counts, IpCell(client, now.ip, limits)) < limits.ipLimit
    && CountAt(counts, FailCell(typed, now.failures, limits)) < limits.failLimit
    && typed.Typed? && exists id :: Available(db, typed.key, id, now.lookup)
  }

  /** What others do changes nothing: only this client's count and this KEY's failures matter. */
  lemma OthersDoNotMatter(
    db: Db, counts: map<Cell, nat>, counts': map<Cell, nat>, client: string, typed: Typed, now: Readings,
    limits: Limits)
    requires limits.ipWindow > 0 && limits.failWindow > 0
    requires forall cell: Cell :: cell.scope == ResolveIp && cell.bucket == client ==>
      CountAt(counts, cell) == CountAt(counts', cell)
    requires forall cell: Cell :: cell.scope == ResolveFail && cell.bucket == FailBucket(typed) ==>
      CountAt(counts, cell) == CountAt(counts', cell)
    ensures Issues(db, counts, client, typed, now, limits) <==> Issues(db, counts', client, typed, now, limits)
  {
  }

  // ----- download -----

  /** The grant and the photo it names both still stand. */
  predicate Honoured(db: Db, token: Token, now: int) {
    && token in db.grants && GrantUsable(db.grants[token], Iso(now))
    && var g := db.grants[token];
    && g.photo in db.photos && Retrievable(db.photos[g.photo], Iso(now)) && db.photos[g.photo].epoch == g.epoch
  }

  function Delivered(db: Db, files: Disk, token: Token, now: int): Option<Bytes> {
    if !Honoured(db, token, now) then None
    else
      var photo := db.photos[db.grants[token].photo];
      if photo.name in files && PassesIntegrity(photo, files[photo.name].data)
      then Some(files[photo.name].data) else None
  }

  method DownloadWith(conn: Connection, storage: Storage, token: Token, now: int) returns (data: Option<Bytes>)
    requires conn.db == conn.committed
    modifies conn
    ensures data == Delivered(old(conn.db), storage.files, token, now)
    ensures conn.db == conn.committed ==
            if Honoured(old(conn.db), token, now) then ConsumeGrant(old(conn.db), token, Iso(now)) else old(conn.db)
  {
    if token !in conn.db.grants {
      return None;
    }
    var grant := conn.db.grants[token];
    if grant.consumedAt != None || grant.expiresAt <= Iso(now) || grant.photo !in conn.db.photos {
      return None;
    }
    var photo := conn.db.photos[grant.photo];
    if photo.status != Active || photo.expiresAt <= Iso(now) || photo.epoch != grant.epoch {
      return None;
    }
    conn.db := ConsumeGrant(conn.db, token, Iso(now));
    conn.Commit();
    data := storage.Read(photo.name);
    if data != None && (|data.value| != photo.byteLength || Mac(photo.name, |data.value|, data.value) != photo.mac) {
      data := None;
    }
  }

  // ----- delete_save -----

  /** How the second step of a delete ends. */
  datatype PurgeEnd = Completes | UnlinkFails | CommitFails

  datatype DeleteAnswer = NoContent | Unavailable

  ghost predicate Authorised(db: Db, key: string, secret: string, id: PhotoId) {
    Addresses(db, key, id) && db.photos[id].status != Purged && db.photos[id].deleteDigest == SecretDigest(secret)
  }

  /** The tables after the delete of a photo whose secret matched. */
  function DeletedDb(db: Db, id: PhotoId, now: int, revokes: bool, end: PurgeEnd): Db {
    if !revokes then db
    else if end.Completes? then PurgePhoto(Revoke(db, id, now), id, now)
    else Revoke(db, id, now)
  }

  function DeletedDisk(files: Disk, name: Name, revokes: bool, end: PurgeEnd): Disk {
    if !revokes || end.UnlinkFails? then files else files - {name}
  }

  /**
   Revokes first and purges second.  The answer is an error only when the revocation of an
   authorised photo did not land; whatever happens to the purge, the revocation stands.
   */
  method DeleteSave(
    conn: Connection, storage: Storage, key: string, secret: string, now: int, revokes: bool, end: PurgeEnd)
    returns (answer: DeleteAnswer)
    requires conn.db == conn.committed && Schema(conn.db)
    modifies conn, storage
    ensures conn.db == conn.committed
    ensures answer == Unavailable <==> !revokes && exists id :: Authorised(old(conn.db), key, secret, id)
    ensures !revokes || !(exists id :: Authorised(old(conn.db), key, secret, id)) ==>
      conn.db == old(conn.db) && storage.files == old(storage.files)
    ensures forall id :: Authorised(old(conn.db), key, secret, id) ==>
      && conn.db == DeletedDb(old(conn.db), id, Iso(now), revokes, end)
      && storage.files == DeletedDisk(old(storage.files), old(conn.db).photos[id].name, revokes, end)
  {
    if id :| id in conn.db.photos && conn.db.photos[id].fingerprint == Fingerprint(key) {
      var photo := conn.db.photos[id];
      if photo.status == Purged || photo.deleteDigest != SecretDigest(secret) {
        return NoContent;
      }
      assert Authorised(conn.db, key, secret, id);
      conn.db := Revoke(conn.db, id, Iso(now));
      if !revokes {
        conn.Rollback();
        return Unavailable;
      }
      conn.Commit();
      if end.UnlinkFails? {
        conn.db := RetireKeys(VoidGrants(MarkPurging(conn.db, id), id, Iso(now)), id);
        conn.Rollback();
      } else {
        Worker.PurgeOne(conn, storage, PurgeRow(id, photo.name), Iso(now));
        if end.CommitFails? {
          conn.Rollback();
        } else {
          conn.Commit();
        }
      }
    }
    return NoContent;
  }

  // ----- a photo's life, request by request -----

  lemma CommittedIsAvailable(
    db: Db, job: Job, enc: Encoded, name: Name, key: string, secret: string, cfg: Config, now: int)
    requires Schema(db) && Fingerprint(key) !in db.keys
    ensures
      var t := CommitSave(db, job, enc, name, key, secret, cfg);
      && Schema(t)
      && forall id :: Available(t, key, id, now) <==>
                      id == IdFor(job, key) && Iso(now) < ReceiptFor(job, enc, key, secret, cfg).expiresAt
  {
    CommitSaveEffect(db, job, enc, name, key, secret, cfg);
  }

  lemma CommittedIsDelivered(
    db: Db, files: Disk, job: Job, enc: Encoded, name: Name, key: string, secret: string, cfg: Config,
    token: Token, written: int, resolvedAt: int, now: int)
    ensures
      var t := CommitSave(db, job, enc, name, key, secret, cfg);
      var granted := IssueGrant(t, token, IdFor(job, key), t.photos[IdFor(job, key)].epoch, resolvedAt, cfg);
      var stored := files[name := File(enc.data, written)];
      && Delivered(granted, stored, token, now) ==
         (if Iso(now) < Iso(resolvedAt + 1000 * cfg.tokenTtlSeconds)
             && Iso(now) < ReceiptFor(job, enc, key, secret, cfg).expiresAt
          then Some(enc.data) else None)
      && Delivered(ConsumeGrant(granted, token, Iso(now)), stored, token, now) == None
  {
  }

  /**
   A KEY leads to its photo exactly for the lifetime counted from the start of the save, as the
   receipt says, and a token issued for it yields exactly the saved bytes, exactly once, until
   the token or the photo expires.
   */
  lemma SavedThenFetched(
    db: Db, files: Disk, job: Job, photo: Result<Encoded, SaveError>, draws: Draws, written: int, faults: Faults,
    cfg: Config, token: Token, resolvedAt: int, now: int)
    requires Schema(db) && LeaseOf(db, job, cfg).Held?
    requires SaveOutcome(db, files, job, photo, draws, written, faults, cfg).answer.Ok?
    ensures
      var o := SaveOutcome(db, files, job, photo, draws, written, faults, cfg);
      var receipt := o.answer.value;
      var id := IdFor(job, receipt.key);
      var expiry := Iso(job.startedAt) + cfg.ttlSeconds;
      && Schema(o.db) && receipt.expiresAt == expiry
      && (forall other :: Available(o.db, receipt.key, other, resolvedAt) <==>
                          other == id && Iso(resolvedAt) < expiry)
      && id in o.db.photos && photo.Ok?
      && var granted := IssueGrant(o.db, token, id, o.db.photos[id].epoch, resolvedAt, cfg);
      && Delivered(granted, o.files, token, now) ==
         (if Iso(now) < Iso(resolvedAt) + cfg.tokenTtlSeconds && Iso(now) < expiry
          then Some(photo.value.data) else None)
      && Delivered(ConsumeGrant(granted, token, Iso(now)), o.files, token, now) == None
  {
    hide FirstFree, Leased, LeaseOf, CommitSave, Available, Delivered, IssueGrant, ConsumeGrant;
    var held := Leased(db, job, cfg);
    LeasedIsProcessing(db, job, cfg);
    FirstFreeIsFirst(held, Tried(draws));
    var key := FirstFree(held, Tried(draws)).value;
    CommitSaveEffect(held, job, photo.value, draws.name, key, draws.secret, cfg);
    SecondsLater(job.startedAt, cfg.ttlSeconds);
    SecondsLater(resolvedAt, cfg.tokenTtlSeconds);
    CommittedIsAvailable(held, job, photo.value, draws.name, key, draws.secret, cfg, resolvedAt);
    CommittedIsDelivered(
      held, files, job, photo.value, draws.name, key, draws.secret, cfg, token, written, resolvedAt, now);
  }

  /**
   After a delete with the right secret no token, old or new, yields the photo, and its
   KEY leads nowhere, whether or not the bytes could be unlinked.
   */
  lemma DeletedIsUnavailable(db: Db, id: PhotoId, key: string, secret: string, at: int, end: PurgeEnd,
                             files: Disk, token: Token, epoch: nat, resolvedAt: int, now: int, cfg: Config)
    requires Schema(db) && Authorised(db, key, secret, id)
    requires token in db.grants ==> db.grants[token].photo == id
    ensures
      var revoked := Revoke(db, id, Iso(at));
      var after := if end.Completes? then PurgePhoto(revoked, id, Iso(at)) else revoked;
      && (forall other :: !Available(after, key, other, now))
      && Delivered(after, files, token, now) == None
      && Delivered(IssueGrant(after, token, id, epoch, resolvedAt, cfg), files, token, now) == None
  {
  }

  // ----- who may fetch and who may delete -----

  /** In every reachable state a photo can be fetched exactly while it is active, within its lifetime, by its KEY. */
  lemma OnlyItsKeyOpensAPhoto(
    run: seq<Protocol.Action>, t: Protocol.State, key: string, id: PhotoId, now: int, cfg: Config)
    requires Protocol.Reaches(Protocol.Initial, run, t, cfg)
    ensures Available(t.db, key, id, now) <==>
            && Protocol.IsActive(t.db, id) && id in t.saved && key == t.saved[id].receipt.key
            && Iso(now) < Iso(id.millis) + cfg.ttlSeconds
  {
    hide Protocol.Reaches, Invariant.LeasesOk, Invariant.LeftOk, Invariant.GrantsOk, Invariant.ProcsOk;
    hide Invariant.DownloadsOk, Invariant.ErasureOk;
    Guarantees.ReachableInv(run, t, cfg);
    Lifetime.RunKeepsExpiry(Protocol.Initial, run, t, cfg);
  }

  /** And it can be deleted, until it is purged, exactly by its KEY and the delete secret of the same receipt. */
  lemma OnlyItsReceiptDeletesAPhoto(
    run: seq<Protocol.Action>, t: Protocol.State, key: string, secret: string, id: PhotoId, cfg: Config)
    requires Protocol.Reaches(Protocol.Initial, run, t, cfg)
    ensures Authorised(t.db, key, secret, id) <==>
            && id in t.db.photos && t.db.photos[id].status != Purged && id in t.saved
            && key == t.saved[id].receipt.key && secret == t.saved[id].receipt.deleteSecret
  {
    hide Protocol.Reaches, Invariant.LeasesOk, Invariant.LeftOk, Invariant.GrantsOk, Invariant.ProcsOk;
    hide Invariant.DownloadsOk, Invariant.ErasureOk, Invariant.KeysOk;
    Guarantees.ReachableInv(run, t, cfg);
  }
}
