/** The cleanup worker's functions, and what one undisturbed round leaves behind. */
module Worker {
  import opened Basics
  import opened Records
  import opened PurgeLaws
  import opened Store
  import Protocol
  import Invariant
  import Guarantees

  /** The rows a purge works through. */
  function DueRows(db: Db, now: int): set<PurgeRow> {
    set id | id in db.photos && DeletePurges(db.photos[id], now) :: PurgeRow(id, db.photos[id].name)
  }

  function ExpiredRows(db: Db, now: int): set<PurgeRow> {
    set id | id in db.photos && ExpiryPurges(db.photos[id], now) :: PurgeRow(id, db.photos[id].name)
  }

  function IdsOf(rows: set<PurgeRow>): set<PhotoId> {
    set r | r in rows :: r.id
  }

  function NamesOf(rows: set<PurgeRow>): set<Name> {
    set r | r in rows :: r.name
  }

  /** Revoke, void the grants, retire the key, delete the bytes, mark purged. */
  method PurgeOne(conn: Connection, storage: Storage, row: PurgeRow, now: int)
    modifies conn`db, storage
    ensures conn.db == PurgePhoto(old(conn.db), row.id, now)
    ensures storage.files == old(storage.files) - {row.name}
  {
    conn.db := MarkPurging(conn.db, row.id);
    conn.db := VoidGrants(conn.db, row.id, now);
    conn.db := RetireKeys(conn.db, row.id);
    storage.Delete(row.name);
    conn.db := MarkPurged(conn.db, row.id, now);
  }

  /** The loop shared by both purges: every selected row, in any order. */
  method PurgeEach(conn: Connection, storage: Storage, rows: set<PurgeRow>, now: int)
    modifies conn`db, storage
    ensures conn.db == PurgeAll(old(conn.db), IdsOf(rows), now)
    ensures storage.files == old(storage.files) - NamesOf(rows)
  {
    var rest := rows;
    PurgeNone(conn.db, now);
    assert IdsOf(rows - rest) == {} && NamesOf(rows - rest) == {};
    while rest != {}
      invariant rest <= rows
      invariant conn.db == PurgeAll(old(conn.db), IdsOf(rows - rest), now)
      invariant storage.files == old(storage.files) - NamesOf(rows - rest)
      decreases |rest|
    {
      var row :| row in rest;
      ghost var done := rows - rest;
      rest := rest - {row};
      assert rows - rest == done + {row};
      assert IdsOf(done + {row}) == IdsOf(done) + {row.id};
      assert NamesOf(done + {row}) == NamesOf(done) + {row.name};
      PurgeOneMore(old(conn.db), IdsOf(done), row.id, now);
      PurgeOne(conn, storage, row, now);
    }
    assert rows - rest == rows;
  }

  /** The tables after expired photos have been revoked and purged. */
  function ExpiryPurged(db: Db, now: int): Db {
    var revoked := ExpirePhotos(db, now);
    PurgeAll(revoked, IdsOf(ExpiredRows(revoked, now)), now)
  }

  function DuePurged(db: Db, now: int): Db {
    PurgeAll(db, IdsOf(DueRows(db, now)), now)
  }

  method PurgeExpired(conn: Connection, storage: Storage, now: int) returns (purged: nat)
    requires conn.db == conn.committed
    modifies conn, storage
    ensures conn.db == conn.committed == ExpiryPurged(old(conn.db), now)
    ensures storage.files == old(storage.files) - NamesOf(ExpiredRows(ExpirePhotos(old(conn.db), now), now))
    ensures purged == |ExpiredRows(ExpirePhotos(old(conn.db), now), now)|
  {
    conn.db := ExpirePhotos(conn.db, now);
    var rows := ExpiredRows(conn.db, now);
    PurgeEach(conn, storage, rows, now);
    conn.Commit();
    purged := |rows|;
  }

  method PurgeDue(conn: Connection, storage: Storage, now: int) returns (purged: nat)
    requires conn.db == conn.committed
    modifies conn, storage
    ensures conn.db == conn.committed == DuePurged(old(conn.db), now)
    ensures storage.files == old(storage.files) - NamesOf(DueRows(old(conn.db), now))
    ensures purged == |DueRows(old(conn.db), now)|
  {
    var rows := DueRows(conn.db, now);
    PurgeEach(conn, storage, rows, now);
    conn.Commit();
    purged := |rows|;
  }

  /** The clock readings of one round, in the order the round takes them. */
  datatype Times = Times(expiry: int, due: int, sweep: int, leases: int, grants: int)

  function RoundDb(db: Db, at: Times, cfg: Config): Db {
    CleanPhotos(CleanGrants(CleanLeases(PurgedDb(db, at), at.leases, cfg), at.grants))
  }

  /** The tables before the cleanups. */
  function PurgedDb(db: Db, at: Times): Db {
    DuePurged(ExpiryPurged(db, at.expiry), at.due)
  }

  function PurgedDisk(db: Db, files: Disk, at: Times): Disk {
    files - NamesOf(ExpiredRows(ExpirePhotos(db, at.expiry), at.expiry))
    - NamesOf(DueRows(ExpiryPurged(db, at.expiry), at.due))
  }

  function RoundDisk(db: Db, files: Disk, at: Times, cfg: Config): Disk {
    Swept(PurgedDisk(db, files, at), KnownObjects(PurgedDb(db, at)), at.sweep - 1000 * cfg.orphanMinAgeSeconds)
  }

  /** The names of all records, read once, are the ones the sweep spares. */
  method SweepOrphans(conn: Connection, storage: Storage, minAgeSeconds: int, now: int) returns (swept: nat)
    modifies storage
    ensures storage.files == Swept(old(storage.files), KnownObjects(conn.db), now - 1000 * minAgeSeconds)
    ensures swept == |old(storage.files)| - |storage.files|
  {
    var known := KnownObjects(conn.db);
    swept := storage.SweepOrphans(known, minAgeSeconds, now);
  }

  /** The row was created, or last taken, at most so many seconds ago. */
  predicate InWindow(row: LeaseRow, now: int, seconds: int) {
    Iso(now) < row.createdAt + seconds || Iso(now) < row.updatedAt + seconds
  }

  lemma CleanedLeases(db: Db, now: int, cfg: Config)
    ensures CleanLeases(db, now, cfg) == db.(leases := CleanLeases(db, now, cfg).leases)
    ensures forall r :: r in CleanLeases(db, now, cfg).leases <==>
      r in db.leases && InWindow(db.leases[r], now, cfg.windowSeconds)
    ensures forall r <- CleanLeases(db, now, cfg).leases :: CleanLeases(db, now, cfg).leases[r] == db.leases[r]
  {
    SecondsLater(now, -(cfg.windowSeconds as int));
  }

  method PurgeExpiredIdempotency(conn: Connection, now: int, cfg: Config) returns (count: nat)
    modifies conn
    ensures conn.db == conn.committed == CleanLeases(old(conn.db), now, cfg)
    ensures conn.db == old(conn.db).(leases := conn.db.leases)
    ensures forall r :: r in conn.db.leases <==>
      r in old(conn.db).leases && InWindow(old(conn.db).leases[r], now, cfg.windowSeconds)
    ensures forall r <- conn.db.leases :: conn.db.leases[r] == old(conn.db).leases[r]
    ensures count == |old(conn.db).leases| - |conn.db.leases|
  {
    var before := |conn.db.leases|;
    FewerLeases(conn.db, now, cfg);
    CleanedLeases(conn.db, now, cfg);
    conn.db := CleanLeases(conn.db, now, cfg);
    conn.Commit();
    count := before - |conn.db.leases|;
  }

  method PurgeConsumedGrants(conn: Connection, now: int) returns (count: nat)
    modifies conn
    ensures conn.db == conn.committed == CleanGrants(old(conn.db), now)
    ensures count == |old(conn.db).grants| - |conn.db.grants|
  {
    var before := |conn.db.grants|;
    FewerGrants(conn.db, now);
    conn.db := CleanGrants(conn.db, now);
    conn.Commit();
    count := before - |conn.db.grants|;
  }

  method PurgePurgedPhotoRecords(conn: Connection) returns (count: nat)
    modifies conn
    ensures conn.db == conn.committed == CleanPhotos(old(conn.db))
    ensures count == |old(conn.db).photos| - |conn.db.photos|
  {
    var before := |conn.db.photos|;
    FewerPhotos(conn.db);
    conn.db := CleanPhotos(conn.db);
    conn.Commit();
    count := before - |conn.db.photos|;
  }

  lemma FewerKeys<K, V>(a: map<K, V>, b: map<K, V>)
    requires a.Keys <= b.Keys
    ensures |a| <= |b|
  {
    assert b.Keys == a.Keys + (b.Keys - a.Keys);
  }

  lemma FewerLeases(db: Db, now: int, cfg: Config)
    ensures |CleanLeases(db, now, cfg).leases| <= |db.leases|
  {
    FewerKeys(CleanLeases(db, now, cfg).leases, db.leases);
  }

  lemma FewerGrants(db: Db, now: int)
    ensures |CleanGrants(db, now).grants| <= |db.grants|
  {
    FewerKeys(CleanGrants(db, now).grants, db.grants);
  }

  lemma FewerPhotos(db: Db)
    ensures |CleanPhotos(db).photos| <= |db.photos|
  {
    FewerKeys(CleanPhotos(db).photos, db.photos);
  }

  /** The three record cleanups, each committed on its own. */
  method CleanRecords(conn: Connection, at: Times, cfg: Config)
    modifies conn
    ensures conn.db == conn.committed == CleanPhotos(CleanGrants(CleanLeases(old(conn.db), at.leases, cfg), at.grants))
  {
    hide CleanLeases, CleanGrants, CleanPhotos;
    var _ := PurgeExpiredIdempotency(conn, at.leases, cfg);
    var _ := PurgeConsumedGrants(conn, at.grants);
    var _ := PurgePurgedPhotoRecords(conn);
  }

  /** How many photos the two purges of a round work through. */
  function PurgeCount(db: Db, at: Times): nat {
    |ExpiredRows(ExpirePhotos(db, at.expiry), at.expiry)| + |DueRows(ExpiryPurged(db, at.expiry), at.due)|
  }

  /** The two purges, expired photos first. */
  method PurgePhotos(conn: Connection, storage: Storage, at: Times) returns (purged: nat)
    requires conn.db == conn.committed
    modifies conn, storage
    ensures conn.db == conn.committed == PurgedDb(old(conn.db), at)
    ensures storage.files == PurgedDisk(old(conn.db), old(storage.files), at)
    ensures purged == PurgeCount(old(conn.db), at)
  {
    hide ExpiryPurged, DuePurged, ExpirePhotos, ExpiredRows, DueRows, NamesOf;
    var expired := PurgeExpired(conn, storage, at.expiry);
    var due := PurgeDue(conn, storage, at.due);
    purged := expired + due;
  }

  method RunOnce(conn: Connection, storage: Storage, at: Times, cfg: Config) returns (count: nat)
    requires conn.db == conn.committed
    modifies conn, storage
    ensures conn.db == conn.committed == RoundDb(old(conn.db), at, cfg)
    ensures storage.files == RoundDisk(old(conn.db), old(storage.files), at, cfg)
    ensures count ==
            PurgeCount(old(conn.db), at) + |PurgedDisk(old(conn.db), old(storage.files), at)| - |storage.files|
  {
    hide PurgedDb, PurgedDisk, PurgeCount, KnownObjects, Swept, CleanLeases, CleanGrants, CleanPhotos;
    var purged := PurgePhotos(conn, storage, at);
    var swept := SweepOrphans(conn, storage, cfg.orphanMinAgeSeconds, at.sweep);
    CleanRecords(conn, at, cfg);
    count := purged + swept;
  }

  /** The round starts no earlier than the state it finds. */
  predicate FollowsClock(s: Protocol.State, at: Times) {
    Iso(s.clock) <= at.expiry <= at.due
  }

  // ----- what a round leaves -----

  /** The round purges every photo that is not live and not purged already. */
  ghost predicate PurgedByRound(s: Protocol.State, at: Times, id: PhotoId) {
    id in s.db.photos && s.db.photos[id].status != Purged && !Retrievable(s.db.photos[id], at.expiry)
  }

  ghost predicate Live(s: Protocol.State, at: Times, id: PhotoId) {
    id in s.db.photos && Retrievable(s.db.photos[id], at.expiry)
  }

  lemma RoundTables(db: Db, at: Times, cfg: Config)
    ensures
      var t := RoundDb(db, at, cfg);
      var purged := PurgedDb(db, at);
      && t.photos == CleanPhotos(purged).photos && t.keys == purged.keys
      && t.grants == CleanGrants(purged, at.grants).grants
      && t.leases == CleanLeases(purged, at.leases, cfg).leases
  {
    hide ExpiryPurged, DuePurged;
  }

  lemma ExpiredExactly(s: Protocol.State, now: int, id: PhotoId)
    requires Invariant.ErasureOk(s)
    ensures id in IdsOf(ExpiredRows(ExpirePhotos(s.db, now), now)) <==>
            id in s.db.photos && s.db.photos[id].status != Purged && s.db.photos[id].expiresAt <= now
  {
    var revoked := ExpirePhotos(s.db, now);
    if id in revoked.photos && ExpiryPurges(revoked.photos[id], now) {
      assert PurgeRow(id, revoked.photos[id].name) in ExpiredRows(revoked, now);
    }
  }

  lemma DueExactly(db: Db, now: int, id: PhotoId)
    ensures id in IdsOf(DueRows(db, now)) <==> id in db.photos && DeletePurges(db.photos[id], now)
  {
    if id in db.photos && DeletePurges(db.photos[id], now) {
      assert PurgeRow(id, db.photos[id].name) in DueRows(db, now);
    }
  }

  lemma ExpiryOutcome(s: Protocol.State, now: int, id: PhotoId)
    requires Invariant.ErasureOk(s) && id in s.db.photos
    ensures ExpiryPurged(s.db, now).photos.Keys == s.db.photos.Keys
    ensures
      var p, q := s.db.photos[id], ExpiryPurged(s.db, now).photos[id];
      if p.status != Purged && p.expiresAt <= now
      then q.status == Purged && q.purgedAt.Some? && q.name == p.name
      else q == p
  {
    hide ExpiredRows, IdsOf;
    ExpiredExactly(s, now, id);
  }

  lemma DueOutcome(db: Db, now: int, id: PhotoId)
    requires id in db.photos
    ensures DuePurged(db, now).photos.Keys == db.photos.Keys
    ensures
      var p, q := db.photos[id], DuePurged(db, now).photos[id];
      if DeletePurges(p, now) then q.status == Purged && q.purgedAt.Some? && q.name == p.name else q == p
  {
    hide DueRows, IdsOf;
    DueExactly(db, now, id);
  }

  lemma SameRecords(db: Db, at: Times)
    ensures PurgedDb(db, at).photos.Keys == db.photos.Keys
  {
  }

  lemma PurgeOutcome(s: Protocol.State, at: Times, id: PhotoId)
    requires Invariant.ErasureOk(s) && FollowsClock(s, at) && id in s.db.photos
    ensures PurgedDb(s.db, at).photos.Keys == s.db.photos.Keys
    ensures
      var p, q := s.db.photos[id], PurgedDb(s.db, at).photos[id];
      if PurgedByRound(s, at, id) then q.status == Purged && q.purgedAt.Some? && q.name == p.name else q == p
  {
    hide ExpiryPurged, DuePurged;
    ExpiryOutcome(s, at.expiry, id);
    DueOutcome(ExpiryPurged(s.db, at.expiry), at.due, id);
  }

  lemma {:induction false} OneRowPerId(rows: set<PurgeRow>)
    requires forall r, q :: r in rows && q in rows && r.id == q.id ==> r == q
    ensures |IdsOf(rows)| == |rows|
    decreases |rows|
  {
    if rows == {} {
      assert IdsOf(rows) == {};
    } else {
      var r :| r in rows;
      OneRowPerId(rows - {r});
      assert IdsOf(rows) == IdsOf(rows - {r}) + {r.id};
    }
  }

  lemma ExpiredRowsById(db: Db, now: int)
    ensures |IdsOf(ExpiredRows(db, now))| == |ExpiredRows(db, now)|
  {
    OneRowPerId(ExpiredRows(db, now));
  }

  lemma DueRowsById(db: Db, now: int)
    ensures |IdsOf(DueRows(db, now))| == |DueRows(db, now)|
  {
    OneRowPerId(DueRows(db, now));
  }

  /** The count a round reports is, besides the swept objects, the number of photos it purges. */
  lemma CountIsOfPurged(s: Protocol.State, at: Times)
    requires Invariant.ErasureOk(s) && FollowsClock(s, at)
    ensures PurgeCount(s.db, at) == |set id | id in s.db.photos && PurgedByRound(s, at, id)|
  {
    hide ExpiredRows, DueRows, IdsOf, ExpirePhotos, ExpiryPurged;
    var first := IdsOf(ExpiredRows(ExpirePhotos(s.db, at.expiry), at.expiry));
    var second := IdsOf(DueRows(ExpiryPurged(s.db, at.expiry), at.due));
    ExpiredRowsById(ExpirePhotos(s.db, at.expiry), at.expiry);
    DueRowsById(ExpiryPurged(s.db, at.expiry), at.due);
    forall id
      ensures !(id in first && id in second)
      ensures id in first || id in second <==> id in s.db.photos && PurgedByRound(s, at, id)
    {
      PurgedOnce(s, at, id);
    }
    assert first + second == set id | id in s.db.photos && PurgedByRound(s, at, id);
    assert first !! second;
  }

  /** Each photo is purged by one of the two purges, if by any. */
  lemma PurgedOnce(s: Protocol.State, at: Times, id: PhotoId)
    requires Invariant.ErasureOk(s) && FollowsClock(s, at)
    ensures
      var first := id in IdsOf(ExpiredRows(ExpirePhotos(s.db, at.expiry), at.expiry));
      var second := id in IdsOf(DueRows(ExpiryPurged(s.db, at.expiry), at.due));
      !(first && second) && (first || second <==> PurgedByRound(s, at, id))
  {
    hide ExpiredRows, DueRows, IdsOf, ExpirePhotos, ExpiryPurged;
    ExpiredExactly(s, at.expiry, id);
    DueExactly(ExpiryPurged(s.db, at.expiry), at.due, id);
    ExpiredRecords(s.db, at.expiry);
    if id in s.db.photos {
      ExpiryOutcome(s, at.expiry, id);
    }
  }

  /** Exactly the records of photos active and unexpired at the start of the round remain, unchanged. */
  lemma RoundKeepsLivePhotos(s: Protocol.State, at: Times, cfg: Config)
    requires Invariant.ErasureOk(s) && FollowsClock(s, at)
    ensures forall id :: id in RoundDb(s.db, at, cfg).photos <==> Live(s, at, id)
    ensures forall id <- RoundDb(s.db, at, cfg).photos :: RoundDb(s.db, at, cfg).photos[id] == s.db.photos[id]
  {
    hide RoundDb, PurgedDb;
    RoundTables(s.db, at, cfg);
    SameRecords(s.db, at);
    forall id | id in s.db.photos
      ensures id in RoundDb(s.db, at, cfg).photos <==> Live(s, at, id)
      ensures Live(s, at, id) ==> RoundDb(s.db, at, cfg).photos[id] == s.db.photos[id]
    {
      PurgeOutcome(s, at, id);
    }
  }

  // ----- keys -----

  function ActiveKeys(db: Db): set<Fingerprint> {
    set f | f in db.keys && db.keys[f].state == KeyActive
  }

  function Retired(k: KeyRow, gone: bool): KeyRow {
    if gone then KeyRow(KeyRetired, None) else k
  }

  /** A purge of the set `ids` retires exactly the keys that name one of them. */
  lemma KeyOutcome(s: Protocol.State, at: Times, f: Fingerprint)
    requires Invariant.ErasureOk(s) && FollowsClock(s, at)
    requires f in s.db.keys && (s.db.keys[f].photo.Some? ==> s.db.keys[f].photo.value in s.db.photos)
    ensures PurgedDb(s.db, at).keys.Keys == s.db.keys.Keys
    ensures
      var k := s.db.keys[f];
      PurgedDb(s.db, at).keys[f] == Retired(k, k.photo.Some? && PurgedByRound(s, at, k.photo.value))
  {
    hide ExpiredRows, DueRows, IdsOf;
    var k := s.db.keys[f];
    if k.photo.Some? {
      var id := k.photo.value;
      ExpiredExactly(s, at.expiry, id);
      ExpiryOutcome(s, at.expiry, id);
      DueExactly(ExpiryPurged(s.db, at.expiry), at.due, id);
    }
  }

  /** `f` is the key of a live photo. */
  ghost predicate LiveKey(s: Protocol.State, at: Times, f: Fingerprint) {
    exists id :: Live(s, at, id) && s.db.photos[id].fingerprint == f
  }

  /** The keys of the remaining photos are the only active ones; every other key ever issued stays, retired. */
  lemma RoundKeepsLiveKeys(s: Protocol.State, at: Times, cfg: Config)
    requires Invariant.Inv(s) && FollowsClock(s, at)
    ensures RoundDb(s.db, at, cfg).keys.Keys == s.db.keys.Keys
    ensures forall f <- s.db.keys ::
      var k := RoundDb(s.db, at, cfg).keys[f];
      if LiveKey(s, at, f) then k == s.db.keys[f] && k.state == KeyActive
      else k == KeyRow(KeyRetired, None)
  {
    hide RoundDb, PurgedDb;
    RoundTables(s.db, at, cfg);
    SameKeys(s.db, at);
    forall f | f in s.db.keys
      ensures
        var k := PurgedDb(s.db, at).keys[f];
        if LiveKey(s, at, f) then k == s.db.keys[f] && k.state == KeyActive
        else k == KeyRow(KeyRetired, None)
    {
      OneKey(s, at, f);
    }
  }

  lemma SameKeys(db: Db, at: Times)
    ensures PurgedDb(db, at).keys.Keys == db.keys.Keys
  {
    hide ExpiredRows, DueRows, IdsOf;
  }

  lemma OneKey(s: Protocol.State, at: Times, f: Fingerprint)
    requires Invariant.Inv(s) && FollowsClock(s, at) && f in s.db.keys
    ensures f in PurgedDb(s.db, at).keys
    ensures
      var k := PurgedDb(s.db, at).keys[f];
      if LiveKey(s, at, f) then k == s.db.keys[f] && k.state == KeyActive
      else k == KeyRow(KeyRetired, None)
  {
    hide PurgedDb, Invariant.LeasesOk, Invariant.LeftOk, Invariant.GrantsOk, Invariant.ProcsOk;
    hide Invariant.DownloadsOk, Invariant.HistoryOk;
    assert Invariant.KeyRowOk(s.db, f, s.db.keys[f]);
    KeyOutcome(s, at, f);
    if id :| Live(s, at, id) && s.db.photos[id].fingerprint == f {
      assert Protocol.IsActive(s.db, id);
    }
  }

  // ----- grants -----

  /** Only usable grants for photos not purged by the round remain, unchanged. */
  lemma RoundKeepsUsableGrants(s: Protocol.State, at: Times, cfg: Config)
    requires Invariant.ErasureOk(s) && FollowsClock(s, at)
    ensures forall t :: t in RoundDb(s.db, at, cfg).grants <==>
      t in s.db.grants && GrantUsable(s.db.grants[t], at.grants) && !PurgedByRound(s, at, s.db.grants[t].photo)
    ensures forall t <- RoundDb(s.db, at, cfg).grants :: RoundDb(s.db, at, cfg).grants[t] == s.db.grants[t]
  {
    hide RoundDb, PurgedDb;
    RoundTables(s.db, at, cfg);
    SameGrants(s.db, at);
    forall t | t in s.db.grants
      ensures
        var g, h := s.db.grants[t], PurgedDb(s.db, at).grants[t];
        if PurgedByRound(s, at, g.photo) then h.consumedAt.Some? else h == g
    {
      GrantOutcome(s, at, t);
    }
  }

  lemma SameGrants(db: Db, at: Times)
    ensures PurgedDb(db, at).grants.Keys == db.grants.Keys
  {
    hide ExpiredRows, DueRows, IdsOf;
  }

  lemma GrantOutcome(s: Protocol.State, at: Times, t: Token)
    requires Invariant.ErasureOk(s) && FollowsClock(s, at) && t in s.db.grants
    ensures t in PurgedDb(s.db, at).grants
    ensures
      var g, h := s.db.grants[t], PurgedDb(s.db, at).grants[t];
      if PurgedByRound(s, at, g.photo) then h.consumedAt.Some? else h == g
  {
    hide ExpiredRows, DueRows, IdsOf;
    var id := s.db.grants[t].photo;
    ExpiredExactly(s, at.expiry, id);
    DueExactly(ExpiryPurged(s.db, at.expiry), at.due, id);
    if id in s.db.photos {
      ExpiryOutcome(s, at.expiry, id);
    }
  }

  // ----- the leases -----

  lemma SameLeases(db: Db, at: Times)
    ensures PurgedDb(db, at).leases == db.leases
  {
    hide ExpiredRows, DueRows, IdsOf;
  }

  /** Exactly the lease rows within the window remain, unchanged. */
  lemma RoundKeepsRecentLeases(s: Protocol.State, at: Times, cfg: Config)
    ensures forall r :: r in RoundDb(s.db, at, cfg).leases <==>
      r in s.db.leases && InWindow(s.db.leases[r], at.leases, cfg.windowSeconds)
    ensures forall r <- RoundDb(s.db, at, cfg).leases :: RoundDb(s.db, at, cfg).leases[r] == s.db.leases[r]
  {
    hide RoundDb, PurgedDb, CleanLeases;
    RoundTables(s.db, at, cfg);
    SameLeases(s.db, at);
    CleanedLeases(PurgedDb(s.db, at), at.leases, cfg);
  }

  // ----- the object directory -----

  /** `name` is the object of a recorded photo. */
  ghost predicate Recorded(s: Protocol.State, name: Name) {
    exists id :: id in s.db.photos && s.db.photos[id].name == name
  }

  ghost predicate LiveObject(s: Protocol.State, at: Times, name: Name) {
    exists id :: Live(s, at, id) && s.db.photos[id].name == name
  }

  /** On disk remain the objects of live photos and unreferenced ones younger than the age gate, with their bytes. */
  lemma RoundKeepsLiveObjects(s: Protocol.State, at: Times, cfg: Config)
    requires Invariant.Inv(s) && FollowsClock(s, at)
    ensures forall name :: name in RoundDisk(s.db, s.disk, at, cfg) <==>
      && name in s.disk
      && (LiveObject(s, at, name)
          || (!Recorded(s, name) && at.sweep - 1000 * cfg.orphanMinAgeSeconds < s.disk[name].modifiedAt))
    ensures forall name <- RoundDisk(s.db, s.disk, at, cfg) :: RoundDisk(s.db, s.disk, at, cfg)[name] == s.disk[name]
  {
    hide RoundDisk, Live, Recorded, LiveObject, Invariant.Inv;
    forall name
      ensures name in RoundDisk(s.db, s.disk, at, cfg) <==>
        && name in s.disk
        && (LiveObject(s, at, name)
            || (!Recorded(s, name) && at.sweep - 1000 * cfg.orphanMinAgeSeconds < s.disk[name].modifiedAt))
      ensures name in RoundDisk(s.db, s.disk, at, cfg) ==> RoundDisk(s.db, s.disk, at, cfg)[name] == s.disk[name]
    {
      ObjectOutcome(s, at, cfg, name);
    }
  }

  lemma ObjectOutcome(s: Protocol.State, at: Times, cfg: Config, name: Name)
    requires Invariant.Inv(s) && FollowsClock(s, at)
    ensures name in RoundDisk(s.db, s.disk, at, cfg) <==>
      && name in s.disk
      && (LiveObject(s, at, name)
          || (!Recorded(s, name) && at.sweep - 1000 * cfg.orphanMinAgeSeconds < s.disk[name].modifiedAt))
    ensures name in RoundDisk(s.db, s.disk, at, cfg) ==> RoundDisk(s.db, s.disk, at, cfg)[name] == s.disk[name]
  {
    hide ExpiredRows, DueRows, NamesOf, ExpirePhotos, KnownObjects, ExpiryPurged, DuePurged, LiveObject, Recorded;
    hide Invariant.Ledger, Invariant.ProcsOk, Invariant.DownloadsOk, Invariant.ErasureOk, PurgedByRound;
    UnlinkedExactly(s, at, name);
    KnownExactly(s, at, name);
    LiveIsNotUnlinked(s, at, name);
  }

  /** The names unlinked by the two purges. */
  ghost predicate Unlinked(s: Protocol.State, at: Times, name: Name) {
    || name in NamesOf(ExpiredRows(ExpirePhotos(s.db, at.expiry), at.expiry))
    || name in NamesOf(DueRows(ExpiryPurged(s.db, at.expiry), at.due))
  }

  lemma ExpiredNames(s: Protocol.State, now: int, name: Name)
    requires Invariant.ErasureOk(s)
    ensures name in NamesOf(ExpiredRows(ExpirePhotos(s.db, now), now)) <==>
            exists id :: id in s.db.photos && s.db.photos[id].status != Purged && s.db.photos[id].expiresAt <= now
                         && s.db.photos[id].name == name
  {
    var revoked := ExpirePhotos(s.db, now);
    if id :| id in s.db.photos && s.db.photos[id].status != Purged && s.db.photos[id].expiresAt <= now
             && s.db.photos[id].name == name
    {
      assert ExpiryPurges(revoked.photos[id], now);
      assert PurgeRow(id, name) in ExpiredRows(revoked, now);
    }
  }

  lemma DueNames(s: Protocol.State, at: Times, name: Name)
    requires Invariant.ErasureOk(s) && FollowsClock(s, at)
    ensures name in NamesOf(DueRows(ExpiryPurged(s.db, at.expiry), at.due)) <==>
            exists id ::
              && id in s.db.photos && s.db.photos[id].status == AccessRevoked
              && at.expiry < s.db.photos[id].expiresAt && s.db.photos[id].name == name
  {
    hide ExpiryPurged;
    var t := ExpiryPurged(s.db, at.expiry);
    if r :| r in DueRows(t, at.due) && r.name == name {
      ExpiredRecords(s.db, at.expiry);
      ExpiryOutcome(s, at.expiry, r.id);
    }
    if id :| id in s.db.photos && s.db.photos[id].status == AccessRevoked && at.expiry < s.db.photos[id].expiresAt
             && s.db.photos[id].name == name
    {
      ExpiryOutcome(s, at.expiry, id);
      assert PurgeRow(id, name) in DueRows(t, at.due);
    }
  }

  lemma ExpiredRecords(db: Db, now: int)
    ensures ExpiryPurged(db, now).photos.Keys == db.photos.Keys
  {
  }

  lemma UnlinkedExactly(s: Protocol.State, at: Times, name: Name)
    requires Invariant.ErasureOk(s) && FollowsClock(s, at)
    ensures Unlinked(s, at, name) <==> exists id :: PurgedByRound(s, at, id) && s.db.photos[id].name == name
  {
    hide ExpiredRows, DueRows, NamesOf, ExpirePhotos, ExpiryPurged;
    ExpiredNames(s, at.expiry, name);
    DueNames(s, at, name);
    if id :| PurgedByRound(s, at, id) && s.db.photos[id].name == name {
      assert s.db.photos[id].status == AccessRevoked || s.db.photos[id].expiresAt <= at.expiry;
    }
  }

  lemma KnownExactly(s: Protocol.State, at: Times, name: Name)
    requires Invariant.ErasureOk(s) && FollowsClock(s, at)
    ensures name in KnownObjects(PurgedDb(s.db, at)) <==> Recorded(s, name)
  {
    hide PurgedDb;
    SameRecords(s.db, at);
    forall id | id in s.db.photos ensures PurgedDb(s.db, at).photos[id].name == s.db.photos[id].name {
      PurgeOutcome(s, at, id);
    }
  }

  lemma LiveIsNotUnlinked(s: Protocol.State, at: Times, name: Name)
    requires Invariant.Inv(s) && FollowsClock(s, at)
    ensures Recorded(s, name) && name in s.disk ==>
      (LiveObject(s, at, name) <==> !exists id :: PurgedByRound(s, at, id) && s.db.photos[id].name == name)
    ensures !Recorded(s, name) ==>
      !LiveObject(s, at, name) && !exists id :: PurgedByRound(s, at, id) && s.db.photos[id].name == name
  {
  }

  lemma LiveKeysAreRegistered(s: Protocol.State, at: Times, id: PhotoId)
    requires Invariant.KeysOk(s) && Invariant.PhotosOk(s) && Live(s, at, id)
    ensures s.db.photos[id].fingerprint in s.db.keys
  {
    assert Protocol.IsActive(s.db, id);
  }

  lemma ActiveKeysAreLive(s: Protocol.State, at: Times, cfg: Config)
    requires Invariant.Inv(s) && FollowsClock(s, at)
    ensures forall f :: f in ActiveKeys(RoundDb(s.db, at, cfg)) <==> LiveKey(s, at, f)
  {
    hide RoundDb, Retrievable, Invariant.HistoryOk, Invariant.PhotosOk, Invariant.KeysOk, Invariant.LeasesOk;
    hide Invariant.LeftOk;
    hide Invariant.GrantsOk, Invariant.ProcsOk, Invariant.DownloadsOk, Invariant.ErasureOk;
    RoundKeepsLiveKeys(s, at, cfg);
    forall id | Live(s, at, id) ensures s.db.photos[id].fingerprint in s.db.keys {
      LiveKeysAreRegistered(s, at, id);
    }
  }

  /**
   A round that nothing disturbs, from any reachable state, leaves exactly the records of the
   photos live at its start; every registry row, those photos' keys active as before and all
   others retired; exactly the usable grants of photos it has not purged; exactly the lease
   rows within the window; and on disk exactly the objects of live photos and unreferenced
   ones younger than the age gate.  Whatever remains is unchanged.
   */
  lemma UndisturbedRound(run: seq<Protocol.Action>, s: Protocol.State, at: Times, cfg: Config)
    requires Protocol.Reaches(Protocol.Initial, run, s, cfg) && FollowsClock(s, at)
    ensures
      var t, disk := RoundDb(s.db, at, cfg), RoundDisk(s.db, s.disk, at, cfg);
      && (forall id :: id in t.photos <==> Live(s, at, id))
      && (forall id <- t.photos :: t.photos[id] == s.db.photos[id])
      && t.keys.Keys == s.db.keys.Keys
      && (forall f <- s.db.keys ::
            if LiveKey(s, at, f) then t.keys[f] == s.db.keys[f] && t.keys[f].state == KeyActive
            else t.keys[f] == KeyRow(KeyRetired, None))
      && (forall f :: f in ActiveKeys(t) <==> LiveKey(s, at, f))
      && (forall g :: g in t.grants <==>
            g in s.db.grants && GrantUsable(s.db.grants[g], at.grants) && !PurgedByRound(s, at, s.db.grants[g].photo))
      && (forall g <- t.grants :: t.grants[g] == s.db.grants[g])
      && (forall r :: r in t.leases <==>
            r in s.db.leases && InWindow(s.db.leases[r], at.leases, cfg.windowSeconds))
      && (forall r <- t.leases :: t.leases[r] == s.db.leases[r])
      && (forall name :: name in disk <==>
            && name in s.disk
            && (LiveObject(s, at, name)
                || (!Recorded(s, name) && at.sweep - 1000 * cfg.orphanMinAgeSeconds < s.disk[name].modifiedAt)))
      && (forall name <- disk :: disk[name] == s.disk[name])
  {
    hide RoundDb, RoundDisk, Live, LiveObject, Recorded, LiveKey, ActiveKeys, PurgedByRound, GrantUsable, InWindow;
    hide Protocol.Reaches, Invariant.Ledger, Invariant.ProcsOk, Invariant.DownloadsOk, Invariant.ErasureOk;
    Guarantees.ReachableInv(run, s, cfg);
    RoundKeepsLivePhotos(s, at, cfg);
    RoundKeepsLiveKeys(s, at, cfg);
    ActiveKeysAreLive(s, at, cfg);
    RoundKeepsUsableGrants(s, at, cfg);
    RoundKeepsRecentLeases(s, at, cfg);
    RoundKeepsLiveObjects(s, at, cfg);
  }
}
