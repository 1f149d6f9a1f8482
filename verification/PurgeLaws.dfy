/** The effect of the long transactions, stated on whole tables. */
module PurgeLaws {
  import opened Basics
  import opened Records

  function Ids(rows: seq<PurgeRow>): set<PhotoId> {
    set i | 0 <= i < |rows| :: rows[i].id
  }

  /** Purging a set of photos at once. */
  function PurgeAll(db: Db, ids: set<PhotoId>, now: int): Db {
    db.(
    photos := map id | id in db.photos ::
      if id in ids then db.photos[id].(status := Purged, purgedAt := Some(now)) else db.photos[id],
    grants := map t | t in db.grants ::
      var g := db.grants[t];
      if g.photo in ids && g.consumedAt == None then g.(consumedAt := Some(now)) else g,
    keys := map f | f in db.keys ::
      var k := db.keys[f];
      if k.photo.Some? && k.photo.value in ids then KeyRow(KeyRetired, None) else k)
  }

  lemma PurgeOneMorePhoto(db: Db, ids: set<PhotoId>, id: PhotoId, now: int)
    ensures PurgePhoto(PurgeAll(db, ids, now), id, now).photos == PurgeAll(db, ids + {id}, now).photos
  {
    var a, b := PurgePhoto(PurgeAll(db, ids, now), id, now).photos, PurgeAll(db, ids + {id}, now).photos;
    assert a.Keys == b.Keys;
    forall x | x in a ensures a[x] == b[x] {
    }
  }

  lemma PurgeOneMoreGrant(db: Db, ids: set<PhotoId>, id: PhotoId, now: int)
    ensures PurgePhoto(PurgeAll(db, ids, now), id, now).grants == PurgeAll(db, ids + {id}, now).grants
  {
    var a, b := PurgePhoto(PurgeAll(db, ids, now), id, now).grants, PurgeAll(db, ids + {id}, now).grants;
    assert a.Keys == b.Keys;
    forall t | t in a ensures a[t] == b[t] {
    }
  }

  lemma PurgeOneMoreKey(db: Db, ids: set<PhotoId>, id: PhotoId, now: int)
    ensures PurgePhoto(PurgeAll(db, ids, now), id, now).keys == PurgeAll(db, ids + {id}, now).keys
  {
    var a, b := PurgePhoto(PurgeAll(db, ids, now), id, now).keys, PurgeAll(db, ids + {id}, now).keys;
    assert a.Keys == b.Keys;
    forall f | f in a ensures a[f] == b[f] {
    }
  }

  lemma PurgeOneMore(db: Db, ids: set<PhotoId>, id: PhotoId, now: int)
    ensures PurgePhoto(PurgeAll(db, ids, now), id, now) == PurgeAll(db, ids + {id}, now)
  {
    PurgeOneMorePhoto(db, ids, id, now);
    PurgeOneMoreGrant(db, ids, id, now);
    PurgeOneMoreKey(db, ids, id, now);
  }

  lemma PurgeNone(db: Db, now: int)
    ensures PurgeAll(db, {}, now) == db
  {
    assert PurgeAll(db, {}, now).photos == db.photos;
    assert PurgeAll(db, {}, now).grants == db.grants;
    assert PurgeAll(db, {}, now).keys == db.keys;
  }

  /** The row-by-row purge of a worker round is the purge of the set of its rows. */
  lemma {:induction false} PurgeRowsIsPurgeAll(db: Db, rows: seq<PurgeRow>, now: int)
    ensures PurgeRows(db, rows, now) == PurgeAll(db, Ids(rows), now)
  {
    hide PurgeAll, PurgePhoto;
    if rows == [] {
      assert Ids(rows) == {};
      PurgeNone(db, now);
    } else {
      var front, last := rows[..|rows| - 1], rows[|rows| - 1];
      PurgeRowsIsPurgeAll(db, front, now);
      PurgeOneMore(db, Ids(front), last.id, now);
      assert rows == front + [last];
      assert Ids(rows) == Ids(front) + {last.id};
    }
  }

  /** Stored times are whole seconds: adding seconds before or after truncation is the same. */
  lemma SecondsLater(millis: int, seconds: int)
    ensures Iso(millis + 1000 * seconds) == Iso(millis) + seconds
  {
  }

  /** The saving transaction inserts one photo, one active key and one completed lease, and nothing else. */
  lemma CommitSaveEffect(
    db: Db, job: Job, enc: Encoded, name: Name, key: string, secret: string, cfg: Config)
    ensures
      var after := CommitSave(db, job, enc, name, key, secret, cfg);
      var id := IdFor(job, key);
      && after.grants == db.grants
      && after.photos.Keys == db.photos.Keys + {id}
      && (forall other <- db.photos :: other != id ==> after.photos[other] == db.photos[other])
      && after.photos[id].status == Active && after.photos[id].name == name
      && PassesIntegrity(after.photos[id], enc.data)
      && after.photos[id].expiresAt == ReceiptFor(job, enc, key, secret, cfg).expiresAt
      && after.photos[id].expiresAt == after.photos[id].createdAt + cfg.ttlSeconds
      && after.photos[id].createdAt == Iso(job.startedAt)
      && after.keys == db.keys[Fingerprint(key) := KeyRow(KeyActive, Some(id))]
      && after.leases.Keys == db.leases.Keys + {job.row}
      && (forall r <- db.leases :: r != job.row ==> after.leases[r] == db.leases[r])
      && after.leases[job.row].status == Completed && after.leases[job.row].photo == Some(id)
      && after.leases[job.row].envelope == Some(Sealed(ReceiptFor(job, enc, key, secret, cfg)))
  {
    var after := CommitSave(db, job, enc, name, key, secret, cfg);
    assert after.keys == db.keys[Fingerprint(key) := KeyRow(KeyActive, Some(IdFor(job, key)))];
    SecondsLater(job.startedAt, cfg.ttlSeconds);
  }
}
