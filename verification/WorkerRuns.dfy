/** A cleanup round that nothing disturbs is a run of the protocol, whenever its six clock readings fall. */
module WorkerRuns {
  import opened Basics
  import opened Records
  import opened Protocol
  import opened PurgeLaws
  import opened Store
  import opened Worker
  import opened SaveRuns
  import opened RequestRuns

  /** As `s` but for tables, disk and time: nothing is under way that was not before. */
  ghost predicate Later(s: State, t: State, db: Db, disk: Disk, now: int) {
    t.db == db && t.disk == disk && t.clock == now && t.procs == s.procs && t.writer == s.writer == None
  }

  lemma Passes(s: State, now: int, cfg: Config) returns (run: seq<Action>, t: State)
    requires s.writer == None && s.clock <= now
    ensures Reaches(s, run, t, cfg) && Later(s, t, s.db, s.disk, now)
  {
    hide Reaches;
    run, t := Waits(s, now, cfg);
  }

  // ----- the two purges -----

  lemma {:induction false} Listed(rows: set<PurgeRow>) returns (list: seq<PurgeRow>)
    ensures forall r :: r in list <==> r in rows
    decreases |rows|
  {
    if rows == {} {
      list := [];
    } else {
      var r :| r in rows;
      var rest := Listed(rows - {r});
      list := [r] + rest;
    }
  }

  function NamesFrom(rows: seq<PurgeRow>, next: nat): set<Name> {
    set i | next <= i < |rows| :: rows[i].name
  }

  lemma NamesStep(rows: seq<PurgeRow>, next: nat, disk: Disk)
    requires next < |rows|
    ensures disk - {rows[next].name} - NamesFrom(rows, next + 1) == disk - NamesFrom(rows, next)
  {
    assert NamesFrom(rows, next) == {rows[next].name} + NamesFrom(rows, next + 1);
    assert (disk - {rows[next].name} - NamesFrom(rows, next + 1)).Keys == (disk - NamesFrom(rows, next)).Keys;
  }

  lemma {:induction false} UnlinksRest(
    s: State, run0: seq<Action>, t0: State, p: nat, rows: seq<PurgeRow>, next: nat, at: int, expiring: bool, db: Db,
    disk: Disk, cfg: Config)
    returns (run: seq<Action>, t: State)
    requires next <= |rows| && Reaches(s, run0, t0, cfg)
    requires Differs(s, t0, db, disk, p, Some(Purging(rows, next, at, expiring)))
    ensures Reaches(s, run, t, cfg)
    ensures Differs(s, t, db, disk - NamesFrom(rows, next), p, Some(Purging(rows, |rows|, at, expiring)))
    decreases |rows| - next
  {
    hide Step, Enabled, Differs, Reaches, NamesFrom;
    if next == |rows| {
      run, t := run0, t0;
      NoNames(rows, disk);
    } else {
      var a, t1 := Unlinks(s, t0, p, rows, next, at, expiring, db, disk, cfg);
      OneStepMore(s, run0, t0, a, cfg);
      NamesStep(rows, next, disk);
      run, t := UnlinksRest(s, run0 + [a], t1, p, rows, next + 1, at, expiring, db, disk - {rows[next].name}, cfg);
    }
  }

  lemma NoNames(rows: seq<PurgeRow>, disk: Disk)
    ensures disk - NamesFrom(rows, |rows|) == disk
  {
    assert NamesFrom(rows, |rows|) == {};
  }

  lemma SameRows(list: seq<PurgeRow>, rows: set<PurgeRow>)
    requires forall r :: r in list <==> r in rows
    ensures Ids(list) == IdsOf(rows) && NamesFrom(list, 0) == NamesOf(rows)
  {
    forall r | r in rows ensures r.id in Ids(list) && r.name in NamesFrom(list, 0) {
      var i :| 0 <= i < |list| && list[i] == r;
    }
    forall i | 0 <= i < |list| ensures list[i].id in IdsOf(rows) && list[i].name in NamesOf(rows) {
      assert list[i] in list;
    }
  }

  lemma OpensExpiry(s: State, p: nat, rows: seq<PurgeRow>, at: int, cfg: Config) returns (a: Action, t: State)
    requires p !in s.procs && s.writer == None && at <= Iso(s.clock) && ListsExpired(rows, ExpirePhotos(s.db, at), at)
    ensures Enabled(s, a) && t == Step(s, a, cfg)
    ensures Differs(s, t, s.db, s.disk, p, Some(Purging(rows, 0, at, true)))
  {
    hide Departed, ListsExpired, ExpirePhotos;
    a := Purge(OpenExpiry(p, rows, at));
    t := Step(s, a, cfg);
  }

  lemma ReadsDue(s: State, p: nat, rows: seq<PurgeRow>, cfg: Config) returns (a: Action, t: State)
    requires p !in s.procs && s.writer == None && ListsDeleted(rows, s.db, Iso(s.clock))
    ensures Enabled(s, a) && t == Step(s, a, cfg)
    ensures Differs(s, t, s.db, s.disk, p, Some(PurgeSelected(rows, Iso(s.clock))))
  {
    hide Departed, ListsDeleted;
    a := Purge(ReadDue(p, rows));
    t := Step(s, a, cfg);
  }

  lemma ListIsExpired(list: seq<PurgeRow>, db: Db, at: int)
    requires forall r :: r in list <==> r in ExpiredRows(db, at)
    ensures ListsExpired(list, db, at)
  {
    forall id | id in db.photos && ExpiryPurges(db.photos[id], at) ensures PurgeRow(id, db.photos[id].name) in list {
      assert PurgeRow(id, db.photos[id].name) in ExpiredRows(db, at);
    }
  }

  lemma ListIsDue(list: seq<PurgeRow>, db: Db, at: int)
    requires forall r :: r in list <==> r in DueRows(db, at)
    ensures ListsDeleted(list, db, at)
  {
    forall id | id in db.photos && DeletePurges(db.photos[id], at) ensures PurgeRow(id, db.photos[id].name) in list {
      assert PurgeRow(id, db.photos[id].name) in DueRows(db, at);
    }
  }

  lemma DiffersLater(s: State, t: State, db: Db, disk: Disk, p: nat)
    requires Differs(s, t, db, disk, p, None)
    ensures Later(s, t, db, disk, s.clock)
  {
  }

  lemma ExpiryIsARun(s: State, p: nat, cfg: Config) returns (run: seq<Action>, t: State)
    requires p !in s.procs && s.writer == None
    ensures Reaches(s, run, t, cfg)
    ensures
      var at := Iso(s.clock);
      Later(s, t, ExpiryPurged(s.db, at), s.disk - NamesOf(ExpiredRows(ExpirePhotos(s.db, at), at)), s.clock)
  {
    hide Step, Enabled, Differs, Reaches, Later, ExpirePhotos, ExpiredRows, ListsExpired, PurgeAll, PurgeRows;
    hide NamesFrom, NamesOf, Ids, IdsOf;
    var at := Iso(s.clock);
    var revoked := ExpirePhotos(s.db, at);
    var rows := Listed(ExpiredRows(revoked, at));
    ListIsExpired(rows, revoked, at);
    EmptyRun(s, cfg);
    var a, t0 := OpensExpiry(s, p, rows, at, cfg);
    OneStepMore(s, [], s, a, cfg);
    var r1, t1 := UnlinksRest(s, [] + [a], t0, p, rows, 0, at, true, s.db, s.disk, cfg);
    var disk := s.disk - NamesFrom(rows, 0);
    var b, t2 := Closes(s, t1, p, rows, at, true, s.db, disk, cfg);
    OneStepMore(s, r1, t1, b, cfg);
    PurgeRowsIsPurgeAll(revoked, rows, at);
    SameRows(rows, ExpiredRows(revoked, at));
    DiffersLater(s, t2, PurgeRows(revoked, rows, at), disk, p);
    run, t := r1 + [b], t2;
  }

  lemma DueIsARun(s: State, p: nat, cfg: Config) returns (run: seq<Action>, t: State)
    requires p !in s.procs && s.writer == None
    ensures Reaches(s, run, t, cfg)
    ensures
      var at := Iso(s.clock);
      Later(s, t, DuePurged(s.db, at), s.disk - NamesOf(DueRows(s.db, at)), s.clock)
  {
    hide Step, Enabled, Differs, Reaches, Later, DueRows, ListsDeleted, PurgeAll, PurgeRows;
    hide NamesFrom, NamesOf, Ids, IdsOf;
    var at := Iso(s.clock);
    var rows := Listed(DueRows(s.db, at));
    ListIsDue(rows, s.db, at);
    EmptyRun(s, cfg);
    var a, t0 := ReadsDue(s, p, rows, cfg);
    OneStepMore(s, [], s, a, cfg);
    var b, t1 := Opens(s, t0, p, rows, at, s.db, cfg);
    OneStepMore(s, [] + [a], t0, b, cfg);
    var r2, t2 := UnlinksRest(s, [] + [a] + [b], t1, p, rows, 0, at, false, s.db, s.disk, cfg);
    var disk := s.disk - NamesFrom(rows, 0);
    var c, t3 := Closes(s, t2, p, rows, at, false, s.db, disk, cfg);
    OneStepMore(s, r2, t2, c, cfg);
    PurgeRowsIsPurgeAll(s.db, rows, at);
    SameRows(rows, DueRows(s.db, at));
    DiffersLater(s, t3, PurgeRows(s.db, rows, at), disk, p);
    run, t := r2 + [c], t3;
  }

  // ----- the sweep -----

  predicate Orphan(disk: Disk, known: set<Name>, cutoff: int, name: Name) {
    name in disk && name !in known && disk[name].modifiedAt <= cutoff
  }

  lemma StartsSweep(s: State, p: nat, cfg: Config) returns (a: Action, t: State)
    requires p !in s.procs && s.writer == None
    ensures Enabled(s, a) && t == Step(s, a, cfg)
    ensures Differs(s, t, s.db, s.disk, p, Some(SweepRead(KnownObjects(s.db), s.clock)))
  {
    hide Departed, KnownObjects;
    a := Clean(ReadKnown(p));
    t := Step(s, a, cfg);
  }

  lemma SetsCutoff(s: State, t: State, p: nat, known: set<Name>, cfg: Config) returns (a: Action, u: State)
    requires Differs(s, t, s.db, s.disk, p, Some(SweepRead(known, s.clock)))
    ensures Enabled(t, a) && u == Step(t, a, cfg)
    ensures Differs(s, u, s.db, s.disk, p, Some(Sweeping(known, s.clock - 1000 * cfg.orphanMinAgeSeconds)))
  {
    hide Departed;
    a := Clean(ComputeCutoff(p));
    u := Step(t, a, cfg);
  }

  lemma SweepsOne(s: State, t: State, p: nat, known: set<Name>, cutoff: int, disk: Disk, victim: Name, cfg: Config)
    returns (a: Action, u: State)
    requires Differs(s, t, s.db, disk, p, Some(Sweeping(known, cutoff))) && Orphan(disk, known, cutoff, victim)
    ensures Enabled(t, a) && u == Step(t, a, cfg)
    ensures Differs(s, u, s.db, disk - {victim}, p, Some(Sweeping(known, cutoff)))
  {
    hide Departed;
    a := Clean(UnlinkOrphan(p, victim));
    u := Step(t, a, cfg);
  }

  /** `after` is `before` without some of its orphans. */
  ghost predicate Sweeps(before: Disk, after: Disk, known: set<Name>, cutoff: int) {
    && (forall name <- after :: name in before && after[name] == before[name])
    && (forall name <- before :: name !in after ==> Orphan(before, known, cutoff, name))
  }

  lemma SweptWhenNoneIsLeft(before: Disk, after: Disk, known: set<Name>, cutoff: int)
    requires Sweeps(before, after, known, cutoff) && forall name <- after :: !Orphan(after, known, cutoff, name)
    ensures after == Swept(before, known, cutoff)
  {
    assert after.Keys == Swept(before, known, cutoff).Keys;
  }

  lemma {:induction false} SweepsRest(
    s: State, run0: seq<Action>, t0: State, p: nat, known: set<Name>, cutoff: int, disk: Disk, cfg: Config)
    returns (run: seq<Action>, t: State)
    requires Reaches(s, run0, t0, cfg) && Sweeps(s.disk, disk, known, cutoff)
    requires Differs(s, t0, s.db, disk, p, Some(Sweeping(known, cutoff)))
    ensures Reaches(s, run, t, cfg)
    ensures Differs(s, t, s.db, Swept(s.disk, known, cutoff), p, Some(Sweeping(known, cutoff)))
    decreases disk.Keys
  {
    hide Step, Enabled, Differs, Reaches, Swept;
    if victim :| victim in disk && Orphan(disk, known, cutoff, victim) {
      var a, t1 := SweepsOne(s, t0, p, known, cutoff, disk, victim, cfg);
      OneStepMore(s, run0, t0, a, cfg);
      assert (disk - {victim}).Keys == disk.Keys - {victim};
      run, t := SweepsRest(s, run0 + [a], t1, p, known, cutoff, disk - {victim}, cfg);
    } else {
      SweptWhenNoneIsLeft(s.disk, disk, known, cutoff);
      run, t := run0, t0;
    }
  }

  lemma SweepIsARun(s: State, p: nat, cfg: Config) returns (run: seq<Action>, t: State)
    requires p !in s.procs && s.writer == None
    ensures Reaches(s, run, t, cfg)
    ensures
      var cutoff := s.clock - 1000 * cfg.orphanMinAgeSeconds;
      Later(s, t, s.db, Swept(s.disk, KnownObjects(s.db), cutoff), s.clock)
  {
    hide Step, Enabled, Differs, Reaches, Later, Swept, KnownObjects;
    var known, cutoff := KnownObjects(s.db), s.clock - 1000 * cfg.orphanMinAgeSeconds;
    EmptyRun(s, cfg);
    var a, t0 := StartsSweep(s, p, cfg);
    OneStepMore(s, [], s, a, cfg);
    var b, t1 := SetsCutoff(s, t0, p, known, cfg);
    OneStepMore(s, [] + [a], t0, b, cfg);
    var r2, t2 := SweepsRest(s, [] + [a] + [b], t1, p, known, cutoff, s.disk, cfg);
    var swept := Swept(s.disk, known, cutoff);
    var c, t3 := Stops(s, t2, p, Sweeping(known, cutoff), s.db, swept, cfg);
    OneStepMore(s, r2, t2, c, cfg);
    DiffersLater(s, t3, s.db, swept, p);
    run, t := r2 + [c], t3;
  }

  // ----- the record cleanups -----

  lemma CleansLeases(s: State, cfg: Config) returns (run: seq<Action>, t: State)
    requires s.writer == None
    ensures Reaches(s, run, t, cfg) && Later(s, t, CleanLeases(s.db, s.clock, cfg), s.disk, s.clock)
  {
    hide Departed, Reaches, CleanLeases;
    run := [Clean(CleanLeaseRows(s.clock))];
    t := Step(s, run[0], cfg);
    SingleStep(s, run[0], cfg);
  }

  lemma CleansGrants(s: State, cfg: Config) returns (run: seq<Action>, t: State)
    requires s.writer == None
    ensures Reaches(s, run, t, cfg) && Later(s, t, CleanGrants(s.db, Iso(s.clock)), s.disk, s.clock)
  {
    hide Departed, Reaches, CleanGrants;
    run := [Clean(CleanGrantRows(Iso(s.clock)))];
    t := Step(s, run[0], cfg);
    SingleStep(s, run[0], cfg);
  }

  lemma CleansPhotos(s: State, cfg: Config) returns (run: seq<Action>, t: State)
    requires s.writer == None
    ensures Reaches(s, run, t, cfg) && Later(s, t, CleanPhotos(s.db), s.disk, s.clock)
  {
    hide Departed, Reaches, CleanPhotos;
    run := [Clean(CleanPhotoRows)];
    t := Step(s, run[0], cfg);
    SingleStep(s, run[0], cfg);
  }

  // ----- the whole round -----

  /** The readings of the clock in milliseconds, in the order the round takes them. */
  datatype Clocks = Clocks(expiry: int, due: int, sweep: int, leases: int, grants: int)

  function Stored(c: Clocks): Times {
    Times(Iso(c.expiry), Iso(c.due), c.sweep, c.leases, Iso(c.grants))
  }

  lemma PurgesAreARun(s: State, p: nat, c: Clocks, cfg: Config) returns (run: seq<Action>, t: State)
    requires p !in s.procs && s.writer == None && s.clock <= c.expiry <= c.due
    ensures Reaches(s, run, t, cfg)
    ensures Later(s, t, PurgedDb(s.db, Stored(c)), PurgedDisk(s.db, s.disk, Stored(c)), c.due)
  {
    hide Reaches, ExpiryPurged, DuePurged, ExpirePhotos, ExpiredRows, DueRows, NamesOf;
    var r0, t0 := Passes(s, c.expiry, cfg);
    var r1, t1 := ExpiryIsARun(t0, p, cfg);
    Joined(s, r0, t0, r1, t1, cfg);
    var r2, t2 := Passes(t1, c.due, cfg);
    Joined(s, r0 + r1, t1, r2, t2, cfg);
    var r3, t3 := DueIsARun(t2, p, cfg);
    Joined(s, r0 + r1 + r2, t2, r3, t3, cfg);
    run, t := r0 + r1 + r2 + r3, t3;
  }

  lemma CleanupsAreARun(s: State, c: Clocks, cfg: Config) returns (run: seq<Action>, t: State)
    requires s.writer == None && s.clock <= c.leases <= c.grants
    ensures Reaches(s, run, t, cfg)
    ensures Later(s, t, CleanPhotos(CleanGrants(CleanLeases(s.db, c.leases, cfg), Iso(c.grants))), s.disk, c.grants)
  {
    hide Reaches, CleanLeases, CleanGrants, CleanPhotos;
    var r0, t0 := Passes(s, c.leases, cfg);
    var r1, t1 := CleansLeases(t0, cfg);
    Joined(s, r0, t0, r1, t1, cfg);
    var r2, t2 := Passes(t1, c.grants, cfg);
    Joined(s, r0 + r1, t1, r2, t2, cfg);
    var r3, t3 := CleansGrants(t2, cfg);
    Joined(s, r0 + r1 + r2, t2, r3, t3, cfg);
    var r4, t4 := CleansPhotos(t3, cfg);
    Joined(s, r0 + r1 + r2 + r3, t3, r4, t4, cfg);
    run, t := r0 + r1 + r2 + r3 + r4, t4;
  }

  /** The tables and the disk that the worker's method leaves are those of a run. */
  lemma RoundIsARun(s: State, p: nat, c: Clocks, cfg: Config) returns (run: seq<Action>, t: State)
    requires p !in s.procs && s.writer == None
    requires s.clock <= c.expiry <= c.due <= c.sweep <= c.leases <= c.grants
    ensures Reaches(s, run, t, cfg) && t.procs == s.procs && t.clock == c.grants
    ensures t.db == RoundDb(s.db, Stored(c), cfg) && t.disk == RoundDisk(s.db, s.disk, Stored(c), cfg)
  {
    hide Reaches, PurgedDb, PurgedDisk, Swept, KnownObjects, CleanLeases, CleanGrants, CleanPhotos;
    var r0, t0 := PurgesAreARun(s, p, c, cfg);
    var r1, t1 := Passes(t0, c.sweep, cfg);
    Joined(s, r0, t0, r1, t1, cfg);
    var r2, t2 := SweepIsARun(t1, p, cfg);
    Joined(s, r0 + r1, t1, r2, t2, cfg);
    var r3, t3 := CleanupsAreARun(t2, c, cfg);
    Joined(s, r0 + r1 + r2, t2, r3, t3, cfg);
    run, t := r0 + r1 + r2 + r3, t3;
  }
}
