/** The download and the delete, each as one method on one connection, are runs of the protocol too. */
module RequestRuns {
  import opened Basics
  import opened Records
  import opened Protocol
  import opened Retrievals
  import opened SaveRuns
  import Invariant

  // ----- resolve -----

  lemma Waits(s: State, now: int, cfg: Config) returns (run: seq<Action>, t: State)
    requires s.writer == None && s.clock <= now
    ensures Reaches(s, run, t, cfg) && t.clock == now
    ensures t.db == s.db && t.disk == s.disk && t.procs == s.procs && t.writer == None && t.tokens == s.tokens
  {
    hide Departed, Reaches;
    run := [Env(Tick(now - s.clock))];
    t := Step(s, run[0], cfg);
    SingleStep(s, run[0], cfg);
  }

  lemma SingleStep(s: State, a: Action, cfg: Config)
    requires Enabled(s, a)
    ensures Reaches(s, [a], Step(s, a, cfg), cfg)
  {
    hide Step, Enabled;
    assert Reaches(Step(s, a, cfg), [a][1..], Step(s, a, cfg), cfg);
  }

  lemma LooksUp(s: State, p: nat, key: string, id: PhotoId, cfg: Config) returns (a: Action, t: State)
    requires p !in s.procs && s.writer == None && Available(s.db, key, id, s.clock)
    ensures Enabled(s, a) && t == Step(s, a, cfg) && t.tokens == s.tokens
    ensures Differs(s, t, s.db, s.disk, p, Some(Resolving(id, s.db.photos[id].epoch)))
  {
    hide Departed;
    a := Retrieve(ReadForResolve(p, id));
    t := Step(s, a, cfg);
  }

  lemma Issued(s: State, p: nat, id: PhotoId, epoch: nat, token: Token, cfg: Config) returns (a: Action, t: State)
    requires p in s.procs && s.procs[p] == Resolving(id, epoch) && s.writer == None && token !in s.tokens
    ensures Enabled(s, a) && t == Step(s, a, cfg)
    ensures t.db == IssueGrant(s.db, token, id, epoch, s.clock, cfg) && t.disk == s.disk && t.clock == s.clock
    ensures t.procs == s.procs - {p} && t.writer == None
  {
    hide Departed, IssueGrant;
    a := Retrieve(InsertGrant(p, token));
    t := Step(s, a, cfg);
  }

  /** A token issued by the imperative look-up is issued by a run, with the look-up and the issue at their own times. */
  lemma ResolveIsARun(
    s: State, p: nat, key: string, id: PhotoId, token: Token, now: Readings, cfg: Config)
    returns (run: seq<Action>, t: State)
    requires p !in s.procs && s.writer == None && token !in s.tokens && s.clock <= now.lookup <= now.issue
    requires Available(s.db, key, id, now.lookup)
    ensures Reaches(s, run, t, cfg) && t.procs == s.procs && t.disk == s.disk && t.clock == now.issue
    ensures t.db == IssueGrant(s.db, token, id, s.db.photos[id].epoch, now.issue, cfg)
  {
    hide Step, Enabled, Reaches, IssueGrant, Available;
    var r0, t0 := Waits(s, now.lookup, cfg);
    var a, t1 := LooksUp(t0, p, key, id, cfg);
    OneStepMore(s, r0, t0, a, cfg);
    var r2, t2 := Waits(t1, now.issue, cfg);
    Joined(s, r0 + [a], t1, r2, t2, cfg);
    assert id in s.db.photos by { InTable(s.db, key, id, now.lookup); }
    var b, t3 := Issued(t2, p, id, s.db.photos[id].epoch, token, cfg);
    OneStepMore(s, r0 + [a] + r2, t2, b, cfg);
    assert t2.procs - {p} == s.procs;
    run, t := r0 + [a] + r2 + [b], t3;
  }

  lemma InTable(db: Db, key: string, id: PhotoId, now: int)
    requires Available(db, key, id, now)
    ensures id in db.photos
  {
  }

  lemma {:induction false} Joined(
    s: State, first: seq<Action>, t: State, second: seq<Action>, u: State, cfg: Config)
    requires Reaches(s, first, t, cfg) && Reaches(t, second, u, cfg)
    ensures Reaches(s, first + second, u, cfg)
    decreases |first|
  {
    hide Step, Enabled;
    if first == [] {
      assert first + second == second;
    } else {
      assert (first + second)[1..] == first[1..] + second;
      Joined(Step(s, first[0], cfg), first[1..], t, second, u, cfg);
    }
  }

  // ----- download -----

  lemma ReadsGrant(s: State, p: nat, token: Token, cfg: Config) returns (a: Action, t: State)
    requires p !in s.procs && s.writer == None && token in s.db.grants
    requires GrantUsable(s.db.grants[token], Iso(s.clock))
    ensures Enabled(s, a) && t == Step(s, a, cfg) && t.downloads == s.downloads
    ensures Differs(s, t, s.db, s.disk, p, Some(GrantRead(token, s.db.grants[token], Iso(s.clock))))
  {
    hide Departed;
    a := Retrieve(ReadGrant(p, token));
    t := Step(s, a, cfg);
  }

  lemma CheckStep(t: State, p: nat, cfg: Config)
    requires p in t.procs && t.procs[p].GrantRead?
    ensures Enabled(t, Retrieve(CheckPhoto(p))) && Step(t, Retrieve(CheckPhoto(p)), cfg) == Stamp(t, ApplyCheck(t, p))
  {
    hide Stamp, ApplyCheck;
  }

  lemma Checked(t: State, p: nat, token: Token, grant: Grant, now: int)
    requires p in t.procs && t.procs[p] == GrantRead(token, grant, Iso(now))
    requires token in t.db.grants && t.db.grants[token] == grant && GrantUsable(grant, Iso(now))
    ensures
      ApplyCheck(t, p) ==
      if Honoured(t.db, token, now)
      then Goto(t, p, PhotoChecked(token, grant.photo, t.db.photos[grant.photo], Iso(now), t.steps)) else End(t, p)
  {
    hide Retrievable, GrantUsable, Goto, End;
  }

  lemma ChecksPhoto(s: State, t: State, p: nat, token: Token, cfg: Config) returns (a: Action, u: State)
    requires p !in s.procs && token in s.db.grants && GrantUsable(s.db.grants[token], Iso(s.clock))
    requires Differs(s, t, s.db, s.disk, p, Some(GrantRead(token, s.db.grants[token], Iso(s.clock))))
    ensures Enabled(t, a) && u == Step(t, a, cfg) && u.downloads == t.downloads
    ensures
      var id := s.db.grants[token].photo;
      if Honoured(s.db, token, s.clock)
      then Differs(s, u, s.db, s.disk, p, Some(PhotoChecked(token, id, s.db.photos[id], Iso(s.clock), t.steps)))
      else Differs(s, u, s.db, s.disk, p, None)
  {
    hide Departed, Step, Enabled, ApplyCheck, Retrievable, GrantUsable;
    a := Retrieve(CheckPhoto(p));
    CheckStep(t, p, cfg);
    Checked(t, p, token, s.db.grants[token], s.clock);
    u := Step(t, a, cfg);
    assert t.procs - {p} == s.procs;
  }

  lemma Consumes(s: State, t: State, p: nat, token: Token, photo: Photo, checkedAt: nat, cfg: Config)
    returns (a: Action, u: State)
    requires p !in s.procs && CanConsume(s.db, token)
    requires Differs(s, t, s.db, s.disk, p,
                     Some(PhotoChecked(token, s.db.grants[token].photo, photo, Iso(s.clock), checkedAt)))
    ensures Enabled(t, a) && u == Step(t, a, cfg) && u.downloads == t.downloads
    ensures Differs(s, u, ConsumeGrant(s.db, token, Iso(s.clock)), s.disk, p,
                    Some(Consumed(token, s.db.grants[token].photo, photo, checkedAt)))
  {
    hide Departed, ConsumeGrant;
    a := Retrieve(ConsumeToken(p));
    u := Step(t, a, cfg);
  }

  lemma ServeStep(t: State, p: nat, cfg: Config)
    requires p in t.procs && t.procs[p].Consumed?
    ensures Enabled(t, Retrieve(Serve(p))) && Step(t, Retrieve(Serve(p)), cfg) == Stamp(t, ApplyServe(t, p))
  {
    hide Stamp, ApplyServe;
  }

  lemma Served(t: State, p: nat)
    requires p in t.procs && t.procs[p].Consumed?
    ensures
      var q := t.procs[p];
      ApplyServe(t, p) ==
      if q.photo.name in t.disk && PassesIntegrity(q.photo, t.disk[q.photo.name].data)
      then End(t, p).(downloads := t.downloads + [Download(q.token, q.id, t.disk[q.photo.name].data, q.checkedAt)])
      else End(t, p)
  {
    hide PassesIntegrity, End;
  }

  lemma Serves(
    s: State, t: State, p: nat, token: Token, id: PhotoId, photo: Photo, checkedAt: nat, db: Db, cfg: Config)
    returns (a: Action, u: State)
    requires p !in s.procs && Differs(s, t, db, s.disk, p, Some(Consumed(token, id, photo, checkedAt)))
    ensures Enabled(t, a) && u == Step(t, a, cfg) && Differs(s, u, db, s.disk, p, None)
    ensures u.downloads ==
            if photo.name in s.disk && PassesIntegrity(photo, s.disk[photo.name].data)
            then t.downloads + [Download(token, id, s.disk[photo.name].data, checkedAt)] else t.downloads
  {
    hide Departed, Step, Enabled, ApplyServe, PassesIntegrity;
    a := Retrieve(Serve(p));
    ServeStep(t, p, cfg);
    Served(t, p);
    u := Step(t, a, cfg);
    assert t.procs - {p} == s.procs;
  }

  /** The client has been sent `data` for the token, and nothing else. */
  ghost predicate Fetched(s: State, t: State, token: Token, data: Option<Bytes>) {
    if data == None then t.downloads == s.downloads
    else
      && token in s.db.grants
      && exists checkedAt ::
           t.downloads == s.downloads + [Download(token, s.db.grants[token].photo, data.value, checkedAt)]
  }

  /** A download that nothing interrupts, however it ends, is the effect of a run. */
  lemma DownloadIsARun(s: State, p: nat, token: Token, cfg: Config) returns (run: seq<Action>, t: State)
    requires p !in s.procs && s.writer == None
    ensures Reaches(s, run, t, cfg) && t.procs == s.procs && t.clock == s.clock && t.disk == s.disk
    ensures t.db == if Honoured(s.db, token, s.clock) then ConsumeGrant(s.db, token, Iso(s.clock)) else s.db
    ensures Fetched(s, t, token, Delivered(s.db, s.disk, token, s.clock))
  {
    hide Step, Enabled, Reaches, ConsumeGrant, PassesIntegrity, Retrievable;
    EmptyRun(s, cfg);
    run, t := [], s;
    if token in s.db.grants && GrantUsable(s.db.grants[token], Iso(s.clock)) {
      var a, t0 := ReadsGrant(s, p, token, cfg);
      OneStepMore(s, [], s, a, cfg);
      var b, t1 := ChecksPhoto(s, t0, p, token, cfg);
      OneStepMore(s, [] + [a], t0, b, cfg);
      run, t := [] + [a] + [b], t1;
      if Honoured(s.db, token, s.clock) {
        var id := s.db.grants[token].photo;
        var c, t2 := Consumes(s, t1, p, token, s.db.photos[id], t0.steps, cfg);
        OneStepMore(s, run, t1, c, cfg);
        var db := ConsumeGrant(s.db, token, Iso(s.clock));
        var d, t3 := Serves(s, t2, p, token, id, s.db.photos[id], t0.steps, db, cfg);
        OneStepMore(s, run + [c], t2, d, cfg);
        run, t := run + [c] + [d], t3;
      }
    }
  }

  // ----- delete_save -----

  lemma ReadsForDelete(s: State, p: nat, id: PhotoId, key: string, secret: string, cfg: Config)
    returns (a: Action, t: State)
    requires p !in s.procs && s.writer == None && Schema(s.db) && Authorised(s.db, key, secret, id)
    ensures Enabled(s, a) && t == Step(s, a, cfg)
    ensures Differs(s, t, s.db, s.disk, p, Some(Deleting(id, s.db.photos[id].name, Iso(s.clock))))
  {
    hide Departed;
    a := Purge(ReadForDelete(p, id, secret));
    t := Step(s, a, cfg);
  }

  lemma Revokes(s: State, t: State, p: nat, id: PhotoId, name: Name, at: int, cfg: Config) returns (a: Action, u: State)
    requires Differs(s, t, s.db, s.disk, p, Some(Deleting(id, name, at)))
    ensures Enabled(t, a) && u == Step(t, a, cfg)
    ensures Differs(s, u, Revoke(s.db, id, at), s.disk, p, Some(PurgeSelected([PurgeRow(id, name)], at)))
  {
    hide Departed, Revoke;
    a := Purge(RevokePhoto(p));
    u := Step(t, a, cfg);
  }

  lemma Opens(s: State, t: State, p: nat, rows: seq<PurgeRow>, at: int, db: Db, cfg: Config)
    returns (a: Action, u: State)
    requires Differs(s, t, db, s.disk, p, Some(PurgeSelected(rows, at)))
    ensures Enabled(t, a) && u == Step(t, a, cfg)
    ensures Differs(s, u, db, s.disk, p, Some(Purging(rows, 0, at, false)))
  {
    hide Departed;
    a := Purge(OpenPurge(p));
    u := Step(t, a, cfg);
  }

  lemma Unlinks(
    s: State, t: State, p: nat, rows: seq<PurgeRow>, next: nat, at: int, expiring: bool, db: Db, disk: Disk,
    cfg: Config)
    returns (a: Action, u: State)
    requires next < |rows| && Differs(s, t, db, disk, p, Some(Purging(rows, next, at, expiring)))
    ensures Enabled(t, a) && u == Step(t, a, cfg)
    ensures Differs(s, u, db, disk - {rows[next].name}, p, Some(Purging(rows, next + 1, at, expiring)))
  {
    hide Departed;
    a := Purge(UnlinkPurged(p));
    u := Step(t, a, cfg);
  }

  lemma Closes(
    s: State, t: State, p: nat, rows: seq<PurgeRow>, at: int, expiring: bool, db: Db, disk: Disk, cfg: Config)
    returns (a: Action, u: State)
    requires p !in s.procs && Differs(s, t, db, disk, p, Some(Purging(rows, |rows|, at, expiring)))
    ensures Enabled(t, a) && u == Step(t, a, cfg)
    ensures Differs(s, u, PurgeRows(if expiring then ExpirePhotos(db, at) else db, rows, at), disk, p, None)
  {
    hide Departed, PurgeRows, ExpirePhotos;
    a := Purge(ClosePurge(p));
    u := Step(t, a, cfg);
    assert t.procs - {p} == s.procs;
  }

  /** Whatever stops the request rolls its transaction back. */
  lemma Stops(s: State, t: State, p: nat, point: Proc, db: Db, disk: Disk, cfg: Config) returns (a: Action, u: State)
    requires p !in s.procs && Differs(s, t, db, disk, p, Some(point))
    ensures Enabled(t, a) && u == Step(t, a, cfg) && Differs(s, u, db, disk, p, None)
  {
    hide Departed;
    a := Env(Crash(p));
    u := Step(t, a, cfg);
    assert t.procs - {p} == s.procs;
  }

  lemma OneRow(db: Db, id: PhotoId, name: Name, at: int)
    ensures PurgeRows(db, [PurgeRow(id, name)], at) == PurgePhoto(db, id, at)
  {
    hide PurgePhoto;
    assert [PurgeRow(id, name)][..0] == [];
  }

  lemma PurgeIsARun(
    s: State, run0: seq<Action>, t0: State, p: nat, id: PhotoId, name: Name, at: int, db: Db, end: PurgeEnd,
    cfg: Config)
    returns (run: seq<Action>, t: State)
    requires p !in s.procs && Reaches(s, run0, t0, cfg)
    requires Differs(s, t0, db, s.disk, p, Some(PurgeSelected([PurgeRow(id, name)], at)))
    ensures Reaches(s, run, t, cfg)
    ensures Differs(s, t, if end.Completes? then PurgePhoto(db, id, at) else db,
                    if end.UnlinkFails? then s.disk else s.disk - {name}, p, None)
  {
    hide Step, Enabled, Differs, Reaches, PurgePhoto, PurgeRows;
    var rows := [PurgeRow(id, name)];
    var a, t1 := Opens(s, t0, p, rows, at, db, cfg);
    OneStepMore(s, run0, t0, a, cfg);
    if end.UnlinkFails? {
      var b, t2 := Stops(s, t1, p, Purging(rows, 0, at, false), db, s.disk, cfg);
      OneStepMore(s, run0 + [a], t1, b, cfg);
      run, t := run0 + [a] + [b], t2;
    } else {
      var b, t2 := Unlinks(s, t1, p, rows, 0, at, false, db, s.disk, cfg);
      OneStepMore(s, run0 + [a], t1, b, cfg);
      var c, t3;
      if end.CommitFails? {
        c, t3 := Stops(s, t2, p, Purging(rows, 1, at, false), db, s.disk - {name}, cfg);
      } else {
        c, t3 := Closes(s, t2, p, rows, at, false, db, s.disk - {name}, cfg);
        OneRow(db, id, name, at);
      }
      OneStepMore(s, run0 + [a] + [b], t2, c, cfg);
      run, t := run0 + [a] + [b] + [c], t3;
    }
  }

  /** A delete with the right secret, however its two steps end, is the effect of a run. */
  lemma DeleteIsARun(
    s: State, p: nat, id: PhotoId, key: string, secret: string, revokes: bool, end: PurgeEnd, cfg: Config)
    returns (run: seq<Action>, t: State)
    requires p !in s.procs && s.writer == None && Schema(s.db) && Authorised(s.db, key, secret, id)
    ensures Reaches(s, run, t, cfg) && t.procs == s.procs && t.clock == s.clock
    ensures t.db == DeletedDb(s.db, id, Iso(s.clock), revokes, end)
    ensures t.disk == DeletedDisk(s.disk, s.db.photos[id].name, revokes, end)
  {
    hide Step, Enabled, Reaches, Revoke, PurgePhoto, Schema;
    var at, name := Iso(s.clock), s.db.photos[id].name;
    EmptyRun(s, cfg);
    var a, t0 := ReadsForDelete(s, p, id, key, secret, cfg);
    OneStepMore(s, [], s, a, cfg);
    if revokes {
      var b, t1 := Revokes(s, t0, p, id, name, at, cfg);
      OneStepMore(s, [] + [a], t0, b, cfg);
      run, t := PurgeIsARun(s, [] + [a] + [b], t1, p, id, name, at, Revoke(s.db, id, at), end, cfg);
    } else {
      var b, t1 := Stops(s, t0, p, Deleting(id, name, at), s.db, s.disk, cfg);
      OneStepMore(s, [] + [a], t0, b, cfg);
      run, t := [] + [a] + [b], t1;
    }
  }
}
