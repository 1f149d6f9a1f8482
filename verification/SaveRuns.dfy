/**
 The save request, as one method on one connection, is a run of the protocol: everything
 proved of all interleavings holds of it too.
 */
module SaveRuns {
  import opened Basics
  import opened Records
  import opened Protocol
  import opened Saves

  /** As `s`, with other tables and disk, and with process `p` at `point` or ended; a purge holds the database. */
  ghost predicate Differs(s: State, t: State, db: Db, disk: Disk, p: nat, point: Option<Proc>) {
    && t.db == db && t.disk == disk && t.clock == s.clock && s.writer == None
    && t.writer == (if point.Some? && point.value.Purging? then Some(p) else None)
    && t.procs == (match point case None => s.procs case Some(q) => s.procs[p := q])
  }

  lemma {:induction false} OneStepMore(s: State, run: seq<Action>, t: State, a: Action, cfg: Config)
    requires Reaches(s, run, t, cfg) && Enabled(t, a)
    ensures Reaches(s, run + [a], Step(t, a, cfg), cfg)
    decreases |run|
  {
    hide Step, Enabled;
    if run == [] {
      assert ([] + [a])[1..] == [];
      assert Reaches(Step(t, a, cfg), [], Step(t, a, cfg), cfg);
    } else {
      assert (run + [a])[1..] == run[1..] + [a];
      OneStepMore(Step(s, run[0], cfg), run[1..], t, a, cfg);
    }
  }

  // ----- one action after another -----

  lemma Begin(s: State, p: nat, row: RowKey, upload: Upload, cfg: Config) returns (a: Action, t: State)
    requires p !in s.procs && s.writer == None
    ensures Enabled(s, a) && t == Step(s, a, cfg)
    ensures Differs(s, t, s.db, s.disk, p, Some(Saving(Job(row, upload, s.clock))))
    ensures t.answers == s.answers && t.generations == s.generations && t.names == s.names
  {
    hide Departed;
    a := Lease(BeginSave(p, row, upload));
    t := Step(s, a, cfg);
  }

  lemma InsertStep(t: State, p: nat, cfg: Config)
    requires p in t.procs && t.procs[p].Saving? && t.writer == None
    ensures Enabled(t, Lease(TryInsert(p))) && Step(t, Lease(TryInsert(p)), cfg) == Stamp(t, ApplyInsert(t, p))
  {
    hide Stamp, ApplyInsert;
  }

  lemma Inserted(t: State, p: nat)
    requires p in t.procs && t.procs[p].Saving?
    ensures
      var job := t.procs[p].job;
      var u := ApplyInsert(t, p);
      if CanInsertLease(t.db, job)
      then u == t.(db := InsertLease(t.db, job), procs := t.procs[p := Holding(job)], generations := u.generations)
      else u == t.(procs := t.procs[p := LostInsert(job)])
  {
    hide InsertLease;
  }

  lemma ReadStep(t: State, p: nat, cfg: Config)
    requires p in t.procs && t.procs[p].LostInsert?
    ensures Enabled(t, Lease(ReadLease(p))) && Step(t, Lease(ReadLease(p)), cfg) == Stamp(t, ApplyReadLease(t, p, cfg))
  {
    hide Stamp, ApplyReadLease;
  }

  lemma TryToInsert(s: State, t: State, p: nat, job: Job, cfg: Config) returns (a: Action, u: State)
    requires Differs(s, t, s.db, s.disk, p, Some(Saving(job)))
    ensures Enabled(t, a) && u == Step(t, a, cfg)
    ensures if CanInsertLease(s.db, job) then Differs(s, u, InsertLease(s.db, job), s.disk, p, Some(Holding(job)))
            else Differs(s, u, s.db, s.disk, p, Some(LostInsert(job))) && u.generations == t.generations
    ensures u.answers == t.answers && u.names == t.names
  {
    hide Departed, Step, Enabled, ApplyInsert, InsertLease;
    a := Lease(TryInsert(p));
    InsertStep(t, p, cfg);
    Inserted(t, p);
    u := Step(t, a, cfg);
  }

  lemma ReadBack(s: State, t: State, p: nat, job: Job, cfg: Config) returns (a: Action, u: State)
    requires p !in s.procs && Differs(s, t, s.db, s.disk, p, Some(LostInsert(job)))
    ensures Enabled(t, a) && u == Step(t, a, cfg) && u.names == t.names
    ensures
      match DecideLease(LeaseAt(s.db, job.row), job, cfg)
      case TakeOver(seen) => Differs(s, u, s.db, s.disk, p, Some(TakingOver(job, seen))) && u.answers == t.answers
      case Refuse(_) => Differs(s, u, s.db, s.disk, p, None) && u.answers == t.answers
      case Replay(None) => Differs(s, u, s.db, s.disk, p, None) && u.answers == t.answers
      case Replay(Some(envelope)) =>
        && Differs(s, u, s.db, s.disk, p, None) && |u.answers| == |t.answers| + 1
        && u.answers[|t.answers|].receipt == envelope.receipt && t.answers == u.answers[..|t.answers|]
  {
    hide Departed, Step, Enabled;
    a := Lease(ReadLease(p));
    ReadStep(t, p, cfg);
    u := Step(t, a, cfg);
    assert t.procs - {p} == s.procs;
  }

  lemma Overtake(s: State, t: State, p: nat, job: Job, seen: LeaseRow, cfg: Config) returns (a: Action, u: State)
    requires Differs(s, t, s.db, s.disk, p, Some(TakingOver(job, seen)))
    ensures Enabled(t, a) && u == Step(t, a, cfg) && u.names == t.names && u.answers == t.answers
    ensures Differs(s, u, TakeOverLease(s.db, job), s.disk, p, Some(Holding(job)))
  {
    hide Departed, TakeOverLease;
    a := Lease(UpdateLease(p));
    u := Step(t, a, cfg);
  }

  lemma GiveUp(s: State, t: State, p: nat, job: Job, db: Db, cfg: Config) returns (a: Action, u: State)
    requires Differs(s, t, db, s.disk, p, Some(Holding(job)))
    ensures Enabled(t, a) && u == Step(t, a, cfg) && u.answers == t.answers
    ensures Differs(s, u, db, s.disk, p, Some(Failing(job)))
  {
    hide Departed;
    a := Save(Reject(p));
    u := Step(t, a, cfg);
  }

  lemma Release(s: State, t: State, p: nat, job: Job, db: Db, cfg: Config) returns (a: Action, u: State)
    requires p !in s.procs && Differs(s, t, db, s.disk, p, Some(Failing(job)))
    ensures Enabled(t, a) && u == Step(t, a, cfg) && u.answers == t.answers
    ensures Differs(s, u, MarkFailed(db, job), s.disk, p, None)
  {
    hide Departed, MarkFailed;
    a := Lease(ReleaseLease(p));
    u := Step(t, a, cfg);
    assert t.procs - {p} == s.procs;
  }

  lemma WriteOut(s: State, t: State, p: nat, job: Job, enc: Encoded, name: Name, db: Db, cfg: Config)
    returns (a: Action, u: State)
    requires Differs(s, t, db, s.disk, p, Some(Holding(job))) && name !in t.names
    ensures Enabled(t, a) && u == Step(t, a, cfg) && u.answers == t.answers
    ensures Differs(s, u, db, s.disk[name := File(enc.data, s.clock)], p, Some(Staged(job, enc, name, s.clock)))
  {
    hide Departed;
    a := Save(WriteObject(p, enc, name));
    u := Step(t, a, cfg);
  }

  lemma Undo(s: State, t: State, p: nat, job: Job, enc: Encoded, name: Name, db: Db, cfg: Config)
    returns (a: Action, u: State)
    requires Differs(s, t, db, s.disk[name := File(enc.data, s.clock)], p, Some(Staged(job, enc, name, s.clock)))
    ensures Enabled(t, a) && u == Step(t, a, cfg) && u.answers == t.answers
    ensures Differs(s, u, db, s.disk[name := File(enc.data, s.clock)], p, Some(Undoing(job, name)))
  {
    hide Departed;
    a := Save(RollBack(p));
    u := Step(t, a, cfg);
  }

  lemma Unlink(s: State, t: State, p: nat, job: Job, enc: Encoded, name: Name, db: Db, cfg: Config)
    returns (a: Action, u: State)
    requires name !in s.disk
    requires Differs(s, t, db, s.disk[name := File(enc.data, s.clock)], p, Some(Undoing(job, name)))
    ensures Enabled(t, a) && u == Step(t, a, cfg) && u.answers == t.answers
    ensures Differs(s, u, db, s.disk, p, Some(Failing(job)))
  {
    hide Departed;
    a := Save(UnlinkStaged(p));
    u := Step(t, a, cfg);
    assert t.disk - {name} == s.disk;
  }

  lemma CommitAll(
    s: State, t: State, p: nat, job: Job, enc: Encoded, name: Name, db: Db, key: string, secret: string, cfg: Config)
    returns (a: Action, u: State)
    requires p !in s.procs && Fingerprint(key) !in db.keys
    requires Differs(s, t, db, s.disk[name := File(enc.data, s.clock)], p, Some(Staged(job, enc, name, s.clock)))
    ensures Enabled(t, a) && u == Step(t, a, cfg)
    ensures |u.answers| == |t.answers| + 1 && u.answers[|t.answers|].receipt == ReceiptFor(job, enc, key, secret, cfg)
    ensures t.answers == u.answers[..|t.answers|]
    ensures Differs(
              s, u, CommitSave(db, job, enc, name, key, secret, cfg), s.disk[name := File(enc.data, s.clock)], p, None)
  {
    hide Departed, CommitSave, ReceiptFor;
    a := Save(CommitPhoto(p, key, secret));
    u := Step(t, a, cfg);
    assert t.procs - {p} == s.procs;
  }

  // ----- the whole request -----

  /** The client has been sent the answer `answer`, and nothing else. */
  ghost predicate Sent(s: State, t: State, answer: Answered) {
    if answer.Ok? then
      && |t.answers| == |s.answers| + 1 && t.answers[|s.answers|].receipt == answer.value
      && s.answers == t.answers[..|s.answers|]
    else t.answers == s.answers
  }

  lemma LeaseIsARun(s: State, p: nat, row: RowKey, upload: Upload, cfg: Config) returns (run: seq<Action>, t: State)
    requires p !in s.procs && s.writer == None
    ensures Reaches(s, run, t, cfg) && t.names == s.names
    ensures
      var job := Job(row, upload, s.clock);
      match LeaseOf(s.db, job, cfg)
      case Held => Differs(s, t, Leased(s.db, job, cfg), s.disk, p, Some(Holding(job))) && t.answers == s.answers
      case Turned(answer) => Differs(s, t, s.db, s.disk, p, None) && Sent(s, t, answer)
  {
    hide Step, Enabled, Differs, Reaches, InsertLease, TakeOverLease, DecideLease;
    var job := Job(row, upload, s.clock);
    EmptyRun(s, cfg);
    var a, t0 := Begin(s, p, row, upload, cfg);
    OneStepMore(s, [], s, a, cfg);
    var b, t1 := TryToInsert(s, t0, p, job, cfg);
    OneStepMore(s, [] + [a], t0, b, cfg);
    run, t := [] + [a] + [b], t1;
    if !CanInsertLease(s.db, job) {
      var c, t2 := ReadBack(s, t1, p, job, cfg);
      OneStepMore(s, run, t1, c, cfg);
      run, t := run + [c], t2;
      if DecideLease(LeaseAt(s.db, job.row), job, cfg).TakeOver? {
        var d, t3 := Overtake(s, t2, p, job, DecideLease(LeaseAt(s.db, job.row), job, cfg).seen, cfg);
        OneStepMore(s, run, t2, d, cfg);
        run, t := run + [d], t3;
      }
    }
  }

  lemma EmptyRun(s: State, cfg: Config)
    ensures Reaches(s, [], s, cfg)
  {
    hide Step, Enabled;
  }

  /** The tables once a failed save has released its lease, or has not even managed that. */
  function Released(db: Db, job: Job, stuck: bool): Db {
    if stuck then db else MarkFailed(db, job)
  }

  lemma Abandon(s: State, t: State, p: nat, job: Job, db: Db, cfg: Config) returns (a: Action, u: State)
    requires p !in s.procs && Differs(s, t, db, s.disk, p, Some(Failing(job)))
    ensures Enabled(t, a) && u == Step(t, a, cfg) && u.answers == t.answers
    ensures Differs(s, u, db, s.disk, p, None)
  {
    hide Departed;
    a := Env(Crash(p));
    u := Step(t, a, cfg);
    assert t.procs - {p} == s.procs;
  }

  lemma FailureIsARun(s: State, run0: seq<Action>, t0: State, p: nat, job: Job, db: Db, stuck: bool, cfg: Config)
    returns (run: seq<Action>, t: State)
    requires p !in s.procs && Reaches(s, run0, t0, cfg) && Differs(s, t0, db, s.disk, p, Some(Failing(job)))
    ensures Reaches(s, run, t, cfg) && Differs(s, t, Released(db, job, stuck), s.disk, p, None)
    ensures t.answers == t0.answers
  {
    hide Step, Enabled, Differs, Reaches, MarkFailed;
    var a, t1;
    if stuck {
      a, t1 := Abandon(s, t0, p, job, db, cfg);
    } else {
      a, t1 := Release(s, t0, p, job, db, cfg);
    }
    OneStepMore(s, run0, t0, a, cfg);
    run, t := run0 + [a], t1;
  }

  lemma UndoneIsARun(
    s: State, run0: seq<Action>, t0: State, p: nat, job: Job, enc: Encoded, name: Name, db: Db, stuck: bool,
    cfg: Config)
    returns (run: seq<Action>, t: State)
    requires p !in s.procs && name !in s.disk && Reaches(s, run0, t0, cfg)
    requires Differs(s, t0, db, s.disk[name := File(enc.data, s.clock)], p, Some(Staged(job, enc, name, s.clock)))
    ensures Reaches(s, run, t, cfg) && Differs(s, t, Released(db, job, stuck), s.disk, p, None)
    ensures t.answers == t0.answers
  {
    hide Step, Enabled, Differs, Reaches, Released;
    var a, t1 := Undo(s, t0, p, job, enc, name, db, cfg);
    OneStepMore(s, run0, t0, a, cfg);
    var b, t2 := Unlink(s, t1, p, job, enc, name, db, cfg);
    OneStepMore(s, run0 + [a], t1, b, cfg);
    run, t := FailureIsARun(s, run0 + [a] + [b], t2, p, job, db, stuck, cfg);
  }

  /** What a write that fails leaves for a moment. */
  function Partial(enc: Encoded, stops: Option<nat>): Encoded {
    if stops == None then enc else enc.(data := enc.data[..Min(stops.value, |enc.data|)])
  }

  lemma AttemptIsARun(
    s: State, run0: seq<Action>, t0: State, p: nat, job: Job, db: Db, photo: Result<Encoded, SaveError>,
    draws: Draws, faults: Faults, cfg: Config)
    returns (run: seq<Action>, t: State)
    requires p !in s.procs && Reaches(s, run0, t0, cfg) && Differs(s, t0, db, s.disk, p, Some(Holding(job)))
    requires draws.name in s.disk || draws.name !in t0.names
    ensures Reaches(s, run, t, cfg)
    ensures
      var o := Attempt(db, s.disk, job, photo, draws, s.clock, faults, cfg);
      && Differs(s, t, if o.answer.Ok? then o.db else Released(o.db, job, faults.release), o.files, p, None)
      && Sent(t0, t, o.answer)
  {
    hide Step, Enabled, Differs, Reaches, Released, CommitSave, ReceiptFor, FirstFree;
    if photo.Err? || draws.name in s.disk {
      var a, t1 := GiveUp(s, t0, p, job, db, cfg);
      OneStepMore(s, run0, t0, a, cfg);
      run, t := FailureIsARun(s, run0 + [a], t1, p, job, db, faults.release, cfg);
    } else {
      var enc, name := Partial(photo.value, faults.write), draws.name;
      var a, t1 := WriteOut(s, t0, p, job, enc, name, db, cfg);
      OneStepMore(s, run0, t0, a, cfg);
      FirstFreeIsFirst(db, Tried(draws));
      var key := FirstFree(db, Tried(draws));
      if faults.write.Some? || faults.database.Some? || key == None {
        run, t := UndoneIsARun(s, run0 + [a], t1, p, job, enc, name, db, faults.release, cfg);
      } else {
        var b, t2 := CommitAll(s, t1, p, job, enc, name, db, key.value, draws.secret, cfg);
        OneStepMore(s, run0 + [a], t1, b, cfg);
        run, t := run0 + [a] + [b], t2;
      }
    }
  }

  /** Every way a save can end, refusals, replays and failures included, is the effect of a run. */
  lemma SaveIsARun(
    s: State, p: nat, row: RowKey, upload: Upload, photo: Result<Encoded, SaveError>, draws: Draws, faults: Faults,
    cfg: Config)
    returns (run: seq<Action>, t: State)
    requires p !in s.procs && s.writer == None && (draws.name in s.disk || draws.name !in s.names)
    ensures Reaches(s, run, t, cfg)
    ensures
      var o := SaveOutcome(s.db, s.disk, Job(row, upload, s.clock), photo, draws, s.clock, faults, cfg);
      t.db == o.db && t.disk == o.files && t.procs == s.procs && t.clock == s.clock && Sent(s, t, o.answer)
  {
    hide Reaches, Attempt, MarkFailed, LeaseOf, Leased;
    var job := Job(row, upload, s.clock);
    run, t := LeaseIsARun(s, p, row, upload, cfg);
    if LeaseOf(s.db, job, cfg).Held? {
      run, t := AttemptIsARun(s, run, t, p, job, Leased(s.db, job, cfg), photo, draws, faults, cfg);
    }
  }
}
