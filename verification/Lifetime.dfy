/**
 How long a saved photo can be had, over every run: for its lifetime counted from the start
 of the save, unless somebody who knows its delete secret deletes it.
 */
module Lifetime {
  import opened Basics
  import opened Records
  import opened Protocol
  import opened PurgeLaws
  import opened Invariant
  import opened Safety
  import opened Guarantees

  // ----- the time of expiry -----

  /** Every photo expires its lifetime after the start of its save, in whole seconds. */
  ghost predicate ExpiryOk(s: State, cfg: Config) {
    forall id <- s.saved :: s.saved[id].receipt.expiresAt == Iso(id.millis) + cfg.ttlSeconds
  }

  /** No photo is saved, and the clock does not go back. */
  ghost predicate Kept(s: State, t: State) {
    t.saved == s.saved && s.clock <= t.clock
  }

  lemma CommitKeepsExpiry(s: State, p: nat, key: string, secret: string, cfg: Config)
    requires SaveEnabled(s, CommitPhoto(p, key, secret)) && ExpiryOk(s, cfg)
    ensures ExpiryOk(ApplyCommit(s, p, key, secret, cfg), cfg)
  {
    hide ApplyCommit, CommitSave;
    CommitShape(s, p, key, secret, cfg);
    SecondsLater(s.procs[p].job.startedAt, cfg.ttlSeconds);
  }

  lemma LeaseKeeps(s: State, a: LeaseAction, cfg: Config)
    requires LeaseEnabled(s, a)
    ensures Kept(s, LeaseApply(s, a, cfg))
  {
    hide LeaseApply, LeaseEnabled;
    LeaseEffect(s, a, cfg);
  }

  lemma SaveKeeps(s: State, a: SaveAction, cfg: Config)
    requires SaveEnabled(s, a) && !a.CommitPhoto?
    ensures Kept(s, SaveApply(s, a, cfg))
  {
  }

  lemma PurgeKeeps(s: State, a: PurgeAction)
    requires PurgeEnabled(s, a)
    ensures Kept(s, PurgeApply(s, a))
  {
    hide ListsDeleted, ListsExpired, PurgeRows, ExpirePhotos, Revoke;
  }

  lemma CleanKeeps(s: State, a: CleanAction, cfg: Config)
    requires CleanEnabled(s, a)
    ensures Kept(s, CleanApply(s, a, cfg))
  {
    hide CleanLeases, CleanGrants, CleanPhotos, KnownObjects;
  }

  lemma RetrieveKeeps(s: State, a: RetrieveAction, cfg: Config)
    requires RetrieveEnabled(s, a)
    ensures Kept(s, RetrieveApply(s, a, cfg))
  {
    hide RetrieveApply, RetrieveEnabled;
    RetrieveEffect(s, a, cfg);
  }

  lemma StampKeeps(s: State, t: State, cfg: Config)
    ensures ExpiryOk(Stamp(s, t), cfg) <==> ExpiryOk(t, cfg)
    ensures Stamp(s, t).saved == t.saved && Stamp(s, t).clock == t.clock
  {
    hide Departed;
  }

  lemma StepKeepsExpiry(s: State, a: Action, cfg: Config)
    requires Enabled(s, a) && ExpiryOk(s, cfg)
    ensures ExpiryOk(Step(s, a, cfg), cfg)
  {
    hide EnvEnabled, LeaseEnabled, SaveEnabled, PurgeEnabled, RetrieveEnabled, CleanEnabled;
    hide LeaseApply, SaveApply, PurgeApply, CleanApply, RetrieveApply, Stamp;
    match a
    case Env(e) => StampKeeps(s, EnvApply(s, e), cfg);
    case Lease(l) =>
      LeaseKeeps(s, l, cfg);
      StampKeeps(s, LeaseApply(s, l, cfg), cfg);
    case Save(v) =>
      SaveKeepsExpiry(s, v, cfg);
      StampKeeps(s, SaveApply(s, v, cfg), cfg);
    case Purge(g) =>
      PurgeKeeps(s, g);
      StampKeeps(s, PurgeApply(s, g), cfg);
    case Clean(c) =>
      CleanKeeps(s, c, cfg);
      StampKeeps(s, CleanApply(s, c, cfg), cfg);
    case Retrieve(r) =>
      RetrieveKeeps(s, r, cfg);
      StampKeeps(s, RetrieveApply(s, r, cfg), cfg);
  }

  lemma SaveKeepsExpiry(s: State, a: SaveAction, cfg: Config)
    requires SaveEnabled(s, a) && ExpiryOk(s, cfg)
    ensures ExpiryOk(SaveApply(s, a, cfg), cfg)
  {
    hide ApplyCommit, SaveEnabled;
    if a.CommitPhoto? {
      CommitKeepsExpiry(s, a.p, a.key, a.secret, cfg);
    } else {
      SaveKeeps(s, a, cfg);
    }
  }

  lemma SaveTakesTime(s: State, a: SaveAction, cfg: Config)
    requires SaveEnabled(s, a)
    ensures SaveApply(s, a, cfg).clock == s.clock
  {
    hide CommitSave, ReceiptFor;
  }

  lemma ClockGoesOn(s: State, a: Action, cfg: Config)
    requires Enabled(s, a)
    ensures s.clock <= Step(s, a, cfg).clock
  {
    hide EnvEnabled, LeaseEnabled, SaveEnabled, PurgeEnabled, RetrieveEnabled, CleanEnabled;
    hide LeaseApply, SaveApply, PurgeApply, CleanApply, RetrieveApply, Stamp;
    match a
    case Env(e) => StampKeeps(s, EnvApply(s, e), cfg);
    case Lease(l) =>
      LeaseKeeps(s, l, cfg);
      StampKeeps(s, LeaseApply(s, l, cfg), cfg);
    case Save(v) =>
      SaveTakesTime(s, v, cfg);
      StampKeeps(s, SaveApply(s, v, cfg), cfg);
    case Purge(g) =>
      PurgeKeeps(s, g);
      StampKeeps(s, PurgeApply(s, g), cfg);
    case Clean(c) =>
      CleanKeeps(s, c, cfg);
      StampKeeps(s, CleanApply(s, c, cfg), cfg);
    case Retrieve(r) =>
      RetrieveKeeps(s, r, cfg);
      StampKeeps(s, RetrieveApply(s, r, cfg), cfg);
  }

  lemma {:induction false} TimeGoesOn(s: State, run: seq<Action>, t: State, cfg: Config)
    requires Reaches(s, run, t, cfg)
    ensures s.clock <= t.clock
    decreases |run|
  {
    hide Step, Enabled;
    if run != [] {
      ClockGoesOn(s, run[0], cfg);
      TimeGoesOn(Step(s, run[0], cfg), run[1..], t, cfg);
    }
  }

  lemma {:induction false} RunKeepsExpiry(s: State, run: seq<Action>, t: State, cfg: Config)
    requires Reaches(s, run, t, cfg) && ExpiryOk(s, cfg)
    ensures ExpiryOk(t, cfg)
    decreases |run|
  {
    hide Step, Enabled, ExpiryOk;
    if run != [] {
      StepKeepsExpiry(s, run[0], cfg);
      RunKeepsExpiry(Step(s, run[0], cfg), run[1..], t, cfg);
    }
  }

  /**
   In every reachable state an active photo can be had, at any clock reading, exactly while
   fewer whole seconds than its lifetime have passed since the second its save started in: up
   to a second before the lifetime is over, and never from then on.
   */
  lemma PhotosLastTheirLifetime(run: seq<Action>, t: State, id: PhotoId, clock: int, cfg: Config)
    requires Reaches(Initial, run, t, cfg) && IsActive(t.db, id)
    ensures
      var photo := t.db.photos[id];
      && (Retrievable(photo, Iso(clock)) <==> Iso(clock) < Iso(id.millis) + cfg.ttlSeconds)
      && (clock <= id.millis + 1000 * cfg.ttlSeconds - 1000 ==> Retrievable(photo, Iso(clock)))
      && (id.millis + 1000 * cfg.ttlSeconds <= clock ==> !Retrievable(photo, Iso(clock)))
  {
    hide Reaches, HistoryOk, KeysOk, LeasesOk, LeftOk, GrantsOk, DownloadsOk, ProcsOk, ErasureOk;
    ReachableInv(run, t, cfg);
    RunKeepsExpiry(Initial, run, t, cfg);
  }

  // ----- who may end it sooner -----

  /** The action asks for the delete of `id` with the secret of its receipt. */
  predicate Asks(a: Action, id: PhotoId, secret: string) {
    a.Purge? && a.purge.ReadForDelete? && a.purge.id == id && a.purge.secret == secret
  }

  ghost predicate BeingDeleted(s: State, id: PhotoId) {
    exists p :: p in s.procs && s.procs[p].Deleting? && s.procs[p].id == id
  }

  ghost predicate Over(s: State, id: PhotoId) {
    id in s.saved && (!IsActive(s.db, id) || s.saved[id].receipt.expiresAt <= Iso(s.clock))
  }

  ghost predicate Ending(s: State, id: PhotoId) {
    Over(s, id) || BeingDeleted(s, id)
  }

  /** Neither more photos stop being active nor more deletes begin. */
  ghost predicate EndsNothing(s: State, t: State) {
    && (forall id <- s.saved :: id in t.saved && t.saved[id] == s.saved[id])
    && (forall id <- t.saved :: id !in s.saved ==> IsActive(t.db, id))
    && (forall id <- s.saved :: IsActive(s.db, id) ==> IsActive(t.db, id) || Over(s, id) || BeingDeleted(s, id))
    && (forall p <- t.procs :: t.procs[p].Deleting? ==> p in s.procs && s.procs[p] == t.procs[p])
  }

  lemma EnvEndsNothing(s: State, a: EnvAction)
    requires EnvEnabled(s, a)
    ensures EndsNothing(s, EnvApply(s, a))
  {
  }

  lemma LeaseEndsNothing(s: State, a: LeaseAction, cfg: Config)
    requires LeaseEnabled(s, a)
    ensures EndsNothing(s, LeaseApply(s, a, cfg))
  {
    hide LeaseApply, LeaseEnabled;
    LeaseEffect(s, a, cfg);
  }

  lemma SaveEndsNothing(s: State, a: SaveAction, cfg: Config)
    requires SaveEnabled(s, a) && KeysOk(s) && PhotosOk(s)
    ensures EndsNothing(s, SaveApply(s, a, cfg))
  {
    hide ApplyCommit;
    if a.CommitPhoto? {
      CommitEndsNothing(s, a.p, a.key, a.secret, cfg);
    }
  }

  lemma CommitEndsNothing(s: State, p: nat, key: string, secret: string, cfg: Config)
    requires SaveEnabled(s, CommitPhoto(p, key, secret)) && KeysOk(s) && PhotosOk(s)
    ensures EndsNothing(s, ApplyCommit(s, p, key, secret, cfg))
  {
    hide ApplyCommit, CommitSave, KeysOk, PhotosOk;
    CommitIsNew(s, p, key, secret);
    CommitShape(s, p, key, secret, cfg);
    CommitSaveEffect(s.db, s.procs[p].job, s.procs[p].enc, s.procs[p].name, key, secret, cfg);
  }

  lemma PurgeEndsNothing(s: State, a: PurgeAction)
    requires PurgeEnabled(s, a) && !a.ReadForDelete? && ProcsOk(s) && PhotosOk(s)
    ensures EndsNothing(s, PurgeApply(s, a))
  {
    hide ListsDeleted, ListsExpired, ApplyClose, ProcsOk;
    if a.ClosePurge? {
      CloseEndsNothing(s, a.p);
    } else if a.RevokePhoto? {
      RevokeEndsNothing(s, a.p);
    }
  }

  lemma RevokeEndsNothing(s: State, p: nat)
    requires PurgeEnabled(s, RevokePhoto(p))
    ensures EndsNothing(s, ApplyRevoke(s, p))
  {
    assert BeingDeleted(s, s.procs[p].id);
  }

  lemma CloseEndsNothing(s: State, p: nat)
    requires PurgeEnabled(s, ClosePurge(p)) && ProcsOk(s) && PhotosOk(s)
    ensures EndsNothing(s, ApplyClose(s, p))
  {
    hide PurgeRows, ListsDeleted, ListsExpired, ApplyClose, ExpirePhotos, PurgeAll;
    CloseTables(s, p);
    var q := s.procs[p];
    assert ProcOk(s, p, q);
    forall id | id in s.saved && IsActive(s.db, id) && s.saved[id].receipt.expiresAt > Iso(s.clock)
      ensures IsActive(Closed(s, p), id)
    {
      LiveStays(s, p, id);
    }
  }

  lemma LiveStays(s: State, p: nat, id: PhotoId)
    requires p in s.procs && s.procs[p].Purging? && ProcOk(s, p, s.procs[p]) && PhotosOk(s)
    requires id in s.saved && IsActive(s.db, id) && s.saved[id].receipt.expiresAt > Iso(s.clock)
    ensures IsActive(Closed(s, p), id)
  {
  }

  lemma CleanEndsNothing(s: State, a: CleanAction, cfg: Config)
    requires CleanEnabled(s, a)
    ensures EndsNothing(s, CleanApply(s, a, cfg))
  {
  }

  lemma RetrieveEndsNothing(s: State, a: RetrieveAction, cfg: Config)
    requires RetrieveEnabled(s, a)
    ensures EndsNothing(s, RetrieveApply(s, a, cfg))
  {
    hide RetrieveApply, RetrieveEnabled;
    RetrieveEffect(s, a, cfg);
  }

  lemma StampEndsNothing(s: State, t: State)
    requires EndsNothing(s, t)
    ensures EndsNothing(s, Stamp(s, t))
  {
    hide Departed;
  }

  lemma OtherStepsEndNothing(s: State, a: Action, cfg: Config)
    requires Enabled(s, a) && Inv(s) && !(a.Purge? && a.purge.ReadForDelete?)
    ensures EndsNothing(s, Step(s, a, cfg))
  {
    hide EnvEnabled, LeaseEnabled, SaveEnabled, PurgeEnabled, CleanEnabled, RetrieveEnabled;
    hide EnvApply, LeaseApply, SaveApply, PurgeApply, CleanApply, RetrieveApply, Stamp, EndsNothing;
    hide HistoryOk, PhotosOk, KeysOk, LeasesOk, LeftOk, GrantsOk, DownloadsOk, ProcsOk, ErasureOk;
    match a
    case Env(e) =>
      EnvEndsNothing(s, e);
      StampEndsNothing(s, EnvApply(s, e));
    case Lease(l) =>
      LeaseEndsNothing(s, l, cfg);
      StampEndsNothing(s, LeaseApply(s, l, cfg));
    case Save(v) =>
      SaveEndsNothing(s, v, cfg);
      StampEndsNothing(s, SaveApply(s, v, cfg));
    case Purge(g) =>
      PurgeEndsNothing(s, g);
      StampEndsNothing(s, PurgeApply(s, g));
    case Clean(c) =>
      CleanEndsNothing(s, c, cfg);
      StampEndsNothing(s, CleanApply(s, c, cfg));
    case Retrieve(r) =>
      RetrieveEndsNothing(s, r, cfg);
      StampEndsNothing(s, RetrieveApply(s, r, cfg));
  }

  /** What is ending after a step that begins no delete was ending before, or has just expired. */
  lemma WasEnding(s: State, t: State, id: PhotoId)
    requires EndsNothing(s, t) && Ending(t, id)
    ensures Ending(s, id) || (id in t.saved && t.saved[id].receipt.expiresAt <= Iso(t.clock))
  {
  }

  /** Only the photo named by the request begins to be deleted, and only with its own secret. */
  lemma DeleteBegins(s: State, a: PurgeAction, cfg: Config, id: PhotoId)
    requires a.ReadForDelete? && PurgeEnabled(s, a) && Ledger(s) && Ending(Stamp(s, PurgeApply(s, a)), id)
    ensures Ending(s, id) || (id in s.saved && Asks(Purge(a), id, s.saved[id].receipt.deleteSecret))
  {
    hide Departed, HistoryOk, KeysOk, LeasesOk, LeftOk, GrantsOk;
  }

  /** Somebody has asked, in the run, for the delete of `id` with its own secret. */
  ghost predicate Asked(run: seq<Action>, id: PhotoId, secret: string) {
    exists a :: a in run && Asks(a, id, secret)
  }

  lemma {:induction false} RunEnds(s: State, run: seq<Action>, t: State, id: PhotoId, cfg: Config)
    requires Inv(s) && ExpiryOk(s, cfg) && Reaches(s, run, t, cfg) && Ending(t, id)
    requires id in t.saved && t.saved[id].receipt.expiresAt > Iso(t.clock)
    ensures Ending(s, id) || Asked(run, id, t.saved[id].receipt.deleteSecret)
    decreases |run|
  {
    hide Step, Enabled, Inv, Ending, EndsNothing, ExpiryOk, Asked;
    if run != [] {
      var a, u := run[0], Step(s, run[0], cfg);
      StepKeepsInv(s, a, cfg);
      StepKeepsExpiry(s, a, cfg);
      RunEnds(u, run[1..], t, id, cfg);
      TimeGoesOn(u, run[1..], t, cfg);
      RecordsStay(u, run[1..], t, cfg);
      if Asked(run[1..], id, t.saved[id].receipt.deleteSecret) {
        StillAsked(run, id, t.saved[id].receipt.deleteSecret);
      } else {
        StepEnds(s, a, u, id, cfg);
        RecordsStay(s, run, t, cfg);
        if !Ending(s, id) {
          AskedFirst(run, id, t.saved[id].receipt.deleteSecret);
        }
      }
    }
  }

  lemma StepEnds(s: State, a: Action, t: State, id: PhotoId, cfg: Config)
    requires Enabled(s, a) && t == Step(s, a, cfg) && Inv(s) && Ending(t, id)
    requires id in t.saved ==> t.saved[id].receipt.expiresAt > Iso(t.clock)
    ensures Ending(s, id) || (id in s.saved && Asks(a, id, s.saved[id].receipt.deleteSecret))
  {
    hide Ledger, DownloadsOk, ErasureOk, ProcsOk, Ending, EndsNothing, PurgeEnabled, PurgeApply, Stamp;
    hide EnvEnabled, LeaseEnabled, SaveEnabled, CleanEnabled, RetrieveEnabled;
    hide EnvApply, LeaseApply, SaveApply, CleanApply, RetrieveApply;
    if a.Purge? && a.purge.ReadForDelete? {
      DeleteBegins(s, a.purge, cfg, id);
    } else {
      OtherStepsEndNothing(s, a, cfg);
      WasEnding(s, t, id);
    }
  }

  lemma StillAsked(run: seq<Action>, id: PhotoId, secret: string)
    requires run != [] && Asked(run[1..], id, secret)
    ensures Asked(run, id, secret)
  {
    var a :| a in run[1..] && Asks(a, id, secret);
    assert a in run;
  }

  lemma AskedFirst(run: seq<Action>, id: PhotoId, secret: string)
    requires run != [] && Asks(run[0], id, secret)
    ensures Asked(run, id, secret)
  {
    assert run[0] in run;
  }

  lemma RecordsStay(s: State, run: seq<Action>, t: State, cfg: Config)
    requires Inv(s) && Reaches(s, run, t, cfg)
    ensures forall id <- s.saved :: id in t.saved && t.saved[id] == s.saved[id]
  {
    hide Inv, Reaches;
    RunGrows(s, run, t, cfg);
  }

  /**
   A saved photo stays active for its whole lifetime, in every run, unless the run contains a
   delete request for it with the delete secret of its own receipt.
   */
  lemma OnlyTheOwnerEndsItSooner(run: seq<Action>, t: State, id: PhotoId, cfg: Config)
    requires Reaches(Initial, run, t, cfg) && id in t.saved && !IsActive(t.db, id)
    ensures Iso(id.millis) + cfg.ttlSeconds <= Iso(t.clock) || Asked(run, id, t.saved[id].receipt.deleteSecret)
  {
    hide Inv, Reaches, Asked;
    RunKeepsExpiry(Initial, run, t, cfg);
    if t.saved[id].receipt.expiresAt > Iso(t.clock) {
      InvInitial();
      RunEnds(Initial, run, t, id, cfg);
    }
  }
}
