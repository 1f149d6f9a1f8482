/**
 What every interleaving of the staging protocol keeps, with no assumption on timing:
 the ledger of photos, keys and leases, the finality of revocation, the single use of
 a token, and the erasure of purged bytes.
 */
module Invariant {
  import opened Basics
  import opened Records
  import opened Protocol
  import opened PurgeLaws

  // ----- the ledger: tables against history -----

  ghost predicate RecordOf(photo: Photo, id: PhotoId, c: Protocol.Commit) {
    && photo.fingerprint == id.fingerprint
    && photo.deleteDigest == SecretDigest(c.receipt.deleteSecret)
    && photo.name == c.name
    && photo.byteLength == |c.data| && photo.mac == Mac(c.name, |c.data|, c.data)
    && photo.expiresAt == c.receipt.expiresAt
  }

  ghost predicate HistoryOk(s: State) {
    && (forall a, b :: a in s.saved && b in s.saved && a.fingerprint == b.fingerprint ==> a == b)
    && (forall a, b :: a in s.saved && b in s.saved && s.saved[a].name == s.saved[b].name ==> a == b)
    && (forall id <- s.saved :: s.saved[id].name in s.names)
    && (forall id <- s.saved :: Fingerprint(s.saved[id].receipt.key) == id.fingerprint)
    && (forall i, j :: 0 <= i < j < |s.issued| ==> s.issued[i] != s.issued[j])
  }

  ghost predicate PhotosOk(s: State) {
    forall id <- s.db.photos :: id in s.saved && RecordOf(s.db.photos[id], id, s.saved[id])
  }

  ghost predicate KeyRowOk(db: Db, f: Fingerprint, k: KeyRow) {
    match k.state
    case KeyReserved => false
    case KeyActive =>
      && k.photo.Some? && k.photo.value.fingerprint == f
      && k.photo.value in db.photos && db.photos[k.photo.value].status != Purged
    case KeyRetired => k.photo == None
  }

  ghost predicate KeysOk(s: State) {
    && (forall f :: f in s.db.keys <==> f in s.issued)
    && (forall id <- s.saved :: id.fingerprint in s.db.keys)
    && (forall f <- s.db.keys :: KeyRowOk(s.db, f, s.db.keys[f]))
    && (forall id <- s.db.photos :: IsActive(s.db, id) ==>
          id.fingerprint in s.db.keys && s.db.keys[id.fingerprint] == KeyRow(KeyActive, Some(id)))
  }

  ghost predicate LeaseRowOk(s: State, r: RowKey, row: LeaseRow) {
    && r in s.generations
    && (row.status == Completed ==>
      && row.photo.Some? && row.photo.value in s.saved
      && var c := s.saved[row.photo.value];
      && row.envelope == Some(Sealed(c.receipt))
      && c.row == r && c.upload == row.upload && c.generation == s.generations[r])
  }

  ghost predicate AnswerOk(s: State, a: Answer) {
    && a.photo.Some? && a.photo.value in s.saved
    && var c := s.saved[a.photo.value];
    && c.row == a.row && c.upload == a.upload && c.receipt == a.receipt && c.generation == a.generation
  }

  ghost predicate LeasesOk(s: State) {
    && (forall r <- s.db.leases :: LeaseRowOk(s, r, s.db.leases[r]))
    && (forall a <- s.answers :: AnswerOk(s, a))
  }

  ghost predicate LeftOk(s: State) {
    && (forall id <- s.leftActive :: id in s.saved && !IsActive(s.db, id) && s.leftActive[id] < s.steps)
    && (forall id <- s.saved :: !IsActive(s.db, id) ==> id in s.leftActive)
  }

  ghost predicate GrantsOk(s: State) {
    forall t <- s.db.grants :: t in s.tokens && s.db.grants[t].photo in s.saved
  }

  // ----- processes -----

  ghost predicate Names(s: State, id: PhotoId, name: Name) {
    id in s.saved && s.saved[id].name == name
  }

  ghost predicate Unclaimed(s: State, name: Name) {
    name in s.names && forall id <- s.saved :: s.saved[id].name != name
  }

  /** The check of a download came before the photo stopped being active. */
  ghost predicate CheckedInTime(s: State, id: PhotoId, checkedAt: nat) {
    checkedAt < s.steps && (id in s.leftActive ==> checkedAt < s.leftActive[id])
  }

  ghost predicate Spent(db: Db, token: Token) {
    token in db.grants ==> db.grants[token].consumedAt.Some?
  }

  ghost predicate Doomed(s: State, id: PhotoId, at: int) {
    id in s.saved && (!IsActive(s.db, id) || s.saved[id].receipt.expiresAt <= at)
  }

  ghost predicate ProcOk(s: State, p: nat, q: Proc) {
    match q
    case Staged(_, _, name, _) => Unclaimed(s, name)
    case Undoing(_, name) => Unclaimed(s, name)
    case Deleting(id, name, at) => Names(s, id, name) && at <= Iso(s.clock)
    case PurgeSelected(rows, at) =>
      at <= Iso(s.clock) && forall r <- rows :: Names(s, r.id, r.name) && !IsActive(s.db, r.id)
    case Purging(rows, next, at, expiring) =>
      && s.writer == Some(p) && next <= |rows| && at <= Iso(s.clock)
      && (forall r <- rows :: Names(s, r.id, r.name) && Doomed(s, r.id, at))
      && (!expiring ==> forall r <- rows :: !IsActive(s.db, r.id))
      && (expiring ==> forall id <- s.db.photos ::
            HasExpired(s.db.photos[id], at) ==> PurgeRow(id, s.db.photos[id].name) in rows)
      && (forall j :: 0 <= j < next ==> rows[j].name !in s.disk)
    case Resolving(id, _) => id in s.saved
    case GrantRead(token, grant, _) => token in s.tokens && grant.photo in s.saved
    case PhotoChecked(token, id, photo, _, checkedAt) =>
      token in s.tokens && id in s.saved && RecordOf(photo, id, s.saved[id]) && CheckedInTime(s, id, checkedAt)
    case Consumed(token, id, photo, checkedAt) =>
      && token in s.tokens && id in s.saved && RecordOf(photo, id, s.saved[id]) && CheckedInTime(s, id, checkedAt)
      && Spent(s.db, token)
    case _ => true
  }

  function ObjectOf(q: Proc): Option<Name> {
    if q.Staged? || q.Undoing? then Some(q.name) else None
  }

  function TokenOf(q: Proc): Option<Token> {
    if q.Consumed? then Some(q.token) else None
  }

  ghost predicate NamesApart(s: State) {
    forall p, q :: p in s.procs && q in s.procs && p != q && ObjectOf(s.procs[p]).Some? ==>
      ObjectOf(s.procs[p]) != ObjectOf(s.procs[q])
  }

  ghost predicate TokensApart(s: State) {
    forall p, q :: p in s.procs && q in s.procs && p != q && TokenOf(s.procs[p]).Some? ==>
      TokenOf(s.procs[p]) != TokenOf(s.procs[q])
  }

  /** The names and tokens of processes belong to them alone. */
  ghost predicate Apart(s: State) {
    NamesApart(s) && TokensApart(s)
  }

  /** An open write transaction belongs to a purge. */
  ghost predicate WriterOk(s: State) {
    s.writer.Some? ==> s.writer.value in s.procs && s.procs[s.writer.value].Purging?
  }

  ghost predicate ProcsOk(s: State) {
    (forall p <- s.procs :: ProcOk(s, p, s.procs[p])) && Apart(s) && WriterOk(s)
  }

  // ----- downloads and erasure -----

  ghost predicate DownloadOk(s: State, d: Download) {
    && d.token in s.tokens && Spent(s.db, d.token)
    && d.id in s.saved && d.data == s.saved[d.id].data
    && CheckedInTime(s, d.id, d.checkedAt)
  }

  ghost predicate DownloadsOk(s: State) {
    && (forall d <- s.downloads :: DownloadOk(s, d))
    && (forall i, j :: 0 <= i < j < |s.downloads| ==> s.downloads[i].token != s.downloads[j].token)
    && (forall p, d :: p in s.procs && d in s.downloads ==> TokenOf(s.procs[p]) != Some(d.token))
  }

  /** The record of this photo is gone, or says that its bytes are. */
  ghost predicate Erased(db: Db, id: PhotoId) {
    id !in db.photos || db.photos[id].status == Purged
  }

  /** Every file's name was drawn. */
  ghost predicate DiskDrawn(s: State) {
    forall name <- s.disk :: name in s.names
  }

  ghost predicate ErasureOk(s: State) {
    && DiskDrawn(s)
    && (forall id <- s.saved :: Erased(s.db, id) ==> s.saved[id].name !in s.disk)
    && (forall id <- s.db.photos ::
          && s.db.photos[id].status != BeingPurged
          && (s.db.photos[id].status == Purged ==> s.db.photos[id].purgedAt.Some?)
          && (s.db.photos[id].status == AccessRevoked ==>
                s.db.photos[id].purgeDueAt.Some? && s.db.photos[id].purgeDueAt.value <= Iso(s.clock)))
  }

  ghost predicate Ledger(s: State) {
    HistoryOk(s) && PhotosOk(s) && KeysOk(s) && LeasesOk(s) && LeftOk(s) && GrantsOk(s)
  }

  ghost predicate Inv(s: State) {
    Ledger(s) && ProcsOk(s) && DownloadsOk(s) && ErasureOk(s)
  }

  lemma InvInitial()
    ensures Inv(Initial)
  {
  }

  // ----- frames: what a step must show about the parts it changes -----

  /** New files have fresh names. */
  ghost predicate DiskFresh(s: State, t: State) {
    && (forall name <- t.disk :: name in s.disk || name !in s.names)
    && DiskDrawn(t)
  }

  /** What no step undoes. */
  ghost predicate Evolves(s: State, t: State) {
    && t.steps == s.steps + 1 && s.clock <= t.clock && s.names <= t.names && s.tokens <= t.tokens
    && (forall id <- s.saved :: id in t.saved && t.saved[id] == s.saved[id])
    && (forall id <- s.saved :: IsActive(t.db, id) ==> IsActive(s.db, id))
    && (forall id <- t.leftActive ::
          (id in s.leftActive && t.leftActive[id] == s.leftActive[id]) || t.leftActive[id] == s.steps)
    && (forall token <- s.tokens :: Spent(s.db, token) ==> Spent(t.db, token))
    && DiskFresh(s, t)
    && (s.writer.Some? && t.writer == s.writer ==> t.db.photos == s.db.photos)
  }

  /** Only process `p` moved; it took no name or token of another process. */
  ghost predicate OnlyMoved(s: State, t: State, p: nat) {
    && (forall q <- t.procs :: q != p ==> q in s.procs && t.procs[q] == s.procs[q])
    && (forall q <- s.procs :: q != p ==> q in t.procs)
    && (forall id <- t.saved :: id in s.saved || (p in s.procs && ObjectOf(s.procs[p]) == Some(t.saved[id].name)))
    && (p in t.procs ==> NameFromOwn(s, p, t.procs[p]) && TokenFromOwn(s, p, t.procs[p]))
    && (t.writer == s.writer || (t.writer == None && s.writer == Some(p)) || (t.writer == Some(p) && s.writer == None))
    && (t.writer == Some(p) ==> p in t.procs && t.procs[p].Purging?)
  }

  ghost predicate NameFromOwn(s: State, p: nat, q: Proc) {
    || ObjectOf(q) == None
    || (p in s.procs && ObjectOf(q) == ObjectOf(s.procs[p]))
    || ObjectOf(q).value !in s.names
  }

  ghost predicate TokenFromOwn(s: State, p: nat, q: Proc) {
    || TokenOf(q) == None
    || (p in s.procs && TokenOf(q) == TokenOf(s.procs[p]))
    || !Spent(s.db, TokenOf(q).value)
  }

  /** Process `p` moves to a good point. */
  ghost predicate LegalMove(s: State, t: State, p: nat) {
    Evolves(s, t) && OnlyMoved(s, t, p) && (p in t.procs ==> ProcOk(t, p, t.procs[p]))
  }

  lemma ProcFrame(s: State, t: State, p: nat, q: nat)
    requires HistoryOk(s) && q in s.procs && q != p && ProcOk(s, q, s.procs[q])
    requires Evolves(s, t) && OnlyMoved(s, t, p)
    requires p in s.procs && ObjectOf(s.procs[p]).Some? ==> ObjectOf(s.procs[p]) != ObjectOf(s.procs[q])
    ensures ProcOk(t, q, s.procs[q])
  {
    if s.procs[q].Purging? {
      PurgingFrame(s, t, p, q);
    } else if s.procs[q].Staged? || s.procs[q].Undoing? {
      ObjectFrame(s, t, p, q);
    } else {
      OtherFrame(s, t, q);
    }
  }

  lemma PurgingFrame(s: State, t: State, p: nat, q: nat)
    requires HistoryOk(s) && q in s.procs && q != p && s.procs[q].Purging? && ProcOk(s, q, s.procs[q])
    requires Evolves(s, t) && OnlyMoved(s, t, p)
    ensures ProcOk(t, q, s.procs[q])
  {
    hide NameFromOwn, TokenFromOwn, Spent, RecordOf;
  }

  lemma ObjectFrame(s: State, t: State, p: nat, q: nat)
    requires HistoryOk(s) && q in s.procs && (s.procs[q].Staged? || s.procs[q].Undoing?) && ProcOk(s, q, s.procs[q])
    requires Evolves(s, t) && OnlyMoved(s, t, p)
    requires p in s.procs && ObjectOf(s.procs[p]).Some? ==> ObjectOf(s.procs[p]) != ObjectOf(s.procs[q])
    ensures ProcOk(t, q, s.procs[q])
  {
    hide NameFromOwn, TokenFromOwn, Spent, RecordOf, HistoryOk;
  }

  lemma OtherFrame(s: State, t: State, q: nat)
    requires q in s.procs && !s.procs[q].Purging? && !s.procs[q].Staged? && !s.procs[q].Undoing?
    requires ProcOk(s, q, s.procs[q]) && Evolves(s, t)
    ensures ProcOk(t, q, s.procs[q])
  {
    hide DiskFresh, RecordOf;
  }

  /** What a process holds has been drawn, and a token it has consumed is spent. */
  lemma HeldIsDrawn(s: State, p: nat)
    requires p in s.procs && ProcOk(s, p, s.procs[p])
    ensures ObjectOf(s.procs[p]).Some? ==> ObjectOf(s.procs[p]).value in s.names
    ensures TokenOf(s.procs[p]).Some? ==> Spent(s.db, TokenOf(s.procs[p]).value)
  {
  }

  lemma NamesApartFrame(s: State, t: State, p: nat)
    requires NamesApart(s) && (forall q <- s.procs :: ProcOk(s, q, s.procs[q])) && OnlyMoved(s, t, p)
    ensures NamesApart(t)
  {
    hide ProcOk, TokenFromOwn, Spent;
    forall q <- s.procs ensures ObjectOf(s.procs[q]).Some? ==> ObjectOf(s.procs[q]).value in s.names {
      HeldIsDrawn(s, q);
    }
  }

  lemma TokensApartFrame(s: State, t: State, p: nat)
    requires TokensApart(s) && (forall q <- s.procs :: ProcOk(s, q, s.procs[q])) && OnlyMoved(s, t, p)
    ensures TokensApart(t)
  {
    hide ProcOk, NameFromOwn, Spent;
    forall q <- s.procs ensures TokenOf(s.procs[q]).Some? ==> Spent(s.db, TokenOf(s.procs[q]).value) {
      HeldIsDrawn(s, q);
    }
  }

  lemma ApartFrame(s: State, t: State, p: nat)
    requires Apart(s) && (forall q <- s.procs :: ProcOk(s, q, s.procs[q])) && OnlyMoved(s, t, p)
    ensures Apart(t)
  {
    hide ProcOk, OnlyMoved, NamesApart, TokensApart;
    NamesApartFrame(s, t, p);
    TokensApartFrame(s, t, p);
  }

  lemma ProcsFrame(s: State, t: State, p: nat)
    requires HistoryOk(s) && ProcsOk(s) && LegalMove(s, t, p)
    ensures ProcsOk(t)
  {
    hide ProcOk, Evolves, TokensApart, HistoryOk;
    forall q | q in t.procs && q != p ensures ProcOk(t, q, t.procs[q]) {
      ProcFrame(s, t, p, q);
    }
    ApartFrame(s, t, p);
  }

  /** A step in which no process moves is a legal move of any of them. */
  lemma NobodyMoves(s: State, t: State)
    requires HistoryOk(s) && ProcsOk(s) && Evolves(s, t)
    requires t.procs == s.procs && t.writer == s.writer && t.saved == s.saved
    ensures LegalMove(s, t, 0)
  {
    hide ProcOk, Evolves, HistoryOk, TokensApart, Spent;
    if 0 in s.procs {
      ProcFrame(s, t, 1, 0);
    }
  }

  lemma DownloadsFrame(s: State, t: State, p: nat)
    requires DownloadsOk(s) && Evolves(s, t) && OnlyMoved(s, t, p) && t.downloads == s.downloads
    ensures DownloadsOk(t)
  {
    forall d | d in t.downloads ensures DownloadOk(t, d) {
      assert DownloadOk(s, d);
    }
    forall q, d | q in t.procs && d in t.downloads ensures TokenOf(t.procs[q]) != Some(d.token) {
      assert DownloadOk(s, d);
    }
  }

  // ----- frames for the tables -----

  ghost predicate SamePhotos(s: State, t: State) {
    && t.db.photos == s.db.photos && t.db.keys == s.db.keys && t.saved == s.saved && t.issued == s.issued
    && t.leftActive == s.leftActive
  }

  ghost predicate SameLeases(s: State, t: State) {
    t.db.leases == s.db.leases && t.generations == s.generations && t.answers == s.answers
  }

  lemma PhotosFrame(s: State, t: State)
    requires HistoryOk(s) && PhotosOk(s) && LeftOk(s) && SamePhotos(s, t) && Evolves(s, t)
    ensures HistoryOk(t) && PhotosOk(t) && LeftOk(t)
  {
  }

  lemma KeysFrame(s: State, t: State)
    requires KeysOk(s) && SamePhotos(s, t)
    ensures KeysOk(t)
  {
  }

  lemma ErasureFrame(s: State, t: State)
    requires HistoryOk(s) && ErasureOk(s) && SamePhotos(s, t) && Evolves(s, t)
    ensures ErasureOk(t)
  {
  }

  /** A step that changes no photo, key or lease keeps the invariant if its process moves legally. */
  lemma MoveKeepsInv(s: State, t: State, p: nat)
    requires Inv(s) && LegalMove(s, t, p) && SamePhotos(s, t) && SameLeases(s, t)
    requires t.db.grants == s.db.grants && t.downloads == s.downloads
    ensures Inv(t)
  {
    PhotosFrame(s, t);
    KeysFrame(s, t);
    ErasureFrame(s, t);
    LeasesFrame(s, t);
    GrantsFrame(s, t);
    ProcsFrame(s, t, p);
    DownloadsFrame(s, t, p);
  }

  lemma LeasesFrame(s: State, t: State)
    requires LeasesOk(s) && SameLeases(s, t) && Evolves(s, t)
    ensures LeasesOk(t)
  {
    forall r | r in t.db.leases ensures LeaseRowOk(t, r, t.db.leases[r]) {
      assert LeaseRowOk(s, r, s.db.leases[r]);
    }
    forall a | a in t.answers ensures AnswerOk(t, a) {
      assert AnswerOk(s, a);
    }
  }

  lemma GrantsFrame(s: State, t: State)
    requires GrantsOk(s) && Evolves(s, t)
    requires forall k <- t.db.grants :: k in s.db.grants && t.db.grants[k].photo == s.db.grants[k].photo
    ensures GrantsOk(t)
  {
  }
}
