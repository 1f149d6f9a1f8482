# Verified model of the portrait photo service

A Dafny model, with proofs, of the parts of this repository whose correctness is hardest to see by
reading. Three parts are covered.

**The staging protocol** of the backend: saving a photo under a random KEY, resolving the KEY to a
single-use token, downloading, deleting, and the background worker, all running concurrently over a
SQLite database and an object directory that is not transactional.

- `Records` holds the tables and one function for every SQL statement. `Protocol` is a state machine
  whose actions are what other requests can observe: a committed transaction, one storage call, one
  read. A crash may come between any two actions; bytes may be changed from outside; the clock never
  goes back. `Invariant` and `Safety` prove what every interleaving keeps; `Guarantees` states what a
  user can rely on. `DiskSafety` and `SweepGate` treat the age gate of the orphan sweep, `LeaseSafety`,
  `LeaseRace`, `LeaseWindow` and `LeaseBound` the idempotency lease, `LeaseReplay`, `Lifetime` and
  `Epochs` what a completed save is good for and for how long.
- `Store`, `Worker`, `Saves`, `Retrievals` and `RateLimit` are the same code in its imperative form,
  with connections, storage and counters as objects, proved against functions over `Records`;
  `SaveRuns`, `RequestRuns` and `WorkerRuns` prove save, resolve, download, delete and cleanup round to be runs
  of the state machine.

**The crop geometry** of the editor: `Affines` and `Crop` give the render matrix and its closed form,
`CropLaws` the convexity, symmetry, monotony and size independence that the code relies on, `Fit` the
two bisections, `Templates` the size bands, `Reproject` the template switch. `Overlay` and `Checks`
compare the drawn bands with the final checks and the advice they give. Arithmetic is over the reals;
`Reals` names products and quotients so that proofs use their laws.

**Byte and number algorithms**: `Jpeg` (segment walkers in both languages), `Encoding` (quality ladder
and quality search), `Tracking` (the pose tracker), `Keygen` (rejection sampling and key input).

Digests, MACs and the sealed envelope are constructors of their inputs: equal values have equal inputs.
Times of day are milliseconds; times stored in rows are whole seconds, as the code stores them.

## Findings

- The age gate needs the two delays to stay strictly below it; at equality a live photo is lost
  (`SweepGate.GateIsExact`; the gate is explained at `backend/app/storage.py:58-61`).
- One photo per idempotency key needs a takeover to find the row as it was read; the UPDATE at
  `backend/app/save_service.py:327-331` does not check (`LeaseRace.RacingTakeoversSaveTwice`).
- It also needs the cleanup window to be at least the lease, exactly (`LeaseWindow.WindowIsExact`), and
  holders to end a full second before the lease does, exactly (`LeaseBound.HolderBoundIsExact`).
- `normalize_key` promises never to map illegal characters silently, but upper-casing maps ten of them
  (`Keygen.IllegalCharactersAreMapped`, `Keygen.SharpSIsMapped`).
- The left and right advice of the center-line check looks only at the side of the center line, so for
  rules that exclude a centred face it can lead away (`Checks.CentreAdviceWorks`), and one-sided rules
  are drawn differently from how they are checked (`Checks.BandsAgreeWithChecks`). One shipped template
  has such a rule and means another distance by it (`Checks.JapaneseFaceCenterIsMisread`).
- Advice to crop tighter is given for a head that is too tall, which it makes taller
  (`Checks.CroppingTighterNeverHelps`).
- Advice to move the photo can be impossible to follow: the editor admits no pan that uncovers the
  canvas (`Checks.FollowingAdviceFixes`, `Checks.NoRoomToFollow`).
- A density of 65536 or more is an overflow error on the server and is truncated in the browser
  (`Jpeg.BrowserAndServerAgree`).

## Model

| member | source | states |
|---|---|---|
| `Safety.StepKeepsInv` | backend/app/save_service.py:64-381 | every action of every request, of the worker, of a crash and of the clock keeps the ledger of photos, keys, leases, grants, downloads and erasures |
| `Safety.RunKeepsInv` | backend/app/save_service.py:64-381 | hence every run does |
| `Guarantees.KeysAreSafe` | backend/app/save_service.py:384-399 | over any run no KEY fingerprint is issued twice, even after purge and record deletion; no reservation is left behind; an active photo is named by exactly one active registry row, the one of its own KEY, which exists; an active row leads to an existing unpurged photo |
| `Guarantees.RevocationIsFinal` | backend/app/routers/saves.py:109-155 | a photo that has left `active` never returns to it, and every download of it, for any token whenever issued, made its photo check before that moment |
| `Guarantees.DownloadsAreExactAndSingle` | backend/app/routers/retrievals.py:138-204 | over any run with tampering, each token serves bytes at most once, and they are the bytes that were saved |
| `Guarantees.PurgedBytesAreGone` | backend/app/worker.py:67-92 | once a record says purged, or is gone, its bytes are not on disk |
| `Guarantees.CommitIsWhole` | backend/app/save_service.py:175-259 | the commit makes the active photo, its active KEY and the completed envelope appear together, and the sealed receipt holds the KEY and delete secret of that photo |
| `Guarantees.OnlyCommitCreates` | backend/app/save_service.py:175-259 | no other action, a crash included, creates a photo or a key or completes a lease |
| `Guarantees.ReplayIsFaithful` | backend/app/save_service.py:84-121 | in every reachable state a same-content request that finds a completed row is given the sealed receipt, which is that of the commit that completed the row in its present generation, and changes neither tables nor disk |
| `Guarantees.ReceiptsOpenTheirPhotos` | backend/app/save_service.py:175-259 | every receipt ever handed out, first or replayed, holds the KEY of its own photo, and while that photo is active the KEY's registry row leads to it and the delete secret is the one its record asks for |
| `Epochs.EpochRefusesRevoked` | backend/app/routers/retrievals.py:158-170 | in every reachable state a token's epoch is that of its photo exactly while the photo is active, so the epoch alone refuses every token of a revoked or expired photo |
| `Guarantees.CompletedRowsStay` | backend/app/save_service.py:353-366 | with no assumption on timing a completed lease row is touched by nothing but a takeover decided earlier, another commit for the row, or a cleanup once the window is over |
| `Lifetime.PhotosLastTheirLifetime` | backend/app/save_service.py:184-186 | in every reachable state an active photo can be had exactly while fewer whole seconds than its lifetime have passed since the second its save started in |
| `Lifetime.OnlyTheOwnerEndsItSooner` | backend/app/routers/saves.py:106-130 | a saved photo stays active for its whole lifetime, in every run, unless the run contains a delete request for it with the delete secret of its own receipt |
| `DiskSafety.RetrievablePhotosKeepTheirBytes` | backend/app/storage.py:50-73 | while (object write to commit) + (known names to cutoff) < the age gate, every active unexpired photo has its exact saved bytes on disk in every interleaving |
| `SweepGate.GateIsExact` | backend/app/storage.py:50-73 | for a lifetime longer than the gate, prompt runs lose no retrievable photo if and only if that strict bound holds: equality already loses one |
| `SweepGate.BeyondTheGate` | backend/app/worker.py:95-106 | the run that loses a live photo once the two delays reach the gate |
| `LeaseSafety.OnePhotoPerLease` | backend/app/save_service.py:266-381 | with takeover as one step, holders finishing within lease - 1 seconds and window >= lease, at most one photo is committed per lease row between its creation and its deletion, over all interleavings |
| `LeaseSafety.AnswersAgree` | backend/app/save_service.py:84-121 | under the same discipline all answers given for one lease, first or replayed, carry the same receipt |
| `LeaseRace.RacingTakeoversSaveTwice` | backend/app/save_service.py:296-332 | without takeover as one step the above fails: a timely run in which two saves take over one failed row and both commit |
| `LeaseWindow.WindowIsExact` | backend/app/save_service.py:369-381 | under that discipline one photo per lease row holds if and only if the cleanup window is at least the lease |
| `LeaseWindow.ShortWindowSavesTwice` | backend/app/save_service.py:208-252 | the disciplined run that saves twice when the window is shorter: the cleanup deletes a row still held |
| `LeaseBound.HolderBoundIsExact` | backend/app/save_service.py:315-332 | a bound on how long holders live, to the millisecond, gives one photo per lease if and only if it is at most a second less than the lease |
| `LeaseBound.SlowHolderSavesTwice` | backend/app/save_service.py:262-263 | the run that saves twice under any longer bound: start times are stored in whole seconds, so a holder is overtaken up to 999 milliseconds early |
| `LeaseReplay.ReplayedWithinWindow` | backend/app/save_service.py:369-381 | over disciplined runs, until the window counted from the start of the save is over, the same request is answered with that save's receipt, whatever cleanups came between |
| `LeaseReplay.NoReceiptOutlivesTheWindow` | backend/app/save_service.py:369-381 | after a round of the worker every sealed receipt left is that of a save committed within the window |
| `PurgeLaws.PurgeRowsIsPurgeAll` | backend/app/worker.py:45-47 | purging the selected rows one by one has the effect of purging their set at once, on all three tables |
| `PurgeLaws.CommitSaveEffect` | backend/app/save_service.py:194-253 | the committing transaction adds one photo that passes its own integrity check, one active key and one completed lease, and touches nothing else |
| `Store.Connection.Commit` | backend/app/save_service.py:253 | what the connection sees becomes what others see |
| `Store.Connection.Rollback` | backend/app/save_service.py:254-255 | uncommitted changes are undone |
| `Store.Storage.Write` | backend/app/storage.py:26-38 | creation is exclusive: an existing name is an error and changes nothing; a write that fails part way removes what it wrote |
| `Store.Storage.Read` | backend/app/storage.py:40-44 | the bytes, or nothing for an absent object |
| `Store.Storage.Delete` | backend/app/storage.py:46-48 | the object is gone; deleting an absent one is no error |
| `Store.Storage.SweepOrphans` | backend/app/storage.py:50-73 | in any directory order exactly the unknown objects not younger than the gate are removed, and counted |
| `Worker.PurgeOne` | backend/app/worker.py:67-92 | the five statements purge one photo and unlink its object |
| `Worker.PurgeEach` | backend/app/worker.py:45-47 | the loop over the selected rows, in any order, is the purge of their set |
| `Worker.PurgeExpired` | backend/app/worker.py:29-49 | expired photos are revoked and, with earlier revoked expired ones, purged, unlinked and counted |
| `Worker.PurgeDue` | backend/app/worker.py:52-64 | photos deleted by their owners are purged, unlinked and counted once due |
| `Worker.SweepOrphans` | backend/app/worker.py:95-106 | the files removed are those no record names and not younger than the gate, and they are counted |
| `Worker.PurgeExpiredIdempotency` | backend/app/save_service.py:369-381 | exactly the lease rows created or last taken within the window remain, unchanged; the others are deleted, committed and counted |
| `Worker.PurgeConsumedGrants` | backend/app/worker.py:109-122 | consumed and expired grants are deleted, committed and counted |
| `Worker.PurgePurgedPhotoRecords` | backend/app/worker.py:125-139 | records of purged photos are deleted, committed and counted |
| `Worker.RunOnce` | backend/app/worker.py:142-159 | one round reaches the tables and disk described by RoundDb and RoundDisk, and returns the number of purged photos and swept objects |
| `Worker.RoundKeepsLivePhotos` | backend/app/worker.py:29-64 | exactly the records of photos active and unexpired at the start remain, unchanged |
| `Worker.RoundKeepsLiveKeys` | backend/app/worker.py:85-87 | the registry keeps every row; the keys of the remaining photos are active, all others retired |
| `Worker.RoundKeepsUsableGrants` | backend/app/worker.py:109-122 | remaining grants are the unconsumed, unexpired ones of photos not purged in the round, unchanged |
| `Worker.RoundKeepsLiveObjects` | backend/app/worker.py:95-106 | on disk remain, with their bytes, exactly the objects of live photos and unreferenced ones younger than the gate |
| `Worker.RoundKeepsRecentLeases` | backend/app/save_service.py:369-381 | exactly the lease rows within the window remain, completed or not, unchanged |
| `Worker.CountIsOfPurged` | backend/app/worker.py:150-157 | the count a round returns is, besides the swept objects, the number of photos it purged |
| `Worker.UndisturbedRound` | backend/app/worker.py:142-159 | all these together, in both directions and with what stays unchanged, for a round that nothing disturbs, from any reachable state |
| `WorkerRuns.RoundIsARun` | backend/app/worker.py:142-159 | the tables and the disk after a round are those of a run of the protocol, for any clock readings in order |
| `Saves.FirstFreeIsFirst` | backend/app/save_service.py:384-399 | the key reserved is the first drawn that was never issued; there is none only if every draw was issued before |
| `Saves.ReserveFreeKey` | backend/app/save_service.py:384-399 | trying each draw by INSERT reserves that key and nothing else |
| `Saves.AcquireLease` | backend/app/save_service.py:266-332 | the lease is inserted, taken over, or refused with nothing changed |
| `Saves.Prepare` | backend/app/save_service.py:140-173 | template look-up, publication status, size constraint and re-encoding, in this order, compute Prepared |
| `Saves.DoSave` | backend/app/save_service.py:124-259 | validation, the object write, the transaction up to whichever statement fails and, on any failure, rollback and unlink, have the effect of Attempt |
| `Saves.SavePhoto` | backend/app/save_service.py:64-108 | lease, save, and release of the lease on failure have the effect of SaveOutcome |
| `Saves.TurnedAwayExactly` | backend/app/save_service.py:296-332 | over all requests on the row: while a save runs exactly those with other content or within its lease are turned away; afterwards exactly those with other content, all if it succeeded, and those within the lease if its release failed |
| `Saves.AdvisedWaitIsShortest` | backend/app/save_service.py:315-324 | a client returning before the told wait of two seconds or more is turned away again; returning then it gets the lease or is told one more second, which suffices |
| `Saves.SavedMeetsItsTemplate` | backend/app/save_service.py:140-173 | an answered receipt names an active template of the catalogue, and the stored object has a size and length that template allows, the receipt's size, and for print its density |
| `Saves.FailedSaveIsUndone` | backend/app/save_service.py:104-108 | a save failing after the lease leaves no photo, key, grant or object, touches no other lease, and the same request takes the lease at any later moment, or exactly when the lease has run out if the release failed |
| `Saves.DecidedExactly` | backend/app/save_service.py:293-332 | after a lost INSERT: cleaned up exactly when the row is gone, and then a retry holds the lease; conflict exactly for other content; replay exactly for a completed row; wait exactly while the lease runs |
| `Saves.WhyASaveFails` | backend/app/save_service.py:140-259 | which error is given, exactly: template not usable, photo rejected, object not written, the first fifty keys all issued before; and success exactly otherwise, if the database does not fail |
| `Saves.LeaseExcludes` | backend/app/save_service.py:315-324 | until the lease has run out any other same-content request is told to wait, at least a second and at most the remaining time; afterwards it takes over |
| `Saves.SavedOnce` | backend/app/save_service.py:307-313 | after a success the same request gets the identical receipt and the same key with other content is refused, both changing nothing |
| `SaveRuns.SaveIsARun` | backend/app/save_service.py:64-381 | every way a save can end is the effect of a run of the protocol, so whatever holds of all interleavings holds of it |
| `RequestRuns.ResolveIsARun` | backend/app/routers/retrievals.py:80-117 | so is every issue of a token, with look-up and issue at their own times |
| `RequestRuns.DownloadIsARun` | backend/app/routers/retrievals.py:138-204 | so is every way a download can end, with the same bytes delivered |
| `RequestRuns.DeleteIsARun` | backend/app/routers/saves.py:91-158 | and every way an authorised delete can end |
| `Retrievals.ReachableSchema` | backend/app/db.py:18-20 | in reachable states fingerprints are unique among photos and registered, as the schema demands |
| `Retrievals.Resolve` | backend/app/routers/retrievals.py:48-135 | a token is issued exactly when the client is within its limit, the KEY leads to an active unexpired photo and its failures in the window are below the limit; only failed lookups count as failures, and no count of another client, KEY or window is touched; each check reads the clock anew |
| `Retrievals.OthersDoNotMatter` | backend/app/routers/retrievals.py:63-99 | whether a token is issued depends on no count but this client's and this KEY's failures |
| `Retrievals.OwnBucket` | backend/app/routers/retrievals.py:70-99 | every KEY, and every malformed beginning, has a failure count of its own |
| `Retrievals.DownloadWith` | backend/app/routers/retrievals.py:138-204 | the bytes are returned exactly when grant, photo, epoch and integrity all stand; the grant is consumed when grant and photo stand |
| `Retrievals.DeleteSave` | backend/app/routers/saves.py:91-158 | an error is answered exactly when the revocation of an authorised photo did not land; a landed revocation stands however the purge ends; otherwise nothing changes |
| `Retrievals.SavedThenFetched` | backend/app/routers/retrievals.py:104-204 | a KEY leads to its photo exactly for the lifetime counted from the start of the save; a token for it yields exactly the saved bytes, once, until token or photo expire |
| `Retrievals.DeletedIsUnavailable` | backend/app/routers/saves.py:120-155 | after a delete with the right secret no old or new token yields the photo and its KEY leads nowhere, whether or not the bytes were unlinked |
| `Retrievals.OnlyItsKeyOpensAPhoto` | backend/app/routers/retrievals.py:80-95 | in every reachable state a photo can be fetched exactly while it is active and within its lifetime, by the KEY of its receipt |
| `Retrievals.OnlyItsReceiptDeletesAPhoto` | backend/app/routers/saves.py:106-118 | and deleted, until purged, exactly by KEY and delete secret of the same receipt |
| `RateLimit.RateLimiter.Record` | backend/app/rate_limit.py:14-26 | the cell's count grows by one and is read back |
| `RateLimit.RateLimiter.Check` | backend/app/rate_limit.py:28-33 | one attempt is recorded and allowed exactly when the new count is within the limit |
| `RateLimit.RateLimiter.Peek` | backend/app/rate_limit.py:35-45 | the count of the current window, changing nothing |
| `RateLimit.TakeKeepsAccounts` | backend/app/rate_limit.py:14-33 | each success and each check in progress keeps an increment of its own |
| `RateLimit.AtMostLimitPerWindow` | backend/app/rate_limit.py:28-33 | with increment and read-back of concurrent checks interleaved anyhow, at most `limit` succeed per window |
| `RateLimit.AtMostTwiceLimitPerInterval` | backend/app/rate_limit.py:28-33 | at most twice the limit succeed in any interval one window long |
| `RateLimit.UndividedCheckPasses` | backend/app/rate_limit.py:28-33 | an undivided check that finds the count below the limit succeeds |
| `Affines.ComposeApplies` | frontend/src/editor/edit-transform.ts:43-53 | a composed matrix applies its second argument first, at every point |
| `Affines.InvertUndoes` | frontend/src/editor/edit-transform.ts:55-65 | the inverse undoes the map at every point, from either side |
| `Crop.RenderIsCentred` | frontend/src/editor/edit-transform.ts:71-112 | the nine composed matrices are one map: turn, mirror and magnify about the source centre, placed at the canvas centre plus the translation |
| `Crop.RenderDeterminant` | frontend/src/editor/edit-transform.ts:71-112 | det = +-(cover scale * scale)^2, negative exactly when mirrored |
| `Crop.ValidityIsDefined` | frontend/src/editor/edit-transform.ts:55-57 | the validity check raises an error only for a zero scale |
| `Crop.InSourceIff` | frontend/src/editor/edit-transform.ts:116-130 | a canvas point comes from inside the source exactly when its two turned coordinates are within reach |
| `Crop.ValidIffWithinReach` | frontend/src/editor/edit-transform.ts:116-130 | the four-corner test is one inequality per source axis |
| `CropLaws.ValidCoversCanvas` | frontend/src/render/final-artifact.ts:154-166 | if the check accepts, every point of the canvas comes from within the source up to 1e-6: no blank or black pixel anywhere |
| `CropLaws.ValidIsConvex` | frontend/src/editor/edit-transform.ts:132-136 | the valid translations form a convex set |
| `CropLaws.ValidIsSymmetric` | frontend/src/editor/edit-transform.ts:132-136 | and one symmetric about the centre |
| `CropLaws.ValidNearerCentre` | frontend/src/editor/edit-transform.ts:132-136 | so validity at one point of a segment from the centre implies it at every nearer one |
| `CropLaws.ValidGrowsWithScale` | frontend/src/editor/edit-transform.ts:159-168 | enlarging keeps a crop valid, whatever its translation and rotation |
| `CropLaws.IdentityIsValid` | frontend/src/editor/edit-transform.ts:28-34 | the untouched photo is a valid crop of every source for every output |
| `CropLaws.ValidAtEverySize` | frontend/src/editor/edit-transform.ts:116-130 | uniform scaling of the output neither invalidates nor repairs a crop |
| `Fit.ClampTranslation` | frontend/src/editor/edit-transform.ts:137-157 | the bisection loop computes Clamped |
| `Fit.ClampedIsFarthest` | frontend/src/editor/edit-transform.ts:132-157 | a valid crop is kept; otherwise only the translation changes, to a point of its segment within 1e-5 of the farthest valid one; the result is valid exactly when the centred crop is |
| `Fit.MinScaleForRotation` | frontend/src/editor/edit-transform.ts:169-187 | the bisection loop computes NeededScale |
| `Fit.NeededScaleIsLeast` | frontend/src/editor/edit-transform.ts:159-187 | null exactly when neither the present nor the largest scale fits; else the result fits, is not below the present scale, and no fitting scale from the floor up is smaller by more than 1e-4 |
| `Fit.EnoughSteps` | frontend/src/editor/edit-transform.ts:146-186 | both searches stop by tolerance before their step limits, the second for any ceiling up to 100000 |
| `Fit.FitTransform` | frontend/src/editor/edit-transform.ts:200-209 | scale first, then translation, computing Fitted, of which the next two rows say where it ends up |
| `Fit.FittedIsNearest` | frontend/src/editor/edit-transform.ts:189-209 | the fitted translation lies on the segment from the centre to the one asked for, within 1e-5 of the farthest valid point; the scale is the present one if the centred crop fits there or nowhere, else no fitting scale is smaller by more than 1e-4 |
| `Fit.FittedIsValid` | frontend/src/editor/edit-transform.ts:189-209 | valid exactly when the centred crop is at the present or the largest scale; keeps rotation and flip, never lowers the scale, and is the identity on valid crops |
| `Templates.FilterKeepsInRange` | frontend/src/editor/edit-transform.ts:250-254 | the selectable official sizes are exactly the listed ones within range and of the template's aspect |
| `Templates.OfferedExactly` | frontend/src/editor/edit-transform.ts:240-264 | a user may choose the official sizes in range and aspect, or without a list the default and the largest size, and nothing else |
| `Templates.ResolvedExactly` | frontend/src/editor/edit-transform.ts:266-284 | a size on offer is rendered as chosen, any other choice gives the default, a fixed size stays |
| `Templates.AcceptedSizes` | backend/app/save_service.py:402-425 | the server accepts of a fixed size exactly that one, of a range exactly the sizes in it, of its aspect, and listed if there is a list |
| `Templates.SwitchingBandsKeepsValidity` | frontend/src/editor/edit-transform.ts:226-284 | switching between the size bands of a template never invalidates, and never repairs, a crop |
| `Templates.ServerAcceptsEverySelection` | backend/app/save_service.py:402-425 | the server accepts the rendered size for every selection exactly when it accepts the default and, without an official list, the largest size |
| `Reproject.ReprojectEditorState` | frontend/src/editor/edit-transform.ts:323-372 | the current crop and both stacks are projected and the notes are those of NotesFor, in order |
| `Reproject.ProjectedSuits` | frontend/src/editor/edit-transform.ts:315-372 | a projected crop is valid and obeys forbidden mirror and rotation; one that already does is left alone without a note |
| `Reproject.ProjectionKeepsTheRest` | frontend/src/editor/edit-transform.ts:315-372 | unless reset, mirror and rotation are cleared only where forbidden, the scale is never lowered, the translation only shortened; where clearing suffices nothing else changes |
| `Reproject.NotesTellExactly` | frontend/src/editor/edit-transform.ts:323-372 | no note exactly when the crop suits as it is, which is exactly when it is unchanged; mirror and rotation notes exactly when due |
| `Reproject.ResetExactlyWhenAngleCannotFit` | frontend/src/editor/edit-transform.ts:355-362 | a crop is reset exactly when its normalised angle fits the new template at neither the present nor the largest scale |
| `Reproject.SwitchingSettles` | frontend/src/editor/edit-transform.ts:315-372 | after a switch the crop and every history entry suit the template, stack lengths are kept, and a second switch changes nothing and says nothing |
| `Overlay.RuleByIdFinds` | frontend/src/editor/overlay.ts:126 | a rule whose id is not repeated later is found by its id |
| `Overlay.BandIsWhereTheRuleHolds` | frontend/src/editor/overlay.ts:60-116 | the band of a rule with both bounds holds exactly the points at which the rule's distance is within them |
| `Overlay.OneSidedBandReachesTheEdge` | frontend/src/editor/overlay.ts:60-116 | a margin band with one bound holds, of the points on the canvas, exactly those meeting it |
| `Overlay.OneSidedGuides` | frontend/src/editor/overlay.ts:60-116 | with one bound a size reaches to nothing or the canvas side, the centre line band to the centre line |
| `Overlay.GuideExactly` | frontend/src/editor/overlay.ts:124-164 | a rule has a guide exactly when its metric is drawn and a bound converts; sizes span their bounds |
| `Overlay.UnitsAgree` | frontend/src/editor/overlay.ts:60-82 | inches convert by the print density, shares by the side of the canvas, pixels as they are, and nothing else |
| `Overlay.BuildOverlayGuides` | frontend/src/editor/overlay.ts:124-164 | the loop draws the guides of the named rules, in order |
| `Overlay.GuidesAreOfNamedRules` | frontend/src/editor/overlay.ts:124-164 | exactly the guides of the named rules are drawn |
| `Overlay.EllipseSpansTheBands` | frontend/src/editor/overlay.ts:168-182 | the head ellipse is upright, centred, and spans the middles of the crown and chin bands |
| `Checks.GeometryChecks` | frontend/src/render/geometry-checks.ts:247-287 | the loop produces the items of the handled rules, in order |
| `Checks.EveryHandledRuleReports` | frontend/src/render/geometry-checks.ts:241-246 | no handled rule vanishes from the summary, with or without anchors |
| `Checks.EachRuleJudgesItsAnchor` | frontend/src/render/geometry-checks.ts:241-287 | the centre line rule judges the face centre, the chin rule the chin tip, the eye rule the eye line, the head rule the height from chin to hairline; without convertible bounds nothing is concluded |
| `Checks.HeadHeightIsOneSided` | frontend/src/render/geometry-checks.ts:96-141 | no measurement confirms the head height; a warning is sound wherever the crown is, and given whenever the measurable part is too tall |
| `Checks.BandsAgreeWithChecks` | frontend/src/render/geometry-checks.ts:148-239 | a center-line, chin or eye check passes exactly on the drawn band if and only if the rule has both bounds, in order |
| `Checks.OneSidedMarginsAgreeOnCanvas` | frontend/src/render/geometry-checks.ts:199-239 | for points of the canvas, chin and eye checks also agree with the band when one bound is missing |
| `Checks.MarginAdviceWorks` | frontend/src/render/geometry-checks.ts:226-238 | the up and down advice always leads to a pass if and only if some distance passes |
| `Checks.CentreAdviceWorks` | frontend/src/render/geometry-checks.ts:178-190 | the left and right advice always leads to a pass if and only if a centred face is allowed |
| `Checks.PanMovesThePhoto` | frontend/src/editor/edit-transform.ts:91-111 | panning the crop moves every point of the rendered photo by that share of the canvas |
| `Checks.FollowingAdviceFixes` | frontend/src/render/geometry-checks.ts:27-29 | where the advice works there is a smallest advised pan after which the re-rendered photo passes; from a valid crop the user can follow the advice to a crop that is valid and passes if and only if that pan keeps the crop valid |
| `Checks.NoRoomToFollow` | frontend/src/render/final-artifact.ts:154-166 | that condition does fail: with a photo of exactly the canvas's size no warning by more than the slack can be followed to a valid passing crop |
| `Checks.CroppingTighterNeverHelps` | frontend/src/render/geometry-checks.ts:125-134 | advice to crop tighter for a head that is too tall: at every larger scale, wherever the crop is moved, the warning remains |
| `Checks.JapaneseFaceCenterIsMisread` | templates/revisions/jp-passport-paper@1.json:103-120 | the shipped rule's 15 to 19 mm from the edge are checked from the centre line: every face meeting the official rule is warned about, only faces past pixel 383 of 413 pass, and a centred face is advised away from them |
| `Jpeg.ReadJpegDensity` | frontend/src/render/jpeg.ts:14-41 | the density of the first JFIF segment on the walk, or nothing |
| `Jpeg.RewriteJfifDensityBytes` | frontend/src/render/jpeg.ts:44-73 | a fresh array with the density rewritten in place, or an error; the input is untouched |
| `Jpeg.HasExifSegment` | frontend/src/render/jpeg.ts:76-97 | whether the walk meets an EXIF segment |
| `Jpeg.WriteJfifDensity` | backend/app/image_validate.py:170-195 | the server's rewriter, its three errors included |
| `Jpeg.FindsTheFirst` | frontend/src/render/jpeg.ts:14-97 | a search finds the first segment of its kind on the walk, and nothing only if there is none |
| `JpegSamples.KnownJfif` | frontend/src/render/jpeg.ts:14-41 | the density of a minimal JFIF file of 72 dots per inch is found |
| `JpegSamples.KnownExif` | frontend/src/render/jpeg.ts:76-97 | the EXIF segment of a minimal EXIF file is found |
| `JpegSamples.ScanEndsTheWalk` | frontend/src/render/jpeg.ts:14-97 | the same segment behind the start of a scan is not |
| `Jpeg.SameWalk` | frontend/src/render/jpeg.ts:44-73 | the walk meets the same segments, and every search along it finds the same, after a density change as before |
| `Jpeg.RewriteThenRead` | frontend/src/render/jpeg.ts:14-97 | rewriting succeeds exactly when reading does; what is then read is (1, ppi mod 65536) twice; length, the whole segment walk and every search on it stay; a later rewrite leaves nothing of an earlier one |
| `Jpeg.DensityRoundTrips` | frontend/src/render/jpeg.ts:44-73 | the density survives the round trip exactly when it is below 65536 |
| `Jpeg.ServerRewriteThenRead` | backend/app/image_validate.py:170-195 | what the server writes reads back as the density it was given, in as many bytes |
| `Jpeg.BrowserAndServerAgree` | backend/app/image_validate.py:170-195 | both sides write the same bytes or both refuse exactly when there is no JFIF segment, or the input starts with SOI and the density is below 65536 |
| `Encoding.EncodeWithin` | backend/app/image_validate.py:135-167 | the loop computes EncodedWithin |
| `Encoding.AlwaysStepsByFour` | backend/app/image_validate.py:156-159 | the ladder steps by four all the way: the step of one is unreachable |
| `Encoding.FirstFittingIsHighest` | backend/app/image_validate.py:142-162 | the ladder stops at the highest of 92, 88, ..., 40 that fits, and fails only if none does |
| `Encoding.OutputFitsItsCap` | backend/app/image_validate.py:135-167 | the output is within its cap even after the density write, comes from the highest fitting rung, carries the wanted density, and is too large exactly when no rung fits |
| `Encoding.DensityErrors` | backend/app/image_validate.py:164-195 | a density write fails as a defect exactly for an encoding that is no JFIF file, as an overflow exactly for a density above 65535 |
| `Encoding.TooLargeExactly` | backend/app/image_validate.py:66-162 | an upload is too large for its own length exactly when above either limit, and otherwise, if suitable, exactly when no quality of the ladder is within both |
| `Encoding.ValidateAndReencode` | backend/app/image_validate.py:52-132 | exactly when an upload is accepted, and when its size is the reason it is not; an accepted photo meets pixel, edge and size constraints in its oriented size and is no longer than the template's limit nor than the global one, with the density asked for |
| `Encoding.SearchQuality` | frontend/src/render/final-artifact.ts:242-276 | the loop and the floor retry compute QualityFor |
| `Encoding.QualityIsNearBest` | frontend/src/render/final-artifact.ts:242-276 | the search never exceeds its cap and fails only if quality 0.4 does not fit; for a monotone encoder it is within 0.005 of every fitting quality and fails only if there is none |
| `Tracking.SelectPrimaryFace` | frontend/src/pose/tracking.ts:129-159 | the loop computes Primary |
| `Tracking.PrimaryExactly` | frontend/src/pose/tracking.ts:129-159 | there is a primary face whenever there is a face: a leading one if any can be measured, else the first |
| `Tracking.LeaderLeads` | frontend/src/pose/tracking.ts:129-159 | the primary face is the first of the highest-scoring measurable ones |
| `Tracking.FaceIsMeasured` | frontend/src/pose/tracking.ts:104-118 | a face with both eyes and chin measures the horizontal distance of the eyes, centred midway between them and between crown and chin |
| `Tracking.ScoreWeighs` | frontend/src/pose/tracking.ts:138-156 | a face scores by its width, less by as much of it as it is off centre, at most half, and divided by one plus four times its drift |
| `Tracking.PoseTracker.constructor` | frontend/src/pose/tracking.ts:190-194 | a new tracker remembers nothing |
| `Tracking.PoseTracker.Update` | frontend/src/pose/tracking.ts:207-270 | the fields after a frame are those of Updated, and the state returned is read off them |
| `Tracking.ReadyHasEntry` | frontend/src/pose/tracking.ts:240-263 | whenever the pose counts as ready, some frame met the base thresholds at the time stability is measured from, and every frame since kept it settled |
| `Tracking.SettledIsReady` | frontend/src/pose/tracking.ts:240-263 | conversely a pose settled since some frame counts as ready, and as stable since that frame at the latest |
| `Tracking.ShootableHasEntry` | frontend/src/pose/tracking.ts:281-293 | shootable implies an entry frame at least the stability time ago within the base thresholds, no frame without a face since, every usable frame since within the widened ones, and a single face last |
| `Tracking.ShootableExactly` | frontend/src/pose/tracking.ts:207-293 | with a clock that does not run backwards, exactly then |
| `Tracking.SmoothingMoves` | frontend/src/pose/tracking.ts:224-232 | smoothing starts at the first angles and moves by the share alpha of the way to each new one |
| `Tracking.ShownIsMeasured` | frontend/src/pose/tracking.ts:207-270 | what is shown of a usable frame is what it measured, with the thresholds it misses first and whether it is crowded; an unusable frame shows the status before, one without a face no face and nothing held |
| `Tracking.Remembered` | frontend/src/pose/tracking.ts:207-236 | a usable frame hands its angles and face centre to the next; an unusable one changes nothing; after one without a face the next is measured as if it were the first |
| `Tracking.HysteresisWidens` | frontend/src/pose/tracking.ts:240-263 | hysteresis is the same test against wider thresholds |
| `Tracking.NoFallbackHints` | frontend/src/pose/tracking.ts:306-350 | on no run, for no thresholds, are `adjust-position` and `hold-still` given |
| `Tracking.PositionHintsLeadIn` | frontend/src/pose/tracking.ts:308-326 | the position hints, each followed by some amount and with nothing else changed, lead into position |
| `Tracking.AngleHintsLeadIn` | frontend/src/pose/tracking.ts:327-349 | the angle hints likewise |
| `Tracking.HintsExactlyWhenNeeded` | frontend/src/pose/tracking.ts:306-350 | there is something to hint at exactly when the pose misses the base thresholds |
| `Tracking.ShownHintsHelp` | frontend/src/pose/tracking.ts:300-350 | the hints shown: out of position at least one, about position only, and together leading into position; unsteady likewise about angles; otherwise none |
| `Keygen.GenerateKey` | backend/app/keygen.py:25-42 | the nested loops compute Drawn |
| `Keygen.DrawnByAcceptedSamples` | backend/app/keygen.py:25-42 | character i of a key is chosen by the i-th accepted sample, and a key exists as soon as enough samples are accepted |
| `Keygen.EveryCharacterIsEquallyLikely` | backend/app/keygen.py:33-41 | every character of any alphabet is reached by exactly as many accepted samples as every other |
| `Keygen.HalfOfSamplesAreAccepted` | backend/app/keygen.py:33-35 | at least half of all samples are accepted |
| `Keygen.AlphabetIsComplete` | backend/app/keygen.py:13 | the configured alphabet is that of the KEY pattern, each character once |
| `Keygen.DisplayIsInTwoGroups` | backend/app/keygen.py:54-56 | a KEY is shown in two groups of three |
| `Keygen.PlainInputIsReadAsTyped` | backend/app/keygen.py:16-22 | input of letters, digits and separators is read as a KEY exactly when it is that KEY with letters in either case and separators anywhere |
| `Keygen.SeparatorsAreThese` | backend/app/keygen.py:16-22 | ignored are the hyphen and the 29 white space characters of Unicode, and nothing else |
| `Keygen.DisplayRoundTrips` | backend/app/keygen.py:54-56 | a displayed key reads back as itself |
| `Keygen.GeneratedKeyRoundTrips` | backend/app/keygen.py:16-56 | every generated key of the configured alphabet survives being displayed and typed |
| `Keygen.IllegalCharactersAreMapped` | backend/app/keygen.py:16-22 | an accepted input was typed with letters, digits and separators only, exactly when it has no character that upper-casing folds into the alphabet |
| `Keygen.SharpSIsMapped` | backend/app/keygen.py:16-22 | such an input exists: a sharp s is silently mapped to SS |

## Left out

- Lock timeouts, database failures outside the committing transaction and the release, and undecryptable envelopes: a process that meets one is a process that stops.
- Photo ids: the id holds the whole fingerprint, not its first 12 hex digits, so two photos saved in one millisecond under colliding prefixes are not modelled.
- Request digests: the digest is the uploaded content itself; two contents never share one.
- Decoding and pixel encoding of uploads: given functions, about which nothing is assumed; loading the catalogue is not modelled.
- Worker.RunOnce: the imperative round is proved for a database and disk that nothing else touches meanwhile; interleaved rounds are the purge, sweep and cleanup actions of the protocol, of which `WorkerRuns` proves it a run.
- HTTP: the form of requests and answers, same-origin checks and the constant response of failed retrievals.
- LeaseSafety.OnePhotoPerLease: asks for takeover as one step (`LeaseRace` shows why) and bounds each holder's time, which is what a lease rests on; it does not reach across session expiry.
- Fit.NeededScaleIsLeast: the tolerance is promised for ceilings up to 100000; beyond, the thirty steps do not suffice to reach it.
- Floating point: rounding, NaN and infinities, and with them the guards for non-finite values, are not modelled; cosine and sine are any pair on the unit circle.
- Scales of zero or below: `Fit` and `Reproject` ask for a positive scale, where the editor keeps it at 1 or more; `Crop.ValidityIsDefined` says what the check does at zero.
- Tracking.SelectPrimaryFace: the length of a plane vector is any non-negative function; decomposing a face matrix into angles is foreign code.
- Jpeg.RewriteJfifDensityBytes: the density is a natural number; 32-bit wrap-around of negative ones is not modelled.
- Encoders, decoders, colour management, the canvas and its alpha scan, MediaPipe, React components and pages: foreign code or UI.
- Header and EXIF parsing of uploads in the browser, image quality heuristics, catalogue schema validation: they would add easier members or rest on uncalibrated constants.
- Labels and wording of checks, hints and guides.
