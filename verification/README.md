# Cloud gateway: model and proofs

The gateway saves a release source (a torrent file, a magnet or an NZB), uploads it to a cloud provider
at most a few times, watches the placement, publishes its files below stable import paths and reports
completion once a mount read has succeeded. This project models the parts that decide whether that is
safe, and proves what they promise.

## How it is organised

- `Rows`, `Store`: a row of `gateway_jobs`, each SQL statement as a function of the row it meets, and the
  repository (`Store.Repo`) whose methods run those statements as one transaction each. `Columns` says of
  every statement which rows it changes, into what, and what that makes possible.
- `Polling`, `Service`: what a provider answer or a mount read makes of a claimed row.
- `Protocol`: the whole gateway of one tenant as a state machine. Provider workers, mount verifiers and
  HTTP requests take one transaction or one provider call at a time, in any order; workers and verifiers
  may crash anywhere; the provider and the mount answer arbitrarily; time only moves forward. A run is any
  sequence of enabled actions from the empty database. The history of a job (uploads, placements,
  observations, mount reads) is kept beside the tables and is read by no action.
- `Safety`, `Limits`, `Attempts`, `Leases`, `Runs`, `Completion`: what holds in every run with any number of workers.
- `PreflightRuns`: the same runs, with torrents sent as the preflight over the account listing decides.
- `SingleWorker`, `SingleWorkerRuns`: what holds in addition with the one provider worker that the program
  starts per tenant (it may crash and restart; verifiers and requests stay unlimited).
  `TwoWorkers` has, for each of these properties, a run with two workers that breaks it.
- `Inventory`, `InventoryProofs`, `TorrentClient`: the paged account listing and the preflight of an upload.
- `Bencode`, `Grammar`, `Torrent`, `TorrentProofs`, `Decimals`: the cursor reader, the grammar it accepts, the
  infohash span and the v1 metainfo check (BEP 3, BEP 52), and complete files as bytes.
- `Catalog`, `Sources`, `Submissions`, `Text`, `ReadProbes`: file catalogs, saved sources, text normalisation, and the
  bounded filesystem probe.

`dafny verify dfyconfig.toml` checks everything.

## What the proofs found

- The properties in `SingleWorkerRuns` need the single worker: each has a run with two workers that breaks it. A
  wake ends a poll lease, the second worker polls the same row, and an unfenced write lands late. A failed job
  comes back (`TwoWorkers.FailedIsNotAbsorbing`), a published catalog changes
  (`TwoWorkers.ImportPathsAreNotStable`), the counter runs ahead of the history
  (`TwoWorkers.CounterIsNotHistory`), a job is queued (`TwoWorkers.RequeueIsNotConfirmed`) and uploaded again
  (`TwoWorkers.ReuploadIsBlind`) on one absence, and an unknown submission is overwritten
  (`TwoWorkers.UnknownIsNotTerminal`). Verified completion, the upload budget, the spacing of submissions,
  revision fencing, one row per release, saved sources, telemetry and the evidence for an upload hold for any
  number of workers.
- With one worker, an unknown submission that already had a placement, or that is an NZB, never leaves its
  state (`SingleWorkerRuns.UnknownIsOtherwiseTerminal`).
- A finished placement whose files are gone counts as absent if and only if its state is spelled in lower case,
  although readiness ignores case (`Polling.AbsenceIsSpelled`); "Completed" is taken for downloading at every poll
  (`Polling.CapitalsHideAbsence`).
- A lookup concludes exactly when a prefix of good pages ends in an empty page or already lists the hash as present
  or in progress (`InventoryProofs.LookupConcludes`); so it can conclude where the full scan of the same listing
  cannot (`InventoryProofs.LookupMayConcludeAlone`).
- The file name "." is accepted (`Catalog.DotIsAccepted`); every other accepted name is a strictly downward path.
- The bencode reader accepts integers that are not canonical (`Grammar.LenientInteger`) and dictionaries with
  unsorted or repeated keys (`Grammar.LenientKeys`).
- Saving a source and reading it back drops a torrent URL of blanks, and nothing else (`Sources.SourceRoundTrip`).

## Model

| member | source | states |
|---|---|---|
| SingleWorkerRuns.NoBlindReupload | internal/gateway/service.go:137-210 | with one worker: between two uploads of a job a placement with a positive ID was recorded, and the later upload directly follows three recorded absences of that placement in a row; a lost or failed submission alone never leads to another |
| Completion.CompletedMeansVerified | internal/db/gateway_mount.go:31-34 | any number of workers: a completed job has a pinned folder, and a mount read succeeded against a snapshot with the provider ID and the name-to-size catalog the row has now, however polls, replacements, stale write-backs and stale verifications interleave |
| Completion.ActionKeepsHolds | internal/gateway/service.go:101-313 | any one action keeps the invariant behind it: what is completed is verified, and so is every worker's copy that says so |
| SingleWorkerRuns.ImportPathsAreStable | internal/gateway/service.go:220-239 | with one worker: once a file list is published its name-to-size map never changes again, through polls, losses, recoveries and new placements |
| SingleWorkerRuns.CounterIsHistory | internal/gateway/service.go:172-214 | with one worker: `missing_checks` is the length, capped at 3, of the trailing run of recorded absences since the last other observation or placement |
| SingleWorkerRuns.RequeueIsConfirmed | internal/gateway/service.go:190-210 | with one worker: a job returns to the queue only by a deferred submission, or by the poll that records at least the third absence in a row, with recovery on and an attempt left |
| SingleWorkerRuns.FailedIsAbsorbing | internal/db/gateway_jobs.go:89 | with one worker: a failed job stays failed for the rest of the run |
| SingleWorkerRuns.ChangedCatalogIsFinal | internal/gateway/service.go:223-227 | with one worker: after a poll that finds a finished download with another name-to-size map than the published one, the job is failed in every later state |
| SingleWorkerRuns.UnknownIsLeftByLookup | internal/db/gateway.go:121-128 | with one worker: an unknown submission is left only by a lookup with a positive ID, on a torrent that never had a placement |
| SingleWorkerRuns.UnknownIsOtherwiseTerminal | internal/db/gateway.go:109 | with one worker: an unknown submission of an NZB, or of a job with an old placement, stays unknown for the rest of the run |
| SingleWorkerRuns.RunKeepsHold | internal/gateway/service.go:101-249 | with one worker: in every reachable state each row, its history and the worker's copy of it satisfy the invariant behind the theorems above |
| SingleWorkerRuns.ActionKeepsHold | internal/gateway/service.go:101-249 | any one action keeps that invariant, and changes a row only in ways that keep its catalog, failure and unknown outcome |
| SingleWorker.PollKeepsJob | internal/gateway/service.go:172-239 | a poll written back by the only worker keeps counter, catalog, placement and the justification of any further upload |
| SingleWorker.UploadKeepsNoBlindUpload | internal/db/gateway_jobs.go:82-117 | an upload is justified when nothing was ever sent, or a placement was last seen absent three times in a row |
| SingleWorker.VerifyKeepsJob | internal/gateway/service.go:251-313 | steps of a verifier with a stale or current snapshot keep the row's invariant and the worker's copy current but for the completion itself |
| TwoWorkers.FailedIsNotAbsorbing | internal/db/gateway.go:91-94 | for every source there is a run with two workers in which a failed job becomes a downloading one |
| TwoWorkers.ImportPathsAreNotStable | internal/gateway/service.go:223-239 | for every source there is a run with two workers in which a published name-to-size map changes |
| TwoWorkers.CounterIsNotHistory | internal/gateway/service.go:190-210 | for every source there is a run with two workers that ends with a counter of three on one trailing absence |
| TwoWorkers.RequeueIsNotConfirmed | internal/gateway/service.go:190-210 | and in which the job is queued on that single absence |
| TwoWorkers.ReuploadIsBlind | internal/db/gateway_jobs.go:128-138 | and in which it is then uploaded again without three absences in a row |
| TwoWorkers.UnknownIsNotTerminal | internal/db/gateway_jobs.go:128-138 | for every source there is a run with two workers in which an unknown submission with an old placement becomes a download without a lookup |
| Limits.UploadBudget | internal/db/gateway_jobs.go:86-117 | any number of workers: uploads made plus unposted reservations never exceed `attempts`, which never exceeds 3, so a job is uploaded at most three times |
| Attempts.AttemptsAreReservations | internal/db/gateway_jobs.go:82-117 | any number of workers: in every reachable state the attempts of a job are its reservations minus the deferrals of a reservation that still stood |
| Attempts.ExhaustedMeansSpent | internal/db/gateway_jobs.go:86 | any number of workers: the sweep fails a queued job exactly if three reservations of it were not deferred |
| Columns.DeferralRefunds | internal/db/gateway.go:96-99 | a deferral undoes the reservation it belongs to, attempt included, and looks again in 300 s |
| Limits.OneLiveSubmission | internal/db/gateway_jobs.go:79-117 | any number of workers: reservations are at least 60 s apart, at most one submitter is inside its 55 s window, and no sweep turns the row of a live submitter into an unknown submission |
| Limits.LiveSubmitterKeepsItsRow | internal/db/gateway_jobs.go:79-117 | any number of workers, any action: the row of a live submitter becomes an unknown submission only by a reported loss, its own or one written after its reporter's window; while submitters act within their windows, only by its own |
| Leases.LeaseLasts | internal/db/gateway_jobs.go:89-117 | any number of workers: a row that a worker took up is not taken up again within 300 s, unless a wake, a recovery request or a write-back of it lies between |
| Leases.DelayLasts | internal/db/gateway_jobs.go:136 | any number of workers: a row written back with a delay is not taken up before it is over, unless so released |
| Leases.MountLeaseLasts | internal/db/gateway_mount.go:8-27 | any number of verifiers: a row that a verifier took up is not taken up by another within 60 s, unless a cleanup is requested |
| PreflightRuns.UploadsAreProvenAbsent | internal/torbox/torrent_gateway.go:21-52 | any number of workers: every upload of a torrent in any run was sent after the whole account listing had been read and showed no entry of the row's hash |
| PreflightRuns.AdoptedIsListed | internal/torbox/torrent_gateway.go:33-45 | any number of workers: an ID recorded without an upload, by a submission or a lookup, is that of a listed, present or active entry of exactly the row's hash |
| PreflightRuns.AbsentFromListing | internal/torbox/torrent_gateway.go:29-39 | over a listing served as contiguous pages, proven absence means that the listing itself has no entry of the hash |
| Runs.RevisionHasNoAba | internal/db/gateway_jobs.go:136 | any number of workers: revisions never decrease, and between two moments of equal revision the placement, the files and the folder never changed |
| Runs.CompletionIsOfItsSnapshot | internal/db/gateway_mount.go:31-34 | any number of workers: when a completion takes effect, the row is exactly the placement and catalog whose mount read succeeded |
| Runs.TelemetryIsCurrent | internal/db/provider_status.go:9-20 | any number of workers: a recorded status names the row's current positive provider ID, every watched row has a positive provider ID, and every stored file list is valid |
| Runs.SourceIsForever | internal/gateway/service.go:61-70 | any number of workers: the source of an added job can be read back in every later state, and is the first accepted payload and identity |
| Runs.RequestsDecideNothing | internal/db/gateway.go:65-94 | over any number of consecutive requests: re-adding, waking, recategorising, hiding, cleanup and recovery requests change neither state, attempts, placement, catalog, revision, workers, verifiers, the gate nor the history; no failed, unknown or submitting row is looked at sooner, and only a never submitted job changes its category |
| Runs.OneRowPerRelease | internal/db/gateway.go:48-57 | any number of workers: in every reachable state two rows have neither the same infohash nor, within a category, the same NZB fingerprint |
| Safety.RunKeepsInv | internal/db/gateway_jobs.go:128-138 | any number of workers: in every reachable state rows are sound, every worker's copy may safely be written back, and every verifier's snapshot is fenced by its revision |
| Safety.ActionEvolvesRow | internal/db/gateway_jobs.go:136 | any action keeps identity, source and a pinned folder, never lowers the revision, changes placement, files or folder only with a new revision, and never shortens a submission lease |
| Safety.EvolvingIsFenced | internal/db/gateway_release_folder.go:7-9 | over any number of actions: the fence holds between the two moments, and a folder once pinned stays |
| Store.Repo.AddGatewaySource | internal/db/gateway.go:13-61 | saves an acceptable source once per release; a repeated submission only makes the row visible; an unacceptable one changes nothing |
| Submissions.SubmittableMeans | internal/db/gateway.go:14-22 | what may be saved and uploaded is exactly what describes a canonical source, a torrent file among them only with a v1 info dictionary |
| Columns.KeyMeans | internal/db/gateway.go:48-53 | an insert meets the job of the same infohash, or of the same NZB fingerprint and category, and no other |
| Store.Repo.ClaimGatewayJob | internal/db/gateway_jobs.go:69-127 | claims the earliest due row, that is one whose check time has come, in no final or submitting state, and, when queued, with an attempt left and the gate unset or due; None exactly if there is none; the claim leases it for 300 s, a submission also reserves the gate and an attempt |
| Store.ClaimMeans | internal/db/gateway_jobs.go:82-117 | the picked row, the gate and the worker's copy after a claim, on columns; every other row is only swept |
| Columns.SweepMeans | internal/db/gateway_jobs.go:82-88 | an overdue submission becomes unknown, a queued job without an attempt left fails, no other row changes |
| Store.Repo.UpdateGatewayJob | internal/db/gateway_jobs.go:128-138 | the whole row after a write-back: a status belongs to its placement, a verified completion outlives a republication, and the revision moves exactly when placement, files or state do |
| Rows.StatementKeepsPublication | internal/db/gateway_jobs.go:136 | the separately guarded columns of that statement fit together: the revision is bumped, by one, if and only if placement, files or state change, a completion is kept exactly for the placement and files that were verified, and a status is dropped only with its placement |
| Store.Repo.WakeGatewayJob | internal/db/gateway.go:91-94 | brings the next check forward, never of a failed, unknown or submitting row |
| Columns.WakeMeans | internal/db/gateway.go:91-94 | a woken job can be claimed at once, but for a closed gate; a failed, unknown or submitting one stays as it is |
| Store.Repo.GatewayCategory | internal/db/gateway.go:65-71 | recategorises only rows that were never submitted, all or nothing; it succeeds if and only if a row of the hash then has the category and the unique indexes still hold |
| Columns.CategoryMeans | internal/db/gateway.go:65-71 | a category is given only to the job of the hash, and only before its first submission |
| Store.Repo.DeferGatewaySubmission | internal/db/gateway.go:96-99 | a submitting row is deferred as Columns.DeferralRefunds says, any other row is left alone |
| Store.Repo.ClaimUnknownGatewayTorrent | internal/db/gateway.go:103-120 | claims the earliest unknown torrent without a placement, and only leases it |
| Store.Repo.ResolveUnknownGatewayTorrent | internal/db/gateway.go:121-128 | adopts a positive ID only for an unknown torrent of the same hash without a placement |
| Columns.ResolveMeans | internal/db/gateway.go:121-128 | a positive match makes an unknown torrent without a placement due for watching under a new revision; any other row is left alone |
| Store.Repo.ClaimGatewayMount | internal/db/gateway_mount.go:10-27 | claims the earliest row due for verification or cleanup, and only moves its verification time |
| Store.Repo.FinishGatewayMount | internal/db/gateway_mount.go:31-34 | completes if and only if the row is mounting at the snapshot's revision without a cleanup request and no problem was reported |
| Columns.FinishMeans | internal/db/gateway_mount.go:31-34 | a verification completes exactly a mounting row at the snapshot's revision that is not to be cleaned up |
| Store.Repo.RequestGatewayCleanup | internal/db/gateway_mount.go:35-38 | hides the row, requests cleanup and makes it due |
| Columns.CleanupBlocksCompletion | internal/db/gateway_mount.go:35-38 | a cleanup request hides the job, is due at once, and lets no verification pin or complete it |
| Columns.ReaddShowsAgain | internal/db/gateway.go:48-52 | a job that was hidden or is to be cleaned up is as visible as before once it is added again |
| Store.Repo.FinishGatewayCleanup | internal/db/gateway_mount.go:39-42 | ends a cleanup only at the snapshot's revision and while hidden |
| Store.Repo.PinGatewayReleaseFolder | internal/db/gateway_release_folder.go:7-9 | pins a folder once, at the snapshot's revision, and bumps it; otherwise nothing changes |
| Store.Repo.HideGatewayJob | internal/db/gateway_jobs.go:139-142 | hides the row and nothing else |
| Store.Repo.RecordProviderStatus | internal/db/provider_status.go:9-16 | records a status only while the row still has the snapshot's placement |
| Store.Repo.RecordProviderCheckFailure | internal/db/provider_status.go:17-20 | marks an existing status of the same placement as failed to refresh |
| Store.Repo.RequestGatewayRecovery | internal/db/gateway_diagnostics.go:44-47 | wakes a confirmed missing row of the same placement and revision with an attempt left; true if and only if the row qualified |
| Columns.RecoveryMeans | internal/db/gateway_diagnostics.go:44-47 | a recovery request makes exactly a confirmed loss that it has seen claimable at once, and changes nothing else |
| Service.ReconcileSubmission | internal/gateway/service.go:137-164 | the submission half of Reconcile takes a step that is open to a worker with the claim; a torrent is sent, deferred or taken over exactly as its preflight decides; the row is then downloading with the ID, unknown, or queued again |
| Service.ReconcileUnknown | internal/gateway/service.go:105-128 | the lookup half of Reconcile: an unknown torrent without a placement takes over the ID of a listed, present or active entry of its hash, and is otherwise only leased |
| Service.RecordAnswer | internal/gateway/service.go:172-239 | the poll half of Reconcile takes exactly the two protocol steps of a poll |
| Service.VerifyMount | internal/gateway/service.go:251-313 | an uninterrupted verification completes the job if and only if it can pin or finds its revision, the links exist or are not wanted, there is a payload file and its read succeeds |
| Service.ReconcileMount | internal/gateway/service.go:477-493 | one pass of a mount worker: a claimed cleanup is finished once the links are gone and completes nothing; any other claimed row is verified |
| Service.VerifyPinned | internal/gateway/service.go:259-313 | the part after the pin: completion if and only if nothing stands in the way, and nothing else changes |
| Service.ValidFolderMeans | internal/gateway/release_folder.go:38-40 | a folder name is valid exactly if it is one proper path part without backslash and NUL |
| Polling.Poll | internal/gateway/service.go:172-239 | the poll half as it runs writes what the next three rows say of every answer |
| Polling.FinishedIsPublished | internal/gateway/service.go:215-239 | a finished download with a valid list: with another map than the published one the copy is failed, files unchanged; with the same one, or none published before, it is mounting with the new list, or stays completed |
| Polling.AbsenceIsCounted | internal/gateway/service.go:190-210 | an absence is counted up to three; at three the job is queued if that is wanted and an attempt is left, fails if none is left, and stays missing otherwise |
| Polling.OtherAnswers | internal/gateway/service.go:172-222 | what a failed check, a failed download, an unfinished one and an invalid list are written as |
| Polling.StatusMeans | internal/torbox/telemetry.go:32-55 | the recorded status names the placement asked for, says whether it is listed, and is ready exactly for a finished download |
| Polling.AbsenceIsSpelled | internal/gateway/service.go:190 | for a finished placement that is no longer present: it counts as an absence if and only if its state is in lower case; otherwise the poll resets the counter and calls it downloading |
| Polling.PollKeepsCatalog | internal/gateway/service.go:220-239 | no poll changes the name-to-size map of a published catalog |
| Polling.Candidate | internal/gateway/service.go:272-287 | the probed file is the first mkv or mp4 with content, else the last video with content, else the first file with content; there is none if and only if no file has content |
| Polling.ChosenOfTwo | internal/gateway/service.go:272-287 | which of two files with content is probed, by their kinds |
| SingleWorker.PollCounts | internal/gateway/service.go:172-219 | a poll counts up on an absence and resets otherwise, queues only at three with an attempt left, and never invents a completion or a placement |
| Catalog.ValidateUsenetFiles | internal/torbox/usenet.go:45-54 | accepts exactly the lists of acceptable, pairwise distinct names |
| Catalog.AcceptableMeans | internal/torbox/usenet.go:48 | a file is accepted exactly if ID and size are not negative and its name, without backslash and NUL, is "." or has only proper parts |
| Catalog.AcceptedNamesStayBelowTheRoot | internal/torbox/usenet.go:48 | all parts of an accepted name are proper, that is none is empty, "." or "..", if and only if the name is not "." |
| Catalog.DotIsAccepted | internal/torbox/usenet.go:48 | the name "." is accepted |
| Catalog.SameCatalog | internal/gateway/service.go:440-455 | true exactly if the lengths agree and every new file has its old size under its old name |
| Catalog.SameIsMapEquality | internal/gateway/service.go:440-455 | on validated lists it is equality of the name-to-size maps |
| Catalog.SameIsEquivalence | internal/gateway/service.go:440-455 | on validated lists it is reflexive, symmetric and transitive |
| Catalog.SameNeedsDistinctNames | internal/gateway/service.go:440-455 | without distinct names it is not symmetric: two concrete lists |
| Inventory.LookupTorrent | internal/torbox/health.go:50-60 | the lookup of one hash, with early exit |
| Inventory.ReadInventory | internal/torbox/health.go:62-169 | the scan of a set of hashes over pages requested at running offsets |
| InventoryProofs.ClassMeans | internal/torbox/health.go:132-146 | what an entry says: available if present, unknown if it does not say or is in one of the six states under way, unavailable otherwise |
| Inventory.NormalizedMeans | internal/torbox/health.go:126-131 | a listed hash is compared without blanks around it and in lower case |
| InventoryProofs.FullScanIsExact | internal/torbox/health.go:62-169 | a successful full scan read up to an empty page and gives each wanted hash the join of its entries, with the ID of the last entry that attains it and the reason that goes with it |
| InventoryProofs.ServedListingIsExact | internal/torbox/health.go:74-169 | over any listing served as contiguous pages of any sizes, a successful full scan gives each wanted hash the join over that listing |
| InventoryProofs.ServedLookupIsExact | internal/torbox/health.go:50-60 | over such a listing a lookup is positive exactly when the join is Available or Unknown, exact when it is not, and names only listed entries |
| InventoryProofs.PagingDoesNotMatter | internal/torbox/health.go:62-169 | two successful scans over the same entries, in any order and paging, agree on every status and on presence |
| InventoryProofs.LookupIsSound | internal/torbox/health.go:50-60 | a lookup that is not positive exhausted the listing and is exact; an ID belongs to a listed entry of exactly the hash |
| InventoryProofs.EarlyExitKeepsTheAnswer | internal/torbox/health.go:148-159 | where the full scan concludes, the lookup with its early exit concludes too, and is positive exactly if the full scan is |
| InventoryProofs.LookupConcludes | internal/torbox/health.go:50-60 | a lookup concludes if and only if there is a key, the hash is one, and some prefix of at most 100 well-formed pages, all but the last with a new identity, ends in an empty page or already lists the hash as present or in progress |
| InventoryProofs.FullScanConcludes | internal/torbox/health.go:62-169 | a full scan concludes if and only if such a prefix ends in an empty page |
| InventoryProofs.LookupMayConcludeAlone | internal/torbox/health.go:148-159 | a listing with a present entry and then a failed page: the lookup concludes, the full scan does not |
| InventoryProofs.DistinctListingIsScanned | internal/torbox/health.go:74-169 | a listing of distinct well-formed entries that is served completely is always scanned successfully |
| TorrentClient.Submit | internal/torbox/torrent_gateway.go:21-82 | what is sent and reported follows from the decision: an error, a deferral without upload, the listed ID without upload, or the upload whose answer alone counts; the upload comes with proven absence, the listed ID with a listed, present or active entry |
| TorrentClient.DecisionIsSound | internal/torbox/torrent_gateway.go:33-45 | an upload is decided only on proven absence, an existing ID only for a listed, present or active entry of the hash |
| TorrentClient.DecisionIsOfTheListing | internal/torbox/torrent_gateway.go:31-41 | over a served listing, for a submittable source whose lookup concludes: a listed entry is taken over exactly if one is present or in progress, a stale one defers, and the upload is decided exactly if no entry has the hash |
| TorrentClient.FindActive | internal/torbox/torrent_gateway.go:133-143 | a positive ID is that of a listed, present or active entry of the hash; zero only after an exhausted listing shows none |
| Bencode.Reader.ReadString | internal/model/torrent_file.go:46-62 | reads the string that starts at the cursor, or fails, and never leaves the buffer; what a string is say Decimals.ReadsPrinted and Grammar.SkipAcceptsExactlyTheGrammar |
| Decimals.NumberUndoesDecimal | internal/model/torrent_file.go:54 | the length of a string is read in decimal |
| Decimals.ReadsPrinted | internal/model/torrent_file.go:46-62 | a string printed as decimal length, colon and bytes is read back, wherever it stands |
| Bencode.Reader.Skip | internal/model/torrent_file.go:63-105 | the recursive cursor stops where the value that starts there ends, or fails, and never leaves the buffer |
| Bencode.Reader.SkipInteger | internal/model/torrent_file.go:85-98 | the integer case, at any permitted depth |
| Grammar.SkipUndoesEncode | internal/model/torrent_file.go:63-105 | at the start of a printed value in any surroundings the reader stops exactly behind it if depth plus nesting is at most 100, and fails otherwise |
| Grammar.HundredLevels | internal/model/torrent_file.go:63-66 | lists nested 100 deep below the outermost are read, 101 are refused |
| Grammar.SkipIsValue | internal/model/torrent_file.go:63-105 | whatever it skips is the print of a value that fits below the limit |
| Grammar.SkipAcceptsExactlyTheGrammar | internal/model/torrent_file.go:63-105 | it stops at a position if and only if a fitting value is printed up to there |
| Grammar.SkipIsLocal | internal/model/torrent_file.go:63-105 | a successful skip depends only on the bytes it consumed, and also succeeds at any lesser depth |
| Grammar.LenientInteger | internal/model/torrent_file.go:85-98 | an integer with a minus sign and leading zeros is accepted |
| Grammar.LenientKeys | internal/model/torrent_file.go:69-84 | a dictionary is accepted whatever the order of its keys, and with equal ones |
| Torrent.TorrentFileInfoHash | internal/model/torrent_file.go:12-39 | hashes the bytes of the span found by the first pass, or refuses |
| Decimals.OnlyPiecesIsSpanned | internal/model/torrent_file.go:12-39 | for every piece string, the span of the file d4:infod6:pieces...ee is what stands between its first seven bytes and its last |
| Decimals.OnlyPiecesIsJudged | internal/model/torrent_file.go:109-151 | and the gateway takes that file exactly if the pieces are a nonempty run of 20-byte digests |
| Decimals.SmallestMetainfo | internal/model/torrent_file.go:12-39 | for instance the 41 bytes with one digest: span 7 to 40, accepted |
| Decimals.HybridIsNamed | internal/model/torrent_file.go:132-134 | a file whose info dictionary starts with a meta version is refused as a hybrid |
| TorrentProofs.InfoSpanOfEntries | internal/model/torrent_file.go:12-39 | a file of well-formed entries has a span if and only if it has exactly one `info` entry and that is a dictionary; the span is exactly its bytes |
| TorrentProofs.InfoSpanIsMetainfo | internal/model/torrent_file.go:12-39 | whatever is hashed is a dictionary of well-formed entries with exactly one info dictionary, without trailing bytes |
| TorrentProofs.OtherEntriesDoNotMatter | internal/model/torrent_file.go:12-39 | inserting, deleting or replacing well-formed entries other than `info` leaves the hashed bytes unchanged |
| Torrent.ValidateGatewayTorrent | internal/model/torrent_file.go:109-151 | the verdict of the second pass |
| TorrentProofs.SecondPassAgrees | internal/model/torrent_file.go:109-151 | after the first pass accepts, the second neither fails structurally nor runs past the end, and accepts exactly the info dictionaries without `meta version`, with `pieces`, all of them nonempty strings of a length divisible by 20 |
| Submissions.AcceptedIsV1 | internal/model/torrent_file.go:109-151 | the two passes together accept exactly the files of well-formed entries with one info dictionary, and that v1 |
| TorrentProofs.GateNeedsAHash | internal/model/torrent_file.go:109-151 | for every input the structural errors and the final missing-info return of the second pass are unreachable |
| Sources.AcceptedIsCanonical | internal/model/torrent.go:34-78 | an accepted source has one payload, its own identity and no trace of another kind |
| Sources.AcceptedIsDescribed | internal/model/torrent.go:34-78 | a submission is accepted exactly if it describes a canonical source, leaving open at most protocol, filename and hash; that source is the result |
| Sources.RecoveryIsAskedFor | internal/model/torrent.go:68-69 | exactly the submissions without a payload, and magnets that are only a valid hash, ask for recovery of the original |
| Sources.CanonicalIsFixed | internal/model/torrent.go:34-78 | exactly the canonical sources pass unchanged, hence the check is idempotent |
| Sources.Check | internal/model/torrent.go:34-112 | run with the scans over metainfo and magnet parameters, it decides as the function whose accepted results are exactly the canonical sources |
| Sources.FindFirstHash | internal/model/torrent.go:93-99 | the identity is the rest, in lower case, of the first parameter that has the prefix; empty if none has it |
| Sources.TopicMeans | internal/model/torrent.go:93-99 | the parameter with the identity is urn:btih: and the hash, in any case |
| Sources.SourceRoundTrip | internal/gateway/service.go:61-70 | reading back a saved source gives the accepted one, except for a blank torrent URL |
| Sources.IdentityIsTheInfoDictionary | internal/model/torrent.go:48-61 | the identity of an accepted torrent file is the hash of its info dictionary's bytes |
| Text.HashIsNormal | internal/model/torrent.go:23-30 | normalising a hash changes nothing the second time |
| Text.HashMeans | internal/model/torrent.go:23-30 | a stored infohash is exactly forty small hexadecimal digits |
| Text.TrimMeans | internal/model/torrent.go:24 | trimming drops blanks at both ends and nothing else |
| ReadProbes.ReadProbe.Check | internal/csi/probe.go:29-48 | expired exactly for an expired caller, path busy exactly for a path being read, busy exactly without a free slot; otherwise one read starts, in one more slot |
| ReadProbes.ReadProbe.FinishRead | internal/csi/probe.go:50-57 | a returning read frees its path and its slot, and never blocks |
| ReadProbes.EventKeepsBound | internal/csi/probe.go:29-64 | no call, timeout or returning read breaks the bound or blocks |
| ReadProbes.ProbeBound | internal/csi/probe.go:29-64 | in every interleaving slots, active paths and unfinished reads agree, never exceed the limit, one per path, and all slots are free when no read is left |

## Left out

- HTTP handlers, qBittorrent, SABnzbd and WebDAV wire formats, dashboard, OIDC, webhooks and configuration loading: plumbing around the modelled calls.
- PostgreSQL itself: each transaction is one atomic action, all actors share one clock in whole seconds, and rows locked by another claim are covered by letting a protocol claim pick any eligible row.
- The refused reservation branch of a claim (`RowsAffected() == 0` on the gate): unreachable once the transaction is atomic.
- A deadline on write-backs: the model lets every worker write at any later time, and Limits.LiveSubmitterKeepsItsRow says what the 55 s window adds.
- The protocol filter of a claim: the program never sets it.
- `last_error`, `updated_at`, `created_at`, sessions, and the `gateway_sources` table, whose payload the job row repeats.
- The hex digests, URL and XML parsing: parameters of `Sources.World`. Failure texts of a download: the Boolean `failed`.
- The rejection of a catalog by `ValidateUsenetFiles` inside the provider calls: it reaches the model as an answer without success.
- Case folding and blanks beyond ASCII in text normalisation.
- The encoding of an upload request, including an NZB upload that fails before it is sent: it counts as sent.
- A decimal length that overflows Go's `int`: it ends in the same error as a length beyond the buffer.
- The recovery waiting table written by a requeue: it belongs to the media lifecycle.
- Release folder sanitising and staging links: a pin takes any nonempty name, and whether links could be made is a parameter. Nothing is claimed about links that survive a cleanup racing a re-add.
- Rows migrated from older versions that are completed without a folder: runs start from an empty database.
- File IDs and order in a catalog may change with a poll: only the name-to-size map is stable.
- Service.VerifyMount: states one uninterrupted pass; interleavings are the subject of `Protocol`.
- ReadProbes.ReadProbe.Check: ends where the read starts; delivery of the result to the caller is not modelled.
- The loops around the passes (`Run`, `RunMountWorker`) and `Ready`: a pass is any sequence of protocol actions, and `Ready` reports the completed state, whose meaning is Completion.CompletedMeansVerified.
- Liveness and fairness: the program promises bounded safety only.
- File health, provider health, retries, pruning and archived recovery: no running worker calls them.
