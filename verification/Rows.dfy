/** One row of gateway_jobs, and each SQL statement as a function of the row it meets. The right-hand
    sides of an UPDATE read the old row; `now` is the time of the transaction, in seconds. */
module Rows {
  import opened Options
  import opened Catalog
  import opened Sources

  type Time = int
  type JobId = nat

  const LEASE := 300
  const MOUNT_LEASE := 60
  const MAX_ATTEMPTS := 3
  const CONFIRMATIONS := 3

  datatype State = Queued | Submitting | Downloading | Mounting | Completed | Missing | Failed | SubmissionUnknown

  datatype Status = Status(providerId: int, found: bool, ready: bool, checkFailed: bool)

  datatype Job = Job(
    id: JobId, source: Saved, category: string, name: string,
    state: State, providerId: int, files: seq<File>, attempts: int, missingChecks: int,
    hidden: bool, cleanup: bool, revision: int, nextCheck: Time, verifyNext: Time,
    folder: string, status: Option<Status>)

  function Min(a: int, b: int): int {
    if a < b then a else b
  }

  function NewRow(id: JobId, source: Saved, category: string, name: string, now: Time): Job {
    Job(id, source, category, name, Queued, 0, [], 0, 0, false, false, 0, now, now, "", None)
  }

  /** The row an insert conflicts with: torrents by infohash, NZBs by category and fingerprint. */
  predicate SameKey(j: Job, source: Saved, category: string) {
    && j.source.torrent == source.torrent
    && if source.torrent then j.source.infoHash == source.infoHash
       else j.category == category && j.source.fingerprint == source.fingerprint
  }

  function Readded(j: Job): Job {
    j.(hidden := false, cleanup := false)
  }

  predicate Settled(s: State) {
    s == Failed || s == SubmissionUnknown || s == Submitting
  }

  function Woken(j: Job, now: Time): Job {
    if Settled(j.state) then j else j.(nextCheck := Min(j.nextCheck, now))
  }

  function Recategorised(j: Job, hash: string, category: string): Job {
    if j.source.infoHash == hash && (j.category == category || (j.state == Queued && j.attempts == 0))
    then j.(category := category) else j
  }

  function HiddenRow(j: Job): Job {
    j.(hidden := true)
  }

  function CleanupRequested(j: Job, now: Time): Job {
    j.(hidden := true, cleanup := true, verifyNext := now)
  }

  predicate Recoverable(j: Job, seen: Job) {
    && j.state == Missing && j.missingChecks >= CONFIRMATIONS && j.attempts < MAX_ATTEMPTS
    && j.providerId == seen.providerId && j.revision == seen.revision && !j.cleanup
  }

  function RecoveryRequested(j: Job, seen: Job, now: Time): Job {
    if Recoverable(j, seen) then j.(nextCheck := Min(j.nextCheck, now)) else j
  }

  /** The two sweeps at the start of a claim: interrupted submissions, then exhausted jobs. */
  function SweptInterrupted(j: Job, now: Time): Job {
    if j.state == Submitting && j.nextCheck < now then j.(state := SubmissionUnknown) else j
  }

  function SweptExhausted(j: Job): Job {
    if j.state == Queued && j.attempts >= MAX_ATTEMPTS then j.(state := Failed) else j
  }

  function Swept(j: Job, now: Time): Job {
    SweptExhausted(SweptInterrupted(j, now))
  }

  predicate Claimable(j: Job, gate: Option<Time>, now: Time) {
    && !Settled(j.state) && j.nextCheck <= now
    && (j.state == Queued ==> gate.None? || gate.value <= now)
  }

  function Leased(j: Job, now: Time): Job {
    j.(nextCheck := now + LEASE)
  }

  function Reserving(j: Job, now: Time): Job {
    j.(state := Submitting, attempts := j.attempts + 1, nextCheck := now + LEASE)
  }

  /** What a mount verification depends on. */
  predicate SamePublication(a: Job, b: Job) {
    a.providerId == b.providerId && a.files == b.files && a.state == b.state
  }

  /** What UpdateGatewayJob means: `j` is the caller's copy, `row` what the statement finds. A status
      belongs to a placement, a verified completion outlives a republication of the same placement and
      files, and the revision moves exactly when the publication does. */
  function Updated(row: Job, j: Job, delay: int, now: Time): Job {
    var verified := row.state == Completed && j.state == Mounting && row.providerId == j.providerId && row.files == j.files;
    var later := row.(providerId := j.providerId, state := if verified then Completed else j.state, files := j.files,
                      missingChecks := j.missingChecks, nextCheck := now + delay, name := j.name);
    later.(status := if later.providerId == row.providerId then row.status else None,
           revision := row.revision + if SamePublication(row, later) then 0 else 1)
  }

  /** The UPDATE itself: every right-hand side reads the old row, each column guarded on its own. */
  function UpdateStatement(row: Job, j: Job, delay: int, now: Time): Job {
    row.(
      status := if row.providerId != j.providerId then None else row.status,
      revision := row.revision +
        if row.providerId != j.providerId || row.files != j.files
          || (row.state != j.state && !(row.state == Completed && j.state == Mounting)) then 1 else 0,
      providerId := j.providerId,
      state := if row.state == Completed && j.state == Mounting && row.providerId == j.providerId && row.files == j.files
               then row.state else j.state,
      files := j.files,
      missingChecks := j.missingChecks,
      nextCheck := now + delay,
      name := j.name)
  }

  /** Its guards fit together: it bumps the revision exactly when it changes placement, files or state, and
      keeps a completion exactly when it republishes what was verified. */
  lemma StatementKeepsPublication(row: Job, j: Job, delay: int, now: Time)
    ensures var later := UpdateStatement(row, j, delay, now);
            && later == Updated(row, j, delay, now)
            && (later.revision == row.revision <==> SamePublication(row, later))
            && row.revision <= later.revision <= row.revision + 1
            && (later.status != row.status ==> later.providerId != row.providerId)
  {
  }

  function Deferred(j: Job, now: Time): Job {
    if j.state == Submitting
    then j.(state := Queued, attempts := if j.attempts - 1 > 0 then j.attempts - 1 else 0, nextCheck := now + LEASE)
    else j
  }

  predicate LookupClaimable(j: Job, now: Time) {
    j.source.torrent && j.state == SubmissionUnknown && j.providerId == 0 && j.nextCheck <= now
  }

  predicate Resolvable(j: Job, seen: Job) {
    j.source.infoHash == seen.source.infoHash && j.source.torrent && j.state == SubmissionUnknown && j.providerId == 0
  }

  function Resolved(j: Job, seen: Job, id: int, now: Time): Job {
    if id > 0 && Resolvable(j, seen)
    then j.(providerId := id, state := Downloading, nextCheck := now, revision := j.revision + 1)
    else j
  }

  predicate MountClaimable(j: Job, now: Time) {
    && (j.state == Mounting || j.cleanup || (j.state == Completed && !j.hidden && j.folder == ""))
    && j.verifyNext <= now
  }

  function MountLeased(j: Job, now: Time): Job {
    j.(verifyNext := now + MOUNT_LEASE)
  }

  predicate Pinnable(j: Job, seen: Job) {
    && j.folder == "" && j.revision == seen.revision && (j.state == Mounting || j.state == Completed) && !j.cleanup
  }

  function Pinned(j: Job, folder: string): Job {
    j.(folder := folder, state := Mounting, revision := j.revision + 1)
  }

  predicate Finishable(j: Job, seen: Job) {
    j.state == Mounting && j.revision == seen.revision && !j.cleanup
  }

  function Finished(j: Job, seen: Job, detail: string): Job {
    if Finishable(j, seen) && detail == "" then j.(state := Completed) else j
  }

  function CleanupFinished(j: Job, seen: Job): Job {
    if j.revision == seen.revision && j.hidden then j.(cleanup := false) else j
  }

  function StatusRecorded(j: Job, seen: Job, status: Status): Job {
    if j.providerId == seen.providerId then j.(status := Some(status)) else j
  }

  function CheckFailureRecorded(j: Job, seen: Job): Job {
    if j.providerId == seen.providerId && j.status.Some?
    then j.(status := Some(j.status.value.(checkFailed := true))) else j
  }

  /** A job that the provider has been given and that is being watched. */
  predicate Watched(s: State) {
    s == Downloading || s == Mounting || s == Completed || s == Missing
  }
}
