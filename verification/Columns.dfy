/** Each statement on gateway_jobs, column by column: which rows it changes, into what, and nothing else. */
module Columns {
  import opened Options
  import opened Sources
  import opened Rows

  // ---- Claims ----

  /** A new job is due at once, for upload and for verification, and nothing has happened to it. */
  lemma NewRowMeans(id: JobId, source: Saved, category: string, name: string, now: Time)
    ensures var j := NewRow(id, source, category, name, now);
            && j.id == id && j.source == source && j.category == category && j.name == name
            && j.state == Queued && j.attempts == 0 && j.missingChecks == 0 && j.nextCheck == now && j.verifyNext == now
            && j.providerId == 0 && j.files == [] && j.folder == "" && j.status == None && j.revision == 0
            && !j.hidden && !j.cleanup
  {
  }

  /** The sweeps: an overdue submission becomes unknown, a queued job without an attempt left fails. */
  lemma SweepMeans(j: Job, now: Time)
    ensures j.state == Submitting && j.nextCheck < now ==> Swept(j, now) == j.(state := SubmissionUnknown)
    ensures j.state == Queued && j.attempts >= 3 ==> Swept(j, now) == j.(state := Failed)
    ensures !(j.state == Submitting && j.nextCheck < now) && !(j.state == Queued && j.attempts >= 3) ==> Swept(j, now) == j
  {
  }

  /** What may be claimed: a due row that is neither final nor being submitted, a queued one while the gate is open. */
  lemma ClaimableMeans(j: Job, gate: Option<Time>, now: Time)
    ensures Claimable(j, gate, now) <==>
            && j.state !in {Failed, SubmissionUnknown, Submitting} && j.nextCheck <= now
            && (j.state == Queued ==> gate == None || gate.value <= now)
  {
  }

  /** A lease of five minutes, with one more attempt spent by a submission. */
  lemma LeaseMeans(j: Job, now: Time)
    ensures Leased(j, now) == j.(nextCheck := now + 300)
    ensures Reserving(j, now) == j.(state := Submitting, attempts := j.attempts + 1, nextCheck := now + 300)
  {
  }

  /** A deferral undoes the reservation it belongs to, and looks again in five minutes. */
  lemma DeferralRefunds(j: Job, reserved: Time, deferred: Time)
    requires j.state == Queued && j.attempts >= 0
    ensures Deferred(Reserving(j, reserved), deferred) == j.(nextCheck := deferred + 300)
  {
  }

  lemma DeferralSparesOthers(j: Job, now: Time)
    requires j.state != Submitting
    ensures Deferred(j, now) == j
  {
  }

  // ---- Unknown submissions ----

  lemma LookupMeans(j: Job, now: Time)
    ensures LookupClaimable(j, now) <==>
            j.source.torrent && j.state == SubmissionUnknown && j.providerId == 0 && j.nextCheck <= now
  {
  }

  /** A match is watched from now on, under a new revision; anything else leaves the row alone. */
  lemma ResolveMeans(j: Job, seen: Job, id: int, now: Time)
    ensures id > 0 && j.source.torrent && j.source.infoHash == seen.source.infoHash && j.state == SubmissionUnknown && j.providerId == 0 ==>
              Resolved(j, seen, id, now) == j.(providerId := id, state := Downloading, nextCheck := now, revision := j.revision + 1)
    ensures !(id > 0 && j.source.torrent && j.source.infoHash == seen.source.infoHash && j.state == SubmissionUnknown && j.providerId == 0) ==>
              Resolved(j, seen, id, now) == j
  {
  }

  // ---- Write-backs ----

  /** A write-back takes everything from the copy but for a completion that it republishes. */
  lemma UpdateMeans(row: Job, j: Job, delay: int, now: Time)
    ensures var later := Updated(row, j, delay, now);
            && later.providerId == j.providerId && later.files == j.files && later.missingChecks == j.missingChecks
            && later.name == j.name && later.nextCheck == now + delay
            && (later.state == j.state || (row.state == Completed && later.state == Completed && j.state == Mounting))
            && later == row.(providerId := later.providerId, files := later.files, missingChecks := later.missingChecks,
                             name := later.name, nextCheck := later.nextCheck, state := later.state,
                             status := later.status, revision := later.revision)
  {
  }

  /** A status is recorded for the placement it was asked about, and only there. */
  lemma StatusColumn(j: Job, seen: Job, status: Status)
    ensures j.providerId == seen.providerId ==> StatusRecorded(j, seen, status) == j.(status := Some(status))
    ensures j.providerId != seen.providerId ==> StatusRecorded(j, seen, status) == j && CheckFailureRecorded(j, seen) == j
    ensures j.status == None ==> CheckFailureRecorded(j, seen) == j
    ensures j.status.Some? && j.providerId == seen.providerId ==>
              var s := j.status.value;
              CheckFailureRecorded(j, seen) == j.(status := Some(Status(s.providerId, s.found, s.ready, true)))
  {
  }

  // ---- Mounts ----

  /** What a verifier may claim: a mounting row, a requested cleanup, or a visible completion without a folder. */
  lemma MountClaimMeans(j: Job, now: Time)
    ensures MountClaimable(j, now) <==>
            j.verifyNext <= now && (j.state == Mounting || j.cleanup || (j.state == Completed && !j.hidden && j.folder == ""))
    ensures MountLeased(j, now) == j.(verifyNext := now + 60)
  {
  }

  /** A folder is pinned once, on a published row at the snapshot's revision that nobody wants to clean up. */
  lemma PinMeans(j: Job, seen: Job, folder: string)
    ensures Pinnable(j, seen) <==>
            j.folder == "" && j.revision == seen.revision && j.state in {Mounting, Completed} && !j.cleanup
    ensures Pinned(j, folder) == j.(folder := folder, state := Mounting, revision := j.revision + 1)
  {
  }

  /** A verification completes a mounting row at the snapshot's revision, but not one that is to be cleaned up. */
  lemma FinishMeans(j: Job, seen: Job, detail: string)
    ensures detail == "" && j.state == Mounting && j.revision == seen.revision && !j.cleanup ==>
              Finished(j, seen, detail) == j.(state := Completed)
    ensures detail != "" || j.state != Mounting || j.revision != seen.revision || j.cleanup ==>
              Finished(j, seen, detail) == j
  {
  }

  /** A cleanup ends at the snapshot's revision, unless the job has been shown again. */
  lemma CleanupMeans(j: Job, seen: Job)
    ensures j.hidden && j.revision == seen.revision ==> CleanupFinished(j, seen) == j.(cleanup := false)
    ensures !j.hidden || j.revision != seen.revision ==> CleanupFinished(j, seen) == j
  {
  }

  // ---- Requests ----

  /** A woken job can be claimed at once, but for a closed gate; a settled one stays as it is. */
  lemma WakeMeans(j: Job, gate: Option<Time>, now: Time)
    ensures j.state in {Failed, SubmissionUnknown, Submitting} ==> Woken(j, now) == j
    ensures j.state !in {Failed, SubmissionUnknown, Submitting} ==>
              && Woken(j, now) == j.(nextCheck := if now < j.nextCheck then now else j.nextCheck)
              && (j.state != Queued || gate == None || gate.value <= now ==> Claimable(Woken(j, now), gate, now))
  {
  }

  /** A confirmed loss can be claimed at once after a recovery request that has seen it; nothing else changes. */
  lemma RecoveryMeans(j: Job, seen: Job, gate: Option<Time>, now: Time)
    ensures var confirmed := && j.state == Missing && j.missingChecks >= 3 && j.attempts < 3 && !j.cleanup
                             && j.providerId == seen.providerId && j.revision == seen.revision;
            && (Recoverable(j, seen) <==> confirmed)
            && (!confirmed ==> RecoveryRequested(j, seen, now) == j)
            && (confirmed ==>
                  && RecoveryRequested(j, seen, now) == j.(nextCheck := if now < j.nextCheck then now else j.nextCheck)
                  && Claimable(RecoveryRequested(j, seen, now), gate, now))
  {
  }

  /** A job that was hidden, or is to be cleaned up, is as visible as before once it is added again. */
  lemma ReaddShowsAgain(j: Job, now: Time)
    requires !j.hidden && !j.cleanup
    ensures HiddenRow(j) == j.(hidden := true) && Readded(HiddenRow(j)) == j
    ensures Readded(CleanupRequested(j, now)) == j.(verifyNext := now)
    ensures Readded(j) == j
  {
  }

  /** A cleanup request hides the job, is due at once, and lets no verification pin or complete it. */
  lemma CleanupBlocksCompletion(j: Job, seen: Job, now: Time)
    ensures var k := CleanupRequested(j, now);
            && k == j.(hidden := true, cleanup := true, verifyNext := now)
            && MountClaimable(k, now) && !Pinnable(k, seen) && Finished(k, seen, "") == k
  {
  }

  /** A category is given to the job of the hash, and only before its first submission. */
  lemma CategoryMeans(j: Job, hash: string, category: string)
    ensures j.source.infoHash != hash ==> Recategorised(j, hash, category) == j
    ensures j.source.infoHash == hash && j.state == Queued && j.attempts == 0 ==>
              Recategorised(j, hash, category) == j.(category := category)
    ensures j.state != Queued || j.attempts != 0 ==> Recategorised(j, hash, category) == j
  {
  }

  /** An insert meets the job of the same torrent, or of the same NZB in the same category. */
  lemma KeyMeans(j: Job, source: Saved, category: string)
    ensures j.source.torrent && source.torrent ==> (SameKey(j, source, category) <==> j.source.infoHash == source.infoHash)
    ensures !j.source.torrent && !source.torrent ==>
              (SameKey(j, source, category) <==> j.category == category && j.source.fingerprint == source.fingerprint)
    ensures j.source.torrent != source.torrent ==> !SameKey(j, source, category)
  {
  }
}
