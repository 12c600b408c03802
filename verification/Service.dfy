/** The gateway service: what it writes once the provider or the mount has answered. Each method is one
    uninterrupted pass; how passes interleave is the subject of Protocol. */
module Service {
  import opened Catalog
  import opened Options
  import opened Rows
  import opened Columns
  import opened Polling
  import opened Store
  import opened Sources
  import opened Inventory
  import opened Protocol
  import TorrentClient

  function StepOf(outcome: TorrentClient.Submission, posted: bool, poll: int): WorkStep {
    match outcome
    case NotStarted => Defer
    case Errored => Lose(poll)
    case Placed(id) => if posted then Accept(id, poll) else Adopt(id, poll)
  }

  /** Writes back what became of a submission: the worker step that belongs to the outcome. */
  method RecordSubmission(repo: Repo, claimed: Job, outcome: TorrentClient.Submission, posted: bool, poll: int, now: Time,
                          ghost pc: Worker)
    requires repo.Valid() && claimed.id in repo.jobs
    requires !pc.Idle? && pc.job == claimed && WorkReady(pc, StepOf(outcome, posted, poll))
    modifies repo
    ensures repo.Valid() && repo.gate == old(repo.gate)
    ensures repo.jobs == old(repo.jobs)[claimed.id :=
              WorkRow(pc, StepOf(outcome, posted, poll), old(repo.jobs)[claimed.id], now)]
  {
    var j := claimed;
    if outcome.NotStarted? {
      repo.DeferGatewaySubmission(j.id, now);
      return;
    }
    if outcome.Errored? {
      j := j.(state := SubmissionUnknown);
    } else {
      j := j.(providerId := outcome.id, state := Downloading, missingChecks := 0);
    }
    repo.UpdateGatewayJob(j, poll, now);
  }

  /** Sends a claimed submission, if its preflight lets it. For an NZB there is no preflight. */
  method Submit(w: World, key: string, claimed: Job, serve: Provider, answer: TorrentClient.Answer)
    returns (outcome: TorrentClient.Submission, posted: bool)
    ensures outcome.Placed? ==> outcome.id > 0
    ensures (outcome, posted) ==
            if !claimed.source.torrent then (TorrentClient.Answered(answer), true)
            else
              match TorrentClient.Decision(w, key, Stored(claimed.source), serve)
              case Unfit => (TorrentClient.Errored, false)
              case Deferral => (TorrentClient.NotStarted, false)
              case Existing(id) => (TorrentClient.Placed(id), false)
              case Upload => (TorrentClient.Answered(answer), true)
  {
    if !claimed.source.torrent {
      outcome := if answer.Answer? && answer.torrentId > 0 then TorrentClient.Placed(answer.torrentId) else TorrentClient.Errored;
      return outcome, true;
    }
    var source := Check(w, Stored(claimed.source));
    if !source.Checked? {
      return TorrentClient.Errored, false;
    }
    TorrentClient.DecisionIsStable(w, key, Stored(claimed.source), serve);
    outcome, posted := TorrentClient.Submit(w, key, source.source, serve, answer);
  }

  /** Where the worker stands when it writes back. */
  function Standing(claimed: Job, posted: bool, at: Time): Worker {
    if posted then Posted(claimed, at) else Reserved(claimed, at)
  }

  /** The submission half of Reconcile takes a step that is open to a worker with this claim: after the
      upload if it was sent, and it was sent only if the preflight said so. */
  method ReconcileSubmission(repo: Repo, w: World, key: string, claimed: Job, serve: Provider, answer: TorrentClient.Answer,
                             poll: int, now: Time)
    returns (outcome: TorrentClient.Submission, posted: bool)
    requires repo.Valid() && claimed.id in repo.jobs
    modifies repo
    ensures repo.Valid() && repo.gate == old(repo.gate)
    ensures WorkReady(Standing(claimed, posted, now), StepOf(outcome, posted, poll))
    ensures repo.jobs == old(repo.jobs)[claimed.id :=
              WorkRow(Standing(claimed, posted, now), StepOf(outcome, posted, poll), old(repo.jobs)[claimed.id], now)]
    ensures claimed.source.torrent ==>
              var decision := TorrentClient.Decision(w, key, Stored(claimed.source), serve);
              && (posted <==> decision.Upload?) && (outcome.NotStarted? <==> decision.Deferral?)
              && (decision.Existing? ==> outcome == TorrentClient.Placed(decision.id))
    ensures var row := repo.jobs[claimed.id];
            && (outcome.Placed? ==>
                  row.state == Downloading && row.providerId == outcome.id && row.missingChecks == 0 && row.nextCheck == now + poll)
            && (outcome.Errored? ==> row.state == SubmissionUnknown && row.providerId == claimed.providerId && row.nextCheck == now + poll)
            && (outcome.NotStarted? && old(repo.jobs)[claimed.id].state == Submitting ==>
                  row.state == Queued && row.nextCheck == now + 300)
  {
    outcome, posted := Submit(w, key, claimed, serve, answer);
    RecordSubmission(repo, claimed, outcome, posted, poll, now, Standing(claimed, posted, now));
  }

  /** The lookup half of Reconcile: an unknown torrent without a placement is resolved exactly if a lookup
      concludes that it is listed as present or in progress; otherwise it is only leased. */
  method ReconcileUnknown(repo: Repo, key: string, serve: Provider, now: Time) returns (claimed: Option<Job>, id: int)
    requires repo.Valid()
    modifies repo
    ensures repo.Valid() && repo.gate == old(repo.gate)
    ensures claimed.None? ==> repo.jobs == old(repo.jobs)
    ensures claimed.Some? ==> id == TorrentClient.ActiveId(key, claimed.value.source.infoHash, serve)
    ensures claimed.Some? ==>
              var j := claimed.value;
              && j.id in old(repo.jobs) && j == old(repo.jobs)[j.id] && LookupClaimable(j, now)
              && repo.jobs == old(repo.jobs)[j.id :=
                   if id > 0 then j.(providerId := id, state := Downloading, nextCheck := now, revision := j.revision + 1)
                   else j.(nextCheck := now + 300)]
  {
    id := 0;
    claimed := repo.ClaimUnknownGatewayTorrent(now);
    if claimed.Some? {
      LeaseMeans(claimed.value, now);
      id := FindActive(key, claimed.value.source.infoHash, serve);
      var resolved := ResolveFound(repo, claimed.value, id, now);
    }
  }

  method FindActive(key: string, hash: string, serve: Provider) returns (id: int)
    ensures id == TorrentClient.ActiveId(key, hash, serve)
  {
    var found := TorrentClient.FindActive(key, hash, serve);
    return if found.Placed? then found.id else 0;
  }

  method ResolveFound(repo: Repo, j: Job, id: int, now: Time) returns (resolved: bool)
    requires repo.Valid() && LookupClaimable(j, now) && j.id in repo.jobs && repo.jobs[j.id] == Leased(j, now)
    modifies repo
    ensures repo.Valid() && repo.gate == old(repo.gate)
    ensures resolved <==> id > 0
    ensures resolved ==>
              repo.jobs == old(repo.jobs)[j.id := j.(providerId := id, state := Downloading, nextCheck := now, revision := j.revision + 1)]
    ensures !resolved ==> repo.jobs == old(repo.jobs)
  {
    if id <= 0 {
      return false;
    }
    ResolveMeans(repo.jobs[j.id], j, id, now);
    resolved := repo.ResolveUnknownGatewayTorrent(j, id, now);
  }

  /** The poll half of Reconcile takes the two worker steps of a poll. */
  method RecordAnswer(repo: Repo, claimed: Job, answer: Answer, config: Config, now: Time)
    requires repo.Valid() && claimed.id in repo.jobs
    modifies repo
    ensures repo.Valid() && repo.gate == old(repo.gate)
    ensures repo.jobs == old(repo.jobs)[claimed.id := Polled(old(repo.jobs)[claimed.id], claimed, answer, config, now)]
    ensures var row, write := old(repo.jobs)[claimed.id], PollOutcome(claimed, answer, config);
            var told := if answer.CheckError? then CheckFailureRecorded(row, claimed)
                        else StatusRecorded(row, claimed, StatusOf(claimed, answer));
            repo.jobs[claimed.id] == if write.Write? then Updated(told, write.job, write.delay, now) else told
  {
    if answer.CheckError? {
      repo.RecordProviderCheckFailure(claimed);
    } else {
      repo.RecordProviderStatus(claimed, StatusOf(claimed, answer));
    }
    ghost var told := WorkRow(Polling(claimed), Reply(answer), old(repo.jobs)[claimed.id], now);
    assert repo.jobs == old(repo.jobs)[claimed.id := told];
    var write := Poll(claimed, answer, config);
    if write.Write? {
      assert write.job.id == claimed.id;
      repo.UpdateGatewayJob(write.job, write.delay, now);
      assert repo.jobs == old(repo.jobs)[claimed.id := Updated(told, write.job, write.delay, now)];
    }
  }

  predicate ValidFolder(name: string) {
    name !in {"", ".", ".."} && '/' !in name && '\\' !in name && '\0' !in name
  }

  /** A folder is one proper part of a path, without backslash and NUL. */
  lemma ValidFolderMeans(name: string)
    ensures ValidFolder(name) <==> Parts(name) == [name] && ProperPart(name) && '\\' !in name && '\0' !in name
  {
    if '/' !in name {
      OnePart(name);
    } else {
      assert '/' !in Parts(name)[0];
    }
  }

  lemma {:induction false} OnePart(name: string)
    requires '/' !in name
    ensures Parts(name) == [name]
  {
    if name != "" {
      OnePart(name[1..]);
      assert [name[0]] + name[1..] == name;
    }
  }

  /** The snapshot that is verified: pinned first if it has no folder yet. */
  function Snapshotted(row: Job, seen: Job, folder: string): Job {
    if seen.folder == "" then Pinned(row, folder) else seen
  }

  /** What has to be true for a verification that nothing interrupts to complete the job. */
  ghost predicate Verifiable(row: Job, seen: Job, folder: string, linked: bool, readable: bool) {
    var snapshot := Snapshotted(row, seen, folder);
    && (if seen.folder == "" then Pinnable(row, seen) else Finishable(row, seen))
    && ValidFolder(snapshot.folder)
    && (snapshot.hidden || linked)
    && HasPayload(snapshot.files) && readable
  }

  /** `linked`: the staging links could be made; `readable`: the probe read of the candidate succeeded. */
  method VerifyMount(repo: Repo, seen: Job, folder: string, linked: bool, readable: bool) returns (completed: bool)
    requires repo.Valid() && seen.id in repo.jobs
    modifies repo
    ensures repo.Valid() && repo.gate == old(repo.gate)
    ensures completed <==> Verifiable(old(repo.jobs)[seen.id], seen, folder, linked, readable)
    ensures var row := old(repo.jobs)[seen.id];
            var pinned := if seen.folder == "" && Pinnable(row, seen) then Pinned(row, folder) else row;
            repo.jobs == old(repo.jobs)[seen.id := if completed then pinned.(state := Completed) else pinned]
  {
    var j := seen;
    if j.folder == "" {
      var pinned := repo.PinGatewayReleaseFolder(j, folder);
      if pinned.None? {
        return false;
      }
      j := pinned.value;
    }
    completed := VerifyPinned(repo, j, linked, readable);
  }

  method VerifyPinned(repo: Repo, j: Job, linked: bool, readable: bool) returns (completed: bool)
    requires repo.Valid() && j.id in repo.jobs
    modifies repo
    ensures repo.Valid() && repo.gate == old(repo.gate)
    ensures completed <==> Finishable(old(repo.jobs)[j.id], j) && ValidFolder(j.folder) && (j.hidden || linked)
                           && HasPayload(j.files) && readable
    ensures var row := old(repo.jobs)[j.id];
            repo.jobs == old(repo.jobs)[j.id := if completed then row.(state := Completed) else row]
  {
    if !ValidFolder(j.folder) {
      return false;
    }
    if !j.hidden && !linked {
      completed := repo.FinishGatewayMount(j, "links cannot be made");
      return;
    }
    var candidate := Candidate(j.files);
    if candidate == "" {
      completed := repo.FinishGatewayMount(j, "waiting for a nonempty cloud payload file");
      return;
    }
    if !readable {
      completed := repo.FinishGatewayMount(j, "waiting for cloud WebDAV mount visibility/readability");
      return;
    }
    completed := repo.FinishGatewayMount(j, "");
  }

  /** One pass of a mount worker: a requested cleanup is finished once the links are removed (`removed`),
      anything else is verified. */
  method ReconcileMount(repo: Repo, folder: string, linked: bool, readable: bool, removed: bool, now: Time)
    returns (claimed: Option<Job>, completed: bool)
    requires repo.Valid()
    modifies repo
    ensures repo.Valid() && repo.gate == old(repo.gate)
    ensures claimed.None? ==> repo.jobs == old(repo.jobs) && !completed
    ensures claimed.Some? ==>
              var j := claimed.value;
              var leased := MountLeased(j, now);
              && j.id in old(repo.jobs) && j == old(repo.jobs)[j.id] && MountClaimable(j, now)
              && (j.cleanup ==> !completed && repo.jobs == old(repo.jobs)[j.id := if removed then CleanupFinished(leased, j) else leased])
              && (!j.cleanup ==> (completed <==> Verifiable(leased, j, folder, linked, readable)))
  {
    claimed := repo.ClaimGatewayMount(now);
    if claimed.None? {
      return claimed, false;
    }
    var j := claimed.value;
    if j.cleanup {
      if removed {
        repo.FinishGatewayCleanup(j);
      }
      return claimed, false;
    }
    completed := VerifyMount(repo, j, folder, linked, readable);
  }
}
