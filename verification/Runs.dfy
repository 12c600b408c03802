/** Properties of whole runs with any number of workers, verifiers, crashes and stale writes. */
module Runs {
  import opened Catalog
  import opened Sources
  import opened Rows
  import opened Columns
  import opened Store
  import opened Protocol
  import opened Safety

  ghost predicate SamePlacement(a: Job, b: Job) {
    a.providerId == b.providerId && a.files == b.files && a.folder == b.folder
  }

  /** No ABA: revisions never decrease, and between two moments of equal revision neither the
      placement, the catalog nor the folder ever changed. */
  lemma RevisionHasNoAba(r: Run, i: nat, k: nat, m: nat, id: JobId)
    requires IsRun(r) && i <= k <= m < |r.states| && id in r.states[i].db.jobs
    ensures id in r.states[k].db.jobs && id in r.states[m].db.jobs
    ensures r.states[i].db.jobs[id].revision <= r.states[k].db.jobs[id].revision <= r.states[m].db.jobs[id].revision
    ensures r.states[i].db.jobs[id].revision == r.states[m].db.jobs[id].revision ==>
              SamePlacement(r.states[i].db.jobs[id], r.states[k].db.jobs[id])
  {
    RunEvolves(r);
    EvolvingIsFenced(r.states, i, k, id);
    EvolvingIsFenced(r.states, k, m, id);
  }

  /** Whatever completes is exactly the placement and catalog whose mount read succeeded, in a pinned folder. */
  lemma CompletionIsOfItsSnapshot(r: Run, i: nat, v: Id)
    requires IsRun(r) && i < |r.states| && VerifierAt(r.states[i], v) && r.states[i].verifiers[v].MountRead?
    ensures var s := r.states[i];
            var seen := s.verifiers[v].job;
            var row := s.db.jobs[seen.id];
            Finished(row, seen, "") != row ==>
              && SamePlacement(row, seen) && row.folder != ""
              && Read(row.providerId, Sizes(row.files)) in Reads(s, row.id)
  {
    RunKeepsInv(r, i);
    assert VerifierSound(r.states[i], r.states[i].verifiers[v]);
  }

  /** A recorded status is about the current placement, and a watched job has one. */
  lemma TelemetryIsCurrent(r: Run, i: nat, id: JobId)
    requires IsRun(r) && i < |r.states| && id in r.states[i].db.jobs
    ensures var row := r.states[i].db.jobs[id];
            && (row.status.Some? ==> row.status.value.providerId == row.providerId > 0)
            && (Watched(row.state) ==> row.providerId > 0)
            && Valid(row.files)
  {
    RunKeepsInv(r, i);
  }

  /** Once a job is added, its source can be read back in every later state, and is the one accepted
      first, whatever is re-added under its key. */
  lemma SourceIsForever(w: World, m: Metadata, r: Run, i: nat, k: nat, id: JobId, category: string, name: string)
    requires ValidateSource(w, m).Checked?
    requires IsRun(r) && i < |r.actions| && i < k < |r.states|
    requires r.actions[i] == Add(id, SavedOf(w, ValidateSource(w, m).source), category, name)
    ensures id in r.states[k].db.jobs
    ensures ValidateSource(w, Stored(r.states[k].db.jobs[id].source)) ==
            Checked(ValidateSource(w, m).source.(torrentUrl := ""))
  {
    assert r.states[i + 1] == Apply(r.states[i], r.actions[i]);
    RunEvolves(r);
    EvolvingIsFenced(r.states, i + 1, k, id);
    SourceRoundTrip(w, m);
  }

  /** Only what is shown and when the job is next looked at may differ: no settled job is looked at
      sooner, and only a job that was never submitted changes its category. */
  ghost predicate DecidesNothing(j: Job, later: Job) {
    && later == j.(category := later.category, hidden := later.hidden, cleanup := later.cleanup,
                   nextCheck := later.nextCheck, verifyNext := later.verifyNext)
    && later.nextCheck <= j.nextCheck
    && (Settled(j.state) ==> later.nextCheck == j.nextCheck)
    && (later.category != j.category ==> j.state == Queued && j.attempts == 0)
  }

  lemma AskedDecidesNothing(j: Job, request: Request, now: Time)
    ensures DecidesNothing(j, Asked(j, request, now))
  {
  }

  /** However many requests come in a row, they change neither state, attempts, placement, catalog nor
      revision of any job, what a worker or verifier is doing, the gate or the history. */
  lemma {:induction false} RequestsDecideNothing(r: Run, i: nat, k: nat)
    requires IsRun(r) && i <= k < |r.states| && forall m :: i <= m < k ==> r.actions[m].Ask?
    ensures var s, s' := r.states[i], r.states[k];
            && s' == s.(db := s.db.(jobs := s'.db.jobs)) && s'.db.jobs.Keys == s.db.jobs.Keys
            && forall id :: id in s.db.jobs ==> DecidesNothing(s.db.jobs[id], s'.db.jobs[id])
    decreases k - i
  {
    if i < k {
      RequestsDecideNothing(r, i, k - 1);
      AskDecidesNothing(r.states[i], r.states[k - 1], r.actions[k - 1]);
    }
  }

  lemma AskDecidesNothing(first: System, s: System, a: Action)
    requires Enabled(s, a) && a.Ask? && first.db.jobs.Keys == s.db.jobs.Keys
    requires forall id :: id in first.db.jobs ==> DecidesNothing(first.db.jobs[id], s.db.jobs[id])
    ensures var s' := Apply(s, a);
            && s' == s.(db := s.db.(jobs := s'.db.jobs)) && s'.db.jobs.Keys == s.db.jobs.Keys
            && forall id :: id in first.db.jobs ==> DecidesNothing(first.db.jobs[id], s'.db.jobs[id])
  {
    forall id | id in first.db.jobs ensures DecidesNothing(first.db.jobs[id], Apply(s, a).db.jobs[id]) {
      AskedDecidesNothing(s.db.jobs[id], a.request, s.now);
    }
  }

  lemma WorkKeepsCategory(pc: Worker, step: WorkStep, row: Job, now: Time)
    requires WorkReady(pc, step)
    ensures WorkRow(pc, step, row, now).category == row.category
  {
  }

  lemma VerifyKeepsCategory(pc: Verifier, step: VerifyStep, row: Job)
    requires VerifyReady(pc, step, row)
    ensures VerifyRow(pc, step, row).category == row.category
  {
  }

  lemma ClaimKeepsCategory(s: System, w: Id, pick: JobId, interval: int, id: JobId)
    requires Pickable(s.db, s.now, pick) && id in s.db.jobs
    ensures Row(ApplyClaim(s, w, pick, interval), id).category == Row(s, id).category
  {
  }

  lemma ActionKeepsCategory(s: System, a: Action, id: JobId)
    requires Enabled(s, a) && id in s.db.jobs && (a.Ask? ==> !a.request.SetCategory?)
    ensures id in Apply(s, a).db.jobs && Row(Apply(s, a), id).category == Row(s, id).category
  {
    match a
    case Claim(w, pick, interval) => ClaimKeepsCategory(s, w, pick, interval, id);
    case Work(w, step) => WorkKeepsCategory(s.workers[w], step, Row(s, s.workers[w].job.id), s.now);
    case Verify(v, step) => VerifyKeepsCategory(s.verifiers[v], step, Row(s, s.verifiers[v].job.id));
    case _ =>
  }

  lemma OnlyAddAdds(s: System, a: Action)
    requires Enabled(s, a) && !a.Add?
    ensures Apply(s, a).db.jobs.Keys == s.db.jobs.Keys
  {
  }

  lemma ActionKeepsIndexes(s: System, a: Action)
    requires Inv(s) && Enabled(s, a) && UniqueKeys(s.db.jobs)
    ensures UniqueKeys(Apply(s, a).db.jobs)
  {
    var s' := Apply(s, a);
    if !a.Add? && !(a.Ask? && a.request.SetCategory?) {
      ActionEvolvesRows(s, a);
      OnlyAddAdds(s, a);
      forall id | id in s.db.jobs ensures s'.db.jobs[id].category == s.db.jobs[id].category {
        ActionKeepsCategory(s, a, id);
      }
      KeysKept(s.db.jobs, s'.db.jobs);
    }
  }

  /** The same torrent, or the same NZB in the same category. */
  ghost predicate OneRelease(a: Job, b: Job) {
    || (a.source.torrent && b.source.torrent && a.source.infoHash == b.source.infoHash)
    || (!a.source.torrent && !b.source.torrent && a.category == b.category && a.source.fingerprint == b.source.fingerprint)
  }

  lemma UniqueMeansOneRelease(jobs: map<JobId, Job>)
    ensures UniqueKeys(jobs) ==> forall a, b :: a in jobs && b in jobs ==> OneRelease(jobs[a], jobs[b]) ==> a == b
  {
    forall a, b | a in jobs && b in jobs && OneRelease(jobs[a], jobs[b])
      ensures SameKey(jobs[a], jobs[b].source, jobs[b].category)
    {
      KeyMeans(jobs[a], jobs[b].source, jobs[b].category);
    }
  }

  /** However submissions, category changes and everything else interleave, a release has one row: the
      upload bounds of a row are bounds for the release. */
  lemma {:induction false} OneRowPerRelease(r: Run, i: nat)
    requires IsRun(r) && i < |r.states|
    ensures UniqueKeys(r.states[i].db.jobs)
    ensures forall a, b :: a in r.states[i].db.jobs && b in r.states[i].db.jobs ==>
              OneRelease(r.states[i].db.jobs[a], r.states[i].db.jobs[b]) ==> a == b
  {
    UniqueMeansOneRelease(r.states[i].db.jobs);
    if i > 0 {
      OneRowPerRelease(r, i - 1);
      RunKeepsInv(r, i - 1);
      ActionKeepsIndexes(r.states[i - 1], r.actions[i - 1]);
    }
  }
}
