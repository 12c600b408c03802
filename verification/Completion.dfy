/** Completed means verified, for any number of workers, verifiers, crashes and stale writes. */
module Completion {
  import opened Catalog
  import opened Rows
  import opened Polling
  import opened Store
  import opened Protocol
  import opened Safety

  /** The folder is pinned, and a mount read succeeded for this placement with this catalog. */
  ghost predicate Verified(j: Job, mountReads: set<Read>) {
    j.folder != "" && Read(j.providerId, Sizes(j.files)) in mountReads
  }

  ghost predicate RowHolds(row: Job, mountReads: set<Read>) {
    && (row.state == Completed ==> Verified(row, mountReads))
    && (forall read :: read in mountReads ==> read.sizes != map[])
  }

  /** A copy that claims completion was verified, and its folder, once pinned, is still the row's. */
  ghost predicate CopyHolds(copy: Job, row: Job, mountReads: set<Read>) {
    && (copy.state == Completed ==> Verified(copy, mountReads))
    && (copy.folder != "" ==> row.folder == copy.folder)
  }

  ghost predicate WorkerHolds(s: System, w: Id, id: JobId)
    requires id in s.db.jobs && w in s.workers
  {
    s.workers[w].Idle? || s.workers[w].job.id != id || CopyHolds(s.workers[w].job, Row(s, id), Reads(s, id))
  }

  ghost predicate Holds(s: System, id: JobId) {
    if id in s.db.jobs
    then RowHolds(Row(s, id), Reads(s, id)) && forall w :: w in s.workers ==> WorkerHolds(s, w, id)
    else Reads(s, id) == {}
  }

  // ---- Rows ----

  /** A write-back leaves a row completed only for the placement and catalog it was verified with. */
  lemma UpdateKeepsVerified(row: Job, copy: Job, write: Job, delay: int, now: Time, mountReads: set<Read>)
    requires RowHolds(row, mountReads) && CopyHolds(copy, row, mountReads)
    requires write.state == Completed ==>
               && copy.state == Completed && write.providerId == copy.providerId
               && (copy.files != [] ==> Sizes(write.files) == Sizes(copy.files))
    ensures RowHolds(Updated(row, write, delay, now), mountReads)
  {
    assert Sizes([]) == map[];
  }

  lemma PollCompletesNothing(copy: Job, answer: Answer, c: Config)
    requires PollOutcome(copy, answer, c).Write? && PollOutcome(copy, answer, c).job.state == Completed
    ensures copy.state == Completed && PollOutcome(copy, answer, c).job.providerId == copy.providerId
  {
  }

  lemma WorkKeepsRow(pc: Worker, step: WorkStep, row: Job, now: Time, mountReads: set<Read>)
    requires WorkReady(pc, step) && CopySound(pc.job)
    requires RowHolds(row, mountReads) && CopyHolds(pc.job, row, mountReads)
    ensures RowHolds(WorkRow(pc, step, row, now), mountReads)
  {
    match step
    case Adopt(p, delay) => UpdateKeepsVerified(row, pc.job, Obtained(pc.job, p), delay, now, mountReads);
    case Accept(p, delay) => UpdateKeepsVerified(row, pc.job, Obtained(pc.job, p), delay, now, mountReads);
    case Lose(delay) => UpdateKeepsVerified(row, pc.job, pc.job.(state := SubmissionUnknown), delay, now, mountReads);
    case RecordPoll(c) =>
      var write := PollOutcome(pc.job, pc.answer, c);
      PollKeepsCatalog(pc.job, pc.answer, c);
      if write.job.state == Completed {
        PollCompletesNothing(pc.job, pc.answer, c);
      }
      UpdateKeepsVerified(row, pc.job, write.job, write.delay, now, mountReads);
    case _ =>
  }

  lemma PayloadHasSizes(files: seq<File>)
    requires HasPayload(files)
    ensures Sizes(files) != map[]
  {
    assert files[|files| - 1].name in Sizes(files);
  }

  lemma VerifyKeepsRow(v: Verifier, step: VerifyStep, row: Job, mountReads: set<Read>)
    requires RowHolds(row, mountReads) && VerifyReady(v, step, row) && (!v.Resting? ==> Fenced(v.job, row))
    requires v.MountRead? ==> Verified(v.job, mountReads)
    ensures RowHolds(VerifyRow(v, step, row), mountReads + VerifyReads(v, step))
  {
    if step.ReadMount? {
      PayloadHasSizes(v.job.files);
    }
  }

  // ---- Runs ----

  /** Copies that nobody has touched still hold when the row evolves and reads are added. */
  lemma WorkerStillHolds(s: System, s': System, w: Id, id: JobId)
    requires id in s.db.jobs && w in s.workers && WorkerHolds(s, w, id)
    requires id in s'.db.jobs && w in s'.workers
    requires s'.workers[w].Idle? || (!s.workers[w].Idle? && s'.workers[w].job == s.workers[w].job)
    requires Evolves(Row(s, id), Row(s', id), s.now) && Reads(s, id) <= Reads(s', id)
    ensures WorkerHolds(s', w, id)
  {
  }

  lemma ActionKeepsWorker(s: System, a: Action, w: Id, id: JobId)
    requires Inv(s) && Enabled(s, a) && Holds(s, id) && id in s.db.jobs && w in Apply(s, a).workers
    ensures id in Apply(s, a).db.jobs && WorkerHolds(Apply(s, a), w, id)
  {
    ActionEvolvesRow(s, a, id);
    HistoryGrows(s, a, id);
    assert w in s.workers;
    match a
    case Claim(v, pick, interval) => ClaimKeepsWorker(s, v, pick, interval, w, id);
    case ClaimUnknown(v, pick) =>
      if v != w { WorkerStillHolds(s, Apply(s, a), w, id); }
    case Work(v, step) => WorkerStillHolds(s, Apply(s, a), w, id);
    case _ => WorkerStillHolds(s, Apply(s, a), w, id);
  }

  lemma ClaimKeepsWorker(s: System, v: Id, pick: JobId, interval: int, w: Id, id: JobId)
    requires RowsSound(s) && Enabled(s, Claim(v, pick, interval)) && Holds(s, id) && id in s.db.jobs && w in s.workers
    requires Evolves(Row(s, id), Row(ApplyClaim(s, v, pick, interval), id), s.now)
    ensures WorkerHolds(ApplyClaim(s, v, pick, interval), w, id)
  {
    if v != w {
      WorkerStillHolds(s, ApplyClaim(s, v, pick, interval), w, id);
    }
  }

  /** The row is not completed, or was so with the same publication. */
  ghost predicate CompletesNothing(j: Job, later: Job) {
    later.state == Completed ==> SamePublication(j, later) && later.folder == j.folder
  }

  lemma ClaimCompletesNothing(s: System, w: Id, pick: JobId, interval: int, id: JobId)
    requires Pickable(s.db, s.now, pick) && id in s.db.jobs
    ensures CompletesNothing(Row(s, id), Row(ApplyClaim(s, w, pick, interval), id))
  {
  }

  lemma AskedCompletesNothing(j: Job, r: Request, now: Time)
    ensures CompletesNothing(j, Asked(j, r, now)) && CompletesNothing(j, Swept(j, now))
  {
  }

  lemma LeaseCompletesNothing(s: System, a: Action, id: JobId)
    requires Enabled(s, a) && id in s.db.jobs && (a.Tick? || a.Add? || a.ClaimUnknown? || a.ClaimMount? || a.Reload?)
    ensures id in Apply(s, a).db.jobs && CompletesNothing(Row(s, id), Row(Apply(s, a), id))
  {
  }

  lemma OtherKeepsReads(s: System, a: Action, id: JobId)
    requires Enabled(s, a) && !a.Verify?
    ensures Reads(Apply(s, a), id) == Reads(s, id)
  {
  }

  lemma OtherKeepsRow(s: System, a: Action, id: JobId)
    requires Enabled(s, a) && !a.Work? && !a.Verify? && id in s.db.jobs && RowHolds(Row(s, id), Reads(s, id))
    ensures id in Apply(s, a).db.jobs && RowHolds(Row(Apply(s, a), id), Reads(Apply(s, a), id))
  {
    OtherKeepsReads(s, a, id);
    match a
    case Claim(w, pick, interval) => ClaimCompletesNothing(s, w, pick, interval, id);
    case Ask(r) => AskedCompletesNothing(Row(s, id), r, s.now);
    case Sweep(_) => AskedCompletesNothing(Row(s, id), Wake(id), s.now);
    case _ => LeaseCompletesNothing(s, a, id);
  }

  lemma WorkKeepsRowOf(s: System, w: Id, step: WorkStep, id: JobId)
    requires Inv(s) && Enabled(s, Work(w, step)) && Holds(s, id) && id in s.db.jobs
    ensures RowHolds(Row(ApplyWork(s, w, step), id), Reads(ApplyWork(s, w, step), id))
  {
    if s.workers[w].job.id == id {
      assert WorkerSound(s, s.workers[w]) && WorkerHolds(s, w, id);
      WorkKeepsRow(s.workers[w], step, Row(s, id), s.now, Reads(s, id));
    }
  }

  lemma VerifyKeepsRowOf(s: System, v: Id, step: VerifyStep, id: JobId)
    requires Inv(s) && Enabled(s, Verify(v, step)) && Holds(s, id) && id in s.db.jobs
    ensures RowHolds(Row(ApplyVerify(s, v, step), id), Reads(ApplyVerify(s, v, step), id))
  {
    if s.verifiers[v].job.id == id {
      assert VerifierSound(s, s.verifiers[v]);
      VerifyKeepsRow(s.verifiers[v], step, Row(s, id), Reads(s, id));
    }
  }

  lemma ActionKeepsRow(s: System, a: Action, id: JobId)
    requires Inv(s) && Enabled(s, a) && Holds(s, id) && id in s.db.jobs
    ensures id in Apply(s, a).db.jobs && RowHolds(Row(Apply(s, a), id), Reads(Apply(s, a), id))
  {
    match a
    case Work(w, step) => WorkKeepsRowOf(s, w, step, id);
    case Verify(v, step) => VerifyKeepsRowOf(s, v, step, id);
    case _ => OtherKeepsRow(s, a, id);
  }

  lemma ActionKeepsHolds(s: System, a: Action, id: JobId)
    requires Inv(s) && Enabled(s, a) && Holds(s, id)
    ensures Holds(Apply(s, a), id)
  {
    var s' := Apply(s, a);
    if id in s.db.jobs {
      ActionKeepsRow(s, a, id);
      forall w | w in s'.workers ensures WorkerHolds(s', w, id) {
        ActionKeepsWorker(s, a, w, id);
      }
    } else if id in s'.db.jobs {
      forall w | w in s'.workers ensures WorkerHolds(s', w, id) {
        assert WorkerSound(s, s.workers[w]);
      }
    }
  }

  lemma {:induction false} RunKeepsHolds(r: Run, i: nat, id: JobId)
    requires IsRun(r) && i < |r.states|
    ensures Holds(r.states[i], id)
  {
    if i > 0 {
      RunKeepsHolds(r, i - 1, id);
      RunKeepsInv(r, i - 1);
      ActionKeepsHolds(r.states[i - 1], r.actions[i - 1], id);
    }
  }

  /** However polls, replacements, stale write-backs and stale verifications interleave: a completed job
      has a pinned folder, and a mount read succeeded against a snapshot with the placement and the
      name-to-size catalog that the row has now. */
  lemma CompletedMeansVerified(r: Run, i: nat, id: JobId)
    requires IsRun(r) && i < |r.states| && id in r.states[i].db.jobs
    ensures Row(r.states[i], id).state == Completed ==> Verified(Row(r.states[i], id), Reads(r.states[i], id))
  {
    RunKeepsHolds(r, i, id);
  }
}
