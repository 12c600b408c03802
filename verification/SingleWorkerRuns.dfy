/** Whole runs with one provider worker, which may crash and restart, and any number of verifiers and
    HTTP requests. */
module SingleWorkerRuns {
  import opened Catalog
  import opened Rows
  import opened Polling
  import opened Protocol
  import opened Safety
  import opened SingleWorker

  ghost predicate Solo(s: System) {
    forall w :: w in s.workers ==> w == 0
  }

  /** The worker, as far as it concerns the job. */
  ghost function Holder(s: System, id: JobId): Worker {
    if 0 in s.workers && !s.workers[0].Idle? && s.workers[0].job.id == id then s.workers[0] else Idle
  }

  ghost predicate JobHolds(s: System, id: JobId) {
    if id in s.db.jobs
    then JobOk(Row(s, id), Log(s, id)) && Agrees(Holder(s, id), Row(s, id), Log(s, id))
    else Log(s, id) == [] && Holder(s, id) == Idle
  }

  ghost predicate RowSettles(s: System, s': System, id: JobId) {
    id in s.db.jobs ==> id in s'.db.jobs && Settles(Row(s, id), Row(s', id))
  }

  lemma PickedIs(s: System, w: Id, id: JobId, interval: int)
    requires Solo(s) && Enabled(s, Claim(w, id, interval)) && Row(s, id).id == id
    ensures var s', k := ApplyClaim(s, w, id, interval), Swept(Row(s, id), s.now);
            && id in s'.db.jobs && Log(s', id) == Log(s, id) && !Settled(k.state)
            && Row(s', id) == (if k.state == Queued then Reserving(k, s.now) else Leased(k, s.now))
            && Holder(s', id) == (if k.state == Queued then Reserved(k.(attempts := k.attempts + 1), s.now) else Polling(k))
  {
  }

  lemma PickKeepsHold(s: System, w: Id, id: JobId, interval: int)
    requires Inv(s) && Solo(s) && Enabled(s, Claim(w, id, interval)) && JobHolds(s, id)
    ensures JobHolds(ApplyClaim(s, w, id, interval), id) && RowSettles(s, ApplyClaim(s, w, id, interval), id)
  {
    PickedIs(s, w, id, interval);
    ClaimKeepsJob(Row(s, id), s.now, Log(s, id));
  }

  lemma ClaimKeepsHold(s: System, w: Id, pick: JobId, interval: int, id: JobId)
    requires Inv(s) && Solo(s) && Enabled(s, Claim(w, pick, interval)) && JobHolds(s, id) && id != pick
    ensures JobHolds(ApplyClaim(s, w, pick, interval), id) && RowSettles(s, ApplyClaim(s, w, pick, interval), id)
  {
    if id in s.db.jobs {
      SweepKeepsJob(Row(s, id), s.now, Log(s, id));
    }
  }

  lemma WorkerKeepsHold(s: System, w: Id, step: WorkStep)
    requires Inv(s) && Solo(s) && Enabled(s, Work(w, step)) && JobHolds(s, s.workers[w].job.id)
    ensures var id := s.workers[w].job.id; JobHolds(ApplyWork(s, w, step), id) && RowSettles(s, ApplyWork(s, w, step), id)
  {
    var pc := s.workers[w];
    var id := pc.job.id;
    assert WorkerSound(s, pc);
    WorkedIs(s, w, step);
    assert Holder(s, id) == pc && Holder(ApplyWork(s, w, step), id) == WorkPc(pc, step);
    WorkKeepsJob(pc, step, Row(s, id), s.now, Log(s, id));
  }

  lemma WorkKeepsHold(s: System, w: Id, step: WorkStep, id: JobId)
    requires Inv(s) && Solo(s) && Enabled(s, Work(w, step)) && JobHolds(s, id)
    ensures JobHolds(ApplyWork(s, w, step), id) && RowSettles(s, ApplyWork(s, w, step), id)
  {
    if s.workers[w].job.id == id {
      WorkerKeepsHold(s, w, step);
    }
  }

  lemma VerifyKeepsHold(s: System, v: Id, step: VerifyStep, id: JobId)
    requires Inv(s) && Enabled(s, Verify(v, step)) && JobHolds(s, id)
    ensures JobHolds(ApplyVerify(s, v, step), id) && RowSettles(s, ApplyVerify(s, v, step), id)
  {
    var pc := s.verifiers[v];
    assert VerifierSound(s, pc);
    if pc.job.id == id {
      VerifyKeepsJob(Holder(s, id), pc, step, Row(s, id), Log(s, id));
    }
  }

  lemma AskKeepsHold(s: System, r: Request, id: JobId)
    requires Inv(s) && Solo(s) && Enabled(s, Ask(r)) && JobHolds(s, id)
    ensures JobHolds(Apply(s, Ask(r)), id) && RowSettles(s, Apply(s, Ask(r)), id)
  {
    if id in s.db.jobs {
      RequestKeepsJob(Holder(s, id), Row(s, id), r, s.now, Log(s, id));
    }
  }

  lemma SweepKeepsHold(s: System, w: Id, id: JobId)
    requires Inv(s) && Solo(s) && Enabled(s, Sweep(w)) && JobHolds(s, id)
    ensures JobHolds(Apply(s, Sweep(w)), id) && RowSettles(s, Apply(s, Sweep(w)), id)
  {
    if id in s.db.jobs {
      SweepKeepsJob(Row(s, id), s.now, Log(s, id));
    }
  }

  lemma LeaseKeepsHold(s: System, a: Action, id: JobId)
    requires Inv(s) && Solo(s) && Enabled(s, a) && JobHolds(s, id)
    requires a.ClaimUnknown? || a.ClaimMount?
    ensures JobHolds(Apply(s, a), id) && RowSettles(s, Apply(s, a), id)
  {
  }

  lemma QuietKeepsHold(s: System, a: Action, id: JobId)
    requires Inv(s) && Solo(s) && Enabled(s, a) && JobHolds(s, id)
    requires a.Tick? || a.Add? || a.Reload?
    ensures JobHolds(Apply(s, a), id) && RowSettles(s, Apply(s, a), id)
  {
  }

  lemma ActionKeepsHold(s: System, a: Action, id: JobId)
    requires Inv(s) && Solo(s) && Enabled(s, a) && JobHolds(s, id)
    ensures Solo(Apply(s, a)) && JobHolds(Apply(s, a), id) && RowSettles(s, Apply(s, a), id)
  {
    match a
    case Ask(r) => AskKeepsHold(s, r, id);
    case Sweep(w) => SweepKeepsHold(s, w, id);
    case Claim(w, pick, interval) =>
      if id == pick { PickKeepsHold(s, w, id, interval); } else { ClaimKeepsHold(s, w, pick, interval, id); }
    case Work(w, step) => WorkKeepsHold(s, w, step, id);
    case Verify(v, step) => VerifyKeepsHold(s, v, step, id);
    case ClaimUnknown(_, _) | ClaimMount(_, _) => LeaseKeepsHold(s, a, id);
    case _ => QuietKeepsHold(s, a, id);
  }

  lemma {:induction false} RunKeepsHold(r: Run, i: nat, id: JobId)
    requires IsRun(r) && OneWorker(r) && i < |r.states|
    ensures Solo(r.states[i]) && JobHolds(r.states[i], id)
  {
    if i > 0 {
      RunKeepsHold(r, i - 1, id);
      RunKeepsInv(r, i - 1);
      ActionKeepsHold(r.states[i - 1], r.actions[i - 1], id);
    }
  }

  ghost predicate Settling(states: seq<System>, id: JobId) {
    forall i, j :: 0 <= i < |states| && j == i + 1 < |states| ==> RowSettles(states[i], states[j], id)
  }

  lemma RunSettles(r: Run, id: JobId)
    requires IsRun(r) && OneWorker(r)
    ensures Settling(r.states, id)
  {
    forall i, j | 0 <= i < |r.states| && j == i + 1 < |r.states| ensures RowSettles(r.states[i], r.states[j], id) {
      RunKeepsHold(r, i, id);
      RunKeepsInv(r, i);
      ActionKeepsHold(r.states[i], r.actions[i], id);
    }
  }

  /** Between two uploads of a job a placement with a positive ID was recorded, and the second upload
      directly follows three recorded absences of that placement in a row. */
  lemma NoBlindReupload(r: Run, i: nat, id: JobId, a: nat, b: nat)
    requires IsRun(r) && OneWorker(r) && i < |r.states|
    requires a < b < |Log(r.states[i], id)| && Log(r.states[i], id)[a].Uploaded? && Log(r.states[i], id)[b].Uploaded?
    ensures Justified(Log(r.states[i], id), a, b)
  {
    RunKeepsHold(r, i, id);
  }

  /** The counter column is the length of the current run of absences, capped. */
  lemma CounterIsHistory(r: Run, i: nat, id: JobId)
    requires IsRun(r) && OneWorker(r) && i < |r.states| && id in r.states[i].db.jobs
    ensures Row(r.states[i], id).missingChecks == Min(3, Trailing(Log(r.states[i], id)))
  {
    RunKeepsHold(r, i, id);
  }

  /** A job goes back to the queue only when a submission was deferred, or by the poll that recorded
      the third absence in a row while an attempt was left. */
  ghost predicate RequeueConfirmed(s: System, a: Action, s': System, id: JobId)
    requires id in s.db.jobs
  {
    id in s'.db.jobs && (Row(s, id).state != Queued && Row(s', id).state == Queued ==>
      a.Work? && (a.step.Defer? || (
        && a.step.RecordPoll? && a.step.config.recoverMissing
        && Trailing(Log(s', id)) >= 3
        && Row(s, id).attempts < 3)))
  }

  lemma WorkRequeues(s: System, w: Id, step: WorkStep, id: JobId)
    requires Inv(s) && Solo(s) && Enabled(s, Work(w, step)) && JobHolds(s, id) && id in s.db.jobs
    requires Row(s, id).state != Queued && Row(ApplyWork(s, w, step), id).state == Queued && !step.Defer?
    ensures step.RecordPoll? && step.config.recoverMissing
    ensures Row(ApplyWork(s, w, step), id).missingChecks == 3 && Row(s, id).attempts < 3
  {
    var pc := s.workers[w];
    assert WorkerSound(s, pc);
    if pc.job.id == id && step.RecordPoll? {
      PollCounts(pc.job, pc.answer, step.config);
    }
  }

  lemma OthersDoNotRequeue(s: System, a: Action, id: JobId)
    requires Enabled(s, a) && !a.Work? && id in s.db.jobs && Row(s, id).state != Queued
    ensures id in Apply(s, a).db.jobs && Row(Apply(s, a), id).state != Queued
  {
  }

  lemma ActionRequeues(s: System, a: Action, id: JobId)
    requires Inv(s) && Solo(s) && Enabled(s, a) && JobHolds(s, id) && id in s.db.jobs
    requires JobHolds(Apply(s, a), id) && RowSettles(s, Apply(s, a), id)
    ensures RequeueConfirmed(s, a, Apply(s, a), id)
  {
    if Row(s, id).state != Queued && Row(Apply(s, a), id).state == Queued {
      if a.Work? {
        if !a.step.Defer? {
          WorkRequeues(s, a.w, a.step, id);
        }
      } else {
        OthersDoNotRequeue(s, a, id);
      }
    }
  }

  lemma RequeueIsConfirmed(r: Run, i: nat, id: JobId)
    requires IsRun(r) && OneWorker(r) && i < |r.actions| && id in r.states[i].db.jobs
    ensures RequeueConfirmed(r.states[i], r.actions[i], r.states[i + 1], id)
  {
    RunKeepsHold(r, i, id);
    RunKeepsInv(r, i);
    ActionKeepsHold(r.states[i], r.actions[i], id);
    ActionRequeues(r.states[i], r.actions[i], id);
  }

  /** An unknown submission is left only by a lookup that found the torrent, and only by a job that
      never had a placement. */
  ghost predicate LeftByLookup(s: System, a: Action, s': System, id: JobId)
    requires id in s.db.jobs
  {
    id in s'.db.jobs && (Row(s, id).state == SubmissionUnknown && Row(s', id).state != SubmissionUnknown ==>
      && Row(s, id).providerId == 0 && Row(s, id).source.torrent
      && a.Work? && a.step.Resolve? && a.step.providerId > 0
      && Row(s', id).state == Downloading && Row(s', id).providerId == a.step.providerId)
  }

  lemma WorkResolves(s: System, w: Id, step: WorkStep, id: JobId)
    requires Inv(s) && Solo(s) && Enabled(s, Work(w, step)) && JobHolds(s, id) && id in s.db.jobs
    requires Row(s, id).state == SubmissionUnknown
    ensures LeftByLookup(s, Work(w, step), ApplyWork(s, w, step), id)
  {
    var pc := s.workers[w];
    assert WorkerSound(s, pc);
  }

  lemma OthersDoNotResolve(s: System, a: Action, id: JobId)
    requires Enabled(s, a) && !a.Work? && id in s.db.jobs && Row(s, id).state == SubmissionUnknown
    ensures id in Apply(s, a).db.jobs && Row(Apply(s, a), id).state == SubmissionUnknown
  {
  }

  lemma UnknownIsLeftByLookup(r: Run, i: nat, id: JobId)
    requires IsRun(r) && OneWorker(r) && i < |r.actions| && id in r.states[i].db.jobs
    ensures LeftByLookup(r.states[i], r.actions[i], r.states[i + 1], id)
  {
    RunKeepsHold(r, i, id);
    RunKeepsInv(r, i);
    ActionKeepsHold(r.states[i], r.actions[i], id);
    ActionResolves(r.states[i], r.actions[i], id);
  }

  lemma ActionResolves(s: System, a: Action, id: JobId)
    requires Inv(s) && Solo(s) && Enabled(s, a) && JobHolds(s, id) && id in s.db.jobs
    requires RowSettles(s, Apply(s, a), id)
    ensures LeftByLookup(s, a, Apply(s, a), id)
  {
    if Row(s, id).state == SubmissionUnknown {
      if a.Work? {
        WorkResolves(s, a.w, a.step, id);
      } else {
        OthersDoNotResolve(s, a, id);
      }
    }
  }

  // ---- What lasts ----

  lemma {:induction false} CatalogLasts(states: seq<System>, i: nat, k: nat, id: JobId)
    requires Settling(states, id) && i <= k < |states| && id in states[i].db.jobs && Row(states[i], id).files != []
    ensures id in states[k].db.jobs && Row(states[k], id).files != []
    ensures Sizes(Row(states[k], id).files) == Sizes(Row(states[i], id).files)
    decreases k - i
  {
    if i < k {
      CatalogLasts(states, i, k - 1, id);
      assert RowSettles(states[k - 1], states[k], id);
    }
  }

  lemma {:induction false} FailureLasts(states: seq<System>, i: nat, k: nat, id: JobId)
    requires Settling(states, id) && i <= k < |states| && id in states[i].db.jobs && Row(states[i], id).state == Failed
    ensures id in states[k].db.jobs && Row(states[k], id).state == Failed
    decreases k - i
  {
    if i < k {
      FailureLasts(states, i, k - 1, id);
      assert RowSettles(states[k - 1], states[k], id);
    }
  }

  /** An unknown submission that no lookup may resolve. */
  ghost predicate Stuck(j: Job) {
    j.state == SubmissionUnknown && (j.providerId != 0 || !j.source.torrent)
  }

  lemma {:induction false} StuckLasts(states: seq<System>, i: nat, k: nat, id: JobId)
    requires Settling(states, id) && Evolving(states) && i <= k < |states| && id in states[i].db.jobs
    requires Stuck(Row(states[i], id))
    ensures id in states[k].db.jobs && Stuck(Row(states[k], id))
    ensures Row(states[k], id).providerId == Row(states[i], id).providerId
    decreases k - i
  {
    if i < k {
      StuckLasts(states, i, k - 1, id);
      assert RowSettles(states[k - 1], states[k], id) && RowsEvolve(states[k - 1], states[k]);
    }
  }

  /** Once published, the name-to-size catalog of a job never changes again. */
  lemma ImportPathsAreStable(r: Run, i: nat, k: nat, id: JobId)
    requires IsRun(r) && OneWorker(r) && i <= k < |r.states| && id in r.states[i].db.jobs
    requires Row(r.states[i], id).files != []
    ensures id in r.states[k].db.jobs
    ensures Sizes(Row(r.states[k], id).files) == Sizes(Row(r.states[i], id).files)
  {
    RunSettles(r, id);
    CatalogLasts(r.states, i, k, id);
  }

  lemma FailedIsAbsorbing(r: Run, i: nat, k: nat, id: JobId)
    requires IsRun(r) && OneWorker(r) && i <= k < |r.states| && id in r.states[i].db.jobs
    requires Row(r.states[i], id).state == Failed
    ensures id in r.states[k].db.jobs && Row(r.states[k], id).state == Failed
  {
    RunSettles(r, id);
    FailureLasts(r.states, i, k, id);
  }

  /** For every job but a torrent without a placement it is terminal. */
  lemma UnknownIsOtherwiseTerminal(r: Run, i: nat, k: nat, id: JobId)
    requires IsRun(r) && OneWorker(r) && i <= k < |r.states| && id in r.states[i].db.jobs
    requires Stuck(Row(r.states[i], id))
    ensures id in r.states[k].db.jobs && Stuck(Row(r.states[k], id))
  {
    RunSettles(r, id);
    RunEvolves(r);
    StuckLasts(r.states, i, k, id);
  }

  /** A poll that finds another catalog than the published one ends the job for good. */
  lemma ChangedCatalogIsFinal(r: Run, i: nat, k: nat, d: Download)
    requires IsRun(r) && OneWorker(r) && i < |r.actions| && i < k < |r.states|
    requires r.actions[i].Work? && r.actions[i].step.RecordPoll?
    requires var pc := r.states[i].workers[r.actions[i].w];
             && pc.answer == Found(d) && Importable(d) && Valid(d.files)
             && pc.job.files != [] && Sizes(d.files) != Sizes(pc.job.files)
    ensures var id := r.states[i].workers[r.actions[i].w].job.id;
            id in r.states[k].db.jobs && Row(r.states[k], id).state == Failed
  {
    var s, a := r.states[i], r.actions[i];
    RunKeepsInv(r, i);
    assert Enabled(s, a) && r.states[i + 1] == Apply(s, a);
    ChangedCatalogFails(s, a.w, a.step, d);
    FailedIsAbsorbing(r, i + 1, k, s.workers[a.w].job.id);
  }

  lemma ChangedCatalogFails(s: System, w: Id, step: WorkStep, d: Download)
    requires Inv(s) && Enabled(s, Work(w, step)) && step.RecordPoll? && s.workers[w].answer == Found(d)
    requires Importable(d) && Valid(d.files) && s.workers[w].job.files != [] && Sizes(d.files) != Sizes(s.workers[w].job.files)
    ensures var id := s.workers[w].job.id; id in ApplyWork(s, w, step).db.jobs && Row(ApplyWork(s, w, step), id).state == Failed
  {
    assert WorkerSound(s, s.workers[w]);
    FinishedIsPublished(s.workers[w].job, d, step.config);
    WorkedIs(s, w, step);
  }
}
