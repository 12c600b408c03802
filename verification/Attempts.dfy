/** The attempts column is the history of reservations, for any number of workers, crashes and stale writes. */
module Attempts {
  import opened Rows
  import opened Store
  import opened Protocol
  import opened Safety

  /** The action reserved an upload of the job. */
  ghost predicate Reserves(s: System, a: Action, s': System, id: JobId) {
    a.Claim? && a.id == id && id in s'.db.jobs && Row(s', id).state == Submitting
  }

  /** The action deferred a reservation of the job that was still standing. */
  ghost predicate Defers(s: System, a: Action, id: JobId) {
    && a.Work? && a.step.Defer? && WorkerAt(s, a.w) && s.workers[a.w].job.id == id
    && Row(s, id).state == Submitting
  }

  ghost predicate Recorded(r: Run, i: nat) {
    i <= |r.actions| && i < |r.states|
  }

  ghost function Reservations(r: Run, i: nat, id: JobId): nat
    requires Recorded(r, i)
  {
    if i == 0 then 0
    else Reservations(r, i - 1, id) + if Reserves(r.states[i - 1], r.actions[i - 1], r.states[i], id) then 1 else 0
  }

  ghost function Deferrals(r: Run, i: nat, id: JobId): nat
    requires Recorded(r, i)
  {
    if i == 0 then 0
    else Deferrals(r, i - 1, id) + if Defers(r.states[i - 1], r.actions[i - 1], id) then 1 else 0
  }

  ghost predicate Spent(j: Job) {
    j.attempts >= 0 && (j.state == Submitting ==> j.attempts >= 1)
  }

  /** What an action does to the column. */
  ghost predicate Counts(s: System, a: Action, s': System, id: JobId)
    requires id in s.db.jobs
  {
    && id in s'.db.jobs && Spent(Row(s', id))
    && Row(s', id).attempts ==
       Row(s, id).attempts + (if Reserves(s, a, s', id) then 1 else 0) - (if Defers(s, a, id) then 1 else 0)
  }

  lemma ClaimCounts(s: System, w: Id, pick: JobId, interval: int, id: JobId)
    requires Enabled(s, Claim(w, pick, interval)) && id in s.db.jobs && Spent(Row(s, id))
    ensures Counts(s, Claim(w, pick, interval), ApplyClaim(s, w, pick, interval), id)
  {
    ClaimMeans(s.db, s.now, interval, pick);
    PickableIsDue(s.db, s.now, pick);
  }

  lemma WorkCounts(pc: Worker, step: WorkStep, row: Job, now: Time)
    requires WorkReady(pc, step) && Spent(row) && CopySound(pc.job) && (pc.Answered? ==> Watched(pc.job.state))
    ensures Spent(WorkRow(pc, step, row, now))
    ensures WorkRow(pc, step, row, now).attempts == row.attempts - if step.Defer? && row.state == Submitting then 1 else 0
  {
  }

  lemma WorkCountsOf(s: System, w: Id, step: WorkStep, id: JobId)
    requires Inv(s) && Enabled(s, Work(w, step)) && id in s.db.jobs && Spent(Row(s, id))
    ensures Counts(s, Work(w, step), ApplyWork(s, w, step), id)
  {
    assert WorkerSound(s, s.workers[w]);
    if s.workers[w].job.id == id {
      WorkedIs(s, w, step);
      WorkCounts(s.workers[w], step, Row(s, id), s.now);
    }
  }

  lemma AskedCounts(j: Job, r: Request, now: Time)
    ensures Asked(j, r, now).attempts == Swept(j, now).attempts == j.attempts && Asked(j, r, now).state == j.state
  {
  }

  lemma VerifyCounts(v: Verifier, step: VerifyStep, row: Job)
    requires VerifyReady(v, step, row)
    ensures VerifyRow(v, step, row).attempts == row.attempts
    ensures VerifyRow(v, step, row).state == Submitting ==> row.state == Submitting
  {
  }

  lemma OtherCounts(s: System, a: Action, id: JobId)
    requires Enabled(s, a) && !a.Claim? && !a.Work? && id in s.db.jobs && Spent(Row(s, id))
    ensures Counts(s, a, Apply(s, a), id)
  {
    match a
    case Ask(r) => AskedCounts(Row(s, id), r, s.now);
    case Sweep(_) => AskedCounts(Row(s, id), Wake(id), s.now);
    case Verify(v, step) => VerifyCounts(s.verifiers[v], step, Row(s, s.verifiers[v].job.id));
    case _ =>
  }

  lemma ActionCounts(s: System, a: Action, id: JobId)
    requires Inv(s) && Enabled(s, a) && id in s.db.jobs && Spent(Row(s, id))
    ensures Counts(s, a, Apply(s, a), id)
  {
    match a
    case Claim(w, pick, interval) => ClaimCounts(s, w, pick, interval, id);
    case Work(w, step) => WorkCountsOf(s, w, step, id);
    case _ => OtherCounts(s, a, id);
  }

  lemma NewCounts(s: System, a: Action, id: JobId)
    requires Enabled(s, a) && id !in s.db.jobs
    ensures !Reserves(s, a, Apply(s, a), id) && !Defers(s, a, id)
    ensures id in Apply(s, a).db.jobs ==> Row(Apply(s, a), id).attempts == 0 && Row(Apply(s, a), id).state == Queued
  {
  }

  /** The attempts of a job are its reservations that were not deferred. */
  ghost predicate Accounted(r: Run, i: nat, id: JobId)
    requires Recorded(r, i)
  {
    if id in r.states[i].db.jobs
    then Spent(Row(r.states[i], id)) && Row(r.states[i], id).attempts == Reservations(r, i, id) - Deferrals(r, i, id)
    else Reservations(r, i, id) == 0 && Deferrals(r, i, id) == 0
  }

  lemma {:induction false} AttemptsAreReservations(r: Run, i: nat, id: JobId)
    requires IsRun(r) && i < |r.states|
    ensures Accounted(r, i, id)
  {
    if i > 0 {
      AttemptsAreReservations(r, i - 1, id);
      RunKeepsInv(r, i - 1);
      var s, a := r.states[i - 1], r.actions[i - 1];
      assert r.states[i] == Apply(s, a);
      if id in s.db.jobs {
        ActionCounts(s, a, id);
      } else {
        NewCounts(s, a, id);
      }
    }
  }

  /** So the sweep fails a queued job only after three reservations that were not deferred. */
  lemma ExhaustedMeansSpent(r: Run, i: nat, id: JobId)
    requires IsRun(r) && i < |r.states| && id in r.states[i].db.jobs && Row(r.states[i], id).state == Queued
    ensures Swept(Row(r.states[i], id), r.states[i].now).state == Failed <==> Reservations(r, i, id) - Deferrals(r, i, id) >= 3
  {
    AttemptsAreReservations(r, i, id);
  }
}
