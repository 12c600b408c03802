/** Leases and delays over whole runs, for any number of workers: nobody takes a row up again before it is
    due, unless it is woken or written in between. */
module Leases {
  import opened Rows
  import opened Polling
  import opened Store
  import opened Protocol
  import opened Safety

  /** A worker takes the row up. */
  ghost predicate TakesUp(a: Action, id: JobId) {
    (a.Claim? || a.ClaimUnknown?) && a.id == id
  }

  /** A wake, a recovery request, or a write-back of the row. */
  ghost predicate Releases(s: System, a: Action, id: JobId) {
    match a
    case Ask(r) => (r.Wake? || r.RequestRecovery?) && r.id == id
    case Work(w, step) =>
      WorkerAt(s, w) && s.workers[w].job.id == id && !step.Post? && !step.Reply? && !step.Drop?
    case _ => false
  }

  ghost predicate ReleasedBetween(r: Run, i: nat, k: nat, id: JobId)
    requires k <= |r.actions| && k <= |r.states|
  {
    exists m :: i < m < k && Releases(r.states[m], r.actions[m], id)
  }

  ghost predicate DueFrom(s: System, id: JobId, until: Time) {
    id in s.db.jobs && Row(s, id).nextCheck >= until
  }

  lemma ClaimHolds(s: System, w: Id, pick: JobId, interval: int, id: JobId, until: Time)
    requires Enabled(s, Claim(w, pick, interval)) && DueFrom(s, id, until)
    ensures DueFrom(ApplyClaim(s, w, pick, interval), id, until)
  {
    ClaimMeans(s.db, s.now, interval, pick);
    PickableIsDue(s.db, s.now, pick);
  }

  lemma WorkHolds(s: System, w: Id, step: WorkStep, id: JobId, until: Time)
    requires Enabled(s, Work(w, step)) && DueFrom(s, id, until) && !Releases(s, Work(w, step), id)
    ensures DueFrom(ApplyWork(s, w, step), id, until)
  {
    if s.workers[w].job.id == id {
      WorkedIs(s, w, step);
    }
  }

  lemma AskHolds(j: Job, r: Request, now: Time)
    requires !(r.Wake? && r.id == j.id) && !(r.RequestRecovery? && r.id == j.id)
    ensures Asked(j, r, now).nextCheck == Swept(j, now).nextCheck == j.nextCheck
  {
  }

  lemma VerifyHolds(v: Verifier, step: VerifyStep, row: Job)
    requires VerifyReady(v, step, row)
    ensures VerifyRow(v, step, row).nextCheck == row.nextCheck
  {
  }

  lemma OtherHolds(s: System, a: Action, id: JobId, until: Time)
    requires RowsSound(s) && Enabled(s, a) && !a.Claim? && !a.Work? && DueFrom(s, id, until) && !Releases(s, a, id)
    ensures DueFrom(Apply(s, a), id, until)
  {
    match a
    case Ask(r) => AskHolds(Row(s, id), r, s.now);
    case Sweep(_) => AskHolds(Row(s, id), Hide(id), s.now);
    case Verify(v, step) => VerifyHolds(s.verifiers[v], step, Row(s, s.verifiers[v].job.id));
    case _ =>
  }

  lemma ActionHolds(s: System, a: Action, id: JobId, until: Time)
    requires RowsSound(s) && Enabled(s, a) && DueFrom(s, id, until) && !Releases(s, a, id)
    ensures DueFrom(Apply(s, a), id, until)
  {
    match a
    case Claim(w, pick, interval) => ClaimHolds(s, w, pick, interval, id, until);
    case Work(w, step) => WorkHolds(s, w, step, id, until);
    case _ => OtherHolds(s, a, id, until);
  }

  lemma {:induction false} StillDueFrom(r: Run, i: nat, k: nat, id: JobId, until: Time)
    requires IsRun(r) && i < k <= |r.actions| && DueFrom(r.states[i + 1], id, until) && !ReleasedBetween(r, i, k, id)
    ensures DueFrom(r.states[k], id, until)
    decreases k - i
  {
    if i + 1 < k {
      assert forall m :: i < m < k - 1 ==> !Releases(r.states[m], r.actions[m], id);
      StillDueFrom(r, i, k - 1, id, until);
      RunKeepsInv(r, k - 1);
      ActionHolds(r.states[k - 1], r.actions[k - 1], id, until);
    }
  }

  lemma TakenWhenDue(s: System, a: Action, id: JobId)
    requires Enabled(s, a) && TakesUp(a, id)
    ensures id in s.db.jobs && Row(s, id).nextCheck <= s.now
  {
    if a.Claim? {
      PickableIsDue(s.db, s.now, id);
    }
  }

  lemma TakenIsLeased(s: System, a: Action, id: JobId)
    requires Enabled(s, a) && TakesUp(a, id)
    ensures id in Apply(s, a).db.jobs && Row(Apply(s, a), id).nextCheck == s.now + 300
  {
    if a.Claim? {
      ClaimMeans(s.db, s.now, a.interval, id);
    }
  }

  /** What a worker has taken up nobody takes up again for five minutes, unless it is released. */
  lemma LeaseLasts(r: Run, i: nat, k: nat, id: JobId)
    requires IsRun(r) && i < k < |r.actions| && TakesUp(r.actions[i], id) && TakesUp(r.actions[k], id)
    requires r.states[k].now < r.states[i].now + 300
    ensures ReleasedBetween(r, i, k, id)
  {
    TakenIsLeased(r.states[i], r.actions[i], id);
    TakenWhenDue(r.states[k], r.actions[k], id);
    if !ReleasedBetween(r, i, k, id) {
      StillDueFrom(r, i, k, id, r.states[i].now + 300);
    }
  }

  /** The delay a worker writes back with. */
  ghost predicate WritesWith(s: System, a: Action, id: JobId, delay: int) {
    && a.Work? && WorkerAt(s, a.w) && WorkReady(s.workers[a.w], a.step) && s.workers[a.w].job.id == id
    && match a.step
       case Adopt(_, d) => delay == d
       case Accept(_, d) => delay == d
       case Lose(d) => delay == d
       case Defer => delay == 300 && Row(s, id).state == Submitting
       case RecordPoll(c) => PollOutcome(s.workers[a.w].job, s.workers[a.w].answer, c).delay == delay
       case _ => false
  }

  lemma WrittenIsDelayed(s: System, a: Action, id: JobId, delay: int)
    requires Enabled(s, a) && WritesWith(s, a, id, delay)
    ensures id in Apply(s, a).db.jobs && Row(Apply(s, a), id).nextCheck == s.now + delay
  {
    WorkedIs(s, a.w, a.step);
  }

  /** What a worker has written back nobody takes up before the delay is over, unless it is released. */
  lemma DelayLasts(r: Run, i: nat, k: nat, id: JobId, delay: int)
    requires IsRun(r) && i < k < |r.actions| && WritesWith(r.states[i], r.actions[i], id, delay) && TakesUp(r.actions[k], id)
    requires r.states[k].now < r.states[i].now + delay
    ensures ReleasedBetween(r, i, k, id)
  {
    WrittenIsDelayed(r.states[i], r.actions[i], id, delay);
    TakenWhenDue(r.states[k], r.actions[k], id);
    if !ReleasedBetween(r, i, k, id) {
      StillDueFrom(r, i, k, id, r.states[i].now + delay);
    }
  }

  // ---- The lease of a mount verification ----

  ghost predicate MountDueFrom(s: System, id: JobId, until: Time) {
    id in s.db.jobs && Row(s, id).verifyNext >= until
  }

  ghost predicate CleanupBetween(r: Run, i: nat, k: nat, id: JobId)
    requires k <= |r.actions|
  {
    exists m :: i < m < k && r.actions[m] == Ask(RequestCleanup(id))
  }

  lemma WorkKeepsMountLease(pc: Worker, step: WorkStep, row: Job, now: Time)
    requires WorkReady(pc, step)
    ensures WorkRow(pc, step, row, now).verifyNext == row.verifyNext
  {
  }

  lemma VerifyKeepsMountLease(v: Verifier, step: VerifyStep, row: Job)
    requires VerifyReady(v, step, row)
    ensures VerifyRow(v, step, row).verifyNext == row.verifyNext
  {
  }

  lemma AskKeepsMountLease(j: Job, r: Request, now: Time)
    requires r != RequestCleanup(j.id)
    ensures Asked(j, r, now).verifyNext == Swept(j, now).verifyNext == j.verifyNext
  {
  }

  lemma ActionKeepsMountLease(s: System, a: Action, id: JobId, until: Time)
    requires RowsSound(s) && Enabled(s, a) && MountDueFrom(s, id, until) && a != Ask(RequestCleanup(id))
    ensures MountDueFrom(Apply(s, a), id, until)
  {
    match a
    case Ask(r) => AskKeepsMountLease(Row(s, id), r, s.now);
    case Sweep(_) => AskKeepsMountLease(Row(s, id), Hide(id), s.now);
    case Claim(_, pick, interval) =>
      ClaimMeans(s.db, s.now, interval, pick);
      AskKeepsMountLease(Row(s, id), Hide(id), s.now);
    case Work(w, step) => WorkKeepsMountLease(s.workers[w], step, Row(s, s.workers[w].job.id), s.now);
    case Verify(v, step) => VerifyKeepsMountLease(s.verifiers[v], step, Row(s, s.verifiers[v].job.id));
    case _ =>
  }

  lemma {:induction false} StillMountDueFrom(r: Run, i: nat, k: nat, id: JobId, until: Time)
    requires IsRun(r) && i < k <= |r.actions| && MountDueFrom(r.states[i + 1], id, until) && !CleanupBetween(r, i, k, id)
    ensures MountDueFrom(r.states[k], id, until)
    decreases k - i
  {
    if i + 1 < k {
      assert forall m :: i < m < k - 1 ==> r.actions[m] != Ask(RequestCleanup(id));
      StillMountDueFrom(r, i, k - 1, id, until);
      RunKeepsInv(r, k - 1);
      ActionKeepsMountLease(r.states[k - 1], r.actions[k - 1], id, until);
    }
  }

  /** What a verifier has taken up no other one takes up for a minute, unless a cleanup is requested. */
  lemma MountLeaseLasts(r: Run, i: nat, k: nat, v: Id, u: Id, id: JobId)
    requires IsRun(r) && i < k < |r.actions| && r.actions[i] == ClaimMount(v, id) && r.actions[k] == ClaimMount(u, id)
    requires r.states[k].now < r.states[i].now + 60
    ensures CleanupBetween(r, i, k, id)
  {
    var s := r.states[i];
    assert r.states[i + 1] == Apply(s, r.actions[i]) && Enabled(s, r.actions[i]);
    assert MountDueFrom(r.states[i + 1], id, s.now + 60);
    assert Enabled(r.states[k], r.actions[k]);
    if !CleanupBetween(r, i, k, id) {
      StillMountDueFrom(r, i, k, id, s.now + 60);
    }
  }
}
