/** The bounds on uploads, for any number of workers, crashes, wakes and stale writes. */
module Limits {
  import opened Rows
  import opened Store
  import opened Protocol
  import opened Safety

  // ---- The lifetime budget of a job ----

  ghost function Uploads(log: seq<Event>): nat {
    if log == [] then 0 else Uploads(log[..|log| - 1]) + if log[|log| - 1].Uploaded? then 1 else 0
  }

  /** Workers that hold a reservation for the job and have not sent the upload. */
  ghost function Unposted(workers: map<Id, Worker>, id: JobId): set<Id> {
    set w | w in workers && workers[w].Reserved? && workers[w].job.id == id
  }

  /** What is spent or may still be spent is covered by the attempts column. */
  ghost predicate Within(s: System, id: JobId) {
    if id in s.db.jobs then Uploads(Log(s, id)) + |Unposted(s.workers, id)| <= s.db.jobs[id].attempts <= 3
    else Log(s, id) == [] && Unposted(s.workers, id) == {}
  }

  lemma UploadsOfOneMore(log: seq<Event>, e: Event)
    ensures Uploads(log + [e]) == Uploads(log) + if e.Uploaded? then 1 else 0
  {
    assert (log + [e])[..|log|] == log;
  }

  lemma UnpostedAfter(workers: map<Id, Worker>, w: Id, pc: Worker, id: JobId)
    requires w in workers
    ensures var was, now := workers[w].Reserved? && workers[w].job.id == id, pc.Reserved? && pc.job.id == id;
            |Unposted(workers[w := pc], id)| == |Unposted(workers, id)| + (if now then 1 else 0) - (if was then 1 else 0)
    ensures workers[w].Reserved? && workers[w].job.id == id ==> |Unposted(workers, id)| > 0
  {
    SizesAround(Unposted(workers, id), Unposted(workers[w := pc], id), w);
  }

  lemma SizesAround(before: set<Id>, after: set<Id>, w: Id)
    requires before - {w} == after - {w}
    ensures |after| == |before| + (if w in after then 1 else 0) - (if w in before then 1 else 0)
    ensures w in before ==> |before| > 0
  {
    assert |before - {w}| == |before| - if w in before then 1 else 0;
    assert |after - {w}| == |after| - if w in after then 1 else 0;
  }

  lemma UploadsAfter(log: seq<Event>, events: seq<Event>)
    requires |events| <= 1
    ensures Uploads(log + events) == Uploads(log) + if events == [Uploaded] then 1 else 0
  {
    if events == [] {
      assert log + events == log;
    } else {
      assert events == [events[0]];
      UploadsOfOneMore(log, events[0]);
    }
  }

  /** Only a deferral gives an attempt back, and only to the job it was taken from. */
  lemma WorkAttempts(pc: Worker, step: WorkStep, row: Job, now: Time)
    requires WorkReady(pc, step) && row.attempts >= 0
    ensures |WorkEvents(pc, step, row)| <= 1
    ensures WorkEvents(pc, step, row) == [Uploaded] <==> step.Post?
    ensures WorkRow(pc, step, row, now).attempts <= row.attempts
    ensures WorkRow(pc, step, row, now).attempts >= row.attempts - if step.Defer? && row.attempts > 0 then 1 else 0
  {
  }

  lemma ClaimStaysWithin(s: System, w: Id, pick: JobId, interval: int, id: JobId)
    requires RowsSound(s) && Enabled(s, Claim(w, pick, interval)) && Within(s, id)
    ensures Within(ApplyClaim(s, w, pick, interval), id)
  {
    var j := Snapshot(s.db, s.now, pick);
    UnpostedAfter(s.workers, w, if j.state == Queued then Reserved(j, s.now) else Polling(j), id);
  }

  lemma WorkStaysWithin(s: System, w: Id, step: WorkStep, id: JobId)
    requires RowsSound(s) && WorkerAt(s, w) && WorkReady(s.workers[w], step) && Within(s, id)
    ensures Within(ApplyWork(s, w, step), id)
  {
    var pc := s.workers[w];
    UnpostedAfter(s.workers, w, WorkPc(pc, step), id);
    if pc.job.id == id {
      WorkedIs(s, w, step);
      UploadsAfter(Log(s, id), WorkEvents(pc, step, Row(s, id)));
      WorkAttempts(pc, step, Row(s, id), s.now);
    }
  }

  lemma RequestsKeepAttempts(j: Job, r: Request, now: Time)
    ensures Asked(j, r, now).attempts == j.attempts && Swept(j, now).attempts == j.attempts
  {
  }

  lemma AddStaysWithin(s: System, a: Action, id: JobId)
    requires Enabled(s, a) && a.Add? && Within(s, id)
    ensures Within(Apply(s, a), id)
  {
  }

  lemma LeaseStaysWithin(s: System, a: Action, id: JobId)
    requires RowsSound(s) && Enabled(s, a) && Within(s, id)
    requires a.Tick? || a.Sweep? || a.ClaimMount? || a.Reload? || a.Verify?
    ensures Within(Apply(s, a), id)
  {
    assert Apply(s, a).workers == s.workers && Log(Apply(s, a), id) == Log(s, id);
  }

  lemma LookupStaysWithin(s: System, w: Id, pick: JobId, id: JobId)
    requires RowsSound(s) && Enabled(s, ClaimUnknown(w, pick)) && Within(s, id)
    ensures Within(Apply(s, ClaimUnknown(w, pick)), id)
  {
    UnpostedAfter(s.workers, w, LookingUp(Row(s, pick)), id);
  }

  lemma ActionStaysWithin(s: System, a: Action, id: JobId)
    requires Inv(s) && Enabled(s, a) && Within(s, id)
    ensures Within(Apply(s, a), id)
  {
    match a
    case Ask(r) => if id in s.db.jobs { RequestsKeepAttempts(s.db.jobs[id], r, s.now); }
    case Claim(w, pick, interval) => ClaimStaysWithin(s, w, pick, interval, id);
    case ClaimUnknown(w, pick) => LookupStaysWithin(s, w, pick, id);
    case Work(w, step) => WorkStaysWithin(s, w, step, id);
    case Add(_, _, _, _) => AddStaysWithin(s, a, id);
    case _ => LeaseStaysWithin(s, a, id);
  }

  /** Uploads made, plus claimed submissions that have not been sent, never exceed the attempts
      column, which stays within the limit: no job is ever uploaded more than three times. */
  lemma {:induction false} UploadBudget(r: Run, i: nat, id: JobId)
    requires IsRun(r) && i < |r.states|
    ensures Within(r.states[i], id)
    ensures Uploads(Log(r.states[i], id)) <= 3
  {
    if i > 0 {
      UploadBudget(r, i - 1, id);
      RunKeepsInv(r, i - 1);
      ActionStaysWithin(r.states[i - 1], r.actions[i - 1], id);
    } else {
      assert Unposted(r.states[0].workers, id) == {};
    }
  }

  // ---- The submission gate of the tenant ----

  ghost predicate Submitter(pc: Worker) {
    pc.Reserved? || pc.Posted?
  }

  /** Still inside the window in which its context is alive. */
  ghost predicate Live(s: System, w: Id) {
    w in s.workers && Submitter(s.workers[w]) && s.now <= s.workers[w].at + 55
  }

  ghost predicate Spaced(times: seq<Time>) {
    forall i, j :: 0 <= i < j < |times| ==> times[j] - times[i] >= 60
  }

  ghost predicate Gated(s: System) {
    && Spaced(s.reservations)
    && (forall t :: t in s.reservations ==> s.db.gate.Some? && t + 60 <= s.db.gate.value)
    && (forall w :: w in s.workers && Submitter(s.workers[w]) ==> s.workers[w].at in s.reservations)
    && (forall v, w :: v in s.workers && w in s.workers && v != w && Submitter(s.workers[v]) && Submitter(s.workers[w]) ==>
          s.workers[v].at != s.workers[w].at)
  }

  lemma ClaimIsGated(s: System, w: Id, pick: JobId, interval: int)
    requires Gated(s) && Enabled(s, Claim(w, pick, interval))
    ensures Gated(ApplyClaim(s, w, pick, interval))
  {
    var s' := ApplyClaim(s, w, pick, interval);
    if Snapshot(s.db, s.now, pick).state == Queued {
      assert s'.reservations == s.reservations + [s.now];
      forall i, j | 0 <= i < j < |s'.reservations| ensures s'.reservations[j] - s'.reservations[i] >= 60 {
        assert s'.reservations[i] in s.reservations;
      }
      assert s'.reservations[|s.reservations|] == s.now;
      assert s.now !in s.reservations;
    }
  }

  lemma WorkIsGated(s: System, w: Id, step: WorkStep)
    requires Gated(s) && WorkerAt(s, w) && WorkReady(s.workers[w], step)
    ensures Gated(ApplyWork(s, w, step))
  {
  }

  lemma ActionKeepsGate(s: System, a: Action)
    requires Gated(s) && Enabled(s, a)
    ensures Gated(Apply(s, a))
  {
    match a
    case Claim(w, pick, interval) => ClaimIsGated(s, w, pick, interval);
    case Work(w, step) => WorkIsGated(s, w, step);
    case _ =>
  }

  lemma {:induction false} RunIsGated(r: Run, i: nat)
    requires IsRun(r) && i < |r.states|
    ensures Gated(r.states[i])
  {
    if i > 0 {
      RunIsGated(r, i - 1);
      ActionKeepsGate(r.states[i - 1], r.actions[i - 1]);
    }
  }

  /** Reservations are at least the gate interval apart, so at most one submitter is live; and the
      sweep of an interrupted submission never touches the row of a live one. */
  lemma OneLiveSubmission(r: Run, i: nat)
    requires IsRun(r) && i < |r.states|
    ensures Spaced(r.states[i].reservations)
    ensures forall v, w :: Live(r.states[i], v) && Live(r.states[i], w) ==> v == w
    ensures forall w :: Live(r.states[i], w) ==>
              var s := r.states[i];
              var id := s.workers[w].job.id;
              id in s.db.jobs && SweptInterrupted(s.db.jobs[id], s.now) == s.db.jobs[id]
  {
    var s := r.states[i];
    RunIsGated(r, i);
    RunKeepsInv(r, i);
    forall v, w | Live(s, v) && Live(s, w) ensures v == w {
      assert WorkerSound(s, s.workers[v]) && WorkerSound(s, s.workers[w]);
    }
    forall w | Live(s, w)
      ensures s.workers[w].job.id in s.db.jobs
      ensures SweptInterrupted(s.db.jobs[s.workers[w].job.id], s.now) == s.db.jobs[s.workers[w].job.id]
    {
      assert WorkerSound(s, s.workers[w]);
    }
  }

  // ---- What becomes of the row of a live submitter ----

  ghost predicate TurnsUnknown(s: System, s': System, id: JobId) {
    id in s.db.jobs && id in s'.db.jobs && Row(s, id).state != SubmissionUnknown && Row(s', id).state == SubmissionUnknown
  }

  lemma WorkTurnsUnknown(pc: Worker, step: WorkStep, row: Job, now: Time)
    requires WorkReady(pc, step) && (pc.Answered? ==> Watched(pc.job.state)) && row.state != SubmissionUnknown
    ensures WorkRow(pc, step, row, now).state == SubmissionUnknown ==> step.Lose?
  {
  }

  lemma ClaimTurnsUnknown(s: System, w: Id, pick: JobId, interval: int, id: JobId)
    requires Enabled(s, Claim(w, pick, interval)) && TurnsUnknown(s, ApplyClaim(s, w, pick, interval), id)
    ensures SweptInterrupted(Row(s, id), s.now) != Row(s, id)
  {
  }

  lemma OtherTurnsUnknown(s: System, a: Action, id: JobId)
    requires Enabled(s, a) && !a.Work? && !a.Claim? && TurnsUnknown(s, Apply(s, a), id)
    ensures a.Sweep? && SweptInterrupted(Row(s, id), s.now) != Row(s, id)
  {
  }

  lemma ActionTurnsUnknown(s: System, a: Action, id: JobId)
    requires Inv(s) && Enabled(s, a) && TurnsUnknown(s, Apply(s, a), id)
    requires SweptInterrupted(Row(s, id), s.now) == Row(s, id)
    ensures a.Work? && a.step.Lose? && s.workers[a.w].job.id == id
  {
    if a.Work? {
      assert WorkerSound(s, s.workers[a.w]);
      if s.workers[a.w].job.id == id {
        WorkTurnsUnknown(s.workers[a.w], a.step, Row(s, id), s.now);
      }
    } else if a.Claim? {
      ClaimTurnsUnknown(s, a.w, a.id, a.interval, id);
    } else {
      OtherTurnsUnknown(s, a, id);
    }
  }

  /** A claim and its write-back share one context: no submitter acts after its window. */
  ghost predicate InTime(s: System, a: Action) {
    a.Work? && !a.step.Drop? && a.w in s.workers && Submitter(s.workers[a.w]) ==> Live(s, a.w)
  }

  /** Whatever anybody does, the row of a live submitter is turned into an unknown submission only by a
      submitter that reports its own loss: by this one, or by one whose window is over. As long as
      submitters act within their windows, only by this one. */
  lemma LiveSubmitterKeepsItsRow(r: Run, i: nat, w: Id)
    requires IsRun(r) && i < |r.actions| && Live(r.states[i], w)
    requires TurnsUnknown(r.states[i], r.states[i + 1], r.states[i].workers[w].job.id)
    ensures var s, a := r.states[i], r.actions[i];
            && a.Work? && a.step.Lose? && a.w in s.workers && Submitter(s.workers[a.w])
            && (a.w == w || s.now > s.workers[a.w].at + 55)
            && (InTime(s, a) ==> a.w == w)
  {
    var s, a := r.states[i], r.actions[i];
    OneLiveSubmission(r, i);
    RunKeepsInv(r, i);
    assert Enabled(s, a) && r.states[i + 1] == Apply(s, a);
    ActionTurnsUnknown(s, a, s.workers[w].job.id);
    assert Live(s, a.w) ==> a.w == w;
  }
}
