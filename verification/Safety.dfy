/** What every run keeps, for any number of workers, verifiers, crashes and stale writes. */
module Safety {
  import opened Catalog
  import opened Rows
  import opened Polling
  import opened Store
  import opened Protocol

  ghost predicate Sound(j: Job) {
    && Valid(j.files)
    && j.providerId >= 0
    && (Watched(j.state) ==> j.providerId > 0)
    && (j.status.Some? ==> j.status.value.providerId == j.providerId > 0)
  }

  /** Equal revisions mean equal placement, catalog and folder. */
  ghost predicate Fenced(j: Job, later: Job) {
    && j.revision <= later.revision
    && (j.revision == later.revision ==>
          later.providerId == j.providerId && later.files == j.files && later.folder == j.folder)
  }

  /** How a row may change in one action. */
  ghost predicate Evolves(j: Job, later: Job, now: Time) {
    && later.id == j.id && later.source == j.source
    && Fenced(j, later)
    && (j.folder != "" ==> later.folder == j.folder)
    && (later.state == Submitting ==> (j.state == Submitting && later.nextCheck == j.nextCheck) || later.nextCheck >= now + LEASE)
  }

  ghost predicate RowsSound(s: System) {
    forall id :: id in s.db.jobs ==> s.db.jobs[id].id == id && Sound(s.db.jobs[id])
  }

  /** A copy that may be written back over its row. */
  ghost predicate CopySound(j: Job) {
    Valid(j.files) && j.providerId >= 0 && j.state != Submitting && (Watched(j.state) ==> j.providerId > 0)
  }

  ghost predicate WorkerSound(s: System, pc: Worker) {
    pc.Idle? || (
      && pc.job.id in s.db.jobs && pc.job.source == Row(s, pc.job.id).source
      && CopySound(pc.job)
      && (pc.Reserved? || pc.Posted? ==>
            && pc.job.state == Queued && pc.at <= s.now
            && (Row(s, pc.job.id).state == Submitting ==> Row(s, pc.job.id).nextCheck >= pc.at + LEASE))
      && (pc.Polling? || pc.Answered? ==> Watched(pc.job.state)))
  }

  ghost predicate VerifierSound(s: System, pc: Verifier) {
    pc.Resting? || (
      && pc.job.id in s.db.jobs
      && Fenced(pc.job, Row(s, pc.job.id))
      && (pc.MountRead? ==>
            pc.job.folder != "" && Read(pc.job.providerId, Sizes(pc.job.files)) in Reads(s, pc.job.id)))
  }

  ghost predicate Inv(s: System) {
    && RowsSound(s)
    && (forall w :: w in s.workers ==> WorkerSound(s, s.workers[w]))
    && (forall v :: v in s.verifiers ==> VerifierSound(s, s.verifiers[v]))
  }

  /** What a worker's step leaves of the job it is about. */
  lemma WorkedIs(s: System, w: Id, step: WorkStep)
    requires Enabled(s, Work(w, step))
    ensures var s', pc := ApplyWork(s, w, step), s.workers[w];
            var id := pc.job.id;
            && id in s.db.jobs && id in s'.db.jobs
            && Row(s', id) == WorkRow(pc, step, Row(s, id), s.now)
            && Log(s', id) == Log(s, id) + WorkEvents(pc, step, Row(s, id))
  {
  }

  lemma UpdateEvolves(row: Job, j: Job, delay: int, now: Time)
    requires Sound(row) && CopySound(j)
    ensures Evolves(row, Updated(row, j, delay, now), now) && Sound(Updated(row, j, delay, now))
  {
  }

  lemma PollWritesSoundly(j: Job, a: Answer, c: Config)
    requires CopySound(j) && Watched(j.state) && PollOutcome(j, a, c).Write?
    ensures CopySound(PollOutcome(j, a, c).job)
    ensures PollOutcome(j, a, c).job.id == j.id && PollOutcome(j, a, c).job.providerId == j.providerId
  {
  }

  lemma WorkEvolves(pc: Worker, step: WorkStep, row: Job, now: Time)
    requires Sound(row) && WorkReady(pc, step) && CopySound(pc.job)
    requires pc.Polling? || pc.Answered? ==> Watched(pc.job.state)
    ensures Evolves(row, WorkRow(pc, step, row, now), now) && Sound(WorkRow(pc, step, row, now))
  {
    match step
    case Adopt(p, delay) => UpdateEvolves(row, Obtained(pc.job, p), delay, now);
    case Accept(p, delay) => UpdateEvolves(row, Obtained(pc.job, p), delay, now);
    case Lose(delay) => UpdateEvolves(row, pc.job.(state := SubmissionUnknown), delay, now);
    case RecordPoll(c) =>
      var write := PollOutcome(pc.job, pc.answer, c);
      PollWritesSoundly(pc.job, pc.answer, c);
      UpdateEvolves(row, write.job, write.delay, now);
    case _ =>
  }

  lemma AskedEvolves(j: Job, r: Request, now: Time)
    requires Sound(j)
    ensures Evolves(j, Asked(j, r, now), now) && Sound(Asked(j, r, now))
  {
  }

  lemma ClaimEvolves(j: Job, now: Time)
    requires Sound(j)
    ensures Evolves(j, Swept(j, now), now) && Sound(Swept(j, now))
    ensures Swept(j, now).state == Queued ==>
              Evolves(j, Reserving(Swept(j, now), now), now) && Sound(Reserving(Swept(j, now), now))
    ensures Evolves(j, Leased(Swept(j, now), now), now) && Sound(Leased(Swept(j, now), now))
  {
  }

  lemma VerifyEvolves(pc: Verifier, step: VerifyStep, row: Job, now: Time)
    requires Sound(row) && VerifyReady(pc, step, row)
    ensures Evolves(row, VerifyRow(pc, step, row), now) && Sound(VerifyRow(pc, step, row))
  {
  }

  /** Every row survives an action, evolving as above. */
  ghost predicate RowsEvolve(s: System, s': System) {
    forall id :: id in s.db.jobs ==> id in s'.db.jobs && Evolves(s.db.jobs[id], s'.db.jobs[id], s.now)
  }

  lemma ClaimEvolvesRow(s: System, w: Id, pick: JobId, interval: int, id: JobId)
    requires RowsSound(s) && Pickable(s.db, s.now, pick) && id in s.db.jobs
    ensures id in ApplyClaim(s, w, pick, interval).db.jobs
    ensures Evolves(s.db.jobs[id], ApplyClaim(s, w, pick, interval).db.jobs[id], s.now)
    ensures Sound(ApplyClaim(s, w, pick, interval).db.jobs[id])
  {
    ClaimEvolves(s.db.jobs[id], s.now);
  }

  lemma WorkEvolvesRow(s: System, w: Id, step: WorkStep, id: JobId)
    requires RowsSound(s) && WorkerAt(s, w) && WorkReady(s.workers[w], step) && WorkerSound(s, s.workers[w])
    requires id in s.db.jobs
    ensures id in ApplyWork(s, w, step).db.jobs
    ensures Evolves(s.db.jobs[id], ApplyWork(s, w, step).db.jobs[id], s.now)
    ensures Sound(ApplyWork(s, w, step).db.jobs[id])
  {
    if s.workers[w].job.id == id {
      WorkEvolves(s.workers[w], step, s.db.jobs[id], s.now);
    }
  }

  lemma VerifyEvolvesRow(s: System, v: Id, step: VerifyStep, id: JobId)
    requires RowsSound(s) && VerifierAt(s, v) && VerifyReady(s.verifiers[v], step, Row(s, s.verifiers[v].job.id))
    requires id in s.db.jobs
    ensures id in ApplyVerify(s, v, step).db.jobs
    ensures Evolves(s.db.jobs[id], ApplyVerify(s, v, step).db.jobs[id], s.now)
    ensures Sound(ApplyVerify(s, v, step).db.jobs[id])
  {
    if s.verifiers[v].job.id == id {
      VerifyEvolves(s.verifiers[v], step, s.db.jobs[id], s.now);
    }
  }

  lemma ActionEvolvesRow(s: System, a: Action, id: JobId)
    requires Inv(s) && Enabled(s, a) && id in s.db.jobs
    ensures id in Apply(s, a).db.jobs
    ensures Evolves(s.db.jobs[id], Apply(s, a).db.jobs[id], s.now) && Sound(Apply(s, a).db.jobs[id])
  {
    match a
    case Ask(r) => AskedEvolves(s.db.jobs[id], r, s.now);
    case Sweep(_) => ClaimEvolves(s.db.jobs[id], s.now);
    case Claim(w, pick, interval) => ClaimEvolvesRow(s, w, pick, interval, id);
    case Work(w, step) => WorkEvolvesRow(s, w, step, id);
    case Verify(v, step) => VerifyEvolvesRow(s, v, step, id);
    case _ =>
  }

  lemma ActionEvolvesRows(s: System, a: Action)
    requires Inv(s) && Enabled(s, a)
    ensures RowsEvolve(s, Apply(s, a)) && RowsSound(Apply(s, a))
  {
    var s' := Apply(s, a);
    forall id | id in s'.db.jobs ensures s'.db.jobs[id].id == id && Sound(s'.db.jobs[id]) {
      if id in s.db.jobs {
        ActionEvolvesRow(s, a, id);
      }
    }
    forall id | id in s.db.jobs ensures id in s'.db.jobs && Evolves(s.db.jobs[id], s'.db.jobs[id], s.now) {
      ActionEvolvesRow(s, a, id);
    }
  }

  /** A copy that nobody has touched stays sound while its row evolves. */
  lemma WorkerStaysSound(s: System, s': System, pc: Worker)
    requires WorkerSound(s, pc) && RowsEvolve(s, s') && s'.now >= s.now
    ensures WorkerSound(s', pc)
  {
    if !pc.Idle? {
      assert Evolves(s.db.jobs[pc.job.id], s'.db.jobs[pc.job.id], s.now);
    }
  }

  lemma VerifierStaysSound(s: System, s': System, pc: Verifier)
    requires VerifierSound(s, pc) && RowsEvolve(s, s')
    requires !pc.Resting? ==> Reads(s, pc.job.id) <= Reads(s', pc.job.id)
    ensures VerifierSound(s', pc)
  {
    if !pc.Resting? {
      assert Evolves(s.db.jobs[pc.job.id], s'.db.jobs[pc.job.id], s.now);
    }
  }

  /** History only grows. */
  lemma HistoryGrows(s: System, a: Action, id: JobId)
    requires Enabled(s, a)
    ensures s.now <= Apply(s, a).now
    ensures Log(s, id) <= Log(Apply(s, a), id)
    ensures Reads(s, id) <= Reads(Apply(s, a), id)
    ensures s.reservations <= Apply(s, a).reservations
  {
  }

  lemma WorkersStaySound(s: System, a: Action)
    requires Inv(s) && Enabled(s, a) && RowsEvolve(s, Apply(s, a))
    ensures forall w :: w in Apply(s, a).workers ==> WorkerSound(Apply(s, a), Apply(s, a).workers[w])
  {
    var s' := Apply(s, a);
    HistoryGrows(s, a, 0);
    forall w | w in s'.workers ensures WorkerSound(s', s'.workers[w]) {
      if w in s.workers && s'.workers[w] == s.workers[w] {
        WorkerStaysSound(s, s', s.workers[w]);
      } else {
        ActorIsSound(s, a, w);
      }
    }
  }

  lemma ActorIsSound(s: System, a: Action, w: Id)
    requires Inv(s) && Enabled(s, a) && RowsEvolve(s, Apply(s, a))
    requires w in Apply(s, a).workers && (w !in s.workers || Apply(s, a).workers[w] != s.workers[w])
    ensures WorkerSound(Apply(s, a), Apply(s, a).workers[w])
  {
    match a
    case Claim(_, id, interval) => ClaimantIsSound(s, w, id, interval);
    case ClaimUnknown(_, id) => assert Sound(s.db.jobs[id]);
    case Work(_, step) => WorkingIsSound(s, w, step);
    case _ =>
  }

  lemma ClaimantIsSound(s: System, w: Id, id: JobId, interval: int)
    requires RowsSound(s) && Pickable(s.db, s.now, id)
    ensures WorkerSound(ApplyClaim(s, w, id, interval), ApplyClaim(s, w, id, interval).workers[w])
  {
    assert Sound(s.db.jobs[id]) && s.db.jobs[id].id == id;
  }

  lemma WorkingIsSound(s: System, w: Id, step: WorkStep)
    requires WorkerAt(s, w) && WorkReady(s.workers[w], step) && WorkerSound(s, s.workers[w])
    requires RowsEvolve(s, ApplyWork(s, w, step))
    ensures WorkerSound(ApplyWork(s, w, step), ApplyWork(s, w, step).workers[w])
  {
    if step.Post? {
      WorkerStaysSound(s, ApplyWork(s, w, step), s.workers[w]);
    }
  }

  lemma VerifiersStaySound(s: System, a: Action)
    requires Inv(s) && Enabled(s, a) && RowsEvolve(s, Apply(s, a))
    ensures forall v :: v in Apply(s, a).verifiers ==> VerifierSound(Apply(s, a), Apply(s, a).verifiers[v])
  {
    var s' := Apply(s, a);
    forall v | v in s'.verifiers ensures VerifierSound(s', s'.verifiers[v]) {
      if v in s.verifiers && s'.verifiers[v] == s.verifiers[v] {
        if !s.verifiers[v].Resting? {
          HistoryGrows(s, a, s.verifiers[v].job.id);
        }
        VerifierStaysSound(s, s', s.verifiers[v]);
      } else {
        VerifierActorIsSound(s, a, v);
      }
    }
  }

  lemma VerifierActorIsSound(s: System, a: Action, v: Id)
    requires Inv(s) && Enabled(s, a) && RowsEvolve(s, Apply(s, a))
    requires v in Apply(s, a).verifiers && (v !in s.verifiers || Apply(s, a).verifiers[v] != s.verifiers[v])
    ensures VerifierSound(Apply(s, a), Apply(s, a).verifiers[v])
  {
    match a
    case Verify(_, step) =>
      assert VerifierSound(s, s.verifiers[v]);
      assert Evolves(s.db.jobs[s.verifiers[v].job.id], Apply(s, a).db.jobs[s.verifiers[v].job.id], s.now);
    case _ =>
  }

  lemma ActionKeepsInv(s: System, a: Action)
    requires Inv(s) && Enabled(s, a)
    ensures Inv(Apply(s, a)) && RowsEvolve(s, Apply(s, a))
  {
    ActionEvolvesRows(s, a);
    WorkersStaySound(s, a);
    VerifiersStaySound(s, a);
  }

  lemma {:induction false} RunKeepsInv(r: Run, i: nat)
    requires IsRun(r) && i < |r.states|
    ensures Inv(r.states[i])
  {
    if i > 0 {
      RunKeepsInv(r, i - 1);
      ActionKeepsInv(r.states[i - 1], r.actions[i - 1]);
    }
  }

  ghost predicate Evolving(states: seq<System>) {
    forall i, j :: 0 <= i < |states| && j == i + 1 < |states| ==> RowsEvolve(states[i], states[j])
  }

  lemma RunEvolves(r: Run)
    requires IsRun(r)
    ensures Evolving(r.states)
  {
    forall i, j | 0 <= i < |r.states| && j == i + 1 < |r.states| ensures RowsEvolve(r.states[i], r.states[j]) {
      RunKeepsInv(r, i);
      ActionKeepsInv(r.states[i], r.actions[i]);
    }
  }

  lemma {:induction false} EvolvingIsFenced(states: seq<System>, i: nat, k: nat, id: JobId)
    requires Evolving(states) && i <= k < |states| && id in states[i].db.jobs
    ensures id in states[k].db.jobs
    ensures Fenced(states[i].db.jobs[id], states[k].db.jobs[id])
    ensures states[k].db.jobs[id].source == states[i].db.jobs[id].source
    ensures states[i].db.jobs[id].folder != "" ==> states[k].db.jobs[id].folder == states[i].db.jobs[id].folder
    decreases k - i
  {
    if i < k {
      EvolvingIsFenced(states, i, k - 1, id);
      assert RowsEvolve(states[k - 1], states[k]);
    }
  }
}
