/** What holds in addition when a tenant has the one provider worker the program starts. */
module SingleWorker {
  import opened Catalog
  import opened Rows
  import opened Polling
  import opened Protocol
  import opened Safety

  // ---- What a history says ----

  ghost predicate Check(e: Event, id: int) {
    e == Absent(id) || e == Present(id) || e == CheckFailed(id)
  }

  /** Absences recorded since the last other observation or placement; an upload does not end the run. */
  ghost function Trailing(log: seq<Event>): nat {
    if log == [] then 0
    else
      match log[|log| - 1]
      case Absent(_) => Trailing(log[..|log| - 1]) + 1
      case Uploaded => Trailing(log[..|log| - 1])
      case _ => 0
  }

  /** The placement was recorded, and since then nothing but checks of it. */
  ghost predicate PlacedAt(log: seq<Event>, p: nat, id: int) {
    p < |log| && log[p] == Placed(id) && forall k :: p < k < |log| ==> Check(log[k], id)
  }

  ghost predicate Placement(log: seq<Event>, id: int) {
    id > 0 && exists p :: PlacedAt(log, p, id)
  }

  ghost predicate LastThreeAbsent(log: seq<Event>, id: int) {
    |log| >= 3 && log[|log| - 1] == log[|log| - 2] == log[|log| - 3] == Absent(id)
  }

  /** Nothing was ever sent, or a known placement was last seen absent three times in a row. */
  ghost predicate MayUpload(log: seq<Event>) {
    log == [] || exists id :: Placement(log, id) && LastThreeAbsent(log, id)
  }

  /** Between two uploads a placement was recorded, and the second directly follows three
      consecutive absences of that placement. */
  ghost predicate Justified(log: seq<Event>, a: nat, b: nat)
    requires a < b < |log|
  {
    exists p :: a < p && p + 3 < b && log[p].Placed? && log[p].id > 0
                && log[b - 1] == log[b - 2] == log[b - 3] == Absent(log[p].id)
  }

  ghost predicate NoBlindUpload(log: seq<Event>) {
    forall a, b :: 0 <= a < b < |log| && log[a].Uploaded? && log[b].Uploaded? ==> Justified(log, a, b)
  }

  lemma TrailingOfOneMore(log: seq<Event>, e: Event)
    ensures Trailing(log + [e]) == match e case Absent(_) => Trailing(log) + 1 case Uploaded => Trailing(log) case _ => 0
  {
    assert (log + [e])[..|log|] == log;
  }

  lemma {:induction false} TrailingOfUploads(log: seq<Event>)
    requires forall e :: e in log ==> e.Uploaded?
    ensures Trailing(log) == 0
  {
    if log != [] {
      assert log[|log| - 1] in log;
      TrailingOfUploads(log[..|log| - 1]);
    }
  }

  lemma {:induction false} TrailingOfPlaced(log: seq<Event>, p: nat, id: int, n: nat)
    requires PlacedAt(log, p, id) && Trailing(log) >= n
    ensures p + n < |log| && forall k :: |log| - n <= k < |log| ==> log[k] == Absent(id)
  {
    if n > 0 {
      var init := log[..|log| - 1];
      assert p < |init| && Check(log[|log| - 1], id);
      assert PlacedAt(init, p, id);
      TrailingOfPlaced(init, p, id, n - 1);
    }
  }

  lemma ThreeAbsencesAllowUpload(log: seq<Event>, id: int)
    requires Placement(log, id) && Trailing(log) >= 3
    ensures MayUpload(log)
  {
    var p: nat :| PlacedAt(log, p, id);
    TrailingOfPlaced(log, p, id, 3);
    assert LastThreeAbsent(log, id);
  }

  lemma CheckKeepsPlacement(log: seq<Event>, id: int, e: Event)
    requires Placement(log, id) && Check(e, id)
    ensures Placement(log + [e], id)
  {
    var p: nat :| PlacedAt(log, p, id);
    assert PlacedAt(log + [e], p, id);
  }

  lemma PlacingIsPlacement(log: seq<Event>, id: int)
    requires id > 0
    ensures Placement(log + [Placed(id)], id)
  {
    assert PlacedAt(log + [Placed(id)], |log|, id);
  }

  lemma OtherEventKeepsNoBlindUpload(log: seq<Event>, e: Event)
    requires NoBlindUpload(log) && !e.Uploaded?
    ensures NoBlindUpload(log + [e])
  {
    var log' := log + [e];
    forall a, b | 0 <= a < b < |log'| && log'[a].Uploaded? && log'[b].Uploaded? ensures Justified(log', a, b) {
      assert Justified(log, a, b);
      var p :| a < p && p + 3 < b && log[p].Placed? && log[p].id > 0
                && log[b - 1] == log[b - 2] == log[b - 3] == Absent(log[p].id);
      assert log'[p] == log[p];
    }
  }

  lemma UploadsPrecede(log: seq<Event>, p: nat, id: int, a: nat)
    requires PlacedAt(log, p, id) && a < |log| && log[a].Uploaded?
    ensures a < p
  {
  }

  lemma UploadKeepsNoBlindUpload(log: seq<Event>)
    requires NoBlindUpload(log) && MayUpload(log)
    ensures NoBlindUpload(log + [Uploaded])
  {
    var log' := log + [Uploaded];
    forall a, b | 0 <= a < b < |log'| && log'[a].Uploaded? && log'[b].Uploaded? ensures Justified(log', a, b) {
      if b < |log| {
        assert Justified(log, a, b);
        var p :| a < p && p + 3 < b && log[p].Placed? && log[p].id > 0
                  && log[b - 1] == log[b - 2] == log[b - 3] == Absent(log[p].id);
        assert log'[p] == log[p];
      } else {
        var id :| Placement(log, id) && LastThreeAbsent(log, id);
        var p: nat :| PlacedAt(log, p, id);
        UploadsPrecede(log, p, id, a);
        assert log'[p] == Placed(id) && log'[a] == log[a] && p + 3 < b;
      }
    }
  }

  // ---- What ties a row to its history ----

  ghost predicate JobOk(j: Job, log: seq<Event>) {
    && NoBlindUpload(log)
    && j.missingChecks == Min(3, Trailing(log))
    && (j.state == Queued ==> MayUpload(log))
    && (Watched(j.state) ==> Placement(log, j.providerId))
    && (j.providerId == 0 ==> forall e :: e in log ==> e.Uploaded?)
    && (j.state == Completed ==> j.folder != "")
  }

  ghost predicate SameCopy(j: Job, copy: Job) {
    && copy.providerId == j.providerId && copy.files == j.files
    && copy.missingChecks == j.missingChecks && copy.attempts == j.attempts
  }

  /** The only worker's copy is current, but for a completion by a verifier. */
  ghost predicate Agrees(pc: Worker, j: Job, log: seq<Event>) {
    match pc
    case Idle => true
    case LookingUp(_) => true
    case Reserved(copy, _) => j.state == Submitting && SameCopy(j, copy) && MayUpload(log)
    case Posted(copy, _) => j.state == Submitting && SameCopy(j, copy)
    case Polling(copy) => SameCopy(j, copy) && (j.state == copy.state || (copy.state == Mounting && j.state == Completed))
    case Answered(copy, _) => SameCopy(j, copy) && (j.state == copy.state || (copy.state == Mounting && j.state == Completed))
  }

  /** What one action may do to a row, beyond Evolves. */
  ghost predicate Settles(j: Job, later: Job) {
    && (j.files != [] ==> later.files != [] && Sizes(later.files) == Sizes(j.files))
    && (j.state == Failed ==> later.state == Failed)
    && (j.state == SubmissionUnknown && later.state != SubmissionUnknown ==>
          j.providerId == 0 && j.source.torrent && later.state == Downloading && later.providerId > 0)
    && (j.state == SubmissionUnknown == later.state ==> later.providerId == j.providerId)
  }

  // ---- Each step keeps it ----

  lemma RequestKeepsJob(pc: Worker, j: Job, r: Request, now: Time, log: seq<Event>)
    requires JobOk(j, log) && Agrees(pc, j, log)
    ensures JobOk(Asked(j, r, now), log) && Agrees(pc, Asked(j, r, now), log) && Settles(j, Asked(j, r, now))
  {
  }

  lemma SweepKeepsJob(j: Job, now: Time, log: seq<Event>)
    requires JobOk(j, log)
    ensures JobOk(Swept(j, now), log) && Settles(j, Swept(j, now))
  {
  }

  lemma ClaimKeepsJob(j: Job, now: Time, log: seq<Event>)
    requires JobOk(j, log)
    requires !Settled(Swept(j, now).state)
    ensures var k := Swept(j, now);
            if k.state == Queued
            then var row := Reserving(k, now);
                 JobOk(row, log) && Settles(j, row) && Agrees(Reserved(k.(attempts := k.attempts + 1), now), row, log)
            else var row := Leased(k, now);
                 JobOk(row, log) && Settles(j, row) && Agrees(Polling(k), row, log)
  {
  }

  lemma VerifyKeepsJob(pc: Worker, v: Verifier, step: VerifyStep, j: Job, log: seq<Event>)
    requires JobOk(j, log) && Agrees(pc, j, log)
    requires VerifyReady(v, step, j) && (!v.Resting? ==> Fenced(v.job, j)) && (v.MountRead? ==> v.job.folder != "")
    ensures JobOk(VerifyRow(v, step, j), log)
    ensures Agrees(pc, VerifyRow(v, step, j), log) && Settles(j, VerifyRow(v, step, j))
  {
  }

  /** An obtained placement, by upload, adoption or lookup. */
  lemma PlacingKeepsJob(j: Job, later: Job, id: int, log: seq<Event>)
    requires JobOk(j, log) && id > 0
    requires later.state == Downloading && later.providerId == id && later.missingChecks == 0
    ensures JobOk(later, log + [Placed(id)])
  {
    TrailingOfOneMore(log, Placed(id));
    PlacingIsPlacement(log, id);
    OtherEventKeepsNoBlindUpload(log, Placed(id));
  }

  /** What a poll makes of the copy it was given. */
  ghost predicate Counted(copy: Job, w: Job, e: Event) {
    && w.providerId == copy.providerId && Check(e, copy.providerId)
    && w.missingChecks == (if e.Absent? then Min(3, copy.missingChecks + 1) else 0)
    && (w.state == Queued ==> w.missingChecks == CONFIRMATIONS && copy.attempts < MAX_ATTEMPTS)
    && (w.state == Completed ==> copy.state == Completed && !e.Absent?)
    && (Watched(w.state) || w.state == Queued || w.state == Failed)
  }

  lemma PollCounts(copy: Job, answer: Answer, c: Config)
    requires Watched(copy.state) && 0 <= copy.missingChecks <= CONFIRMATIONS && PollOutcome(copy, answer, c).Write?
    ensures Counted(copy, PollOutcome(copy, answer, c).job, Observation(copy, answer))
  {
  }

  lemma WriteKeepsJob(copy: Job, w: Job, e: Event, delay: int, j: Job, now: Time, log: seq<Event>)
    requires JobOk(j, log) && Agrees(Polling(copy), j, log) && Watched(copy.state) && copy.providerId > 0
    requires Counted(copy, w, e) && (copy.files != [] ==> w.files != [] && Sizes(w.files) == Sizes(copy.files))
    ensures JobOk(Updated(j, w, delay, now), log + [e]) && Settles(j, Updated(j, w, delay, now))
  {
    TrailingOfOneMore(log, e);
    CheckKeepsPlacement(log, j.providerId, e);
    OtherEventKeepsNoBlindUpload(log, e);
    if w.state == Queued {
      ThreeAbsencesAllowUpload(log + [e], j.providerId);
    }
  }

  /** A poll written back by the only worker. */
  lemma PollKeepsJob(copy: Job, answer: Answer, c: Config, j: Job, now: Time, log: seq<Event>)
    requires JobOk(j, log) && Agrees(Answered(copy, answer), j, log)
    requires Watched(copy.state) && Valid(copy.files) && copy.providerId > 0 && PollOutcome(copy, answer, c).Write?
    ensures var write := PollOutcome(copy, answer, c);
            var row := Updated(j, write.job, write.delay, now);
            JobOk(row, log + [Observation(copy, answer)]) && Settles(j, row)
  {
    var write := PollOutcome(copy, answer, c);
    PollCounts(copy, answer, c);
    PollKeepsCatalog(copy, answer, c);
    WriteKeepsJob(copy, write.job, Observation(copy, answer), write.delay, j, now, log);
  }

  /** The upload itself. */
  lemma PostKeepsJob(j: Job, log: seq<Event>)
    requires JobOk(j, log) && j.state == Submitting && MayUpload(log)
    ensures JobOk(j, log + [Uploaded])
  {
    TrailingOfOneMore(log, Uploaded);
    UploadKeepsNoBlindUpload(log);
  }

  /** A step that records nothing in the history. */
  lemma QuietKeepsJob(pc: Worker, step: WorkStep, j: Job, now: Time, log: seq<Event>)
    requires JobOk(j, log) && Agrees(pc, j, log) && WorkReady(pc, step)
    requires step.Lose? || step.Defer? || step.Reply? || step.Drop?
    ensures JobOk(WorkRow(pc, step, j, now), log) && Agrees(WorkPc(pc, step), WorkRow(pc, step, j, now), log)
    ensures Settles(j, WorkRow(pc, step, j, now))
  {
  }

  /** A step of the only worker, but for polls. */
  lemma SubmitKeepsJob(pc: Worker, step: WorkStep, j: Job, now: Time, log: seq<Event>)
    requires JobOk(j, log) && Agrees(pc, j, log) && WorkReady(pc, step) && !step.RecordPoll?
    ensures JobOk(WorkRow(pc, step, j, now), log + WorkEvents(pc, step, j))
    ensures Agrees(WorkPc(pc, step), WorkRow(pc, step, j, now), log + WorkEvents(pc, step, j))
    ensures Settles(j, WorkRow(pc, step, j, now))
  {
    match step
    case Post => PostKeepsJob(j, log);
    case Adopt(id, _) => PlacingKeepsJob(j, WorkRow(pc, step, j, now), id, log);
    case Accept(id, _) => PlacingKeepsJob(j, WorkRow(pc, step, j, now), id, log);
    case Resolve(id) => ResolveKeepsJob(pc.job, id, j, now, log);
    case Lose(_) | Defer | Reply(_) | Drop =>
      QuietKeepsJob(pc, step, j, now, log);
      assert log + [] == log;
  }

  lemma ResolveKeepsJob(seen: Job, id: int, j: Job, now: Time, log: seq<Event>)
    requires JobOk(j, log)
    ensures var row := Resolved(j, seen, id, now);
            JobOk(row, log + if id > 0 && Resolvable(j, seen) then [Placed(id)] else []) && Settles(j, row)
  {
    if id > 0 && Resolvable(j, seen) {
      TrailingOfUploads(log);
      PlacingKeepsJob(j, Resolved(j, seen, id, now), id, log);
    } else {
      assert log + [] == log;
    }
  }

  /** Any step of the only worker. */
  lemma WorkKeepsJob(pc: Worker, step: WorkStep, j: Job, now: Time, log: seq<Event>)
    requires JobOk(j, log) && Agrees(pc, j, log) && WorkReady(pc, step) && CopySound(pc.job)
    requires pc.Answered? ==> Watched(pc.job.state)
    ensures JobOk(WorkRow(pc, step, j, now), log + WorkEvents(pc, step, j))
    ensures Agrees(WorkPc(pc, step), WorkRow(pc, step, j, now), log + WorkEvents(pc, step, j))
    ensures Settles(j, WorkRow(pc, step, j, now))
  {
    if step.RecordPoll? {
      PollKeepsJob(pc.job, pc.answer, step.config, j, now, log);
    } else {
      SubmitKeepsJob(pc, step, j, now, log);
    }
  }
}
