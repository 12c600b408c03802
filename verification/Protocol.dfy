/** The gateway as a state machine: workers, mount verifiers and HTTP requests over the tables of one
    tenant, one database transaction or provider call per action. */
module Protocol {
  import opened Options
  import opened Catalog
  import opened Sources
  import opened Rows
  import opened Polling
  import opened Store

  type Id = nat

  /** Where a provider worker stands. Idle is also a worker that crashed and was restarted. */
  datatype Worker =
    | Idle
    | Reserved(job: Job, at: Time)        // a submission is claimed, nothing has been sent
    | Posted(job: Job, at: Time)          // the upload request has been sent
    | Polling(job: Job)                   // a watched row is claimed, the provider is being asked
    | Answered(job: Job, answer: Answer)  // the provider status is recorded, the row is not yet
    | LookingUp(job: Job)                 // an unknown torrent submission is being looked up

  /** Where a mount verification stands. */
  datatype Verifier =
    | Resting
    | Verifying(job: Job)
    | MountRead(job: Job)                 // the probe read succeeded
    | Cleaning(job: Job)

  /** The history of a job: uploads, recorded placements and recorded observations of a placement. */
  datatype Event =
    | Uploaded
    | Placed(id: int)
    | Absent(id: int)
    | Present(id: int)
    | CheckFailed(id: int)

  /** A successful mount read, with the placement and catalog of the snapshot it was made against. */
  datatype Read = Read(providerId: int, sizes: map<string, int>)

  datatype System = System(
    now: Time,
    db: Db,
    workers: map<Id, Worker>,
    verifiers: map<Id, Verifier>,
    log: map<JobId, seq<Event>>,          // history
    mountReads: map<JobId, set<Read>>,    // history
    reservations: seq<Time>)              // history

  /** What an HTTP client may ask of an existing job. */
  datatype Request =
    | Readd(id: JobId)
    | Wake(id: JobId)
    | SetCategory(hash: string, category: string)
    | Hide(id: JobId)
    | RequestCleanup(id: JobId)
    | RequestRecovery(id: JobId, seen: Job)

  /** What a worker with a claimed job may do next. */
  datatype WorkStep =
    | Post                                    // send the upload
    | Adopt(providerId: int, delay: int)      // the account already lists the hash
    | Accept(providerId: int, delay: int)     // the upload was answered with an ID
    | Lose(delay: int)                        // an error, before or after the upload
    | Defer                                   // the provider was not asked to add anything
    | Reply(answer: Answer)                   // the provider answered a poll
    | RecordPoll(config: Config)              // write back what the answer means
    | Resolve(providerId: int)                // the lookup found an exact match
    | Drop                                    // crash, cancelled context, rejected answer

  /** What a mount verification with a claimed job may do next. */
  datatype VerifyStep =
    | Pin(folder: string)
    | ReadMount
    | FinishMount(detail: string)
    | FinishCleanup
    | Rest

  datatype Action =
    | Tick(to: Time)
    | Add(id: JobId, source: Saved, category: string, name: string)
    | Ask(request: Request)
    | Sweep(w: Id)                            // a claim that finds nothing to do
    | Claim(w: Id, id: JobId, interval: int)
    | ClaimUnknown(w: Id, id: JobId)
    | Work(w: Id, step: WorkStep)
    | ClaimMount(v: Id, id: JobId)
    | Reload(v: Id, id: JobId)
    | Verify(v: Id, verify: VerifyStep)

  const MIN_INTERVAL := 60   // configuration refuses a shorter submission interval

  ghost predicate Init(s: System) {
    && s.db == Db(map[], None)
    && (forall w :: w in s.workers ==> s.workers[w] == Idle)
    && (forall v :: v in s.verifiers ==> s.verifiers[v] == Resting)
    && s.log == map[] && s.mountReads == map[] && s.reservations == []
  }

  ghost function Row(s: System, id: JobId): Job
    requires id in s.db.jobs
  {
    s.db.jobs[id]
  }

  ghost function Log(s: System, id: JobId): seq<Event> {
    if id in s.log then s.log[id] else []
  }

  ghost function Reads(s: System, id: JobId): set<Read> {
    if id in s.mountReads then s.mountReads[id] else {}
  }

  function Asked(j: Job, r: Request, now: Time): Job {
    match r
    case Readd(id) => if j.id == id then Readded(j) else j
    case Wake(id) => if j.id == id then Woken(j, now) else j
    case SetCategory(hash, category) => Recategorised(j, hash, category)
    case Hide(id) => if j.id == id then HiddenRow(j) else j
    case RequestCleanup(id) => if j.id == id then CleanupRequested(j, now) else j
    case RequestRecovery(id, seen) => if j.id == id then RecoveryRequested(j, seen, now) else j
  }

  function AskedAll(jobs: map<JobId, Job>, r: Request, now: Time): map<JobId, Job> {
    map id | id in jobs :: Asked(jobs[id], r, now)
  }

  /** Whether a worker that stands at `pc` may take a step. */
  ghost predicate WorkReady(pc: Worker, step: WorkStep) {
    match step
    case Post => pc.Reserved?
    case Adopt(id, _) => pc.Reserved? && pc.job.source.torrent && id > 0
    case Accept(id, _) => pc.Posted? && id > 0
    case Lose(_) => pc.Reserved? || pc.Posted?
    case Defer => pc.Reserved? && pc.job.source.torrent
    case Reply(_) => pc.Polling?
    case RecordPoll(config) => pc.Answered? && PollOutcome(pc.job, pc.answer, config).Write?
    case Resolve(_) => pc.LookingUp?
    case Drop => !pc.Idle?
  }

  /** The copy a worker writes back once it holds a placement ID. */
  function Obtained(j: Job, id: int): Job {
    j.(providerId := id, state := Downloading, missingChecks := 0)
  }

  ghost function WorkRow(pc: Worker, step: WorkStep, row: Job, now: Time): Job
    requires WorkReady(pc, step)
  {
    match step
    case Post => row
    case Adopt(id, delay) => Updated(row, Obtained(pc.job, id), delay, now)
    case Accept(id, delay) => Updated(row, Obtained(pc.job, id), delay, now)
    case Lose(delay) => Updated(row, pc.job.(state := SubmissionUnknown), delay, now)
    case Defer => Deferred(row, now)
    case Reply(answer) =>
      if answer.CheckError? then CheckFailureRecorded(row, pc.job) else StatusRecorded(row, pc.job, StatusOf(pc.job, answer))
    case RecordPoll(config) =>
      var write := PollOutcome(pc.job, pc.answer, config);
      Updated(row, write.job, write.delay, now)
    case Resolve(id) => Resolved(row, pc.job, id, now)
    case Drop => row
  }

  function WorkPc(pc: Worker, step: WorkStep): Worker
    requires step.Post? ==> pc.Reserved?
    requires step.Reply? ==> pc.Polling?
  {
    match step
    case Post => Posted(pc.job, pc.at)
    case Reply(answer) => Answered(pc.job, answer)
    case _ => Idle
  }

  /** What a recorded answer says about the placement. */
  function Observation(j: Job, a: Answer): Event {
    if a.CheckError? then CheckFailed(j.providerId)
    else if !(a.Found? && a.download.failed) && Absence(a) then Absent(j.providerId)
    else Present(j.providerId)
  }

  ghost function WorkEvents(pc: Worker, step: WorkStep, row: Job): seq<Event>
    requires WorkReady(pc, step)
  {
    match step
    case Post => [Uploaded]
    case Adopt(id, _) => [Placed(id)]
    case Accept(id, _) => [Placed(id)]
    case RecordPoll(_) => [Observation(pc.job, pc.answer)]
    case Resolve(id) => if id > 0 && Resolvable(row, pc.job) then [Placed(id)] else []
    case _ => []
  }

  /** The row after a poll: the status first, then what the answer means, if anything is written. */
  ghost function Polled(row: Job, claimed: Job, answer: Answer, config: Config, now: Time): Job {
    var told := WorkRow(Polling(claimed), Reply(answer), row, now);
    if PollOutcome(claimed, answer, config).Write?
    then WorkRow(Answered(claimed, answer), RecordPoll(config), told, now)
    else told
  }

  ghost predicate VerifyReady(pc: Verifier, step: VerifyStep, row: Job) {
    match step
    case Pin(folder) => pc.Verifying? && pc.job.folder == "" && folder != "" && Pinnable(row, pc.job)
    case ReadMount => pc.Verifying? && pc.job.folder != "" && HasPayload(pc.job.files)
    case FinishMount(detail) => pc.MountRead? || (pc.Verifying? && detail != "")
    case FinishCleanup => pc.Cleaning?
    case Rest => !pc.Resting?
  }

  ghost function VerifyRow(pc: Verifier, step: VerifyStep, row: Job): Job
    requires VerifyReady(pc, step, row)
  {
    match step
    case Pin(folder) => Pinned(row, folder)
    case FinishMount(detail) => Finished(row, pc.job, detail)
    case FinishCleanup => CleanupFinished(row, pc.job)
    case _ => row
  }

  ghost function VerifyPc(pc: Verifier, step: VerifyStep, row: Job): Verifier
    requires VerifyReady(pc, step, row)
  {
    match step
    case Pin(folder) => Verifying(Pinned(row, folder))
    case ReadMount => MountRead(pc.job)
    case _ => Resting
  }

  ghost function VerifyReads(pc: Verifier, step: VerifyStep): set<Read>
    requires step.ReadMount? ==> !pc.Resting?
  {
    if step.ReadMount? then {Read(pc.job.providerId, Sizes(pc.job.files))} else {}
  }

  /** Its copy points at a row; rows are never deleted. */
  ghost predicate WorkerAt(s: System, w: Id) {
    w in s.workers && !s.workers[w].Idle? && s.workers[w].job.id in s.db.jobs
  }

  ghost predicate VerifierAt(s: System, v: Id) {
    v in s.verifiers && !s.verifiers[v].Resting? && s.verifiers[v].job.id in s.db.jobs
  }

  ghost predicate Enabled(s: System, a: Action) {
    match a
    case Tick(to) => to > s.now
    case Add(id, source, category, _) =>
      id !in s.db.jobs && forall o :: o in s.db.jobs ==> !SameKey(s.db.jobs[o], source, category)
    case Ask(r) => r.SetCategory? ==> UniqueKeys(AskedAll(s.db.jobs, r, s.now))
    case Sweep(w) => w in s.workers && s.workers[w] == Idle
    case Claim(w, id, interval) =>
      w in s.workers && s.workers[w] == Idle && interval >= MIN_INTERVAL && Pickable(s.db, s.now, id)
    case ClaimUnknown(w, id) =>
      w in s.workers && s.workers[w] == Idle && id in s.db.jobs && LookupClaimable(Row(s, id), s.now)
    case Work(w, step) => WorkerAt(s, w) && WorkReady(s.workers[w], step)
    case ClaimMount(v, id) =>
      v in s.verifiers && s.verifiers[v] == Resting && id in s.db.jobs && MountClaimable(Row(s, id), s.now)
    case Reload(v, id) => v in s.verifiers && s.verifiers[v] == Resting && id in s.db.jobs
    case Verify(v, step) =>
      VerifierAt(s, v) && VerifyReady(s.verifiers[v], step, Row(s, s.verifiers[v].job.id))
  }

  ghost function ApplyClaim(s: System, w: Id, id: JobId, interval: int): System
    requires Pickable(s.db, s.now, id)
  {
    var j := Snapshot(s.db, s.now, id);
    s.(db := Claimed(s.db, s.now, interval, id),
       workers := s.workers[w := if j.state == Queued then Reserved(j, s.now) else Polling(j)],
       reservations := if j.state == Queued then s.reservations + [s.now] else s.reservations)
  }

  ghost function ApplyWork(s: System, w: Id, step: WorkStep): System
    requires WorkerAt(s, w) && WorkReady(s.workers[w], step)
  {
    var pc := s.workers[w];
    var id := pc.job.id;
    var row := Row(s, id);
    s.(db := s.db.(jobs := s.db.jobs[id := WorkRow(pc, step, row, s.now)]),
       workers := s.workers[w := WorkPc(pc, step)],
       log := s.log[id := Log(s, id) + WorkEvents(pc, step, row)])
  }

  ghost function ApplyVerify(s: System, v: Id, step: VerifyStep): System
    requires VerifierAt(s, v) && VerifyReady(s.verifiers[v], step, Row(s, s.verifiers[v].job.id))
  {
    var pc := s.verifiers[v];
    var id := pc.job.id;
    var row := Row(s, id);
    s.(db := s.db.(jobs := s.db.jobs[id := VerifyRow(pc, step, row)]),
       verifiers := s.verifiers[v := VerifyPc(pc, step, row)],
       mountReads := s.mountReads[id := Reads(s, id) + VerifyReads(pc, step)])
  }

  ghost function Apply(s: System, a: Action): System
    requires Enabled(s, a)
  {
    match a
    case Tick(to) => s.(now := to)
    case Add(id, source, category, name) =>
      s.(db := s.db.(jobs := s.db.jobs[id := NewRow(id, source, category, name, s.now)]))
    case Ask(r) => s.(db := s.db.(jobs := AskedAll(s.db.jobs, r, s.now)))
    case Sweep(_) => s.(db := s.db.(jobs := SweptAll(s.db.jobs, s.now)))
    case Claim(w, id, interval) => ApplyClaim(s, w, id, interval)
    case ClaimUnknown(w, id) =>
      s.(db := s.db.(jobs := s.db.jobs[id := Leased(Row(s, id), s.now)]), workers := s.workers[w := LookingUp(Row(s, id))])
    case Work(w, step) => ApplyWork(s, w, step)
    case ClaimMount(v, id) =>
      var j := Row(s, id);
      s.(db := s.db.(jobs := s.db.jobs[id := MountLeased(j, s.now)]),
         verifiers := s.verifiers[v := if j.cleanup then Cleaning(j) else Verifying(j)])
    case Reload(v, id) => s.(verifiers := s.verifiers[v := Verifying(Row(s, id))])
    case Verify(v, step) => ApplyVerify(s, v, step)
  }

  datatype Run = Run(states: seq<System>, actions: seq<Action>)

  ghost predicate IsRun(r: Run) {
    && |r.states| == |r.actions| + 1 && Init(r.states[0])
    && forall i :: 0 <= i < |r.actions| ==> Enabled(r.states[i], r.actions[i]) && r.states[i + 1] == Apply(r.states[i], r.actions[i])
  }

  /** The program starts one provider worker for a tenant; it may crash and restart. */
  ghost predicate OneWorker(r: Run) {
    |r.states| > 0 && forall w :: w in r.states[0].workers ==> w == 0
  }
}
