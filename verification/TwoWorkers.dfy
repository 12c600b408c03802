/** Why some properties are stated for one provider worker: a second one, let in by a wake that ends the
    poll lease, writes back a copy that is no longer current. The answers are those the clients produce for a
    torrent, and no time passes once the upload has been recorded and the polls begin. */
module TwoWorkers {
  import opened Options
  import opened Catalog
  import opened Sources
  import opened Rows
  import opened Polling
  import opened Store
  import opened Protocol
  import opened SingleWorker
  import opened SingleWorkerRuns

  // ---- One job and two workers ----

  datatype View = View(now: Time, row: Job, gate: Time, zero: Worker, one: Worker, log: seq<Event>, reserved: seq<Time>)

  ghost function Full(v: View): System {
    System(v.now, Db(map[0 := v.row], Some(v.gate)), map[0 := v.zero, 1 := v.one], map[], map[0 := v.log], map[], v.reserved)
  }

  type Pair = w: Id | w < 2

  function Pc(v: View, w: Pair): Worker {
    if w == 0 then v.zero else v.one
  }

  function Put(v: View, w: Pair, pc: Worker): View {
    if w == 0 then v.(zero := pc) else v.(one := pc)
  }

  ghost predicate Reached(r: Run, s: System) {
    IsRun(r) && r.states[|r.actions|] == s
  }

  ghost predicate Steps(s: System, a: Action, s': System) {
    Enabled(s, a) && Apply(s, a) == s'
  }

  lemma Then(r: Run, s: System, a: Action, s': System) returns (t: Run)
    requires Reached(r, s) && Steps(s, a, s')
    ensures Reached(t, s') && t.states == r.states + [s'] && t.actions == r.actions + [a]
  {
    t := Run(r.states + [s'], r.actions + [a]);
    forall i | 0 <= i < |t.actions| ensures Enabled(t.states[i], t.actions[i]) && t.states[i + 1] == Apply(t.states[i], t.actions[i]) {
      if i < |r.actions| {
        assert Enabled(r.states[i], r.actions[i]) && r.states[i + 1] == Apply(r.states[i], r.actions[i]);
      }
    }
  }

  lemma Ticks(v: View, to: Time)
    requires to > v.now
    ensures Steps(Full(v), Tick(to), Full(v.(now := to)))
  {
  }

  lemma Wakes(v: View)
    requires v.row.id == 0
    ensures Steps(Full(v), Ask(Wake(0)), Full(v.(row := Woken(v.row, v.now))))
  {
  }

  lemma Claims(v: View, w: Pair)
    requires v.row.id == 0 && Watched(v.row.state) && v.row.nextCheck <= v.now && Pc(v, w) == Idle
    ensures Steps(Full(v), Claim(w, 0, 60), Full(Put(v.(row := Leased(v.row, v.now)), w, Polling(v.row))))
  {
    assert Swept(v.row, v.now) == v.row;
    assert SweptAll(Full(v).db.jobs, v.now) == map[0 := v.row];
  }

  lemma Reserves(v: View)
    requires v.row.id == 0 && v.row.state == Queued && v.row.attempts < MAX_ATTEMPTS
    requires v.row.nextCheck <= v.now && v.gate <= v.now && v.zero == Idle
    ensures Steps(Full(v), Claim(0, 0, 60),
                  Full(v.(row := Reserving(v.row, v.now), zero := Reserved(v.row.(attempts := v.row.attempts + 1), v.now),
                          gate := v.now + 60, reserved := v.reserved + [v.now])))
  {
  }

  ghost function Worked(v: View, w: Pair, step: WorkStep): View
    requires WorkReady(Pc(v, w), step)
  {
    var pc := Pc(v, w);
    Put(v.(row := WorkRow(pc, step, v.row, v.now), log := v.log + WorkEvents(pc, step, v.row)), w, WorkPc(pc, step))
  }

  lemma Works(v: View, w: Pair, step: WorkStep)
    requires WorkReady(Pc(v, w), step) && !Pc(v, w).Idle? && Pc(v, w).job.id == 0
    ensures Steps(Full(v), Work(w, step), Full(Worked(v, w, step)))
  {
  }

  // ---- Passages ----

  const CONFIG := Config(true, 30)
  const GONE := NotFound
  const GOING := Found(Download(false, "", "downloading", Some(false), []))
  const BROKEN := Found(Download(true, "", "failed", Some(false), []))

  function Ready1(name: string): Answer {
    Found(Download(false, "", "cached", Some(true), [File(0, name, 1)]))
  }

  /** A job that has just been uploaded. */
  ghost function Uploaded1(source: Saved, now: Time): View {
    var row := NewRow(0, source, "tv", "name", 0).(state := Downloading, attempts := 1, providerId := 7, revision := 1, nextCheck := 30);
    View(now, row, 60, Idle, Idle, [Uploaded, Placed(7)], [0])
  }

  ghost function Empty(): System {
    System(0, Db(map[], None), map[0 := Idle, 1 := Idle], map[], map[], map[], [])
  }

  ghost function Added(source: Saved): System {
    Empty().(db := Db(map[0 := NewRow(0, source, "tv", "name", 0)], None))
  }

  ghost function Claimed1(source: Saved): System {
    var row := NewRow(0, source, "tv", "name", 0);
    System(0, Db(map[0 := Reserving(row, 0)], Some(60)), map[0 := Reserved(row.(attempts := 1), 0), 1 := Idle],
           map[], map[], map[], [0])
  }

  ghost function Posted1(source: Saved): View {
    var row := NewRow(0, source, "tv", "name", 0);
    View(0, Reserving(row, 0), 60, Posted(row.(attempts := 1), 0), Idle, [Uploaded], [0])
  }

  lemma Submits(source: Saved)
    ensures Steps(Empty(), Add(0, source, "tv", "name"), Added(source))
    ensures Steps(Added(source), Claim(0, 0, 60), Claimed1(source))
  {
  }

  lemma Posts(source: Saved)
    ensures Steps(Claimed1(source), Work(0, Post), Full(Posted1(source)))
  {
    assert [] + [Uploaded] == [Uploaded];
  }

  lemma Accepts(source: Saved)
    ensures Steps(Full(Posted1(source)), Work(0, Accept(7, 30)), Full(Uploaded1(source, 0)))
  {
    Works(Posted1(source), 0, Accept(7, 30));
    assert [Uploaded] + [Placed(7)] == [Uploaded, Placed(7)];
    assert Worked(Posted1(source), 0, Accept(7, 30)) == Uploaded1(source, 0);
  }

  lemma Uploads1(source: Saved, now: Time) returns (r: Run)
    requires now > 0
    ensures Reached(r, Full(Uploaded1(source, now)))
  {
    Submits(source);
    Posts(source);
    Accepts(source);
    Ticks(Uploaded1(source, 0), now);
    r := Run([Empty()], []);
    r := Then(r, Empty(), Add(0, source, "tv", "name"), Added(source));
    r := Then(r, Added(source), Claim(0, 0, 60), Claimed1(source));
    r := Then(r, Claimed1(source), Work(0, Post), Full(Posted1(source)));
    r := Then(r, Full(Posted1(source)), Work(0, Accept(7, 30)), Full(Uploaded1(source, 0)));
    r := Then(r, Full(Uploaded1(source, 0)), Tick(now), Full(Uploaded1(source, now)));
  }

  /** A wake, and a claim by an idle worker. */
  ghost function Taken(v: View, w: Pair): View {
    var woken := Woken(v.row, v.now);
    Put(v.(row := Leased(woken, v.now)), w, Polling(woken))
  }

  lemma Takes(r: Run, v: View, w: Pair) returns (t: Run)
    requires Reached(r, Full(v)) && v.row.id == 0 && Watched(v.row.state) && Pc(v, w) == Idle
    ensures Reached(t, Full(Taken(v, w))) && r.states <= t.states
  {
    var woken := v.(row := Woken(v.row, v.now));
    Wakes(v);
    Claims(woken, w);
    t := Then(r, Full(v), Ask(Wake(0)), Full(woken));
    t := Then(t, Full(woken), Claim(w, 0, 60), Full(Taken(v, w)));
  }

  /** An answer, and its write-back. */
  ghost function Told(v: View, w: Pair, a: Answer): View
    requires Pc(v, w).Polling? && PollOutcome(Pc(v, w).job, a, CONFIG).Write?
  {
    var copy := Pc(v, w).job;
    Put(v.(row := Polled(v.row, copy, a, CONFIG, v.now), log := v.log + [Observation(copy, a)]), w, Idle)
  }

  lemma Tells(r: Run, v: View, w: Pair, a: Answer) returns (t: Run)
    requires Reached(r, Full(v)) && Pc(v, w).Polling? && Pc(v, w).job.id == 0 && PollOutcome(Pc(v, w).job, a, CONFIG).Write?
    ensures Reached(t, Full(Told(v, w, a))) && r.states < t.states && r.actions < t.actions
    ensures t.states[|t.actions| - 1].db.jobs.Keys == {0}
    ensures SameCopy(Row(t.states[|t.actions| - 1], 0), v.row) && Row(t.states[|t.actions| - 1], 0).state == v.row.state
    ensures t.actions[|t.actions| - 1] == Work(w, RecordPoll(CONFIG))
  {
    var answered := Worked(v, w, Reply(a));
    Works(v, w, Reply(a));
    assert v.log + [] == v.log;
    assert Pc(answered, w) == Answered(Pc(v, w).job, a);
    Works(answered, w, RecordPoll(CONFIG));
    assert Worked(answered, w, RecordPoll(CONFIG)) == Told(v, w, a);
    t := Then(r, Full(v), Work(w, Reply(a)), Full(answered));
    t := Then(t, Full(answered), Work(w, RecordPoll(CONFIG)), Full(Told(v, w, a)));
  }

  /** A row or copy of the job with its first placement and no files yet. */
  ghost predicate Shape(j: Job, state: State, checks: int) {
    && j.id == 0 && j.state == state && j.missingChecks == checks
    && j.providerId == 7 && j.files == [] && j.attempts == 1
  }

  lemma TakenShape(v: View, w: Pair, state: State, checks: int)
    requires Shape(v.row, state, checks) && Watched(state)
    ensures Shape(Taken(v, w).row, state, checks)
    ensures Pc(Taken(v, w), w).Polling? && Shape(Pc(Taken(v, w), w).job, state, checks)
  {
  }

  lemma ToldGone(v: View, w: Pair, state: State, checks: int, copyState: State, copyChecks: int)
    requires Shape(v.row, state, checks) && state != Completed
    requires Pc(v, w).Polling? && Shape(Pc(v, w).job, copyState, copyChecks) && 0 <= copyChecks < 3
    ensures Shape(Told(v, w, GONE).row, if copyChecks < 2 then Missing else Queued, copyChecks + 1)
    ensures Told(v, w, GONE).log == v.log + [Absent(7)]
  {
  }

  lemma ToldGoing(v: View, w: Pair, state: State, checks: int, copyState: State, copyChecks: int)
    requires Shape(v.row, state, checks) && state != Completed
    requires Pc(v, w).Polling? && Shape(Pc(v, w).job, copyState, copyChecks)
    ensures Shape(Told(v, w, GOING).row, Downloading, 0)
    ensures Told(v, w, GOING).log == v.log + [Present(7)]
  {
  }

  lemma ToldBroken(v: View, w: Pair, state: State, checks: int, copyState: State, copyChecks: int)
    requires Shape(v.row, state, checks) && state != Completed
    requires Pc(v, w).Polling? && Shape(Pc(v, w).job, copyState, copyChecks)
    ensures Shape(Told(v, w, BROKEN).row, Failed, 0)
  {
  }

  /** Worker 0 polls and finds the placement gone, for the first or second time. */
  lemma OneAbsence(r: Run, v: View, state: State, checks: int) returns (t: Run, u: View)
    requires Reached(r, Full(v)) && Shape(v.row, state, checks) && Watched(state) && state != Completed
    requires 0 <= checks < 3 && v.zero == Idle
    ensures Reached(t, Full(u)) && Shape(u.row, if checks < 2 then Missing else Queued, checks + 1)
    ensures u.log == v.log + [Absent(7)] && u.one == v.one && u.zero == Idle && u.now == v.now && u.gate == v.gate
  {
    TakenShape(v, 0, state, checks);
    t := Takes(r, v, 0);
    ToldGone(Taken(v, 0), 0, state, checks, state, checks);
    t := Tells(t, Taken(v, 0), 0, GONE);
    u := Told(Taken(v, 0), 0, GONE);
  }

  /** Both workers hold a copy of the row as it is. */
  lemma BothTake(r: Run, v: View, state: State, checks: int) returns (t: Run, u: View)
    requires Reached(r, Full(v)) && Shape(v.row, state, checks) && Watched(state) && v.zero == v.one == Idle
    ensures Reached(t, Full(u)) && Shape(u.row, state, checks) && u.log == v.log && u.now == v.now && u.gate == v.gate
    ensures u.zero.Polling? && Shape(u.zero.job, state, checks) && u.one.Polling? && Shape(u.one.job, state, checks)
  {
    TakenShape(v, 0, state, checks);
    t := Takes(r, v, 0);
    u := Taken(v, 0);
    TakenShape(u, 1, state, checks);
    t := Takes(t, u, 1);
    u := Taken(u, 1);
  }

  // ---- The runs ----

  /** A failed job comes back. */
  lemma FailedIsNotAbsorbing(source: Saved) returns (r: Run, i: nat)
    ensures IsRun(r) && i < |r.states| - 1 && 0 in r.states[i].db.jobs && 0 in r.states[|r.states| - 1].db.jobs
    ensures Row(r.states[i], 0).state == Failed && Row(r.states[|r.states| - 1], 0).state == Downloading
  {
    r := Uploads1(source, 30);
    var v: View;
    r, v := BothTake(r, Uploaded1(source, 30), Downloading, 0);
    ToldBroken(v, 0, Downloading, 0, Downloading, 0);
    r := Tells(r, v, 0, BROKEN);
    v := Told(v, 0, BROKEN);
    i := |r.actions|;
    ToldGoing(v, 1, Failed, 0, Downloading, 0);
    r := Tells(r, v, 1, GOING);
  }

  const STALE_LOG: seq<Event> := [Uploaded, Placed(7), Absent(7), Absent(7), Present(7), Absent(7)]

  lemma TwoAbsences(source: Saved) returns (r: Run, v: View)
    ensures Reached(r, Full(v)) && Shape(v.row, Missing, 2) && v.log == [Uploaded, Placed(7), Absent(7), Absent(7)]
    ensures v.zero == v.one == Idle && v.now == 60 && v.gate == 60
  {
    r := Uploads1(source, 60);
    r, v := OneAbsence(r, Uploaded1(source, 60), Downloading, 0);
    r, v := OneAbsence(r, v, Missing, 1);
  }

  /** Two absences, then both workers poll: one sees the placement, the other one does not. */
  lemma StaleRequeue(source: Saved) returns (r: Run, v: View)
    ensures Reached(r, Full(v)) && Shape(v.row, Queued, 3) && v.log == STALE_LOG
    ensures v.zero == v.one == Idle && v.now == 60 && v.gate == 60
    ensures |r.actions| > 0 && r.actions[|r.actions| - 1] == Work(1, RecordPoll(CONFIG))
    ensures 0 in r.states[|r.actions| - 1].db.jobs && Row(r.states[|r.actions| - 1], 0).state == Downloading
  {
    r, v := TwoAbsences(source);
    r, v := BothTake(r, v, Missing, 2);
    ToldGoing(v, 0, Missing, 2, Missing, 2);
    r := Tells(r, v, 0, GOING);
    v := Told(v, 0, GOING);
    ToldGone(v, 1, Downloading, 0, Missing, 2);
    r := Tells(r, v, 1, GONE);
    v := Told(v, 1, GONE);
  }

  lemma StaleTrailing()
    ensures Trailing(STALE_LOG) == 1
  {
    TrailingOfOneMore([Uploaded, Placed(7), Absent(7), Absent(7)], Present(7));
    TrailingOfOneMore([Uploaded, Placed(7), Absent(7), Absent(7), Present(7)], Absent(7));
    assert [Uploaded, Placed(7), Absent(7), Absent(7)] + [Present(7)] == [Uploaded, Placed(7), Absent(7), Absent(7), Present(7)];
    assert [Uploaded, Placed(7), Absent(7), Absent(7), Present(7)] + [Absent(7)] == STALE_LOG;
  }

  /** The counter claims three absences in a row where the history has one ... */
  lemma CounterIsNotHistory(source: Saved) returns (r: Run, s: System)
    ensures Reached(r, s) && 0 in s.db.jobs
    ensures Row(s, 0).missingChecks != Min(3, Trailing(Log(s, 0)))
  {
    var v: View;
    r, v := StaleRequeue(source);
    s := Full(v);
    StaleTrailing();
  }

  /** ... on which the job is queued again ... */
  lemma RequeueIsNotConfirmed(source: Saved) returns (r: Run, i: nat)
    ensures IsRun(r) && i < |r.actions| && 0 in r.states[i].db.jobs
    ensures !RequeueConfirmed(r.states[i], r.actions[i], r.states[i + 1], 0)
  {
    var v: View;
    r, v := StaleRequeue(source);
    i := |r.actions| - 1;
    StaleTrailing();
    assert Log(r.states[i + 1], 0) == STALE_LOG;
  }

  /** ... and uploaded again without justification. */
  lemma ReuploadIsBlind(source: Saved) returns (r: Run, s: System)
    ensures Reached(r, s) && |Log(s, 0)| == 7 && Log(s, 0)[0].Uploaded? && Log(s, 0)[6].Uploaded?
    ensures !Justified(Log(s, 0), 0, 6)
  {
    var v: View;
    r, v := StaleRequeue(source);
    var woken := v.(row := Woken(v.row, v.now));
    Wakes(v);
    r := Then(r, Full(v), Ask(Wake(0)), Full(woken));
    Reserves(woken);
    var reserved := woken.(row := Reserving(woken.row, 60), zero := Reserved(woken.row.(attempts := 2), 60),
                           gate := 120, reserved := woken.reserved + [60]);
    r := Then(r, Full(woken), Claim(0, 0, 60), Full(reserved));
    Works(reserved, 0, Post);
    s := Full(Worked(reserved, 0, Post));
    r := Then(r, Full(reserved), Work(0, Post), s);
    assert Log(s, 0) == STALE_LOG + [Uploaded];
    assert Log(s, 0)[4] == Present(7);
  }

  // ---- A published catalog changes ----

  lemma OneLetter(name: string)
    requires name == "a" || name == "b"
    ensures Valid([File(0, name, 1)]) && Sizes([File(0, name, 1)]) == map[name := 1]
  {
    var rest := Parts("");
    assert name[1..] == "" && rest == [""];
    assert [name[0]] + rest[0] == name && rest[1..] == [];
    assert Parts(name) == [name];
    assert [File(0, name, 1)][..0] == [];
  }

  lemma ToldReady(v: View, w: Pair, name: string)
    requires v.row.id == 0 && v.row.state in {Downloading, Mounting} && (name == "a" || name == "b")
    requires Pc(v, w).Polling? && Shape(Pc(v, w).job, Downloading, 0)
    ensures PollOutcome(Pc(v, w).job, Ready1(name), CONFIG).Write?
    ensures var row := Told(v, w, Ready1(name)).row;
            row.id == 0 && row.state == Mounting && row.files == [File(0, name, 1)]
  {
    OneLetter(name);
  }

  /** Both workers hold a copy without files, and each publishes what it finds. */
  lemma ImportPathsAreNotStable(source: Saved) returns (r: Run, i: nat)
    ensures IsRun(r) && i < |r.states| - 1 && 0 in r.states[i].db.jobs && 0 in r.states[|r.states| - 1].db.jobs
    ensures Row(r.states[i], 0).files != []
    ensures Sizes(Row(r.states[|r.states| - 1], 0).files) != Sizes(Row(r.states[i], 0).files)
  {
    r := Uploads1(source, 30);
    var v: View;
    r, v := BothTake(r, Uploaded1(source, 30), Downloading, 0);
    ToldReady(v, 0, "a");
    r := Tells(r, v, 0, Ready1("a"));
    v := Told(v, 0, Ready1("a"));
    i := |r.actions|;
    ToldReady(v, 1, "b");
    r := Tells(r, v, 1, Ready1("b"));
    OneLetter("a");
    OneLetter("b");
    assert "a" in map["a" := 1] && "a" !in map["b" := 1];
  }

  // ---- An unknown submission is left ----

  /** A stale copy is written over a lost recovery upload, which no lookup could have resolved. */
  lemma UnknownIsNotTerminal(source: Saved) returns (r: Run, s: System, t: Run, s': System)
    ensures Reached(r, s) && 0 in s.db.jobs && Stuck(Row(s, 0))
    ensures Reached(t, s') && r.states < t.states && 0 in s'.db.jobs && Row(s', 0).state == Downloading
  {
    var v: View;
    r, v := OneHolds(source);
    r, v := ThreeAbsences(r, v);
    r, v := LosesRecovery(r, v);
    s := Full(v);
    ToldUnknown(v);
    t := Tells(r, v, 1, GOING);
    s' := Full(Told(v, 1, GOING));
  }

  lemma OneHolds(source: Saved) returns (r: Run, v: View)
    ensures Reached(r, Full(v)) && Shape(v.row, Downloading, 0) && v.zero == Idle && v.gate == v.now == 60
    ensures v.one.Polling? && Shape(v.one.job, Downloading, 0)
  {
    r := Uploads1(source, 60);
    v := Uploaded1(source, 60);
    TakenShape(v, 1, Downloading, 0);
    r := Takes(r, v, 1);
    v := Taken(v, 1);
  }

  lemma ThreeAbsences(r: Run, v: View) returns (t: Run, u: View)
    requires Reached(r, Full(v)) && Shape(v.row, Downloading, 0) && v.zero == Idle && v.gate == v.now
    ensures Reached(t, Full(u)) && Shape(u.row, Queued, 3) && u.zero == Idle && u.one == v.one && u.gate == u.now
  {
    t, u := OneAbsence(r, v, Downloading, 0);
    t, u := OneAbsence(t, u, Missing, 1);
    t, u := OneAbsence(t, u, Missing, 2);
  }

  lemma LosesRecovery(r: Run, v: View) returns (t: Run, u: View)
    requires Reached(r, Full(v)) && Shape(v.row, Queued, 3) && v.zero == Idle && v.gate <= v.now
    ensures Reached(t, Full(u)) && u.one == v.one && u.row.id == 0 && u.row.providerId == 7 && u.row.state == SubmissionUnknown
  {
    var woken := v.(row := Woken(v.row, v.now));
    Wakes(v);
    t := Then(r, Full(v), Ask(Wake(0)), Full(woken));
    Reserves(woken);
    var reserved := woken.(row := Reserving(woken.row, v.now), zero := Reserved(woken.row.(attempts := 2), v.now),
                           gate := v.now + 60, reserved := woken.reserved + [v.now]);
    t := Then(t, Full(woken), Claim(0, 0, 60), Full(reserved));
    Works(reserved, 0, Lose(30));
    u := Worked(reserved, 0, Lose(30));
    t := Then(t, Full(reserved), Work(0, Lose(30)), Full(u));
  }

  lemma ToldUnknown(v: View)
    requires v.row.id == 0 && v.one.Polling? && Shape(v.one.job, Downloading, 0)
    ensures Told(v, 1, GOING).row.state == Downloading
  {
  }
}
