/** The tables of one tenant, and the repository methods that change them, one transaction each. */
module Store {
  import opened Options
  import opened Sources
  import opened Torrent
  import opened Rows
  import opened Columns

  /** The jobs of a tenant and its submission gate (None until the gate row is inserted). */
  datatype Db = Db(jobs: map<JobId, Job>, gate: Option<Time>)

  function OnRow(db: Db, id: JobId, statement: Job -> Job): Db {
    if id in db.jobs then db.(jobs := db.jobs[id := statement(db.jobs[id])]) else db
  }

  function SweptAll(jobs: map<JobId, Job>, now: Time): (swept: map<JobId, Job>)
    ensures swept.Keys == jobs.Keys
  {
    map id | id in jobs :: Swept(jobs[id], now)
  }

  predicate Pickable(db: Db, now: Time, id: JobId) {
    id in db.jobs && Claimable(Swept(db.jobs[id], now), db.gate, now)
  }

  /** The claim transaction, for the row it picks: sweeps, then the reservation or the poll lease. */
  function Claimed(db: Db, now: Time, interval: int, id: JobId): Db
    requires Pickable(db, now, id)
  {
    var jobs := SweptAll(db.jobs, now);
    if jobs[id].state == Queued then Db(jobs[id := Reserving(jobs[id], now)], Some(now + interval))
    else Db(jobs[id := Leased(jobs[id], now)], db.gate)
  }

  /** The copy a claim hands to the worker: read before the lease, with the attempt it just used. */
  function Snapshot(db: Db, now: Time, id: JobId): Job
    requires id in db.jobs
  {
    var j := Swept(db.jobs[id], now);
    if j.state == Queued then j.(attempts := j.attempts + 1) else j
  }

  predicate Before(a: Job, b: Job) {
    Precedes(CheckTime, a, b)
  }

  /** The order of a claim query: by the column it sorts on, then by id. */
  predicate Precedes(column: Job -> Time, a: Job, b: Job) {
    column(a) < column(b) || (column(a) == column(b) && a.id <= b.id)
  }

  function CheckTime(j: Job): Time { j.nextCheck }
  function VerifyTime(j: Job): Time { j.verifyNext }

  ghost predicate Identified(jobs: map<JobId, Job>) {
    forall id :: id in jobs ==> jobs[id].id == id
  }

  /** The unique indexes on the jobs table. */
  ghost predicate UniqueKeys(jobs: map<JobId, Job>) {
    forall a, b :: a in jobs && b in jobs && SameKey(jobs[a], jobs[b].source, jobs[b].category) ==> a == b
  }

  /** Statements that touch neither keys nor identities keep the indexes. */
  lemma KeysKept(before: map<JobId, Job>, after: map<JobId, Job>)
    requires Identified(before) && UniqueKeys(before) && before.Keys == after.Keys
    requires forall id :: id in before ==>
               after[id].id == before[id].id && after[id].source == before[id].source && after[id].category == before[id].category
    ensures Identified(after) && UniqueKeys(after)
  {
    forall a, b | a in after && b in after && SameKey(after[a], after[b].source, after[b].category) ensures a == b {
      assert SameKey(before[a], before[b].source, before[b].category);
    }
  }

  lemma SweepKeepsKeys(jobs: map<JobId, Job>, now: Time)
    requires Identified(jobs) && UniqueKeys(jobs)
    ensures Identified(SweptAll(jobs, now)) && UniqueKeys(SweptAll(jobs, now))
  {
    KeysKept(jobs, SweptAll(jobs, now));
  }

  lemma SweepKeepsOrder(jobs: map<JobId, Job>, now: Time, j: Job)
    requires Identified(jobs) && j.id in jobs && j == Swept(jobs[j.id], now)
    ensures forall id :: id in jobs && Before(j, SweptAll(jobs, now)[id]) ==> Before(jobs[j.id], jobs[id])
    ensures j.state == Queued ==> j.attempts < MAX_ATTEMPTS
  {
  }

  /** A row can be picked if it is due, neither final nor being submitted, and, when queued, has an attempt
      left while the gate is open. */
  ghost predicate Due(j: Job, gate: Option<Time>, now: Time) {
    && j.nextCheck <= now && j.state !in {Failed, SubmissionUnknown, Submitting}
    && (j.state == Queued ==> j.attempts < 3 && (gate == None || gate.value <= now))
  }

  lemma PickableIsDue(db: Db, now: Time, id: JobId)
    requires id in db.jobs
    ensures Pickable(db, now, id) <==> Due(db.jobs[id], db.gate, now)
    ensures Pickable(db, now, id) ==> Swept(db.jobs[id], now) == db.jobs[id]
  {
    SweepMeans(db.jobs[id], now);
    ClaimableMeans(Swept(db.jobs[id], now), db.gate, now);
  }

  /** What a claim does to the row it picks, to the gate, and to every other row. */
  lemma ClaimMeans(db: Db, now: Time, interval: int, id: JobId)
    requires Pickable(db, now, id)
    ensures var row, after := db.jobs[id], Claimed(db, now, interval, id);
            && after.jobs.Keys == db.jobs.Keys
            && (row.state == Queued ==>
                  && after.jobs[id] == row.(state := Submitting, attempts := row.attempts + 1, nextCheck := now + 300)
                  && after.gate == Some(now + interval)
                  && Snapshot(db, now, id) == row.(attempts := row.attempts + 1))
            && (row.state != Queued ==>
                  after.jobs[id] == row.(nextCheck := now + 300) && after.gate == db.gate && Snapshot(db, now, id) == row)
            && forall o :: o in db.jobs && o != id ==> after.jobs[o] == Swept(db.jobs[o], now)
  {
    PickableIsDue(db, now, id);
  }

  function RecategorisedAll(jobs: map<JobId, Job>, hash: string, category: string): map<JobId, Job> {
    map id | id in jobs :: Recategorised(jobs[id], hash, category)
  }

  /** Some row of the hash has the category. */
  ghost predicate Named(jobs: map<JobId, Job>, hash: string, category: string) {
    exists id :: id in jobs && jobs[id].source.infoHash == hash && jobs[id].category == category
  }

  class Repo {
    var jobs: map<JobId, Job>
    var gate: Option<Time>

    function Contents(): Db
      reads this
    {
      Db(jobs, gate)
    }

    ghost predicate Valid()
      reads this
    {
      Identified(jobs) && UniqueKeys(jobs)
    }

    constructor ()
      ensures Valid() && Contents() == Db(map[], None)
    {
      jobs, gate := map[], None;
    }

    /** Saves a source once per release; a repeated submission only makes the job visible again. */
    method AddGatewaySource(w: World, m: Metadata, category: string, title: string, newId: JobId, now: Time)
      returns (r: Option<JobId>)
      requires Valid() && newId !in jobs
      modifies this
      ensures Valid() && gate == old(gate)
      ensures r.None? <==> !Submittable(w, m)
      ensures r.None? ==> jobs == old(jobs)
      ensures r.Some? ==> r.value in jobs && old(jobs).Keys + {r.value} == jobs.Keys
      ensures r.Some? ==> SameKey(jobs[r.value], SavedOf(w, ValidateSource(w, m).source), category)
      ensures r.Some? && r.value in old(jobs) ==> jobs == old(jobs)[r.value := Readded(old(jobs[r.value]))]
      ensures r.Some? && r.value !in old(jobs) ==>
                var s := ValidateSource(w, m).source;
                r.value == newId &&
                jobs == old(jobs)[newId := NewRow(newId, SavedOf(w, s), category,
                                                  if s.protocol == "torrent" then title else s.nzbFilename, now)]
    {
      var checked := Check(w, m);
      if !checked.Checked? {
        return None;
      }
      var s := checked.source;
      if s.kind == TorrentFile {
        var verdict := ValidateGatewayTorrent(s.torrentFile, w.sha1);
        if verdict != Accepted {
          return None;
        }
      }
      var id := Upsert(SavedOf(w, s), category, if s.protocol == "torrent" then title else s.nzbFilename, newId, now);
      return Some(id);
    }

    /** The insert, which on a conflict shows the row again. */
    method Upsert(saved: Saved, category: string, name: string, newId: JobId, now: Time) returns (id: JobId)
      requires Valid() && newId !in jobs
      modifies this`jobs
      ensures Valid() && id in jobs && SameKey(jobs[id], saved, category)
      ensures id in old(jobs) ==> jobs == old(jobs)[id := Readded(old(jobs)[id])]
      ensures id !in old(jobs) ==> id == newId && jobs == old(jobs)[id := NewRow(id, saved, category, name, now)]
    {
      var existing := FindKey(saved, category);
      if existing.Some? {
        id := existing.value;
        KeysKept(jobs, jobs[id := Readded(jobs[id])]);
        jobs := jobs[id := jobs[id].(hidden := false, cleanup := false)];
      } else {
        id := newId;
        jobs := jobs[id := NewRow(id, saved, category, name, now)];
      }
    }

    method FindKey(source: Saved, category: string) returns (r: Option<JobId>)
      ensures r.Some? ==> r.value in jobs && SameKey(jobs[r.value], source, category)
      ensures r.None? ==> forall id :: id in jobs ==> !SameKey(jobs[id], source, category)
    {
      var left := jobs.Keys;
      while left != {}
        invariant left <= jobs.Keys
        invariant forall id :: id in jobs && id !in left ==> !SameKey(jobs[id], source, category)
        decreases |left|
      {
        var id :| id in left;
        if SameKey(jobs[id], source, category) {
          return Some(id);
        }
        left := left - {id};
      }
      return None;
    }

    /** Sweeps, then claims the earliest due row: a submission reserves the gate and an attempt before any
        network call; anything else only leases the row. */
    method ClaimGatewayJob(interval: int, now: Time) returns (r: Option<Job>)
      requires Valid()
      modifies this
      ensures Valid()
      ensures r.None? ==> jobs == SweptAll(old(jobs), now) && gate == old(gate)
      ensures r.None? ==> forall id :: id in old(jobs) ==> !Due(old(jobs)[id], old(gate), now)
      ensures r.Some? ==> Pickable(old(Contents()), now, r.value.id)
      ensures r.Some? ==> Contents() == Claimed(old(Contents()), now, interval, r.value.id)
      ensures r.Some? ==> r.value == Snapshot(old(Contents()), now, r.value.id)
      ensures r.Some? ==> Due(old(jobs)[r.value.id], old(gate), now)
      ensures r.Some? ==> jobs[r.value.id].nextCheck == now + 300 && jobs[r.value.id].attempts == r.value.attempts
      ensures r.Some? ==> forall id :: id in old(jobs) && Due(old(jobs)[id], old(gate), now) ==>
                            var picked, other := old(jobs)[r.value.id], old(jobs)[id];
                            picked.nextCheck < other.nextCheck || (picked.nextCheck == other.nextCheck && r.value.id <= id)
    {
      ghost var before := Contents();
      r := ClaimEarliest(interval, now);
      forall id | id in before.jobs ensures Pickable(before, now, id) <==> Due(before.jobs[id], before.gate, now) {
        PickableIsDue(before, now, id);
      }
      if r.Some? {
        ClaimMeans(before, now, interval, r.value.id);
      }
    }

    method ClaimEarliest(interval: int, now: Time) returns (r: Option<Job>)
      requires Valid()
      modifies this
      ensures Valid()
      ensures r.None? ==> jobs == SweptAll(old(jobs), now) && gate == old(gate)
      ensures r.None? ==> forall id :: !Pickable(old(Contents()), now, id)
      ensures r.Some? ==> Pickable(old(Contents()), now, r.value.id)
      ensures r.Some? ==> Contents() == Claimed(old(Contents()), now, interval, r.value.id)
      ensures r.Some? ==> r.value == Snapshot(old(Contents()), now, r.value.id)
      ensures r.Some? ==> forall id :: Pickable(old(Contents()), now, id) ==>
                            Before(old(jobs[r.value.id]), old(jobs)[id])
    {
      Sweep(now);
      var open := gate;
      var pick := First(CheckTime, j => Claimable(j, open, now));
      if pick.None? {
        return None;
      }
      var j := jobs[pick.value];
      SweepKeepsOrder(old(jobs), now, j);
      if j.state == Queued {
        j := Reserve(j, interval, now);
      } else {
        Lease(j, now);
      }
      return Some(j);
    }

    method Sweep(now: Time)
      requires Valid()
      modifies this`jobs
      ensures Valid() && jobs == SweptAll(old(jobs), now)
    {
      SweepKeepsKeys(jobs, now);
      jobs := map id | id in jobs :: SweptInterrupted(jobs[id], now);
      jobs := map id | id in jobs :: SweptExhausted(jobs[id]);
      assert jobs == SweptAll(old(jobs), now);
    }

    method Reserve(queued: Job, interval: int, now: Time) returns (j: Job)
      requires Valid() && queued.id in jobs && jobs[queued.id] == queued
      requires queued.state == Queued && queued.attempts < MAX_ATTEMPTS && (gate.Some? ==> gate.value <= now)
      modifies this
      ensures Valid() && gate == Some(now + interval) && jobs == old(jobs)[queued.id := Reserving(queued, now)]
      ensures j == queued.(attempts := queued.attempts + 1)
    {
      j := queued;
      KeysKept(jobs, jobs[j.id := Reserving(j, now)]);
      if gate.None? {
        gate := Some(now);
      }
      if gate.value > now {
        assert false;
      }
      gate := Some(now + interval);
      jobs := jobs[j.id := j.(state := Submitting, attempts := j.attempts + 1, nextCheck := now + LEASE)];
      j := j.(attempts := j.attempts + 1);
    }

    method Lease(j: Job, now: Time)
      requires Valid() && j.id in jobs && jobs[j.id] == j
      modifies this`jobs
      ensures Valid() && jobs == old(jobs)[j.id := Leased(j, now)]
    {
      KeysKept(jobs, jobs[j.id := Leased(j, now)]);
      jobs := jobs[j.id := j.(nextCheck := now + LEASE)];
    }

    method First(column: Job -> Time, eligible: Job -> bool) returns (r: Option<JobId>)
      requires Identified(jobs)
      ensures r.None? ==> forall id :: id in jobs ==> !eligible(jobs[id])
      ensures r.Some? ==> r.value in jobs && eligible(jobs[r.value])
      ensures r.Some? ==> forall id :: id in jobs && eligible(jobs[id]) ==> Precedes(column, jobs[r.value], jobs[id])
    {
      r := None;
      var left := jobs.Keys;
      while left != {}
        invariant left <= jobs.Keys
        invariant r.Some? ==> r.value in jobs && eligible(jobs[r.value])
        invariant forall id :: id in jobs && id !in left && eligible(jobs[id]) ==>
                    r.Some? && Precedes(column, jobs[r.value], jobs[id])
        decreases |left|
      {
        var id :| id in left;
        if eligible(jobs[id]) && (r.None? || Precedes(column, jobs[id], jobs[r.value])) {
          r := Some(id);
        }
        left := left - {id};
      }
    }

    method ClaimUnknownGatewayTorrent(now: Time) returns (r: Option<Job>)
      requires Valid()
      modifies this`jobs
      ensures Valid()
      ensures r.None? ==> jobs == old(jobs) && forall id :: id in jobs ==> !LookupClaimable(jobs[id], now)
      ensures r.Some? ==> r.value.id in old(jobs) && r.value == old(jobs)[r.value.id] && LookupClaimable(r.value, now)
      ensures r.Some? ==> jobs == old(jobs)[r.value.id := Leased(r.value, now)]
      ensures r.Some? ==> r.value.nextCheck <= now && jobs[r.value.id].nextCheck == now + 300
      ensures r.Some? ==> forall id :: id in old(jobs) && LookupClaimable(old(jobs)[id], now) ==>
                            r.value.nextCheck <= old(jobs)[id].nextCheck && Precedes(CheckTime, r.value, old(jobs)[id])
    {
      var pick := First(CheckTime, j => LookupClaimable(j, now));
      if pick.None? {
        return None;
      }
      var j := jobs[pick.value];
      Lease(j, now);
      return Some(j);
    }

    method ClaimGatewayMount(now: Time) returns (r: Option<Job>)
      requires Valid()
      modifies this`jobs
      ensures Valid()
      ensures r.None? ==> jobs == old(jobs) && forall id :: id in jobs ==> !MountClaimable(jobs[id], now)
      ensures r.Some? ==> r.value.id in old(jobs) && r.value == old(jobs)[r.value.id] && MountClaimable(r.value, now)
      ensures r.Some? ==> jobs == old(jobs)[r.value.id := MountLeased(r.value, now)]
      ensures r.Some? ==> r.value.verifyNext <= now && jobs[r.value.id].verifyNext == now + 60
      ensures r.Some? ==> forall id :: id in old(jobs) && MountClaimable(old(jobs)[id], now) ==>
                            r.value.verifyNext <= old(jobs)[id].verifyNext && Precedes(VerifyTime, r.value, old(jobs)[id])
    {
      var pick := First(VerifyTime, j => MountClaimable(j, now));
      if pick.None? {
        return None;
      }
      var j := jobs[pick.value];
      KeysKept(jobs, jobs[j.id := MountLeased(j, now)]);
      jobs := jobs[j.id := j.(verifyNext := now + MOUNT_LEASE)];
      return Some(j);
    }

    method UpdateGatewayJob(j: Job, delay: int, now: Time)
      requires Valid()
      modifies this`jobs
      ensures Valid() && Contents() == OnRow(old(Contents()), j.id, row => Updated(row, j, delay, now))
    {
      if j.id in jobs {
        var updated := UpdateStatement(jobs[j.id], j, delay, now);
        StatementKeepsPublication(jobs[j.id], j, delay, now);
        KeysKept(jobs, jobs[j.id := updated]);
        jobs := jobs[j.id := updated];
      }
    }

    method WakeGatewayJob(id: JobId, now: Time)
      requires Valid()
      modifies this`jobs
      ensures Valid() && Contents() == OnRow(old(Contents()), id, row => Woken(row, now))
    {
      if id in jobs && jobs[id].state !in {Failed, SubmissionUnknown, Submitting} && now < jobs[id].nextCheck {
        jobs := jobs[id := jobs[id].(nextCheck := now)];
      }
      assert id in old(jobs) ==> jobs == old(jobs)[id := Woken(old(jobs)[id], now)];
    }

    method GatewayCategory(hash: string, category: string) returns (ok: bool)
      requires Valid()
      modifies this`jobs
      ensures Valid()
      ensures jobs == if ok then RecategorisedAll(old(jobs), hash, category) else old(jobs)
      ensures ok <==> UniqueKeys(RecategorisedAll(old(jobs), hash, category))
                      && Named(RecategorisedAll(old(jobs), hash, category), hash, category)
    {
      var changed := map id | id in jobs :: Recategorised(jobs[id], hash, category);
      var unique := forall a | a in changed :: forall b | b in changed ::
                      SameKey(changed[a], changed[b].source, changed[b].category) ==> a == b;
      ok := unique && exists id :: id in changed && changed[id].source.infoHash == hash && changed[id].category == category;
      if ok {
        jobs := changed;
      }
    }

    method DeferGatewaySubmission(id: JobId, now: Time)
      requires Valid()
      modifies this`jobs
      ensures Valid() && Contents() == OnRow(old(Contents()), id, row => Deferred(row, now))
    {
      if id in jobs && jobs[id].state == Submitting {
        var attempts := if jobs[id].attempts > 1 then jobs[id].attempts - 1 else 0;
        jobs := jobs[id := jobs[id].(state := Queued, attempts := attempts, nextCheck := now + LEASE)];
      }
      assert id in old(jobs) ==> jobs == old(jobs)[id := Deferred(old(jobs)[id], now)];
    }

    method ResolveUnknownGatewayTorrent(seen: Job, providerId: int, now: Time) returns (resolved: bool)
      requires Valid()
      modifies this`jobs
      ensures Valid() && Contents() == OnRow(old(Contents()), seen.id, row => Resolved(row, seen, providerId, now))
      ensures resolved <==> providerId > 0 && seen.id in old(jobs) && Resolvable(old(jobs)[seen.id], seen)
    {
      resolved := providerId > 0 && seen.id in jobs && Resolvable(jobs[seen.id], seen);
      if resolved {
        var row := jobs[seen.id];
        jobs := jobs[seen.id := row.(providerId := providerId, state := Downloading, nextCheck := now, revision := row.revision + 1)];
      }
      assert seen.id in old(jobs) ==> jobs == old(jobs)[seen.id := Resolved(old(jobs)[seen.id], seen, providerId, now)];
    }

    method HideGatewayJob(id: JobId)
      requires Valid()
      modifies this`jobs
      ensures Valid() && Contents() == OnRow(old(Contents()), id, HiddenRow)
    {
      if id in jobs {
        jobs := jobs[id := jobs[id].(hidden := true)];
      }
    }

    method RequestGatewayCleanup(id: JobId, now: Time)
      requires Valid()
      modifies this`jobs
      ensures Valid() && Contents() == OnRow(old(Contents()), id, row => CleanupRequested(row, now))
    {
      if id in jobs {
        jobs := jobs[id := jobs[id].(hidden := true, cleanup := true, verifyNext := now)];
      }
    }

    method FinishGatewayCleanup(seen: Job)
      requires Valid()
      modifies this`jobs
      ensures Valid() && Contents() == OnRow(old(Contents()), seen.id, row => CleanupFinished(row, seen))
    {
      if seen.id in jobs && jobs[seen.id].revision == seen.revision && jobs[seen.id].hidden {
        jobs := jobs[seen.id := jobs[seen.id].(cleanup := false)];
      }
      assert seen.id in old(jobs) ==> jobs == old(jobs)[seen.id := CleanupFinished(old(jobs)[seen.id], seen)];
    }

    method RequestGatewayRecovery(seen: Job, now: Time) returns (woken: bool)
      requires Valid()
      modifies this`jobs
      ensures Valid() && Contents() == OnRow(old(Contents()), seen.id, row => RecoveryRequested(row, seen, now))
      ensures woken <==> seen.id in old(jobs) && Recoverable(old(jobs)[seen.id], seen)
    {
      woken := seen.id in jobs && Recoverable(jobs[seen.id], seen);
      if woken && now < jobs[seen.id].nextCheck {
        jobs := jobs[seen.id := jobs[seen.id].(nextCheck := now)];
      }
      assert seen.id in old(jobs) ==> jobs == old(jobs)[seen.id := RecoveryRequested(old(jobs)[seen.id], seen, now)];
    }

    method RecordProviderStatus(seen: Job, status: Status)
      requires Valid()
      modifies this`jobs
      ensures Valid() && Contents() == OnRow(old(Contents()), seen.id, row => StatusRecorded(row, seen, status))
    {
      if seen.id in jobs && jobs[seen.id].providerId == seen.providerId {
        jobs := jobs[seen.id := jobs[seen.id].(status := Some(status))];
      }
      assert seen.id in old(jobs) ==> jobs == old(jobs)[seen.id := StatusRecorded(old(jobs)[seen.id], seen, status)];
    }

    method RecordProviderCheckFailure(seen: Job)
      requires Valid()
      modifies this`jobs
      ensures Valid() && Contents() == OnRow(old(Contents()), seen.id, row => CheckFailureRecorded(row, seen))
    {
      if seen.id in jobs && jobs[seen.id].providerId == seen.providerId && jobs[seen.id].status.Some? {
        var status := jobs[seen.id].status.value;
        jobs := jobs[seen.id := jobs[seen.id].(status := Some(status.(checkFailed := true)))];
      }
      assert seen.id in old(jobs) ==> jobs == old(jobs)[seen.id := CheckFailureRecorded(old(jobs)[seen.id], seen)];
    }

    method PinGatewayReleaseFolder(seen: Job, folder: string) returns (r: Option<Job>)
      requires Valid()
      modifies this`jobs
      ensures Valid()
      ensures r.Some? <==> seen.id in old(jobs) && Pinnable(old(jobs)[seen.id], seen)
      ensures r.Some? ==> r.value == Pinned(old(jobs)[seen.id], folder) && jobs == old(jobs)[seen.id := r.value]
      ensures r.None? ==> jobs == old(jobs)
    {
      if seen.id !in jobs || !Pinnable(jobs[seen.id], seen) {
        return None;
      }
      var row := jobs[seen.id].(folder := folder, state := Mounting, revision := jobs[seen.id].revision + 1);
      jobs := jobs[seen.id := row];
      return Some(row);
    }

    /** Completion is a compare-and-set on the revision of the snapshot that was verified. */
    method FinishGatewayMount(seen: Job, detail: string) returns (completed: bool)
      requires Valid()
      modifies this`jobs
      ensures Valid() && Contents() == OnRow(old(Contents()), seen.id, row => Finished(row, seen, detail))
      ensures completed <==> detail == "" && seen.id in old(jobs) && Finishable(old(jobs)[seen.id], seen)
    {
      completed := false;
      if seen.id in jobs && Finishable(jobs[seen.id], seen) {
        if detail == "" {
          jobs := jobs[seen.id := jobs[seen.id].(state := Completed)];
          completed := true;
        }
      }
      assert seen.id in old(jobs) ==> jobs == old(jobs)[seen.id := Finished(old(jobs)[seen.id], seen, detail)];
    }
  }
}
