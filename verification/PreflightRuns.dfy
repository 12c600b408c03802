/** Runs in which torrents are sent as the preflight decides: an upload rests on proven absence, and a
    placement that was not uploaded is listed. For any number of workers. */
module PreflightRuns {
  import opened Sources
  import opened Inventory
  import opened InventoryProofs
  import opened TorrentClient
  import opened Rows
  import opened Protocol
  import opened Safety

  /** The action is one of the program: an added source was accepted; a worker with a torrent uploads or
      adopts what the preflight decides over the listing it was served; a lookup resolves what it found. */
  ghost predicate Follows(w: World, key: string, s: System, a: Action, serve: Provider)
    requires Enabled(s, a)
  {
    match a
    case Add(_, source, _, _) => Genuine(w, source)
    case Work(x, Post) =>
      var source := s.workers[x].job.source;
      source.torrent ==> Decision(w, key, Stored(source), serve) == Upload
    case Work(x, Adopt(id, _)) => Decision(w, key, Stored(s.workers[x].job.source), serve) == Existing(id)
    case Work(x, Resolve(id)) =>
      var lookup := LookupOf(key, s.workers[x].job.source.infoHash, serve);
      id > 0 ==> lookup.Found? && Positive(lookup.observation) && lookup.observation.torrentId == id
    case _ => true
  }

  /** The run, with the listing served during each action. */
  ghost predicate Preflighted(w: World, key: string, r: Run, served: seq<Provider>) {
    && IsRun(r) && |served| == |r.actions|
    && forall i :: 0 <= i < |r.actions| ==> Enabled(r.states[i], r.actions[i]) && Follows(w, key, r.states[i], r.actions[i], served[i])
  }

  lemma {:induction false} SourcesAreGenuine(w: World, key: string, r: Run, served: seq<Provider>, i: nat, id: JobId)
    requires Preflighted(w, key, r, served) && i < |r.states| && id in r.states[i].db.jobs
    ensures Genuine(w, Row(r.states[i], id).source)
  {
    if i > 0 {
      RunKeepsInv(r, i - 1);
      if id in r.states[i - 1].db.jobs {
        SourcesAreGenuine(w, key, r, served, i - 1, id);
      }
      ActionKeepsGenuine(w, key, r.states[i - 1], r.actions[i - 1], served[i - 1], id);
    }
  }

  lemma ActionKeepsGenuine(w: World, key: string, s: System, a: Action, serve: Provider, id: JobId)
    requires Inv(s) && Enabled(s, a) && Follows(w, key, s, a, serve) && id in Apply(s, a).db.jobs
    requires id in s.db.jobs ==> Genuine(w, Row(s, id).source)
    ensures Genuine(w, Row(Apply(s, a), id).source)
  {
    if id in s.db.jobs {
      ActionEvolvesRow(s, a, id);
    } else {
      AddedIsNew(s, a, id);
    }
  }

  lemma AddedIsNew(s: System, a: Action, id: JobId)
    requires Enabled(s, a) && id !in s.db.jobs && id in Apply(s, a).db.jobs
    ensures a.Add? && Row(Apply(s, a), id).source == a.source
  {
  }

  /** The worker's copy reads back the source of its row. */
  lemma CopyReadsBack(w: World, key: string, r: Run, served: seq<Provider>, i: nat, x: Id)
    requires Preflighted(w, key, r, served) && i < |r.actions| && WorkerAt(r.states[i], x)
    ensures var source := r.states[i].workers[x].job.source;
            && source == Row(r.states[i], r.states[i].workers[x].job.id).source
            && ValidateSource(w, Stored(source)).Checked?
            && ValidateSource(w, Stored(source)).source.infoHash == source.infoHash
  {
    RunKeepsInv(r, i);
    assert WorkerSound(r.states[i], r.states[i].workers[x]);
    SourcesAreGenuine(w, key, r, served, i, r.states[i].workers[x].job.id);
    GenuineReadsBack(w, r.states[i].workers[x].job.source);
  }

  /** Action `k` uploads the job. */
  ghost predicate UploadsAt(r: Run, k: nat, id: JobId) {
    && k < |r.actions| && k < |r.states| && r.actions[k].Work? && r.actions[k].step.Post?
    && WorkerAt(r.states[k], r.actions[k].w) && r.states[k].workers[r.actions[k].w].job.id == id
  }

  lemma NewUpload(s: System, a: Action, id: JobId, e: nat)
    requires Enabled(s, a) && |Log(s, id)| <= e < |Log(Apply(s, a), id)| && Log(Apply(s, a), id)[e].Uploaded?
    ensures a.Work? && a.step.Post? && s.workers[a.w].job.id == id
  {
  }

  /** Every upload that ever happened to a torrent was sent after its whole account listing had been read
      and showed no entry of its hash. */
  lemma {:induction false} UploadsAreProvenAbsent(w: World, key: string, r: Run, served: seq<Provider>, i: nat, id: JobId, e: nat)
    returns (k: nat)
    requires Preflighted(w, key, r, served) && i < |r.states| && id in r.states[i].db.jobs && Row(r.states[i], id).source.torrent
    requires e < |Log(r.states[i], id)| && Log(r.states[i], id)[e].Uploaded?
    ensures k < i && UploadsAt(r, k, id) && ProvenAbsent(served[k], Row(r.states[i], id).source.infoHash)
  {
    assert i > 0;
    var s, a := r.states[i - 1], r.actions[i - 1];
    assert r.states[i] == Apply(s, a);
    HistoryGrows(s, a, id);
    RunKeepsInv(r, i - 1);
    if e < |Log(s, id)| {
      LoggedIsStored(r, i - 1, id);
      ActionEvolvesRow(s, a, id);
      k := UploadsAreProvenAbsent(w, key, r, served, i - 1, id, e);
    } else {
      NewUpload(s, a, id, e);
      ActionEvolvesRow(s, a, id);
      UploadIsProvenAbsent(w, key, r, served, i - 1, id);
      k := i - 1;
    }
  }

  lemma UploadIsProvenAbsent(w: World, key: string, r: Run, served: seq<Provider>, i: nat, id: JobId)
    requires Preflighted(w, key, r, served) && i < |r.actions| && UploadsAt(r, i, id) && Row(r.states[i], id).source.torrent
    ensures ProvenAbsent(served[i], Row(r.states[i], id).source.infoHash)
  {
    var s, a := r.states[i], r.actions[i];
    assert Enabled(s, a) && Follows(w, key, s, a, served[i]);
    CopyReadsBack(w, key, r, served, i, a.w);
    DecisionIsSound(w, key, Stored(s.workers[a.w].job.source), served[i]);
  }

  lemma {:induction false} LoggedIsStored(r: Run, i: nat, id: JobId)
    requires IsRun(r) && i < |r.states| && Log(r.states[i], id) != []
    ensures id in r.states[i].db.jobs
  {
    if i > 0 {
      RunKeepsInv(r, i - 1);
      if Log(r.states[i - 1], id) != [] {
        LoggedIsStored(r, i - 1, id);
      }
      ActionKeepsLogged(r.states[i - 1], r.actions[i - 1], id);
    }
  }

  lemma ActionKeepsLogged(s: System, a: Action, id: JobId)
    requires Inv(s) && Enabled(s, a) && (Log(s, id) != [] ==> id in s.db.jobs)
    ensures Log(Apply(s, a), id) != [] ==> id in Apply(s, a).db.jobs
  {
    if id in s.db.jobs {
      ActionEvolvesRow(s, a, id);
    } else if Log(Apply(s, a), id) != [] {
      NewLog(s, a, id);
    }
  }

  lemma NewLog(s: System, a: Action, id: JobId)
    requires Enabled(s, a) && Log(s, id) == [] && Log(Apply(s, a), id) != []
    ensures id in Apply(s, a).db.jobs
  {
  }

  /** An ID that was obtained without an upload belongs to a listed entry of exactly the row's hash,
      present or in progress. */
  lemma AdoptedIsListed(w: World, key: string, r: Run, served: seq<Provider>, i: nat)
    requires Preflighted(w, key, r, served) && i < |r.actions| && r.actions[i].Work?
    requires r.actions[i].step.Adopt? || (r.actions[i].step.Resolve? && r.actions[i].step.providerId > 0)
    ensures var s := r.states[i];
            WorkerAt(s, r.actions[i].w) &&
            exists c :: c != Unavailable &&
              ListsId(Account(served[i], 0, 0), Normalized(Row(s, s.workers[r.actions[i].w].job.id).source.infoHash),
                      r.actions[i].step.providerId, c)
  {
    var s, a := r.states[i], r.actions[i];
    assert Enabled(s, a) && Follows(w, key, s, a, served[i]);
    CopyReadsBack(w, key, r, served, i, a.w);
    var source := s.workers[a.w].job.source;
    if a.step.Adopt? {
      DecisionIsSound(w, key, Stored(source), served[i]);
      AcceptedIsCanonical(w, Stored(source));
      LookupUsesTheHash(w, ValidateSource(w, Stored(source)).source, key, served[i]);
    } else {
      LookupIsSound(key, source.infoHash, served[i]);
    }
  }

  /** And if that listing was served as contiguous pages, the listing itself has no entry of the hash. */
  lemma AbsentFromListing(serve: Provider, listing: seq<Entry>, hash: string)
    requires Serves(serve, listing) && ProvenAbsent(serve, hash)
    ensures forall e :: e in listing ==> !Matches(e, hash)
  {
    AccountIsListing(serve, listing, 0, 0);
    assert listing[0..] == listing;
  }
}
