/** Torrent submission: it uploads only on proven absence and adopts only exact matches. */
module TorrentClient {
  import opened Text
  import opened Inventory
  import opened InventoryProofs
  import opened Sources
  import opened Torrent

  /** The answer to the upload request. */
  datatype Answer = NoAnswer | Answer(torrentId: int, queuedId: int)

  /** NotStarted is the deferral that may be retried; Errored is every other error. */
  datatype Submission = NotStarted | Errored | Placed(id: int)

  /** The listing was read to its end and holds no entry with the hash. */
  ghost predicate ProvenAbsent(serve: Provider, hash: string) {
    Exhausted(serve, 0, 0) && forall e :: e in Account(serve, 0, 0) ==> !Matches(e, hash)
  }

  /** What the preflight decides. */
  datatype Preflight = Unfit | Deferral | Existing(id: int) | Upload

  function Decision(w: World, key: string, source: Metadata, serve: Provider): Preflight {
    if !Submittable(w, source) then Unfit
    else
      match LookupOf(key, ValidateSource(w, source).source.infoHash, serve)
      case Inconclusive => Deferral
      case Found(o) => if o.torrentId == 0 then Upload else if Positive(o) then Existing(o.torrentId) else Deferral
  }

  /** An upload needs proven absence, and an existing ID is that of a listed entry with exactly the hash,
      present or in progress. */
  lemma DecisionIsSound(w: World, key: string, source: Metadata, serve: Provider)
    ensures Decision(w, key, source, serve).Upload? ==>
              Submittable(w, source) && ProvenAbsent(serve, ValidateSource(w, source).source.infoHash)
    ensures Decision(w, key, source, serve).Existing? ==>
              var id := Decision(w, key, source, serve).id;
              Submittable(w, source) && id > 0 &&
              exists c :: c != Unavailable && ListsId(Account(serve, 0, 0), ValidateSource(w, source).source.infoHash, id, c)
  {
    if Submittable(w, source) {
      AcceptedIsCanonical(w, source);
      var s := ValidateSource(w, source).source;
      if LookupOf(key, s.infoHash, serve).Found? {
        LookupIsSound(key, s.infoHash, serve);
        LookupUsesTheHash(w, s, key, serve);
      }
    }
  }

  /** Checking the source once more before the preflight changes nothing. */
  lemma DecisionIsStable(w: World, key: string, m: Metadata, serve: Provider)
    requires ValidateSource(w, m).Checked?
    ensures Decision(w, key, ValidateSource(w, m).source, serve) == Decision(w, key, m, serve)
  {
    AcceptedIsCanonical(w, m);
    CanonicalIsFixed(w, ValidateSource(w, m).source);
  }

  /** Over a listing served as contiguous pages the decision is that of the listing: a submittable source
      whose lookup concludes is uploaded exactly if no entry has its hash, its listed entry is taken over
      exactly if one is present or in progress, and a stale one defers. */
  lemma DecisionIsOfTheListing(w: World, key: string, source: Metadata, serve: Provider, listing: seq<Entry>)
    requires Serves(serve, listing) && Submittable(w, source)
    requires LookupOf(key, ValidateSource(w, source).source.infoHash, serve).Found?
    ensures var hash, decision := ValidateSource(w, source).source.infoHash, Decision(w, key, source, serve);
            && (decision.Existing? <==> Join(listing, hash) != Unavailable)
            && (decision.Deferral? <==> Join(listing, hash) == Unavailable && exists e :: e in listing && Matches(e, hash))
            && (decision.Upload? <==> forall e :: e in listing ==> !Matches(e, hash))
            && (decision.Existing? ==> exists c :: c != Unavailable && ListsId(listing, hash, decision.id, c))
  {
    AcceptedIsCanonical(w, source);
    var hash := ValidateSource(w, source).source.infoHash;
    LookupUsesTheHash(w, ValidateSource(w, source).source, key, serve);
    ServedLookupIsExact(key, hash, serve, listing);
    if forall e :: e in listing ==> !Matches(e, hash) {
      assert forall c :: !Listed(listing, hash, c);
    }
  }

  /** The answer to an upload alone decides what became of it. */
  function Answered(answer: Answer): Submission {
    if answer.Answer? && answer.torrentId > 0 then Placed(answer.torrentId) else Errored
  }

  /** What is sent and what is reported follow from the decision, whose evidence comes with it. */
  method Submit(w: World, key: string, source: Metadata, serve: Provider, answer: Answer)
    returns (r: Submission, posted: bool)
    ensures (r, posted) ==
            match Decision(w, key, source, serve)
            case Unfit => (Errored, false)
            case Deferral => (NotStarted, false)
            case Existing(id) => (Placed(id), false)
            case Upload => (Answered(answer), true)
    ensures posted ==> r == if answer.Answer? && answer.torrentId > 0 then Placed(answer.torrentId) else Errored
    ensures r.Placed? ==> r.id > 0
    ensures posted ==> Submittable(w, source) && ProvenAbsent(serve, ValidateSource(w, source).source.infoHash)
    ensures r.Placed? && !posted ==>
              Submittable(w, source) &&
              exists c :: c != Unavailable && ListsId(Account(serve, 0, 0), ValidateSource(w, source).source.infoHash, r.id, c)
    ensures Submittable(w, source) && LookupOf(key, ValidateSource(w, source).source.infoHash, serve).Inconclusive? ==>
              r.NotStarted?
    ensures !Submittable(w, source) ==> r.Errored? && !posted
  {
    var checked := Check(w, source);
    if !checked.Checked? {
      return Errored, false;
    }
    var s := checked.source;
    if s.kind == TorrentFile {
      var verdict := ValidateGatewayTorrent(s.torrentFile, w.sha1);
      if verdict != Accepted {
        return Errored, false;
      }
    }
    DecisionIsSound(w, key, source, serve);
    var lookup := LookupTorrent(key, s.infoHash, serve);
    if lookup.Inconclusive? {
      return NotStarted, false;
    }
    LookupIsSound(key, s.infoHash, serve);
    var observation := lookup.observation;
    if observation.torrentId > 0 {
      if observation.status == Available || observation.status == Unknown {
        return Placed(observation.torrentId), false;
      }
      return NotStarted, false;
    }
    if answer.NoAnswer? || answer.torrentId <= 0 {
      return Errored, true;
    }
    return Placed(answer.torrentId), true;
  }

  /** A conclusive lookup is only possible for a torrent, whose stored hash is already normal. */
  lemma LookupUsesTheHash(w: World, s: Metadata, key: string, serve: Provider)
    requires Canonical(w, s) && LookupOf(key, s.infoHash, serve).Found?
    ensures s.kind != NzbFile && Hash(s.infoHash) && Normalized(s.infoHash) == s.infoHash
  {
    if s.kind != NzbFile {
      HashIsNormal(s.infoHash);
    }
  }

  /** The ID a lookup found present or in progress, or 0. */
  function ActiveId(key: string, hash: string, serve: Provider): int {
    match LookupOf(key, hash, serve)
    case Inconclusive => 0
    case Found(o) => if Positive(o) then o.torrentId else 0
  }

  method FindActive(key: string, hash: string, serve: Provider) returns (r: Submission)
    ensures r ==
            match LookupOf(key, hash, serve)
            case Inconclusive => NotStarted
            case Found(o) => Placed(if Positive(o) then o.torrentId else 0)
    ensures r.Placed? ==> r.id >= 0
    // A positive ID is that of a listed entry with exactly this hash ...
    ensures r.Placed? && r.id > 0 ==>
              exists c :: c != Unavailable && ListsId(Account(serve, 0, 0), Normalized(hash), r.id, c)
    // ... and no ID is reported only after the whole listing showed nothing present or in progress.
    ensures r.Placed? && r.id == 0 ==>
              Exhausted(serve, 0, 0) && Join(Account(serve, 0, 0), Normalized(hash)) == Unavailable
  {
    var lookup := LookupTorrent(key, hash, serve);
    if lookup.Inconclusive? {
      return NotStarted;
    }
    LookupIsSound(key, hash, serve);
    var observation := lookup.observation;
    if observation.status == Available || observation.status == Unknown {
      return Placed(observation.torrentId);
    }
    return Placed(0);
  }
}
