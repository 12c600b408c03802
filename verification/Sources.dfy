/** The saved submission source: exactly one payload, with its release identity. */
module Sources {
  import opened Options
  import opened Text
  import opened Bencode
  import opened Torrent

  /** The parsers and digests the gateway calls but this model does not look into: the hex SHA-1, hex
      SHA-256 digests, the xt parameters of a magnet URI (None if it is not one), and NZB XML. */
  datatype World = World(
    sha1: seq<byte> -> HashText,
    digest: seq<byte> -> string,
    digestText: string -> string,
    topics: string -> Option<seq<string>>,
    nzbHasSegments: seq<byte> -> bool)

  datatype Kind = NzbFile | TorrentFile | Magnet | Unresolved | RecoveryRequired | NoKind | OtherKind

  datatype Metadata = Metadata(
    protocol: string, kind: Kind, nzbFile: seq<byte>, nzbFilename: string,
    torrentFile: seq<byte>, torrentFilename: string, infoHash: string, magnet: string, torrentUrl: string)

  const SIZE_LIMIT := 50 * 1024 * 1024
  const BTIH := "urn:btih:"

  datatype Checked = Rejected | MustRecover | Checked(source: Metadata)

  function ValidateNzb(w: World, m: Metadata): Checked {
    if m.protocol != "" && m.protocol != "usenet" then Rejected
    else if |m.nzbFile| == 0 || |m.nzbFile| > SIZE_LIMIT || |m.torrentFile| > 0 || m.torrentFilename != ""
      || m.magnet != "" || m.infoHash != "" || m.torrentUrl != "" then Rejected
    else if !w.nzbHasSegments(m.nzbFile) then Rejected
    else Checked(m.(protocol := "usenet", nzbFilename := if m.nzbFilename == "" then "download.nzb" else m.nzbFilename))
  }

  predicate Carries(topic: string) {
    HasPrefix(Lower(topic), BTIH)
  }

  /** The identity in the first xt parameter that carries one. */
  function FirstHash(topics: seq<string>): string {
    if topics == [] then ""
    else if Carries(topics[0]) then Lower(topics[0][|BTIH|..])
    else FirstHash(topics[1..])
  }

  ghost predicate FirstCarrier(topics: seq<string>, i: int) {
    0 <= i < |topics| && Carries(topics[i]) && forall k :: 0 <= k < i ==> !Carries(topics[k])
  }

  ghost predicate IsFirstHash(topics: seq<string>, hash: string) {
    && (forall i :: FirstCarrier(topics, i) ==> hash == Lower(topics[i][|BTIH|..]))
    && ((forall i :: 0 <= i < |topics| ==> !Carries(topics[i])) ==> hash == "")
  }

  lemma {:induction false} FirstHashIsFirst(topics: seq<string>, hash: string)
    requires IsFirstHash(topics, hash)
    ensures hash == FirstHash(topics)
  {
    if topics != [] {
      if Carries(topics[0]) {
        assert FirstCarrier(topics, 0);
      } else {
        var rest := topics[1..];
        forall i | FirstCarrier(rest, i) ensures hash == Lower(rest[i][|BTIH|..]) {
          assert FirstCarrier(topics, i + 1) by {
            assert forall k :: 0 < k < i + 1 ==> topics[k] == rest[k - 1];
          }
        }
        assert (forall i :: 0 <= i < |rest| ==> !Carries(rest[i])) ==> forall i :: 0 < i < |topics| ==> !Carries(topics[i]) by {
          assert forall i :: 0 < i < |topics| ==> topics[i] == rest[i - 1];
        }
        FirstHashIsFirst(rest, hash);
      }
    }
  }

  method FindFirstHash(topics: seq<string>) returns (hash: string)
    ensures IsFirstHash(topics, hash)
  {
    hash := "";
    for i := 0 to |topics|
      invariant forall k :: 0 <= k < i ==> !Carries(topics[k])
    {
      if HasPrefix(Lower(topics[i]), BTIH) {
        return Lower(topics[i][|BTIH|..]);
      }
    }
  }

  datatype Link = NoLink | NeedsRecovery | Link(magnet: string, hash: string)

  function ResolveMagnet(w: World, rawMagnet: string, rawHash: string): Link {
    var magnet, hash := Trim(rawMagnet), Lower(Trim(rawHash));
    if hash != "" && !Hash(hash) then NoLink
    else if magnet != "" then
      match w.topics(magnet)
      case None => NoLink
      case Some(topics) =>
        var magnetHash := FirstHash(topics);
        if !Hash(magnetHash) || (hash != "" && hash != magnetHash) then NoLink
        else Link(magnet, magnetHash)
    else if hash == "" then NoLink
    else NeedsRecovery
  }

  function MetainfoHash(w: World, data: seq<byte>): Hashed {
    match InfoSpan(data)
    case NoSpan => NotTorrent
    case Span(start, end) => InfoHash(w.sha1(data[start..end]))
  }

  function ValidateSource(w: World, m: Metadata): Checked {
    if m.kind == NzbFile then ValidateNzb(w, m)
    else if (m.protocol != "" && m.protocol != "torrent") || |m.nzbFile| > 0 || m.nzbFilename != "" then Rejected
    else if Trim(m.torrentUrl) != "" then Rejected
    else
      var t := m.(protocol := "torrent");
      match m.kind
      case TorrentFile =>
        if |t.torrentFile| == 0 || t.magnet != "" || |t.torrentFile| > SIZE_LIMIT then Rejected
        else
          var hashed := MetainfoHash(w, t.torrentFile);
          if hashed.NotTorrent? || (t.infoHash != "" && Lower(Trim(t.infoHash)) != Lower(hashed.hash)) then Rejected
          else Checked(t.(infoHash := hashed.hash,
                          torrentFilename := if t.torrentFilename == "" then "download.torrent" else t.torrentFilename))
      case Magnet =>
        if |t.torrentFile| > 0 || t.torrentFilename != "" then Rejected
        else
          (match ResolveMagnet(w, t.magnet, t.infoHash)
           case NoLink => Rejected
           case NeedsRecovery => MustRecover
           case Link(magnet, hash) => Checked(t.(magnet := magnet, infoHash := hash)))
      case Unresolved => MustRecover
      case RecoveryRequired => MustRecover
      case NoKind => MustRecover
      case OtherKind => Rejected
  }

  method CheckMagnet(w: World, rawMagnet: string, rawHash: string) returns (link: Link)
    ensures link == ResolveMagnet(w, rawMagnet, rawHash)
  {
    var magnet, hash := Trim(rawMagnet), Lower(Trim(rawHash));
    if hash != "" && !Hash(hash) {
      return NoLink;
    }
    if magnet != "" {
      var topics := w.topics(magnet);
      if topics.None? {
        return NoLink;
      }
      var magnetHash := FindFirstHash(topics.value);
      FirstHashIsFirst(topics.value, magnetHash);
      if !Hash(magnetHash) || (hash != "" && hash != magnetHash) {
        return NoLink;
      }
      return Link(magnet, magnetHash);
    }
    return if hash == "" then NoLink else NeedsRecovery;
  }

  /** The check as it is run: the metainfo and the magnet parameters are scanned. */
  method Check(w: World, m: Metadata) returns (checked: Checked)
    ensures checked == ValidateSource(w, m)
  {
    if m.kind == NzbFile {
      return ValidateNzb(w, m);
    }
    if (m.protocol != "" && m.protocol != "torrent") || |m.nzbFile| > 0 || m.nzbFilename != "" || Trim(m.torrentUrl) != "" {
      return Rejected;
    }
    var t := m.(protocol := "torrent");
    match t.kind
    case TorrentFile =>
      if |t.torrentFile| == 0 || t.magnet != "" || |t.torrentFile| > SIZE_LIMIT {
        return Rejected;
      }
      var hashed := TorrentFileInfoHash(t.torrentFile, w.sha1);
      if hashed.NotTorrent? || (t.infoHash != "" && Lower(Trim(t.infoHash)) != Lower(hashed.hash)) {
        return Rejected;
      }
      var filename := if t.torrentFilename == "" then "download.torrent" else t.torrentFilename;
      return Checked(t.(infoHash := hashed.hash, torrentFilename := filename));
    case Magnet =>
      if |t.torrentFile| > 0 || t.torrentFilename != "" {
        return Rejected;
      }
      var link := CheckMagnet(w, t.magnet, t.infoHash);
      if link.Link? {
        return Checked(t.(magnet := link.magnet, infoHash := link.hash));
      }
      return if link.NoLink? then Rejected else MustRecover;
    case Unresolved | RecoveryRequired | NoKind =>
      return MustRecover;
    case _ =>
      return Rejected;
  }

  /** What the gateway saves and uploads: an accepted source, and of torrent files only v1 metainfo. */
  predicate Submittable(w: World, m: Metadata) {
    var checked := ValidateSource(w, m);
    checked.Checked? && (checked.source.kind == TorrentFile ==> Gate(checked.source.torrentFile) == Accepted)
  }

  /** The shape of an accepted source, independently of how it was checked. */
  ghost predicate Canonical(w: World, s: Metadata) {
    match s.kind
    case NzbFile =>
      && s.protocol == "usenet" && 0 < |s.nzbFile| <= 52428800 && w.nzbHasSegments(s.nzbFile) && s.nzbFilename != ""
      && s.torrentFile == [] && s.torrentFilename == "" && s.magnet == "" && s.infoHash == "" && s.torrentUrl == ""
    case TorrentFile =>
      && s.protocol == "torrent" && s.nzbFile == [] && s.nzbFilename == "" && Trim(s.torrentUrl) == ""
      && 0 < |s.torrentFile| <= 52428800 && s.torrentFilename != "" && s.magnet == ""
      && MetainfoHash(w, s.torrentFile) == InfoHash(s.infoHash)
    case Magnet =>
      && s.protocol == "torrent" && s.nzbFile == [] && s.nzbFilename == "" && Trim(s.torrentUrl) == ""
      && s.torrentFile == [] && s.torrentFilename == "" && Trimmed(s.magnet) && s.magnet != ""
      && w.topics(s.magnet).Some? && FirstHash(w.topics(s.magnet).value) == s.infoHash && Hash(s.infoHash)
    case _ => false
  }

  /** What is accepted is canonical: one payload and its own identity. */
  lemma AcceptedIsCanonical(w: World, m: Metadata)
    requires ValidateSource(w, m).Checked?
    ensures Canonical(w, ValidateSource(w, m).source)
    ensures ValidateSource(w, m).source.kind == m.kind
  {
  }

  /** Exactly the canonical sources are left as they are: checking is idempotent. */
  lemma CanonicalIsFixed(w: World, s: Metadata)
    ensures ValidateSource(w, s) == Checked(s) <==> Canonical(w, s)
  {
    if Canonical(w, s) {
      if s.kind == TorrentFile {
        var hash := MetainfoHash(w, s.torrentFile).hash;
        HashIsNormal(hash);
        LowerOfHash(hash);
      } else if s.kind == Magnet {
        HashIsNormal(s.infoHash);
        TrimIsStable(s.magnet);
      }
    } else if ValidateSource(w, s) == Checked(s) {
      AcceptedIsCanonical(w, s);
    }
  }

  /** The submission leaves open at most what the check fills in, and agrees with the source on the rest. */
  ghost predicate Describes(m: Metadata, s: Metadata) {
    && m.kind == s.kind && (m.protocol == "" || m.protocol == s.protocol)
    && m.nzbFile == s.nzbFile && m.torrentFile == s.torrentFile && m.torrentUrl == s.torrentUrl
    && s.nzbFilename == (if m.kind == NzbFile && m.nzbFilename == "" then "download.nzb" else m.nzbFilename)
    && s.torrentFilename == (if m.kind == TorrentFile && m.torrentFilename == "" then "download.torrent" else m.torrentFilename)
    && s.magnet == (if m.kind == Magnet then Trim(m.magnet) else m.magnet)
    && (m.infoHash == (if m.kind == NzbFile then s.infoHash else "") || (m.kind != NzbFile && Lower(Trim(m.infoHash)) == s.infoHash)
        || (m.kind == Magnet && Trim(m.infoHash) == ""))
  }

  /** A submission is accepted exactly if it describes a canonical source, which is then the result. */
  lemma AcceptedIsDescribed(w: World, m: Metadata, s: Metadata)
    ensures ValidateSource(w, m) == Checked(s) <==> Canonical(w, s) && Describes(m, s)
  {
    match m.kind
    case NzbFile => NzbIsDescribed(w, m, s);
    case TorrentFile => TorrentIsDescribed(w, m, s);
    case Magnet => MagnetIsDescribed(w, m, s);
    case _ =>
  }

  lemma NzbIsDescribed(w: World, m: Metadata, s: Metadata)
    requires m.kind == NzbFile
    ensures ValidateSource(w, m) == Checked(s) <==> Canonical(w, s) && Describes(m, s)
  {
  }

  lemma TorrentIsDescribed(w: World, m: Metadata, s: Metadata)
    requires m.kind == TorrentFile
    ensures ValidateSource(w, m) == Checked(s) <==> Canonical(w, s) && Describes(m, s)
  {
    if MetainfoHash(w, m.torrentFile).InfoHash? {
      LowerOfHash(MetainfoHash(w, m.torrentFile).hash);
    }
  }

  lemma MagnetIsDescribed(w: World, m: Metadata, s: Metadata)
    requires m.kind == Magnet
    ensures ValidateSource(w, m) == Checked(s) <==> Canonical(w, s) && Describes(m, s)
  {
    if ValidateSource(w, m) == Checked(s) {
      AcceptedIsCanonical(w, m);
    }
  }

  /** Without a payload the original has to be found again: for the kinds that say so, and for a magnet that
      is only a valid hash. */
  lemma RecoveryIsAskedFor(w: World, m: Metadata)
    ensures ValidateSource(w, m) == MustRecover <==>
            && m.kind != NzbFile && m.protocol in {"", "torrent"} && m.nzbFile == [] && m.nzbFilename == "" && Trim(m.torrentUrl) == ""
            && (m.kind in {Unresolved, RecoveryRequired, NoKind}
                || (m.kind == Magnet && m.torrentFile == [] && m.torrentFilename == ""
                    && Trim(m.magnet) == "" && Hash(Lower(Trim(m.infoHash)))))
  {
  }

  /** The parameter that carries an identity is "urn:btih:" and the hash, in any case. */
  lemma TopicMeans(hash: string)
    ensures FirstHash(["urn:btih:" + hash]) == Lower(hash) && FirstHash(["URN:BTIH:" + hash]) == Lower(hash)
    ensures FirstHash(["urn:btmh:" + hash]) == ""
  {
    assert ("urn:btih:" + hash)[9..] == hash && ("URN:BTIH:" + hash)[9..] == hash;
    assert Lower("urn:btih:" + hash)[..9] == "urn:btih:";
    assert Lower("URN:BTIH:" + hash)[..9] == "urn:btih:";
    assert Lower("urn:btmh:" + hash)[6] == 'm';
    assert BTIH[6] == 'i';
  }

  lemma LowerOfHash(hash: string)
    requires Hash(hash)
    ensures Lower(hash) == hash
  {
    LowerIsStable(hash);
  }

  /** The columns that hold a source. */
  datatype Saved = Saved(
    torrent: bool, kind: Kind, fingerprint: string, filename: string,
    nzb: seq<byte>, infoHash: string, magnet: string, torrentFile: seq<byte>)

  function SavedOf(w: World, s: Metadata): Saved {
    Saved(
      s.protocol == "torrent", s.kind,
      if s.protocol == "torrent" then "torrent:" + s.infoHash else w.digest(s.nzbFile),
      if s.kind == TorrentFile then s.torrentFilename else s.nzbFilename,
      s.nzbFile, s.infoHash, s.magnet, s.torrentFile)
  }

  /** A torrent is known by its infohash, an NZB by the digest of its bytes. */
  lemma FingerprintMeans(w: World, m: Metadata)
    requires ValidateSource(w, m).Checked?
    ensures var s := ValidateSource(w, m).source;
            var saved := SavedOf(w, s);
            && (saved.torrent <==> m.kind != NzbFile)
            && (saved.torrent ==> saved.infoHash == s.infoHash && saved.fingerprint == "torrent:" + s.infoHash)
            && (!saved.torrent ==> saved.fingerprint == w.digest(m.nzbFile) && saved.filename == s.nzbFilename)
  {
    AcceptedIsCanonical(w, m);
  }

  function Stored(j: Saved): Metadata {
    if j.torrent then Metadata("torrent", j.kind, [], "", j.torrentFile, j.filename, j.infoHash, j.magnet, "")
    else Metadata("usenet", NzbFile, j.nzb, j.filename, [], "", "", "", "")
  }

  /** Reading back what was saved gives the accepted source; only a blank URL is dropped. */
  lemma SourceRoundTrip(w: World, m: Metadata)
    requires ValidateSource(w, m).Checked?
    ensures var s := ValidateSource(w, m).source;
            ValidateSource(w, Stored(SavedOf(w, s))) == Checked(s.(torrentUrl := ""))
  {
    AcceptedIsCanonical(w, m);
    var s := ValidateSource(w, m).source;
    var read := Stored(SavedOf(w, s));
    assert read == s.(torrentUrl := "");
    CanonicalIsFixed(w, read);
  }

  /** Saved from an accepted source, as every row is. */
  ghost predicate Genuine(w: World, saved: Saved) {
    exists m :: ValidateSource(w, m).Checked? && saved == SavedOf(w, ValidateSource(w, m).source)
  }

  lemma GenuineReadsBack(w: World, saved: Saved)
    requires Genuine(w, saved)
    ensures ValidateSource(w, Stored(saved)).Checked?
    ensures ValidateSource(w, Stored(saved)).source.infoHash == saved.infoHash
  {
    var m :| ValidateSource(w, m).Checked? && saved == SavedOf(w, ValidateSource(w, m).source);
    SourceRoundTrip(w, m);
  }

  /** The identity of a torrent file is the hash of the bytes of its info dictionary. */
  lemma IdentityIsTheInfoDictionary(w: World, m: Metadata)
    requires m.kind == TorrentFile && ValidateSource(w, m).Checked?
    ensures InfoSpan(m.torrentFile).Span?
    ensures var s := InfoSpan(m.torrentFile);
            ValidateSource(w, m).source.infoHash == w.sha1(m.torrentFile[s.start..s.end])
  {
  }
}
