/** What is saved and uploaded, in terms of its content. */
module Submissions {
  import opened Bencode
  import opened Grammar
  import opened Torrent
  import opened TorrentProofs
  import opened Sources

  /** The bytes are a file whose info dictionary is v1. */
  ghost predicate V1File(data: seq<byte>) {
    exists entries, inner ::
      Entries(entries) && data == Metainfo(entries) && Under(INFO, entries) == [Container(true, inner)] && Version1(inner)
  }

  /** The gateway's two passes accept exactly the v1 files. */
  lemma AcceptedIsV1(data: seq<byte>)
    ensures Gate(data) == Accepted <==> V1File(data)
  {
    if Gate(data) == Accepted {
      var entries, inner := SecondPassAgrees(data);
      assert Under(INFO, entries) == [Container(true, inner)];
    }
    if V1File(data) {
      var entries, inner :|
        Entries(entries) && data == Metainfo(entries) && Under(INFO, entries) == [Container(true, inner)] && Version1(inner);
      InfoSpanOfEntries(entries);
      MetainfoText(data, entries);
      TopReachesInfo(data, 1, entries, inner);
    }
  }

  /** What is submitted describes a canonical source, and a torrent file among them is v1. */
  lemma SubmittableMeans(w: World, m: Metadata)
    ensures Submittable(w, m) <==>
            exists s :: Canonical(w, s) && Describes(m, s) && (m.kind == TorrentFile ==> V1File(m.torrentFile))
  {
    if Submittable(w, m) {
      AcceptedIsDescribed(w, m, ValidateSource(w, m).source);
      AcceptedIsV1(m.torrentFile);
    }
    forall s | Canonical(w, s) && Describes(m, s) && (m.kind == TorrentFile ==> V1File(m.torrentFile)) ensures Submittable(w, m) {
      AcceptedIsDescribed(w, m, s);
      AcceptedIsV1(m.torrentFile);
    }
  }
}
