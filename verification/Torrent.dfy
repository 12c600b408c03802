/** Torrent metainfo: the exact span that is hashed, and the v1 check of the gateway. */
module Torrent {
  import opened Text
  import opened Bencode

  // "info", "pieces" and "meta version" as bytes.
  const INFO: seq<byte> := [105, 110, 102, 111]
  const PIECES: seq<byte> := [112, 105, 101, 99, 101, 115]
  const META_VERSION: seq<byte> := [109, 101, 116, 97, 32, 118, 101, 114, 115, 105, 111, 110]

  datatype Span = NoSpan | Span(start: nat, end: nat)

  /** The top-level loop from `pos` on, with the info span found so far. */
  function ScanTop(data: seq<byte>, pos: nat, info: Span): (r: Span)
    requires pos <= |data|
    requires info.Span? ==> info.start < info.end <= |data|
    ensures r.Span? ==> r.start < r.end <= |data|
    decreases |data| - pos
  {
    if pos < |data| && data[pos] != END then
      match ReadAt(data, pos)
      case BadText => NoSpan
      case Text(key, start) =>
        match SkipAt(data, start, 0)
        case Bad => NoSpan
        case Next(next) =>
          if key != INFO then ScanTop(data, next, info)
          else if info.Span? || data[start] != DICT then NoSpan
          else ScanTop(data, next, Span(start, next))
    else if pos != |data| - 1 || info.NoSpan? then NoSpan
    else info
  }

  function InfoSpan(data: seq<byte>): (r: Span)
    ensures r.Span? ==> r.start < r.end <= |data|
  {
    if |data| < 2 || data[0] != DICT then NoSpan else ScanTop(data, 1, NoSpan)
  }

  datatype Hashed = NotTorrent | InfoHash(hash: string)

  method TorrentFileInfoHash(data: seq<byte>, sha1: seq<byte> -> HashText) returns (r: Hashed)
    ensures r == match InfoSpan(data)
                 case NoSpan => NotTorrent
                 case Span(start, end) => InfoHash(sha1(data[start..end]))
  {
    if |data| < 2 || data[0] != DICT {
      return NotTorrent;
    }
    var p := new Reader(data, 1);
    var info: Span := NoSpan;
    while p.pos < |data| && data[p.pos] != END
      invariant p.Valid() && p.data == data
      invariant info.Span? ==> info.start < info.end <= |data|
      invariant InfoSpan(data) == ScanTop(data, p.pos, info)
      decreases |data| - p.pos
    {
      var key := p.ReadString();
      if key.BadText? {
        return NotTorrent;
      }
      var start := p.pos;
      var ok := p.Skip(0);
      if !ok {
        return NotTorrent;
      }
      if key.body == INFO {
        if info.Span? || data[start] != DICT {
          return NotTorrent;
        }
        info := Span(start, p.pos);
      }
    }
    if p.pos != |data| - 1 || data[p.pos] != END || info.NoSpan? {
      return NotTorrent;
    }
    return InfoHash(sha1(data[info.start..info.end]));
  }

  datatype Verdict = Accepted | NoInfoHash | Malformed | MissingInfo | HybridTorrent | BadPieces | NoPieces

  function GateInfo(data: seq<byte>, pos: nat, pieces: bool): Verdict
    requires pos <= |data|
    decreases |data| - pos
  {
    if pos < |data| && data[pos] != END then
      match ReadAt(data, pos)
      case BadText => Malformed
      case Text(key, start) =>
        if key == META_VERSION then HybridTorrent
        else if key == PIECES then
          match ReadAt(data, start)
          case BadText => BadPieces
          case Text(v, next) => if |v| == 0 || |v| % 20 != 0 then BadPieces else GateInfo(data, next, true)
        else
          match SkipAt(data, start, 0)
          case Bad => Malformed
          case Next(next) => GateInfo(data, next, pieces)
    else if pieces then Accepted
    else NoPieces
  }

  function AtInfo(data: seq<byte>, start: nat): Verdict
    requires start <= |data|
  {
    if start < |data| then GateInfo(data, start + 1, false) else NoPieces
  }

  function GateTop(data: seq<byte>, pos: nat): Verdict
    requires pos <= |data|
    decreases |data| - pos
  {
    if pos < |data| && data[pos] != END then
      match ReadAt(data, pos)
      case BadText => Malformed
      case Text(key, start) =>
        if key == INFO then AtInfo(data, start)
        else
          match SkipAt(data, start, 0)
          case Bad => Malformed
          case Next(next) => GateTop(data, next)
    else MissingInfo
  }

  function Gate(data: seq<byte>): Verdict {
    if InfoSpan(data).NoSpan? then NoInfoHash else GateTop(data, 1)
  }

  lemma GateAtInfo(data: seq<byte>, pos: nat, key: seq<byte>, start: nat)
    requires pos < |data| && data[pos] != END && start <= |data| && ReadAt(data, pos) == Text(key, start)
    ensures key == INFO ==> GateTop(data, pos) == AtInfo(data, start)
  {
  }

  lemma GateStep(data: seq<byte>, pos: nat, key: seq<byte>, start: nat, next: nat)
    requires pos < |data| && data[pos] != END && start < next <= |data|
    requires ReadAt(data, pos) == Text(key, start) && key != INFO
    requires SkipAt(data, start, 0) == Next(next)
    ensures GateTop(data, pos) == GateTop(data, next)
  {
  }

  /** The loop over the entries of the info dictionary. */
  method ValidateInfo(p: Reader) returns (v: Verdict)
    requires p.Valid()
    modifies p
    ensures v == GateInfo(p.data, old(p.pos), false)
  {
    var pieces := false;
    while p.pos < |p.data| && p.data[p.pos] != END
      invariant p.Valid()
      invariant GateInfo(p.data, old(p.pos), false) == GateInfo(p.data, p.pos, pieces)
      decreases |p.data| - p.pos
    {
      var key := p.ReadString();
      if key.BadText? {
        return Malformed;
      }
      if key.body == META_VERSION {
        return HybridTorrent;
      }
      if key.body == PIECES {
        var text := p.ReadString();
        if text.BadText? || |text.body| == 0 || |text.body| % 20 != 0 {
          return BadPieces;
        }
        pieces := true;
      } else {
        var ok := p.Skip(0);
        if !ok {
          return Malformed;
        }
      }
    }
    if !pieces {
      return NoPieces;
    }
    return Accepted;
  }

  method ValidateGatewayTorrent(data: seq<byte>, sha1: seq<byte> -> HashText) returns (v: Verdict)
    ensures v == Gate(data)
  {
    var hash := TorrentFileInfoHash(data, sha1);
    if hash.NotTorrent? {
      return NoInfoHash;
    }
    var p := new Reader(data, 1);
    while p.pos < |data| && data[p.pos] != END
      invariant p.Valid() && p.data == data
      invariant Gate(data) == GateTop(data, p.pos)
      decreases |data| - p.pos
    {
      ghost var at := p.pos;
      var key := p.ReadString();
      if key.BadText? {
        return Malformed;
      }
      ghost var start := p.pos;
      if key.body != INFO {
        var ok := p.Skip(0);
        if !ok {
          return Malformed;
        }
        GateStep(data, at, key.body, start, p.pos);
        continue;
      }
      GateAtInfo(data, at, key.body, start);
      if p.pos >= |data| {
        return NoPieces;
      }
      p.pos := p.pos + 1;
      v := ValidateInfo(p);
      return;
    }
    return MissingInfo;
  }
}
