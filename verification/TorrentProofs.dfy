/** What the two passes over metainfo mean, in terms of its top-level entries. */
module TorrentProofs {
  import opened Bencode
  import opened Grammar
  import opened Torrent

  /** A metainfo file with these entries. */
  ghost function Metainfo(entries: Items): seq<byte> {
    [DICT] + EncodeItems(entries, true)
  }

  /** Well-formed entries whose values all fit below the depth limit. */
  ghost predicate Entries(entries: Items) {
    ProperItems(entries, true) && ItemsNesting(entries) <= MAX_DEPTH + 1
  }

  /** The values stored under a key, in order. */
  ghost function Under(key: seq<byte>, items: Items): seq<Value> {
    match items
    case Nil => []
    case Item(k, v, rest) => if k.body == key then [v] + Under(key, rest) else Under(key, rest)
  }

  ghost predicate IsDict(v: Value) {
    v.Container? && v.dictionary
  }

  ghost predicate OneInfo(entries: Items) {
    |Under(INFO, entries)| == 1 && IsDict(Under(INFO, entries)[0])
  }

  ghost function Joined(first: Items, second: Items): Items {
    match first
    case Nil => second
    case Item(k, v, rest) => Item(k, v, Joined(rest, second))
  }

  /** One turn of a top-level loop over a printed entry. */
  lemma EntryRead(data: seq<byte>, pos: nat, key: Str, value: Value, rest: Items)
    returns (start: nat, next: nat)
    requires Entries(Item(key, value, rest)) && At(data, pos, EncodeItems(Item(key, value, rest), true))
    ensures Entries(rest) && pos < |data| && data[pos] != END
    ensures ReadAt(data, pos) == Text(key.body, start) && start <= |data| && SkipAt(data, start, 0) == Next(next)
    ensures next == start + |Encode(value)| && At(data, next, EncodeItems(rest, true))
    ensures At(data, start, Encode(value))
    ensures pos + |EncodeItems(Item(key, value, rest), true)| == next + |EncodeItems(rest, true)|
  {
    ItemStarts(data, pos, key, value, rest, true);
    start := pos + |KeyText(key, true)|;
    next := start + |Encode(value)|;
    SkipUndoesEncode(data, start, value, 0);
  }

  lemma ScanStep(data: seq<byte>, pos: nat, info: Span, key: seq<byte>, start: nat, next: nat)
    requires pos < |data| && data[pos] != END && (info.Span? ==> info.start < info.end <= |data|)
    requires start <= |data| && ReadAt(data, pos) == Text(key, start) && SkipAt(data, start, 0) == Next(next)
    ensures start < next <= |data|
    ensures ScanTop(data, pos, info) ==
            if key != INFO then ScanTop(data, next, info)
            else if info.Span? || data[start] != DICT then NoSpan
            else ScanTop(data, next, Span(start, next))
  {
  }

  lemma {:induction false} TopOfEntries(data: seq<byte>, pos: nat, entries: Items, info: Span)
    requires Entries(entries) && At(data, pos, EncodeItems(entries, true))
    requires pos + |EncodeItems(entries, true)| == |data|
    requires info.Span? ==> info.start < info.end <= |data|
    ensures ScanTop(data, pos, info).Span? <==>
            if info.Span? then Under(INFO, entries) == [] else OneInfo(entries)
    ensures ScanTop(data, pos, info).Span? && info.Span? ==> ScanTop(data, pos, info) == info
    ensures ScanTop(data, pos, info).Span? && info.NoSpan? ==>
              var r := ScanTop(data, pos, info);
              r.end == r.start + |Encode(Under(INFO, entries)[0])| && At(data, r.start, Encode(Under(INFO, entries)[0]))
    decreases entries
  {
    match entries
    case Nil =>
      AtByte(data, pos, [END], 0);
    case Item(key, value, rest) =>
      var start, next := EntryRead(data, pos, key, value, rest);
      FirstByte(value);
      AtByte(data, start, Encode(value), 0);
      ScanStep(data, pos, info, key.body, start, next);
      TopOfEntries(data, next, rest, if key.body == INFO then Span(start, next) else info);
  }

  /** The hash covers exactly the bytes of the only info dictionary, wherever it stands. */
  lemma InfoSpanOfEntries(entries: Items)
    requires Entries(entries)
    ensures InfoSpan(Metainfo(entries)).Span? <==> OneInfo(entries)
    ensures OneInfo(entries) ==>
              var s := InfoSpan(Metainfo(entries));
              Metainfo(entries)[s.start..s.end] == Encode(Under(INFO, entries)[0])
  {
    var data := Metainfo(entries);
    MetainfoText(data, entries);
    TopOfEntries(data, 1, entries, NoSpan);
    if OneInfo(entries) {
      SpanText(data, InfoSpan(data), Encode(Under(INFO, entries)[0]));
    }
  }

  lemma MetainfoText(data: seq<byte>, entries: Items)
    requires data == Metainfo(entries)
    ensures At(data, 1, EncodeItems(entries, true)) && 1 + |EncodeItems(entries, true)| == |data|
    ensures |data| >= 2 && data[0] == DICT && InfoSpan(data) == ScanTop(data, 1, NoSpan)
  {
    AtSlice(data, 0, Metainfo(entries));
    AtParts(data, 0, [DICT], EncodeItems(entries, true));
  }

  lemma SpanText(data: seq<byte>, s: Span, text: seq<byte>)
    requires s.Span? && s.start < s.end <= |data|
    requires s.end == s.start + |text| && At(data, s.start, text)
    ensures data[s.start..s.end] == text
  {
    AtSlice(data, s.start, text);
  }

  /** Whatever is hashed is a metainfo file with exactly one info dictionary. */
  lemma InfoSpanIsMetainfo(data: seq<byte>) returns (entries: Items)
    requires InfoSpan(data).Span?
    ensures Entries(entries) && data == Metainfo(entries) && OneInfo(entries)
  {
    entries := TopIsEntries(data, 1, NoSpan);
    AtParts(data, 0, [DICT], EncodeItems(entries, true));
    AtSlice(data, 0, Metainfo(entries));
    assert data[0..|data|] == data;
    InfoSpanOfEntries(entries);
  }

  lemma {:induction false} TopIsEntries(data: seq<byte>, pos: nat, info: Span) returns (entries: Items)
    requires pos <= |data| && (info.Span? ==> info.start < info.end <= |data|)
    requires ScanTop(data, pos, info).Span?
    ensures Entries(entries) && At(data, pos, EncodeItems(entries, true))
    ensures pos + |EncodeItems(entries, true)| == |data|
    decreases |data| - pos
  {
    if data[pos] == END {
      entries := Nil;
    } else {
      var key, value, next, found := ScannedEntry(data, pos, info);
      var rest := TopIsEntries(data, next, found);
      entries := EntryJoin(data, pos, next, key, value, rest);
    }
  }

  lemma EntryJoin(data: seq<byte>, pos: nat, next: nat, key: Str, value: Value, rest: Items) returns (entries: Items)
    requires ProperStr(key) && Proper(value) && Nesting(value) <= MAX_DEPTH && Entries(rest)
    requires At(data, pos, KeyText(key, true)) && At(data, pos + |KeyText(key, true)|, Encode(value))
    requires next == pos + |KeyText(key, true)| + |Encode(value)| && At(data, next, EncodeItems(rest, true))
    ensures Entries(entries) && At(data, pos, EncodeItems(entries, true))
    ensures pos + |EncodeItems(entries, true)| == next + |EncodeItems(rest, true)|
  {
    entries := Item(key, value, rest);
    ItemsJoin(data, pos, next, key, value, rest, true);
  }

  lemma ScannedEntry(data: seq<byte>, pos: nat, info: Span)
    returns (key: Str, value: Value, next: nat, found: Span)
    requires pos < |data| && data[pos] != END && (info.Span? ==> info.start < info.end <= |data|)
    requires ScanTop(data, pos, info).Span?
    ensures ProperStr(key) && At(data, pos, KeyText(key, true))
    ensures Proper(value) && Nesting(value) <= MAX_DEPTH && At(data, pos + |KeyText(key, true)|, Encode(value))
    ensures pos < next == pos + |KeyText(key, true)| + |Encode(value)| <= |data|
    ensures (found.Span? ==> found.start < found.end <= |data|) && ScanTop(data, next, found).Span?
  {
    ScanReadsEntry(data, pos, info);
    found := ScanContinues(data, pos, info);
    key, value, next := EntryIsValue(data, pos);
  }

  lemma ScanContinues(data: seq<byte>, pos: nat, info: Span) returns (found: Span)
    requires pos < |data| && data[pos] != END && (info.Span? ==> info.start < info.end <= |data|)
    requires ScanTop(data, pos, info).Span? && ReadAt(data, pos).Text? && SkipAt(data, ReadAt(data, pos).next, 0).Next?
    ensures found.Span? ==> found.start < found.end <= |data|
    ensures ScanTop(data, SkipAt(data, ReadAt(data, pos).next, 0).pos, found).Span?
  {
    var Text(key, start) := ReadAt(data, pos);
    var Next(next) := SkipAt(data, start, 0);
    ScanStep(data, pos, info, key, start, next);
    found := if key == INFO then Span(start, next) else info;
  }

  lemma ScanReadsEntry(data: seq<byte>, pos: nat, info: Span)
    requires pos < |data| && data[pos] != END && (info.Span? ==> info.start < info.end <= |data|)
    requires ScanTop(data, pos, info).Span?
    ensures ReadAt(data, pos).Text? && SkipAt(data, ReadAt(data, pos).next, 0).Next?
  {
  }

  lemma EntryIsValue(data: seq<byte>, pos: nat) returns (key: Str, value: Value, next: nat)
    requires pos < |data| && ReadAt(data, pos).Text? && SkipAt(data, ReadAt(data, pos).next, 0).Next?
    ensures ProperStr(key) && At(data, pos, KeyText(key, true))
    ensures ReadAt(data, pos) == Text(key.body, pos + |KeyText(key, true)|)
    ensures Proper(value) && Nesting(value) <= MAX_DEPTH && At(data, pos + |KeyText(key, true)|, Encode(value))
    ensures pos < next == pos + |KeyText(key, true)| + |Encode(value)| <= |data| && |Encode(value)| > 0
    ensures SkipAt(data, ReadAt(data, pos).next, 0) == Next(next)
  {
    key := ReadIsStr(data, pos);
    var start := pos + |KeyText(key, true)|;
    value := SkipIsValue(data, start, 0);
    next := start + |Encode(value)|;
  }

  /** Locality of the infohash: inserting, deleting or replacing entries that are not `info`
      leaves the hashed bytes as they were. */
  lemma OtherEntriesDoNotMatter(before: Items, old_: Items, new_: Items, after: Items)
    requires Entries(Joined(before, Joined(old_, after))) && Entries(new_)
    requires Under(INFO, old_) == [] && Under(INFO, new_) == []
    requires InfoSpan(Metainfo(Joined(before, Joined(old_, after)))).Span?
    ensures var was, now := Metainfo(Joined(before, Joined(old_, after))), Metainfo(Joined(before, Joined(new_, after)));
            var s, t := InfoSpan(was), InfoSpan(now);
            t.Span? && now[t.start..t.end] == was[s.start..s.end]
  {
    JoinedParts(old_, after);
    JoinedParts(new_, after);
    JoinedParts(before, Joined(old_, after));
    JoinedParts(before, Joined(new_, after));
    InfoSpanOfEntries(Joined(before, Joined(old_, after)));
    InfoSpanOfEntries(Joined(before, Joined(new_, after)));
  }

  lemma {:induction false} JoinedParts(first: Items, second: Items)
    ensures Entries(Joined(first, second)) <==> Entries(first) && Entries(second)
    ensures forall key: seq<byte> :: Under(key, Joined(first, second)) == Under(key, first) + Under(key, second)
  {
    match first
    case Nil =>
      assert forall key: seq<byte> :: Under(key, Nil) == [];
    case Item(k, v, rest) =>
      JoinedParts(rest, second);
  }

  ghost predicate GoodPieces(v: Value) {
    v.Bytes? && |v.text.body| > 0 && |v.text.body| % 20 == 0
  }

  /** A v1 info dictionary. */
  ghost predicate Version1(items: Items) {
    && Under(META_VERSION, items) == []
    && Under(PIECES, items) != []
    && forall v :: v in Under(PIECES, items) ==> GoodPieces(v)
  }

  lemma {:induction false} InfoOfItems(data: seq<byte>, pos: nat, items: Items, pieces: bool)
    requires Entries(items) && At(data, pos, EncodeItems(items, true))
    ensures pos <= |data| && GateInfo(data, pos, pieces) in {Accepted, HybridTorrent, BadPieces, NoPieces}
    ensures GateInfo(data, pos, pieces) == Accepted <==>
            && Under(META_VERSION, items) == []
            && (pieces || Under(PIECES, items) != [])
            && forall v :: v in Under(PIECES, items) ==> GoodPieces(v)
    decreases items
  {
    match items
    case Nil =>
      AtByte(data, pos, [END], 0);
    case Item(key, value, rest) =>
      var start, next := EntryRead(data, pos, key, value, rest);
      if key.body == PIECES {
        assert forall v :: v in Under(PIECES, items) <==> v == value || v in Under(PIECES, rest);
        assert GoodPieces(value) <==> value.Bytes? && |value.text.body| > 0 && |value.text.body| % 20 == 0;
        PiecesRead(data, start, value);
        InfoOfItems(data, next, rest, true);
      } else {
        InfoOfItems(data, next, rest, pieces);
      }
  }

  /** Reading a value as a string succeeds exactly on byte strings, and ends where skipping ends. */
  lemma PiecesRead(data: seq<byte>, start: nat, value: Value)
    requires Proper(value) && At(data, start, Encode(value))
    ensures start <= |data|
    ensures ReadAt(data, start) == if value.Bytes? then Text(value.text.body, start + |Encode(value)|) else BadText
  {
    if value.Bytes? {
      ReadsStr(data, start, value.text);
    } else {
      FirstByte(value);
      AtByte(data, start, Encode(value), 0);
    }
  }

  lemma {:induction false} TopReachesInfo(data: seq<byte>, pos: nat, entries: Items, inner: Items)
    requires Entries(entries) && At(data, pos, EncodeItems(entries, true))
    requires Under(INFO, entries) == [Container(true, inner)]
    ensures pos <= |data|
    ensures GateTop(data, pos) in {Accepted, HybridTorrent, BadPieces, NoPieces}
    ensures GateTop(data, pos) == Accepted <==> Version1(inner)
    decreases entries
  {
    var Item(key, value, rest) := entries;
    var start, next := EntryRead(data, pos, key, value, rest);
    if key.body == INFO {
      GateAtInfo(data, pos, key.body, start);
      InfoIsFirst(key, value, rest, inner);
      InfoIsJudged(data, start, inner);
    } else {
      GateStep(data, pos, key.body, start, next);
      TopReachesInfo(data, next, rest, inner);
    }
  }

  lemma InfoIsJudged(data: seq<byte>, start: nat, inner: Items)
    requires At(data, start, Encode(Container(true, inner))) && Entries(inner)
    ensures start + 1 <= |data| && GateInfo(data, start + 1, false) in {Accepted, HybridTorrent, BadPieces, NoPieces}
    ensures GateInfo(data, start + 1, false) == Accepted <==> Version1(inner)
  {
    DictStarts(data, start, inner);
    InfoOfItems(data, start + 1, inner, false);
  }

  lemma DictStarts(data: seq<byte>, start: nat, inner: Items)
    requires At(data, start, Encode(Container(true, inner)))
    ensures At(data, start + 1, EncodeItems(inner, true))
  {
    AtParts(data, start, [DICT], EncodeItems(inner, true));
  }

  lemma InfoIsFirst(key: Str, value: Value, rest: Items, inner: Items)
    requires key.body == INFO && Entries(Item(key, value, rest))
    requires Under(INFO, Item(key, value, rest)) == [Container(true, inner)]
    ensures value == Container(true, inner) && Entries(inner)
  {
    assert value == Under(INFO, Item(key, value, rest))[0];
    assert Proper(Container(true, inner)) && Nesting(Container(true, inner)) == ItemsNesting(inner);
  }

  /** The two passes agree: after the first accepts, the second never fails structurally nor runs
      past the end, and accepts exactly the v1 info dictionaries. */
  lemma SecondPassAgrees(data: seq<byte>) returns (entries: Items, inner: Items)
    requires InfoSpan(data).Span?
    ensures Entries(entries) && data == Metainfo(entries) && Under(INFO, entries) == [Container(true, inner)]
    ensures Gate(data) in {Accepted, HybridTorrent, BadPieces, NoPieces}
    ensures Gate(data) == Accepted <==> Version1(inner)
  {
    entries := InfoSpanIsMetainfo(data);
    inner := Under(INFO, entries)[0].items;
    MetainfoText(data, entries);
    TopReachesInfo(data, 1, entries, inner);
  }

  /** Without one info dictionary there is nothing to validate: both passes refuse together. */
  lemma GateNeedsAHash(data: seq<byte>)
    ensures Gate(data) != MissingInfo && Gate(data) != Malformed
    ensures Gate(data) == NoInfoHash <==> InfoSpan(data).NoSpan?
  {
    if InfoSpan(data).Span? {
      var _, _ := SecondPassAgrees(data);
    }
  }
}
