/** Lengths are decimal, and complete metainfo as bytes. */
module Decimals {
  import opened Bencode
  import opened Grammar
  import opened Torrent
  import opened TorrentProofs

  /** A number in decimal, without leading zeros. */
  ghost function Decimal(n: nat): (digits: seq<byte>)
    ensures digits != [] && Digits(digits)
  {
    if n < 10 then [(48 + n) as byte] else Decimal(n / 10) + [(48 + n % 10) as byte]
  }

  /** The text of a string: its length in decimal, a colon, the bytes. */
  ghost function Printed(body: seq<byte>): seq<byte> {
    Decimal(|body|) + [58] + body
  }

  lemma NumberOfOneMore(digits: seq<byte>, d: byte)
    requires Digits(digits) && Digit(d)
    ensures Digits(digits + [d]) && Number(digits + [d]) == 10 * Number(digits) + (d as int - 48)
  {
    assert (digits + [d])[..|digits|] == digits;
  }

  /** Reading a decimal number gives the number. */
  lemma {:induction false} NumberUndoesDecimal(n: nat)
    ensures Number(Decimal(n)) == n
  {
    if n < 10 {
      assert [(48 + n) as byte] == [] + [(48 + n) as byte];
      NumberOfOneMore([], (48 + n) as byte);
    } else {
      NumberUndoesDecimal(n / 10);
      NumberOfOneMore(Decimal(n / 10), (48 + n % 10) as byte);
    }
  }

  /** Leading zeros do not count. */
  lemma {:induction false} LeadingZero(digits: seq<byte>)
    requires Digits(digits)
    ensures Number([48] + digits) == Number(digits)
  {
    if digits == [] {
      NumberOfOneMore([], 48);
      assert [48] + digits == [] + [48];
    } else {
      var init, last := digits[..|digits| - 1], digits[|digits| - 1];
      LeadingZero(init);
      NumberOfOneMore([48] + init, last);
      assert [48] + digits == [48] + init + [last];
    }
  }

  ghost function DecimalStr(body: seq<byte>): Str {
    Str(Decimal(|body|), body)
  }

  lemma DecimalStrIsProper(body: seq<byte>)
    ensures ProperStr(DecimalStr(body)) && EncodeStr(DecimalStr(body)) == Printed(body)
  {
    NumberUndoesDecimal(|body|);
  }

  /** A string printed with its decimal length is read back, wherever it stands. */
  lemma ReadsPrinted(data: seq<byte>, pos: nat, body: seq<byte>)
    requires At(data, pos, Printed(body))
    ensures pos <= |data| && ReadAt(data, pos) == Text(body, pos + |Printed(body)|)
  {
    DecimalStrIsProper(body);
    ReadsStr(data, pos, DecimalStr(body));
  }

  // ---- One complete metainfo ----

  ghost function Ascii(s: string): seq<byte>
    requires forall i :: 0 <= i < |s| ==> s[i] < 128 as char
  {
    seq(|s|, i requires 0 <= i < |s| => s[i] as byte)
  }

  /** The marks and keys are the ones of BEP 3 and BEP 52. */
  lemma MarksAreLetters()
    ensures [DICT, LIST, INT, END, COLON, MINUS] == Ascii("dlie:-")
  {
  }

  lemma KeysAreWords()
    ensures INFO == Ascii("info") && PIECES == Ascii("pieces") && META_VERSION == Ascii("meta version")
  {
  }

  /** A file with nothing but an info dictionary that holds nothing but pieces. */
  ghost function OnlyPieces(pieces: seq<byte>): seq<byte> {
    Ascii("d4:infod6:pieces") + Printed(pieces) + Ascii("ee")
  }

  ghost function PiecesEntry(pieces: seq<byte>): Items {
    Item(DecimalStr(PIECES), Bytes(DecimalStr(pieces)), Nil)
  }

  ghost function InfoEntry(pieces: seq<byte>): Items {
    Item(DecimalStr(INFO), Container(true, PiecesEntry(pieces)), Nil)
  }

  lemma OnlyPiecesIsProper(pieces: seq<byte>)
    ensures Entries(PiecesEntry(pieces)) && Entries(InfoEntry(pieces))
  {
    DecimalStrIsProper(INFO);
    DecimalStrIsProper(PIECES);
    DecimalStrIsProper(pieces);
    OneItem(DecimalStr(PIECES), Bytes(DecimalStr(pieces)), Nil);
    assert ItemsNesting(PiecesEntry(pieces)) == 1;
    OneItem(DecimalStr(INFO), Container(true, PiecesEntry(pieces)), Nil);
  }

  lemma PrintedKeys()
    ensures |Printed(INFO)| == 6 && |Printed(PIECES)| == 8
    ensures Ascii("d4:infod6:pieces") == [100] + Printed(INFO) + [100] + Printed(PIECES)
  {
    assert Decimal(4) == [52] && Decimal(6) == [54];
  }

  lemma PrintedItem(key: seq<byte>, value: Value)
    ensures EncodeItems(Item(DecimalStr(key), value, Nil), true) == Printed(key) + Encode(value) + [101]
  {
    DecimalStrIsProper(key);
    assert EncodeItems(Nil, true) == [101];
  }

  lemma OnlyPiecesIsMetainfo(pieces: seq<byte>)
    ensures OnlyPieces(pieces) == Metainfo(InfoEntry(pieces))
  {
    var inner := PiecesEntry(pieces);
    PrintedKeys();
    DecimalStrIsProper(pieces);
    PrintedItem(PIECES, Bytes(DecimalStr(pieces)));
    PrintedItem(INFO, Container(true, inner));
    assert Encode(Container(true, inner)) == [100] + (Printed(PIECES) + Printed(pieces) + [101]);
    assert Ascii("ee") == [101, 101];
  }

  /** Its span is what stands between the first seven bytes and the last one. */
  lemma OnlyPiecesIsSpanned(pieces: seq<byte>)
    ensures InfoSpan(OnlyPieces(pieces)) == Span(7, |OnlyPieces(pieces)| - 1)
  {
    var data, inner := OnlyPieces(pieces), PiecesEntry(pieces);
    OnlyPiecesIsMetainfo(pieces);
    OnlyPiecesIsProper(pieces);
    MetainfoText(data, InfoEntry(pieces));
    var start, next := EntryRead(data, 1, DecimalStr(INFO), Container(true, inner), Nil);
    InfoStarts(data, pieces);
    assert data[start] == DICT by { AtByte(data, start, Encode(Container(true, inner)), 0); }
    ScanStep(data, 1, NoSpan, INFO, start, next);
    EndOfScan(data, next, Span(start, next));
  }

  lemma InfoStarts(data: seq<byte>, pieces: seq<byte>)
    requires data == OnlyPieces(pieces)
    ensures 1 < |data| && ReadAt(data, 1) == Text(INFO, 7)
  {
    PrintedKeys();
    AtSlice(data, 1, Printed(INFO));
    assert data[1..7] == Printed(INFO);
    ReadsPrinted(data, 1, INFO);
  }

  lemma EndOfScan(data: seq<byte>, pos: nat, info: Span)
    requires info.Span? && info.start < info.end <= |data| && At(data, pos, EncodeItems(Nil, true)) && pos == |data| - 1
    ensures ScanTop(data, pos, info) == info
  {
    AtByte(data, pos, [END], 0);
  }

  /** The gateway takes it exactly if the pieces are a nonempty run of 20-byte digests. */
  lemma OnlyPiecesIsJudged(pieces: seq<byte>)
    ensures Gate(OnlyPieces(pieces)) == Accepted <==> |pieces| > 0 && |pieces| % 20 == 0
  {
    var data, entries, inner := OnlyPieces(pieces), InfoEntry(pieces), PiecesEntry(pieces);
    OnlyPiecesIsSpanned(pieces);
    OnlyPiecesIsMetainfo(pieces);
    OnlyPiecesIsProper(pieces);
    MetainfoText(data, entries);
    assert Under(INFO, entries) == [Container(true, inner)];
    TopReachesInfo(data, 1, entries, inner);
    assert Under(PIECES, inner) == [Bytes(DecimalStr(pieces))] && Under(META_VERSION, inner) == [];
    assert Bytes(DecimalStr(pieces)) in Under(PIECES, inner);
  }

  /** For instance, with one digest. */
  lemma SmallestMetainfo(digest: seq<byte>)
    requires |digest| == 20
    ensures var data := Ascii("d4:infod6:pieces") + (Ascii("20:") + digest) + Ascii("ee");
            InfoSpan(data) == Span(7, 40) && Gate(data) == Accepted
  {
    Twenty(digest);
    OnlyPiecesIsSpanned(digest);
    OnlyPiecesIsJudged(digest);
  }

  lemma Twenty(digest: seq<byte>)
    requires |digest| == 20
    ensures Printed(digest) == Ascii("20:") + digest && |OnlyPieces(digest)| == 41
  {
    assert Decimal(2) == [50] && Decimal(20) == [50, 48];
    assert Ascii("20:") == [50, 48] + [58];
  }

  lemma PrintedMetaVersion()
    ensures Printed(META_VERSION) == Ascii("12:meta version")
  {
    assert Decimal(1) == [49] && Decimal(12) == [49, 50];
    assert Ascii("12:meta version")[..3] == [49, 50, 58];
    assert Ascii("12:meta version")[3..] == META_VERSION;
  }

  /** An info dictionary that starts with a meta version is a hybrid, whatever follows. */
  lemma HybridIsNamed(data: seq<byte>)
    requires InfoSpan(data).Span? && At(data, 0, Ascii("d4:infod") + Ascii("12:meta version"))
    ensures Gate(data) == HybridTorrent
  {
    PrintedKeys();
    PrintedMetaVersion();
    assert Ascii("d4:infod") == [100] + Printed(INFO) + [100] by {
      assert Ascii("d4:infod") == Ascii("d4:infod6:pieces")[..8];
    }
    AtParts(data, 0, [100] + Printed(INFO) + [100], Printed(META_VERSION));
    AtParts(data, 0, [100] + Printed(INFO), [100]);
    AtParts(data, 0, [100], Printed(INFO));
    ReadsPrinted(data, 1, INFO);
    ReadsPrinted(data, 8, META_VERSION);
    FirstDigit(data, 1, INFO);
    FirstDigit(data, 8, META_VERSION);
    GateAtInfo(data, 1, INFO, 7);
    InfoIsHybrid(data);
  }

  lemma FirstDigit(data: seq<byte>, pos: nat, body: seq<byte>)
    requires At(data, pos, Printed(body))
    ensures pos < |data| && data[pos] != END
  {
    AtByte(data, pos, Printed(body), 0);
    assert Digit(Decimal(|body|)[0]);
  }

  lemma InfoIsHybrid(data: seq<byte>)
    requires 8 < |data| && data[8] != END && ReadAt(data, 8).Text? && ReadAt(data, 8).body == META_VERSION
    ensures GateInfo(data, 8, false) == HybridTorrent
  {
  }
}
