/** The language the reader accepts, as trees with a printer; the reader undoes the printer. */
module Grammar {
  import opened Bencode

  /** A byte string, with its length as it was spelled (leading zeros are legal here). */
  datatype Str = Str(length: seq<byte>, body: seq<byte>)

  /** In a list the keys carry nothing and are not printed. */
  datatype Value =
    | Bytes(text: Str)
    | Integer(negative: bool, digits: seq<byte>)
    | Container(dictionary: bool, items: Items)

  datatype Items = Nil | Item(key: Str, value: Value, rest: Items)

  ghost predicate ProperStr(s: Str) {
    s.length != [] && Digits(s.length) && Number(s.length) == |s.body|
  }

  ghost predicate Proper(v: Value) {
    match v
    case Bytes(s) => ProperStr(s)
    case Integer(_, digits) => digits != [] && Digits(digits)
    case Container(dictionary, items) => ProperItems(items, dictionary)
  }

  ghost predicate ProperItems(items: Items, dictionary: bool) {
    match items
    case Nil => true
    case Item(key, value, rest) => (dictionary ==> ProperStr(key)) && Proper(value) && ProperItems(rest, dictionary)
  }

  ghost function EncodeStr(s: Str): seq<byte> {
    s.length + [COLON] + s.body
  }

  ghost function Encode(v: Value): seq<byte> {
    match v
    case Bytes(s) => EncodeStr(s)
    case Integer(negative, digits) => [INT] + (if negative then [MINUS] else []) + digits + [END]
    case Container(dictionary, items) => [if dictionary then DICT else LIST] + EncodeItems(items, dictionary)
  }

  /** The items followed by the end mark. */
  ghost function EncodeItems(items: Items, dictionary: bool): seq<byte> {
    match items
    case Nil => [END]
    case Item(key, value, rest) =>
      KeyText(key, dictionary) + (Encode(value) + EncodeItems(rest, dictionary))
  }

  ghost function KeyText(key: Str, dictionary: bool): seq<byte> {
    if dictionary then EncodeStr(key) else []
  }

  ghost function Nesting(v: Value): nat {
    match v
    case Bytes(_) => 0
    case Integer(_, _) => 0
    case Container(_, items) => ItemsNesting(items)
  }

  ghost function ItemsNesting(items: Items): nat {
    match items
    case Nil => 0
    case Item(_, value, rest) =>
      if 1 + Nesting(value) > ItemsNesting(rest) then 1 + Nesting(value) else ItemsNesting(rest)
  }

  /** `text` stands in the buffer at this position. */
  ghost predicate At(data: seq<byte>, pos: nat, text: seq<byte>): (stands: bool)
    ensures stands ==> pos + |text| <= |data|
    decreases |text|
  {
    if text == [] then pos <= |data|
    else pos < |data| && data[pos] == text[0] && At(data, pos + 1, text[1..])
  }

  lemma {:induction false} AtMeans(data: seq<byte>, pos: nat, text: seq<byte>)
    ensures At(data, pos, text) <==>
            pos + |text| <= |data| && forall i :: 0 <= i < |text| ==> data[pos + i] == text[i]
    decreases |text|
  {
    if text != [] {
      AtMeans(data, pos + 1, text[1..]);
      if pos + |text| <= |data| {
        assert forall i :: 0 <= i < |text| - 1 ==> text[1..][i] == text[i + 1] && data[pos + 1 + i] == data[pos + (i + 1)];
      }
    }
  }

  lemma AtParts(data: seq<byte>, pos: nat, a: seq<byte>, b: seq<byte>)
    ensures At(data, pos, a + b) <==> At(data, pos, a) && At(data, pos + |a|, b)
  {
    AtMeans(data, pos, a + b);
    AtMeans(data, pos, a);
    AtMeans(data, pos + |a|, b);
    if At(data, pos, a + b) {
      assert forall i :: 0 <= i < |a| ==> (a + b)[i] == a[i];
      assert forall i :: 0 <= i < |b| ==> (a + b)[|a| + i] == b[i];
    }
  }

  lemma AtByte(data: seq<byte>, pos: nat, text: seq<byte>, i: nat)
    requires At(data, pos, text) && i < |text|
    ensures pos + |text| <= |data| && data[pos + i] == text[i]
  {
    AtMeans(data, pos, text);
  }

  lemma AtSlice(data: seq<byte>, pos: nat, text: seq<byte>)
    ensures At(data, pos, text) <==> pos + |text| <= |data| && data[pos..pos + |text|] == text
  {
    AtMeans(data, pos, text);
    if pos + |text| <= |data| {
      var slice := data[pos..pos + |text|];
      assert forall i :: 0 <= i < |text| ==> slice[i] == data[pos + i];
    }
  }

  lemma {:induction false} DigitsEndAt(data: seq<byte>, pos: nat, digits: seq<byte>)
    requires Digits(digits) && At(data, pos, digits)
    requires pos + |digits| < |data| && !Digit(data[pos + |digits|])
    ensures DigitsEnd(data, pos) == pos + |digits|
    decreases |digits|
  {
    if digits != [] {
      AtByte(data, pos, digits, 0);
      assert digits == [digits[0]] + digits[1..];
      AtParts(data, pos, [digits[0]], digits[1..]);
      DigitsEndAt(data, pos + 1, digits[1..]);
    }
  }

  lemma ReadsStr(data: seq<byte>, pos: nat, s: Str)
    requires ProperStr(s) && At(data, pos, EncodeStr(s))
    ensures pos <= |data| && ReadAt(data, pos) == Text(s.body, pos + |EncodeStr(s)|)
  {
    AtParts(data, pos, s.length + [COLON], s.body);
    AtParts(data, pos, s.length, [COLON]);
    AtByte(data, pos + |s.length|, [COLON], 0);
    DigitsEndAt(data, pos, s.length);
    AtSlice(data, pos, s.length);
    AtSlice(data, pos + |s.length| + 1, s.body);
  }

  lemma FirstByte(v: Value)
    requires Proper(v)
    ensures Encode(v) != []
    ensures match v
            case Bytes(_) => Digit(Encode(v)[0])
            case Integer(_, _) => Encode(v)[0] == INT
            case Container(dictionary, _) => Encode(v)[0] == if dictionary then DICT else LIST
  {
    if v.Bytes? {
      assert Encode(v)[0] == v.text.length[0];
    }
  }

  /** Parser undoes printer: at the start of a printed value, in any surroundings, the reader
      stops exactly behind it if the value nests no deeper than the limit, and fails otherwise. */
  lemma {:induction false} SkipUndoesEncode(data: seq<byte>, pos: nat, v: Value, depth: nat)
    requires Proper(v) && At(data, pos, Encode(v))
    ensures pos <= |data|
    ensures SkipAt(data, pos, depth) == if depth + Nesting(v) <= MAX_DEPTH then Next(pos + |Encode(v)|) else Bad
    decreases v, 0
  {
    FirstByte(v);
    AtByte(data, pos, Encode(v), 0);
    match v
    case Bytes(s) =>
      ReadsStr(data, pos, s);
    case Integer(negative, digits) =>
      IntegerEnds(data, pos, negative, digits);
    case Container(dictionary, items) =>
      AtParts(data, pos, [if dictionary then DICT else LIST], EncodeItems(items, dictionary));
      ItemsUndoEncode(data, pos + 1, items, dictionary, depth);
  }

  lemma IntegerEnds(data: seq<byte>, pos: nat, negative: bool, digits: seq<byte>)
    requires digits != [] && Digits(digits)
    requires At(data, pos, Encode(Integer(negative, digits)))
    ensures pos < |data| && data[pos] == INT
    ensures var start := if pos + 1 < |data| && data[pos + 1] == MINUS then pos + 2 else pos + 1;
            var end := pos + |Encode(Integer(negative, digits))| - 1;
            start < end < |data| && DigitsEnd(data, start) == end && data[end] == END
  {
    var sign := if negative then [MINUS] else [];
    var head := [INT] + sign;
    AtParts(data, pos, head + digits, [END]);
    AtParts(data, pos, head, digits);
    AtParts(data, pos, [INT], sign);
    AtByte(data, pos, [INT], 0);
    AtByte(data, pos + |head|, digits, 0);
    AtByte(data, pos + |head + digits|, [END], 0);
    if negative {
      AtByte(data, pos + 1, sign, 0);
    }
    DigitsEndAt(data, pos + |head|, digits);
  }

  lemma {:induction false} ItemsUndoEncode(data: seq<byte>, pos: nat, items: Items, dictionary: bool, depth: nat)
    requires ProperItems(items, dictionary) && At(data, pos, EncodeItems(items, dictionary))
    ensures pos <= |data|
    ensures depth <= MAX_DEPTH ==>
              SkipItems(data, pos, depth, dictionary) ==
              if depth + ItemsNesting(items) <= MAX_DEPTH then Next(pos + |EncodeItems(items, dictionary)|) else Bad
    decreases items
  {
    match items
    case Nil =>
      AtByte(data, pos, [END], 0);
    case Item(key, value, rest) =>
      var next := pos + |KeyText(key, dictionary)| + |Encode(value)|;
      ItemStarts(data, pos, key, value, rest, dictionary);
      FirstItemUndone(data, pos, key, value, dictionary, depth);
      ItemsUndoEncode(data, next, rest, dictionary, depth);
      assert pos + |EncodeItems(items, dictionary)| == next + |EncodeItems(rest, dictionary)|;
  }

  lemma {:induction false} FirstItemUndone(data: seq<byte>, pos: nat, key: Str, value: Value, dictionary: bool, depth: nat)
    requires Proper(value) && pos < |data| && data[pos] != END
    requires var middle := pos + |KeyText(key, dictionary)|;
             && At(data, middle, Encode(value))
             && (dictionary ==> ReadAt(data, pos) == Text(key.body, middle))
    ensures var next := pos + |KeyText(key, dictionary)| + |Encode(value)|;
            SkipItems(data, pos, depth, dictionary) ==
            if depth + 1 + Nesting(value) <= MAX_DEPTH then SkipItems(data, next, depth, dictionary) else Bad
    decreases value, 1
  {
    var middle := pos + |KeyText(key, dictionary)|;
    SkipUndoesEncode(data, middle, value, depth + 1);
    ItemsStep(data, pos, depth, dictionary, middle,
              if depth + 1 + Nesting(value) <= MAX_DEPTH then Next(middle + |Encode(value)|) else Bad);
  }

  lemma ItemsStep(data: seq<byte>, pos: nat, depth: nat, dictionary: bool, middle: nat, value: Skip)
    requires pos < |data| && data[pos] != END && middle <= |data|
    requires if dictionary then ReadAt(data, pos).Text? && ReadAt(data, pos).next == middle else middle == pos
    requires value == SkipAt(data, middle, depth + 1)
    ensures SkipItems(data, pos, depth, dictionary) ==
            if value.Bad? then Bad else SkipItems(data, value.pos, depth, dictionary)
  {
  }

  /** One turn of the reader's container loop on a printed item. */
  lemma ItemStarts(data: seq<byte>, pos: nat, key: Str, value: Value, rest: Items, dictionary: bool)
    requires ProperItems(Item(key, value, rest), dictionary)
    requires At(data, pos, EncodeItems(Item(key, value, rest), dictionary))
    ensures var k := KeyText(key, dictionary);
            && At(data, pos + |k|, Encode(value))
            && At(data, pos + |k| + |Encode(value)|, EncodeItems(rest, dictionary))
            && pos < |data| && data[pos] != END
            && (dictionary ==> ReadAt(data, pos) == Text(key.body, pos + |k|))
  {
    var k := KeyText(key, dictionary);
    AtParts(data, pos, k, Encode(value) + EncodeItems(rest, dictionary));
    AtParts(data, pos + |k|, Encode(value), EncodeItems(rest, dictionary));
    FirstByte(value);
    AtByte(data, pos + |k|, Encode(value), 0);
    if dictionary {
      AtByte(data, pos, k, 0);
      ReadsStr(data, pos, key);
    }
  }

  /** Whatever text the reader takes is a printed string. */
  lemma ReadIsStr(data: seq<byte>, pos: nat) returns (s: Str)
    requires pos <= |data| && ReadAt(data, pos).Text?
    ensures ProperStr(s) && s.body == ReadAt(data, pos).body
    ensures At(data, pos, EncodeStr(s)) && ReadAt(data, pos).next == pos + |EncodeStr(s)|
  {
    var end := DigitsEnd(data, pos);
    s := Str(data[pos..end], ReadAt(data, pos).body);
    AtSlice(data, pos, s.length);
    AtSlice(data, end + 1, s.body);
    AtParts(data, pos, s.length + [COLON], s.body);
    AtParts(data, pos, s.length, [COLON]);
  }

  /** Whatever the reader skips is a printed value that fits below the depth limit. */
  lemma {:induction false} SkipIsValue(data: seq<byte>, pos: nat, depth: nat) returns (v: Value)
    requires pos <= |data| && SkipAt(data, pos, depth).Next?
    ensures Proper(v) && depth + Nesting(v) <= MAX_DEPTH
    ensures At(data, pos, Encode(v)) && SkipAt(data, pos, depth) == Next(pos + |Encode(v)|)
    decreases |data| - pos, 0, 0
  {
    if data[pos] == DICT || data[pos] == LIST {
      var items := SkipIsItems(data, pos + 1, depth, data[pos] == DICT);
      v := Container(data[pos] == DICT, items);
      AtParts(data, pos, [data[pos]], EncodeItems(items, data[pos] == DICT));
    } else if data[pos] == INT {
      v := IntegerIsValue(data, pos);
    } else {
      var s := ReadIsStr(data, pos);
      v := Bytes(s);
    }
  }

  lemma IntegerIsValue(data: seq<byte>, pos: nat) returns (v: Value)
    requires pos < |data| && data[pos] == INT && SkipAt(data, pos, 0).Next?
    ensures v.Integer? && Proper(v)
    ensures At(data, pos, Encode(v)) && SkipAt(data, pos, 0) == Next(pos + |Encode(v)|)
  {
    var negative := pos + 1 < |data| && data[pos + 1] == MINUS;
    var sign := if negative then [MINUS] else [];
    var head := [INT] + sign;
    var start := pos + |head|;
    var end := DigitsEnd(data, start);
    var digits := data[start..end];
    v := Integer(negative, digits);
    AtSlice(data, start, digits);
    AtParts(data, pos, head + digits, [END]);
    AtParts(data, pos, head, digits);
    AtParts(data, pos, [INT], sign);
  }

  lemma {:induction false} SkipIsItems(data: seq<byte>, pos: nat, depth: nat, dictionary: bool) returns (items: Items)
    requires pos <= |data| && depth <= MAX_DEPTH && SkipItems(data, pos, depth, dictionary).Next?
    ensures ProperItems(items, dictionary) && depth + ItemsNesting(items) <= MAX_DEPTH
    ensures At(data, pos, EncodeItems(items, dictionary))
    ensures SkipItems(data, pos, depth, dictionary) == Next(pos + |EncodeItems(items, dictionary)|)
    decreases |data| - pos, 1
  {
    if data[pos] == END {
      items := Nil;
    } else {
      var key, value := FirstItemIsValue(data, pos, depth, dictionary);
      var next := pos + |KeyText(key, dictionary)| + |Encode(value)|;
      var rest := SkipIsItems(data, next, depth, dictionary);
      items := Item(key, value, rest);
      ItemsJoin(data, pos, next, key, value, rest, dictionary);
    }
  }

  lemma {:induction false} FirstItemIsValue(data: seq<byte>, pos: nat, depth: nat, dictionary: bool)
    returns (key: Str, value: Value)
    requires pos < |data| && data[pos] != END && SkipItems(data, pos, depth, dictionary).Next?
    ensures (dictionary ==> ProperStr(key)) && Proper(value) && depth + 1 + Nesting(value) <= MAX_DEPTH
    ensures At(data, pos, KeyText(key, dictionary))
    ensures At(data, pos + |KeyText(key, dictionary)|, Encode(value))
    ensures var next := pos + |KeyText(key, dictionary)| + |Encode(value)|;
            next > pos && SkipItems(data, pos, depth, dictionary) == SkipItems(data, next, depth, dictionary)
    decreases |data| - pos, 0, 1
  {
    key := Str([], []);
    var middle := pos;
    if dictionary {
      key := ReadIsStr(data, pos);
      middle := ReadAt(data, pos).next;
    }
    ItemsStep(data, pos, depth, dictionary, middle, SkipAt(data, middle, depth + 1));
    value := SkipIsValue(data, middle, depth + 1);
  }

  lemma ItemsJoin(data: seq<byte>, pos: nat, next: nat, key: Str, value: Value, rest: Items, dictionary: bool)
    requires At(data, pos, KeyText(key, dictionary))
    requires At(data, pos + |KeyText(key, dictionary)|, Encode(value))
    requires next == pos + |KeyText(key, dictionary)| + |Encode(value)|
    requires At(data, next, EncodeItems(rest, dictionary))
    ensures At(data, pos, EncodeItems(Item(key, value, rest), dictionary))
    ensures pos + |EncodeItems(Item(key, value, rest), dictionary)| == next + |EncodeItems(rest, dictionary)|
  {
    var k := KeyText(key, dictionary);
    AtParts(data, pos + |k|, Encode(value), EncodeItems(rest, dictionary));
    AtParts(data, pos, k, Encode(value) + EncodeItems(rest, dictionary));
  }

  /** A successful skip depends only on the bytes it consumed, and less depth never hurts. */
  lemma SkipIsLocal(data: seq<byte>, pos: nat, depth: nat, data': seq<byte>, pos': nat, depth': nat)
    requires pos <= |data| && SkipAt(data, pos, depth).Next? && depth' <= depth
    requires At(data', pos', data[pos..SkipAt(data, pos, depth).pos])
    ensures pos' <= |data'|
    ensures SkipAt(data', pos', depth') == Next(pos' + (SkipAt(data, pos, depth).pos - pos))
  {
    var v := SkipIsValue(data, pos, depth);
    var text := data[pos..SkipAt(data, pos, depth).pos];
    AtSlice(data, pos, Encode(v));
    SkipUndoesEncode(data', pos', v, depth');
  }

  /** The reader accepts exactly the printed values that fit. */
  lemma SkipAcceptsExactlyTheGrammar(data: seq<byte>, pos: nat, depth: nat, next: nat)
    requires pos <= |data|
    ensures SkipAt(data, pos, depth) == Next(next) <==>
            exists v :: Proper(v) && depth + Nesting(v) <= MAX_DEPTH && At(data, pos, Encode(v)) && next == pos + |Encode(v)|
  {
    if SkipAt(data, pos, depth) == Next(next) {
      var v := SkipIsValue(data, pos, depth);
      assert Proper(v);
    }
    forall v | Proper(v) && depth + Nesting(v) <= MAX_DEPTH && At(data, pos, Encode(v))
      ensures SkipAt(data, pos, depth) == Next(pos + |Encode(v)|)
    {
      SkipUndoesEncode(data, pos, v, depth);
    }
  }

  /** Lists within lists: `n + 1` of them. */
  ghost function Nest(n: nat): (v: Value)
    ensures Proper(v) && Nesting(v) == n
  {
    assert ItemsNesting(Nil) == 0;
    if n == 0 then Container(false, Nil)
    else
      var inner := Nest(n - 1);
      assert ItemsNesting(Item(Str([], []), inner, Nil)) == 1 + Nesting(inner);
      Container(false, Item(Str([], []), inner, Nil))
  }

  /** One hundred levels below the outermost are read, one more is refused. */
  lemma HundredLevels(n: nat)
    ensures SkipAt(Encode(Nest(n)), 0, 0).Next? <==> n <= 100
  {
    AtMeans(Encode(Nest(n)), 0, Encode(Nest(n)));
    SkipUndoesEncode(Encode(Nest(n)), 0, Nest(n), 0);
  }

  /** Integers need not be canonical: "i-00e" is skipped. */
  lemma LenientInteger()
    ensures SkipAt([INT, MINUS, 48, 48, END], 0, 0) == Next(5)
  {
    var v := Integer(true, [48, 48]);
    assert Encode(v) == [INT, MINUS, 48, 48, END];
    AtMeans(Encode(v), 0, Encode(v));
    SkipUndoesEncode(Encode(v), 0, v, 0);
  }

  lemma OneItem(key: Str, value: Value, rest: Items)
    requires ProperStr(key) && Proper(value) && ProperItems(rest, true)
    requires Nesting(value) < MAX_DEPTH && ItemsNesting(rest) <= MAX_DEPTH
    ensures ProperItems(Item(key, value, rest), true) && ItemsNesting(Item(key, value, rest)) <= MAX_DEPTH
  {
  }

  /** Keys need be neither sorted nor distinct. */
  lemma LenientKeys(first: Str, second: Str, v: Value, w: Value)
    requires ProperStr(first) && ProperStr(second) && Proper(v) && Proper(w) && Nesting(v) < MAX_DEPTH && Nesting(w) < MAX_DEPTH
    ensures var text := Encode(Container(true, Item(first, v, Item(second, w, Nil)))); SkipAt(text, 0, 0) == Next(|text|)
  {
    var rest := Item(second, w, Nil);
    var d := Container(true, Item(first, v, rest));
    OneItem(second, w, Nil);
    OneItem(first, v, rest);
    AtMeans(Encode(d), 0, Encode(d));
    SkipUndoesEncode(Encode(d), 0, d, 0);
  }
}
