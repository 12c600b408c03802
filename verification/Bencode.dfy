/** Bencoded text: where a cursor that starts at a position stops. Each function follows one reader method. */
module Bencode {

  newtype byte = x: int | 0 <= x < 256

  const DICT: byte := 100
  const LIST: byte := 108
  const INT: byte := 105
  const END: byte := 101
  const COLON: byte := 58
  const MINUS: byte := 45

  const MAX_DEPTH := 100

  predicate Digit(b: byte) {
    48 <= b <= 57
  }

  ghost predicate Digits(s: seq<byte>) {
    forall i :: 0 <= i < |s| ==> Digit(s[i])
  }

  /** strconv.Atoi on a run of digits. An overflow and a size beyond the buffer both end in the same error. */
  function Number(s: seq<byte>): nat
    requires forall i :: 0 <= i < |s| ==> Digit(s[i])
  {
    if s == [] then 0
    else
      assert Digit(s[|s| - 1]);
      10 * Number(s[..|s| - 1]) + (s[|s| - 1] as int - 48)
  }

  function DigitsEnd(data: seq<byte>, pos: nat): (end: nat)
    requires pos <= |data|
    ensures pos <= end <= |data|
    ensures forall i :: pos <= i < end ==> Digit(data[i])
    ensures end < |data| ==> !Digit(data[end])
    decreases |data| - pos
  {
    if pos < |data| && Digit(data[pos]) then DigitsEnd(data, pos + 1) else pos
  }

  datatype Read = BadText | Text(body: seq<byte>, next: nat)

  function ReadAt(data: seq<byte>, pos: nat): (r: Read)
    requires pos <= |data|
    ensures r.Text? ==> pos + 1 < r.next <= |data| && |r.body| <= r.next - pos
  {
    var end := DigitsEnd(data, pos);
    if end == pos || end >= |data| || data[end] != COLON then BadText
    else
      var size := Number(data[pos..end]);
      if size > |data| - (end + 1) then BadText
      else Text(data[end + 1..end + 1 + size], end + 1 + size)
  }

  datatype Skip = Bad | Next(pos: nat)

  function SkipAt(data: seq<byte>, pos: nat, depth: nat): (r: Skip)
    requires pos <= |data|
    ensures r.Next? ==> pos < r.pos <= |data|
    decreases |data| - pos, 0
  {
    if depth > MAX_DEPTH || pos >= |data| then Bad
    else if data[pos] == DICT || data[pos] == LIST then SkipItems(data, pos + 1, depth, data[pos] == DICT)
    else if data[pos] == INT then
      var digits := if pos + 1 < |data| && data[pos + 1] == MINUS then pos + 2 else pos + 1;
      var end := DigitsEnd(data, digits);
      if end == digits || end >= |data| || data[end] != END then Bad else Next(end + 1)
    else
      match ReadAt(data, pos)
      case BadText => Bad
      case Text(_, next) => Next(next)
  }

  /** The body of a list or dictionary, up to and including its end mark. */
  function SkipItems(data: seq<byte>, pos: nat, depth: nat, dictionary: bool): (r: Skip)
    requires pos <= |data|
    ensures r.Next? ==> pos < r.pos <= |data|
    decreases |data| - pos, 1
  {
    if pos >= |data| then Bad
    else if data[pos] == END then Next(pos + 1)
    else
      var key := if dictionary then ReadAt(data, pos) else Text([], pos);
      if key.BadText? then Bad
      else
        var value := SkipAt(data, key.next, depth + 1);
        if value.Bad? then Bad else SkipItems(data, value.pos, depth, dictionary)
  }

  /** A buffer and a cursor that moves through it. */
  class Reader {
    const data: seq<byte>
    var pos: nat

    ghost predicate Valid()
      reads this
    {
      pos <= |data|
    }

    constructor (data: seq<byte>, pos: nat)
      requires pos <= |data|
      ensures Valid() && this.data == data && this.pos == pos
    {
      this.data := data;
      this.pos := pos;
    }

    method ReadString() returns (r: Read)
      requires Valid()
      modifies this
      ensures Valid() && old(pos) <= pos
      ensures r == ReadAt(data, old(pos))
      ensures r.Text? ==> pos == r.next
    {
      var start := pos;
      while pos < |data| && 48 <= data[pos] <= 57
        invariant start <= pos <= |data|
        invariant DigitsEnd(data, start) == DigitsEnd(data, pos)
      {
        pos := pos + 1;
      }
      if pos == start || pos >= |data| || data[pos] != COLON {
        return BadText;
      }
      var size := Number(data[start..pos]);
      pos := pos + 1;
      if size > |data| - pos {
        return BadText;
      }
      var value := data[pos..pos + size];
      pos := pos + size;
      return Text(value, pos);
    }

    method SkipInteger() returns (ok: bool)
      requires Valid() && pos < |data| && data[pos] == INT
      modifies this
      ensures Valid() && old(pos) <= pos
      ensures forall depth: nat :: depth <= MAX_DEPTH ==> SkipAt(data, old(pos), depth) == if ok then Next(pos) else Bad
    {
      pos := pos + 1;
      var start := pos;
      if pos < |data| && data[pos] == MINUS {
        pos := pos + 1;
      }
      var digits := pos;
      while pos < |data| && 48 <= data[pos] <= 57
        invariant digits <= pos <= |data|
        invariant DigitsEnd(data, digits) == DigitsEnd(data, pos)
      {
        pos := pos + 1;
      }
      if pos == digits || pos >= |data| || data[pos] != END || pos == start {
        return false;
      }
      pos := pos + 1;
      return true;
    }

    method Skip(depth: nat) returns (ok: bool)
      requires Valid()
      modifies this
      ensures Valid() && old(pos) <= pos
      ensures SkipAt(data, old(pos), depth) == if ok then Next(pos) else Bad
      decreases |data| - pos
    {
      if depth > MAX_DEPTH || pos >= |data| {
        return false;
      }
      ghost var from := pos;
      if data[pos] == DICT || data[pos] == LIST {
        var dictionary := data[pos] == DICT;
        pos := pos + 1;
        while pos < |data| && data[pos] != END
          invariant Valid() && from < pos
          invariant SkipAt(data, from, depth) == SkipItems(data, pos, depth, dictionary)
          decreases |data| - pos
        {
          if dictionary {
            var key := ReadString();
            if key.BadText? {
              return false;
            }
          }
          var inner := Skip(depth + 1);
          if !inner {
            return false;
          }
        }
        if pos >= |data| {
          return false;
        }
        pos := pos + 1;
        return true;
      } else if data[pos] == INT {
        ok := SkipInteger();
        return;
      } else {
        var text := ReadString();
        return text.Text?;
      }
    }
  }
}
