/** The few text operations the gateway applies to states, hashes and file names. */
module Text {

  /** strings.ToLower on ASCII. */
  function Lower(s: string): (r: string)
    ensures |r| == |s|
    ensures forall i :: 0 <= i < |s| ==> r[i] == LowerChar(s[i])
  {
    seq(|s|, i requires 0 <= i < |s| => LowerChar(s[i]))
  }

  function LowerChar(c: char): (r: char)
    ensures !('A' <= r <= 'Z')
  {
    if 'A' <= c <= 'Z' then c - 'A' + 'a' else c
  }

  predicate Blank(c: char) {
    c in {' ', '\t', '\n', '\U{0B}', '\U{0C}', '\r'}
  }

  /** strings.TrimSpace on ASCII: drops blanks at both ends. */
  function Trim(s: string): (r: string)
    ensures Trimmed(r)
    ensures |r| <= |s|
    ensures forall c :: c in r ==> c in s
    decreases |s|
  {
    if s == "" then s
    else if Blank(s[0]) then Trim(s[1..])
    else if Blank(s[|s| - 1]) then Trim(s[..|s| - 1])
    else s
  }

  predicate Trimmed(s: string) {
    s == "" || (!Blank(s[0]) && !Blank(s[|s| - 1]))
  }

  predicate HexDigit(c: char) {
    '0' <= c <= '9' || 'a' <= c <= 'f' || 'A' <= c <= 'F'
  }

  /** A lower-case v1 infohash, the only form the gateway stores or compares. */
  predicate Hash(s: string) {
    |s| == 40 && forall c :: c in s ==> HexDigit(c) && !('A' <= c <= 'Z')
  }

  type HashText = s: string | Hash(s) witness "0000000000000000000000000000000000000000"

  predicate HasPrefix(s: string, prefix: string) {
    |prefix| <= |s| && s[..|prefix|] == prefix
  }

  lemma LowerIsStable(s: string)
    requires forall c :: c in s ==> !('A' <= c <= 'Z')
    ensures Lower(s) == s
  {
    forall i | 0 <= i < |s| ensures Lower(s)[i] == s[i] {
      assert s[i] in s;
    }
  }

  lemma TrimIsStable(s: string)
    requires Trimmed(s)
    ensures Trim(s) == s
  {
  }

  lemma HashIsNormal(s: string)
    requires Hash(s)
    ensures Lower(Trim(s)) == s
  {
    assert s[0] in s && s[39] in s;
    TrimIsStable(s);
    LowerIsStable(s);
  }

  // ---- What these operations are ----

  const UPPER := "ABCDEFGHIJKLMNOPQRSTUVWXYZ"
  const LOWER := "abcdefghijklmnopqrstuvwxyz"

  /** Lowering replaces each capital by its small letter and nothing else. */
  lemma LowerMeans(s: string, i: nat)
    requires i < |s|
    ensures forall k :: 0 <= k < 26 && s[i] == UPPER[k] ==> Lower(s)[i] == LOWER[k]
    ensures s[i] !in UPPER ==> Lower(s)[i] == s[i]
  {
    if 'A' <= s[i] <= 'Z' {
      assert UPPER[s[i] as int - 65] == s[i];
    }
  }

  lemma BlankMeans(c: char)
    ensures Blank(c) <==> c in " \t\n\U{0B}\U{0C}\r"
  {
    var blanks := " \t\n\U{0B}\U{0C}\r";
    assert blanks[0] == ' ' && blanks[1] == '\t' && blanks[2] == '\n';
    assert blanks[3] == '\U{0B}' && blanks[4] == '\U{0C}' && blanks[5] == '\r';
  }

  ghost predicate Blanks(s: string) {
    forall i :: 0 <= i < |s| ==> Blank(s[i])
  }

  /** Trimming drops blanks at both ends and nothing else. */
  lemma {:induction false} TrimMeans(s: string) returns (before: string, after: string)
    ensures s == before + Trim(s) + after && Blanks(before) && Blanks(after)
    ensures Trim(s) == "" || (!Blank(Trim(s)[0]) && !Blank(Trim(s)[|Trim(s)| - 1]))
    decreases |s|
  {
    before, after := "", "";
    if s == "" {
    } else if Blank(s[0]) {
      before, after := TrimMeans(s[1..]);
      BlankInFront(s, before, Trim(s[1..]), after);
      before := [s[0]] + before;
    } else if Blank(s[|s| - 1]) {
      before, after := TrimMeans(s[..|s| - 1]);
      BlankBehind(s, before, Trim(s[..|s| - 1]), after);
      after := after + [s[|s| - 1]];
    }
  }

  lemma BlankInFront(s: string, before: string, middle: string, after: string)
    requires s != "" && Blank(s[0]) && s[1..] == before + middle + after && Blanks(before)
    ensures s == [s[0]] + before + middle + after && Blanks([s[0]] + before)
  {
    assert s == [s[0]] + s[1..];
  }

  lemma BlankBehind(s: string, before: string, middle: string, after: string)
    requires s != "" && Blank(s[|s| - 1]) && s[..|s| - 1] == before + middle + after && Blanks(after)
    ensures s == before + middle + (after + [s[|s| - 1]]) && Blanks(after + [s[|s| - 1]])
  {
    assert s == s[..|s| - 1] + [s[|s| - 1]];
  }

  /** And all of them: blanks around a text do not count. */
  lemma {:induction false} TrimOfPadded(before: string, text: string, after: string)
    requires Blanks(before) && Blanks(after) && text != "" && Trimmed(text)
    ensures Trim(before + text + after) == text
    decreases |before| + |after|
  {
    var s := before + text + after;
    if before != "" {
      assert s[1..] == before[1..] + text + after;
      TrimOfPadded(before[1..], text, after);
    } else if after != "" {
      assert s[..|s| - 1] == before + text + after[..|after| - 1] && s[0] == text[0] && s[|s| - 1] == after[|after| - 1];
      TrimOfPadded(before, text, after[..|after| - 1]);
    } else {
      assert s == text;
    }
  }

  /** A stored infohash is forty small hexadecimal digits. */
  lemma HashMeans(s: string)
    ensures Hash(s) <==> |s| == 40 && forall i :: 0 <= i < |s| ==> s[i] in "0123456789abcdef"
  {
    if Hash(s) {
      forall i | 0 <= i < |s| ensures s[i] in "0123456789abcdef" {
        assert s[i] in s;
        SmallHexDigit(s[i]);
      }
    }
    if |s| == 40 && forall i :: 0 <= i < |s| ==> s[i] in "0123456789abcdef" {
      forall c | c in s ensures HexDigit(c) && !('A' <= c <= 'Z') {
        var i :| 0 <= i < |s| && s[i] == c;
      }
    }
  }

  lemma SmallHexDigit(c: char)
    requires HexDigit(c) && !('A' <= c <= 'Z')
    ensures c in "0123456789abcdef"
  {
    if '0' <= c <= '9' {
      assert "0123456789abcdef"[c as int - 48] == c;
    } else {
      assert "0123456789abcdef"[c as int - 87] == c;
    }
  }
}
