/** Provider file lists: what the client accepts, and when two lists are the same import. */
module Catalog {
  import opened Text

  datatype File = File(id: int, name: string, size: int)

  /** The slash-separated parts of a name; always at least one. */
  function Parts(name: string): (parts: seq<string>)
    ensures |parts| > 0
    ensures forall i :: 0 <= i < |parts| ==> '/' !in parts[i]
  {
    if name == "" then [""]
    else
      var rest := Parts(name[1..]);
      if name[0] == '/' then [""] + rest else [[name[0]] + rest[0]] + rest[1..]
  }

  /** path.Clean(name) == name, for a relative nonempty name. */
  predicate Cleaned(name: string) {
    var parts := Parts(name);
    || name == "."
    || ((forall i :: 0 <= i < |parts| ==> parts[i] != "" && parts[i] != ".")
        && (forall i, j :: 0 <= i < |parts| && j == i + 1 < |parts| && parts[j] == ".." ==> parts[i] == ".."))
  }

  /** One file passes the client's per-file test. */
  predicate Acceptable(f: File) {
    && f.id >= 0 && f.size >= 0 && f.name != ""
    && !HasPrefix(f.name, "/") && '\\' !in f.name && '\0' !in f.name
    && Cleaned(f.name) && f.name != ".." && !HasPrefix(f.name, "../")
  }

  ghost predicate DistinctNames(files: seq<File>) {
    forall i, j :: 0 <= i < j < |files| ==> files[i].name != files[j].name
  }

  ghost predicate Valid(files: seq<File>) {
    (forall i :: 0 <= i < |files| ==> Acceptable(files[i])) && DistinctNames(files)
  }

  /** Name to size, as the import paths show a file list; a later duplicate wins. */
  ghost function Sizes(files: seq<File>): map<string, int> {
    if files == [] then map[]
    else
      var last := files[|files| - 1];
      Sizes(files[..|files| - 1])[last.name := last.size]
  }

  method ValidateUsenetFiles(files: seq<File>) returns (ok: bool)
    ensures ok <==> Valid(files)
  {
    var seen: set<string> := {};
    for i := 0 to |files|
      invariant seen == set k | 0 <= k < i :: files[k].name
      invariant Valid(files[..i])
    {
      var f := files[i];
      if f.id < 0 || f.size < 0 || f.name == "" || HasPrefix(f.name, "/") || '\\' in f.name || '\0' in f.name
        || !Cleaned(f.name) || f.name == ".." || HasPrefix(f.name, "../") || f.name in seen
      {
        assert !Acceptable(f) || exists k :: 0 <= k < i && files[k].name == files[i].name;
        return false;
      }
      seen := seen + {f.name};
      assert files[..i + 1] == files[..i] + [f];
    }
    assert files[..|files|] == files;
    return true;
  }

  /** The test a poll applies before it may replace a published file list. */
  ghost predicate Same(before: seq<File>, after: seq<File>) {
    && |before| == |after|
    && forall f :: f in after ==> f.name in Sizes(before) && Sizes(before)[f.name] == f.size
  }

  method SameCatalog(before: seq<File>, after: seq<File>) returns (same: bool)
    ensures same <==> Same(before, after)
  {
    if |before| != |after| {
      return false;
    }
    var names: map<string, int> := map[];
    for i := 0 to |before|
      invariant names == Sizes(before[..i])
    {
      assert before[..i + 1][..i] == before[..i];
      names := names[before[i].name := before[i].size];
    }
    assert before[..|before|] == before;
    for i := 0 to |after|
      invariant forall k :: 0 <= k < i ==> after[k].name in names && names[after[k].name] == after[k].size
    {
      var f := after[i];
      if f.name !in names || names[f.name] != f.size {
        assert f in after;
        return false;
      }
    }
    return true;
  }

  lemma {:induction false} SizesNames(files: seq<File>, name: string)
    ensures name in Sizes(files) <==> exists i :: 0 <= i < |files| && files[i].name == name
  {
    if files != [] {
      SizesNames(files[..|files| - 1], name);
      assert files[|files| - 1].name == name ==> name in Sizes(files);
    }
  }

  lemma {:induction false} SizesOfDistinct(files: seq<File>)
    requires DistinctNames(files)
    ensures |Sizes(files)| == |files|
    ensures forall i :: 0 <= i < |files| ==> files[i].name in Sizes(files) && Sizes(files)[files[i].name] == files[i].size
  {
    if files != [] {
      var init, last := files[..|files| - 1], files[|files| - 1];
      SizesOfDistinct(init);
      SizesNames(init, last.name);
      assert Sizes(files) == Sizes(init)[last.name := last.size];
      assert Sizes(files).Keys == Sizes(init).Keys + {last.name};
      forall i | 0 <= i < |files|
        ensures files[i].name in Sizes(files) && Sizes(files)[files[i].name] == files[i].size
      {
        if i < |init| {
          assert init[i] == files[i];
        }
      }
    }
  }

  lemma LastSizeWins(files: seq<File>, f: File)
    ensures Sizes(files + [f]) == Sizes(files)[f.name := f.size]
  {
    assert (files + [f])[..|files|] == files;
  }

  lemma SubmapOfEqualSize(small: map<string, int>, big: map<string, int>)
    requires forall n :: n in small ==> n in big && big[n] == small[n]
    requires |small| == |big|
    ensures small == big
  {
    assert small.Keys <= big.Keys;
    assert |big.Keys - small.Keys| == |big.Keys| - |small.Keys|;
    assert |small.Keys| == |small| && |big.Keys| == |big|;
    assert big.Keys - small.Keys == {};
    assert small.Keys == big.Keys;
  }

  /** On lists the client accepts, the test is equality of the name-to-size maps. */
  lemma SameIsMapEquality(before: seq<File>, after: seq<File>)
    requires Valid(before) && Valid(after)
    ensures Same(before, after) <==> Sizes(before) == Sizes(after)
  {
    SizesOfDistinct(before);
    SizesOfDistinct(after);
    if Same(before, after) {
      forall n | n in Sizes(after) ensures n in Sizes(before) && Sizes(before)[n] == Sizes(after)[n] {
        SizesNames(after, n);
        var i :| 0 <= i < |after| && after[i].name == n;
        assert after[i] in after;
      }
      SubmapOfEqualSize(Sizes(after), Sizes(before));
    }
  }

  /** Hence an equivalence: chains of accepted replacements never drift. */
  lemma SameIsEquivalence(a: seq<File>, b: seq<File>, c: seq<File>)
    requires Valid(a) && Valid(b) && Valid(c)
    ensures Same(a, a)
    ensures Same(a, b) ==> Same(b, a)
    ensures Same(a, b) && Same(b, c) ==> Same(a, c)
  {
    SameIsMapEquality(a, a);
    SameIsMapEquality(a, b);
    SameIsMapEquality(b, a);
    SameIsMapEquality(b, c);
    SameIsMapEquality(a, c);
  }

  /** Without distinct names the test is not even symmetric. */
  lemma SameNeedsDistinctNames()
    ensures var twice, both := [File(0, "a", 1), File(1, "a", 1)], [File(0, "a", 1), File(1, "b", 1)];
            Same(both, twice) && !Same(twice, both)
  {
    var twice, both := [File(0, "a", 1), File(1, "a", 1)], [File(0, "a", 1), File(1, "b", 1)];
    assert both[..1] == [both[0]] && twice[..1] == [twice[0]];
    assert Sizes([both[0]]) == map["a" := 1] by { assert [both[0]][..0] == []; }
    assert Sizes([twice[0]]) == map["a" := 1] by { assert [twice[0]][..0] == []; }
    assert Sizes(both) == map["a" := 1, "b" := 1];
    assert Sizes(twice) == map["a" := 1];
    assert both[1] in both;
  }

  predicate ProperPart(part: string) {
    part !in {"", ".", ".."}
  }

  /** An accepted name is a downward path, none of whose parts is empty, "." or "..", except for "." itself. */
  lemma AcceptedNamesStayBelowTheRoot(f: File)
    requires Acceptable(f)
    ensures f.name != "." <==> forall i :: 0 <= i < |Parts(f.name)| ==> ProperPart(Parts(f.name)[i])
  {
    var parts := Parts(f.name);
    if f.name != "." {
      if parts[0] == ".." {
        FirstPart(f.name);
      }
      NoClimb(parts, |parts|);
    } else {
      DotIsAccepted();
      assert !ProperPart(parts[0]);
    }
  }

  /** And "." is accepted. */
  lemma DotIsAccepted()
    ensures Acceptable(File(0, ".", 0)) && Parts(".") == ["."]
  {
    var rest := Parts("");
    assert "."[1..] == "" && rest == [""];
    assert ['.'] + rest[0] == ".";
    assert [['.'] + rest[0]] + rest[1..] == ["."];
    assert !HasPrefix(".", "/") && !HasPrefix(".", "../");
  }

  /** The parts with slashes between them. */
  ghost function Slashed(parts: seq<string>): string
    requires parts != []
  {
    if |parts| == 1 then parts[0] else parts[0] + "/" + Slashed(parts[1..])
  }

  /** The parts of a name are what its slashes separate. */
  lemma {:induction false} PartsMean(name: string)
    ensures Slashed(Parts(name)) == name
  {
    if name != "" {
      PartsMean(name[1..]);
      var rest := Parts(name[1..]);
      if name[0] == '/' {
        assert ([""] + rest)[1..] == rest;
        assert name == "" + "/" + name[1..];
      } else {
        var parts := [[name[0]] + rest[0]] + rest[1..];
        assert parts[1..] == rest[1..];
        assert name == [name[0]] + name[1..];
        if |rest| > 1 {
          assert Slashed(rest) == rest[0] + "/" + Slashed(rest[1..]);
          assert Slashed(parts) == [name[0]] + rest[0] + "/" + Slashed(rest[1..]);
        }
      }
    }
  }

  /** Exactly the downward paths, and ".", are accepted as names: no backslash, no NUL, and every part
      neither empty nor "." nor "..". */
  lemma AcceptableMeans(f: File)
    ensures Acceptable(f) <==>
            && f.id >= 0 && f.size >= 0 && '\\' !in f.name && '\0' !in f.name
            && (f.name == "." || forall i :: 0 <= i < |Parts(f.name)| ==> ProperPart(Parts(f.name)[i]))
  {
    var parts := Parts(f.name);
    if Acceptable(f) {
      AcceptedNamesStayBelowTheRoot(f);
    } else if f.name == "." {
      DotIsAccepted();
    } else if forall i :: 0 <= i < |parts| ==> ProperPart(parts[i]) {
      ProperNames(f.name);
    }
  }

  lemma ProperNames(name: string)
    requires forall i :: 0 <= i < |Parts(name)| ==> ProperPart(Parts(name)[i])
    ensures name != "" && name != ".." && !HasPrefix(name, "/") && !HasPrefix(name, "../")
  {
    assert ProperPart(Parts(name)[0]);
    if name == ".." || HasPrefix(name, "../") {
      DotDotFirst(name);
    }
  }

  lemma DotDotFirst(name: string)
    requires name == ".." || HasPrefix(name, "../")
    ensures Parts(name)[0] == ".."
  {
    var rest := name[1..];
    var tail := rest[1..];
    assert name[0] == '.' && rest[0] == '.' && (tail == "" || tail[0] == '/');
    assert Parts(tail)[0] == "";
    assert Parts(rest)[0] == ['.'] + Parts(tail)[0] == ".";
    assert Parts(name)[0] == ['.'] + Parts(rest)[0] == "..";
  }

  lemma FirstPart(name: string)
    requires Parts(name)[0] == ".."
    ensures name == ".." || HasPrefix(name, "../")
  {
    assert name != "";
    var rest := name[1..];
    assert name[0] == '.' by { assert ([name[0]] + Parts(rest)[0])[0] == name[0]; }
    assert Parts(rest)[0] == "." by { assert ("." + Parts(rest)[0])[1..] == Parts(rest)[0]; }
    assert rest != "";
    var tail := rest[1..];
    assert rest[0] == '.' by { assert ([rest[0]] + Parts(tail)[0])[0] == rest[0]; }
    assert Parts(tail)[0] == "" by { assert ("." + Parts(tail)[0])[1..] == Parts(tail)[0]; }
    assert tail == "" || tail[0] == '/';
    assert name == ".." + tail;
  }

  lemma {:induction false} NoClimb(parts: seq<string>, n: nat)
    requires n <= |parts|
    requires |parts| > 0 && parts[0] != ".."
    requires forall i, j :: 0 <= i < |parts| && j == i + 1 < |parts| && parts[j] == ".." ==> parts[i] == ".."
    ensures forall i :: 0 <= i < n ==> parts[i] != ".."
  {
    if n > 1 {
      NoClimb(parts, n - 1);
      assert parts[n - 2] != "..";
    }
  }

  /** There is something to read. */
  ghost predicate HasPayload(files: seq<File>) {
    exists i :: 0 <= i < |files| && files[i].size != 0 && files[i].name != ""
  }
}
