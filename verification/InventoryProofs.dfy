/** What a listing scan means: the join over exactly the listed entries, in any order and paging. */
module InventoryProofs {
  import opened Options
  import opened Text
  import opened Inventory

  ghost predicate Matches(e: Entry, hash: string) {
    Normalized(e.hash) == hash
  }

  ghost predicate Listed(entries: seq<Entry>, hash: string, c: Availability) {
    exists e :: e in entries && Matches(e, hash) && Class(e) == c
  }

  /** The join of the entries' classes in Unavailable < Unknown < Available. */
  ghost function Join(entries: seq<Entry>, hash: string): Availability {
    if Listed(entries, hash, Available) then Available
    else if Listed(entries, hash, Unknown) then Unknown
    else Unavailable
  }

  ghost predicate ListsId(entries: seq<Entry>, hash: string, id: int, c: Availability) {
    exists e :: e in entries && Matches(e, hash) && e.id == id && Class(e) == c
  }

  /** The last entry of the hash with this class has the ID. */
  ghost predicate LastId(entries: seq<Entry>, hash: string, id: int, c: Availability) {
    exists i :: 0 <= i < |entries| && LastAt(entries, hash, c, i) && entries[i].id == id
  }

  ghost predicate LastAt(entries: seq<Entry>, hash: string, c: Availability, i: nat)
    requires i < |entries|
  {
    && Matches(entries[i], hash) && Class(entries[i]) == c
    && forall k :: i < k < |entries| && Matches(entries[k], hash) ==> Class(entries[k]) != c
  }

  /** Why an observation says what it says. */
  ghost function ReasonOf(o: Observation): string {
    if o.torrentId == 0 then "not_in_account"
    else
      match o.status
      case Available => "download_present"
      case Unknown => "incomplete_or_active_download"
      case Unavailable => "download_not_present"
  }

  /** The observation is exact: the join, named by the last entry that attains it, or 0 if there is none. */
  ghost predicate Exact(entries: seq<Entry>, hash: string, o: Observation) {
    && o.status == Join(entries, hash)
    && (o.torrentId == 0 <==> forall e :: e in entries ==> !Matches(e, hash))
    && (o.torrentId != 0 ==>
          o.torrentId > 0 && ListsId(entries, hash, o.torrentId, o.status) && LastId(entries, hash, o.torrentId, o.status))
    && o.reason == ReasonOf(o)
  }

  ghost predicate AllExact(entries: seq<Entry>, states: States) {
    forall h :: h in states ==> Exact(entries, h, states[h])
  }

  /** Present is available; not present is unavailable, unless the download is under way in one of the six
      states that say so; and nothing is known of an entry that does not say whether it is present. */
  lemma ClassMeans(e: Entry)
    ensures Class(e) == Available <==> e.present == Some(true)
    ensures Class(e) == Unknown <==>
            e.present == None ||
            (e.present == Some(false) && Lower(e.state) in
               {"downloading", "metadl", "checkingresumedata", "queueddl", "stalleddl", "allocating"})
  {
  }

  lemma ListedGrows(entries: seq<Entry>, e: Entry, hash: string, c: Availability)
    ensures Listed(entries + [e], hash, c) <==> Listed(entries, hash, c) || (Matches(e, hash) && Class(e) == c)
  {
    assert e in entries + [e];
    assert forall x :: x in entries + [e] <==> x in entries || x == e;
  }

  lemma ListsIdGrows(entries: seq<Entry>, e: Entry, hash: string, id: int, c: Availability)
    ensures ListsId(entries, hash, id, c) ==> ListsId(entries + [e], hash, id, c)
    ensures Matches(e, hash) && e.id == id && Class(e) == c ==> ListsId(entries + [e], hash, id, c)
  {
    assert e in entries + [e];
    assert forall x :: x in entries ==> x in entries + [e];
  }

  lemma LastIdGrows(entries: seq<Entry>, e: Entry, hash: string, id: int, c: Availability)
    ensures Matches(e, hash) && Class(e) == c && e.id == id ==> LastId(entries + [e], hash, id, c)
    ensures !(Matches(e, hash) && Class(e) == c) && LastId(entries, hash, id, c) ==> LastId(entries + [e], hash, id, c)
  {
    var more := entries + [e];
    if Matches(e, hash) && Class(e) == c && e.id == id {
      assert LastAt(more, hash, c, |entries|);
    }
    if !(Matches(e, hash) && Class(e) == c) && LastId(entries, hash, id, c) {
      var i :| 0 <= i < |entries| && LastAt(entries, hash, c, i) && entries[i].id == id;
      assert more[i] == entries[i] && LastAt(more, hash, c, i);
    }
  }

  lemma MergeIsExact(entries: seq<Entry>, hash: string, o: Observation, e: Entry)
    requires Exact(entries, hash, o) && e.id > 0
    ensures Exact(entries + [e], hash, if Matches(e, hash) then Merged(o, e) else o)
  {
    ListedGrows(entries, e, hash, Available);
    ListedGrows(entries, e, hash, Unknown);
    assert forall x :: x in entries + [e] <==> x in entries || x == e;
    var o' := if Matches(e, hash) then Merged(o, e) else o;
    ListsIdGrows(entries, e, hash, o'.torrentId, o'.status);
    LastIdGrows(entries, e, hash, o'.torrentId, o'.status);
  }

  lemma {:induction false} FoldIsExact(before: seq<Entry>, states: States, seen: set<int>, entries: seq<Entry>)
    requires AllExact(before, states)
    ensures var f := FoldPage(states, seen, entries); f.Folded? ==> AllExact(before + entries, f.states)
    decreases |entries|
  {
    if entries == [] {
      assert before + entries == before;
    } else {
      var e := entries[0];
      var first := FoldEntry(states, seen, e);
      if first.Folded? {
        forall h | h in states ensures Exact(before + [e], h, first.states[h]) {
          MergeIsExact(before, h, states[h], e);
        }
        FoldIsExact(before + [e], first.states, first.seen, entries[1..]);
        Associative(before, [e], entries[1..]);
        assert [e] + entries[1..] == entries;
      }
    }
  }

  /** The entries served before the first empty page (or the first failure). */
  ghost function Account(serve: Provider, page: nat, offset: nat): seq<Entry>
    decreases PAGE_LIMIT - page
  {
    if page >= PAGE_LIMIT || serve(page, offset).Failed? || serve(page, offset).entries == [] then []
    else serve(page, offset).entries + Account(serve, page + 1, offset + |serve(page, offset).entries|)
  }

  /** The pages run on, without a failure, to an empty one within the page limit. */
  ghost predicate Exhausted(serve: Provider, page: nat, offset: nat)
    decreases PAGE_LIMIT - page
  {
    && page < PAGE_LIMIT && serve(page, offset).Page?
    && (serve(page, offset).entries != [] ==> Exhausted(serve, page + 1, offset + |serve(page, offset).entries|))
  }

  lemma Associative(a: seq<Entry>, b: seq<Entry>, c: seq<Entry>)
    ensures a + b + c == a + (b + c)
  {
  }

  /** What was read is all of the account, or enough of it to stop at a positive answer. */
  lemma {:induction false} ScanIsExact(serve: Provider, page: nat, offset: nat, before: seq<Entry>,
                                      states: States, seen: set<int>, stop: bool) returns (read: seq<Entry>)
    requires AllExact(before, states) && ScanFrom(serve, page, offset, states, seen, stop).Observed?
    ensures AllExact(before + read, ScanFrom(serve, page, offset, states, seen, stop).states)
    ensures forall e :: e in read ==> e in Account(serve, page, offset)
    ensures (read == Account(serve, page, offset) && Exhausted(serve, page, offset))
            || (stop && AllPositive(ScanFrom(serve, page, offset, states, seen, stop).states))
    decreases PAGE_LIMIT - page
  {
    ScanStep(serve, page, offset, states, seen, stop);
    var entries := serve(page, offset).entries;
    var folded := FoldPage(states, seen, entries);
    FoldIsExact(before, states, seen, entries);
    if (stop && AllPositive(folded.states)) || entries == [] {
      read := entries;
    } else {
      var scan := ScanFrom(serve, page + 1, offset + |entries|, folded.states, folded.seen, stop);
      assert ScanFrom(serve, page, offset, states, seen, stop) == scan;
      var rest := ScanIsExact(serve, page + 1, offset + |entries|, before + entries, folded.states, folded.seen, stop);
      read := entries + rest;
      assert AllExact(before + entries + rest, scan.states);
      Associative(before, entries, rest);
      AccountStep(serve, page, offset, rest);
    }
  }

  lemma ScanStep(serve: Provider, page: nat, offset: nat, states: States, seen: set<int>, stop: bool)
    requires ScanFrom(serve, page, offset, states, seen, stop).Observed?
    ensures page < PAGE_LIMIT && serve(page, offset).Page?
    ensures var folded := FoldPage(states, seen, serve(page, offset).entries);
            && folded.Folded?
            && ScanFrom(serve, page, offset, states, seen, stop) ==
               if (stop && AllPositive(folded.states)) || serve(page, offset).entries == [] then Observed(folded.states)
               else ScanFrom(serve, page + 1, offset + |serve(page, offset).entries|, folded.states, folded.seen, stop)
  {
  }

  lemma AccountStep(serve: Provider, page: nat, offset: nat, rest: seq<Entry>)
    requires page < PAGE_LIMIT && serve(page, offset).Page? && serve(page, offset).entries != []
    requires forall e :: e in rest ==> e in Account(serve, page + 1, offset + |serve(page, offset).entries|)
    ensures Account(serve, page, offset) == serve(page, offset).entries + Account(serve, page + 1, offset + |serve(page, offset).entries|)
    ensures Exhausted(serve, page, offset) <==> Exhausted(serve, page + 1, offset + |serve(page, offset).entries|)
    ensures forall e :: e in serve(page, offset).entries + rest ==> e in Account(serve, page, offset)
  {
  }

  lemma {:induction false} WantedStates(hashes: seq<string>)
    ensures AllExact([], Wanted(hashes))
    ensures forall i :: 0 <= i < |hashes| ==> Normalized(hashes[i]) in Wanted(hashes)
  {
    if hashes != [] {
      var init := hashes[..|hashes| - 1];
      WantedStates(init);
      assert forall i :: 0 <= i < |init| ==> init[i] == hashes[i];
    }
  }

  /** A successful full scan read the whole listing, and gives every wanted hash its exact join. */
  lemma FullScanIsExact(key: string, hashes: seq<string>, serve: Provider)
    requires hashes != [] && ScanAll(key, hashes, serve, false).Observed?
    ensures Exhausted(serve, 0, 0)
    ensures forall i :: 0 <= i < |hashes| ==> Normalized(hashes[i]) in ScanAll(key, hashes, serve, false).states
    ensures AllExact(Account(serve, 0, 0), ScanAll(key, hashes, serve, false).states)
  {
    WantedStates(hashes);
    var read := ScanIsExact(serve, 0, 0, [], Wanted(hashes), {}, false);
    assert [] + read == read;
  }

  lemma JoinDependsOnEntriesOnly(a: seq<Entry>, b: seq<Entry>, hash: string, o: Observation, o': Observation)
    requires forall e :: e in a <==> e in b
    requires Exact(a, hash, o) && Exact(b, hash, o')
    ensures o.status == o'.status && (o.torrentId == 0 <==> o'.torrentId == 0)
  {
    forall c ensures Listed(a, hash, c) <==> Listed(b, hash, c) {
      if Listed(a, hash, c) {
        var e :| e in a && Matches(e, hash) && Class(e) == c;
        assert e in b;
      }
      if Listed(b, hash, c) {
        var e :| e in b && Matches(e, hash) && Class(e) == c;
        assert e in a;
      }
    }
  }

  /** Entry order and page sizes do not matter: two successful scans over the same entries agree. */
  lemma PagingDoesNotMatter(key: string, hashes: seq<string>, r1: Provider, r2: Provider, hash: string)
    requires hashes != [] && ScanAll(key, hashes, r1, false).Observed? && ScanAll(key, hashes, r2, false).Observed?
    requires forall e :: e in Account(r1, 0, 0) <==> e in Account(r2, 0, 0)
    requires hash in Wanted(hashes)
    ensures var s1, s2 := ScanAll(key, hashes, r1, false).states, ScanAll(key, hashes, r2, false).states;
            && hash in s1 && hash in s2 && s1[hash].status == s2[hash].status
            && (s1[hash].torrentId == 0 <==> s2[hash].torrentId == 0)
  {
    FullScanIsExact(key, hashes, r1);
    FullScanIsExact(key, hashes, r2);
    var s1, s2 := ScanAll(key, hashes, r1, false).states, ScanAll(key, hashes, r2, false).states;
    JoinDependsOnEntriesOnly(Account(r1, 0, 0), Account(r2, 0, 0), hash, s1[hash], s2[hash]);
  }

  /** A lookup is exact when it is not positive, and names a listed entry of the hash when it is. */
  lemma LookupIsSound(key: string, hash: string, serve: Provider)
    requires LookupOf(key, hash, serve).Found?
    ensures var o, h := LookupOf(key, hash, serve).observation, Normalized(hash);
            && (!Positive(o) ==> Exhausted(serve, 0, 0) && Exact(Account(serve, 0, 0), h, o))
            && (o.torrentId != 0 ==> o.torrentId > 0 && ListsId(Account(serve, 0, 0), h, o.torrentId, o.status))
            && (o.torrentId == 0 ==> o.status == Unavailable)
  {
    var h := Normalized(hash);
    AbsentIsExact(h);
    var read := ScanIsExact(serve, 0, 0, [], map[h := ABSENT], {}, true);
    assert [] + read == read;
    var o := LookupOf(key, hash, serve).observation;
    assert Exact(read, h, o);
    if o.torrentId != 0 {
      var e :| e in read && Matches(e, h) && e.id == o.torrentId && Class(e) == o.status;
      assert e in Account(serve, 0, 0);
    }
  }

  lemma AbsentIsExact(hash: string)
    ensures Exact([], hash, ABSENT) && AllExact([], map[hash := ABSENT])
  {
  }

  lemma {:induction false} StoppingNeverFails(serve: Provider, page: nat, offset: nat, states: States, seen: set<int>)
    requires ScanFrom(serve, page, offset, states, seen, false).Observed?
    ensures ScanFrom(serve, page, offset, states, seen, true).Observed?
    decreases PAGE_LIMIT - page
  {
    var entries := serve(page, offset).entries;
    var folded := FoldPage(states, seen, entries);
    if entries != [] && !AllPositive(folded.states) {
      StoppingNeverFails(serve, page + 1, offset + |entries|, folded.states, folded.seen);
    }
  }

  /** Where the full scan concludes, the lookup with its early exit concludes too, and is positive alike. */
  lemma EarlyExitKeepsTheAnswer(key: string, hash: string, serve: Provider)
    requires Hash(Normalized(hash)) && ScanAll(key, [Normalized(hash)], serve, false).Observed?
    ensures Normalized(hash) in ScanAll(key, [Normalized(hash)], serve, false).states
    ensures LookupOf(key, hash, serve).Found?
    ensures Positive(LookupOf(key, hash, serve).observation) <==>
            ScanAll(key, [Normalized(hash)], serve, false).states[Normalized(hash)].status != Unavailable
  {
    var h := Normalized(hash);
    WantedOne(h);
    HashIsNormal(h);
    FullScanIsExact(key, [h], serve);
    assert Normalized([h][0]) == h;
    StoppingNeverFails(serve, 0, 0, map[h := ABSENT], {});
    LookupIsSound(key, hash, serve);
    var o, full := LookupOf(key, hash, serve).observation, ScanAll(key, [h], serve, false).states[h];
    var account := Account(serve, 0, 0);
    if Positive(o) {
      assert Listed(account, h, o.status);
    }
  }

  // ---- A listing that is served page by page ----

  /** Every page is the part of the listing that starts at the requested offset; only past the end is it
      empty. How long the pages are, and whether a request fails, is up to the provider. */
  ghost predicate Serves(serve: Provider, listing: seq<Entry>) {
    forall page: nat, offset: nat :: offset <= |listing| && serve(page, offset).Page? ==>
      PartOf(serve(page, offset).entries, listing, offset)
  }

  ghost predicate PartOf(entries: seq<Entry>, listing: seq<Entry>, offset: nat)
    requires offset <= |listing|
  {
    && offset + |entries| <= |listing| && entries == listing[offset..offset + |entries|]
    && (entries == [] <==> offset == |listing|)
  }

  lemma {:induction false} AccountIsListing(serve: Provider, listing: seq<Entry>, page: nat, offset: nat)
    requires Serves(serve, listing) && offset <= |listing|
    ensures Account(serve, page, offset) <= listing[offset..]
    ensures Exhausted(serve, page, offset) ==> Account(serve, page, offset) == listing[offset..]
    decreases PAGE_LIMIT - page
  {
    if page < PAGE_LIMIT && serve(page, offset).Page? && serve(page, offset).entries != [] {
      var entries := serve(page, offset).entries;
      assert PartOf(entries, listing, offset);
      AccountIsListing(serve, listing, page + 1, offset + |entries|);
      assert listing[offset..] == entries + listing[offset + |entries|..];
    } else if page < PAGE_LIMIT && serve(page, offset).Page? {
      assert PartOf(serve(page, offset).entries, listing, offset);
    }
  }

  /** Over a listing served as contiguous pages of any sizes, a successful full scan gives each wanted
      hash the join of the listing's entries. */
  lemma ServedListingIsExact(key: string, hashes: seq<string>, serve: Provider, listing: seq<Entry>)
    requires Serves(serve, listing) && hashes != [] && ScanAll(key, hashes, serve, false).Observed?
    ensures AllExact(listing, ScanAll(key, hashes, serve, false).states)
  {
    FullScanIsExact(key, hashes, serve);
    AccountIsListing(serve, listing, 0, 0);
    assert listing[0..] == listing;
  }

  /** And a lookup, with its early exit, is positive exactly when that join is. */
  lemma ServedLookupIsExact(key: string, hash: string, serve: Provider, listing: seq<Entry>)
    requires Serves(serve, listing) && LookupOf(key, hash, serve).Found?
    ensures var o := LookupOf(key, hash, serve).observation;
            && (Positive(o) <==> Join(listing, Normalized(hash)) != Unavailable)
            && (!Positive(o) ==> Exact(listing, Normalized(hash), o))
            && (o.torrentId != 0 ==> o.torrentId > 0 && ListsId(listing, Normalized(hash), o.torrentId, o.status))
  {
    LookupIsSound(key, hash, serve);
    AccountIsListing(serve, listing, 0, 0);
    assert listing[0..] == listing;
    var o, account := LookupOf(key, hash, serve).observation, Account(serve, 0, 0);
    if o.torrentId != 0 {
      var e :| e in account && Matches(e, Normalized(hash)) && e.id == o.torrentId && Class(e) == o.status;
      assert e in listing;
    }
    if Positive(o) {
      assert Listed(listing, Normalized(hash), o.status);
    }
  }

  ghost predicate GoodEntries(entries: seq<Entry>) {
    forall e :: e in entries ==> e.id > 0 && Hash(Normalized(e.hash))
  }

  lemma {:induction false} FoldGoodEntries(states: States, seen: set<int>, entries: seq<Entry>)
    requires GoodEntries(entries)
    ensures FoldPage(states, seen, entries).Folded?
    ensures FoldPage(states, seen, entries).seen == seen + set e | e in entries :: e.id
    decreases |entries|
  {
    if entries != [] {
      var first := FoldEntry(states, seen, entries[0]);
      assert entries[0] in entries;
      assert forall e :: e in entries <==> e == entries[0] || e in entries[1..];
      FoldGoodEntries(first.states, first.seen, entries[1..]);
    }
  }

  lemma ListingGoesOn(serve: Provider, page: nat, offset: nat)
    requires Exhausted(serve, page, offset) && serve(page, offset).entries != []
    ensures var next := offset + |serve(page, offset).entries|;
            && Exhausted(serve, page + 1, next)
            && Account(serve, page, offset) == serve(page, offset).entries + Account(serve, page + 1, next)
  {
  }

  /** Entries of distinct identities, none of them seen before. */
  ghost predicate Scannable(entries: seq<Entry>, seen: set<int>) {
    && GoodEntries(entries)
    && (forall i, j :: 0 <= i < j < |entries| ==> entries[i].id != entries[j].id)
    && (forall e :: e in entries ==> e.id !in seen)
  }

  lemma ScannableParts(states: States, seen: set<int>, entries: seq<Entry>, rest: seq<Entry>)
    requires Scannable(entries + rest, seen) && entries != []
    ensures var folded := FoldPage(states, seen, entries);
            folded.Folded? && folded.seen != seen && Scannable(rest, folded.seen)
  {
    var all := entries + rest;
    assert forall e :: e in entries || e in rest ==> e in all;
    FoldGoodEntries(states, seen, entries);
    assert entries[0] in all && entries[0].id in FoldPage(states, seen, entries).seen;
    forall i, j | 0 <= i < j < |rest| ensures rest[i].id != rest[j].id {
      assert all[|entries| + i] == rest[i] && all[|entries| + j] == rest[j];
    }
    forall e, x | e in rest && x in entries ensures e.id != x.id {
      var i :| 0 <= i < |entries| && entries[i] == x;
      var j :| 0 <= j < |rest| && rest[j] == e;
      assert all[i] == x && all[|entries| + j] == e;
    }
  }

  /** Conversely, a listing of distinct entries served completely is always scanned successfully. */
  lemma {:induction false} DistinctListingIsScanned(serve: Provider, page: nat, offset: nat, states: States, seen: set<int>)
    requires Exhausted(serve, page, offset) && Scannable(Account(serve, page, offset), seen)
    ensures ScanFrom(serve, page, offset, states, seen, false).Observed?
    decreases PAGE_LIMIT - page
  {
    var entries := serve(page, offset).entries;
    if entries != [] {
      var rest := Account(serve, page + 1, offset + |entries|);
      ListingGoesOn(serve, page, offset);
      ScannableParts(states, seen, entries, rest);
      ScanGoesOn(serve, page, offset, states, seen, false);
      var folded := FoldPage(states, seen, entries);
      DistinctListingIsScanned(serve, page + 1, offset + |entries|, folded.states, folded.seen);
    }
  }

  // ---- When a scan concludes ----

  /** The entries of the first `n` pages, each requested behind the ones before it. */
  ghost function FirstPages(serve: Provider, n: nat): seq<Entry> {
    if n == 0 then []
    else
      var before := FirstPages(serve, n - 1);
      before + Entries(serve(n - 1, |before|))
  }

  ghost function Entries(r: Response): seq<Entry> {
    if r.Page? then r.entries else []
  }

  /** What page `k` brings. */
  ghost function PageAt(serve: Provider, k: nat): Response {
    serve(k, |FirstPages(serve, k)|)
  }

  ghost function Ids(entries: seq<Entry>): set<int> {
    set e | e in entries :: e.id
  }

  ghost predicate GoodPage(serve: Provider, k: nat) {
    PageAt(serve, k).Page? && GoodEntries(PageAt(serve, k).entries)
  }

  /** Page `k` lists an identity that no page before it lists. */
  ghost predicate Advances(serve: Provider, k: nat) {
    exists e :: e in Entries(PageAt(serve, k)) && e.id !in Ids(FirstPages(serve, k))
  }

  /** The scan may end with page `n - 1`: the pages up to there are well-formed, all but the last bring
      something new, and the last is empty or, for a lookup, completes a positive answer. */
  ghost predicate EndsAt(serve: Provider, hash: string, stop: bool, n: nat) {
    && 0 < n <= 100
    && (forall k :: 0 <= k < n ==> GoodPage(serve, k))
    && (forall k :: 0 <= k < n - 1 ==> Advances(serve, k))
    && (Entries(PageAt(serve, n - 1)) == [] || (stop && Join(FirstPages(serve, n), hash) != Unavailable))
  }

  ghost predicate Ends(serve: Provider, hash: string, stop: bool, from: nat) {
    exists n :: n > from && EndsAt(serve, hash, stop, n)
  }

  lemma {:induction false} FoldNeedsGoodEntries(states: States, seen: set<int>, entries: seq<Entry>)
    ensures FoldPage(states, seen, entries).Folded? <==> GoodEntries(entries)
    ensures GoodEntries(entries) ==> FoldPage(states, seen, entries).seen == seen + Ids(entries)
    decreases |entries|
  {
    if GoodEntries(entries) {
      FoldGoodEntries(states, seen, entries);
    } else {
      var first := FoldEntry(states, seen, entries[0]);
      assert forall e :: e in entries <==> e == entries[0] || e in entries[1..];
      if first.Folded? {
        FoldNeedsGoodEntries(first.states, first.seen, entries[1..]);
      }
    }
  }

  /** The scan has taken `n` pages and goes on. */
  ghost predicate Scanning(serve: Provider, hash: string, stop: bool, n: nat, states: States, seen: set<int>) {
    && n <= PAGE_LIMIT && states.Keys == {hash}
    && AllExact(FirstPages(serve, n), states) && seen == Ids(FirstPages(serve, n))
    && (forall k :: 0 <= k < n ==> GoodPage(serve, k) && Advances(serve, k))
  }

  lemma PositiveIsJoin(entries: seq<Entry>, hash: string, states: States)
    requires states.Keys == {hash} && AllExact(entries, states)
    ensures AllPositive(states) <==> Join(entries, hash) != Unavailable
  {
    assert hash in states && Exact(entries, hash, states[hash]);
  }

  lemma IdsOfMore(a: seq<Entry>, b: seq<Entry>)
    ensures Ids(a + b) == Ids(a) + Ids(b)
    ensures Ids(a + b) == Ids(a) <==> forall e :: e in b ==> e.id in Ids(a)
  {
    forall e | e in a || e in b ensures e.id in Ids(a + b) {
      assert e in a + b;
    }
  }

  lemma ScanStops(serve: Provider, page: nat, offset: nat, states: States, seen: set<int>, stop: bool)
    requires page < PAGE_LIMIT && serve(page, offset).Page?
    ensures var entries := serve(page, offset).entries;
            var folded := FoldPage(states, seen, entries);
            var scan := ScanFrom(serve, page, offset, states, seen, stop);
            && (folded.BadEntry? ==> scan.Refused?)
            && (folded.Folded? && ((stop && AllPositive(folded.states)) || entries == []) ==> scan.Observed?)
            && (folded.Folded? && !(stop && AllPositive(folded.states)) && entries != [] && folded.seen == seen ==> scan.Refused?)
  {
  }

  /** What a good page does to a scan. */
  lemma PageIsFolded(serve: Provider, hash: string, stop: bool, n: nat, states: States, seen: set<int>)
    requires Scanning(serve, hash, stop, n, states, seen) && n < PAGE_LIMIT && GoodPage(serve, n)
    ensures var entries := PageAt(serve, n).entries;
            var folded := FoldPage(states, seen, entries);
            && folded.Folded? && FirstPages(serve, n + 1) == FirstPages(serve, n) + entries
            && (AllPositive(folded.states) <==> Join(FirstPages(serve, n + 1), hash) != Unavailable)
            && (folded.seen != seen <==> Advances(serve, n))
            && (Advances(serve, n) ==> Scanning(serve, hash, stop, n + 1, folded.states, folded.seen))
  {
    var before := FirstPages(serve, n);
    var entries := PageAt(serve, n).entries;
    FoldNeedsGoodEntries(states, seen, entries);
    FoldIsExact(before, states, seen, entries);
    PositiveIsJoin(before + entries, hash, FoldPage(states, seen, entries).states);
    IdsOfMore(before, entries);
  }

  /** The scan reads another page and goes on behind it. */
  ghost predicate GoesOn(serve: Provider, hash: string, stop: bool, n: nat) {
    n < PAGE_LIMIT && GoodPage(serve, n) && Advances(serve, n) && !EndsAfter(serve, hash, stop, n)
  }

  ghost predicate EndsAfter(serve: Provider, hash: string, stop: bool, n: nat) {
    Entries(PageAt(serve, n)) == [] || (stop && Join(FirstPages(serve, n + 1), hash) != Unavailable)
  }

  lemma BadPageEnds(serve: Provider, hash: string, stop: bool, n: nat, states: States, seen: set<int>)
    requires n >= PAGE_LIMIT || !GoodPage(serve, n)
    ensures ScanFrom(serve, n, |FirstPages(serve, n)|, states, seen, stop).Refused? && !Ends(serve, hash, stop, n)
  {
    var offset := |FirstPages(serve, n)|;
    NoEndBeyond(serve, hash, stop, n);
    if n < PAGE_LIMIT && serve(n, offset).Page? {
      FoldNeedsGoodEntries(states, seen, serve(n, offset).entries);
      ScanStops(serve, n, offset, states, seen, stop);
    }
  }

  lemma GoodPageEnds(serve: Provider, hash: string, stop: bool, n: nat, states: States, seen: set<int>)
    requires Scanning(serve, hash, stop, n, states, seen)
    requires n < PAGE_LIMIT && GoodPage(serve, n) && !GoesOn(serve, hash, stop, n)
    ensures ScanFrom(serve, n, |FirstPages(serve, n)|, states, seen, stop).Observed? <==> Ends(serve, hash, stop, n)
  {
    PageIsFolded(serve, hash, stop, n, states, seen);
    ScanStops(serve, n, |FirstPages(serve, n)|, states, seen, stop);
    if EndsAfter(serve, hash, stop, n) {
      assert EndsAt(serve, hash, stop, n + 1);
    } else {
      NoLaterEnd(serve, hash, stop, n);
    }
  }

  /** A scan that goes on concludes if and only if it may end with a later page. */
  lemma {:induction false} ScanConcludes(serve: Provider, hash: string, stop: bool, n: nat, states: States, seen: set<int>)
    requires Scanning(serve, hash, stop, n, states, seen)
    ensures ScanFrom(serve, n, |FirstPages(serve, n)|, states, seen, stop).Observed? <==> Ends(serve, hash, stop, n)
    decreases PAGE_LIMIT - n
  {
    if GoesOn(serve, hash, stop, n) {
      var folded := ScanTakesPage(serve, hash, stop, n, states, seen);
      ScanConcludes(serve, hash, stop, n + 1, folded.states, folded.seen);
      LaterEnd(serve, hash, stop, n);
    } else if n < PAGE_LIMIT && GoodPage(serve, n) {
      GoodPageEnds(serve, hash, stop, n, states, seen);
    } else {
      BadPageEnds(serve, hash, stop, n, states, seen);
    }
  }

  lemma ScanTakesPage(serve: Provider, hash: string, stop: bool, n: nat, states: States, seen: set<int>) returns (folded: Folded)
    requires Scanning(serve, hash, stop, n, states, seen) && GoesOn(serve, hash, stop, n)
    ensures folded.Folded? && Scanning(serve, hash, stop, n + 1, folded.states, folded.seen)
    ensures !EndsAt(serve, hash, stop, n + 1)
    ensures ScanFrom(serve, n, |FirstPages(serve, n)|, states, seen, stop) ==
            ScanFrom(serve, n + 1, |FirstPages(serve, n + 1)|, folded.states, folded.seen, stop)
  {
    folded := FoldPage(states, seen, PageAt(serve, n).entries);
    PageIsFolded(serve, hash, stop, n, states, seen);
    ScanGoesOnAt(serve, n, |FirstPages(serve, n)|, |FirstPages(serve, n + 1)|, states, seen, stop, folded);
  }

  lemma ScanGoesOnAt(serve: Provider, page: nat, offset: nat, next: nat, states: States, seen: set<int>, stop: bool, folded: Folded)
    requires page < PAGE_LIMIT && serve(page, offset).Page? && serve(page, offset).entries != []
    requires next == offset + |serve(page, offset).entries| && folded == FoldPage(states, seen, serve(page, offset).entries)
    requires folded.Folded? && folded.seen != seen && !(stop && AllPositive(folded.states))
    ensures ScanFrom(serve, page, offset, states, seen, stop) ==
            ScanFrom(serve, page + 1, next, folded.states, folded.seen, stop)
  {
    ScanGoesOn(serve, page, offset, states, seen, stop);
  }

  lemma NoEndBeyond(serve: Provider, hash: string, stop: bool, n: nat)
    requires n >= PAGE_LIMIT || !GoodPage(serve, n)
    ensures !Ends(serve, hash, stop, n)
  {
  }

  lemma NoLaterEnd(serve: Provider, hash: string, stop: bool, n: nat)
    requires !Advances(serve, n) && !EndsAt(serve, hash, stop, n + 1)
    ensures !Ends(serve, hash, stop, n)
  {
    forall m | m > n ensures !EndsAt(serve, hash, stop, m) {
      if m > n + 1 {
        assert !Advances(serve, n);
      }
    }
  }

  lemma LaterEnd(serve: Provider, hash: string, stop: bool, n: nat)
    requires !EndsAt(serve, hash, stop, n + 1)
    ensures Ends(serve, hash, stop, n) <==> Ends(serve, hash, stop, n + 1)
  {
    if Ends(serve, hash, stop, n) {
      var m :| m > n && EndsAt(serve, hash, stop, m);
      assert m > n + 1;
    }
  }

  /** A lookup concludes if and only if some prefix of well-formed, advancing pages is closed by an empty
      page or already lists the hash as present or in progress. */
  lemma LookupConcludes(key: string, hash: string, serve: Provider)
    ensures LookupOf(key, hash, serve).Found? <==>
            key != "" && Hash(Normalized(hash)) && Ends(serve, Normalized(hash), true, 0)
  {
    AbsentIsExact(Normalized(hash));
    ScanConcludes(serve, Normalized(hash), true, 0, map[Normalized(hash) := ABSENT], {});
  }

  /** A full scan for the hash concludes if and only if such a prefix is closed by an empty page. */
  lemma FullScanConcludes(key: string, hash: string, serve: Provider)
    requires key != "" && Hash(Normalized(hash))
    ensures ScanAll(key, [Normalized(hash)], serve, false).Observed? <==> Ends(serve, Normalized(hash), false, 0)
  {
    var h := Normalized(hash);
    HashIsNormal(h);
    WantedOne(h);
    AbsentIsExact(h);
    ScanConcludes(serve, h, false, 0, map[h := ABSENT], {});
  }

  /** The early exit can conclude where the full scan cannot: a present entry, then a failed page. */
  lemma LookupMayConcludeAlone(key: string, hash: string)
    requires key != "" && Hash(hash)
    ensures var serve: Provider := (page, offset) => if page == 0 then Page([Entry(1, hash, Some(true), "cached")]) else Failed;
            LookupOf(key, hash, serve).Found? && ScanAll(key, [hash], serve, false).Refused?
  {
    var serve: Provider := (page, offset) => if page == 0 then Page([Entry(1, hash, Some(true), "cached")]) else Failed;
    var e := Entry(1, hash, Some(true), "cached");
    HashIsNormal(hash);
    assert FirstPages(serve, 0) == [] && PageAt(serve, 0) == Page([e]);
    assert FirstPages(serve, 1) == [] + [e] == [e];
    assert Listed([e], hash, Available) by { assert e in [e]; }
    assert EndsAt(serve, hash, true, 1);
    LookupConcludes(key, hash, serve);
    FullScanConcludes(key, hash, serve);
    forall n | n > 0 ensures !EndsAt(serve, hash, false, n) {
      if n > 1 {
        assert !GoodPage(serve, 1);
      }
    }
  }
}
