/** The paged account listing of the provider, folded into one observation per wanted hash. */
module Inventory {
  import opened Options
  import opened Text

  datatype Availability = Unavailable | Unknown | Available

  datatype Observation = Observation(status: Availability, reason: string, torrentId: int)

  datatype Entry = Entry(id: int, hash: string, present: Option<bool>, state: string)

  /** One answer to a page request. Failed stands for a transport error, a status other than 200,
      an incomplete body and a context that ended while waiting. */
  datatype Response = Failed | Page(entries: seq<Entry>)

  /** What the account listing answers to a page request at an offset. */
  type Provider = (nat, nat) -> Response

  const PAGE_LIMIT := 100

  function Normalized(hash: string): string {
    Lower(Trim(hash))
  }

  /** A listed hash is compared in lower case and without the blanks around it. */
  lemma NormalizedMeans(before: string, hash: string, after: string)
    requires Blanks(before) && Blanks(after) && Hash(Lower(hash))
    ensures Normalized(before + hash + after) == Lower(hash)
  {
    HexIsNotBlank(hash[0]);
    HexIsNotBlank(hash[|hash| - 1]);
    assert Lower(hash)[0] in Lower(hash) && Lower(hash)[|hash| - 1] in Lower(hash);
    TrimOfPadded(before, hash, after);
  }

  lemma HexIsNotBlank(c: char)
    ensures HexDigit(LowerChar(c)) ==> !Blank(c)
  {
  }

  predicate Active(state: string) {
    Lower(state) in {"downloading", "metadl", "checkingresumedata", "queueddl", "stalleddl", "allocating"}
  }

  /** What a single entry says about its hash. */
  function Class(e: Entry): Availability {
    if e.present.None? || (Active(e.state) && !e.present.value) then Unknown
    else if e.present.value then Available
    else Unavailable
  }

  function Merged(o: Observation, e: Entry): Observation {
    if e.present.None? || (Active(e.state) && !e.present.value) then
      if o.status != Available then Observation(Unknown, "incomplete_or_active_download", e.id) else o
    else if e.present.value then Observation(Available, "download_present", e.id)
    else if o.status != Available && o.status != Unknown then Observation(Unavailable, "download_not_present", e.id)
    else o
  }

  type States = map<string, Observation>

  datatype Folded = BadEntry | Folded(states: States, seen: set<int>)

  function FoldEntry(states: States, seen: set<int>, e: Entry): Folded {
    var hash := Normalized(e.hash);
    if e.id <= 0 || !Hash(hash) then BadEntry
    else Folded(if hash in states then states[hash := Merged(states[hash], e)] else states, seen + {e.id})
  }

  function FoldPage(states: States, seen: set<int>, entries: seq<Entry>): (r: Folded)
    ensures r.Folded? ==> r.states.Keys == states.Keys && seen <= r.seen
    decreases |entries|
  {
    if entries == [] then Folded(states, seen)
    else
      var first := FoldEntry(states, seen, entries[0]);
      if first.BadEntry? then BadEntry else FoldPage(first.states, first.seen, entries[1..])
  }

  predicate Positive(o: Observation) {
    o.torrentId > 0 && (o.status == Available || o.status == Unknown)
  }

  predicate AllPositive(states: States) {
    forall h :: h in states ==> Positive(states[h])
  }

  datatype Scan = Refused | Observed(states: States)

  function ScanFrom(serve: Provider, page: nat, offset: nat, states: States, seen: set<int>, stopOnPositive: bool): (r: Scan)
    ensures r.Observed? ==> r.states.Keys == states.Keys
    decreases PAGE_LIMIT - page
  {
    if page >= PAGE_LIMIT || serve(page, offset).Failed? then Refused
    else
      var entries := serve(page, offset).entries;
      var folded := FoldPage(states, seen, entries);
      if folded.BadEntry? then Refused
      else if stopOnPositive && AllPositive(folded.states) then Observed(folded.states)
      else if entries == [] then Observed(folded.states)
      else if folded.seen == seen then Refused
      else ScanFrom(serve, page + 1, offset + |entries|, folded.states, folded.seen, stopOnPositive)
  }

  lemma ScanGoesOn(serve: Provider, page: nat, offset: nat, states: States, seen: set<int>, stop: bool)
    requires page < PAGE_LIMIT && serve(page, offset).Page? && serve(page, offset).entries != []
    requires FoldPage(states, seen, serve(page, offset).entries).Folded?
    requires FoldPage(states, seen, serve(page, offset).entries).seen != seen
    requires !(stop && AllPositive(FoldPage(states, seen, serve(page, offset).entries).states))
    ensures var entries := serve(page, offset).entries;
            var folded := FoldPage(states, seen, entries);
            ScanFrom(serve, page, offset, states, seen, stop) ==
            ScanFrom(serve, page + 1, offset + |entries|, folded.states, folded.seen, stop)
  {
  }

  const ABSENT := Observation(Unavailable, "not_in_account", 0)

  function Wanted(hashes: seq<string>): States {
    if hashes == [] then map[] else Wanted(hashes[..|hashes| - 1])[Normalized(hashes[|hashes| - 1]) := ABSENT]
  }

  predicate AllHashes(hashes: seq<string>) {
    forall i :: 0 <= i < |hashes| ==> Hash(Normalized(hashes[i]))
  }

  function ScanAll(key: string, hashes: seq<string>, serve: Provider, stopOnPositive: bool): Scan {
    if key == "" || !AllHashes(hashes) then Refused
    else if hashes == [] then Observed(map[])
    else ScanFrom(serve, 0, 0, Wanted(hashes), {}, stopOnPositive)
  }

  /** The entry loop of one page. */
  method ReadPage(states0: States, seen0: set<int>, entries: seq<Entry>) returns (folded: Folded, newIDs: nat)
    ensures folded == FoldPage(states0, seen0, entries)
    ensures folded.Folded? ==> (newIDs == 0 <==> folded.seen == seen0)
  {
    var states, seen := states0, seen0;
    newIDs := 0;
    for i := 0 to |entries|
      invariant FoldPage(states0, seen0, entries) == FoldPage(states, seen, entries[i..])
      invariant seen0 <= seen && (newIDs == 0 <==> seen == seen0)
    {
      var entry := entries[i];
      ghost var before := states;
      assert entries[i..][0] == entry && entries[i..][1..] == entries[i + 1..];
      if entry.id <= 0 {
        return BadEntry, newIDs;
      }
      if entry.id !in seen {
        newIDs := newIDs + 1;
      }
      seen := seen + {entry.id};
      var hash := Lower(Trim(entry.hash));
      if !Hash(hash) {
        return BadEntry, newIDs;
      }
      if hash !in states {
        continue;
      }
      var active := Active(entry.state);
      if entry.present.None? || (active && !entry.present.value) {
        if states[hash].status != Available {
          states := states[hash := Observation(Unknown, "incomplete_or_active_download", entry.id)];
        }
      } else if entry.present.value {
        states := states[hash := Observation(Available, "download_present", entry.id)];
      } else if states[hash].status != Available && states[hash].status != Unknown {
        states := states[hash := Observation(Unavailable, "download_not_present", entry.id)];
      }
      assert states == before[hash := Merged(before[hash], entry)];
    }
    return Folded(states, seen), newIDs;
  }

  method NormalizeAll(hashes: seq<string>) returns (valid: bool, states: States)
    ensures valid <==> AllHashes(hashes)
    ensures valid ==> states == Wanted(hashes) && (states == map[] <==> hashes == [])
  {
    states := map[];
    for i := 0 to |hashes|
      invariant AllHashes(hashes[..i]) && states == Wanted(hashes[..i])
      invariant i > 0 ==> Normalized(hashes[i - 1]) in states
    {
      var hash := Lower(Trim(hashes[i]));
      if !Hash(hash) {
        return false, states;
      }
      assert hashes[..i + 1][..i] == hashes[..i];
      states := states[hash := ABSENT];
    }
    assert hashes[..|hashes|] == hashes;
    valid := true;
  }

  datatype Turn = Stop(scan: Scan) | Continue(states: States, seen: set<int>, offset: nat)

  /** One turn of the page loop. */
  method TakePage(serve: Provider, page: nat, offset: nat, states: States, seen: set<int>, stopOnPositive: bool) returns (turn: Turn)
    requires page < PAGE_LIMIT
    ensures ScanFrom(serve, page, offset, states, seen, stopOnPositive) ==
            match turn
            case Stop(scan) => scan
            case Continue(states', seen', offset') => ScanFrom(serve, page + 1, offset', states', seen', stopOnPositive)
  {
    var response := serve(page, offset);
    if response.Failed? {
      return Stop(Refused);
    }
    var folded, newIDs := ReadPage(states, seen, response.entries);
    if folded.BadEntry? {
      return Stop(Refused);
    }
    if stopOnPositive && AllPositive(folded.states) {
      return Stop(Observed(folded.states));
    }
    if response.entries == [] {
      return Stop(Observed(folded.states));
    }
    if newIDs == 0 {
      return Stop(Refused);
    }
    ScanGoesOn(serve, page, offset, states, seen, stopOnPositive);
    return Continue(folded.states, folded.seen, offset + |response.entries|);
  }

  /** The page loop. */
  method ReadPages(wanted: States, serve: Provider, stopOnPositive: bool) returns (r: Scan)
    ensures r == ScanFrom(serve, 0, 0, wanted, {}, stopOnPositive)
  {
    var states, seen: set<int>, offset := wanted, {}, 0;
    for page := 0 to PAGE_LIMIT
      invariant 0 <= offset
      invariant ScanFrom(serve, 0, 0, wanted, {}, stopOnPositive) == ScanFrom(serve, page, offset, states, seen, stopOnPositive)
    {
      var turn := TakePage(serve, page, offset, states, seen, stopOnPositive);
      if turn.Stop? {
        return turn.scan;
      }
      states, seen, offset := turn.states, turn.seen, turn.offset;
    }
    return Refused;
  }

  method ReadInventory(key: string, hashes: seq<string>, serve: Provider, stopOnPositive: bool) returns (r: Scan)
    ensures r == ScanAll(key, hashes, serve, stopOnPositive)
  {
    if key == "" {
      return Refused;
    }
    var valid, states := NormalizeAll(hashes);
    if !valid {
      return Refused;
    }
    if states == map[] {
      return Observed(states);
    }
    r := ReadPages(states, serve, stopOnPositive);
  }

  datatype Lookup = Inconclusive | Found(observation: Observation)

  method LookupTorrent(key: string, hash: string, serve: Provider) returns (r: Lookup)
    ensures r == LookupOf(key, hash, serve)
  {
    var normalized := Normalized(hash);
    if !Hash(normalized) {
      return Inconclusive;
    }
    WantedOne(normalized);
    var scan := ReadInventory(key, [normalized], serve, true);
    if scan.Refused? {
      return Inconclusive;
    }
    return Found(scan.states[normalized]);
  }

  function LookupOf(key: string, hash: string, serve: Provider): Lookup {
    var normalized := Normalized(hash);
    if !Hash(normalized) || key == "" then Inconclusive
    else
      var scan := ScanFrom(serve, 0, 0, map[normalized := ABSENT], {}, true);
      if scan.Refused? then Inconclusive else Found(scan.states[normalized])
  }

  lemma WantedOne(hash: string)
    requires Hash(hash)
    ensures AllHashes([hash]) && Wanted([hash]) == map[hash := ABSENT]
  {
    HashIsNormal(hash);
    assert [hash][..0] == [];
    assert Wanted([]) == map[];
  }
}
