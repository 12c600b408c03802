/** The bounded filesystem probe: reads that outlive their caller keep their slot and their path. */
module ReadProbes {

  /** The state the mutex protects, and the reads whose goroutines have not finished. */
  datatype Probe = Probe(limit: nat, slots: nat, active: set<string>, running: multiset<string>)

  datatype Verdict = Expired | PathBusy | Busy | Started

  function Fresh(limit: int): Probe {
    Probe(if limit < 1 then 1 else limit, 0, {}, multiset{})
  }

  /** The first half of Check, up to the start of the read. */
  function Begin(p: Probe, path: string, expired: bool): (Probe, Verdict) {
    if expired then (p, Expired)
    else if path in p.active then (p, PathBusy)
    else if p.slots >= p.limit then (p, Busy)
    else (p.(slots := p.slots + 1, active := p.active + {path}, running := p.running + multiset{path}), Started)
  }

  datatype Finish = Blocked | Finished(probe: Probe)

  /** The end of a read: the path is released, then a token is taken back under the same lock. */
  function End(p: Probe, path: string): Finish {
    if p.slots == 0 then Blocked
    else Finished(p.(slots := p.slots - 1, active := p.active - {path}, running := p.running - multiset{path}))
  }

  /** What may happen next; a caller that gives up waiting changes nothing. */
  datatype Event = Check(path: string, expired: bool) | CallerTimesOut | ReadReturns(path: string)

  ghost predicate Possible(p: Probe, e: Event) {
    e.ReadReturns? ==> e.path in p.running
  }

  function After(p: Probe, e: Event): Finish {
    match e
    case Check(path, expired) => Finished(Begin(p, path, expired).0)
    case CallerTimesOut => Finished(p)
    case ReadReturns(path) => End(p, path)
  }

  ghost predicate Bounded(p: Probe) {
    && p.slots == |p.active| == |p.running| <= p.limit
    && (forall path :: p.running[path] == if path in p.active then 1 else 0)
  }

  /** An interleaving of any number of callers and reads. */
  ghost predicate Interleaving(states: seq<Probe>, events: seq<Event>) {
    && |states| == |events| + 1
    && (exists limit :: states[0] == Fresh(limit))
    && forall i :: 0 <= i < |events| ==> Possible(states[i], events[i]) && After(states[i], events[i]) == Finished(states[i + 1])
  }

  lemma EventKeepsBound(p: Probe, e: Event)
    requires Bounded(p) && Possible(p, e)
    ensures After(p, e).Finished? && Bounded(After(p, e).probe) && After(p, e).probe.limit == p.limit
  {
  }

  /** In every interleaving the occupied slots are the active paths are the unfinished reads, within
      the limit and one per path; when no read is left every slot is free, and no read ends blocked. */
  lemma {:induction false} ProbeBound(states: seq<Probe>, events: seq<Event>, i: nat)
    requires Interleaving(states, events) && i < |states|
    ensures Bounded(states[i]) && states[i].limit == states[0].limit
    ensures states[i].running == multiset{} ==> states[i].slots == 0 && states[i].active == {}
    ensures forall path :: path in states[i].running ==> After(states[i], ReadReturns(path)).Finished?
  {
    if i == 0 {
      var limit :| states[0] == Fresh(limit);
    } else {
      ProbeBound(states, events, i - 1);
      EventKeepsBound(states[i - 1], events[i - 1]);
    }
    forall path | path in states[i].running ensures After(states[i], ReadReturns(path)).Finished? {
      EventKeepsBound(states[i], ReadReturns(path));
    }
  }

  /** The probe itself: the slot count and active paths of State, changed under its mutex. */
  class ReadProbe {
    const limit: nat
    var slots: nat
    var active: set<string>
    ghost var running: multiset<string>

    ghost function State(): Probe
      reads this
    {
      Probe(limit, slots, active, running)
    }

    constructor (limit: int)
      ensures State() == Fresh(limit)
      ensures slots == 0 && active == {} && this.limit >= 1 && (limit >= 1 ==> this.limit == limit)
    {
      this.limit := if limit < 1 then 1 else limit;
      slots, active, running := 0, {}, multiset{};
    }

    method Check(path: string, expired: bool) returns (verdict: Verdict)
      modifies this
      ensures (State(), verdict) == Begin(old(State()), path, expired)
      ensures verdict == Expired <==> expired
      ensures verdict == PathBusy <==> !expired && path in old(active)
      ensures verdict == Busy <==> !expired && path !in old(active) && old(slots) >= limit
      ensures verdict == Started ==> slots == old(slots) + 1 && active == old(active) + {path}
      ensures verdict != Started ==> State() == old(State())
    {
      if expired {
        return Expired;
      }
      if path in active {
        return PathBusy;
      }
      if slots >= limit {
        return Busy;
      }
      slots := slots + 1;
      active := active + {path};
      running := running + multiset{path};
      return Started;
    }

    method FinishRead(path: string)
      requires Bounded(State()) && path in running
      modifies this
      ensures End(old(State()), path) == Finished(State())
      ensures Bounded(State()) && slots == old(slots) - 1 && active == old(active) - {path}
    {
      EventKeepsBound(State(), ReadReturns(path));
      active := active - {path};
      slots := slots - 1;
      running := running - multiset{path};
    }
  }
}
