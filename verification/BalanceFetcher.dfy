/** The coalescing balance fetcher: requests made while a fetch runs become one
    follow-up fetch. */
module BalanceFetcher {

  /** The two flags behind the mutex. */
  datatype Flags = Flags(inflight: bool, pending: bool)

  class HyperCredits {
    var inflight: bool
    var pending: bool

    constructor ()
      ensures View() == Flags(false, false)
    {
      inflight, pending := false, false;
    }

    ghost function View(): Flags
      reads this
    {
      Flags(inflight, pending)
    }

    /** `spawn` says that a background fetch is started. */
    method RefreshBalance() returns (spawn: bool)
      modifies this
      ensures View() == Flags(true, old(inflight) || old(pending)) && spawn == !old(inflight)
    {
      if inflight {
        pending := true;
        return false;
      }
      inflight := true;
      spawn := true;
    }

    /** The locked end of a fetch; `again` says that it must refresh once more. */
    method EndFetch() returns (again: bool)
      modifies this
      ensures View() == Flags(false, false) && again == old(pending)
    {
      inflight := false;
      again := pending;
      pending := false;
    }
  }

  /** `spawned` fetchers have not begun their fetch, `fetching` ones have, and
      `again` ones are about to refresh once more. `requests` counts the requests
      so far, `seen` those made before the latest fetch began. */
  datatype State = State(flags: Flags, spawned: nat, fetching: nat, again: nat, requests: nat, seen: nat)

  datatype Step = Request | BeginFetch | EndFetch | Again

  function Init(): State { State(Flags(false, false), 0, 0, 0, 0, 0) }

  predicate Enabled(s: State, e: Step) {
    match e
    case Request => true
    case BeginFetch => s.spawned > 0
    case EndFetch => s.fetching > 0
    case Again => s.again > 0
  }

  function Refreshed(s: State): State {
    if s.flags.inflight then s.(flags := Flags(true, true))
    else s.(flags := Flags(true, s.flags.pending), spawned := s.spawned + 1)
  }

  function Next(s: State, e: Step): State
    requires Enabled(s, e)
  {
    match e
    case Request => Refreshed(s.(requests := s.requests + 1))
    case BeginFetch => s.(spawned := s.spawned - 1, fetching := s.fetching + 1, seen := s.requests)
    case EndFetch => s.(flags := Flags(false, false), fetching := s.fetching - 1,
                        again := if s.flags.pending then s.again + 1 else s.again)
    case Again => Refreshed(s.(again := s.again - 1))
  }

  predicate Inv(s: State) {
    && s.spawned + s.fetching == (if s.flags.inflight then 1 else 0)
    && (s.flags.pending ==> s.flags.inflight)
    && s.seen <= s.requests
    && (s.seen < s.requests ==> s.spawned > 0 || s.flags.pending || s.again > 0)
  }

  predicate Legal(s: State, steps: seq<Step>)
    decreases |steps|
  {
    steps == [] || (Enabled(s, steps[0]) && Legal(Next(s, steps[0]), steps[1..]))
  }

  function Exec(s: State, steps: seq<Step>): State
    requires Legal(s, steps)
    decreases |steps|
  {
    if steps == [] then s else Exec(Next(s, steps[0]), steps[1..])
  }

  lemma {:induction false} AlwaysInv(s: State, steps: seq<Step>)
    requires Inv(s) && Legal(s, steps)
    ensures Inv(Exec(s, steps))
    decreases |steps|
  {
    if steps != [] { AlwaysInv(Next(s, steps[0]), steps[1..]); }
  }

  /** Never two fetches at once; and a request that no fetch has begun after yet has
      one coming, so that at rest the latest fetch began after the latest request. */
  predicate Followed(s: State) {
    && s.spawned + s.fetching <= 1
    && (s.seen < s.requests ==> s.spawned > 0 || (s.flags.pending && s.spawned + s.fetching == 1) || s.again > 0)
    && (s.spawned == 0 && s.fetching == 0 && s.again == 0 ==> s.seen == s.requests)
  }

  lemma EveryRequestIsFollowed(s: State, steps: seq<Step>)
    requires s == Init() && Legal(s, steps)
    ensures Followed(Exec(s, steps))
  {
    AlwaysInv(s, steps);
    assert Inv(Exec(s, steps));
  }
}
